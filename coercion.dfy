/** The driver's coercion of loosely typed host answers into booleans
    (`UTILS.StringToBoolean`). Host answers are modelled by the JavaScript
    type tag the coercion dispatches on; its result has a third outcome,
    `Unknown`, standing for the `null` it returns for `undefined`. */
module Coercion {

  /** A value returned by a host API primitive, classified by `typeof`. */
  datatype HostValue =
    | Str(s: string)        // typeof 'string'
    | Obj(text: string)     // typeof 'object' (a String wrapper, ...), with the text it converts to
    | Null                  // typeof null is 'object' too; it converts to the text "null"
    | Num(n: real)          // typeof 'number', a finite value (an infinity coerces like any non-zero number)
    | NaN                   // typeof 'number', the value NaN
    | Bool(b: bool)         // typeof 'boolean'
    | Undefined             // typeof 'undefined'
    | Other                 // 'function', 'symbol', 'bigint'

  /** The coerced result: JavaScript `true`, `false`, or `null` ("unknown"). */
  datatype Tristate = True | False | Unknown

  function LowerAscii(c: char): char {
    if 'A' <= c <= 'Z' then (c as int - 'A' as int + 'a' as int) as char else c
  }

  /** The pattern /(true|1)/i matches at index i of s. */
  ghost predicate MatchAt(s: string, i: int) {
    0 <= i < |s| &&
    (s[i] == '1' ||
     (i + 4 <= |s| && LowerAscii(s[i]) == 't' && LowerAscii(s[i + 1]) == 'r' &&
      LowerAscii(s[i + 2]) == 'u' && LowerAscii(s[i + 3]) == 'e'))
  }

  /** Scans s left to right for "true" (any letter case) or "1". */
  function ContainsTrueOr1(s: string): bool {
    if |s| == 0 then false
    else
      s[0] == '1' ||
      (|s| >= 4 && LowerAscii(s[0]) == 't' && LowerAscii(s[1]) == 'r' &&
       LowerAscii(s[2]) == 'u' && LowerAscii(s[3]) == 'e') ||
      ContainsTrueOr1(s[1..])
  }

  /** The scan finds a match exactly when the pattern matches somewhere. */
  lemma {:induction false} ContainsTrueOr1Correct(s: string)
    ensures ContainsTrueOr1(s) <==> exists i :: MatchAt(s, i)
  {
    if |s| > 0 {
      var t := s[1..];
      ContainsTrueOr1Correct(t);
      forall i | 0 <= i < |t|
        ensures MatchAt(t, i) <==> MatchAt(s, i + 1)
      {
      }
      if ContainsTrueOr1(s) {
        if !(s[0] == '1' || (|s| >= 4 && LowerAscii(s[0]) == 't' && LowerAscii(s[1]) == 'r' &&
             LowerAscii(s[2]) == 'u' && LowerAscii(s[3]) == 'e')) {
          var i :| MatchAt(t, i);
          assert MatchAt(s, i + 1);
        } else {
          assert MatchAt(s, 0);
        }
      } else {
        forall i | MatchAt(s, i) && i > 0
          ensures MatchAt(t, i - 1)
        {
        }
      }
    }
  }

  /** UTILS.StringToBoolean: strings and objects are true when their text
      contains "true" (any case) or "1" anywhere; numbers when non-zero and
      not NaN; booleans are returned as they are; `undefined` gives the
      distinct unknown result; every other type gives false. */
  function StringToBoolean(v: HostValue): (r: Tristate)
    ensures r == Unknown <==> v.Undefined?
    ensures v.Str? ==> (r == True <==> exists i :: MatchAt(v.s, i))
    ensures v.Obj? ==> (r == True <==> exists i :: MatchAt(v.text, i))
    ensures v.Num? ==> (r == True <==> v.n != 0.0)
    ensures v.Bool? ==> (r == True <==> v.b)
    ensures v.Null? || v.NaN? || v.Other? ==> r == False
  {
    match v
    case Str(s) => ContainsTrueOr1Correct(s); if ContainsTrueOr1(s) then True else False
    case Obj(text) => ContainsTrueOr1Correct(text); if ContainsTrueOr1(text) then True else False
    case Null => ContainsTrueOr1Correct("null"); if ContainsTrueOr1("null") then True else False
    case Num(n) => if n != 0.0 then True else False
    case NaN => False
    case Bool(b) => if b then True else False
    case Undefined => Unknown
    case Other => False
  }

  /** "false1" and "10" are true: the pattern is searched for, not matched whole. */
  lemma SubstringMatchesCount()
    ensures StringToBoolean(Str("false1")) == True
    ensures StringToBoolean(Str("10")) == True
    ensures StringToBoolean(Obj("TRUE")) == True
    ensures StringToBoolean(Str("false")) == False
    ensures StringToBoolean(Str("")) == False
  {
    assert MatchAt("false1", 5);
    assert MatchAt("10", 0);
    assert MatchAt("TRUE", 0);
  }
}
