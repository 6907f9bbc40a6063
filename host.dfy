/** The LMS side of the run-time API, as the driver sees it: a scripted host
    whose answers are fixed for the session, plus a ghost log of every
    primitive the driver invokes on it. The LMS itself is an external actor;
    only the answers it gives are modelled. */
module Lms {
  import opened Protocol
  import opened Coercion

  /** The host's scripted answers. Every primitive other than the three error
      queries leaves an error state behind, which the next `GetLastError`
      reports: `openCode` after initialize, `closeCode` after finish,
      `commitCode` after commit, `setCode` after a write and
      `readCode(element)` after a read of that element. Codes are given after
      base-10 parsing (`None` when the host's string does not parse). */
  datatype Script = Script(
    values: map<string, string>,
    initAnswer: HostValue,
    finishAnswer: HostValue,
    commitAnswer: HostValue,
    setAnswer: HostValue,
    openCode: Option<int>,
    closeCode: Option<int>,
    commitCode: Option<int>,
    setCode: Option<int>,
    readCode: string -> Option<int>,
    errorString: string,
    diagnostic: string)
  {
    /** The value GetValue answers for an element: the stored one, or "". */
    function Lookup(element: string): string {
      if element in values then values[element] else ""
    }
  }

  /** The run-time primitives. `Open` is LMSInitialize (1.2) / Initialize
      (2004), `Close` is LMSFinish / Terminate; the others carry the 2004
      name, the 1.2 name being the same with an `LMS` prefix (GetDiagnostic
      for LMSGetDiagnostic). */
  datatype Primitive =
    | Open
    | Close
    | GetValue(element: string)
    | SetValue(element: string, value: string)
    | Commit
    | GetLastError
    | GetErrorString(code: Option<int>)
    | GetDiagnostic(code: Option<int>)

  /** One invocation, on the API object of the given version. */
  datatype Call = Call(version: Version, primitive: Primitive)

  class Host {
    const script: Script
    /** The error state left by the last primitive; "no error" before any. */
    var lastError: Option<int>
    ghost var calls: seq<Call>

    constructor(script: Script)
      ensures this.script == script && lastError == Some(0) && calls == []
    {
      this.script := script;
      lastError := Some(0);
      calls := [];
    }

    method Initialize(v: Version) returns (r: HostValue)
      modifies this
      ensures r == script.initAnswer && lastError == script.openCode
      ensures calls == old(calls) + [Call(v, Open)]
    {
      r := script.initAnswer;
      lastError := script.openCode;
      calls := calls + [Call(v, Open)];
    }

    method Terminate(v: Version) returns (r: HostValue)
      modifies this
      ensures r == script.finishAnswer && lastError == script.closeCode
      ensures calls == old(calls) + [Call(v, Close)]
    {
      r := script.finishAnswer;
      lastError := script.closeCode;
      calls := calls + [Call(v, Close)];
    }

    method GetValue(v: Version, element: string) returns (r: string)
      modifies this
      ensures r == script.Lookup(element) && lastError == script.readCode(element)
      ensures calls == old(calls) + [Call(v, Primitive.GetValue(element))]
    {
      r := script.Lookup(element);
      lastError := script.readCode(element);
      calls := calls + [Call(v, Primitive.GetValue(element))];
    }

    method SetValue(v: Version, element: string, value: string) returns (r: HostValue)
      modifies this
      ensures r == script.setAnswer && lastError == script.setCode
      ensures calls == old(calls) + [Call(v, Primitive.SetValue(element, value))]
    {
      r := script.setAnswer;
      lastError := script.setCode;
      calls := calls + [Call(v, Primitive.SetValue(element, value))];
    }

    method Commit(v: Version) returns (r: HostValue)
      modifies this
      ensures r == script.commitAnswer && lastError == script.commitCode
      ensures calls == old(calls) + [Call(v, Primitive.Commit)]
    {
      r := script.commitAnswer;
      lastError := script.commitCode;
      calls := calls + [Call(v, Primitive.Commit)];
    }

    method GetLastError(v: Version) returns (code: Option<int>)
      modifies this`calls
      ensures code == lastError && calls == old(calls) + [Call(v, Primitive.GetLastError)]
    {
      code := lastError;
      calls := calls + [Call(v, Primitive.GetLastError)];
    }

    method GetErrorString(v: Version, code: Option<int>) returns (r: string)
      modifies this`calls
      ensures r == script.errorString && calls == old(calls) + [Call(v, Primitive.GetErrorString(code))]
    {
      r := script.errorString;
      calls := calls + [Call(v, Primitive.GetErrorString(code))];
    }

    method GetDiagnostic(v: Version, code: Option<int>) returns (r: string)
      modifies this`calls
      ensures r == script.diagnostic && calls == old(calls) + [Call(v, Primitive.GetDiagnostic(code))]
    {
      r := script.diagnostic;
      calls := calls + [Call(v, Primitive.GetDiagnostic(code))];
    }
  }
}
