/** API discovery (`SCORM.API.find` and the search order of `SCORM.API.get`)
    over an abstract window graph. Windows, frames and the opener's document
    are records in one sequence; a record says whether it exposes the 1.2
    `API` object, the 2004 `API_1484_11` object, and where its `parent`,
    `opener` and `document` links lead. Identity of windows is identity of
    indices, so `win.parent === win` is `parent == Some(win)`. */
module Locator {
  import opened Protocol

  /** The source's `findAttemptLimit`; the loop test `findAttempts <= 500`
      lets the search climb one hop more than this. */
  const FindAttemptLimit := 500

  datatype Frame = Frame(
    hasApi12: bool,          // `win.API` is present
    hasApi2004: bool,        // `win.API_1484_11` is present
    parent: Option<nat>,     // `win.parent` (None when it is absent, e.g. on a document)
    opener: Option<nat>,     // `win.opener`
    document: Option<nat>)   // `win.document`, when it is searched as a window of its own

  /** `window` is the content's own window, `top` is `window.top`. */
  datatype Env = Env(frames: seq<Frame>, window: nat, top: nat)

  /** A found API object: the record exposing it and which of the two shapes it is. */
  datatype ApiRef = ApiRef(frame: nat, version: Version)

  /** Where the climbing loop stopped and the final value of `findAttempts`. */
  datatype Stop = Stop(frame: nat, attempts: nat)

  /** The outcome of a search: the API found (if any) and the version known afterwards. */
  datatype Discovery = Discovery(api: Option<ApiRef>, version: Option<Version>)

  predicate LinkOk(link: Option<nat>, n: nat) {
    link.None? || link.value < n
  }

  predicate Linked(frames: seq<Frame>) {
    forall i | 0 <= i < |frames| ::
      LinkOk(frames[i].parent, |frames|) && LinkOk(frames[i].opener, |frames|) &&
      LinkOk(frames[i].document, |frames|)
  }

  predicate WellFormed(env: Env) {
    Linked(env.frames) && env.window < |env.frames| && env.top < |env.frames|
  }

  predicate HasApi(f: Frame) {
    f.hasApi12 || f.hasApi2004
  }

  /** A frame the loop climbs out of: it exposes neither API and has a parent other than itself. */
  predicate Climbable(frames: seq<Frame>, w: nat)
    requires w < |frames|
  {
    !HasApi(frames[w]) && frames[w].parent.Some? && frames[w].parent.value != w
  }

  /** The guard of the loop in `find`. */
  predicate Continues(frames: seq<Frame>, w: nat, attempts: nat)
    requires w < |frames|
  {
    Climbable(frames, w) && attempts <= FindAttemptLimit
  }

  /** The frame k parent links above w, if the chain is that long. */
  function Ancestor(frames: seq<Frame>, w: nat, k: nat): (r: Option<nat>)
    requires Linked(frames) && w < |frames|
    ensures r.Some? ==> r.value < |frames|
    decreases k
  {
    if k == 0 then Some(w)
    else match frames[w].parent
      case None => None
      case Some(p) => Ancestor(frames, p, k - 1)
  }

  /** The k-th ancestor of w exists and the loop would climb out of it. */
  predicate ClimbableAt(frames: seq<Frame>, w: nat, k: nat)
    requires Linked(frames) && w < |frames|
  {
    Ancestor(frames, w, k).Some? && Climbable(frames, Ancestor(frames, w, k).value)
  }

  /** Where the loop of `find` stops when it is at w with `findAttempts` equal
      to attempts: a frame reached by following parent links, at which the
      loop guard is false, after at most 501 hops in all. */
  function Climb(frames: seq<Frame>, w: nat, attempts: nat): (r: Stop)
    requires Linked(frames) && w < |frames| && attempts <= FindAttemptLimit + 1
    ensures r.frame < |frames|
    ensures attempts <= r.attempts <= FindAttemptLimit + 1
    ensures Ancestor(frames, w, r.attempts - attempts) == Some(r.frame)
    ensures !Continues(frames, r.frame, r.attempts)
    decreases FindAttemptLimit + 1 - attempts
  {
    if Continues(frames, w, attempts) then Climb(frames, frames[w].parent.value, attempts + 1)
    else Stop(w, attempts)
  }

  /** The loop of `find`: climb parent links while the current window exposes
      no API, has a parent that is not itself, and fewer than 501 hops were made. */
  method ClimbFrames(frames: seq<Frame>, start: nat) returns (win: nat, findAttempts: nat)
    requires Linked(frames) && start < |frames|
    ensures Stop(win, findAttempts) == Climb(frames, start, 0)
  {
    win, findAttempts := start, 0;
    while !HasApi(frames[win]) && frames[win].parent.Some? && frames[win].parent.value != win &&
          findAttempts <= FindAttemptLimit
      invariant win < |frames| && findAttempts <= FindAttemptLimit + 1
      invariant Climb(frames, win, findAttempts) == Climb(frames, start, 0)
      decreases FindAttemptLimit + 1 - findAttempts
    {
      findAttempts := findAttempts + 1;
      win := frames[win].parent.value;
    }
  }

  /** Every frame the loop passes on its way up exposes no API and is not a
      root: the loop stops at the FIRST frame exposing either API shape. */
  lemma {:induction false} ClimbPassesOnlyBareFrames(frames: seq<Frame>, w: nat, attempts: nat, j: nat)
    requires Linked(frames) && w < |frames| && attempts <= FindAttemptLimit + 1
    requires j < Climb(frames, w, attempts).attempts - attempts
    ensures ClimbableAt(frames, w, j)
    decreases j
  {
    assert Continues(frames, w, attempts);
    if j > 0 {
      ClimbPassesOnlyBareFrames(frames, frames[w].parent.value, attempts + 1, j - 1);
    }
  }

  /** When the first 501 frames of the chain (hops 0 to 500) are all climbable,
      the loop climbs exactly 501 hops and stops at the frame 501 hops up,
      without looking any further: the bound admits one hop more than the
      500 of `findAttemptLimit`. */
  lemma {:induction false} ClimbExhaustsBound(frames: seq<Frame>, w: nat, attempts: nat)
    requires Linked(frames) && w < |frames| && attempts <= FindAttemptLimit + 1
    requires forall j :: 0 <= j <= FindAttemptLimit - attempts ==> ClimbableAt(frames, w, j)
    ensures Ancestor(frames, w, FindAttemptLimit + 1 - attempts).Some?
    ensures Climb(frames, w, attempts) ==
            Stop(Ancestor(frames, w, FindAttemptLimit + 1 - attempts).value, FindAttemptLimit + 1)
    decreases FindAttemptLimit + 1 - attempts
  {
    if attempts <= FindAttemptLimit {
      assert ClimbableAt(frames, w, 0);
      var p := frames[w].parent.value;
      forall j | 0 <= j <= FindAttemptLimit - (attempts + 1)
        ensures ClimbableAt(frames, p, j)
      {
        assert ClimbableAt(frames, w, j + 1);
      }
      ClimbExhaustsBound(frames, p, attempts + 1);
    }
  }

  /** The choice `find` makes at the frame where the loop stopped. With a
      preset version only that version's object is taken and the version is
      kept; with none, `API_1484_11` is preferred and recorded as 2004,
      else `API` as 1.2. */
  function Pick(version: Option<Version>, frame: Frame, at: nat): (r: Discovery)
    ensures r.api.Some? ==> r.api.value.frame == at && r.version == Some(r.api.value.version)
    ensures r.api.None? ==> r.version == version
    ensures version.Some? ==> r.version == version
    ensures version == Some(Scorm12) ==> (r.api.Some? <==> frame.hasApi12)
    ensures version == Some(Scorm2004) ==> (r.api.Some? <==> frame.hasApi2004)
    ensures version.None? ==> (r.api.Some? <==> HasApi(frame))
    ensures version.None? && frame.hasApi2004 ==> r.version == Some(Scorm2004)
    ensures version.None? && !frame.hasApi2004 && frame.hasApi12 ==> r.version == Some(Scorm12)
  {
    match version
    case Some(Scorm2004) =>
      Discovery(if frame.hasApi2004 then Some(ApiRef(at, Scorm2004)) else None, version)
    case Some(Scorm12) =>
      Discovery(if frame.hasApi12 then Some(ApiRef(at, Scorm12)) else None, version)
    case None =>
      if frame.hasApi2004 then Discovery(Some(ApiRef(at, Scorm2004)), Some(Scorm2004))
      else if frame.hasApi12 then Discovery(Some(ApiRef(at, Scorm12)), Some(Scorm12))
      else Discovery(None, None)
  }

  /** `find(start)`: the choice made at the frame where the climb stops. */
  function FindFrom(frames: seq<Frame>, version: Option<Version>, start: nat): Discovery
    requires Linked(frames) && start < |frames|
  {
    var stop := Climb(frames, start, 0).frame;
    Pick(version, frames[stop], stop)
  }

  /** Whether `get` searches from the parent: `win.parent && win.parent !== win`. */
  predicate ParentSearched(env: Env)
    requires WellFormed(env)
  {
    var w := env.frames[env.window];
    w.parent.Some? && w.parent.value != env.window
  }

  /** The search from the parent window takes place and finds an API. */
  predicate ParentFinds(env: Env, version: Option<Version>)
    requires WellFormed(env)
  {
    ParentSearched(env) && FindFrom(env.frames, version, env.frames[env.window].parent.value).api.Some?
  }

  /** `get`: search from the parent window, then (if nothing was found) from
      the top window's opener, then from the opener's document. A search
      that finds nothing leaves the version as it was, so every fallback
      search runs with the version `get` started with. */
  function Locate(env: Env, version: Option<Version>): (r: Discovery)
    requires WellFormed(env)
    ensures r.api.Some? ==> r.api.value.frame < |env.frames| && r.version == Some(r.api.value.version)
    ensures r.api.None? || version.Some? ==> r.version == version
    ensures version.Some? && r.api.Some? ==> r.api.value.version == version.value
    ensures ParentFinds(env, version) ==> r == FindFrom(env.frames, version, env.frames[env.window].parent.value)
    ensures !ParentFinds(env, version) && env.frames[env.top].opener.None? ==> r == Discovery(None, version)
    ensures !ParentFinds(env, version) && env.frames[env.top].opener.Some? ==>
              var o := env.frames[env.top].opener.value;
              var viaOpener := FindFrom(env.frames, version, o);
              var document := env.frames[o].document;
              if viaOpener.api.Some? then r == viaOpener
              else if document.Some? then r == FindFrom(env.frames, version, document.value)
              else r == Discovery(None, version)
  {
    var frames := env.frames;
    var viaParent :=
      if ParentSearched(env) then FindFrom(frames, version, frames[env.window].parent.value)
      else Discovery(None, version);
    var opener := frames[env.top].opener;
    var viaOpener :=
      if viaParent.api.None? && opener.Some? then FindFrom(frames, viaParent.version, opener.value)
      else viaParent;
    if viaOpener.api.None? && opener.Some? && frames[opener.value].document.Some? then
      FindFrom(frames, viaOpener.version, frames[opener.value].document.value)
    else viaOpener
  }

  /** With no frame exposing an API anywhere, discovery finds nothing and
      leaves the version as it was. */
  lemma NothingToFind(env: Env, version: Option<Version>)
    requires WellFormed(env)
    requires forall i | 0 <= i < |env.frames| :: !HasApi(env.frames[i])
    ensures Locate(env, version) == Discovery(None, version)
  {
  }

  /** A preset version looks only at the frame where the climb stopped: the
      climb stops at a 1.2 frame, so the 2004 object one level up is never
      seen and nothing is found. */
  lemma PresetSeesOnlyStopFrame()
    ensures var frames := [Frame(true, false, Some(1), None, None), Frame(false, true, Some(1), None, None)];
            FindFrom(frames, Some(Scorm2004), 0).api.None? &&
            FindFrom(frames, None, 1).api == Some(ApiRef(1, Scorm2004))
  {
  }
}
