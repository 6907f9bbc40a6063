/** The shared `pipwerks.SCORM` object of the driver: API discovery and the
    cached handle, the connection state machine (`connection.initialize`,
    `connection.terminate`), the data channel (`data.get`, `data.set`,
    `data.save`, `status`) and the error reporter (`debug.getCode`,
    `debug.getInfo`, `debug.getDiagnosticInfo`). Every host primitive the
    driver invokes lands in the host's ghost call log, so each contract says
    exactly which calls were made and in what order. */
module Scorm {
  import opened Protocol
  import opened Coercion
  import opened Locator
  import opened Lms

  /** The `action` argument of `status`: null, 'get', 'set' (with its
      possibly-null status) or any other string. */
  datatype StatusAction = NoAction | GetStatus | SetStatus(status: Option<string>) | UnknownAction

  /** `status` answers the string `data.get` returned or the coerced
      result of `data.set` (false when nothing was done). */
  datatype StatusResult = Text(text: string) | Flag(flag: Tristate)

  /** Host calls made by a `data.get` of an element that answered value:
      the read, the error-code query, and on failure the error description. */
  function ReadTrace(v: Version, element: string, value: string, code: Option<int>): seq<Call> {
    [Call(v, GetValue(element)), Call(v, GetLastError)] +
    (if ReadSucceeds(value, code) then [] else [Call(v, GetErrorString(code))])
  }

  /** Host calls made by a `data.set`: the write and, when it was not
      accepted, the description of error code 0 (`data.set` never queries
      the real code). */
  function WriteTrace(v: Version, element: string, value: string, answer: Tristate): seq<Call> {
    [Call(v, SetValue(element, value))] +
    (if answer == True then [] else [Call(v, GetErrorString(Some(0)))])
  }

  /** Host calls of the launch-status handling under version v: the read of
      the version's status element and, when it answered "not attempted" or
      "unknown", the write of "incomplete" to it. */
  function NormaliseTrace(v: Version, script: Script): seq<Call> {
    var field := StatusField(Some(v));
    var status := script.Lookup(field);
    ReadTrace(v, field, status, script.readCode(field)) +
    (if NeedsNormalising(status) then WriteTrace(v, field, "incomplete", StringToBoolean(script.setAnswer)) else [])
  }

  /** The cached completion status after that handling, given the one
      before: a failed read keeps it, an accepted rewrite caches
      "incomplete", and otherwise the value read is cached. */
  function NormalisedStatus(v: Version, script: Script, prior: Option<string>): Option<string> {
    var field := StatusField(Some(v));
    var status := script.Lookup(field);
    if !NeedsNormalising(status) then
      if ReadSucceeds(status, script.readCode(field)) then Some(status) else prior
    else if StringToBoolean(script.setAnswer) == True then Some("incomplete") else Some(status)
  }

  class Session {
    const env: Env
    const host: Host
    const handleCompletionStatus: bool
    const handleExitMode: bool
    var version: Option<Version>
    var handle: Option<ApiRef>
    var isFound: bool
    var isActive: bool
    var completionStatus: Option<string>
    var exitStatus: Option<string>
    /** How many times the window graph has been searched. */
    ghost var lookups: nat

    /** A found handle fixes the version to its shape; the found flag mirrors
        the handle; an active connection has a handle. */
    ghost predicate Valid()
      reads this
    {
      WellFormed(env) &&
      isFound == handle.Some? &&
      (handle.Some? ==> handle.value.frame < |env.frames| && version == Some(handle.value.version)) &&
      (isActive ==> handle.Some?)
    }

    /** The discovery fields are as they were. */
    twostate predicate Unmoved()
      reads this
    {
      handle == old(handle) && isFound == old(isFound) && version == old(version) && lookups == old(lookups)
    }

    /** The effect of `getHandle` on the discovery fields: a stored handle is
        kept without searching; otherwise the window graph is searched once
        and its outcome stored. */
    twostate predicate Discovered()
      reads this
    {
      WellFormed(env) &&
      if old(handle).Some? then Unmoved()
      else
        var d := Locate(env, old(version));
        handle == d.api && version == d.version && isFound == d.api.Some? && lookups == old(lookups) + 1
    }

    /** `getHandle` and nothing else happened to the session. */
    twostate predicate Resolved()
      reads this
    {
      Discovered() && isActive == old(isActive) &&
      completionStatus == old(completionStatus) && exitStatus == old(exitStatus)
    }

    /** The effect of `data.get(element)` answering r. The error code that
        decides success is the one the read itself left behind. */
    twostate predicate ReadEffect(element: string, r: string)
      reads this, host
    {
      Unmoved() && isActive == old(isActive) &&
      if !old(isActive) then
        r == "null" && completionStatus == old(completionStatus) && exitStatus == old(exitStatus) &&
        unchanged(host)
      else
        version.Some? &&
        var value := host.script.Lookup(element);
        var code := host.script.readCode(element);
        var ok := ReadSucceeds(value, code);
        r == value &&
        completionStatus == (if ok && IsStatusField(element) then Some(value) else old(completionStatus)) &&
        exitStatus == (if ok && IsExitField(element) then Some(value) else old(exitStatus)) &&
        host.calls == old(host.calls) + ReadTrace(version.value, element, value, code) &&
        host.lastError == code
    }

    /** The effect of `data.set(element, value)` answering r. The exit
        status is never cached by a write. */
    twostate predicate WriteEffect(element: string, value: string, r: Tristate)
      reads this, host
    {
      Unmoved() && isActive == old(isActive) && exitStatus == old(exitStatus) &&
      if !old(isActive) then
        r == False && completionStatus == old(completionStatus) && unchanged(host)
      else
        version.Some? &&
        var answer := StringToBoolean(host.script.setAnswer);
        r == answer &&
        completionStatus == (if answer == True && IsStatusField(element) then Some(value) else old(completionStatus)) &&
        host.calls == old(host.calls) + WriteTrace(version.value, element, value, answer) &&
        host.lastError == host.script.setCode
    }

    /** The effect of `data.save` answering r. */
    twostate predicate SaveEffect(r: Tristate)
      reads this, host
    {
      Unmoved() && isActive == old(isActive) &&
      completionStatus == old(completionStatus) && exitStatus == old(exitStatus) &&
      if !old(isActive) then
        r == False && unchanged(host)
      else
        version.Some? && r == StringToBoolean(host.script.commitAnswer) &&
        host.calls == old(host.calls) + [Call(version.value, Commit)] &&
        host.lastError == host.script.commitCode
    }

    /** The completion-status handling of a fresh launch, after the calls in
        before: the version's status element is read once through
        `status('get')`; a value of "not attempted" or "unknown" is
        rewritten once to "incomplete" through `status('set')`; any other
        value, or a failed read, causes no write. */
    twostate predicate StatusRewritten(before: seq<Call>)
      reads this, host
    {
      version.Some? &&
      var v := version.value;
      var field := StatusField(version);
      completionStatus == NormalisedStatus(v, host.script, old(completionStatus)) &&
      host.calls == before + NormaliseTrace(v, host.script) &&
      host.lastError == (if NeedsNormalising(host.script.Lookup(field)) then host.script.setCode
                         else host.script.readCode(field))
    }

    /** The outcome of the handshake of `connection.initialize` answering r:
        true, and active, exactly when the initialize primitive coerces to
        true and the error code it left is exactly 0. A failure reports the
        error when the code is not 0; a success normalises the completion
        status when `handleCompletionStatus` is on. */
    twostate predicate Opened(r: Tristate)
      reads this, host
    {
      version.Some? &&
      var v := version.value;
      var answer := StringToBoolean(host.script.initAnswer);
      var code := host.script.openCode;
      var started := old(host.calls) + [Call(v, Open), Call(v, GetLastError)];
      (r == True <==> answer == True && code == Some(0)) &&
      (isActive <==> r == True) &&
      (r != True ==>
         r == (if answer == True then False else answer) &&
         completionStatus == old(completionStatus) &&
         host.calls == started + (if code == Some(0) then [] else [Call(v, GetErrorString(code))]) &&
         host.lastError == code) &&
      (r == True ==>
         if handleCompletionStatus then StatusRewritten(started)
         else completionStatus == old(completionStatus) && host.calls == started && host.lastError == code)
    }

    /** The closing half of `connection.terminate` answering r, after the
        calls in before: a failed save makes no finish call and leaves the
        connection active; after a successful save the connection becomes
        inactive exactly when the finish primitive coerces to true, and the
        error is reported otherwise. */
    twostate predicate Closed(before: seq<Call>, r: Tristate)
      reads this, host
    {
      version.Some? &&
      var v := version.value;
      var saved := StringToBoolean(host.script.commitAnswer);
      var finished := StringToBoolean(host.script.finishAnswer);
      (saved != True ==>
         r == saved && isActive && host.calls == before + [Call(v, Commit)] &&
         host.lastError == host.script.commitCode) &&
      (saved == True ==>
         r == finished && (isActive <==> finished != True) &&
         host.calls == before + [Call(v, Commit), Call(v, Close)] +
                       (if finished == True then []
                        else [Call(v, GetLastError), Call(v, GetErrorString(host.script.closeCode))]) &&
         host.lastError == host.script.closeCode)
    }

    /** A fresh driver object: no handle yet, inactive, nothing cached. */
    constructor(env: Env, host: Host, version: Option<Version>, handleCompletionStatus: bool, handleExitMode: bool)
      requires WellFormed(env)
      ensures Valid()
      ensures this.env == env && this.host == host && this.version == version
      ensures this.handleCompletionStatus == handleCompletionStatus && this.handleExitMode == handleExitMode
      ensures handle.None? && !isActive && completionStatus.None? && exitStatus.None? && lookups == 0
    {
      this.env := env;
      this.host := host;
      this.handleCompletionStatus := handleCompletionStatus;
      this.handleExitMode := handleExitMode;
      this.version := version;
      handle := None;
      isFound := false;
      isActive := false;
      completionStatus := None;
      exitStatus := None;
      lookups := 0;
    }

    // ---------------------------------------------------------------- API discovery

    /** `API.find(start)`: climb to the first frame exposing an API (or to a
        root, or 501 hops up), then choose the object there by the version. */
    method Find(start: nat) returns (api: Option<ApiRef>)
      requires Linked(env.frames) && start < |env.frames|
      modifies this`version
      ensures Discovery(api, version) == FindFrom(env.frames, old(version), start)
    {
      var win, findAttempts := ClimbFrames(env.frames, start);
      var frame := env.frames[win];
      api := None;
      match version {
        case Some(Scorm2004) =>
          if frame.hasApi2004 {
            api := Some(ApiRef(win, Scorm2004));
          }
        case Some(Scorm12) =>
          if frame.hasApi12 {
            api := Some(ApiRef(win, Scorm12));
          }
        case None =>
          if frame.hasApi2004 {
            version := Some(Scorm2004);
            api := Some(ApiRef(win, Scorm2004));
          } else if frame.hasApi12 {
            version := Some(Scorm12);
            api := Some(ApiRef(win, Scorm12));
          }
      }
    }

    /** `API.get`: search from the parent, then the top window's opener,
        then the opener's document; raise the found flag on success. */
    method Get() returns (api: Option<ApiRef>)
      requires WellFormed(env)
      modifies this`version, this`isFound, this`lookups
      ensures Discovery(api, version) == Locate(env, old(version))
      ensures isFound == (old(isFound) || api.Some?)
      ensures lookups == old(lookups) + 1
    {
      api := None;
      var w := env.frames[env.window];
      if w.parent.Some? && w.parent.value != env.window {
        api := Find(w.parent.value);
      }
      var opener := env.frames[env.top].opener;
      if api.None? && opener.Some? {
        api := Find(opener.value);
      }
      if api.None? && opener.Some? && env.frames[opener.value].document.Some? {
        api := Find(env.frames[opener.value].document.value);
      }
      if api.Some? {
        isFound := true;
      }
      lookups := lookups + 1;
    }

    /** `API.getHandle`: search only while no handle is stored and none was
        found; a failed search is not remembered and is repeated next time. */
    method GetHandle() returns (h: Option<ApiRef>)
      requires Valid()
      modifies this`handle, this`version, this`isFound, this`lookups
      ensures Valid() && Resolved() && h == handle
    {
      if handle.None? && !isFound {
        handle := Get();
      }
      h := handle;
    }

    // ---------------------------------------------------------------- connection

    /** The version's initialize primitive (LMSInitialize / Initialize), coerced. */
    method CallOpen() returns (r: Tristate)
      requires Valid() && handle.Some?
      modifies host
      ensures r == StringToBoolean(host.script.initAnswer) && host.lastError == host.script.openCode
      ensures host.calls == old(host.calls) + [Call(version.value, Open)]
    {
      match version {
        case Some(v) =>
          var answer := host.Initialize(v);
          r := StringToBoolean(answer);
      }
    }

    /** The version's finish primitive (LMSFinish / Terminate), coerced. */
    method CallClose() returns (r: Tristate)
      requires Valid() && handle.Some?
      modifies host
      ensures r == StringToBoolean(host.script.finishAnswer) && host.lastError == host.script.closeCode
      ensures host.calls == old(host.calls) + [Call(version.value, Close)]
    {
      match version {
        case Some(v) =>
          var answer := host.Terminate(v);
          r := StringToBoolean(answer);
      }
    }

    /** The completion-status handling of a fresh launch (see `StatusRewritten`). */
    method NormaliseStatus()
      requires Valid() && isActive
      modifies this, host
      ensures Valid() && Unmoved() && isActive && exitStatus == old(exitStatus)
      ensures StatusRewritten(old(host.calls))
    {
      var current := Status(GetStatus);
      if current.Text? && current.text != "" {
        if current.text == "not attempted" {
          var _ := Status(SetStatus(Some("incomplete")));
        } else if current.text == "unknown" {
          var _ := Status(SetStatus(Some("incomplete")));
        }
      }
    }

    /** A confirmed handshake: the connection becomes active and, with
        `handleCompletionStatus`, the launch status is normalised. */
    method Activate()
      requires Valid() && handle.Some? && !isActive
      modifies this, host
      ensures Valid() && Unmoved() && isActive && exitStatus == old(exitStatus)
      ensures if handleCompletionStatus then StatusRewritten(old(host.calls))
              else completionStatus == old(completionStatus) && unchanged(host)
    {
      isActive := true;
      if handleCompletionStatus {
        NormaliseStatus();
      }
    }

    /** The handshake of `connection.initialize` once a handle is known:
        call the initialize primitive and accept its true answer only when
        the error code is then exactly 0; report the error otherwise. */
    method Handshake() returns (r: Tristate)
      requires Valid() && handle.Some? && !isActive
      modifies this, host
      ensures Valid() && Unmoved() && exitStatus == old(exitStatus)
      ensures Opened(r)
    {
      r := CallOpen();
      if r == True {
        // the primitive's own answer is not trusted: the error code must be 0
        var code := GetCode();
        if code == Some(0) {
          Activate();
        } else {
          r := False;
          var _ := GetInfo(code);
        }
      } else {
        var code := GetCode();
        if code != Some(0) {
          var _ := GetInfo(code);
        }
      }
    }

    /** `connection.initialize`: a no-op answering false while active.
        Otherwise find the handle (failing without a host call when there is
        none) and perform the handshake; on success the connection becomes
        active and, with `handleCompletionStatus`, a status of "not
        attempted" or "unknown" is rewritten once to "incomplete". */
    method Initialize() returns (r: Tristate)
      requires Valid()
      modifies this, host
      ensures Valid()
      ensures old(isActive) ==> r == False && unchanged(this, host)
      ensures !old(isActive) ==> Discovered() && exitStatus == old(exitStatus)
      ensures !old(isActive) && handle.None? ==>
                r == False && !isActive && completionStatus == old(completionStatus) && unchanged(host)
      ensures !old(isActive) && handle.Some? ==> Opened(r)
    {
      r := False;
      if !isActive {
        var api := GetHandle();
        if api.Some? {
          r := Handshake();
        }
      }
    }

    /** The exit-mode handling of `connection.terminate`: write "suspend"
        unless the cached completion status is "completed" or "passed", in
        which case write the version's normal exit ("logout" / "normal"). */
    method WriteExitMode() returns (r: Tristate)
      requires Valid() && isActive
      modifies this, host
      ensures Valid() && Unmoved() && isActive
      ensures completionStatus == old(completionStatus) && exitStatus == old(exitStatus)
      ensures var v := version.value;
              WriteEffect(ExitField(v), ExitValue(v, completionStatus), r)
    {
      if completionStatus != Some("completed") && completionStatus != Some("passed") {
        match version {
          case Some(Scorm12) => r := DataSet(Exit12, "suspend");
          case Some(Scorm2004) => r := DataSet(Exit2004, "suspend");
        }
      } else {
        match version {
          case Some(Scorm12) => r := DataSet(Exit12, "logout");
          case Some(Scorm2004) => r := DataSet(Exit2004, "normal");
        }
      }
    }

    /** The closing half of `connection.terminate` (see `Closed`). */
    method SaveAndClose() returns (r: Tristate)
      requires Valid() && isActive
      modifies this, host
      ensures Valid() && Unmoved()
      ensures completionStatus == old(completionStatus) && exitStatus == old(exitStatus)
      ensures Closed(old(host.calls), r)
    {
      r := DataSave();
      if r == True {
        r := CallClose();
        if r == True {
          isActive := false;
        } else {
          var code := GetCode();
          var _ := GetInfo(code);
        }
      }
    }

    /** `connection.terminate`: a no-op answering false while inactive.
        Otherwise, with `handleExitMode` and no truthy cached exit status,
        write the exit value the cached completion status calls for (whose
        answer is then discarded); then save, and only if the save succeeds
        call the version's finish primitive. The connection becomes inactive
        exactly when that primitive's answer coerces to true. */
    method Terminate() returns (r: Tristate)
      requires Valid()
      modifies this, host
      ensures Valid()
      ensures !old(isActive) ==> r == False && unchanged(this, host)
      ensures old(isActive) ==>
                Unmoved() && version.Some? &&
                completionStatus == old(completionStatus) && exitStatus == old(exitStatus) &&
                var v := version.value;
                var exitTrace :=
                  if handleExitMode && !Truthy(old(exitStatus)) then
                    WriteTrace(v, ExitField(v), ExitValue(v, old(completionStatus)), StringToBoolean(host.script.setAnswer))
                  else [];
                Closed(old(host.calls) + exitTrace, r)
    {
      r := False;
      if isActive {
        var api := GetHandle();
        if api.Some? {
          if handleExitMode && !Truthy(exitStatus) {
            r := WriteExitMode();
          }
          // the answer of the exit write is overwritten: only the save decides
          r := SaveAndClose();
        }
      }
    }

    // ---------------------------------------------------------------- error reporter

    /** `debug.getCode`: the error code the host's last primitive left, or 0
        when there is no handle. Asking does not change the host's error state. */
    method GetCode() returns (code: Option<int>)
      requires Valid()
      modifies this`handle, this`version, this`isFound, this`lookups, host`calls
      ensures Valid() && Resolved()
      ensures handle.None? ==> code == Some(0) && host.calls == old(host.calls)
      ensures handle.Some? ==>
                code == host.lastError && host.calls == old(host.calls) + [Call(version.value, GetLastError)]
    {
      var api := GetHandle();
      code := Some(0);
      if api.Some? {
        match version {
          case Some(v) => code := host.GetLastError(v);
          case None =>
        }
      }
    }

    /** `debug.getInfo(code)`: the host's description of code, or "" when there is no handle. */
    method GetInfo(code: Option<int>) returns (info: string)
      requires Valid()
      modifies this`handle, this`version, this`isFound, this`lookups, host`calls
      ensures Valid() && Resolved()
      ensures handle.None? ==> info == "" && host.calls == old(host.calls)
      ensures handle.Some? ==>
                info == host.script.errorString &&
                host.calls == old(host.calls) + [Call(version.value, GetErrorString(code))]
    {
      var api := GetHandle();
      info := "";
      if api.Some? {
        match version {
          case Some(v) => info := host.GetErrorString(v, code);
          case None =>
        }
      }
    }

    /** `debug.getDiagnosticInfo(code)`: the host's diagnostic for code, or "" when there is no handle. */
    method GetDiagnosticInfo(code: Option<int>) returns (info: string)
      requires Valid()
      modifies this`handle, this`version, this`isFound, this`lookups, host`calls
      ensures Valid() && Resolved()
      ensures handle.None? ==> info == "" && host.calls == old(host.calls)
      ensures handle.Some? ==>
                info == host.script.diagnostic &&
                host.calls == old(host.calls) + [Call(version.value, GetDiagnostic(code))]
    {
      var api := GetHandle();
      info := "";
      if api.Some? {
        match version {
          case Some(v) => info := host.GetDiagnostic(v, code);
          case None =>
        }
      }
    }

    // ---------------------------------------------------------------- data channel

    /** `data.get(element)`: read through the handle; the read counts as
        successful when the value is non-empty or the error code is 0, and a
        successful read of a status or exit element is cached. An inactive
        connection answers the text "null" without any host call. */
    method DataGet(element: string) returns (r: string)
      requires Valid()
      modifies this, host
      ensures Valid() && ReadEffect(element, r)
    {
      var value: Option<string> := None;
      if isActive {
        var api := GetHandle();
        if api.Some? {
          match version {
            case Some(v) =>
              var s := host.GetValue(v, element);
              value := Some(s);
            case None =>
          }
          var code := GetCode();
          if value != Some("") || code == Some(0) {
            if IsStatusField(element) {
              completionStatus := value;
            } else if IsExitField(element) {
              exitStatus := value;
            }
          } else {
            var _ := GetInfo(code);
          }
        }
      }
      r := if value.Some? then value.value else "null";
    }

    /** `data.set(element, value)`: write through the handle and answer the
        coerced result; an accepted write of a status element is cached. */
    method DataSet(element: string, value: string) returns (r: Tristate)
      requires Valid()
      modifies this, host
      ensures Valid() && WriteEffect(element, value, r)
    {
      r := False;
      if isActive {
        var api := GetHandle();
        if api.Some? {
          match version {
            case Some(v) =>
              var answer := host.SetValue(v, element, value);
              r := StringToBoolean(answer);
            case None =>
          }
          if r == True {
            if IsStatusField(element) {
              completionStatus := Some(value);
            }
          } else {
            var _ := GetInfo(Some(0));
          }
        }
      }
    }

    /** `data.save`: ask the host to commit and answer the coerced result. */
    method DataSave() returns (r: Tristate)
      requires Valid()
      modifies this, host
      ensures Valid() && SaveEffect(r)
    {
      r := False;
      if isActive {
        var api := GetHandle();
        if api.Some? {
          match version {
            case Some(v) =>
              var answer := host.Commit(v);
              r := StringToBoolean(answer);
            case None =>
          }
        }
      }
    }

    /** `status(action)`: read or write the version's status element. */
    method Status(action: StatusAction) returns (r: StatusResult)
      requires Valid()
      modifies this, host
      ensures Valid() && version == old(version)
      ensures action == GetStatus ==> r.Text? && ReadEffect(StatusField(version), r.text)
      ensures action.SetStatus? && action.status.Some? ==>
                r.Flag? && WriteEffect(StatusField(version), action.status.value, r.flag)
      ensures action.NoAction? || action.UnknownAction? || action == SetStatus(None) ==>
                r == Flag(False) && unchanged(this, host)
    {
      r := Flag(False);
      if action != NoAction {
        var element := StatusField(version);
        match action {
          case GetStatus =>
            var s := DataGet(element);
            r := Text(s);
          case SetStatus(status) =>
            if status.Some? {
              var ok := DataSet(element, status.value);
              r := Flag(ok);
            }
          case _ =>
        }
      }
    }
  }
}
