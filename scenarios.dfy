/** Five runs of the driver, each on a concrete page and host: three go
    through the facade end to end, and two drive a session directly to
    show how the handshake and the status normalisation treat error codes.
    On every page the content runs in frame 0, whose parent is frame 1, the
    LMS's top window, which is its own parent and has no opener. */
module Scenarios {
  import opened Protocol
  import opened Coercion
  import opened Locator
  import opened Lms
  import opened Scorm
  import opened Facade

  /** A page whose top window exposes the given API shapes. */
  function Page(has12: bool, has2004: bool): (env: Env)
    ensures WellFormed(env) && ParentSearched(env)
  {
    Env([Frame(false, false, Some(1), None, None), Frame(has12, has2004, Some(1), None, None)], 0, 1)
  }

  /** An LMS that accepts every call and reports error code 0 after each. */
  function Cooperative(values: map<string, string>): Script {
    Script(values, Str("true"), Str("true"), Str("true"), Str("true"),
           Some(0), Some(0), Some(0), Some(0), _ => Some(0), "No error", "")
  }

  /** A 2004 API at the parent frame, an initialize answering "true" and an
      error code of "0": the driver is available and speaks SCORM 2004. */
  method LaunchFindsParent2004() returns (available: bool, version: Option<Version>)
    ensures available && version == Some(Scorm2004)
  {
    var host := new Host(Cooperative(map[]));
    var driver := new Driver(Page(false, true), host);
    available := driver.isAvailable;
    version := driver.session.version;
  }

  /** The initialize primitive answers "true" but leaves error code 101:
      the answer is not trusted, `connection.initialize` answers false, the
      connection stays inactive, and the error description was asked for. */
  method LaunchRejectedByErrorCode() returns (r: Tristate, active: bool, host: Host)
    ensures r == False && !active
    ensures host.calls ==
              [Call(Scorm2004, Open), Call(Scorm2004, GetLastError), Call(Scorm2004, GetErrorString(Some(101)))]
  {
    host := new Host(Cooperative(map[]).(openCode := Some(101)));
    var session := new Session(Page(false, true), host, None, true, true);
    r := session.Initialize();
    active := session.isActive;
  }

  /** The launch succeeds but the read of `cmi.completion_status` during the
      status handling answers "" with error code 403: the read counts as
      failed, nothing is cached or written, and the error is described. */
  method FailedStatusReadIsNotCached() returns (r: Tristate, cached: Option<string>, host: Host)
    ensures r == True && cached == None
    ensures host.calls ==
              [Call(Scorm2004, Open), Call(Scorm2004, GetLastError),
               Call(Scorm2004, GetValue(CompletionStatus2004)), Call(Scorm2004, GetLastError),
               Call(Scorm2004, GetErrorString(Some(403)))]
  {
    var script := Cooperative(map[]).(readCode := e => if e == CompletionStatus2004 then Some(403) else Some(0));
    host := new Host(script);
    var session := new Session(Page(false, true), host, None, true, true);
    r := session.Initialize();
    cached := session.completionStatus;
  }

  /** After `setLessonComplete(true)`, termination with exit-mode handling
      on writes the version's normal exit ("normal" in 2004), not "suspend",
      then commits and closes the connection. The facade offers no
      terminate, so this steps below it and calls the session's
      `connection.terminate` (`pipwerks.SCORM.quit`) directly; the driver is
      not used again afterwards, since it would still claim availability. */
  method CompletedLessonExitsNormally() returns (completed: Result<bool>, closed: Tristate, host: Host)
    ensures completed == Success(true) && closed == True
    ensures |host.calls| >= 3
    ensures host.calls[|host.calls| - 3..] ==
              [Call(Scorm2004, SetValue(Exit2004, "normal")), Call(Scorm2004, Commit), Call(Scorm2004, Close)]
  {
    host := new Host(Cooperative(map[]));
    var driver := new Driver(Page(false, true), host);
    completed := driver.SetLessonComplete(true);
    ghost var before := host.calls;
    closed := driver.session.Terminate();
    assert host.calls == before + [Call(Scorm2004, SetValue(Exit2004, "normal")),
                                   Call(Scorm2004, Commit), Call(Scorm2004, Close)];
  }

  /** No API anywhere: the driver is not available and the facade's
      operations refuse with the not-connected fault. */
  method NoApiRefusesFacade() returns (available: bool, complete: Result<bool>)
    ensures !available && complete == Failure(ScormNotConnected)
  {
    var host := new Host(Cooperative(map[]));
    var env := Page(false, false);
    NothingToFind(env, None);
    var driver := new Driver(env, host);
    available := driver.isAvailable;
    complete := driver.IsLessonComplete();
  }
}
