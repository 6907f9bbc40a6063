/** The domain facade the player's UI layer uses: the driver is built once,
    initializes the connection at construction, records whether it succeeded
    in `isAvailable` and takes a snapshot of the student; the four domain
    operations refuse to run (throwing `SCORM_NOT_CONNECTED`) when it did not.

    As written, the facade keeps in `scorm` the value returned by
    `connection.initialize` (true, false or null) and then calls `scorm.get`
    / `scorm.set` on it, which cannot reach the LMS (see `FactoryAsWritten`).
    `Driver` routes those calls to the data channel (`data.get` /
    `data.set`), which is what the facade evidently means. */
module Facade {
  import opened Protocol
  import opened Coercion
  import opened Locator
  import opened Lms
  import opened Scorm

  datatype Student = Student(language: string, name: string)

  /** What a facade operation throws. */
  datatype Fault = ScormNotConnected | TypeError

  datatype Result<T> = Success(value: T) | Failure(fault: Fault)

  /** Whether construction of the driver ends with an active connection: a
      first search finds an API object, its initialize primitive answers
      something that coerces to true, and the error code it leaves is exactly 0. */
  predicate Launches(env: Env, script: Script)
    requires WellFormed(env)
  {
    Locate(env, None).api.Some? && StringToBoolean(script.initAnswer) == True && script.openCode == Some(0)
  }

  /** The host calls of `connection.initialize` on a fresh session with no
      preset version and status handling on: none when no API is found;
      otherwise the initialize primitive and the error-code query, then the
      launch-status handling after a launch, or the error description when
      the code left is not 0. */
  function LaunchTrace(env: Env, script: Script): seq<Call>
    requires WellFormed(env)
  {
    var found := Locate(env, None).api;
    if found.None? then []
    else
      var v := found.value.version;
      [Call(v, Open), Call(v, GetLastError)] +
      (if Launches(env, script) then NormaliseTrace(v, script)
       else if script.openCode == Some(0) then []
       else [Call(v, GetErrorString(script.openCode))])
  }

  /** The completion status such a launch leaves cached: the normalised
      launch status after a launch, and nothing otherwise. */
  function LaunchStatus(env: Env, script: Script): Option<string>
    requires WellFormed(env)
  {
    if Launches(env, script) then NormalisedStatus(Locate(env, None).api.value.version, script, None)
    else None
  }

  /** The host calls of the student snapshot under version v: `data.get` of
      the language preference, then of the name. */
  function SnapshotTrace(v: Version, script: Script): seq<Call> {
    ReadTrace(v, LanguagePreference, script.Lookup(LanguagePreference), script.readCode(LanguagePreference)) +
    ReadTrace(v, StudentName, script.Lookup(StudentName), script.readCode(StudentName))
  }

  /** What building the facade does as the code is written, given the
      result of `init()`: after true, `scorm.get` is read off a boolean,
      where it is undefined, and calling it throws; after null, reading
      `scorm.get` for the returned object throws; only after false is a
      facade returned, and it is unavailable. */
  function FactoryAsWritten(initResult: Tristate): (r: Result<bool>)
    ensures r.Success? <==> initResult == False
    ensures r.Success? ==> !r.value
    ensures r.Failure? ==> r.fault == TypeError
  {
    match initResult
    case True => Failure(TypeError)
    case Unknown => Failure(TypeError)
    case False => Success(false)
  }

  /** Building the facade as written on a page and host: `init()` is
      `connection.initialize` of a fresh session with no preset version, and
      its result goes to `FactoryAsWritten`. It throws exactly when an API is
      found and the launch succeeds or the initialize primitive answers
      `undefined`; otherwise it yields an unavailable facade. So a launch that
      succeeds never yields an available facade. */
  method BuildAsWritten(env: Env, script: Script) returns (r: Result<bool>)
    requires WellFormed(env)
    ensures r.Failure? <==>
              Locate(env, None).api.Some? &&
              (Launches(env, script) || StringToBoolean(script.initAnswer) == Unknown)
    ensures r.Failure? ==> r.fault == TypeError
    ensures r.Success? ==> r == Success(false)
  {
    var host := new Host(script);
    var session := new Session(env, host, None, true, true);
    var initResult := session.Initialize();
    r := FactoryAsWritten(initResult);
  }

  /** A page without any API never launches. */
  lemma NoApiNeverLaunches(env: Env, script: Script)
    requires WellFormed(env)
    requires forall i | 0 <= i < |env.frames| :: !HasApi(env.frames[i])
    ensures !Launches(env, script)
  {
    NothingToFind(env, None);
  }

  class Driver {
    const session: Session
    const isAvailable: bool
    const student: Option<Student>

    /** Only construction initializes the connection and the facade offers
        no terminate, so availability is exactly an active connection. */
    ghost predicate Valid()
      reads this, session
    {
      session.Valid() && session.isActive == isAvailable
    }

    /** The driver's construction: a session with no preset version and both
        automatic policies on, initialized at once; when that succeeds the
        driver is available and reads the student's language preference and
        name. */
    constructor(env: Env, host: Host)
      requires WellFormed(env)
      modifies host
      ensures Valid() && fresh(session)
      ensures session.env == env && session.host == host
      ensures session.handleCompletionStatus && session.handleExitMode
      ensures session.handle == Locate(env, None).api && session.version == Locate(env, None).version
      ensures session.exitStatus.None?
      ensures isAvailable <==> Launches(env, host.script)
      ensures session.completionStatus == LaunchStatus(env, host.script)
      ensures host.calls ==
                old(host.calls) + LaunchTrace(env, host.script) +
                (if isAvailable then SnapshotTrace(session.version.value, host.script) else [])
      ensures host.lastError ==
                if isAvailable then host.script.readCode(StudentName)
                else if session.handle.Some? then host.script.openCode
                else old(host.lastError)
      ensures student ==
                if isAvailable then
                  Some(Student(host.script.Lookup(LanguagePreference), host.script.Lookup(StudentName)))
                else None
    {
      var s := new Session(env, host, None, true, true);
      var ok := s.Initialize();
      if ok == True {
        var language := s.DataGet(LanguagePreference);
        var name := s.DataGet(StudentName);
        student := Some(Student(language, name));
      } else {
        student := None;
      }
      session := s;
      isAvailable := ok == True;
    }

    /** `isLessonComplete`: reads `cmi.core.lesson_status` (the 1.2 name,
        whatever the version) and is true exactly when it is "completed" or
        "passed". */
    method IsLessonComplete() returns (r: Result<bool>)
      requires Valid()
      modifies session, session.host
      ensures Valid()
      ensures !isAvailable ==>
                r == Failure(ScormNotConnected) && unchanged(session, session.host)
      ensures isAvailable ==>
                var status := session.host.script.Lookup(LessonStatus12);
                r == Success(status == "completed" || status == "passed") &&
                session.ReadEffect(LessonStatus12, status)
    {
      if !isAvailable {
        return Failure(ScormNotConnected);
      }
      var status := session.DataGet(LessonStatus12);
      r := Success(status == "completed" || status == "passed");
    }

    /** `setLessonComplete(isComplete)`: writes "completed" when isComplete
        holds and "" otherwise to `cmi.core.lesson_status`, and answers
        whether the write was accepted. */
    method SetLessonComplete(isComplete: bool) returns (r: Result<bool>)
      requires Valid()
      modifies session, session.host
      ensures Valid()
      ensures !isAvailable ==>
                r == Failure(ScormNotConnected) && unchanged(session, session.host)
      ensures isAvailable ==>
                var answer := StringToBoolean(session.host.script.setAnswer);
                r == Success(answer == True) &&
                session.WriteEffect(LessonStatus12, if isComplete then "completed" else "", answer)
    {
      if !isAvailable {
        return Failure(ScormNotConnected);
      }
      var lessonStatus := if isComplete then "completed" else "";
      var ok := session.DataSet(LessonStatus12, lessonStatus);
      r := Success(ok == True);
    }

    /** `getProgress`: the raw `cmi.suspend_data` value. */
    method GetProgress() returns (r: Result<string>)
      requires Valid()
      modifies session, session.host
      ensures Valid()
      ensures !isAvailable ==>
                r == Failure(ScormNotConnected) && unchanged(session, session.host)
      ensures isAvailable ==>
                var data := session.host.script.Lookup(SuspendData);
                r == Success(data) && session.ReadEffect(SuspendData, data)
    {
      if !isAvailable {
        return Failure(ScormNotConnected);
      }
      var data := session.DataGet(SuspendData);
      r := Success(data);
    }

    /** `setProgress(suspendData)`: writes `cmi.suspend_data` and answers
        whether the write was accepted. */
    method SetProgress(suspendData: string) returns (r: Result<bool>)
      requires Valid()
      modifies session, session.host
      ensures Valid()
      ensures !isAvailable ==>
                r == Failure(ScormNotConnected) && unchanged(session, session.host)
      ensures isAvailable ==>
                var answer := StringToBoolean(session.host.script.setAnswer);
                r == Success(answer == True) && session.WriteEffect(SuspendData, suspendData, answer)
    {
      if !isAvailable {
        return Failure(ScormNotConnected);
      }
      var ok := session.DataSet(SuspendData, suspendData);
      r := Success(ok == True);
    }
  }
}
