/** Vocabulary shared by every part of the SCORM session driver: the two
    run-time API versions, the data-model element names the driver knows by
    heart, and the small decision tables (which element holds the lesson
    status, which exit value termination writes). */
module Protocol {

  datatype Option<+T> = None | Some(value: T)

  /** The two host API shapes: `API` (SCORM 1.2) and `API_1484_11` (SCORM 2004). */
  datatype Version = Scorm12 | Scorm2004

  const LessonStatus12 := "cmi.core.lesson_status"
  const CompletionStatus2004 := "cmi.completion_status"
  const Exit12 := "cmi.core.exit"
  const Exit2004 := "cmi.exit"
  const SuspendData := "cmi.suspend_data"
  const StudentName := "cmi.core.student_name"
  const LanguagePreference := "cmi.core.user_language_preference"

  /** Elements whose successful reads and writes update the cached completion status. */
  predicate IsStatusField(element: string) {
    element == LessonStatus12 || element == CompletionStatus2004
  }

  /** Elements whose successful reads update the cached exit status. */
  predicate IsExitField(element: string) {
    element == Exit12 || element == Exit2004
  }

  /** The element `status` reads and writes: the version's lesson/completion
      status element, or the empty name while no version is known. */
  function StatusField(version: Option<Version>): (element: string)
    ensures version.Some? <==> IsStatusField(element)
    ensures version.None? <==> element == ""
    ensures version == Some(Scorm12) ==> element == LessonStatus12
    ensures version == Some(Scorm2004) ==> element == CompletionStatus2004
  {
    match version
    case Some(Scorm12) => LessonStatus12
    case Some(Scorm2004) => CompletionStatus2004
    case None => ""
  }

  /** The element termination writes the exit mode to. */
  function ExitField(version: Version): (element: string)
    ensures IsExitField(element) && !IsStatusField(element)
    ensures version == Scorm12 <==> element == Exit12
  {
    match version
    case Scorm12 => Exit12
    case Scorm2004 => Exit2004
  }

  /** A cached completion status that counts as finished for the exit policy. */
  predicate IsFinished(completion: Option<string>) {
    completion == Some("completed") || completion == Some("passed")
  }

  /** JavaScript truthiness of a cached string field (null and "" are falsy). */
  predicate Truthy(cached: Option<string>) {
    cached.Some? && cached.value != ""
  }

  /** The exit value termination writes when it manages the exit mode:
      "suspend" unless the lesson is finished, and otherwise the version's
      normal exit ("logout" in 1.2, "normal" in 2004). */
  function ExitValue(version: Version, completion: Option<string>): (exit: string)
    ensures exit == "suspend" <==> !IsFinished(completion)
    ensures IsFinished(completion) && version == Scorm12 ==> exit == "logout"
    ensures IsFinished(completion) && version == Scorm2004 ==> exit == "normal"
  {
    if completion != Some("completed") && completion != Some("passed") then "suspend"
    else match version
      case Scorm12 => "logout"
      case Scorm2004 => "normal"
  }

  /** Completion values a fresh launch rewrites to "incomplete". */
  predicate NeedsNormalising(status: string) {
    status == "not attempted" || status == "unknown"
  }

  /** A read succeeds when it produced a non-empty value or the host
      reports error code 0 (`None` stands for a code that did not parse). */
  predicate ReadSucceeds(value: string, code: Option<int>) {
    value != "" || code == Some(0)
  }
}
