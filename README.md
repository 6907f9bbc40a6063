# SCORM session driver — a verified Dafny model

This project models the SCORM session driver of a course player
(`app/scripts/component/StoreDrivers/scorm.driver.js`). The driver is an
adaptation of the pipwerks SCORM wrapper. It is the client side of the LMS
run-time API of SCORM 1.2 (the `API` object with `LMSInitialize`,
`LMSGetValue`, …) and of SCORM 2004 (the `API_1484_11` object with
`Initialize`, `GetValue`, …). It has the following parts:

- It finds the LMS's API object by climbing the frame hierarchy.
- It caches the handle it finds.
- It opens and closes the connection. It does not trust the LMS's answer
  and checks the error code as well. On opening it normalises the lesson
  status. On closing it applies the exit-mode policy.
- It reads and writes data-model elements and caches the completion and
  exit status.
- It reports errors.
- A small domain facade for the UI sits on top: `isLessonComplete`,
  `setLessonComplete`, `getProgress` and `setProgress`.

The shared `pipwerks.SCORM` object becomes the class `Scorm.Session`. Its
fields are:

- `version`;
- `handle` and `isFound`;
- `isActive`;
- the cached `completionStatus` and `exitStatus`;
- the two policy flags.

The LMS is the class `Lms.Host`. It holds a fixed script of answers, the
error state left by the last primitive (which `GetLastError` reports), and a
ghost log of every primitive the driver invokes. Each Session method
therefore states exactly which LMS calls it makes, in which order, and what
the new state is. The window graph is a sequence of frame records
(`Locator.Frame`). The `find` loop is a `while` loop proved against the
recursive specification `Locator.Climb`. Boolean coercion of host answers
is the pure function `Coercion.StringToBoolean`. Its result has three
values (`True`, `False`, `Unknown`), because JavaScript `null` is returned
for `undefined`. `initialize`, `set`, `save` and `terminate` return that
three-valued result, just as the JavaScript returns the coerced value.

Modules:

- `Protocol`: versions, element names, exit policy.
- `Coercion`: `StringToBoolean`.
- `Locator`: `find`/`get` on the frame graph.
- `Lms`: the scripted host.
- `Scorm`: the session.
- `Facade`: the domain facade.
- `Scenarios`: five runs on concrete pages and hosts. Three go through the
  facade end to end. `LaunchRejectedByErrorCode` and
  `FailedStatusReadIsNotCached` drive a `Scorm.Session` directly.

## Model

| member | source | states |
|---|---|---|
| Protocol.StatusField | app/scripts/component/StoreDrivers/scorm.driver.js:644-651 | `status` uses `cmi.core.lesson_status` under 1.2 and `cmi.completion_status` under 2004, both of them status elements; with no version it uses the empty name |
| Protocol.ExitField | app/scripts/component/StoreDrivers/scorm.driver.js:373-393 | termination writes the exit mode to `cmi.core.exit` under 1.2 and `cmi.exit` under 2004, an exit element and never a status element |
| Protocol.ExitValue | app/scripts/component/StoreDrivers/scorm.driver.js:373-393 | the exit value is "suspend" exactly when the cached completion status is neither "completed" nor "passed"; otherwise "logout" under 1.2 and "normal" under 2004 |
| Coercion.ContainsTrueOr1Correct | app/scripts/component/StoreDrivers/scorm.driver.js:832-834 | the left-to-right scan finds a match exactly when the case-insensitive pattern "true" or "1" matches at some index of the text |
| Coercion.StringToBoolean | app/scripts/component/StoreDrivers/scorm.driver.js:827-844 | a string or object is true iff its text contains "true" in any case or "1"; a number iff non-zero, and NaN is false; a boolean is kept; `undefined` and nothing else gives the unknown (null) result; every other type gives false |
| Coercion.SubstringMatchesCount | app/scripts/component/StoreDrivers/scorm.driver.js:834 | "false1", "10" and a "TRUE" string object coerce to true; "false" and "" coerce to false |
| Locator.Climb | app/scripts/component/StoreDrivers/scorm.driver.js:89-97 | the climb stops at a frame reached by parent links where the loop guard fails: it exposes an API, or it is a root, or 501 hops have been made |
| Locator.ClimbFrames | app/scripts/component/StoreDrivers/scorm.driver.js:83-97 | the `while` loop of `find` ends at the frame and attempt count of the `Climb` specification |
| Locator.ClimbPassesOnlyBareFrames | app/scripts/component/StoreDrivers/scorm.driver.js:89-92 | every frame the loop climbs out of exposes no API and has a parent other than itself, so the loop stops at the first frame exposing either API |
| Locator.ClimbExhaustsBound | app/scripts/component/StoreDrivers/scorm.driver.js:84-92 | on a chain of climbable frames the loop makes exactly 501 hops (one more than `findAttemptLimit`) and stops 501 frames up |
| Locator.Pick | app/scripts/component/StoreDrivers/scorm.driver.js:99-146 | a preset version is kept and only its own API object is taken; with no preset `API_1484_11` is preferred and recorded as 2004, else `API` as 1.2; nothing found leaves the version as it was |
| Locator.Locate | app/scripts/component/StoreDrivers/scorm.driver.js:175-200 | `get` searches from the parent first and keeps that result when it succeeds; otherwise, with no opener nothing is found; with an opener, its search result is kept when it finds an API, and else the opener's document is searched, if it has one; a found API fixes the version to its shape |
| Locator.NothingToFind | app/scripts/component/StoreDrivers/scorm.driver.js:175-204 | with no API anywhere, `get` finds nothing and leaves the version unchanged |
| Locator.PresetSeesOnlyStopFrame | app/scripts/component/StoreDrivers/scorm.driver.js:89-132 | with 2004 preset, a 1.2 frame below a 2004 frame stops the climb and nothing is found, although the 2004 object is one level up |
| Scorm.Session.constructor | app/scripts/component/StoreDrivers/scorm.driver.js:40-54 | a fresh driver object has no handle, is inactive and has nothing cached |
| Scorm.Session.Find | app/scripts/component/StoreDrivers/scorm.driver.js:81-163 | `find(start)` returns the API chosen at the frame where the climb stops and updates the version as `Pick` says |
| Scorm.Session.Get | app/scripts/component/StoreDrivers/scorm.driver.js:175-204 | `get` returns the outcome of `Locate`; `isFound` is raised exactly when an API is returned and is never lowered |
| Scorm.Session.GetHandle | app/scripts/component/StoreDrivers/scorm.driver.js:214-226 | a stored handle is returned without searching; with none stored the graph is searched again (a failure is not cached) and the outcome stored |
| Scorm.Session.CallOpen | app/scripts/component/StoreDrivers/scorm.driver.js:258-265 | one call of the version's initialize primitive, whose answer is coerced |
| Scorm.Session.NormaliseStatus | app/scripts/component/StoreDrivers/scorm.driver.js:276-304 | the status element is read once, with success decided by the code that read left; "not attempted" or "unknown" causes exactly one write of "incomplete" to it; any other value, or a failed read, causes no write, and a failed read is not cached |
| Scorm.Session.Activate | app/scripts/component/StoreDrivers/scorm.driver.js:272-306 | the connection becomes active; status normalisation happens only with `handleCompletionStatus` |
| Scorm.Session.Handshake | app/scripts/component/StoreDrivers/scorm.driver.js:256-328 | true, and active, exactly when the initialize primitive coerces to true and the error code it left is exactly 0; an accepted answer with a non-zero code becomes false; a failure reports a non-zero code; the exact LMS calls and final error state of each branch |
| Scorm.Session.Initialize | app/scripts/component/StoreDrivers/scorm.driver.js:240-344 | when already active: false, no state change and no LMS call; with no handle: false, inactive and no LMS call; otherwise the handshake outcome |
| Scorm.Session.WriteExitMode | app/scripts/component/StoreDrivers/scorm.driver.js:373-393 | the version's exit element receives the exit value that the cached completion status calls for, through `data.set` |
| Scorm.Session.CallClose | app/scripts/component/StoreDrivers/scorm.driver.js:403-410 | one call of the version's finish primitive, whose answer is coerced |
| Scorm.Session.SaveAndClose | app/scripts/component/StoreDrivers/scorm.driver.js:396-424 | a failed save makes no finish call and keeps the connection active; after a successful save the connection becomes inactive exactly when the finish primitive coerces to true |
| Scorm.Session.Terminate | app/scripts/component/StoreDrivers/scorm.driver.js:354-440 | inactive: false and no LMS call; with `handleExitMode` and no truthy cached exit status, the exit write comes first and its answer is discarded; the result is that of save and then finish; the complete LMS call sequence |
| Scorm.Session.GetCode | app/scripts/component/StoreDrivers/scorm.driver.js:702-727 | the parsed error code that the LMS's last primitive left, without changing it, or 0 with no LMS call when there is no handle |
| Scorm.Session.GetInfo | app/scripts/component/StoreDrivers/scorm.driver.js:738-763 | the LMS's description of the given code, or "" with no LMS call when there is no handle |
| Scorm.Session.GetDiagnosticInfo | app/scripts/component/StoreDrivers/scorm.driver.js:774-799 | the LMS's diagnostic for the given code, or "" with no LMS call when there is no handle |
| Scorm.Session.DataGet | app/scripts/component/StoreDrivers/scorm.driver.js:454-522 | inactive: the text "null" and no LMS call; otherwise the element's value, successful iff non-empty or the error code the read left is 0; a successful read of a status or exit element is cached there |
| Scorm.Session.DataSet | app/scripts/component/StoreDrivers/scorm.driver.js:536-588 | inactive: false and no LMS call; otherwise the coerced answer; only an accepted write of a status element is cached; the exit status is never changed |
| Scorm.Session.DataSave | app/scripts/component/StoreDrivers/scorm.driver.js:598-634 | inactive: false and no LMS call; otherwise one commit, whose answer is coerced |
| Scorm.Session.Status | app/scripts/component/StoreDrivers/scorm.driver.js:636-688 | 'get' reads and 'set' writes the version's status element; a null action, an unknown action or a null status gives false with no state change and no LMS call |
| Facade.FactoryAsWritten | app/scripts/component/StoreDrivers/scorm.driver.js:846-858 | as written, building the facade throws unless `init()` answered false, and then the facade is unavailable |
| Facade.BuildAsWritten | app/scripts/component/StoreDrivers/scorm.driver.js:846-858 | building the facade as written runs `connection.initialize` on a fresh session and throws exactly when an API is found and either the launch succeeds or the initialize primitive answers `undefined`; otherwise the facade is unavailable, so it is never available |
| Facade.NoApiNeverLaunches | app/scripts/component/StoreDrivers/scorm.driver.js:846-858 | with no API anywhere in the page the facade never becomes available |
| Facade.Driver.constructor | app/scripts/component/StoreDrivers/scorm.driver.js:846-858 | the facade is available exactly when an API is found, its initialize coerces to true and the error code it leaves is 0; the LMS receives exactly the launch calls (`LaunchTrace`: initialize, the error-code query, then the status normalisation or the error description) followed, only when available, by the reads of the student's language and name (`SnapshotTrace`), and nothing else; the cached completion status is the normalised launch status (`LaunchStatus`) and no exit status is cached; the final error state is that of the last call |
| Facade.Driver.IsLessonComplete | app/scripts/component/StoreDrivers/scorm.driver.js:865-873 | unavailable: the not-connected fault and no effect; otherwise true iff `cmi.core.lesson_status` reads exactly "completed" or "passed" |
| Facade.Driver.SetLessonComplete | app/scripts/component/StoreDrivers/scorm.driver.js:881-894 | unavailable: the not-connected fault and no effect; otherwise writes "completed" or "" to `cmi.core.lesson_status` and answers whether the write was accepted |
| Facade.Driver.GetProgress | app/scripts/component/StoreDrivers/scorm.driver.js:901-907 | unavailable: the not-connected fault and no effect; otherwise the value of `cmi.suspend_data` |
| Facade.Driver.SetProgress | app/scripts/component/StoreDrivers/scorm.driver.js:915-926 | unavailable: the not-connected fault and no effect; otherwise writes `cmi.suspend_data` and answers whether the write was accepted |
| Scenarios.LaunchFindsParent2004 | app/scripts/component/StoreDrivers/scorm.driver.js:846-858 | a 2004 API at the parent, initialize answering "true" and error code "0": the facade is available and the version is 2004 |
| Scenarios.LaunchRejectedByErrorCode | app/scripts/component/StoreDrivers/scorm.driver.js:267-311 | initialize answering "true" but leaving code 101: `connection.initialize` answers false, stays inactive, and asks for the description of 101 |
| Scenarios.FailedStatusReadIsNotCached | app/scripts/component/StoreDrivers/scorm.driver.js:276-304 | a launch whose status read answers "" with code 403: active, nothing cached or written, and the error described |
| Scenarios.CompletedLessonExitsNormally | app/scripts/component/StoreDrivers/scorm.driver.js:371-415 | after `setLessonComplete(true)`, terminate writes "normal" to `cmi.exit`, not "suspend", then commits and closes |
| Scenarios.NoApiRefusesFacade | app/scripts/component/StoreDrivers/scorm.driver.js:865-869 | with no API anywhere, the facade is unavailable and `isLessonComplete` raises the not-connected fault |

## Left out

- Logging through `$log` and the Angular dependency injection are not modelled. They only have side effects and wire the framework.
- The real browser `window`, `parent`, `top`, `opener` and `document` objects are replaced by frame records with index links. Whether `document` can itself be climbed is given per record.
- The LMS's own behaviour is not modelled. The host answers from a fixed script: one answer per kind of primitive and one value per element. The error state each primitive leaves is also scripted: one code per kind of primitive, and for reads one code per element. The three error queries leave the error state unchanged, and the state before the first primitive is 0.
- `Scorm.Session.GetCode`: `parseInt` is modelled as an optional integer. `None` stands for `NaN`, which is never equal to 0. The parsing itself is not modelled.
- `Scorm.Session.GetInfo`: the text of error descriptions and diagnostics is opaque. Only the "" answer without a handle is stated. The `String(…)` conversion of a non-string host answer is not modelled.
- `Scorm.Session.DataGet`: `GetValue` is assumed to answer a string. The `String(…)` conversion of other answers is not modelled.
- `Scorm.Session.Status`: JavaScript `undefined` arguments are not modelled. An omitted status is not `null`, so `status('set')` with no status does write `undefined` through `data.set`. The model's null status and null action stand for `null` only.
- `Facade.Driver.SetProgress`: only string values are modelled. The source's `suspendData` is a `string?` (line 912), and `data.set` passes any value on to `SetValue` (lines 553 and 556). Writing `null`, `undefined` or another non-string through `data.set` is not modelled.
- Preset versions other than 1.2 and 2004 are not modelled. The model's version is one of the two or none.
- `pipwerks.SCORM.isAvailable`, the constant `true` hook at lines 65-67, is not modelled.
- The debug switch `pipwerks.debug` is not modelled.
- The facade's exported `get`/`set`/`save` (lines 934-936) are not modelled: as written they read properties of the `init()` result.
- `Facade.Driver.IsLessonComplete`, `Facade.Driver.SetLessonComplete`, `Facade.Driver.GetProgress` and `Facade.Driver.SetProgress` follow the data channel, not the code as written. As written, `scorm` holds the boolean returned by `init()` (line 848), and `scorm.get`/`scorm.set` on it cannot reach the LMS. See Findings.
- The facade's `student` starts as `{}` at line 847. The model's `None` stands for that empty object.

## Findings

| source | as written | input that shows it | evidently intended | confidence | as-written member | corrected member |
|---|---|---|---|---|---|---|
| app/scripts/component/StoreDrivers/scorm.driver.js:848-858 | `scorm` holds the boolean (or null) returned by `init()`, and the facade calls `scorm.get`/`scorm.set` on it | a page with an API whose initialize answers "true" and leaves error code 0: `init()` answers true, `true.get` is undefined, and calling it throws a TypeError while the facade is being built | read and write through the data channel (`pipwerks.SCORM.get`/`set`) | high, not executed | Facade.BuildAsWritten | Facade.Driver.constructor |

Two further behaviours are modelled as the code is written, although they
may not be what the names suggest:

- The `find` loop test `findAttempts <= 500` allows 501 hops, not 500 (`Locator.ClimbExhaustsBound`).
- `data.set` reports error code 0 to `getInfo` without querying the LMS (`Scorm.WriteTrace`).
