/**
 The script editor panel: a validation status driven by a button and a
 two-second timer, the download file name, the template shown for the chosen
 language and the capitalised language badge.
 */
module Editor {
  import opened Text
  import Generator

  datatype ValidationStatus = Idle | Validating | Success | Error

  /** The status and the number of validation timers still to fire. Nothing
      cancels a timer, so each click adds one. */
  datatype EditorState = EditorState(status: ValidationStatus, pendingTimers: nat)

  const Init := EditorState(Idle, 0)

  /** `validateScript`: status becomes `Validating` and a timer is scheduled. */
  function ValidateScript(s: EditorState): (r: EditorState)
    ensures r.status == Validating
    ensures r.pendingTimers == s.pendingTimers + 1
  {
    EditorState(Validating, s.pendingTimers + 1)
  }

  /** A validation timer fires: the status becomes `Success`, whatever it was. */
  function TimerFires(s: EditorState): (r: EditorState)
    requires s.pendingTimers > 0
    ensures r.status == Success
    ensures r.pendingTimers + 1 == s.pendingTimers
  {
    EditorState(Success, s.pendingTimers - 1)
  }

  /** The two buttons that start a validation, and the timer. */
  datatype Event = CodeTabValidate | RunValidation | Timer

  /** The Validation tab's button is disabled while validating; the Code tab's
      button has no guard; a timer fires only if one is pending. */
  predicate Enabled(s: EditorState, e: Event) {
    match e
    case CodeTabValidate => true
    case RunValidation => s.status != Validating
    case Timer => s.pendingTimers > 0
  }

  function Apply(s: EditorState, e: Event): EditorState
    requires Enabled(s, e)
  {
    match e
    case CodeTabValidate => ValidateScript(s)
    case RunValidation => ValidateScript(s)
    case Timer => TimerFires(s)
  }

  /** `Error` is never produced; a validation in progress always has a timer
      that will end it; `Idle` is only the untouched start. */
  ghost predicate Good(s: EditorState) {
    && s.status != Error
    && (s.status == Validating ==> s.pendingTimers > 0)
    && (s.status == Idle ==> s.pendingTimers == 0)
  }

  /** The status transitions every enabled event can make. */
  predicate Transition(a: ValidationStatus, b: ValidationStatus) {
    match a
    case Idle => b == Validating
    case Validating => b == Validating || b == Success
    case Success => b == Validating || b == Success
    case Error => false
  }

  lemma StepGood(s: EditorState, e: Event)
    requires Good(s) && Enabled(s, e)
    ensures Good(Apply(s, e))
    ensures Transition(s.status, Apply(s, e).status)
  {
  }

  /** Applies the events in order, skipping the ones that are not enabled. */
  function Run(s: EditorState, events: seq<Event>): EditorState
    decreases |events|
  {
    if events == [] then s
    else if Enabled(s, events[0]) then Run(Apply(s, events[0]), events[1..])
    else Run(s, events[1..])
  }

  /** From the initial state no sequence of clicks and timers reaches `Error`. */
  lemma {:induction false} NeverError(s: EditorState, events: seq<Event>)
    requires Good(s)
    ensures Good(Run(s, events))
    ensures Run(s, events).status != Error
    decreases |events|
  {
    if events != [] {
      if Enabled(s, events[0]) {
        StepGood(s, events[0]);
        NeverError(Apply(s, events[0]), events[1..]);
      } else {
        NeverError(s, events[1..]);
      }
    }
  }

  /** While validating, "Run Validation" is disabled but the Code tab's
      "Validate" still restarts: it leaves two timers pending, and the older
      one reports success while the newer validation is still running. */
  lemma CodeTabRestart(s: EditorState)
    requires Good(s) && s.status == Validating && s.pendingTimers == 1
    ensures !Enabled(s, RunValidation)
    ensures Apply(s, CodeTabValidate).pendingTimers == 2
    ensures Apply(Apply(s, CodeTabValidate), Timer) == EditorState(Success, 1)
  {
  }

  // ---------------------------------------------------------------------------
  // Download name, template and badge
  // ---------------------------------------------------------------------------

  /** The extension of the editor's download: any language other than Java or
      Python is saved as JavaScript. */
  function DownloadExtension(language: string): (r: string)
    ensures r == "java" <==> language == "java"
    ensures r == "py" <==> language == "python"
    ensures language != "java" && language != "python" ==> r == "js"
  {
    if language == "java" then "java" else if language == "python" then "py" else "js"
  }

  /** The editor's download is always `appium_test` with one of three extensions. */
  function DownloadName(language: string): (r: string)
    ensures |r| > 12 && r[..12] == "appium_test." && r[12..] in {"java", "py", "js"}
  {
    "appium_test." + DownloadExtension(language)
  }

  /** The editor and the generator name files alike for the three supported
      languages and differ on every other one: `js` here, `txt` there. */
  lemma ExtensionsAgreeOnSupported(language: string)
    ensures language in {"java", "python", "javascript"} ==>
              DownloadExtension(language) == Generator.FileExtension(language)
    ensures language !in {"java", "python", "javascript"} ==>
              DownloadExtension(language) == "js" && Generator.FileExtension(language) == "txt"
  {
  }

  /** The template texts are fixed; they are named here, not reproduced. */
  datatype Template = JavaTemplate | PythonTemplate | JavaScriptTemplate

  /** `getScriptForLanguage`: the Java template is the fallback. */
  function ScriptForLanguage(language: string): (t: Template)
    ensures t == PythonTemplate <==> language == "python"
    ensures t == JavaScriptTemplate <==> language == "javascript"
    ensures language != "python" && language != "javascript" ==> t == JavaTemplate
  {
    if language == "python" then PythonTemplate
    else if language == "javascript" then JavaScriptTemplate
    else JavaTemplate
  }

  /** The language badge: first character upper-cased, the rest unchanged. */
  function Capitalize(s: string): (r: string)
    ensures |r| == |s|
    ensures s != [] ==> r[0] == Upper(s[0]) && r[1..] == s[1..]
  {
    if s == [] then [] else [Upper(s[0])] + s[1..]
  }

  lemma CapitalizeIdempotent(s: string)
    ensures Capitalize(Capitalize(s)) == Capitalize(s)
  {
  }

  /** The badges of the three languages; note "Javascript", not "JavaScript"
      as the language selector spells it. */
  lemma BadgeLabels()
    ensures Capitalize("java") == "Java"
    ensures Capitalize("python") == "Python"
    ensures Capitalize("javascript") == "Javascript"
  {
  }
}
