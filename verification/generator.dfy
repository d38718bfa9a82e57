/**
 The script list of the Flutter script generator: generated scripts are
 prepended unvalidated, validation flips two flags on the matching script, and
 downloads are named from the script name and its language.
 */
module Generator {
  import opened Text

  datatype Language = Java | Python | JavaScript

  /** The language tag as the source spells it. */
  function LanguageName(l: Language): string {
    match l
    case Java => "java"
    case Python => "python"
    case JavaScript => "javascript"
  }

  datatype FlutterScript = FlutterScript(
    id: string,
    name: string,
    language: Language,
    flow: string,
    confidence: int,
    code: string,
    isValidated: bool,
    canRunOnDevice: bool)

  /** The three seeded scripts; their code bodies are fixed template text and
      are represented here by a short marker. */
  function SeedScripts(): seq<FlutterScript> {
    [ FlutterScript("1", "User Registration Flow", Java, "registration", 94,
                    "// Microsoft Teams Flutter App - User Registration Test", true, true),
      FlutterScript("2", "Messaging Flow", Python, "messaging", 91,
                    "# Microsoft Teams Flutter App - Messaging Test", true, true),
      FlutterScript("3", "Group Video Call Flow", JavaScript, "group-call", 89,
                    "// Microsoft Teams Flutter App - Group Video Call Test", true, true) ]
  }

  /** A script may run on a device exactly when it has been validated. */
  predicate RunnableIffValidated(scripts: seq<FlutterScript>) {
    forall i :: 0 <= i < |scripts| ==> scripts[i].canRunOnDevice == scripts[i].isValidated
  }

  // ---------------------------------------------------------------------------
  // generateScript
  // ---------------------------------------------------------------------------

  /** The placeholder code of a generated script. */
  function GeneratedCode(flow: string, language: Language): string {
    "// Generated " + LanguageName(language) + " script for " + flow
      + " flow\n// This would contain the actual generated code..."
  }

  /** The script `generateScript` builds; `id` stands for `Date.now()` and
      `roll` for `Math.floor(Math.random() * 15)`. */
  function NewScript(flow: string, language: Language, id: string, roll: nat): (r: FlutterScript)
    requires roll < 15
    ensures r.id == id && r.flow == flow && r.language == language
    ensures 85 <= r.confidence <= 99
    ensures !r.isValidated && !r.canRunOnDevice
    ensures r.name == flow + " Flow - " + UpperStr(LanguageName(language))
  {
    FlutterScript(id, flow + " Flow - " + UpperStr(LanguageName(language)), language, flow,
                  roll + 85, GeneratedCode(flow, language), false, false)
  }

  /** `generateScript`: the new script goes first, the old list follows in order. */
  function GenerateScript(scripts: seq<FlutterScript>, flow: string, language: Language, id: string,
                          roll: nat): (r: seq<FlutterScript>)
    requires roll < 15
    ensures |r| == |scripts| + 1
    ensures r[0].id == id && r[0].flow == flow && r[0].language == language
    ensures !r[0].isValidated && !r[0].canRunOnDevice && 85 <= r[0].confidence <= 99
    ensures r[1..] == scripts
  {
    [NewScript(flow, language, id, roll)] + scripts
  }

  // ---------------------------------------------------------------------------
  // validateScript
  // ---------------------------------------------------------------------------

  /** `validateScript`: sets both flags on every script with that id. */
  function ValidateScript(scripts: seq<FlutterScript>, id: string): (r: seq<FlutterScript>)
    ensures |r| == |scripts|
    ensures forall i :: 0 <= i < |r| && scripts[i].id != id ==> r[i] == scripts[i]
    ensures forall i :: 0 <= i < |r| && scripts[i].id == id ==>
              && r[i].isValidated && r[i].canRunOnDevice
              && r[i].(isValidated := scripts[i].isValidated, canRunOnDevice := scripts[i].canRunOnDevice)
                 == scripts[i]
  {
    seq(|scripts|, i requires 0 <= i < |scripts| =>
      if scripts[i].id == id then scripts[i].(isValidated := true, canRunOnDevice := true) else scripts[i])
  }

  /** Validating twice is validating once. */
  lemma ValidateIdempotent(scripts: seq<FlutterScript>, id: string)
    ensures ValidateScript(ValidateScript(scripts, id), id) == ValidateScript(scripts, id)
  {
    var once := ValidateScript(scripts, id);
    var twice := ValidateScript(once, id);
    assert forall i :: 0 <= i < |scripts| ==> twice[i] == once[i];
  }

  /** Validation never lowers a flag and keeps every script's identity and content. */
  lemma ValidateMonotone(scripts: seq<FlutterScript>, id: string)
    ensures forall i :: 0 <= i < |scripts| ==>
              && (scripts[i].isValidated ==> ValidateScript(scripts, id)[i].isValidated)
              && ValidateScript(scripts, id)[i].id == scripts[i].id
              && ValidateScript(scripts, id)[i].code == scripts[i].code
              && ValidateScript(scripts, id)[i].confidence == scripts[i].confidence
  {
  }

  lemma SeedRunnableIffValidated()
    ensures RunnableIffValidated(SeedScripts())
  {
  }

  lemma GeneratePreserves(scripts: seq<FlutterScript>, flow: string, language: Language, id: string, roll: nat)
    requires roll < 15 && RunnableIffValidated(scripts)
    ensures RunnableIffValidated(GenerateScript(scripts, flow, language, id, roll))
  {
    var r := GenerateScript(scripts, flow, language, id, roll);
    forall i | 1 <= i < |r|
      ensures r[i].canRunOnDevice == r[i].isValidated
    {
      assert r[i] == scripts[i - 1];
    }
  }

  lemma ValidatePreserves(scripts: seq<FlutterScript>, id: string)
    requires RunnableIffValidated(scripts)
    ensures RunnableIffValidated(ValidateScript(scripts, id))
  {
  }

  // ---------------------------------------------------------------------------
  // Downloads
  // ---------------------------------------------------------------------------

  /** `getFileExtension`, which takes any string and falls back to `txt`. */
  function FileExtension(language: string): (r: string)
    ensures NoSpace(r) && |r| > 0
    ensures r == "txt" <==> language !in {"java", "python", "javascript"}
  {
    if language == "java" then "java"
    else if language == "python" then "py"
    else if language == "javascript" then "js"
    else "txt"
  }

  /** No script of the generator ever downloads as a `.txt` file. */
  lemma LanguageExtension(l: Language)
    ensures FileExtension(LanguageName(l)) == match l case Java => "java" case Python => "py" case JavaScript => "js"
  {
  }

  /** Drops a leading run of `\s` characters. */
  function DropSpaces(s: string): (r: string)
    ensures |r| <= |s|
    ensures r == [] || !IsSpace(r[0])
    ensures s == [] || !IsSpace(s[0]) ==> r == s
    ensures Strip(r) == Strip(s)
  {
    if s != [] && IsSpace(s[0]) then DropSpaces(s[1..]) else s
  }

  /** `name.replace(/\s+/g, '_')`: each maximal run of white space becomes one `_`. */
  function ReplaceSpaceRuns(s: string): (r: string)
    ensures |r| <= |s|
    ensures NoSpace(r)
    ensures Strip(r) == Strip(s)
    decreases |s|
  {
    if s == [] then []
    else if IsSpace(s[0]) then
      var rest := DropSpaces(s[1..]);
      "_" + ReplaceSpaceRuns(rest)
    else
      [s[0]] + ReplaceSpaceRuns(s[1..])
  }

  /** The characters that survive the replacement untouched: everything but
      white space and the `_` it produces. */
  function Strip(s: string): string {
    if s == [] then []
    else if IsSpace(s[0]) || s[0] == '_' then Strip(s[1..])
    else [s[0]] + Strip(s[1..])
  }

  /** Reference definition, one character at a time: a white-space character
      becomes `_` when it starts a run (`afterSpace` is false) and vanishes
      otherwise; every other character is kept. */
  function ReplaceRef(s: string, afterSpace: bool): string
    decreases |s|
  {
    if s == [] then []
    else if !IsSpace(s[0]) then [s[0]] + ReplaceRef(s[1..], false)
    else if afterSpace then ReplaceRef(s[1..], true)
    else "_" + ReplaceRef(s[1..], true)
  }

  lemma {:induction false} ReplaceRefAfterSpace(s: string)
    ensures ReplaceRef(s, true) == ReplaceRef(DropSpaces(s), false)
    decreases |s|
  {
    if s != [] && IsSpace(s[0]) {
      ReplaceRefAfterSpace(s[1..]);
    }
  }

  /** The run-collapsing replacement agrees with the character-at-a-time reference. */
  lemma {:induction false} ReplaceSpaceRunsMatchesRef(s: string)
    ensures ReplaceSpaceRuns(s) == ReplaceRef(s, false)
    decreases |s|
  {
    if s == [] {
    } else if IsSpace(s[0]) {
      ReplaceSpaceRunsMatchesRef(DropSpaces(s[1..]));
      ReplaceRefAfterSpace(s[1..]);
    } else {
      ReplaceSpaceRunsMatchesRef(s[1..]);
    }
  }

  /** A name without white space is downloaded under its own name. */
  lemma {:induction false} ReplaceSpaceRunsNoSpace(s: string)
    requires NoSpace(s)
    ensures ReplaceSpaceRuns(s) == s
    decreases |s|
  {
    if s != [] {
      ReplaceSpaceRunsNoSpace(s[1..]);
    }
  }

  /** The replacement is idempotent. */
  lemma ReplaceSpaceRunsIdempotent(s: string)
    ensures ReplaceSpaceRuns(ReplaceSpaceRuns(s)) == ReplaceSpaceRuns(s)
  {
    ReplaceSpaceRunsNoSpace(ReplaceSpaceRuns(s));
  }

  /** The filename of `downloadScript`: the script's name with every run of
      whitespace turned into one underscore, then the language's extension. */
  function DownloadName(script: FlutterScript): (r: string)
    ensures r == ReplaceRef(script.name, false) + "." + FileExtension(LanguageName(script.language))
    ensures NoSpace(r)
  {
    ReplaceSpaceRunsMatchesRef(script.name);
    ReplaceSpaceRuns(script.name) + "." + FileExtension(LanguageName(script.language))
  }

  // ---------------------------------------------------------------------------
  // The screen as a state machine
  // ---------------------------------------------------------------------------

  datatype Event =
    | Generate(flow: string, language: Language, id: string, roll: nat)
    | Validate(id: string)

  /** Generate needs only a language choice; the Validate button is shown only
      on scripts that are not validated yet. */
  predicate Enabled(scripts: seq<FlutterScript>, e: Event) {
    match e
    case Generate(_, _, _, roll) => roll < 15
    case Validate(id) => exists i :: 0 <= i < |scripts| && scripts[i].id == id && !scripts[i].isValidated
  }

  function Apply(scripts: seq<FlutterScript>, e: Event): seq<FlutterScript>
    requires Enabled(scripts, e)
  {
    match e
    case Generate(flow, language, id, roll) => GenerateScript(scripts, flow, language, id, roll)
    case Validate(id) => ValidateScript(scripts, id)
  }

  /** The runnable-iff-validated invariant holds from the seed on, whatever the
      sequence of enabled events. */
  lemma {:induction false} RunPreserves(scripts: seq<FlutterScript>, events: seq<Event>)
    requires RunnableIffValidated(scripts)
    ensures RunnableIffValidated(Run(scripts, events))
    decreases |events|
  {
    if events == [] {
    } else if Enabled(scripts, events[0]) {
      match events[0] {
        case Generate(flow, language, id, roll) => GeneratePreserves(scripts, flow, language, id, roll);
        case Validate(id) => ValidatePreserves(scripts, id);
      }
      RunPreserves(Apply(scripts, events[0]), events[1..]);
    } else {
      RunPreserves(scripts, events[1..]);
    }
  }

  /** Applies the events in order, ignoring the ones that are not enabled. */
  function Run(scripts: seq<FlutterScript>, events: seq<Event>): seq<FlutterScript>
    decreases |events|
  {
    if events == [] then scripts
    else if Enabled(scripts, events[0]) then Run(Apply(scripts, events[0]), events[1..])
    else Run(scripts, events[1..])
  }
}
