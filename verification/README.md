# Flutter test-recording mock: a Dafny model

This project models the behaviour of a React front end for a mobile
test-automation platform. The front end stands in for a record → analyse →
generate → validate pipeline, but it contains no real analysis. It does keep
a small set of sequential state updates, and those are modelled here exactly
as the components perform them:

- **Recorder** (`src/components/FlutterAppRecorder.tsx`). Six test flows move
  from pending to recording to completed. Each recording schedules a fixed
  catalog of actions. An action appended to a flow also goes into a ten-entry
  "recent actions" buffer. A clock is rendered as `MM:SS`.
- **Generator** (`src/components/FlutterScriptGenerator.tsx`). A list of
  generated scripts:
  - a new script is prepended unvalidated;
  - validation sets two flags on the matching script;
  - the download file name is built from the script name and a language extension.
- **Library** (`src/components/ScriptLibrary.tsx`). A conjunctive filter over
  stored scripts (search text, language, status). It also computes the
  summary figures shown under the filter: count, validated count, rounded
  average confidence and pattern total.
- **Editor** (`src/components/ScriptEditor.tsx`). Covers:
  - a validation status driven by two buttons and a two-second timer;
  - the download extension;
  - the template fallback;
  - the capitalised language badge.
- **App** (`src/App.tsx`), the generator tab:
  - a five-second recording that appends items from a fixed seven-action list;
  - an analysis loop that adds 8 per tick until it reaches 100;
  - the reset and the guards on the Start and Reset buttons.

Each screen is a module (`Recorder`, `Generator`, `Library`, `Editor`, `App`).
Some JavaScript built-ins are written out in a shared module, `Text`:
`toLowerCase`, `toUpperCase`, `includes`, `padStart`, `\s` and number
rendering.

A timer callback (`setTimeout`, `setInterval`) becomes an explicit event of a
state machine. `Math.random()` becomes a parameter held to the range the code
uses: `roll < 20` for a flow's confidence, `roll < 15` for a script's, and a
`lucky` flag for `Math.random() > 0.7`. `Date.now()` becomes an input: `now`
for timestamps and `id` for script ids.

Each state-changing or computed operation has a partner the model proves it
against:

- an invariant its guards preserve (the recorder, generator, editor and app state machines);
- a reference definition: `ReplaceRef` for the whitespace replacement, `IsSubstring` for `includes`, `IsClock`/`ClockValue` for `formatTime`;
- an inverse: `ParseNat` for number rendering, and the clock read-back for `formatTime`;
- a second view of the same figure: the validated count against the status filter, and the pattern total against the concatenated pattern list.

The fixed lookups, namely the six action catalogs and the template choice,
have no partner: their contracts state their entries directly.

## Model

| member | source | states |
|---|---|---|
| Recorder.InitialFlowsFresh | src/components/FlutterAppRecorder.tsx:37-97 | The screen starts not recording, with no current flow, no recent actions and no append timers. It has six flows under pairwise distinct ids, each pending with confidence 0 and no actions. |
| Recorder.RegistrationActions | src/components/FlutterAppRecorder.tsx:101-155 | The registration catalog has four actions of that flow. Taking one clock reading `now` for all of them, they are stamped `now`, `now+1000`, … one second apart. |
| Recorder.MessagingActions | src/components/FlutterAppRecorder.tsx:156-222 | The messaging catalog has five actions of that flow, stamped one second apart from the single clock reading `now`. |
| Recorder.GroupMessagingActions | src/components/FlutterAppRecorder.tsx:223-276 | The group-messaging catalog has four actions of that flow, stamped one second apart from the single clock reading `now`. |
| Recorder.VoiceCallActions | src/components/FlutterAppRecorder.tsx:277-330 | The voice-call catalog has four actions of that flow, stamped one second apart from the single clock reading `now`. |
| Recorder.VideoCallActions | src/components/FlutterAppRecorder.tsx:331-371 | The video-call catalog has three actions of that flow, stamped one second apart from the single clock reading `now`. |
| Recorder.GroupCallActions | src/components/FlutterAppRecorder.tsx:372-412 | The group-call catalog has three actions of that flow, stamped one second apart from the single clock reading `now`. |
| Recorder.FlowActions | src/components/FlutterAppRecorder.tsx:99-415 | The lookup `flowActions[flowId] \|\| []`. Every scheduled action belongs to the flow and, for a single clock reading `now`, is stamped `now + 1000*k`. A seeded flow id schedules 3 to 5 actions; any other id that is not an inherited object key schedules none. |
| Recorder.KnownFlowIdsAreTheInitialFlows | src/components/FlutterAppRecorder.tsx:40-101 | The flows that have an action catalog are exactly the six seeded flows. |
| Recorder.WithStatus | src/components/FlutterAppRecorder.tsx:448-452 | The `prev.map` of `startRecording`. Flows with the given id get the new status and nothing else changes in them; every other flow is unchanged; the length is kept. |
| Recorder.Complete | src/components/FlutterAppRecorder.tsx:462-466 | The `prev.map` of `stopRecording`. Matching flows become completed with the given confidence and keep their other fields; every other flow is unchanged. |
| Recorder.AppendTo | src/components/FlutterAppRecorder.tsx:423-427 | Matching flows get `actions + [a]` and keep every other field; every other flow is unchanged. |
| Recorder.PushRecent | src/components/FlutterAppRecorder.tsx:420 | `[a, ...prev.slice(0, 9)]`. The newest action comes first and is followed by the previous buffer in order. The buffer grows by one up to 10 entries and then stays at 10. |
| Recorder.Timers | src/components/FlutterAppRecorder.tsx:418-429 | One append timer per catalog action, in catalog order, each bound to the flow id it was scheduled for. |
| Recorder.StartRecording | src/components/FlutterAppRecorder.tsx:415-456 | Recording is on, with the given current flow and the clock at 0. Only flows with that id change, and only in their status, which becomes recording. The recent buffer is kept. The timers already pending stay, and one new timer per action of that flow's catalog is added after them, in catalog order. |
| Recorder.StopRecording | src/components/FlutterAppRecorder.tsx:458-469 | Recording is off and the current flow is `''`. The flow that was current is completed with confidence `roll + 80`, in [80, 99], and its actions are kept. Every other flow, the clock and the recent buffer are unchanged. |
| Recorder.AppendAction | src/components/FlutterAppRecorder.tsx:418-429 | One fired append timer. The action goes to the front of the recent buffer and to the end of the flow's actions. Status and confidence are kept; no other flow or field changes. |
| Recorder.FireAppend | src/components/FlutterAppRecorder.tsx:418-429 | A pending timer fires: it leaves the pending list, which otherwise keeps its order. Its action goes to the front of the recent buffer and to the end of the actions of the flow it was scheduled for. Nothing else changes. |
| Recorder.ClockTick | src/components/FlutterAppRecorder.tsx:431-439 | While recording, the clock advances by exactly one second; otherwise nothing changes. |
| Recorder.FormatTime | src/components/FlutterAppRecorder.tsx:471-475 | `formatTime`: the padded minutes `s / 60`, a colon and the padded seconds `s % 60`. It has no contract of its own; Recorder.FormatTimeFields and Recorder.FormatTimeRoundTrip characterise it. |
| Recorder.PadTwo | src/components/FlutterAppRecorder.tsx:474 | `n.toString().padStart(2, '0')` is all digits and reads back as `n`. It has at least two characters, and exactly two iff `n < 100`. |
| Recorder.JoinClock | src/components/FlutterAppRecorder.tsx:474 | Joining two digit fields with `:` gives a clock text whose value is minutes·60 + seconds. Its length is 5 iff the minutes field has two digits. |
| Recorder.ClockRoundTrip | src/components/FlutterAppRecorder.tsx:471-475 | For `secs < 60`, the rendering of `mins` and `secs` has the clock shape and reads back as `mins*60 + secs`. It has length 5 iff `mins < 100`. |
| Recorder.FormatTimeFields | src/components/FlutterAppRecorder.tsx:471-475 | The minutes field of `formatTime(s)` reads back as `s / 60` and the seconds field as `s % 60`. |
| Recorder.FormatTimeRoundTrip | src/components/FlutterAppRecorder.tsx:471-475 | `formatTime(s)` always has the clock shape. Its minutes field reads back as `s / 60` and its two-digit seconds field as `s % 60`, and the whole reads back as `s`. It is exactly `MM:SS` (length 5) iff `s < 6000`. |
| Recorder.Enabled | src/components/FlutterAppRecorder.tsx:531-611 | The guards: Record is offered only for a pending flow while nothing records, Stop and the one-second clock exist only while recording, and any scheduled append timer may fire. It has no contract; Recorder.StepGood and Recorder.AtMostOneRecording state what the guards buy. |
| Recorder.StepGood | src/components/FlutterAppRecorder.tsx:415-611 | Under the Record/Stop guards every event keeps the following invariant. Ids are distinct. Not recording means no current flow. A recording flow exists only while recording and is the current one. Only completed flows carry confidence, always in [80, 99]. The recent buffer holds at most 10 entries. Every pending timer, flow action and recent action is an entry of its own flow's catalog. |
| Recorder.RunGood | src/components/FlutterAppRecorder.tsx:415-611 | Any sequence of clicks and timer callbacks keeps that invariant. |
| Recorder.CatalogFlowKnown | src/components/FlutterAppRecorder.tsx:99-415 | A catalog entry always belongs to one of the six seeded flows. |
| Recorder.ActionsFromCatalog | src/components/FlutterAppRecorder.tsx:415-429 | From the initial screen, after any clicks and timers, every flow keeps one of the six seeded ids, and every action a flow holds carries that id and is an entry of that flow's own catalog. |
| Recorder.AtMostOneRecording | src/components/FlutterAppRecorder.tsx:602-611 | In a state satisfying the invariant, at most one flow is recording. |
| Recorder.StepAdvances | src/components/FlutterAppRecorder.tsx:458-469 | No enabled event moves a flow's status backwards (pending → recording → completed). Only Stop changes a confidence. |
| Generator.SeedRunnableIffValidated | src/components/FlutterScriptGenerator.tsx:22-280 | Every seeded script can run on a device exactly when it is validated. |
| Generator.NewScript | src/components/FlutterScriptGenerator.tsx:538-547 | A generated script keeps the given id, flow and language. It is named `flow Flow - LANGUAGE`, is not validated, cannot run on a device, and has confidence in [85, 99]. |
| Generator.GenerateScript | src/components/FlutterScriptGenerator.tsx:533-550 | The new, unvalidated script is at index 0 and the old list follows unchanged and in order. |
| Generator.ValidateScript | src/components/FlutterScriptGenerator.tsx:552-558 | The length is kept and scripts with other ids are unchanged. Scripts with the id get both flags set and keep every other field. |
| Generator.ValidateIdempotent | src/components/FlutterScriptGenerator.tsx:552-558 | Validating twice equals validating once. |
| Generator.ValidateMonotone | src/components/FlutterScriptGenerator.tsx:552-558 | Validation never clears a flag and never changes a script's id, code or confidence. |
| Generator.GeneratePreserves | src/components/FlutterScriptGenerator.tsx:543-549 | Generating keeps "runs on device iff validated". |
| Generator.ValidatePreserves | src/components/FlutterScriptGenerator.tsx:555 | Validating keeps "runs on device iff validated". |
| Generator.RunPreserves | src/components/FlutterScriptGenerator.tsx:533-558 | Any sequence of generate and validate clicks keeps "runs on device iff validated". Validate is offered only on unvalidated scripts. |
| Generator.Enabled | src/components/FlutterScriptGenerator.tsx:658-667 | The Validate button is shown only on a script that is not validated yet; Generate is always available. It has no contract; Generator.RunPreserves uses it as the guard of every step. |
| Generator.FileExtension | src/components/FlutterScriptGenerator.tsx:560-567 | The extension is non-empty and has no white space. It is `txt` exactly for languages other than java, python and javascript. |
| Generator.LanguageExtension | src/components/FlutterScriptGenerator.tsx:560-567 | The three languages map to `java`, `py` and `js`, so no generated script downloads as `.txt`. |
| Generator.DropSpaces | src/components/FlutterScriptGenerator.tsx:573 | Drops a leading white-space run. The result starts with non-white-space or is empty, and keeps every other character. |
| Generator.ReplaceSpaceRuns | src/components/FlutterScriptGenerator.tsx:573 | `replace(/\s+/g, '_')`. The result has no white space, is no longer than the input, and keeps every character that is not white space or `_`. |
| Generator.ReplaceSpaceRunsMatchesRef | src/components/FlutterScriptGenerator.tsx:573 | The run replacement equals the one-character-at-a-time reference: a white-space character becomes `_` when it starts a run and disappears otherwise. |
| Generator.ReplaceSpaceRunsNoSpace | src/components/FlutterScriptGenerator.tsx:573 | A name without white space is left unchanged. |
| Generator.ReplaceSpaceRunsIdempotent | src/components/FlutterScriptGenerator.tsx:573 | Replacing twice equals replacing once. |
| Generator.DownloadName | src/components/FlutterScriptGenerator.tsx:560-573 | The file name is the script name with each white-space run turned into one `_` (the character-at-a-time reference), then `.`, then the language's extension. It never contains white space. |
| Library.FilterScripts | src/components/ScriptLibrary.tsx:115-122 | The filtered list is an order-preserving subsequence of the scripts. Every entry matches. Each matching script occurs as often as in the input and each non-matching one not at all. |
| Library.MatchesSearch | src/components/ScriptLibrary.tsx:116-117 | The search term, lower-cased, is included in the lower-cased name or description. It has no contract; Library.MatchesSearchIsSubstring characterises it. |
| Library.Matches | src/components/ScriptLibrary.tsx:115-122 | The conjunction of the search, the language filter and the status filter, each off at `all`. It has no contract; Library.FilterScripts and Library.DefaultQueryKeepsAll characterise it. |
| Library.MatchesSearchIsSubstring | src/components/ScriptLibrary.tsx:116-117 | The search matches iff the lower-cased term is a substring of the lower-cased name or description. |
| Library.DefaultQueryKeepsAll | src/components/ScriptLibrary.tsx:116-121 | An empty search with both filters on `all` keeps the whole list. |
| Library.EmptyStateIffNoMatch | src/components/ScriptLibrary.tsx:266 | The empty-state card shows iff no script matches. |
| Library.EmptyStateHint | src/components/ScriptLibrary.tsx:273-275 | The adjust-filters hint whenever any control is off its default, and the get-started hint otherwise. It has no contract; Library.EmptyStateNeedsFilter characterises it. |
| Library.EmptyStateNeedsFilter | src/components/ScriptLibrary.tsx:266-276 | On a non-empty library the empty state needs an active filter, so the hint is always "Try adjusting your search or filters". |
| Library.ValidatedCount | src/components/ScriptLibrary.tsx:287-292 | The validated count is at most the number of scripts. |
| Library.ValidatedCountIsFilter | src/components/ScriptLibrary.tsx:292 | The validated count equals the length of the list the `validated` status filter shows. |
| Library.RoundDiv | src/components/ScriptLibrary.tsx:298 | `Math.round(num/den)` is the integer `q` with `q - 1/2 <= num/den < q + 1/2`, so halves round up. |
| Library.AverageConfidence | src/components/ScriptLibrary.tsx:298 | The average is absent exactly for an empty library, where the source shows `NaN`. |
| Library.SumBounds | src/components/ScriptLibrary.tsx:298 | n·min ≤ sum of confidences ≤ n·max. |
| Library.RoundWithin | src/components/ScriptLibrary.tsx:298 | Rounding a quotient keeps it within any integer bounds of the quotient. |
| Library.AverageWithinRange | src/components/ScriptLibrary.tsx:298 | The rounded average of a non-empty library lies between the least and the greatest confidence. |
| Library.TotalPatterns | src/components/ScriptLibrary.tsx:304 | The sum of the pattern-list lengths. It has no contract; Library.TotalPatternsCountsAll and Library.TotalPatternsSplit characterise it. |
| Library.TotalPatternsCountsAll | src/components/ScriptLibrary.tsx:304 | The pattern total equals the length of the concatenation of all pattern lists. |
| Library.TotalPatternsSplit | src/components/ScriptLibrary.tsx:304 | The pattern total adds up over any split of the list. |
| Library.SeedSummary | src/components/ScriptLibrary.tsx:38-87 | The seeded library shows 4 scripts, 2 validated, an average of 90 and 8 patterns. |
| Editor.ValidateScript | src/components/ScriptEditor.tsx:27-33 | The status becomes `validating` and one more timer is pending. |
| Editor.TimerFires | src/components/ScriptEditor.tsx:30-32 | A firing timer sets the status to `success`, whatever it was, and is consumed. |
| Editor.Enabled | src/components/ScriptEditor.tsx:191-212 | The Code tab's Validate has no guard, Run Validation is disabled while validating, and a timer fires only if one is pending. It has no contract; Editor.StepGood, Editor.NeverError and Editor.CodeTabRestart use it. |
| Editor.StepGood | src/components/ScriptEditor.tsx:25-33 | Every enabled event keeps the invariant: never `error`; while validating, a timer is pending; idle only before any click. Status moves only idle → validating ⇄ success. |
| Editor.NeverError | src/components/ScriptEditor.tsx:25-33 | No sequence of clicks and timers ever reaches `error`. |
| Editor.CodeTabRestart | src/components/ScriptEditor.tsx:191-214 | While validating, Run Validation is disabled but the Code tab's Validate restarts. It leaves two timers, and the older one reports success while the newer validation is still pending. |
| Editor.DownloadExtension | src/components/ScriptEditor.tsx:43 | The extension is `java` iff the language is java and `py` iff python; any other language gives `js`. |
| Editor.DownloadName | src/components/ScriptEditor.tsx:43 | The download is `appium_test.` followed by one of `java`, `py`, `js`. |
| Editor.ExtensionsAgreeOnSupported | src/components/ScriptEditor.tsx:43 | The editor and the generator agree on the three supported languages. On every other language they disagree: `js` versus `txt`. |
| Editor.ScriptForLanguage | src/components/ScriptEditor.tsx:132 | The Python and JavaScript templates are chosen exactly for `python` and `javascript`; every other language gets the Java template. |
| Editor.Capitalize | src/components/ScriptEditor.tsx:183 | The badge has the same length, with the first character upper-cased and the rest unchanged. |
| Editor.CapitalizeIdempotent | src/components/ScriptEditor.tsx:183 | Capitalising twice equals capitalising once. |
| Editor.BadgeLabels | src/components/ScriptEditor.tsx:183 | The badges read "Java", "Python" and "Javascript". |
| App.StartRecording | src/App.tsx:60-63 | Recording is on, with the clock at 0, an empty log and the action index at 0. Analysis, script and language are untouched. |
| App.RecordTick | src/App.tsx:76-84 | The clock advances by exactly 1. A lucky tick with actions left advances the index and appends the action after the one the guard checked, since the updater runs after `actionIndex++`. When that runs past the list it appends `undefined`. Otherwise the log and index are kept. Nothing else changes. |
| App.Deferred | src/App.tsx:81-82 | The entry the deferred updater reads: scripted action `i+1`, or `undefined` past the end. It has no contract; App.RecordTick and App.LogIsShifted characterise it. |
| App.RecordTimeout | src/App.tsx:87-91 | Recording stops and a new analysis interval starts at 0. Nothing else changes. |
| App.AnalysisTick | src/App.tsx:47-58 | The shown progress is the interval's counter plus 8. At 100 or more, the interval ends and the script is generated; below 100, the counter advances. |
| App.ResetRecording | src/App.tsx:94-100 | Recording, progress, script, clock and log return to their initial values. The language and running analysis intervals are untouched. |
| App.ShowProgress | src/App.tsx:288 | The progress bar is rendered only while progress lies strictly between 0 and 100. It has no contract; App.ShownProgress characterises it. |
| App.Enabled | src/App.tsx:262-283 | Start is disabled while recording or once progress is positive, and Reset is disabled while recording. The recording interval and timeout exist only while recording, and each running analysis interval may tick. It has no contract; App.StepGood and App.RunGood state what the guards buy. |
| App.StepGood | src/App.tsx:262-288 | Under the Start/Reset guards every event keeps the invariant. Entry `k` of the log is scripted action `k+1` (or `undefined` past the end), and its length is the index while recording. Counters are multiples of 8 below 100. Progress is a multiple of 8 in [0, 104]. The script is `''` or `generated`. |
| App.RunGood | src/App.tsx:43-100 | Any sequence of clicks and timer callbacks keeps the invariant. |
| App.LogIsShifted | src/App.tsx:66-84 | From the initial state the log holds at most 7 entries. Entry `k` is scripted action `k+1`, a 7th entry is `undefined`, and "Tap on email field" is never logged. The log has no repeats, and while recording its length is the action index. |
| App.FinishingTick | src/App.tsx:50-56 | The tick that ends an analysis shows 104, generates the script and hides the progress bar. |
| App.ShownProgress | src/App.tsx:288 | The progress bar shows only the values 8, 16, …, 96. |
| App.RunAnalysis | src/App.tsx:47-58 | One fresh analysis interval, fired through App.AnalysisTick until it ends, shows 8, 16, …, 104: thirteen values, the first twelve below 100. It generates the script exactly once, ends with no interval running and progress 104, and leaves the recording and the log alone. |
| Text.LowerStr | src/components/ScriptLibrary.tsx:116-117 | `toLowerCase` keeps the length and lower-cases each character. |
| Text.UpperStr | src/components/FlutterScriptGenerator.tsx:540 | `toUpperCase` keeps the length and upper-cases each character. |
| Text.LowerStrIdempotent | src/components/ScriptLibrary.tsx:116-117 | Lower-casing twice equals lower-casing once. |
| Text.NatToString | src/components/FlutterAppRecorder.tsx:474 | `n.toString()` is a non-empty string of digits. It has one digit iff `n < 10` and two iff `10 <= n < 100`. |
| Text.ParseNatToString | src/components/FlutterAppRecorder.tsx:474 | Reading `n.toString()` back gives `n`. |
| Text.ParseNatLeadingZero | src/components/FlutterAppRecorder.tsx:474 | A leading `0` does not change the value read back. |
| Text.PadStart | src/components/FlutterAppRecorder.tsx:474 | `padStart(width, fill)` is at least `width` long. It ends with the input and is preceded only by fill characters. |
| Text.IncludesIsSubstring | src/components/ScriptLibrary.tsx:116-117 | `includes` holds iff the needle occurs at some position of the haystack. |
| Text.IncludesEmpty | src/components/ScriptLibrary.tsx:116-117 | Every string includes the empty string. |
| Text.Includes | src/components/ScriptLibrary.tsx:116-117 | `hay.includes(needle)` as a left-to-right search. It has no contract; Text.IncludesIsSubstring and Text.IncludesEmpty characterise it. |

## Left out

- Timers are not modelled as time. Each `setTimeout`/`setInterval` callback is an event that can fire whenever its guard allows. The recorder's append timers are never cancelled, so an append may land after the flow completed; the model allows this. The delays (1.5 s, 1 s, 150 ms, 2 s, 5 s) are not modelled. Timers of one recording may fire out of their scheduled order in the model, and those of two recordings may interleave.
- App.RecordTick: assumes React 18 rendering, where the queued updater runs at the next render and so after `actionIndex++`, with a render between any two ticks. Under React 17's synchronous updates outside event handlers the log would instead be a prefix of the seven actions.
- App.RecordTimeout: the model does not count how many recording ticks run before the five-second timeout (about five). Tick and Timeout are independent events.
- Random values are parameters held to their ranges. `Date.now()` is an input, and the code does not guarantee that its ids or timestamps are unique.
- Recorder.FlowActions: takes one clock reading `now` for a whole catalog. The code calls `Date.now()` once per action, so a millisecond passing between two calls makes real stamps later than `now + 1000*k`.
- Recorder.FlowActions: an inherited object key such as `constructor`, `toString` or `__proto__` would make `flowActions[flowId]` a truthy non-array, and the following `.forEach` would throw a `TypeError`. The model gives every id without a catalog the empty list instead. The screen only ever passes the six seeded ids.
- JavaScript numbers are IEEE doubles; the model uses unbounded integers. `toString` switches to exponent form (`1e+21`) from 10^21, and `prev + 1` stops growing at 2^53. Text.NatToString, Recorder.FormatTimeRoundTrip and the clock and id counters are modelled as if every value stays below 2^53, which a screen never reaches.
- The DOM, Blob downloads, `navigator.clipboard`, JSX rendering and the colour and icon helpers are left out. The flows' `icon` field and the actions' element details beyond the element id are left out too.
- The template and seed script code texts are fixed literal text. They are named (`Editor.Template`) or shortened to a marker line (`Generator.SeedScripts`) instead of reproduced.
- Case mapping is ASCII only. JavaScript's `toLowerCase`/`toUpperCase` also map non-ASCII letters, and `charAt(0)` works on UTF-16 code units.
- `Math.round` on a floating-point quotient is modelled on exact rationals. For the small integers involved the two agree.
- `getScriptForLanguage` indexes a plain object. A language such as `constructor` or `toString` would select an inherited property instead of falling back to Java. Such languages are not modelled; every unknown language falls back.
- `src/components/DeviceConnection.tsx` and `src/components/PatternAnalysis.tsx` are not part of this model. They hold device-connection stand-ins and static display data.
- The components do not implement locator-stability ranking, deterministic or monotonic confidence scoring, code emission, conflict or invalid-state errors, or validation failure and cancellation; none of it is modelled. A second recording is prevented only by the disabled Record button, and validation always succeeds.
