/**
 The generator tab of the application: a five-second recording that appends
 scripted actions on one-second ticks, followed by an "analysis" whose
 progress climbs by 8 every 150 ms until it reaches 100. Every timer callback
 is an explicit event; `Math.random() > 0.7` is the `lucky` flag of a tick.

 A tick queues its append as an updater function after the clock update, so
 React runs that updater at the next render, after the callback's
 `actionIndex++`: the entry logged is the action after the one the guard
 checked, and `undefined` (here `None`) once that runs past the list.
 */
module App {
  import opened Text

  /** The actions a recording appends, in this order. */
  const ScriptedActions: seq<string> := [
    "Tap on email field",
    "Enter email address",
    "Tap on password field",
    "Enter password",
    "Tap login button",
    "Wait for navigation",
    "Verify welcome screen"
  ]

  /** Analysis progress gained per tick, and the value that ends the analysis. */
  const AnalysisStep: nat := 8
  const AnalysisDone: nat := 100

  /** The tab's state. `actionIndex` is the counter captured by the running
      recording interval; `analyses` holds the private counter of every
      analysis interval still running (a reset does not stop one). */
  datatype AppState = AppState(
    isRecording: bool,
    analysisProgress: int,
    generatedScript: string,
    selectedLanguage: string,
    recordingTime: nat,
    recordedActions: seq<Option<string>>,
    actionIndex: nat,
    analyses: seq<nat>)

  const Init := AppState(false, 0, "", "java", 0, [], 0, [])

  // ---------------------------------------------------------------------------
  // Operations and timer callbacks
  // ---------------------------------------------------------------------------

  /** `startRecording`: a fresh recording with an empty log. */
  function StartRecording(s: AppState): (r: AppState)
    ensures r.isRecording && r.recordingTime == 0 && r.recordedActions == [] && r.actionIndex == 0
    ensures r.analysisProgress == s.analysisProgress && r.analyses == s.analyses
    ensures r.generatedScript == s.generatedScript && r.selectedLanguage == s.selectedLanguage
  {
    s.(isRecording := true, recordingTime := 0, recordedActions := [], actionIndex := 0)
  }

  /** The entry the deferred updater of the tick that found the counter at
      `i` appends: the counter has become `i + 1` by the time it runs. */
  function Deferred(i: nat): Option<string> {
    if i + 1 < |ScriptedActions| then Some(ScriptedActions[i + 1]) else None
  }

  /** One tick of the recording interval: the clock always advances; when
      `lucky` and the counter is still inside the list, an entry is appended
      and the counter advances. */
  function RecordTick(s: AppState, lucky: bool): (r: AppState)
    ensures r.recordingTime == s.recordingTime + 1
    ensures lucky && s.actionIndex + 1 < |ScriptedActions| ==>
              r.recordedActions == s.recordedActions + [Some(ScriptedActions[s.actionIndex + 1])]
              && r.actionIndex == s.actionIndex + 1
    ensures lucky && s.actionIndex + 1 == |ScriptedActions| ==>
              r.recordedActions == s.recordedActions + [None] && r.actionIndex == |ScriptedActions|
    ensures !(lucky && s.actionIndex < |ScriptedActions|) ==>
              r.recordedActions == s.recordedActions && r.actionIndex == s.actionIndex
    ensures r.(recordingTime := s.recordingTime, recordedActions := s.recordedActions,
               actionIndex := s.actionIndex) == s
  {
    var t := s.(recordingTime := s.recordingTime + 1);
    if s.actionIndex < |ScriptedActions| && lucky then
      t.(recordedActions := t.recordedActions + [Deferred(s.actionIndex)],
         actionIndex := s.actionIndex + 1)
    else t
  }

  /** The five-second timeout: recording stops and an analysis interval starts
      with its own counter at 0. */
  function RecordTimeout(s: AppState): (r: AppState)
    ensures !r.isRecording
    ensures r.analyses == s.analyses + [0]
    ensures r.(isRecording := s.isRecording, analyses := s.analyses) == s
  {
    s.(isRecording := false, analyses := s.analyses + [0])
  }

  /** One tick of analysis interval `i`: its counter grows by 8 and is shown;
      at 100 or more the interval stops and the script is generated. */
  function AnalysisTick(s: AppState, i: nat): (r: AppState)
    requires i < |s.analyses|
    ensures r.analysisProgress == s.analyses[i] + AnalysisStep
    ensures r.analysisProgress >= AnalysisDone ==>
              r.analyses == s.analyses[..i] + s.analyses[i + 1..] && r.generatedScript == "generated"
    ensures r.analysisProgress < AnalysisDone ==>
              r.analyses == s.analyses[i := s.analyses[i] + AnalysisStep]
              && r.generatedScript == s.generatedScript
    ensures r.isRecording == s.isRecording && r.recordedActions == s.recordedActions
  {
    var p := s.analyses[i] + AnalysisStep;
    if p >= AnalysisDone then
      s.(analysisProgress := p, analyses := s.analyses[..i] + s.analyses[i + 1..], generatedScript := "generated")
    else
      s.(analysisProgress := p, analyses := s.analyses[i := p])
  }

  /** `resetRecording`. It does not reach a running analysis interval. */
  function ResetRecording(s: AppState): (r: AppState)
    ensures r.(selectedLanguage := Init.selectedLanguage, actionIndex := Init.actionIndex,
               analyses := Init.analyses) == Init
    ensures r.selectedLanguage == s.selectedLanguage && r.analyses == s.analyses
  {
    s.(isRecording := false, analysisProgress := 0, generatedScript := "", recordingTime := 0,
       recordedActions := [])
  }

  /** The progress bar is shown only strictly between 0 and 100. */
  predicate ShowProgress(s: AppState) {
    0 < s.analysisProgress < 100
  }

  // ---------------------------------------------------------------------------
  // The tab as a state machine
  // ---------------------------------------------------------------------------

  datatype Event =
    | Start
    | Tick(lucky: bool)
    | Timeout
    | Analyse(i: nat)
    | Reset
    | SelectLanguage(language: string)

  /** Start is disabled while recording or once analysis progress is positive;
      Reset is disabled while recording; the recording interval and timeout
      exist only while recording; the language selector lives in the editor,
      which is shown only once a script is generated. */
  predicate Enabled(s: AppState, e: Event) {
    match e
    case Start => !(s.isRecording || s.analysisProgress > 0)
    case Tick(_) => s.isRecording
    case Timeout => s.isRecording
    case Analyse(i) => i < |s.analyses|
    case Reset => !s.isRecording
    case SelectLanguage(_) => s.generatedScript != ""
  }

  function Apply(s: AppState, e: Event): AppState
    requires Enabled(s, e)
  {
    match e
    case Start => StartRecording(s)
    case Tick(lucky) => RecordTick(s, lucky)
    case Timeout => RecordTimeout(s)
    case Analyse(i) => AnalysisTick(s, i)
    case Reset => ResetRecording(s)
    case SelectLanguage(l) => s.(selectedLanguage := l)
  }

  /** The invariant the guards maintain. */
  ghost predicate Good(s: AppState) {
    && |s.recordedActions| <= |ScriptedActions|
    && (forall k :: 0 <= k < |s.recordedActions| ==> s.recordedActions[k] == Deferred(k))
    && (s.isRecording ==> s.actionIndex == |s.recordedActions|)
    && (forall i :: 0 <= i < |s.analyses| ==> s.analyses[i] % AnalysisStep == 0 && s.analyses[i] < AnalysisDone)
    && 0 <= s.analysisProgress <= AnalysisDone + 4
    && s.analysisProgress % AnalysisStep == 0
    && (s.generatedScript == "" || s.generatedScript == "generated")
  }

  lemma InitGood()
    ensures Good(Init)
  {
  }

  lemma RecordTickGood(s: AppState, lucky: bool)
    requires Good(s) && s.isRecording
    ensures Good(RecordTick(s, lucky))
  {
    var r := RecordTick(s, lucky);
    if lucky && s.actionIndex < |ScriptedActions| {
      assert r.recordedActions == s.recordedActions + [Deferred(|s.recordedActions|)];
    }
  }

  lemma AnalysisTickGood(s: AppState, i: nat)
    requires Good(s) && i < |s.analyses|
    ensures Good(AnalysisTick(s, i))
  {
    var r := AnalysisTick(s, i);
    var c := s.analyses[i];
    assert c % 8 == 0 && c < 100;
    assert c <= 96;
    assert (c + 8) % 8 == 0;
    if r.analysisProgress < AnalysisDone {
      forall j | 0 <= j < |r.analyses|
        ensures r.analyses[j] % AnalysisStep == 0 && r.analyses[j] < AnalysisDone
      {
        if j != i {
          assert r.analyses[j] == s.analyses[j];
        }
      }
    } else {
      forall j | 0 <= j < |r.analyses|
        ensures r.analyses[j] % AnalysisStep == 0 && r.analyses[j] < AnalysisDone
      {
        if j < i {
          assert r.analyses[j] == s.analyses[j];
        } else {
          assert r.analyses[j] == s.analyses[j + 1];
        }
      }
    }
  }

  /** Every enabled event keeps the invariant. */
  lemma StepGood(s: AppState, e: Event)
    requires Good(s) && Enabled(s, e)
    ensures Good(Apply(s, e))
  {
    match e
    case Start =>
    case Tick(lucky) => RecordTickGood(s, lucky);
    case Timeout =>
    case Analyse(i) => AnalysisTickGood(s, i);
    case Reset =>
    case SelectLanguage(l) =>
  }

  /** Applies the events in order, skipping the ones that are not enabled. */
  function Run(s: AppState, events: seq<Event>): AppState
    decreases |events|
  {
    if events == [] then s
    else if Enabled(s, events[0]) then Run(Apply(s, events[0]), events[1..])
    else Run(s, events[1..])
  }

  lemma {:induction false} RunGood(s: AppState, events: seq<Event>)
    requires Good(s)
    ensures Good(Run(s, events))
    decreases |events|
  {
    if events != [] {
      if Enabled(s, events[0]) {
        StepGood(s, events[0]);
        RunGood(Apply(s, events[0]), events[1..]);
      } else {
        RunGood(s, events[1..]);
      }
    }
  }

  /** Whatever the clicks and timers did, the log is the scripted list shifted
      by one: entry `k` is action `k + 1`, the first action is never logged,
      a seventh entry is `undefined`, and no entry repeats. */
  lemma LogIsShifted(events: seq<Event>)
    ensures var s := Run(Init, events);
      && |s.recordedActions| <= |ScriptedActions|
      && (forall k :: 0 <= k < |s.recordedActions| && k + 1 < |ScriptedActions| ==>
            s.recordedActions[k] == Some(ScriptedActions[k + 1]))
      && (|s.recordedActions| == |ScriptedActions| ==> s.recordedActions[6] == None)
      && Some(ScriptedActions[0]) !in s.recordedActions
      && (s.isRecording ==> s.actionIndex == |s.recordedActions|)
      && (forall i, j :: 0 <= i < j < |s.recordedActions| ==> s.recordedActions[i] != s.recordedActions[j])
  {
    RunGood(Init, events);
    var log := Run(Init, events).recordedActions;
    forall i, j | 0 <= i < j < |log|
      ensures log[i] != log[j]
    {
      assert log[i] == Deferred(i) && log[j] == Deferred(j);
    }
  }

  /** When an analysis finishes, the progress shown is 104, the bar is hidden
      and a script has been generated. */
  lemma FinishingTick(s: AppState, i: nat)
    requires Good(s) && i < |s.analyses|
    requires AnalysisTick(s, i).analysisProgress >= AnalysisDone
    ensures AnalysisTick(s, i).analysisProgress == 104
    ensures AnalysisTick(s, i).generatedScript == "generated"
    ensures !ShowProgress(AnalysisTick(s, i))
  {
    assert s.analyses[i] % 8 == 0 && s.analyses[i] < 100;
  }

  /** The progress values the bar can display. */
  lemma ShownProgress(s: AppState)
    requires Good(s) && ShowProgress(s)
    ensures s.analysisProgress in {8, 16, 24, 32, 40, 48, 56, 64, 72, 80, 88, 96}
  {
  }

  /** `startAnalysis` run on its own: a single fresh interval, fired by
      `AnalysisTick` until it ends. Returns the values the tab shows, how
      many ticks generated the script, and the final state. */
  method RunAnalysis(s: AppState) returns (shown: seq<int>, generateCalls: nat, r: AppState)
    requires s.analyses == [0]
    ensures |shown| == 13
    ensures forall k :: 0 <= k < |shown| ==> shown[k] == AnalysisStep * (k + 1)
    ensures shown[12] == 104
    ensures forall k :: 0 <= k < 12 ==> shown[k] < AnalysisDone
    ensures generateCalls == 1
    ensures r.analyses == [] && r.analysisProgress == 104 && r.generatedScript == "generated"
    ensures r.isRecording == s.isRecording && r.recordedActions == s.recordedActions
  {
    r := s;
    shown, generateCalls := [], 0;
    while r.analyses != []
      invariant r.analyses == [] || (r.analyses == [AnalysisStep * |shown|]
                                     && AnalysisStep * |shown| < AnalysisDone && generateCalls == 0)
      invariant forall k :: 0 <= k < |shown| ==> shown[k] == AnalysisStep * (k + 1)
      invariant r.analyses == [] ==>
                  |shown| == 13 && generateCalls == 1 && r.analysisProgress == 104
                  && r.generatedScript == "generated"
      invariant r.isRecording == s.isRecording && r.recordedActions == s.recordedActions
      decreases if r.analyses == [] then 0 else AnalysisDone + AnalysisStep - AnalysisStep * |shown|
    {
      r := AnalysisTick(r, 0);
      shown := shown + [r.analysisProgress];
      if r.analysisProgress >= AnalysisDone {
        generateCalls := generateCalls + 1;
      }
    }
  }
}
