/**
 The flow recorder of the Flutter test-flow screen: a list of test flows, each
 `Pending`, `Recording` or `Completed`, that the user records one at a time.
 Timer callbacks (the per-action `setTimeout`s and the one-second clock) are
 explicit events; `Math.random` is a `roll` parameter constrained to its range
 and `Date.now` is a `now` input.
 */
module Recorder {
  import opened Text

  datatype Status = Pending | Recording | Completed

  /** A captured interaction; the element is represented by its id. */
  datatype RecordedAction = RecordedAction(
    id: string,
    timestamp: int,
    action: string,
    elementId: string,
    description: string,
    flow: string)

  datatype TestFlow = TestFlow(
    id: string,
    name: string,
    description: string,
    actions: seq<RecordedAction>,
    status: Status,
    confidence: int)

  /** An append timer not yet fired: the flow id its callback captured and
      the action it appends. */
  datatype PendingAppend = PendingAppend(flowId: string, action: RecordedAction)

  /** The screen's state, plus the append timers still to fire. */
  datatype RecorderState = RecorderState(
    isRecording: bool,
    recordingTime: nat,
    currentFlow: string,
    flows: seq<TestFlow>,
    recentActions: seq<RecordedAction>,
    pending: seq<PendingAppend>)

  /** Number of entries the recent-actions buffer keeps. */
  const RecentCap: nat := 10

  // ---------------------------------------------------------------------------
  // Initial state
  // ---------------------------------------------------------------------------

  function NewFlow(id: string, name: string, description: string): TestFlow {
    TestFlow(id, name, description, [], Pending, 0)
  }

  function InitialFlows(): seq<TestFlow> {
    [ NewFlow("registration", "User Registration", "Complete user signup and profile setup"),
      NewFlow("messaging", "Send Messages", "Send and receive text messages"),
      NewFlow("group-messaging", "Group Messages", "Create groups and send group messages"),
      NewFlow("voice-call", "1-to-1 Voice Call", "Initiate and manage voice calls"),
      NewFlow("video-call", "1-to-1 Video Call", "Start and control video calls"),
      NewFlow("group-call", "Group Calls", "Multi-participant video conferences") ]
  }

  function Init(): RecorderState {
    RecorderState(false, 0, "", InitialFlows(), [], [])
  }

  predicate DistinctIds(flows: seq<TestFlow>) {
    forall i, j :: 0 <= i < j < |flows| ==> flows[i].id != flows[j].id
  }

  /** Every flow starts pending, with no actions and confidence 0, under a distinct id. */
  lemma InitialFlowsFresh()
    ensures DistinctIds(Init().flows)
    ensures |Init().flows| == 6
    ensures forall f :: f in Init().flows ==> f.status == Pending && f.confidence == 0 && f.actions == []
    ensures !Init().isRecording && Init().currentFlow == "" && Init().recentActions == [] && Init().pending == []
  {
  }

  // ---------------------------------------------------------------------------
  // The scripted actions each flow replays while it is recorded
  // ---------------------------------------------------------------------------

  function Act(id: string, offset: int, action: string, elementId: string, description: string,
               flow: string, now: int): RecordedAction
  {
    RecordedAction(id, now + offset, action, elementId, description, flow)
  }

  /** Actions of `flowId`, stamped one second apart from `now` on. */
  predicate Scheduled(r: seq<RecordedAction>, flowId: string, now: int) {
    forall k :: 0 <= k < |r| ==> r[k].flow == flowId && r[k].timestamp == now + 1000 * k
  }

  function RegistrationActions(flowId: string, now: int): (r: seq<RecordedAction>)
    ensures |r| == 4 && Scheduled(r, flowId, now)
  {
    [ Act("1", 0, "tap", "signup_button", "Tap Sign Up button", flowId, now),
      Act("2", 1000, "enterText", "email_field", "Enter email address", flowId, now),
      Act("3", 2000, "enterText", "password_field", "Enter password", flowId, now),
      Act("4", 3000, "tap", "create_account_btn", "Tap Create Account button", flowId, now) ]
  }

  function MessagingActions(flowId: string, now: int): (r: seq<RecordedAction>)
    ensures |r| == 5 && Scheduled(r, flowId, now)
  {
    [ Act("5", 0, "tap", "chat_tab", "Navigate to Chat tab", flowId, now),
      Act("6", 1000, "tap", "new_chat_fab", "Tap new chat button", flowId, now),
      Act("7", 2000, "tap", "contact_item", "Select contact", flowId, now),
      Act("8", 3000, "enterText", "message_input", "Type message", flowId, now),
      Act("9", 4000, "tap", "send_button", "Send message", flowId, now) ]
  }

  function GroupMessagingActions(flowId: string, now: int): (r: seq<RecordedAction>)
    ensures |r| == 4 && Scheduled(r, flowId, now)
  {
    [ Act("10", 0, "tap", "teams_tab", "Navigate to Teams tab", flowId, now),
      Act("11", 1000, "tap", "create_team_btn", "Create new team", flowId, now),
      Act("12", 2000, "enterText", "team_name_field", "Enter team name", flowId, now),
      Act("13", 3000, "tap", "add_members_btn", "Add team members", flowId, now) ]
  }

  function VoiceCallActions(flowId: string, now: int): (r: seq<RecordedAction>)
    ensures |r| == 4 && Scheduled(r, flowId, now)
  {
    [ Act("14", 0, "tap", "calls_tab", "Navigate to Calls tab", flowId, now),
      Act("15", 1000, "tap", "make_call_btn", "Initiate call", flowId, now),
      Act("16", 2000, "tap", "contact_search", "Search for contact", flowId, now),
      Act("17", 3000, "tap", "voice_call_btn", "Start voice call", flowId, now) ]
  }

  function VideoCallActions(flowId: string, now: int): (r: seq<RecordedAction>)
    ensures |r| == 3 && Scheduled(r, flowId, now)
  {
    [ Act("18", 0, "tap", "video_call_btn", "Start video call", flowId, now),
      Act("19", 1000, "tap", "camera_toggle", "Toggle camera on/off", flowId, now),
      Act("20", 2000, "tap", "mute_toggle", "Toggle microphone", flowId, now) ]
  }

  function GroupCallActions(flowId: string, now: int): (r: seq<RecordedAction>)
    ensures |r| == 3 && Scheduled(r, flowId, now)
  {
    [ Act("21", 0, "tap", "team_channel", "Select team channel", flowId, now),
      Act("22", 1000, "tap", "meet_now_btn", "Start group meeting", flowId, now),
      Act("23", 2000, "tap", "invite_people_btn", "Invite participants", flowId, now) ]
  }

  /** The actions scheduled for `flowId` when recording starts at time `now`;
      an unknown flow id schedules nothing. */
  function FlowActions(flowId: string, now: int): (r: seq<RecordedAction>)
    ensures Scheduled(r, flowId, now)
    ensures flowId !in KnownFlowIds() ==> r == []
    ensures flowId in KnownFlowIds() ==> 3 <= |r| <= 5
  {
    if flowId == "registration" then RegistrationActions(flowId, now)
    else if flowId == "messaging" then MessagingActions(flowId, now)
    else if flowId == "group-messaging" then GroupMessagingActions(flowId, now)
    else if flowId == "voice-call" then VoiceCallActions(flowId, now)
    else if flowId == "video-call" then VideoCallActions(flowId, now)
    else if flowId == "group-call" then GroupCallActions(flowId, now)
    else []
  }

  function KnownFlowIds(): set<string> {
    {"registration", "messaging", "group-messaging", "voice-call", "video-call", "group-call"}
  }

  /** Every seeded flow has a script of actions, and nothing else has one. */
  lemma KnownFlowIdsAreTheInitialFlows()
    ensures forall f :: f in InitialFlows() ==> f.id in KnownFlowIds()
    ensures forall id :: id in KnownFlowIds() ==> exists f :: f in InitialFlows() && f.id == id
  {
    assert InitialFlows()[0].id == "registration";
    assert InitialFlows()[1].id == "messaging";
    assert InitialFlows()[2].id == "group-messaging";
    assert InitialFlows()[3].id == "voice-call";
    assert InitialFlows()[4].id == "video-call";
    assert InitialFlows()[5].id == "group-call";
  }

  // ---------------------------------------------------------------------------
  // List updates
  // ---------------------------------------------------------------------------

  /** Sets the status of every flow whose id is `id`; nothing else changes. */
  function WithStatus(flows: seq<TestFlow>, id: string, st: Status): (r: seq<TestFlow>)
    ensures |r| == |flows|
    ensures forall i :: 0 <= i < |r| && flows[i].id != id ==> r[i] == flows[i]
    ensures forall i :: 0 <= i < |r| && flows[i].id == id ==>
              r[i].status == st && r[i].(status := flows[i].status) == flows[i]
  {
    seq(|flows|, i requires 0 <= i < |flows| => if flows[i].id == id then flows[i].(status := st) else flows[i])
  }

  /** Completes every flow whose id is `id` with the given confidence. */
  function Complete(flows: seq<TestFlow>, id: string, confidence: int): (r: seq<TestFlow>)
    ensures |r| == |flows|
    ensures forall i :: 0 <= i < |r| && flows[i].id != id ==> r[i] == flows[i]
    ensures forall i :: 0 <= i < |r| && flows[i].id == id ==>
              && r[i].status == Completed && r[i].confidence == confidence
              && r[i].(status := flows[i].status, confidence := flows[i].confidence) == flows[i]
  {
    seq(|flows|, i requires 0 <= i < |flows| =>
      if flows[i].id == id then flows[i].(status := Completed, confidence := confidence) else flows[i])
  }

  /** Appends `a` to the action list of every flow whose id is `id`. */
  function AppendTo(flows: seq<TestFlow>, id: string, a: RecordedAction): (r: seq<TestFlow>)
    ensures |r| == |flows|
    ensures forall i :: 0 <= i < |r| && flows[i].id != id ==> r[i] == flows[i]
    ensures forall i :: 0 <= i < |r| && flows[i].id == id ==>
              r[i].actions == flows[i].actions + [a] && r[i].(actions := flows[i].actions) == flows[i]
  {
    seq(|flows|, i requires 0 <= i < |flows| =>
      if flows[i].id == id then flows[i].(actions := flows[i].actions + [a]) else flows[i])
  }

  /** The recent-actions buffer: newest first, at most `RecentCap` entries. */
  function PushRecent(recent: seq<RecordedAction>, a: RecordedAction): (r: seq<RecordedAction>)
    ensures |r| == if |recent| < RecentCap then |recent| + 1 else RecentCap
    ensures 1 <= |r| <= RecentCap
    ensures r[0] == a
    ensures r[1..] == recent[..|r| - 1]
  {
    [a] + recent[..if |recent| < RecentCap - 1 then |recent| else RecentCap - 1]
  }

  // ---------------------------------------------------------------------------
  // Operations
  // ---------------------------------------------------------------------------

  /** The timers `startRecording` schedules for `flowId`, one per catalog action. */
  function Timers(flowId: string, actions: seq<RecordedAction>): (r: seq<PendingAppend>)
    ensures |r| == |actions|
    ensures forall k :: 0 <= k < |r| ==> r[k].flowId == flowId && r[k].action == actions[k]
  {
    seq(|actions|, k requires 0 <= k < |actions| => PendingAppend(flowId, actions[k]))
  }

  /** `startRecording`: the flow is marked recording, the clock restarts and
      an append timer is scheduled for each action of the flow's catalog. */
  function StartRecording(s: RecorderState, flowId: string, now: int): (r: RecorderState)
    ensures r.isRecording && r.currentFlow == flowId && r.recordingTime == 0
    ensures r.recentActions == s.recentActions
    ensures |r.flows| == |s.flows|
    ensures forall i :: 0 <= i < |s.flows| && s.flows[i].id != flowId ==> r.flows[i] == s.flows[i]
    ensures forall i :: 0 <= i < |s.flows| && s.flows[i].id == flowId ==>
              r.flows[i].status == Recording && r.flows[i].(status := s.flows[i].status) == s.flows[i]
    ensures |r.pending| == |s.pending| + |FlowActions(flowId, now)|
    ensures r.pending[..|s.pending|] == s.pending
    ensures forall k :: |s.pending| <= k < |r.pending| ==>
              r.pending[k] == PendingAppend(flowId, FlowActions(flowId, now)[k - |s.pending|])
  {
    s.(currentFlow := flowId, isRecording := true, recordingTime := 0,
       flows := WithStatus(s.flows, flowId, Recording),
       pending := s.pending + Timers(flowId, FlowActions(flowId, now)))
  }

  /** `stopRecording`; `roll` is `Math.floor(Math.random() * 20)`. */
  function StopRecording(s: RecorderState, roll: nat): (r: RecorderState)
    requires roll < 20
    ensures !r.isRecording && r.currentFlow == ""
    ensures r.recordingTime == s.recordingTime && r.recentActions == s.recentActions && r.pending == s.pending
    ensures |r.flows| == |s.flows|
    ensures forall i :: 0 <= i < |s.flows| && s.flows[i].id != s.currentFlow ==> r.flows[i] == s.flows[i]
    ensures forall i :: 0 <= i < |s.flows| && s.flows[i].id == s.currentFlow ==>
              && r.flows[i].status == Completed
              && r.flows[i].confidence == roll + 80 && 80 <= r.flows[i].confidence <= 99
              && r.flows[i].actions == s.flows[i].actions
  {
    s.(isRecording := false, flows := Complete(s.flows, s.currentFlow, roll + 80), currentFlow := "")
  }

  /** One fired append timer: the action goes to the front of the recent
      buffer and to the end of the flow's action list. */
  function AppendAction(s: RecorderState, flowId: string, a: RecordedAction): (r: RecorderState)
    ensures r.recentActions == PushRecent(s.recentActions, a)
    ensures r.(flows := s.flows, recentActions := s.recentActions) == s
    ensures |r.flows| == |s.flows|
    ensures forall i :: 0 <= i < |s.flows| && s.flows[i].id != flowId ==> r.flows[i] == s.flows[i]
    ensures forall i :: 0 <= i < |s.flows| && s.flows[i].id == flowId ==>
              r.flows[i].actions == s.flows[i].actions + [a]
              && r.flows[i].status == s.flows[i].status
              && r.flows[i].confidence == s.flows[i].confidence
  {
    s.(recentActions := PushRecent(s.recentActions, a), flows := AppendTo(s.flows, flowId, a))
  }

  /** Removes the `k`-th pending timer. */
  function RemoveAt(p: seq<PendingAppend>, k: nat): (r: seq<PendingAppend>)
    requires k < |p|
    ensures |r| + 1 == |p|
    ensures forall j :: 0 <= j < |r| ==> r[j] == if j < k then p[j] else p[j + 1]
  {
    p[..k] + p[k + 1..]
  }

  /** The `k`-th pending timer fires, in whatever order the timers of
      overlapping recordings interleave: its action is appended to the flow
      it captured and the timer is gone. */
  function FireAppend(s: RecorderState, k: nat): (r: RecorderState)
    requires k < |s.pending|
    ensures r.pending == RemoveAt(s.pending, k)
    ensures r.recentActions == PushRecent(s.recentActions, s.pending[k].action)
    ensures r.flows == AppendTo(s.flows, s.pending[k].flowId, s.pending[k].action)
    ensures r.(flows := s.flows, recentActions := s.recentActions, pending := s.pending) == s
  {
    AppendAction(s.(pending := RemoveAt(s.pending, k)), s.pending[k].flowId, s.pending[k].action)
  }

  /** One second of the recording clock, which only runs while recording. */
  function ClockTick(s: RecorderState): (r: RecorderState)
    ensures s.isRecording ==> r.recordingTime == s.recordingTime + 1
    ensures !s.isRecording ==> r == s
    ensures r.(recordingTime := s.recordingTime) == s
  {
    if s.isRecording then s.(recordingTime := s.recordingTime + 1) else s
  }

  /** `n.toString().padStart(2, '0')`: at least two digits that read back as `n`. */
  function PadTwo(n: nat): (r: string)
    ensures AllDigits(r) && ParseNat(r) == n
    ensures |r| >= 2
    ensures |r| == 2 <==> n < 100
  {
    PadTwoValue(n);
    PadStart(NatToString(n), 2, '0')
  }

  /** `formatTime`: minutes and seconds, each padded to two digits. */
  function FormatTime(seconds: nat): string {
    Clock(seconds / 60, seconds % 60)
  }

  /** The rendering of a minutes and a seconds field. */
  function Clock(mins: nat, secs: nat): string {
    PadTwo(mins) + ":" + PadTwo(secs)
  }

  // ---------------------------------------------------------------------------
  // formatTime: shape and round trip
  // ---------------------------------------------------------------------------

  /** The text before the colon of a clock rendering. */
  function MinutesField(t: string): string
    requires |t| >= 3
  {
    t[..|t| - 3]
  }

  /** The last two characters of a clock rendering. */
  function SecondsField(t: string): string
    requires |t| >= 2
  {
    t[|t| - 2..]
  }

  /** The shape `formatTime` produces: minute digits, a colon, two second digits. */
  predicate IsClock(t: string) {
    |t| >= 4 && t[|t| - 3] == ':' && AllDigits(MinutesField(t)) && AllDigits(SecondsField(t))
  }

  /** Reads back a clock rendering as a number of seconds. */
  function ClockValue(t: string): nat
    requires IsClock(t)
  {
    ParseNat(MinutesField(t)) * 60 + ParseNat(SecondsField(t))
  }

  lemma PadTwoValue(n: nat)
    ensures AllDigits(PadStart(NatToString(n), 2, '0'))
    ensures ParseNat(PadStart(NatToString(n), 2, '0')) == n
  {
    var d := NatToString(n);
    ParseNatToString(n);
    if |d| < 2 {
      assert PadStart(d, 2, '0') == "0" + d;
      ParseNatLeadingZero(d);
    }
  }

  /** Where the parts of `m + ":" + sec` sit. */
  lemma ClockSplit(m: string, sec: string, r: string)
    requires |sec| == 2 && r == m + ":" + sec
    ensures |r| == |m| + 3 && r[|r| - 3] == ':' && MinutesField(r) == m && SecondsField(r) == sec
  {
  }

  lemma ClockShape(m: string, sec: string)
    requires AllDigits(m) && AllDigits(sec) && |m| >= 2 && |sec| == 2
    ensures IsClock(m + ":" + sec)
  {
    ClockSplit(m, sec, m + ":" + sec);
  }

  lemma ClockParts(m: string, sec: string)
    requires AllDigits(m) && AllDigits(sec) && |sec| == 2 && IsClock(m + ":" + sec)
    ensures MinutesField(m + ":" + sec) == m && SecondsField(m + ":" + sec) == sec
    ensures ClockValue(m + ":" + sec) == ParseNat(m) * 60 + ParseNat(sec)
  {
    ClockSplit(m, sec, m + ":" + sec);
  }

  /** Joining two digit fields gives a clock whose value is read off the fields. */
  lemma JoinClock(m: string, sec: string)
    requires AllDigits(m) && AllDigits(sec) && |m| >= 2 && |sec| == 2
    ensures IsClock(m + ":" + sec)
    ensures MinutesField(m + ":" + sec) == m && SecondsField(m + ":" + sec) == sec
    ensures ClockValue(m + ":" + sec) == ParseNat(m) * 60 + ParseNat(sec)
    ensures |m + ":" + sec| == 5 <==> |m| == 2
  {
    ClockShape(m, sec);
    ClockParts(m, sec);
  }

  lemma DivModSixty(seconds: nat)
    ensures seconds / 60 * 60 + seconds % 60 == seconds
    ensures seconds % 60 < 60
    ensures seconds / 60 < 100 <==> seconds < 6000
  {
  }

  /** A clock built from minutes and seconds reads back as their total. */
  lemma ClockRoundTrip(mins: nat, secs: nat)
    requires secs < 60
    ensures IsClock(Clock(mins, secs))
    ensures ParseNat(MinutesField(Clock(mins, secs))) == mins
    ensures ParseNat(SecondsField(Clock(mins, secs))) == secs
    ensures ClockValue(Clock(mins, secs)) == mins * 60 + secs
    ensures |Clock(mins, secs)| == 5 <==> mins < 100
  {
    JoinClock(PadTwo(mins), PadTwo(secs));
  }

  lemma ClockValueIs(mins: nat, secs: nat, total: nat)
    requires secs < 60 && mins * 60 + secs == total
    ensures IsClock(Clock(mins, secs))
    ensures ClockValue(Clock(mins, secs)) == total
  {
    ClockRoundTrip(mins, secs);
  }

  lemma FormatTimeShape(seconds: nat)
    ensures IsClock(FormatTime(seconds))
    ensures |FormatTime(seconds)| == 5 <==> seconds < 6000
  {
    var mins, secs := seconds / 60, seconds % 60;
    DivModSixty(seconds);
    ClockRoundTrip(mins, secs);
  }

  /** The two fields of `formatTime` hold the minutes and the leftover seconds. */
  lemma FormatTimeFields(seconds: nat)
    ensures IsClock(FormatTime(seconds))
    ensures ParseNat(MinutesField(FormatTime(seconds))) == seconds / 60
    ensures ParseNat(SecondsField(FormatTime(seconds))) == seconds % 60
  {
    DivModSixty(seconds);
    ClockRoundTrip(seconds / 60, seconds % 60);
  }

  lemma FormatTimeValue(seconds: nat)
    ensures IsClock(FormatTime(seconds))
    ensures ClockValue(FormatTime(seconds)) == seconds
  {
    FormatTimeShape(seconds);
    DivModSixty(seconds);
    ClockValueIs(seconds / 60, seconds % 60, seconds);
  }

  /** The seconds field is always two digits and holds the seconds past the
      minute; the minutes field holds the whole minutes and is two digits
      exactly below 100 minutes; the text reads back as the input. */
  lemma FormatTimeRoundTrip(seconds: nat)
    ensures IsClock(FormatTime(seconds))
    ensures ParseNat(MinutesField(FormatTime(seconds))) == seconds / 60
    ensures ParseNat(SecondsField(FormatTime(seconds))) == seconds % 60
    ensures ClockValue(FormatTime(seconds)) == seconds
    ensures |FormatTime(seconds)| == 5 <==> seconds < 6000
  {
    FormatTimeShape(seconds);
    FormatTimeFields(seconds);
    FormatTimeValue(seconds);
  }

  // ---------------------------------------------------------------------------
  // The screen as a state machine
  // ---------------------------------------------------------------------------

  datatype Event =
    | Record(flowId: string, now: int)
    | Stop(roll: nat)
    | Append(k: nat)
    | Tick

  /** The Record button is offered for pending flows only and is disabled
      while anything is recording; Stop is shown only while recording; the
      clock interval exists only while recording. Append timers are never
      cancelled, so any pending one may fire, during or after its recording. */
  predicate Enabled(s: RecorderState, e: Event) {
    match e
    case Record(flowId, _) =>
      !s.isRecording && exists i :: 0 <= i < |s.flows| && s.flows[i].id == flowId && s.flows[i].status == Pending
    case Stop(roll) => s.isRecording && roll < 20
    case Append(k) => k < |s.pending|
    case Tick => s.isRecording
  }

  function Apply(s: RecorderState, e: Event): RecorderState
    requires Enabled(s, e)
  {
    match e
    case Record(flowId, now) => StartRecording(s, flowId, now)
    case Stop(roll) => StopRecording(s, roll)
    case Append(k) => FireAppend(s, k)
    case Tick => ClockTick(s)
  }

  /** Applies the events in order, skipping the ones that are not enabled. */
  function Run(s: RecorderState, events: seq<Event>): RecorderState
    decreases |events|
  {
    if events == [] then s
    else if Enabled(s, events[0]) then Run(Apply(s, events[0]), events[1..])
    else Run(s, events[1..])
  }

  /** `a` is an entry of its flow's catalog, for some start time. */
  ghost predicate InCatalog(a: RecordedAction) {
    exists now :: a in FlowActions(a.flow, now)
  }

  /** Every action in the screen, pending or appended, comes from the catalog
      of the flow it is filed under. */
  ghost predicate FromCatalog(s: RecorderState) {
    && (forall k :: 0 <= k < |s.pending| ==>
          s.pending[k].action.flow == s.pending[k].flowId && InCatalog(s.pending[k].action))
    && (forall i, a :: 0 <= i < |s.flows| && a in s.flows[i].actions ==> a.flow == s.flows[i].id && InCatalog(a))
    && (forall a :: a in s.recentActions ==> InCatalog(a))
  }

  /** What the button guards maintain about statuses and the buffer. */
  ghost predicate Guarded(s: RecorderState) {
    && DistinctIds(s.flows)
    && (!s.isRecording ==> s.currentFlow == "")
    && (forall i :: 0 <= i < |s.flows| && s.flows[i].status == Recording ==>
          s.isRecording && s.flows[i].id == s.currentFlow)
    && (s.isRecording ==>
          forall i :: 0 <= i < |s.flows| && s.flows[i].id == s.currentFlow ==> s.flows[i].status == Recording)
    && (forall i :: 0 <= i < |s.flows| && s.flows[i].status != Completed ==> s.flows[i].confidence == 0)
    && (forall i :: 0 <= i < |s.flows| && s.flows[i].status == Completed ==> 80 <= s.flows[i].confidence <= 99)
    && |s.recentActions| <= RecentCap
  }

  /** Every flow on screen carries one of the seeded ids. */
  ghost predicate KnownIds(s: RecorderState) {
    forall i :: 0 <= i < |s.flows| ==> s.flows[i].id in KnownFlowIds()
  }

  /** The invariant every reachable screen satisfies. */
  ghost predicate Good(s: RecorderState) {
    Guarded(s) && KnownIds(s) && FromCatalog(s)
  }

  lemma InitKnownIds()
    ensures KnownIds(Init())
  {
    KnownFlowIdsAreTheInitialFlows();
    var flows := Init().flows;
    assert forall i :: 0 <= i < |flows| ==> flows[i] in flows;
  }

  lemma InitGuarded()
    ensures Guarded(Init()) && FromCatalog(Init())
  {
    InitialFlowsFresh();
    var flows := Init().flows;
    assert forall i :: 0 <= i < |flows| ==> flows[i] in flows;
  }

  lemma InitGood()
    ensures Good(Init())
  {
    InitKnownIds();
    InitGuarded();
  }

  /** A catalog entry belongs to one of the seeded flows. */
  lemma CatalogFlowKnown(a: RecordedAction)
    requires InCatalog(a)
    ensures a.flow in KnownFlowIds()
  {
    var now :| a in FlowActions(a.flow, now);
  }

  lemma RecordGuarded(s: RecorderState, flowId: string, now: int)
    requires Guarded(s) && Enabled(s, Record(flowId, now))
    ensures Guarded(StartRecording(s, flowId, now))
  {
  }

  lemma RecordPending(s: RecorderState, flowId: string, now: int)
    requires FromCatalog(s)
    ensures var r := StartRecording(s, flowId, now);
      forall k :: 0 <= k < |r.pending| ==>
        r.pending[k].action.flow == r.pending[k].flowId && InCatalog(r.pending[k].action)
  {
    var r := StartRecording(s, flowId, now);
    var acts := FlowActions(flowId, now);
    forall k | 0 <= k < |r.pending|
      ensures r.pending[k].action.flow == r.pending[k].flowId && InCatalog(r.pending[k].action)
    {
      if k < |s.pending| {
        assert r.pending[k] == r.pending[..|s.pending|][k];
      } else {
        var a := acts[k - |s.pending|];
        assert r.pending[k] == PendingAppend(flowId, a);
        assert a in FlowActions(a.flow, now);
      }
    }
  }

  lemma RecordFlows(s: RecorderState, flowId: string, now: int)
    requires forall i, a :: 0 <= i < |s.flows| && a in s.flows[i].actions ==> a.flow == s.flows[i].id && InCatalog(a)
    ensures var r := StartRecording(s, flowId, now);
      forall i, a :: 0 <= i < |r.flows| && a in r.flows[i].actions ==> a.flow == r.flows[i].id && InCatalog(a)
  {
    var r := StartRecording(s, flowId, now);
    forall i, a | 0 <= i < |r.flows| && a in r.flows[i].actions
      ensures a.flow == r.flows[i].id && InCatalog(a)
    {
      assert r.flows[i].actions == s.flows[i].actions && r.flows[i].id == s.flows[i].id;
    }
  }

  lemma RecordCatalog(s: RecorderState, flowId: string, now: int)
    requires FromCatalog(s)
    ensures FromCatalog(StartRecording(s, flowId, now))
  {
    RecordPending(s, flowId, now);
    RecordFlows(s, flowId, now);
  }

  lemma RecordGood(s: RecorderState, flowId: string, now: int)
    requires Good(s) && Enabled(s, Record(flowId, now))
    ensures Guarded(StartRecording(s, flowId, now)) && FromCatalog(StartRecording(s, flowId, now))
  {
    RecordGuarded(s, flowId, now);
    RecordCatalog(s, flowId, now);
  }

  lemma StopCatalog(s: RecorderState, roll: nat)
    requires FromCatalog(s) && roll < 20
    ensures FromCatalog(StopRecording(s, roll))
  {
    var r := StopRecording(s, roll);
    forall i, a | 0 <= i < |r.flows| && a in r.flows[i].actions
      ensures a.flow == r.flows[i].id && InCatalog(a)
    {
      assert r.flows[i].actions == s.flows[i].actions && r.flows[i].id == s.flows[i].id;
    }
  }

  lemma StopGood(s: RecorderState, roll: nat)
    requires Good(s) && Enabled(s, Stop(roll))
    ensures Guarded(StopRecording(s, roll)) && FromCatalog(StopRecording(s, roll))
  {
    StopCatalog(s, roll);
  }

  lemma FirePending(s: RecorderState, k: nat)
    requires FromCatalog(s) && k < |s.pending|
    ensures var r := FireAppend(s, k);
      forall j :: 0 <= j < |r.pending| ==>
        r.pending[j].action.flow == r.pending[j].flowId && InCatalog(r.pending[j].action)
  {
    var r := FireAppend(s, k);
    forall j | 0 <= j < |r.pending|
      ensures r.pending[j].action.flow == r.pending[j].flowId && InCatalog(r.pending[j].action)
    {
      assert r.pending[j] == if j < k then s.pending[j] else s.pending[j + 1];
    }
  }

  lemma FireFlows(s: RecorderState, k: nat)
    requires FromCatalog(s) && k < |s.pending|
    ensures var r := FireAppend(s, k);
      forall i, a :: 0 <= i < |r.flows| && a in r.flows[i].actions ==> a.flow == r.flows[i].id && InCatalog(a)
  {
    var r := FireAppend(s, k);
    var p := s.pending[k];
    forall i, a | 0 <= i < |r.flows| && a in r.flows[i].actions
      ensures a.flow == r.flows[i].id && InCatalog(a)
    {
      if s.flows[i].id == p.flowId {
        assert r.flows[i].actions == s.flows[i].actions + [p.action];
      } else {
        assert r.flows[i] == s.flows[i];
      }
    }
  }

  lemma FireRecent(s: RecorderState, k: nat)
    requires FromCatalog(s) && k < |s.pending|
    ensures forall a :: a in FireAppend(s, k).recentActions ==> InCatalog(a)
  {
    var r := FireAppend(s, k);
    forall a | a in r.recentActions
      ensures InCatalog(a)
    {
      var n := |r.recentActions|;
      var j :| 0 <= j < n && r.recentActions[j] == a;
      if j > 0 {
        assert a == r.recentActions[1..][j - 1];
        assert a == s.recentActions[..n - 1][j - 1];
        assert a in s.recentActions;
      }
    }
  }

  lemma AppendGood(s: RecorderState, k: nat)
    requires Good(s) && k < |s.pending|
    ensures Guarded(FireAppend(s, k)) && FromCatalog(FireAppend(s, k))
  {
    FirePending(s, k);
    FireFlows(s, k);
    FireRecent(s, k);
  }

  lemma TickGood(s: RecorderState)
    requires Good(s)
    ensures Guarded(ClockTick(s)) && FromCatalog(ClockTick(s))
  {
  }

  /** No event renames a flow. */
  lemma StepKnownIds(s: RecorderState, e: Event)
    requires KnownIds(s) && Enabled(s, e)
    ensures KnownIds(Apply(s, e))
  {
    var r := Apply(s, e);
    assert |r.flows| == |s.flows|;
    forall i | 0 <= i < |r.flows|
      ensures r.flows[i].id == s.flows[i].id
    {
    }
  }

  /** Every enabled event keeps the invariant. */
  lemma StepGood(s: RecorderState, e: Event)
    requires Good(s) && Enabled(s, e)
    ensures Good(Apply(s, e))
  {
    StepKnownIds(s, e);
    match e
    case Record(flowId, now) => RecordGood(s, flowId, now);
    case Stop(roll) => StopGood(s, roll);
    case Append(k) => AppendGood(s, k);
    case Tick => TickGood(s);
  }

  lemma {:induction false} RunGood(s: RecorderState, events: seq<Event>)
    requires Good(s)
    ensures Good(Run(s, events))
    decreases |events|
  {
    if events != [] {
      if Enabled(s, events[0]) {
        StepGood(s, events[0]);
        RunGood(Apply(s, events[0]), events[1..]);
      } else {
        RunGood(s, events[1..]);
      }
    }
  }

  /** The catalog invariant, read per flow: each action a flow holds carries
      the flow's id and is an entry of that flow's catalog. */
  lemma FlowsFromCatalog(s: RecorderState)
    requires FromCatalog(s)
    ensures forall i, a :: 0 <= i < |s.flows| && a in s.flows[i].actions ==>
              a.flow == s.flows[i].id && exists now :: a in FlowActions(s.flows[i].id, now)
  {
    forall i, a | 0 <= i < |s.flows| && a in s.flows[i].actions
      ensures a.flow == s.flows[i].id && exists now :: a in FlowActions(s.flows[i].id, now)
    {
      assert a.flow == s.flows[i].id && InCatalog(a);
    }
  }

  /** From the initial screen, whatever the clicks and timers: every flow
      keeps a seeded id, and every action a flow holds is one of its own
      catalog's. */
  lemma {:induction false} ActionsFromCatalog(events: seq<Event>)
    ensures var s := Run(Init(), events);
      && (forall i :: 0 <= i < |s.flows| ==> s.flows[i].id in KnownFlowIds())
      && (forall i, a :: 0 <= i < |s.flows| && a in s.flows[i].actions ==>
            a.flow == s.flows[i].id && exists now :: a in FlowActions(s.flows[i].id, now))
  {
    InitGood();
    RunGood(Init(), events);
    FlowsFromCatalog(Run(Init(), events));
  }

  /** Under the guards at most one flow is being recorded. */
  lemma AtMostOneRecording(s: RecorderState)
    requires Guarded(s)
    ensures forall i, j ::
              (0 <= i < |s.flows| && 0 <= j < |s.flows| && s.flows[i].status == Recording
               && s.flows[j].status == Recording) ==> i == j
  {
  }

  /** Status only moves forward: pending to recording, recording to completed. */
  predicate Advances(a: Status, b: Status) {
    a == b || (a == Pending && b == Recording) || (a == Recording && b == Completed)
  }

  lemma {:induction false} StepAdvances(s: RecorderState, e: Event)
    requires Guarded(s) && Enabled(s, e)
    ensures |Apply(s, e).flows| == |s.flows|
    ensures forall i :: 0 <= i < |s.flows| ==>
              Apply(s, e).flows[i].id == s.flows[i].id && Advances(s.flows[i].status, Apply(s, e).flows[i].status)
    ensures !e.Stop? ==> forall i :: 0 <= i < |s.flows| ==> Apply(s, e).flows[i].confidence == s.flows[i].confidence
  {
    var t := Apply(s, e);
    match e
    case Record(flowId, now) =>
      forall i | 0 <= i < |s.flows|
        ensures Advances(s.flows[i].status, t.flows[i].status)
      {
        if s.flows[i].id == flowId {
          assert s.flows[i].status != Recording;
        }
      }
    case Stop(roll) =>
    case Append(k) =>
    case Tick =>
  }
}
