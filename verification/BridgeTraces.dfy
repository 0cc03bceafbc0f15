/** What one attempt of the bridge does and meets, in order, and what its receipts say about it. */
module BridgeTraces {
  import opened Common
  import Bridge

  datatype Step = Reserve | Create | Checkout
  datatype Frame = ThreadStart | NameSet | ThreadResume | TurnStart
  datatype Effect = Tree(step: Step) | Host(frame: Frame)

  type Status = Bridge.Status

  datatype Phase =
    | Starting | Validating | ReservingDestination | CreatingWorktree | CheckingOutWorktree | CheckingWorktree | WorktreeChecked
    | CreatingThread | CheckingEnvironment | NamingThread | ThreadNamed | CheckingBeforeDispatch
    | DispatchingInitialPrompt | InitialPromptAccepted | Complete

  datatype PromptState = NotRequested | NotSent | PromptUnknown | PromptAccepted | PromptRejected

  datatype Delivery = Unset | NotDelivered | TurnStarted | DeliveryRejected | DeliveryUnknown

  datatype Receipt = Receipt(status: Status, phase: Phase, recoveryRequired: bool, prompt: Option<PromptState>, delivery: Delivery)

  function Fresh(prompt: Option<PromptState>): Receipt { Receipt(Bridge.InProgress, Starting, false, prompt, Unset) }

  /** How a call to the host ended: nothing was written, no answer came, a refusal, an answer nobody can read, an answer. */
  datatype CallEnd = Unsent(refused: bool) | Lost | Denied | Unreadable | Answer

  /** The status of a thread as thread/read tells it. */
  datatype ThreadStatus = ActiveThread | NotLoaded | OtherStatus

  type ModelPair = (string, string)

  /** A frame is tracked just before it is written, and leaves if the write gets it out. */
  datatype Event =
    | Tried(step: Step)
    | Worked(step: Step)
    | Looked(matches: bool)
    | Tracked(frame: Frame)
    | Left(frame: Frame)
    | Refused(frame: Frame)
    | Garbled(frame: Frame)
    | Answered(frame: Frame)
    | Found(nothing: bool)
    | Placed(matches: bool)
    | Read(status: ThreadStatus)
    | Guarded(clear: bool)
    | Compared(want: ModelPair, reported: ModelPair)
    | Moved(ok: bool)
    | Saved(receipt: Receipt)

  function Heard(frame: Frame, end: CallEnd): seq<Event> {
    match end
    case Unsent(_) => []
    case Lost => []
    case Denied => [Refused(frame)]
    case Unreadable => [Garbled(frame)]
    case Answer => [Answered(frame)]
  }

  /** What a call adds to the key events. */
  function Called(frame: Frame, end: CallEnd): seq<Event> {
    if end.Unsent? || frame.NameSet? then [] else [Tracked(frame)] + Heard(frame, end)
  }

  /** An action's error as mutate tells them apart: none, one that makes the attempt failed, any other. */
  datatype Ending = Success | Failure | OtherError

  function EndingOf(end: CallEnd): Ending {
    if end.Answer? then Success else if end == Unsent(true) || end.Denied? then Failure else OtherError
  }

  function StatusOf(ending: Ending, effects: seq<Effect>): Status {
    match ending
    case Success => Bridge.Accepted
    case Failure => Bridge.Failed
    case OtherError => if effects == [] then Bridge.NotAttempted else Bridge.OutcomeUnknown
  }

  // ----- what an action is told

  /** What an action waits for an answer on. */
  datatype Subject =
    | SavingAt(phase: Phase)
    | Validation
    | Stepping(step: Step)
    | Inspection
    | Matching
    | Calling(frame: Frame)
    | Watching
    | Settings
    | Placement
    | ThreadReading
    | StateGuard
    | ProfileAndWatch
    | Servers
    | Pair
    | Anchor

  /** One answer, by the error it would give the action. */
  datatype Report = Report(about: Subject, ending: Ending)

  /** Every error ends the action, except a refusal of the thread's name. */
  predicate Stops(r: Report) { r.ending.OtherError? || (r.ending.Failure? && r.about != Calling(NameSet)) }

  /**
   * The reports of a part of an action: on its subjects, in order. It succeeds when all of them were given and none
   * stops it; otherwise the first one that stops it is the last, and the part ends in its error.
   */
  ghost predicate Reported(reports: seq<Report>, part: seq<Subject>, ending: Ending) {
    if reports == [] then part == [] && ending.Success?
    else
      && part != [] && reports[0].about == part[0]
      && if Stops(reports[0]) then |reports| == 1 && ending == reports[0].ending else Reported(reports[1..], part[1..], ending)
  }

  /** The reports a part of an action adds. */
  ghost predicate Ran(was: seq<Report>, now: seq<Report>, part: seq<Subject>, ending: Ending) {
    was <= now && Reported(now[|was|..], part, ending)
  }

  lemma RanOne(was: seq<Report>, r: Report)
    ensures Ran(was, was + [r], [r.about], if Stops(r) then r.ending else Success)
  {
    assert (was + [r])[|was|..] == [r];
    assert [r][1..] == [] && [r.about][1..] == [];
  }

  lemma RanNothing(was: seq<Report>)
    ensures Ran(was, was, [], Success)
  {
    assert was[|was|..] == [];
  }

  /** A part that succeeds is followed by the next one. */
  lemma RanOn(was: seq<Report>, mid: seq<Report>, now: seq<Report>, first: seq<Subject>, second: seq<Subject>, ending: Ending)
    requires Ran(was, mid, first, Success) && Ran(mid, now, second, ending)
    ensures Ran(was, now, first + second, ending)
  {
    var a, b := mid[|was|..], now[|mid|..];
    assert now[|was|..] == a + b;
    ReportedOn(a, b, first, second, ending);
  }

  lemma {:induction false} ReportedOn(a: seq<Report>, b: seq<Report>, first: seq<Subject>, second: seq<Subject>, ending: Ending)
    requires Reported(a, first, Success) && Reported(b, second, ending)
    ensures Reported(a + b, first + second, ending)
  {
    if a == [] {
      assert a + b == b && first + second == second;
    } else {
      ReportedOn(a[1..], b, first[1..], second, ending);
      assert (a + b)[1..] == a[1..] + b && (first + second)[1..] == first[1..] + second;
    }
  }

  /** A part that does not is the last one. */
  lemma RanOut(was: seq<Report>, now: seq<Report>, first: seq<Subject>, second: seq<Subject>, ending: Ending)
    requires Ran(was, now, first, ending) && !ending.Success?
    ensures Ran(was, now, first + second, ending)
  {
    ReportedOut(now[|was|..], first, second, ending);
  }

  lemma {:induction false} ReportedOut(a: seq<Report>, first: seq<Subject>, second: seq<Subject>, ending: Ending)
    requires Reported(a, first, ending) && !ending.Success?
    ensures Reported(a, first + second, ending)
  {
    if !Stops(a[0]) {
      ReportedOut(a[1..], first[1..], second, ending);
      assert (first + second)[1..] == first[1..] + second;
    }
  }

  /** The next part, which runs only when what came before succeeded. */
  lemma RanThen(was: seq<Report>, mid: seq<Report>, now: seq<Report>, first: seq<Subject>, second: seq<Subject>, before: Ending, ending: Ending)
    requires Ran(was, mid, first, before) && if before.Success? then Ran(mid, now, second, ending) else now == mid && ending == before
    ensures Ran(was, now, first + second, ending)
  {
    if before.Success? {
      RanOn(was, mid, now, first, second, ending);
    } else {
      RanOut(was, now, first, second, ending);
    }
  }

  /** What a save and a question report. */
  function Stored(ok: bool): Ending { if ok then Success else OtherError }

  function Passed(ok: bool): Ending { if ok then Success else Failure }

  /** The last report, when it stops the action. */
  predicate StoppedBy(reports: seq<Report>, ending: Ending) {
    reports != [] && Stops(reports[|reports| - 1]) && reports[|reports| - 1].ending == ending
  }

  /**
   * The reports decide the status: accepted when all that the action waits for was reported and nothing stopped it,
   * otherwise by the error of the last report, which is the only one that stops it.
   */
  ghost predicate Settles(reports: seq<Report>, agenda: seq<Subject>, status: Status, effects: seq<Effect>) {
    && |reports| <= |agenda|
    && (forall i | 0 <= i < |reports| :: reports[i].about == agenda[i])
    && (forall i | 0 <= i < |reports| - 1 :: !Stops(reports[i]))
    && (status.Accepted? <==> |reports| == |agenda| && forall i | 0 <= i < |reports| :: !Stops(reports[i]))
    && (status.Failed? <==> StoppedBy(reports, Failure))
    && (status.NotAttempted? <==> StoppedBy(reports, OtherError) && effects == [])
    && (status.OutcomeUnknown? <==> StoppedBy(reports, OtherError) && effects != [])
  }

  lemma {:induction false} EndingSettles(reports: seq<Report>, agenda: seq<Subject>, ending: Ending, effects: seq<Effect>)
    requires Reported(reports, agenda, ending)
    ensures Settles(reports, agenda, StatusOf(ending, effects), effects)
  {
    if reports != [] && !Stops(reports[0]) {
      EndingSettles(reports[1..], agenda[1..], ending, effects);
      assert forall i | 1 <= i < |reports| :: reports[i] == reports[1..][i - 1] && (i < |agenda| ==> agenda[i] == agenda[1..][i - 1]);
      assert reports == [reports[0]] + reports[1..];
    }
  }

  // ----- traces

  function EffectOf(e: Event): seq<Effect> {
    match e
    case Tried(step) => [Tree(step)]
    case Tracked(frame) => [Host(frame)]
    case _ => []
  }

  /** The effects an attempt tried, in order. */
  function EffectsOf(t: seq<Event>): seq<Effect> {
    if t == [] then [] else EffectsOf(t[..|t| - 1]) + EffectOf(t[|t| - 1])
  }

  /** Events other than writing receipts, frames leaving and naming the thread. */
  predicate Key(e: Event) {
    !e.Saved? && !e.Left? && !((e.Tracked? || e.Refused? || e.Garbled? || e.Answered?) && e.frame.NameSet?)
  }

  function Keys(t: seq<Event>): seq<Event> {
    if t == [] then [] else Keys(t[..|t| - 1]) + (if Key(t[|t| - 1]) then [t[|t| - 1]] else [])
  }

  lemma Append(t: seq<Event>, e: Event)
    ensures Keys(t + [e]) == Keys(t) + (if Key(e) then [e] else [])
    ensures EffectsOf(t + [e]) == EffectsOf(t) + EffectOf(e)
  {
    assert (t + [e])[..|t|] == t;
  }

  lemma {:induction false} KeyIn(t: seq<Event>, e: Event)
    requires Key(e)
    ensures e in t <==> e in Keys(t)
  {
    if t != [] {
      var n := |t| - 1;
      assert t == t[..n] + [t[n]];
      KeyIn(t[..n], e);
    }
  }

  lemma {:induction false} EffectIn(t: seq<Event>, frame: Frame)
    ensures Host(frame) in EffectsOf(t) <==> Tracked(frame) in t
  {
    if t != [] {
      var n := |t| - 1;
      assert t == t[..n] + [t[n]];
      EffectIn(t[..n], frame);
    }
  }

  /** The key events of a prefix are a prefix of the key events. */
  lemma {:induction false} KeysPrefix(t: seq<Event>, k: nat)
    requires k <= |t|
    ensures Keys(t[..k]) <= Keys(t)
    decreases |t|
  {
    if k < |t| {
      var n := |t| - 1;
      KeysPrefix(t[..n], k);
      assert t[..n][..k] == t[..k];
    } else {
      assert t[..k] == t;
    }
  }

  /** An answer that ends the action where the script has another one. */
  predicate Instead(e: Event, want: Event) {
    match e
    case Looked(matches) => !matches && want.Looked?
    case Refused(frame) => want == Answered(frame)
    case Garbled(frame) => want == Answered(frame)
    case Found(nothing) => !nothing && want.Found?
    case Placed(matches) => !matches && want.Placed?
    case Guarded(clear) => !clear && want.Guarded?
    case Compared(pair, reported) => pair != reported && want == Compared(pair, pair)
    case Moved(ok) => !ok && want.Moved?
    case _ => false
  }

  /** The script up to some event, the last one perhaps answered otherwise. */
  ghost predicate Follows(keys: seq<Event>, script: seq<Event>) {
    && |keys| <= |script|
    && forall i | 0 <= i < |keys| :: keys[i] == script[i] || (i == |keys| - 1 && Instead(keys[i], script[i]))
  }

  // ----- what the receipts say

  /** The prompt's word tells what happened to turn/start; a settled receipt tells it exactly. */
  ghost predicate PromptTrue(past: seq<Event>, state: PromptState, settled: bool) {
    match state
    case NotRequested => Tracked(TurnStart) !in past
    case NotSent => Tracked(TurnStart) !in past
    case PromptAccepted => Answered(TurnStart) in past
    case PromptRejected => Tracked(TurnStart) in past && Refused(TurnStart) in past
    case PromptUnknown => settled ==> Tracked(TurnStart) in past && Refused(TurnStart) !in past && Answered(TurnStart) !in past
  }

  ghost predicate DeliveryTrue(past: seq<Event>, delivery: Delivery) {
    match delivery
    case Unset => true
    case NotDelivered => Tracked(TurnStart) !in past
    case TurnStarted => Answered(TurnStart) in past
    case DeliveryRejected => Tracked(TurnStart) in past && Refused(TurnStart) in past
    case DeliveryUnknown => Tracked(TurnStart) in past && Refused(TurnStart) !in past && Answered(TurnStart) !in past
  }

  /** Once a worktree step was tried, only a complete receipt demands no recovery. */
  ghost predicate RecoveryTrue(past: seq<Event>, r: Receipt) {
    (exists step :: Tried(step) in past) && !r.recoveryRequired ==> r.phase.Complete?
  }

  /** A receipt tells the truth about what was done before it. */
  ghost predicate Told(past: seq<Event>, r: Receipt) {
    && (r.prompt.Some? ==> PromptTrue(past, r.prompt.value, !r.status.InProgress?))
    && DeliveryTrue(past, r.delivery)
    && RecoveryTrue(past, r)
  }

  /** Every receipt saved in a trace told the truth when it was saved. */
  ghost predicate SavesTrue(t: seq<Event>) {
    forall k | 0 <= k < |t| && t[k].Saved? :: Told(t[..k], t[k].receipt)
  }

  // ----- what left

  /** Only a tracked frame leaves, and only one that left is answered. */
  ghost predicate CarriedBy(past: seq<Event>, e: Event) {
    match e
    case Left(frame) => Tracked(frame) in past
    case Refused(frame) => Left(frame) in past
    case Garbled(frame) => Left(frame) in past
    case Answered(frame) => Left(frame) in past
    case _ => true
  }

  ghost predicate Carried(t: seq<Event>) {
    forall k | 0 <= k < |t| :: CarriedBy(t[..k], t[k])
  }

  lemma CarriedAppend(t: seq<Event>, e: Event)
    requires Carried(t) && CarriedBy(t, e)
    ensures Carried(t + [e])
  {
    forall k | 0 <= k < |t + [e]| ensures CarriedBy((t + [e])[..k], (t + [e])[k]) {
      assert (t + [e])[..k] == t[..k];
      assert k == |t| ==> t[..k] == t;
    }
  }

  lemma CarriedPrefix(t: seq<Event>, k: nat)
    requires Carried(t) && k <= |t|
    ensures Carried(t[..k])
  {
    forall j | 0 <= j < k ensures CarriedBy(t[..k][..j], t[..k][j]) {
      assert t[..k][..j] == t[..j];
    }
  }

  lemma CarriedFrame(t: seq<Event>, frame: Frame)
    requires Carried(t)
    ensures Left(frame) in t ==> Tracked(frame) in t
    ensures Refused(frame) in t || Garbled(frame) in t || Answered(frame) in t ==> Left(frame) in t
  {
    forall k | 0 <= k < |t| ensures CarriedBy(t, t[k]) {
      assert CarriedBy(t[..k], t[k]);
    }
  }

  /** Naming the thread, frames leaving and saving receipts change nothing a receipt tells. */
  lemma ToldByKeys(t: seq<Event>, r: Receipt)
    ensures Told(t, r) <==> Told(Keys(t), r)
  {
    KeyIn(t, Tracked(TurnStart));
    KeyIn(t, Answered(TurnStart));
    KeyIn(t, Refused(TurnStart));
    forall step ensures Tried(step) in t <==> Tried(step) in Keys(t) {
      KeyIn(t, Tried(step));
    }
  }

  lemma SavesAppend(t: seq<Event>, e: Event)
    requires SavesTrue(t) && (e.Saved? ==> Told(t, e.receipt))
    ensures SavesTrue(t + [e])
  {
    forall k | 0 <= k < |t + [e]| && (t + [e])[k].Saved? ensures Told((t + [e])[..k], (t + [e])[k].receipt) {
      assert (t + [e])[..k] == t[..k];
      assert k == |t| ==> t[..k] == t;
    }
  }

  /** A run killed at any point leaves a trace that still followed its script and told the truth. */
  lemma KilledAnywhere(t: seq<Event>, script: seq<Event>, k: nat)
    requires k <= |t| && Follows(Keys(t), script) && SavesTrue(t) && Carried(t)
    ensures Follows(Keys(t[..k]), script) && SavesTrue(t[..k]) && Carried(t[..k])
  {
    KeysPrefix(t, k);
    KilledSaves(t, k);
    CarriedPrefix(t, k);
  }

  // ----- create_worktree_thread

  /** What an accepted creation does before its prompt, in order. */
  function Ready(): seq<Event> {
    [Tried(Reserve), Worked(Reserve), Tried(Create), Worked(Create), Tried(Checkout), Worked(Checkout), Looked(true),
     Tracked(ThreadStart), Answered(ThreadStart), Found(true), Placed(true), Looked(true)]
  }

  function TreeAgenda(): seq<Subject> {
    [SavingAt(ReservingDestination), Stepping(Reserve)] + [SavingAt(CreatingWorktree), Stepping(Create)]
    + [SavingAt(CheckingOutWorktree), Stepping(Checkout)]
  }

  function InspectAgenda(phase: Phase): seq<Subject> { [Inspection] + [SavingAt(phase)] + [Matching] }

  function ThreadAgenda(): seq<Subject> {
    [SavingAt(CreatingThread)] + [Calling(ThreadStart)] + [Watching] + [SavingAt(CheckingEnvironment)] + [Settings] + [Placement]
  }

  function NameAgenda(named: bool): seq<Subject> {
    if named then [SavingAt(NamingThread)] + [Calling(NameSet)] + [SavingAt(ThreadNamed)] else []
  }

  function PromptAgenda(prompt: bool): seq<Subject> {
    if prompt then [SavingAt(DispatchingInitialPrompt)] + [Calling(TurnStart)] + [SavingAt(InitialPromptAccepted)] else []
  }

  function CheckedAgenda(): seq<Subject> {
    [SavingAt(Validating)] + [Validation] + TreeAgenda() + [SavingAt(CheckingWorktree)] + InspectAgenda(WorktreeChecked)
  }

  function ReadyAgenda(named: bool): seq<Subject> {
    CheckedAgenda() + ThreadAgenda() + NameAgenda(named) + InspectAgenda(CheckingBeforeDispatch)
  }

  /** What a creation waits for, in order. */
  function WorktreeAgenda(prompt: bool, named: bool): seq<Subject> {
    ReadyAgenda(named) + PromptAgenda(prompt) + [SavingAt(Complete)]
  }

  function WorktreeScript(prompt: bool): seq<Event> {
    if prompt then Ready() + [Tracked(TurnStart), Answered(TurnStart)] else Ready()
  }

  /** An effect of a trace that follows a script is the script's next event. */
  lemma KeyAt(t: seq<Event>, script: seq<Event>, k: nat)
    requires Follows(Keys(t), script) && k < |t| && t[k].Tracked? && Key(t[k])
    ensures |Keys(t[..k])| < |script| && script[|Keys(t[..k])|] == t[k] && Keys(t[..k]) == script[..|Keys(t[..k])|]
  {
    KeysPrefix(t, k + 1);
    assert t[..k + 1] == t[..k] + [t[k]];
    Append(t[..k], t[k]);
    var keys, cut := Keys(t), Keys(t[..k]);
    forall i | 0 <= i < |cut| ensures cut[i] == script[i] {
      assert cut[i] == Keys(t[..k + 1])[i] == keys[i];
    }
    assert Keys(t[..k + 1])[|cut|] == t[k] == keys[|cut|];
  }

  lemma ReadyShape(i: nat)
    requires i < |Ready()|
    ensures |Ready()| == 12 && Ready()[7] == Tracked(ThreadStart) && Ready()[i] != Tracked(TurnStart)
    ensures Ready()[i] == Tracked(ThreadStart) ==> i == 7
  {
  }

  lemma ScriptShape(prompt: bool)
    ensures forall i | 0 <= i < |WorktreeScript(prompt)| :: WorktreeScript(prompt)[i] == Tracked(ThreadStart) ==> i == 7
    ensures forall i | 0 <= i < |WorktreeScript(prompt)| :: WorktreeScript(prompt)[i] == Tracked(TurnStart) ==> prompt && i == 12
    ensures |WorktreeScript(prompt)| >= 12 && WorktreeScript(prompt)[..7] == Ready()[..7] && WorktreeScript(prompt)[..12] == Ready()
  {
    ReadyShape(0);
    forall i | 0 <= i < 12 ensures Ready()[i] != Tracked(TurnStart) && (Ready()[i] == Tracked(ThreadStart) ==> i == 7) {
      ReadyShape(i);
    }
    assert WorktreeScript(prompt)[..12] == Ready();
  }

  /** thread/start goes out only after reserve, create, checkout and a matching inspection, each once and in that order. */
  lemma ThreadStartGuarded(t: seq<Event>, prompt: bool, k: nat)
    requires Follows(Keys(t), WorktreeScript(prompt)) && k < |t| && t[k] == Tracked(ThreadStart)
    ensures Keys(t[..k]) == Ready()[..7]
  {
    var script, n := WorktreeScript(prompt), |Keys(t[..k])|;
    KeyAt(t, script, k);
    assert n < |script| && script[n] == Tracked(ThreadStart);
    assert n == 7 by { ScriptShape(prompt); }
    assert script[..7] == Ready()[..7] by { ScriptShape(prompt); }
  }

  /** turn/start goes out only after no settings finding, the right placement and a second matching inspection. */
  lemma TurnStartGuarded(t: seq<Event>, prompt: bool, k: nat)
    requires Follows(Keys(t), WorktreeScript(prompt)) && k < |t| && t[k] == Tracked(TurnStart)
    ensures prompt && Keys(t[..k]) == Ready()
  {
    var script, n := WorktreeScript(prompt), |Keys(t[..k])|;
    KeyAt(t, script, k);
    assert n < |script| && script[n] == Tracked(TurnStart);
    assert prompt && n == 12 by { ScriptShape(prompt); }
    assert script[..12] == Ready() by { ScriptShape(prompt); }
  }

  lemma ReadyHasNoAnswer(i: nat)
    requires i < |Ready()|
    ensures Ready()[i] != Answered(TurnStart) && Ready()[i] != Refused(TurnStart)
  {
  }

  lemma ScriptEndsWithTurn(prompt: bool)
    ensures EndsWithTurn(WorktreeScript(prompt))
  {
    forall i | 0 <= i < |Ready()| ensures Ready()[i] != Answered(TurnStart) && Ready()[i] != Refused(TurnStart) {
      ReadyHasNoAnswer(i);
    }
  }

  /** The words of a settled receipt, exactly; and a frame that was not about to be written did not leave. */
  lemma PromptTableExact(past: seq<Event>, r: Receipt, prompt: bool)
    requires Follows(Keys(past), WorktreeScript(prompt)) && Told(past, r) && !r.status.InProgress? && Carried(past)
    requires r.prompt.Some? && !r.prompt.value.NotRequested?
    ensures r.prompt.value.NotSent? ==> Left(TurnStart) !in past
    ensures r.prompt.value.PromptRejected? || r.prompt.value.PromptAccepted? ==> Left(TurnStart) in past
    ensures r.prompt.value.NotSent? <==> Tracked(TurnStart) !in past
    ensures r.prompt.value.PromptRejected? <==> Refused(TurnStart) in past
    ensures r.prompt.value.PromptAccepted? <==> Answered(TurnStart) in past
    ensures r.prompt.value.PromptUnknown? <==>
      Tracked(TurnStart) in past && Refused(TurnStart) !in past && Answered(TurnStart) !in past
  {
    ScriptEndsWithTurn(prompt);
    OneAnswer(past, WorktreeScript(prompt));
    CarriedFrame(past, TurnStart);
  }

  /** A script asks turn/start once, at its end, and takes only an answer. */
  predicate EndsWithTurn(script: seq<Event>) {
    && (forall i | 0 <= i < |script| :: script[i] != Refused(TurnStart) && (script[i] == Answered(TurnStart) ==> i == |script| - 1))
    && (Answered(TurnStart) in script ==> |script| >= 2 && script[|script| - 2] == Tracked(TurnStart))
  }

  lemma OneAnswer(past: seq<Event>, script: seq<Event>)
    requires Follows(Keys(past), script) && EndsWithTurn(script)
    ensures Answered(TurnStart) in past ==> Tracked(TurnStart) in past && Refused(TurnStart) !in past
    ensures Refused(TurnStart) in past ==> Tracked(TurnStart) in past && Answered(TurnStart) !in past
  {
    var keys := Keys(past);
    KeyIn(past, Tracked(TurnStart));
    KeyIn(past, Answered(TurnStart));
    KeyIn(past, Refused(TurnStart));
    if Answered(TurnStart) in keys {
      var i :| 0 <= i < |keys| && keys[i] == Answered(TurnStart);
      assert script[i] == Answered(TurnStart) && i == |script| - 1;
      assert keys[i - 1] == Tracked(TurnStart);
    }
    if Refused(TurnStart) in keys {
      var j :| 0 <= j < |keys| && keys[j] == Refused(TurnStart);
      assert script[j] == Answered(TurnStart) && j == |script| - 1;
      assert keys[j - 1] == Tracked(TurnStart);
    }
  }

  predicate AboutTurn(e: Event) { (e.Tracked? || e.Refused? || e.Garbled? || e.Answered?) && e.frame.TurnStart? }

  predicate NoTurn(keys: seq<Event>) { forall i | 0 <= i < |keys| :: !AboutTurn(keys[i]) }

  lemma NextOf(script: seq<Event>, n: nat, e: Event)
    requires n < |script| && (e == script[n] || Instead(e, script[n]))
    ensures Follows(script[..n], script) && Follows(script[..n] + [e], script)
    ensures e == script[n] ==> script[..n] + [e] == script[..n + 1]
  {
  }

  /** A worktree step, tried where the script has it. */
  lemma StepTried(n: nat, step: Step, worked: bool)
    requires n + 2 <= |Ready()| && Ready()[n] == Tried(step) && Ready()[n + 1] == Worked(step)
    ensures var keys := Ready()[..n] + [Tried(step)] + (if worked then [Worked(step)] else []);
      keys != [] && Follows(keys, Ready()) && NoTurn(keys) && (worked ==> keys == Ready()[..n + 2])
  {
    NextOf(Ready(), n, Tried(step));
    NextOf(Ready(), n + 1, Worked(step));
  }

  /** A question of the script, asked where the script has it. */
  lemma ReadyAsked(n: nat, e: Event)
    requires n < |Ready()| && (e == Ready()[n] || Instead(e, Ready()[n]))
    ensures var keys := Ready()[..n] + [e];
      keys != [] && Follows(keys, Ready()) && NoTurn(keys) && (e == Ready()[n] ==> keys == Ready()[..n + 1])
  {
    NextOf(Ready(), n, e);
  }

  lemma ThreadCalled(end: CallEnd)
    ensures var keys := Ready()[..7] + Called(ThreadStart, end);
      keys != [] && Follows(keys, Ready()) && NoTurn(keys) && (end.Answer? ==> keys == Ready()[..9])
  {
    NextOf(Ready(), 7, Tracked(ThreadStart));
    if Heard(ThreadStart, end) != [] {
      NextOf(Ready(), 8, Heard(ThreadStart, end)[0]);
    }
  }

  lemma ResumeCalled(script: seq<Event>, end: CallEnd)
    requires |script| > 4 && script[2] == Tracked(ThreadResume) && script[3] == Answered(ThreadResume)
    requires Follows(script[..2], script) && NoTurn(script[..2]) && NoTree(script[..2])
    ensures var keys := script[..2] + Called(ThreadResume, end);
      keys != [] && Follows(keys, script) && NoTurn(keys) && NoTree(keys) && (end.Answer? ==> keys == script[..4])
  {
    NextOf(script, 2, Tracked(ThreadResume));
    if Heard(ThreadResume, end) != [] {
      NextOf(script, 3, Heard(ThreadResume, end)[0]);
    }
  }

  /** A receipt before the prompt is dispatched. */
  lemma ToldEarly(keys: seq<Event>, r: Receipt)
    requires NoTurn(keys) && r.delivery.Unset? && (keys == [] || r.recoveryRequired)
    requires r.prompt.Some? && (r.prompt.value.NotRequested? || r.prompt.value.NotSent? || (r.prompt.value.PromptUnknown? && r.status.InProgress?))
    ensures Told(keys, r)
  {
    assert !AboutTurn(Tracked(TurnStart)) || Tracked(TurnStart) !in keys;
  }

  /** What an action leaves for its settlement to correct: the prompt's word, by the action's ending. */
  ghost predicate Dispatched(keys: seq<Event>, state: PromptState, ending: Ending) {
    match state
    case NotRequested => Tracked(TurnStart) !in keys
    case NotSent => Tracked(TurnStart) !in keys
    case PromptAccepted => Answered(TurnStart) in keys
    case PromptRejected => false
    case PromptUnknown =>
      && !ending.Success? && Answered(TurnStart) !in keys
      && (Tracked(TurnStart) in keys ==> (Refused(TurnStart) in keys <==> ending.Failure?))
  }

  /** reconcile: the word written in advance is corrected by what went out. */
  function Reconcile(state: PromptState, status: Status, effects: seq<Effect>): PromptState {
    if !state.PromptUnknown? then state
    else if Host(TurnStart) !in effects then NotSent
    else if status.Failed? then PromptRejected
    else state
  }

  lemma ReconciledTrue(past: seq<Event>, state: PromptState, ending: Ending)
    requires Dispatched(Keys(past), state, ending)
    ensures PromptTrue(Keys(past), Reconcile(state, StatusOf(ending, EffectsOf(past)), EffectsOf(past)), true)
  {
    EffectIn(past, TurnStart);
    KeyIn(past, Tracked(TurnStart));
  }

  /** The settled receipt of a creation tells the truth. */
  lemma SettledTold(past: seq<Event>, r: Receipt, ending: Ending)
    requires r.prompt.Some? && r.delivery.Unset? && Dispatched(Keys(past), r.prompt.value, ending) && RecoveryTrue(Keys(past), r)
    ensures var status := StatusOf(ending, EffectsOf(past));
      Told(Keys(past), r.(status := status, prompt := Some(Reconcile(r.prompt.value, status, EffectsOf(past)))))
  {
    ReconciledTrue(past, r.prompt.value, ending);
  }

  lemma NoTurnDispatched(keys: seq<Event>, state: PromptState, ending: Ending)
    requires NoTurn(keys) && (state.NotRequested? || state.NotSent? || (state.PromptUnknown? && !ending.Success?))
    ensures Dispatched(keys, state, ending)
  {
    assert forall e | e in keys :: !AboutTurn(e);
  }

  /** What a call of turn/start adds to what came before it. */
  lemma TurnCalled(keys: seq<Event>, end: CallEnd)
    requires NoTurn(keys)
    ensures var all := keys + Called(TurnStart, end);
      && (Tracked(TurnStart) in all <==> !end.Unsent?)
      && (Answered(TurnStart) in all <==> end.Answer?) && (Refused(TurnStart) in all <==> end.Denied?)
  {
    var add := Called(TurnStart, end);
    assert forall e | e in keys :: !AboutTurn(e);
    assert !end.Unsent? ==> add[0] == Tracked(TurnStart);
    assert end.Answer? ==> add[1] == Answered(TurnStart);
    assert end.Denied? ==> add[1] == Refused(TurnStart);
  }

  lemma ReadySteps()
    ensures |Ready()| == 12 && Ready()[..12] == Ready()
    ensures Ready()[0] == Tried(Reserve) && Ready()[1] == Worked(Reserve) && Ready()[2] == Tried(Create) && Ready()[3] == Worked(Create)
    ensures Ready()[4] == Tried(Checkout) && Ready()[5] == Worked(Checkout) && Ready()[6] == Ready()[11] == Looked(true)
  {
  }

  /** What a call of turn/start leaves, after everything a script has before it. */
  lemma PromptCalled(base: seq<Event>, end: CallEnd)
    requires NoTurn(base)
    ensures var keys, script := base + Called(TurnStart, end), base + [Tracked(TurnStart), Answered(TurnStart)];
      && Follows(keys, script) && (end.Answer? ==> keys == script)
      && Dispatched(keys, if end.Answer? then PromptAccepted else PromptUnknown, EndingOf(end))
      && TurnEnded(keys, EndingOf(end)) && (NoTree(base) ==> NoTree(keys))
  {
    TurnCalled(base, end);
  }

  lemma ToldAccepted(keys: seq<Event>, r: Receipt)
    requires Answered(TurnStart) in keys && r.prompt == Some(PromptAccepted) && r.delivery.Unset? && (r.recoveryRequired || r.phase.Complete?)
    ensures Told(keys, r)
  {
  }

  lemma ReadyFollows(keys: seq<Event>, prompt: bool)
    requires Follows(keys, Ready())
    ensures Follows(keys, WorktreeScript(prompt))
  {
    ReadySteps();
    var script := WorktreeScript(prompt);
    assert forall i | 0 <= i < 12 :: script[i] == Ready()[i];
  }

  /** The last receipt of a creation: complete, and no recovery is demanded. */
  lemma NoTurnTold(keys: seq<Event>, r: Receipt)
    requires r.phase.Complete? && r.delivery.Unset?
    requires (r.prompt == Some(NotRequested) && NoTurn(keys)) || (r.prompt == Some(PromptAccepted) && Answered(TurnStart) in keys)
    ensures Told(keys, r)
  {
    assert NoTurn(keys) ==> forall e | e in keys :: !AboutTurn(e);
  }

  // ----- send_message_to_thread

  /** A message: its role, what the policy says of its model pair, and whether it names a profile its role declares. */
  datatype Message = Message(role: string, pinned: bool, rolePair: bool, profileNamed: bool, profiled: bool, want: ModelPair)

  /** The thread's status alone withholds the message. */
  predicate Withheld(m: Message, status: ThreadStatus) {
    || status.ActiveThread?
    || (status.NotLoaded? && !m.profileNamed && m.profiled)
    || (status.NotLoaded? && m.role != "" && !m.pinned && !m.rolePair)
  }

  /** The pair of the thread is one of several, so the host must report it. */
  predicate Verifies(m: Message, status: ThreadStatus) { status.NotLoaded? && m.role != "" && !m.pinned && m.rolePair }

  function BeforeTurn(m: Message, status: ThreadStatus): seq<Event> {
    [Read(status), Guarded(true), Tracked(ThreadResume), Answered(ThreadResume), Found(true)]
    + (if Verifies(m, status) then [Compared(m.want, m.want)] else []) + [Moved(true)]
  }

  /** What an accepted send does, in order. */
  function SendScript(m: Message, status: ThreadStatus): seq<Event> {
    BeforeTurn(m, status) + [Tracked(TurnStart), Answered(TurnStart)]
  }

  function ReadAgenda(): seq<Subject> { [SavingAt(Starting)] + [ThreadReading] }

  function ResumeAgenda(m: Message): seq<Subject> {
    [StateGuard] + [ProfileAndWatch] + [Calling(ThreadResume)] + (if m.profileNamed then [Servers] else [])
  }

  function JudgeAgenda(m: Message, status: ThreadStatus): seq<Subject> {
    [SavingAt(Starting)] + [Settings] + (if Verifies(m, status) then [Pair] else []) + [Anchor]
  }

  /** What a send waits for once it knows the thread's status. */
  function DeliverAgenda(m: Message, status: ThreadStatus): seq<Subject> {
    ResumeAgenda(m) + JudgeAgenda(m, status) + [Calling(TurnStart)]
  }

  /** The reports of a send: none after the reading of a status that withholds the message. */
  ghost predicate RanSend(was: seq<Report>, now: seq<Report>, keys: seq<Event>, m: Message, ending: Ending) {
    if keys == [] then !ending.Success? && Ran(was, now, ReadAgenda(), ending)
    else if !keys[0].Read? then false
    else if Withheld(m, keys[0].status) then ending.Failure? && Ran(was, now, ReadAgenda(), Success)
    else Ran(was, now, ReadAgenda() + DeliverAgenda(m, keys[0].status), ending)
  }

  lemma RanRead(was: seq<Report>, mid: seq<Report>, now: seq<Report>, keys: seq<Event>, m: Message, status: ThreadStatus, ending: Ending)
    requires Ran(was, mid, ReadAgenda(), Success) && keys != [] && keys[0] == Read(status)
    requires if Withheld(m, status) then ending.Failure? && now == mid else Ran(mid, now, DeliverAgenda(m, status), ending)
    ensures RanSend(was, now, keys, m, ending)
  {
    if !Withheld(m, status) {
      RanOn(was, mid, now, ReadAgenda(), DeliverAgenda(m, status), ending);
    }
  }

  /** The status was read and withholds the message, or the reports decide. */
  ghost predicate SettlesSend(reports: seq<Report>, keys: seq<Event>, m: Message, status: Status, effects: seq<Effect>) {
    if keys == [] then !status.Accepted? && Settles(reports, ReadAgenda(), status, effects)
    else if !keys[0].Read? then false
    else if Withheld(m, keys[0].status) then status.Failed? && Settles(reports, ReadAgenda(), Bridge.Accepted, effects)
    else Settles(reports, ReadAgenda() + DeliverAgenda(m, keys[0].status), status, effects)
  }

  lemma SendSettles(reports: seq<Report>, keys: seq<Event>, m: Message, ending: Ending, effects: seq<Effect>)
    requires RanSend([], reports, keys, m, ending)
    ensures SettlesSend(reports, keys, m, StatusOf(ending, effects), effects)
  {
    assert reports[0..] == reports;
    if keys == [] {
      EndingSettles(reports, ReadAgenda(), ending, effects);
    } else if Withheld(m, keys[0].status) {
      EndingSettles(reports, ReadAgenda(), Success, effects);
    } else {
      EndingSettles(reports, ReadAgenda() + DeliverAgenda(m, keys[0].status), ending, effects);
    }
  }

  ghost predicate FollowsSend(keys: seq<Event>, m: Message) {
    keys == [] || (keys[0].Read? && Follows(keys, SendScript(m, keys[0].status)) && (Withheld(m, keys[0].status) ==> |keys| == 1))
  }

  lemma BeforeTurnShape(m: Message, status: ThreadStatus)
    ensures NoTurn(BeforeTurn(m, status)) && NoTree(BeforeTurn(m, status))
    ensures var b := BeforeTurn(m, status);
      && |b| == (if Verifies(m, status) then 7 else 6) && b[0] == Read(status) && b[1] == Guarded(true)
      && b[2] == Tracked(ThreadResume) && b[3] == Answered(ThreadResume) && b[4] == Found(true) && b[|b| - 1] == Moved(true)
      && (Verifies(m, status) ==> b[5] == Compared(m.want, m.want))
  {
  }

  predicate NoTree(keys: seq<Event>) { forall i | 0 <= i < |keys| :: !keys[i].Tried? }

  lemma ResumeOnce(m: Message, status: ThreadStatus, i: nat)
    requires i < |BeforeTurn(m, status)| && BeforeTurn(m, status)[i] == Tracked(ThreadResume)
    ensures i == 2
  {
  }

  lemma SendShape(m: Message, status: ThreadStatus)
    ensures var b, script := BeforeTurn(m, status), SendScript(m, status);
      && |b| >= 2 && script[..|b|] == b && script[..2] == [Read(status), Guarded(true)]
      && (forall i | 0 <= i < |script| && script[i] == Tracked(ThreadResume) :: i == 2)
      && (forall i | 0 <= i < |script| && script[i] == Tracked(TurnStart) :: i == |b|)
  {
    BeforeTurnShape(m, status);
    var b, script := BeforeTurn(m, status), SendScript(m, status);
    forall i | 0 <= i < |script| && script[i] == Tracked(ThreadResume) ensures i == 2 {
      if i < |b| { ResumeOnce(m, status, i); }
    }
    assert forall i | 0 <= i < |b| :: script[i] == b[i] && !AboutTurn(b[i]);
  }

  /** A frame of a send is the next event of the script of a status that does not withhold the message. */
  lemma SendKeyAt(t: seq<Event>, m: Message, k: nat) returns (status: ThreadStatus)
    requires FollowsSend(Keys(t), m) && k < |t| && t[k].Tracked? && Key(t[k])
    ensures var n := |Keys(t[..k])|;
      && n < |SendScript(m, status)| && SendScript(m, status)[n] == t[k] && Keys(t[..k]) == SendScript(m, status)[..n]
      && !Withheld(m, status)
  {
    KeyIn(t, t[k]);
    status := Keys(t)[0].status;
    KeyAt(t, SendScript(m, status), k);
    KeysPrefix(t, k + 1);
    assert t[..k + 1] == t[..k] + [t[k]];
    Append(t[..k], t[k]);
    assert SendScript(m, status)[0] == Read(status);
  }

  /** A resume goes out only to a thread whose status does not withhold the message, past the state guard. */
  lemma ResumeGuarded(t: seq<Event>, m: Message, k: nat)
    requires FollowsSend(Keys(t), m) && k < |t| && t[k] == Tracked(ThreadResume)
    ensures exists status :: !Withheld(m, status) && Keys(t[..k]) == [Read(status), Guarded(true)]
  {
    var status := SendKeyAt(t, m, k);
    SendShape(m, status);
  }

  /** turn/start goes out only after the resume was answered without findings, the pair reported as asked, and the anchor moved. */
  lemma SendTurnGuarded(t: seq<Event>, m: Message, k: nat)
    requires FollowsSend(Keys(t), m) && k < |t| && t[k] == Tracked(TurnStart)
    ensures exists status :: !Withheld(m, status) && Keys(t[..k]) == BeforeTurn(m, status)
  {
    var status := SendKeyAt(t, m, k);
    SendShape(m, status);
  }

  /** The delivery word of a settled send, exactly. */
  lemma DeliveryTableExact(past: seq<Event>, r: Receipt, m: Message)
    requires FollowsSend(Keys(past), m) && Told(past, r) && !r.delivery.Unset? && Carried(past)
    ensures r.delivery.NotDelivered? ==> Left(TurnStart) !in past
    ensures r.delivery.DeliveryRejected? || r.delivery.TurnStarted? ==> Left(TurnStart) in past
    ensures r.delivery.NotDelivered? <==> Tracked(TurnStart) !in past
    ensures r.delivery.DeliveryRejected? <==> Refused(TurnStart) in past
    ensures r.delivery.TurnStarted? <==> Answered(TurnStart) in past
    ensures r.delivery.DeliveryUnknown? <==> Tracked(TurnStart) in past && Refused(TurnStart) !in past && Answered(TurnStart) !in past
  {
    CarriedFrame(past, TurnStart);
    if Keys(past) == [] {
      KeyIn(past, Tracked(TurnStart));
      KeyIn(past, Refused(TurnStart));
      KeyIn(past, Answered(TurnStart));
    } else {
      var status := Keys(past)[0].status;
      BeforeTurnShape(m, status);
      OneAnswer(past, SendScript(m, status));
    }
  }

  /** The word of mutate for a sent message. */
  function DeliveryOf(status: Status, effects: seq<Effect>): Delivery {
    if Host(TurnStart) !in effects then NotDelivered
    else if status.Accepted? then TurnStarted
    else if status.Failed? then DeliveryRejected
    else DeliveryUnknown
  }

  ghost predicate TurnEnded(keys: seq<Event>, ending: Ending) {
    Tracked(TurnStart) in keys ==> (Answered(TurnStart) in keys <==> ending.Success?) && (Refused(TurnStart) in keys <==> ending.Failure?)
  }

  lemma DeliveredTrue(past: seq<Event>, ending: Ending)
    requires TurnEnded(Keys(past), ending)
    ensures DeliveryTrue(Keys(past), DeliveryOf(StatusOf(ending, EffectsOf(past)), EffectsOf(past)))
  {
    EffectIn(past, TurnStart);
    KeyIn(past, Tracked(TurnStart));
  }

  lemma NoTurnEnded(keys: seq<Event>, ending: Ending)
    requires NoTurn(keys)
    ensures TurnEnded(keys, ending)
  {
    assert forall e | e in keys :: !AboutTurn(e);
  }

  lemma ToldSending(keys: seq<Event>, r: Receipt)
    requires NoTree(keys) && r.prompt.None? && DeliveryTrue(keys, r.delivery)
    ensures Told(keys, r)
  {
    assert forall e | e in keys :: !e.Tried?;
  }

  lemma SendFollows(keys: seq<Event>, m: Message, status: ThreadStatus)
    requires Follows(keys, BeforeTurn(m, status)) && keys != [] && (Withheld(m, status) ==> |keys| == 1)
    ensures FollowsSend(keys, m) && keys[0] == Read(status)
  {
    BeforeTurnShape(m, status);
    var b, script := BeforeTurn(m, status), SendScript(m, status);
    assert forall i | 0 <= i < |b| :: script[i] == b[i];
    assert keys[0] == b[0];
  }

  /** The same for a send: a run killed at any point followed its script and told the truth. */
  lemma SendKilledAnywhere(t: seq<Event>, m: Message, k: nat)
    requires k <= |t| && FollowsSend(Keys(t), m) && SavesTrue(t) && Carried(t)
    ensures FollowsSend(Keys(t[..k]), m) && SavesTrue(t[..k]) && Carried(t[..k])
  {
    KeysPrefix(t, k);
    CarriedPrefix(t, k);
    if Keys(t[..k]) != [] {
      assert Keys(t[..k])[0] == Keys(t)[0];
      KilledAnywhere(t, SendScript(m, Keys(t)[0].status), k);
    } else {
      KilledSaves(t, k);
    }
  }

  lemma KilledSaves(t: seq<Event>, k: nat)
    requires k <= |t| && SavesTrue(t)
    ensures SavesTrue(t[..k])
  {
    forall j | 0 <= j < k && t[..k][j].Saved? ensures Told(t[..k][..j], t[..k][j].receipt) {
      assert t[..k][..j] == t[..j];
    }
  }
}
