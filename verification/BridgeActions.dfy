/**
 * The two longest actions of the bridge, create_worktree_thread (internal/bridge/worktree.go) and
 * send_message_to_thread (internal/bridge/mutations.go), step by step against a host and a file system that may
 * answer, refuse or fail anywhere. The trace and the reports are history variables: a run killed at any point leaves a
 * prefix of the trace, and the reports are the answers the action was given, by which alone it ends as it does.
 */
module BridgeActions {
  import opened Common
  import opened BridgeTraces

  /** One attempt: the receipt it fills in and the effects it tracks. */
  class Attempt {
    ghost var trace: seq<Event>
    ghost var reports: seq<Report>
    var effects: seq<Effect>
    var receipt: Receipt

    /** The effects are those of the trace, every receipt saved so far told the truth, and only what left was answered. */
    ghost predicate Sound()
      reads this`trace, this`effects, this`receipt
    {
      effects == EffectsOf(trace) && SavesTrue(trace) && Carried(trace) && receipt.status.InProgress?
    }

    constructor (prompt: Option<PromptState>)
      ensures Sound() && trace == [] && reports == [] && receipt == Fresh(prompt)
    {
      trace, reports, effects, receipt := [], [], [], Fresh(prompt);
    }

    /** Ledger.Save: it may fail, and a failed one may still have been written. */
    method Store() returns (ok: bool)
      requires effects == EffectsOf(trace) && SavesTrue(trace) && Carried(trace) && Told(Keys(trace), receipt)
      modifies this`trace
      ensures effects == EffectsOf(trace) && SavesTrue(trace) && Carried(trace) && Keys(trace) == old(Keys(trace))
      ensures ok ==> |trace| > 0 && trace[|trace| - 1] == Saved(receipt)
    {
      ok := *;
      var wrote: bool := *;
      if ok || wrote {
        ToldByKeys(trace, receipt);
        SavesAppend(trace, Saved(receipt));
        CarriedAppend(trace, Saved(receipt));
        Append(trace, Saved(receipt));
        trace := trace + [Saved(receipt)];
      }
    }

    /** What the action was told. */
    ghost method Hearing(about: Subject, ending: Ending)
      modifies this`reports
      ensures reports == old(reports) + [Report(about, ending)]
      ensures Ran(old(reports), reports, [about], if Stops(Report(about, ending)) then ending else Success)
    {
      RanOne(reports, Report(about, ending));
      reports := reports + [Report(about, ending)];
    }

    method Save() returns (ok: bool)
      requires Sound() && Told(Keys(trace), receipt)
      modifies this`trace, this`reports
      ensures Sound() && Keys(trace) == old(Keys(trace)) && Ran(old(reports), reports, [SavingAt(receipt.phase)], Stored(ok))
    {
      ok := Store();
      Hearing(SavingAt(receipt.phase), Stored(ok));
    }

    method Checkpoint(phase: Phase) returns (ok: bool)
      requires Sound() && Told(Keys(trace), receipt.(phase := phase))
      modifies this
      ensures Sound() && receipt == old(receipt).(phase := phase) && Keys(trace) == old(Keys(trace))
      ensures Ran(old(reports), reports, [SavingAt(phase)], Stored(ok))
    {
      receipt := receipt.(phase := phase);
      ok := Save();
    }

    /** A check that may fail in any way, outside the script. */
    method Consult(ghost about: Subject) returns (ending: Ending)
      requires about != Calling(NameSet)
      modifies this`reports
      ensures Ran(old(reports), reports, [about], ending)
    {
      ending := *;
      Hearing(about, ending);
      assert Stops(Report(about, ending)) || ending == Success;
    }

    /** Something the attempt did or met. */
    ghost method Meet(e: Event)
      requires Sound() && !e.Saved? && EffectOf(e) == [] && CarriedBy(trace, e)
      modifies this`trace
      ensures Sound() && trace == old(trace) + [e] && Keys(trace) == old(Keys(trace)) + (if Key(e) then [e] else [])
    {
      SavesAppend(trace, e);
      CarriedAppend(trace, e);
      Append(trace, e);
      trace := trace + [e];
    }

    /** An event of the script. */
    ghost method Note(e: Event)
      requires Sound() && Key(e) && EffectOf(e) == [] && CarriedBy(trace, e)
      modifies this`trace
      ensures Sound() && Keys(trace) == old(Keys(trace)) + [e]
    {
      Meet(e);
    }

    method Track(effect: Effect, ghost e: Event)
      requires Sound() && !e.Saved? && EffectOf(e) == [effect]
      modifies this`trace, this`effects
      ensures Sound() && trace == old(trace) + [e] && effects == old(effects) + [effect]
      ensures Keys(trace) == old(Keys(trace)) + (if Key(e) then [e] else [])
    {
      SavesAppend(trace, e);
      CarriedAppend(trace, e);
      Append(trace, e);
      trace := trace + [e];
      effects := effects + [effect];
    }

    /** A worktree step: its effect is tracked before it is tried. */
    method TryStep(step: Step) returns (ending: Ending)
      requires Sound()
      modifies this`trace, this`effects, this`reports
      ensures Sound() && Ran(old(reports), reports, [Stepping(step)], ending)
      ensures Keys(trace) == old(Keys(trace)) + [Tried(step)] + (if ending.Success? then [Worked(step)] else [])
    {
      TrackStep(step);
      ending := Consult(Stepping(step));
      if ending.Success? {
        Note(Worked(step));
      }
    }

    method TrackStep(step: Step)
      requires Sound()
      modifies this`trace, this`effects
      ensures Sound() && Keys(trace) == old(Keys(trace)) + [Tried(step)]
    {
      Track(Tree(step), Tried(step));
    }

    /** A frame is tracked, and leaves if an answer to it is going to come, or if the write gets it out. */
    method Write(frame: Frame, answered: bool)
      requires Sound()
      modifies this`trace, this`effects
      ensures Sound() && (answered ==> Left(frame) in trace)
      ensures Keys(trace) == old(Keys(trace)) + if frame.NameSet? then [] else [Tracked(frame)]
    {
      Track(Host(frame), Tracked(frame));
      var left: bool := *;
      if left || answered {
        Meet(Left(frame));
      }
    }

    /** What comes back for a frame that left. */
    ghost method Hear(frame: Frame, end: CallEnd)
      requires Sound() && (Heard(frame, end) != [] ==> Left(frame) in trace)
      modifies this`trace
      ensures Sound() && Keys(trace) == old(Keys(trace)) + if frame.NameSet? then [] else Heard(frame, end)
    {
      match end {
        case Denied => Meet(Refused(frame));
        case Unreadable => Meet(Garbled(frame));
        case Answer => Meet(Answered(frame));
        case _ =>
      }
    }

    /** RPC.Call: a frame is tracked just before it is written; a call that does not get so far leaves nothing. */
    method Call(frame: Frame) returns (end: CallEnd)
      requires Sound()
      modifies this`trace, this`effects, this`reports
      ensures Sound() && Keys(trace) == old(Keys(trace)) + Called(frame, end)
      ensures reports == old(reports) + [Report(Calling(frame), EndingOf(end))]
      ensures Ran(old(reports), reports, [Calling(frame)], if frame.NameSet? && EndingOf(end).Failure? then Success else EndingOf(end))
    {
      end := *;
      Hearing(Calling(frame), EndingOf(end));
      if !end.Unsent? {
        ghost var keys, heard := Keys(trace), if frame.NameSet? then [] else Heard(frame, end);
        Write(frame, Heard(frame, end) != []);
        Hear(frame, end);
        Reassociate(keys, if frame.NameSet? then [] else [Tracked(frame)], heard);
        assert Keys(trace) == keys + Called(frame, end);
      }
    }

    /** turn/start, the last call of a script. */
    method CallTurn() returns (end: CallEnd)
      requires Sound() && NoTurn(Keys(trace))
      modifies this`trace, this`effects, this`reports
      ensures Sound() && old(Keys(trace)) <= Keys(trace) && Ran(old(reports), reports, [Calling(TurnStart)], EndingOf(end))
      ensures Follows(Keys(trace), old(Keys(trace)) + [Tracked(TurnStart), Answered(TurnStart)])
      ensures end.Answer? ==> Keys(trace) == old(Keys(trace)) + [Tracked(TurnStart), Answered(TurnStart)]
      ensures Dispatched(Keys(trace), if end.Answer? then PromptAccepted else PromptUnknown, EndingOf(end))
      ensures TurnEnded(Keys(trace), EndingOf(end)) && (NoTree(old(Keys(trace))) ==> NoTree(Keys(trace)))
    {
      ghost var keys := Keys(trace);
      end := Call(TurnStart);
      PromptCalled(keys, end);
    }

    /** A question whose answer the script needs. */
    method Ask(ghost about: Subject, ghost yes: Event, ghost no: Event) returns (ok: bool)
      requires Sound() && Key(yes) && Key(no) && EffectOf(yes) == EffectOf(no) == [] && CarriedBy([], yes) && CarriedBy([], no)
      requires about != Calling(NameSet)
      modifies this`trace, this`reports
      ensures Sound() && Keys(trace) == old(Keys(trace)) + [if ok then yes else no]
      ensures Ran(old(reports), reports, [about], Passed(ok))
    {
      ok := *;
      Note(if ok then yes else no);
      Hearing(about, Passed(ok));
    }

    // ----- create_worktree_thread

    /** The creation has done what the script says up to its n-th event, all before the prompt. */
    ghost predicate Early(n: nat)
      reads this`trace, this`effects, this`receipt
    {
      n <= |Ready()| && Keys(trace) == Ready()[..n] && Halted()
    }

    /** The creation may have met an answer that ends it. */
    ghost predicate Halted()
      reads this`trace, this`effects, this`receipt
    {
      && Sound() && Follows(Keys(trace), Ready()) && NoTurn(Keys(trace)) && receipt.delivery.Unset?
      && (receipt.prompt == Some(NotRequested) || receipt.prompt == Some(NotSent))
      && (Keys(trace) == [] || receipt.recoveryRequired)
    }

    method EarlyCheckpoint(phase: Phase, ghost n: nat) returns (ok: bool)
      requires Early(n)
      modifies this
      ensures Early(n) && receipt == old(receipt).(phase := phase) && Ran(old(reports), reports, [SavingAt(phase)], Stored(ok))
    {
      ToldEarly(Keys(trace), receipt.(phase := phase));
      ok := Checkpoint(phase);
    }

    /** Checkpoint, then a worktree step. */
    method PhaseStep(phase: Phase, step: Step, ghost n: nat) returns (ending: Ending)
      requires Early(n) && receipt.recoveryRequired && n + 2 <= |Ready()| && Ready()[n] == Tried(step) && Ready()[n + 1] == Worked(step)
      modifies this
      ensures receipt == old(receipt).(phase := phase) && Halted()
      ensures ending.Success? ==> Early(n + 2)
      ensures Ran(old(reports), reports, [SavingAt(phase), Stepping(step)], ending)
    {
      var ok := EarlyCheckpoint(phase, n);
      ghost var mid := reports;
      assert [SavingAt(phase), Stepping(step)] == [SavingAt(phase)] + [Stepping(step)];
      if !ok {
        RanOut(old(reports), mid, [SavingAt(phase)], [Stepping(step)], OtherError);
        return OtherError;
      }
      ending := TryStep(step);
      RanOn(old(reports), mid, reports, [SavingAt(phase)], [Stepping(step)], ending);
      StepTried(n, step, ending.Success?);
    }

    /** Everything up to the checkout (worktree.go, lines 88 to 138). */
    method PrepareTree() returns (ending: Ending)
      requires Early(0) && receipt.status.InProgress?
      modifies this
      ensures Halted() && receipt.prompt == old(receipt.prompt)
      ensures ending.Success? ==> Early(6) && receipt.recoveryRequired
      ensures Ran(old(reports), reports, [SavingAt(Validating)] + [Validation] + TreeAgenda(), ending)
    {
      ending := ValidateTree();
      ghost var mid, before := reports, ending;
      if ending.Success? {
        receipt := receipt.(recoveryRequired := true);
        ending := BuildTree();
      }
      RanThen(old(reports), mid, reports, [SavingAt(Validating)] + [Validation], TreeAgenda(), before, ending);
    }

    /** The worktree's own validation, and reading the project when one is named. */
    method ValidateTree() returns (ending: Ending)
      requires Early(0)
      modifies this
      ensures Early(0) && receipt == old(receipt).(phase := Validating)
      ensures Ran(old(reports), reports, [SavingAt(Validating)] + [Validation], ending)
    {
      var ok := EarlyCheckpoint(Validating, 0);
      ghost var mid := reports;
      ending := Stored(ok);
      if ok { ending := Consult(Validation); }
      RanThen(old(reports), mid, reports, [SavingAt(Validating)], [Validation], Stored(ok), ending);
    }

    method BuildTree() returns (ending: Ending)
      requires Early(0) && receipt.recoveryRequired
      modifies this
      ensures Halted() && receipt == old(receipt).(phase := receipt.phase)
      ensures ending.Success? ==> Early(6)
      ensures Ran(old(reports), reports, TreeAgenda(), ending)
    {
      ReadySteps();
      ghost var reserve, create, checkout := [SavingAt(ReservingDestination), Stepping(Reserve)],
        [SavingAt(CreatingWorktree), Stepping(Create)], [SavingAt(CheckingOutWorktree), Stepping(Checkout)];
      ending := PhaseStep(ReservingDestination, Reserve, 0);
      ghost var mid, before := reports, ending;
      if ending.Success? { ending := PhaseStep(CreatingWorktree, Create, 2); }
      RanThen(old(reports), mid, reports, reserve, create, before, ending);
      mid, before := reports, ending;
      if ending.Success? { ending := PhaseStep(CheckingOutWorktree, Checkout, 4); }
      RanThen(old(reports), mid, reports, reserve + create, checkout, before, ending);
    }

    /** An inspection, a checkpoint that records it, and the comparison with what was asked for. */
    method InspectTree(phase: Phase, ghost n: nat) returns (ending: Ending)
      requires Early(n) && receipt.recoveryRequired && n < |Ready()| && Ready()[n] == Looked(true)
      modifies this
      ensures Halted() && receipt == old(receipt).(phase := receipt.phase)
      ensures ending.Success? ==> Early(n + 1)
      ensures Ran(old(reports), reports, InspectAgenda(phase), ending)
    {
      ending := RecordTree(phase, n);
      ghost var mid, before := reports, ending;
      if ending.Success? { ending := MatchTree(n); }
      RanThen(old(reports), mid, reports, [Inspection] + [SavingAt(phase)], [Matching], before, ending);
    }

    method RecordTree(phase: Phase, ghost n: nat) returns (ending: Ending)
      requires Early(n)
      modifies this
      ensures Early(n) && receipt == old(receipt).(phase := receipt.phase)
      ensures Ran(old(reports), reports, [Inspection] + [SavingAt(phase)], ending)
    {
      ending := Consult(Inspection);
      ghost var mid, before := reports, ending;
      if ending.Success? {
        var ok := EarlyCheckpoint(phase, n);
        ending := Stored(ok);
      }
      RanThen(old(reports), mid, reports, [Inspection], [SavingAt(phase)], before, ending);
    }

    method MatchTree(ghost n: nat) returns (ending: Ending)
      requires Early(n) && receipt.recoveryRequired && n < |Ready()| && Ready()[n] == Looked(true)
      modifies this`trace, this`reports
      ensures Halted() && (ending.Success? ==> Early(n + 1)) && Ran(old(reports), reports, [Matching], ending)
    {
      var ok := Ask(Matching, Looked(true), Looked(false));
      ReadyAsked(n, if ok then Looked(true) else Looked(false));
      ending := Passed(ok);
    }

    /** thread/start, and the checks of the thread the host made (lines 157 to 193). */
    method StartThread() returns (ending: Ending)
      requires Early(7) && receipt.recoveryRequired
      modifies this
      ensures Halted() && receipt == old(receipt).(phase := receipt.phase)
      ensures ending.Success? ==> Early(11)
      ensures Ran(old(reports), reports, ThreadAgenda(), ending)
    {
      ghost var called := [SavingAt(CreatingThread)] + [Calling(ThreadStart)];
      ending := CallThread();
      ghost var mid, before := reports, ending;
      if ending.Success? {
        var ok: bool := *;
        ending := Stored(ok);
        Hearing(Watching, ending);
      }
      RanThen(old(reports), mid, reports, called, [Watching], before, ending);
      mid, before := reports, ending;
      if ending.Success? {
        var ok := EarlyCheckpoint(CheckingEnvironment, 9);
        ending := Stored(ok);
      }
      RanThen(old(reports), mid, reports, called + [Watching], [SavingAt(CheckingEnvironment)], before, ending);
      mid, before := reports, ending;
      if ending.Success? { ending := CheckThread(); }
      RanThen(old(reports), mid, reports, called + [Watching] + [SavingAt(CheckingEnvironment)], [Settings] + [Placement], before, ending);
      Reassociate(called + [Watching] + [SavingAt(CheckingEnvironment)], [Settings], [Placement]);
    }

    method CallThread() returns (ending: Ending)
      requires Early(7) && receipt.recoveryRequired
      modifies this
      ensures Halted() && receipt == old(receipt).(phase := receipt.phase)
      ensures ending.Success? ==> Early(9)
      ensures Ran(old(reports), reports, [SavingAt(CreatingThread)] + [Calling(ThreadStart)], ending)
    {
      var ok := EarlyCheckpoint(CreatingThread, 7);
      ghost var mid := reports;
      ending := Stored(ok);
      if ok { ending := SendThreadStart(); }
      RanThen(old(reports), mid, reports, [SavingAt(CreatingThread)], [Calling(ThreadStart)], Stored(ok), ending);
    }

    method SendThreadStart() returns (ending: Ending)
      requires Early(7) && receipt.recoveryRequired
      modifies this`trace, this`effects, this`reports
      ensures Halted() && (ending.Success? ==> Early(9)) && Ran(old(reports), reports, [Calling(ThreadStart)], ending)
    {
      var end := Call(ThreadStart);
      ThreadCalled(end);
      ending := EndingOf(end);
    }

    method CheckThread() returns (ending: Ending)
      requires Early(9) && receipt.recoveryRequired
      modifies this
      ensures Halted() && receipt == old(receipt) && (ending.Success? ==> Early(11))
      ensures Ran(old(reports), reports, [Settings] + [Placement], ending)
    {
      var ok := Ask(Settings, Found(true), Found(false));
      ReadyAsked(9, if ok then Found(true) else Found(false));
      ghost var mid, before := reports, Passed(ok);
      ending := Passed(ok);
      if ok {
        ok := Ask(Placement, Placed(true), Placed(false));
        ReadyAsked(10, if ok then Placed(true) else Placed(false));
        ending := Passed(ok);
      }
      RanThen(old(reports), mid, reports, [Settings], [Placement], before, ending);
    }

    /** nameThread: a refused name is a warning, a lost answer ends the creation (thread_title.go, lines 105 to 120). */
    method NameThread() returns (ending: Ending, titled: bool)
      requires Sound()
      modifies this`trace, this`effects, this`reports
      ensures Sound() && Keys(trace) == old(Keys(trace)) && !ending.Failure?
      ensures exists told :: reports == old(reports) + [Report(Calling(NameSet), told)] && (titled <==> told.Success?)
      ensures Ran(old(reports), reports, [Calling(NameSet)], ending)
    {
      var end := Call(NameSet);
      titled := end.Answer?;
      ending := if EndingOf(end).OtherError? then OtherError else Success;
    }

    method NameCreated(named: bool) returns (ending: Ending)
      requires Early(11) && receipt.recoveryRequired
      modifies this
      ensures Early(11) && receipt == old(receipt).(phase := receipt.phase)
      ensures Ran(old(reports), reports, NameAgenda(named), ending)
    {
      if !named {
        RanNothing(reports);
        return Success;
      }
      var ok := EarlyCheckpoint(NamingThread, 11);
      ghost var mid, before := reports, Stored(ok);
      ending := Stored(ok);
      if ok {
        var titled;
        ending, titled := NameThread();
      }
      RanThen(old(reports), mid, reports, [SavingAt(NamingThread)], [Calling(NameSet)], before, ending);
      mid, before := reports, ending;
      if ending.Success? {
        ok := EarlyCheckpoint(ThreadNamed, 11);
        ending := Stored(ok);
      }
      RanThen(old(reports), mid, reports, [SavingAt(NamingThread)] + [Calling(NameSet)], [SavingAt(ThreadNamed)], before, ending);
    }

    /** The prompt's turn (lines 221 to 238): its word is written before the frame goes out. */
    method DispatchPrompt() returns (ending: Ending)
      requires Early(12) && receipt.recoveryRequired && receipt.prompt == Some(NotSent)
      modifies this
      ensures Sound() && receipt.recoveryRequired && receipt.delivery.Unset? && receipt.prompt.Some? && !receipt.prompt.value.NotRequested?
      ensures Follows(Keys(trace), old(Keys(trace)) + [Tracked(TurnStart), Answered(TurnStart)]) && Dispatched(Keys(trace), receipt.prompt.value, ending)
      ensures ending.Success? ==> receipt.prompt == Some(PromptAccepted) && Keys(trace) == old(Keys(trace)) + [Tracked(TurnStart), Answered(TurnStart)]
      ensures Ran(old(reports), reports, PromptAgenda(true), ending)
    {
      ghost var keys, was, save, call, accept := Keys(trace), reports, [SavingAt(DispatchingInitialPrompt)], [Calling(TurnStart)],
        [SavingAt(InitialPromptAccepted)];
      receipt := receipt.(prompt := Some(PromptUnknown));
      ToldEarly(keys, receipt.(phase := DispatchingInitialPrompt));
      var ok := Checkpoint(DispatchingInitialPrompt);
      ghost var mid := reports;
      if !ok {
        PromptCalled(keys, Unsent(false));
        assert keys + [] == keys;
        RanOut(was, mid, save, call, OtherError);
        RanOut(was, mid, save + call, accept, OtherError);
        return OtherError;
      }
      var end := CallTurn();
      RanOn(was, mid, reports, save, call, EndingOf(end));
      mid := reports;
      if !end.Answer? {
        RanOut(was, mid, save + call, accept, EndingOf(end));
        return EndingOf(end);
      }
      receipt := receipt.(prompt := Some(PromptAccepted));
      ToldAccepted(Keys(trace), receipt.(phase := InitialPromptAccepted));
      ok := Checkpoint(InitialPromptAccepted);
      ending := Stored(ok);
      RanOn(was, mid, reports, save + call, accept, ending);
    }

    /** mutate after the action: classify, reconcile the prompt's word, and save whatever the caller's context says. */
    method SettleCreation(ending: Ending) returns (saved: bool)
      requires Sound() && receipt.prompt.Some? && receipt.delivery.Unset? && Dispatched(Keys(trace), receipt.prompt.value, ending)
      requires RecoveryTrue(Keys(trace), receipt)
      modifies this
      ensures effects == EffectsOf(trace) && SavesTrue(trace) && Carried(trace) && Keys(trace) == old(Keys(trace)) && Told(trace, receipt)
      ensures receipt.status == StatusOf(ending, effects) && receipt.prompt.Some?
      ensures receipt.prompt.value.NotRequested? <==> old(receipt.prompt.value.NotRequested?)
      ensures receipt.phase == old(receipt.phase) && receipt.recoveryRequired == old(receipt.recoveryRequired) && reports == old(reports)
      ensures saved ==> |trace| > 0 && trace[|trace| - 1] == Saved(receipt)
    {
      SettledTold(trace, receipt, ending);
      var status := StatusOf(ending, effects);
      receipt := receipt.(status := status, prompt := Some(Reconcile(receipt.prompt.value, status, effects)));
      saved := Store();
      ToldByKeys(trace, receipt);
    }

    /** The action of create_worktree_thread. */
    method WorktreeAction(prompt: bool, named: bool) returns (ending: Ending)
      requires Early(0) && receipt.prompt == Some(if prompt then NotSent else NotRequested)
      modifies this
      ensures Sound() && receipt.prompt.Some? && receipt.delivery.Unset? && Dispatched(Keys(trace), receipt.prompt.value, ending)
      ensures RecoveryTrue(Keys(trace), receipt) && Follows(Keys(trace), WorktreeScript(prompt))
      ensures ending.Success? ==> Keys(trace) == WorktreeScript(prompt) && receipt.phase.Complete? && !receipt.recoveryRequired
      ensures prompt <==> !receipt.prompt.value.NotRequested?
      ensures Ran(old(reports), reports, WorktreeAgenda(prompt, named), ending)
    {
      ending := MakeReady(named);
      ghost var mid := reports;
      if !ending.Success? {
        NoTurnDispatched(Keys(trace), receipt.prompt.value, ending);
        ReadyFollows(Keys(trace), prompt);
        RanOut(old(reports), reports, ReadyAgenda(named), PromptAgenda(prompt), ending);
        RanOut(old(reports), reports, ReadyAgenda(named) + PromptAgenda(prompt), [SavingAt(Complete)], ending);
        return;
      }
      ending := FinishCreation(prompt);
      RanOn(old(reports), mid, reports, ReadyAgenda(named), PromptAgenda(prompt) + [SavingAt(Complete)], ending);
      Reassociate(ReadyAgenda(named), PromptAgenda(prompt), [SavingAt(Complete)]);
    }

    /** Everything before the prompt (lines 88 to 220). */
    method MakeReady(named: bool) returns (ending: Ending)
      requires Early(0)
      modifies this
      ensures Halted() && receipt.prompt == old(receipt.prompt) && (ending.Success? ==> Early(12) && receipt.recoveryRequired)
      ensures Ran(old(reports), reports, ReadyAgenda(named), ending)
    {
      ending := MakeThread(named);
      ghost var mid, before := reports, ending;
      ReadySteps();
      if ending.Success? { ending := InspectTree(CheckingBeforeDispatch, 11); }
      RanThen(old(reports), mid, reports, CheckedAgenda() + ThreadAgenda() + NameAgenda(named), InspectAgenda(CheckingBeforeDispatch), before, ending);
    }

    /** The worktree, and the thread in it (lines 88 to 206). */
    method MakeThread(named: bool) returns (ending: Ending)
      requires Early(0)
      modifies this
      ensures Halted() && receipt.prompt == old(receipt.prompt) && (ending.Success? ==> Early(11) && receipt.recoveryRequired)
      ensures Ran(old(reports), reports, CheckedAgenda() + ThreadAgenda() + NameAgenda(named), ending)
    {
      ghost var was := reports;
      ending := MakeTree();
      ghost var mid, before := reports, ending;
      if ending.Success? { ending := StartThread(); }
      RanThen(was, mid, reports, CheckedAgenda(), ThreadAgenda(), before, ending);
      mid, before := reports, ending;
      if ending.Success? { ending := NameCreated(named); }
      RanThen(was, mid, reports, CheckedAgenda() + ThreadAgenda(), NameAgenda(named), before, ending);
    }

    /** The worktree, made and inspected (lines 88 to 156). */
    method MakeTree() returns (ending: Ending)
      requires Early(0)
      modifies this
      ensures Halted() && receipt.prompt == old(receipt.prompt) && (ending.Success? ==> Early(7) && receipt.recoveryRequired)
      ensures Ran(old(reports), reports, CheckedAgenda(), ending)
    {
      ghost var was, prepared := reports, [SavingAt(Validating)] + [Validation] + TreeAgenda();
      ending := PrepareTree();
      ghost var mid, before := reports, ending;
      if ending.Success? {
        var ok := EarlyCheckpoint(CheckingWorktree, 6);
        ending := Stored(ok);
      }
      RanThen(was, mid, reports, prepared, [SavingAt(CheckingWorktree)], before, ending);
      mid, before := reports, ending;
      ReadySteps();
      if ending.Success? { ending := InspectTree(WorktreeChecked, 6); }
      RanThen(was, mid, reports, prepared + [SavingAt(CheckingWorktree)], InspectAgenda(WorktreeChecked), before, ending);
    }

    /** The prompt's turn, and the last checkpoint (lines 221 to 240). */
    method FinishCreation(prompt: bool) returns (ending: Ending)
      requires Early(12) && receipt.recoveryRequired && receipt.prompt == Some(if prompt then NotSent else NotRequested)
      modifies this
      ensures Sound() && receipt.prompt.Some? && receipt.delivery.Unset? && Dispatched(Keys(trace), receipt.prompt.value, ending)
      ensures RecoveryTrue(Keys(trace), receipt) && Follows(Keys(trace), WorktreeScript(prompt))
      ensures ending.Success? ==> Keys(trace) == WorktreeScript(prompt) && receipt.phase.Complete? && !receipt.recoveryRequired
      ensures prompt <==> !receipt.prompt.value.NotRequested?
      ensures Ran(old(reports), reports, PromptAgenda(prompt) + [SavingAt(Complete)], ending)
    {
      ReadySteps();
      ending := Success;
      RanNothing(reports);
      if prompt {
        ending := DispatchPrompt();
        if !ending.Success? {
          RanOut(old(reports), reports, PromptAgenda(true), [SavingAt(Complete)], ending);
          return;
        }
      }
      ghost var mid := reports;
      receipt := receipt.(recoveryRequired := false);
      NoTurnTold(Keys(trace), receipt.(phase := Complete));
      var ok := Checkpoint(Complete);
      ending := Stored(ok);
      RanOn(old(reports), mid, reports, PromptAgenda(prompt), [SavingAt(Complete)], ending);
      if !prompt {
        NoTurnDispatched(Keys(trace), NotRequested, ending);
      }
    }

    /**
     * create_worktree_thread, from a fresh attempt to its settled receipt. Its effects come in the order of the
     * script, every receipt it saves tells the truth, and it is accepted exactly if all it waits for went well, after
     * doing all the script says; otherwise the one answer that went wrong, the last it was given, settles it.
     */
    method CreateWorktreeThread(prompt: bool, named: bool) returns (saved: bool)
      requires Sound() && trace == [] && reports == [] && receipt == Fresh(Some(if prompt then NotSent else NotRequested))
      modifies this
      ensures Follows(Keys(trace), WorktreeScript(prompt)) && effects == EffectsOf(trace)
      ensures SavesTrue(trace) && Carried(trace) && Told(trace, receipt) && !receipt.status.InProgress?
      ensures receipt.prompt.Some? && (prompt <==> !receipt.prompt.value.NotRequested?)
      ensures receipt.status.Accepted? ==> Keys(trace) == WorktreeScript(prompt) && receipt.phase.Complete? && !receipt.recoveryRequired
      ensures Settles(reports, WorktreeAgenda(prompt, named), receipt.status, effects)
      ensures saved ==> |trace| > 0 && trace[|trace| - 1] == Saved(receipt)
    {
      assert Early(0);
      var ending := WorktreeAction(prompt, named);
      assert reports[0..] == reports;
      EndingSettles(reports, WorktreeAgenda(prompt, named), ending, effects);
      saved := SettleCreation(ending);
    }

    // ----- send_message_to_thread

    /** The send has done what the script says up to its n-th event, all before the turn. */
    ghost predicate Sending(script: seq<Event>, n: nat)
      reads this`trace, this`effects, this`receipt
    {
      n <= |script| && Keys(trace) == script[..n] && Withholding(script)
    }

    ghost predicate Withholding(script: seq<Event>)
      reads this`trace, this`effects, this`receipt
    {
      && Sound() && Follows(Keys(trace), script) && NoTurn(Keys(trace)) && NoTree(Keys(trace))
      && receipt == Fresh(None)
    }

    /** A question of the script at its n-th event. */
    method AskNext(ghost about: Subject, ghost script: seq<Event>, ghost n: nat, ghost no: Event) returns (ok: bool)
      requires Sending(script, n) && n < |script| && Instead(no, script[n]) && Key(script[n]) && about != Calling(NameSet)
      requires !script[n].Tracked? && !script[n].Tried? && CarriedBy([], script[n]) && !no.Answered? && !no.Refused? && !no.Garbled? && !AboutTurn(script[n])
      modifies this`trace, this`reports
      ensures Withholding(script) && (ok ==> Sending(script, n + 1)) && Keys(trace) != []
      ensures Ran(old(reports), reports, [about], Passed(ok))
    {
      NextOf(script, n, script[n]);
      NextOf(script, n, no);
      ok := Ask(about, script[n], no);
    }

    /** thread/resume, past the guard of the thread's state (mutations.go, lines 184 to 211). */
    method Resume(m: Message, status: ThreadStatus) returns (ending: Ending)
      requires Sending(BeforeTurn(m, status), 1)
      modifies this`trace, this`effects, this`reports
      ensures Withholding(BeforeTurn(m, status)) && Keys(trace) != [] && (ending.Success? ==> Sending(BeforeTurn(m, status), 4))
      ensures Ran(old(reports), reports, ResumeAgenda(m), ending)
    {
      ghost var was, script := reports, BeforeTurn(m, status);
      BeforeTurnShape(m, status);
      ending := PrepareResume(script);
      ghost var mid, before := reports, ending;
      if ending.Success? { ending := ResumeThread(script); }
      RanThen(was, mid, reports, [StateGuard] + [ProfileAndWatch], [Calling(ThreadResume)], before, ending);
      mid, before := reports, ending;
      RanNothing(mid);
      if ending.Success? && m.profileNamed { ending := Consult(Servers); }
      RanThen(was, mid, reports, [StateGuard] + [ProfileAndWatch] + [Calling(ThreadResume)], if m.profileNamed then [Servers] else [], before, ending);
    }

    /** The state guard; then resolving the profile, when one is named, and watching the thread. */
    method PrepareResume(ghost script: seq<Event>) returns (ending: Ending)
      requires Sending(script, 1) && |script| > 1 && script[1] == Guarded(true)
      modifies this`trace, this`reports
      ensures Withholding(script) && Keys(trace) != [] && (ending.Success? ==> Sending(script, 2))
      ensures Ran(old(reports), reports, [StateGuard] + [ProfileAndWatch], ending)
    {
      var ok := AskNext(StateGuard, script, 1, Guarded(false));
      ending := Passed(ok);
      ghost var mid, before := reports, ending;
      if ending.Success? { ending := Consult(ProfileAndWatch); }
      RanThen(old(reports), mid, reports, [StateGuard], [ProfileAndWatch], before, ending);
    }

    /** What the answer to the resume must settle before the turn (lines 212 to 240). */
    method JudgeResume(m: Message, status: ThreadStatus) returns (ending: Ending)
      requires Sending(BeforeTurn(m, status), 4)
      modifies this`trace, this`reports
      ensures Withholding(BeforeTurn(m, status)) && Keys(trace) != []
      ensures ending.Success? ==> Sending(BeforeTurn(m, status), |BeforeTurn(m, status)|)
      ensures Ran(old(reports), reports, JudgeAgenda(m, status), ending)
    {
      ghost var was, script := reports, BeforeTurn(m, status);
      BeforeTurnShape(m, status);
      ending := JudgeSettings(script);
      ghost var mid, before := reports, ending;
      if ending.Success? { ending := JudgePair(m, status); }
      RanThen(was, mid, reports, [SavingAt(Starting)] + [Settings], if Verifies(m, status) then [Pair] else [], before, ending);
      mid, before := reports, ending;
      if ending.Success? {
        var ok := AskNext(Anchor, script, |script| - 1, Moved(false));
        ending := Passed(ok);
      }
      RanThen(was, mid, reports, [SavingAt(Starting)] + [Settings] + (if Verifies(m, status) then [Pair] else []), [Anchor], before, ending);
    }

    method JudgeSettings(ghost script: seq<Event>) returns (ending: Ending)
      requires Sending(script, 4) && |script| > 4 && script[4] == Found(true)
      modifies this`trace, this`reports
      ensures Withholding(script) && Keys(trace) != [] && (ending.Success? ==> Sending(script, 5))
      ensures Ran(old(reports), reports, [SavingAt(Starting)] + [Settings], ending)
    {
      ToldSending(Keys(trace), receipt);
      var ok := Save();
      ending := Stored(ok);
      ghost var mid, before := reports, ending;
      if ending.Success? {
        ok := AskNext(Settings, script, 4, Found(false));
        ending := Passed(ok);
      }
      RanThen(old(reports), mid, reports, [SavingAt(Starting)], [Settings], before, ending);
    }

    method JudgePair(m: Message, status: ThreadStatus) returns (ending: Ending)
      requires Sending(BeforeTurn(m, status), 5)
      modifies this`trace, this`reports
      ensures Withholding(BeforeTurn(m, status)) && Keys(trace) != []
      ensures ending.Success? ==> Sending(BeforeTurn(m, status), |BeforeTurn(m, status)| - 1)
      ensures Ran(old(reports), reports, if Verifies(m, status) then [Pair] else [], ending)
    {
      BeforeTurnShape(m, status);
      RanNothing(reports);
      ending := Success;
      if Verifies(m, status) {
        var ok := ComparePair(BeforeTurn(m, status), 5, m.want);
        ending := Passed(ok);
      }
    }

    method ResumeThread(ghost script: seq<Event>) returns (ending: Ending)
      requires Sending(script, 2) && |script| > 4 && script[2] == Tracked(ThreadResume) && script[3] == Answered(ThreadResume)
      modifies this`trace, this`effects, this`reports
      ensures Withholding(script) && Keys(trace) != [] && (ending.Success? ==> Sending(script, 4))
      ensures Ran(old(reports), reports, [Calling(ThreadResume)], ending)
    {
      var end := Call(ThreadResume);
      ResumeCalled(script, end);
      ending := EndingOf(end);
    }

    /** pairRefusal: the turn may start only when the host reported the pair the message asks for. */
    method ComparePair(ghost script: seq<Event>, ghost n: nat, want: ModelPair) returns (ok: bool)
      requires Sending(script, n) && n < |script| && script[n] == Compared(want, want)
      modifies this`trace, this`reports
      ensures Withholding(script) && (ok <==> Sending(script, n + 1)) && Keys(trace) != []
      ensures Ran(old(reports), reports, [Pair], Passed(ok))
    {
      var reported: ModelPair := *;
      ghost var keys := Keys(trace);
      NextOf(script, n, Compared(want, reported));
      Note(Compared(want, reported));
      ok := reported == want;
      Hearing(Pair, Passed(ok));
      assert Keys(trace)[|keys|] == Compared(want, reported);
    }

    /** The action of send_message_to_thread. */
    method SendAction(m: Message) returns (ending: Ending)
      requires Sound() && Keys(trace) == [] && receipt == Fresh(None)
      modifies this`trace, this`effects, this`reports
      ensures Sound() && FollowsSend(Keys(trace), m) && NoTree(Keys(trace)) && TurnEnded(Keys(trace), ending)
      ensures ending.Success? ==> Keys(trace) != [] && Keys(trace)[0].Read? && Keys(trace) == SendScript(m, Keys(trace)[0].status)
      ensures RanSend(old(reports), reports, Keys(trace), m, ending)
    {
      ending := ReadThread();
      ghost var mid := reports;
      if !ending.Success? { return; }
      var status := ReadStatus();
      ending := Deliver(m, status);
      RanRead(old(reports), mid, reports, Keys(trace), m, status, ending);
    }

    method ReadStatus() returns (status: ThreadStatus)
      requires Sound() && Keys(trace) == []
      modifies this`trace
      ensures Sound() && Keys(trace) == [Read(status)]
    {
      status := *;
      Note(Read(status));
    }

    method ReadThread() returns (ending: Ending)
      requires Sound() && Keys(trace) == [] && receipt == Fresh(None)
      modifies this`trace, this`reports
      ensures Sound() && Keys(trace) == [] && Ran(old(reports), reports, ReadAgenda(), ending)
    {
      ToldSending(Keys(trace), receipt);
      var ok := Save();
      ending := Stored(ok);
      ghost var mid, before := reports, ending;
      if ending.Success? { ending := Consult(ThreadReading); }
      RanThen(old(reports), mid, reports, [SavingAt(Starting)], [ThreadReading], before, ending);
    }

    /** What follows the reading of the thread's status. */
    method Deliver(m: Message, status: ThreadStatus) returns (ending: Ending)
      requires Sound() && Keys(trace) == [Read(status)] && receipt == Fresh(None)
      modifies this`trace, this`effects, this`reports
      ensures Sound() && FollowsSend(Keys(trace), m) && NoTree(Keys(trace)) && TurnEnded(Keys(trace), ending)
      ensures Keys(trace) != [] && Keys(trace)[0] == Read(status) && (ending.Success? ==> Keys(trace) == SendScript(m, status))
      ensures if Withheld(m, status) then ending.Failure? && reports == old(reports)
              else Ran(old(reports), reports, DeliverAgenda(m, status), ending)
    {
      BeforeTurnShape(m, status);
      SendFollows(Keys(trace), m, status);
      if Withheld(m, status) { return Failure; }
      assert Keys(trace) == BeforeTurn(m, status)[..1];
      ending := ResumeAndJudge(m, status);
      ghost var mid := reports;
      if !ending.Success? {
        SendFollows(Keys(trace), m, status);
        NoTurnEnded(Keys(trace), ending);
        RanOut(old(reports), reports, ResumeAgenda(m) + JudgeAgenda(m, status), [Calling(TurnStart)], ending);
        return;
      }
      ending := SendTurn(m, status);
      RanOn(old(reports), mid, reports, ResumeAgenda(m) + JudgeAgenda(m, status), [Calling(TurnStart)], ending);
    }

    method ResumeAndJudge(m: Message, status: ThreadStatus) returns (ending: Ending)
      requires Sending(BeforeTurn(m, status), 1)
      modifies this`trace, this`effects, this`reports
      ensures Withholding(BeforeTurn(m, status)) && Keys(trace) != []
      ensures ending.Success? ==> Sending(BeforeTurn(m, status), |BeforeTurn(m, status)|)
      ensures Ran(old(reports), reports, ResumeAgenda(m) + JudgeAgenda(m, status), ending)
    {
      ending := Resume(m, status);
      ghost var mid, before := reports, ending;
      if ending.Success? { ending := JudgeResume(m, status); }
      RanThen(old(reports), mid, reports, ResumeAgenda(m), JudgeAgenda(m, status), before, ending);
    }

    method SendTurn(m: Message, status: ThreadStatus) returns (ending: Ending)
      requires Sending(BeforeTurn(m, status), |BeforeTurn(m, status)|) && !Withheld(m, status)
      modifies this`trace, this`effects, this`reports
      ensures Sound() && FollowsSend(Keys(trace), m) && NoTree(Keys(trace)) && TurnEnded(Keys(trace), ending)
      ensures Keys(trace) != [] && Keys(trace)[0] == Read(status) && (ending.Success? ==> Keys(trace) == SendScript(m, status))
      ensures Ran(old(reports), reports, [Calling(TurnStart)], ending)
    {
      ghost var keys := Keys(trace);
      BeforeTurnShape(m, status);
      assert keys == BeforeTurn(m, status);
      var end := CallTurn();
      ending := EndingOf(end);
    }

    /** mutate after the action: classify, tell the delivery by what went out, and save. */
    method SettleSend(ending: Ending) returns (saved: bool)
      requires Sound() && receipt == Fresh(None) && NoTree(Keys(trace)) && TurnEnded(Keys(trace), ending)
      modifies this`trace, this`receipt
      ensures effects == EffectsOf(trace) && SavesTrue(trace) && Carried(trace) && Keys(trace) == old(Keys(trace)) && Told(trace, receipt)
      ensures receipt.status == StatusOf(ending, effects) && !receipt.delivery.Unset?
      ensures saved ==> |trace| > 0 && trace[|trace| - 1] == Saved(receipt)
    {
      DeliveredTrue(trace, ending);
      var status := StatusOf(ending, effects);
      receipt := receipt.(status := status, delivery := DeliveryOf(status, effects));
      ToldSending(Keys(trace), receipt);
      saved := Store();
      ToldByKeys(trace, receipt);
    }

    /**
     * send_message_to_thread, from a fresh attempt to its settled receipt. A status that withholds the message fails
     * it; otherwise it is accepted exactly if all it waits for went well, and settled by the one answer that did not.
     */
    method SendMessageToThread(m: Message) returns (saved: bool)
      requires Sound() && trace == [] && reports == [] && receipt == Fresh(None)
      modifies this
      ensures FollowsSend(Keys(trace), m) && effects == EffectsOf(trace)
      ensures SavesTrue(trace) && Carried(trace) && Told(trace, receipt) && !receipt.status.InProgress? && !receipt.delivery.Unset?
      ensures receipt.status.Accepted? ==> Keys(trace) != [] && Keys(trace)[0].Read? && Keys(trace) == SendScript(m, Keys(trace)[0].status)
      ensures SettlesSend(reports, Keys(trace), m, receipt.status, effects)
      ensures saved ==> |trace| > 0 && trace[|trace| - 1] == Saved(receipt)
    {
      var ending := SendAction(m);
      SendSettles(reports, Keys(trace), m, ending, effects);
      saved := SettleSend(ending);
    }
  }
}
