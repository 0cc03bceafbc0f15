/** What a settled receipt says of the way its attempt's action ended. */
module BridgeEndings {
  import opened Common
  import opened Bridge
  import opened BridgeRuns
  import opened BridgeTheorems

  /** The receipt says how the action ended. */
  ghost predicate Tells(r: Receipt, ending: Ending, effects: seq<Effect>) {
    && (r.status.Accepted? <==> ending.Success?)
    && (r.status.Failed? <==> ending.RpcError? || ending.LocalError? || ending.GitError?)
    && (r.status.NotAttempted? <==> ending.OtherError? && effects == [])
    && (r.status.OutcomeUnknown? <==> ending.OtherError? && effects != [])
    && r.error == (if ending.Success? then None else Some(ending.why))
  }

  /** The receipt of an attempt that did nothing, once it is retired. */
  ghost predicate TellsRetired(r: Receipt, ending: Ending, effects: seq<Effect>) {
    ending.OtherError? && effects == [] && r.status.Failed? && r.error == Some(Retired(Some(ending.why)))
  }

  ghost predicate ProcEnd(pr: Proc) {
    match pr.pc
    case Acting(r) => r.error.None? && r.status.InProgress?
    case Sending(r, _) => r.error.None? && r.status.InProgress?
    case Saving(r) => pr.ending.Some? && Tells(r, pr.ending.value, pr.effects)
    case Annotating(r) => pr.ending.Some? && Tells(r, pr.ending.value, pr.effects)
    case _ => true
  }

  ghost predicate RowEnd(procs: map<Pid, Proc>, retired: seq<Id>, id: Id, row: Row) {
    row.author.Some? && !row.receipt.status.InProgress? && row.author.value in procs ==>
      var pr := procs[row.author.value];
      && pr.ending.Some?
      && (if id in retired then TellsRetired(row.receipt, pr.ending.value, pr.effects) else Tells(row.receipt, pr.ending.value, pr.effects))
  }

  ghost predicate EndInv(s: System) {
    && (forall p | p in s.procs :: ProcEnd(s.procs[p]))
    && (forall id | id in s.rows :: RowEnd(s.procs, s.retired, id, s.rows[id]))
  }

  lemma OwnEnd(s: System, a: Action)
    requires Enabled(s, a) && !a.Import? && (!a.Spawn? ==> ProcEnd(s.procs[a.p]))
    ensures ProcEnd(Next(s, a).procs[a.p])
  {
  }

  /** An attempt's ending and effects change only while its row is in progress. */
  lemma EndingStays(s: System, a: Action, id: Id)
    requires Inv(s) && Enabled(s, a) && id in s.rows && s.rows[id].author.Some? && !s.rows[id].receipt.status.InProgress?
    ensures var p := s.rows[id].author.value;
      && p in s.procs && p in Next(s, a).procs
      && Next(s, a).procs[p].ending == s.procs[p].ending && Next(s, a).procs[p].effects == s.procs[p].effects
  {
    var p := s.rows[id].author.value;
    assert RowOk(s.procs, id, s.rows[id]);
    assert ProcOk(s.rows, p, s.procs[p]);
    if a.Import? || p != a.p {
      OtherCallsStay(s, a, p);
    } else if a.Return? || a.Track? || a.Send? {
      assert false;
    } else {
      OwnDoing(s, a);
    }
  }

  /** A row that a step leaves alone. */
  lemma SameRowEnd(s: System, a: Action, id: Id)
    requires Inv(s) && EndInv(s) && Enabled(s, a) && id in s.rows && id in Next(s, a).rows && Next(s, a).rows[id] == s.rows[id]
    requires id in s.retired <==> id in Next(s, a).retired
    ensures RowEnd(Next(s, a).procs, Next(s, a).retired, id, Next(s, a).rows[id])
  {
    assert RowEnd(s.procs, s.retired, id, s.rows[id]);
    if s.rows[id].author.Some? && !s.rows[id].receipt.status.InProgress? {
      EndingStays(s, a, id);
    }
  }

  /** A row that an attempt writes while it acts, saves or annotates. */
  lemma WrittenRowEnd(s: System, a: Action, id: Id)
    requires Inv(s) && EndInv(s) && Enabled(s, a) && id in s.rows && Next(s, a).rows[id] != s.rows[id]
    requires a.Checkpoint? || a.Save? || a.Annotate?
    ensures RowEnd(Next(s, a).procs, Next(s, a).retired, id, Next(s, a).rows[id])
  {
    assert ProcEnd(s.procs[a.p]);
    RetiredNotWorking(s, a.p);
  }

  lemma RetiredRowEnd(s: System, a: Action, id: Id)
    requires Inv(s) && EndInv(s) && Enabled(s, a) && a.Retire? && id in s.rows && Next(s, a).rows[id] != s.rows[id]
    ensures RowEnd(Next(s, a).procs, Next(s, a).retired, id, Next(s, a).rows[id])
  {
    assert RowEnd(s.procs, s.retired, id, s.rows[id]);
    RetiredIsNot(s, id);
    if s.rows[id].author.Some? {
      EndingStays(s, a, id);
    }
  }

  lemma RetiredIsNot(s: System, id: Id)
    requires Inv(s) && id in s.rows && s.rows[id].receipt.status.NotAttempted?
    ensures id !in s.retired
  {
  }

  /** Only a retirement that rewrites its row adds to the retired ones. */
  lemma RetiredOnlyRewritten(s: System, a: Action, id: Id)
    requires Enabled(s, a) && id in s.rows && id in Next(s, a).rows && Next(s, a).rows[id] == s.rows[id]
    ensures id in s.retired <==> id in Next(s, a).retired
  {
  }

  lemma RowEndKeeps(s: System, a: Action, id: Id)
    requires Inv(s) && EndInv(s) && Enabled(s, a) && id in Next(s, a).rows
    ensures RowEnd(Next(s, a).procs, Next(s, a).retired, id, Next(s, a).rows[id])
  {
    if id in s.rows && Next(s, a).rows[id] == s.rows[id] {
      RetiredOnlyRewritten(s, a, id);
      SameRowEnd(s, a, id);
    } else if a.Checkpoint? || a.Save? || a.Annotate? {
      WrittenRowEnd(s, a, id);
    } else if a.Retire? {
      RetiredRowEnd(s, a, id);
    }
  }

  lemma EndKeeps(s: System, a: Action)
    requires Inv(s) && EndInv(s) && Enabled(s, a)
    ensures EndInv(Next(s, a))
  {
    forall p | p in Next(s, a).procs ensures ProcEnd(Next(s, a).procs[p]) {
      if a.Import? || p != a.p {
        OtherCallsStay(s, a, p);
      } else {
        OwnEnd(s, a);
      }
    }
    forall id | id in Next(s, a).rows ensures RowEnd(Next(s, a).procs, Next(s, a).retired, id, Next(s, a).rows[id]) {
      RowEndKeeps(s, a, id);
    }
  }

  lemma {:induction false} RunEnds(states: seq<System>, actions: seq<Action>, i: nat)
    requires Run(states, actions) && i <= |actions|
    ensures EndInv(states[i])
  {
    if i > 0 {
      RunEnds(states, actions, i - 1);
      RunKeeps(states, actions, i - 1);
      assert Enabled(states[i - 1], actions[i - 1]);
      EndKeeps(states[i - 1], actions[i - 1]);
    }
  }

  // ----- the ending is what the action returned

  lemma EndingStep(s: System, a: Action, p: Pid)
    requires Enabled(s, a) && p in Next(s, a).procs && Next(s, a).procs[p].ending.Some?
    ensures a == Return(p, Next(s, a).procs[p].ending.value) || (p in s.procs && s.procs[p].ending == Next(s, a).procs[p].ending)
  {
    if a.Import? || p != a.p {
      OtherCallsStay(s, a, p);
    }
  }

  lemma {:induction false} ReturnedBefore(states: seq<System>, actions: seq<Action>, i: nat, p: Pid) returns (k: nat)
    requires Run(states, actions) && i <= |actions| && p in states[i].procs && states[i].procs[p].ending.Some?
    ensures k < i && actions[k] == Return(p, states[i].procs[p].ending.value)
    decreases i
  {
    var s, a := states[i - 1], actions[i - 1];
    assert Enabled(s, a) && states[i] == Next(s, a);
    EndingStep(s, a, p);
    if a == Return(p, states[i].procs[p].ending.value) {
      k := i - 1;
    } else {
      k := ReturnedBefore(states, actions, i - 1, p);
    }
  }

  /** An action returns once. */
  lemma {:induction false} ReturnedStays(states: seq<System>, actions: seq<Action>, k: nat, i: nat, p: Pid, ending: Ending)
    requires Run(states, actions) && k < i <= |actions| && actions[k] == Return(p, ending)
    ensures p in states[i].procs && states[i].procs[p].ending == Some(ending) && !Unreturned(states[i].procs[p].pc)
    decreases i
  {
    var s, a := states[i - 1], actions[i - 1];
    assert Enabled(s, a) && states[i] == Next(s, a);
    if k < i - 1 {
      ReturnedStays(states, actions, k, i - 1, p, ending);
      ReturnedStep(s, a, p);
    }
  }

  predicate Unreturned(pc: PC) { pc.Looking? || pc.Validating? || pc.Beginning? || pc.Acting? || pc.Sending? || pc.Retiring? }

  lemma ReturnedStep(s: System, a: Action, p: Pid)
    requires Enabled(s, a) && p in s.procs && !Unreturned(s.procs[p].pc)
    ensures p in Next(s, a).procs && Next(s, a).procs[p].ending == s.procs[p].ending && !Unreturned(Next(s, a).procs[p].pc)
  {
    if a.Import? || p != a.p {
      OtherCallsStay(s, a, p);
    }
  }

  /**
   * The receipt that an attempt settled says how its action returned, before and for good: accepted on success, failed
   * on an error of the host, of the arguments or of git, and on any other error not_attempted or outcome_unknown by
   * whether an effect was tracked, with the error itself. A retired one was not attempted, and still names its error.
   */
  lemma SettledByEnding(states: seq<System>, actions: seq<Action>, i: nat, id: Id) returns (k: nat, ending: Ending)
    requires Run(states, actions) && i <= |actions| && id in states[i].rows && states[i].rows[id].author.Some?
    requires !states[i].rows[id].receipt.status.InProgress?
    ensures k < i && actions[k] == Return(states[i].rows[id].author.value, ending)
    ensures var p, r := states[i].rows[id].author.value, states[i].rows[id].receipt;
      && p in states[i].procs
      && (id !in states[i].retired ==> Tells(r, ending, states[i].procs[p].effects))
      && (id in states[i].retired ==> TellsRetired(r, ending, states[i].procs[p].effects))
  {
    RunKeeps(states, actions, i);
    RunEnds(states, actions, i);
    var p := states[i].rows[id].author.value;
    assert RowOk(states[i].procs, id, states[i].rows[id]);
    assert RowEnd(states[i].procs, states[i].retired, id, states[i].rows[id]);
    ending := states[i].procs[p].ending.value;
    k := ReturnedBefore(states, actions, i, p);
  }

  /** What a call answers of its own attempt says how its action returned. */
  lemma AnswerByEnding(states: seq<System>, actions: seq<Action>, i: nat, p: Pid) returns (k: nat, ending: Ending)
    requires Run(states, actions) && i < |actions| && p in states[i].procs && !states[i].procs[p].pc.Done?
    requires p in states[i + 1].procs && states[i + 1].procs[p].pc.Done? && states[i + 1].procs[p].pc.reply.Settled?
    ensures k <= i && actions[k] == Return(p, ending)
    ensures Tells(states[i + 1].procs[p].pc.reply.receipt, ending, states[i + 1].procs[p].effects)
  {
    RunEnds(states, actions, i);
    assert ProcEnd(states[i].procs[p]);
    var s, a := states[i], actions[i];
    assert Enabled(s, a) && states[i + 1] == Next(s, a);
    AnswersBy(s, a, p);
    ending := states[i].procs[p].ending.value;
    k := ReturnedBefore(states, actions, i, p);
  }

  // ----- what a call does when nothing stands in its way

  /** The state after these actions, up to the first that is not enabled. */
  ghost function Plays(s: System, actions: seq<Action>): System
    decreases |actions|
  {
    if actions == [] || !Enabled(s, actions[0]) then s else Plays(Next(s, actions[0]), actions[1..])
  }

  ghost predicate Leads(s: System, a: Action, next: System) { Enabled(s, a) && Next(s, a) == next }

  lemma PlaysOn(s: System, a: Action, next: System, rest: seq<Action>)
    requires Leads(s, a, next)
    ensures Plays(s, [a] + rest) == Plays(next, rest)
  {
    assert ([a] + rest)[1..] == rest;
  }

  /** A call on an id that is free, or whose row belongs to it and was not attempted. */
  predicate Welcome(s: System, p: Pid) {
    && p in s.procs && s.procs[p] == Proc(s.procs[p].call, Looking, false, [], [], None)
    && CheckRequestID(s.procs[p].call.id) && !s.procs[p].call.Promptless()
    && (s.procs[p].call.id in s.rows ==>
          Agrees(s.procs[p].call, s.rows[s.procs[p].call.id]) && s.rows[s.procs[p].call.id].receipt.status.NotAttempted?)
  }

  /** The row its attempt begins with. */
  function BegunRow(s: System, p: Pid): Row
    requires p in s.procs
  {
    var call := s.procs[p].call;
    if call.id in s.rows then Row(s.rows[call.id].fingerprint, RetryReceipt(call, s.rows[call.id].receipt), Some(p))
    else Row(Fingerprint(call.Operation(), call.Args()), FreshReceipt(call), Some(p))
  }

  function Attempting(s: System, p: Pid, row: Row, pc: PC, ending: Option<Ending>): System
    requires p in s.procs
  {
    s.(rows := s.rows[s.procs[p].call.id := row], procs := s.procs[p := Proc(s.procs[p].call, pc, true, [], [], ending)])
  }

  lemma StepsToBegin(s: System, p: Pid)
    requires Welcome(s, p)
    ensures Leads(s, Look(p, true), Goto(s, p, Validating))
    ensures Leads(Goto(s, p, Validating), Validate(p, true), Goto(s, p, Beginning))
  {
  }

  lemma StepBegins(s: System, p: Pid)
    requires Welcome(s, p)
    ensures Leads(Goto(s, p, Beginning), Begin(p, Tx(true, true)), Attempting(s, p, BegunRow(s, p), Acting(BegunRow(s, p).receipt), None))
  {
  }

  /** The receipt as it is settled by an attempt that tracked nothing. */
  function SettledRow(s: System, p: Pid, ending: Ending): Row
    requires p in s.procs
  {
    BegunRow(s, p).(receipt := Classify(BegunRow(s, p).receipt, ending, []))
  }

  lemma StepReturns(s: System, p: Pid, ending: Ending)
    requires p in s.procs
    ensures Leads(Attempting(s, p, BegunRow(s, p), Acting(BegunRow(s, p).receipt), None), Return(p, ending),
                  Attempting(s, p, BegunRow(s, p), Saving(SettledRow(s, p, ending).receipt), Some(ending)))
  {
  }

  lemma StepSaves(s: System, p: Pid, ending: Ending)
    requires p in s.procs
    ensures var row := SettledRow(s, p, ending);
      Leads(Attempting(s, p, BegunRow(s, p), Saving(row.receipt), Some(ending)), Save(p, Tx(true, true), false),
            Attempting(s, p, row, Done(Settled(row.receipt)), Some(ending)))
  {
    var row := SettledRow(s, p, ending);
    assert s.rows[s.procs[p].call.id := BegunRow(s, p)][s.procs[p].call.id := row] == s.rows[s.procs[p].call.id := row];
  }

  /**
   * A call that meets no other, and whose transactions succeed, begins an attempt on its id, settles it by the way its
   * action returned, and answers the receipt it stored.
   */
  lemma WelcomeCallSettles(s: System, p: Pid, ending: Ending)
    requires Welcome(s, p)
    ensures var id := s.procs[p].call.id;
      var after := Plays(s, [Look(p, true)] + ([Validate(p, true)] + ([Begin(p, Tx(true, true))] + ([Return(p, ending)] + ([Save(p, Tx(true, true), false)] + [])))));
      && id in after.rows && after.rows == s.rows[id := after.rows[id]] && after.rows[id].author == Some(p)
      && Agrees(s.procs[p].call, after.rows[id].(receipt := if id in s.rows then s.rows[id].receipt else after.rows[id].receipt))
      && Tells(after.rows[id].receipt, ending, [])
      && p in after.procs && after.procs[p].pc == Done(Settled(after.rows[id].receipt))
  {
    var save := [Save(p, Tx(true, true), false)] + [];
    var settle := [Return(p, ending)] + save;
    StepsToBegin(s, p);
    PlaysOn(s, Look(p, true), Goto(s, p, Validating), [Validate(p, true)] + ([Begin(p, Tx(true, true))] + settle));
    PlaysOn(Goto(s, p, Validating), Validate(p, true), Goto(s, p, Beginning), [Begin(p, Tx(true, true))] + settle);
    StepBegins(s, p);
    var s3 := Attempting(s, p, BegunRow(s, p), Acting(BegunRow(s, p).receipt), None);
    PlaysOn(Goto(s, p, Beginning), Begin(p, Tx(true, true)), s3, settle);
    StepReturns(s, p, ending);
    var s4 := Attempting(s, p, BegunRow(s, p), Saving(SettledRow(s, p, ending).receipt), Some(ending));
    PlaysOn(s3, Return(p, ending), s4, save);
    StepSaves(s, p, ending);
    var s5 := Attempting(s, p, SettledRow(s, p, ending), Done(Settled(SettledRow(s, p, ending).receipt)), Some(ending));
    PlaysOn(s4, Save(p, Tx(true, true), false), s5, []);
  }
}
