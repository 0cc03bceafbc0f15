/** How the ledger counts the attempts on a request id. */
module BridgeCounts {
  import opened Common
  import opened Bridge
  import opened BridgeRuns
  import opened BridgeTheorems

  /** The members of a receipt that only a new attempt changes. */
  predicate SameAttempt(a: Receipt, b: Receipt) {
    a.operation == b.operation && a.attempt == b.attempt && a.prior == b.prior && a.version == b.version
  }

  ghost predicate HeldOk(rows: map<Id, Row>, pr: Proc) {
    Active(pr.pc) && pr.call.id in rows ==> SameAttempt(pr.pc.receipt, rows[pr.call.id].receipt)
  }

  /** Every row is of the operation its fingerprint covers, and of version 2 once an attempt of this ledger wrote it. */
  predicate RowKept(row: Row) { Written(row) && (row.author.Some? ==> row.receipt.version == 2) }

  /** An attempt holds the receipt of its own row. */
  ghost predicate HeldInv(s: System) {
    && (forall id | id in s.rows :: RowKept(s.rows[id]))
    && (forall p | p in s.procs :: HeldOk(s.rows, s.procs[p]))
  }

  /** A step keeps what a row counts, unless it begins an attempt; a new row, or a new attempt, is of its call. */
  ghost predicate RowStep(s: System, s': System, a: Action, id: Id) {
    id in s'.rows ==>
      || (id in s.rows && SameAttempt(s'.rows[id].receipt, s.rows[id].receipt) && s'.rows[id].fingerprint == s.rows[id].fingerprint
          && (s'.rows[id].author.Some? <==> s.rows[id].author.Some?))
      || (a.Import? && a.id == id && id !in s.rows && s'.rows[id] == a.row)
      || (a.Begin? && a.p in s.procs && a.p in s'.procs && s.procs[a.p].call.id == id && s'.procs[a.p].begun
          && s'.rows[id].receipt == (if id in s.rows then RetryReceipt(s.procs[a.p].call, s.rows[id].receipt) else FreshReceipt(s.procs[a.p].call))
          && s'.rows[id].fingerprint.operation == s.procs[a.p].call.Operation() && s'.rows[id].author == Some(a.p))
  }

  lemma RowSteps(s: System, a: Action, id: Id)
    requires Inv(s) && HeldInv(s) && Enabled(s, a)
    ensures RowStep(s, Next(s, a), a, id)
  {
    if a.Checkpoint? || a.Save? || a.Annotate? {
      assert ProcOk(s.rows, a.p, s.procs[a.p]) && HeldOk(s.rows, s.procs[a.p]);
      SavingRowStep(s, a, id);
    } else if a.Begin? {
      assert ProcOk(s.rows, a.p, s.procs[a.p]);
      BeginRowStep(s, a, id);
    } else {
      OtherRowStep(s, a, id);
    }
  }

  lemma SavingRowStep(s: System, a: Action, id: Id)
    requires Enabled(s, a) && (a.Checkpoint? || a.Save? || a.Annotate?) && ProcOk(s.rows, a.p, s.procs[a.p]) && HeldOk(s.rows, s.procs[a.p])
    ensures RowStep(s, Next(s, a), a, id)
  {
  }

  lemma BeginRowStep(s: System, a: Action, id: Id)
    requires Enabled(s, a) && a.Begin?
    ensures RowStep(s, Next(s, a), a, id)
  {
  }

  lemma OtherRowStep(s: System, a: Action, id: Id)
    requires Enabled(s, a) && !a.Checkpoint? && !a.Save? && !a.Annotate? && !a.Begin?
    ensures RowStep(s, Next(s, a), a, id)
  {
  }

  lemma OwnHeld(s: System, a: Action)
    requires Inv(s) && HeldInv(s) && Enabled(s, a) && (a.Checkpoint? || a.Track? || a.Send? || a.Return? || a.Save? || a.Annotate?)
    ensures a.p in Next(s, a).procs && HeldOk(Next(s, a).rows, Next(s, a).procs[a.p])
  {
    assert ProcOk(s.rows, a.p, s.procs[a.p]) && HeldOk(s.rows, s.procs[a.p]);
  }

  lemma HoldsNothing(s: System, a: Action)
    requires Enabled(s, a) && (a.Spawn? || a.Crash? || a.Look? || a.Validate? || a.Retire?)
    ensures a.p in Next(s, a).procs && !Active(Next(s, a).procs[a.p].pc)
  {
  }

  lemma BeginHolds(s: System, a: Action)
    requires Enabled(s, a) && a.Begin?
    ensures a.p in Next(s, a).procs && HeldOk(Next(s, a).rows, Next(s, a).procs[a.p])
  {
  }

  lemma OtherHeld(s: System, a: Action, q: Pid)
    requires Inv(s) && HeldInv(s) && Enabled(s, a) && q in s.procs && (a.Import? || q != a.p)
    ensures q in Next(s, a).procs && HeldOk(Next(s, a).rows, Next(s, a).procs[q])
  {
    var id := s.procs[q].call.id;
    assert ProcOk(s.rows, q, s.procs[q]) && HeldOk(s.rows, s.procs[q]);
    RowSteps(s, a, id);
    OtherCallsStay(s, a, q);
    if a.Begin? && s.procs[a.p].call.id == id && Active(s.procs[q].pc) {
      assert ProcOk(s.rows, a.p, s.procs[a.p]);
      assert !s.rows[id].receipt.status.NotAttempted?;
    }
  }

  lemma NoNewOthers(s: System, a: Action, q: Pid)
    requires Enabled(s, a) && q in Next(s, a).procs
    ensures q in s.procs || (a.Spawn? && q == a.p)
  {
  }

  lemma HeldKeeps(s: System, a: Action)
    requires Inv(s) && HeldInv(s) && Enabled(s, a)
    ensures HeldInv(Next(s, a))
  {
    var s' := Next(s, a);
    forall id | id in s'.rows ensures RowKept(s'.rows[id]) {
      RowSteps(s, a, id);
    }
    forall q | q in s'.procs ensures HeldOk(s'.rows, s'.procs[q]) {
      NoNewOthers(s, a, q);
      if a.Import? || q != a.p {
        OtherHeld(s, a, q);
      } else if a.Begin? {
        BeginHolds(s, a);
      } else if a.Spawn? || a.Crash? || a.Look? || a.Validate? || a.Retire? {
        HoldsNothing(s, a);
      } else {
        OwnHeld(s, a);
      }
    }
  }

  lemma {:induction false} RunHeld(states: seq<System>, actions: seq<Action>, i: nat)
    requires Run(states, actions) && i <= |actions|
    ensures HeldInv(states[i])
  {
    if i > 0 {
      RunHeld(states, actions, i - 1);
      RunKeeps(states, actions, i - 1);
      assert Enabled(states[i - 1], actions[i - 1]);
      HeldKeeps(states[i - 1], actions[i - 1]);
    }
  }

  // ----- counting attempts

  function Begun(procs: map<Pid, Proc>, id: Id): set<Pid> { set p | p in procs && procs[p].begun && procs[p].call.id == id }

  /** The receipt counts the attempts begun on its id and tells the last of those that were not attempted. */
  ghost predicate Counts(s: System, id: Id) {
    id in s.rows ==>
      var r := s.rows[id].receipt;
      && r.attempt == |Begun(s.procs, id)| && r.attempt >= 1
      && |r.prior| == (if r.attempt - 1 < PRIOR_ATTEMPTS_KEPT then r.attempt - 1 else PRIOR_ATTEMPTS_KEPT)
      && forall k | 0 <= k < |r.prior| :: r.prior[k].status.NotAttempted?
  }

  lemma BegunSame(s: System, a: Action, id: Id)
    requires Enabled(s, a) && !(a.Begin? && Next(s, a).procs[a.p].begun && s.procs[a.p].call.id == id)
    ensures Begun(Next(s, a).procs, id) == Begun(s.procs, id)
  {
    var s' := Next(s, a);
    forall q ensures q in Begun(s'.procs, id) <==> q in Begun(s.procs, id) {
      if q in s'.procs { NoNewOthers(s, a, q); }
      if q in s.procs {
        if a.Import? || q != a.p { OtherCallsStay(s, a, q); } else { BegunFlag(s, a); }
      }
    }
  }

  lemma BegunFlag(s: System, a: Action)
    requires Enabled(s, a) && !a.Import? && !a.Spawn?
    ensures a.p in Next(s, a).procs && Next(s, a).procs[a.p].call == s.procs[a.p].call
    ensures !a.Begin? ==> Next(s, a).procs[a.p].begun == s.procs[a.p].begun
    ensures a.Begin? && s.procs[a.p].begun ==> Next(s, a).procs[a.p].begun
  {
  }

  lemma CountsStep(s: System, a: Action, id: Id)
    requires Inv(s) && HeldInv(s) && Enabled(s, a) && Counts(s, id) && !(a.Import? && a.id == id)
    requires id !in s.rows ==> Begun(s.procs, id) == {}
    ensures Counts(Next(s, a), id) && (id !in Next(s, a).rows ==> Begun(Next(s, a).procs, id) == {})
  {
    var s' := Next(s, a);
    RowSteps(s, a, id);
    if a.Begin? && s'.procs[a.p].begun && s.procs[a.p].call.id == id {
      assert ProcOk(s.rows, a.p, s.procs[a.p]);
      BeginCounts(s, a, id);
    } else {
      BegunSame(s, a, id);
    }
  }

  lemma BeginCounts(s: System, a: Action, id: Id)
    requires Inv(s) && HeldInv(s) && Enabled(s, a) && Begins(s, a, id)
    requires Counts(s, id) && (id !in s.rows ==> Begun(s.procs, id) == {})
    ensures Counts(Next(s, a), id) && id in Next(s, a).rows
  {
    var s' := Next(s, a);
    BeginsRow(s, a, id);
    BegunGrows(s.procs, s'.procs, a.p, id);
  }

  lemma BegunGrows(procs: map<Pid, Proc>, procs': map<Pid, Proc>, p: Pid, id: Id)
    requires p in procs && !procs[p].begun && p in procs' && procs'[p].begun && procs'[p].call.id == id
    requires forall q | q != p :: (q in procs' <==> q in procs) && (q in procs ==> procs'[q] == procs[q])
    ensures |Begun(procs', id)| == |Begun(procs, id)| + 1
  {
    assert Begun(procs', id) == Begun(procs, id) + {p};
  }

  /** What a beginning attempt writes, and that no other call changes. */
  lemma BeginsRow(s: System, a: Action, id: Id)
    requires Enabled(s, a) && Begins(s, a, id)
    ensures var s', call := Next(s, a), s.procs[a.p].call;
      && id in s'.rows && (id in s.rows ==> s.rows[id].receipt.status.NotAttempted?)
      && s'.rows[id].receipt == (if id in s.rows then RetryReceipt(call, s.rows[id].receipt) else FreshReceipt(call))
      && s'.procs[a.p].call == call
      && forall q | q != a.p :: (q in s'.procs <==> q in s.procs) && (q in s.procs ==> s'.procs[q] == s.procs[q])
  {
  }

  /**
   * The attempt number of a receipt is the number of attempts begun on its id, and it keeps at most five prior
   * attempts, all of them not attempted: so an effectful attempt is always the last one.
   */
  lemma {:induction false} AttemptsAreCounted(states: seq<System>, actions: seq<Action>, i: nat, id: Id)
    requires Run(states, actions) && i <= |actions|
    requires forall k | 0 <= k < i :: !(actions[k].Import? && actions[k].id == id)
    ensures Counts(states[i], id) && (id !in states[i].rows ==> Begun(states[i].procs, id) == {})
  {
    if i > 0 {
      AttemptsAreCounted(states, actions, i - 1, id);
      RunKeeps(states, actions, i - 1);
      RunHeld(states, actions, i - 1);
      assert Enabled(states[i - 1], actions[i - 1]) && states[i] == Next(states[i - 1], actions[i - 1]);
      CountsStep(states[i - 1], actions[i - 1], id);
    }
  }

  /** What an id has seen up to a state: its attempts, and in order the receipts they replaced. */
  datatype Tally = Tally(attempts: nat, replaced: seq<Prior>)

  predicate Begins(s: System, a: Action, id: Id)
    requires Enabled(s, a)
  {
    a.Begin? && s.procs[a.p].call.id == id && !s.procs[a.p].begun && Next(s, a).procs[a.p].begun
  }

  /** An import brings the row's own count and priors; a new attempt adds one, and the receipt it replaces, if any. */
  ghost function TallyOf(states: seq<System>, actions: seq<Action>, i: nat, id: Id): Tally
    requires Run(states, actions) && i <= |actions|
  {
    if i == 0 then Tally(0, [])
    else
      var t, s, a := TallyOf(states, actions, i - 1, id), states[i - 1], actions[i - 1];
      if a.Import? && a.id == id then Tally(a.row.receipt.attempt, a.row.receipt.prior)
      else if !Begins(s, a, id) then t
      else if id !in s.rows then Tally(1, [])
      else Tally(t.attempts + 1, t.replaced + [Prior(s.rows[id].receipt.status, s.rows[id].receipt.error)])
  }

  ghost predicate Tallied(s: System, id: Id, t: Tally) {
    id in s.rows ==> s.rows[id].receipt.attempt == t.attempts && s.rows[id].receipt.prior == LastKept(t.replaced)
  }

  lemma LastKeptAgain(a: seq<Prior>, x: Prior)
    ensures LastKept(LastKept(a) + [x]) == LastKept(a + [x])
  {
  }

  lemma TallyStep(s: System, a: Action, id: Id, t: Tally)
    requires Inv(s) && HeldInv(s) && Enabled(s, a) && Tallied(s, id, t) && !(a.Import? && a.id == id)
    ensures !Begins(s, a, id) ==> Tallied(Next(s, a), id, t)
    ensures Begins(s, a, id) && id !in s.rows ==> Tallied(Next(s, a), id, Tally(1, []))
    ensures Begins(s, a, id) && id in s.rows ==>
      var r := s.rows[id].receipt; Tallied(Next(s, a), id, Tally(t.attempts + 1, t.replaced + [Prior(r.status, r.error)]))
    ensures Begins(s, a, id) && id in s.rows ==> s.rows[id].receipt.status.NotAttempted?
  {
    RowSteps(s, a, id);
    if a.Begin? {
      assert ProcOk(s.rows, a.p, s.procs[a.p]);
    }
    if id in s.rows {
      LastKeptAgain(t.replaced, Prior(s.rows[id].receipt.status, s.rows[id].receipt.error));
    }
  }

  /**
   * The prior attempts of a receipt are the last five receipts that attempts on its id replaced, with their errors and
   * in order, and its attempt number counts them all, those an imported row brought with it included.
   */
  lemma {:induction false} PriorsAreTheLastFive(states: seq<System>, actions: seq<Action>, i: nat, id: Id)
    requires Run(states, actions) && i <= |actions|
    ensures Tallied(states[i], id, TallyOf(states, actions, i, id))
  {
    if i > 0 {
      PriorsAreTheLastFive(states, actions, i - 1, id);
      RunKeeps(states, actions, i - 1);
      RunHeld(states, actions, i - 1);
      var s, a := states[i - 1], actions[i - 1];
      assert Enabled(s, a) && states[i] == Next(s, a);
      if !(a.Import? && a.id == id) {
        TallyStep(s, a, id, TallyOf(states, actions, i - 1, id));
      }
    }
  }
}
