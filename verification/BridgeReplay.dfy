/** Whose arguments a request id serves, when an identical call replays, and what a reservation foretells. */
module BridgeReplay {
  import opened Common
  import opened Bridge
  import opened BridgeRuns
  import opened BridgeTheorems
  import opened BridgeCounts

  // ----- arguments

  /** The fingerprint is that of the call's arguments, or of their version-1 form. */
  predicate OfCall(call: Call, f: Fingerprint) {
    || f == Fingerprint(call.Operation(), call.Args())
    || (call.Legacy().Some? && f == Fingerprint(call.Operation(), call.Legacy().value))
  }

  ghost predicate ArgumentsOk(s: System) {
    forall p | p in s.procs && s.procs[p].begun && s.procs[p].call.id in s.rows :: OfCall(s.procs[p].call, s.rows[s.procs[p].call.id].fingerprint)
  }

  lemma BeginsOnItsOwn(s: System, a: Action)
    requires Enabled(s, a) && a.Begin? && Next(s, a).procs[a.p].begun && !s.procs[a.p].begun
    ensures var id := s.procs[a.p].call.id; id in Next(s, a).rows && OfCall(s.procs[a.p].call, Next(s, a).rows[id].fingerprint)
  {
  }

  lemma ArgumentsKeep(s: System, a: Action)
    requires Inv(s) && ArgumentsOk(s) && Enabled(s, a)
    ensures ArgumentsOk(Next(s, a))
  {
    var s' := Next(s, a);
    forall p | p in s'.procs && s'.procs[p].begun && s'.procs[p].call.id in s'.rows
      ensures OfCall(s'.procs[p].call, s'.rows[s'.procs[p].call.id].fingerprint)
    {
      NoNewOthers(s, a, p);
      if p in s.procs {
        if a.Import? || p != a.p { OtherCallsStay(s, a, p); } else { BegunFlag(s, a); }
        if s.procs[p].begun {
          assert ProcOk(s.rows, p, s.procs[p]);
          RewrittenOnlyByItsOwn(s, a, s.procs[p].call.id);
        } else {
          BeginsOnItsOwn(s, a);
        }
      }
    }
  }

  lemma {:induction false} RunArguments(states: seq<System>, actions: seq<Action>, i: nat)
    requires Run(states, actions) && i <= |actions|
    ensures ArgumentsOk(states[i])
  {
    if i > 0 {
      RunArguments(states, actions, i - 1);
      RunKeeps(states, actions, i - 1);
      assert Enabled(states[i - 1], actions[i - 1]);
      ArgumentsKeep(states[i - 1], actions[i - 1]);
    }
  }

  /** A request id serves one request: all attempts on it are of one operation, with the same prompt and arguments, the cwd up to its links. */
  lemma OneRequestPerId(states: seq<System>, actions: seq<Action>, i: nat, p: Pid, q: Pid)
    requires Run(states, actions) && i <= |actions| && p in states[i].procs && q in states[i].procs
    requires states[i].procs[p].begun && states[i].procs[q].begun && states[i].procs[p].call.id == states[i].procs[q].call.id
    ensures var a, b := states[i].procs[p].call, states[i].procs[q].call;
      && a.Operation() == b.Operation() && a.CreateThread? == b.CreateThread?
      && (if a.CreateThread? then a.prompt == b.prompt && a.rest == b.rest else a.text == b.text)
  {
    RunKeeps(states, actions, i);
    RunArguments(states, actions, i);
    assert ProcOk(states[i].rows, p, states[i].procs[p]) && ProcOk(states[i].rows, q, states[i].procs[q]);
  }

  // ----- replay

  function Own(call: Call): Fingerprint { Fingerprint(call.Operation(), call.Args()) }

  /** A row an attempt of this ledger began on was written by one of them. */
  ghost predicate AuthoredOk(s: System) {
    forall p | p in s.procs && s.procs[p].begun && s.procs[p].call.id in s.rows :: s.rows[s.procs[p].call.id].author.Some?
  }

  lemma AuthoredKeep(s: System, a: Action)
    requires Inv(s) && HeldInv(s) && AuthoredOk(s) && Enabled(s, a)
    ensures AuthoredOk(Next(s, a))
  {
    var s' := Next(s, a);
    forall p | p in s'.procs && s'.procs[p].begun && s'.procs[p].call.id in s'.rows ensures s'.rows[s'.procs[p].call.id].author.Some? {
      NoNewOthers(s, a, p);
      if p in s.procs {
        if a.Import? || p != a.p { OtherCallsStay(s, a, p); } else { BegunFlag(s, a); }
        assert ProcOk(s.rows, p, s.procs[p]);
        RowSteps(s, a, s.procs[p].call.id);
      }
    }
  }

  lemma {:induction false} RunAuthored(states: seq<System>, actions: seq<Action>, i: nat)
    requires Run(states, actions) && i <= |actions|
    ensures AuthoredOk(states[i])
  {
    if i > 0 {
      RunAuthored(states, actions, i - 1);
      RunKeeps(states, actions, i - 1);
      RunHeld(states, actions, i - 1);
      assert Enabled(states[i - 1], actions[i - 1]);
      AuthoredKeep(states[i - 1], actions[i - 1]);
    }
  }

  /** What a call identical to an earlier one should meet: its receipt, or another try where nothing was attempted. */
  function Replay(call: Call, row: Row): PC {
    if row.fingerprint != Own(call) then OnConflict(call)
    else if row.receipt.status.NotAttempted? then Validating
    else Done(Replayed(row.receipt))
  }

  /**
   * A call identical to one that began an attempt is answered the stored receipt exactly when the row is stored under
   * the call's own fingerprint; otherwise it is a conflict.
   */
  lemma IdenticalCallReplays(states: seq<System>, actions: seq<Action>, i: nat, p: Pid, q: Pid)
    requires Run(states, actions) && i <= |actions| && p in states[i].procs && q in states[i].procs
    requires states[i].procs[p].begun && states[i].procs[q].call == states[i].procs[p].call && states[i].procs[q].pc.Looking?
    ensures states[i].procs[p].call.id in states[i].rows
    ensures LookStep(states[i], q, true).procs[q].pc == Replay(states[i].procs[q].call, states[i].rows[states[i].procs[p].call.id])
  {
    RunKeeps(states, actions, i);
    RunHeld(states, actions, i);
    RunAuthored(states, actions, i);
    assert ProcOk(states[i].rows, p, states[i].procs[p]);
    assert RowKept(states[i].rows[states[i].procs[p].call.id]);
  }

  /** Every attempt on the id is of a call whose own fingerprint the row is stored under. */
  ghost predicate OwnRow(s: System, id: Id) {
    && (id in s.rows ==> s.rows[id].receipt.version == 2)
    && forall p | p in s.procs && s.procs[p].begun && s.procs[p].call.id == id :: id in s.rows && s.rows[id].fingerprint == Own(s.procs[p].call)
  }

  lemma BeginsOwn(s: System, a: Action, id: Id)
    requires Enabled(s, a) && Begins(s, a, id) && (id in s.rows ==> s.rows[id].receipt.version == 2)
    ensures id in Next(s, a).rows && Next(s, a).rows[id].fingerprint == Own(s.procs[a.p].call)
  {
  }

  lemma OwnRowStep(s: System, a: Action, id: Id)
    requires Inv(s) && HeldInv(s) && Enabled(s, a) && OwnRow(s, id) && !(a.Import? && a.id == id)
    ensures OwnRow(Next(s, a), id)
  {
    var s' := Next(s, a);
    RowSteps(s, a, id);
    forall p | p in s'.procs && s'.procs[p].begun && s'.procs[p].call.id == id ensures id in s'.rows && s'.rows[id].fingerprint == Own(s'.procs[p].call) {
      NoNewOthers(s, a, p);
      if p in s.procs {
        if a.Import? || p != a.p { OtherCallsStay(s, a, p); } else { BegunFlag(s, a); }
        if s.procs[p].begun {
          RewrittenOnlyByItsOwn(s, a, id);
        } else {
          BeginsOwn(s, a, id);
        }
      }
    }
  }

  /** Where the id was not imported, every call that began an attempt is of the row's own fingerprint, so it always replays. */
  lemma {:induction false} OwnUnlessImported(states: seq<System>, actions: seq<Action>, i: nat, id: Id)
    requires Run(states, actions) && i <= |actions|
    requires forall k | 0 <= k < i :: !(actions[k].Import? && actions[k].id == id)
    ensures OwnRow(states[i], id)
  {
    if i > 0 {
      OwnUnlessImported(states, actions, i - 1, id);
      RunKeeps(states, actions, i - 1);
      RunHeld(states, actions, i - 1);
      assert Enabled(states[i - 1], actions[i - 1]) && states[i] == Next(states[i - 1], actions[i - 1]);
      OwnRowStep(states[i - 1], actions[i - 1], id);
    }
  }

  lemma Then(states: seq<System>, actions: seq<Action>, a: Action) returns (longer: seq<System>, more: seq<Action>)
    requires Run(states, actions) && Enabled(states[|actions|], a)
    ensures Run(longer, more) && more == actions + [a] && longer == states + [Next(states[|actions|], a)]
  {
    longer, more := states + [Next(states[|actions|], a)], actions + [a];
  }

  /** A call on a row of version 1 stored under the call's legacy fingerprint begins its attempt. */
  lemma LegacyRow(call: Call, row: Row) returns (states: seq<System>, actions: seq<Action>)
    requires call.CreateThread? && CheckRequestID(call.id) && !call.promptRequired
    requires row.author.None? && Written(row) && row.receipt.version == 1 && row.receipt.status.NotAttempted?
    requires row.fingerprint == Fingerprint(CREATE, call.Legacy().value)
    ensures Run(states, actions) && |actions| == 4
    ensures states[4] == System(map[call.id := row], map[0 := Proc(call, Beginning, false, [], [], None)], [])
  {
    states, actions := Then([Initial], [], Import(call.id, row));
    states, actions := Then(states, actions, Spawn(0, call));
    states, actions := Then(states, actions, Look(0, true));
    states, actions := Then(states, actions, Validate(0, true));
  }

  /**
   * Runs where it does not, for every such call: it retries an imported version-1 row through its legacy fingerprint,
   * which the row keeps beside version 2, and the same call then conflicts with the receipt of its own attempt.
   */
  lemma LegacyRetryConflicts(call: Call, row: Row) returns (states: seq<System>, actions: seq<Action>)
    requires call.CreateThread? && CheckRequestID(call.id) && !call.promptRequired
    requires row.author.None? && Written(row) && row.receipt.version == 1 && row.receipt.status.NotAttempted?
    requires row.fingerprint == Fingerprint(CREATE, call.Legacy().value) && row.fingerprint != Own(call)
    ensures Run(states, actions) && |actions| == 7
    ensures 0 in states[7].procs && states[7].procs[0].call == call && states[7].procs[0].begun
    ensures 1 in states[7].procs && states[7].procs[1].call == call && states[7].procs[1].pc == Done(Conflict)
  {
    states, actions := LegacyRow(call, row);
    states, actions := Then(states, actions, Begin(0, Tx(true, true)));
    states, actions := Then(states, actions, Spawn(1, call));
    states, actions := Then(states, actions, Look(1, true));
  }

  // ----- reservations

  /** CreateThreadReservation answers promptless exactly when a retirement of the same call would rewrite the row it read. */
  lemma ReservationForetells(states: seq<System>, actions: seq<Action>, i: nat, p: Pid)
    requires Run(states, actions) && i <= |actions| && p in states[i].procs && states[i].procs[p].call.CreateThread?
    requires CheckRequestID(states[i].procs[p].call.id)
    ensures CreateThreadReservation(states[i].rows, states[i].procs[p].call).Promptless?
            <==> RetireStep(states[i], p, Tx(true, true)).rows != states[i].rows
  {
    RunHeld(states, actions, i);
    var s, call := states[i], states[i].procs[p].call;
    if call.id in s.rows && Agrees(call.WithoutPrompt(), s.rows[call.id]) && s.rows[call.id].receipt.status.NotAttempted? {
      assert RetireStep(s, p, Tx(true, true)).rows[call.id].receipt.status.Failed?;
    } else {
      assert RetireStep(s, p, Tx(true, true)).rows == s.rows;
    }
  }
}
