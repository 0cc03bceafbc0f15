/** What every run of the mutation protocol keeps, and what follows for request ids. */
module BridgeRuns {
  import opened Common
  import opened Bridge

  // ----- the invariant

  /** An attempt that has begun and has not returned. */
  predicate Active(pc: PC) { pc.Acting? || pc.Sending? || pc.Saving? || pc.Annotating? }

  /** An attempt that may still act, or that has tracked an effect. */
  predicate Marked(pr: Proc) { Active(pr.pc) || pr.effects != [] }

  predicate BeforeBegin(pc: PC) { pc.Looking? || pc.Validating? || pc.Retiring? || pc.Done? || pc.Dead? }

  /** The row while an attempt works on it. */
  ghost predicate Working(row: Row, p: Pid, pr: Proc) {
    && row.author == Some(p)
    && match pr.pc
       case Acting(r) => row.receipt.status.InProgress? && r.status.InProgress?
       case Sending(r, e) => row.receipt.status.InProgress? && r.status.InProgress? && e in pr.effects
       case Saving(r) =>
         && row.receipt.status.InProgress? && !r.status.InProgress? && r.effects == pr.effects
         && (r.status.NotAttempted? ==> pr.effects == []) && (r.status.OutcomeUnknown? ==> pr.effects != [])
       case Annotating(r) => row.receipt.status.Accepted? && r.status.Accepted? && r.effects == pr.effects && row.receipt.effects == pr.effects
       case _ => true
  }

  ghost predicate ProcOk(rows: map<Id, Row>, p: Pid, pr: Proc) {
    && (pr.call.OtherCall? ==> pr.call.operation != CREATE)
    && (pr.begun ==> pr.call.id in rows)
    && (Marked(pr) ==> pr.begun)
    && (pr.begun ==> !pr.call.Promptless() && !pr.pc.Looking? && !pr.pc.Validating? && !pr.pc.Beginning?)
    && (pr.call.Promptless() ==> BeforeBegin(pr.pc))
    && (pr.pc.Retiring? ==> pr.call.CreateThread?)
    && (pr.begun || pr.pc.Validating? || pr.pc.Beginning? ==> CheckRequestID(pr.call.id))
    && (forall e | e in pr.sent :: e in pr.effects)
    && (Active(pr.pc) ==> Working(rows[pr.call.id], p, pr))
  }

  ghost predicate ProcsOk(s: System) { forall p | p in s.procs :: ProcOk(s.rows, p, s.procs[p]) }

  /** Of the attempts on an id, at most one is marked. */
  ghost predicate OneMarked(procs: map<Pid, Proc>) {
    forall p, q | p in procs && q in procs && Marked(procs[p]) && Marked(procs[q]) && procs[p].call.id == procs[q].call.id :: p == q
  }

  ghost predicate NoneMarked(procs: map<Pid, Proc>, id: Id) {
    forall p | p in procs && procs[p].call.id == id :: !Marked(procs[p])
  }

  /** A receipt that was written by an attempt of this ledger tells its effects. */
  ghost predicate RowOk(procs: map<Pid, Proc>, id: Id, row: Row) {
    && (row.receipt.status.NotAttempted? ==> NoneMarked(procs, id))
    && (row.author.Some? ==>
          var p := row.author.value;
          && p in procs && procs[p].begun && procs[p].call.id == id
          && (!row.receipt.status.InProgress? ==> row.receipt.effects == procs[p].effects)
          && (row.receipt.status.OutcomeUnknown? ==> procs[p].effects != []))
  }

  ghost predicate RowsOk(s: System) { forall id | id in s.rows :: RowOk(s.procs, id, s.rows[id]) }

  ghost predicate RetiredOk(rows: map<Id, Row>, retired: seq<Id>) {
    && (forall i, j | 0 <= i < j < |retired| :: retired[i] != retired[j])
    && (forall id | id in retired :: id in rows && RetiredBeforePrompt(rows[id].receipt))
  }

  ghost predicate Inv(s: System) { ProcsOk(s) && OneMarked(s.procs) && RowsOk(s) && RetiredOk(s.rows, s.retired) }

  // ----- every action keeps it

  /** A step of p changes p alone and at most the row of its id; it becomes marked only if it already was, or nothing on its id is. */
  ghost predicate Frame(s: System, s': System, p: Pid) {
    && p in s'.procs
    && (forall q | q != p :: (q in s'.procs <==> q in s.procs) && (q in s.procs ==> s'.procs[q] == s.procs[q]))
    && (p in s.procs ==> s'.procs[p].call == s.procs[p].call)
    && var id := s'.procs[p].call.id;
       && (forall k | k != id :: (k in s'.rows <==> k in s.rows) && (k in s.rows ==> s'.rows[k] == s.rows[k]))
       && (id in s.rows ==> id in s'.rows)
       && (Marked(s'.procs[p]) ==> (p in s.procs && Marked(s.procs[p])) || id !in s.rows || s.rows[id].receipt.status.NotAttempted?)
       && (id in s.rows && (id !in s'.rows || s'.rows[id] != s.rows[id]) ==>
             s.rows[id].receipt.status.NotAttempted? || (p in s.procs && Active(s.procs[p].pc)))
  }

  /** The other attempts of an id whose row a step may change do not work on it. */
  lemma OthersIdle(s: System, p: Pid, q: Pid, id: Id)
    requires Inv(s) && q in s.procs && p != q && s.procs[q].call.id == id
    requires id !in s.rows || s.rows[id].receipt.status.NotAttempted? || (p in s.procs && s.procs[p].call.id == id && Marked(s.procs[p]))
    ensures !Marked(s.procs[q])
  {
    assert ProcOk(s.rows, q, s.procs[q]);
    if id in s.rows {
      assert RowOk(s.procs, id, s.rows[id]);
    }
  }

  lemma OthersStay(s: System, s': System, p: Pid, q: Pid)
    requires Inv(s) && Frame(s, s', p) && q in s.procs && q != p
    ensures ProcOk(s'.rows, q, s'.procs[q])
  {
    var id := s.procs[q].call.id;
    assert ProcOk(s.rows, q, s.procs[q]);
    if Active(s.procs[q].pc) && s'.rows[id] != s.rows[id] {
      OthersIdle(s, p, q, id);
    }
  }

  lemma MarkedStays(s: System, s': System, p: Pid)
    requires Inv(s) && Frame(s, s', p)
    ensures OneMarked(s'.procs)
  {
    var id := s'.procs[p].call.id;
    forall q | q in s'.procs && q != p && Marked(s'.procs[p]) && s'.procs[q].call.id == id ensures !Marked(s'.procs[q]) {
      OthersIdle(s, p, q, id);
    }
  }

  lemma RowsStay(s: System, s': System, p: Pid, k: Id)
    requires Inv(s) && Frame(s, s', p) && k in s.rows && k in s'.rows && s'.rows[k] == s.rows[k]
    requires p in s.procs ==> s'.procs[p].effects == s.procs[p].effects || s.rows[k].receipt.status.InProgress? || s.procs[p].call.id != k
    requires p in s.procs && s.procs[p].begun ==> s'.procs[p].begun
    requires p in s.procs && s.procs[p].effects != [] ==> s'.procs[p].effects != []
    requires s.rows[k].receipt.status.NotAttempted? && s'.procs[p].call.id == k ==> !Marked(s'.procs[p])
    ensures RowOk(s'.procs, k, s'.rows[k])
  {
    assert RowOk(s.procs, k, s.rows[k]);
  }

  /** The invariant follows from the parts a step changes. */
  lemma Assemble(s: System, s': System, p: Pid)
    requires Inv(s) && Frame(s, s', p) && ProcOk(s'.rows, p, s'.procs[p])
    requires s'.procs[p].call.id in s'.rows ==> RowOk(s'.procs, s'.procs[p].call.id, s'.rows[s'.procs[p].call.id])
    requires p !in s.procs ==> s'.procs[p].effects == []
    requires RetiredOk(s'.rows, s'.retired)
    ensures Inv(s')
  {
    forall q | q in s'.procs ensures ProcOk(s'.rows, q, s'.procs[q]) {
      if q != p { OthersStay(s, s', p, q); }
    }
    MarkedStays(s, s', p);
    forall k | k in s'.rows ensures RowOk(s'.procs, k, s'.rows[k]) {
      if k != s'.procs[p].call.id {
        assert RowOk(s.procs, k, s.rows[k]);
      }
    }
  }

  /** A call goes on to a next step it is ready for, and no row changes. */
  lemma GotoKeeps(s: System, p: Pid, pc: PC)
    requires Inv(s) && p in s.procs && ProcOk(s.rows, p, s.procs[p].(pc := pc)) && (Active(pc) ==> Active(s.procs[p].pc))
    ensures Inv(Goto(s, p, pc))
  {
    var id := s.procs[p].call.id;
    if id in s.rows {
      RowsStay(s, Goto(s, p, pc), p, id);
    }
    Assemble(s, Goto(s, p, pc), p);
  }

  lemma SpawnKeeps(s: System, p: Pid, call: Call)
    requires Inv(s) && Enabled(s, Spawn(p, call))
    ensures Inv(Next(s, Spawn(p, call)))
  {
    var s' := Next(s, Spawn(p, call));
    if call.id in s.rows {
      assert RowOk(s.procs, call.id, s.rows[call.id]);
      RowsStay(s, s', p, call.id);
    }
    Assemble(s, s', p);
  }

  lemma ImportKeeps(s: System, id: Id, row: Row)
    requires Inv(s) && Enabled(s, Import(id, row))
    ensures Inv(Next(s, Import(id, row)))
  {
    var s' := Next(s, Import(id, row));
    forall p | p in s'.procs ensures ProcOk(s'.rows, p, s'.procs[p]) {
      assert ProcOk(s.rows, p, s.procs[p]);
    }
    forall k | k in s'.rows ensures RowOk(s'.procs, k, s'.rows[k]) {
      if k != id { assert RowOk(s.procs, k, s.rows[k]); }
    }
  }

  lemma LookKeeps(s: System, p: Pid, ok: bool)
    requires Inv(s) && Enabled(s, Look(p, ok))
    ensures Inv(LookStep(s, p, ok))
  {
    var call := s.procs[p].call;
    assert ProcOk(s.rows, p, s.procs[p]);
    GotoKeeps(s, p, Done(Refused));
    if CheckRequestID(call.id) {
      GotoKeeps(s, p, Validating);
    }
    GotoKeeps(s, p, OnConflict(call));
    if call.id in s.rows {
      GotoKeeps(s, p, Done(ReplayOf(call, s.rows[call.id].receipt)));
    }
  }

  lemma ValidateKeeps(s: System, p: Pid, ok: bool)
    requires Inv(s) && Enabled(s, Validate(p, ok))
    ensures Inv(ValidateStep(s, p, ok))
  {
    assert ProcOk(s.rows, p, s.procs[p]);
    GotoKeeps(s, p, if s.procs[p].call.Promptless() then Retiring else if ok then Beginning else Done(Refused));
  }

  /** A step of an attempt that writes the row of its id or not. */
  lemma WriteKeeps(s: System, p: Pid, pr: Proc, receipt: Receipt, wrote: bool)
    requires Inv(s) && p in s.procs && Active(s.procs[p].pc) && pr.call == s.procs[p].call && pr.begun && pr.effects == s.procs[p].effects
    requires forall e | e in pr.sent :: e in pr.effects
    requires pr.pc.Done? || pr.pc.Acting? || pr.pc.Annotating?
    requires Active(pr.pc) ==> Working(SaveRow(s, p, receipt, wrote).rows[pr.call.id], p, pr)
    requires receipt.status.NotAttempted? ==> !Marked(pr)
    requires wrote && !receipt.status.InProgress? ==> receipt.effects == pr.effects && (receipt.status.OutcomeUnknown? ==> pr.effects != [])
    ensures var saved := SaveRow(s, p, receipt, wrote); Inv(saved.(procs := saved.procs[p := pr]))
  {
    var saved := SaveRow(s, p, receipt, wrote);
    var s', id := saved.(procs := saved.procs[p := pr]), pr.call.id;
    assert ProcOk(s.rows, p, s.procs[p]);
    if !wrote {
      RowsStay(s, s', p, id);
    } else {
      assert RowOk(s.procs, id, s.rows[id]);
      forall q | q in s'.procs && q != p && s'.procs[q].call.id == id ensures !Marked(s'.procs[q]) {
        OthersIdle(s, p, q, id);
      }
    }
    RetiredNotWorking(s, p);
    Assemble(s, s', p);
  }

  lemma RetiredNotWorking(s: System, p: Pid)
    requires Inv(s) && p in s.procs && Active(s.procs[p].pc)
    ensures s.procs[p].call.id !in s.retired
  {
    assert ProcOk(s.rows, p, s.procs[p]);
  }

  lemma CheckpointKeeps(s: System, p: Pid, body: string, tx: Tx)
    requires Inv(s) && Enabled(s, Checkpoint(p, body, tx))
    ensures Inv(Next(s, Checkpoint(p, body, tx)))
  {
    assert ProcOk(s.rows, p, s.procs[p]);
    var receipt := s.procs[p].pc.receipt.(body := body);
    WriteKeeps(s, p, s.procs[p].(pc := Acting(receipt)), receipt, tx.wrote);
  }

  lemma SaveKeeps(s: System, p: Pid, tx: Tx, annotate: bool)
    requires Inv(s) && Enabled(s, Save(p, tx, annotate))
    ensures Inv(Next(s, Save(p, tx, annotate)))
  {
    assert ProcOk(s.rows, p, s.procs[p]);
    var receipt := s.procs[p].pc.receipt;
    var pc := if !tx.ok then Done(Refused) else if annotate && receipt.status.Accepted? then Annotating(receipt) else Done(Settled(receipt));
    WriteKeeps(s, p, s.procs[p].(pc := pc), receipt, tx.wrote);
  }

  lemma AnnotateKeeps(s: System, p: Pid, body: string, tx: Tx)
    requires Inv(s) && Enabled(s, Annotate(p, body, tx))
    ensures Inv(Next(s, Annotate(p, body, tx)))
  {
    assert ProcOk(s.rows, p, s.procs[p]);
    var receipt := s.procs[p].pc.receipt.(body := body);
    WriteKeeps(s, p, s.procs[p].(pc := Done(if tx.ok then Settled(receipt) else Refused)), receipt, tx.wrote);
  }

  lemma TrackKeeps(s: System, p: Pid, effect: Effect)
    requires Inv(s) && Enabled(s, Track(p, effect))
    ensures Inv(Next(s, Track(p, effect)))
  {
    var s', id := Next(s, Track(p, effect)), s.procs[p].call.id;
    assert ProcOk(s.rows, p, s.procs[p]);
    RowsStay(s, s', p, id);
    Assemble(s, s', p);
  }

  lemma SendKeeps(s: System, p: Pid, left: bool)
    requires Inv(s) && Enabled(s, Send(p, left))
    ensures Inv(Next(s, Send(p, left)))
  {
    var s', id := Next(s, Send(p, left)), s.procs[p].call.id;
    assert ProcOk(s.rows, p, s.procs[p]);
    RowsStay(s, s', p, id);
    Assemble(s, s', p);
  }

  lemma ReturnKeeps(s: System, p: Pid, ending: Ending)
    requires Inv(s) && Enabled(s, Return(p, ending))
    ensures Inv(Next(s, Return(p, ending)))
  {
    assert ProcOk(s.rows, p, s.procs[p]);
    var s' := Next(s, Return(p, ending));
    RowsStay(s, s', p, s.procs[p].call.id);
    Assemble(s, s', p);
  }

  /** An attempt begins on a free id, or on a row whose attempts did nothing. */
  lemma BegunKeeps(s: System, s': System, p: Pid, row: Row)
    requires Inv(s) && p in s.procs && s.procs[p].pc.Beginning?
    requires s.procs[p].call.id in s.rows ==> s.rows[s.procs[p].call.id].receipt.status.NotAttempted?
    requires row.author == Some(p) && row.receipt.status.InProgress?
    requires s'.rows == s.rows[s.procs[p].call.id := row] && s'.retired == s.retired
    requires exists pc :: (pc == Acting(row.receipt) || pc == Done(Refused)) && s'.procs == s.procs[p := s.procs[p].(begun := true, pc := pc)]
    ensures Inv(s')
  {
    assert ProcOk(s.rows, p, s.procs[p]);
    Assemble(s, s', p);
  }

  lemma BeginKeeps(s: System, p: Pid, tx: Tx)
    requires Inv(s) && Enabled(s, Begin(p, tx))
    ensures Inv(BeginStep(s, p, tx))
  {
    var call, s' := s.procs[p].call, BeginStep(s, p, tx);
    assert ProcOk(s.rows, p, s.procs[p]);
    if s'.procs[p].begun {
      BegunKeeps(s, s', p, s'.rows[call.id]);
    } else {
      GotoKeeps(s, p, s'.procs[p].pc);
    }
  }

  /** A retirement writes only a reservation that no attempt works on and none acted on. */
  lemma RetiringKeeps(s: System, p: Pid, reply: Reply)
    requires Inv(s) && p in s.procs && s.procs[p].pc.Retiring?
    requires var id := s.procs[p].call.id; id in s.rows && s.rows[id].receipt.status.NotAttempted?
    ensures var id := s.procs[p].call.id;
      Inv(Goto(s.(rows := s.rows[id := s.rows[id].(receipt := RetiredReceipt(s.rows[id].receipt))], retired := s.retired + [id]), p, Done(reply)))
  {
    var id := s.procs[p].call.id;
    var row := s.rows[id];
    assert ProcOk(s.rows, p, s.procs[p]) && RowOk(s.procs, id, row);
    Assemble(s, Goto(s.(rows := s.rows[id := row.(receipt := RetiredReceipt(row.receipt))], retired := s.retired + [id]), p, Done(reply)), p);
  }

  lemma RetireKeeps(s: System, p: Pid, tx: Tx)
    requires Inv(s) && Enabled(s, Retire(p, tx))
    ensures Inv(RetireStep(s, p, tx))
  {
    var s' := RetireStep(s, p, tx);
    assert ProcOk(s.rows, p, s.procs[p]);
    if s'.retired != s.retired {
      RetiringKeeps(s, p, s'.procs[p].pc.reply);
    } else {
      GotoKeeps(s, p, s'.procs[p].pc);
    }
  }

  lemma NextKeeps(s: System, a: Action)
    requires Inv(s) && Enabled(s, a)
    ensures Inv(Next(s, a))
  {
    match a {
      case Spawn(p, call) => SpawnKeeps(s, p, call);
      case Import(id, row) => ImportKeeps(s, id, row);
      case Crash(p) =>
        assert ProcOk(s.rows, p, s.procs[p]);
        GotoKeeps(s, p, Dead);
      case Look(p, ok) => LookKeeps(s, p, ok);
      case Validate(p, ok) => ValidateKeeps(s, p, ok);
      case Begin(p, tx) => BeginKeeps(s, p, tx);
      case Checkpoint(p, body, tx) => CheckpointKeeps(s, p, body, tx);
      case Track(p, effect) => TrackKeeps(s, p, effect);
      case Send(p, left) => SendKeeps(s, p, left);
      case Return(p, ending) => ReturnKeeps(s, p, ending);
      case Save(p, tx, annotate) => SaveKeeps(s, p, tx, annotate);
      case Annotate(p, body, tx) => AnnotateKeeps(s, p, body, tx);
      case Retire(p, tx) => RetireKeeps(s, p, tx);
    }
  }

  lemma {:induction false} RunKeeps(states: seq<System>, actions: seq<Action>, i: nat)
    requires Run(states, actions) && i <= |actions|
    ensures Inv(states[i])
  {
    if i > 0 {
      RunKeeps(states, actions, i - 1);
      assert Enabled(states[i - 1], actions[i - 1]);
      NextKeeps(states[i - 1], actions[i - 1]);
    }
  }
}
