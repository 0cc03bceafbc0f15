/** What a caller of the bridge may rely on, over every run of calls on one ledger. */
module BridgeTheorems {
  import opened Common
  import opened Bridge
  import opened BridgeRuns

  lemma SentIsTracked(pr: Proc)
    requires forall e | e in pr.sent :: e in pr.effects
    ensures pr.sent != [] ==> pr.effects != []
  {
    if pr.sent != [] {
      assert pr.sent[0] in pr.effects;
    }
  }

  /** At most one attempt per request id ever tracks an effect, so at most one ever sends a frame or tries a step. */
  lemma OneEffectfulAttempt(states: seq<System>, actions: seq<Action>, i: nat, p: Pid, q: Pid)
    requires Run(states, actions) && i <= |actions| && p in states[i].procs && q in states[i].procs
    requires var a, b := states[i].procs[p], states[i].procs[q];
      a.call.id == b.call.id && (a.effects != [] || a.sent != []) && (b.effects != [] || b.sent != [])
    ensures p == q
  {
    RunKeeps(states, actions, i);
    var a, b := states[i].procs[p], states[i].procs[q];
    assert ProcOk(states[i].rows, p, a) && ProcOk(states[i].rows, q, b);
    SentIsTracked(a);
    SentIsTracked(b);
  }

  /** A stored not_attempted receipt: no attempt on its id, the one that wrote it included, tracked or sent anything. */
  lemma NotAttemptedDidNothing(states: seq<System>, actions: seq<Action>, i: nat, id: Id, p: Pid)
    requires Run(states, actions) && i <= |actions| && p in states[i].procs && states[i].procs[p].call.id == id
    requires id in states[i].rows && states[i].rows[id].receipt.status.NotAttempted?
    ensures states[i].procs[p].effects == [] && states[i].procs[p].sent == []
  {
    RunKeeps(states, actions, i);
    var pr := states[i].procs[p];
    assert ProcOk(states[i].rows, p, pr) && RowOk(states[i].procs, id, states[i].rows[id]);
    SentIsTracked(pr);
  }

  /** A settled receipt names exactly the effects its attempt tracked, and what left is among them. */
  lemma SettledTellsEffects(states: seq<System>, actions: seq<Action>, i: nat, id: Id)
    requires Run(states, actions) && i <= |actions| && id in states[i].rows && states[i].rows[id].author.Some?
    requires !states[i].rows[id].receipt.status.InProgress?
    ensures var p, r := states[i].rows[id].author.value, states[i].rows[id].receipt;
      && p in states[i].procs && r.effects == states[i].procs[p].effects
      && (forall e | e in states[i].procs[p].sent :: e in r.effects)
      && (r.status.NotAttempted? ==> r.effects == []) && (r.status.OutcomeUnknown? ==> r.effects != [])
  {
    RunKeeps(states, actions, i);
    var p := states[i].rows[id].author.value;
    assert RowOk(states[i].procs, id, states[i].rows[id]);
    assert ProcOk(states[i].rows, p, states[i].procs[p]);
  }

  /** A call that must bring a prompt and brings none begins no attempt, tracks no effect and writes no receipt of its own. */
  lemma PromptlessBeginsNothing(states: seq<System>, actions: seq<Action>, i: nat, p: Pid)
    requires Run(states, actions) && i <= |actions| && p in states[i].procs && states[i].procs[p].call.Promptless()
    ensures !states[i].procs[p].begun && states[i].procs[p].effects == [] && states[i].procs[p].sent == []
    ensures forall id | id in states[i].rows :: states[i].rows[id].author != Some(p)
  {
    RunKeeps(states, actions, i);
    var pr := states[i].procs[p];
    assert ProcOk(states[i].rows, p, pr);
    SentIsTracked(pr);
    forall id | id in states[i].rows ensures states[i].rows[id].author != Some(p) {
      assert RowOk(states[i].procs, id, states[i].rows[id]);
    }
  }

  // ----- what may rewrite a receipt

  /** The three ways a stored receipt changes: by the attempt that wrote it, by a retry of it, by its retirement. */
  ghost predicate MayRewrite(s: System, a: Action, row: Row)
    requires Enabled(s, a)
  {
    || (row.author.Some? && row.author.value in s.procs && (a.Checkpoint? || a.Save? || a.Annotate?) && a.p == row.author.value)
    || (a.Begin? && row.receipt.status.NotAttempted? && Agrees(s.procs[a.p].call, row))
    || (a.Retire? && row.receipt.status.NotAttempted? && Agrees(s.procs[a.p].call.WithoutPrompt(), row))
  }

  lemma RewrittenOnlyByItsOwn(s: System, a: Action, id: Id)
    requires Inv(s) && Enabled(s, a) && id in s.rows
    ensures id in Next(s, a).rows && (Next(s, a).rows[id] != s.rows[id] ==> MayRewrite(s, a, s.rows[id]))
    ensures Next(s, a).rows[id].fingerprint == s.rows[id].fingerprint
  {
    if !a.Spawn? && !a.Import? {
      assert ProcOk(s.rows, a.p, s.procs[a.p]);
    }
  }

  /**
   * A retirement rewrites only a not_attempted create_thread reservation stored without a prompt, on which nothing
   * was tracked and no attempt is at work, and only once.
   */
  lemma RetirementRewritesOnlyPromptless(states: seq<System>, actions: seq<Action>, i: nat, id: Id)
    requires Run(states, actions) && i < |actions| && actions[i].Retire?
    requires id in states[i].rows && states[i + 1].rows[id] != states[i].rows[id]
    ensures var row := states[i].rows[id];
      && row.receipt.status.NotAttempted? && row.fingerprint.operation == CREATE
      && row.fingerprint.params.CreateParams? && row.fingerprint.params.prompt.None?
    ensures id !in states[i].retired && NoneMarked(states[i].procs, id)
    ensures states[i + 1].rows[id] == states[i].rows[id].(receipt := RetiredReceipt(states[i].rows[id].receipt))
    ensures RetiredBeforePrompt(states[i + 1].rows[id].receipt)
  {
    RunKeeps(states, actions, i);
    var s, a := states[i], actions[i];
    assert Enabled(s, a) && states[i + 1] == Next(s, a);
    assert ProcOk(s.rows, a.p, s.procs[a.p]) && RowOk(s.procs, id, s.rows[id]);
  }

  // ----- settled receipts are final

  ghost predicate SameDoing(s: System, s': System, id: Id) {
    forall p | p in s'.procs && s'.procs[p].call.id == id ::
      if p in s.procs then s'.procs[p].effects == s.procs[p].effects && s'.procs[p].sent == s.procs[p].sent
      else s'.procs[p].effects == [] && s'.procs[p].sent == []
  }

  predicate Final(status: Status) { status.Failed? || status.OutcomeUnknown? }

  /** A step leaves the calls other than its own as they are. */
  lemma OtherCallsStay(s: System, a: Action, q: Pid)
    requires Enabled(s, a) && (a.Import? || q != a.p)
    ensures q in s.procs <==> q in Next(s, a).procs
    ensures q in s.procs ==> Next(s, a).procs[q] == s.procs[q]
  {
  }

  /** Only tracking and sending change what an attempt has done. */
  lemma OwnDoing(s: System, a: Action)
    requires Enabled(s, a) && !a.Import? && !a.Spawn? && !a.Track? && !a.Send?
    ensures a.p in Next(s, a).procs && Next(s, a).procs[a.p].effects == s.procs[a.p].effects && Next(s, a).procs[a.p].sent == s.procs[a.p].sent
  {
  }

  lemma DoingStep(s: System, a: Action, id: Id)
    requires Enabled(s, a) && ((a.Track? || a.Send?) ==> s.procs[a.p].call.id != id)
    ensures SameDoing(s, Next(s, a), id)
  {
    var s' := Next(s, a);
    forall p | p in s'.procs && s'.procs[p].call.id == id
      ensures if p in s.procs then s'.procs[p].effects == s.procs[p].effects && s'.procs[p].sent == s.procs[p].sent
              else s'.procs[p].effects == [] && s'.procs[p].sent == []
    {
      if a.Import? || p != a.p {
        OtherCallsStay(s, a, p);
      } else if !a.Spawn? && !a.Track? && !a.Send? {
        OwnDoing(s, a);
      }
    }
  }

  lemma FinalStep(s: System, a: Action, id: Id)
    requires Inv(s) && Enabled(s, a) && id in s.rows && Final(s.rows[id].receipt.status)
    ensures id in Next(s, a).rows && Next(s, a).rows[id] == s.rows[id] && SameDoing(s, Next(s, a), id)
  {
    RewrittenOnlyByItsOwn(s, a, id);
    if !a.Spawn? && !a.Import? {
      assert ProcOk(s.rows, a.p, s.procs[a.p]);
    }
    assert s.rows[id].author.Some? ==> RowOk(s.procs, id, s.rows[id]);
    DoingStep(s, a, id);
  }

  lemma ProcsRemain(s: System, a: Action)
    requires Enabled(s, a)
    ensures forall p | p in s.procs :: p in Next(s, a).procs && Next(s, a).procs[p].call == s.procs[p].call
  {
    forall p | p in s.procs ensures p in Next(s, a).procs && Next(s, a).procs[p].call == s.procs[p].call {
      CallRemains(s, a, p);
    }
  }

  lemma CallRemains(s: System, a: Action, p: Pid)
    requires Enabled(s, a) && p in s.procs
    ensures p in Next(s, a).procs && Next(s, a).procs[p].call == s.procs[p].call
  {
  }

  /** Replay has no effect: once a receipt is failed or outcome_unknown it never changes, and no call on its id does anything. */
  lemma {:induction false} FinalForever(states: seq<System>, actions: seq<Action>, i: nat, j: nat, id: Id)
    requires Run(states, actions) && i <= j <= |actions| && id in states[i].rows && Final(states[i].rows[id].receipt.status)
    ensures id in states[j].rows && states[j].rows[id] == states[i].rows[id] && SameDoing(states[i], states[j], id)
    ensures forall p | p in states[i].procs :: p in states[j].procs && states[j].procs[p].call == states[i].procs[p].call
    decreases j
  {
    if i < j {
      FinalForever(states, actions, i, j - 1, id);
      RunKeeps(states, actions, j - 1);
      var s, a := states[j - 1], actions[j - 1];
      assert Enabled(s, a) && states[j] == Next(s, a);
      FinalStep(s, a, id);
      ProcsRemain(s, a);
    }
  }

  lemma RetiredListed(s: System, a: Action)
    requires Enabled(s, a)
    ensures s.retired <= Next(s, a).retired
  {
  }

  /** A reservation is retired at most once, and its retired receipt never changes again. */
  lemma {:induction false} RetiredOnceForever(states: seq<System>, actions: seq<Action>, i: nat, j: nat, k: nat)
    requires Run(states, actions) && i <= j <= |actions| && k < |states[i].retired|
    ensures var id := states[i].retired[k];
      && id in states[i].rows && id in states[j].rows && states[j].rows[id] == states[i].rows[id]
      && RetiredBeforePrompt(states[j].rows[id].receipt)
      && states[i].retired <= states[j].retired
      && forall l | 0 <= l < |states[j].retired| && l != k :: states[j].retired[l] != id
    decreases j
  {
    RunKeeps(states, actions, i);
    RunKeeps(states, actions, j);
    assert states[i].retired[k] in states[i].retired;
    FinalForever(states, actions, i, j, states[i].retired[k]);
    if i < j {
      RetiredOnceForever(states, actions, i, j - 1, k);
      assert Enabled(states[j - 1], actions[j - 1]);
      RetiredListed(states[j - 1], actions[j - 1]);
    }
  }

  /** The receipt of an attempt that ended without settling it stays in progress for good: it is never attempted again. */
  lemma {:induction false} AbandonedForever(states: seq<System>, actions: seq<Action>, i: nat, j: nat, id: Id)
    requires Run(states, actions) && i <= j <= |actions| && id in states[i].rows && Abandoned(states[i], id)
    ensures id in states[j].rows && states[j].rows[id] == states[i].rows[id] && Abandoned(states[j], id)
    decreases j
  {
    if i < j {
      AbandonedForever(states, actions, i, j - 1, id);
      AbandonedNext(states, actions, j - 1, id);
    }
  }

  lemma AbandonedNext(states: seq<System>, actions: seq<Action>, j: nat, id: Id)
    requires Run(states, actions) && j < |actions| && id in states[j].rows && Abandoned(states[j], id)
    ensures id in states[j + 1].rows && states[j + 1].rows[id] == states[j].rows[id] && Abandoned(states[j + 1], id)
  {
    RunKeeps(states, actions, j);
    assert Enabled(states[j], actions[j]) && states[j + 1] == Next(states[j], actions[j]);
    AbandonedStep(states[j], actions[j], id);
  }

  ghost predicate Abandoned(s: System, id: Id)
    requires id in s.rows
  {
    var row := s.rows[id];
    && row.receipt.status.InProgress? && row.author.Some? && row.author.value in s.procs
    && (s.procs[row.author.value].pc.Dead? || s.procs[row.author.value].pc.Done?)
  }

  lemma AbandonedStep(s: System, a: Action, id: Id)
    requires Inv(s) && Enabled(s, a) && id in s.rows && Abandoned(s, id)
    ensures id in Next(s, a).rows && Next(s, a).rows[id] == s.rows[id] && Abandoned(Next(s, a), id)
  {
    RewrittenOnlyByItsOwn(s, a, id);
  }

  /** An accepted receipt stays accepted with the same effects; only its own attempt may annotate it. */
  lemma {:induction false} AcceptedForever(states: seq<System>, actions: seq<Action>, i: nat, j: nat, id: Id)
    requires Run(states, actions) && i <= j <= |actions| && id in states[i].rows && states[i].rows[id].receipt.status.Accepted?
    ensures id in states[j].rows && states[j].rows[id].receipt.status.Accepted?
    ensures states[j].rows[id].author == states[i].rows[id].author
    ensures states[j].rows[id].receipt.effects == states[i].rows[id].receipt.effects
    decreases j
  {
    if i < j {
      AcceptedForever(states, actions, i, j - 1, id);
      RunKeeps(states, actions, j - 1);
      var s, a := states[j - 1], actions[j - 1];
      assert Enabled(s, a) && states[j] == Next(s, a);
      AcceptedStep(s, a, id);
    }
  }

  lemma AcceptedStep(s: System, a: Action, id: Id)
    requires Inv(s) && Enabled(s, a) && id in s.rows && s.rows[id].receipt.status.Accepted?
    ensures id in Next(s, a).rows && Next(s, a).rows[id].receipt.status.Accepted?
    ensures Next(s, a).rows[id].author == s.rows[id].author && Next(s, a).rows[id].receipt.effects == s.rows[id].receipt.effects
  {
    RewrittenOnlyByItsOwn(s, a, id);
    if !a.Spawn? && !a.Import? {
      assert ProcOk(s.rows, a.p, s.procs[a.p]);
    }
  }

  /** What a call answers is what its id holds as it answers. */
  ghost predicate TellsTheLedger(s: System, s': System, p: Pid, reply: Reply)
    requires p in s.procs
  {
    var id := s.procs[p].call.id;
    && (reply.Replayed? ==> s'.rows == s.rows && id in s.rows && reply.receipt == s.rows[id].receipt && !reply.receipt.status.NotAttempted?)
    && (reply.Replayed? ==> Agrees(s.procs[p].call, s.rows[id]) || Agrees(s.procs[p].call.WithoutPrompt(), s.rows[id]))
    && (reply.Settled? ==> id in s'.rows && s'.rows[id].receipt == reply.receipt && s'.rows[id].author == Some(p))
    && (reply.PromptRequired? ==> s'.rows == s.rows && id !in s.rows && s.procs[p].call.Promptless())
    && (reply.WasRetired? ==> id in s'.rows && RetiredBeforePrompt(s'.rows[id].receipt))
  }

  lemma SaveTells(s: System, a: Action)
    requires Inv(s) && Enabled(s, a) && (a.Save? || a.Annotate?)
    ensures var pc := Next(s, a).procs[a.p].pc; pc.Done? ==> TellsTheLedger(s, Next(s, a), a.p, pc.reply)
  {
    assert ProcOk(s.rows, a.p, s.procs[a.p]);
  }

  lemma LookTells(s: System, a: Action)
    requires Enabled(s, a) && (a.Look? || a.Validate? || a.Begin?)
    ensures var pc := Next(s, a).procs[a.p].pc; pc.Done? ==> TellsTheLedger(s, Next(s, a), a.p, pc.reply)
  {
  }

  lemma RetireTells(s: System, a: Action)
    requires Enabled(s, a) && a.Retire?
    ensures var pc := Next(s, a).procs[a.p].pc; pc.Done? ==> TellsTheLedger(s, Next(s, a), a.p, pc.reply)
  {
  }

  lemma AnswersBy(s: System, a: Action, p: Pid)
    requires Enabled(s, a) && p in s.procs && !s.procs[p].pc.Done? && p in Next(s, a).procs && Next(s, a).procs[p].pc.Done?
    ensures (a.Save? || a.Annotate? || a.Look? || a.Validate? || a.Begin? || a.Retire?) && a.p == p
  {
  }

  lemma RepliesTellTheLedger(states: seq<System>, actions: seq<Action>, i: nat, p: Pid)
    requires Run(states, actions) && i < |actions| && p in states[i].procs && !states[i].procs[p].pc.Done?
    requires p in states[i + 1].procs && states[i + 1].procs[p].pc.Done?
    ensures TellsTheLedger(states[i], states[i + 1], p, states[i + 1].procs[p].pc.reply)
  {
    RunKeeps(states, actions, i);
    var s, a := states[i], actions[i];
    assert Enabled(s, a) && states[i + 1] == Next(s, a);
    AnswersBy(s, a, p);
    if a.Save? || a.Annotate? {
      SaveTells(s, a);
    } else if a.Retire? {
      RetireTells(s, a);
    } else {
      LookTells(s, a);
    }
  }
}
