/** What holds of every ledger a registry can produce. */
module RegistryRuns {
  import opened Common
  import opened Envelope
  import opened Validation
  import opened Freezing
  import opened Registry

  /** What the registry compares of a task. */
  predicate SameHead(t: Task, u: Task) {
    t.identity == u.identity && t.executor == u.executor && t.repository == u.repository
  }

  /** The laws the proofs use of the validators. */
  ghost predicate Lawful(v: Rules) {
    && (forall a, g, now | v.grant(a, g, now).Pass? ::
          v.admission(a).Pass? && g.executionId == a.task.identity.executionId)
    && (forall a, b, g, now | v.grant(a, g, now).Pass? && v.admission(b).Pass? && a.task.identity == b.task.identity ::
          v.grant(b, g, 0).Pass?)
    && (forall t | v.freeze(t).Ok? ::
          v.admission(v.freeze(t).value).Pass? && SameHead(v.freeze(t).value.task, t))
    && (forall a | v.admission(a).Pass? :: v.freeze(a.task).Ok? && v.freeze(a.task).value.taskDigest == a.taskDigest)
    && (forall a, b | v.admission(a).Pass? && v.admission(b).Pass? && a.taskDigest == b.taskDigest ::
          SameHead(a.task, b.task))
    && (forall a, r, p | v.result(a, r, p).Pass? :: r.identity == a.task.identity)
    && (forall a, p | v.peer(a, p) :: p == PeerOf(a))
  }

  lemma AdmissionFacts(a: Admission)
    requires ValidateAdmission(a).Pass?
    ensures Freeze(a.task).Ok? && a.taskDigest == Sum(Freeze(a.task).value.task)
    ensures SameHead(Freeze(a.task).value.task, a.task)
  {
    FreezeKeepsIdentity(a.task);
  }

  lemma FreezingLaws()
    ensures var v := ExecutorRules();
      forall t | v.freeze(t).Ok? :: v.admission(v.freeze(t).value).Pass? && SameHead(v.freeze(t).value.task, t)
  {
    var v := ExecutorRules();
    forall t | v.freeze(t).Ok?
      ensures v.admission(v.freeze(t).value).Pass? && SameHead(v.freeze(t).value.task, t)
    {
      FreezeIsIdempotent(t);
      FreezeKeepsIdentity(t);
    }
  }

  lemma DigestLaws()
    ensures var v := ExecutorRules();
      && (forall a | v.admission(a).Pass? :: v.freeze(a.task).Ok? && v.freeze(a.task).value.taskDigest == a.taskDigest)
      && (forall a, b | v.admission(a).Pass? && v.admission(b).Pass? && a.taskDigest == b.taskDigest ::
            SameHead(a.task, b.task))
  {
    var v := ExecutorRules();
    forall a | v.admission(a).Pass? ensures v.freeze(a.task).Ok? && v.freeze(a.task).value.taskDigest == a.taskDigest {
      AdmissionFacts(a);
    }
    forall a, b | v.admission(a).Pass? && v.admission(b).Pass? && a.taskDigest == b.taskDigest
      ensures SameHead(a.task, b.task)
    {
      AdmissionFacts(a);
      AdmissionFacts(b);
    }
  }

  lemma GrantLaws()
    ensures var v := ExecutorRules();
      && (forall a, g, now | v.grant(a, g, now).Pass? ::
            v.admission(a).Pass? && g.executionId == a.task.identity.executionId)
      && (forall a, b, g, now | v.grant(a, g, now).Pass? && v.admission(b).Pass? && a.task.identity == b.task.identity ::
            v.grant(b, g, 0).Pass?)
  {
    var v := ExecutorRules();
    forall a, b, g, now | v.grant(a, g, now).Pass? && v.admission(b).Pass? && a.task.identity == b.task.identity
      ensures v.grant(b, g, 0).Pass?
    {
      GrantCarries(a, b, g, now);
    }
  }

  lemma ResultLaws()
    ensures var v := ExecutorRules();
      && (forall a, r, p | v.result(a, r, p).Pass? :: r.identity == a.task.identity)
      && (forall a, p | v.peer(a, p) :: p == PeerOf(a))
  {
    var v := ExecutorRules();
    forall a, r, p | v.result(a, r, p).Pass? ensures r.identity == a.task.identity {
      assert ValidateResult(a, r, p).Pass?;
    }
  }

  /** The executor's validators obey the laws: freezing is canonical, and digests tell tasks apart. */
  lemma ExecutorRulesLawful()
    ensures Lawful(ExecutorRules())
  {
    FreezingLaws();
    DigestLaws();
    GrantLaws();
    ResultLaws();
  }

  lemma GrantCarries(a: Admission, b: Admission, g: Grant, now: Time)
    requires ValidateGrant(a, g, now).Pass? && ValidateAdmission(b).Pass? && a.task.identity == b.task.identity
    ensures ValidateGrant(b, g, 0).Pass?
  {
  }

  // ----- folding

  lemma {:induction false} FoldSplit(v: Rules, st: LedgerState, a: seq<Record>, b: seq<Record>)
    ensures FoldFrom(v, st, a + b) ==
            match FoldFrom(v, st, a) { case Err(code) => Err(code) case Ok(mid) => FoldFrom(v, mid, b) }
    decreases a
  {
    if a == [] {
      assert a + b == b;
    } else {
      assert (a + b)[1..] == a[1..] + b;
      if Step(v, st, a[0]).Ok? {
        FoldSplit(v, Step(v, st, a[0]).value, a[1..], b);
      }
    }
  }

  /** Folding one more record is one step on the state folded before it. */
  lemma FoldAppend(v: Rules, log: seq<Record>, rec: Record)
    ensures Fold(v, log + [rec]) == match Fold(v, log) { case Err(code) => Err(code) case Ok(st) => Step(v, st, rec) }
  {
    FoldSplit(v, EMPTY, log, [rec]);
    if Fold(v, log).Ok? {
      FoldOne(v, Fold(v, log).value, rec);
    }
  }

  lemma FoldOne(v: Rules, st: LedgerState, rec: Record)
    ensures FoldFrom(v, st, [rec]) == Step(v, st, rec)
  {
    assert [rec][1..] == [];
    if Step(v, st, rec).Ok? {
      assert FoldFrom(v, Step(v, st, rec).value, []) == Step(v, st, rec);
    }
  }

  ghost predicate Accepted(v: Rules, log: seq<Record>) { Fold(v, log).Ok? }

  ghost function State(v: Rules, log: seq<Record>): LedgerState
    requires Accepted(v, log)
  {
    Fold(v, log).value
  }

  // ----- what every folded state satisfies

  type Admissions = map<string, Admission>
  type Currents = map<string, string>
  type Finals = map<string, Record>
  type Quarantines = map<(string, Sum<Bytes>), Record>

  ghost predicate Linked(admissions: Admissions, current: Currents) {
    && (forall e | e in admissions ::
          && admissions[e].task.identity.executionId == e
          && admissions[e].task.identity.taskId in current)
    && (forall t | t in current ::
          && current[t] in admissions
          && admissions[current[t]].task.identity.taskId == t)
  }

  ghost predicate Validated(v: Rules, admissions: Admissions) {
    forall e | e in admissions :: v.admission(admissions[e]).Pass?
  }

  /** A final record is the received record of its execution, acknowledged as such. */
  ghost predicate FinalOk(admissions: Admissions, e: string, rec: Record) {
    && rec.kind.Received? && rec.result.Some? && rec.acknowledgement.Some?
    && e in admissions
    && rec.result.value.identity.executionId == e
    && var ack := rec.acknowledgement.value;
       ack.state.Received? && ack.executionId == e && ack.taskDigest == admissions[e].taskDigest
  }

  ghost predicate FinalsOk(admissions: Admissions, finals: Finals) {
    forall e | e in finals :: FinalOk(admissions, e, finals[e])
  }

  ghost predicate StateOk(v: Rules, st: LedgerState) {
    && Linked(st.admissionBy, st.currentByTask)
    && Validated(v, st.admissionBy)
    && st.admissionBy.Keys <= st.grantBy.Keys
    && FinalsOk(st.admissionBy, st.finalBy)
  }

  ghost predicate Extends<K(!new), V>(m: map<K, V>, n: map<K, V>) {
    forall k | k in m :: k in n && n[k] == m[k]
  }

  /** No execution that was admitted before becomes current. */
  ghost predicate NoRevival(admissions: Admissions, current: Currents, admissions': Admissions, current': Currents) {
    forall e | e in admissions && CurrentIn(admissions', current', e) :: CurrentIn(admissions, current, e)
  }

  /**
   * Records only add to the state: admissions, received results and quarantines stay as they are,
   * and an execution that is not current never becomes current.
   */
  ghost predicate Grows(st: LedgerState, next: LedgerState) {
    && Extends(st.admissionBy, next.admissionBy)
    && Extends(st.finalBy, next.finalBy)
    && Extends(st.quarantine, next.quarantine)
    && NoRevival(st.admissionBy, st.currentByTask, next.admissionBy, next.currentByTask)
  }

  lemma AdmitLinks(admissions: Admissions, current: Currents, a: Admission)
    requires Linked(admissions, current) && a.task.identity.executionId !in admissions
    ensures var id := a.task.identity;
      Linked(admissions[id.executionId := a], current[id.taskId := id.executionId])
  {
  }

  lemma AdmitRevivesNone(admissions: Admissions, current: Currents, a: Admission)
    requires Linked(admissions, current) && a.task.identity.executionId !in admissions
    ensures var id := a.task.identity;
      NoRevival(admissions, current, admissions[id.executionId := a], current[id.taskId := id.executionId])
  {
  }

  lemma AdmitKeepsFinals(admissions: Admissions, finals: Finals, e: string, a: Admission)
    requires FinalsOk(admissions, finals) && e !in admissions
    ensures FinalsOk(admissions[e := a], finals)
  {
  }

  /** What a record that replay accepts was, without the validators' part of it. */
  ghost predicate Stepped(v: Rules, st: LedgerState, rec: Record) {
    match rec.kind
    case Admitted =>
      && rec.admission.Some? && rec.grant.Some?
      && v.admission(rec.admission.value).Pass?
      && rec.grant.value.executionId == rec.admission.value.task.identity.executionId
      && AdmitStep(st, rec.admission.value).Pass?
    case GrantRenewed =>
      && rec.admission.Some? && rec.grant.Some?
      && rec.grant.value.executionId == rec.admission.value.task.identity.executionId
      && Renewable(st, rec.admission.value)
      && !RenewStep(GrantOf(st, rec.grant.value.executionId), rec.grant.value).Older?
    case Received =>
      && rec.result.Some? && rec.acknowledgement.Some?
      && rec.acknowledgement.value.executionId !in st.finalBy
      && FinalOk(st.admissionBy, rec.acknowledgement.value.executionId, rec)
    case Quarantined =>
      && rec.result.Some? && rec.acknowledgement.Some?
      && var ack := rec.acknowledgement.value;
         && ack.executionId == rec.result.value.identity.executionId
         && ack.executionId in st.finalBy
         && DigestOf(st.finalBy[ack.executionId]) != Some(ack.resultDigest)
         && (ack.executionId, ack.resultDigest) !in st.quarantine
    case OtherKind(_) => false
  }

  lemma StepFacts(v: Rules, st: LedgerState, rec: Record)
    requires Lawful(v) && Step(v, st, rec).Ok?
    ensures Stepped(v, st, rec) && Step(v, st, rec).value == StepEffect(st, rec)
  {
  }

  lemma AdmittedGrows(v: Rules, st: LedgerState, a: Admission, g: Grant)
    requires StateOk(v, st) && v.admission(a).Pass? && a.task.identity.executionId !in st.admissionBy
    requires g.executionId == a.task.identity.executionId
    ensures StateOk(v, GrantEffect(AdmitEffect(st, a), g)) && Grows(st, GrantEffect(AdmitEffect(st, a), g))
  {
    AdmitLinks(st.admissionBy, st.currentByTask, a);
    AdmitRevivesNone(st.admissionBy, st.currentByTask, a);
    AdmitKeepsFinals(st.admissionBy, st.finalBy, a.task.identity.executionId, a);
  }

  lemma ResultGrows(v: Rules, st: LedgerState, rec: Record, ack: Acknowledgement)
    requires StateOk(v, st) && Stepped(v, st, rec) && IsResult(rec) && rec.acknowledgement == Some(ack)
    ensures StateOk(v, ResultEffect(st, rec, ack)) && Grows(st, ResultEffect(st, rec, ack))
  {
  }

  lemma RenewedGrows(v: Rules, st: LedgerState, g: Grant)
    requires StateOk(v, st)
    ensures StateOk(v, GrantEffect(st, g)) && Grows(st, GrantEffect(st, g))
  {
  }

  lemma SteppedGrows(v: Rules, st: LedgerState, rec: Record)
    requires StateOk(v, st) && Stepped(v, st, rec)
    ensures StateOk(v, StepEffect(st, rec)) && Grows(st, StepEffect(st, rec))
  {
    if rec.kind.Admitted? {
      AdmittedGrows(v, st, rec.admission.value, rec.grant.value);
    } else if rec.kind.GrantRenewed? {
      RenewedGrows(v, st, rec.grant.value);
    } else {
      ResultGrows(v, st, rec, rec.acknowledgement.value);
    }
  }

  lemma GrowsTransitive(a: LedgerState, b: LedgerState, c: LedgerState)
    requires Grows(a, b) && Grows(b, c)
    ensures Grows(a, c)
  {
  }

  // ----- the states a ledger goes through

  ghost predicate Link(v: Rules, st: LedgerState, rec: Record, next: LedgerState) {
    StateOk(v, st) && Stepped(v, st, rec) && next == StepEffect(st, rec)
  }

  /** The states replay goes through, one before each record and one at the end. */
  ghost predicate History(v: Rules, log: seq<Record>, states: seq<LedgerState>) {
    && |states| == |log| + 1
    && StateOk(v, states[|log|])
    && forall i | 0 <= i < |log| :: Link(v, states[i], log[i], states[i + 1])
  }

  ghost function States(st: LedgerState, log: seq<Record>): (states: seq<LedgerState>)
    ensures |states| == |log| + 1 && states[0] == st
    decreases log
  {
    if log == [] then [st] else [st] + States(StepEffect(st, log[0]), log[1..])
  }

  lemma {:induction false} HistoryFrom(v: Rules, st: LedgerState, log: seq<Record>)
    requires Lawful(v) && StateOk(v, st) && FoldFrom(v, st, log).Ok?
    ensures History(v, log, States(st, log)) && FoldFrom(v, st, log) == Ok(States(st, log)[|log|])
    decreases log
  {
    if log != [] {
      FoldStep(v, st, log);
      HistoryFrom(v, StepEffect(st, log[0]), log[1..]);
      HistoryCons(v, st, log, States(StepEffect(st, log[0]), log[1..]));
    }
  }

  lemma HistoryCons(v: Rules, st: LedgerState, log: seq<Record>, rest: seq<LedgerState>)
    requires log != [] && History(v, log[1..], rest) && Link(v, st, log[0], rest[0])
    ensures History(v, log, [st] + rest)
  {
    var states := [st] + rest;
    forall i | 0 <= i < |log| ensures Link(v, states[i], log[i], states[i + 1]) {
      if i > 0 {
        assert log[1..][i - 1] == log[i] && states[i] == rest[i - 1] && states[i + 1] == rest[i];
      }
    }
  }

  lemma FoldStep(v: Rules, st: LedgerState, log: seq<Record>)
    requires Lawful(v) && StateOk(v, st) && log != [] && FoldFrom(v, st, log).Ok?
    ensures Link(v, st, log[0], StepEffect(st, log[0])) && StateOk(v, StepEffect(st, log[0]))
    ensures FoldFrom(v, st, log) == FoldFrom(v, StepEffect(st, log[0]), log[1..])
  {
    StepFacts(v, st, log[0]);
    SteppedGrows(v, st, log[0]);
  }

  /** Every accepted ledger has a history, from the empty state to the folded one. */
  lemma HistoryOf(v: Rules, log: seq<Record>) returns (states: seq<LedgerState>)
    requires Lawful(v) && Accepted(v, log)
    ensures History(v, log, states) && states[0] == EMPTY && states[|log|] == State(v, log)
  {
    HistoryFrom(v, EMPTY, log);
    states := States(EMPTY, log);
  }

  lemma {:induction false} HistoryGrows(v: Rules, log: seq<Record>, states: seq<LedgerState>, i: nat, j: nat)
    requires History(v, log, states) && i <= j <= |log|
    ensures StateOk(v, states[i]) && Grows(states[i], states[j])
    decreases j - i
  {
    if i < j {
      assert Link(v, states[i], log[i], states[i + 1]);
      SteppedGrows(v, states[i], log[i]);
      HistoryGrows(v, log, states, i + 1, j);
      GrowsTransitive(states[i], states[i + 1], states[j]);
    } else if i < |log| {
      assert Link(v, states[i], log[i], states[i + 1]);
    }
  }

  lemma AcceptedOk(v: Rules, log: seq<Record>)
    requires Lawful(v) && Accepted(v, log)
    ensures StateOk(v, State(v, log))
  {
    var states := HistoryOf(v, log);
  }

  lemma AcceptedPrefix(v: Rules, log: seq<Record>, n: nat)
    requires Accepted(v, log) && n <= |log|
    ensures Accepted(v, log[..n])
  {
    assert log == log[..n] + log[n..];
    FoldSplit(v, EMPTY, log[..n], log[n..]);
  }

  /** An accepted extension of a ledger only adds to its state. */
  lemma ExtensionGrows(v: Rules, log: seq<Record>, later: seq<Record>)
    requires Lawful(v) && Accepted(v, later) && log <= later
    ensures Accepted(v, log) && Grows(State(v, log), State(v, later))
  {
    assert later[..|log|] == log && later == log + later[|log|..];
    AcceptedPrefix(v, later, |log|);
    AcceptedOk(v, log);
    FoldSplit(v, EMPTY, log, later[|log|..]);
    HistoryFrom(v, State(v, log), later[|log|..]);
    HistoryGrows(v, later[|log|..], States(State(v, log), later[|log|..]), 0, |later| - |log|);
  }

  // ----- replay closure

  /** The checks of Admit that do not read the ledger, and the admission it goes on with. */
  lemma AdmittingExact(v: Rules, a: Admission, g: Grant, now: Time)
    requires Lawful(v)
    ensures Admitting(v, a, g, now).Ok? <==> v.admission(a).Pass? && v.grant(a, g, now).Pass?
    ensures Admitting(v, a, g, now).Ok? ==>
              var frozen := Admitting(v, a, g, now).value;
              && v.admission(frozen).Pass? && v.grant(frozen, g, 0).Pass? && g.executionId == frozen.task.identity.executionId
              && ReferenceOf(frozen) == ReferenceOf(a) && frozen.task.repository == a.task.repository
  {
  }

  lemma OneReference(v: Rules, a: Admission, b: Admission)
    requires Lawful(v) && v.admission(a).Pass? && v.admission(b).Pass? && a.taskDigest == b.taskDigest
    ensures ReferenceOf(a) == ReferenceOf(b)
  {
  }

  lemma HeldIsValid(v: Rules, st: LedgerState, e: string)
    requires StateOk(v, st) && e in st.admissionBy
    ensures v.admission(st.admissionBy[e]).Pass?
  {
  }

  lemma GrantPasses(v: Rules, a: Admission, b: Admission, g: Grant)
    requires Lawful(v) && v.grant(a, g, 0).Pass? && v.admission(b).Pass? && a.task.identity == b.task.identity
    ensures v.grant(b, g, 0).Pass?
  {
  }

  lemma AdmitCloses(v: Rules, log: seq<Record>, a: Admission, g: Grant, now: Time)
    requires Lawful(v) && Accepted(v, log)
    ensures Accepted(v, AdmitReply(v, log, a, g, now).log)
  {
    AcceptedOk(v, log);
    AdmittingExact(v, a, g, now);
    if Admitting(v, a, g, now).Ok? {
      var st, frozen := State(v, log), Admitting(v, a, g, now).value;
      var e := frozen.task.identity.executionId;
      if e in st.admissionBy && st.admissionBy[e].taskDigest == frozen.taskDigest {
        HeldIsValid(v, st, e);
        OneReference(v, st.admissionBy[e], frozen);
        GrantPasses(v, frozen, st.admissionBy[e], g);
      }
      AdmittedCloses(v, log, a, g, now);
    }
  }

  /** Replay accepts an admission that the state allows, and a renewal of the current execution by a grant that is not older. */
  lemma AdmittedCloses(v: Rules, log: seq<Record>, a: Admission, g: Grant, now: Time)
    requires Accepted(v, log) && Admitting(v, a, g, now).Ok? && v.grant(Admitting(v, a, g, now).value, g, 0).Pass?
    requires var st, frozen := State(v, log), Admitting(v, a, g, now).value; var e := frozen.task.identity.executionId;
      e in st.admissionBy && st.admissionBy[e].taskDigest == frozen.taskDigest ==>
        v.grant(st.admissionBy[e], g, 0).Pass? && st.admissionBy[e].task.identity == frozen.task.identity
    ensures Accepted(v, AdmitReply(v, log, a, g, now).log)
  {
    var st, frozen := State(v, log), Admitting(v, a, g, now).value;
    var e := frozen.task.identity.executionId;
    FoldAppend(v, log, GrantRecord(Admitted, frozen, g));
    if e in st.admissionBy {
      FoldAppend(v, log, GrantRecord(GrantRenewed, st.admissionBy[e], g));
    }
  }

  lemma DeliveryFits(v: Rules, adm: Admission, r: TaskResult, peer: Peer)
    requires Lawful(v) && v.peer(adm, peer) && v.result(adm, r, peer).Pass?
    ensures peer == PeerOf(adm) && r.identity == adm.task.identity
  {
  }

  /** What Collect appends, replay accepts, adding the final result or the quarantined digest and nothing else. */
  lemma CollectedSteps(v: Rules, st: LedgerState, ref: Reference, d: Delivery, peer: Peer)
    requires Lawful(v) && Holds(st, ref)
    ensures var c, e := Collected(v, st, ref, d, peer), ref.identity.executionId;
      && (c.Fresh? ==> Step(v, st, c.rec) == Ok(st.(finalBy := st.finalBy[e := c.rec])))
      && (c.Conflict? && c.appended.Some? ==>
            Step(v, st, c.appended.value) == Ok(st.(quarantine := st.quarantine[(e, c.ack.resultDigest) := c.appended.value])))
  {
    var c, adm := Collected(v, st, ref, d, peer), st.admissionBy[ref.identity.executionId];
    if c.Fresh? || c.Conflict? {
      DeliveryFits(v, adm, d.decoded.value, peer);
      FittingSteps(v, st, ref, d, peer);
    }
  }

  lemma FittingSteps(v: Rules, st: LedgerState, ref: Reference, d: Delivery, peer: Peer)
    requires Holds(st, ref) && peer == PeerOf(st.admissionBy[ref.identity.executionId])
    requires d.decoded.Ok? && d.decoded.value.identity == st.admissionBy[ref.identity.executionId].task.identity
    ensures var c, e := Collected(v, st, ref, d, peer), ref.identity.executionId;
      && (c.Fresh? ==> Step(v, st, c.rec) == Ok(st.(finalBy := st.finalBy[e := c.rec])))
      && (c.Conflict? && c.appended.Some? ==>
            Step(v, st, c.appended.value) == Ok(st.(quarantine := st.quarantine[(e, c.ack.resultDigest) := c.appended.value])))
  {
  }

  lemma CollectCloses(v: Rules, log: seq<Record>, ref: Reference, d: Delivery, peer: Peer)
    requires Lawful(v) && Accepted(v, log)
    ensures Accepted(v, CollectReply(v, log, ref, d, peer).log)
  {
    var st := State(v, log);
    if Holds(st, ref) {
      CollectedSteps(v, st, ref, d, peer);
      var c := Collected(v, st, ref, d, peer);
      if c.Fresh? {
        FoldAppend(v, log, c.rec);
      } else if c.Conflict? && c.appended.Some? {
        FoldAppend(v, log, c.appended.value);
      }
    }
  }

  lemma AdmitAppends(v: Rules, log: seq<Record>, a: Admission, g: Grant, now: Time)
    ensures var after := AdmitReply(v, log, a, g, now).log; log <= after && |after| <= |log| + 1
  {
  }

  lemma CollectAppends(v: Rules, log: seq<Record>, ref: Reference, d: Delivery, peer: Peer)
    ensures var after := CollectReply(v, log, ref, d, peer).log; log <= after && |after| <= |log| + 1
  {
  }

  /** Every call leaves a ledger replay accepts, and appends at most one record to it. */
  lemma CallCloses(v: Rules, log: seq<Record>, call: Call)
    requires Lawful(v) && Accepted(v, log)
    ensures Accepted(v, After(v, log, call))
    ensures log <= After(v, log, call) && |After(v, log, call)| <= |log| + 1
  {
    match call {
      case Admit(a, g, now) =>
        AdmitCloses(v, log, a, g, now);
        AdmitAppends(v, log, a, g, now);
      case Collect(ref, d, peer) =>
        CollectCloses(v, log, ref, d, peer);
        CollectAppends(v, log, ref, d, peer);
      case Current(_) =>
      case Receipt(_) =>
    }
  }

  /** Replay closure: whatever is called on an accepted ledger, replay accepts the whole ledger it leaves. */
  lemma {:induction false} ReplayCloses(v: Rules, log: seq<Record>, calls: seq<Call>)
    requires Lawful(v) && Accepted(v, log)
    ensures Accepted(v, Run(v, log, calls)) && log <= Run(v, log, calls)
    decreases calls
  {
    if calls != [] {
      CallCloses(v, log, calls[0]);
      ReplayCloses(v, After(v, log, calls[0]), calls[1..]);
    }
  }

  /** Replay closure for the executor package: every run of calls from the empty ledger. */
  lemma ExecutorReplayCloses(calls: seq<Call>)
    ensures Fold(ExecutorRules(), Run(ExecutorRules(), [], calls)).Ok?
  {
    ExecutorRulesLawful();
    ReplayCloses(ExecutorRules(), [], calls);
  }

  // ----- attempt fencing

  predicate IsAdmit(rec: Record) { rec.kind.Admitted? && rec.admission.Some? && rec.grant.Some? }

  predicate IsGrant(rec: Record) { (rec.kind.Admitted? || rec.kind.GrantRenewed?) && rec.admission.Some? && rec.grant.Some? }

  function TaskOf(a: Admission): string { a.task.identity.taskId }

  function ExecutionOf(a: Admission): string { a.task.identity.executionId }

  /** An admission is its task's current one, or the current one is a later attempt of it. */
  ghost predicate Fenced(admissions: Admissions, current: Currents, a: Admission) {
    && TaskOf(a) in current && current[TaskOf(a)] in admissions
    && ExecutionOf(a) in admissions && admissions[ExecutionOf(a)] == a
    && var held := admissions[current[TaskOf(a)]];
       held == a || (Later(a, held) && SameTarget(a, held))
  }

  lemma AdmitFences(st: LedgerState, b: Admission, a: Admission)
    requires Linked(st.admissionBy, st.currentByTask) && AdmitStep(st, b).Pass?
    requires Fenced(st.admissionBy, st.currentByTask, a)
    ensures Fenced(AdmitEffect(st, b).admissionBy, AdmitEffect(st, b).currentByTask, a)
  {
  }

  lemma {:induction false} AdmittedFenced(v: Rules, log: seq<Record>, states: seq<LedgerState>, i: nat, j: nat)
    requires History(v, log, states) && i < j <= |log| && IsAdmit(log[i])
    ensures Fenced(states[j].admissionBy, states[j].currentByTask, log[i].admission.value)
    decreases j
  {
    assert Link(v, states[j - 1], log[j - 1], states[j]);
    if i < j - 1 {
      AdmittedFenced(v, log, states, i, j - 1);
      if log[j - 1].kind.Admitted? {
        AdmitFences(states[j - 1], log[j - 1].admission.value, log[i].admission.value);
      }
    }
  }

  /**
   * Attempt fencing: of two admitted records of one task the later has the greater attempt and generation,
   * on the same plan, node and repository, under another execution id.
   */
  lemma AttemptsIncrease(v: Rules, log: seq<Record>, i: nat, j: nat)
    requires Lawful(v) && Accepted(v, log) && i < j < |log| && IsAdmit(log[i]) && IsAdmit(log[j])
    requires TaskOf(log[i].admission.value) == TaskOf(log[j].admission.value)
    ensures Later(log[i].admission.value, log[j].admission.value)
    ensures SameTarget(log[i].admission.value, log[j].admission.value)
    ensures ExecutionOf(log[i].admission.value) != ExecutionOf(log[j].admission.value)
  {
    var states := HistoryOf(v, log);
    FencedAttempts(v, log, states, i, j);
  }

  lemma FencedAttempts(v: Rules, log: seq<Record>, states: seq<LedgerState>, i: nat, j: nat)
    requires History(v, log, states) && i < j < |log| && IsAdmit(log[i]) && IsAdmit(log[j])
    requires TaskOf(log[i].admission.value) == TaskOf(log[j].admission.value)
    ensures Later(log[i].admission.value, log[j].admission.value)
    ensures SameTarget(log[i].admission.value, log[j].admission.value)
    ensures ExecutionOf(log[i].admission.value) != ExecutionOf(log[j].admission.value)
  {
    assert Link(v, states[j], log[j], states[j + 1]);
    AdmittedFenced(v, log, states, i, j);
  }

  /** The last admitted record of its task. */
  ghost predicate LatestAt(log: seq<Record>, i: nat) {
    && i < |log| && IsAdmit(log[i])
    && forall j | i < j < |log| && IsAdmit(log[j]) :: TaskOf(log[j].admission.value) != TaskOf(log[i].admission.value)
  }

  ghost predicate Latest(log: seq<Record>, executionId: string) {
    exists i: nat :: LatestAt(log, i) && ExecutionOf(log[i].admission.value) == executionId
  }

  predicate AdmitsAt(rec: Record, e: string) { IsAdmit(rec) && ExecutionOf(rec.admission.value) == e }

  lemma AdmissionBefore(v: Rules, log: seq<Record>, states: seq<LedgerState>, j: nat, e: string)
    requires History(v, log, states) && 0 < j <= |log| && e in states[j].admissionBy
    ensures if AdmitsAt(log[j - 1], e) then log[j - 1].admission.value == states[j].admissionBy[e]
            else e in states[j - 1].admissionBy && states[j - 1].admissionBy[e] == states[j].admissionBy[e]
  {
    assert Link(v, states[j - 1], log[j - 1], states[j]);
  }

  lemma {:induction false} HeldWasAdmitted(v: Rules, log: seq<Record>, states: seq<LedgerState>, j: nat, e: string) returns (i: nat)
    requires History(v, log, states) && states[0] == EMPTY && j <= |log| && e in states[j].admissionBy
    ensures i < j && IsAdmit(log[i]) && log[i].admission.value == states[j].admissionBy[e]
    decreases j
  {
    AdmissionBefore(v, log, states, j, e);
    if AdmitsAt(log[j - 1], e) {
      i := j - 1;
    } else {
      i := HeldWasAdmitted(v, log, states, j - 1, e);
    }
  }

  lemma CurrentThenLatest(v: Rules, log: seq<Record>, states: seq<LedgerState>, e: string)
    requires History(v, log, states) && states[0] == EMPTY && IsCurrent(states[|log|], e)
    ensures Latest(log, e)
  {
    var i := HeldWasAdmitted(v, log, states, |log|, e);
    forall j | i < j < |log| && IsAdmit(log[j])
      ensures TaskOf(log[j].admission.value) != TaskOf(log[i].admission.value)
    {
      AdmittedFenced(v, log, states, j, |log|);
      if TaskOf(log[j].admission.value) == TaskOf(log[i].admission.value) {
        FencedAttempts(v, log, states, i, j);
      }
    }
    assert LatestAt(log, i);
  }

  lemma LatestThenCurrent(v: Rules, log: seq<Record>, states: seq<LedgerState>, i: nat)
    requires History(v, log, states) && states[0] == EMPTY && LatestAt(log, i)
    ensures IsCurrent(states[|log|], ExecutionOf(log[i].admission.value))
  {
    AdmittedFenced(v, log, states, i, |log|);
    var k := HeldWasAdmitted(v, log, states, |log|, states[|log|].currentByTask[TaskOf(log[i].admission.value)]);
    if k < i {
      FencedAttempts(v, log, states, k, i);
    }
  }

  lemma CurrentIffLatest(v: Rules, log: seq<Record>, states: seq<LedgerState>, e: string)
    requires History(v, log, states) && states[0] == EMPTY
    ensures IsCurrent(states[|log|], e) <==> Latest(log, e)
  {
    if IsCurrent(states[|log|], e) {
      CurrentThenLatest(v, log, states, e);
    }
    if Latest(log, e) {
      var i: nat :| LatestAt(log, i) && ExecutionOf(log[i].admission.value) == e;
      LatestThenCurrent(v, log, states, i);
    }
  }

  /** The current execution of a task is exactly the one admitted last. */
  lemma CurrentIsLatest(v: Rules, log: seq<Record>, e: string)
    requires Lawful(v) && Accepted(v, log)
    ensures IsCurrent(State(v, log), e) <==> Latest(log, e)
  {
    var states := HistoryOf(v, log);
    CurrentIffLatest(v, log, states, e);
  }

  /** Only the latest attempt is served: every operation refuses any other execution as stale. */
  lemma OnlyLatestServed(v: Rules, log: seq<Record>, ref: Reference, d: Delivery, peer: Peer)
    requires Lawful(v) && Accepted(v, log)
    ensures var e := ref.identity.executionId;
      && (CurrentReply(v, log, e).error.None? <==> Latest(log, e))
      && (!Latest(log, e) ==>
            && CurrentReply(v, log, e) == Refuse(StaleAssignment, log)
            && CollectReply(v, log, ref, d, peer) == Refuse(StaleAssignment, log)
            && ReceiptReply(v, log, ref) == Refuse(StaleAssignment, log))
  {
    CurrentIsLatest(v, log, ref.identity.executionId);
  }

  /** A superseded execution is refused for ever: no later call serves it, makes it current or admits it again. */
  lemma SupersededForever(v: Rules, log: seq<Record>, calls: seq<Call>, ref: Reference, d: Delivery, peer: Peer, a: Admission, g: Grant, now: Time)
    requires Lawful(v) && Accepted(v, log)
    requires var e := ref.identity.executionId; e in State(v, log).admissionBy && !IsCurrent(State(v, log), e)
    requires ExecutionOf(a) == ref.identity.executionId
    ensures var later := Run(v, log, calls);
      && CurrentReply(v, later, ref.identity.executionId) == Refuse(StaleAssignment, later)
      && CollectReply(v, later, ref, d, peer) == Refuse(StaleAssignment, later)
      && ReceiptReply(v, later, ref) == Refuse(StaleAssignment, later)
      && AdmitReply(v, later, a, g, now).error.Some? && AdmitReply(v, later, a, g, now).log == later
  {
    var later := Run(v, log, calls);
    ReplayCloses(v, log, calls);
    ExtensionGrows(v, log, later);
    OnlyLatestServed(v, later, ref, d, peer);
    CurrentIsLatest(v, later, ref.identity.executionId);
  }

  // ----- grants

  /** Epoch and expiry do not decrease, and an epoch has one owner. */
  predicate NotOlder(a: Grant, b: Grant) {
    && a.ownerEpoch <= b.ownerEpoch && a.expiresAt <= b.expiresAt
    && (a.ownerEpoch == b.ownerEpoch ==> a.owner == b.owner)
  }

  ghost predicate GrantHeldIn(st: LedgerState, rec: Record) {
    && IsGrant(rec)
    && rec.grant.value.executionId in st.admissionBy && rec.grant.value.executionId in st.grantBy
    && NotOlder(rec.grant.value, st.grantBy[rec.grant.value.executionId])
  }

  lemma SteppedHoldsGrants(v: Rules, st: LedgerState, rec: Record, held: Record)
    requires StateOk(v, st) && Stepped(v, st, rec) && GrantHeldIn(st, held)
    ensures GrantHeldIn(StepEffect(st, rec), held)
  {
  }

  lemma {:induction false} GrantHeld(v: Rules, log: seq<Record>, states: seq<LedgerState>, i: nat, j: nat)
    requires History(v, log, states) && i < j <= |log| && IsGrant(log[i])
    ensures GrantHeldIn(states[j], log[i])
    decreases j
  {
    assert Link(v, states[j - 1], log[j - 1], states[j]);
    if i < j - 1 {
      GrantHeld(v, log, states, i, j - 1);
      SteppedHoldsGrants(v, states[j - 1], log[j - 1], log[i]);
    }
  }

  /** The grants of one execution keep a non-decreasing epoch and expiry, with one owner per epoch. */
  lemma GrantsAdvance(v: Rules, log: seq<Record>, i: nat, j: nat)
    requires Lawful(v) && Accepted(v, log) && i < j < |log| && IsGrant(log[i]) && IsGrant(log[j])
    requires log[i].grant.value.executionId == log[j].grant.value.executionId
    ensures NotOlder(log[i].grant.value, log[j].grant.value)
  {
    var states := HistoryOf(v, log);
    GrantHeld(v, log, states, i, j);
    GrantFollows(v, log, states, j, log[i]);
  }

  lemma GrantFollows(v: Rules, log: seq<Record>, states: seq<LedgerState>, j: nat, held: Record)
    requires History(v, log, states) && j < |log| && IsGrant(log[j]) && GrantHeldIn(states[j], held)
    requires held.grant.value.executionId == log[j].grant.value.executionId
    ensures NotOlder(held.grant.value, log[j].grant.value)
  {
    assert Link(v, states[j], log[j], states[j + 1]);
  }

  // ----- one final result

  ghost predicate ResultHeldIn(st: LedgerState, rec: Record) {
    && rec.result.Some? && rec.acknowledgement.Some?
    && var e := rec.result.value.identity.executionId;
       && (rec.kind.Received? ==> e in st.finalBy && st.finalBy[e] == rec)
       && (rec.kind.Quarantined? ==> e in st.finalBy && (e, rec.acknowledgement.value.resultDigest) in st.quarantine)
  }

  predicate IsResult(rec: Record) { rec.kind.Received? || rec.kind.Quarantined? }

  lemma SteppedHoldsResult(v: Rules, st: LedgerState, rec: Record)
    requires StateOk(v, st) && Stepped(v, st, rec) && IsResult(rec)
    ensures ResultHeldIn(StepEffect(st, rec), rec)
  {
  }

  lemma ResultHeld(v: Rules, log: seq<Record>, states: seq<LedgerState>, i: nat, j: nat)
    requires History(v, log, states) && i < j <= |log| && IsResult(log[i])
    ensures ResultHeldIn(states[j], log[i])
  {
    assert Link(v, states[i], log[i], states[i + 1]);
    SteppedHoldsResult(v, states[i], log[i]);
    HistoryGrows(v, log, states, i + 1, j);
  }

  lemma ResultFollows(v: Rules, st: LedgerState, held: Record, rec: Record)
    requires StateOk(v, st) && Stepped(v, st, rec) && IsResult(rec) && IsResult(held) && ResultHeldIn(st, held)
    requires held.result.value.identity.executionId == rec.result.value.identity.executionId
    ensures rec.kind.Quarantined? && DigestOf(held) != DigestOf(rec)
  {
  }

  /**
   * Of two result records of one execution at most the first is received, and the digests of the received
   * and the quarantined ones are pairwise different.
   */
  lemma ResultsOnce(v: Rules, log: seq<Record>, i: nat, j: nat)
    requires Lawful(v) && Accepted(v, log) && i < j < |log| && IsResult(log[i]) && IsResult(log[j])
    requires log[i].result.Some? && log[j].result.Some?
    requires log[i].result.value.identity.executionId == log[j].result.value.identity.executionId
    ensures log[j].kind.Quarantined?
    ensures DigestOf(log[i]) != DigestOf(log[j])
  {
    var states := HistoryOf(v, log);
    ResultHeld(v, log, states, i, j);
    assert Link(v, states[j], log[j], states[j + 1]);
    ResultFollows(v, states[j], log[i], log[j]);
  }

  /**
   * A received result is immutable: whatever is called afterwards, Receipt answers the same result and
   * acknowledgement, or refuses because the execution was superseded.
   */
  lemma ReceiptImmutable(v: Rules, log: seq<Record>, ref: Reference, calls: seq<Call>)
    requires Lawful(v) && Accepted(v, log) && ReceiptReply(v, log, ref).value.Some?
    ensures var later := Run(v, log, calls);
      ReceiptReply(v, later, ref) ==
        if Latest(later, ref.identity.executionId) then Reply(ReceiptReply(v, log, ref).value, None, later)
        else Refuse(StaleAssignment, later)
  {
    var later := Run(v, log, calls);
    ReplayCloses(v, log, calls);
    ExtensionGrows(v, log, later);
    CurrentIsLatest(v, later, ref.identity.executionId);
  }

  /** After a successful Collect the execution's final record carries the delivered digest and the answered acknowledgement. */
  lemma CollectRecords(v: Rules, log: seq<Record>, ref: Reference, d: Delivery, peer: Peer)
    requires Lawful(v) && Accepted(v, log) && CollectReply(v, log, ref, d, peer).error.None?
    ensures var first := CollectReply(v, log, ref, d, peer); var e := ref.identity.executionId;
      && Accepted(v, first.log) && log <= first.log
      && d.raw.Ok? && Holds(State(v, log), ref)
      && e in State(v, first.log).finalBy
      && State(v, first.log).finalBy[e].acknowledgement == first.value
      && DigestOf(State(v, first.log).finalBy[e]) == Some(Sum(d.raw.value))
  {
    var st := State(v, log);
    CollectSucceeds(v, log, ref, d, peer);
    var c := Collected(v, st, ref, d, peer);
    AcceptedOk(v, log);
    CollectedIsFinal(v, st, ref, d, peer);
    if c.Fresh? {
      CollectedSteps(v, st, ref, d, peer);
      FoldAppend(v, log, c.rec);
    }
  }

  /** The final record of a delivery that is known, or of a fresh one once it is stored. */
  lemma CollectedIsFinal(v: Rules, st: LedgerState, ref: Reference, d: Delivery, peer: Peer)
    requires StateOk(v, st) && Holds(st, ref) && (Collected(v, st, ref, d, peer).Known? || Collected(v, st, ref, d, peer).Fresh?)
    ensures var c, e := Collected(v, st, ref, d, peer), ref.identity.executionId;
      && d.raw.Ok? && (c.Known? ==> e in st.finalBy)
      && var rec := if c.Fresh? then c.rec else st.finalBy[e];
         rec.acknowledgement == Some(c.ack) && DigestOf(rec) == Some(Sum(d.raw.value))
  {
    if Collected(v, st, ref, d, peer).Known? {
      FinalOf(v, st, ref.identity.executionId);
    }
  }

  /** A Collect without an error found its result known or fresh. */
  lemma CollectSucceeds(v: Rules, log: seq<Record>, ref: Reference, d: Delivery, peer: Peer)
    requires Accepted(v, log) && CollectReply(v, log, ref, d, peer).error.None?
    ensures Holds(State(v, log), ref)
    ensures var c := Collected(v, State(v, log), ref, d, peer);
      && (c.Known? || c.Fresh?) && CollectReply(v, log, ref, d, peer).value == Some(c.ack)
      && CollectReply(v, log, ref, d, peer).log == if c.Fresh? then log + [c.rec] else log
  {
  }

  /**
   * Redelivering the bytes of the received result appends nothing and answers the acknowledgement the
   * first delivery was given, at any later time before the execution is superseded, whatever became of its artifacts.
   */
  lemma RedeliveryIsIdempotent(v: Rules, log: seq<Record>, calls: seq<Call>, ref: Reference, d: Delivery, peer: Peer, artifacts: Verdict)
    requires Lawful(v) && Accepted(v, log) && CollectReply(v, log, ref, d, peer).error.None?
    ensures var first := CollectReply(v, log, ref, d, peer); var later := Run(v, first.log, calls);
      Latest(later, ref.identity.executionId) ==>
        CollectReply(v, later, ref, d.(artifacts := artifacts), peer) == Reply(first.value, None, later)
  {
    var first := CollectReply(v, log, ref, d, peer);
    var later, id := Run(v, first.log, calls), ref.identity.executionId;
    CollectRecords(v, log, ref, d, peer);
    CollectSucceeds(v, log, ref, d, peer);
    ReplayCloses(v, first.log, calls);
    ExtensionGrows(v, log, later);
    ExtensionGrows(v, first.log, later);
    CurrentIsLatest(v, later, id);
    if Latest(later, id) {
      KnownAgain(v, State(v, log), State(v, later), ref, d, peer, first.value.value, artifacts);
    }
  }

  /** A delivery that was once known or fresh is known where its result is the final one. */
  lemma KnownAgain(v: Rules, st: LedgerState, st': LedgerState, ref: Reference, d: Delivery, peer: Peer, ack: Acknowledgement, artifacts: Verdict)
    requires Holds(st, ref) && (Collected(v, st, ref, d, peer).Known? || Collected(v, st, ref, d, peer).Fresh?)
    requires var e := ref.identity.executionId;
      && IsCurrent(st', e) && e in st'.admissionBy && st'.admissionBy[e] == st.admissionBy[e]
      && e in st'.finalBy && DigestOf(st'.finalBy[e]) == Some(Sum(d.raw.value)) && st'.finalBy[e].acknowledgement == Some(ack)
    ensures Holds(st', ref) && Collected(v, st', ref, d.(artifacts := artifacts), peer) == Known(ack)
  {
  }

  lemma FinalOf(v: Rules, st: LedgerState, e: string)
    requires StateOk(v, st) && e in st.finalBy
    ensures st.finalBy[e].result.Some? && st.finalBy[e].acknowledgement.Some?
  {
    assert FinalOk(st.admissionBy, e, st.finalBy[e]);
  }

  lemma ConflictRepeats(v: Rules, st: LedgerState, ref: Reference, d: Delivery, peer: Peer)
    requires Holds(st, ref) && Collected(v, st, ref, d, peer).Conflict? && Collected(v, st, ref, d, peer).appended.Some?
    ensures var c, e := Collected(v, st, ref, d, peer), ref.identity.executionId;
      var next := st.(quarantine := st.quarantine[(e, c.ack.resultDigest) := c.appended.value]);
      e in st.finalBy && Holds(next, ref) && Collected(v, next, ref, d, peer) == Conflict(c.ack, None)
  {
  }

  /** A conflicting delivery is recorded at most once, and leaves what Receipt answers as it was. */
  lemma ConflictQuarantined(v: Rules, log: seq<Record>, ref: Reference, d: Delivery, peer: Peer)
    requires Lawful(v) && Accepted(v, log) && Holds(State(v, log), ref)
    requires Collected(v, State(v, log), ref, d, peer).Conflict?
    ensures var after := CollectReply(v, log, ref, d, peer).log;
      && ReceiptReply(v, log, ref).value.Some?
      && ReceiptReply(v, after, ref) == ReceiptReply(v, log, ref).(log := after)
      && CollectReply(v, after, ref, d, peer).log == after
  {
    var st, after := State(v, log), CollectReply(v, log, ref, d, peer).log;
    AcceptedOk(v, log);
    CollectedSteps(v, st, ref, d, peer);
    ConflictKept(v, log, ref, d, peer);
    FinalOf(v, st, ref.identity.executionId);
    SameReceipt(v, log, after, ref);
  }

  /** The state after a conflict holds the same reference and final record, and the delivery is recorded in it. */
  lemma ConflictKept(v: Rules, log: seq<Record>, ref: Reference, d: Delivery, peer: Peer)
    requires Accepted(v, log) && Holds(State(v, log), ref) && Collected(v, State(v, log), ref, d, peer).Conflict?
    requires var st, c := State(v, log), Collected(v, State(v, log), ref, d, peer);
      c.appended.Some? ==>
        Step(v, st, c.appended.value) == Ok(st.(quarantine := st.quarantine[(ref.identity.executionId, c.ack.resultDigest) := c.appended.value]))
    ensures var after, e := CollectReply(v, log, ref, d, peer).log, ref.identity.executionId;
      && Accepted(v, after) && Holds(State(v, after), ref) && e in State(v, log).finalBy
      && State(v, after).finalBy == State(v, log).finalBy
      && CollectReply(v, after, ref, d, peer).log == after
  {
    var st, c := State(v, log), Collected(v, State(v, log), ref, d, peer);
    ConflictLog(v, log, ref, d, peer);
    if c.appended.Some? {
      ConflictRepeats(v, st, ref, d, peer);
      FoldAppend(v, log, c.appended.value);
      ConflictLog(v, log + [c.appended.value], ref, d, peer);
    }
  }

  lemma ConflictLog(v: Rules, log: seq<Record>, ref: Reference, d: Delivery, peer: Peer)
    requires Accepted(v, log) && Holds(State(v, log), ref) && Collected(v, State(v, log), ref, d, peer).Conflict?
    ensures var c := Collected(v, State(v, log), ref, d, peer);
      CollectReply(v, log, ref, d, peer).log == if c.appended.Some? then log + [c.appended.value] else log
  {
  }

  /** Receipt answers alike from two ledgers that hold the reference with the same final record. */
  lemma SameReceipt(v: Rules, log: seq<Record>, after: seq<Record>, ref: Reference)
    requires Accepted(v, log) && Accepted(v, after) && Holds(State(v, log), ref) && Holds(State(v, after), ref)
    requires ref.identity.executionId in State(v, log).finalBy && ref.identity.executionId in State(v, after).finalBy
    requires State(v, after).finalBy[ref.identity.executionId] == State(v, log).finalBy[ref.identity.executionId]
    requires var final := State(v, log).finalBy[ref.identity.executionId]; final.result.Some? && final.acknowledgement.Some?
    ensures ReceiptReply(v, log, ref).value.Some? && ReceiptReply(v, after, ref) == ReceiptReply(v, log, ref).(log := after)
  {
  }
}
