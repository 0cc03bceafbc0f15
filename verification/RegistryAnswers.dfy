/** What each answer of the registry means, in terms of the records of its ledger. */
module RegistryAnswers {
  import opened Common
  import opened Envelope
  import opened Validation
  import opened Registry
  import opened RegistryRuns

  // ----- the folded state, read off the records

  ghost predicate AdmittedAt(log: seq<Record>, i: nat, e: string) {
    i < |log| && IsAdmit(log[i]) && ExecutionOf(log[i].admission.value) == e
  }

  ghost predicate WasAdmitted(log: seq<Record>, e: string) { exists i: nat :: AdmittedAt(log, i, e) }

  ghost predicate Grants(rec: Record, e: string) { IsGrant(rec) && rec.grant.value.executionId == e }

  /** The last grant recorded for an execution. */
  ghost predicate LastGrantAt(log: seq<Record>, i: nat, e: string) {
    i < |log| && Grants(log[i], e) && forall j | i < j < |log| :: !Grants(log[j], e)
  }

  ghost predicate ReceivedAt(log: seq<Record>, i: nat, e: string) {
    && i < |log| && log[i].kind.Received? && log[i].result.Some? && log[i].acknowledgement.Some?
    && log[i].result.value.identity.executionId == e
  }

  ghost predicate WasReceived(log: seq<Record>, e: string) { exists i: nat :: ReceivedAt(log, i, e) }

  /** An execution is admitted in the folded state exactly when a record admitted it, with that record's admission. */
  lemma AdmittedIff(v: Rules, log: seq<Record>, e: string)
    requires Lawful(v) && Accepted(v, log)
    ensures e in State(v, log).admissionBy <==> WasAdmitted(log, e)
    ensures forall i: nat | AdmittedAt(log, i, e) :: e in State(v, log).admissionBy && log[i].admission.value == State(v, log).admissionBy[e]
  {
    var states := HistoryOf(v, log);
    if e in State(v, log).admissionBy {
      var i := HeldWasAdmitted(v, log, states, |log|, e);
      AdmittedFenced(v, log, states, i, |log|);
      assert AdmittedAt(log, i, e);
    }
    forall i: nat | AdmittedAt(log, i, e) ensures e in State(v, log).admissionBy && log[i].admission.value == State(v, log).admissionBy[e] {
      AdmittedFenced(v, log, states, i, |log|);
    }
  }

  lemma GrantStep(v: Rules, st: LedgerState, rec: Record, e: string)
    requires Stepped(v, st, rec)
    ensures var next := StepEffect(st, rec).grantBy;
      if Grants(rec, e) then e in next && next[e] == rec.grant.value
      else e in next ==> e in st.grantBy && next[e] == st.grantBy[e]
  {
    var next := StepEffect(st, rec);
    match rec.kind {
      case Admitted | GrantRenewed => assert next.grantBy == st.grantBy[rec.grant.value.executionId := rec.grant.value];
      case Received | Quarantined => assert next.grantBy == st.grantBy;
      case OtherKind(_) =>
    }
  }

  /** A ledger without its last record, and the step that record was. */
  lemma LastStep(v: Rules, log: seq<Record>)
    requires Lawful(v) && Accepted(v, log) && log != []
    ensures var before, rec := log[..|log| - 1], log[|log| - 1];
      Accepted(v, before) && Stepped(v, State(v, before), rec) && State(v, log) == StepEffect(State(v, before), rec)
  {
    var before, rec := log[..|log| - 1], log[|log| - 1];
    assert log == before + [rec];
    FoldAppend(v, before, rec);
    StepFacts(v, State(v, before), rec);
  }

  lemma GrantBefore(v: Rules, log: seq<Record>, e: string)
    requires Lawful(v) && Accepted(v, log) && log != [] && e in State(v, log).grantBy
    ensures var before, rec := log[..|log| - 1], log[|log| - 1];
      && Accepted(v, before)
      && (if Grants(rec, e) then State(v, log).grantBy[e] == rec.grant.value
          else e in State(v, before).grantBy && State(v, log).grantBy[e] == State(v, before).grantBy[e])
  {
    LastStep(v, log);
    GrantStep(v, State(v, log[..|log| - 1]), log[|log| - 1], e);
  }

  lemma StillLast(log: seq<Record>, i: nat, e: string)
    requires log != [] && LastGrantAt(log[..|log| - 1], i, e) && !Grants(log[|log| - 1], e)
    ensures LastGrantAt(log, i, e) && log[i] == log[..|log| - 1][i]
  {
  }

  /** The grant held for an execution is the last one recorded. */
  lemma {:induction false} GrantIsLast(v: Rules, log: seq<Record>, e: string) returns (i: nat)
    requires Lawful(v) && Accepted(v, log) && e in State(v, log).grantBy
    ensures LastGrantAt(log, i, e) && log[i].grant.value == State(v, log).grantBy[e]
    decreases |log|
  {
    GrantBefore(v, log, e);
    if Grants(log[|log| - 1], e) {
      i := |log| - 1;
    } else {
      i := GrantIsLast(v, log[..|log| - 1], e);
      StillLast(log, i, e);
    }
  }

  /** The received record of an execution is its final record in the folded state. */
  lemma FinalIff(v: Rules, log: seq<Record>, e: string)
    requires Lawful(v) && Accepted(v, log)
    ensures e in State(v, log).finalBy <==> WasReceived(log, e)
    ensures forall i: nat | ReceivedAt(log, i, e) :: e in State(v, log).finalBy && log[i] == State(v, log).finalBy[e]
  {
    var states := HistoryOf(v, log);
    if e in State(v, log).finalBy {
      var i := FinalWasReceived(v, log, e);
    }
    forall i: nat | ReceivedAt(log, i, e) ensures e in State(v, log).finalBy && log[i] == State(v, log).finalBy[e] {
      ResultHeld(v, log, states, i, |log|);
    }
  }

  lemma FinalStep(v: Rules, st: LedgerState, rec: Record, e: string)
    requires Stepped(v, st, rec) && e in StepEffect(st, rec).finalBy
    ensures if e in st.finalBy then StepEffect(st, rec).finalBy[e] == st.finalBy[e]
            else ReceivedAt([rec], 0, e) && StepEffect(st, rec).finalBy[e] == rec
  {
  }

  lemma {:induction false} FinalWasReceived(v: Rules, log: seq<Record>, e: string) returns (i: nat)
    requires Lawful(v) && Accepted(v, log) && e in State(v, log).finalBy
    ensures ReceivedAt(log, i, e) && log[i] == State(v, log).finalBy[e]
    decreases log
  {
    LastStep(v, log);
    var before, rec := log[..|log| - 1], log[|log| - 1];
    FinalStep(v, State(v, before), rec, e);
    if e in State(v, before).finalBy {
      i := FinalWasReceived(v, before, e);
    } else {
      i := |log| - 1;
    }
  }

  // ----- Current

  /** Current answers the admission of the latest attempt and the last grant recorded for it. */
  lemma CurrentAnswers(v: Rules, log: seq<Record>, e: string) returns (i: nat, k: nat)
    requires Lawful(v) && Accepted(v, log) && Latest(log, e)
    ensures LatestAt(log, i) && AdmittedAt(log, i, e) && LastGrantAt(log, k, e)
    ensures CurrentReply(v, log, e) == Reply(Some((log[i].admission.value, log[k].grant.value)), None, log)
  {
    CurrentIsLatest(v, log, e);
    i :| LatestAt(log, i) && ExecutionOf(log[i].admission.value) == e;
    assert AdmittedAt(log, i, e);
    AdmittedIff(v, log, e);
    AcceptedOk(v, log);
    k := GrantIsLast(v, log, e);
  }

  // ----- Admit

  /** What the ledger must allow for an admission: a renewal of the latest attempt, or an attempt later than it. */
  ghost predicate Admissible(log: seq<Record>, a: Admission, g: Grant) {
    var e := ExecutionOf(a);
    if WasAdmitted(log, e) then
      && Latest(log, e)
      && (forall i: nat | AdmittedAt(log, i, e) :: log[i].admission.value.taskDigest == a.taskDigest)
      && (forall k: nat | LastGrantAt(log, k, e) :: NotOlder(log[k].grant.value, g))
    else
      forall i: nat | LatestAt(log, i) && TaskOf(log[i].admission.value) == TaskOf(a) ::
        Later(log[i].admission.value, a) && SameTarget(log[i].admission.value, a)
  }

  /** An attempt is admitted to a task exactly when it is later than the latest one, on the same target. */
  lemma AdmitStepExact(v: Rules, log: seq<Record>, a: Admission)
    requires Lawful(v) && Accepted(v, log) && !WasAdmitted(log, ExecutionOf(a))
    ensures AdmitStep(State(v, log), a).Pass? <==>
            forall i: nat | LatestAt(log, i) && TaskOf(log[i].admission.value) == TaskOf(a) ::
              Later(log[i].admission.value, a) && SameTarget(log[i].admission.value, a)
  {
    var st := State(v, log);
    AcceptedOk(v, log);
    AdmittedIff(v, log, ExecutionOf(a));
    forall i: nat | LatestAt(log, i) ensures IsHeld(st, log[i].admission.value) {
      LatestIsHeld(v, log, i);
    }
    if TaskOf(a) in st.currentByTask {
      var i := HeldIsLatest(v, log, TaskOf(a));
    }
  }

  ghost predicate IsHeld(st: LedgerState, a: Admission) {
    && TaskOf(a) in st.currentByTask && st.currentByTask[TaskOf(a)] == ExecutionOf(a)
    && ExecutionOf(a) in st.admissionBy && st.admissionBy[ExecutionOf(a)] == a
  }

  lemma LatestIsHeld(v: Rules, log: seq<Record>, i: nat)
    requires Lawful(v) && Accepted(v, log) && LatestAt(log, i)
    ensures IsHeld(State(v, log), log[i].admission.value)
  {
    var e := ExecutionOf(log[i].admission.value);
    assert Latest(log, e) && AdmittedAt(log, i, e);
    CurrentIsLatest(v, log, e);
    AdmittedIff(v, log, e);
  }

  lemma HeldIsLatest(v: Rules, log: seq<Record>, task: string) returns (i: nat)
    requires Lawful(v) && Accepted(v, log) && task in State(v, log).currentByTask
    ensures LatestAt(log, i) && TaskOf(log[i].admission.value) == task
    ensures IsHeld(State(v, log), log[i].admission.value)
  {
    AcceptedOk(v, log);
    var e := State(v, log).currentByTask[task];
    CurrentIsLatest(v, log, e);
    i :| LatestAt(log, i) && ExecutionOf(log[i].admission.value) == e;
    assert AdmittedAt(log, i, e);
    AdmittedIff(v, log, e);
  }

  lemma OneLast(log: seq<Record>, i: nat, j: nat, e: string)
    requires LastGrantAt(log, i, e) && LastGrantAt(log, j, e)
    ensures i == j
  {
  }

  /** The last grant recorded is the one held. */
  lemma LastGrantHeld(v: Rules, log: seq<Record>, e: string) returns (k: nat)
    requires Lawful(v) && Accepted(v, log) && WasAdmitted(log, e)
    ensures LastGrantAt(log, k, e) && log[k].grant.value == GrantOf(State(v, log), e)
    ensures forall j: nat | LastGrantAt(log, j, e) :: j == k
  {
    AdmittedIff(v, log, e);
    AcceptedOk(v, log);
    k := GrantIsLast(v, log, e);
    forall j: nat | LastGrantAt(log, j, e) ensures j == k {
      OneLast(log, j, k, e);
    }
  }

  lemma DigestHeld(v: Rules, log: seq<Record>, e: string, digest: Sum<Task>)
    requires Lawful(v) && Accepted(v, log) && WasAdmitted(log, e)
    ensures e in State(v, log).admissionBy
    ensures State(v, log).admissionBy[e].taskDigest == digest <==>
            forall i: nat | AdmittedAt(log, i, e) :: log[i].admission.value.taskDigest == digest
  {
    AdmittedIff(v, log, e);
    var i: nat :| AdmittedAt(log, i, e);
  }

  /** What Admit asks of the folded state. */
  ghost predicate Allowed(st: LedgerState, a: Admission, g: Grant) {
    var e := ExecutionOf(a);
    if e in st.admissionBy then
      st.admissionBy[e].taskDigest == a.taskDigest && IsCurrent(st, e) && NotOlder(GrantOf(st, e), g)
    else AdmitStep(st, a).Pass?
  }

  lemma AllowedExact(v: Rules, log: seq<Record>, a: Admission, g: Grant)
    requires Lawful(v) && Accepted(v, log)
    ensures Allowed(State(v, log), a, g) <==> Admissible(log, a, g)
  {
    var e := ExecutionOf(a);
    AdmittedIff(v, log, e);
    if WasAdmitted(log, e) {
      var k := LastGrantHeld(v, log, e);
      DigestHeld(v, log, e, a.taskDigest);
      CurrentIsLatest(v, log, e);
    } else {
      AdmitStepExact(v, log, a);
    }
  }

  /** Admit by the state it folds, when the state allows the admission. */
  lemma AdmitByState(v: Rules, log: seq<Record>, a: Admission, g: Grant, now: Time)
    requires Accepted(v, log) && Admitting(v, a, g, now).Ok?
    requires Allowed(State(v, log), Admitting(v, a, g, now).value, g)
    ensures var st, frozen := State(v, log), Admitting(v, a, g, now).value; var e := ExecutionOf(frozen);
      AdmitReply(v, log, a, g, now) ==
        if e !in st.admissionBy then Reply(Some(ReferenceOf(frozen)), None, log + [GrantRecord(Admitted, frozen, g)])
        else if GrantOf(st, e) == g then Reply(Some(ReferenceOf(st.admissionBy[e])), None, log)
        else Reply(Some(ReferenceOf(st.admissionBy[e])), None, log + [GrantRecord(GrantRenewed, st.admissionBy[e], g)])
  {
  }

  /** The class of the error when the state does not. */
  ghost function Blame(st: LedgerState, a: Admission): Code {
    var e, t := ExecutionOf(a), TaskOf(a);
    if e in st.admissionBy then
      if st.admissionBy[e].taskDigest != a.taskDigest then IdentityMismatch
      else if IsCurrent(st, e) then TaskInvalid
      else StaleAssignment
    else if t in st.currentByTask && st.currentByTask[t] in st.admissionBy && Later(st.admissionBy[st.currentByTask[t]], a) then
      IdentityMismatch
    else StaleAssignment
  }

  lemma RefusalByState(v: Rules, log: seq<Record>, a: Admission, g: Grant, now: Time)
    requires Accepted(v, log) && Admitting(v, a, g, now).Ok?
    requires !Allowed(State(v, log), Admitting(v, a, g, now).value, g)
    ensures AdmitReply(v, log, a, g, now) == Refuse(Blame(State(v, log), Admitting(v, a, g, now).value), log)
  {
  }

  lemma AllowedFrozen(st: LedgerState, a: Admission, frozen: Admission, g: Grant)
    requires ReferenceOf(frozen) == ReferenceOf(a) && frozen.task.repository == a.task.repository
    ensures Allowed(st, a, g) == Allowed(st, frozen, g) && Blame(st, a) == Blame(st, frozen)
  {
    assert AdmitStep(st, a) == AdmitStep(st, frozen);
  }

  /**
   * Admit answers without an error exactly when the admission and the grant are valid and the ledger allows
   * them; it then answers their reference, and otherwise leaves the ledger as it was.
   */
  lemma AdmitExact(v: Rules, log: seq<Record>, a: Admission, g: Grant, now: Time)
    requires Lawful(v) && Accepted(v, log)
    ensures var r := AdmitReply(v, log, a, g, now);
      && (r.error.None? <==> v.admission(a).Pass? && v.grant(a, g, now).Pass? && Admissible(log, a, g))
      && (r.error.None? ==> r.value == Some(ReferenceOf(a)))
      && (r.error.Some? ==> r.value.None? && r.log == log)
  {
    AdmittingExact(v, a, g, now);
    if Admitting(v, a, g, now).Ok? {
      var frozen := Admitting(v, a, g, now).value;
      AllowedFrozen(State(v, log), a, frozen, g);
      AllowedExact(v, log, a, g);
      AcceptedOk(v, log);
      if Allowed(State(v, log), frozen, g) {
        AdmitByState(v, log, a, g, now);
        HeldReference(v, State(v, log), frozen, g);
      } else {
        RefusalByState(v, log, a, g, now);
      }
    }
  }

  /** The admission held for an execution has the reference of any valid one the state allows for it. */
  lemma HeldReference(v: Rules, st: LedgerState, a: Admission, g: Grant)
    requires Lawful(v) && StateOk(v, st) && v.admission(a).Pass? && Allowed(st, a, g)
    ensures ExecutionOf(a) in st.admissionBy ==> ReferenceOf(st.admissionBy[ExecutionOf(a)]) == ReferenceOf(a)
  {
    if ExecutionOf(a) in st.admissionBy {
      HeldIsValid(v, st, ExecutionOf(a));
      OneReference(v, st.admissionBy[ExecutionOf(a)], a);
    }
  }

  /** The refusal of a valid admission, by the state. */
  lemma RefusedByState(v: Rules, log: seq<Record>, a: Admission, g: Grant, now: Time)
    requires Lawful(v) && Accepted(v, log) && v.admission(a).Pass? && v.grant(a, g, now).Pass? && !Admissible(log, a, g)
    ensures AdmitReply(v, log, a, g, now).error == Some(Blame(State(v, log), a))
  {
    AdmittingExact(v, a, g, now);
    AllowedFrozen(State(v, log), a, Admitting(v, a, g, now).value, g);
    AllowedExact(v, log, a, g);
    RefusalByState(v, log, a, g, now);
  }

  /** Why Admit refuses a valid admission of an execution admitted before, or of a new one. */
  lemma AdmitRefusals(v: Rules, log: seq<Record>, a: Admission, g: Grant, now: Time)
    requires Lawful(v) && Accepted(v, log) && v.admission(a).Pass? && v.grant(a, g, now).Pass? && !Admissible(log, a, g)
    ensures var e, error := ExecutionOf(a), AdmitReply(v, log, a, g, now).error;
      && (forall i: nat | AdmittedAt(log, i, e) ::
            error == Some(if log[i].admission.value.taskDigest != a.taskDigest then IdentityMismatch
                          else if Latest(log, e) then TaskInvalid else StaleAssignment))
      && (!WasAdmitted(log, e) ==>
            forall i: nat | LatestAt(log, i) && TaskOf(log[i].admission.value) == TaskOf(a) ::
              error == Some(if Later(log[i].admission.value, a) then IdentityMismatch else StaleAssignment))
  {
    var e := ExecutionOf(a);
    RefusedByState(v, log, a, g, now);
    AdmittedIff(v, log, e);
    CurrentIsLatest(v, log, e);
    forall i: nat | LatestAt(log, i) ensures IsHeld(State(v, log), log[i].admission.value) {
      LatestIsHeld(v, log, i);
    }
  }

  /** One admitted record for a new execution, one renewal for a grant other than the last, nothing for the last one again. */
  lemma AdmitAppendsExactly(v: Rules, log: seq<Record>, a: Admission, g: Grant, now: Time)
    requires Lawful(v) && Accepted(v, log) && AdmitReply(v, log, a, g, now).error.None?
    ensures var after, e := AdmitReply(v, log, a, g, now).log, ExecutionOf(a);
      && v.freeze(a.task).Ok?
      && (!WasAdmitted(log, e) ==> after == log + [GrantRecord(Admitted, v.freeze(a.task).value, g)])
      && (forall k: nat | LastGrantAt(log, k, e) && log[k].grant.value == g :: WasAdmitted(log, e) ==> after == log)
      && (forall i: nat, k: nat | AdmittedAt(log, i, e) && LastGrantAt(log, k, e) && log[k].grant.value != g ::
            after == log + [GrantRecord(GrantRenewed, log[i].admission.value, g)])
  {
    var e := ExecutionOf(a);
    AdmitReplies(v, log, a, g, now);
    AdmittedIff(v, log, e);
    if WasAdmitted(log, e) {
      var k := LastGrantHeld(v, log, e);
    }
  }

  /** The state after an admission or a renewal serves the execution with the new grant. */
  lemma GrantServes(v: Rules, log: seq<Record>, kind: Kind, a: Admission, g: Grant)
    requires Accepted(v, log) && g.executionId == ExecutionOf(a)
    requires Accepted(v, log + [GrantRecord(kind, a, g)])
    requires kind.Admitted? || (kind.GrantRenewed? && IsHeld(State(v, log), a))
    ensures var after := log + [GrantRecord(kind, a, g)];
      CurrentReply(v, after, ExecutionOf(a)) == Reply(Some((a, g)), None, after)
  {
    FoldAppend(v, log, GrantRecord(kind, a, g));
  }

  /** What Admit does to a ledger that allows the admission. */
  lemma AdmitReplies(v: Rules, log: seq<Record>, a: Admission, g: Grant, now: Time)
    requires Lawful(v) && Accepted(v, log) && AdmitReply(v, log, a, g, now).error.None?
    ensures v.freeze(a.task).Ok? && g.executionId == ExecutionOf(a)
    ensures var st, e, r := State(v, log), ExecutionOf(a), AdmitReply(v, log, a, g, now);
      && r.value == Some(ReferenceOf(a))
      && (if e !in st.admissionBy then
            && ReferenceOf(v.freeze(a.task).value) == ReferenceOf(a)
            && r.log == log + [GrantRecord(Admitted, v.freeze(a.task).value, g)]
          else
            && IsCurrent(st, e) && ReferenceOf(st.admissionBy[e]) == ReferenceOf(a)
            && r.log == if GrantOf(st, e) == g then log else log + [GrantRecord(GrantRenewed, st.admissionBy[e], g)])
  {
    AdmitExact(v, log, a, g, now);
    AdmittingExact(v, a, g, now);
    var st, frozen := State(v, log), Admitting(v, a, g, now).value;
    AllowedFrozen(st, a, frozen, g);
    AllowedExact(v, log, a, g);
    AdmitByState(v, log, a, g, now);
    AcceptedOk(v, log);
    HeldReference(v, st, frozen, g);
  }

  /**
   * After a successful Admit the execution is served: Current answers an admission with the reference Admit
   * answered, the one just frozen when the execution is new, together with the grant just given.
   */
  lemma AdmitMeans(v: Rules, log: seq<Record>, a: Admission, g: Grant, now: Time) returns (adm: Admission)
    requires Lawful(v) && Accepted(v, log) && AdmitReply(v, log, a, g, now).error.None?
    ensures var r := AdmitReply(v, log, a, g, now);
      && CurrentReply(v, r.log, ExecutionOf(a)) == Reply(Some((adm, g)), None, r.log)
      && r.value == Some(ReferenceOf(adm)) && ReferenceOf(adm) == ReferenceOf(a)
    ensures !WasAdmitted(log, ExecutionOf(a)) ==> v.freeze(a.task) == Ok(adm)
    ensures forall i: nat | AdmittedAt(log, i, ExecutionOf(a)) :: adm == log[i].admission.value
  {
    var e := ExecutionOf(a);
    AdmittedIff(v, log, e);
    AdmitReplies(v, log, a, g, now);
    AdmitCloses(v, log, a, g, now);
    if WasAdmitted(log, e) {
      adm := State(v, log).admissionBy[e];
      if GrantOf(State(v, log), e) != g {
        GrantServes(v, log, GrantRenewed, adm, g);
      }
    } else {
      adm := v.freeze(a.task).value;
      GrantServes(v, log, Admitted, adm, g);
    }
  }

  // ----- Receipt

  /** The reference is that of the latest attempt of its task. */
  ghost predicate ServedAt(log: seq<Record>, i: nat, ref: Reference) {
    LatestAt(log, i) && ReferenceOf(log[i].admission.value) == ref
  }

  ghost predicate Served(log: seq<Record>, ref: Reference) { exists i: nat :: ServedAt(log, i, ref) }

  lemma HoldsExact(v: Rules, log: seq<Record>, ref: Reference)
    requires Lawful(v) && Accepted(v, log)
    ensures Holds(State(v, log), ref) <==> Served(log, ref)
    ensures forall i: nat | ServedAt(log, i, ref) ::
              Holds(State(v, log), ref) && State(v, log).admissionBy[ref.identity.executionId] == log[i].admission.value
  {
    var st := State(v, log);
    if Holds(st, ref) {
      var i := HeldIsLatest(v, log, ref.identity.taskId);
      assert ServedAt(log, i, ref);
    }
    forall i: nat | ServedAt(log, i, ref) ensures Holds(st, ref) && st.admissionBy[ref.identity.executionId] == log[i].admission.value {
      LatestIsHeld(v, log, i);
    }
  }

  /**
   * Receipt answers exactly for the latest attempt with a received result, and then the result and the
   * acknowledgement of the received record.
   */
  lemma ReceiptAnswers(v: Rules, log: seq<Record>, ref: Reference)
    requires Lawful(v) && Accepted(v, log)
    ensures var e, r := ref.identity.executionId, ReceiptReply(v, log, ref);
      && (!Served(log, ref) ==> r == Refuse(StaleAssignment, log))
      && (Served(log, ref) && !WasReceived(log, e) ==> r == Refuse(ResultInvalid, log))
      && (Served(log, ref) ==> forall i: nat | ReceivedAt(log, i, e) ::
            r == Reply(Some((log[i].result.value, log[i].acknowledgement.value)), None, log))
  {
    HoldsExact(v, log, ref);
    FinalIff(v, log, ref.identity.executionId);
  }

  // ----- Collect

  ghost predicate QuarantinedAt(log: seq<Record>, i: nat, e: string, digest: Sum<Bytes>) {
    && i < |log| && log[i].kind.Quarantined? && log[i].acknowledgement.Some?
    && log[i].acknowledgement.value.executionId == e && log[i].acknowledgement.value.resultDigest == digest
  }

  ghost predicate WasQuarantined(log: seq<Record>, e: string, digest: Sum<Bytes>) {
    exists i: nat :: QuarantinedAt(log, i, e, digest)
  }

  lemma QuarantineStep(v: Rules, st: LedgerState, rec: Record, e: string, digest: Sum<Bytes>)
    requires Stepped(v, st, rec)
    ensures (e, digest) in StepEffect(st, rec).quarantine <==> (e, digest) in st.quarantine || QuarantinedAt([rec], 0, e, digest)
  {
  }

  lemma {:induction false} QuarantineIff(v: Rules, log: seq<Record>, e: string, digest: Sum<Bytes>)
    requires Lawful(v) && Accepted(v, log)
    ensures (e, digest) in State(v, log).quarantine <==> WasQuarantined(log, e, digest)
    decreases |log|
  {
    if log != [] {
      var before, rec := log[..|log| - 1], log[|log| - 1];
      LastStep(v, log);
      QuarantineStep(v, State(v, before), rec, e, digest);
      QuarantineIff(v, before, e, digest);
      QuarantinedSplits(log, e, digest);
    }
  }

  lemma QuarantinedSplits(log: seq<Record>, e: string, digest: Sum<Bytes>)
    requires log != []
    ensures WasQuarantined(log, e, digest) <==>
            WasQuarantined(log[..|log| - 1], e, digest) || QuarantinedAt([log[|log| - 1]], 0, e, digest)
  {
    var before := log[..|log| - 1];
    if WasQuarantined(before, e, digest) {
      var i: nat :| QuarantinedAt(before, i, e, digest);
      assert QuarantinedAt(log, i, e, digest);
    }
    if QuarantinedAt([log[|log| - 1]], 0, e, digest) {
      assert QuarantinedAt(log, |log| - 1, e, digest);
    }
    if WasQuarantined(log, e, digest) {
      var i: nat :| QuarantinedAt(log, i, e, digest);
      assert i < |before| ==> QuarantinedAt(before, i, e, digest);
    }
  }

  /** The delivery is readable, from the admitted host, and its result is valid for the admission. */
  ghost predicate Fit(v: Rules, adm: Admission, d: Delivery, peer: Peer) {
    v.peer(adm, peer) && d.raw.Ok? && d.decoded.Ok? && v.result(adm, d.decoded.value, peer).Pass?
  }

  function AckOf(state: Kind, ref: Reference, raw: Bytes): Acknowledgement {
    Acknowledgement(state, ref.identity.executionId, ref.taskDigest, Sum(raw))
  }

  /** A delivery that is not fit for the latest attempt, or to another execution, leaves nothing behind. */
  lemma UnfitIsRefused(v: Rules, log: seq<Record>, ref: Reference, d: Delivery, peer: Peer)
    requires Lawful(v) && Accepted(v, log)
    requires forall i: nat | ServedAt(log, i, ref) :: !Fit(v, log[i].admission.value, d, peer)
    ensures CollectReply(v, log, ref, d, peer).value.None? && CollectReply(v, log, ref, d, peer).error.Some?
    ensures CollectReply(v, log, ref, d, peer).log == log
  {
    HoldsExact(v, log, ref);
  }

  /** The first fit delivery to an attempt is received, with its artifacts, and one record tells it. */
  lemma FirstIsReceived(v: Rules, log: seq<Record>, ref: Reference, d: Delivery, peer: Peer, i: nat)
    requires Lawful(v) && Accepted(v, log) && ServedAt(log, i, ref) && Fit(v, log[i].admission.value, d, peer)
    requires !WasReceived(log, ref.identity.executionId)
    ensures CollectReply(v, log, ref, d, peer) ==
            if d.artifacts.Fail? then Refuse(d.artifacts.code, log)
            else Reply(Some(AckOf(Received, ref, d.raw.value)), None,
                       log + [ResultRecord(d.decoded.value, AckOf(Received, ref, d.raw.value))])
  {
    HoldsExact(v, log, ref);
    FinalIff(v, log, ref.identity.executionId);
  }

  /** A later fit delivery is acknowledged as the first was when the bytes are the same, and conflicts otherwise. */
  lemma LaterIsCompared(v: Rules, log: seq<Record>, ref: Reference, d: Delivery, peer: Peer, i: nat, j: nat)
    requires Lawful(v) && Accepted(v, log) && ServedAt(log, i, ref) && Fit(v, log[i].admission.value, d, peer)
    requires ReceivedAt(log, j, ref.identity.executionId)
    ensures var ack, e := log[j].acknowledgement.value, ref.identity.executionId;
      CollectReply(v, log, ref, d, peer) ==
        if ack.resultDigest == Sum(d.raw.value) then Reply(Some(ack), None, log)
        else Reply(Some(AckOf(Quarantined, ref, d.raw.value)), Some(ResultConflict),
                   if WasQuarantined(log, e, Sum(d.raw.value)) then log
                   else log + [ResultRecord(d.decoded.value, AckOf(Quarantined, ref, d.raw.value))])
  {
    HoldsExact(v, log, ref);
    FinalIff(v, log, ref.identity.executionId);
    QuarantineIff(v, log, ref.identity.executionId, Sum(d.raw.value));
  }

  // ----- Collect, then Receipt

  /** What the strict decoder makes of the bytes of a result. */
  type Decoder = Bytes -> Option<TaskResult>

  ghost predicate DecodedOf(dec: Decoder, rec: Record) {
    rec.kind.Received? && rec.result.Some? && rec.acknowledgement.Some? && rec.acknowledgement.value.resultDigest.Sum? ==>
      dec(rec.acknowledgement.value.resultDigest.preimage) == rec.result
  }

  /** Every received record holds the decoding of the bytes its digest is of. */
  ghost predicate AllDecoded(dec: Decoder, log: seq<Record>) { forall rec | rec in log :: DecodedOf(dec, rec) }

  /** A delivery that decodes, decodes to what the decoder makes of its bytes. */
  ghost predicate DecodedBy(dec: Decoder, d: Delivery) {
    d.raw.Ok? && d.decoded.Ok? ==> dec(d.raw.value) == Some(d.decoded.value)
  }

  lemma CallDecodes(v: Rules, dec: Decoder, log: seq<Record>, call: Call)
    requires AllDecoded(dec, log) && (call.Collect? ==> DecodedBy(dec, call.delivery))
    ensures AllDecoded(dec, After(v, log, call))
  {
  }

  lemma {:induction false} RunDecodes(v: Rules, dec: Decoder, log: seq<Record>, calls: seq<Call>)
    requires AllDecoded(dec, log) && forall call | call in calls && call.Collect? :: DecodedBy(dec, call.delivery)
    ensures AllDecoded(dec, Run(v, log, calls))
    decreases calls
  {
    if calls != [] {
      CallDecodes(v, dec, log, calls[0]);
      RunDecodes(v, dec, After(v, log, calls[0]), calls[1..]);
    }
  }

  /** A Collect without an error was of a fit delivery to the latest attempt, and of the received bytes where there are any. */
  lemma CollectedFit(v: Rules, log: seq<Record>, ref: Reference, d: Delivery, peer: Peer) returns (i: nat)
    requires Lawful(v) && Accepted(v, log) && CollectReply(v, log, ref, d, peer).error.None?
    ensures ServedAt(log, i, ref) && Fit(v, log[i].admission.value, d, peer)
  {
    if forall i: nat | ServedAt(log, i, ref) :: !Fit(v, log[i].admission.value, d, peer) {
      UnfitIsRefused(v, log, ref, d, peer);
    }
    i :| ServedAt(log, i, ref) && Fit(v, log[i].admission.value, d, peer);
  }

  lemma ServedStays(log: seq<Record>, rec: Record, i: nat, ref: Reference)
    requires ServedAt(log, i, ref) && !IsAdmit(rec)
    ensures ServedAt(log + [rec], i, ref)
  {
  }

  /** The acknowledgement of a received record of the latest attempt. */
  lemma ReceivedAck(v: Rules, log: seq<Record>, ref: Reference, i: nat)
    requires Lawful(v) && Accepted(v, log) && Served(log, ref) && ReceivedAt(log, i, ref.identity.executionId)
    ensures var ack := log[i].acknowledgement.value;
      ack.state.Received? && ack.executionId == ref.identity.executionId && ack.taskDigest == ref.taskDigest
  {
    HoldsExact(v, log, ref);
    FinalIff(v, log, ref.identity.executionId);
    AcceptedOk(v, log);
    assert FinalOk(State(v, log).admissionBy, ref.identity.executionId, log[i]);
  }

  /** Where Collect answers without an error, the ledger it leaves has the received record of the delivered bytes. */
  lemma CollectLeaves(v: Rules, dec: Decoder, log: seq<Record>, ref: Reference, d: Delivery, peer: Peer) returns (j: nat)
    requires Lawful(v) && Accepted(v, log) && AllDecoded(dec, log) && DecodedBy(dec, d)
    requires CollectReply(v, log, ref, d, peer).error.None?
    ensures d.raw.Ok? && d.decoded.Ok?
    ensures var r, ack := CollectReply(v, log, ref, d, peer), AckOf(Received, ref, d.raw.value);
      && r.value == Some(ack) && Served(r.log, ref)
      && ReceivedAt(r.log, j, ref.identity.executionId)
      && r.log[j].result.value == d.decoded.value && r.log[j].acknowledgement.value == ack
  {
    var e := ref.identity.executionId;
    var i := CollectedFit(v, log, ref, d, peer);
    if WasReceived(log, e) {
      j :| ReceivedAt(log, j, e);
      LaterIsCompared(v, log, ref, d, peer, i, j);
      ReceivedAck(v, log, ref, j);
      assert log[j] in log;
    } else {
      var rec := ResultRecord(d.decoded.value, AckOf(Received, ref, d.raw.value));
      FirstIsReceived(v, log, ref, d, peer, i);
      FitIsOfExecution(v, log, i, ref, d, peer);
      ServedStays(log, rec, i, ref);
      j := |log|;
      assert (log + [rec])[j] == rec;
    }
  }

  lemma FitIsOfExecution(v: Rules, log: seq<Record>, i: nat, ref: Reference, d: Delivery, peer: Peer)
    requires Lawful(v) && ServedAt(log, i, ref) && Fit(v, log[i].admission.value, d, peer)
    ensures d.decoded.value.identity == ref.identity
  {
  }

  /**
   * After a Collect that answers without an error, Receipt answers the delivered result and the
   * acknowledgement Collect answered, which names the execution, its task and the delivered bytes.
   */
  lemma CollectThenReceipt(v: Rules, dec: Decoder, log: seq<Record>, ref: Reference, d: Delivery, peer: Peer)
    requires Lawful(v) && Accepted(v, log) && AllDecoded(dec, log) && DecodedBy(dec, d)
    requires CollectReply(v, log, ref, d, peer).error.None?
    ensures d.raw.Ok? && d.decoded.Ok?
    ensures var r, ack := CollectReply(v, log, ref, d, peer), AckOf(Received, ref, d.raw.value);
      && r.value == Some(ack)
      && ReceiptReply(v, r.log, ref) == Reply(Some((d.decoded.value, ack)), None, r.log)
  {
    var j := CollectLeaves(v, dec, log, ref, d, peer);
    CollectCloses(v, log, ref, d, peer);
    ReceiptAnswers(v, CollectReply(v, log, ref, d, peer).log, ref);
  }

  /** The same for the executor package, after any calls from the empty ledger. */
  lemma ExecutorCollectTells(dec: Decoder, calls: seq<Call>, ref: Reference, d: Delivery, peer: Peer)
    requires DecodedBy(dec, d) && forall call | call in calls && call.Collect? :: DecodedBy(dec, call.delivery)
    ensures var v := ExecutorRules(); var log := Run(v, [], calls); var r := CollectReply(v, log, ref, d, peer);
      r.error.None? ==>
        && d.raw.Ok? && d.decoded.Ok? && r.value == Some(AckOf(Received, ref, d.raw.value))
        && ReceiptReply(v, r.log, ref) == Reply(Some((d.decoded.value, r.value.value)), None, r.log)
  {
    var v := ExecutorRules();
    var log := Run(v, [], calls);
    ExecutorRulesLawful();
    ReplayCloses(v, [], calls);
    RunDecodes(v, dec, [], calls);
    if CollectReply(v, log, ref, d, peer).error.None? {
      CollectThenReceipt(v, dec, log, ref, d, peer);
    }
  }
}
