/**
 * The executor registry (internal/executor/registry.go): an append-only ledger that every operation
 * replays before it appends at most one record.
 */
module Registry {
  import opened Common
  import opened Envelope
  import opened Validation

  /** The kinds of record, and the states of an acknowledgement that share their spelling. */
  datatype Kind = Admitted | GrantRenewed | Received | Quarantined | OtherKind(text: string)

  /**
   * The validators a registry runs on. Its theorems need only the laws in RegistryRuns.Lawful;
   * ExecutorRules names the validators of the executor package, which obey them.
   */
  datatype Rules = Rules(
    admission: Admission -> Verdict,
    grant: (Admission, Grant, Time) -> Verdict,
    result: (Admission, TaskResult, Peer) -> Verdict,
    peer: (Admission, Peer) -> bool,
    freeze: Task -> Outcome<Admission>)

  function ExecutorRules(): Rules { Rules(ValidateAdmission, ValidateGrant, ValidateResult, PeerOk, Freeze) }

  datatype Acknowledgement = Acknowledgement(
    state: Kind, executionId: string, taskDigest: Sum<Task>, resultDigest: Sum<Bytes>)

  datatype Record = Record(
    kind: Kind, admission: Option<Admission>, grant: Option<Grant>,
    result: Option<TaskResult>, acknowledgement: Option<Acknowledgement>)

  function GrantRecord(kind: Kind, a: Admission, g: Grant): Record { Record(kind, Some(a), Some(g), None, None) }

  function ResultRecord(r: TaskResult, ack: Acknowledgement): Record { Record(ack.state, None, None, Some(r), Some(ack)) }

  /** ledgerState. A quarantine key joins an execution id, which holds no NUL, and a digest with a NUL. */
  datatype LedgerState = LedgerState(
    currentByTask: map<string, string>,
    admissionBy: map<string, Admission>,
    grantBy: map<string, Grant>,
    finalBy: map<string, Record>,
    quarantine: map<(string, Sum<Bytes>), Record>)

  const EMPTY := LedgerState(map[], map[], map[], map[], map[])

  /** A Go map read: the zero value for a missing key. */
  function GrantOf(st: LedgerState, executionId: string): Grant {
    if executionId in st.grantBy then st.grantBy[executionId] else Grant("", 0, "", 0, 0)
  }

  predicate CurrentIn(admissions: map<string, Admission>, current: map<string, string>, executionId: string) {
    && executionId in admissions
    && var taskId := admissions[executionId].task.identity.taskId;
       taskId in current && current[taskId] == executionId
  }

  /** The execution is the current attempt of its task. */
  predicate IsCurrent(st: LedgerState, executionId: string) {
    CurrentIn(st.admissionBy, st.currentByTask, executionId)
  }

  /** What a task keeps from one attempt to the next. */
  predicate SameTarget(a: Admission, b: Admission) {
    && a.task.identity.plan == b.task.identity.plan && a.task.identity.node == b.task.identity.node
    && a.task.repository.forge == b.task.repository.forge && a.task.repository.id == b.task.repository.id
  }

  predicate Later(a: Admission, b: Admission) {
    a.task.identity.attempt < b.task.identity.attempt && a.task.identity.generation < b.task.identity.generation
  }

  function AdmitStep(st: LedgerState, frozen: Admission): Verdict {
    var id := frozen.task.identity;
    if id.executionId in st.admissionBy then Fail(IdentityMismatch)
    else if id.taskId in st.currentByTask && st.currentByTask[id.taskId] in st.admissionBy then
      var held := st.admissionBy[st.currentByTask[id.taskId]];
      if !Later(held, frozen) then Fail(StaleAssignment)
      else if !SameTarget(held, frozen) then Fail(IdentityMismatch)
      else Pass
    else Pass
  }

  datatype Renewal = Same | Newer | Older

  function RenewStep(last: Grant, g: Grant): Renewal {
    if last == g then Same
    else if g.ownerEpoch < last.ownerEpoch || (g.ownerEpoch == last.ownerEpoch && g.owner != last.owner)
            || g.expiresAt < last.expiresAt
    then Older
    else Newer
  }

  predicate Renewable(st: LedgerState, a: Admission) {
    var id := a.task.identity;
    && id.executionId in st.admissionBy
    && ReferenceOf(st.admissionBy[id.executionId]) == ReferenceOf(a)
    && id.taskId in st.currentByTask && st.currentByTask[id.taskId] == id.executionId
  }

  /** The checks of a grant record, in the order foldRecords makes them. */
  function GrantVerdict(v: Rules, st: LedgerState, renewed: bool, a: Admission, g: Grant): Verdict {
    var granted := v.grant(a, g, 0);
    if granted.Fail? then granted
    else if !renewed then AdmitStep(st, a)
    else if !Renewable(st, a) then Fail(StaleAssignment)
    else if RenewStep(GrantOf(st, a.task.identity.executionId), g).Older? then Fail(TaskInvalid)
    else Pass
  }

  function AdmitEffect(st: LedgerState, a: Admission): LedgerState {
    var id := a.task.identity;
    st.(admissionBy := st.admissionBy[id.executionId := a],
        currentByTask := st.currentByTask[id.taskId := id.executionId])
  }

  function GrantEffect(st: LedgerState, g: Grant): LedgerState {
    st.(grantBy := st.grantBy[g.executionId := g])
  }

  function PeerOf(a: Admission): Peer { Peer(a.task.executor.hostId, a.task.executor.incarnation) }

  function DigestOf(rec: Record): Option<Sum<Bytes>> {
    if rec.acknowledgement.None? then None else Some(rec.acknowledgement.value.resultDigest)
  }

  /** The checks of a result record, in the order foldRecords makes them. */
  function ResultVerdict(v: Rules, st: LedgerState, kind: Kind, r: TaskResult, ack: Acknowledgement): Verdict {
    var id := r.identity.executionId;
    if !IsCurrent(st, id) then Fail(StaleAssignment)
    else
      var adm := st.admissionBy[id];
      var valid := v.result(adm, r, PeerOf(adm));
      if valid.Fail? then valid
      else if ack.state != kind || ack.executionId != id || ack.taskDigest != adm.taskDigest || ack.resultDigest.NotHex?
      then Fail(ResultInvalid)
      else if kind.Received? then (if id in st.finalBy then Fail(ResultInvalid) else Pass)
      else if id !in st.finalBy then Fail(ResultInvalid)
      else if DigestOf(st.finalBy[id]) == Some(ack.resultDigest) then Fail(ResultConflict)
      else if (id, ack.resultDigest) in st.quarantine then Fail(ResultInvalid)
      else Pass
  }

  function ResultEffect(st: LedgerState, rec: Record, ack: Acknowledgement): LedgerState {
    if rec.kind.Received? then st.(finalBy := st.finalBy[ack.executionId := rec])
    else st.(quarantine := st.quarantine[(ack.executionId, ack.resultDigest) := rec])
  }

  function StepVerdict(v: Rules, st: LedgerState, rec: Record): Verdict {
    match rec.kind
    case Admitted | GrantRenewed =>
      if rec.admission.None? || rec.grant.None? || rec.result.Some? || rec.acknowledgement.Some? then Fail(TaskInvalid)
      else GrantVerdict(v, st, rec.kind.GrantRenewed?, rec.admission.value, rec.grant.value)
    case Received | Quarantined =>
      if rec.result.None? || rec.acknowledgement.None? || rec.admission.Some? || rec.grant.Some? then Fail(ResultInvalid)
      else ResultVerdict(v, st, rec.kind, rec.result.value, rec.acknowledgement.value)
    case OtherKind(_) => Fail(TaskInvalid)
  }

  function StepEffect(st: LedgerState, rec: Record): LedgerState {
    if rec.kind.Admitted? && rec.admission.Some? && rec.grant.Some? then
      GrantEffect(AdmitEffect(st, rec.admission.value), rec.grant.value)
    else if rec.kind.GrantRenewed? && rec.grant.Some? then GrantEffect(st, rec.grant.value)
    else if rec.acknowledgement.Some? then ResultEffect(st, rec, rec.acknowledgement.value)
    else st
  }

  /** One turn of the loop of foldRecords. */
  function Step(v: Rules, st: LedgerState, rec: Record): Outcome<LedgerState> {
    match StepVerdict(v, st, rec)
    case Fail(code) => Err(code)
    case Pass => Ok(StepEffect(st, rec))
  }

  function FoldFrom(v: Rules, st: LedgerState, records: seq<Record>): Outcome<LedgerState>
    decreases records
  {
    if records == [] then Ok(st)
    else
      match Step(v, st, records[0])
      case Err(code) => Err(code)
      case Ok(next) => FoldFrom(v, next, records[1..])
  }

  function Fold(v: Rules, records: seq<Record>): Outcome<LedgerState> { FoldFrom(v, EMPTY, records) }

  /** What an operation answers and the ledger it leaves. A quarantine answers both a value and an error. */
  datatype Reply<+T> = Reply(value: Option<T>, error: Option<Code>, log: seq<Record>)

  function Refuse<T>(code: Code, log: seq<Record>): Reply<T> { Reply(None, Some(code), log) }

  function AdmitReply(v: Rules, log: seq<Record>, a: Admission, g: Grant, now: Time): Reply<Reference> {
    match Admitting(v, a, g, now)
    case Err(code) => Refuse(code, log)
    case Ok(frozen) =>
      match Fold(v, log)
      case Err(code) => Refuse(code, log)
      case Ok(st) =>
        var id := frozen.task.identity;
        if id.executionId in st.admissionBy then
          var existing := st.admissionBy[id.executionId];
          if existing.taskDigest != frozen.taskDigest then Refuse(IdentityMismatch, log)
          else if !IsCurrent(st, id.executionId) then Refuse(StaleAssignment, log)
          else
            match RenewStep(GrantOf(st, id.executionId), g)
            case Older => Refuse(TaskInvalid, log)
            case Same => Reply(Some(ReferenceOf(existing)), None, log)
            case Newer => Reply(Some(ReferenceOf(existing)), None, log + [GrantRecord(GrantRenewed, existing, g)])
        else
          match AdmitStep(st, frozen)
          case Fail(code) => Refuse(code, log)
          case Pass => Reply(Some(ReferenceOf(frozen)), None, log + [GrantRecord(Admitted, frozen, g)])
  }

  /** The checks Admit makes before it reads the ledger. */
  function Admitting(v: Rules, a: Admission, g: Grant, now: Time): Outcome<Admission> {
    var admission, grant := v.admission(a), v.grant(a, g, now);
    if admission.Fail? then Err(admission.code)
    else if grant.Fail? then Err(grant.code)
    else v.freeze(a.task)
  }

  function CurrentReply(v: Rules, log: seq<Record>, executionId: string): Reply<(Admission, Grant)> {
    match Fold(v, log)
    case Err(code) => Refuse(code, log)
    case Ok(st) =>
      if !IsCurrent(st, executionId) then Refuse(StaleAssignment, log)
      else Reply(Some((st.admissionBy[executionId], GrantOf(st, executionId))), None, log)
  }

  /** currentAdmission. */
  predicate Holds(st: LedgerState, ref: Reference) {
    && ref.identity.executionId in st.admissionBy
    && ReferenceOf(st.admissionBy[ref.identity.executionId]) == ref
    && IsCurrent(st, ref.identity.executionId)
  }

  /** What the spool gave for a delivery: the bytes of the result file, their strict decoding, and the verdict on the artifacts. */
  datatype Delivery = Delivery(raw: Outcome<Bytes>, decoded: Outcome<TaskResult>, artifacts: Verdict)

  /** The checks before the result file is read, and the read. */
  function ReadResult(path: string, limits: Limits, file: Outcome<Bytes>): Outcome<Bytes> {
    if !LimitsOk(limits) || !ValidArtifactPath(path) then Err(SchemaInvalid) else file
  }

  function CollectReply(v: Rules, log: seq<Record>, ref: Reference, d: Delivery, peer: Peer): Reply<Acknowledgement> {
    match Fold(v, log)
    case Err(code) => Refuse(code, log)
    case Ok(st) =>
      if !Holds(st, ref) then Refuse(StaleAssignment, log)
      else
        match Collected(v, st, ref, d, peer)
        case Refused(code) => Refuse(code, log)
        case Known(ack) => Reply(Some(ack), None, log)
        case Conflict(ack, None) => Reply(Some(ack), Some(ResultConflict), log)
        case Conflict(ack, Some(rec)) => Reply(Some(ack), Some(ResultConflict), log + [rec])
        case Fresh(ack, rec) => Reply(Some(ack), None, log + [rec])
  }

  /** What a delivery to the current execution comes to. */
  datatype Collection =
    | Refused(code: Code)
    | Known(ack: Acknowledgement)
    | Conflict(ack: Acknowledgement, appended: Option<Record>)
    | Fresh(ack: Acknowledgement, rec: Record)

  function Collected(v: Rules, st: LedgerState, ref: Reference, d: Delivery, peer: Peer): Collection
    requires Holds(st, ref)
  {
    var id := ref.identity.executionId;
    var adm := st.admissionBy[id];
    if !v.peer(adm, peer) then Refused(HostMismatch)
    else if d.raw.Err? then Refused(d.raw.code)
    else if d.decoded.Err? then Refused(d.decoded.code)
    else
      var verdict := v.result(adm, d.decoded.value, peer);
      var received := Acknowledgement(Received, id, ref.taskDigest, Sum(d.raw.value));
      if verdict.Fail? then Refused(verdict.code)
      else if id in st.finalBy then
        if DigestOf(st.finalBy[id]) == Some(received.resultDigest) then Known(st.finalBy[id].acknowledgement.value)
        else
          var quarantined := received.(state := Quarantined);
          Conflict(quarantined,
            if (id, received.resultDigest) in st.quarantine then None else Some(ResultRecord(d.decoded.value, quarantined)))
      else if d.artifacts.Fail? then Refused(d.artifacts.code)
      else Fresh(received, ResultRecord(d.decoded.value, received))
  }

  function ReceiptReply(v: Rules, log: seq<Record>, ref: Reference): Reply<(TaskResult, Acknowledgement)> {
    match Fold(v, log)
    case Err(code) => Refuse(code, log)
    case Ok(st) =>
      var id := ref.identity.executionId;
      if !Holds(st, ref) then Refuse(StaleAssignment, log)
      else if id !in st.finalBy then Refuse(ResultInvalid, log)
      else
        var final := st.finalBy[id];
        if final.result.None? || final.acknowledgement.None? then Refuse(ResultInvalid, log)
        else Reply(Some((final.result.value, final.acknowledgement.value)), None, log)
  }

  datatype Call =
    | Admit(a: Admission, g: Grant, now: Time)
    | Current(executionId: string)
    | Collect(ref: Reference, delivery: Delivery, peer: Peer)
    | Receipt(ref: Reference)

  /** The ledger a call leaves. */
  function After(v: Rules, log: seq<Record>, call: Call): seq<Record> {
    match call
    case Admit(a, g, now) => AdmitReply(v, log, a, g, now).log
    case Current(executionId) => CurrentReply(v, log, executionId).log
    case Collect(ref, d, peer) => CollectReply(v, log, ref, d, peer).log
    case Receipt(ref) => ReceiptReply(v, log, ref).log
  }

  function Run(v: Rules, log: seq<Record>, calls: seq<Call>): seq<Record>
    decreases calls
  {
    if calls == [] then log else Run(v, After(v, log, calls[0]), calls[1..])
  }

  /** foldRecords. */
  method FoldRecords(v: Rules, records: seq<Record>) returns (folded: Outcome<LedgerState>)
    ensures folded == Fold(v, records)
  {
    var st := EMPTY;
    for i := 0 to |records|
      invariant Fold(v, records) == FoldFrom(v, st, records[i..])
    {
      var next := Step(v, st, records[i]);
      assert records[i..][1..] == records[i + 1..];
      if next.Err? {
        return Err(next.code);
      }
      st := next.value;
    }
    return Ok(st);
  }

  /** A registry over a memory ledger, whose records are only ever appended to. */
  class Registry {
    const rules: Rules
    var records: seq<Record>

    constructor (rules: Rules)
      ensures records == [] && this.rules == rules
    {
      this.rules := rules;
      records := [];
    }

    method Admit(a: Admission, g: Grant, now: Time) returns (reply: Option<Reference>, error: Option<Code>)
      modifies this
      ensures Reply(reply, error, records) == AdmitReply(rules, old(records), a, g, now)
    {
      var admitting := Admitting(rules, a, g, now);
      if admitting.Err? {
        return None, Some(admitting.code);
      }
      var frozen, id := admitting.value, admitting.value.task.identity;
      var folded := FoldRecords(rules, records);
      if folded.Err? {
        return None, Some(folded.code);
      }
      var st := folded.value;
      if id.executionId in st.admissionBy {
        var existing := st.admissionBy[id.executionId];
        if existing.taskDigest != frozen.taskDigest {
          return None, Some(IdentityMismatch);
        }
        if !IsCurrent(st, id.executionId) {
          return None, Some(StaleAssignment);
        }
        var renewal := RenewStep(GrantOf(st, id.executionId), g);
        if renewal.Older? {
          return None, Some(TaskInvalid);
        }
        if renewal.Newer? {
          records := records + [GrantRecord(GrantRenewed, existing, g)];
        }
        return Some(ReferenceOf(existing)), None;
      }
      var admitted := AdmitStep(st, frozen);
      if admitted.Fail? {
        return None, Some(admitted.code);
      }
      records := records + [GrantRecord(Admitted, frozen, g)];
      return Some(ReferenceOf(frozen)), None;
    }

    method Collect(ref: Reference, path: string, file: Outcome<Bytes>, decoded: Outcome<TaskResult>, artifacts: Verdict,
                   peer: Peer, limits: Limits)
      returns (reply: Option<Acknowledgement>, error: Option<Code>)
      modifies this
      ensures Reply(reply, error, records)
           == CollectReply(rules, old(records), ref, Delivery(ReadResult(path, limits, file), decoded, artifacts), peer)
    {
      var folded := FoldRecords(rules, records);
      if folded.Err? {
        return None, Some(folded.code);
      }
      var st, id := folded.value, ref.identity.executionId;
      if !Holds(st, ref) {
        return None, Some(StaleAssignment);
      }
      var adm := st.admissionBy[id];
      if !rules.peer(adm, peer) {
        return None, Some(HostMismatch);
      }
      var raw := ReadResult(path, limits, file);
      if raw.Err? {
        return None, Some(raw.code);
      }
      if decoded.Err? {
        return None, Some(decoded.code);
      }
      var verdict := rules.result(adm, decoded.value, peer);
      if verdict.Fail? {
        return None, Some(verdict.code);
      }
      var candidate := Acknowledgement(Received, id, ref.taskDigest, Sum(raw.value));
      if id in st.finalBy {
        if DigestOf(st.finalBy[id]) == Some(candidate.resultDigest) {
          return Some(st.finalBy[id].acknowledgement.value), None;
        }
        var quarantined := candidate.(state := Quarantined);
        if (id, candidate.resultDigest) !in st.quarantine {
          records := records + [ResultRecord(decoded.value, quarantined)];
        }
        return Some(quarantined), Some(ResultConflict);
      }
      if artifacts.Fail? {
        return None, Some(artifacts.code);
      }
      records := records + [ResultRecord(decoded.value, candidate)];
      return Some(candidate), None;
    }

    method Current(executionId: string) returns (reply: Option<(Admission, Grant)>, error: Option<Code>)
      ensures Reply(reply, error, records) == CurrentReply(rules, records, executionId)
    {
      var folded := FoldRecords(rules, records);
      if folded.Err? {
        return None, Some(folded.code);
      }
      var st := folded.value;
      if !IsCurrent(st, executionId) {
        return None, Some(StaleAssignment);
      }
      return Some((st.admissionBy[executionId], GrantOf(st, executionId))), None;
    }

    method Receipt(ref: Reference) returns (reply: Option<(TaskResult, Acknowledgement)>, error: Option<Code>)
      ensures Reply(reply, error, records) == ReceiptReply(rules, records, ref)
    {
      var folded := FoldRecords(rules, records);
      if folded.Err? {
        return None, Some(folded.code);
      }
      var st, id := folded.value, ref.identity.executionId;
      if !Holds(st, ref) {
        return None, Some(StaleAssignment);
      }
      if id !in st.finalBy || st.finalBy[id].result.None? || st.finalBy[id].acknowledgement.None? {
        return None, Some(ResultInvalid);
      }
      return Some((st.finalBy[id].result.value, st.finalBy[id].acknowledgement.value)), None;
    }
  }
}
