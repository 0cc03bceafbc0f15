/**
 * The bridge's mutation protocol (internal/bridge/bridge.go, create.go) over its ledger (internal/bridge/ledger)
 * as a state machine. Calls interleave at the granularity of ledger transactions and frames, as calls of separate
 * processes on one ledger do; any of them may be killed between two steps.
 */
module Bridge {
  import opened Common

  type Id = string
  type Pid = nat
  type Effect = string

  // ----- what a call is fingerprinted by

  /** The params of a create_thread, its other members abbreviated to one text, or those of another operation. */
  datatype Params = CreateParams(cwd: string, prompt: Option<string>, rest: string) | OtherParams(text: string)

  /** The digest of the operation and its params: equal exactly when both are. */
  datatype Fingerprint = Fingerprint(operation: string, params: Params)

  const CREATE := "create_thread"

  /** `resolved` is the cwd with its symbolic links followed, when it resolves. */
  datatype Call =
    | CreateThread(id: Id, cwd: string, prompt: string, rest: string, promptRequired: bool, resolved: Option<string>)
    | OtherCall(id: Id, operation: string, text: string)
  {
    function Operation(): string { if CreateThread? then CREATE else operation }

    /** createThreadParams: no prompt is stored as null. */
    function Args(): Params { if CreateThread? then ArgsAt(cwd) else OtherParams(text) }

    function ArgsAt(cwd: string): Params
      requires CreateThread?
    {
      CreateParams(cwd, if prompt == "" then None else Some(prompt), rest)
    }

    /** The params of a version-1 fingerprint of the same call. */
    function Legacy(): Option<Params> {
      if OtherCall? then None else Some(ArgsAt(if resolved.None? then cwd else resolved.value))
    }

    function WithoutPrompt(): Call {
      if CreateThread? then this.(prompt := "") else this
    }

    /** A create_thread that must bring a prompt and brings none. */
    predicate Promptless() { CreateThread? && promptRequired && prompt == "" }

    predicate MustPrompt() { CreateThread? && promptRequired }
  }

  // ----- the ledger

  datatype Status = InProgress | Accepted | Failed | NotAttempted | OutcomeUnknown

  /** An error text: one that starts with the words of RetiredBeforePrompt, and the error it names after them, or any other. */
  datatype Message = Plain(text: string) | Retired(ended: Option<Message>)

  datatype Prior = Prior(status: Status, error: Option<Message>)

  /** A receipt; `body` stands for the members the operations fill in. */
  datatype Receipt = Receipt(
    operation: string, status: Status, error: Option<Message>, version: nat, attempt: nat, prior: seq<Prior>,
    effects: seq<Effect>, body: string)

  /** A row, with the attempt that last wrote it as a history variable. */
  datatype Row = Row(fingerprint: Fingerprint, receipt: Receipt, author: Option<Pid>)

  const PRIOR_ATTEMPTS_KEPT := 5

  predicate CheckRequestID(id: Id) { 1 <= |id| <= 128 }

  /** agrees: the row belongs to a call with these arguments. */
  predicate Agrees(call: Call, row: Row) {
    || row.fingerprint == Fingerprint(call.Operation(), call.Args())
    || (row.receipt.version == 1 && call.Legacy().Some? && row.fingerprint == Fingerprint(call.Operation(), call.Legacy().value))
  }

  /** retiredBeforePrompt. */
  predicate RetiredBeforePrompt(r: Receipt) { r.status.Failed? && r.error.Some? && r.error.value.Retired? }

  function FreshReceipt(call: Call): Receipt {
    Receipt(call.Operation(), InProgress, None, 2, 1, [], [], "")
  }

  /** The receipt of a second attempt on a row that was not attempted. */
  function RetryReceipt(call: Call, previous: Receipt): Receipt {
    FreshReceipt(call).(attempt := previous.attempt + 1, prior := LastKept(previous.prior + [Prior(previous.status, previous.error)]))
  }

  function LastKept(prior: seq<Prior>): seq<Prior> {
    if |prior| > PRIOR_ATTEMPTS_KEPT then prior[|prior| - PRIOR_ATTEMPTS_KEPT..] else prior
  }

  /** What Retire writes. */
  function RetiredReceipt(previous: Receipt): Receipt {
    previous.(status := Failed, error := Some(Retired(previous.error)))
  }

  /** What CreateThreadReservation answers. */
  datatype Reservation = NoRow | Effectful | Promptless | OtherArguments | OtherOperation

  function CreateThreadReservation(rows: map<Id, Row>, call: Call): Reservation {
    if call.id !in rows then NoRow
    else
      var row := rows[call.id];
      if row.receipt.operation != CREATE then OtherOperation
      else if !row.receipt.status.NotAttempted? then Effectful
      else if Agrees(call.WithoutPrompt(), row) then Promptless
      else OtherArguments
  }

  // ----- the calls

  datatype Reply =
    | Replayed(receipt: Receipt)
    | Settled(receipt: Receipt)
    | Conflict
    | PromptRequired
    | WasRetired
    | Refused

  /** How an action ended. */
  datatype Ending = Success | RpcError(why: Message) | LocalError(why: Message) | GitError(why: Message) | OtherError(why: Message)

  datatype PC =
    | Looking
    | Validating
    | Beginning
    | Acting(receipt: Receipt)
    | Sending(receipt: Receipt, effect: Effect)
    | Saving(receipt: Receipt)
    | Annotating(receipt: Receipt)
    | Retiring
    | Done(reply: Reply)
    | Dead

  /** A call; whether it began an attempt, the effects it tracked, those it tried and how its action ended are history. */
  datatype Proc = Proc(call: Call, pc: PC, begun: bool, effects: seq<Effect>, sent: seq<Effect>, ending: Option<Ending>)

  datatype System = System(rows: map<Id, Row>, procs: map<Pid, Proc>, retired: seq<Id>)

  const Initial: System := System(map[], map[], [])

  /** A transaction may fail, and a failed one may still have been written. */
  datatype Tx = Tx(ok: bool, wrote: bool)

  datatype Action =
    | Spawn(p: Pid, call: Call)
    | Import(id: Id, row: Row)
    | Crash(p: Pid)
    | Look(p: Pid, ok: bool)
    | Validate(p: Pid, ok: bool)
    | Begin(p: Pid, tx: Tx)
    | Checkpoint(p: Pid, body: string, tx: Tx)
    | Track(p: Pid, effect: Effect)
    | Send(p: Pid, left: bool)
    | Return(p: Pid, ending: Ending)
    | Save(p: Pid, tx: Tx, annotate: bool)
    | Annotate(p: Pid, body: string, tx: Tx)
    | Retire(p: Pid, tx: Tx)

  /** What every row of a ledger of this package is like. */
  predicate Written(row: Row) {
    row.receipt.operation == row.fingerprint.operation && row.receipt.attempt >= 1 && |row.receipt.prior| <= PRIOR_ATTEMPTS_KEPT
  }

  predicate Enabled(s: System, a: Action) {
    match a
    case Spawn(p, call) => p !in s.procs && (call.OtherCall? ==> call.operation != CREATE)
    case Import(id, row) => id !in s.rows && row.author.None? && Written(row)
    case Crash(p) => p in s.procs && !s.procs[p].pc.Done?
    case Look(p, _) => p in s.procs && s.procs[p].pc.Looking?
    case Validate(p, _) => p in s.procs && s.procs[p].pc.Validating?
    case Begin(p, tx) => p in s.procs && s.procs[p].pc.Beginning? && (tx.ok ==> tx.wrote)
    case Checkpoint(p, _, tx) => p in s.procs && s.procs[p].pc.Acting? && (tx.ok ==> tx.wrote)
    case Track(p, _) => p in s.procs && s.procs[p].pc.Acting?
    case Send(p, _) => p in s.procs && s.procs[p].pc.Sending?
    case Return(p, _) => p in s.procs && s.procs[p].pc.Acting?
    case Save(p, tx, _) => p in s.procs && s.procs[p].pc.Saving? && (tx.ok ==> tx.wrote)
    case Annotate(p, _, tx) => p in s.procs && s.procs[p].pc.Annotating? && (tx.ok ==> tx.wrote)
    case Retire(p, tx) => p in s.procs && s.procs[p].pc.Retiring? && (tx.ok ==> tx.wrote)
  }

  /** The classification of an attempt by its ending and the effects it tracked. */
  function Classify(receipt: Receipt, ending: Ending, effects: seq<Effect>): Receipt {
    var settled := receipt.(effects := effects);
    match ending
    case Success => settled.(status := Accepted)
    case RpcError(why) => settled.(status := Failed, error := Some(why))
    case LocalError(why) => settled.(status := Failed, error := Some(why))
    case GitError(why) => settled.(status := Failed, error := Some(why))
    case OtherError(why) => settled.(status := if effects == [] then NotAttempted else OutcomeUnknown, error := Some(why))
  }

  function Goto(s: System, p: Pid, pc: PC): System
    requires p in s.procs
  {
    s.(procs := s.procs[p := s.procs[p].(pc := pc)])
  }

  /** The answer to a row that is not to be attempted: a prompt-less call tells a retired one apart. */
  function ReplayOf(call: Call, receipt: Receipt): Reply {
    if call.Promptless() && RetiredBeforePrompt(receipt) then WasRetired else Replayed(receipt)
  }

  /** A conflict: a call that brings the prompt it must bring looks for a prompt-less reservation to retire. */
  function OnConflict(call: Call): PC {
    if call.MustPrompt() && !call.Promptless() then Retiring else Done(Conflict)
  }

  function LookStep(s: System, p: Pid, ok: bool): System
    requires p in s.procs
  {
    var call := s.procs[p].call;
    if !ok || !CheckRequestID(call.id) then Goto(s, p, Done(Refused))
    else if call.id !in s.rows then Goto(s, p, Validating)
    else
      var row := s.rows[call.id];
      if !Agrees(call, row) then Goto(s, p, OnConflict(call))
      else if !row.receipt.status.NotAttempted? then Goto(s, p, Done(ReplayOf(call, row.receipt)))
      else Goto(s, p, Validating)
  }

  /** validate: it refuses every prompt-less call, which then looks for a reservation to retire. */
  function ValidateStep(s: System, p: Pid, ok: bool): System
    requires p in s.procs
  {
    Goto(s, p, if s.procs[p].call.Promptless() then Retiring else if ok then Beginning else Done(Refused))
  }

  /** BeginUnless, one transaction. */
  function BeginStep(s: System, p: Pid, tx: Tx): System
    requires p in s.procs
  {
    var call := s.procs[p].call;
    var id := call.id;
    if !tx.wrote then Goto(s, p, Done(Refused))
    else if id in s.rows && !Agrees(call, s.rows[id]) then Goto(s, p, OnConflict(call))
    else if id in s.rows && !s.rows[id].receipt.status.NotAttempted? then Goto(s, p, Done(ReplayOf(call, s.rows[id].receipt)))
    else if call.Promptless() then Goto(s, p, Retiring)
    else
      var receipt := if id in s.rows then RetryReceipt(call, s.rows[id].receipt) else FreshReceipt(call);
      var fingerprint := if id in s.rows then s.rows[id].fingerprint else Fingerprint(call.Operation(), call.Args());
      s.(rows := s.rows[id := Row(fingerprint, receipt, Some(p))],
         procs := s.procs[p := s.procs[p].(begun := true, pc := if tx.ok then Acting(receipt) else Done(Refused))])
  }

  /** Save: the row of the id takes this receipt, whatever it held. */
  function SaveRow(s: System, p: Pid, receipt: Receipt, wrote: bool): System
    requires p in s.procs
  {
    var id := s.procs[p].call.id;
    if wrote && id in s.rows then s.(rows := s.rows[id := s.rows[id].(receipt := receipt, author := Some(p))]) else s
  }

  /** Retire, one transaction, on the call's arguments without a prompt. */
  function RetireStep(s: System, p: Pid, tx: Tx): System
    requires p in s.procs
  {
    var call := s.procs[p].call;
    var id := call.id;
    var otherwise := if call.Promptless() then PromptRequired else Conflict;
    if !tx.wrote || !CheckRequestID(id) then Goto(s, p, Done(Refused))
    else if id !in s.rows then Goto(s, p, Done(otherwise))
    else
      var row := s.rows[id];
      if !Agrees(call.WithoutPrompt(), row) then Goto(s, p, Done(Conflict))
      else if row.receipt.status.NotAttempted? then
        Goto(s.(rows := s.rows[id := row.(receipt := RetiredReceipt(row.receipt))], retired := s.retired + [id]), p,
             Done(if tx.ok then WasRetired else Refused))
      else if RetiredBeforePrompt(row.receipt) then Goto(s, p, Done(WasRetired))
      else Goto(s, p, Done(if call.Promptless() then Replayed(row.receipt) else Conflict))
  }

  function Next(s: System, a: Action): System
    requires Enabled(s, a)
  {
    match a
    case Spawn(p, call) => s.(procs := s.procs[p := Proc(call, Looking, false, [], [], None)])
    case Import(id, row) => s.(rows := s.rows[id := row])
    case Crash(p) => Goto(s, p, Dead)
    case Look(p, ok) => LookStep(s, p, ok)
    case Validate(p, ok) => ValidateStep(s, p, ok)
    case Begin(p, tx) => BeginStep(s, p, tx)
    case Checkpoint(p, body, tx) =>
      var receipt := s.procs[p].pc.receipt.(body := body);
      Goto(SaveRow(s, p, receipt, tx.wrote), p, Acting(receipt))
    case Track(p, effect) =>
      var pr := s.procs[p];
      s.(procs := s.procs[p := pr.(effects := pr.effects + [effect], pc := Sending(pr.pc.receipt, effect))])
    case Send(p, left) =>
      var pr := s.procs[p];
      var sent := if left then pr.sent + [pr.pc.effect] else pr.sent;
      s.(procs := s.procs[p := pr.(sent := sent, pc := Acting(pr.pc.receipt))])
    case Return(p, ending) =>
      var pr := s.procs[p];
      s.(procs := s.procs[p := pr.(ending := Some(ending), pc := Saving(Classify(pr.pc.receipt, ending, pr.effects)))])
    case Save(p, tx, annotate) =>
      var receipt := s.procs[p].pc.receipt;
      Goto(SaveRow(s, p, receipt, tx.wrote), p,
           if !tx.ok then Done(Refused)
           else if annotate && receipt.status.Accepted? then Annotating(receipt)
           else Done(Settled(receipt)))
    case Annotate(p, body, tx) =>
      var receipt := s.procs[p].pc.receipt.(body := body);
      Goto(SaveRow(s, p, receipt, tx.wrote), p, Done(if tx.ok then Settled(receipt) else Refused))
    case Retire(p, tx) => RetireStep(s, p, tx)
  }

  /** The states of a run from the empty ledger. */
  ghost predicate Run(states: seq<System>, actions: seq<Action>) {
    && |states| == |actions| + 1
    && states[0] == Initial
    && forall i {:trigger actions[i]} | 0 <= i < |actions| ::
         Enabled(states[i], actions[i]) && states[i + 1] == Next(states[i], actions[i])
  }
}
