/**
 * Session guidance pairs (internal/guidancerecord, used by internal/affordance/hook.go) as a state machine.
 * Hook processes of one session and one leg interleave at the granularity of their file operations; any of
 * them may be refused the lock, or be killed between two operations.
 */
module Guidance {
  import opened Common
  import Rollout
  import opened ContextBudget

  type Pid = nat
  type Gen = nat

  /** What a record names: the digest of the pointers as compared, and the command they spell. */
  datatype Given = Given(identity: string, command: string)

  datatype Source = Resume | Compact | OtherSource

  /** A SessionStart: what it was asked for, the source files it counted, and what it says besides the pointers and the binding. */
  datatype Start = Start(source: Source, given: Given, files: nat, banner: seq<Section>, path: string)

  /** A pointer as it is said with a count of source files, which is left out of what a record compares. */
  datatype Pointer = Pointer(said: nat -> string, required: bool)

  /** The texts of the session: the pointers of a record, and the binding, which spells the command. */
  datatype Session = Session(pointers: Given -> seq<Pointer>, binding: string -> string)

  function PointersAt(pointers: seq<Pointer>, files: nat): (sections: seq<Section>)
    ensures |sections| == |pointers|
    ensures forall i | 0 <= i < |pointers| :: sections[i] == Section(pointers[i].said(files), pointers[i].required)
  {
    seq(|pointers|, i requires 0 <= i < |pointers| => Section(pointers[i].said(files), pointers[i].required))
  }

  /** The binding is required; a session whose id is no valid one has none. */
  function Binding(c: Session, start: Start): seq<Section> {
    if c.binding(start.given.command) == "" then [] else [Section(c.binding(start.given.command), true)]
  }

  function PointerList(c: Session, start: Start): seq<Section> { PointersAt(c.pointers(start.given), start.files) }

  /** What a resume of a session that holds the pointers says: the binding and the banner. */
  function HeadList(c: Session, start: Start): seq<Section> { Binding(c, start) + start.banner }

  function HeadText(c: Session, start: Start): string { Join(Texts(HeadList(c, start))) }

  function WholeList(c: Session, start: Start): seq<Section> { Binding(c, start) + PointerList(c, start) + start.banner }

  /** The mark a resume leaves; `part` is the text it gave when it gave only a part, named by its digest. */
  datatype Mark = Mark(part: Option<string>, gen: Gen, turn: string, path: string, offset: nat)

  /** The mark a resume is going to leave, and how far the history was when it read the transcript. */
  datatype Body = Body(part: Option<string>, turn: string, offset: nat, read: nat)

  /** The name of a counted prompt: that of its turn, or for a prompt without one a name of its own. */
  datatype PromptName = OfTurn(turn: string) | OfItself(id: nat)

  type Note = (Gen, PromptName)

  /** What a process does with the session's lock: take a pair, store a record and a mark, end the pair, count a prompt. */
  datatype Job =
    | Taking(end: bool)
    | Storing(rec: Option<Given>, body: Option<Body>)
    | Clearing
    | Noting(turn: string)

  datatype Pair = NoPair | Taken(m: Mark)

  datatype Answer = SayWhole | SayHead | SayPointers(m: Mark) | StaySilent(m: Mark)

  /** The next operation of a process. */
  datatype PC =
    | Deciding
    | Saying(answer: Answer)
    | Reading(part: Option<string>)
    | WantLock(job: Job)
    | DropMark(job: Job)
    | DropPrompts(job: Job)
    | Remove(job: Job)
    | Sweep(job: Job)
    | WriteRecord(job: Job)
    | WriteMark(job: Job)
    | ReadMark(job: Job)
    | CountPrompts(job: Job, m: Mark)
    | CheckTurn(job: Job, m: Mark)
    | CheckRecord(job: Job, m: Mark)
    | TakeMark(job: Job, m: Mark)
    | TakeSweep(job: Job, pair: Pair)
    | NotePrompt(job: Job, gen: Gen)
    | RecountPrompts(job: Job, gen: Gen)
    | Unlock(job: Job, pair: Pair)

  /** A process: a SessionStart hook, or (hook false) one that only counts a prompt or ends the pair. */
  datatype Proc = Proc(start: Start, hook: bool, said: nat, pc: PC)

  /**
   * What happened: a whole record landed in a transcript, the answer of these sections was written whole, a compact was
   * answered. What an answer of sections says is what the context budget emits of them.
   */
  datatype Event = Logged(path: string, rec: Rollout.Record) | Said(sections: seq<Section>) | Answered(start: Start)

  /** Where a generation came from: the start that wrote it, its answer, and its reading of the transcript. */
  datatype Origin = Origin(start: Start, said: nat, read: nat)

  /**
   * The files of the leg and the lock of the session, the processes, and four history variables: the
   * origin of every generation written, the generations deleted, those taken, and the prompts noted.
   */
  datatype System = System(
    record: Option<Given>, mark: Option<Mark>, prompts: set<Note>, lock: Option<Pid>,
    procs: map<Pid, Proc>, history: seq<Event>,
    origin: map<Gen, Origin>, ended: set<Gen>, taken: seq<Gen>, noted: set<Note>, swept: bool)

  function Initial(record: Option<Given>): System {
    System(record, None, {}, None, map[], [], map[], {}, [], {}, false)
  }

  /** The whole records of a transcript. */
  function LogOf(history: seq<Event>, path: string): seq<Rollout.Record> {
    if history == [] then []
    else
      var n := |history| - 1;
      if history[n].Logged? && history[n].path == path then LogOf(history[..n], path) + [history[n].rec]
      else LogOf(history[..n], path)
  }

  /** The choices that are not the process's own: an operation's success, a random generation, a read window, files left. */
  datatype Luck = Luck(ok: bool, gen: Gen, window: nat, keep: set<Note>)

  datatype Action =
    | Spawn(p: Pid, start: Start, end: bool)
    | SpawnOther(p: Pid, job: Job)
    | Crash(p: Pid)
    | Log(path: string, rec: Rollout.Record)
    | Grab(p: Pid)
    | GiveUp(p: Pid)
    | Tick(p: Pid, luck: Luck)

  predicate Fresh(s: System, note: Note) { note !in s.prompts && note !in s.noted }

  predicate Enabled(s: System, a: Action) {
    match a
    case Spawn(p, _, _) => p !in s.procs
    case SpawnOther(p, job) => p !in s.procs && (job.Clearing? || job.Noting?)
    case Crash(p) => p in s.procs
    case Log(_, _) => true
    case Grab(p) => p in s.procs && s.procs[p].pc.WantLock? && s.lock.None?
    case GiveUp(p) => p in s.procs && s.procs[p].pc.WantLock?
    case Tick(p, luck) =>
      && p in s.procs && !s.procs[p].pc.WantLock?
      && (s.procs[p].pc.WriteMark? ==> luck.gen !in s.origin)
      && (s.procs[p].pc.NotePrompt? && Turnless(s.procs[p].pc.job) ==> Fresh(s, (s.procs[p].pc.gen, OfItself(luck.gen))))
  }

  function Goto(s: System, p: Pid, pc: PC): System
    requires p in s.procs
  {
    s.(procs := s.procs[p := s.procs[p].(pc := pc)])
  }

  function Exit(s: System, p: Pid): System { s.(procs := s.procs - {p}) }

  /** os.Remove on the mark. */
  function Unmarked(s: System): System {
    if s.mark.None? then s else s.(mark := None, ended := s.ended + {s.mark.value.gen})
  }

  function PromptsOf(prompts: set<Note>, gen: Gen): set<Note> { set x | x in prompts && x.0 == gen }

  predicate Turnless(job: Job) { !job.Noting? || job.turn == "" }

  function NameOf(job: Job, luck: Luck): PromptName { if Turnless(job) then OfItself(luck.gen) else OfTurn(job.turn) }

  /** What a compact says after TakePair: nothing, the pointers alone, or everything. */
  function AnswerTo(c: Session, start: Start, pair: Pair): Answer {
    if pair.NoPair? then SayWhole
    else if pair.m.part.None? then StaySilent(pair.m)
    else if HeadText(c, start) != "" && pair.m.part == Some(HeadText(c, start)) then SayPointers(pair.m)
    else SayWhole
  }

  /** What follows the end of a job: the answer after TakePair, otherwise nothing. */
  function After(c: Session, s: System, p: Pid, job: Job, pair: Pair): System
    requires p in s.procs
  {
    if job.Taking? then Goto(s, p, Saying(AnswerTo(c, s.procs[p].start, pair))) else Exit(s, p)
  }

  function FirstStep(job: Job): PC {
    match job
    case Taking(_) => ReadMark(job)
    case Storing(_, _) => Remove(job)
    case Clearing => Remove(job)
    case Noting(_) => ReadMark(job)
  }

  /** The transcript shows that the compact runs in the turn of the mark's resume (compactOfTurn). */
  predicate SameTurn(history: seq<Event>, path: string, m: Mark) {
    && path != "" && path == m.path
    && m.offset <= |LogOf(history, path)|
    && Rollout.NothingAgainst(LogOf(history, path)[m.offset..], m.turn)
  }

  /** resumeMark: the evidence of the resume's turn in the last records of the transcript. */
  function ResumeBody(history: seq<Event>, path: string, part: Option<string>, luck: Luck): Option<Body> {
    var log := LogOf(history, path);
    if path == "" || !luck.ok || luck.window > |log| then None
    else
      var turn := Rollout.TurnAfter("", log[luck.window..]);
      if turn == "" then None else Some(Body(part, turn, |log|, |history|))
  }

  /** Writing the answer, whole or not. */
  function Say(c: Session, s: System, p: Pid, answer: Answer, ok: bool): System
    requires p in s.procs
  {
    var pr := s.procs[p];
    var start, here := pr.start, |s.history|;
    var record := WantLock(Storing(Some(start.given), None));
    match answer
    case StaySilent(_) => Exit(s.(history := s.history + [Answered(start)]), p)
    case SayHead =>
      if !ok then Goto(s, p, WantLock(Storing(None, None)))
      else
        var said := s.(history := s.history + [Said(HeadList(c, start))], procs := s.procs[p := pr.(said := here)]);
        Goto(said, p, if HeadText(c, start) == "" then WantLock(Storing(None, None)) else Reading(Some(HeadText(c, start))))
    case SayPointers(_) =>
      if !ok then Goto(s, p, WantLock(Clearing))
      else Goto(s.(history := s.history + [Said(PointerList(c, start)), Answered(start)]), p, record)
    case SayWhole =>
      if !ok then Goto(s, p, WantLock(Clearing))
      else
        match start.source
        case Compact => Goto(s.(history := s.history + [Said(WholeList(c, start)), Answered(start)]), p, record)
        case Resume =>
          Goto(s.(history := s.history + [Said(WholeList(c, start))], procs := s.procs[p := pr.(said := here)]), p, Reading(None))
        case OtherSource => Goto(s.(history := s.history + [Said(WholeList(c, start))]), p, record)
  }

  /** The operations of a process, one by one. First the record, read without the lock. */
  function DecideStep(c: Session, s: System, p: Pid, luck: Luck): System
    requires p in s.procs
  {
    Goto(s, p, Saying(if luck.ok && s.record == Some(s.procs[p].start.given) then SayHead else SayWhole))
  }

  function ReadStep(c: Session, s: System, p: Pid, luck: Luck): System
    requires p in s.procs && s.procs[p].pc.Reading?
  {
    var start, part := s.procs[p].start, s.procs[p].pc.part;
    Goto(s, p, WantLock(Storing(if part.None? then Some(start.given) else None, ResumeBody(s.history, start.path, part, luck))))
  }

  /** Without the lock the pair is only ended. */
  function DropStep(c: Session, s: System, p: Pid, luck: Luck): System
    requires p in s.procs && (s.procs[p].pc.DropMark? || s.procs[p].pc.DropPrompts?)
  {
    var job := s.procs[p].pc.job;
    if s.procs[p].pc.DropMark? then Goto(Unmarked(s), p, DropPrompts(job))
    else After(c, s.(prompts := s.prompts * luck.keep, swept := true), p, job, NoPair)
  }

  /** From here on, holding the lock. */
  function RemoveStep(c: Session, s: System, p: Pid, luck: Luck): System
    requires p in s.procs && s.procs[p].pc.Remove?
  {
    Goto(Unmarked(s), p, Sweep(s.procs[p].pc.job))
  }

  function SweepStep(c: Session, s: System, p: Pid, luck: Luck): System
    requires p in s.procs && s.procs[p].pc.Sweep?
  {
    var job := s.procs[p].pc.job;
    Goto(s.(prompts := s.prompts * luck.keep), p, if job.Storing? then WriteRecord(job) else Unlock(job, NoPair))
  }

  function WriteRecordStep(c: Session, s: System, p: Pid, luck: Luck): System
    requires p in s.procs && s.procs[p].pc.WriteRecord?
  {
    var job := s.procs[p].pc.job;
    if !job.Storing? || job.rec.None? then Goto(s, p, WriteMark(job))
    else if !luck.ok then Goto(s, p, Unlock(job, NoPair))
    else Goto(s.(record := job.rec), p, WriteMark(job))
  }

  function WriteMarkStep(c: Session, s: System, p: Pid, luck: Luck): System
    requires p in s.procs && s.procs[p].pc.WriteMark?
  {
    var pr, job := s.procs[p], s.procs[p].pc.job;
    if !job.Storing? || job.body.None? || !luck.ok then Goto(s, p, Unlock(job, NoPair))
    else
      var b := job.body.value;
      var m := Mark(b.part, luck.gen, b.turn, pr.start.path, b.offset);
      Goto(s.(mark := Some(m), origin := s.origin[luck.gen := Origin(pr.start, pr.said, b.read)]), p, Unlock(job, NoPair))
  }

  function ReadMarkStep(c: Session, s: System, p: Pid, luck: Luck): System
    requires p in s.procs && s.procs[p].pc.ReadMark?
  {
    var job := s.procs[p].pc.job;
    if job.Noting? then
      if s.mark.None? then Goto(s, p, Unlock(job, NoPair))
      else if !luck.ok then Goto(s, p, Remove(job))
      else Goto(s, p, NotePrompt(job, s.mark.value.gen))
    else if s.mark.None? || !luck.ok then Goto(s, p, Remove(job))
    else Goto(s, p, CountPrompts(job, s.mark.value))
  }

  function CountStep(c: Session, s: System, p: Pid, luck: Luck): System
    requires p in s.procs && s.procs[p].pc.CountPrompts?
  {
    var job, m := s.procs[p].pc.job, s.procs[p].pc.m;
    if |PromptsOf(s.prompts, m.gen)| > 1 || !luck.ok then Goto(s, p, Remove(job)) else Goto(s, p, CheckTurn(job, m))
  }

  function CheckTurnStep(c: Session, s: System, p: Pid, luck: Luck): System
    requires p in s.procs && s.procs[p].pc.CheckTurn?
  {
    var job, m := s.procs[p].pc.job, s.procs[p].pc.m;
    if luck.ok && SameTurn(s.history, s.procs[p].start.path, m) then Goto(s, p, CheckRecord(job, m)) else Goto(s, p, Remove(job))
  }

  function CheckRecordStep(c: Session, s: System, p: Pid, luck: Luck): System
    requires p in s.procs && s.procs[p].pc.CheckRecord?
  {
    var job, m := s.procs[p].pc.job, s.procs[p].pc.m;
    if luck.ok && s.record == Some(s.procs[p].start.given) then Goto(s, p, TakeMark(job, m))
    else if job.Taking? && job.end then Goto(s, p, Remove(job))
    else Goto(s, p, Unlock(job, NoPair))
  }

  function TakeMarkStep(c: Session, s: System, p: Pid, luck: Luck): System
    requires p in s.procs && s.procs[p].pc.TakeMark?
  {
    var job, m := s.procs[p].pc.job, s.procs[p].pc.m;
    if s.mark.None? then Goto(s, p, TakeSweep(job, NoPair))
    else Goto(Unmarked(s).(taken := s.taken + [s.mark.value.gen]), p, TakeSweep(job, Taken(m)))
  }

  function TakeSweepStep(c: Session, s: System, p: Pid, luck: Luck): System
    requires p in s.procs && s.procs[p].pc.TakeSweep?
  {
    Goto(s.(prompts := s.prompts * luck.keep), p, Unlock(s.procs[p].pc.job, s.procs[p].pc.pair))
  }

  function NoteStep(c: Session, s: System, p: Pid, luck: Luck): System
    requires p in s.procs && s.procs[p].pc.NotePrompt?
  {
    var job, gen := s.procs[p].pc.job, s.procs[p].pc.gen;
    if !luck.ok then Goto(s, p, Remove(job))
    else
      var note := (gen, NameOf(job, luck));
      Goto(s.(prompts := s.prompts + {note}, noted := s.noted + {note}), p, RecountPrompts(job, gen))
  }

  function RecountStep(c: Session, s: System, p: Pid, luck: Luck): System
    requires p in s.procs && s.procs[p].pc.RecountPrompts?
  {
    var job, gen := s.procs[p].pc.job, s.procs[p].pc.gen;
    if |PromptsOf(s.prompts, gen)| > 1 then Goto(s, p, Remove(job)) else Goto(s, p, Unlock(job, NoPair))
  }

  function UnlockStep(c: Session, s: System, p: Pid, luck: Luck): System
    requires p in s.procs && s.procs[p].pc.Unlock?
  {
    After(c, s.(lock := None), p, s.procs[p].pc.job, s.procs[p].pc.pair)
  }

  /** One operation of a process that is not waiting for the lock. */
  function Operate(c: Session, s: System, p: Pid, luck: Luck): System
    requires p in s.procs && !s.procs[p].pc.WantLock?
  {
    match s.procs[p].pc
    case Deciding => DecideStep(c, s, p, luck)
    case Saying(answer) => Say(c, s, p, answer, luck.ok)
    case Reading(_) => ReadStep(c, s, p, luck)
    case DropMark(_) => DropStep(c, s, p, luck)
    case DropPrompts(_) => DropStep(c, s, p, luck)
    case Remove(_) => RemoveStep(c, s, p, luck)
    case Sweep(_) => SweepStep(c, s, p, luck)
    case WriteRecord(_) => WriteRecordStep(c, s, p, luck)
    case WriteMark(_) => WriteMarkStep(c, s, p, luck)
    case ReadMark(_) => ReadMarkStep(c, s, p, luck)
    case CountPrompts(_, _) => CountStep(c, s, p, luck)
    case CheckTurn(_, _) => CheckTurnStep(c, s, p, luck)
    case CheckRecord(_, _) => CheckRecordStep(c, s, p, luck)
    case TakeMark(_, _) => TakeMarkStep(c, s, p, luck)
    case TakeSweep(_, _) => TakeSweepStep(c, s, p, luck)
    case NotePrompt(_, _) => NoteStep(c, s, p, luck)
    case RecountPrompts(_, _) => RecountStep(c, s, p, luck)
    case Unlock(_, _) => UnlockStep(c, s, p, luck)
  }

  function Apply(c: Session, s: System, a: Action): System
    requires Enabled(s, a)
  {
    match a
    case Spawn(p, start, end) =>
      var pc :=
        match start.source
        case Resume => Deciding
        case Compact => WantLock(Taking(end))
        case OtherSource => Saying(SayWhole);
      s.(procs := s.procs[p := Proc(start, true, 0, pc)])
    case SpawnOther(p, job) =>
      s.(procs := s.procs[p := Proc(Start(OtherSource, Given("", ""), 0, [], ""), false, 0, WantLock(job))])
    case Crash(p) => Exit(s.(lock := if s.lock == Some(p) then None else s.lock), p)
    case Log(path, rec) => s.(history := s.history + [Logged(path, rec)])
    case Grab(p) => Goto(s.(lock := Some(p)), p, FirstStep(s.procs[p].pc.job))
    case GiveUp(p) => Goto(s, p, DropMark(s.procs[p].pc.job))
    case Tick(p, luck) => Operate(c, s, p, luck)
  }

  /** The states of a run, each following from the one before by an enabled action. */
  ghost predicate Run(c: Session, states: seq<System>, actions: seq<Action>) {
    && |states| == |actions| + 1
    && states[0] == Initial(states[0].record)
    && forall i {:trigger actions[i]} | 0 <= i < |actions| ::
         Enabled(states[i], actions[i]) && states[i + 1] == Apply(c, states[i], actions[i])
  }

  /**
   * The order of the host that turn.go states: the turn's compaction is recorded before its start hooks run,
   * and nothing is compacted while they do.
   */
  predicate HostOrder(s: System, a: Action) {
    a.Log? && a.rec.IsCompaction() ==> forall p | p in s.procs :: !s.procs[p].hook
  }

  ghost predicate HostRun(c: Session, states: seq<System>, actions: seq<Action>) {
    && Run(c, states, actions)
    && forall i {:trigger actions[i]} | 0 <= i < |actions| :: HostOrder(states[i], actions[i])
  }
}
