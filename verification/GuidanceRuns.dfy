/** What every run of the guidance pair protocol keeps. */
module GuidanceRuns {
  import opened Common
  import opened Guidance
  import Rollout
  import opened ContextBudget

  // ----- the transcript and the history

  lemma {:induction false} LogOfSplit(a: seq<Event>, b: seq<Event>, path: string)
    ensures LogOf(a + b, path) == LogOf(a, path) + LogOf(b, path)
    decreases |b|
  {
    if b == [] {
      assert a + b == a;
    } else {
      var n := |b| - 1;
      assert (a + b)[..|a| + n] == a + b[..n];
      LogOfSplit(a, b[..n], path);
    }
  }

  /** No compaction of the transcript was logged from i on. */
  ghost predicate NoCompaction(history: seq<Event>, i: nat, path: string) {
    forall j | i <= j < |history| && history[j].Logged? && history[j].path == path :: !history[j].rec.IsCompaction()
  }

  lemma {:induction false} QuietLog(history: seq<Event>, path: string)
    requires forall r | r in LogOf(history, path) :: !r.IsCompaction()
    ensures NoCompaction(history, 0, path)
  {
    if history != [] {
      var n := |history| - 1;
      QuietLog(history[..n], path);
      forall j | 0 <= j < |history| && history[j].Logged? && history[j].path == path
        ensures !history[j].rec.IsCompaction()
      {
        if j < n {
          assert history[..n][j] == history[j];
        } else {
          assert history[n].rec in LogOf(history, path);
        }
      }
    }
  }

  // ----- where a mark comes from

  /** The answer of a start: everything, or, for a part, the binding and the banner. */
  function AnswerOf(c: Session, start: Start, part: Option<string>): seq<Section> {
    if part.None? then WholeList(c, start) else HeadList(c, start)
  }

  /** The start wrote its answer whole, and read the transcript after that, with the turn's compaction the last thing in it. */
  ghost predicate Evidence(c: Session, history: seq<Event>, start: Start, part: Option<string>, turn: string, offset: nat, said: nat, read: nat) {
    && said < read <= |history|
    && history[said] == Said(AnswerOf(c, start, part))
    && (part.Some? ==> part.value == HeadText(c, start))
    && offset == |LogOf(history[..read], start.path)|
    && turn != ""
    && exists k: nat :: Rollout.CompactedAt(LogOf(history[..read], start.path), k, turn)
  }

  ghost predicate MarkFrom(c: Session, history: seq<Event>, origin: map<Gen, Origin>, m: Mark) {
    && m.gen in origin
    && origin[m.gen].start.path == m.path
    && Evidence(c, history, origin[m.gen].start, m.part, m.turn, m.offset, origin[m.gen].said, origin[m.gen].read)
  }

  lemma EvidenceExtends(c: Session, history: seq<Event>, longer: seq<Event>, start: Start, part: Option<string>, turn: string, offset: nat, said: nat, read: nat)
    requires history <= longer && Evidence(c, history, start, part, turn, offset, said, read)
    ensures Evidence(c, longer, start, part, turn, offset, said, read)
  {
    assert longer[..read] == history[..read];
  }

  lemma CompactedInWindow(log: seq<Rollout.Record>, window: nat, turn: string)
    requires window <= |log| && turn != "" && Rollout.TurnAfter("", log[window..]) == turn
    ensures exists k: nat :: Rollout.CompactedAt(log, k, turn)
  {
    Rollout.ResumeTurnExact(log[window..], turn);
    var k: nat :| Rollout.CompactedAt(log[window..], k, turn);
    forall j | window + k < j < |log| ensures Rollout.Quiet(log[j], turn) {
      assert log[window..][j - window] == log[j];
    }
    assert Rollout.CompactedAt(log, window + k, turn);
  }

  /** What resumeMark read is evidence. */
  lemma ResumeEvidence(c: Session, history: seq<Event>, start: Start, part: Option<string>, said: nat, luck: Luck)
    requires ResumeBody(history, start.path, part, luck).Some?
    requires said < |history| && history[said] == Said(AnswerOf(c, start, part)) && (part.Some? ==> part.value == HeadText(c, start))
    ensures var b := ResumeBody(history, start.path, part, luck).value;
      b.part == part && Evidence(c, history, start, part, b.turn, b.offset, said, b.read)
  {
    assert history[..|history|] == history;
    var b := ResumeBody(history, start.path, part, luck).value;
    CompactedInWindow(LogOf(history, start.path), luck.window, b.turn);
  }

  // ----- the invariant

  predicate UnderLock(pc: PC) {
    !(pc.Deciding? || pc.Saying? || pc.Reading? || pc.WantLock? || pc.DropMark? || pc.DropPrompts?)
  }

  ghost predicate JobOk(c: Session, history: seq<Event>, pr: Proc, job: Job) {
    job.Storing? && job.body.Some? ==>
      var b := job.body.value;
      && Evidence(c, history, pr.start, b.part, b.turn, b.offset, pr.said, b.read)
      && job.rec == if b.part.None? then Some(pr.start.given) else None
  }

  /** A mark a compact has read under the lock: still there or deleted meanwhile, and beside its own record. */
  ghost predicate HeldOk(c: Session, s: System, job: Job, m: Mark) {
    && job.Taking? && MarkFrom(c, s.history, s.origin, m)
    && (s.mark.None? || s.mark == Some(m))
    && (m.part.None? ==> s.record == Some(s.origin[m.gen].start.given))
  }

  /** A mark a compact took: it names the compact's transcript and, when it stands for the whole text, the compact's own text. */
  ghost predicate PairOk(c: Session, s: System, start: Start, m: Mark) {
    && MarkFrom(c, s.history, s.origin, m)
    && m.path == start.path
    && (m.part.None? ==> s.origin[m.gen].start.given == start.given)
  }

  ghost predicate ProcOk(c: Session, s: System, pr: Proc) {
    match pr.pc
    case Deciding => pr.start.source.Resume?
    case Saying(answer) =>
      match answer {
        case SayWhole => true
        case SayHead => pr.start.source.Resume?
        case SayPointers(m) => PairOk(c, s, pr.start, m) && m.part == Some(HeadText(c, pr.start))
        case StaySilent(m) => PairOk(c, s, pr.start, m) && m.part.None?
      }
    case Reading(part) =>
      && pr.said < |s.history| && s.history[pr.said] == Said(AnswerOf(c, pr.start, part))
      && (part.Some? ==> part.value == HeadText(c, pr.start))
    case WantLock(job) => JobOk(c, s.history, pr, job)
    case DropMark(job) => true
    case DropPrompts(job) => true
    case Remove(job) => JobOk(c, s.history, pr, job)
    case Sweep(job) => JobOk(c, s.history, pr, job) && s.mark.None?
    case WriteRecord(job) => JobOk(c, s.history, pr, job) && s.mark.None?
    case WriteMark(job) =>
      && JobOk(c, s.history, pr, job) && s.mark.None?
      && (job.Storing? && job.body.Some? && job.body.value.part.None? ==> s.record == Some(pr.start.given))
    case ReadMark(job) => job.Taking? || job.Noting?
    case CountPrompts(job, m) => HeldOk(c, s, job, m)
    case CheckTurn(job, m) => HeldOk(c, s, job, m)
    case CheckRecord(job, m) => HeldOk(c, s, job, m) && m.path == pr.start.path
    case TakeMark(job, m) => HeldOk(c, s, job, m) && m.path == pr.start.path && s.record == Some(pr.start.given)
    case TakeSweep(job, pair) => s.mark.None? && (pair.Taken? ==> job.Taking? && PairOk(c, s, pr.start, pair.m))
    case NotePrompt(job, gen) => job.Noting?
    case RecountPrompts(job, gen) => job.Noting?
    case Unlock(job, pair) => pair.Taken? ==> job.Taking? && PairOk(c, s, pr.start, pair.m)
  }

  /** Generations are written once, deleted for good, and taken at most once. */
  ghost predicate GensOk(s: System) {
    && (s.mark.Some? ==> s.mark.value.gen in s.origin && s.mark.value.gen !in s.ended)
    && s.ended <= s.origin.Keys
    && (forall g | g in s.taken :: g in s.ended)
    && (forall i, j | 0 <= i < j < |s.taken| :: s.taken[i] != s.taken[j])
  }

  /** The mark came from a resume, and a mark of the whole text sits beside the record its own resume wrote. */
  ghost predicate MarkOk(c: Session, s: System) {
    s.mark.Some? ==>
      var m := s.mark.value;
      && MarkFrom(c, s.history, s.origin, m)
      && (m.part.None? ==> s.record == Some(s.origin[m.gen].start.given))
  }

  ghost predicate LocksOk(s: System) {
    forall p | p in s.procs && UnderLock(s.procs[p].pc) :: s.lock == Some(p)
  }

  ghost predicate Inv(c: Session, s: System) {
    && LocksOk(s) && GensOk(s) && MarkOk(c, s)
    && forall p | p in s.procs :: ProcOk(c, s, s.procs[p])
  }

  /** An operation of p as every other process sees it: without the lock p changes no record and writes no mark. */
  ghost predicate SeenByOthers(s: System, s': System, p: Pid) {
    && s.history <= s'.history
    && (forall g | g in s.origin :: g in s'.origin && s'.origin[g] == s.origin[g])
    && (s.lock != Some(p) ==> s'.record == s.record && (s'.mark == s.mark || s'.mark.None?))
  }

  lemma MarkFromExtends(c: Session, s: System, s': System, m: Mark)
    requires s.history <= s'.history && (forall g | g in s.origin :: g in s'.origin && s'.origin[g] == s.origin[g])
    requires MarkFrom(c, s.history, s.origin, m)
    ensures MarkFrom(c, s'.history, s'.origin, m)
  {
    var o := s.origin[m.gen];
    EvidenceExtends(c, s.history, s'.history, o.start, m.part, m.turn, m.offset, o.said, o.read);
  }

  lemma JobExtends(c: Session, history: seq<Event>, longer: seq<Event>, pr: Proc, job: Job)
    requires history <= longer && JobOk(c, history, pr, job)
    ensures JobOk(c, longer, pr, job)
  {
    if job.Storing? && job.body.Some? {
      var b := job.body.value;
      EvidenceExtends(c, history, longer, pr.start, b.part, b.turn, b.offset, pr.said, b.read);
    }
  }

  /** What p does leaves the other processes in order. */
  lemma OthersStay(c: Session, s: System, s': System, p: Pid, q: Pid)
    requires Inv(c, s) && SeenByOthers(s, s', p) && q in s.procs && q != p
    ensures ProcOk(c, s', s.procs[q])
  {
    var pr := s.procs[q];
    assert ProcOk(c, s, pr);
    match pr.pc {
      case Saying(answer) =>
        if answer.SayPointers? || answer.StaySilent? { MarkFromExtends(c, s, s', answer.m); }
      case WantLock(job) => JobExtends(c, s.history, s'.history, pr, job);
      case Remove(job) => JobExtends(c, s.history, s'.history, pr, job);
      case Sweep(job) => JobExtends(c, s.history, s'.history, pr, job);
      case WriteRecord(job) => JobExtends(c, s.history, s'.history, pr, job);
      case WriteMark(job) => JobExtends(c, s.history, s'.history, pr, job);
      case CountPrompts(job, m) => MarkFromExtends(c, s, s', m);
      case CheckTurn(job, m) => MarkFromExtends(c, s, s', m);
      case CheckRecord(job, m) => MarkFromExtends(c, s, s', m);
      case TakeMark(job, m) => MarkFromExtends(c, s, s', m);
      case TakeSweep(job, pair) => if pair.Taken? { MarkFromExtends(c, s, s', pair.m); }
      case Unlock(job, pair) => if pair.Taken? { MarkFromExtends(c, s, s', pair.m); }
      case _ =>
    }
  }

  /** The invariant follows from the parts an action changes. */
  lemma Assemble(c: Session, s: System, s': System, p: Pid)
    requires Inv(c, s) && SeenByOthers(s, s', p)
    requires forall q | q != p :: q in s'.procs <==> q in s.procs
    requires forall q | q != p && q in s.procs :: s'.procs[q] == s.procs[q]
    requires p in s'.procs ==> ProcOk(c, s', s'.procs[p]) && (UnderLock(s'.procs[p].pc) ==> s'.lock == Some(p))
    requires s'.lock == s.lock || s.lock == Some(p) || s.lock.None?
    requires GensOk(s') && MarkOk(c, s')
    ensures Inv(c, s')
  {
    forall q | q in s'.procs ensures ProcOk(c, s', s'.procs[q]) {
      if q != p {
        OthersStay(c, s, s', p, q);
      }
    }
  }

  lemma MarkStays(c: Session, s: System, s': System)
    requires MarkOk(c, s) && s.history <= s'.history && s'.mark == s.mark && s'.record == s.record
    requires forall g | g in s.origin :: g in s'.origin && s'.origin[g] == s.origin[g]
    ensures MarkOk(c, s')
  {
    if s.mark.Some? {
      MarkFromExtends(c, s, s', s.mark.value);
    }
  }

  // ----- every operation keeps the invariant

  /** A process goes on to a next operation it is ready for. */
  lemma GotoKeeps(c: Session, s: System, p: Pid, pc: PC)
    requires Inv(c, s) && p in s.procs
    requires ProcOk(c, s, s.procs[p].(pc := pc)) && (UnderLock(pc) ==> s.lock == Some(p))
    ensures Inv(c, Goto(s, p, pc))
  {
    MarkStays(c, s, Goto(s, p, pc));
    Assemble(c, s, Goto(s, p, pc), p);
  }

  lemma ExitKeeps(c: Session, s: System, p: Pid)
    requires Inv(c, s)
    ensures Inv(c, Exit(s, p))
  {
    MarkStays(c, s, Exit(s, p));
    Assemble(c, s, Exit(s, p), p);
  }

  lemma PromptsKeep(c: Session, s: System, prompts: set<Note>, noted: set<Note>, swept: bool)
    requires Inv(c, s)
    ensures Inv(c, s.(prompts := prompts, noted := noted, swept := swept))
  {
    var s' := s.(prompts := prompts, noted := noted, swept := swept);
    MarkStays(c, s, s');
    forall q | q in s'.procs ensures ProcOk(c, s', s'.procs[q]) {
      OthersStay(c, s, s', q + 1, q);
    }
  }

  lemma LogKeeps(c: Session, s: System, e: seq<Event>)
    requires Inv(c, s)
    ensures Inv(c, s.(history := s.history + e))
  {
    var s' := s.(history := s.history + e);
    MarkStays(c, s, s');
    forall q | q in s'.procs ensures ProcOk(c, s', s'.procs[q]) {
      OthersStay(c, s, s', q + 1, q);
    }
  }

  /** A process whose operation is done says its answer, or is gone. */
  lemma AfterKeeps(c: Session, s: System, p: Pid, job: Job, pair: Pair)
    requires Inv(c, s) && p in s.procs && (pair.Taken? ==> PairOk(c, s, s.procs[p].start, pair.m))
    ensures Inv(c, After(c, s, p, job, pair))
  {
    if job.Taking? {
      GotoKeeps(c, s, p, Saying(AnswerTo(c, s.procs[p].start, pair)));
    } else {
      ExitKeeps(c, s, p);
    }
  }

  lemma UnlockKeeps(c: Session, s: System, p: Pid, job: Job, pair: Pair)
    requires Inv(c, s) && p in s.procs && s.procs[p].pc == Unlock(job, pair)
    ensures Inv(c, After(c, s.(lock := None), p, job, pair))
  {
    assert ProcOk(c, s, s.procs[p]) && s.lock == Some(p);
    AfterKeeps(c, s, p, job, pair);
    ReleaseKeeps(c, After(c, s, p, job, pair), p);
  }

  lemma ReleaseKeeps(c: Session, s: System, p: Pid)
    requires Inv(c, s) && s.lock == Some(p) && (p in s.procs ==> !UnderLock(s.procs[p].pc))
    ensures Inv(c, s.(lock := None))
  {
    var s' := s.(lock := None);
    MarkStays(c, s, s');
    forall q | q in s'.procs ensures ProcOk(c, s', s'.procs[q]) {
      OthersStay(c, s, s', q + 1, q);
    }
  }

  /** A whole answer of a resume, after which it reads the transcript. */
  lemma SaidKeeps(c: Session, s: System, p: Pid, part: Option<string>)
    requires Inv(c, s) && p in s.procs && (part.Some? ==> part.value == HeadText(c, s.procs[p].start))
    ensures var pr := s.procs[p].(said := |s.history|);
      Inv(c, Goto(s.(history := s.history + [Said(AnswerOf(c, pr.start, part))], procs := s.procs[p := pr]), p, Reading(part)))
  {
    var pr := s.procs[p].(said := |s.history|);
    var s' := Goto(s.(history := s.history + [Said(AnswerOf(c, pr.start, part))], procs := s.procs[p := pr]), p, Reading(part));
    MarkStays(c, s, s');
    Assemble(c, s, s', p);
  }

  lemma HeadSaidKeeps(c: Session, s: System, p: Pid)
    requires Inv(c, s) && p in s.procs
    ensures var pr := s.procs[p].(said := |s.history|);
      Inv(c, Goto(s.(history := s.history + [Said(HeadList(c, pr.start))], procs := s.procs[p := pr]), p, WantLock(Storing(None, None))))
  {
    var pr := s.procs[p].(said := |s.history|, pc := WantLock(Storing(None, None)));
    var s' := s.(history := s.history + [Said(HeadList(c, pr.start))], procs := s.procs[p := pr]);
    MarkStays(c, s, s');
    Assemble(c, s, s', p);
    assert s.procs[p := s.procs[p].(said := |s.history|)][p := pr] == s.procs[p := pr];
  }

  /** A whole answer that is not a resume's, after which the start is recorded. */
  lemma AnsweredKeeps(c: Session, s: System, p: Pid, e: seq<Event>)
    requires Inv(c, s) && p in s.procs
    ensures Inv(c, Goto(s.(history := s.history + e), p, WantLock(Storing(Some(s.procs[p].start.given), None))))
  {
    LogKeeps(c, s, e);
    GotoKeeps(c, s.(history := s.history + e), p, WantLock(Storing(Some(s.procs[p].start.given), None)));
  }

  lemma SayHeadKeeps(c: Session, s: System, p: Pid, ok: bool)
    requires Inv(c, s) && p in s.procs
    ensures Inv(c, Say(c, s, p, SayHead, ok))
  {
    if !ok {
      GotoKeeps(c, s, p, WantLock(Storing(None, None)));
    } else if HeadText(c, s.procs[p].start) == "" {
      HeadSaidKeeps(c, s, p);
    } else {
      SaidKeeps(c, s, p, Some(HeadText(c, s.procs[p].start)));
    }
  }

  lemma SayWholeKeeps(c: Session, s: System, p: Pid, ok: bool)
    requires Inv(c, s) && p in s.procs
    ensures Inv(c, Say(c, s, p, SayWhole, ok))
  {
    var start := s.procs[p].start;
    if !ok {
      GotoKeeps(c, s, p, WantLock(Clearing));
    } else {
      match start.source
      case Resume => SaidKeeps(c, s, p, None);
      case Compact => AnsweredKeeps(c, s, p, [Said(WholeList(c, start)), Answered(start)]);
      case OtherSource => AnsweredKeeps(c, s, p, [Said(WholeList(c, start))]);
    }
  }

  lemma SayKeeps(c: Session, s: System, p: Pid, answer: Answer, ok: bool)
    requires Inv(c, s) && p in s.procs
    ensures Inv(c, Say(c, s, p, answer, ok))
  {
    var start := s.procs[p].start;
    match answer {
      case StaySilent(_) =>
        LogKeeps(c, s, [Answered(start)]);
        ExitKeeps(c, s.(history := s.history + [Answered(start)]), p);
      case SayHead => SayHeadKeeps(c, s, p, ok);
      case SayPointers(_) =>
        if ok {
          AnsweredKeeps(c, s, p, [Said(PointerList(c, start)), Answered(start)]);
        } else {
          GotoKeeps(c, s, p, WantLock(Clearing));
        }
      case SayWhole => SayWholeKeeps(c, s, p, ok);
    }
  }

  lemma ReadingKeeps(c: Session, s: System, p: Pid, luck: Luck)
    requires Inv(c, s) && p in s.procs && s.procs[p].pc.Reading?
    ensures Inv(c, ReadStep(c, s, p, luck))
  {
    var pr := s.procs[p];
    assert ProcOk(c, s, pr);
    var body := ResumeBody(s.history, pr.start.path, pr.pc.part, luck);
    if body.Some? {
      ResumeEvidence(c, s.history, pr.start, pr.pc.part, pr.said, luck);
    }
    GotoKeeps(c, s, p, WantLock(Storing(if pr.pc.part.None? then Some(pr.start.given) else None, body)));
  }

  /** Ending the pair, with the lock or without it. */
  lemma UnmarkedKeeps(c: Session, s: System)
    requires Inv(c, s)
    ensures Inv(c, Unmarked(s)) && Unmarked(s).procs == s.procs && Unmarked(s).mark.None?
  {
    var s' := Unmarked(s);
    forall q | q in s'.procs ensures ProcOk(c, s', s'.procs[q]) {
      OthersStay(c, s, s', q + 1, q);
    }
  }

  lemma WriteRecordKeeps(c: Session, s: System, p: Pid, rec: Option<Given>, job: Job)
    requires Inv(c, s) && p in s.procs && s.procs[p].pc == WriteRecord(job) && job.Storing? && rec == job.rec
    ensures Inv(c, Goto(s.(record := rec), p, WriteMark(job)))
  {
    assert ProcOk(c, s, s.procs[p]) && s.lock == Some(p) && s.mark.None?;
    Assemble(c, s, Goto(s.(record := rec), p, WriteMark(job)), p);
  }

  lemma MarkFromBody(c: Session, s: System, pr: Proc, gen: Gen)
    requires pr.pc.WriteMark? && pr.pc.job.Storing? && pr.pc.job.body.Some? && JobOk(c, s.history, pr, pr.pc.job)
    ensures var b := pr.pc.job.body.value;
      MarkFrom(c, s.history, s.origin[gen := Origin(pr.start, pr.said, b.read)], Mark(b.part, gen, b.turn, pr.start.path, b.offset))
  {
  }

  lemma WriteMarkKeeps(c: Session, s: System, p: Pid, gen: Gen, b: Body)
    requires Inv(c, s) && p in s.procs && gen !in s.origin
    requires s.procs[p].pc.WriteMark? && s.procs[p].pc.job.Storing? && s.procs[p].pc.job.body == Some(b)
    ensures var pr := s.procs[p]; var m := Mark(b.part, gen, b.turn, pr.start.path, b.offset);
      Inv(c, Goto(s.(mark := Some(m), origin := s.origin[gen := Origin(pr.start, pr.said, b.read)]), p, Unlock(pr.pc.job, NoPair)))
  {
    var pr := s.procs[p];
    var m := Mark(b.part, gen, b.turn, pr.start.path, b.offset);
    var s' := Goto(s.(mark := Some(m), origin := s.origin[gen := Origin(pr.start, pr.said, b.read)]), p, Unlock(pr.pc.job, NoPair));
    assert ProcOk(c, s, pr) && s.lock == Some(p) && s.mark.None?;
    MarkFromBody(c, s, pr, gen);
    Assemble(c, s, s', p);
  }

  lemma TakeKeeps(c: Session, s: System, p: Pid, job: Job, m: Mark)
    requires Inv(c, s) && p in s.procs && s.procs[p].pc == TakeMark(job, m) && s.mark.Some?
    ensures Inv(c, Goto(Unmarked(s).(taken := s.taken + [s.mark.value.gen]), p, TakeSweep(job, Taken(m))))
  {
    var s' := Goto(Unmarked(s).(taken := s.taken + [s.mark.value.gen]), p, TakeSweep(job, Taken(m)));
    assert ProcOk(c, s, s.procs[p]) && s.lock == Some(p);
    Assemble(c, s, s', p);
  }

  lemma ReadMarkKeeps(c: Session, s: System, p: Pid, luck: Luck)
    requires Inv(c, s) && p in s.procs && s.procs[p].pc.ReadMark?
    ensures Inv(c, ReadMarkStep(c, s, p, luck))
  {
    assert ProcOk(c, s, s.procs[p]) && s.lock == Some(p);
    GotoKeeps(c, s, p, ReadMarkStep(c, s, p, luck).procs[p].pc);
  }

  lemma CountKeeps(c: Session, s: System, p: Pid, luck: Luck)
    requires Inv(c, s) && p in s.procs && s.procs[p].pc.CountPrompts?
    ensures Inv(c, CountStep(c, s, p, luck))
  {
    assert ProcOk(c, s, s.procs[p]) && s.lock == Some(p);
    GotoKeeps(c, s, p, CountStep(c, s, p, luck).procs[p].pc);
  }

  lemma RecountKeeps(c: Session, s: System, p: Pid, luck: Luck)
    requires Inv(c, s) && p in s.procs && s.procs[p].pc.RecountPrompts?
    ensures Inv(c, RecountStep(c, s, p, luck))
  {
    assert ProcOk(c, s, s.procs[p]) && s.lock == Some(p);
    GotoKeeps(c, s, p, RecountStep(c, s, p, luck).procs[p].pc);
  }

  lemma CheckTurnKeeps(c: Session, s: System, p: Pid, luck: Luck)
    requires Inv(c, s) && p in s.procs && s.procs[p].pc.CheckTurn?
    ensures Inv(c, CheckTurnStep(c, s, p, luck))
  {
    assert ProcOk(c, s, s.procs[p]) && s.lock == Some(p);
    GotoKeeps(c, s, p, CheckTurnStep(c, s, p, luck).procs[p].pc);
  }

  lemma CheckRecordKeeps(c: Session, s: System, p: Pid, luck: Luck)
    requires Inv(c, s) && p in s.procs && s.procs[p].pc.CheckRecord?
    ensures Inv(c, CheckRecordStep(c, s, p, luck))
  {
    CheckRecordReady(c, s, p, luck);
    assert s.lock == Some(p);
    GotoKeeps(c, s, p, CheckRecordStep(c, s, p, luck).procs[p].pc);
  }

  lemma CheckRecordReady(c: Session, s: System, p: Pid, luck: Luck)
    requires p in s.procs && s.procs[p].pc.CheckRecord? && ProcOk(c, s, s.procs[p])
    ensures var s' := CheckRecordStep(c, s, p, luck);
      s' == Goto(s, p, s'.procs[p].pc) && ProcOk(c, s, s.procs[p].(pc := s'.procs[p].pc))
  {
    var job, m := s.procs[p].pc.job, s.procs[p].pc.m;
    assert HeldOk(c, s, job, m) && m.path == s.procs[p].start.path;
  }

  /** An operation that changes prompt files and goes on to one the process is ready for. */
  lemma PromptStepKeeps(c: Session, s: System, p: Pid, prompts: set<Note>, noted: set<Note>, pc: PC)
    requires Inv(c, s) && p in s.procs && s.lock == Some(p)
    requires ProcOk(c, s.(prompts := prompts, noted := noted), s.procs[p].(pc := pc))
    ensures Inv(c, Goto(s.(prompts := prompts, noted := noted), p, pc))
  {
    PromptsKeep(c, s, prompts, noted, s.swept);
    GotoKeeps(c, s.(prompts := prompts, noted := noted), p, pc);
  }

  lemma SweepKeeps(c: Session, s: System, p: Pid, luck: Luck)
    requires Inv(c, s) && p in s.procs && s.procs[p].pc.Sweep?
    ensures Inv(c, SweepStep(c, s, p, luck))
  {
    assert ProcOk(c, s, s.procs[p]) && s.lock == Some(p);
    PromptStepKeeps(c, s, p, s.prompts * luck.keep, s.noted, SweepStep(c, s, p, luck).procs[p].pc);
  }

  lemma TakeSweepKeeps(c: Session, s: System, p: Pid, luck: Luck)
    requires Inv(c, s) && p in s.procs && s.procs[p].pc.TakeSweep?
    ensures Inv(c, TakeSweepStep(c, s, p, luck))
  {
    assert ProcOk(c, s, s.procs[p]) && s.lock == Some(p);
    PromptStepKeeps(c, s, p, s.prompts * luck.keep, s.noted, Unlock(s.procs[p].pc.job, s.procs[p].pc.pair));
  }

  lemma NoteKeeps(c: Session, s: System, p: Pid, luck: Luck)
    requires Inv(c, s) && p in s.procs && s.procs[p].pc.NotePrompt?
    ensures Inv(c, NoteStep(c, s, p, luck))
  {
    assert ProcOk(c, s, s.procs[p]) && s.lock == Some(p);
    var s' := NoteStep(c, s, p, luck);
    PromptStepKeeps(c, s, p, s'.prompts, s'.noted, s'.procs[p].pc);
  }

  lemma StoringRecordKeeps(c: Session, s: System, p: Pid, luck: Luck)
    requires Inv(c, s) && p in s.procs && s.procs[p].pc.WriteRecord?
    ensures Inv(c, WriteRecordStep(c, s, p, luck))
  {
    var job := s.procs[p].pc.job;
    assert ProcOk(c, s, s.procs[p]) && s.lock == Some(p);
    if !job.Storing? || job.rec.None? {
      GotoKeeps(c, s, p, WriteMark(job));
    } else if luck.ok {
      WriteRecordKeeps(c, s, p, job.rec, job);
    } else {
      GotoKeeps(c, s, p, Unlock(job, NoPair));
    }
  }

  lemma StoringMarkKeeps(c: Session, s: System, p: Pid, luck: Luck)
    requires Inv(c, s) && p in s.procs && s.procs[p].pc.WriteMark? && luck.gen !in s.origin
    ensures Inv(c, WriteMarkStep(c, s, p, luck))
  {
    var job := s.procs[p].pc.job;
    assert ProcOk(c, s, s.procs[p]) && s.lock == Some(p);
    if job.Storing? && job.body.Some? && luck.ok {
      WriteMarkKeeps(c, s, p, luck.gen, job.body.value);
    } else {
      GotoKeeps(c, s, p, Unlock(job, NoPair));
    }
  }

  /** Deleting the mark: an ending, or the take of a pair. */
  lemma DropMarkKeeps(c: Session, s: System, p: Pid, luck: Luck)
    requires Inv(c, s) && p in s.procs && s.procs[p].pc.DropMark?
    ensures Inv(c, DropStep(c, s, p, luck))
  {
    UnmarkedKeeps(c, s);
    GotoKeeps(c, Unmarked(s), p, DropPrompts(s.procs[p].pc.job));
  }

  lemma RemoveKeeps(c: Session, s: System, p: Pid, luck: Luck)
    requires Inv(c, s) && p in s.procs && s.procs[p].pc.Remove?
    ensures Inv(c, RemoveStep(c, s, p, luck))
  {
    UnmarkedKeeps(c, s);
    assert ProcOk(c, Unmarked(s), s.procs[p]);
    GotoKeeps(c, Unmarked(s), p, Sweep(s.procs[p].pc.job));
  }

  lemma TakeMarkKeeps(c: Session, s: System, p: Pid, luck: Luck)
    requires Inv(c, s) && p in s.procs && s.procs[p].pc.TakeMark?
    ensures Inv(c, TakeMarkStep(c, s, p, luck))
  {
    var job, m := s.procs[p].pc.job, s.procs[p].pc.m;
    assert ProcOk(c, s, s.procs[p]);
    if s.mark.Some? {
      TakeKeeps(c, s, p, job, m);
    } else {
      GotoKeeps(c, s, p, TakeSweep(job, NoPair));
    }
  }

  lemma OperateKeeps(c: Session, s: System, p: Pid, luck: Luck)
    requires Inv(c, s) && Enabled(s, Tick(p, luck))
    ensures Inv(c, Operate(c, s, p, luck))
  {
    if UnderLock(s.procs[p].pc) {
      HoldingKeeps(c, s, p, luck);
    } else {
      FreeKeeps(c, s, p, luck);
    }
  }

  lemma FreeKeeps(c: Session, s: System, p: Pid, luck: Luck)
    requires Inv(c, s) && Enabled(s, Tick(p, luck)) && !UnderLock(s.procs[p].pc)
    ensures Inv(c, Operate(c, s, p, luck))
  {
    match s.procs[p].pc {
      case Deciding =>
        assert ProcOk(c, s, s.procs[p]);
        GotoKeeps(c, s, p, DecideStep(c, s, p, luck).procs[p].pc);
      case Saying(answer) => SayKeeps(c, s, p, answer, luck.ok);
      case Reading(_) => ReadingKeeps(c, s, p, luck);
      case DropPrompts(job) =>
        PromptsKeep(c, s, s.prompts * luck.keep, s.noted, true);
        AfterKeeps(c, s.(prompts := s.prompts * luck.keep, swept := true), p, job, NoPair);
      case DropMark(_) => DropMarkKeeps(c, s, p, luck);
    }
  }

  lemma HoldingKeeps(c: Session, s: System, p: Pid, luck: Luck)
    requires Inv(c, s) && Enabled(s, Tick(p, luck)) && UnderLock(s.procs[p].pc)
    ensures Inv(c, Operate(c, s, p, luck))
  {
    match s.procs[p].pc {
      case Remove(_) => RemoveKeeps(c, s, p, luck);
      case TakeMark(_, _) => TakeMarkKeeps(c, s, p, luck);
      case WriteRecord(_) => StoringRecordKeeps(c, s, p, luck);
      case WriteMark(_) => StoringMarkKeeps(c, s, p, luck);
      case Unlock(job, pair) => UnlockKeeps(c, s, p, job, pair);
      case Sweep(_) => SweepKeeps(c, s, p, luck);
      case TakeSweep(_, _) => TakeSweepKeeps(c, s, p, luck);
      case NotePrompt(_, _) => NoteKeeps(c, s, p, luck);
      case ReadMark(_) => ReadMarkKeeps(c, s, p, luck);
      case CountPrompts(_, _) => CountKeeps(c, s, p, luck);
      case RecountPrompts(_, _) => RecountKeeps(c, s, p, luck);
      case CheckTurn(_, _) => CheckTurnKeeps(c, s, p, luck);
      case CheckRecord(_, _) => CheckRecordKeeps(c, s, p, luck);
    }
  }

  lemma SpawnKeeps(c: Session, s: System, p: Pid, pr: Proc)
    requires Inv(c, s) && p !in s.procs && ProcOk(c, s, pr) && !UnderLock(pr.pc)
    ensures Inv(c, s.(procs := s.procs[p := pr]))
  {
    var s' := s.(procs := s.procs[p := pr]);
    MarkStays(c, s, s');
    Assemble(c, s, s', p);
  }

  lemma CrashKeeps(c: Session, s: System, p: Pid)
    requires Inv(c, s)
    ensures Inv(c, Apply(c, s, Crash(p)))
    requires p in s.procs
  {
    ExitKeeps(c, s, p);
    if s.lock == Some(p) {
      ReleaseKeeps(c, Exit(s, p), p);
    }
  }

  lemma GrabKeeps(c: Session, s: System, p: Pid, pc: PC)
    requires Inv(c, s) && p in s.procs && s.lock.None? && ProcOk(c, s, s.procs[p].(pc := pc))
    ensures Inv(c, Goto(s.(lock := Some(p)), p, pc))
  {
    var s' := Goto(s.(lock := Some(p)), p, pc);
    MarkStays(c, s, s');
    Assemble(c, s, s', p);
  }

  /** Every action, a crash and a refused lock included, keeps the invariant. */
  lemma ApplyKeeps(c: Session, s: System, a: Action)
    requires Inv(c, s) && Enabled(s, a)
    ensures Inv(c, Apply(c, s, a))
  {
    match a {
      case Tick(p, luck) => OperateKeeps(c, s, p, luck);
      case Log(path, rec) => LogKeeps(c, s, [Logged(path, rec)]);
      case Spawn(p, start, end) => SpawnKeeps(c, s, p, Apply(c, s, a).procs[p]);
      case SpawnOther(p, job) => SpawnKeeps(c, s, p, Apply(c, s, a).procs[p]);
      case Crash(p) => CrashKeeps(c, s, p);
      case Grab(p) =>
        assert ProcOk(c, s, s.procs[p]);
        GrabKeeps(c, s, p, FirstStep(s.procs[p].pc.job));
      case GiveUp(p) => GotoKeeps(c, s, p, DropMark(s.procs[p].pc.job));
    }
  }

  lemma InitialOk(c: Session, record: Option<Given>)
    ensures Inv(c, Initial(record))
  {
  }

  lemma {:induction false} RunKeeps(c: Session, states: seq<System>, actions: seq<Action>, i: nat)
    requires Run(c, states, actions) && i <= |actions|
    ensures Inv(c, states[i])
  {
    if i == 0 {
      InitialOk(c, states[0].record);
    } else {
      RunKeeps(c, states, actions, i - 1);
      ApplyKeeps(c, states[i - 1], actions[i - 1]);
    }
  }
}
