/**
 * Guidance is never lost: after every compact start whose answer was written, answers given since the transcript's
 * last compaction were asked for the pointers and the session binding, whether the compact said them, said only the
 * pointers, or stayed silent because the resume of its own turn gave them.
 */
module GuidanceCoverage {
  import opened Common
  import opened Guidance
  import opened GuidanceRuns
  import opened GuidanceTexts
  import opened ContextBudget
  import Rollout

  ghost predicate NoCompactionBetween(history: seq<Event>, i: nat, j: nat, path: string) {
    forall k | i <= k < j && k < |history| && history[k].Logged? && history[k].path == path :: !history[k].rec.IsCompaction()
  }

  // ----- what the order of the host adds to the invariant

  /** The pair a process works with, once the transcript has shown it to be its own. */
  function OwnPair(pc: PC): Option<Mark> {
    match pc
    case CheckRecord(_, m) => Some(m)
    case TakeMark(_, m) => Some(m)
    case TakeSweep(_, pair) => if pair.Taken? then Some(pair.m) else None
    case Unlock(_, pair) => if pair.Taken? then Some(pair.m) else None
    case Saying(answer) => if answer.SayPointers? || answer.StaySilent? then Some(answer.m) else None
    case _ => None
  }

  function JobOf(pc: PC): Option<Job> {
    match pc
    case WantLock(job) => Some(job)
    case Remove(job) => Some(job)
    case Sweep(job) => Some(job)
    case WriteRecord(job) => Some(job)
    case WriteMark(job) => Some(job)
    case _ => None
  }

  ghost predicate BodyQuiet(history: seq<Event>, pr: Proc) {
    var job := JobOf(pr.pc);
    job.Some? && job.value.Storing? && job.value.body.Some? ==>
      NoCompactionBetween(history, pr.said, job.value.body.value.read, pr.start.path)
  }

  ghost predicate HostProc(s: System, pr: Proc) {
    && (pr.pc.Reading? ==> pr.hook && NoCompaction(s.history, pr.said, pr.start.path))
    && BodyQuiet(s.history, pr)
    && (OwnPair(pr.pc).Some? ==>
          var m := OwnPair(pr.pc).value;
          pr.hook && m.gen in s.origin && NoCompaction(s.history, s.origin[m.gen].said, m.path))
    && (!pr.hook ==> OnlyEnds(pr.pc))
  }

  /** A process that is not a start only ends pairs or counts a prompt. */
  predicate OnlyEnds(pc: PC) {
    match pc
    case WantLock(job) => job.Clearing? || job.Noting?
    case DropMark(job) => job.Clearing? || job.Noting?
    case DropPrompts(job) => job.Clearing? || job.Noting?
    case Remove(job) => job.Clearing? || job.Noting?
    case Sweep(job) => job.Clearing? || job.Noting?
    case ReadMark(job) => job.Noting?
    case NotePrompt(job, _) => job.Noting?
    case RecountPrompts(job, _) => job.Noting?
    case Unlock(job, pair) => (job.Clearing? || job.Noting?) && pair.NoPair?
    case _ => false
  }

  ghost predicate OriginsQuiet(s: System) {
    forall g | g in s.origin :: NoCompactionBetween(s.history, s.origin[g].said, s.origin[g].read, s.origin[g].start.path)
  }

  ghost predicate OriginsPast(s: System) { forall g | g in s.origin :: s.origin[g].read <= |s.history| }

  ghost predicate AnswersCovered(c: Session, history: seq<Event>) {
    forall k | 0 <= k < |history| && history[k].Answered? :: Covered(c, history[..k + 1], history[k].start)
  }

  ghost predicate HostInv(c: Session, s: System) {
    && OriginsQuiet(s) && OriginsPast(s) && AnswersCovered(c, s.history)
    && forall p | p in s.procs :: HostProc(s, s.procs[p])
  }

  /** New events hold no compaction, unless no start is running. */
  ghost predicate QuietExtension(s: System, history: seq<Event>) {
    && s.history <= history
    && ((forall j | |s.history| <= j < |history| && history[j].Logged? :: !history[j].rec.IsCompaction())
        || forall p | p in s.procs :: !s.procs[p].hook)
  }

  lemma OtherHostProc(s: System, s': System, q: Pid)
    requires q in s.procs && HostProc(s, s.procs[q]) && QuietExtension(s, s'.history)
    requires forall g | g in s.origin :: g in s'.origin && s'.origin[g] == s.origin[g]
    requires BodyInPast(s, s.procs[q])
    ensures HostProc(s', s.procs[q])
  {
  }

  /** The body of a job was read from a history that is already there. */
  ghost predicate BodyInPast(s: System, pr: Proc) {
    var job := JobOf(pr.pc);
    job.Some? && job.value.Storing? && job.value.body.Some? ==> job.value.body.value.read <= |s.history|
  }

  lemma ProcInPast(c: Session, s: System, pr: Proc)
    requires ProcOk(c, s, pr)
    ensures BodyInPast(s, pr)
    ensures OwnPair(pr.pc).Some? ==> MarkFrom(c, s.history, s.origin, OwnPair(pr.pc).value)
  {
  }

  lemma OriginsStayQuiet(s: System, s': System)
    requires OriginsQuiet(s) && OriginsPast(s) && s.history <= s'.history && s'.origin == s.origin
    ensures OriginsQuiet(s') && OriginsPast(s')
  {
  }

  lemma AnswersStay(c: Session, history: seq<Event>, e: seq<Event>)
    requires AnswersCovered(c, history)
    requires forall i | 0 <= i < |e| && e[i].Answered? :: Covered(c, history + e[..i + 1], e[i].start)
    ensures AnswersCovered(c, history + e)
  {
    var all := history + e;
    forall k | 0 <= k < |all| && all[k].Answered? ensures Covered(c, all[..k + 1], all[k].start) {
      if k < |history| {
        assert all[..k + 1] == history[..k + 1];
      } else {
        assert all[..k + 1] == history + e[..k - |history| + 1];
      }
    }
  }

  // ----- the evidence of the turn

  /** The transcript that shows the compact's turn shows no compaction since the resume read it. */
  lemma TurnShowsNoCompaction(c: Session, history: seq<Event>, origin: map<Gen, Origin>, m: Mark)
    requires MarkFrom(c, history, origin, m) && SameTurn(history, m.path, m)
    ensures NoCompaction(history, origin[m.gen].read, m.path)
  {
    var read := origin[m.gen].read;
    var past, since := history[..read], history[read..];
    assert history == past + since;
    LogOfSplit(past, since, m.path);
    assert LogOf(history, m.path)[m.offset..] == LogOf(since, m.path);
    forall r | r in LogOf(since, m.path) ensures !r.IsCompaction() {
      var i :| 0 <= i < |LogOf(since, m.path)| && LogOf(since, m.path)[i] == r;
    }
    QuietLog(since, m.path);
    forall j | read <= j < |history| && history[j].Logged? && history[j].path == m.path ensures !history[j].rec.IsCompaction() {
      assert since[j - read] == history[j];
    }
  }

  // ----- every operation of a host run keeps it

  /** The host invariant follows from the parts an operation of p changes. */
  lemma HostAssemble(c: Session, s: System, s': System, p: Pid)
    requires Inv(c, s) && HostInv(c, s) && QuietExtension(s, s'.history)
    requires forall g | g in s.origin :: g in s'.origin && s'.origin[g] == s.origin[g]
    requires forall q | q in s'.procs && q != p :: q in s.procs && s'.procs[q] == s.procs[q]
    requires p in s'.procs ==> HostProc(s', s'.procs[p])
    requires OriginsQuiet(s') && OriginsPast(s') && AnswersCovered(c, s'.history)
    ensures HostInv(c, s')
  {
    forall q | q in s'.procs ensures HostProc(s', s'.procs[q]) {
      if q != p {
        ProcInPast(c, s, s.procs[q]);
        OtherHostProc(s, s', q);
      }
    }
  }

  /** An operation of p that leaves the history, the origins and the other processes as they are, and p in order. */
  ghost predicate HostOwn(s: System, s': System, p: Pid) {
    && s'.history == s.history && s'.origin == s.origin
    && (forall q | q in s'.procs && q != p :: q in s.procs && s'.procs[q] == s.procs[q])
    && (p in s'.procs ==> HostProc(s, s'.procs[p]))
  }

  lemma HostQuiet(c: Session, s: System, s': System, p: Pid)
    requires Inv(c, s) && HostInv(c, s) && HostOwn(s, s', p)
    ensures HostInv(c, s')
  {
    HostAssemble(c, s, s', p);
  }

  /** Which jobs reach an operation. */
  predicate KindOk(pc: PC) {
    match pc
    case ReadMark(job) => job.Taking? || job.Noting?
    case CountPrompts(job, _) => job.Taking?
    case CheckTurn(job, _) => job.Taking?
    case CheckRecord(job, _) => job.Taking?
    case TakeMark(job, _) => job.Taking?
    case NotePrompt(job, _) => job.Noting?
    case RecountPrompts(job, _) => job.Noting?
    case _ => true
  }

  lemma ProcKind(c: Session, s: System, pr: Proc)
    requires ProcOk(c, s, pr)
    ensures KindOk(pr.pc) && (pr.pc.CheckTurn? ==> MarkFrom(c, s.history, s.origin, pr.pc.m))
  {
  }

  lemma OwnDecide(c: Session, s: System, p: Pid, luck: Luck)
    requires p in s.procs && s.procs[p].pc.Deciding? && KindOk(s.procs[p].pc) && HostProc(s, s.procs[p])
    ensures HostOwn(s, DecideStep(c, s, p, luck), p)
  {
  }

  lemma OwnRead(c: Session, s: System, p: Pid, luck: Luck)
    requires p in s.procs && s.procs[p].pc.Reading? && KindOk(s.procs[p].pc) && HostProc(s, s.procs[p])
    ensures HostOwn(s, ReadStep(c, s, p, luck), p)
  {
  }

  lemma OwnDrop(c: Session, s: System, p: Pid, luck: Luck)
    requires p in s.procs && (s.procs[p].pc.DropMark? || s.procs[p].pc.DropPrompts?) && KindOk(s.procs[p].pc) && HostProc(s, s.procs[p])
    ensures HostOwn(s, DropStep(c, s, p, luck), p)
  {
  }

  lemma OwnRemove(c: Session, s: System, p: Pid, luck: Luck)
    requires p in s.procs && s.procs[p].pc.Remove? && KindOk(s.procs[p].pc) && HostProc(s, s.procs[p])
    ensures HostOwn(s, RemoveStep(c, s, p, luck), p)
  {
  }

  lemma OwnSweep(c: Session, s: System, p: Pid, luck: Luck)
    requires p in s.procs && s.procs[p].pc.Sweep? && KindOk(s.procs[p].pc) && HostProc(s, s.procs[p])
    ensures HostOwn(s, SweepStep(c, s, p, luck), p)
  {
  }

  lemma OwnWriteRecord(c: Session, s: System, p: Pid, luck: Luck)
    requires p in s.procs && s.procs[p].pc.WriteRecord? && KindOk(s.procs[p].pc) && HostProc(s, s.procs[p])
    ensures HostOwn(s, WriteRecordStep(c, s, p, luck), p)
  {
  }

  lemma OwnReadMark(c: Session, s: System, p: Pid, luck: Luck)
    requires p in s.procs && s.procs[p].pc.ReadMark? && KindOk(s.procs[p].pc) && HostProc(s, s.procs[p])
    ensures HostOwn(s, ReadMarkStep(c, s, p, luck), p)
  {
    var pr, pc := s.procs[p], ReadMarkStep(c, s, p, luck).procs[p].pc;
    assert pc.Unlock? ==> pc.pair.NoPair?;
    assert HostProc(s, pr.(pc := pc));
  }

  lemma OwnCount(c: Session, s: System, p: Pid, luck: Luck)
    requires p in s.procs && s.procs[p].pc.CountPrompts? && KindOk(s.procs[p].pc) && HostProc(s, s.procs[p])
    ensures HostOwn(s, CountStep(c, s, p, luck), p)
  {
  }

  /** The step that needs the transcript: it shows the pair to be the compact's own. */
  lemma OwnCheckTurn(c: Session, s: System, p: Pid, luck: Luck)
    requires p in s.procs && s.procs[p].pc.CheckTurn? && KindOk(s.procs[p].pc) && HostProc(s, s.procs[p]) && OriginsQuiet(s)
    requires MarkFrom(c, s.history, s.origin, s.procs[p].pc.m)
    ensures HostOwn(s, CheckTurnStep(c, s, p, luck), p)
  {
    var pr := s.procs[p];
    var m := pr.pc.m;
    if luck.ok && SameTurn(s.history, pr.start.path, m) {
      TurnShowsNoCompaction(c, s.history, s.origin, m);
      var o := s.origin[m.gen];
      assert NoCompactionBetween(s.history, o.said, o.read, m.path);
      assert NoCompaction(s.history, o.said, m.path);
    }
  }

  lemma OwnCheckRecord(c: Session, s: System, p: Pid, luck: Luck)
    requires p in s.procs && s.procs[p].pc.CheckRecord? && KindOk(s.procs[p].pc) && HostProc(s, s.procs[p])
    ensures HostOwn(s, CheckRecordStep(c, s, p, luck), p)
  {
  }

  lemma OwnTakeMark(c: Session, s: System, p: Pid, luck: Luck)
    requires p in s.procs && s.procs[p].pc.TakeMark? && KindOk(s.procs[p].pc) && HostProc(s, s.procs[p])
    ensures HostOwn(s, TakeMarkStep(c, s, p, luck), p)
  {
  }

  lemma OwnTakeSweep(c: Session, s: System, p: Pid, luck: Luck)
    requires p in s.procs && s.procs[p].pc.TakeSweep? && KindOk(s.procs[p].pc) && HostProc(s, s.procs[p])
    ensures HostOwn(s, TakeSweepStep(c, s, p, luck), p)
  {
  }

  lemma OwnNote(c: Session, s: System, p: Pid, luck: Luck)
    requires p in s.procs && s.procs[p].pc.NotePrompt? && KindOk(s.procs[p].pc) && HostProc(s, s.procs[p])
    ensures HostOwn(s, NoteStep(c, s, p, luck), p)
  {
  }

  lemma OwnRecount(c: Session, s: System, p: Pid, luck: Luck)
    requires p in s.procs && s.procs[p].pc.RecountPrompts? && KindOk(s.procs[p].pc) && HostProc(s, s.procs[p])
    ensures HostOwn(s, RecountStep(c, s, p, luck), p)
  {
  }

  lemma OwnUnlock(c: Session, s: System, p: Pid, luck: Luck)
    requires p in s.procs && s.procs[p].pc.Unlock? && KindOk(s.procs[p].pc) && HostProc(s, s.procs[p])
    ensures HostOwn(s, UnlockStep(c, s, p, luck), p)
  {
  }

  /** Every operation but writing an answer and writing a mark: those that hold no pair, and those of a pair or a prompt. */
  predicate Plain(pc: PC) {
    pc.Deciding? || pc.Reading? || pc.DropMark? || pc.DropPrompts? || pc.Remove? || pc.Sweep? || pc.WriteRecord? || pc.Unlock?
  }

  lemma OwnPlain(c: Session, s: System, p: Pid, luck: Luck)
    requires p in s.procs && Plain(s.procs[p].pc) && KindOk(s.procs[p].pc) && HostProc(s, s.procs[p])
    ensures HostOwn(s, Operate(c, s, p, luck), p)
  {
    match s.procs[p].pc {
      case Deciding => OwnDecide(c, s, p, luck);
      case Reading(_) => OwnRead(c, s, p, luck);
      case DropMark(_) => OwnDrop(c, s, p, luck);
      case DropPrompts(_) => OwnDrop(c, s, p, luck);
      case Remove(_) => OwnRemove(c, s, p, luck);
      case Sweep(_) => OwnSweep(c, s, p, luck);
      case WriteRecord(_) => OwnWriteRecord(c, s, p, luck);
      case Unlock(_, _) => OwnUnlock(c, s, p, luck);
    }
  }

  lemma OwnPaired(c: Session, s: System, p: Pid, luck: Luck)
    requires Enabled(s, Tick(p, luck)) && !Plain(s.procs[p].pc) && !s.procs[p].pc.Saying? && !s.procs[p].pc.WriteMark?
    requires KindOk(s.procs[p].pc) && HostProc(s, s.procs[p]) && OriginsQuiet(s)
    requires s.procs[p].pc.CheckTurn? ==> MarkFrom(c, s.history, s.origin, s.procs[p].pc.m)
    ensures HostOwn(s, Operate(c, s, p, luck), p)
  {
    match s.procs[p].pc {
      case ReadMark(_) => OwnReadMark(c, s, p, luck);
      case CountPrompts(_, _) => OwnCount(c, s, p, luck);
      case CheckTurn(_, _) => OwnCheckTurn(c, s, p, luck);
      case CheckRecord(_, _) => OwnCheckRecord(c, s, p, luck);
      case TakeMark(_, _) => OwnTakeMark(c, s, p, luck);
      case TakeSweep(_, _) => OwnTakeSweep(c, s, p, luck);
      case NotePrompt(_, _) => OwnNote(c, s, p, luck);
      case RecountPrompts(_, _) => OwnRecount(c, s, p, luck);
    }
  }

  /** A mark is written: its origin joins the others. */
  lemma HostMarked(c: Session, s: System, s': System, p: Pid, gen: Gen)
    requires Inv(c, s) && HostInv(c, s) && p in s.procs && s.procs[p].pc.WriteMark? && gen !in s.origin
    requires s.procs[p].pc.job.Storing? && s.procs[p].pc.job.body.Some?
    requires s'.origin == s.origin[gen := Origin(s.procs[p].start, s.procs[p].said, s.procs[p].pc.job.body.value.read)]
    requires s'.procs == s.procs[p := s.procs[p].(pc := Unlock(s.procs[p].pc.job, NoPair))]
    requires s'.history == s.history
    ensures HostInv(c, s')
  {
    var pr := s.procs[p];
    assert ProcOk(c, s, pr) && HostProc(s, pr);
    HostAssemble(c, s, s', p);
  }

  lemma OwnUnmarked(c: Session, s: System, p: Pid, luck: Luck)
    requires p in s.procs && s.procs[p].pc.WriteMark? && HostProc(s, s.procs[p])
    requires var job := s.procs[p].pc.job; !job.Storing? || job.body.None? || !luck.ok
    ensures HostOwn(s, WriteMarkStep(c, s, p, luck), p)
  {
  }

  lemma HostWriteMark(c: Session, s: System, p: Pid, luck: Luck)
    requires Inv(c, s) && HostInv(c, s) && Enabled(s, Tick(p, luck)) && s.procs[p].pc.WriteMark?
    ensures HostInv(c, WriteMarkStep(c, s, p, luck))
  {
    var job := s.procs[p].pc.job;
    if !job.Storing? || job.body.None? || !luck.ok {
      OwnUnmarked(c, s, p, luck);
      HostQuiet(c, s, WriteMarkStep(c, s, p, luck), p);
    } else {
      HostMarked(c, s, WriteMarkStep(c, s, p, luck), p, luck.gen);
    }
  }

  /** Writing an answer: new texts, and for a compact the claim that they cover it. */
  lemma HostSays(c: Session, s: System, s': System, p: Pid, e: seq<Event>)
    requires Inv(c, s) && HostInv(c, s) && p in s.procs && s'.history == s.history + e && s'.origin == s.origin
    requires forall i | 0 <= i < |e| :: !e[i].Logged?
    requires forall i | 0 <= i < |e| && e[i].Answered? :: Covered(c, s.history + e[..i + 1], e[i].start)
    requires forall q | q in s'.procs && q != p :: q in s.procs && s'.procs[q] == s.procs[q]
    requires p in s'.procs ==> HostProc(s', s'.procs[p])
    ensures HostInv(c, s')
  {
    AnswersStay(c, s.history, e);
    OriginsStayQuiet(s, s');
    HostAssemble(c, s, s', p);
  }

  lemma HostSaySilent(c: Session, s: System, p: Pid, m: Mark, ok: bool)
    requires Inv(c, s) && HostInv(c, s) && p in s.procs && s.procs[p].pc == Saying(StaySilent(m))
    ensures HostInv(c, Say(c, s, p, StaySilent(m), ok))
  {
    var start := s.procs[p].start;
    assert ProcOk(c, s, s.procs[p]) && HostProc(s, s.procs[p]);
    SilentCovers(c, s, start, m);
    SilenceKeeps(c, s, p);
  }

  lemma SilenceKeeps(c: Session, s: System, p: Pid)
    requires Inv(c, s) && HostInv(c, s) && p in s.procs && Covered(c, s.history + [Answered(s.procs[p].start)], s.procs[p].start)
    ensures HostInv(c, Exit(s.(history := s.history + [Answered(s.procs[p].start)]), p))
  {
    var e := [Answered(s.procs[p].start)];
    var s' := Exit(s.(history := s.history + e), p);
    assert e[..1] == e && p !in s'.procs;
    assert forall q | q in s'.procs :: q in s.procs && s'.procs[q] == s.procs[q];
    HostSays(c, s, s', p, e);
  }

  /** An answer that was not written whole leaves no record and no pair. */
  lemma HostUnsaid(c: Session, s: System, p: Pid, answer: Answer)
    requires Inv(c, s) && HostInv(c, s) && p in s.procs && s.procs[p].pc == Saying(answer) && !answer.StaySilent?
    ensures HostInv(c, Say(c, s, p, answer, false))
  {
    OwnUnsaid(c, s, p, answer);
    HostQuiet(c, s, Say(c, s, p, answer, false), p);
  }

  lemma OwnUnsaid(c: Session, s: System, p: Pid, answer: Answer)
    requires p in s.procs && HostProc(s, s.procs[p]) && s.procs[p].pc == Saying(answer) && !answer.StaySilent?
    ensures HostOwn(s, Say(c, s, p, answer, false), p)
  {
  }

  lemma HostSayPointers(c: Session, s: System, p: Pid, m: Mark)
    requires Inv(c, s) && HostInv(c, s) && p in s.procs && s.procs[p].pc == Saying(SayPointers(m))
    ensures HostInv(c, Say(c, s, p, SayPointers(m), true))
  {
    var start := s.procs[p].start;
    assert ProcOk(c, s, s.procs[p]) && HostProc(s, s.procs[p]);
    PointersCover(c, s, start, m);
    HostSaysToCompact(c, s, p, PointerList(c, start));
  }

  /** A compact that has said something, which covers it, goes on to record it. */
  lemma HostSaysToCompact(c: Session, s: System, p: Pid, sections: seq<Section>)
    requires Inv(c, s) && HostInv(c, s) && p in s.procs && HostProc(s, s.procs[p]) && s.procs[p].pc.Saying?
    requires Covered(c, s.history + [Said(sections), Answered(s.procs[p].start)], s.procs[p].start)
    ensures var start := s.procs[p].start;
      HostInv(c, Goto(s.(history := s.history + [Said(sections), Answered(start)]), p, WantLock(Storing(Some(start.given), None))))
  {
    var start := s.procs[p].start;
    var e := [Said(sections), Answered(start)];
    assert e[..2] == e;
    HostSays(c, s, Goto(s.(history := s.history + e), p, WantLock(Storing(Some(start.given), None))), p, e);
  }

  lemma HostSayWhole(c: Session, s: System, p: Pid)
    requires Inv(c, s) && HostInv(c, s) && p in s.procs && s.procs[p].pc == Saying(SayWhole)
    ensures HostInv(c, Say(c, s, p, SayWhole, true))
  {
    var start := s.procs[p].start;
    if start.source.Compact? {
      WholeCovers(c, s.history, start);
      HostSaysToCompact(c, s, p, WholeList(c, start));
    } else {
      SaidLeaves(c, s, p);
      HostSays(c, s, Say(c, s, p, SayWhole, true), p, [Said(WholeList(c, start))]);
    }
  }

  lemma SaidLeaves(c: Session, s: System, p: Pid)
    requires p in s.procs && s.procs[p].pc == Saying(SayWhole) && !s.procs[p].start.source.Compact? && HostProc(s, s.procs[p])
    ensures var s' := Say(c, s, p, SayWhole, true);
      && s'.history == s.history + [Said(WholeList(c, s.procs[p].start))] && s'.origin == s.origin
      && s'.procs == s.procs[p := s'.procs[p]] && HostProc(s', s'.procs[p])
  {
  }

  lemma HostSayHead(c: Session, s: System, p: Pid)
    requires Inv(c, s) && HostInv(c, s) && p in s.procs && s.procs[p].pc == Saying(SayHead)
    ensures HostInv(c, Say(c, s, p, SayHead, true))
  {
    assert ProcOk(c, s, s.procs[p]) && HostProc(s, s.procs[p]);
    HostSays(c, s, Say(c, s, p, SayHead, true), p, [Said(HeadList(c, s.procs[p].start))]);
  }

  lemma HostOperate(c: Session, s: System, p: Pid, luck: Luck)
    requires Inv(c, s) && HostInv(c, s) && Enabled(s, Tick(p, luck))
    ensures HostInv(c, Operate(c, s, p, luck))
  {
    match s.procs[p].pc {
      case Saying(answer) =>
        if answer.StaySilent? {
          HostSaySilent(c, s, p, answer.m, luck.ok);
        } else if luck.ok {
          HostSaid(c, s, p, answer);
        } else {
          HostUnsaid(c, s, p, answer);
        }
      case WriteMark(_) => HostWriteMark(c, s, p, luck);
      case _ => HostOwnOperation(c, s, p, luck);
    }
  }

  lemma HostSaid(c: Session, s: System, p: Pid, answer: Answer)
    requires Inv(c, s) && HostInv(c, s) && p in s.procs && s.procs[p].pc == Saying(answer) && !answer.StaySilent?
    ensures HostInv(c, Say(c, s, p, answer, true))
  {
    match answer {
      case SayWhole => HostSayWhole(c, s, p);
      case SayHead => HostSayHead(c, s, p);
      case SayPointers(m) => HostSayPointers(c, s, p, m);
    }
  }

  lemma HostOwnOperation(c: Session, s: System, p: Pid, luck: Luck)
    requires Inv(c, s) && HostInv(c, s) && Enabled(s, Tick(p, luck)) && !s.procs[p].pc.Saying? && !s.procs[p].pc.WriteMark?
    ensures HostInv(c, Operate(c, s, p, luck))
  {
    ProcKind(c, s, s.procs[p]);
    if Plain(s.procs[p].pc) {
      OwnPlain(c, s, p, luck);
    } else {
      OwnPaired(c, s, p, luck);
    }
    HostQuiet(c, s, Operate(c, s, p, luck), p);
  }

  lemma HostLog(c: Session, s: System, path: string, rec: Rollout.Record)
    requires Inv(c, s) && HostInv(c, s) && HostOrder(s, Log(path, rec))
    ensures HostInv(c, s.(history := s.history + [Logged(path, rec)]))
  {
    var s' := s.(history := s.history + [Logged(path, rec)]);
    AnswersStay(c, s.history, [Logged(path, rec)]);
    OriginsStayQuiet(s, s');
    forall q | q in s'.procs ensures HostProc(s', s'.procs[q]) {
      ProcInPast(c, s, s.procs[q]);
      OtherHostProc(s, s', q);
    }
  }

  lemma HostComesAndGoes(c: Session, s: System, a: Action)
    requires Inv(c, s) && HostInv(c, s) && Enabled(s, a) && (a.Spawn? || a.SpawnOther? || a.Crash?)
    ensures HostInv(c, Apply(c, s, a))
  {
    HostQuiet(c, s, Apply(c, s, a), a.p);
  }

  lemma HostLocks(c: Session, s: System, a: Action)
    requires Inv(c, s) && HostInv(c, s) && Enabled(s, a) && (a.Grab? || a.GiveUp?)
    ensures HostInv(c, Apply(c, s, a))
  {
    OwnLocks(c, s, a);
    HostQuiet(c, s, Apply(c, s, a), a.p);
  }

  lemma OwnLocks(c: Session, s: System, a: Action)
    requires Enabled(s, a) && (a.Grab? || a.GiveUp?) && HostProc(s, s.procs[a.p])
    ensures HostOwn(s, Apply(c, s, a), a.p)
  {
  }

  lemma HostApply(c: Session, s: System, a: Action)
    requires Inv(c, s) && HostInv(c, s) && Enabled(s, a) && HostOrder(s, a)
    ensures HostInv(c, Apply(c, s, a))
  {
    match a {
      case Tick(p, luck) => HostOperate(c, s, p, luck);
      case Log(path, rec) => HostLog(c, s, path, rec);
      case Grab(_) => HostLocks(c, s, a);
      case GiveUp(_) => HostLocks(c, s, a);
      case _ => HostComesAndGoes(c, s, a);
    }
  }

  lemma {:induction false} HostRunKeeps(c: Session, states: seq<System>, actions: seq<Action>, i: nat)
    requires HostRun(c, states, actions) && i <= |actions|
    ensures HostInv(c, states[i])
  {
    if i > 0 {
      HostRunKeeps(c, states, actions, i - 1);
      HostNext(c, states, actions, i - 1);
    }
  }

  lemma HostNext(c: Session, states: seq<System>, actions: seq<Action>, i: nat)
    requires HostRun(c, states, actions) && i < |actions| && HostInv(c, states[i])
    ensures HostInv(c, states[i + 1])
  {
    RunKeeps(c, states, actions, i);
    var s, a := states[i], actions[i];
    assert Enabled(s, a) && HostOrder(s, a) && states[i + 1] == Apply(c, s, a);
    HostApply(c, s, a);
  }

  /**
   * Guidance coverage: in every run of a host that keeps its order, at every compact start whose answer was written,
   * answers given since the transcript's last compaction hold its pointers, up to the count of files, and its binding:
   * everything where the sections of those answers fit the budget, and the required ones unless they are refused.
   */
  lemma GuidanceIsCovered(c: Session, states: seq<System>, actions: seq<Action>, i: nat, k: nat)
    requires HostRun(c, states, actions) && i <= |actions|
    requires k < |states[i].history| && states[i].history[k].Answered?
    ensures var history, start := states[i].history[..k + 1], states[i].history[k].start;
      Covered(c, history, start) && PointersShown(c, history, start) && BindingShown(c, history, start)
  {
    HostRunKeeps(c, states, actions, i);
    AskedIsShown(c, states[i].history[..k + 1], states[i].history[k].start);
  }

  /**
   * A pair is taken only in its own turn: when a compact goes on to take a mark, the last compaction of the
   * transcript it names is the finished compaction of the mark's turn, and what follows it is of that turn.
   */
  lemma TakenInItsTurn(c: Session, s: System, p: Pid, luck: Luck)
    requires Inv(c, s) && Enabled(s, Tick(p, luck)) && s.procs[p].pc.CheckTurn?
    requires p in Operate(c, s, p, luck).procs && Operate(c, s, p, luck).procs[p].pc.CheckRecord?
    ensures s.procs[p].pc.m.path == s.procs[p].start.path
    ensures var m := s.procs[p].pc.m; exists k: nat :: k < m.offset && Rollout.CompactedAt(LogOf(s.history, m.path), k, m.turn)
  {
    var m := s.procs[p].pc.m;
    assert ProcOk(c, s, s.procs[p]);
    var o := s.origin[m.gen];
    var past, since := s.history[..o.read], s.history[o.read..];
    assert s.history == past + since;
    LogOfSplit(past, since, m.path);
    var seen, gained := LogOf(past, m.path), LogOf(since, m.path);
    assert LogOf(s.history, m.path)[m.offset..] == gained;
    var k: nat :| Rollout.CompactedAt(seen, k, m.turn);
    Rollout.ResumeTurnExact(seen, m.turn);
    k := Rollout.EvidenceJoins(seen, gained, m.turn);
  }
}
