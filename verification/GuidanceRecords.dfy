/** What a session's record stands for, and when a resume that relies on it still finds the pointers in the session. */
module GuidanceRecords {
  import opened Common
  import opened ContextBudget
  import opened Guidance
  import opened GuidanceRuns
  import opened GuidanceTexts
  import opened GuidanceCoverage
  import opened GuidanceLimits
  import Rollout

  // ----- what a record stands for

  /** The answer at j was asked to give the pointers of the record. */
  ghost predicate GaveAt(c: Session, history: seq<Event>, given: Given, j: nat, files: nat) {
    j < |history| && history[j].Said? && Infix(PointersAt(c.pointers(given), files), history[j].sections)
  }

  ghost predicate Gave(c: Session, history: seq<Event>, given: Given) {
    exists j: nat, files: nat :: GaveAt(c, history, given, j, files)
  }

  /** A record a process is about to store, and one a resume relies on, was given. */
  ghost predicate StoresGiven(c: Session, history: seq<Event>, pr: Proc) {
    && (JobOf(pr.pc).Some? && JobOf(pr.pc).value.Storing? && JobOf(pr.pc).value.rec.Some? ==> Gave(c, history, JobOf(pr.pc).value.rec.value))
    && (pr.pc == Reading(None) || pr.pc == Saying(SayHead) ==> Gave(c, history, pr.start.given))
  }

  ghost predicate RecordsGiven(c: Session, s: System) {
    && (s.record.Some? ==> Gave(c, s.history, s.record.value))
    && forall p | p in s.procs :: StoresGiven(c, s.history, s.procs[p])
  }

  lemma GaveExtends(c: Session, history: seq<Event>, longer: seq<Event>, given: Given)
    requires Gave(c, history, given) && history <= longer
    ensures Gave(c, longer, given)
  {
    var j: nat, files: nat :| GaveAt(c, history, given, j, files);
    assert GaveAt(c, longer, given, j, files);
  }

  lemma StoresExtends(c: Session, history: seq<Event>, longer: seq<Event>, pr: Proc)
    requires StoresGiven(c, history, pr) && history <= longer
    ensures StoresGiven(c, longer, pr)
  {
    forall given | Gave(c, history, given) ensures Gave(c, longer, given) {
      GaveExtends(c, history, longer, given);
    }
  }

  /** What follows from the parts an operation of p changes. */
  lemma RecordsAssemble(c: Session, s: System, s': System, p: Pid)
    requires RecordsGiven(c, s) && s.history <= s'.history
    requires forall q | q in s'.procs && q != p :: q in s.procs && s'.procs[q] == s.procs[q]
    requires s'.record == s.record || (s'.record.Some? && Gave(c, s.history, s'.record.value))
    requires p in s'.procs ==> StoresGiven(c, s'.history, s'.procs[p])
    ensures RecordsGiven(c, s')
  {
    if s'.record.Some? {
      GaveExtends(c, s.history, s'.history, s'.record.value);
    }
    forall q | q in s'.procs ensures StoresGiven(c, s'.history, s'.procs[q]) {
      if q != p { StoresExtends(c, s.history, s'.history, s.procs[q]); }
    }
  }

  /** An operation that changes no record and no history, after which the process goes on with the job it had, or stores nothing. */
  ghost predicate CarriesJob(s: System, s': System, p: Pid)
    requires p in s.procs
  {
    && s'.history == s.history && s'.record == s.record
    && (forall q | q in s'.procs && q != p :: q in s.procs && s'.procs[q] == s.procs[q])
    && (p in s'.procs ==>
          var pc, pc' := s.procs[p].pc, s'.procs[p].pc;
          && (JobOf(pc').Some? && JobOf(pc').value.Storing? ==> JobOf(pc') == JobOf(pc))
          && pc' != Reading(None) && pc' != Saying(SayHead))
  }

  lemma CarriedKeeps(c: Session, s: System, s': System, p: Pid)
    requires RecordsGiven(c, s) && p in s.procs && CarriesJob(s, s', p)
    ensures RecordsGiven(c, s')
  {
    assert StoresGiven(c, s.history, s.procs[p]);
    RecordsAssemble(c, s, s', p);
  }

  lemma EndingCarries(c: Session, s: System, p: Pid, luck: Luck)
    requires p in s.procs
    requires var pc := s.procs[p].pc; pc.DropMark? || pc.DropPrompts? || pc.Remove? || pc.Sweep? || pc.WriteMark? || pc.Unlock?
    ensures CarriesJob(s, Operate(c, s, p, luck), p)
  {
  }

  lemma LookingCarries(c: Session, s: System, p: Pid, luck: Luck)
    requires p in s.procs && KindOk(s.procs[p].pc)
    requires var pc := s.procs[p].pc; pc.ReadMark? || pc.CountPrompts? || pc.CheckTurn? || pc.NotePrompt? || pc.RecountPrompts?
    ensures CarriesJob(s, Operate(c, s, p, luck), p)
  {
  }

  lemma TakingCarries(c: Session, s: System, p: Pid, luck: Luck)
    requires p in s.procs && KindOk(s.procs[p].pc)
    requires var pc := s.procs[p].pc; pc.CheckRecord? || pc.TakeMark? || pc.TakeSweep?
    ensures CarriesJob(s, Operate(c, s, p, luck), p)
  {
  }

  /** The steps that store a record, or rely on one. */
  lemma RecordSteps(c: Session, s: System, p: Pid, luck: Luck)
    requires RecordsGiven(c, s) && p in s.procs && (s.procs[p].pc.Deciding? || s.procs[p].pc.Reading? || s.procs[p].pc.WriteRecord?)
    ensures RecordsGiven(c, Operate(c, s, p, luck))
  {
    assert StoresGiven(c, s.history, s.procs[p]);
    RecordsAssemble(c, s, Operate(c, s, p, luck), p);
  }

  lemma SaidGives(c: Session, history: seq<Event>, sections: seq<Section>, rest: seq<Event>, given: Given, files: nat)
    requires Infix(PointersAt(c.pointers(given), files), sections)
    ensures Gave(c, history + ([Said(sections)] + rest), given)
  {
    assert GaveAt(c, history + ([Said(sections)] + rest), given, |history|, files);
  }

  /** An answer that was written gave the pointers it records; any other stores nothing. */
  lemma SayStores(c: Session, s: System, p: Pid, answer: Answer, ok: bool)
    requires RecordsGiven(c, s) && p in s.procs && s.procs[p].pc == Saying(answer)
    ensures RecordsGiven(c, Say(c, s, p, answer, ok))
  {
    var s' := Say(c, s, p, answer, ok);
    if ok && answer.SayWhole? {
      SayGivesWhole(c, s, p);
    } else if ok && answer.SayPointers? {
      SayGivesPointers(c, s, p, answer);
    }
    SayOthers(c, s, p, answer, ok);
    RecordsAssemble(c, s, s', p);
  }

  predicate GivesPointers(answer: Answer, ok: bool) { ok && (answer.SayWhole? || answer.SayPointers?) }

  /** What an answer stores was given, if the answer gave what it says; nothing else changes. */
  ghost predicate SaidInOrder(c: Session, s: System, s': System, p: Pid, gives: bool)
    requires p in s.procs
  {
    && s.history <= s'.history && s'.record == s.record
    && (forall q | q in s'.procs && q != p :: q in s.procs && s'.procs[q] == s.procs[q])
    && (p in s'.procs && (gives ==> Gave(c, s'.history, s.procs[p].start.given)) ==> StoresGiven(c, s'.history, s'.procs[p]))
  }

  lemma SayOthers(c: Session, s: System, p: Pid, answer: Answer, ok: bool)
    requires p in s.procs && s.procs[p].pc == Saying(answer)
    ensures SaidInOrder(c, s, Say(c, s, p, answer, ok), p, GivesPointers(answer, ok))
  {
    if ok && answer.SayWhole? {
      SayWholeInOrder(c, s, p);
    } else {
      SayRestInOrder(c, s, p, answer, ok);
    }
  }

  lemma SayWholeInOrder(c: Session, s: System, p: Pid)
    requires p in s.procs && s.procs[p].pc == Saying(SayWhole)
    ensures SaidInOrder(c, s, Say(c, s, p, SayWhole, true), p, true)
  {
  }

  lemma SayRestInOrder(c: Session, s: System, p: Pid, answer: Answer, ok: bool)
    requires p in s.procs && s.procs[p].pc == Saying(answer) && !(ok && answer.SayWhole?)
    ensures SaidInOrder(c, s, Say(c, s, p, answer, ok), p, GivesPointers(answer, ok))
  {
  }

  lemma SayGivesWhole(c: Session, s: System, p: Pid)
    requires p in s.procs
    ensures Gave(c, Say(c, s, p, SayWhole, true).history, s.procs[p].start.given)
  {
    var start := s.procs[p].start;
    WholeAsks(c, start);
    SaidGives(c, s.history, WholeList(c, start), [], start.given, start.files);
    SaidGives(c, s.history, WholeList(c, start), [Answered(start)], start.given, start.files);
    assert [Said(WholeList(c, start))] + [] == [Said(WholeList(c, start))];
    assert [Said(WholeList(c, start))] + [Answered(start)] == [Said(WholeList(c, start)), Answered(start)];
  }

  lemma SayGivesPointers(c: Session, s: System, p: Pid, answer: Answer)
    requires p in s.procs && answer.SayPointers?
    ensures Gave(c, Say(c, s, p, answer, true).history, s.procs[p].start.given)
  {
    var start := s.procs[p].start;
    assert PointerList(c, start) <= PointerList(c, start)[0..];
    SaidGives(c, s.history, PointerList(c, start), [Answered(start)], start.given, start.files);
    assert [Said(PointerList(c, start))] + [Answered(start)] == [Said(PointerList(c, start)), Answered(start)];
  }

  lemma RecordsKeep(c: Session, s: System, a: Action)
    requires Inv(c, s) && RecordsGiven(c, s) && Enabled(s, a)
    ensures RecordsGiven(c, Apply(c, s, a))
  {
    match a {
      case Tick(p, luck) => RecordsTick(c, s, p, luck);
      case Log(path, rec) =>
        forall q | q in s.procs ensures StoresGiven(c, s.history + [Logged(path, rec)], s.procs[q]) {
          StoresExtends(c, s.history, s.history + [Logged(path, rec)], s.procs[q]);
        }
        if s.record.Some? { GaveExtends(c, s.history, s.history + [Logged(path, rec)], s.record.value); }
      case _ => RecordsComeAndGo(c, s, a);
    }
  }

  lemma RecordsComeAndGo(c: Session, s: System, a: Action)
    requires RecordsGiven(c, s) && Enabled(s, a) && !a.Tick? && !a.Log?
    ensures RecordsGiven(c, Apply(c, s, a))
  {
    assert a.p in s.procs ==> StoresGiven(c, s.history, s.procs[a.p]);
    RecordsAssemble(c, s, Apply(c, s, a), a.p);
  }

  lemma JobCarried(c: Session, s: System, p: Pid, luck: Luck)
    requires Enabled(s, Tick(p, luck)) && KindOk(s.procs[p].pc)
    requires var pc := s.procs[p].pc; !pc.Saying? && !pc.Deciding? && !pc.Reading? && !pc.WriteRecord?
    ensures CarriesJob(s, Operate(c, s, p, luck), p)
  {
    var pc := s.procs[p].pc;
    if pc.DropMark? || pc.DropPrompts? || pc.Remove? || pc.Sweep? || pc.WriteMark? || pc.Unlock? {
      EndingCarries(c, s, p, luck);
    } else if pc.CheckRecord? || pc.TakeMark? || pc.TakeSweep? {
      TakingCarries(c, s, p, luck);
    } else {
      LookingCarries(c, s, p, luck);
    }
  }

  lemma RecordsTick(c: Session, s: System, p: Pid, luck: Luck)
    requires Inv(c, s) && RecordsGiven(c, s) && Enabled(s, Tick(p, luck))
    ensures RecordsGiven(c, Operate(c, s, p, luck))
  {
    var pc := s.procs[p].pc;
    if pc.Saying? {
      SayStores(c, s, p, pc.answer, luck.ok);
    } else if pc.Deciding? || pc.Reading? || pc.WriteRecord? {
      RecordSteps(c, s, p, luck);
    } else {
      ProcKind(c, s, s.procs[p]);
      JobCarried(c, s, p, luck);
      CarriedKeeps(c, s, Operate(c, s, p, luck), p);
    }
  }

  lemma {:induction false} RecordsRun(c: Session, states: seq<System>, actions: seq<Action>, i: nat)
    requires Run(c, states, actions) && states[0].record.None? && i <= |actions|
    ensures RecordsGiven(c, states[i])
  {
    if i > 0 {
      RecordsRun(c, states, actions, i - 1);
      RunKeeps(c, states, actions, i - 1);
      var s, a := states[i - 1], actions[i - 1];
      assert Enabled(s, a) && states[i] == Apply(c, s, a);
      RecordsKeep(c, s, a);
    }
  }

  // ----- which answers there are

  /** The starts of a run. */
  ghost function StartsOf(actions: seq<Action>): set<Start> { set a | a in actions && a.Spawn? :: a.start }

  /** The sections are those of an answer of one of the starts: everything, the pointers alone, or the head. */
  ghost predicate ByStart(c: Session, starts: set<Start>, sections: seq<Section>) {
    exists start | start in starts :: sections == WholeList(c, start) || sections == PointerList(c, start) || sections == HeadList(c, start)
  }

  ghost predicate SaidByStarts(c: Session, starts: set<Start>, history: seq<Event>) {
    forall j | 0 <= j < |history| && history[j].Said? :: ByStart(c, starts, history[j].sections)
  }

  ghost predicate HooksAre(starts: set<Start>, s: System) {
    forall p | p in s.procs && s.procs[p].hook :: s.procs[p].start in starts
  }

  lemma SayByStart(c: Session, starts: set<Start>, s: System, p: Pid, answer: Answer, ok: bool)
    requires p in s.procs && s.procs[p].start in starts && SaidByStarts(c, starts, s.history)
    ensures SaidByStarts(c, starts, Say(c, s, p, answer, ok).history)
  {
    var start := s.procs[p].start;
    assert ByStart(c, starts, WholeList(c, start)) && ByStart(c, starts, PointerList(c, start)) && ByStart(c, starts, HeadList(c, start));
  }

  lemma OnlyAnswersSpeak(c: Session, s: System, p: Pid, luck: Luck)
    requires Enabled(s, Tick(p, luck)) && !s.procs[p].pc.Saying?
    ensures Operate(c, s, p, luck).history == s.history
  {
  }

  lemma SaidByKeeps(c: Session, starts: set<Start>, s: System, a: Action)
    requires Enabled(s, a) && HostInv(c, s) && HooksAre(starts, s) && SaidByStarts(c, starts, s.history)
    ensures SaidByStarts(c, starts, Apply(c, s, a).history)
  {
    if a.Tick? {
      assert HostProc(s, s.procs[a.p]);
      if s.procs[a.p].pc.Saying? {
        SayByStart(c, starts, s, a.p, s.procs[a.p].pc.answer, a.luck.ok);
      } else {
        OnlyAnswersSpeak(c, s, a.p, a.luck);
      }
    }
  }

  /** A process keeps its start as long as it lives. */
  lemma HooksStay(c: Session, s: System, a: Action, q: Pid)
    requires Enabled(s, a) && q in Apply(c, s, a).procs
    ensures q in s.procs ==> Apply(c, s, a).procs[q].start == s.procs[q].start && Apply(c, s, a).procs[q].hook == s.procs[q].hook
    ensures q !in s.procs && Apply(c, s, a).procs[q].hook ==> a.Spawn? && Apply(c, s, a).procs[q].start == a.start
  {
    if a.Tick? {
      OperateStays(c, s, a.p, a.luck);
    }
  }

  /** The processes of the new state are among those of the old one, with their starts. */
  ghost predicate SameStarts(s: System, s': System) {
    forall q | q in s'.procs :: q in s.procs && s'.procs[q].start == s.procs[q].start && s'.procs[q].hook == s.procs[q].hook
  }

  lemma OperateStays(c: Session, s: System, p: Pid, luck: Luck)
    requires Enabled(s, Tick(p, luck))
    ensures SameStarts(s, Operate(c, s, p, luck))
  {
    if s.procs[p].pc.Saying? {
      SayStays(c, s, p, s.procs[p].pc.answer, luck.ok);
    } else if UnderLock(s.procs[p].pc) {
      HoldingStays(c, s, p, luck);
    } else {
      FreeStays(c, s, p, luck);
    }
  }

  lemma SayStays(c: Session, s: System, p: Pid, answer: Answer, ok: bool)
    requires p in s.procs
    ensures SameStarts(s, Say(c, s, p, answer, ok))
  {
  }

  lemma HoldingStays(c: Session, s: System, p: Pid, luck: Luck)
    requires p in s.procs && UnderLock(s.procs[p].pc)
    ensures SameStarts(s, Operate(c, s, p, luck))
  {
    var pc := s.procs[p].pc;
    if pc.Remove? || pc.Sweep? || pc.WriteRecord? || pc.WriteMark? || pc.Unlock? {
      StoringStays(c, s, p, luck);
    } else if pc.ReadMark? || pc.CountPrompts? || pc.NotePrompt? || pc.RecountPrompts? {
      CountingStays(c, s, p, luck);
    } else {
      PairingStays(c, s, p, luck);
    }
  }

  lemma StoringStays(c: Session, s: System, p: Pid, luck: Luck)
    requires p in s.procs
    requires var pc := s.procs[p].pc; pc.Remove? || pc.Sweep? || pc.WriteRecord? || pc.WriteMark? || pc.Unlock?
    ensures SameStarts(s, Operate(c, s, p, luck))
  {
  }

  lemma CountingStays(c: Session, s: System, p: Pid, luck: Luck)
    requires p in s.procs
    requires var pc := s.procs[p].pc; pc.ReadMark? || pc.CountPrompts? || pc.NotePrompt? || pc.RecountPrompts?
    ensures SameStarts(s, Operate(c, s, p, luck))
  {
  }

  lemma PairingStays(c: Session, s: System, p: Pid, luck: Luck)
    requires p in s.procs
    requires var pc := s.procs[p].pc; pc.CheckTurn? || pc.CheckRecord? || pc.TakeMark? || pc.TakeSweep?
    ensures SameStarts(s, Operate(c, s, p, luck))
  {
  }

  lemma FreeStays(c: Session, s: System, p: Pid, luck: Luck)
    requires Enabled(s, Tick(p, luck)) && !UnderLock(s.procs[p].pc) && !s.procs[p].pc.Saying?
    ensures SameStarts(s, Operate(c, s, p, luck))
  {
  }

  lemma {:induction false} SaidByRun(c: Session, states: seq<System>, actions: seq<Action>, i: nat)
    requires HostRun(c, states, actions) && i <= |actions|
    ensures SaidByStarts(c, StartsOf(actions), states[i].history) && HooksAre(StartsOf(actions), states[i])
  {
    if i > 0 {
      SaidByRun(c, states, actions, i - 1);
      HostRunKeeps(c, states, actions, i - 1);
      SaidByNext(c, states, actions, i - 1);
    }
  }

  lemma SaidByNext(c: Session, states: seq<System>, actions: seq<Action>, i: nat)
    requires HostRun(c, states, actions) && i < |actions| && HostInv(c, states[i])
    requires SaidByStarts(c, StartsOf(actions), states[i].history) && HooksAre(StartsOf(actions), states[i])
    ensures SaidByStarts(c, StartsOf(actions), states[i + 1].history) && HooksAre(StartsOf(actions), states[i + 1])
  {
    var s, a := states[i], actions[i];
    assert Enabled(s, a) && states[i + 1] == Apply(c, s, a);
    SaidByKeeps(c, StartsOf(actions), s, a);
    HooksKeep(c, StartsOf(actions), s, a);
  }

  lemma HooksKeep(c: Session, starts: set<Start>, s: System, a: Action)
    requires Enabled(s, a) && HooksAre(starts, s) && (a.Spawn? ==> a.start in starts)
    ensures HooksAre(starts, Apply(c, s, a))
  {
    var s' := Apply(c, s, a);
    forall q | q in s'.procs && s'.procs[q].hook ensures s'.procs[q].start in starts {
      HooksStay(c, s, a, q);
    }
  }

  // ----- a resume that says only the head

  /** Some answer since the transcript's last compaction was asked to give the start's pointers. */
  ghost predicate PointersGiven(c: Session, history: seq<Event>, start: Start) {
    exists j: nat, files: nat :: PointersAsked(c, history, start, j, files)
  }

  /** The pointers of one record are among those of another, whatever the count of files. */
  ghost predicate Includes(c: Session, wider: Given, given: Given) {
    forall n: nat :: IncludedAt(c, wider, given, n)
  }

  ghost predicate IncludedAt(c: Session, wider: Given, given: Given, n: nat) {
    exists files: nat :: Infix(PointersAt(c.pointers(given), files), PointersAt(c.pointers(wider), n))
  }

  /** A start was given everything, or the pointers, and its pointers include those of the record. */
  ghost predicate Speaks(c: Session, e: Event, given: Given) {
    e.Said? && exists start: Start :: Includes(c, start.given, given) && (e.sections == WholeList(c, start) || e.sections == PointerList(c, start))
  }

  /**
   * What a host or a hook can see of a session that holds the pointers: a compact start of its transcript that was
   * answered, silent or not, or a start of any kind whose answer said them, and no compaction after it.
   */
  ghost predicate HoldingEvent(c: Session, history: seq<Event>, start: Start, k: nat) {
    && k < |history| && NoCompaction(history, k, start.path)
    && ((history[k].Answered? && history[k].start.path == start.path && Includes(c, history[k].start.given, start.given))
        || Speaks(c, history[k], start.given))
  }

  lemma WiderGives(c: Session, history: seq<Event>, start: Start, j: nat, n: nat, wider: Given)
    requires Recent(history, j, start.path) && Infix(PointersAt(c.pointers(wider), n), history[j].sections) && Includes(c, wider, start.given)
    ensures PointersGiven(c, history, start)
  {
    assert IncludedAt(c, wider, start.given, n);
    var files: nat :| Infix(PointersAt(c.pointers(start.given), files), PointersAt(c.pointers(wider), n));
    InfixTransitive(PointersAt(c.pointers(start.given), files), PointersAt(c.pointers(wider), n), history[j].sections);
    assert PointersAsked(c, history, start, j, files);
  }

  /** What is recent in the history up to k is recent in all of it, if no compaction follows k. */
  lemma RecentAfter(history: seq<Event>, k: nat, j: nat, path: string)
    requires k < |history| && Recent(history[..k + 1], j, path) && NoCompaction(history, k, path)
    ensures Recent(history, j, path) && history[..k + 1][j] == history[j]
  {
    forall l | j <= l < |history| && history[l].Logged? && history[l].path == path ensures !history[l].rec.IsCompaction() {
      if l <= k {
        assert history[..k + 1][l] == history[l];
      }
    }
  }

  /** An answered compact start, a silent one included, leaves the session with its pointers until the next compaction. */
  lemma AnsweredCompactGives(c: Session, states: seq<System>, actions: seq<Action>, i: nat, k: nat, start: Start)
    requires HostRun(c, states, actions) && i <= |actions| && k < |states[i].history| && states[i].history[k].Answered?
    requires states[i].history[k].start.path == start.path && Includes(c, states[i].history[k].start.given, start.given)
    requires NoCompaction(states[i].history, k, start.path)
    ensures PointersGiven(c, states[i].history, start)
  {
    GuidanceIsCovered(c, states, actions, i, k);
    CoveredGives(c, states[i].history, k, start);
  }

  lemma CoveredGives(c: Session, history: seq<Event>, k: nat, start: Start)
    requires k < |history| && history[k].Answered? && Covered(c, history[..k + 1], history[k].start)
    requires history[k].start.path == start.path && Includes(c, history[k].start.given, start.given) && NoCompaction(history, k, start.path)
    ensures PointersGiven(c, history, start)
  {
    var j: nat, n: nat :| PointersAsked(c, history[..k + 1], history[k].start, j, n);
    RecentAfter(history, k, j, start.path);
    WiderGives(c, history, start, j, n, history[k].start.given);
  }

  /** So does any answer that said the pointers. */
  lemma SpokenGives(c: Session, history: seq<Event>, start: Start, k: nat)
    requires k < |history| && Speaks(c, history[k], start.given) && NoCompaction(history, k, start.path)
    ensures PointersGiven(c, history, start)
  {
    var giver: Start :| Includes(c, giver.given, start.given) && (history[k].sections == WholeList(c, giver) || history[k].sections == PointerList(c, giver));
    WholeAsks(c, giver);
    assert PointerList(c, giver) <= PointerList(c, giver)[0..];
    WiderGives(c, history, start, k, giver.files, giver.given);
  }

  /** Among these starts, the pointers of the record occur in no head, and in a whole answer only as pointers of its start. */
  ghost predicate Separate(c: Session, starts: set<Start>, given: Given) {
    forall start: Start, files: nat | start in starts :: SeparateIn(c, given, start, files)
  }

  /** So they are where a session has one start, of more pointers than its head has sections. */
  lemma OneStartIsSeparate(c: Session, start: Start)
    requires |c.pointers(start.given)| > |HeadList(c, start)|
    ensures Separate(c, {start}, start.given)
  {
    forall files: nat ensures SeparateIn(c, start.given, start, files) {
      IncludesItself(c, start.given);
      var pointers := PointersAt(c.pointers(start.given), files);
      if Infix(pointers, HeadList(c, start)) {
        var before, after := InfixSplits(pointers, HeadList(c, start));
      }
    }
  }

  lemma IncludesItself(c: Session, given: Given)
    ensures Includes(c, given, given)
  {
    forall n: nat ensures IncludedAt(c, given, given, n) {
      assert PointersAt(c.pointers(given), n) <= PointersAt(c.pointers(given), n)[0..];
    }
  }

  ghost predicate SeparateIn(c: Session, given: Given, start: Start, files: nat) {
    var pointers := PointersAt(c.pointers(given), files);
    && (Infix(pointers, WholeList(c, start)) ==> Includes(c, start.given, given))
    && !Infix(pointers, HeadList(c, start))
  }

  /** An answer that was asked for the pointers is one that said them. */
  lemma AskedSpeaks(c: Session, starts: set<Start>, e: Event, given: Given, files: nat)
    requires e.Said? && ByStart(c, starts, e.sections) && Separate(c, starts, given) && Infix(PointersAt(c.pointers(given), files), e.sections)
    ensures Speaks(c, e, given)
  {
    var giver :| giver in starts && (e.sections == WholeList(c, giver) || e.sections == PointerList(c, giver) || e.sections == HeadList(c, giver));
    assert SeparateIn(c, given, giver, files);
    if e.sections == PointerList(c, giver) {
      InfixAt(Binding(c, giver), PointerList(c, giver), giver.banner);
      InfixTransitive(PointersAt(c.pointers(given), files), PointerList(c, giver), WholeList(c, giver));
    }
  }

  lemma GivenIsSpoken(c: Session, starts: set<Start>, history: seq<Event>, start: Start)
    requires SaidByStarts(c, starts, history) && Separate(c, starts, start.given) && PointersGiven(c, history, start)
    ensures exists k: nat :: HoldingEvent(c, history, start, k)
  {
    var j: nat, files: nat :| PointersAsked(c, history, start, j, files);
    AskedSpeaks(c, starts, history[j], start.given, files);
    assert HoldingEvent(c, history, start, j);
  }

  /**
   * A resume says only the head in a session in which some answer of this run said its pointers. The session still
   * holds them if an event shows it, and exactly then where the pointers of the record can be told from other texts.
   */
  lemma HeadResumeExact(c: Session, states: seq<System>, actions: seq<Action>, i: nat, p: Pid)
    requires HostRun(c, states, actions) && states[0].record.None? && i <= |actions|
    requires p in states[i].procs && states[i].procs[p].pc == Saying(SayHead)
    ensures var history, start := states[i].history, states[i].procs[p].start;
      (exists k: nat :: HoldingEvent(c, history, start, k)) ==> PointersGiven(c, history, start)
    ensures var history, start := states[i].history, states[i].procs[p].start; Separate(c, StartsOf(actions), start.given) ==>
      && (exists k | 0 <= k < |history| :: Speaks(c, history[k], start.given))
      && (PointersGiven(c, history, start) <==> exists k: nat :: HoldingEvent(c, history, start, k))
  {
    var history, start := states[i].history, states[i].procs[p].start;
    HoldingGives(c, states, actions, i, start);
    if Separate(c, StartsOf(actions), start.given) {
      SaidByRun(c, states, actions, i);
      RecordsRun(c, states, actions, i);
      GivenOnce(c, StartsOf(actions), history, states[i].procs[p]);
      if PointersGiven(c, history, start) {
        GivenIsSpoken(c, StartsOf(actions), history, start);
      }
    }
  }

  lemma HoldingGives(c: Session, states: seq<System>, actions: seq<Action>, i: nat, start: Start)
    requires HostRun(c, states, actions) && i <= |actions|
    ensures (exists k: nat :: HoldingEvent(c, states[i].history, start, k)) ==> PointersGiven(c, states[i].history, start)
  {
    if k: nat :| HoldingEvent(c, states[i].history, start, k) {
      if Speaks(c, states[i].history[k], start.given) {
        SpokenGives(c, states[i].history, start, k);
      } else {
        AnsweredCompactGives(c, states, actions, i, k, start);
      }
    }
  }

  lemma GivenOnce(c: Session, starts: set<Start>, history: seq<Event>, pr: Proc)
    requires StoresGiven(c, history, pr) && pr.pc == Saying(SayHead) && SaidByStarts(c, starts, history) && Separate(c, starts, pr.start.given)
    ensures exists k | 0 <= k < |history| :: Speaks(c, history[k], pr.start.given)
  {
    var j: nat, files: nat :| GaveAt(c, history, pr.start.given, j, files);
    AskedSpeaks(c, starts, history[j], pr.start.given, files);
  }

  /** A first start, refused nothing, that says everything and records it. */
  lemma FirstStart(c: Session, start: Start) returns (states: seq<System>, actions: seq<Action>)
    requires start.source.OtherSource?
    ensures HostRun(c, states, actions) && |actions| == 8 && states[0].record.None?
    ensures states[8] == Initial(Some(start.given)).(history := [Said(WholeList(c, start))])
  {
    var job := Storing(Some(start.given), None);
    states, actions := Then(c, [Initial(None)], [], Spawn(0, start, false));
    assert states[1] == Alone(None, 0, Proc(start, true, 0, Saying(SayWhole)), [], false);
    states, actions := Then(c, states, actions, Tick(0, Works()));
    assert [] + [Said(WholeList(c, start))] == [Said(WholeList(c, start))];
    assert states[2] == Alone(None, 0, Proc(start, true, 0, WantLock(job)), [Said(WholeList(c, start))], false);
    states, actions := Then(c, states, actions, Grab(0));
    assert states[3] == Alone(None, 0, Proc(start, true, 0, Remove(job)), [Said(WholeList(c, start))], false).(lock := Some(0));
    states, actions := Stored(c, states, actions, start);
  }

  lemma Stored(c: Session, states: seq<System>, actions: seq<Action>, start: Start) returns (longer: seq<System>, more: seq<Action>)
    requires HostRun(c, states, actions)
    requires var job := Storing(Some(start.given), None);
      states[|actions|] == Alone(None, 0, Proc(start, true, 0, Remove(job)), [Said(WholeList(c, start))], false).(lock := Some(0))
    ensures HostRun(c, longer, more) && |more| == |actions| + 5 && states <= longer
    ensures longer[|more|] == Initial(Some(start.given)).(history := [Said(WholeList(c, start))])
  {
    var job, history := Storing(Some(start.given), None), [Said(WholeList(c, start))];
    longer, more := Then(c, states, actions, Tick(0, Works()));
    assert longer[|more|] == Alone(None, 0, Proc(start, true, 0, Sweep(job)), history, false).(lock := Some(0));
    longer, more := Then(c, longer, more, Tick(0, Works()));
    assert {} * Works().keep == {};
    assert longer[|more|] == Alone(None, 0, Proc(start, true, 0, WriteRecord(job)), history, false).(lock := Some(0));
    longer, more := Then(c, longer, more, Tick(0, Works()));
    assert longer[|more|] == Alone(Some(start.given), 0, Proc(start, true, 0, WriteMark(job)), history, false).(lock := Some(0));
    longer, more := Released(c, longer, more, start, job, history);
  }

  lemma Released(c: Session, states: seq<System>, actions: seq<Action>, start: Start, job: Job, history: seq<Event>)
    returns (longer: seq<System>, more: seq<Action>)
    requires HostRun(c, states, actions) && job == Storing(Some(start.given), None)
    requires states[|actions|] == Alone(Some(start.given), 0, Proc(start, true, 0, WriteMark(job)), history, false).(lock := Some(0))
    ensures HostRun(c, longer, more) && |more| == |actions| + 2 && states <= longer
    ensures longer[|more|] == Initial(Some(start.given)).(history := history)
  {
    longer, more := Then(c, states, actions, Tick(0, Works()));
    assert longer[|more|] == Alone(Some(start.given), 0, Proc(start, true, 0, Unlock(job, NoPair)), history, false).(lock := Some(0));
    longer, more := Then(c, longer, more, Tick(0, Works()));
    assert longer[|more|].procs == map[];
  }

  /**
   * Runs where a resume that says only the head has lost the pointers: a compaction drops them, the answer of its
   * compact start is not written, which leaves the record as it was, and the next resume relies on the record.
   */
  lemma FailedCompactLosesPointers(c: Session, given: Given, files: nat, banner: seq<Section>, path: string, rec: Rollout.Record)
    returns (states: seq<System>, actions: seq<Action>)
    requires rec.IsCompaction()
    ensures HostRun(c, states, actions) && |actions| == 16 && states[0].record.None?
    ensures var s := states[16]; 2 in s.procs && s.procs[2].pc == Saying(SayHead) && s.procs[2].start.path == path && s.procs[2].start.given == given
    ensures !PointersGiven(c, states[16].history, states[16].procs[2].start)
  {
    var start := Start(OtherSource, given, files, banner, path);
    var compact, resume := start.(source := Compact), start.(source := Resume);
    var history := [Said(WholeList(c, start)), Logged(path, rec)];
    states, actions := FirstStart(c, start);
    states, actions := Then(c, states, actions, Log(path, rec));
    assert [Said(WholeList(c, start))] + [Logged(path, rec)] == history;
    assert states[9] == Initial(Some(given)).(history := history);
    states, actions := LocklessCompact(c, states, actions, 1, compact, Some(given), history);
    states, actions := HeadAfterFailure(c, states, actions, given, compact, resume, history);
    assert history[1].Logged? && history[1].path == path;
  }

  lemma HeadAfterFailure(c: Session, states: seq<System>, actions: seq<Action>, given: Given, compact: Start, resume: Start, history: seq<Event>)
    returns (longer: seq<System>, more: seq<Action>)
    requires HostRun(c, states, actions) && resume.given == given && resume.source.Resume?
    requires states[|actions|] == Alone(Some(given), 1, Proc(compact, true, 0, Saying(SayWhole)), history, true)
    ensures HostRun(c, longer, more) && |more| == |actions| + 3 && states <= longer
    ensures var s := longer[|more|]; s.history == history && 2 in s.procs && s.procs[2] == Proc(resume, true, 0, Saying(SayHead))
  {
    longer, more := Then(c, states, actions, Tick(1, Fails()));
    assert longer[|more|] == Alone(Some(given), 1, Proc(compact, true, 0, WantLock(Clearing)), history, true);
    longer, more := Then(c, longer, more, Spawn(2, resume, false));
    assert longer[|more|].procs[2] == Proc(resume, true, 0, Deciding);
    longer, more := Then(c, longer, more, Tick(2, Works()));
  }
}
