/** What a start says, exactly: by the record it read, or by the mark it took. */
module GuidanceAnswers {
  import opened Common
  import opened ContextBudget
  import opened Guidance
  import opened GuidanceRuns

  predicate By(a: Action, p: Pid) { !a.Log? && a.p == p }

  // ----- a process is moved by its own actions alone

  lemma OthersOperate(c: Session, s: System, p: Pid, luck: Luck, q: Pid)
    requires Enabled(s, Tick(p, luck)) && q in s.procs && q != p
    ensures var s' := Operate(c, s, p, luck); q in s'.procs && s'.procs[q] == s.procs[q]
  {
    if s.procs[p].pc.Saying? {
      OthersHear(c, s, p, s.procs[p].pc.answer, luck.ok, q);
    } else if UnderLock(s.procs[p].pc) {
      OthersWait(c, s, p, luck, q);
    }
  }

  lemma OthersHear(c: Session, s: System, p: Pid, answer: Answer, ok: bool, q: Pid)
    requires p in s.procs && q in s.procs && q != p
    ensures var s' := Say(c, s, p, answer, ok); q in s'.procs && s'.procs[q] == s.procs[q]
  {
  }

  lemma OthersWait(c: Session, s: System, p: Pid, luck: Luck, q: Pid)
    requires Enabled(s, Tick(p, luck)) && UnderLock(s.procs[p].pc) && q in s.procs && q != p
    ensures var s' := Operate(c, s, p, luck); q in s'.procs && s'.procs[q] == s.procs[q]
  {
    var pc := s.procs[p].pc;
    if pc.Remove? || pc.Sweep? || pc.WriteRecord? || pc.WriteMark? || pc.Unlock? || pc.TakeMark? || pc.TakeSweep? {
      OthersWaitForFiles(c, s, p, luck, q);
    }
  }

  lemma OthersWaitForFiles(c: Session, s: System, p: Pid, luck: Luck, q: Pid)
    requires p in s.procs && q in s.procs && q != p
    requires var pc := s.procs[p].pc; pc.Remove? || pc.Sweep? || pc.WriteRecord? || pc.WriteMark? || pc.Unlock? || pc.TakeMark? || pc.TakeSweep?
    ensures var s' := Operate(c, s, p, luck); q in s'.procs && s'.procs[q] == s.procs[q]
  {
  }

  lemma OthersStand(c: Session, s: System, a: Action, q: Pid)
    requires Enabled(s, a) && q in s.procs && !By(a, q)
    ensures q in Apply(c, s, a).procs && Apply(c, s, a).procs[q] == s.procs[q]
  {
    if a.Tick? {
      OthersOperate(c, s, a.p, a.luck, q);
    }
  }

  // ----- a compact, up to its answer

  function PairOf(took: Option<Mark>): Pair { if took.None? then NoPair else Taken(took.value) }

  /** A compact on its way to its answer, with the mark it took so far. */
  ghost predicate Underway(c: Session, pr: Proc, start: Start, took: Option<Mark>) {
    && pr.start == start
    && match pr.pc
       case WantLock(job) => job.Taking? && took.None?
       case DropMark(job) => job.Taking? && took.None?
       case DropPrompts(job) => job.Taking? && took.None?
       case Remove(job) => job.Taking? && took.None?
       case Sweep(job) => job.Taking? && took.None?
       case ReadMark(job) => job.Taking? && took.None?
       case CountPrompts(job, _) => job.Taking? && took.None?
       case CheckTurn(job, _) => job.Taking? && took.None?
       case CheckRecord(job, _) => job.Taking? && took.None?
       case TakeMark(job, _) => job.Taking? && took.None?
       case TakeSweep(job, pair) => job.Taking? && pair == PairOf(took)
       case Unlock(job, pair) => job.Taking? && pair == PairOf(took)
       case Saying(answer) => answer == AnswerTo(c, start, PairOf(took))
       case _ => false
  }

  predicate Takes(s: System, s': System, p: Pid) { p in s.procs && s.procs[p].pc.TakeMark? && s'.taken != s.taken }

  /** The mark taken by a step of p, or what it took before. */
  function TookIn(s: System, s': System, p: Pid, took: Option<Mark>): Option<Mark> {
    if Takes(s, s', p) then s.mark else took
  }

  /** An operation of a compact before its answer adds nothing to the history. */
  ghost predicate Proceeds(c: Session, s: System, s': System, p: Pid, start: Start, took: Option<Mark>) {
    s'.history == s.history && (p in s'.procs ==> Underway(c, s'.procs[p], start, TookIn(s, s', p, took)))
  }

  lemma FreeProceeds(c: Session, s: System, p: Pid, luck: Luck, start: Start, took: Option<Mark>)
    requires p in s.procs && (s.procs[p].pc.DropMark? || s.procs[p].pc.DropPrompts? || s.procs[p].pc.Remove? || s.procs[p].pc.Sweep?)
    requires Underway(c, s.procs[p], start, took)
    ensures Proceeds(c, s, Operate(c, s, p, luck), p, start, took)
  {
  }

  lemma ReadingProceeds(c: Session, s: System, p: Pid, luck: Luck, start: Start, took: Option<Mark>)
    requires p in s.procs && (s.procs[p].pc.ReadMark? || s.procs[p].pc.CountPrompts? || s.procs[p].pc.CheckTurn? || s.procs[p].pc.CheckRecord?)
    requires Underway(c, s.procs[p], start, took)
    ensures Proceeds(c, s, Operate(c, s, p, luck), p, start, took)
  {
  }

  lemma TakingProceeds(c: Session, s: System, p: Pid, luck: Luck, start: Start, took: Option<Mark>)
    requires p in s.procs && (s.procs[p].pc.TakeMark? || s.procs[p].pc.TakeSweep? || s.procs[p].pc.Unlock?)
    requires s.procs[p].pc.TakeMark? ==> s.mark.None? || s.mark == Some(s.procs[p].pc.m)
    requires Underway(c, s.procs[p], start, took)
    ensures Proceeds(c, s, Operate(c, s, p, luck), p, start, took)
  {
  }

  lemma OwnProceeds(c: Session, s: System, a: Action, p: Pid, start: Start, took: Option<Mark>)
    requires Inv(c, s) && Enabled(s, a) && By(a, p) && p in s.procs && !s.procs[p].pc.Saying? && Underway(c, s.procs[p], start, took)
    ensures Proceeds(c, s, Apply(c, s, a), p, start, took)
  {
    if a.Tick? {
      var pc := s.procs[p].pc;
      if pc.TakeMark? || pc.TakeSweep? || pc.Unlock? {
        assert ProcOk(c, s, s.procs[p]);
        TakingProceeds(c, s, p, a.luck, start, took);
      } else if pc.ReadMark? || pc.CountPrompts? || pc.CheckTurn? || pc.CheckRecord? {
        ReadingProceeds(c, s, p, a.luck, start, took);
      } else {
        FreeProceeds(c, s, p, a.luck, start, took);
      }
    }
  }

  lemma StepProceeds(c: Session, s: System, a: Action, p: Pid, start: Start, took: Option<Mark>)
    requires Inv(c, s) && Enabled(s, a) && p in s.procs && !s.procs[p].pc.Saying? && Underway(c, s.procs[p], start, took)
    requires p in Apply(c, s, a).procs
    ensures Underway(c, Apply(c, s, a).procs[p], start, TookIn(s, Apply(c, s, a), p, took))
    ensures By(a, p) ==> Apply(c, s, a).history == s.history
  {
    if By(a, p) {
      OwnProceeds(c, s, a, p, start, took);
    } else {
      OthersStand(c, s, a, p);
      OthersTakeNone(c, s, a, p);
    }
  }

  /** While a process is about to take the mark, no other takes one. */
  lemma OthersTakeNone(c: Session, s: System, a: Action, p: Pid)
    requires LocksOk(s) && Enabled(s, a) && !By(a, p)
    ensures !Takes(s, Apply(c, s, a), p)
  {
    if a.Tick? && p in s.procs && s.procs[p].pc.TakeMark? {
      assert UnderLock(s.procs[p].pc);
      TakesNoMore(c, s, a, a.p);
    }
  }

  /** A compact started at b, and at j about to write its answer for the first time. */
  ghost predicate Compacting(states: seq<System>, actions: seq<Action>, b: nat, j: nat, p: Pid, start: Start) {
    && b < j < |actions| && j < |states| && actions[b].Spawn? && actions[b].p == p && actions[b].start == start && start.source.Compact?
    && (forall k | b < k <= j :: p in states[k].procs && (states[k].procs[p].pc.Saying? <==> k == j))
    && actions[j].Tick? && actions[j].p == p
  }

  /** The mark p took by the state k. */
  ghost function Took(states: seq<System>, b: nat, k: nat, p: Pid): Option<Mark>
    requires b < k < |states|
  {
    if k == b + 1 then None else TookIn(states[k - 1], states[k], p, Took(states, b, k - 1, p))
  }

  lemma {:induction false} TookUnderway(c: Session, states: seq<System>, actions: seq<Action>, b: nat, j: nat, p: Pid, start: Start, k: nat)
    requires Run(c, states, actions) && Compacting(states, actions, b, j, p, start) && b < k <= j
    ensures Underway(c, states[k].procs[p], start, Took(states, b, k, p))
    decreases k
  {
    if k == b + 1 {
      TookStart(c, states, actions, b, j, p, start);
    } else {
      TookUnderway(c, states, actions, b, j, p, start, k - 1);
      TookNext(c, states, actions, b, j, p, start, k - 1);
    }
  }

  lemma TookStart(c: Session, states: seq<System>, actions: seq<Action>, b: nat, j: nat, p: Pid, start: Start)
    requires Run(c, states, actions) && Compacting(states, actions, b, j, p, start)
    ensures Underway(c, states[b + 1].procs[p], start, Took(states, b, b + 1, p))
  {
    assert Enabled(states[b], actions[b]) && states[b + 1] == Apply(c, states[b], actions[b]);
  }

  lemma TookNext(c: Session, states: seq<System>, actions: seq<Action>, b: nat, j: nat, p: Pid, start: Start, k: nat)
    requires Run(c, states, actions) && Compacting(states, actions, b, j, p, start) && b < k < j
    requires Underway(c, states[k].procs[p], start, Took(states, b, k, p))
    ensures Underway(c, states[k + 1].procs[p], start, Took(states, b, k + 1, p))
    ensures By(actions[k], p) ==> states[k + 1].history == states[k].history
  {
    RunKeeps(c, states, actions, k);
    assert Enabled(states[k], actions[k]) && states[k + 1] == Apply(c, states[k], actions[k]);
    StepProceeds(c, states[k], actions[k], p, start, Took(states, b, k, p));
  }

  /** In the step from i a compact takes the mark m. */
  ghost predicate TakesAt(states: seq<System>, actions: seq<Action>, i: nat, p: Pid, m: Mark) {
    i < |actions| && i + 1 < |states| && By(actions[i], p) && states[i].mark == Some(m) && states[i + 1].taken == states[i].taken + [m.gen]
  }

  /** Past the take there is no other. */
  predicate Past(pc: PC) { pc.TakeSweep? || pc.Unlock? || pc.Saying? }

  lemma PastTake(c: Session, states: seq<System>, actions: seq<Action>, i: nat, p: Pid, m: Mark)
    requires Run(c, states, actions) && TakesAt(states, actions, i, p, m) && p in states[i + 1].procs
    ensures Past(states[i + 1].procs[p].pc) && Takes(states[i], states[i + 1], p)
  {
    var s, a := states[i], actions[i];
    assert Enabled(s, a) && states[i + 1] == Apply(c, s, a);
    if p !in s.procs || !s.procs[p].pc.TakeMark? {
      TakesNoMore(c, s, a, p);
    }
  }

  lemma TakesNoMore(c: Session, s: System, a: Action, p: Pid)
    requires Enabled(s, a) && By(a, p) && (p in s.procs ==> !s.procs[p].pc.TakeMark?)
    ensures Apply(c, s, a).taken == s.taken
  {
  }

  lemma PastNext(c: Session, states: seq<System>, actions: seq<Action>, k: nat, p: Pid)
    requires Run(c, states, actions) && k < |actions| && p in states[k].procs && Past(states[k].procs[p].pc) && !states[k].procs[p].pc.Saying?
    requires p in states[k + 1].procs
    ensures Past(states[k + 1].procs[p].pc)
  {
    var s, a := states[k], actions[k];
    assert Enabled(s, a) && states[k + 1] == Apply(c, s, a);
    if !By(a, p) {
      OthersStand(c, s, a, p);
    }
  }

  lemma {:induction false} StaysPast(c: Session, states: seq<System>, actions: seq<Action>, i: nat, k: nat, p: Pid)
    requires Run(c, states, actions) && i <= k <= |actions| && p in states[i].procs && Past(states[i].procs[p].pc)
    requires forall n | i < n <= k :: p in states[n].procs
    requires forall n | i <= n < k :: p in states[n].procs && !states[n].procs[p].pc.Saying?
    ensures p in states[k].procs && Past(states[k].procs[p].pc)
    decreases k
  {
    if i < k {
      StaysPast(c, states, actions, i, k - 1, p);
      PastNext(c, states, actions, k - 1, p);
    }
  }

  /** Having taken a mark, a compact takes no other. */
  lemma {:induction false} TookThat(states: seq<System>, b: nat, i: nat, k: nat, p: Pid, m: Mark)
    requires b < i < k < |states| && states[i].mark == Some(m) && Takes(states[i], states[i + 1], p)
    requires forall n | i < n < k :: !Takes(states[n], states[n + 1], p)
    ensures Took(states, b, k, p) == Some(m)
    decreases k
  {
    if k > i + 1 {
      TookThat(states, b, i, k - 1, p, m);
      assert !Takes(states[k - 1], states[k - 1 + 1], p);
    }
  }

  lemma TakesOnce(c: Session, states: seq<System>, actions: seq<Action>, b: nat, i: nat, j: nat, p: Pid, start: Start, m: Mark)
    requires Run(c, states, actions) && Compacting(states, actions, b, j, p, start) && b < i < j && TakesAt(states, actions, i, p, m)
    ensures Takes(states[i], states[i + 1], p)
    ensures forall n | i < n < j :: !Takes(states[n], states[n + 1], p)
  {
    PastTake(c, states, actions, i, p, m);
    forall n | i < n < j ensures !Takes(states[n], states[n + 1], p) {
      StaysPast(c, states, actions, i + 1, n, p);
    }
  }

  lemma {:induction false} TookNothing(states: seq<System>, b: nat, k: nat, p: Pid)
    requires b < k < |states| && forall n | b < n < k :: !Takes(states[n], states[n + 1], p)
    ensures Took(states, b, k, p).None?
    decreases k
  {
    if k > b + 1 {
      TookNothing(states, b, k - 1, p);
      assert !Takes(states[k - 1], states[k - 1 + 1], p);
    }
  }

  lemma TakesNone(c: Session, states: seq<System>, actions: seq<Action>, b: nat, j: nat, p: Pid)
    requires Run(c, states, actions) && j <= |actions|
    requires forall i | b < i < j && By(actions[i], p) :: states[i + 1].taken == states[i].taken
    ensures forall n | b < n < j :: !Takes(states[n], states[n + 1], p)
  {
    forall n | b < n < j ensures !Takes(states[n], states[n + 1], p) {
      RunKeeps(c, states, actions, n);
      assert Enabled(states[n], actions[n]) && states[n + 1] == Apply(c, states[n], actions[n]);
      if !By(actions[n], p) {
        OthersTakeNone(c, states[n], actions[n], p);
      }
    }
  }

  /** No step of a compact before its answer adds to the history. */
  ghost predicate SilentBefore(states: seq<System>, actions: seq<Action>, b: nat, j: nat, p: Pid)
    requires j < |actions| < |states|
  {
    forall k | b < k < j && By(actions[k], p) :: states[k + 1].history == states[k].history
  }

  lemma NothingBefore(c: Session, states: seq<System>, actions: seq<Action>, b: nat, j: nat, p: Pid, start: Start)
    requires Run(c, states, actions) && Compacting(states, actions, b, j, p, start)
    ensures SilentBefore(states, actions, b, j, p)
  {
    forall k | b < k < j && By(actions[k], p) ensures states[k + 1].history == states[k].history {
      TookUnderway(c, states, actions, b, j, p, start, k);
      TookNext(c, states, actions, b, j, p, start, k);
    }
  }

  lemma SaysIn(c: Session, states: seq<System>, actions: seq<Action>, b: nat, j: nat, p: Pid, start: Start)
    requires Run(c, states, actions) && Compacting(states, actions, b, j, p, start)
    ensures states[j].procs[p].start == start
    ensures states[j].procs[p].pc == Saying(AnswerTo(c, start, PairOf(Took(states, b, j, p))))
    ensures states[j + 1] == Say(c, states[j], p, AnswerTo(c, start, PairOf(Took(states, b, j, p))), actions[j].luck.ok)
  {
    TookUnderway(c, states, actions, b, j, p, start, j);
    assert Enabled(states[j], actions[j]) && states[j + 1] == Apply(c, states[j], actions[j]);
  }

  /**
   * A compact that took a mark adds exactly what the mark's resume did not give. After a resume that gave everything
   * it says nothing; after one that gave the binding and the banner the compact would give itself, it says the pointers
   * alone; after any other, everything. An answer that is not written adds nothing.
   */
  lemma CompactAddsTheRest(c: Session, states: seq<System>, actions: seq<Action>, b: nat, i: nat, j: nat, p: Pid, start: Start, m: Mark)
    requires Run(c, states, actions) && Compacting(states, actions, b, j, p, start) && b < i < j && TakesAt(states, actions, i, p, m)
    ensures SilentBefore(states, actions, b, j, p)
    ensures var before, after, ok := states[j].history, states[j + 1].history, actions[j].luck.ok;
      && (m.part.None? ==> after == before + [Answered(start)])
      && (m.part.Some? && m.part.value == HeadText(c, start) != "" ==>
            after == before + if ok then [Said(PointerList(c, start)), Answered(start)] else [])
      && (m.part.Some? && (m.part.value != HeadText(c, start) || HeadText(c, start) == "") ==>
            after == before + if ok then [Said(WholeList(c, start)), Answered(start)] else [])
  {
    NothingBefore(c, states, actions, b, j, p, start);
    TakesOnce(c, states, actions, b, i, j, p, start, m);
    TookThat(states, b, i, j, p, m);
    SaysIn(c, states, actions, b, j, p, start);
  }

  /** A compact that took no mark says everything. */
  lemma CompactWithoutMark(c: Session, states: seq<System>, actions: seq<Action>, b: nat, j: nat, p: Pid, start: Start)
    requires Run(c, states, actions) && Compacting(states, actions, b, j, p, start)
    requires forall i | b < i < j && By(actions[i], p) :: states[i + 1].taken == states[i].taken
    ensures SilentBefore(states, actions, b, j, p)
    ensures states[j + 1].history == states[j].history + if actions[j].luck.ok then [Said(WholeList(c, start)), Answered(start)] else []
  {
    NothingBefore(c, states, actions, b, j, p, start);
    TakesNone(c, states, actions, b, j, p);
    TookNothing(states, b, j, p);
    SaysIn(c, states, actions, b, j, p, start);
  }

  // ----- when a compact takes the mark, and when a resume leaves one

  /** Successive operations of one process. */
  ghost function Ticks(c: Session, s: System, p: Pid, lucks: seq<Luck>): System
    decreases |lucks|
  {
    if lucks == [] || !Enabled(s, Tick(p, lucks[0])) then s else Ticks(c, Operate(c, s, p, lucks[0]), p, lucks[1..])
  }

  /** So many operations from here the process has at most written its answer. */
  predicate Leaving(pc: PC, n: nat) {
    match pc
    case Remove(job) => job.Taking? && n <= 4
    case Sweep(job) => job.Taking? && n <= 3
    case Unlock(job, _) => job.Taking? && n <= 2
    case Saying(_) => n <= 1
    case _ => n == 0
  }

  lemma LeavingOn(c: Session, s: System, p: Pid, luck: Luck, n: nat)
    requires Enabled(s, Tick(p, luck)) && Leaving(s.procs[p].pc, n) && n > 0
    ensures var s' := Operate(c, s, p, luck); s'.taken == s.taken && (n > 1 ==> p in s'.procs && Leaving(s'.procs[p].pc, n - 1))
  {
  }

  lemma {:induction false} TicksTakeNone(c: Session, s: System, p: Pid, lucks: seq<Luck>)
    requires p in s.procs && Leaving(s.procs[p].pc, |lucks|)
    ensures Ticks(c, s, p, lucks).taken == s.taken
    decreases |lucks|
  {
    if lucks != [] && Enabled(s, Tick(p, lucks[0])) {
      LeavingOn(c, s, p, lucks[0], |lucks|);
      if |lucks| > 1 {
        TicksTakeNone(c, Operate(c, s, p, lucks[0]), p, lucks[1..]);
      }
    }
  }

  /** Taken or not, by the mark and the condition. */
  ghost predicate TakenIf(s: System, s': System, m: Mark, taken: bool) {
    s'.taken == if taken then s.taken + [m.gen] else s.taken
  }

  lemma TakesFromRecord(c: Session, s: System, p: Pid, lucks: seq<Luck>, m: Mark)
    requires |lucks| == 2 && p in s.procs && s.procs[p].pc.CheckRecord? && s.procs[p].pc.job.Taking? && s.mark == Some(m)
    ensures TakenIf(s, Ticks(c, s, p, lucks), m, lucks[0].ok && s.record == Some(s.procs[p].start.given))
  {
    var s' := Operate(c, s, p, lucks[0]);
    if lucks[0].ok && s.record == Some(s.procs[p].start.given) {
      assert Ticks(c, s', p, lucks[1..]) == Operate(c, s', p, lucks[1]) by { assert lucks[1..][1..] == []; }
    } else {
      TicksTakeNone(c, s', p, lucks[1..]);
    }
  }

  lemma TakesFromTurn(c: Session, s: System, p: Pid, lucks: seq<Luck>, m: Mark)
    requires |lucks| == 3 && p in s.procs && s.procs[p].pc.CheckTurn? && s.procs[p].pc.job.Taking? && s.procs[p].pc.m == m && s.mark == Some(m)
    ensures TakenIf(s, Ticks(c, s, p, lucks), m,
      lucks[0].ok && lucks[1].ok && SameTurn(s.history, s.procs[p].start.path, m) && s.record == Some(s.procs[p].start.given))
  {
    var s' := Operate(c, s, p, lucks[0]);
    if lucks[0].ok && SameTurn(s.history, s.procs[p].start.path, m) {
      TakesFromRecord(c, s', p, lucks[1..], m);
    } else {
      TicksTakeNone(c, s', p, lucks[1..]);
    }
  }

  lemma TakesFromCount(c: Session, s: System, p: Pid, lucks: seq<Luck>, m: Mark)
    requires |lucks| == 4 && p in s.procs && s.procs[p].pc.CountPrompts? && s.procs[p].pc.job.Taking? && s.procs[p].pc.m == m && s.mark == Some(m)
    ensures TakenIf(s, Ticks(c, s, p, lucks), m,
      && lucks[0].ok && lucks[1].ok && lucks[2].ok && |PromptsOf(s.prompts, m.gen)| <= 1
      && SameTurn(s.history, s.procs[p].start.path, m) && s.record == Some(s.procs[p].start.given))
  {
    var s' := Operate(c, s, p, lucks[0]);
    if lucks[0].ok && |PromptsOf(s.prompts, m.gen)| <= 1 {
      TakesFromTurn(c, s', p, lucks[1..], m);
      assert lucks[1..][0] == lucks[1] && lucks[1..][1] == lucks[2];
    } else {
      TicksTakeNone(c, s', p, lucks[1..]);
    }
  }

  /**
   * A compact with the lock takes the mark exactly when there is one, its files can be read, at most one prompt is
   * counted against it, the transcript shows the compact in the turn of its resume, and the record is of the compact's
   * own pointers and command.
   */
  lemma TakesExactly(c: Session, s: System, p: Pid, lucks: seq<Luck>)
    requires |lucks| == 5 && p in s.procs && s.procs[p].pc.ReadMark? && s.procs[p].pc.job.Taking?
    ensures s.mark.None? ==> Ticks(c, s, p, lucks).taken == s.taken
    ensures s.mark.Some? ==> TakenIf(s, Ticks(c, s, p, lucks), s.mark.value,
      && lucks[0].ok && lucks[1].ok && lucks[2].ok && lucks[3].ok && |PromptsOf(s.prompts, s.mark.value.gen)| <= 1
      && SameTurn(s.history, s.procs[p].start.path, s.mark.value) && s.record == Some(s.procs[p].start.given))
  {
    var s' := Operate(c, s, p, lucks[0]);
    if lucks[0].ok && s.mark.Some? {
      TakesFromCount(c, s', p, lucks[1..], s.mark.value);
      assert lucks[1..][0] == lucks[1] && lucks[1..][1] == lucks[2] && lucks[1..][2] == lucks[3];
    } else {
      TicksTakeNone(c, s', p, lucks[1..]);
    }
  }

  /** What a resume's write of its record and mark leaves. */
  ghost predicate Left(s: System, s': System, pr: Proc, job: Job, recorded: bool, marked: bool, gen: Gen)
    requires job.Storing?
  {
    && s'.record == (if job.rec.Some? && recorded then job.rec else s.record)
    && s'.mark == if job.body.Some? && marked && (job.rec.None? || recorded)
                  then Some(Mark(job.body.value.part, gen, job.body.value.turn, pr.start.path, job.body.value.offset)) else None
  }

  lemma LeavesFromMark(c: Session, s: System, p: Pid, lucks: seq<Luck>, job: Job)
    requires |lucks| == 1 && p in s.procs && job.Storing? && lucks[0].gen !in s.origin && s.procs[p].pc == WriteMark(job) && s.mark.None?
    ensures Left(s.(record := job.rec), Ticks(c, s, p, lucks).(record := job.rec), s.procs[p], job, true, lucks[0].ok, lucks[0].gen)
    ensures Ticks(c, s, p, lucks).record == s.record
  {
    assert lucks[1..] == [];
    assert Ticks(c, s, p, lucks) == WriteMarkStep(c, s, p, lucks[0]);
  }

  lemma LeavesFromRecord(c: Session, s: System, p: Pid, lucks: seq<Luck>, job: Job)
    requires |lucks| == 2 && p in s.procs && job.Storing? && lucks[1].gen !in s.origin && s.procs[p].pc == WriteRecord(job) && s.mark.None?
    ensures Left(s, Ticks(c, s, p, lucks), s.procs[p], job, lucks[0].ok, lucks[1].ok, lucks[1].gen)
  {
    var s' := WriteRecordStep(c, s, p, lucks[0]);
    assert Ticks(c, s, p, lucks) == Ticks(c, s', p, lucks[1..]);
    if job.rec.None? || lucks[0].ok {
      LeavesFromMark(c, s', p, lucks[1..], job);
    } else {
      assert lucks[1..][1..] == [];
      assert Ticks(c, s', p, lucks[1..]) == UnlockStep(c, s', p, lucks[1]);
    }
  }

  lemma LeavesFromSweep(c: Session, s: System, p: Pid, lucks: seq<Luck>, job: Job)
    requires |lucks| == 3 && p in s.procs && job.Storing? && lucks[2].gen !in s.origin && s.procs[p].pc == Sweep(job) && s.mark.None?
    ensures Left(s, Ticks(c, s, p, lucks), s.procs[p], job, lucks[1].ok, lucks[2].ok, lucks[2].gen)
  {
    var s' := SweepStep(c, s, p, lucks[0]);
    assert Ticks(c, s, p, lucks) == Ticks(c, s', p, lucks[1..]);
    assert lucks[1..][0] == lucks[1] && lucks[1..][1] == lucks[2];
    LeavesFromRecord(c, s', p, lucks[1..], job);
  }

  /**
   * A start with the lock replaces the mark: by its own when it had evidence of its turn and the writes succeed, by
   * none otherwise. The record of an answer that gave everything is written before the mark, and no mark without it.
   */
  lemma LeavesExactly(c: Session, s: System, p: Pid, lucks: seq<Luck>, job: Job)
    requires |lucks| == 4 && p in s.procs && job.Storing? && lucks[3].gen !in s.origin && s.procs[p].pc == Remove(job)
    ensures Left(s, Ticks(c, s, p, lucks), s.procs[p], job, lucks[2].ok, lucks[3].ok, lucks[3].gen)
  {
    var s' := RemoveStep(c, s, p, lucks[0]);
    assert Ticks(c, s, p, lucks) == Ticks(c, s', p, lucks[1..]);
    assert lucks[1..][1] == lucks[2] && lucks[1..][2] == lucks[3];
    LeavesFromSweep(c, s', p, lucks[1..], job);
  }

  // ----- what the other starts say

  lemma {:induction false} StandsUntil(c: Session, states: seq<System>, actions: seq<Action>, i: nat, j: nat, p: Pid)
    requires Run(c, states, actions) && i <= j <= |actions| && p in states[i].procs && forall k | i <= k < j :: !By(actions[k], p)
    ensures p in states[j].procs && states[j].procs[p] == states[i].procs[p]
    decreases j
  {
    if i < j {
      StandsUntil(c, states, actions, i, j - 1, p);
      StandsNext(c, states, actions, j - 1, p);
    }
  }

  lemma StandsNext(c: Session, states: seq<System>, actions: seq<Action>, k: nat, p: Pid)
    requires Run(c, states, actions) && k < |actions| && p in states[k].procs && !By(actions[k], p)
    ensures p in states[k + 1].procs && states[k + 1].procs[p] == states[k].procs[p]
  {
    assert Enabled(states[k], actions[k]) && states[k + 1] == Apply(c, states[k], actions[k]);
    OthersStand(c, states[k], actions[k], p);
  }

  /**
   * A resume says the binding and the banner alone exactly when it read a record of its own pointers and command, and
   * everything otherwise; an answer that is not written adds nothing.
   */
  lemma ResumeSays(c: Session, states: seq<System>, actions: seq<Action>, i: nat, j: nat, p: Pid)
    requires Run(c, states, actions) && i < j < |actions| && p in states[i].procs && states[i].procs[p].pc.Deciding?
    requires actions[i].Tick? && actions[i].p == p && actions[j].Tick? && actions[j].p == p
    requires forall k | i < k < j :: !By(actions[k], p)
    ensures var start := states[i].procs[p].start; var held := actions[i].luck.ok && states[i].record == Some(start.given);
      && start.source.Resume? && states[i + 1].history == states[i].history
      && states[j + 1].history == states[j].history
           + if actions[j].luck.ok then [Said(if held then HeadList(c, start) else WholeList(c, start))] else []
  {
    RunKeeps(c, states, actions, i);
    assert ProcOk(c, states[i], states[i].procs[p]);
    assert Enabled(states[i], actions[i]) && states[i + 1] == Apply(c, states[i], actions[i]);
    StandsUntil(c, states, actions, i + 1, j, p);
    SaidAt(c, states, actions, j, p);
  }

  /** What a process that is about to write its answer adds. */
  lemma SaidAt(c: Session, states: seq<System>, actions: seq<Action>, j: nat, p: Pid)
    requires Run(c, states, actions) && j < |actions| && p in states[j].procs && actions[j].Tick? && actions[j].p == p
    requires states[j].procs[p].start.source.Resume? && (states[j].procs[p].pc == Saying(SayHead) || states[j].procs[p].pc == Saying(SayWhole))
    ensures var start := states[j].procs[p].start;
      states[j + 1].history == states[j].history
        + if actions[j].luck.ok then [Said(if states[j].procs[p].pc.answer.SayHead? then HeadList(c, start) else WholeList(c, start))] else []
  {
    assert Enabled(states[j], actions[j]) && states[j + 1] == Apply(c, states[j], actions[j]);
  }
}
