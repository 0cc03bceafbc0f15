/** Pair linearity and the two-prompt rule, in every run. */
module GuidanceTheorems {
  import opened Common
  import opened Guidance
  import opened GuidanceRuns

  // ----- linearity

  ghost predicate Grown(s: System, s': System) {
    s.ended <= s'.ended && s.taken <= s'.taken && s.history <= s'.history
  }

  lemma SayGrows(c: Session, s: System, p: Pid, answer: Answer, ok: bool)
    requires p in s.procs
    ensures Grown(s, Say(c, s, p, answer, ok))
  {
  }

  lemma OperateGrows(c: Session, s: System, p: Pid, luck: Luck)
    requires p in s.procs && !s.procs[p].pc.WantLock?
    ensures Grown(s, Operate(c, s, p, luck))
  {
    if s.procs[p].pc.Saying? {
      SayGrows(c, s, p, s.procs[p].pc.answer, luck.ok);
    } else if UnderLock(s.procs[p].pc) {
      HoldingGrows(c, s, p, luck);
    }
  }

  lemma HoldingGrows(c: Session, s: System, p: Pid, luck: Luck)
    requires p in s.procs && UnderLock(s.procs[p].pc)
    ensures Grown(s, Operate(c, s, p, luck))
  {
  }

  lemma HistoryVariablesGrow(c: Session, s: System, a: Action)
    requires Enabled(s, a)
    ensures Grown(s, Apply(c, s, a))
  {
    if a.Tick? {
      OperateGrows(c, s, a.p, a.luck);
    }
  }

  lemma GrownTransitive(a: System, b: System, c: System)
    requires Grown(a, b) && Grown(b, c)
    ensures Grown(a, c)
  {
  }

  lemma {:induction false} RunGrows(c: Session, states: seq<System>, actions: seq<Action>, i: nat, j: nat)
    requires Run(c, states, actions) && i <= j <= |actions|
    ensures Grown(states[i], states[j])
    decreases j
  {
    if i < j {
      RunGrows(c, states, actions, i, j - 1);
      HistoryVariablesGrow(c, states[j - 1], actions[j - 1]);
      GrownTransitive(states[i], states[j - 1], states[j]);
    }
  }

  /** A deleted generation never reappears, whatever the processes do afterwards. */
  lemma DeletedStaysDeleted(c: Session, states: seq<System>, actions: seq<Action>, i: nat, j: nat, gen: Gen)
    requires Run(c, states, actions) && i <= j <= |actions| && gen in states[i].ended
    ensures states[j].mark.Some? ==> states[j].mark.value.gen != gen
  {
    RunKeeps(c, states, actions, j);
    RunGrows(c, states, actions, i, j);
  }

  /** TakePair answers a pair exactly when it deletes the mark it has read, which it then names. */
  ghost predicate Takes(c: Session, s: System, a: Action, m: Mark) {
    && a.Tick? && a.p in s.procs && s.procs[a.p].pc.TakeMark? && s.mark.Some?
    && m == s.procs[a.p].pc.m
  }

  lemma TakeTakesItsMark(c: Session, states: seq<System>, actions: seq<Action>, i: nat, m: Mark)
    requires Run(c, states, actions) && i < |actions| && Takes(c, states[i], actions[i], m)
    ensures states[i].mark == Some(m)
    ensures states[i + 1].mark.None? && states[i + 1].taken == states[i].taken + [m.gen] && m.gen in states[i + 1].ended
  {
    RunKeeps(c, states, actions, i);
    assert ProcOk(c, states[i], states[i].procs[actions[i].p]);
  }

  /** Pair linearity: no generation is taken twice, over every interleaving with crashes, refused locks and lock-free deleters. */
  lemma TakenOnce(c: Session, states: seq<System>, actions: seq<Action>, i: nat, j: nat, m: Mark, m': Mark)
    requires Run(c, states, actions) && i < j < |actions|
    requires Takes(c, states[i], actions[i], m) && Takes(c, states[j], actions[j], m')
    ensures m.gen != m'.gen
  {
    TakeTakesItsMark(c, states, actions, i, m);
    TakeTakesItsMark(c, states, actions, j, m');
    DeletedStaysDeleted(c, states, actions, i + 1, j, m.gen);
  }

  /**
   * A mark that stands for the whole text always sits beside the record its own resume wrote, and a compact
   * that takes it was about to say exactly the text that resume said.
   */
  lemma WholeMarkBesideRecord(c: Session, states: seq<System>, actions: seq<Action>, i: nat)
    requires Run(c, states, actions) && i <= |actions| && states[i].mark.Some? && states[i].mark.value.part.None?
    ensures var m := states[i].mark.value;
      && m.gen in states[i].origin && states[i].record == Some(states[i].origin[m.gen].start.given)
      && (i < |actions| && Takes(c, states[i], actions[i], m) ==>
            states[i].procs[actions[i].p].start.given == states[i].origin[m.gen].start.given)
  {
    RunKeeps(c, states, actions, i);
    if i < |actions| && Takes(c, states[i], actions[i], states[i].mark.value) {
      assert ProcOk(c, states[i], states[i].procs[actions[i].p]);
    }
  }

  // ----- the prompts

  ghost predicate CountOk(s: System, pc: PC) {
    match pc
    case CheckTurn(_, m) => !s.swept && s.mark.Some? ==> |PromptsOf(s.noted, m.gen)| <= 1
    case CheckRecord(_, m) => !s.swept && s.mark.Some? ==> |PromptsOf(s.noted, m.gen)| <= 1
    case TakeMark(_, m) => !s.swept && s.mark.Some? ==> |PromptsOf(s.noted, m.gen)| <= 1
    case NotePrompt(_, gen) => gen in s.origin && gen !in s.taken
    case _ => true
  }

  /** While no deleter without the lock swept the prompt files, every prompt noted against the mark is still counted. */
  ghost predicate PromptsOk(s: System) {
    && (forall x | x in s.noted :: x.0 in s.origin)
    && (!s.swept && s.mark.Some? ==> forall x | x in s.noted && x.0 == s.mark.value.gen :: x in s.prompts)
    && (!s.swept ==> forall g | g in s.taken :: |PromptsOf(s.noted, g)| <= 1)
    && (forall p | p in s.procs :: CountOk(s, s.procs[p].pc))
  }

  lemma SmallerCount(a: set<Note>, b: set<Note>, gen: Gen)
    requires forall x | x in a && x.0 == gen :: x in b
    ensures |PromptsOf(a, gen)| <= |PromptsOf(b, gen)|
  {
    assert PromptsOf(a, gen) <= PromptsOf(b, gen);
    var rest := PromptsOf(b, gen) - PromptsOf(a, gen);
    assert PromptsOf(b, gen) == PromptsOf(a, gen) + rest;
  }

  lemma OtherCountStays(s: System, s': System, q: Pid)
    requires q in s.procs && CountOk(s, s.procs[q].pc)
    requires s'.swept == s.swept || s'.swept
    requires UnderLock(s.procs[q].pc) ==> s'.noted == s.noted && s'.taken == s.taken && (s'.mark == s.mark || s'.mark.None?)
    requires s.origin.Keys <= s'.origin.Keys
    ensures CountOk(s', s.procs[q].pc)
  {
  }

  lemma NotedLater(s: System, note: Note)
    requires !s.swept ==> forall g | g in s.taken :: |PromptsOf(s.noted, g)| <= 1
    requires note.0 !in s.taken
    ensures !s.swept ==> forall g | g in s.taken :: |PromptsOf(s.noted + {note}, g)| <= 1
  {
    forall g | g in s.taken ensures PromptsOf(s.noted + {note}, g) == PromptsOf(s.noted, g) {
    }
  }

  /** What one operation does to the prompts, the marks and the takes. */
  ghost predicate PromptFrame(s: System, s': System, p: Pid)
    requires p in s.procs
  {
    var pc := s.procs[p].pc;
    && s.origin.Keys <= s'.origin.Keys
    && (s'.swept == s.swept || s'.swept)
    && (forall q | q in s'.procs && q != p :: q in s.procs && s'.procs[q] == s.procs[q])
    && (s'.noted == s.noted || (pc.NotePrompt? && exists t :: s'.noted == s.noted + {(pc.gen, t)} && s'.prompts == s.prompts + {(pc.gen, t)}))
    && (s'.taken == s.taken || (pc.TakeMark? && s.mark.Some? && s'.taken == s.taken + [s.mark.value.gen]))
    && (s'.mark == s.mark || s'.mark.None? || (pc.WriteMark? && s'.mark.value.gen !in s.origin))
    && (s'.prompts >= s.prompts || s'.mark.None? || s'.swept)
  }

  lemma SayPromptFrame(c: Session, s: System, p: Pid, answer: Answer, ok: bool)
    requires p in s.procs
    ensures PromptFrame(s, Say(c, s, p, answer, ok), p)
  {
  }

  lemma LockFreePromptFrame(c: Session, s: System, p: Pid, luck: Luck)
    requires Enabled(s, Tick(p, luck)) && !UnderLock(s.procs[p].pc)
    ensures PromptFrame(s, Operate(c, s, p, luck), p)
  {
    if s.procs[p].pc.Saying? {
      SayPromptFrame(c, s, p, s.procs[p].pc.answer, luck.ok);
    }
  }

  lemma NotingPromptFrame(c: Session, s: System, p: Pid, luck: Luck)
    requires Enabled(s, Tick(p, luck)) && s.procs[p].pc.NotePrompt?
    ensures PromptFrame(s, Operate(c, s, p, luck), p)
  {
    var s', pc := Operate(c, s, p, luck), s.procs[p].pc;
    if luck.ok {
      var note := (pc.gen, NameOf(pc.job, luck));
      assert s'.noted == s.noted + {note} && s'.prompts == s.prompts + {note};
    }
  }

  lemma SweepingPromptFrame(c: Session, s: System, p: Pid, luck: Luck)
    requires Inv(c, s) && Enabled(s, Tick(p, luck)) && (s.procs[p].pc.Sweep? || s.procs[p].pc.TakeSweep?)
    ensures PromptFrame(s, Operate(c, s, p, luck), p)
  {
    assert ProcOk(c, s, s.procs[p]);
  }

  lemma MarkingPromptFrame(c: Session, s: System, p: Pid, luck: Luck)
    requires Enabled(s, Tick(p, luck)) && (s.procs[p].pc.Remove? || s.procs[p].pc.TakeMark? || s.procs[p].pc.WriteMark?)
    ensures PromptFrame(s, Operate(c, s, p, luck), p)
  {
  }

  lemma LookingPromptFrame(c: Session, s: System, p: Pid, luck: Luck)
    requires p in s.procs
    requires var pc := s.procs[p].pc; pc.ReadMark? || pc.CountPrompts? || pc.CheckTurn? || pc.CheckRecord?
    ensures PromptFrame(s, Operate(c, s, p, luck), p)
  {
  }

  lemma EndingPromptFrame(c: Session, s: System, p: Pid, luck: Luck)
    requires p in s.procs && (s.procs[p].pc.WriteRecord? || s.procs[p].pc.RecountPrompts? || s.procs[p].pc.Unlock?)
    ensures PromptFrame(s, Operate(c, s, p, luck), p)
  {
  }

  lemma OperatePromptFrame(c: Session, s: System, p: Pid, luck: Luck)
    requires Inv(c, s) && Enabled(s, Tick(p, luck))
    ensures PromptFrame(s, Operate(c, s, p, luck), p)
  {
    var pc := s.procs[p].pc;
    if !UnderLock(pc) {
      LockFreePromptFrame(c, s, p, luck);
    } else if pc.NotePrompt? {
      NotingPromptFrame(c, s, p, luck);
    } else if pc.Sweep? || pc.TakeSweep? {
      SweepingPromptFrame(c, s, p, luck);
    } else if pc.Remove? || pc.TakeMark? || pc.WriteMark? {
      MarkingPromptFrame(c, s, p, luck);
    } else if pc.WriteRecord? || pc.RecountPrompts? || pc.Unlock? {
      EndingPromptFrame(c, s, p, luck);
    } else {
      LookingPromptFrame(c, s, p, luck);
    }
  }

  /** The counts of the process's own next operation. */
  lemma OperateCounts(c: Session, s: System, p: Pid, luck: Luck)
    requires Inv(c, s) && PromptsOk(s) && Enabled(s, Tick(p, luck))
    ensures var s' := Operate(c, s, p, luck); p in s'.procs ==> CountOk(s', s'.procs[p].pc)
  {
    var pc := s.procs[p].pc;
    if pc.CountPrompts? {
      CountedPrompts(c, s, p, luck);
    } else if pc.CheckTurn? || pc.CheckRecord? || pc.ReadMark? {
      CarriedCounts(c, s, p, luck);
    } else {
      PlainCounts(c, s, p, luck);
    }
  }

  lemma CountedPrompts(c: Session, s: System, p: Pid, luck: Luck)
    requires Inv(c, s) && PromptsOk(s) && Enabled(s, Tick(p, luck)) && s.procs[p].pc.CountPrompts?
    ensures var s' := Operate(c, s, p, luck); p in s'.procs ==> CountOk(s', s'.procs[p].pc)
  {
    assert ProcOk(c, s, s.procs[p]);
    if !s.swept && s.mark.Some? {
      SmallerCount(s.noted, s.prompts, s.procs[p].pc.m.gen);
    }
  }

  lemma CarriedCounts(c: Session, s: System, p: Pid, luck: Luck)
    requires Enabled(s, Tick(p, luck)) && GensOk(s) && CountOk(s, s.procs[p].pc)
    requires s.procs[p].pc.CheckTurn? || s.procs[p].pc.CheckRecord? || s.procs[p].pc.ReadMark?
    ensures var s' := Operate(c, s, p, luck); p in s'.procs ==> CountOk(s', s'.procs[p].pc)
  {
  }

  lemma PlainCounts(c: Session, s: System, p: Pid, luck: Luck)
    requires Enabled(s, Tick(p, luck))
    requires var pc := s.procs[p].pc; !(pc.CountPrompts? || pc.CheckTurn? || pc.CheckRecord? || pc.ReadMark?)
    ensures var s' := Operate(c, s, p, luck); p in s'.procs ==>
      var pc := s'.procs[p].pc; !(pc.CheckTurn? || pc.CheckRecord? || pc.TakeMark? || pc.NotePrompt?)
  {
    if s.procs[p].pc.Saying? {
      SayCounts(c, s, p, s.procs[p].pc.answer, luck.ok);
    }
  }

  lemma SayCounts(c: Session, s: System, p: Pid, answer: Answer, ok: bool)
    requires p in s.procs
    ensures var s' := Say(c, s, p, answer, ok); p in s'.procs ==> s'.procs[p].pc.Reading? || s'.procs[p].pc.WantLock?
  {
  }

  lemma FrameKeepsPrompts(s: System, s': System, p: Pid)
    requires LocksOk(s) && GensOk(s) && PromptsOk(s) && p in s.procs && PromptFrame(s, s', p)
    requires s.procs[p].pc.TakeMark? && s.mark.Some? ==> s.mark.value.gen == s.procs[p].pc.m.gen
    requires UnderLock(s.procs[p].pc) || (s'.noted == s.noted && s'.taken == s.taken && (s'.mark == s.mark || s'.mark.None?))
    requires p in s'.procs ==> CountOk(s', s'.procs[p].pc)
    ensures PromptsOk(s')
  {
    var pc := s.procs[p].pc;
    assert CountOk(s, pc);
    forall q | q in s'.procs ensures CountOk(s', s'.procs[q].pc) {
      if q != p {
        OtherCountStays(s, s', q);
      }
    }
    if s'.noted != s.noted {
      var t :| s'.noted == s.noted + {(pc.gen, t)} && s'.prompts == s.prompts + {(pc.gen, t)};
      NotedLater(s, (pc.gen, t));
    }
  }

  lemma OperateKeepsPrompts(c: Session, s: System, p: Pid, luck: Luck)
    requires Inv(c, s) && PromptsOk(s) && Enabled(s, Tick(p, luck))
    ensures PromptsOk(Operate(c, s, p, luck))
  {
    OperatePromptFrame(c, s, p, luck);
    OperateCounts(c, s, p, luck);
    assert ProcOk(c, s, s.procs[p]);
    FrameKeepsPrompts(s, Operate(c, s, p, luck), p);
  }

  lemma ApplyKeepsPrompts(c: Session, s: System, a: Action)
    requires Inv(c, s) && PromptsOk(s) && Enabled(s, a)
    ensures PromptsOk(Apply(c, s, a))
  {
    var s' := Apply(c, s, a);
    if a.Tick? {
      OperateKeepsPrompts(c, s, a.p, a.luck);
    } else {
      forall q | q in s'.procs ensures CountOk(s', s'.procs[q].pc) {
        if q in s.procs && s'.procs[q] == s.procs[q] {
          OtherCountStays(s, s', q);
        }
      }
    }
  }

  /** A prompt without a turn counts every time. */
  lemma TurnlessPromptCounts(c: Session, s: System, p: Pid, luck: Luck)
    requires Enabled(s, Tick(p, luck)) && s.procs[p].pc.NotePrompt? && Turnless(s.procs[p].pc.job) && luck.ok
    ensures var gen := s.procs[p].pc.gen; |PromptsOf(Operate(c, s, p, luck).noted, gen)| == |PromptsOf(s.noted, gen)| + 1
  {
    var note := (s.procs[p].pc.gen, OfItself(luck.gen));
    assert PromptsOf(s.noted + {note}, note.0) == PromptsOf(s.noted, note.0) + {note};
  }

  /**
   * The two-prompt rule: in a run where no process swept prompt files without the lock, a pair is taken only
   * if the prompts noted against it are of one turn at most, or are one prompt without a turn.
   */
  lemma {:induction false} TwoPromptsEndThePair(c: Session, states: seq<System>, actions: seq<Action>, i: nat, gen: Gen)
    requires Run(c, states, actions) && i <= |actions| && !states[i].swept && gen in states[i].taken
    ensures |PromptsOf(states[i].noted, gen)| <= 1
  {
    PromptsKept(c, states, actions, i);
  }

  lemma {:induction false} PromptsKept(c: Session, states: seq<System>, actions: seq<Action>, i: nat)
    requires Run(c, states, actions) && i <= |actions|
    ensures PromptsOk(states[i])
  {
    if i > 0 {
      PromptsKept(c, states, actions, i - 1);
      RunKeeps(c, states, actions, i - 1);
      ApplyKeepsPrompts(c, states[i - 1], actions[i - 1]);
    }
  }
}
