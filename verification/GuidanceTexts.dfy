/** What the answers of a session hold of its guidance, before and after the context budget. */
module GuidanceTexts {
  import opened Common
  import opened ContextBudget
  import opened Guidance
  import opened GuidanceRuns

  /** The answer at j was given after the last compaction of the transcript. */
  ghost predicate Recent(history: seq<Event>, j: nat, path: string) {
    j < |history| && history[j].Said? && NoCompaction(history, j, path)
  }

  /** The answer at j is recent, and the pointers, with some count of files, are among its sections. */
  ghost predicate PointersAsked(c: Session, history: seq<Event>, start: Start, j: nat, files: nat) {
    Recent(history, j, start.path) && Infix(PointersAt(c.pointers(start.given), files), history[j].sections)
  }

  /** The answer at j is recent, and the binding is part of the text of its sections. */
  ghost predicate BindingAsked(c: Session, history: seq<Event>, start: Start, j: nat) {
    Recent(history, j, start.path) && Infix(c.binding(start.given.command), Join(Texts(history[j].sections)))
  }

  /** Answers since the transcript's last compaction were asked to give the pointers, up to the count of files, and the binding. */
  ghost predicate Covered(c: Session, history: seq<Event>, start: Start) {
    && (exists j: nat, files: nat :: PointersAsked(c, history, start, j, files))
    && (exists j: nat :: BindingAsked(c, history, start, j))
  }

  // ----- what comes out of an answer

  /** The pointers, with a count of files, stand at a place in the sections of the recent answer at j. */
  ghost predicate PointersFrom(c: Session, history: seq<Event>, start: Start, j: nat, files: nat, at: nat) {
    && Recent(history, j, start.path) && at <= |history[j].sections|
    && PointersAt(c.pointers(start.given), files) <= history[j].sections[at..]
  }

  /** The answer holds its section k, unless the budget does not let it through. */
  ghost predicate SectionShown(sections: seq<Section>, k: nat)
    requires k < |sections|
  {
    LetsThrough(sections, k) ==> Infix(Clean(sections[k].text), Emitted(sections))
  }

  ghost predicate PointersShown(c: Session, history: seq<Event>, start: Start) {
    exists j: nat, files: nat, at: nat :: PointersFrom(c, history, start, j, files, at)
      && AllShown(history[j].sections, at, |c.pointers(start.given)|)
  }

  /** The n sections from a place on are shown. */
  ghost predicate AllShown(sections: seq<Section>, at: nat, n: nat) {
    forall k | at <= k < at + n && k < |sections| :: SectionShown(sections, k)
  }

  ghost predicate AllThrough(sections: seq<Section>, at: nat, n: nat) {
    forall k | at <= k < at + n && k < |sections| :: LetsThrough(sections, k)
  }

  /** The binding is let through: the sections fit, or it is a required one of them and they are not refused. */
  predicate BindingThrough(sections: seq<Section>, binding: string) {
    Fits(sections) || (Section(binding, true) in sections && !TooLong(sections))
  }

  ghost predicate BindingShown(c: Session, history: seq<Event>, start: Start) {
    exists j: nat :: BindingAsked(c, history, start, j)
      && var sections, binding := history[j].sections, c.binding(start.given.command);
         BindingThrough(sections, binding) ==> Infix(Clean(binding), Emitted(sections))
  }

  lemma SectionInText(sections: seq<Section>, i: nat)
    requires i < |sections|
    ensures Infix(sections[i].text, Join(Texts(sections)))
  {
    var before, after := JoinAround(Texts(sections), i);
    InfixAt(before, sections[i].text, after);
  }

  lemma AskedIsShown(c: Session, history: seq<Event>, start: Start)
    requires Covered(c, history, start)
    ensures PointersShown(c, history, start) && BindingShown(c, history, start)
  {
    var j: nat, files: nat :| PointersAsked(c, history, start, j, files);
    var at :| 0 <= at <= |history[j].sections| && PointersAt(c.pointers(start.given), files) <= history[j].sections[at..];
    assert PointersFrom(c, history, start, j, files, at);
    AllCome(history[j].sections, at, |c.pointers(start.given)|);
    var b: nat :| BindingAsked(c, history, start, b);
    BindingComes(history[b].sections, c.binding(start.given.command));
  }

  lemma AllCome(sections: seq<Section>, at: nat, n: nat)
    ensures AllShown(sections, at, n)
  {
    forall k | at <= k < at + n && k < |sections| ensures SectionShown(sections, k) {
      if LetsThrough(sections, k) {
        LetThroughComes(sections, k);
      }
    }
  }

  lemma BindingComes(sections: seq<Section>, binding: string)
    requires Infix(binding, Join(Texts(sections)))
    ensures BindingThrough(sections, binding) ==> Infix(Clean(binding), Emitted(sections))
  {
    if Fits(sections) {
      FittingKeeps(sections, binding);
    } else if BindingThrough(sections, binding) {
      var i :| 0 <= i < |sections| && sections[i] == Section(binding, true);
      RequiredKept(sections, i);
    }
  }

  // ----- which pointers an answer keeps, exactly

  /** An answer since the last compaction kept the line of every pointer whole. */
  ghost predicate PointersKept(c: Session, history: seq<Event>, start: Start) {
    exists j: nat, files: nat, at: nat :: PointersFrom(c, history, start, j, files, at)
      && AllKept(history[j].sections, at, |c.pointers(start.given)|)
  }

  /** An answer since the last compaction was not refused, and its budget let every pointer through. */
  ghost predicate PointersThrough(c: Session, history: seq<Event>, start: Start) {
    exists j: nat, files: nat, at: nat :: PointersFrom(c, history, start, j, files, at)
      && !TooLong(history[j].sections) && AllThrough(history[j].sections, at, |c.pointers(start.given)|)
  }

  ghost predicate AllKept(sections: seq<Section>, at: nat, n: nat) {
    !TooLong(sections) && forall k | at <= k < at + n && k < |sections| :: LineKept(sections, k)
  }

  predicate LineKept(sections: seq<Section>, k: nat)
    requires !TooLong(sections) && k < |sections|
  {
    k < |LinesOf(sections)| && LinesOf(sections)[k] == sections[k].text
  }

  lemma AllKeptExactly(sections: seq<Section>, at: nat, n: nat)
    ensures AllKept(sections, at, n) <==> !TooLong(sections) && AllThrough(sections, at, n)
  {
    if !TooLong(sections) {
      forall k | at <= k < at + n && k < |sections| ensures LineKept(sections, k) <==> LetsThrough(sections, k) {
        LinesExactly(sections, k);
      }
    }
  }

  /** The lines of all pointers are kept by some answer exactly when its running sums let them through. */
  lemma KeptExactly(c: Session, history: seq<Event>, start: Start)
    ensures PointersKept(c, history, start) <==> PointersThrough(c, history, start)
  {
    forall j: nat, files: nat, at: nat | PointersFrom(c, history, start, j, files, at)
      ensures AllKept(history[j].sections, at, |c.pointers(start.given)|)
              <==> !TooLong(history[j].sections) && AllThrough(history[j].sections, at, |c.pointers(start.given)|)
    {
      AllKeptExactly(history[j].sections, at, |c.pointers(start.given)|);
    }
  }

  // ----- what the answers of a start ask for

  lemma WholeAsks(c: Session, start: Start)
    ensures Infix(PointersAt(c.pointers(start.given), start.files), WholeList(c, start))
    ensures Infix(c.binding(start.given.command), Join(Texts(WholeList(c, start))))
  {
    InfixAt(Binding(c, start), PointerList(c, start), start.banner);
    BindingInText(c, start, WholeList(c, start));
  }

  lemma HeadAsks(c: Session, start: Start)
    ensures Infix(c.binding(start.given.command), HeadText(c, start))
  {
    BindingInText(c, start, HeadList(c, start));
  }

  lemma BindingInText(c: Session, start: Start, sections: seq<Section>)
    requires Binding(c, start) <= sections
    ensures Infix(c.binding(start.given.command), Join(Texts(sections)))
  {
    var binding := c.binding(start.given.command);
    if binding == "" {
      assert binding <= Join(Texts(sections))[0..];
    } else {
      assert sections[0] == Section(binding, true);
      SectionInText(sections, 0);
    }
  }

  // ----- what a compact's answer covers

  /** What was recent stays so when what follows is no compaction. */
  lemma RecentStays(history: seq<Event>, e: seq<Event>, j: nat, path: string)
    requires Recent(history, j, path) && forall i | 0 <= i < |e| :: !e[i].Logged?
    ensures Recent(history + e, j, path) && (history + e)[j] == history[j]
  {
  }

  lemma JustSaid(history: seq<Event>, sections: seq<Section>, rest: seq<Event>, path: string)
    requires forall i | 0 <= i < |rest| :: !rest[i].Logged?
    ensures Recent(history + ([Said(sections)] + rest), |history|, path)
    ensures (history + ([Said(sections)] + rest))[|history|] == Said(sections)
  {
  }

  /** A silent compact is covered by the whole answer of the resume whose mark it took, with the resume's count of files. */
  lemma SilentCovers(c: Session, s: System, start: Start, m: Mark)
    requires PairOk(c, s, start, m) && m.part.None? && NoCompaction(s.history, s.origin[m.gen].said, m.path)
    ensures Covered(c, s.history + [Answered(start)], start)
  {
    var o, all := s.origin[m.gen], s.history + [Answered(start)];
    RecentStays(s.history, [Answered(start)], o.said, start.path);
    WholeAsks(c, o.start);
    assert PointersAsked(c, all, start, o.said, o.start.files);
    assert BindingAsked(c, all, start, o.said);
  }

  /** A compact that says only the pointers is covered together with the part its resume gave. */
  lemma PointersCover(c: Session, s: System, start: Start, m: Mark)
    requires PairOk(c, s, start, m) && m.part == Some(HeadText(c, start)) && NoCompaction(s.history, s.origin[m.gen].said, m.path)
    ensures Covered(c, s.history + [Said(PointerList(c, start)), Answered(start)], start)
  {
    PartCovers(c, s.history, start, s.origin[m.gen].start, s.origin[m.gen].said);
  }

  lemma PartCovers(c: Session, history: seq<Event>, start: Start, resume: Start, j: nat)
    requires Recent(history, j, start.path) && history[j].sections == HeadList(c, resume) && HeadText(c, resume) == HeadText(c, start)
    ensures Covered(c, history + [Said(PointerList(c, start)), Answered(start)], start)
  {
    var e := [Said(PointerList(c, start)), Answered(start)];
    assert BindingAsked(c, history + e, start, j) by {
      RecentStays(history, e, j, start.path);
      HeadAsks(c, start);
    }
    assert PointersAsked(c, history + e, start, |history|, start.files) by {
      JustSaid(history, PointerList(c, start), [Answered(start)], start.path);
      assert [Said(PointerList(c, start))] + [Answered(start)] == e;
      assert PointerList(c, start) <= PointerList(c, start)[0..];
    }
  }

  /** A compact that says everything is covered by its own answer. */
  lemma WholeCovers(c: Session, history: seq<Event>, start: Start)
    ensures Covered(c, history + [Said(WholeList(c, start)), Answered(start)], start)
  {
    var e := [Said(WholeList(c, start)), Answered(start)];
    JustSaid(history, WholeList(c, start), [Answered(start)], start.path);
    assert [Said(WholeList(c, start))] + [Answered(start)] == e;
    WholeAsks(c, start);
    assert PointersAsked(c, history + e, start, |history|, start.files);
    assert BindingAsked(c, history + e, start, |history|);
  }
}
