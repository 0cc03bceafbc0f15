/** Where guidance ends: answers that the context budget cuts or refuses. */
module GuidanceLimits {
  import opened Common
  import opened ContextBudget
  import opened Guidance
  import opened GuidanceRuns
  import opened GuidanceTexts
  import opened GuidanceCoverage

  // ----- answers that fit, and answers that are refused

  /** The pointers and the binding are in texts given since the transcript's last compaction. */
  ghost predicate TextsHold(c: Session, history: seq<Event>, start: Start) {
    && (exists j: nat, files: nat :: Recent(history, j, start.path) && HoldsAll(history[j].sections, c.pointers(start.given), files))
    && (exists j: nat :: Recent(history, j, start.path) && Infix(Clean(c.binding(start.given.command)), Emitted(history[j].sections)))
  }

  ghost predicate HoldsAll(sections: seq<Section>, pointers: seq<Pointer>, files: nat) {
    forall pointer | pointer in pointers :: Infix(Clean(pointer.said(files)), Emitted(sections))
  }

  /** Every answer since the last compaction that was asked for the pointers or the binding lets them through. */
  ghost predicate AnswersLetThrough(c: Session, history: seq<Event>, start: Start) {
    && (forall j: nat, files: nat, at: nat | PointersFrom(c, history, start, j, files, at) ::
          AllThrough(history[j].sections, at, |c.pointers(start.given)|))
    && (forall j: nat | BindingAsked(c, history, start, j) :: BindingThrough(history[j].sections, c.binding(start.given.command)))
  }

  lemma ShownWhereLetThrough(c: Session, history: seq<Event>, start: Start)
    requires PointersShown(c, history, start) && BindingShown(c, history, start) && AnswersLetThrough(c, history, start)
    ensures TextsHold(c, history, start)
  {
    var j: nat, files: nat, at: nat :| PointersFrom(c, history, start, j, files, at)
      && AllShown(history[j].sections, at, |c.pointers(start.given)|);
    AllHeld(c.pointers(start.given), files, history[j].sections, at);
    var b: nat :| BindingAsked(c, history, start, b)
      && (BindingThrough(history[b].sections, c.binding(start.given.command))
          ==> Infix(Clean(c.binding(start.given.command)), Emitted(history[b].sections)));
    assert Recent(history, b, start.path);
  }

  lemma AllHeld(pointers: seq<Pointer>, files: nat, sections: seq<Section>, at: nat)
    requires at <= |sections| && PointersAt(pointers, files) <= sections[at..]
    requires AllThrough(sections, at, |pointers|) && AllShown(sections, at, |pointers|)
    ensures HoldsAll(sections, pointers, files)
  {
    forall pointer | pointer in pointers ensures Infix(Clean(pointer.said(files)), Emitted(sections)) {
      var i :| 0 <= i < |pointers| && pointers[i] == pointer;
      assert sections[at + i] == sections[at..][i] == PointersAt(pointers, files)[i];
      assert LetsThrough(sections, at + i) && SectionShown(sections, at + i);
    }
  }

  /** Where the answers let the guidance through, coverage is whole. */
  lemma CoveredWhenLetThrough(c: Session, states: seq<System>, actions: seq<Action>, i: nat, k: nat)
    requires HostRun(c, states, actions) && i <= |actions|
    requires k < |states[i].history| && states[i].history[k].Answered?
    requires AnswersLetThrough(c, states[i].history[..k + 1], states[i].history[k].start)
    ensures TextsHold(c, states[i].history[..k + 1], states[i].history[k].start)
  {
    GuidanceIsCovered(c, states, actions, i, k);
    ShownWhereLetThrough(c, states[i].history[..k + 1], states[i].history[k].start);
  }

  ghost predicate AnswersFit(history: seq<Event>) {
    forall j | 0 <= j < |history| && history[j].Said? :: Fits(history[j].sections)
  }

  /** Answers that fit let everything through. */
  lemma CoveredWhenAnswersFit(c: Session, states: seq<System>, actions: seq<Action>, i: nat, k: nat)
    requires HostRun(c, states, actions) && i <= |actions|
    requires k < |states[i].history| && states[i].history[k].Answered?
    requires AnswersFit(states[i].history[..k + 1])
    ensures TextsHold(c, states[i].history[..k + 1], states[i].history[k].start)
  {
    FittingLetThrough(c, states[i].history[..k + 1], states[i].history[k].start);
    CoveredWhenLetThrough(c, states, actions, i, k);
  }

  lemma FittingLetThrough(c: Session, history: seq<Event>, start: Start)
    requires AnswersFit(history)
    ensures AnswersLetThrough(c, history, start)
  {
  }

  lemma Then(c: Session, states: seq<System>, actions: seq<Action>, a: Action) returns (longer: seq<System>, more: seq<Action>)
    requires HostRun(c, states, actions) && Enabled(states[|actions|], a) && HostOrder(states[|actions|], a)
    ensures HostRun(c, longer, more) && more == actions + [a] && longer == states + [Apply(c, states[|actions|], a)]
  {
    longer, more := states + [Apply(c, states[|actions|], a)], actions + [a];
  }

  function Works(): Luck { Luck(true, 0, 0, {}) }

  function Fails(): Luck { Luck(false, 0, 0, {}) }

  /** The files as they are in a session without a mark. */
  function Alone(record: Option<Given>, p: Pid, pr: Proc, history: seq<Event>, swept: bool): System {
    Initial(record).(procs := map[p := pr], history := history, swept := swept)
  }

  /** A compact that is refused the lock, and so says everything. */
  lemma LocklessCompact(c: Session, states: seq<System>, actions: seq<Action>, p: Pid, start: Start, record: Option<Given>, history: seq<Event>)
    returns (longer: seq<System>, more: seq<Action>)
    requires HostRun(c, states, actions) && states[|actions|] == Initial(record).(history := history) && start.source.Compact?
    ensures HostRun(c, longer, more) && |more| == |actions| + 4 && states <= longer
    ensures longer[|more|] == Alone(record, p, Proc(start, true, 0, Saying(SayWhole)), history, true)
  {
    longer, more := Then(c, states, actions, Spawn(p, start, false));
    assert longer[|more|] == Alone(record, p, Proc(start, true, 0, WantLock(Taking(false))), history, false);
    longer, more := Then(c, longer, more, GiveUp(p));
    assert longer[|more|] == Alone(record, p, Proc(start, true, 0, DropMark(Taking(false))), history, false);
    longer, more := LocklessEnding(c, longer, more, p, start, record, history);
  }

  lemma LocklessEnding(c: Session, states: seq<System>, actions: seq<Action>, p: Pid, start: Start, record: Option<Given>, history: seq<Event>)
    returns (longer: seq<System>, more: seq<Action>)
    requires HostRun(c, states, actions)
    requires states[|actions|] == Alone(record, p, Proc(start, true, 0, DropMark(Taking(false))), history, false)
    ensures HostRun(c, longer, more) && |more| == |actions| + 2 && states <= longer
    ensures longer[|more|] == Alone(record, p, Proc(start, true, 0, Saying(SayWhole)), history, true)
  {
    longer, more := Then(c, states, actions, Tick(p, Works()));
    assert longer[|more|] == Alone(record, p, Proc(start, true, 0, DropPrompts(Taking(false))), history, false);
    longer, more := Then(c, longer, more, Tick(p, Works()));
    assert {} * Works().keep == {};
  }

  /** A compact start of a new session that is refused the lock and answers with everything. */
  lemma AnsweredAlone(c: Session, start: Start) returns (states: seq<System>, actions: seq<Action>)
    requires start.source.Compact?
    ensures HostRun(c, states, actions) && |actions| == 5 && states[5].history == [Said(WholeList(c, start)), Answered(start)]
  {
    var s0 := Initial(None);
    assert s0.(history := []) == s0;
    states, actions := LocklessCompact(c, [s0], [], 0, start, None, []);
    states, actions := Then(c, states, actions, Tick(0, Works()));
    assert states[5].history == [] + [Said(WholeList(c, start)), Answered(start)];
  }

  /**
   * Runs where coverage fails, for every compact start whose sections are refused: it is answered, all it says is the
   * refusal, and a binding longer than that is in no text of the session.
   */
  lemma RefusedCompactIsNotCovered(c: Session, start: Start) returns (states: seq<System>, actions: seq<Action>)
    requires start.source.Compact? && TooLong(WholeList(c, start))
    requires Units(Clean(c.binding(start.given.command))) > 310
    ensures HostRun(c, states, actions) && |actions| == 5
    ensures states[5].history == [Said(WholeList(c, start)), Answered(start)] && Emitted(WholeList(c, start)) == REFUSAL
    ensures !TextsHold(c, states[5].history, start)
  {
    states, actions := AnsweredAlone(c, start);
    RefusedTexts(c, start);
  }

  /** Where a pointer stands in the whole answer of its start. */
  function PlaceOf(c: Session, start: Start, i: nat): nat { |Binding(c, start)| + i }

  lemma PointerStands(c: Session, start: Start, i: nat)
    requires i < |c.pointers(start.given)|
    ensures PlaceOf(c, start, i) < |WholeList(c, start)| && WholeList(c, start)[PlaceOf(c, start, i)] == PointerList(c, start)[i]
  {
  }

  /**
   * Runs where a pointer is lost, for every compact start whose sections are cut and whose running sum breaks at the
   * pointer: it is answered, and all the answer keeps of the pointer is a proper part. A character that every form of
   * the pointer has, and no line that was kept, shows that no text of the session holds the pointer.
   */
  lemma CutCompactLosesPointer(c: Session, start: Start, i: nat) returns (states: seq<System>, actions: seq<Action>)
    requires start.source.Compact? && i < |c.pointers(start.given)| && !TooLong(WholeList(c, start))
    requires PlaceOf(c, start, i) < |WholeList(c, start)| && !LetsThrough(WholeList(c, start), PlaceOf(c, start, i))
    ensures HostRun(c, states, actions) && |actions| == 5
    ensures states[5].history == [Said(WholeList(c, start)), Answered(start)]
    ensures var k, lines := PlaceOf(c, start, i), LinesOf(WholeList(c, start));
      k < |lines| && lines[k] <= WholeList(c, start)[k].text && lines[k] != WholeList(c, start)[k].text
    ensures WholeList(c, start)[PlaceOf(c, start, i)].text == c.pointers(start.given)[i].said(start.files)
    ensures forall x | Tells(c, start, i, x) :: !TextsHold(c, states[5].history, start)
  {
    states, actions := AnsweredAlone(c, start);
    PointerStands(c, start, i);
    LinesExactly(WholeList(c, start), PlaceOf(c, start, i));
    forall x | Tells(c, start, i, x) ensures !TextsHold(c, [Said(WholeList(c, start)), Answered(start)], start) {
      CutTexts(c, start, i, x);
    }
  }

  /** A character that every form of the pointer has, and neither the marker nor any line of the start's answer. */
  ghost predicate Tells(c: Session, start: Start, i: nat, x: char)
    requires i < |c.pointers(start.given)| && !TooLong(WholeList(c, start))
  {
    && !IsJSSpace(x) && x !in MARKER
    && (forall files: nat :: x in c.pointers(start.given)[i].said(files))
    && (forall line | line in LinesOf(WholeList(c, start)) :: x !in line)
  }

  lemma CutTexts(c: Session, start: Start, i: nat, x: char)
    requires i < |c.pointers(start.given)| && !TooLong(WholeList(c, start)) && !Fits(WholeList(c, start)) && Tells(c, start, i, x)
    ensures !TextsHold(c, [Said(WholeList(c, start)), Answered(start)], start)
  {
    var history, sections, pointer := [Said(WholeList(c, start)), Answered(start)], WholeList(c, start), c.pointers(start.given)[i];
    CutHolds(sections, x);
    forall files: nat ensures !HoldsAll(sections, c.pointers(start.given), files) {
      assert pointer in c.pointers(start.given);
      CleanHolds(pointer.said(files), x);
      if Infix(Clean(pointer.said(files)), Emitted(sections)) {
        InfixHolds(Clean(pointer.said(files)), Emitted(sections), x);
      }
    }
  }

  lemma RefusedTexts(c: Session, start: Start)
    requires TooLong(WholeList(c, start)) && Units(Clean(c.binding(start.given.command))) > 310
    ensures !TextsHold(c, [Said(WholeList(c, start)), Answered(start)], start)
  {
    var history, binding := [Said(WholeList(c, start)), Answered(start)], Clean(c.binding(start.given.command));
    RefusalUnits();
    forall j: nat | Recent(history, j, start.path) ensures !Infix(binding, Emitted(history[j].sections)) {
      if Infix(binding, REFUSAL) {
        InfixUnits(binding, REFUSAL);
      }
    }
  }
}
