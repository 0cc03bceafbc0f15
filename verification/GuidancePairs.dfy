/** Runs in which a resume and the compact of its turn share the guidance between them. */
module GuidancePairs {
  import opened Common
  import opened ContextBudget
  import opened Guidance
  import opened GuidanceRuns
  import opened GuidanceLimits
  import opened GuidanceAnswers
  import Rollout

  /** A resume, the compact of its turn, and what the resume gives. */
  datatype Meeting = Meeting(resume: Start, turn: string, rec: Rollout.Record, part: Option<string>)

  /** The turn's compaction is finished; the resume gives everything, or a head that says something. */
  ghost predicate Meets(c: Session, x: Meeting) {
    && x.resume.source.Resume? && x.resume.path != "" && x.turn != ""
    && x.rec.FinishesCompaction() && x.rec.turn == x.turn
    && (x.part.Some? ==> x.part.value == HeadText(c, x.resume) != "")
  }

  function Record0(x: Meeting): Option<Given> { if x.part.None? then None else Some(x.resume.given) }

  function Job0(x: Meeting): Job {
    Storing(if x.part.None? then Some(x.resume.given) else None, Some(Body(x.part, x.turn, 1, 2)))
  }

  function History0(c: Session, x: Meeting): seq<Event> { [Logged(x.resume.path, x.rec), Said(AnswerOf(c, x.resume, x.part))] }

  function Mark0(x: Meeting): Mark { Mark(x.part, 0, x.turn, x.resume.path, 1) }

  /** The resume at work, before its record and after it. */
  function Resuming(c: Session, x: Meeting, record: Option<Given>, pc: PC): System {
    Alone(record, 0, Proc(x.resume, true, 1, pc), History0(c, x), false).(lock := if UnderLock(pc) then Some(0) else None)
  }

  lemma LogOfMeeting(c: Session, x: Meeting)
    requires Meets(c, x)
    ensures LogOf(History0(c, x), x.resume.path) == [x.rec] && Rollout.TurnAfter("", [x.rec]) == x.turn
    ensures ResumeBody(History0(c, x), x.resume.path, x.part, Works()) == Some(Body(x.part, x.turn, 1, 2))
  {
    var h := History0(c, x);
    assert h[..1] == [Logged(x.resume.path, x.rec)] && h[..1][..0] == [];
    assert LogOf(h[..1], x.resume.path) == [x.rec];
    assert [x.rec][1..] == [] && [x.rec][0..] == [x.rec];
  }

  /** One step of a run in the host's order. */
  ghost predicate Leads(c: Session, s: System, a: Action, next: System) {
    Enabled(s, a) && HostOrder(s, a) && Apply(c, s, a) == next
  }

  lemma On(c: Session, states: seq<System>, actions: seq<Action>, a: Action, next: System) returns (longer: seq<System>, more: seq<Action>)
    requires HostRun(c, states, actions) && Leads(c, states[|actions|], a, next)
    ensures HostRun(c, longer, more) && more == actions + [a] && longer == states + [next]
  {
    longer, more := Then(c, states, actions, a);
  }

  // ----- the resume

  function Logged0(x: Meeting): seq<Event> { [Logged(x.resume.path, x.rec)] }

  function Starting(x: Meeting, pc: PC): System { Alone(Record0(x), 0, Proc(x.resume, true, 0, pc), Logged0(x), false) }

  lemma StepDecide(c: Session, x: Meeting)
    requires Meets(c, x)
    ensures Leads(c, Starting(x, Deciding), Tick(0, Works()), Starting(x, Saying(if x.part.None? then SayWhole else SayHead)))
  {
  }

  lemma StepSay(c: Session, x: Meeting)
    requires Meets(c, x)
    ensures Leads(c, Starting(x, Saying(if x.part.None? then SayWhole else SayHead)), Tick(0, Works()), Resuming(c, x, Record0(x), Reading(x.part)))
  {
    assert Logged0(x) + [Said(AnswerOf(c, x.resume, x.part))] == History0(c, x);
  }

  lemma StepRead(c: Session, x: Meeting)
    requires Meets(c, x)
    ensures Leads(c, Resuming(c, x, Record0(x), Reading(x.part)), Tick(0, Works()), Resuming(c, x, Record0(x), WantLock(Job0(x))))
  {
    LogOfMeeting(c, x);
  }

  lemma StepLog(c: Session, x: Meeting)
    requires Meets(c, x)
    ensures Leads(c, Initial(Record0(x)), Log(x.resume.path, x.rec), Initial(Record0(x)).(history := Logged0(x)))
    ensures Leads(c, Initial(Record0(x)).(history := Logged0(x)), Spawn(0, x.resume, false), Starting(x, Deciding))
  {
    assert [] + Logged0(x) == Logged0(x);
  }

  /** The resume answers and reads the transcript. */
  lemma Answers(c: Session, x: Meeting) returns (states: seq<System>, actions: seq<Action>)
    requires Meets(c, x)
    ensures HostRun(c, states, actions) && |actions| == 5 && states[0].record == Record0(x)
    ensures states[5] == Resuming(c, x, Record0(x), WantLock(Job0(x)))
  {
    StepLog(c, x);
    states, actions := On(c, [Initial(Record0(x))], [], Log(x.resume.path, x.rec), Initial(Record0(x)).(history := Logged0(x)));
    states, actions := On(c, states, actions, Spawn(0, x.resume, false), Starting(x, Deciding));
    StepDecide(c, x);
    states, actions := On(c, states, actions, Tick(0, Works()), Starting(x, Saying(if x.part.None? then SayWhole else SayHead)));
    StepSay(c, x);
    states, actions := On(c, states, actions, Tick(0, Works()), Resuming(c, x, Record0(x), Reading(x.part)));
    StepRead(c, x);
    states, actions := On(c, states, actions, Tick(0, Works()), Resuming(c, x, Record0(x), WantLock(Job0(x))));
  }

  /** The session between the two: the record, the mark, and nobody at work. */
  function Between(c: Session, x: Meeting): System {
    Initial(Some(x.resume.given)).(history := History0(c, x), mark := Some(Mark0(x)), origin := map[0 := Origin(x.resume, 1, 2)])
  }

  function Marked(c: Session, x: Meeting): System {
    Between(c, x).(procs := map[0 := Proc(x.resume, true, 1, Unlock(Job0(x), NoPair))], lock := Some(0))
  }

  lemma StepRemove(c: Session, x: Meeting)
    ensures Leads(c, Resuming(c, x, Record0(x), WantLock(Job0(x))), Grab(0), Resuming(c, x, Record0(x), Remove(Job0(x))))
    ensures Leads(c, Resuming(c, x, Record0(x), Remove(Job0(x))), Tick(0, Works()), Resuming(c, x, Record0(x), Sweep(Job0(x))))
  {
  }

  lemma StepSweep(c: Session, x: Meeting)
    ensures Leads(c, Resuming(c, x, Record0(x), Sweep(Job0(x))), Tick(0, Works()), Resuming(c, x, Record0(x), WriteRecord(Job0(x))))
  {
    assert {} * Works().keep == {};
  }

  lemma StepRecord(c: Session, x: Meeting)
    ensures Leads(c, Resuming(c, x, Record0(x), WriteRecord(Job0(x))), Tick(0, Works()),
                  Resuming(c, x, Some(x.resume.given), WriteMark(Job0(x))))
  {
  }

  lemma StepMark(c: Session, x: Meeting)
    ensures Leads(c, Resuming(c, x, Some(x.resume.given), WriteMark(Job0(x))), Tick(0, Works()), Marked(c, x))
  {
  }

  lemma StepRelease(c: Session, x: Meeting)
    ensures Leads(c, Marked(c, x), Tick(0, Works()), Between(c, x))
  {
    assert Exit(Marked(c, x), 0).procs == map[];
  }

  /** It leaves its record and its mark. */
  lemma Leaves(c: Session, x: Meeting, states: seq<System>, actions: seq<Action>) returns (longer: seq<System>, more: seq<Action>)
    requires HostRun(c, states, actions) && states[|actions|] == Resuming(c, x, Record0(x), WantLock(Job0(x)))
    ensures HostRun(c, longer, more) && |more| == |actions| + 6 && states <= longer && actions <= more && longer[|more|] == Between(c, x)
  {
    StepRemove(c, x);
    longer, more := On(c, states, actions, Grab(0), Resuming(c, x, Record0(x), Remove(Job0(x))));
    longer, more := On(c, longer, more, Tick(0, Works()), Resuming(c, x, Record0(x), Sweep(Job0(x))));
    StepSweep(c, x);
    longer, more := On(c, longer, more, Tick(0, Works()), Resuming(c, x, Record0(x), WriteRecord(Job0(x))));
    StepRecord(c, x);
    longer, more := On(c, longer, more, Tick(0, Works()), Resuming(c, x, Some(x.resume.given), WriteMark(Job0(x))));
    StepMark(c, x);
    longer, more := On(c, longer, more, Tick(0, Works()), Marked(c, x));
    StepRelease(c, x);
    longer, more := On(c, longer, more, Tick(0, Works()), Between(c, x));
  }

  // ----- the compact

  function CompactOf(x: Meeting): Start { x.resume.(source := Compact) }

  function Compacts(c: Session, x: Meeting, pc: PC): System {
    Between(c, x).(procs := map[1 := Proc(CompactOf(x), true, 0, pc)], lock := if UnderLock(pc) then Some(1) else None)
  }

  function Taken0(c: Session, x: Meeting, pc: PC): System { Compacts(c, x, pc).(mark := None, ended := {0}, taken := [0]) }

  lemma StepCompact(c: Session, x: Meeting)
    ensures Leads(c, Between(c, x), Spawn(1, CompactOf(x), false), Compacts(c, x, WantLock(Taking(false))))
    ensures Leads(c, Compacts(c, x, WantLock(Taking(false))), Grab(1), Compacts(c, x, ReadMark(Taking(false))))
  {
  }

  lemma StepReadMark(c: Session, x: Meeting)
    ensures Leads(c, Compacts(c, x, ReadMark(Taking(false))), Tick(1, Works()), Compacts(c, x, CountPrompts(Taking(false), Mark0(x))))
  {
  }

  lemma StepCount(c: Session, x: Meeting)
    ensures Leads(c, Compacts(c, x, CountPrompts(Taking(false), Mark0(x))), Tick(1, Works()), Compacts(c, x, CheckTurn(Taking(false), Mark0(x))))
  {
    assert PromptsOf({}, 0) == {};
  }

  lemma TurnHolds(c: Session, x: Meeting)
    requires Meets(c, x)
    ensures SameTurn(History0(c, x), x.resume.path, Mark0(x))
  {
    LogOfMeeting(c, x);
    assert [x.rec][1..] == [];
  }

  lemma StepTurn(c: Session, x: Meeting)
    requires Meets(c, x)
    ensures Leads(c, Compacts(c, x, CheckTurn(Taking(false), Mark0(x))), Tick(1, Works()), Compacts(c, x, CheckRecord(Taking(false), Mark0(x))))
  {
    TurnHolds(c, x);
  }

  lemma StepCheckRecord(c: Session, x: Meeting)
    ensures Leads(c, Compacts(c, x, CheckRecord(Taking(false), Mark0(x))), Tick(1, Works()), Compacts(c, x, TakeMark(Taking(false), Mark0(x))))
  {
  }

  lemma StepTake(c: Session, x: Meeting)
    ensures Leads(c, Compacts(c, x, TakeMark(Taking(false), Mark0(x))), Tick(1, Works()), Taken0(c, x, TakeSweep(Taking(false), Taken(Mark0(x)))))
  {
    assert [] + [0] == [0] && {} + {0} == {0};
  }

  lemma StepTakeSweep(c: Session, x: Meeting)
    ensures Leads(c, Taken0(c, x, TakeSweep(Taking(false), Taken(Mark0(x)))), Tick(1, Works()), Taken0(c, x, Unlock(Taking(false), Taken(Mark0(x)))))
  {
    assert {} * Works().keep == {};
  }

  function Answer0(x: Meeting): Answer { if x.part.None? then StaySilent(Mark0(x)) else SayPointers(Mark0(x)) }

  lemma StepUnlock(c: Session, x: Meeting)
    requires Meets(c, x)
    ensures Leads(c, Taken0(c, x, Unlock(Taking(false), Taken(Mark0(x)))), Tick(1, Works()), Taken0(c, x, Saying(Answer0(x))))
  {
    assert HeadText(c, CompactOf(x)) == HeadText(c, x.resume);
  }

  /** What the compact adds. */
  function Rest(c: Session, x: Meeting): seq<Event> {
    if x.part.None? then [Answered(CompactOf(x))] else [Said(PointerList(c, CompactOf(x))), Answered(CompactOf(x))]
  }

  lemma StepAnswer(c: Session, x: Meeting)
    ensures Enabled(Taken0(c, x, Saying(Answer0(x))), Tick(1, Works()))
    ensures Apply(c, Taken0(c, x, Saying(Answer0(x))), Tick(1, Works())).history == History0(c, x) + Rest(c, x)
  {
  }

  /** The compact of the turn finds the mark its own. */
  lemma Finds(c: Session, x: Meeting, states: seq<System>, actions: seq<Action>) returns (longer: seq<System>, more: seq<Action>)
    requires Meets(c, x) && HostRun(c, states, actions) && states[|actions|] == Between(c, x)
    ensures HostRun(c, longer, more) && |more| == |actions| + 6 && states <= longer && actions <= more
    ensures more[|actions|] == Spawn(1, CompactOf(x), false) && longer[|more|] == Compacts(c, x, TakeMark(Taking(false), Mark0(x)))
  {
    StepCompact(c, x);
    longer, more := On(c, states, actions, Spawn(1, CompactOf(x), false), Compacts(c, x, WantLock(Taking(false))));
    longer, more := On(c, longer, more, Grab(1), Compacts(c, x, ReadMark(Taking(false))));
    StepReadMark(c, x);
    longer, more := On(c, longer, more, Tick(1, Works()), Compacts(c, x, CountPrompts(Taking(false), Mark0(x))));
    StepCount(c, x);
    longer, more := On(c, longer, more, Tick(1, Works()), Compacts(c, x, CheckTurn(Taking(false), Mark0(x))));
    StepTurn(c, x);
    longer, more := On(c, longer, more, Tick(1, Works()), Compacts(c, x, CheckRecord(Taking(false), Mark0(x))));
    StepCheckRecord(c, x);
    longer, more := On(c, longer, more, Tick(1, Works()), Compacts(c, x, TakeMark(Taking(false), Mark0(x))));
  }

  /** It takes the mark and answers. */
  lemma TakesAndAnswers(c: Session, x: Meeting, states: seq<System>, actions: seq<Action>) returns (longer: seq<System>, more: seq<Action>)
    requires Meets(c, x) && HostRun(c, states, actions) && states[|actions|] == Compacts(c, x, TakeMark(Taking(false), Mark0(x)))
    ensures HostRun(c, longer, more) && |more| == |actions| + 4 && states <= longer && actions <= more
    ensures TakesAt(longer, more, |actions|, 1, Mark0(x)) && longer[|more|].history == History0(c, x) + Rest(c, x)
  {
    StepTake(c, x);
    longer, more := On(c, states, actions, Tick(1, Works()), Taken0(c, x, TakeSweep(Taking(false), Taken(Mark0(x)))));
    assert TakesAt(longer, more, |actions|, 1, Mark0(x)) by { assert [] + [0] == [0]; }
    StepTakeSweep(c, x);
    longer, more := On(c, longer, more, Tick(1, Works()), Taken0(c, x, Unlock(Taking(false), Taken(Mark0(x)))));
    StepUnlock(c, x);
    longer, more := On(c, longer, more, Tick(1, Works()), Taken0(c, x, Saying(Answer0(x))));
    StepAnswer(c, x);
    longer, more := Then(c, longer, more, Tick(1, Works()));
  }

  /**
   * For every resume in a turn whose compaction is finished, a run in which the compact of that turn takes its mark:
   * after a resume that gave everything it adds nothing, and after one that gave the head it adds the pointers.
   */
  lemma PairsAreShared(c: Session, x: Meeting) returns (states: seq<System>, actions: seq<Action>)
    requires Meets(c, x)
    ensures HostRun(c, states, actions) && |actions| == 21 && states[0].record == Record0(x)
    ensures actions[11] == Spawn(1, CompactOf(x), false) && TakesAt(states, actions, 17, 1, Mark0(x))
    ensures states[11].history == [Logged(x.resume.path, x.rec), Said(if x.part.None? then WholeList(c, x.resume) else HeadList(c, x.resume))]
    ensures states[21].history == states[11].history
      + if x.part.None? then [Answered(CompactOf(x))] else [Said(PointerList(c, CompactOf(x))), Answered(CompactOf(x))]
  {
    states, actions := Answers(c, x);
    states, actions := Leaves(c, x, states, actions);
    states, actions := Finds(c, x, states, actions);
    states, actions := TakesAndAnswers(c, x, states, actions);
  }
}
