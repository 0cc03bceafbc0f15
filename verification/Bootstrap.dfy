/**
 * The one-time venv bootstrap of `crw map` (cmd/crw/repomap.go) as a state machine: any number of bootstraps, each
 * killed at any step, whose venv and pip children inherit the lock and may outlive them. Anyone may delete the
 * interpreter, the marker or the whole directory at any time; nobody else creates them.
 */
module Bootstrap {
  import opened Common

  type Pid = nat

  /** Who made a directory or an interpreter: it was there before, or a bootstrap's child made it. */
  datatype Maker = Before | By(p: Pid)

  /** What is at the marker's path: nothing, something that is no file, or the file a bootstrap wrote in its build. */
  datatype Marker = NoMarker | Foreign | File(writer: Pid, build: nat)

  datatype Job = VenvJob | PipJob

  datatype PC =
    | WantLock
    | SeePython
    | SeeMarker(python: bool)
    | PeekPython
    | PeekMarker(python: bool)
    | DropMarker
    | Probing
    | Venv
    | Pip
    | MarkTemp
    | MarkRename
    | Cleaning
    | Unlocking(ready: bool)
    | Done(ready: bool)
    | Dead

  /** A bootstrap: the number of its build, and what it found before it built. */
  datatype Proc = Proc(pc: PC, build: nat, existed: bool, hadPython: bool)

  /** The files, the lock, the running children and the bootstraps; the builds begun and who saw pip succeed are history. */
  datatype System = System(
    dir: Option<Maker>, python: Option<Maker>, marker: Marker, lock: Option<Pid>, running: map<Pid, Job>, procs: map<Pid, Proc>,
    builds: nat, pipOk: set<Pid>)

  /** A home as a bootstrap may first find it: perhaps a directory, an interpreter from before the marker, or no file at its path. */
  function Initial(dir: bool, python: bool, foreign: bool): System
    requires python || foreign ==> dir
  {
    System(if dir then Some(Before) else None, if python then Some(Before) else None, if foreign then Foreign else NoMarker,
           None, map[], map[], 0, {})
  }

  /** What a removal takes: one file of the tree, the emptied directory, or nothing because it failed. */
  datatype Target = PythonFile | MarkerFile | EmptyDir | Stop

  datatype Action =
    | Spawn(p: Pid)
    | Lock(p: Pid)
    | NoLock(p: Pid)
    | Look(p: Pid)
    | Drop(p: Pid, ok: bool)
    | Probe(p: Pid)
    | MakeDir(p: Pid)
    | MakePython(p: Pid)
    | ChildEnds(p: Pid, ok: bool)
    | Temp(p: Pid, ok: bool)
    | Rename(p: Pid, ok: bool)
    | Clean(p: Pid, target: Target)
    | Unlock(p: Pid)
    | Crash(p: Pid)
    | Lose(target: Target)

  predicate Looking(pc: PC) { pc.SeePython? || pc.SeeMarker? || pc.PeekPython? || pc.PeekMarker? }

  predicate Enabled(s: System, a: Action) {
    match a
    case Spawn(p) => p !in s.procs
    case Lock(p) => p in s.procs && s.procs[p].pc.WantLock? && s.lock.None?
    case NoLock(p) => p in s.procs && s.procs[p].pc.WantLock?
    case Look(p) => p in s.procs && Looking(s.procs[p].pc)
    case Drop(p, _) => p in s.procs && s.procs[p].pc.DropMarker?
    case Probe(p) => p in s.procs && s.procs[p].pc.Probing?
    case MakeDir(p) => p in s.running && s.running[p].VenvJob? && s.dir.None?
    case MakePython(p) => p in s.running && s.running[p].VenvJob? && s.dir.Some? && s.python.None?
    case ChildEnds(p, _) => p in s.running && p in s.procs
    case Temp(p, _) => p in s.procs && s.procs[p].pc.MarkTemp?
    case Rename(p, ok) => p in s.procs && s.procs[p].pc.MarkRename? && (ok ==> s.dir.Some?)
    case Clean(p, target) =>
      p in s.procs && s.procs[p].pc.Cleaning? && (target.EmptyDir? ==> s.python.None? && s.marker.NoMarker?)
    case Unlock(p) => p in s.procs && s.procs[p].pc.Unlocking?
    case Crash(p) => p in s.procs && !s.procs[p].pc.Done?
    case Lose(target) => target.EmptyDir? ==> s.python.None? && s.marker.NoMarker?
  }

  function Goto(s: System, p: Pid, pc: PC): System
    requires p in s.procs
  {
    s.(procs := s.procs[p := s.procs[p].(pc := pc)])
  }

  /** repoMapVenvReady, the interpreter first and then the marker; without the lock nothing is built on its verdict. */
  function LookStep(s: System, p: Pid): System
    requires p in s.procs
  {
    match s.procs[p].pc
    case SeePython => Goto(s, p, SeeMarker(s.python.Some?))
    case PeekPython => Goto(s, p, PeekMarker(s.python.Some?))
    case PeekMarker(python) => Goto(s, p, Done(python && s.marker.File?))
    case SeeMarker(python) =>
      if python && s.marker.File? then Goto(s, p, Unlocking(true))
      else s.(procs := s.procs[p := s.procs[p].(pc := DropMarker, build := s.builds + 1)], builds := s.builds + 1)
    case _ => s
  }

  /** removeRepoMapMarker: what is no marker file is refused and left alone. */
  function DropStep(s: System, p: Pid, ok: bool): System
    requires p in s.procs
  {
    if s.marker.NoMarker? then Goto(s, p, Probing)
    else if s.marker.Foreign? || !ok then Goto(s, p, Unlocking(false))
    else Goto(s.(marker := NoMarker), p, Probing)
  }

  /** The child's end, which its bootstrap acts on, unless it was killed: then the child's copy of the lock goes with it. */
  function EndStep(s: System, p: Pid, ok: bool): System
    requires p in s.procs
  {
    var s0 := s.(running := s.running - {p});
    match s.procs[p].pc
    case Venv => if ok then Goto(s.(running := s.running[p := PipJob]), p, Pip) else Goto(s0, p, Cleaning)
    case Pip => if ok then Goto(s0.(pipOk := s.pipOk + {p}), p, MarkTemp) else Goto(s0, p, Cleaning)
    case _ => s0.(lock := None)
  }

  function Removed(s: System, target: Target): System {
    match target
    case PythonFile => s.(python := None)
    case MarkerFile => s.(marker := NoMarker)
    case EmptyDir => s.(dir := None)
    case Stop => s
  }

  /** cleanupRepoMapVenv: the directory, if it was not there before; else the interpreter, if it was not. */
  function CleanStep(s: System, p: Pid, target: Target): System
    requires p in s.procs
  {
    var pr := s.procs[p];
    if pr.existed then
      Goto(if !pr.hadPython && target.PythonFile? then s.(python := None) else s, p, Unlocking(false))
    else
      Goto(Removed(s, target), p, if target.EmptyDir? || target.Stop? then Unlocking(false) else Cleaning)
  }

  function Next(s: System, a: Action): System
    requires Enabled(s, a)
  {
    match a
    case Spawn(p) => s.(procs := s.procs[p := Proc(WantLock, 0, false, false)])
    case Lock(p) => Goto(s.(lock := Some(p)), p, SeePython)
    case NoLock(p) => Goto(s, p, PeekPython)
    case Look(p) => LookStep(s, p)
    case Drop(p, ok) => DropStep(s, p, ok)
    case Probe(p) =>
      var pr := s.procs[p].(pc := Venv, existed := s.dir.Some?, hadPython := s.python.Some?);
      s.(procs := s.procs[p := pr], running := s.running[p := VenvJob])
    case MakeDir(p) => s.(dir := Some(By(p)))
    case MakePython(p) => s.(python := Some(By(p)))
    case ChildEnds(p, ok) => EndStep(s, p, ok)
    case Temp(p, ok) => Goto(s, p, if ok then MarkRename else Cleaning)
    case Rename(p, ok) =>
      if ok then Goto(s.(marker := File(p, s.procs[p].build)), p, Unlocking(true)) else Goto(s, p, Cleaning)
    case Clean(p, target) => CleanStep(s, p, target)
    case Unlock(p) => Goto(s.(lock := None), p, Done(s.procs[p].pc.ready))
    case Crash(p) => Goto(s.(lock := if s.lock == Some(p) && p !in s.running then None else s.lock), p, Dead)
    case Lose(target) => Removed(s, target)
  }

  ghost predicate Run(states: seq<System>, actions: seq<Action>) {
    && |states| == |actions| + 1
    && (exists dir, python, foreign: bool :: (python || foreign ==> dir) && states[0] == Initial(dir, python, foreign))
    && forall i {:trigger actions[i]} | 0 <= i < |actions| ::
         Enabled(states[i], actions[i]) && states[i + 1] == Next(states[i], actions[i])
  }

  // ----- the invariant

  predicate UnderLock(pc: PC) {
    pc.SeePython? || pc.SeeMarker? || pc.DropMarker? || pc.Unlocking? || Building(pc)
  }

  /** From the probe to the cleanup: the stale marker is gone and no new one is there. */
  predicate Building(pc: PC) {
    pc.Probing? || pc.Venv? || pc.Pip? || pc.MarkTemp? || pc.MarkRename? || pc.Cleaning?
  }

  predicate Probed(pc: PC) { Building(pc) && !pc.Probing? }

  ghost predicate ProcOk(s: System, p: Pid, pr: Proc) {
    && (UnderLock(pr.pc) ==> s.lock == Some(p))
    && (pr.pc.SeeMarker? && !pr.pc.python ==> s.python.None?)
    && (pr.pc.DropMarker? ==> s.python.None? || !s.marker.File?)
    && (Building(pr.pc) ==> s.marker.NoMarker?)
    && (pr.pc.DropMarker? || Building(pr.pc) ==> pr.build == s.builds)
    && (pr.pc.MarkTemp? || pr.pc.MarkRename? ==> p in s.pipOk)
    && (Probed(pr.pc) && !pr.existed ==> Own(s.dir, p) && Own(s.python, p))
    && (Probed(pr.pc) && !pr.hadPython ==> Own(s.python, p))
    && (pr.pc.Venv? || pr.pc.Pip? <==> p in s.running && !pr.pc.Dead?)
  }

  ghost predicate Own(made: Option<Maker>, p: Pid) { made.Some? ==> made.value == By(p) }

  /** The interpreter and the marker are in the directory. */
  ghost predicate TreeOk(s: System) { s.dir.None? ==> s.python.None? && s.marker.NoMarker? }

  ghost predicate MarkerOk(s: System) {
    s.marker.File? ==> s.marker.writer in s.pipOk && (s.python.Some? ==> s.marker.build == s.builds)
  }

  /** A running child holds the lock, and there is no marker while it runs. */
  ghost predicate ChildrenOk(s: System) {
    forall p | p in s.running :: p in s.procs && s.lock == Some(p) && s.marker.NoMarker?
  }

  ghost predicate Inv(s: System) {
    TreeOk(s) && MarkerOk(s) && ChildrenOk(s) && forall p | p in s.procs :: ProcOk(s, p, s.procs[p])
  }

  /** A step that changes nothing but what a lock holder may, and removals. */
  ghost predicate Frame(s: System, s': System, p: Pid) {
    && (forall q | q != p :: (q in s'.procs <==> q in s.procs) && (q in s.procs ==> s'.procs[q] == s.procs[q]))
    && (forall q | q != p :: q in s'.running <==> q in s.running)
    && (s'.lock == s.lock || s.lock == Some(p) || (s.lock.None? && s'.lock == Some(p)))
    && (s.lock != Some(p) ==>
          && s'.builds == s.builds && s'.pipOk == s.pipOk
          && (s'.marker == s.marker || s'.marker.NoMarker?)
          && (s'.python == s.python || s'.python.None?) && (s'.dir == s.dir || s'.dir.None?))
  }

  lemma OthersStay(s: System, s': System, p: Pid, q: Pid)
    requires Inv(s) && Frame(s, s', p) && q in s.procs && q != p
    ensures ProcOk(s', q, s'.procs[q])
  {
    assert ProcOk(s, q, s.procs[q]);
    assert q in s.running ==> s.lock == Some(q);
  }

  lemma Assemble(s: System, s': System, p: Pid)
    requires Inv(s) && Frame(s, s', p) && TreeOk(s') && MarkerOk(s') && ChildrenOk(s')
    requires p in s'.procs ==> ProcOk(s', p, s'.procs[p])
    ensures Inv(s')
  {
    forall q | q in s'.procs ensures ProcOk(s', q, s'.procs[q]) {
      if q != p { OthersStay(s, s', p, q); }
    }
  }

  /** A step that changes no file and begins no build. */
  lemma QuietKeeps(s: System, s': System, p: Pid)
    requires Inv(s) && s' == s.(lock := s'.lock, procs := s'.procs)
    requires forall q | q != p :: (q in s'.procs <==> q in s.procs) && (q in s.procs ==> s'.procs[q] == s.procs[q])
    requires s'.lock == s.lock || (s.lock == Some(p) && p !in s.running) || (s.lock.None? && s'.lock == Some(p))
    requires p in s'.procs && ProcOk(s', p, s'.procs[p])
    ensures Inv(s')
  {
    forall q | q in s.running ensures q in s'.procs && s'.lock == Some(q) {
      assert s.lock == Some(q);
    }
    Assemble(s, s', p);
  }

  lemma SpawnKeeps(s: System, a: Action)
    requires Inv(s) && Enabled(s, a) && (a.Spawn? || a.Lock? || a.NoLock?)
    ensures Inv(Next(s, a))
  {
    assert a.p in s.procs ==> ProcOk(s, a.p, s.procs[a.p]);
    assert a.p !in s.running;
    QuietKeeps(s, Next(s, a), a.p);
  }

  lemma LeaveKeeps(s: System, a: Action)
    requires Inv(s) && Enabled(s, a) && (a.Unlock? || a.Crash?)
    ensures Inv(Next(s, a))
  {
    assert ProcOk(s, a.p, s.procs[a.p]);
    QuietKeeps(s, Next(s, a), a.p);
  }

  lemma LookKeeps(s: System, p: Pid)
    requires Inv(s) && Enabled(s, Look(p))
    ensures Inv(LookStep(s, p))
  {
    var pc := s.procs[p].pc;
    assert ProcOk(s, p, s.procs[p]);
    if pc.SeeMarker? && !(pc.python && s.marker.File?) {
      BuildBegins(s, p);
    } else {
      QuietKeeps(s, LookStep(s, p), p);
    }
  }

  lemma BuildBegins(s: System, p: Pid)
    requires Inv(s) && p in s.procs && s.procs[p].pc.SeeMarker? && !(s.procs[p].pc.python && s.marker.File?)
    ensures Inv(LookStep(s, p))
  {
    assert ProcOk(s, p, s.procs[p]);
    Assemble(s, LookStep(s, p), p);
  }

  lemma DropKeeps(s: System, p: Pid, ok: bool)
    requires Inv(s) && Enabled(s, Drop(p, ok))
    ensures Inv(DropStep(s, p, ok))
  {
    assert ProcOk(s, p, s.procs[p]);
    Assemble(s, DropStep(s, p, ok), p);
  }

  lemma ProbeKeeps(s: System, p: Pid)
    requires Inv(s) && Enabled(s, Probe(p))
    ensures Inv(Next(s, Probe(p)))
  {
    assert ProcOk(s, p, s.procs[p]);
    Assemble(s, Next(s, Probe(p)), p);
  }

  lemma ChildKeeps(s: System, a: Action)
    requires Inv(s) && Enabled(s, a) && (a.MakeDir? || a.MakePython?)
    ensures Inv(Next(s, a))
  {
    assert a.p in s.procs && ProcOk(s, a.p, s.procs[a.p]);
    Assemble(s, Next(s, a), a.p);
  }

  lemma EndKeeps(s: System, p: Pid, ok: bool)
    requires Inv(s) && Enabled(s, ChildEnds(p, ok))
    ensures Inv(EndStep(s, p, ok))
  {
    assert ProcOk(s, p, s.procs[p]);
    Assemble(s, EndStep(s, p, ok), p);
  }

  lemma MarkKeeps(s: System, a: Action)
    requires Inv(s) && Enabled(s, a) && (a.Temp? || a.Rename?)
    ensures Inv(Next(s, a))
  {
    assert ProcOk(s, a.p, s.procs[a.p]);
    Assemble(s, Next(s, a), a.p);
  }

  lemma CleanKeeps(s: System, p: Pid, target: Target)
    requires Inv(s) && Enabled(s, Clean(p, target))
    ensures Inv(CleanStep(s, p, target))
  {
    assert ProcOk(s, p, s.procs[p]);
    Assemble(s, CleanStep(s, p, target), p);
  }

  lemma LoseKeeps(s: System, target: Target)
    requires Inv(s) && Enabled(s, Lose(target))
    ensures Inv(Removed(s, target))
  {
    forall q | q in s.procs ensures ProcOk(Removed(s, target), q, s.procs[q]) {
      assert ProcOk(s, q, s.procs[q]);
    }
  }

  lemma NextKeeps(s: System, a: Action)
    requires Inv(s) && Enabled(s, a)
    ensures Inv(Next(s, a))
  {
    match a {
      case Look(p) => LookKeeps(s, p);
      case Drop(p, ok) => DropKeeps(s, p, ok);
      case Probe(p) => ProbeKeeps(s, p);
      case MakeDir(_) => ChildKeeps(s, a);
      case MakePython(_) => ChildKeeps(s, a);
      case ChildEnds(p, ok) => EndKeeps(s, p, ok);
      case Temp(_, _) => MarkKeeps(s, a);
      case Rename(_, _) => MarkKeeps(s, a);
      case Clean(p, target) => CleanKeeps(s, p, target);
      case Lose(target) => LoseKeeps(s, target);
      case Unlock(_) => LeaveKeeps(s, a);
      case Crash(_) => LeaveKeeps(s, a);
      case _ => SpawnKeeps(s, a);
    }
  }

  lemma {:induction false} RunKeeps(states: seq<System>, actions: seq<Action>, i: nat)
    requires Run(states, actions) && i <= |actions|
    ensures Inv(states[i])
  {
    if i > 0 {
      RunKeeps(states, actions, i - 1);
      assert Enabled(states[i - 1], actions[i - 1]);
      NextKeeps(states[i - 1], actions[i - 1]);
    }
  }

  // ----- what a venv with its marker is worth

  /** An interpreter with its marker file: the bootstrap that wrote the marker saw pip succeed, and no build has begun since. */
  lemma ReadyIsComplete(states: seq<System>, actions: seq<Action>, i: nat)
    requires Run(states, actions) && i <= |actions| && states[i].python.Some? && states[i].marker.File?
    ensures states[i].marker.writer in states[i].pipOk && states[i].marker.build == states[i].builds
  {
    RunKeeps(states, actions, i);
  }

  /** Whoever is told that the venv is ready: the bootstrap that wrote the marker there saw pip succeed. */
  lemma VerdictIsSound(states: seq<System>, actions: seq<Action>, i: nat, p: Pid)
    requires Run(states, actions) && i < |actions| && actions[i].Look? && actions[i].p == p && p in states[i].procs
    requires states[i + 1].procs[p].pc == Unlocking(true) || states[i + 1].procs[p].pc == Done(true)
    ensures states[i].marker.File? && states[i].marker.writer in states[i].pipOk
  {
    RunKeeps(states, actions, i);
    assert Enabled(states[i], actions[i]);
  }

  /** Only a cleanup removes a directory or an interpreter, and only one that its own attempt made; it removes no marker. */
  lemma CleanupRemovesItsOwn(states: seq<System>, actions: seq<Action>, i: nat)
    requires Run(states, actions) && i < |actions| && !actions[i].Lose?
    ensures var s, s', a := states[i], states[i + 1], actions[i];
      && (s.dir.Some? && s'.dir != s.dir ==> a.Clean? && s.dir == Some(By(a.p)) && s'.dir.None?)
      && (s.python.Some? && s'.python != s.python ==> a.Clean? && s.python == Some(By(a.p)) && s'.python.None?)
      && (s.marker.File? && s'.marker != s.marker ==> a.Drop? && s.python.None? && s'.marker.NoMarker?)
      && (s.marker.Foreign? ==> s'.marker.Foreign?)
  {
    RunKeeps(states, actions, i);
    var s, a := states[i], actions[i];
    assert Enabled(s, a) && states[i + 1] == Next(s, a);
    if !a.Spawn? {
      assert a.p in s.procs && ProcOk(s, a.p, s.procs[a.p]);
    }
  }

  /** A bootstrap that is killed never lets another build while its child still runs. */
  lemma OrphansKeepTheLock(states: seq<System>, actions: seq<Action>, i: nat, p: Pid, q: Pid)
    requires Run(states, actions) && i <= |actions| && p in states[i].running && q in states[i].procs && q != p
    ensures states[i].lock == Some(p) && !UnderLock(states[i].procs[q].pc)
  {
    RunKeeps(states, actions, i);
    assert ProcOk(states[i], q, states[i].procs[q]);
  }

  // ----- what a bootstrap does when nothing stands in its way

  /** The state after these actions, up to the first that is not enabled. */
  ghost function Plays(s: System, actions: seq<Action>): System
    decreases |actions|
  {
    if actions == [] || !Enabled(s, actions[0]) then s else Plays(Next(s, actions[0]), actions[1..])
  }

  ghost predicate Leads(s: System, a: Action, next: System) { Enabled(s, a) && Next(s, a) == next }

  lemma PlaysOn(s: System, a: Action, next: System, rest: seq<Action>)
    requires Leads(s, a, next)
    ensures Plays(s, [a] + rest) == Plays(next, rest)
  {
    assert ([a] + rest)[1..] == rest;
  }

  /** The home as it is, with p holding the lock. */
  function Holding(s: System, p: Pid, pc: PC): System
    requires p in s.procs
  {
    s.(lock := Some(p), procs := s.procs[p := s.procs[p].(pc := pc)])
  }

  lemma StepsToLook(s: System, p: Pid)
    requires p in s.procs && s.procs[p].pc.WantLock? && s.lock.None?
    ensures Leads(s, Lock(p), Holding(s, p, SeePython))
    ensures Leads(Holding(s, p, SeePython), Look(p), Holding(s, p, SeeMarker(s.python.Some?)))
  {
  }

  lemma StepsToReady(s: System, p: Pid)
    requires p in s.procs && s.lock.None? && s.python.Some? && s.marker.File?
    ensures Leads(Holding(s, p, SeeMarker(true)), Look(p), Holding(s, p, Unlocking(true)))
    ensures Leads(Holding(s, p, Unlocking(true)), Unlock(p), Goto(s, p, Done(true)))
  {
  }

  /** A bootstrap that finds the venv ready leaves it as it is. */
  lemma ReadyIsNotRebuilt(s: System, p: Pid)
    requires p in s.procs && s.procs[p].pc.WantLock? && s.lock.None? && s.python.Some? && s.marker.File?
    ensures Plays(s, [Lock(p)] + ([Look(p)] + ([Look(p)] + ([Unlock(p)] + [])))) == Goto(s, p, Done(true))
  {
    StepsToLook(s, p);
    PlaysOn(s, Lock(p), Holding(s, p, SeePython), [Look(p)] + ([Look(p)] + ([Unlock(p)] + [])));
    PlaysOn(Holding(s, p, SeePython), Look(p), Holding(s, p, SeeMarker(true)), [Look(p)] + ([Unlock(p)] + []));
    StepsToReady(s, p);
    PlaysOn(Holding(s, p, SeeMarker(true)), Look(p), Holding(s, p, Unlocking(true)), [Unlock(p)] + []);
    PlaysOn(Holding(s, p, Unlocking(true)), Unlock(p), Goto(s, p, Done(true)), []);
  }

  /** No venv in the home, and p about to look for one. */
  predicate Bare(s: System, p: Pid) {
    && p in s.procs && s.procs[p] == Proc(WantLock, 0, false, false) && s.lock.None? && p !in s.running
    && s.dir.None? && s.python.None? && s.marker.NoMarker?
  }

  /** A build in a home that was bare. */
  function Built(s: System, p: Pid, pc: PC, dir: Option<Maker>, python: Option<Maker>, job: Option<Job>): System
    requires p in s.procs
  {
    s.(dir := dir, python := python, lock := Some(p), builds := s.builds + 1,
       running := if job.Some? then s.running[p := job.value] else s.running,
       procs := s.procs[p := Proc(pc, s.builds + 1, false, false)])
  }

  function Probes(p: Pid, rest: seq<Action>): seq<Action> { [Lock(p)] + ([Look(p)] + ([Look(p)] + ([Drop(p, true)] + ([Probe(p)] + rest)))) }

  function Makes(p: Pid, rest: seq<Action>): seq<Action> { [MakeDir(p)] + ([MakePython(p)] + ([ChildEnds(p, true)] + rest)) }

  lemma StepsToProbe(s: System, p: Pid)
    requires Bare(s, p)
    ensures Leads(Holding(s, p, SeeMarker(false)), Look(p), Built(s, p, DropMarker, None, None, None))
    ensures Leads(Built(s, p, DropMarker, None, None, None), Drop(p, true), Built(s, p, Probing, None, None, None))
    ensures Leads(Built(s, p, Probing, None, None, None), Probe(p), Built(s, p, Venv, None, None, Some(VenvJob)))
  {
  }

  lemma PlaysToVenv(s: System, p: Pid, rest: seq<Action>)
    requires Bare(s, p)
    ensures Plays(s, Probes(p, rest)) == Plays(Built(s, p, Venv, None, None, Some(VenvJob)), rest)
  {
    StepsToLook(s, p);
    PlaysOn(s, Lock(p), Holding(s, p, SeePython), [Look(p)] + ([Look(p)] + ([Drop(p, true)] + ([Probe(p)] + rest))));
    PlaysOn(Holding(s, p, SeePython), Look(p), Holding(s, p, SeeMarker(false)), [Look(p)] + ([Drop(p, true)] + ([Probe(p)] + rest)));
    StepsToProbe(s, p);
    PlaysOn(Holding(s, p, SeeMarker(false)), Look(p), Built(s, p, DropMarker, None, None, None), [Drop(p, true)] + ([Probe(p)] + rest));
    PlaysOn(Built(s, p, DropMarker, None, None, None), Drop(p, true), Built(s, p, Probing, None, None, None), [Probe(p)] + rest);
    PlaysOn(Built(s, p, Probing, None, None, None), Probe(p), Built(s, p, Venv, None, None, Some(VenvJob)), rest);
  }

  lemma StepsToPip(s: System, p: Pid)
    requires Bare(s, p)
    ensures Leads(Built(s, p, Venv, None, None, Some(VenvJob)), MakeDir(p), Built(s, p, Venv, Some(By(p)), None, Some(VenvJob)))
    ensures Leads(Built(s, p, Venv, Some(By(p)), None, Some(VenvJob)), MakePython(p), Built(s, p, Venv, Some(By(p)), Some(By(p)), Some(VenvJob)))
    ensures Leads(Built(s, p, Venv, Some(By(p)), Some(By(p)), Some(VenvJob)), ChildEnds(p, true), Built(s, p, Pip, Some(By(p)), Some(By(p)), Some(PipJob)))
  {
  }

  lemma PlaysToPip(s: System, p: Pid, rest: seq<Action>)
    requires Bare(s, p)
    ensures Plays(Built(s, p, Venv, None, None, Some(VenvJob)), Makes(p, rest)) == Plays(Built(s, p, Pip, Some(By(p)), Some(By(p)), Some(PipJob)), rest)
  {
    StepsToPip(s, p);
    PlaysOn(Built(s, p, Venv, None, None, Some(VenvJob)), MakeDir(p), Built(s, p, Venv, Some(By(p)), None, Some(VenvJob)),
            [MakePython(p)] + ([ChildEnds(p, true)] + rest));
    PlaysOn(Built(s, p, Venv, Some(By(p)), None, Some(VenvJob)), MakePython(p), Built(s, p, Venv, Some(By(p)), Some(By(p)), Some(VenvJob)),
            [ChildEnds(p, true)] + rest);
    PlaysOn(Built(s, p, Venv, Some(By(p)), Some(By(p)), Some(VenvJob)), ChildEnds(p, true), Built(s, p, Pip, Some(By(p)), Some(By(p)), Some(PipJob)), rest);
  }

  /** A build whose pip has succeeded. */
  function Piped(s: System, p: Pid, pc: PC, marker: Marker): System
    requires p in s.procs
  {
    Built(s, p, pc, Some(By(p)), Some(By(p)), None).(pipOk := s.pipOk + {p}, marker := marker)
  }

  lemma StepsToMark(s: System, p: Pid)
    requires Bare(s, p)
    ensures Leads(Built(s, p, Pip, Some(By(p)), Some(By(p)), Some(PipJob)), ChildEnds(p, true), Piped(s, p, MarkTemp, NoMarker))
    ensures Leads(Piped(s, p, MarkTemp, NoMarker), Temp(p, true), Piped(s, p, MarkRename, NoMarker))
  {
    assert s.running[p := PipJob] - {p} == s.running;
  }

  lemma StepsToDone(s: System, p: Pid)
    requires Bare(s, p)
    ensures var marker := File(p, s.builds + 1);
      && Leads(Piped(s, p, MarkRename, NoMarker), Rename(p, true), Piped(s, p, Unlocking(true), marker))
      && Leads(Piped(s, p, Unlocking(true), marker), Unlock(p), Piped(s, p, Done(true), marker).(lock := None))
  {
  }

  /** A bootstrap of a bare home whose steps all succeed leaves an interpreter and its own marker, and says so. */
  lemma BuildsAlone(s: System, p: Pid)
    requires Bare(s, p)
    ensures Plays(s, Probes(p, Makes(p, [ChildEnds(p, true)] + ([Temp(p, true)] + ([Rename(p, true)] + ([Unlock(p)] + [])))))) ==
      Piped(s, p, Done(true), File(p, s.builds + 1)).(lock := None)
  {
    var marker := File(p, s.builds + 1);
    var mark := [Temp(p, true)] + ([Rename(p, true)] + ([Unlock(p)] + []));
    PlaysToVenv(s, p, Makes(p, [ChildEnds(p, true)] + mark));
    PlaysToPip(s, p, [ChildEnds(p, true)] + mark);
    StepsToMark(s, p);
    PlaysOn(Built(s, p, Pip, Some(By(p)), Some(By(p)), Some(PipJob)), ChildEnds(p, true), Piped(s, p, MarkTemp, NoMarker), mark);
    PlaysOn(Piped(s, p, MarkTemp, NoMarker), Temp(p, true), Piped(s, p, MarkRename, NoMarker), [Rename(p, true)] + ([Unlock(p)] + []));
    StepsToDone(s, p);
    PlaysOn(Piped(s, p, MarkRename, NoMarker), Rename(p, true), Piped(s, p, Unlocking(true), marker), [Unlock(p)] + []);
    PlaysOn(Piped(s, p, Unlocking(true), marker), Unlock(p), Piped(s, p, Done(true), marker).(lock := None), []);
  }

  lemma StepsToClean(s: System, p: Pid)
    requires Bare(s, p)
    ensures Leads(Built(s, p, Pip, Some(By(p)), Some(By(p)), Some(PipJob)), ChildEnds(p, false), Built(s, p, Cleaning, Some(By(p)), Some(By(p)), None))
    ensures Leads(Built(s, p, Cleaning, Some(By(p)), Some(By(p)), None), Clean(p, PythonFile), Built(s, p, Cleaning, Some(By(p)), None, None))
  {
    assert s.running[p := PipJob] - {p} == s.running;
  }

  lemma StepsToBare(s: System, p: Pid)
    requires Bare(s, p)
    ensures Leads(Built(s, p, Cleaning, Some(By(p)), None, None), Clean(p, EmptyDir), Built(s, p, Unlocking(false), None, None, None))
    ensures Leads(Built(s, p, Unlocking(false), None, None, None), Unlock(p), Built(s, p, Done(false), None, None, None).(lock := None))
  {
  }

  /** One whose pip fails, and whose cleanup succeeds, leaves the home bare again. */
  lemma FailedPipLeavesNothing(s: System, p: Pid)
    requires Bare(s, p)
    ensures Plays(s, Probes(p, Makes(p, [ChildEnds(p, false)] + ([Clean(p, PythonFile)] + ([Clean(p, EmptyDir)] + ([Unlock(p)] + [])))))) ==
      Built(s, p, Done(false), None, None, None).(lock := None)
  {
    var clean := [Clean(p, PythonFile)] + ([Clean(p, EmptyDir)] + ([Unlock(p)] + []));
    PlaysToVenv(s, p, Makes(p, [ChildEnds(p, false)] + clean));
    PlaysToPip(s, p, [ChildEnds(p, false)] + clean);
    StepsToClean(s, p);
    PlaysOn(Built(s, p, Pip, Some(By(p)), Some(By(p)), Some(PipJob)), ChildEnds(p, false), Built(s, p, Cleaning, Some(By(p)), Some(By(p)), None), clean);
    PlaysOn(Built(s, p, Cleaning, Some(By(p)), Some(By(p)), None), Clean(p, PythonFile), Built(s, p, Cleaning, Some(By(p)), None, None),
            [Clean(p, EmptyDir)] + ([Unlock(p)] + []));
    StepsToBare(s, p);
    PlaysOn(Built(s, p, Cleaning, Some(By(p)), None, None), Clean(p, EmptyDir), Built(s, p, Unlocking(false), None, None, None), [Unlock(p)] + []);
    PlaysOn(Built(s, p, Unlocking(false), None, None, None), Unlock(p), Built(s, p, Done(false), None, None, None).(lock := None), []);
  }
}
