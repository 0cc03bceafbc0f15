/**
 * Publication of envelopes in a spool directory (internal/executor/spool.go, WriteEnvelope) as a state machine:
 * concurrent calls, each killed at any step, over one directory and its lock.
 */
module Spool {
  import opened Common
  import Envelope
  import Validation

  type Pid = nat
  type Bytes = Envelope.Bytes

  /** A name WriteEnvelope takes: a leaf that is a valid artifact path. */
  predicate ValidLeaf(name: string) { Validation.ValidArtifactPath(name) && '/' !in name }

  predicate HexDigit(c: char) { '0' <= c <= '9' || 'a' <= c <= 'f' }

  /** Eight random bytes in hexadecimal. */
  predicate RandomHex(h: string) { |h| == 16 && forall i | 0 <= i < |h| :: HexDigit(h[i]) }

  function TempName(name: string, h: string): string { "." + name + ".tmp-" + h }

  /** A name that is the temporary name of an envelope. */
  ghost predicate TempForm(f: string) { exists n, h :: ValidLeaf(n) && RandomHex(h) && f == TempName(n, h) }

  datatype Reply = Written | OtherBytes | Failed

  datatype PC =
    | WantLock
    | Reading
    | Creating
    | Writing(tmp: string)
    | Renaming(tmp: string)
    | Removing(tmp: string)
    | Unlocking(reply: Reply)
    | Done(reply: Reply)
    | Dead

  /** A call whose name and bytes were accepted. */
  datatype Proc = Proc(name: string, raw: Bytes, pc: PC)

  datatype System = System(files: map<string, Bytes>, lock: Option<Pid>, procs: map<Pid, Proc>)

  const Initial: System := System(map[], None, map[])

  /** How a write goes on: with more to write, to the end of it all, or to an error. */
  datatype Progress = More | AllSynced | Broken

  datatype Action =
    | Spawn(p: Pid, name: string, raw: Bytes)
    | Lock(p: Pid)
    | GiveUp(p: Pid)
    | Crash(p: Pid)
    | Read(p: Pid, ok: bool)
    | Create(p: Pid, h: string, ok: bool)
    | Write(p: Pid, k: nat, progress: Progress)
    | Rename(p: Pid, ok: bool, synced: bool)
    | Remove(p: Pid, ok: bool)
    | Unlock(p: Pid)

  /** The bytes of an accepted call are a strict JSON document, so there are some. */
  predicate Enabled(s: System, a: Action) {
    match a
    case Spawn(p, name, raw) => p !in s.procs && ValidLeaf(name) && raw != []
    case Lock(p) => p in s.procs && s.procs[p].pc.WantLock? && s.lock.None?
    case GiveUp(p) => p in s.procs && s.procs[p].pc.WantLock?
    case Crash(p) => p in s.procs && !s.procs[p].pc.Done?
    case Read(p, _) => p in s.procs && s.procs[p].pc.Reading?
    case Create(p, h, ok) => p in s.procs && s.procs[p].pc.Creating? && RandomHex(h)
    case Write(p, k, progress) =>
      p in s.procs && s.procs[p].pc.Writing? && k <= |s.procs[p].raw| && (progress.AllSynced? ==> k == |s.procs[p].raw|)
    case Rename(p, _, _) => p in s.procs && s.procs[p].pc.Renaming?
    case Remove(p, _) => p in s.procs && s.procs[p].pc.Removing?
    case Unlock(p) => p in s.procs && s.procs[p].pc.Unlocking?
  }

  function Goto(s: System, p: Pid, pc: PC): System
    requires p in s.procs
  {
    s.(procs := s.procs[p := s.procs[p].(pc := pc)])
  }

  function ReadStep(s: System, p: Pid, ok: bool): System
    requires p in s.procs
  {
    var pr := s.procs[p];
    if !ok then Goto(s, p, Unlocking(Failed))
    else if pr.name !in s.files then Goto(s, p, Creating)
    else Goto(s, p, Unlocking(if s.files[pr.name] == pr.raw then Written else OtherBytes))
  }

  /** Open with O_EXCL. */
  function CreateStep(s: System, p: Pid, h: string, ok: bool): System
    requires p in s.procs
  {
    var tmp := TempName(s.procs[p].name, h);
    if !ok || tmp in s.files then Goto(s, p, Unlocking(Failed))
    else Goto(s.(files := s.files[tmp := []]), p, Writing(tmp))
  }

  function WriteStep(s: System, p: Pid, k: nat, progress: Progress): System
    requires p in s.procs && s.procs[p].pc.Writing? && k <= |s.procs[p].raw|
  {
    var pr := s.procs[p];
    Goto(s.(files := s.files[pr.pc.tmp := pr.raw[..k]]), p,
         match progress
         case More => Writing(pr.pc.tmp)
         case AllSynced => Renaming(pr.pc.tmp)
         case Broken => Removing(pr.pc.tmp))
  }

  /** The rename replaces what the name held; syncing the directory after it may still fail. */
  function RenameStep(s: System, p: Pid, ok: bool, synced: bool): System
    requires p in s.procs && s.procs[p].pc.Renaming?
  {
    var pr := s.procs[p];
    if !ok || pr.pc.tmp !in s.files then Goto(s, p, Removing(pr.pc.tmp))
    else
      var moved := s.files[pr.name := s.files[pr.pc.tmp]] - {pr.pc.tmp};
      Goto(s.(files := moved), p, Unlocking(if synced then Written else Failed))
  }

  function Next(s: System, a: Action): System
    requires Enabled(s, a)
  {
    match a
    case Spawn(p, name, raw) => s.(procs := s.procs[p := Proc(name, raw, WantLock)])
    case Lock(p) => Goto(s.(lock := Some(p)), p, Reading)
    case GiveUp(p) => Goto(s, p, Done(Failed))
    case Crash(p) => Goto(s.(lock := if s.lock == Some(p) then None else s.lock), p, Dead)
    case Read(p, ok) => ReadStep(s, p, ok)
    case Create(p, h, ok) => CreateStep(s, p, h, ok)
    case Write(p, k, progress) => WriteStep(s, p, k, progress)
    case Rename(p, ok, synced) => RenameStep(s, p, ok, synced)
    case Remove(p, ok) =>
      Goto(if ok then s.(files := s.files - {s.procs[p].pc.tmp}) else s, p, Unlocking(Failed))
    case Unlock(p) => Goto(s.(lock := None), p, Done(s.procs[p].pc.reply))
  }

  ghost predicate Run(states: seq<System>, actions: seq<Action>) {
    && |states| == |actions| + 1
    && states[0] == Initial
    && forall i {:trigger actions[i]} | 0 <= i < |actions| ::
         Enabled(states[i], actions[i]) && states[i + 1] == Next(states[i], actions[i])
  }

  // ----- the invariant

  predicate UnderLock(pc: PC) {
    pc.Reading? || pc.Creating? || pc.Writing? || pc.Renaming? || pc.Removing? || pc.Unlocking?
  }

  predicate HasTemp(pc: PC) { pc.Writing? || pc.Renaming? || pc.Removing? }

  predicate IsWritten(pc: PC) { pc == Unlocking(Written) || pc == Done(Written) }

  ghost predicate TempOf(name: string, tmp: string) { exists h :: RandomHex(h) && tmp == TempName(name, h) }

  ghost predicate ProcOk(files: map<string, Bytes>, lock: Option<Pid>, p: Pid, pr: Proc) {
    && ValidLeaf(pr.name) && pr.raw != []
    && (UnderLock(pr.pc) ==> lock == Some(p))
    && (pr.pc.Creating? ==> pr.name !in files)
    && (HasTemp(pr.pc) ==> TempOf(pr.name, pr.pc.tmp) && pr.name !in files && pr.pc.tmp in files)
    && (pr.pc.Renaming? ==> files[pr.pc.tmp] == pr.raw)
    && (IsWritten(pr.pc) ==> pr.name in files && files[pr.name] == pr.raw)
  }

  /** No name that a call has been told is written is another call's temporary file. */
  ghost predicate Apart(procs: map<Pid, Proc>) {
    forall p, q | p in procs && q in procs && IsWritten(procs[p].pc) && HasTemp(procs[q].pc) :: procs[p].name != procs[q].pc.tmp
  }

  /** Some accepted call of this name has these bytes. */
  ghost predicate Accepted(procs: map<Pid, Proc>, name: string, bytes: Bytes) {
    exists p :: p in procs && procs[p].name == name && procs[p].raw == bytes
  }

  ghost predicate FilesOk(s: System) {
    forall f | f in s.files && !TempForm(f) :: Accepted(s.procs, f, s.files[f])
  }

  ghost predicate Inv(s: System) {
    && (forall p | p in s.procs :: ProcOk(s.files, s.lock, p, s.procs[p]))
    && Apart(s.procs) && FilesOk(s)
  }

  /** How a step of p may change the directory: outside the lock not at all; with it, only its temporary file and its absent name. */
  ghost predicate Frame(s: System, s': System, p: Pid) {
    && p in s'.procs
    && (forall q | q != p :: (q in s'.procs <==> q in s.procs) && (q in s.procs ==> s'.procs[q] == s.procs[q]))
    && (p in s.procs ==> s'.procs[p].name == s.procs[p].name && s'.procs[p].raw == s.procs[p].raw)
    && (s'.lock == s.lock || s.lock == Some(p) || (s.lock.None? && s'.lock == Some(p)))
    && (s'.files != s.files ==> s.lock == Some(p))
    && (forall q | q in s.procs && q != p && IsWritten(s.procs[q].pc) && s.procs[q].name in s.files ::
          s.procs[q].name in s'.files && s'.files[s.procs[q].name] == s.files[s.procs[q].name])
  }

  lemma OthersStay(s: System, s': System, p: Pid, q: Pid)
    requires Inv(s) && Frame(s, s', p) && q in s.procs && q != p
    ensures ProcOk(s'.files, s'.lock, q, s'.procs[q])
  {
    assert ProcOk(s.files, s.lock, q, s.procs[q]);
  }

  lemma AcceptedStays(s: System, s': System, p: Pid, name: string, bytes: Bytes)
    requires Frame(s, s', p) && Accepted(s.procs, name, bytes)
    ensures Accepted(s'.procs, name, bytes)
  {
    var q :| q in s.procs && s.procs[q].name == name && s.procs[q].raw == bytes;
    assert q in s'.procs && s'.procs[q].name == name && s'.procs[q].raw == bytes;
  }

  lemma Assemble(s: System, s': System, p: Pid)
    requires Inv(s) && Frame(s, s', p) && ProcOk(s'.files, s'.lock, p, s'.procs[p])
    requires IsWritten(s'.procs[p].pc) ==> (p in s.procs && IsWritten(s.procs[p].pc)) || s.lock == Some(p)
    requires HasTemp(s'.procs[p].pc) ==>
      (p in s.procs && HasTemp(s.procs[p].pc) && s'.procs[p].pc.tmp == s.procs[p].pc.tmp) || s'.procs[p].pc.tmp !in s.files
    requires forall f | f in s'.files && !TempForm(f) :: (f in s.files && s'.files[f] == s.files[f]) || Accepted(s'.procs, f, s'.files[f])
    ensures Inv(s')
  {
    forall q | q in s'.procs ensures ProcOk(s'.files, s'.lock, q, s'.procs[q]) {
      if q != p { OthersStay(s, s', p, q); }
    }
    forall q, r | q in s'.procs && r in s'.procs && IsWritten(s'.procs[q].pc) && HasTemp(s'.procs[r].pc)
      ensures s'.procs[q].name != s'.procs[r].pc.tmp
    {
      assert q in s.procs ==> ProcOk(s.files, s.lock, q, s.procs[q]);
      assert r in s.procs ==> ProcOk(s.files, s.lock, r, s.procs[r]);
    }
    forall f | f in s'.files && !TempForm(f) ensures Accepted(s'.procs, f, s'.files[f]) {
      if f in s.files && s'.files[f] == s.files[f] {
        AcceptedStays(s, s', p, f, s.files[f]);
      }
    }
  }

  lemma TempIsNot(name: string, tmp: string)
    requires TempOf(name, tmp) && ValidLeaf(name)
    ensures tmp != name && TempForm(tmp)
  {
    var h :| RandomHex(h) && tmp == TempName(name, h);
    assert |tmp| > |name|;
  }

  /** A step that leaves the directory as it is. */
  lemma QuietKeeps(s: System, s': System, p: Pid)
    requires Inv(s) && Frame(s, s', p) && s'.files == s.files && ProcOk(s'.files, s'.lock, p, s'.procs[p])
    requires IsWritten(s'.procs[p].pc) ==> (p in s.procs && IsWritten(s.procs[p].pc)) || s.lock == Some(p)
    requires HasTemp(s'.procs[p].pc) ==> p in s.procs && HasTemp(s.procs[p].pc) && s'.procs[p].pc.tmp == s.procs[p].pc.tmp
    ensures Inv(s')
  {
    Assemble(s, s', p);
  }

  lemma LockingKeeps(s: System, a: Action)
    requires Inv(s) && Enabled(s, a) && (a.Spawn? || a.Lock? || a.GiveUp? || a.Crash? || a.Unlock?)
    ensures Inv(Next(s, a))
  {
    assert a.p in s.procs ==> ProcOk(s.files, s.lock, a.p, s.procs[a.p]);
    QuietKeeps(s, Next(s, a), a.p);
  }

  lemma ReadKeeps(s: System, p: Pid, ok: bool)
    requires Inv(s) && Enabled(s, Read(p, ok))
    ensures Inv(ReadStep(s, p, ok))
  {
    assert ProcOk(s.files, s.lock, p, s.procs[p]);
    QuietKeeps(s, ReadStep(s, p, ok), p);
  }

  lemma CreateKeeps(s: System, p: Pid, h: string, ok: bool)
    requires Inv(s) && Enabled(s, Create(p, h, ok))
    ensures Inv(CreateStep(s, p, h, ok))
  {
    var s', tmp := CreateStep(s, p, h, ok), TempName(s.procs[p].name, h);
    assert ProcOk(s.files, s.lock, p, s.procs[p]);
    assert TempOf(s.procs[p].name, tmp);
    TempIsNot(s.procs[p].name, tmp);
    Assemble(s, s', p);
  }

  /** What is written to a temporary file, or removed with it, is no envelope. */
  ghost predicate TempChange(s: System, s': System, p: Pid)
    requires p in s.procs && HasTemp(s.procs[p].pc)
  {
    var tmp := s.procs[p].pc.tmp;
    && s'.lock == s.lock && (s'.files.Keys == s.files.Keys || s'.files.Keys == s.files.Keys - {tmp})
    && (forall f | f in s'.files && f != tmp :: s'.files[f] == s.files[f])
    && p in s'.procs && s'.procs == s.procs[p := s.procs[p].(pc := s'.procs[p].pc)]
    && (s'.procs[p].pc == Unlocking(Failed) || (HasTemp(s'.procs[p].pc) && s'.procs[p].pc.tmp == tmp && tmp in s'.files))
    && (s'.procs[p].pc.Renaming? ==> s'.files[tmp] == s.procs[p].raw)
  }

  lemma TempChangeKeeps(s: System, s': System, p: Pid)
    requires Inv(s) && p in s.procs && HasTemp(s.procs[p].pc) && TempChange(s, s', p)
    ensures Inv(s')
  {
    assert ProcOk(s.files, s.lock, p, s.procs[p]);
    TempIsNot(s.procs[p].name, s.procs[p].pc.tmp);
    TempChangeFrame(s, s', p);
    assert ProcOk(s'.files, s'.lock, p, s'.procs[p]);
    Assemble(s, s', p);
  }

  lemma TempChangeFrame(s: System, s': System, p: Pid)
    requires p in s.procs && HasTemp(s.procs[p].pc) && TempChange(s, s', p) && ProcOk(s.files, s.lock, p, s.procs[p]) && Apart(s.procs)
    ensures Frame(s, s', p)
  {
    forall q | q in s.procs && q != p && IsWritten(s.procs[q].pc) && s.procs[q].name in s.files
      ensures s.procs[q].name in s'.files && s'.files[s.procs[q].name] == s.files[s.procs[q].name]
    {
      assert s.procs[q].name != s.procs[p].pc.tmp;
    }
  }

  lemma WriteKeeps(s: System, p: Pid, k: nat, progress: Progress)
    requires Inv(s) && Enabled(s, Write(p, k, progress))
    ensures Inv(WriteStep(s, p, k, progress))
  {
    assert ProcOk(s.files, s.lock, p, s.procs[p]);
    assert s.procs[p].raw[..|s.procs[p].raw|] == s.procs[p].raw;
    TempChangeKeeps(s, WriteStep(s, p, k, progress), p);
  }

  lemma RemoveKeeps(s: System, p: Pid, ok: bool)
    requires Inv(s) && Enabled(s, Remove(p, ok))
    ensures Inv(Next(s, Remove(p, ok)))
  {
    TempChangeKeeps(s, Next(s, Remove(p, ok)), p);
  }

  lemma RenameKeeps(s: System, p: Pid, ok: bool, synced: bool)
    requires Inv(s) && Enabled(s, Rename(p, ok, synced))
    ensures Inv(RenameStep(s, p, ok, synced))
  {
    var s', pr := RenameStep(s, p, ok, synced), s.procs[p];
    assert ProcOk(s.files, s.lock, p, pr);
    TempIsNot(pr.name, pr.pc.tmp);
    if ok {
      assert s'.procs[p].name == pr.name && s'.procs[p].raw == pr.raw;
      assert Accepted(s'.procs, pr.name, pr.raw);
      forall q | q in s.procs && q != p && IsWritten(s.procs[q].pc) && s.procs[q].name in s.files
        ensures s.procs[q].name in s'.files && s'.files[s.procs[q].name] == s.files[s.procs[q].name]
      {
        assert s.procs[q].name != pr.pc.tmp;
      }
      Assemble(s, s', p);
    } else {
      QuietKeeps(s, s', p);
    }
  }

  lemma NextKeeps(s: System, a: Action)
    requires Inv(s) && Enabled(s, a)
    ensures Inv(Next(s, a))
  {
    match a {
      case Read(p, ok) => ReadKeeps(s, p, ok);
      case Create(p, h, ok) => CreateKeeps(s, p, h, ok);
      case Write(p, k, progress) => WriteKeeps(s, p, k, progress);
      case Rename(p, ok, synced) => RenameKeeps(s, p, ok, synced);
      case Remove(p, ok) => RemoveKeeps(s, p, ok);
      case _ => LockingKeeps(s, a);
    }
  }

  lemma {:induction false} RunKeeps(states: seq<System>, actions: seq<Action>, i: nat)
    requires Run(states, actions) && i <= |actions|
    ensures Inv(states[i])
  {
    if i > 0 {
      RunKeeps(states, actions, i - 1);
      assert Enabled(states[i - 1], actions[i - 1]);
      NextKeeps(states[i - 1], actions[i - 1]);
    }
  }

  // ----- write once

  /** The name is absent or holds the complete bytes of one accepted call. */
  ghost predicate WholeOrAbsent(s: System, name: string) { name in s.files ==> Accepted(s.procs, name, s.files[name]) }

  lemma EnvelopesAreWhole(states: seq<System>, actions: seq<Action>, i: nat, name: string)
    requires Run(states, actions) && i <= |actions| && !TempForm(name)
    ensures WholeOrAbsent(states[i], name)
  {
    RunKeeps(states, actions, i);
  }

  /** A run that was killed after creating a temporary file, for a name of that form. */
  lemma TempNamesAreNot(name: string) returns (states: seq<System>, actions: seq<Action>)
    requires TempForm(name)
    ensures Run(states, actions) && !WholeOrAbsent(states[|actions|], name)
    ensures forall p | p in states[|actions|].procs :: states[|actions|].procs[p].pc.Dead?
  {
    var n, h :| ValidLeaf(n) && RandomHex(h) && name == TempName(n, h);
    var braces: Bytes := [0x7B, 0x7D];
    var s1 := System(map[], None, map[0 := Proc(n, braces, WantLock)]);
    var s2 := System(map[], Some(0), map[0 := Proc(n, braces, Reading)]);
    var s3 := System(map[], Some(0), map[0 := Proc(n, braces, Creating)]);
    var s4 := System(map[name := []], Some(0), map[0 := Proc(n, braces, Writing(name))]);
    var s5 := System(map[name := []], None, map[0 := Proc(n, braces, Dead)]);
    states := [Initial, s1, s2, s3, s4, s5];
    actions := [Spawn(0, n, braces), Lock(0), Read(0, true), Create(0, h, true), Crash(0)];
    assert Next(Initial, actions[0]) == s1;
    assert Next(s1, actions[1]) == s2;
    assert Next(s2, actions[2]) == s3;
    assert Next(s3, actions[3]) == s4;
    assert Next(s4, actions[4]) == s5;
  }

  /** A name is absent or whole in every state of every run exactly when it is not of the form of a temporary name. */
  lemma WholeExactly(name: string)
    ensures !TempForm(name) <==>
      forall states, actions, i: nat | Run(states, actions) && i <= |actions| :: WholeOrAbsent(states[i], name)
  {
    if TempForm(name) {
      var states, actions := TempNamesAreNot(name);
      assert !WholeOrAbsent(states[|actions|], name);
    } else {
      forall states, actions, i: nat | Run(states, actions) && i <= |actions| ensures WholeOrAbsent(states[i], name) {
        EnvelopesAreWhole(states, actions, i, name);
      }
    }
  }

  lemma StepLeavesEnvelope(s: System, a: Action, name: string)
    requires Inv(s) && Enabled(s, a) && name in s.files && !TempForm(name)
    ensures name in Next(s, a).files && Next(s, a).files[name] == s.files[name]
  {
    if !a.Spawn? {
      var pr := s.procs[a.p];
      assert ProcOk(s.files, s.lock, a.p, pr);
      if HasTemp(pr.pc) {
        TempIsNot(pr.name, pr.pc.tmp);
      }
    }
  }

  /** Once an envelope is there its bytes never change. */
  lemma {:induction false} EnvelopesNeverChange(states: seq<System>, actions: seq<Action>, i: nat, j: nat, name: string)
    requires Run(states, actions) && i <= j <= |actions| && name in states[i].files && !TempForm(name)
    ensures name in states[j].files && states[j].files[name] == states[i].files[name]
    decreases j
  {
    if i < j {
      EnvelopesNeverChange(states, actions, i, j - 1, name);
      RunKeeps(states, actions, j - 1);
      assert Enabled(states[j - 1], actions[j - 1]);
      StepLeavesEnvelope(states[j - 1], actions[j - 1], name);
    }
  }

  /** A call on a name that is there: what it may be doing, and what it may have been told. */
  ghost predicate Rewriting(s: System, p: Pid, name: string, raw: Bytes) {
    && p in s.procs && s.procs[p].name == name && s.procs[p].raw == raw && name in s.files
    && match s.procs[p].pc
       case WantLock => true
       case Reading => true
       case Unlocking(reply) => Told(reply, s.files[name], raw)
       case Done(reply) => Told(reply, s.files[name], raw)
       case Dead => true
       case _ => false
  }

  /** Success only on equal bytes, refusal only on other bytes; a failed read or lock says neither. */
  predicate Told(reply: Reply, held: Bytes, raw: Bytes) {
    match reply
    case Written => held == raw
    case OtherBytes => held != raw
    case Failed => true
  }

  lemma RewritingStep(s: System, a: Action, p: Pid, name: string, raw: Bytes)
    requires Inv(s) && Enabled(s, a) && Rewriting(s, p, name, raw) && !TempForm(name)
    ensures Rewriting(Next(s, a), p, name, raw)
    ensures !a.Spawn? && a.p == p ==> Next(s, a).files == s.files
    ensures a == Read(p, true) ==> Answers(Next(s, a), p, s.files[name], raw)
  {
    StepLeavesEnvelope(s, a, name);
    if a.p == p {
      OwnRewritingStep(s, a, name, raw);
    } else {
      OtherCallStays(s, a, p);
    }
  }

  /** A working read has just told the call success on equal bytes, or a refusal on others. */
  predicate Answers(s: System, p: Pid, held: Bytes, raw: Bytes) {
    p in s.procs && s.procs[p].pc == Unlocking(if held == raw then Written else OtherBytes)
  }

  lemma OwnRewritingStep(s: System, a: Action, name: string, raw: Bytes)
    requires Enabled(s, a) && Rewriting(s, a.p, name, raw)
    ensures Next(s, a).files == s.files && Rewriting(Next(s, a), a.p, name, raw)
    ensures a == Read(a.p, true) ==> Answers(Next(s, a), a.p, s.files[name], raw)
  {
  }

  lemma OtherCallStays(s: System, a: Action, p: Pid)
    requires Enabled(s, a) && p in s.procs && a.p != p
    ensures p in Next(s, a).procs && Next(s, a).procs[p] == s.procs[p]
  {
  }

  /**
   * A call that waits while its name is there changes no file, however the calls go on: it never gets to create a
   * temporary file; a read that works answers success on equal bytes and a refusal on others, and it is told nothing else.
   */
  lemma {:induction false} RewriteHasNoEffect(states: seq<System>, actions: seq<Action>, i: nat, j: nat, p: Pid)
    requires Run(states, actions) && i <= j <= |actions| && p in states[i].procs && states[i].procs[p].pc.WantLock?
    requires states[i].procs[p].name in states[i].files && !TempForm(states[i].procs[p].name)
    ensures Rewriting(states[j], p, states[i].procs[p].name, states[i].procs[p].raw)
    ensures states[j].files[states[i].procs[p].name] == states[i].files[states[i].procs[p].name]
    ensures forall k | i <= k < j && !actions[k].Spawn? && actions[k].p == p :: states[k + 1].files == states[k].files
    ensures forall k | i <= k < j && actions[k] == Read(p, true) ::
      Answers(states[k + 1], p, states[i].files[states[i].procs[p].name], states[i].procs[p].raw)
    decreases j
  {
    var pr := states[i].procs[p];
    if i < j {
      RewriteHasNoEffect(states, actions, i, j - 1, p);
      RunKeeps(states, actions, j - 1);
      var s, a := states[j - 1], actions[j - 1];
      assert Enabled(s, a) && states[j] == Next(s, a);
      RewritingStep(s, a, p, pr.name, pr.raw);
      StepLeavesEnvelope(s, a, pr.name);
    }
  }

  /** A call that succeeded left its bytes under its name for good, whatever the name. */
  lemma {:induction false} WrittenStays(states: seq<System>, actions: seq<Action>, i: nat, j: nat, p: Pid)
    requires Run(states, actions) && i <= j <= |actions| && p in states[i].procs && states[i].procs[p].pc == Done(Written)
    ensures p in states[j].procs && states[j].procs[p] == states[i].procs[p]
    ensures var pr := states[i].procs[p]; pr.name in states[j].files && states[j].files[pr.name] == pr.raw
    decreases j
  {
    RunKeeps(states, actions, j);
    if i < j {
      WrittenStays(states, actions, i, j - 1, p);
      assert Enabled(states[j - 1], actions[j - 1]) && states[j] == Next(states[j - 1], actions[j - 1]);
      DoneStays(states[j - 1], actions[j - 1], p);
    }
    assert ProcOk(states[j].files, states[j].lock, p, states[j].procs[p]);
  }

  lemma DoneStays(s: System, a: Action, p: Pid)
    requires Enabled(s, a) && p in s.procs && s.procs[p].pc.Done?
    ensures p in Next(s, a).procs && Next(s, a).procs[p] == s.procs[p]
  {
  }

  // ----- what a call does when nothing stands in its way

  /** The state after these actions, up to the first that is not enabled. */
  ghost function Plays(s: System, actions: seq<Action>): System
    decreases |actions|
  {
    if actions == [] || !Enabled(s, actions[0]) then s else Plays(Next(s, actions[0]), actions[1..])
  }

  ghost predicate Leads(s: System, a: Action, next: System) { Enabled(s, a) && Next(s, a) == next }

  lemma PlaysOn(s: System, a: Action, next: System, rest: seq<Action>)
    requires Leads(s, a, next)
    ensures Plays(s, [a] + rest) == Plays(next, rest)
  {
    assert ([a] + rest)[1..] == rest;
  }

  /** The state of a call that holds the lock, with these files. */
  function Holding(s: System, p: Pid, files: map<string, Bytes>, pc: PC): System
    requires p in s.procs
  {
    s.(files := files, lock := Some(p), procs := s.procs[p := s.procs[p].(pc := pc)])
  }

  /** A call on an absent name about to take a free lock, and a temporary name that is free. */
  ghost predicate Ready(s: System, p: Pid, h: string) {
    && p in s.procs && s.procs[p].pc.WantLock? && s.lock.None? && RandomHex(h) && ValidLeaf(s.procs[p].name)
    && s.procs[p].name !in s.files && TempName(s.procs[p].name, h) !in s.files
  }

  lemma StepsToCreating(s: System, p: Pid, h: string)
    requires Ready(s, p, h)
    ensures Leads(s, Lock(p), Holding(s, p, s.files, Reading))
    ensures Leads(Holding(s, p, s.files, Reading), Read(p, true), Holding(s, p, s.files, Creating))
  {
  }

  lemma StepCreates(s: System, p: Pid, h: string)
    requires Ready(s, p, h)
    ensures var tmp := TempName(s.procs[p].name, h);
      Leads(Holding(s, p, s.files, Creating), Create(p, h, true), Holding(s, p, s.files[tmp := []], Writing(tmp)))
  {
  }

  lemma StepWrites(s: System, p: Pid, h: string, k: nat, progress: Progress)
    requires Ready(s, p, h) && k <= |s.procs[p].raw| && (progress.AllSynced? ==> k == |s.procs[p].raw|) && !progress.More?
    ensures var tmp, raw := TempName(s.procs[p].name, h), s.procs[p].raw;
      Leads(Holding(s, p, s.files[tmp := []], Writing(tmp)), Write(p, k, progress),
            Holding(s, p, s.files[tmp := raw[..k]], if progress.AllSynced? then Renaming(tmp) else Removing(tmp)))
  {
    var tmp, raw := TempName(s.procs[p].name, h), s.procs[p].raw;
    assert s.files[tmp := []][tmp := raw[..k]] == s.files[tmp := raw[..k]];
  }

  lemma StepRenames(s: System, p: Pid, h: string)
    requires Ready(s, p, h)
    ensures var tmp, name, raw := TempName(s.procs[p].name, h), s.procs[p].name, s.procs[p].raw;
      Leads(Holding(s, p, s.files[tmp := raw], Renaming(tmp)), Rename(p, true, true), Holding(s, p, s.files[name := raw], Unlocking(Written)))
  {
    var tmp, name, raw := TempName(s.procs[p].name, h), s.procs[p].name, s.procs[p].raw;
    assert TempOf(name, tmp);
    TempIsNot(name, tmp);
    assert s.files[tmp := raw][name := raw] - {tmp} == s.files[name := raw];
  }

  lemma StepRemoves(s: System, p: Pid, h: string, bytes: Bytes)
    requires Ready(s, p, h)
    ensures var tmp := TempName(s.procs[p].name, h);
      Leads(Holding(s, p, s.files[tmp := bytes], Removing(tmp)), Remove(p, true), Holding(s, p, s.files, Unlocking(Failed)))
  {
    var tmp := TempName(s.procs[p].name, h);
    assert s.files[tmp := bytes] - {tmp} == s.files;
  }

  lemma StepUnlocks(s: System, p: Pid, files: map<string, Bytes>, reply: Reply)
    requires p in s.procs && s.lock.None?
    ensures Leads(Holding(s, p, files, Unlocking(reply)), Unlock(p), Goto(s.(files := files), p, Done(reply)))
  {
  }

  lemma PlaysToWriting(s: System, p: Pid, h: string, rest: seq<Action>)
    requires Ready(s, p, h)
    ensures var tmp := TempName(s.procs[p].name, h);
      Plays(s, Creates(p, h, rest)) == Plays(Holding(s, p, s.files[tmp := []], Writing(tmp)), rest)
  {
    StepsToCreating(s, p, h);
    PlaysOn(s, Lock(p), Holding(s, p, s.files, Reading), [Read(p, true)] + ([Create(p, h, true)] + rest));
    PlaysOn(Holding(s, p, s.files, Reading), Read(p, true), Holding(s, p, s.files, Creating), [Create(p, h, true)] + rest);
    var tmp := TempName(s.procs[p].name, h);
    StepCreates(s, p, h);
    PlaysOn(Holding(s, p, s.files, Creating), Create(p, h, true), Holding(s, p, s.files[tmp := []], Writing(tmp)), rest);
  }

  /** What a call plays up to its temporary file. */
  function Creates(p: Pid, h: string, rest: seq<Action>): seq<Action> {
    [Lock(p)] + ([Read(p, true)] + ([Create(p, h, true)] + rest))
  }

  /** A call on an absent name that gets the lock, and whose operations all succeed, adds its envelope and nothing else. */
  lemma PublishesAlone(s: System, p: Pid, h: string)
    requires Ready(s, p, h)
    ensures var pr := s.procs[p];
      Plays(s, Creates(p, h, [Write(p, |pr.raw|, AllSynced)] + ([Rename(p, true, true)] + ([Unlock(p)] + [])))) ==
      Goto(s.(files := s.files[pr.name := pr.raw]), p, Done(Written))
  {
    var pr, tmp := s.procs[p], TempName(s.procs[p].name, h);
    var write, rename, unlock := Write(p, |pr.raw|, AllSynced), Rename(p, true, true), Unlock(p);
    assert pr.raw[..|pr.raw|] == pr.raw;
    PlaysToWriting(s, p, h, [write] + ([rename] + ([unlock] + [])));
    StepWrites(s, p, h, |pr.raw|, AllSynced);
    PlaysOn(Holding(s, p, s.files[tmp := []], Writing(tmp)), write, Holding(s, p, s.files[tmp := pr.raw], Renaming(tmp)), [rename] + ([unlock] + []));
    StepRenames(s, p, h);
    PlaysOn(Holding(s, p, s.files[tmp := pr.raw], Renaming(tmp)), rename, Holding(s, p, s.files[pr.name := pr.raw], Unlocking(Written)), [unlock] + []);
    StepUnlocks(s, p, s.files[pr.name := pr.raw], Written);
    PlaysOn(Holding(s, p, s.files[pr.name := pr.raw], Unlocking(Written)), unlock, Goto(s.(files := s.files[pr.name := pr.raw]), p, Done(Written)), []);
  }

  /** A call whose write breaks, and whose cleanup succeeds, leaves the directory as it found it. */
  lemma BrokenWriteLeavesNothing(s: System, p: Pid, h: string, k: nat)
    requires Ready(s, p, h) && k <= |s.procs[p].raw|
    ensures Plays(s, Creates(p, h, [Write(p, k, Broken)] + ([Remove(p, true)] + ([Unlock(p)] + [])))) == Goto(s, p, Done(Failed))
  {
    var tmp, cut := TempName(s.procs[p].name, h), s.procs[p].raw[..k];
    var write, remove, unlock := Write(p, k, Broken), Remove(p, true), Unlock(p);
    PlaysToWriting(s, p, h, [write] + ([remove] + ([unlock] + [])));
    StepWrites(s, p, h, k, Broken);
    PlaysOn(Holding(s, p, s.files[tmp := []], Writing(tmp)), write, Holding(s, p, s.files[tmp := cut], Removing(tmp)), [remove] + ([unlock] + []));
    StepRemoves(s, p, h, cut);
    PlaysOn(Holding(s, p, s.files[tmp := cut], Removing(tmp)), remove, Holding(s, p, s.files, Unlocking(Failed)), [unlock] + []);
    StepUnlocks(s, p, s.files, Failed);
    PlaysOn(Holding(s, p, s.files, Unlocking(Failed)), unlock, Goto(s, p, Done(Failed)), []);
  }
}
