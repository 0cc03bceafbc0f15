/** The validators and the canonical form of tasks (internal/executor/validation.go). */
module Validation {
  import opened Common
  import opened Text
  import opened Ordering
  import opened Envelope

  predicate IsHex(s: string, sizes: set<nat>) {
    |s| in sizes && forall c | c in s :: '0' <= c <= '9' || 'a' <= c <= 'f'
  }

  predicate ValidDigest(s: string) { IsHex(s, {64}) }

  predicate ValidOID(s: string) { IsHex(s, {40, 64}) }

  predicate ValidID(s: string) {
    && s != "" && ByteLength(s) <= 256
    && Trimmed(s)
    && forall c | c in s :: ' ' <= c && c != '\U{007F}'
  }

  predicate ValidRef(s: string) {
    && s != "" && s != "@" && s[0] !in {'-', '.', '/'} && !HasSuffix(s, ".") && !HasSuffix(s, "/")
    && !Infix("..", s) && !Infix("@{", s) && !Infix("//", s)
    && (forall c | c in s :: ' ' < c && c != '\U{007F}' && c !in "~^:?*[\\")
    && forall part | part in Split(s) :: part != "" && !HasPrefix(part, ".") && !HasSuffix(part, ".lock")
  }

  /** fs.ValidPath, without its special case ".", plus the package's own bounds. */
  predicate ValidArtifactPath(p: string) {
    var parts := Split(p);
    && 0 < ByteLength(p) <= 4096 && p != "."
    && (forall part | part in parts :: part !in {"", ".", ".."})
    && '\\' !in p && '\0' !in p
    && parts[|parts| - 1] != ".executor.lock"
  }

  /** checkRegionPath's refusals. */
  predicate SafeRegionPath(p: string) {
    p != "" && !HasPrefix(p, "/") && '\\' !in p && '\0' !in p && ".." !in Split(p)
  }

  function Kept(parts: seq<string>): seq<string> {
    if parts == [] then []
    else if parts[0] in {"", "."} then Kept(parts[1..])
    else [parts[0]] + Kept(parts[1..])
  }

  /** path.Clean on a relative path without ".." parts. */
  function CleanPath(p: string): string {
    var kept := Kept(Split(p));
    if kept == [] then "." else Join(kept)
  }

  function NormalizeRegion(repositoryId: string, r: Region): Option<Region> {
    var kind := if r.kind == "" then "file" else r.kind;
    var path := if kind == "tree" then TrimSuffix(r.path, "/") else r.path;
    if !SafeRegionPath(path) then None
    else Some(r.(repository := if r.repository == "" then repositoryId else r.repository,
                 kind := kind,
                 change := if r.change == "" then "edit" else r.change,
                 path := CleanPath(path)))
  }

  function NormalizeRegions(repositoryId: string, regions: seq<Region>): Option<seq<Region>> {
    if regions == [] then Some([])
    else
      var first := NormalizeRegion(repositoryId, regions[0]);
      var rest := NormalizeRegions(repositoryId, regions[1..]);
      if first.None? || rest.None? then None else Some([first.value] + rest.value)
  }

  function RegionKey(r: Region): seq<string> { [r.path, r.kind, r.key] }
  function ArtifactKey(a: Artifact): seq<string> { [a.path] }
  function CheckKey(c: Envelope.Check): seq<string> { [c.id] }

  function NormalizeTask(t: Task): Outcome<Task> {
    var regions := NormalizeRegions(t.repository.id, t.regions);
    if regions.None? then Err(TaskInvalid)
    else Ok(t.(regions := Sort(regions.value, RegionKey),
               input := t.input.(artifacts := Sort(t.input.artifacts, ArtifactKey)),
               checks := Sort(t.checks, CheckKey)))
  }

  predicate ArtifactOk(a: Artifact) {
    ValidArtifactPath(a.path) && ValidDigest(a.sha256) && a.size >= 0
  }

  predicate IdentityOk(id: Identity) {
    && ValidID(id.taskId) && ValidID(id.executionId) && ValidID(id.plan) && ValidID(id.node) && ValidID(id.revision)
    && id.attempt > 0 && id.generation > 0 && ValidDigest(id.criteriaDigest)
  }

  predicate RepositoryOk(r: Repository) {
    && ValidID(r.forge) && ValidID(r.id) && ValidOID(r.baseCommit)
    && ValidRef(r.targetRef) && ValidRef(r.taskBranch)
    && TrimPrefix(r.taskBranch, "refs/heads/") != TrimPrefix(r.targetRef, "refs/heads/")
  }

  predicate WorkKindOk(t: Task) {
    match t.workKind
    case "implementation" => t.regions != [] && t.checks != []
    case "design" => t.checks != [] || !Blank(t.notApplicable)
    case _ => false
  }

  predicate RegionOk(repositoryId: string, r: Region) {
    && r.repository == repositoryId
    && (r.path == "." ==> r.kind == "tree")
    && r.kind in {"tree", "file", "symbol"}
    && (r.kind == "symbol" <==> r.key != "")
    && r.change in {"edit", "rename", "delete"}
    && r.grade in {"", "independent", "local", "exclusive", "mechanical"}
    && (r.grade == "mechanical" ==> !Blank(r.rule))
  }

  /** The string the loop over the regions keeps in its map of regions seen. */
  function RegionSeen(r: Region): string { r.path + "\0" + r.kind + "\0" + r.key }

  predicate ExecutorOk(b: Binding) {
    && b.kind in {"codex", "devin", "claude-code"}
    && ValidID(b.hostId) && ValidID(b.incarnation) && ValidID(b.capabilityRevision)
    && ValidDigest(b.launchProfileDigest) && ValidDigest(b.toolchainProfileDigest)
  }

  predicate CheckOk(c: Envelope.Check) {
    && ValidID(c.id)
    && c.args != [] && c.args[0] != ""
    && (forall a | a in c.args :: '\0' !in a)
    && 0 <= c.expectedExitCode <= 255
    && c.cpu > 0 && c.memoryBytes >= 0
  }

  predicate Distinct(keys: seq<string>) {
    forall i, j | 0 <= i < j < |keys| :: keys[i] != keys[j]
  }

  function RegionsSeen(regions: seq<Region>): (keys: seq<string>)
    ensures |keys| == |regions|
    ensures forall i | 0 <= i < |regions| :: keys[i] == RegionSeen(regions[i])
  {
    seq(|regions|, i requires 0 <= i < |regions| => RegionSeen(regions[i]))
  }

  function PathsSeen(artifacts: seq<Artifact>): (keys: seq<string>)
    ensures |keys| == |artifacts|
    ensures forall i | 0 <= i < |artifacts| :: keys[i] == artifacts[i].path
  {
    seq(|artifacts|, i requires 0 <= i < |artifacts| => artifacts[i].path)
  }

  function IdsSeen(checks: seq<Envelope.Check>): (keys: seq<string>)
    ensures |keys| == |checks|
    ensures forall i | 0 <= i < |checks| :: keys[i] == checks[i].id
  {
    seq(|checks|, i requires 0 <= i < |checks| => checks[i].id)
  }

  predicate RegionsOk(repositoryId: string, regions: seq<Region>) {
    (forall r | r in regions :: RegionOk(repositoryId, r)) && Distinct(RegionsSeen(regions))
  }

  predicate ArtifactsOk(artifacts: seq<Artifact>) {
    (forall a | a in artifacts :: ArtifactOk(a)) && Distinct(PathsSeen(artifacts))
  }

  predicate ChecksOk(checks: seq<Envelope.Check>) {
    (forall c | c in checks :: CheckOk(c)) && Distinct(IdsSeen(checks))
  }

  /** validateTask: the classes of its errors in the order its checks run. */
  function ValidateTask(t: Task): Verdict {
    if t.schema != TASK_SCHEMA then Fail(SchemaInvalid)
    else if !IdentityOk(t.identity) || !RepositoryOk(t.repository) || !WorkKindOk(t)
            || !RegionsOk(t.repository.id, t.regions) || !ExecutorOk(t.executor)
            || Blank(t.model) || Blank(t.effort) || t.input.kind != "prompt" || t.input.prompt == ""
    then Fail(TaskInvalid)
    else if t.input.briefDigest != Sum(t.input.prompt) then Fail(DigestMismatch)
    else if !ArtifactsOk(t.input.artifacts) then Fail(ArtifactInvalid)
    else if !ChecksOk(t.checks) then Fail(TaskInvalid)
    else Pass
  }

  function Freeze(t: Task): Outcome<Admission> {
    var n :- NormalizeTask(t);
    var _ :- Confirm(ValidateTask(n));
    Ok(Admission(n, Sum(n)))
  }

  function Confirm(v: Verdict): Outcome<()> {
    if v.Pass? then Ok(()) else Err(v.code)
  }

  function ValidateAdmission(a: Admission): Verdict {
    match Freeze(a.task)
    case Err(code) => Fail(code)
    case Ok(again) => if again.taskDigest == a.taskDigest then Pass else Fail(DigestMismatch)
  }

  function ValidateGrant(a: Admission, g: Grant, now: Time): Verdict {
    var admission := ValidateAdmission(a);
    if admission.Fail? then admission
    else if g.executionId != a.task.identity.executionId || g.generation != a.task.identity.generation
    then Fail(IdentityMismatch)
    else if !ValidID(g.owner) || g.ownerEpoch <= 0 || g.expiresAt <= now then Fail(TaskInvalid)
    else Pass
  }

  predicate PeerOk(a: Admission, peer: Peer) {
    && ValidID(peer.hostId) && ValidID(peer.incarnation)
    && peer.hostId == a.task.executor.hostId && peer.incarnation == a.task.executor.incarnation
  }

  predicate ObservationOk(o: Observation) { (o.value != "") != (o.unknownReason != "") }

  predicate CandidateOk(t: Task, c: Candidate) {
    c.branch == t.repository.taskBranch && ValidOID(c.head) && ValidOID(c.tree)
  }

  predicate ResultCheckOk(t: Task, cr: CheckResult) {
    exists c | c in t.checks ::
      && c.id == cr.id
      && cr.outcome in {"passed", "failed", "not_run"}
      && (cr.outcome == "passed" ==> cr.exitCode == c.expectedExitCode)
  }

  function ResultIds(checks: seq<CheckResult>): seq<string> {
    seq(|checks|, i requires 0 <= i < |checks| => checks[i].id)
  }

  function ToolNames(tools: seq<Tool>): seq<string> {
    seq(|tools|, i requires 0 <= i < |tools| => tools[i].name)
  }

  predicate CompletedOk(t: Task, p: Payload) {
    && (p.candidate.None? ==> t.workKind == "design" && t.checks == [] && !Blank(t.notApplicable))
    && forall c | c in t.checks ::
         exists cr | cr in p.checks :: cr.id == c.id && cr.outcome == "passed" && cr.exitCode == c.expectedExitCode
  }

  predicate ProvenanceOk(t: Task, pv: Provenance) {
    && pv.provider == t.executor.kind
    && ObservationOk(pv.nativeSession) && ObservationOk(pv.model) && ObservationOk(pv.effort) && ObservationOk(pv.cpuMethod)
    && (pv.nativeTurns != [] ==> pv.nativeSession.value != "")
    && "" !in pv.nativeTurns && Distinct(pv.nativeTurns)
    && (forall tl | tl in pv.tools :: tl.name != "" && tl.version != "" && (tl.sha256 != "" ==> ValidDigest(tl.sha256)))
    && Distinct(ToolNames(pv.tools))
  }

  /** ValidateResult: the classes of its errors in the order its checks run. */
  function ValidateResult(a: Admission, r: TaskResult, peer: Peer): Verdict {
    var admission := ValidateAdmission(a);
    var t := a.task;
    if admission.Fail? then admission
    else if r.schema != RESULT_SCHEMA then Fail(SchemaInvalid)
    else if r.identity != t.identity || r.executor != t.executor then Fail(IdentityMismatch)
    else if r.taskDigest != a.taskDigest then Fail(DigestMismatch)
    else if !PeerOk(a, peer) then Fail(HostMismatch)
    else if r.outcome !in {"completed", "failed", "cancelled", "incomplete"}
            || (r.payload.candidate.Some? && !CandidateOk(t, r.payload.candidate.value))
            || (exists cr | cr in r.payload.checks :: !ResultCheckOk(t, cr))
            || !Distinct(ResultIds(r.payload.checks))
            || (r.outcome == "completed" && !CompletedOk(t, r.payload))
            || !ProvenanceOk(t, r.provenance)
    then Fail(ResultInvalid)
    else if !ArtifactsOk(r.payload.artifacts) then Fail(ArtifactInvalid)
    else Pass
  }

  predicate LimitsOk(l: Limits) {
    && 0 < l.envelopeBytes && l.envelopeBytes != MAX_INT64
    && 0 < l.artifactBytes && l.artifactBytes != MAX_INT64
    && 0 < l.totalArtifactBytes && 0 < l.artifactCount
  }

  function ReferenceOf(a: Admission): Reference {
    Reference(a.task.identity, a.taskDigest, a.task.executor)
  }

  lemma {:induction false} RegionsAt(repositoryId: string, regions: seq<Region>)
    ensures NormalizeRegions(repositoryId, regions).Some? <==>
            forall r | r in regions :: NormalizeRegion(repositoryId, r).Some?
    ensures NormalizeRegions(repositoryId, regions).Some? ==>
              var n := NormalizeRegions(repositoryId, regions).value;
              && |n| == |regions|
              && forall i | 0 <= i < |n| :: NormalizeRegion(repositoryId, regions[i]) == Some(n[i])
  {
    if regions != [] {
      RegionsAt(repositoryId, regions[1..]);
      assert regions == [regions[0]] + regions[1..];
    }
  }

  lemma {:induction false} RegionsAre(repositoryId: string, regions: seq<Region>, done: seq<Region>)
    requires |done| == |regions| && forall i | 0 <= i < |done| :: NormalizeRegion(repositoryId, regions[i]) == Some(done[i])
    ensures NormalizeRegions(repositoryId, regions) == Some(done)
  {
    if regions != [] {
      RegionsAre(repositoryId, regions[1..], done[1..]);
      assert done == [done[0]] + done[1..];
    }
  }

  lemma {:induction false} RegionRefused(repositoryId: string, regions: seq<Region>, i: nat)
    requires i < |regions| && NormalizeRegion(repositoryId, regions[i]).None?
    ensures NormalizeRegions(repositoryId, regions).None?
  {
    if i > 0 {
      assert regions[1..][i - 1] == regions[i];
      RegionRefused(repositoryId, regions[1..], i - 1);
    }
  }

  /** The first loop of normalizeTask. */
  method NormalizeEachRegion(repositoryId: string, regions: seq<Region>) returns (normal: Option<seq<Region>>)
    ensures normal == NormalizeRegions(repositoryId, regions)
  {
    var done: seq<Region> := [];
    for i := 0 to |regions|
      invariant |done| == i
      invariant forall j | 0 <= j < i :: NormalizeRegion(repositoryId, regions[j]) == Some(done[j])
    {
      var n := NormalizeRegion(repositoryId, regions[i]);
      if n.None? {
        RegionRefused(repositoryId, regions, i);
        return None;
      }
      done := done + [n.value];
    }
    RegionsAre(repositoryId, regions, done);
    return Some(done);
  }

  /** The loop over the regions in validateTask, with its map of regions seen. */
  method CheckEachRegion(repositoryId: string, regions: seq<Region>) returns (ok: bool)
    ensures ok <==> RegionsOk(repositoryId, regions)
  {
    var seen: set<string> := {};
    for i := 0 to |regions|
      invariant seen == set j | 0 <= j < i :: RegionSeen(regions[j])
      invariant forall j | 0 <= j < i :: RegionOk(repositoryId, regions[j])
      invariant forall j, k | 0 <= j < k < i :: RegionSeen(regions[j]) != RegionSeen(regions[k])
    {
      var key := RegionSeen(regions[i]);
      if !RegionOk(repositoryId, regions[i]) {
        return false;
      }
      if key in seen {
        var j :| 0 <= j < i && RegionSeen(regions[j]) == key;
        SeenTwice(regions, j, i);
        return false;
      }
      seen := seen + {key};
    }
    return true;
  }

  lemma SeenTwice(regions: seq<Region>, j: nat, i: nat)
    requires j < i < |regions| && RegionSeen(regions[j]) == RegionSeen(regions[i])
    ensures !Distinct(RegionsSeen(regions))
  {
    assert RegionsSeen(regions)[j] == RegionsSeen(regions)[i];
  }

  /** The loop over artifacts in validateTask and ValidateResult, with its map of paths seen. */
  method CheckEachArtifact(artifacts: seq<Artifact>) returns (ok: bool)
    ensures ok <==> ArtifactsOk(artifacts)
  {
    var seen: set<string> := {};
    for i := 0 to |artifacts|
      invariant seen == set j | 0 <= j < i :: artifacts[j].path
      invariant forall j | 0 <= j < i :: ArtifactOk(artifacts[j])
      invariant forall j, k | 0 <= j < k < i :: artifacts[j].path != artifacts[k].path
    {
      if !ArtifactOk(artifacts[i]) {
        return false;
      }
      if artifacts[i].path in seen {
        var j :| 0 <= j < i && artifacts[j].path == artifacts[i].path;
        assert PathsSeen(artifacts)[j] == PathsSeen(artifacts)[i];
        return false;
      }
      seen := seen + {artifacts[i].path};
    }
    return true;
  }
}
