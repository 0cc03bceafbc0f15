/** The executor envelopes: tasks, admissions, grants and results. */
module Envelope {
  import opened Common

  newtype Byte = x: int | 0 <= x < 256
  type Bytes = seq<Byte>

  /** Instants, counted from the zero time. */
  type Time = nat

  const TASK_SCHEMA := "crw-executor-task/1"
  const RESULT_SCHEMA := "crw-executor-result/1"
  const MAX_INT64 := 0x7FFF_FFFF_FFFF_FFFF

  datatype Identity = Identity(
    taskId: string, executionId: string, attempt: int, generation: int,
    plan: string, node: string, revision: string, criteriaDigest: string)

  datatype Repository = Repository(
    forge: string, id: string, baseCommit: string, targetRef: string, taskBranch: string)

  datatype Region = Region(
    repository: string, path: string, kind: string, key: string,
    change: string, exclusive: bool, grade: string, rule: string)

  datatype Binding = Binding(
    hostId: string, incarnation: string, kind: string, capabilityRevision: string,
    launchProfileDigest: string, toolchainProfileDigest: string)

  datatype Artifact = Artifact(path: string, sha256: string, size: int)

  datatype Input = Input(kind: string, prompt: string, briefDigest: Sum<string>, artifacts: seq<Artifact>)

  datatype Check = Check(id: string, args: seq<string>, expectedExitCode: int, cpu: int, memoryBytes: int, heavy: bool)

  datatype Task = Task(
    schema: string, identity: Identity, repository: Repository, regions: seq<Region>, workKind: string,
    executor: Binding, model: string, effort: string, input: Input, checks: seq<Check>, notApplicable: string)

  datatype Admission = Admission(task: Task, taskDigest: Sum<Task>)

  datatype Grant = Grant(executionId: string, generation: int, owner: string, ownerEpoch: int, expiresAt: Time)

  datatype Observation = Observation(value: string, unknownReason: string)

  datatype Tool = Tool(name: string, version: string, sha256: string)

  datatype Provenance = Provenance(
    provider: string, nativeSession: Observation, nativeTurns: seq<string>, model: Observation,
    effort: Observation, cpuMethod: Observation, tools: seq<Tool>)

  datatype Candidate = Candidate(branch: string, head: string, tree: string)

  datatype CheckResult = CheckResult(id: string, exitCode: int, outcome: string)

  datatype Payload = Payload(
    narrative: string, candidate: Option<Candidate>, checks: seq<CheckResult>, artifacts: seq<Artifact>)

  datatype TaskResult = TaskResult(
    schema: string, identity: Identity, taskDigest: Sum<Task>, executor: Binding, outcome: string,
    provenance: Provenance, payload: Payload)

  datatype Peer = Peer(hostId: string, incarnation: string)

  datatype Limits = Limits(envelopeBytes: int, artifactBytes: int, totalArtifactBytes: int, artifactCount: int)

  datatype Reference = Reference(identity: Identity, taskDigest: Sum<Task>, executor: Binding)
}
