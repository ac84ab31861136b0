// The records the control plane keeps, as internal/domain/types.go declares them.

module Domain {
  type Id = string
  // Nanoseconds. 0 stands for Go's zero time.
  type Time = int

  const SECOND: int := 1_000_000_000
  const MINUTE: int := 60 * SECOND

  datatype Option<+T> = None | Some(value: T)

  datatype Result<+T, +E> = Success(value: T) | Failure(error: E)

  // One enumeration serves pipelines, jobs, attempts and previews; Unset is the empty string.
  datatype Status =
    | Queued | Leased | Running | Succeeded | Failed | Lost | Cancelled
    | Active | Deleting | Pending | Deleted | Unset

  predicate IsActive(status: Status) {
    status == Leased || status == Running
  }

  predicate IsTerminal(status: Status) {
    status == Succeeded || status == Failed || status == Cancelled || status == Lost
  }

  datatype Resources = Resources(cpu: int, memory: int)

  datatype Environment = Environment(
    ttlMinutes: int, exposure: string, image: string, port: int, healthPath: string)

  datatype Buildkit = Buildkit(context: string, dockerfile: string, destination: string)

  datatype JobSpec = JobSpec(
    kind: string, image: string, command: seq<string>, needs: seq<string>, priority: int,
    capabilities: seq<string>, trusted: bool, resources: Resources,
    environment: Option<Environment>, timeoutSeconds: int, maxAttempts: int,
    buildkit: Option<Buildkit>)

  datatype PipelineSpec = PipelineSpec(version: int, jobs: map<string, JobSpec>)

  // The configuration digest is modelled as the configuration itself (an injective digest).
  datatype Pipeline = Pipeline(
    tenant: string, repo: string, commit: string, trigger: string, pr: int, status: Status,
    createdAt: Time, jobIDs: seq<Id>, sourceRepo: string, fork: bool, generation: int,
    config: PipelineSpec, installation: int, checkRun: int, checkState: Status)

  datatype Job = Job(
    pipelineID: Id, tenant: string, name: string, spec: JobSpec, status: Status,
    createdAt: Time, sequence: nat, attemptIDs: seq<Id>)

  datatype Artefact = Artefact(name: string, digest: string, size: int, key: string)

  datatype Attempt = Attempt(
    jobID: Id, number: nat, workerID: Id, token: string, leaseExpires: Time, status: Status,
    createdAt: Time, startedAt: Time, completedAt: Time, message: string, digest: string,
    logKey: string, artefacts: seq<Artefact>)

  datatype Worker = Worker(
    pool: string, capabilities: set<string>, capacity: int, trusted: bool,
    resources: Resources, heartbeat: Time)

  datatype Preview = Preview(
    repo: string, pr: int, url: string, generation: int, desired: Status, actual: Status,
    expiresAt: Time, updatedAt: Time, tenant: string, pipelineID: Id, image: string,
    port: int, healthPath: string, lastError: string, exposure: string)

  // The durable clock of one pull request.
  datatype PRState = PRState(updatedAt: Time, closed: bool, generation: int, commit: string)

  datatype PRKey = PRKey(repo: string, pr: int)

  datatype Submission = Submission(
    requestID: string, tenant: string, repo: string, sourceRepo: string, commit: string,
    trigger: string, pr: int, fork: bool, rerun: bool, closed: bool, eventTime: Time,
    installation: int, spec: PipelineSpec)

  // The counters of jobs that ended are kept with the tables.
  datatype Metrics = Metrics(
    webhookAccepted: nat, webhookDuplicate: nat, leasesIssued: nat, leasesExpired: nat,
    staleCompletions: nat, previewsCreated: nat, previewsDeleted: nat)

  datatype Config = Config(
    leaseTTL: int, workerTTL: int, defaultTenantLimit: int, tenantLimits: map<string, int>,
    previewBaseDomain: string, previewDeleteDelay: int,
    maxQueuedJobs: int, tenantCPU: int, tenantMemory: int, retention: int)

  datatype Error = NotFound | Conflict | NoWork | StaleLease | Capacity | Invalid
}
