// The whole control plane as a state machine: tables, workers, previews, pull-request clocks
// and the request log.

module Model {
  import opened Domain
  import opened Ordering
  import opened TableModel
  import Planner

  // Which requests were seen, with what body, and the pipeline each resolved to.
  datatype Inbox = Inbox(deliveries: map<string, Id>, hashes: map<string, Submission>)

  datatype State = State(
    config: Config,
    tables: Tables,
    workers: map<Id, Worker>,
    previews: map<PRKey, Preview>,
    inbox: Inbox,
    prStates: map<PRKey, PRState>,
    lastTenant: string,
    metrics: Metrics)

  function LowerChar(c: char): char {
    if 'A' <= c <= 'Z' then c + ' ' else c
  }

  function Lower(repo: string): string {
    if repo == "" then "" else [LowerChar(repo[0])] + Lower(repo[1..])
  }

  function PreviewKey(repo: string, pr: int): PRKey {
    PRKey(Lower(repo), pr)
  }

  function KeyOf(p: Pipeline): PRKey {
    PreviewKey(p.repo, p.pr)
  }

  function TenantLimit(c: Config, tenant: string): int {
    if tenant in c.tenantLimits && c.tenantLimits[tenant] > 0 then c.tenantLimits[tenant] else c.defaultTenantLimit
  }

  // ---- One component at a time ----

  ghost function WithTables(s: State, t: Tables): State {
    s.(tables := t)
  }

  ghost function WithPreview(s: State, key: PRKey, preview: Preview): State {
    s.(previews := s.previews[key := preview])
  }

  ghost function WithClock(s: State, key: PRKey, clock: PRState): State {
    s.(prStates := s.prStates[key := clock])
  }

  ghost function WithWorker(s: State, w: Id, worker: Worker): State {
    s.(workers := s.workers[w := worker])
  }

  // ---- Scheduling ----

  // The job fits what its tenant has left.
  ghost predicate WithinTenant(s: State, j: Id)
    requires j in s.tables.jobs
  {
    var job := s.tables.jobs[j];
    var used := Used(s.tables, job.tenant, "");
    && |ActiveJobs(s.tables, job.tenant)| < TenantLimit(s.config, job.tenant)
    && used.cpu + job.spec.resources.cpu <= s.config.tenantCPU
    && used.memory + job.spec.resources.memory <= s.config.tenantMemory
  }

  ghost predicate Eligible(s: State, w: Id, spec: JobSpec, now: Time) {
    && w in s.workers
    && var worker := s.workers[w];
    && var used := Used(s.tables, "", w);
    && now - worker.heartbeat <= s.config.workerTTL
    && |ActiveAttempts(s.tables, "", w)| < worker.capacity
    && spec.trusted == worker.trusted
    && (worker.resources.cpu > 0 ==> used.cpu + spec.resources.cpu <= worker.resources.cpu)
    && (worker.resources.memory > 0 ==> used.memory + spec.resources.memory <= worker.resources.memory)
    && forall c :: c in spec.capabilities ==> c in worker.capabilities
  }

  ghost predicate Placeable(s: State, j: Id, now: Time) {
    Runnable(s.tables, j) && WithinTenant(s, j) && exists w :: Eligible(s, w, s.tables.jobs[j].spec, now)
  }

  ghost predicate TenantPlaceable(s: State, tenant: string, now: Time) {
    exists j :: Placeable(s, j, now) && s.tables.jobs[j].tenant == tenant
  }

  // The scheduler's turn order: x comes strictly before y when starting behind last.
  predicate TurnBefore(last: string, x: string, y: string) {
    if last == "" || (Less(last, x) == Less(last, y)) then Less(x, y) else Less(last, x)
  }

  // Higher priority first, then creation time, then admission sequence.
  predicate JobBefore(x: Job, y: Job) {
    if x.spec.priority != y.spec.priority then x.spec.priority > y.spec.priority
    else if x.createdAt != y.createdAt then x.createdAt < y.createdAt
    else x.sequence < y.sequence
  }

  datatype Grant = Grant(job: Id, worker: Id)

  // What a grant must be: the next tenant in turn, its first placeable job, the first eligible worker.
  ghost predicate IsGrant(s: State, g: Grant, now: Time) {
    && Placeable(s, g.job, now)
    && var job := s.tables.jobs[g.job];
    && (forall k :: Placeable(s, k, now) && s.tables.jobs[k].tenant != job.tenant
          ==> TurnBefore(s.lastTenant, job.tenant, s.tables.jobs[k].tenant))
    && (forall k :: Placeable(s, k, now) && s.tables.jobs[k].tenant == job.tenant && k != g.job
          ==> JobBefore(job, s.tables.jobs[k]))
    && Eligible(s, g.worker, job.spec, now)
    && (forall v :: Eligible(s, v, job.spec, now) && v != g.worker ==> Less(g.worker, v))
  }

  ghost predicate GrantFits(s: State, grant: Option<Grant>, now: Time) {
    match grant
    case Some(g) => IsGrant(s, g, now)
    case None => forall j :: !Placeable(s, j, now)
  }

  ghost function CountSwept(s: State, n: nat): State {
    s.(metrics := s.metrics.(leasesExpired := s.metrics.leasesExpired + n))
  }

  ghost function SweepState(s: State, order: seq<Id>, now: Time): State {
    CountSwept(WithTables(s, Sweep(s.tables, order, now)), Swept(s.tables, order, now))
  }

  ghost function CountLease(s: State, tenant: string): State {
    s.(lastTenant := tenant, metrics := s.metrics.(leasesIssued := s.metrics.leasesIssued + 1))
  }

  ghost predicate Grantable(s: State, g: Grant) {
    g.job in s.tables.jobs && s.tables.jobs[g.job].pipelineID in s.tables.pipelines
  }

  ghost function Place(s: State, grant: Option<Grant>, a: Id, token: string, now: Time): State {
    if grant.Some? && Grantable(s, grant.value)
    then
      var g := grant.value;
      CountLease(WithTables(s, Lease(s.tables, g.job, g.worker, a, token, s.config.leaseTTL, now)),
                 s.tables.jobs[g.job].tenant)
    else s
  }

  // ScheduleOne: sweep, then grant the next lease in turn if any job can be placed.
  ghost function Schedule(s: State, order: seq<Id>, grant: Option<Grant>, a: Id, token: string, now: Time): State {
    Place(SweepState(s, order, now), grant, a, token, now)
  }

  // ---- Heartbeat and completion ----

  ghost function Beat(s: State, a: Id, token: string, now: Time): State {
    if LeaseHeld(s.tables, a, token, now) then WithTables(s, Renew(s.tables, a, s.config.leaseTTL, now)) else s
  }

  // What HeartbeatAttempt answers.
  ghost function BeatAnswer(s: State, a: Id, token: string, now: Time): Result<Attempt, Error> {
    if a !in s.tables.attempts then Failure(NotFound)
    else if LeaseHeld(s.tables, a, token, now) then Success(RenewedRecord(s.tables.attempts[a], s.config.leaseTTL, now))
    else Failure(StaleLease)
  }

  ghost function UpdatePipeline(s: State, p: Id, now: Time): State
    requires p in s.tables.pipelines
  {
    if !AnyFailed(s.tables, p) && AllSucceeded(s.tables, p)
    then ActivateJobs(WithTables(s, UpdateTables(s.tables, p, now)), p, s.tables.pipelines[p].jobIDs, now, false)
    else WithTables(s, UpdateTables(s.tables, p, now))
  }

  ghost function Commit(s: State, a: Id, record: Attempt, now: Time): State
    requires Located(s.tables, a)
  {
    UpdatePipeline(WithTables(s, Settle(s.tables, a, record)), PipelineOf(s.tables, a), now)
  }

  // Finish: metadata and transition together, or nothing.
  ghost function Finish(s: State, a: Id, token: string, report: Report, now: Time): State {
    if LeaseHeld(s.tables, a, token, now) then Commit(s, a, CommittedRecord(s.tables.attempts[a], report, now), now)
    else s
  }

  ghost function FinishAnswer(s: State, a: Id, token: string, report: Report, now: Time): Result<Attempt, Error> {
    if a !in s.tables.attempts then Failure(NotFound)
    else if s.tables.attempts[a].token != token then Failure(StaleLease)
    else if IsTerminal(s.tables.attempts[a].status) then
      if Matches(s.tables.attempts[a], report) then Success(s.tables.attempts[a]) else Failure(Conflict)
    else if LeaseHeld(s.tables, a, token, now) then Success(CommittedRecord(s.tables.attempts[a], report, now))
    else Failure(StaleLease)
  }

  // ---- Cancelling ----

  function Buried(v: Preview, generation: int, now: Time): Preview {
    v.(desired := Deleting, generation := generation, updatedAt := now)
  }

  // The preview under the key, if it is not to be deleted yet, becomes a tombstone.
  function Tombstoned(previews: map<PRKey, Preview>, key: PRKey, now: Time): map<PRKey, Preview> {
    if key in previews && previews[key].desired != Deleting
    then previews[key := Buried(previews[key], previews[key].generation + 1, now)] else previews
  }

  ghost function Tombstone(s: State, key: PRKey, now: Time): State {
    s.(previews := Tombstoned(s.previews, key, now))
  }

  ghost function CancelOne(s: State, p: Id, now: Time): State
    requires p in s.tables.pipelines
  {
    if s.tables.pipelines[p].pr > 0
    then Tombstone(WithTables(s, CancelPipelines(s.tables, {p}, now)), KeyOf(s.tables.pipelines[p]), now)
    else WithTables(s, CancelPipelines(s.tables, {p}, now))
  }

  ghost predicate MayCancel(t: Tables, j: Id) {
    j in t.jobs && !IsTerminal(t.jobs[j].status) && t.jobs[j].pipelineID in t.pipelines
  }

  ghost function Cancel(s: State, j: Id, now: Time): State {
    if MayCancel(s.tables, j) then CancelOne(s, s.tables.jobs[j].pipelineID, now) else s
  }

  // ---- Previews ----

  function BeforeAt(text: string): string {
    if text == "" || text[0] == '@' then "" else [text[0]] + BeforeAt(text[1..])
  }

  ghost predicate Built(t: Tables, j: Id) {
    && j in t.jobs && t.jobs[j].spec.buildkit.Some? && t.jobs[j].attemptIDs != []
    && var a := t.jobs[j].attemptIDs[|t.jobs[j].attemptIDs| - 1];
    && a in t.attempts && t.attempts[a].digest != ""
  }

  ghost function ImageOf(t: Tables, j: Id): string
    requires Built(t, j)
  {
    var attempts := t.jobs[j].attemptIDs;
    BeforeAt(t.jobs[j].spec.buildkit.value.destination) + "@" + t.attempts[attempts[|attempts| - 1]].digest
  }

  // The image the last build among the jobs published.
  ghost function BuiltImage(t: Tables, jobs: seq<Id>): string {
    if jobs == [] then ""
    else if Built(t, jobs[|jobs| - 1]) then ImageOf(t, jobs[|jobs| - 1])
    else BuiltImage(t, jobs[..|jobs| - 1])
  }

  function TTL(e: Environment): int {
    if e.ttlMinutes * MINUTE <= 0 then 24 * 60 * MINUTE else e.ttlMinutes * MINUTE
  }

  function PreviewOf(q: Pipeline, p: Id, image: string, e: Environment, now: Time): Preview {
    Preview(q.repo, q.pr, "", q.generation, Active, Pending, now + TTL(e), now, q.tenant, p, image,
            if e.port == 0 then 8080 else e.port, if e.healthPath == "" then "/" else e.healthPath, "", e.exposure)
  }

  ghost function NewPreview(t: Tables, p: Id, e: Environment, now: Time): Preview
    requires p in t.pipelines
  {
    PreviewOf(t.pipelines[p], p, if e.image == "" then BuiltImage(t, t.pipelines[p].jobIDs) else e.image, e, now)
  }

  predicate ClockAllows(s: State, key: PRKey, generation: int) {
    key in s.prStates ==> !s.prStates[key].closed && s.prStates[key].generation == generation
  }

  // The clock and the tombstone let this pipeline own the preview.
  ghost predicate MayActivate(s: State, p: Id) {
    && p in s.tables.pipelines && s.tables.pipelines[p].pr > 0
    && ClockAllows(s, KeyOf(s.tables.pipelines[p]), s.tables.pipelines[p].generation)
    && (KeyOf(s.tables.pipelines[p]) in s.previews ==> s.previews[KeyOf(s.tables.pipelines[p])].desired != Deleting)
  }

  ghost function CountCreated(s: State): State {
    s.(metrics := s.metrics.(previewsCreated := s.metrics.previewsCreated + 1))
  }

  ghost function Activate(s: State, p: Id, e: Environment, now: Time): State {
    if MayActivate(s, p)
    then CountCreated(WithPreview(s, KeyOf(s.tables.pipelines[p]), NewPreview(s.tables, p, e, now))) else s
  }

  // The job asks for a preview; a late request must still be inside the pipeline's own window.
  ghost predicate Wants(t: Tables, p: Id, j: Id, now: Time, late: bool) {
    && p in t.pipelines && j in t.jobs && t.jobs[j].spec.environment.Some?
    && (late ==> now < t.pipelines[p].createdAt + t.jobs[j].spec.environment.value.ttlMinutes * MINUTE)
  }

  ghost function ActivateFor(s: State, p: Id, j: Id, now: Time, late: bool): State {
    if Wants(s.tables, p, j, now, late) then Activate(s, p, s.tables.jobs[j].spec.environment.value, now) else s
  }

  ghost function ActivateJobs(s: State, p: Id, jobs: seq<Id>, now: Time, late: bool): State {
    if jobs == [] then s
    else ActivateFor(ActivateJobs(s, p, jobs[..|jobs| - 1], now, late), p, jobs[|jobs| - 1], now, late)
  }

  // The pipeline succeeded for a pull request that has no preview.
  ghost predicate Lacking(s: State, p: Id) {
    && p in s.tables.pipelines && s.tables.pipelines[p].status == Succeeded && s.tables.pipelines[p].pr != 0
    && KeyOf(s.tables.pipelines[p]) !in s.previews
  }

  ghost function EnsureOne(s: State, p: Id, now: Time): State {
    if Lacking(s, p) then ActivateJobs(s, p, s.tables.pipelines[p].jobIDs, now, true) else s
  }

  // EnsurePreviews, ranging over the pipelines in the given order.
  ghost function Ensure(s: State, order: seq<Id>, now: Time): State {
    if order == [] then s
    else EnsureOne(Ensure(s, order[..|order| - 1], now), order[|order| - 1], now)
  }

  function Aged(v: Preview, now: Time): Preview {
    if v.desired == Active && v.expiresAt != 0 && now >= v.expiresAt then Buried(v, v.generation + 1, now) else v
  }

  predicate Removable(v: Preview) {
    v.desired == Deleting && v.actual == Deleted
  }

  ghost function CountDeleted(s: State, n: nat): State {
    s.(metrics := s.metrics.(previewsDeleted := s.metrics.previewsDeleted + n))
  }

  ghost function Gone(s: State, now: Time): set<PRKey> {
    set k | k in s.previews && Removable(Aged(s.previews[k], now))
  }

  ghost function KeptPreviews(s: State, now: Time): State {
    s.(previews := map k | k in s.previews && !Removable(Aged(s.previews[k], now)) :: Aged(s.previews[k], now))
  }

  ghost function AgePreviews(s: State, now: Time): State {
    CountDeleted(KeptPreviews(s, now), |Gone(s, now)|)
  }

  ghost predicate Prunable(s: State, p: Id, now: Time) {
    && p in s.tables.pipelines && IsTerminal(s.tables.pipelines[p].status)
    && now - s.tables.pipelines[p].createdAt >= s.config.retention
    && forall k :: k in s.previews ==> s.previews[k].pipelineID != p
  }

  ghost function Prune(s: State, now: Time): State {
    WithTables(s, Drop(s.tables, set p | p in s.tables.pipelines && Prunable(s, p, now)))
  }

  ghost function Reconcile(s: State, order: seq<Id>, now: Time): State {
    Prune(AgePreviews(SweepState(s, order, now), now), now)
  }

  // The observation was made of the preview as it is desired now.
  predicate Current(s: State, p: Preview) {
    && PreviewKey(p.repo, p.pr) in s.previews
    && var v := s.previews[PreviewKey(p.repo, p.pr)];
    v.generation == p.generation && v.pipelineID == p.pipelineID && v.desired == p.desired
  }

  function Observed(v: Preview, actual: Status, url: string, lastError: string): Preview {
    v.(actual := actual, url := url, lastError := lastError)
  }

  ghost function Observe(s: State, p: Preview, actual: Status, url: string, lastError: string): State {
    if Current(s, p)
    then WithPreview(s, PreviewKey(p.repo, p.pr),
                     Observed(s.previews[PreviewKey(p.repo, p.pr)], actual, url, lastError))
    else s
  }

  function ObserveAnswer(s: State, p: Preview): Option<Error> {
    if PreviewKey(p.repo, p.pr) !in s.previews then Some(NotFound)
    else if Current(s, p) then None else Some(Conflict)
  }

  // ---- Workers and check runs ----

  predicate MayRegister(w: Id, worker: Worker) {
    w != "" && worker.pool != "" && worker.capacity > 0
  }

  ghost function Register(s: State, w: Id, worker: Worker, now: Time): State {
    if MayRegister(w, worker) then WithWorker(s, w, worker.(heartbeat := now)) else s
  }

  ghost function WorkerBeat(s: State, w: Id, now: Time): State {
    if w in s.workers then WithWorker(s, w, s.workers[w].(heartbeat := now)) else s
  }

  ghost function RecordCheck(s: State, p: Id, check: int, state: Status): State {
    if p in s.tables.pipelines
    then WithTables(s, WithPipeline(s.tables, p, s.tables.pipelines[p].(checkRun := check, checkState := state)))
    else s
  }

  // ---- Submission ----

  function SubmissionKey(input: Submission): PRKey {
    PreviewKey(input.repo, input.pr)
  }

  function EventTime(input: Submission, now: Time): Time {
    if input.eventTime == 0 then now else input.eventTime
  }

  function Prior(s: State, input: Submission): PRState {
    if SubmissionKey(input) in s.prStates then s.prStates[SubmissionKey(input)] else PRState(0, false, 0, "")
  }

  // The event is not newer than the clock; at equal times only a close of an open PR passes.
  predicate Late(s: State, input: Submission, now: Time) {
    && input.pr > 0 && SubmissionKey(input) in s.prStates
    && EventTime(input, now) <= Prior(s, input).updatedAt
    && (!input.closed || Prior(s, input).closed || EventTime(input, now) < Prior(s, input).updatedAt)
  }

  ghost predicate SameRevision(t: Tables, input: Submission, generation: int, p: Id) {
    && p in t.pipelines
    && var q := t.pipelines[p];
    && q.tenant == input.tenant && q.repo == input.repo && q.sourceRepo == input.sourceRepo && q.pr == input.pr
    && q.commit == input.commit && q.config == input.spec && q.generation == generation
  }

  datatype Case = Malformed | Clash | Replay | Stale | Full | Known | Fresh

  // The bytes a character takes in UTF-8.
  function ByteWidth(c: char): nat {
    if (c as int) < 0x80 then 1 else if (c as int) < 0x800 then 2 else if (c as int) < 0x1_0000 then 3 else 4
  }

  // What Go's len measures of a string.
  function ByteLength(text: string): nat {
    if text == "" then 0 else ByteWidth(text[0]) + ByteLength(text[1..])
  }

  ghost predicate WellFormed(input: Submission) {
    input.requestID != "" && ByteLength(input.requestID) <= 200 && (input.closed || Planner.Plan(input.spec).Some?)
  }

  // The pipeline would not fit the queue.
  ghost predicate Overflows(s: State, input: Submission) {
    && !input.closed && Planner.Plan(input.spec).Some?
    && |Unfinished(s.tables)| + |Planner.Plan(input.spec).value| > s.config.maxQueuedJobs
  }

  // A pipeline of this very revision is already there.
  ghost predicate Repeats(s: State, input: Submission) {
    && !input.closed && !Prior(s, input).closed && !input.rerun
    && exists p :: SameRevision(s.tables, input, Prior(s, input).generation, p)
  }

  ghost function Classify(s: State, input: Submission, now: Time): Case {
    if !WellFormed(input) then Malformed
    else if input.requestID in s.inbox.deliveries then
      if input.requestID in s.inbox.hashes && s.inbox.hashes[input.requestID] != input then Clash else Replay
    else if Late(s, input, now) then Stale
    else if Overflows(s, input) then Full
    else if Repeats(s, input) then Known
    else Fresh
  }

  ghost function Noted(inbox: Inbox, input: Submission, id: Id): Inbox {
    Inbox(inbox.deliveries[input.requestID := id], inbox.hashes[input.requestID := input])
  }

  ghost function Remember(s: State, input: Submission, id: Id): State {
    s.(inbox := Noted(s.inbox, input, id))
  }

  function NextClock(s: State, input: Submission, now: Time): PRState {
    PRState(EventTime(input, now), input.closed, Prior(s, input).generation + 1, input.commit)
  }

  ghost function Superseded(t: Tables, input: Submission): set<Id> {
    set p | p in t.pipelines && t.pipelines[p].repo == input.repo && t.pipelines[p].pr == input.pr
      && !IsTerminal(t.pipelines[p].status)
  }

  // The preview under the key, if there is one, is to be deleted at the given generation.
  function BuriedUnder(previews: map<PRKey, Preview>, key: PRKey, generation: int, now: Time): map<PRKey, Preview> {
    if key in previews then previews[key := Buried(previews[key], generation, now)] else previews
  }

  ghost function Bury(s: State, key: PRKey, generation: int, now: Time): State {
    s.(previews := BuriedUnder(s.previews, key, generation, now))
  }

  // A newer event of a pull request advances its clock and retires everything older.
  ghost function Advance(s: State, input: Submission, now: Time): State {
    if input.pr <= 0 then s
    else Bury(WithTables(WithClock(s, SubmissionKey(input), NextClock(s, input, now)),
                         CancelPipelines(s.tables, Superseded(s.tables, input), now)),
              SubmissionKey(input), Prior(s, input).generation + 1, now)
  }

  ghost function CountAccepted(s: State): State {
    s.(metrics := s.metrics.(webhookAccepted := s.metrics.webhookAccepted + 1))
  }

  ghost function CountDuplicate(s: State): State {
    s.(metrics := s.metrics.(webhookDuplicate := s.metrics.webhookDuplicate + 1))
  }

  ghost function GenerationOf(s: State, input: Submission): int {
    if input.pr > 0 then Prior(s, input).generation + 1 else Prior(s, input).generation
  }

  // One fresh identifier per planned job.
  ghost predicate IdsFor(input: Submission, ids: seq<Id>) {
    !input.closed && Planner.Plan(input.spec).Some? ==> |ids| == |Planner.Plan(input.spec).value|
  }

  ghost function Admit(s: State, input: Submission, p: Id, ids: seq<Id>, generation: int, now: Time): State
    requires IdsFor(input, ids) && !input.closed && Planner.Plan(input.spec).Some?
  {
    WithTables(s, Create(s.tables, input, Planner.Plan(input.spec).value, p, ids, generation, now))
  }

  ghost function Accept(s: State, input: Submission, p: Id, ids: seq<Id>, now: Time): State
    requires IdsFor(input, ids) && WellFormed(input)
  {
    if input.closed then Remember(CountAccepted(Advance(s, input, now)), input, "")
    else Admit(Remember(CountAccepted(Advance(s, input, now)), input, p), input, p, ids, GenerationOf(s, input), now)
  }

  // The same revision again: the request is remembered and, for a pull request, the clock's time moves.
  ghost function Join(s: State, input: Submission, pick: Id, now: Time): State {
    if input.pr > 0
    then WithClock(Remember(s, input, pick), SubmissionKey(input), Prior(s, input).(updatedAt := EventTime(input, now)))
    else Remember(s, input, pick)
  }

  ghost function Submit(s: State, input: Submission, p: Id, ids: seq<Id>, pick: Id, now: Time): State
    requires IdsFor(input, ids)
  {
    match Classify(s, input, now)
    case Replay => CountDuplicate(s)
    case Stale => Remember(s, input, "")
    case Known => Join(s, input, pick, now)
    case Fresh => Accept(s, input, p, ids, now)
    case _ => s
  }

  datatype Answer = Rejected(error: Error) | Resolved(pipeline: Id, duplicate: bool)

  // pipelineViewLocked of a pipeline that may have been pruned.
  function View(pipelines: map<Id, Pipeline>, p: Id): Id {
    if p in pipelines then p else ""
  }

  ghost function SubmitAnswer(s: State, input: Submission, p: Id, pick: Id, now: Time): Answer {
    match Classify(s, input, now)
    case Malformed => Rejected(Invalid)
    case Clash => Rejected(Conflict)
    case Replay =>
      Resolved(if input.requestID in s.inbox.deliveries
               then View(s.tables.pipelines, s.inbox.deliveries[input.requestID])
               else "", true)
    case Stale => Resolved("", true)
    case Full => Rejected(Capacity)
    case Known => Resolved(pick, true)
    case Fresh => Resolved(if input.closed then "" else p, false)
  }
}
