// The tables of pipelines, jobs and attempts, and what internal/control does to them.
// Choices the implementation leaves open (fresh identifiers, the order a map is ranged over in)
// are arguments.

module TableModel {
  import opened Domain
  import opened Ordering

  // How jobs ended so far.
  datatype Tally = Tally(completed: nat, failed: nat, cancelled: nat)

  datatype Tables = Tables(
    pipelines: map<Id, Pipeline>,
    jobs: map<Id, Job>,
    attempts: map<Id, Attempt>,
    tally: Tally,
    sequence: nat,
    // Every identifier handed out so far, pruned or not.
    issued: set<Id>)

  const EXHAUSTED := "attempt timeout or retry limit exceeded"

  function JobTimeout(spec: JobSpec): int {
    (if spec.timeoutSeconds <= 0 then 900 else spec.timeoutSeconds) * SECOND
  }

  function RetryLimit(spec: JobSpec): int {
    if spec.maxAttempts <= 0 then 3 else spec.maxAttempts
  }

  // ---- One table, one entry ----

  ghost function WithPipeline(t: Tables, p: Id, pipeline: Pipeline): Tables {
    t.(pipelines := t.pipelines[p := pipeline])
  }

  ghost function WithJob(t: Tables, j: Id, job: Job): Tables {
    t.(jobs := t.jobs[j := job])
  }

  ghost function WithAttempt(t: Tables, a: Id, record: Attempt): Tables {
    t.(attempts := t.attempts[a := record])
  }

  ghost function WithStatus(t: Tables, p: Id, status: Status): Tables
    requires p in t.pipelines
  {
    WithPipeline(t, p, t.pipelines[p].(status := status))
  }

  ghost predicate Has(t: Tables, p: Id, j: Id) {
    j in t.jobs && t.jobs[j].pipelineID == p
  }

  // The attempt, its job and its pipeline are all there.
  ghost predicate Located(t: Tables, a: Id) {
    && a in t.attempts && t.attempts[a].jobID in t.jobs
    && t.jobs[t.attempts[a].jobID].pipelineID in t.pipelines
  }

  // ---- Cancelling ----

  ghost predicate Doomed(t: Tables, ps: set<Id>, j: Id) {
    j in t.jobs && t.jobs[j].pipelineID in ps && !IsTerminal(t.jobs[j].status)
  }

  ghost function DoomedJobs(t: Tables, ps: set<Id>): set<Id> {
    set j | j in t.jobs && Doomed(t, ps, j)
  }

  function CancelledRecord(record: Attempt, now: Time): Attempt {
    record.(status := Cancelled, completedAt := now)
  }

  // Every unfinished job of the pipelines in ps, and its running attempt, becomes CANCELLED.
  ghost function CancelJobs(t: Tables, ps: set<Id>, now: Time): Tables {
    t.(jobs := map j | j in t.jobs ::
         if Doomed(t, ps, j) then t.jobs[j].(status := Cancelled) else t.jobs[j],
       attempts := map a | a in t.attempts ::
         if IsActive(t.attempts[a].status) && Doomed(t, ps, t.attempts[a].jobID)
         then CancelledRecord(t.attempts[a], now) else t.attempts[a],
       tally := t.tally.(cancelled := t.tally.cancelled + |DoomedJobs(t, ps)|))
  }

  ghost function MarkCancelled(t: Tables, ps: set<Id>): Tables {
    t.(pipelines := map p | p in t.pipelines ::
         if p in ps then t.pipelines[p].(status := Cancelled) else t.pipelines[p])
  }

  // cancelPipelineLocked on each of the given pipelines.
  ghost function CancelPipelines(t: Tables, ps: set<Id>, now: Time): Tables {
    CancelJobs(MarkCancelled(t, ps), ps, now)
  }

  // ---- Completing ----

  ghost predicate AnyFailed(t: Tables, p: Id) {
    exists j :: Has(t, p, j) && t.jobs[j].status == Failed
  }

  ghost predicate AllSucceeded(t: Tables, p: Id) {
    forall j :: Has(t, p, j) ==> t.jobs[j].status == Succeeded
  }

  // updatePipelineLocked: fail fast, complete, or keep running.
  ghost function UpdateTables(t: Tables, p: Id, now: Time): Tables
    requires p in t.pipelines
  {
    if AnyFailed(t, p) then CancelJobs(WithStatus(t, p, Failed), {p}, now)
    else if AllSucceeded(t, p) then WithStatus(t, p, Succeeded)
    else WithStatus(t, p, Running)
  }

  // An attempt gets a new record and its job a new status.
  ghost function Move(t: Tables, a: Id, record: Attempt, status: Status): Tables
    requires Located(t, a)
  {
    WithJob(WithAttempt(t, a, record), t.attempts[a].jobID, t.jobs[t.attempts[a].jobID].(status := status))
  }

  function Count(tally: Tally, status: Status): Tally {
    if status == Succeeded then tally.(completed := tally.completed + 1) else tally.(failed := tally.failed + 1)
  }

  ghost function WithTally(t: Tables, tally: Tally): Tables {
    t.(tally := tally)
  }

  // The attempt's record and its job take the final status together.
  ghost function Settle(t: Tables, a: Id, record: Attempt): Tables
    requires Located(t, a)
  {
    WithTally(Move(t, a, record, record.status), Count(t.tally, record.status))
  }

  ghost function PipelineOf(t: Tables, a: Id): Id
    requires Located(t, a)
  {
    t.jobs[t.attempts[a].jobID].pipelineID
  }

  ghost function Complete(t: Tables, a: Id, record: Attempt, now: Time): Tables
    requires Located(t, a)
  {
    UpdateTables(Settle(t, a, record), PipelineOf(t, a), now)
  }

  // ---- Expiry ----

  ghost predicate TimedOut(t: Tables, a: Id, now: Time)
    requires Located(t, a)
  {
    now - t.attempts[a].createdAt >= JobTimeout(t.jobs[t.attempts[a].jobID].spec)
  }

  ghost predicate Expired(t: Tables, a: Id, now: Time) {
    && Located(t, a) && IsActive(t.attempts[a].status)
    && (now >= t.attempts[a].leaseExpires || TimedOut(t, a, now))
  }

  ghost predicate Exhausted(t: Tables, a: Id, now: Time)
    requires Located(t, a)
  {
    TimedOut(t, a, now) || t.attempts[a].number >= RetryLimit(t.jobs[t.attempts[a].jobID].spec)
  }

  function LostRecord(record: Attempt, now: Time): Attempt {
    record.(status := Lost, completedAt := now)
  }

  function ExhaustedRecord(record: Attempt, now: Time): Attempt {
    record.(status := Failed, completedAt := now, message := EXHAUSTED)
  }

  // The lease is lost and the job queued again.
  ghost function Lose(t: Tables, a: Id, now: Time): Tables
    requires Located(t, a)
  {
    if IsTerminal(t.jobs[t.attempts[a].jobID].status) then WithAttempt(t, a, LostRecord(t.attempts[a], now))
    else Move(t, a, LostRecord(t.attempts[a], now), Queued)
  }

  // One round of reconcileExpiredLocked.
  ghost function SweepOne(t: Tables, a: Id, now: Time): Tables {
    if !Expired(t, a, now) then t
    else if Exhausted(t, a, now) then Complete(t, a, ExhaustedRecord(t.attempts[a], now), now)
    else Lose(t, a, now)
  }

  // reconcileExpiredLocked, ranging over the attempts in the given order.
  ghost function Sweep(t: Tables, order: seq<Id>, now: Time): Tables {
    if order == [] then t
    else SweepOne(Sweep(t, order[..|order| - 1], now), order[|order| - 1], now)
  }

  // How many leases that sweep finds expired.
  ghost function Swept(t: Tables, order: seq<Id>, now: Time): nat {
    if order == [] then 0
    else if Expired(Sweep(t, order[..|order| - 1], now), order[|order| - 1], now)
    then Swept(t, order[..|order| - 1], now) + 1
    else Swept(t, order[..|order| - 1], now)
  }

  // ---- Leases ----

  function NewAttempt(j: Id, number: nat, w: Id, token: string, ttl: int, now: Time): Attempt {
    Attempt(j, number, w, token, now + ttl, Leased, now, 0, 0, "", "", "", [])
  }

  function LeasedJob(job: Job, a: Id): Job {
    job.(status := Leased, attemptIDs := job.attemptIDs + [a])
  }

  ghost function Issue(t: Tables, ids: set<Id>): Tables {
    t.(issued := t.issued + ids)
  }

  ghost function Lease(t: Tables, j: Id, w: Id, a: Id, token: string, ttl: int, now: Time): Tables
    requires j in t.jobs && t.jobs[j].pipelineID in t.pipelines
  {
    Issue(WithStatus(WithJob(WithAttempt(t, a, NewAttempt(j, |t.jobs[j].attemptIDs| + 1, w, token, ttl, now)),
                             j, LeasedJob(t.jobs[j], a)),
                     t.jobs[j].pipelineID, Running),
          {a})
  }

  ghost predicate LeaseHeld(t: Tables, a: Id, token: string, now: Time) {
    && Located(t, a) && IsActive(t.attempts[a].status) && t.attempts[a].token == token
    && now < t.attempts[a].leaseExpires && !TimedOut(t, a, now)
  }

  function RenewedRecord(record: Attempt, ttl: int, now: Time): Attempt {
    if record.status == Leased then record.(status := Running, startedAt := now, leaseExpires := now + ttl)
    else record.(leaseExpires := now + ttl)
  }

  ghost function Renew(t: Tables, a: Id, ttl: int, now: Time): Tables
    requires Located(t, a)
  {
    if t.attempts[a].status == Leased then Move(t, a, RenewedRecord(t.attempts[a], ttl, now), Running)
    else WithAttempt(t, a, RenewedRecord(t.attempts[a], ttl, now))
  }

  datatype Report = Report(success: bool, message: string, digest: string, logKey: string, artefacts: seq<Artefact>)

  function Wanted(report: Report): Status {
    if report.success then Succeeded else Failed
  }

  function CompletedRecord(record: Attempt, success: bool, message: string, now: Time): Attempt {
    record.(status := if success then Succeeded else Failed, completedAt := now, message := message)
  }

  function Annotated(record: Attempt, report: Report): Attempt {
    record.(digest := report.digest, logKey := report.logKey, artefacts := report.artefacts)
  }

  function CommittedRecord(record: Attempt, report: Report, now: Time): Attempt {
    CompletedRecord(Annotated(record, report), report.success, report.message, now)
  }

  predicate Matches(record: Attempt, report: Report) {
    && record.status == Wanted(report) && record.message == report.message
    && record.digest == report.digest && record.logKey == report.logKey && record.artefacts == report.artefacts
  }

  // ---- Creating and pruning ----

  function NewJob(input: Submission, p: Id, name: string, sequence: nat, now: Time): Job
    requires name in input.spec.jobs
  {
    Job(p, input.tenant, name, input.spec.jobs[name], Queued, now, sequence, [])
  }

  function NewPipeline(input: Submission, jobIDs: seq<Id>, generation: int, now: Time): Pipeline {
    Pipeline(input.tenant, input.repo, input.commit, input.trigger, input.pr, Queued, now, jobIDs,
             input.sourceRepo, input.fork, generation, input.spec, input.installation, 0, Unset)
  }

  ghost predicate FreshIds(t: Tables, p: Id, ids: seq<Id>) {
    && p !in t.issued && p !in ids && p != "" && Distinct(ids)
    && forall j :: j in ids ==> j !in t.issued && j != ""
  }

  ghost function NewJobs(input: Submission, order: seq<string>, p: Id, ids: seq<Id>, sequence: nat,
                         now: Time): map<Id, Job>
    requires |ids| == |order|
    requires forall n :: n in order ==> n in input.spec.jobs
  {
    map j | j in ids :: NewJob(input, p, order[IndexOf(ids, j)], sequence + 1 + IndexOf(ids, j), now)
  }

  // createPipelineLocked: one QUEUED job per planned name, numbered in plan order.
  ghost function Create(t: Tables, input: Submission, order: seq<string>, p: Id, ids: seq<Id>, generation: int,
                        now: Time): Tables
    requires |ids| == |order|
    requires forall n :: n in order ==> n in input.spec.jobs
  {
    t.(pipelines := t.pipelines[p := NewPipeline(input, ids, generation, now)],
       jobs := t.jobs + NewJobs(input, order, p, ids, t.sequence, now),
       sequence := t.sequence + |ids|,
       issued := t.issued + {p} + (set j | j in ids))
  }

  // pruneLocked, given the pipelines to drop.
  ghost function Drop(t: Tables, ps: set<Id>): Tables {
    t.(pipelines := map p | p in t.pipelines && p !in ps :: t.pipelines[p],
       jobs := map j | j in t.jobs && t.jobs[j].pipelineID !in ps :: t.jobs[j],
       attempts := map a | a in t.attempts
         && !(t.attempts[a].jobID in t.jobs && t.jobs[t.attempts[a].jobID].pipelineID in ps) :: t.attempts[a])
  }

  // ---- Demand ----

  ghost predicate NeedMet(t: Tables, p: Id, name: string) {
    exists k :: Has(t, p, k) && t.jobs[k].name == name && t.jobs[k].status == Succeeded
  }

  ghost predicate NeedsMet(t: Tables, j: Id)
    requires j in t.jobs
  {
    forall d :: d in t.jobs[j].spec.needs ==> NeedMet(t, t.jobs[j].pipelineID, d)
  }

  ghost predicate Runnable(t: Tables, j: Id) {
    j in t.jobs && t.jobs[j].status == Queued && NeedsMet(t, j)
  }

  ghost function Unfinished(t: Tables): set<Id> {
    set j | j in t.jobs && !IsTerminal(t.jobs[j].status)
  }

  ghost function ActiveJobs(t: Tables, tenant: string): set<Id> {
    set j | j in t.jobs && t.jobs[j].tenant == tenant && IsActive(t.jobs[j].status)
  }

  // "" stands for any tenant or any worker, as in usedResourcesLocked.
  ghost predicate Occupies(t: Tables, a: Id, tenant: string, worker: Id) {
    && a in t.attempts && IsActive(t.attempts[a].status)
    && (tenant == "" || (t.attempts[a].jobID in t.jobs && t.jobs[t.attempts[a].jobID].tenant == tenant))
    && (worker == "" || t.attempts[a].workerID == worker)
  }

  ghost function ActiveAttempts(t: Tables, tenant: string, worker: Id): set<Id> {
    set a | a in t.attempts && Occupies(t, a, tenant, worker)
  }

  function Add(x: Resources, y: Resources): Resources {
    Resources(x.cpu + y.cpu, x.memory + y.memory)
  }

  ghost function Demand(t: Tables, a: Id): Resources {
    if a in t.attempts && t.attempts[a].jobID in t.jobs then t.jobs[t.attempts[a].jobID].spec.resources
    else Resources(0, 0)
  }

  ghost function Total(t: Tables, attempts: set<Id>): Resources {
    if attempts == {} then Resources(0, 0)
    else var a :| a in attempts; Add(Demand(t, a), Total(t, attempts - {a}))
  }

  ghost function Used(t: Tables, tenant: string, worker: Id): Resources {
    Total(t, ActiveAttempts(t, tenant, worker))
  }
}
