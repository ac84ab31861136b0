// The steps the running system takes, the runs they form, and coherence over every run.

module Steps {
  import opened Domain
  import opened Ordering
  import opened TableModel
  import opened Model
  import opened Coherence
  import Planner

  datatype Step =
    | SubmitStep(input: Submission, p: Id, ids: seq<Id>, pick: Id, now: Time)
    | ScheduleStep(order: seq<Id>, grant: Option<Grant>, a: Id, token: string, now: Time)
    | BeatStep(a: Id, token: string, now: Time)
    | FinishStep(a: Id, token: string, report: Report, now: Time)
    | CancelStep(j: Id, now: Time)
    | ReconcileStep(order: seq<Id>, now: Time)
    | EnsureStep(order: seq<Id>, now: Time)
    | ObserveStep(preview: Preview, actual: Status, url: string, lastError: string, now: Time)
    | RegisterStep(w: Id, worker: Worker, now: Time)
    | WorkerBeatStep(w: Id, now: Time)
    | CheckStep(p: Id, check: int, state: Status, now: Time)

  // The choices a step carries are ones the implementation can make.
  ghost predicate Enabled(s: State, step: Step) {
    match step
    case SubmitStep(input, p, ids, pick, now) =>
      && IdsFor(input, ids) && FreshIds(s.tables, p, ids)
      && (Classify(s, input, now) == Known ==> SameRevision(s.tables, input, Prior(s, input).generation, pick))
    case ScheduleStep(order, grant, a, token, now) =>
      && Enumerates(order, s.tables.attempts.Keys) && GrantFits(SweepState(s, order, now), grant, now)
      && a !in s.tables.issued && a != ""
    case ReconcileStep(order, now) => Enumerates(order, s.tables.attempts.Keys)
    case EnsureStep(order, now) => Enumerates(order, s.tables.pipelines.Keys)
    case _ => true
  }

  ghost function Apply(s: State, step: Step): State
    requires Enabled(s, step)
  {
    match step
    case SubmitStep(input, p, ids, pick, now) => Submit(s, input, p, ids, pick, now)
    case ScheduleStep(order, grant, a, token, now) => Schedule(s, order, grant, a, token, now)
    case BeatStep(a, token, now) => Beat(s, a, token, now)
    case FinishStep(a, token, report, now) => Finish(s, a, token, report, now)
    case CancelStep(j, now) => Cancel(s, j, now)
    case ReconcileStep(order, now) => Reconcile(s, order, now)
    case EnsureStep(order, now) => Ensure(s, order, now)
    case ObserveStep(preview, actual, url, lastError, now) => Observe(s, preview, actual, url, lastError)
    case RegisterStep(w, worker, now) => Register(s, w, worker, now)
    case WorkerBeatStep(w, now) => WorkerBeat(s, w, now)
    case CheckStep(p, check, state, now) => RecordCheck(s, p, check, state)
  }

  ghost predicate ConfigOk(c: Config) {
    && c.leaseTTL > 0 && c.workerTTL > 0 && c.defaultTenantLimit > 0 && c.maxQueuedJobs > 0
    && c.tenantCPU > 0 && c.tenantMemory > 0 && c.retention > 0
  }

  ghost function Init(c: Config): State {
    State(c, Tables(map[], map[], map[], Tally(0, 0, 0), 0, {}), map[], map[], Inbox(map[], map[]), map[], "",
          Metrics(0, 0, 0, 0, 0, 0, 0))
  }

  // A run from the empty store: states[i + 1] is what steps[i] makes of states[i].
  ghost predicate Run(states: seq<State>, steps: seq<Step>) {
    && |states| == |steps| + 1 && states[0] == Init(states[0].config) && ConfigOk(states[0].config)
    && forall i {:trigger Taken(states, steps, i)} :: 0 <= i < |steps| ==> Taken(states, steps, i)
  }

  ghost predicate Taken(states: seq<State>, steps: seq<Step>, i: int) {
    && 0 <= i < |steps| && i + 1 < |states|
    && Enabled(states[i], steps[i]) && states[i + 1] == Apply(states[i], steps[i])
  }

  // ---- What the surroundings guarantee ----

  // A repository always comes with one spelling, although the preview key ignores case.
  ghost predicate SpellsAlike(t: Tables, repo: string) {
    forall p :: p in t.pipelines && Lower(t.pipelines[p].repo) == Lower(repo) ==> t.pipelines[p].repo == repo
  }

  // At most one job of a configuration asks for a preview.
  predicate OneEnvironment(spec: PipelineSpec) {
    forall m, n ::
      m in spec.jobs && n in spec.jobs && spec.jobs[m].environment.Some? && spec.jobs[n].environment.Some?
      ==> m == n
  }

  // Tenants are named.
  predicate NamesTenant(step: Step) {
    step.SubmitStep? ==> step.input.tenant != ""
  }

  ghost predicate SpellsRepository(s: State, step: Step) {
    step.SubmitStep? ==> SpellsAlike(s.tables, step.input.repo)
  }

  predicate AsksForOnePreview(step: Step) {
    step.SubmitStep? && !step.input.closed ==> OneEnvironment(step.input.spec)
  }

  // A worker that registers again advertises what it did before.
  predicate KeepsOffer(s: State, step: Step) {
    step.RegisterStep? && step.w in s.workers ==>
      && step.worker.capacity == s.workers[step.w].capacity && step.worker.resources == s.workers[step.w].resources
  }

  // The controller only reports DELETED of a preview it was asked to delete.
  predicate ReportsDeletion(step: Step) {
    step.ObserveStep? && step.actual == Deleted ==> step.preview.desired == Deleting
  }

  ghost predicate Assumed(s: State, step: Step) {
    && NamesTenant(step) && KeepsOffer(s, step)
    && SpellsRepository(s, step) && AsksForOnePreview(step) && ReportsDeletion(step)
  }

  // ---- Runs in such surroundings, each with no more than some statement needs ----

  // All tenants are named.
  ghost predicate NamedRun(states: seq<State>, steps: seq<Step>) {
    Run(states, steps) && forall i {:trigger NamesTenant(steps[i])} :: 0 <= i < |steps| ==> NamesTenant(steps[i])
  }

  // Workers keep what they advertised.
  ghost predicate SteadyRun(states: seq<State>, steps: seq<Step>) {
    && Run(states, steps)
    && forall i {:trigger KeepsOffer(states[i], steps[i])} :: 0 <= i < |steps| ==> KeepsOffer(states[i], steps[i])
  }

  // Repositories keep their spelling.
  ghost predicate SpelledRun(states: seq<State>, steps: seq<Step>) {
    && Run(states, steps)
    && forall i {:trigger SpellsRepository(states[i], steps[i])} :: 0 <= i < |steps| ==>
         SpellsRepository(states[i], steps[i])
  }

  // Besides, a pipeline asks for one preview at most.
  ghost predicate OrderlyRun(states: seq<State>, steps: seq<Step>) {
    && SpelledRun(states, steps)
    && forall i {:trigger AsksForOnePreview(steps[i])} :: 0 <= i < |steps| ==> AsksForOnePreview(steps[i])
  }

  // Deletions are reported on request only.
  ghost predicate HonestRun(states: seq<State>, steps: seq<Step>) {
    && Run(states, steps)
    && forall i {:trigger ReportsDeletion(steps[i])} :: 0 <= i < |steps| ==> ReportsDeletion(steps[i])
  }

  // All of it together.
  ghost predicate AssumedRun(states: seq<State>, steps: seq<Step>) {
    NamedRun(states, steps) && SteadyRun(states, steps) && OrderlyRun(states, steps) && HonestRun(states, steps)
  }

  // ---- What each operation does to the tables ----

  ghost predicate OnlyPreviews(s: State, s': State) {
    s' == s.(previews := s'.previews, metrics := s.metrics.(previewsCreated := s'.metrics.previewsCreated))
  }

  lemma ActivateTouches(s: State, p: Id, j: Id, now: Time, late: bool)
    ensures OnlyPreviews(s, ActivateFor(s, p, j, now, late))
  {
    hide MayActivate, NewPreview, Wants;
  }

  lemma {:induction false} ActivationTouches(s: State, p: Id, jobs: seq<Id>, now: Time, late: bool)
    ensures OnlyPreviews(s, ActivateJobs(s, p, jobs, now, late))
  {
    if jobs != [] {
      ActivationTouches(s, p, jobs[..|jobs| - 1], now, late);
      ActivateTouches(ActivateJobs(s, p, jobs[..|jobs| - 1], now, late), p, jobs[|jobs| - 1], now, late);
      hide ActivateFor;
    }
  }

  lemma {:induction false} EnsureTouches(s: State, order: seq<Id>, now: Time)
    ensures OnlyPreviews(s, Ensure(s, order, now))
  {
    if order != [] {
      var s1 := Ensure(s, order[..|order| - 1], now);
      EnsureTouches(s, order[..|order| - 1], now);
      var p := order[|order| - 1];
      if Lacking(s1, p) {
        ActivationTouches(s1, p, s1.tables.pipelines[p].jobIDs, now, true);
      }
      hide ActivateJobs, Lacking;
    }
  }

  lemma CommitTables(s: State, a: Id, record: Attempt, now: Time)
    requires Located(s.tables, a)
    ensures Commit(s, a, record, now).tables == Complete(s.tables, a, record, now)
    ensures var s' := Commit(s, a, record, now);
      s' == s.(tables := s'.tables, previews := s'.previews,
               metrics := s.metrics.(previewsCreated := s'.metrics.previewsCreated))
  {
    var p := PipelineOf(s.tables, a);
    var s1 := WithTables(s, Settle(s.tables, a, record));
    ActivationTouches(WithTables(s1, UpdateTables(s1.tables, p, now)), p, s1.tables.pipelines[p].jobIDs, now, false);
    hide ActivateJobs, UpdateTables, AnyFailed, AllSucceeded;
  }

  lemma CancelTables(s: State, j: Id, now: Time)
    ensures Cancel(s, j, now).tables ==
      if MayCancel(s.tables, j) then CancelPipelines(s.tables, {s.tables.jobs[j].pipelineID}, now) else s.tables
  {
    hide CancelPipelines, KeyOf;
  }

  lemma AdvanceTables(s: State, input: Submission, now: Time)
    ensures Advance(s, input, now).tables ==
      if input.pr <= 0 then s.tables else CancelPipelines(s.tables, Superseded(s.tables, input), now)
  {
    hide CancelPipelines, Superseded, NextClock, SubmissionKey;
  }

  lemma CancelIssuesNothing(t: Tables, ps: set<Id>, now: Time)
    ensures CancelPipelines(t, ps, now).issued == t.issued
  {
  }

  lemma AcceptTables(s: State, input: Submission, p: Id, ids: seq<Id>, now: Time)
    requires IdsFor(input, ids) && WellFormed(input)
    ensures Accept(s, input, p, ids, now).tables ==
      if input.closed then Advance(s, input, now).tables
      else Create(Advance(s, input, now).tables, input, Planner.Plan(input.spec).value, p, ids, GenerationOf(s, input),
                  now)
  {
    hide Advance, GenerationOf, Create;
  }

  lemma SubmitIsAccept(s: State, input: Submission, p: Id, ids: seq<Id>, pick: Id, now: Time)
    requires IdsFor(input, ids) && Classify(s, input, now) == Fresh
    ensures WellFormed(input) && Submit(s, input, p, ids, pick, now) == Accept(s, input, p, ids, now)
  {
    hide Accept, Late, Overflows, Repeats;
  }

  lemma SubmitLeavesTables(s: State, input: Submission, p: Id, ids: seq<Id>, pick: Id, now: Time)
    requires IdsFor(input, ids) && Classify(s, input, now) != Fresh
    ensures Submit(s, input, p, ids, pick, now).tables == s.tables
  {
    hide Classify, Accept, Prior, SubmissionKey, EventTime;
  }

  // ---- What neither scheduling nor a worker's call changes ----

  ghost predicate Spared(s: State, s': State) {
    s'.workers == s.workers && s'.lastTenant == s.lastTenant
  }

  lemma StepSpares(s: State, step: Step)
    requires Enabled(s, step) && !step.ScheduleStep? && !step.RegisterStep? && !step.WorkerBeatStep?
    ensures Spared(s, Apply(s, step))
  {
    hide IdsFor, FreshIds, Classify, SameRevision, GrantFits, Submit, Schedule, Finish, Cancel, Reconcile, Ensure,
         Renew;
    match step
    case SubmitStep(input, p, ids, pick, now) => SubmitSpares(s, input, p, ids, pick, now);
    case FinishStep(a, token, report, now) => FinishSpares(s, a, token, report, now);
    case CancelStep(j, now) => CancelSpares(s, j, now);
    case ReconcileStep(order, now) => ReconcileSpares(s, order, now);
    case EnsureStep(order, now) => EnsureTouches(s, order, now);
    case _ =>
  }

  lemma SubmitSpares(s: State, input: Submission, p: Id, ids: seq<Id>, pick: Id, now: Time)
    requires IdsFor(input, ids)
    ensures Spared(s, Submit(s, input, p, ids, pick, now))
  {
    AdvanceSpares(s, input, now);
    hide IdsFor, Classify, Advance, Create;
  }

  lemma AdvanceSpares(s: State, input: Submission, now: Time)
    ensures Spared(s, Advance(s, input, now))
  {
    hide CancelPipelines, Superseded;
  }

  lemma FinishSpares(s: State, a: Id, token: string, report: Report, now: Time)
    ensures Spared(s, Finish(s, a, token, report, now))
  {
    hide Commit;
    if LeaseHeld(s.tables, a, token, now) {
      CommitTables(s, a, CommittedRecord(s.tables.attempts[a], report, now), now);
    }
  }

  lemma CancelSpares(s: State, j: Id, now: Time)
    ensures Spared(s, Cancel(s, j, now))
  {
    hide CancelPipelines;
  }

  lemma ReconcileSpares(s: State, order: seq<Id>, now: Time)
    ensures Spared(s, Reconcile(s, order, now))
  {
    hide Sweep, Swept, Drop, Gone, Prunable;
  }

  // ---- What only a submission changes ----

  // Everything that identifies requests and pull requests stays; no pipeline appears.
  ghost predicate Unasked(s: State, s': State) {
    && s'.config == s.config && s'.prStates == s.prStates && s'.inbox == s.inbox
    && s'.tables.pipelines.Keys <= s.tables.pipelines.Keys && s'.tables.jobs.Keys <= s.tables.jobs.Keys
    && s'.tables.sequence == s.tables.sequence
  }

  lemma SweepOneAddsNothing(t: Tables, a: Id, now: Time)
    ensures SweepOne(t, a, now).pipelines.Keys == t.pipelines.Keys && SweepOne(t, a, now).jobs.Keys == t.jobs.Keys
    ensures SweepOne(t, a, now).sequence == t.sequence
  {
  }

  lemma {:induction false} SweepAddsNothing(t: Tables, order: seq<Id>, now: Time)
    ensures Sweep(t, order, now).pipelines.Keys == t.pipelines.Keys && Sweep(t, order, now).jobs.Keys == t.jobs.Keys
    ensures Sweep(t, order, now).sequence == t.sequence
  {
    if order != [] {
      SweepAddsNothing(t, order[..|order| - 1], now);
      SweepOneAddsNothing(Sweep(t, order[..|order| - 1], now), order[|order| - 1], now);
      hide SweepOne;
    }
  }

  lemma CommitIsUnasked(s: State, a: Id, record: Attempt, now: Time)
    requires Located(s.tables, a)
    ensures Unasked(s, Commit(s, a, record, now))
  {
    CommitTables(s, a, record, now);
    hide Commit;
  }

  lemma PlaceIsUnasked(s: State, grant: Option<Grant>, a: Id, token: string, now: Time)
    ensures Unasked(s, Place(s, grant, a, token, now))
  {
  }

  lemma CancelIsUnasked(s: State, j: Id, now: Time)
    ensures Unasked(s, Cancel(s, j, now))
  {
  }

  lemma ScheduleIsUnasked(s: State, order: seq<Id>, grant: Option<Grant>, a: Id, token: string, now: Time)
    ensures Unasked(s, Schedule(s, order, grant, a, token, now))
  {
    SweepAddsNothing(s.tables, order, now);
    PlaceIsUnasked(SweepState(s, order, now), grant, a, token, now);
    hide Place, Sweep;
  }

  lemma ReconcileIsUnasked(s: State, order: seq<Id>, now: Time)
    ensures Unasked(s, Reconcile(s, order, now))
  {
    SweepAddsNothing(s.tables, order, now);
    hide Sweep, Prunable;
  }

  lemma OnlySubmissionsAsk(s: State, step: Step)
    requires Enabled(s, step) && !step.SubmitStep?
    ensures Unasked(s, Apply(s, step))
  {
    hide Enabled, Schedule, Cancel, Reconcile, Ensure, Commit, Unasked;
    match step
    case ScheduleStep(order, grant, a, token, now) => ScheduleIsUnasked(s, order, grant, a, token, now);
    case BeatStep(a, token, now) => BeatIsUnasked(s, a, token, now);
    case FinishStep(a, token, report, now) => FinishIsUnasked(s, a, token, report, now);
    case CancelStep(j, now) => CancelIsUnasked(s, j, now);
    case ReconcileStep(order, now) => ReconcileIsUnasked(s, order, now);
    case EnsureStep(order, now) => EnsureIsUnasked(s, order, now);
    case _ => RecordIsUnasked(s, step);
  }

  lemma BeatIsUnasked(s: State, a: Id, token: string, now: Time)
    ensures Unasked(s, Beat(s, a, token, now))
  {
  }

  lemma FinishIsUnasked(s: State, a: Id, token: string, report: Report, now: Time)
    ensures Unasked(s, Finish(s, a, token, report, now))
  {
    if LeaseHeld(s.tables, a, token, now) {
      CommitIsUnasked(s, a, CommittedRecord(s.tables.attempts[a], report, now), now);
    }
    hide Commit;
  }

  lemma EnsureIsUnasked(s: State, order: seq<Id>, now: Time)
    ensures Unasked(s, Ensure(s, order, now))
  {
    EnsureTouches(s, order, now);
    hide Ensure;
  }

  lemma RecordIsUnasked(s: State, step: Step)
    requires step.ObserveStep? || step.RegisterStep? || step.WorkerBeatStep? || step.CheckStep?
    requires Enabled(s, step)
    ensures Unasked(s, Apply(s, step))
  {
    hide Observe, Register, WorkerBeat, RecordCheck, Unasked;
    match step
    case ObserveStep(preview, actual, url, lastError, now) => ObserveIsUnasked(s, preview, actual, url, lastError);
    case RegisterStep(w, worker, now) => RegisterIsUnasked(s, w, worker, now);
    case WorkerBeatStep(w, now) => WorkerBeatIsUnasked(s, w, now);
    case CheckStep(p, check, state, now) => CheckIsUnasked(s, p, check, state);
  }

  lemma ObserveIsUnasked(s: State, p: Preview, actual: Status, url: string, lastError: string)
    ensures Unasked(s, Observe(s, p, actual, url, lastError))
  {
    hide Current, Observed, PreviewKey;
  }

  lemma RegisterIsUnasked(s: State, w: Id, worker: Worker, now: Time)
    ensures Unasked(s, Register(s, w, worker, now))
  {
  }

  lemma WorkerBeatIsUnasked(s: State, w: Id, now: Time)
    ensures Unasked(s, WorkerBeat(s, w, now))
  {
  }

  lemma CheckIsUnasked(s: State, p: Id, check: int, state: Status)
    ensures Unasked(s, RecordCheck(s, p, check, state))
  {
  }

  lemma StepKeepsConfig(s: State, step: Step)
    requires Enabled(s, step)
    ensures Apply(s, step).config == s.config
  {
    if step.SubmitStep? {
      hide Enabled, Classify, IdsFor, Create, CancelPipelines, FreshIds, SameRevision;
    } else {
      OnlySubmissionsAsk(s, step);
      hide Apply, Enabled;
    }
  }

  lemma {:induction false} ConfigIsFixed(states: seq<State>, steps: seq<Step>, i: nat)
    requires Run(states, steps) && i < |states|
    ensures states[i].config == states[0].config && ConfigOk(states[i].config)
  {
    if i > 0 {
      ConfigIsFixed(states, steps, i - 1);
      assert Taken(states, steps, i - 1);
      StepKeepsConfig(states[i - 1], steps[i - 1]);
    }
  }

  // ---- Coherence ----

  lemma SubmitKeeps(s: State, input: Submission, p: Id, ids: seq<Id>, pick: Id, now: Time)
    requires Coherent(s.tables) && Enabled(s, SubmitStep(input, p, ids, pick, now))
    ensures Coherent(Submit(s, input, p, ids, pick, now).tables)
  {
    hide Coherent, Accept, IdsFor, FreshIds, SameRevision, Prior, Late, Overflows, SubmissionKey;
    if Classify(s, input, now) == Fresh {
      AcceptKeeps(s, input, p, ids, now);
    } else {
      SubmitLeavesTables(s, input, p, ids, pick, now);
    }
    hide Classify, Enabled;
  }

  lemma AcceptKeeps(s: State, input: Submission, p: Id, ids: seq<Id>, now: Time)
    requires Coherent(s.tables) && IdsFor(input, ids) && FreshIds(s.tables, p, ids) && WellFormed(input)
    ensures Coherent(Accept(s, input, p, ids, now).tables)
  {
    AcceptTables(s, input, p, ids, now);
    AdvanceTables(s, input, now);
    hide Coherent, Advance, Accept, CancelPipelines;
    CancelPipelinesKeeps(s.tables, Superseded(s.tables, input), now);
    CancelIssuesNothing(s.tables, Superseded(s.tables, input), now);
    if !input.closed {
      CreateKeeps(Advance(s, input, now).tables, input, Planner.Plan(input.spec).value, p, ids, GenerationOf(s, input),
                  now);
    }
  }

  lemma FinishKeeps(s: State, a: Id, token: string, report: Report, now: Time)
    requires Coherent(s.tables)
    ensures Coherent(Finish(s, a, token, report, now).tables)
  {
    if LeaseHeld(s.tables, a, token, now) {
      var record := CommittedRecord(s.tables.attempts[a], report, now);
      CommitTables(s, a, record, now);
      hide Coherent, Commit, Complete;
      CompleteKeeps(s.tables, a, record, now);
    }
  }

  // A pipeline with an unfinished job is itself unfinished.
  lemma UnfinishedPipeline(t: Tables, j: Id)
    requires Coherent(t) && j in t.jobs && !IsTerminal(t.jobs[j].status)
    ensures t.jobs[j].pipelineID in t.pipelines && !IsTerminal(t.pipelines[t.jobs[j].pipelineID].status)
  {
    assert JobRefs(t, j);
    var p := t.jobs[j].pipelineID;
    assert PipelineFits(t, p) && j in Board(t, p);
  }

  lemma CancelKeeps(s: State, j: Id, now: Time)
    requires Coherent(s.tables)
    ensures Coherent(Cancel(s, j, now).tables)
  {
    if MayCancel(s.tables, j) {
      UnfinishedPipeline(s.tables, j);
      hide Coherent, CancelPipelines;
      CancelPipelinesKeeps(s.tables, {s.tables.jobs[j].pipelineID}, now);
    }
  }

  lemma SweepIssuesNothing(t: Tables, a: Id, now: Time)
    ensures SweepOne(t, a, now).issued == t.issued
  {
  }

  lemma {:induction false} SweepsIssueNothing(t: Tables, order: seq<Id>, now: Time)
    ensures Sweep(t, order, now).issued == t.issued
  {
    if order != [] {
      SweepsIssueNothing(t, order[..|order| - 1], now);
      SweepIssuesNothing(Sweep(t, order[..|order| - 1], now), order[|order| - 1], now);
      hide SweepOne;
    }
  }

  lemma GrantIsRunnable(s: State, g: Grant, now: Time)
    requires Coherent(s.tables) && IsGrant(s, g, now)
    ensures Runnable(s.tables, g.job) && Grantable(s, g)
  {
    assert JobRefs(s.tables, g.job);
  }

  lemma ScheduleKeeps(s: State, order: seq<Id>, grant: Option<Grant>, a: Id, token: string, now: Time)
    requires Coherent(s.tables) && Enabled(s, ScheduleStep(order, grant, a, token, now))
    ensures Coherent(Schedule(s, order, grant, a, token, now).tables)
  {
    SweepKeeps(s.tables, order, now);
    SweepsIssueNothing(s.tables, order, now);
    var s1 := SweepState(s, order, now);
    if grant.Some? {
      GrantIsRunnable(s1, grant.value, now);
      hide Coherent, Lease, IsGrant, Runnable;
      LeaseKeeps(s1.tables, grant.value.job, grant.value.worker, a, token, s.config.leaseTTL, now);
    }
  }

  lemma ReconcileKeeps(s: State, order: seq<Id>, now: Time)
    requires Coherent(s.tables)
    ensures Coherent(Reconcile(s, order, now).tables)
  {
    SweepKeeps(s.tables, order, now);
    var s2 := AgePreviews(SweepState(s, order, now), now);
    hide Coherent, Prunable, Drop, Sweep;
    DropKeeps(s2.tables, set p | p in s2.tables.pipelines && Prunable(s2, p, now));
  }

  // Recording a check run changes neither references nor statuses.
  lemma CheckKeeps(t: Tables, p: Id, check: int, state: Status)
    requires Coherent(t) && p in t.pipelines
    ensures Coherent(WithPipeline(t, p, t.pipelines[p].(checkRun := check, checkState := state)))
  {
    var t' := WithPipeline(t, p, t.pipelines[p].(checkRun := check, checkState := state));
    CheckKeepsPipelines(t, t', p);
    CheckKeepsJobs(t, t', p);
  }

  ghost predicate Rechecked(t: Tables, t': Tables, p: Id) {
    && p in t.pipelines && p in t'.pipelines
    && t'.jobs == t.jobs && t'.attempts == t.attempts && t'.issued == t.issued
    && t'.pipelines == t.pipelines[p := t'.pipelines[p]]
    && t'.pipelines[p] == t.pipelines[p].(checkRun := t'.pipelines[p].checkRun,
                                          checkState := t'.pipelines[p].checkState)
  }

  lemma CheckKeepsPipelines(t: Tables, t': Tables, p: Id)
    requires Coherent(t) && Rechecked(t, t', p)
    ensures PipelinesRef(t') && Plans(t')
    ensures forall q {:trigger PipelineFits(t', q)} :: q in t'.pipelines ==> PipelineFits(t', q)
  {
    hide Coherent, Rechecked, Planned, PipelineRefs, PipelineFits;
    forall q | q in t'.pipelines
      ensures PipelineRefs(t', q)
      ensures Planned(t', q)
      ensures PipelineFits(t', q)
    {
      CheckKeepsPipeline(t, t', p, q);
    }
  }

  lemma CheckKeepsPipeline(t: Tables, t': Tables, p: Id, q: Id)
    requires Coherent(t) && Rechecked(t, t', p) && q in t'.pipelines
    ensures PipelineRefs(t', q) && Planned(t', q) && PipelineFits(t', q)
  {
    assert PipelineRefs(t, q) && Planned(t, q) && PipelineFits(t, q);
    hide Coherent, Fits;
    assert Board(t', q) == Board(t, q);
    hide Board;
    assert forall k :: Has(t', q, k) == Has(t, q, k);
  }

  lemma CheckKeepsJobs(t: Tables, t': Tables, p: Id)
    requires Coherent(t) && Rechecked(t, t', p)
    ensures JobsRef(t') && AttemptsRef(t') && AttemptsFit(t') && JobsFit(t') && NeedsHeld(t') && AllIssued(t')
  {
    forall j | j in t'.jobs ensures JobRefs(t', j) && JobFits(t'.jobs[j]) {
      assert JobRefs(t, j) && JobFits(t.jobs[j]);
    }
    forall a | a in t'.attempts ensures AttemptRefs(t', a) && AttemptOk(t', a) {
      assert AttemptRefs(t, a) && AttemptOk(t, a);
    }
    forall j | j in t'.jobs && t'.jobs[j].attemptIDs != [] ensures NeedsMet(t', j) {
      assert NeedsMet(t, j);
      forall d | d in t'.jobs[j].spec.needs ensures NeedMet(t', t'.jobs[j].pipelineID, d) {
        var k :| Has(t, t.jobs[j].pipelineID, k) && t.jobs[k].name == d && t.jobs[k].status == Succeeded;
        assert Has(t', t.jobs[j].pipelineID, k);
      }
    }
  }

  lemma QuietStep(s: State, step: Step)
    requires step.EnsureStep? || step.ObserveStep? || step.RegisterStep? || step.WorkerBeatStep?
    requires Enabled(s, step)
    ensures Apply(s, step).tables == s.tables
  {
    hide Enabled;
    if step.EnsureStep? {
      EnsureTouches(s, step.order, step.now);
    }
    hide Ensure, Current, Observed, PreviewKey;
  }

  // Every step keeps the tables coherent.
  lemma StepKeepsCoherent(s: State, step: Step)
    requires Coherent(s.tables) && Enabled(s, step)
    ensures Coherent(Apply(s, step).tables)
  {
    hide Coherent, Enabled, Submit, Schedule, Beat, Finish, Cancel, Reconcile, Ensure, Observe, Register, WorkerBeat,
         RecordCheck;
    match step
    case SubmitStep(input, p, ids, pick, now) => SubmitKeeps(s, input, p, ids, pick, now);
    case ScheduleStep(order, grant, a, token, now) => ScheduleKeeps(s, order, grant, a, token, now);
    case BeatStep(a, token, now) => BeatKeeps(s, a, token, now);
    case FinishStep(a, token, report, now) => FinishKeeps(s, a, token, report, now);
    case CancelStep(j, now) => CancelKeeps(s, j, now);
    case ReconcileStep(order, now) => ReconcileKeeps(s, order, now);
    case CheckStep(p, check, state, now) => RecordCheckKeeps(s, p, check, state);
    case _ => QuietStep(s, step);
  }

  lemma BeatKeeps(s: State, a: Id, token: string, now: Time)
    requires Coherent(s.tables)
    ensures Coherent(Beat(s, a, token, now).tables)
  {
    hide Coherent, Renew;
    if LeaseHeld(s.tables, a, token, now) {
      RenewKeeps(s.tables, a, s.config.leaseTTL, now);
    }
  }

  lemma RecordCheckKeeps(s: State, p: Id, check: int, state: Status)
    requires Coherent(s.tables)
    ensures Coherent(RecordCheck(s, p, check, state).tables)
  {
    hide Coherent;
    if p in s.tables.pipelines {
      CheckKeeps(s.tables, p, check, state);
    }
  }

  lemma {:induction false} CoherentThroughout(states: seq<State>, steps: seq<Step>, i: nat)
    requires Run(states, steps) && i < |states|
    ensures Coherent(states[i].tables)
  {
    if i > 0 {
      CoherentThroughout(states, steps, i - 1);
      assert Taken(states, steps, i - 1);
      StepKeepsCoherent(states[i - 1], steps[i - 1]);
    } else {
      EmptyIsCoherent(states[0].config);
    }
  }

  lemma EmptyIsCoherent(c: Config)
    ensures Coherent(Init(c).tables)
  {
  }
}
