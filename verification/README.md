# Control plane of the CI preview platform, in Dafny

The control plane keeps pipelines, jobs, attempts, workers, pull-request clocks and previews in one shared
state. API calls, scheduler rounds, worker heartbeats, completions and controller observations are serialised:
each is one atomic step on that state. This project models those steps and proves what they keep, over one step
and over whole runs.

Two layers describe the same behaviour.

* **The store as it is written.** `Control.Store` (Store.dfy) is a class with the maps of `internal/control` as
  fields; its methods update them in place, with the loops, early returns and error cases of the Go methods.
  `Planner.Validate` (Planner.dfy) is Kahn's algorithm with a sorted ready list, and `WorkerProcess.Process`
  (Worker.dfy) is the claim rule of a worker. Where Go ranges over a map, the loop picks any remaining key.
* **The transitions as functions.** `TableModel` (Tables.dfy) and `Model` (Model.dfy) give each step as a function
  of the state. What Go leaves open (the order of a map, fresh identifiers, the lease that fits) is an argument,
  restricted by `Steps.Enabled`. Every public method of the store is proved equal to its transition, with the
  order it happened to use as a ghost result, so everything proved about transitions and runs holds of the class.

The transitions are made of named guards and updates, and so are the statements about them. What those amount to is
settled once more by six modules that speak of nothing but the records' own fields, in terms neither layer is built
from: `Placement` (which job is leased to which worker), `Expiry` (what the sweep does to each lease), `Renewal` (what a
heartbeat is good for), `Admission` (what becomes of a request), `Outcomes` (reports and cancellations) and `Hosting`
(previews and pruning). The methods that schedule, sweep, renew and submit repeat their conclusions.

A *run* (`Steps.Run`) starts from the empty store and takes any enabled steps in any order; times are arguments
and may go back and forth unless a statement requires `Progress.Monotone`.

## What is proved

* **Planner.** `Validate` returns the lexicographically smallest topological order, whatever order the job map is
  ranged over in; it fails exactly if a schema rule is broken or some jobs all wait for each other, and from such
  jobs a cycle can be extracted.
* **Coherence** of the three tables in every reachable state, also after pruning: references in both directions,
  statuses of attempts, jobs and pipelines, plans, and needs.
* **Evolution.** Ended records never change, lost identifiers never return, work only moves towards its end; a job
  changes at most three times per attempt it is allowed.
* **Expiry.** Field by field, a lease that is over goes back and its job waits again, unless it is given up, which fails
  its pipeline. A lease that is kept alive in time ends only with a report or with its pipeline. The sweep decides the same for every order of its map. The one outcome that does depend on the order,
  the number of leases counted as expired, is characterised exactly.
* **Scheduling.** A round leases something exactly if some job could run, and then the job that goes first to the first
  worker that suits it and has room, for which trust must be equal; exactly one grant fits a state; waiting tenants are passed over at most once by any other; tenants
  that keep waiting are served equally often, give or take one; limits hold in every reachable state.
* **Progress and termination.** Every unfinished pipeline has a job that is executing or can be; needs succeed before
  the attempts that need them are created. Grants, first renewals and completions of a pipeline are bounded together,
  by three times the attempts its jobs are allowed, and until that is used up some step uses more of it.
* **Requests and pull requests.** The whole decision on a request, which joins a pipeline exactly if one agrees with it
  and it does not ask to run again. Idempotency of requests, generations that never repeat, clocks that never turn
  back, the fence a close puts up, and independence of the delivery order.
* **Previews.** When one comes up, with what in it, when it is restored, and when it goes. One incarnation per pipeline, and observations that cannot be about another one.
* **Counters.** Nothing admitted is ever lost count of.
* **Worker.** A claim starts the first leases that are new to the process, as many as there are places. No process starts the same attempt twice, however polls, executions and store steps interleave.

## Assumptions

None is built into the model. Most statements hold of every run; the others name the kind of run they are about, so
that each assumption is a hypothesis of exactly the statements that use it.

* Identifiers and tokens come from a supply of fresh ones (`Steps.Enabled`); the digest of a configuration and the
  hash of a request are injective, so the model keeps the configuration and the request themselves.
* Tenants have names (`Steps.NamedRun`): the turns of the scheduler.
* A worker that registers again advertises the same capacity and resources (`Steps.SteadyRun`): the limits.
* A repository always comes with one spelling (`Steps.SpelledRun`): that newer events end all older pipelines of their
  pull request. The preview key ignores case, the comparison that supersedes older pipelines does not.
  `Supersession.SupersessionReaches` says exactly when an event reaches every pipeline of its pull request, and
  `Supersession.SpellingSplits` is a pair of submissions after which it does not.
* Besides, at most one job of a pipeline asks for a preview (`Steps.OrderlyRun`): the lives of previews.
* The controller reports a preview as deleted only if it was asked to delete it (`Steps.HonestRun`): what a preview
  seen as deleted tells.
* The clock never turns back (`Progress.Monotone`): where a statement compares times, and the lives of previews.
  `SecondLife.MayLiveTwice` is a run that meets every other assumption and in which a preview that was deleted comes to
  life again once the clock has turned back.
* The configuration of the store is fixed over a run.

## Where the code decides otherwise than one might expect

* The count returned by the expiry sweep, and with it `LeasesExpired`, may depend on the order in which Go happens
  to range over the attempts: an expired attempt that is cancelled by fail-fast before its turn is not counted.
  `Confluence.ExpiryCountIsConfluent` gives the condition under which it does not: no pipeline holds both an
  expired attempt that condemns it and one that could have been retried. `LapsedLeases.CountMayDiffer` is a run that
  ends in such a state: two independent jobs with attempt limits 1 and 3 are leased at time 0 and both leases lapse;
  one order then counts one expired lease, the other order two.
* The second scan for a pipeline of the same revision in `Submit`, after the clock advanced, can never find one
  (`Soundness.SecondScanIsIdle`); the branch it guards is shown to be dead.
* The branch of the completion that refuses an attempt whose job was cancelled is dead too: such an attempt is no
  longer active. `Leases.FinishIsAtomic` states the consequence.

## Model

| member | source | states |
|---|---|---|
| Planner.Validate | internal/planner/planner.go:17-87 | success returns the configuration's plan, the lexicographically smallest topological order; failure means there is no plan and names a defect the configuration has, a cycle only if the schema holds and some jobs all wait for each other |
| Planner.CheckFields | internal/planner/planner.go:25-40 | finds a defective name, priority or resource demand exactly if there is one, and otherwise lists every name once |
| Planner.CountNeeds | internal/planner/planner.go:42-58 | in-degrees are the numbers of needs and the dependents lists invert the needs relation, or a broken dependency is named |
| Planner.CountOne | internal/planner/planner.go:43-57 | one job's needs are counted and entered, or one of them is a self, unknown or repeated dependency |
| Planner.Drain | internal/planner/planner.go:60-81 | emits at each point the least name whose needs are all emitted, until none is left |
| Planner.Release | internal/planner/planner.go:70-80 | after a name is emitted, in-degree is again the number of needs not yet emitted and the ready list holds exactly the ready names, sorted |
| Planner.GreedyIsSmallest | internal/planner/planner.go:60-81 | always emitting the least ready name gives the lexicographically smallest topological order |
| Planner.SmallestIsUnique | internal/planner/planner.go:16-17 | there is only one such order, so the result does not depend on map order |
| Planner.PlanExists | internal/planner/planner.go:42-86 | a plan exists exactly if the schema holds and no needs form a cycle, equally if no set of jobs all wait for each other |
| Planner.PlannableExactlyIf | internal/planner/planner.go:17-58 | rule by rule: version 1, some jobs, each with a name, a priority from -10 to 10 and no negative demand, needing other jobs of the configuration, each once, and no cycle |
| Ordering.LessIsLexicographic | internal/control/store.go:281 | names are sorted as strings: a proper beginning first, otherwise by the first difference |
| Planner.TrapHoldsCycle | internal/planner/planner.go:83-85 | from any set of jobs that all wait for each other a real cycle can be extracted |
| Planner.CycleIsTrap | internal/planner/planner.go:83-85 | the jobs of a cycle all wait for each other |
| Planner.TrapExcludesOrder | internal/planner/planner.go:83-85 | such a set leaves no topological order |
| Coherence.PipelineSumsUpJobs | internal/control/store.go:613-677 | a pipeline is SUCCEEDED iff all its jobs are, FAILED iff some job is (then exactly one), and over iff all its jobs are over |
| Coherence.AttemptsMirrorJob | internal/control/store.go:311-328 | every attempt but the last is LOST; the last mirrors its job; a QUEUED job has only LOST attempts |
| Coherence.ActiveIsLast | internal/control/store.go:311-328 | an active attempt is the last of its job, which has the same status in a RUNNING pipeline |
| Coherence.OneActiveAttempt | internal/control/store.go:311-328 | a job has at most one active attempt |
| Coherence.CancelPipelinesKeeps | internal/control/store.go:651-668 | cancelling keeps the tables coherent |
| Coherence.CompleteKeeps | internal/control/store.go:386-423 | completing an attempt, with fail-fast, keeps the tables coherent |
| Coherence.SweepKeeps | internal/control/store.go:584-611 | the expiry sweep keeps the tables coherent in any order |
| Coherence.LeaseKeeps | internal/control/store.go:311-324 | granting a lease keeps the tables coherent |
| Coherence.RenewKeeps | internal/control/store.go:356-377 | renewing a lease keeps the tables coherent |
| Coherence.CreateKeeps | internal/control/store.go:196-213 | admitting a planned pipeline keeps the tables coherent |
| Coherence.DropKeeps | internal/control/workflow.go:320-342 | pruning leaves nothing dangling |
| Steps.StepKeepsCoherent | internal/control/store.go:266-461 | every step keeps references, plans, statuses and needs coherent |
| Steps.CoherentThroughout | internal/api/server.go:251-345 | the tables are coherent in every state of every run |
| Steps.OnlySubmissionsAsk | internal/control/workflow.go:56-137 | no step but a submission touches requests, clocks or the admission counter, or adds a pipeline or job |
| Evolution.StepEvolves | internal/control/store.go:266-461 | in every step ended records stay as they are, records keep their identity, identifiers that are gone stay gone, and a job that changes loses rank |
| Evolution.RunEvolves | internal/control/store.go:266-461 | the same over any stretch of a run |
| Evolution.UnfinishedHasRank | internal/control/store.go:593-606 | the rank is never negative and zero exactly for ended jobs |
| Leases.FinishIsAtomic | internal/control/workflow.go:205-233 | a result is committed with its metadata and its transition, or nothing changes; the completion inside never refuses what Finish let through |
| Outcomes.ReportIsCommitted | internal/control/workflow.go:205-233 | under a held lease every part of a report is taken over; with the last success the pipeline is SUCCEEDED, with a failure it is FAILED and all that is pending is CANCELLED, and otherwise it runs on |
| Outcomes.ReportIsRefused | internal/control/workflow.go:205-229 | any other report changes nothing; it gets the record if it says what the attempt ended with, is a conflict if it says anything else of an ended attempt, and is stale otherwise |
| Outcomes.CancelStops | internal/control/store.go:426-438 | cancelling a job that is not over cancels its pipeline, every pending job and every attempt under way, and asks for the deletion of the preview; otherwise nothing changes |
| Leases.EndedIsFenced | internal/control/store.go:356-423 | an ended attempt keeps its record until pruned; heartbeats are stale, completions change nothing, and only a replay of its own result succeeds |
| Leases.ReplayReturnsTheSame | internal/control/workflow.go:215-225 | a committed result reported again at any later unpruned time gets the same record |
| Leases.RetryFencesOff | internal/control/store.go:311-318 | once a later attempt exists, an earlier one can never heartbeat or commit |
| Leases.OneResult | internal/control/store.go:410-420 | at most one attempt of a job is SUCCEEDED or FAILED |
| Leases.JobsComeToAnEnd | internal/control/store.go:593-606 | in any run a job changes at most three times per allowed attempt and is attempted at most as often as allowed |
| Confluence.SweepDecides | internal/control/store.go:584-649 | for every order: a pipeline fails iff an active attempt of it was expired and timed out or at its limit, with exactly one job FAILED; exactly the surviving attempts stay active, none expired; failed and cancelled counts follow |
| Confluence.SweepIsConfluent | internal/control/store.go:584-649 | two orders differ at most in labels inside pipelines that fail |
| Confluence.ExpiryCountIsConfluent | internal/control/store.go:584-611 | the count of expired leases is the same for all orders iff no pipeline holds both a condemning and a retryable expired attempt |
| LapsedLeases.CountDependsOnOrder | internal/control/store.go:584-611 | whenever one pipeline of two independent jobs with attempt limits 1 and 3 is submitted, both jobs are leased and both leases lapse, the run is in a state where one order of the sweep counts one expired lease and the other counts two |
| LapsedLeases.CountMayDiffer | internal/control/store.go:584-611 | there is such a run from the empty store, so the condition above does fail |
| Confluence.SweepSweeps | internal/control/store.go:584-611 | after any prefix of any order the tables are what the set of attempts looked at determines |
| Expiry.SweepByTheFields | internal/control/store.go:584-611 | in terms of lease end, age, timeout (900 s by default), attempt number and limit (3 by default): exactly the pipelines with a lease that is given up fail, every other lease that is over is LOST with its job QUEUED, all else stays, jobs are counted failed and cancelled accordingly, and the sweep reports as many leases as it took back |
| Expiry.LapsedIsRetried | internal/control/store.go:593-606 | a lease that is over in a pipeline that does not fail leaves its attempt LOST and its job QUEUED |
| Expiry.HeldIsKept | internal/control/store.go:588-590 | a lease that is not over stays as it is unless its pipeline fails |
| Expiry.FailingFails | internal/control/store.go:597-633 | in a pipeline that fails one attempt that was given up is FAILED with its job, every other unfinished job is CANCELLED, and every other lease ends |
| Renewal.BeatRenews | internal/control/store.go:366-377 | an accepted heartbeat, of a LEASED or a RUNNING attempt, leaves it RUNNING with its job and its lease ending one term from now, and changes nothing else |
| Renewal.BeatIsRefused | internal/control/store.go:356-369 | without the token, after the lease or the timeout, or once the attempt ended, a heartbeat changes nothing and is stale, or finds no attempt |
| Renewal.RenewedLasts | internal/control/store.go:366-377 | until that term or the timeout is over, the next heartbeat and a report are accepted, and no sweep takes the lease unless its pipeline fails by another |
| Renewal.LeaseEndsOnlySo | internal/control/store.go:356-377 | in any step, a lease that is not over ends only by a report of its own attempt or with its pipeline |
| Renewal.KeptAliveStaysUnderWay | internal/control/store.go:356-377 | over any stretch of a run in which every step finds the lease in force, an attempt that is not reported stays under way unless its pipeline ends |
| Fairness.GrantIsUnique | internal/control/store.go:272-331 | at most one choice of job and worker fits a state, so map order does not matter |
| Fairness.GrantExists | internal/control/store.go:272-331 | a grant is made exactly if some job can be placed |
| Placement.ScheduleGrants | internal/control/store.go:267-331 | after its sweep a round leases something exactly if some job could run; then it is the job that goes first, by turn of tenants, priority, age and admission, to the worker of least identifier that was heard of in time, is trusted exactly if the job is, has its capabilities and has room; nothing else changes |
| Placement.LeaseMatches | internal/control/store.go:529-551 | an attempt is only leased to a worker whose trust equals the job's, with every capability it lists, and heard of within the term |
| Placement.RoomIsUsed | internal/control/store.go:294-331 | if a job waits within its tenant's quota and a worker that suits it has room, the round leases something |
| Fairness.BoundedBypass | internal/control/store.go:276-331 | while a tenant waits unserved, each round serves a tenant strictly inside the cyclic interval from the last one served to the waiting one, and none twice |
| Fairness.NotTwice | internal/control/store.go:276-331 | between two rounds that serve one tenant, a tenant that waits throughout is served |
| Fairness.TurnsAreFair | internal/control/store.go:276-331 | tenants that wait in every round of a stretch are served equally often, give or take one |
| Fairness.TurnAdvances | internal/control/store.go:281-290 | the turn order is cyclic: what comes before a tenant seen from an earlier one still does so further along |
| Capacity.LimitsHoldThroughout | internal/control/store.go:294-310 | in every reachable state: active jobs, CPU and memory per tenant, active attempts and resources per worker, and the queue stay within their limits |
| Placement.WorkersAreNotOverrun | internal/control/store.go:529-543 | however a worker's attempts are listed, in every reachable state they are no more than its places and their summed demand fits what it advertised |
| Placement.TenantsStayInQuota | internal/control/store.go:294-306 | however a tenant's jobs and attempts are listed, they are no more than its own or the default number and their summed demand fits the shares |
| Capacity.ActiveCountsAgree | internal/control/store.go:567-575 | a tenant has as many active jobs as active attempts |
| Capacity.StepStaysWithin | internal/control/store.go:522-575 | every step keeps the limits |
| Capacity.TotalInsert | internal/control/workflow.go:299-312 | the sum over a set of attempts does not depend on the order it is taken in |
| Capacity.AcceptRespectsQueue | internal/control/workflow.go:81-83 | admission never takes the queue over its limit |
| Progress.NeverStuck | internal/control/store.go:504-520 | every unfinished pipeline has a job that is active, or queued with all needs succeeded |
| Progress.NeverStuckThroughout | internal/control/store.go:504-520 | the same in every state of every run |
| Progress.NeedsSucceedFirst | internal/control/store.go:481-520 | under a clock that never turns back, each need of an attempted job succeeded no later than the attempt was created |
| Termination.PipelinesComeToAnEnd | internal/control/store.go:593-606 | in any run, grants, first renewals and completions of a pipeline are together at most its work left, itself at most three times the attempts its jobs are allowed; once so many were taken the pipeline is over |
| Termination.ActsMove | internal/control/store.go:311-324 | every grant, first renewal and completion changes a job of its pipeline |
| Termination.WorkIsBounded | internal/control/store.go:613-649 | a pipeline has work left exactly until it is over |
| Termination.ExpiryMoves | internal/control/store.go:584-611 | a lease that ran out is taken back by the next sweep, in any order, and that too uses up work |
| Termination.WorkCanGoOn | internal/control/store.go:504-520 | in every state of a run an unfinished pipeline has a job that uses up work: at any time either every result under its lease or every reconciliation does, or a grant does |
| Counters.NothingIsLost | internal/control/store.go:201-207 | admitted jobs are the completed, failed, cancelled and unfinished ones, in every reachable state |
| Counters.StepConserves | internal/control/store.go:613-677 | every step keeps that balance, through fail-fast, supersession, expiry and pruning |
| Counters.NumberedThroughout | internal/control/store.go:201-207 | jobs carry distinct admission numbers |
| Requests.RefusedOrReplayed | internal/control/workflow.go:44-83 | a submission errs exactly if malformed, in conflict or over capacity, and then leaves no trace; a replay only counts itself |
| Admission.SubmitAnswers | internal/control/workflow.go:44-138 | the whole decision: invalid, in conflict, recalled, too late, over capacity, joined, closed, or given a pipeline of its own, in terms of the request, the clock and the tables |
| Admission.JoinsOrCreates | internal/control/workflow.go:87-98 | a new open request is served by a pipeline that is there exactly if one agrees in tenant, repositories, pull request, commit, configuration and generation, it does not ask to run again and its pull request is not closed; otherwise it gets a pipeline of its own |
| Admission.NotNew | internal/control/workflow.go:56-83 | a refused request does nothing, one that was seen is counted, one that is too late is remembered as resolved to nothing |
| Admission.Joined | internal/control/workflow.go:88-98 | joining changes what the request resolves to and the time of the clock, nothing else |
| Admission.Closed | internal/control/workflow.go:100-122 | an accepted close advances and closes the clock, cancels all that is unfinished of the pull request and asks for its preview's deletion |
| Admission.Created | internal/control/workflow.go:100-137 | an accepted open request does the same and starts a pipeline at the new generation, one QUEUED job per planned name, numbered on |
| Requests.WrittenOnceThroughout | internal/control/workflow.go:61-67 | what a request resolved to, and its body, are written once |
| Requests.ReplayResolves | internal/control/workflow.go:56-67 | the same body at any later time resolves to the same pipeline as a duplicate; another body is a conflict |
| Requests.OnePipelinePerRequest | internal/control/workflow.go:117-137 | no request creates two pipelines in a run |
| Requests.ResolvingThroughout | internal/control/workflow.go:88-98 | a request resolves to a pipeline of its own tenant, repository, commit and configuration, or to one that was pruned, or to none |
| Clocks.StepStaysTimed | internal/control/workflow.go:100-116 | every step keeps generations, clocks and previews in step |
| Clocks.TimedThroughout | internal/control/store.go:679-721 | in every reachable state, however repositories are spelled, an ACTIVE preview belongs to an open pull request, carries its generation, and its owner is retained and SUCCEEDED at that generation |
| Clocks.AdvanceMakesRoom | internal/control/workflow.go:100-116 | after an accepted event every pipeline of the pull request is behind the new generation |
| Fence.ClocksNeverTurnBack | internal/control/workflow.go:68-80 | clocks only advance, a close winning at equal times |
| Fence.CloseCloses | internal/control/workflow.go:100-105 | an accepted close closes the pull request at its event time |
| Fence.CloseFence | internal/control/workflow.go:72-122 | after an accepted close, until a later open event is accepted, no pipeline is created and no preview is wanted ACTIVE for the pull request |
| Fence.GenerationsNeverRepeat | internal/control/workflow.go:100-105 | in any run two pipelines of one pull request never carry the same generation, even if one is pruned first |
| Fence.LaterGeneration | internal/control/workflow.go:130-135 | a pipeline created later carries a generation above the earlier clock |
| Supersession.SettledThroughout | internal/control/workflow.go:106-110 | where repositories keep their spelling, every unfinished pipeline is of its clock's generation |
| Supersession.OneUnfinished | internal/control/workflow.go:106-110 | then at most one pipeline of a pull request is unfinished |
| Supersession.SupersessionReaches | internal/control/workflow.go:106-110 | an event ends all pipelines of its pull request iff the unfinished ones spell the repository as it does |
| Supersession.SpellingSplits | internal/control/store.go:777-779 | a pull request opened and closed under two spellings is closed while its pipeline waits to run |
| Convergence.ClockIsLatest | internal/control/workflow.go:68-116 | after any run a clock holds the maximum of the events heard, latest time first and close winning ties, with that event's commit |
| Convergence.DeliveryOrderIsFree | internal/control/workflow.go:68-116 | runs that hear the same events end with the same clock, and the same commit if times differ |
| Convergence.PermutedDeliveries | internal/control/workflow.go:68-116 | any two orders of delivery leave the same clock |
| Convergence.NewEventIsHeard | internal/control/workflow.go:56-83 | a fresh, well-formed request not refused for capacity is heard |
| Soundness.SecondScanIsIdle | internal/control/workflow.go:123-129 | the scan for the same revision after the clock advanced never matches |
| Soundness.StepKeepsSound | internal/control/workflow.go:100-135 | every step keeps what the store's methods rely on, without assumptions about the surroundings |
| Incarnations.StepIsProper | internal/control/store.go:441-461 | in every step previews appear only by activation into a vacant place, change only towards deletion, and go only after deletion was wanted or their time was up |
| Hosting.ActivationHosts | internal/control/store.go:679-721 | if the pull request is open at the pipeline's generation and no deletion is under way, the preview becomes what the last job that asks wants, with every default filled in; otherwise nothing changes |
| Hosting.BuiltImageIsBuilt | internal/control/store.go:708-718 | the image is that of the last job that published one, its repository before any '@' pinned to the digest of its last attempt |
| Hosting.ReportHosts | internal/control/store.go:634-645 | the preview comes up with the last success the pipeline needed, and no other report touches previews |
| Hosting.EnsureRestores | internal/control/workflow.go:271-288 | in any order: no preview that is there is touched, each new one is for a pipeline that is due, and no pipeline that is due goes without |
| Hosting.ReconcileAges | internal/control/store.go:441-461 | previews whose time is up are to be deleted at a generation of their own, those observed as deleted go, all others stay; both counters follow |
| Hosting.ReconcilePrunes | internal/control/workflow.go:320-342 | exactly the pipelines that are over, as old as retention and own no preview that is left go, with their jobs and attempts |
| Hosting.ObservationIsRecorded | internal/control/workflow.go:174-188 | status, address and error of the current preview are recorded; any other observation is refused |
| Incarnations.CompletionFindsVacancy | internal/control/store.go:683-690 | a pipeline that completes finds no preview of its pull request in the place it may take |
| Incarnations.OneIncarnation | internal/control/store.go:679-721 | a pipeline that owns the preview at two moments owned it all the time between |
| Incarnations.ObservationIsCurrent | internal/control/workflow.go:174-188 | an observation accepted by generation, owner and wish is about the preview it was made of, unchanged in all three since |
| Incarnations.OnlyDeletedOnRequest | internal/kube/preview.go:20-32 | if deletions are only reported on request, only a preview that is to be deleted is ever observed as deleted, even if the clock turns back |
| Incarnations.StepReports | internal/control/workflow.go:174-188 | then in every step a preview seen as deleted was so before or was to be deleted, and one that was to be deleted still is |
| SecondLife.LivesAgain | internal/control/workflow.go:271-288 | whenever a pull request's pipeline gets a preview for a minute, the preview is deleted and gone, and the clock then turns back, the pipeline is given the same preview again and an observation of the first is accepted of the second |
| SecondLife.MayLiveTwice | internal/control/workflow.go:271-288 | there is such a run from the empty store, which meets all assumptions but a clock that never turns back |
| Incarnations.MortalThroughout | internal/control/workflow.go:271-288 | a wanted preview outlives its pipeline's window and one to be deleted can never be activated again |
| Control.Store.constructor | internal/control/store.go:73-112 | an empty store with the safe defaults |
| Control.Store.Submit | internal/control/workflow.go:44-138 | the submission transition and its answer, for every kind of request; a new open one joins a pipeline exactly if it may and one agrees |
| Control.Store.CreatePipeline | internal/control/store.go:196-213 | one QUEUED job per planned name, numbered in plan order |
| Control.Store.ScheduleOne | internal/control/store.go:267-331 | a sweep, then the one grant that fits, or none if no job can be placed; read off the fields, a lease exactly if some job could run, of the job that goes first to a worker that suits it |
| Control.Store.ChooseGrant | internal/control/store.go:272-330 | the next tenant in turn that can be served, its first job that can be placed, the first worker that takes it |
| Control.Store.RunnableJobs | internal/control/store.go:481-502 | per tenant exactly the runnable jobs, first those that go first |
| Control.Store.DependenciesSucceeded | internal/control/store.go:504-520 | true iff every need of the job has succeeded in its pipeline |
| Control.Store.SelectWorker | internal/control/store.go:522-555 | the first eligible worker by identifier, none iff none suits the job and has room |
| Control.Store.ActiveForTenant | internal/control/store.go:567-575 | the number of a tenant's active jobs |
| Control.Store.ActiveForWorker | internal/control/store.go:557-565 | the number of a worker's active attempts |
| Control.Store.UsedResources | internal/control/workflow.go:299-312 | the summed demand of the active attempts of a tenant, a worker, or all |
| Control.Store.QueuedCount | internal/control/workflow.go:290-298 | the number of unfinished jobs |
| Control.Store.AssignedLeases | internal/control/store.go:334-353 | exactly a worker's active attempts with job and pipeline, oldest first |
| Control.Store.HeartbeatAttempt | internal/control/store.go:356-377 | renews a lease that is held, and only such a one: it then ends one term from now |
| Control.Store.CompleteAttempt | internal/control/store.go:386-423 | commits a result under a held lease, repeats an outcome already there, refuses the rest, and counts a refusal as stale unless the attempt is unknown or only past its timeout |
| Control.Store.Finish | internal/control/workflow.go:205-233 | the finish transition and its answer |
| Control.Store.CancelJob | internal/control/store.go:426-438 | cancels the job's whole pipeline unless the job is over |
| Control.Store.CancelPipeline | internal/control/store.go:651-677 | cancels a pipeline, its unfinished jobs and their attempts, and buries its preview |
| Control.Store.UpdatePipeline | internal/control/store.go:613-649 | fails fast, completes and activates, or keeps running |
| Control.Store.ActivatePreview | internal/control/store.go:679-721 | activates a preview if clock and tombstone allow it |
| Control.Store.PublishedImage | internal/control/store.go:708-718 | the image of the last build that published a digest |
| Control.Store.ReconcileExpired | internal/control/store.go:584-611 | the sweep in the order the map was ranged over in: leases that are over go back or fail their pipelines |
| Control.Store.Reconcile | internal/control/store.go:441-461 | sweep, ageing of previews and pruning, with both counts |
| Control.Store.Prune | internal/control/workflow.go:320-342 | drops exactly the finished, old, unowned pipelines with their jobs and attempts |
| Control.Store.EnsurePreviews | internal/control/workflow.go:271-288 | previews that are lacking, in the order the map was ranged over in |
| Control.Store.ObservePreview | internal/control/workflow.go:174-188 | records an observation of the current preview, refuses others |
| Control.Store.RegisterWorker | internal/control/store.go:226-241 | creates or refreshes a worker, refuses one without identity, pool or capacity |
| Control.Store.HeartbeatWorker | internal/control/store.go:244-253 | refreshes a known worker |
| Control.Store.RecordCheck | internal/control/workflow.go:235-245 | records a check run of a known pipeline |
| WorkerProcess.Process.Claim | cmd/worker/main.go:200-221 | forgets leases that are gone and are not executed, then starts exactly the first leases that are new, as many as there are places |
| WorkerProcess.Process.Release | cmd/worker/main.go:225 | an ended execution frees its place |
| WorkerProcess.StartsOnce | cmd/worker/main.go:213-219 | what is started was offered and not remembered, each once, within capacity |
| WorkerProcess.ClaimFillsUp | cmd/worker/main.go:200-221 | a claim starts the first leases that are new, in the order offered, as many as there are places; afterwards every offered lease is remembered or executed, or all places are taken |
| WorkerProcess.DoneFreesAPlace | cmd/worker/main.go:225 | an execution that ends frees its place and nothing else, and the next claim fills it if a new lease is offered |
| WorkerProcess.PollMayBeFetched | cmd/worker/main.go:186-190 | what the store answers a poll with is what the composed system may fetch |
| WorkerProcess.AtMostOncePerProcess | cmd/worker/main.go:198-221 | however store steps, polls and executions interleave, no attempt is started twice, what is executed is remembered, and capacity holds |

## Left out

- `CreatePipeline`, `CreatePipelineForDelivery`, `MarkPreviewDeletingForDelivery` and `SetTenantLimit` as entry points: they bypass the pull-request clock or change the configuration in the middle of a run; per-tenant limits are part of the configuration instead.
- Snapshots, encryption and the database transaction around each call: steps are taken to be serialised and atomic. A call that answers an error changes nothing but a counter in the first place, except that `ScheduleOne` has swept up expired leases when it answers that there is no work.
- HTTP routing, authentication, webhook parsing, the GitHub App, object storage and the command line.
- The Kubernetes client and what the controller does outside the store; only its promise about deletions is used.
- YAML parsing and the executable bounds of a configuration; the one-preview rule is an assumption of the statements that need it.
- Queue reasons, namespaces of previews, and the bounded, sorted listings for display.
- Records are values in the store's maps; that Go hands out copies of them, never the stored records, is not modelled.
- The worker's execution of a job, its retries of calls and its archives; an execution is an interval between a claim and a release.
- Lower: lower-cases ASCII letters only, where Go folds Unicode.
- JobTimeout: seconds are unbounded integers, so an overflowing duration is not modelled; the same holds for preview lifetimes and counters.
- Fence.CloseFence: says what holds until a later open event is accepted, not that one will be.
- Incarnations.OneIncarnation: needs a clock that never turns back; `SecondLife.MayLiveTwice` shows that a lifetime that ended can otherwise begin again.
- Termination.PipelinesComeToAnEnd: renewals after the first only move the end of a lease and are not counted; they stop at the job's timeout.
