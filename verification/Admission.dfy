// What becomes of a submission, read off the request, the clock of its pull request and the tables.

module Admission {
  import opened Domain
  import opened Ordering
  import opened TableModel
  import opened Model
  import opened Coherence
  import opened Steps
  import Planner

  // ---- The circumstances ----

  // When the event happened: at its arrival unless it says otherwise.
  function When(input: Submission, now: Time): Time {
    if input.eventTime == 0 then now else input.eventTime
  }

  // The clock of the pull request, if it has one; repositories are told apart by their lower-case names.
  function ClockOf(s: State, input: Submission): Option<PRState> {
    var key := PRKey(Lower(input.repo), input.pr);
    if key in s.prStates then Some(s.prStates[key]) else None
  }

  function GenerationNow(s: State, input: Submission): int {
    match ClockOf(s, input)
    case Some(clock) => clock.generation
    case None => 0
  }

  predicate ClosedNow(s: State, input: Submission) {
    ClockOf(s, input).Some? && ClockOf(s, input).value.closed
  }

  // The request has a name of at most 200 bytes and, unless it is a close, a configuration with a plan.
  ghost predicate InOrder(input: Submission) {
    && input.requestID != "" && ByteLength(input.requestID) <= 200
    && (input.closed || Planner.Plan(input.spec).Some?)
  }

  // An event of a pull request that is older than its clock; at the same time only a close counts, and only of a
  // pull request that is open.
  predicate Belated(s: State, input: Submission, now: Time) {
    && input.pr > 0 && ClockOf(s, input).Some?
    && var clock := ClockOf(s, input).value;
    || When(input, now) < clock.updatedAt
    || (When(input, now) == clock.updatedAt && !(input.closed && !clock.closed))
  }

  // With its jobs the queue would be longer than it may be.
  ghost predicate Crowded(s: State, input: Submission) {
    && !input.closed
    && |set j | j in s.tables.jobs && !IsTerminal(s.tables.jobs[j].status)| + |input.spec.jobs| > s.config.maxQueuedJobs
  }

  // A pipeline that runs just this: same tenant, repositories, pull request, commit and configuration, at the
  // generation the clock stands at.
  ghost predicate Agrees(s: State, input: Submission, q: Id) {
    && q in s.tables.pipelines
    && var pipeline := s.tables.pipelines[q];
    && pipeline.tenant == input.tenant && pipeline.repo == input.repo && pipeline.sourceRepo == input.sourceRepo
    && pipeline.pr == input.pr && pipeline.commit == input.commit && pipeline.config == input.spec
    && pipeline.generation == GenerationNow(s, input)
  }

  // The request can be served by a pipeline that is already there.
  ghost predicate Joins(s: State, input: Submission) {
    !input.closed && !input.rerun && !ClosedNow(s, input) && exists q :: Agrees(s, input, q)
  }

  // The request is in order, unheard of, in time, and there is room for it.
  ghost predicate New(s: State, input: Submission, now: Time) {
    && InOrder(input) && input.requestID !in s.inbox.deliveries
    && !Belated(s, input, now) && !Crowded(s, input)
  }

  // Names of repositories are compared without regard to the case of ASCII letters.
  lemma {:induction false} LowerReads(repo: string)
    ensures |Lower(repo)| == |repo|
    ensures forall i :: 0 <= i < |repo| ==>
      Lower(repo)[i] == if 'A' <= repo[i] <= 'Z' then (repo[i] as int + 32) as char else repo[i]
  {
    if repo != "" {
      LowerReads(repo[1..]);
    }
  }

  // The bits of a code point that n bytes of UTF-8 hold, as a bound (section 3 of RFC 3629).
  function Utf8Bound(n: nat): int {
    if n == 0 then 0 else if n == 1 then 128 else if n == 2 then 2048 else if n == 3 then 65536 else 0x11_0000
  }

  // A request's name is measured in bytes: each character takes the least number that holds it.
  lemma ByteLengthReads(text: string)
    ensures text == "" ==> ByteLength(text) == 0
    ensures text != "" ==>
      exists n: nat ::
        && 1 <= n <= 4 && Utf8Bound(n - 1) <= (text[0] as int) < Utf8Bound(n)
        && ByteLength(text) == n + ByteLength(text[1..])
  {
    if text != "" {
      var n := ByteWidth(text[0]);
      assert Utf8Bound(n - 1) <= (text[0] as int) < Utf8Bound(n);
      assert ByteLength(text) == n + ByteLength(text[1..]);
    }
  }

  // ---- The same in the terms of the transition ----

  lemma PlanSize(spec: PipelineSpec)
    requires Planner.Plan(spec).Some?
    ensures |Planner.Plan(spec).value| == |spec.jobs|
  {
    EnumerationSize(Planner.Plan(spec).value, spec.jobs.Keys);
  }

  lemma Circumstances(s: State, input: Submission, now: Time)
    ensures InOrder(input) <==> WellFormed(input)
    ensures Belated(s, input, now) <==> Late(s, input, now)
    ensures InOrder(input) ==> (Crowded(s, input) <==> Overflows(s, input))
    ensures Joins(s, input) <==> Repeats(s, input)
    ensures forall q :: Agrees(s, input, q) <==> SameRevision(s.tables, input, Prior(s, input).generation, q)
  {
    if InOrder(input) && !input.closed {
      PlanSize(input.spec);
    }
    assert Unfinished(s.tables) == set j | j in s.tables.jobs && !IsTerminal(s.tables.jobs[j].status);
    assert Prior(s, input).generation == GenerationNow(s, input);
    forall q ensures Agrees(s, input, q) <==> SameRevision(s.tables, input, Prior(s, input).generation, q) {
    }
    if Joins(s, input) {
      var q :| Agrees(s, input, q);
      assert SameRevision(s.tables, input, Prior(s, input).generation, q);
    }
    if Repeats(s, input) {
      var q :| SameRevision(s.tables, input, Prior(s, input).generation, q);
      assert Agrees(s, input, q);
    }
  }

  // ---- What a submission is answered ----

  // The whole decision: what is refused and why, what is recalled, what is too late to matter, what joins a
  // pipeline, and what brings a new one.
  lemma SubmitAnswers(s: State, input: Submission, p: Id, ids: seq<Id>, pick: Id, now: Time)
    requires Enabled(s, SubmitStep(input, p, ids, pick, now))
    ensures SubmitAnswer(s, input, p, pick, now) ==
      if !InOrder(input) then Rejected(Invalid)
      else if input.requestID in s.inbox.deliveries then
        if input.requestID in s.inbox.hashes && s.inbox.hashes[input.requestID] != input then Rejected(Conflict)
        else if s.inbox.deliveries[input.requestID] in s.tables.pipelines
        then Resolved(s.inbox.deliveries[input.requestID], true)
        else Resolved("", true)
      else if Belated(s, input, now) then Resolved("", true)
      else if Crowded(s, input) then Rejected(Capacity)
      else if Joins(s, input) then Resolved(pick, true)
      else if input.closed then Resolved("", false)
      else Resolved(p, false)
    ensures New(s, input, now) && Joins(s, input) ==> Agrees(s, input, pick)
  {
    Circumstances(s, input, now);
    hide WellFormed, InOrder, Late, Belated, Overflows, Crowded, Repeats, Joins, Agrees, SameRevision, FreshIds;
  }

  lemma NewIsDecided(s: State, input: Submission, now: Time)
    requires New(s, input, now)
    ensures WellFormed(input) && Classify(s, input, now) == if Joins(s, input) then Known else Fresh
  {
    Circumstances(s, input, now);
    hide WellFormed, InOrder, Late, Belated, Overflows, Crowded, Repeats, Joins, Agrees, SameRevision;
  }

  // What a request does that is not new: one that is refused does nothing, one that was seen is counted, and one that
  // is too late is remembered as resolved to nothing.
  lemma NotNew(s: State, input: Submission, p: Id, ids: seq<Id>, pick: Id, now: Time)
    requires Enabled(s, SubmitStep(input, p, ids, pick, now)) && !New(s, input, now)
    ensures var answer, s' := SubmitAnswer(s, input, p, pick, now), Apply(s, SubmitStep(input, p, ids, pick, now));
      if answer.Rejected? then s' == s
      else if input.requestID in s.inbox.deliveries
      then s' == s.(metrics := s.metrics.(webhookDuplicate := s.metrics.webhookDuplicate + 1))
      else s' == s.(inbox := Inbox(s.inbox.deliveries[input.requestID := ""], s.inbox.hashes[input.requestID := input]))
  {
    Circumstances(s, input, now);
    hide WellFormed, InOrder, Late, Belated, Overflows, Crowded, Repeats, Joins, Agrees, SameRevision, FreshIds, Accept,
         Join, Prior;
  }

  // ---- Joining ----

  // A request that joins a pipeline changes nothing but what it resolves to and, for a pull request, the time of
  // its clock.
  lemma Joined(s: State, input: Submission, p: Id, ids: seq<Id>, pick: Id, now: Time)
    requires Enabled(s, SubmitStep(input, p, ids, pick, now)) && New(s, input, now) && Joins(s, input)
    ensures var s' := Apply(s, SubmitStep(input, p, ids, pick, now));
      && Agrees(s, input, pick) && SubmitAnswer(s, input, p, pick, now) == Resolved(pick, true)
      && s' == s.(inbox := s'.inbox, prStates := s'.prStates)
      && s'.inbox == Inbox(s.inbox.deliveries[input.requestID := pick], s.inbox.hashes[input.requestID := input])
      && s'.prStates == (if input.pr <= 0 then s.prStates else s.prStates[PRKey(Lower(input.repo), input.pr) :=
           PRState(When(input, now), false, GenerationNow(s, input),
                   if ClockOf(s, input).Some? then ClockOf(s, input).value.commit else "")])
  {
    hide WellFormed, InOrder, Late, Belated, Overflows, Crowded, Repeats, Agrees, SameRevision, Classify, FreshIds,
         New, Enabled, Join;
    SubmitAnswers(s, input, p, ids, pick, now);
    NewIsDecided(s, input, now);
    JoinReads(s, input, pick, now);
    hide ClockOf, GenerationNow, SubmitAnswer, Joins;
  }

  lemma JoinReads(s: State, input: Submission, pick: Id, now: Time)
    requires !ClosedNow(s, input)
    ensures var s' := Join(s, input, pick, now);
      && s' == s.(inbox := s'.inbox, prStates := s'.prStates)
      && s'.inbox == Inbox(s.inbox.deliveries[input.requestID := pick], s.inbox.hashes[input.requestID := input])
      && s'.prStates == (if input.pr <= 0 then s.prStates else s.prStates[PRKey(Lower(input.repo), input.pr) :=
           PRState(When(input, now), false, GenerationNow(s, input),
                   if ClockOf(s, input).Some? then ClockOf(s, input).value.commit else "")])
  {
    hide Lower;
  }

  // ---- Superseding ----

  // An unfinished pipeline of the pull request the event is about.
  ghost predicate Overtaken(t: Tables, input: Submission, q: Id) {
    && input.pr > 0 && q in t.pipelines && t.pipelines[q].repo == input.repo && t.pipelines[q].pr == input.pr
    && !IsTerminal(t.pipelines[q].status)
  }

  ghost predicate OvertakenJob(t: Tables, input: Submission, j: Id) {
    j in t.jobs && !IsTerminal(t.jobs[j].status) && Overtaken(t, input, t.jobs[j].pipelineID)
  }

  // Overtaken pipelines are CANCELLED with their unfinished jobs and running attempts; all else stays.
  ghost predicate Supersedes(t: Tables, t': Tables, input: Submission, now: Time) {
    && (forall q :: q in t.pipelines ==>
          q in t'.pipelines
          && t'.pipelines[q] == if Overtaken(t, input, q) then t.pipelines[q].(status := Cancelled) else t.pipelines[q])
    && (forall j :: j in t.jobs ==>
          j in t'.jobs
          && t'.jobs[j] == if OvertakenJob(t, input, j) then t.jobs[j].(status := Cancelled) else t.jobs[j])
    && (forall a :: a in t.attempts ==>
          a in t'.attempts
          && t'.attempts[a] == if IsActive(t.attempts[a].status) && OvertakenJob(t, input, t.attempts[a].jobID)
                               then t.attempts[a].(status := Cancelled, completedAt := now) else t.attempts[a])
    && t'.attempts.Keys == t.attempts.Keys
    && t'.tally == t.tally.(cancelled := t.tally.cancelled + |set j | j in t.jobs && OvertakenJob(t, input, j)|)
  }

  lemma AdvanceSupersedes(s: State, input: Submission, now: Time)
    requires Refs(s.tables)
    ensures var t' := Advance(s, input, now).tables;
      && Supersedes(s.tables, t', input, now)
      && t'.pipelines.Keys == s.tables.pipelines.Keys && t'.jobs.Keys == s.tables.jobs.Keys
      && t'.sequence == s.tables.sequence && t'.issued == s.tables.issued
  {
    AdvanceTables(s, input, now);
    hide Advance, Refs, CancelPipelines, Supersedes;
    if input.pr > 0 {
      CancelSupersedes(s.tables, input, now);
    } else {
      NothingOvertaken(s.tables, input, now);
    }
  }

  lemma NothingOvertaken(t: Tables, input: Submission, now: Time)
    requires input.pr <= 0
    ensures Supersedes(t, t, input, now)
  {
    assert (set j | j in t.jobs && OvertakenJob(t, input, j)) == {};
  }

  lemma CancelSupersedes(t: Tables, input: Submission, now: Time)
    requires input.pr > 0
    ensures var t' := CancelPipelines(t, Superseded(t, input), now);
      && Supersedes(t, t', input, now)
      && t'.pipelines.Keys == t.pipelines.Keys && t'.jobs.Keys == t.jobs.Keys
      && t'.sequence == t.sequence && t'.issued == t.issued
  {
    var ps := Superseded(t, input);
    assert forall q :: q in ps <==> Overtaken(t, input, q);
    hide Superseded, Overtaken;
    var t1 := MarkCancelled(t, ps);
    hide CancelJobs;
    CancelJobsSupersedes(t, t1, ps, input, now);
    hide OvertakenJob;
  }

  lemma CancelJobsSupersedes(t: Tables, t1: Tables, ps: set<Id>, input: Submission, now: Time)
    requires t1.jobs == t.jobs && t1.attempts == t.attempts && t1.tally == t.tally
    requires forall q :: q in ps <==> Overtaken(t, input, q)
    ensures var t' := CancelJobs(t1, ps, now);
      && t'.pipelines == t1.pipelines && t'.sequence == t1.sequence && t'.issued == t1.issued
      && t'.jobs.Keys == t.jobs.Keys && t'.attempts.Keys == t.attempts.Keys
      && (forall j :: j in t.jobs ==>
            t'.jobs[j] == if OvertakenJob(t, input, j) then t.jobs[j].(status := Cancelled) else t.jobs[j])
      && (forall a :: a in t.attempts ==>
            t'.attempts[a] == if IsActive(t.attempts[a].status) && OvertakenJob(t, input, t.attempts[a].jobID)
                              then t.attempts[a].(status := Cancelled, completedAt := now) else t.attempts[a])
      && t'.tally == t.tally.(cancelled := t.tally.cancelled + |set j | j in t.jobs && OvertakenJob(t, input, j)|)
  {
    hide Overtaken;
    assert forall j :: Doomed(t1, ps, j) <==> OvertakenJob(t, input, j);
    hide Doomed, OvertakenJob;
    assert DoomedJobs(t1, ps) == set j | j in t.jobs && OvertakenJob(t, input, j);
    hide DoomedJobs;
  }

  // What an accepted event leaves besides the tables: the clock stands at it, one generation on, and the preview of
  // the pull request is to be deleted at that generation.
  ghost predicate ClockAdvances(s: State, s': State, input: Submission, now: Time) {
    var key := PRKey(Lower(input.repo), input.pr);
    if input.pr <= 0 then s'.prStates == s.prStates && s'.previews == s.previews
    else
      && s'.prStates == s.prStates[key := PRState(When(input, now), input.closed, GenerationNow(s, input) + 1,
                                                  input.commit)]
      && s'.previews == (if key !in s.previews then s.previews
                         else s.previews[key := s.previews[key].(desired := Deleting, updatedAt := now,
                                                                 generation := GenerationNow(s, input) + 1)])
  }

  lemma AdvanceAdvances(s: State, input: Submission, now: Time)
    ensures var s' := Advance(s, input, now);
      && ClockAdvances(s, s', input, now)
      && s' == s.(tables := s'.tables, prStates := s'.prStates, previews := s'.previews)
  {
    hide CancelPipelines, Superseded;
  }

  // ---- Accepting ----

  // A new close is answered without a pipeline: it advances the clock, closes it, and supersedes what there is.
  lemma Closed(s: State, input: Submission, p: Id, ids: seq<Id>, pick: Id, now: Time)
    requires Enabled(s, SubmitStep(input, p, ids, pick, now)) && Coherent(s.tables)
    requires New(s, input, now) && input.closed
    ensures var s' := Apply(s, SubmitStep(input, p, ids, pick, now));
      && SubmitAnswer(s, input, p, pick, now) == Resolved("", false)
      && Supersedes(s.tables, s'.tables, input, now) && ClockAdvances(s, s', input, now)
      && s'.tables.pipelines.Keys == s.tables.pipelines.Keys && s'.tables.jobs.Keys == s.tables.jobs.Keys
      && s'.inbox == Inbox(s.inbox.deliveries[input.requestID := ""], s.inbox.hashes[input.requestID := input])
      && s'.metrics == s.metrics.(webhookAccepted := s.metrics.webhookAccepted + 1)
  {
    SubmitAnswers(s, input, p, ids, pick, now);
    NewIsDecided(s, input, now);
    SubmitIsAccept(s, input, p, ids, pick, now);
    AdvanceSupersedes(s, input, now);
    AdvanceAdvances(s, input, now);
    hide WellFormed, InOrder, Late, Belated, Overflows, Crowded, Repeats, Agrees, SameRevision, Classify, FreshIds,
         New, Enabled, Coherent, Submit, SubmitAnswer, Advance, Supersedes;
  }

  // The new pipeline: one QUEUED job per planned name, in plan order, numbered on from the last one admitted.
  ghost predicate Starts(t: Tables, t': Tables, input: Submission, order: seq<string>, p: Id, ids: seq<Id>,
                         generation: int, now: Time) {
    && |ids| == |order|
    && t'.pipelines.Keys == t.pipelines.Keys + {p} && t'.jobs.Keys == t.jobs.Keys + (set j | j in ids)
    && t'.pipelines[p] == Pipeline(input.tenant, input.repo, input.commit, input.trigger, input.pr, Queued, now, ids,
                                   input.sourceRepo, input.fork, generation, input.spec, input.installation, 0, Unset)
    && (forall i :: 0 <= i < |ids| ==>
          && order[i] in input.spec.jobs
          && t'.jobs[ids[i]] == Job(p, input.tenant, order[i], input.spec.jobs[order[i]], Queued, now,
                                    t.sequence + i + 1, []))
    && t'.sequence == t.sequence + |ids|
  }

  lemma CreateStarts(t: Tables, input: Submission, order: seq<string>, p: Id, ids: seq<Id>, generation: int, now: Time)
    requires |ids| == |order| && Distinct(ids) && forall n :: n in order ==> n in input.spec.jobs
    ensures var t' := Create(t, input, order, p, ids, generation, now);
      && Starts(t, t', input, order, p, ids, generation, now) && t'.attempts == t.attempts && t'.tally == t.tally
      && (forall q :: q in t.pipelines && q != p ==> t'.pipelines[q] == t.pipelines[q])
      && (forall j :: j in t.jobs && j !in ids ==> t'.jobs[j] == t.jobs[j])
  {
    hide NewJobs, NewPipeline;
    JobsStart(t, input, order, p, ids, now);
    var t' := Create(t, input, order, p, ids, generation, now);
    var added := NewJobs(input, order, p, ids, t.sequence, now);
    assert t'.jobs == t.jobs + added && t'.attempts == t.attempts && t'.tally == t.tally;
    assert t'.pipelines == t.pipelines[p := NewPipeline(input, ids, generation, now)];
    assert t'.sequence == t.sequence + |ids|;
    hide Create;
    JobsJoin(t.jobs, added, t'.jobs, ids);
    PipelineStarts(t, t', input, p, ids, generation, now);
    hide NewJobs;
    forall i | 0 <= i < |ids| ensures t'.jobs[ids[i]] == added[ids[i]] {
      assert ids[i] in ids;
    }
  }

  lemma PipelineStarts(t: Tables, t': Tables, input: Submission, p: Id, ids: seq<Id>, generation: int, now: Time)
    requires t'.pipelines == t.pipelines[p := NewPipeline(input, ids, generation, now)]
    ensures t'.pipelines.Keys == t.pipelines.Keys + {p}
    ensures forall q :: q in t.pipelines && q != p ==> t'.pipelines[q] == t.pipelines[q]
    ensures t'.pipelines[p] == Pipeline(input.tenant, input.repo, input.commit, input.trigger, input.pr, Queued, now,
                                        ids, input.sourceRepo, input.fork, generation, input.spec, input.installation,
                                        0, Unset)
  {
  }

  lemma JobsJoin(x: map<Id, Job>, added: map<Id, Job>, y: map<Id, Job>, ids: seq<Id>)
    requires y == x + added && forall j :: j in added <==> j in ids
    ensures y.Keys == x.Keys + (set j | j in ids)
    ensures forall j :: j in ids ==> y[j] == added[j]
    ensures forall j :: j in x && j !in ids ==> y[j] == x[j]
  {
  }

  lemma JobsStart(t: Tables, input: Submission, order: seq<string>, p: Id, ids: seq<Id>, now: Time)
    requires |ids| == |order| && Distinct(ids) && forall n :: n in order ==> n in input.spec.jobs
    ensures var added := NewJobs(input, order, p, ids, t.sequence, now);
      && (forall j :: j in added <==> j in ids)
      && (forall i :: 0 <= i < |ids| ==>
            && order[i] in order && ids[i] in ids
            && added[ids[i]] == Job(p, input.tenant, order[i], input.spec.jobs[order[i]], Queued, now,
                                    t.sequence + i + 1, []))
  {
    forall i | 0 <= i < |ids| ensures order[i] in order && ids[i] in ids && IndexOf(ids, ids[i]) == i {
      var k := IndexOf(ids, ids[i]);
    }
  }

  // A new open request that joins nothing is answered with a pipeline of its own: everything older of its pull
  // request is superseded, and the pipeline starts at the generation the clock was moved to.
  lemma Created(s: State, input: Submission, p: Id, ids: seq<Id>, pick: Id, now: Time)
    requires Enabled(s, SubmitStep(input, p, ids, pick, now)) && Coherent(s.tables)
    requires New(s, input, now) && !input.closed && !Joins(s, input)
    ensures var s' := Apply(s, SubmitStep(input, p, ids, pick, now));
      && SubmitAnswer(s, input, p, pick, now) == Resolved(p, false) && p !in s.tables.pipelines
      && Planner.Plan(input.spec).Some? && Starts(s.tables, s'.tables, input, Planner.Plan(input.spec).value, p, ids,
                GenerationNow(s, input) + if input.pr > 0 then 1 else 0, now)
      && Supersedes(s.tables, s'.tables, input, now) && ClockAdvances(s, s', input, now)
      && s'.inbox == Inbox(s.inbox.deliveries[input.requestID := p], s.inbox.hashes[input.requestID := input])
      && s'.metrics == s.metrics.(webhookAccepted := s.metrics.webhookAccepted + 1)
  {
    SubmitAnswers(s, input, p, ids, pick, now);
    NewIsDecided(s, input, now);
    SubmitIsAccept(s, input, p, ids, pick, now);
    AcceptCreates(s, input, p, ids, now);
    hide WellFormed, InOrder, Late, Belated, Overflows, Crowded, Repeats, Agrees, SameRevision, Classify, FreshIds,
         New, Coherent, Submit, SubmitAnswer, Accept, Supersedes, Starts, ClockAdvances;
  }

  lemma AcceptCreates(s: State, input: Submission, p: Id, ids: seq<Id>, now: Time)
    requires IdsFor(input, ids) && FreshIds(s.tables, p, ids) && Coherent(s.tables)
    requires WellFormed(input) && !input.closed
    ensures var s' := Accept(s, input, p, ids, now);
      && p !in s.tables.pipelines && Starts(s.tables, s'.tables, input, Planner.Plan(input.spec).value, p, ids,
                GenerationNow(s, input) + if input.pr > 0 then 1 else 0, now)
      && Supersedes(s.tables, s'.tables, input, now) && ClockAdvances(s, s', input, now)
      && s'.inbox == Inbox(s.inbox.deliveries[input.requestID := p], s.inbox.hashes[input.requestID := input])
      && s'.metrics == s.metrics.(webhookAccepted := s.metrics.webhookAccepted + 1)
  {
    var order, s1 := Planner.Plan(input.spec).value, Advance(s, input, now);
    AcceptTables(s, input, p, ids, now);
    AcceptRest(s, input, p, ids, now);
    AdvanceAdvances(s, input, now);
    IdsAreNew(s.tables, p, ids);
    GenerationIs(s, input);
    TablesCreate(s, input, order, p, ids, GenerationOf(s, input), now);
    hide Advance, Coherent, FreshIds, ClockAdvances, Create, Starts, Supersedes, Accept, WellFormed, IdsFor,
         GenerationOf, GenerationNow;
    ClockAdvancesStill(s, s1, Accept(s, input, p, ids, now), input, now);
  }

  lemma GenerationIs(s: State, input: Submission)
    ensures GenerationOf(s, input) == GenerationNow(s, input) + if input.pr > 0 then 1 else 0
  {
  }

  // Accepting remembers the request and counts it, besides advancing and admitting.
  lemma AcceptRest(s: State, input: Submission, p: Id, ids: seq<Id>, now: Time)
    requires IdsFor(input, ids) && WellFormed(input) && !input.closed
    ensures var s', s1 := Accept(s, input, p, ids, now), Advance(s, input, now);
      && s'.prStates == s1.prStates && s'.previews == s1.previews
      && s'.inbox == Inbox(s.inbox.deliveries[input.requestID := p], s.inbox.hashes[input.requestID := input])
      && s'.metrics == s.metrics.(webhookAccepted := s.metrics.webhookAccepted + 1)
  {
    AdvanceAdvances(s, input, now);
    hide Advance, ClockAdvances, Create, GenerationOf, WellFormed, IdsFor;
  }

  lemma ClockAdvancesStill(s: State, s1: State, s': State, input: Submission, now: Time)
    requires ClockAdvances(s, s1, input, now) && s'.prStates == s1.prStates && s'.previews == s1.previews
    ensures ClockAdvances(s, s', input, now)
  {
  }

  lemma TablesCreate(s: State, input: Submission, order: seq<string>, p: Id, ids: seq<Id>, generation: int, now: Time)
    requires Coherent(s.tables) && FreshIds(s.tables, p, ids)
    requires |ids| == |order| && forall n :: n in order ==> n in input.spec.jobs
    ensures var t' := Create(Advance(s, input, now).tables, input, order, p, ids, generation, now);
      Starts(s.tables, t', input, order, p, ids, generation, now) && Supersedes(s.tables, t', input, now)
  {
    var t1 := Advance(s, input, now).tables;
    AdvanceSupersedes(s, input, now);
    CreateStarts(t1, input, order, p, ids, generation, now);
    IdsAreNew(s.tables, p, ids);
    hide Advance, Coherent, FreshIds, Create;
    var t' := Create(t1, input, order, p, ids, generation, now);
    StartsStill(s.tables, t1, t', input, order, p, ids, generation, now);
    SupersedesStill(s.tables, t1, t', input, p, ids, now);
  }

  lemma StartsStill(t: Tables, t1: Tables, t': Tables, input: Submission, order: seq<string>, p: Id, ids: seq<Id>,
                    generation: int, now: Time)
    requires Starts(t1, t', input, order, p, ids, generation, now) && t1.sequence == t.sequence
    requires t1.pipelines.Keys == t.pipelines.Keys && t1.jobs.Keys == t.jobs.Keys
    ensures Starts(t, t', input, order, p, ids, generation, now)
  {
  }

  lemma IdsAreNew(t: Tables, p: Id, ids: seq<Id>)
    requires Coherent(t) && FreshIds(t, p, ids)
    ensures p !in t.pipelines && forall j :: j in ids ==> j !in t.jobs
  {
  }

  lemma SupersedesStill(t: Tables, t1: Tables, t': Tables, input: Submission, p: Id, ids: seq<Id>, now: Time)
    requires Supersedes(t, t1, input, now) && t'.attempts == t1.attempts && t'.tally == t1.tally
    requires t.pipelines.Keys <= t1.pipelines.Keys <= t'.pipelines.Keys && t.jobs.Keys <= t1.jobs.Keys <= t'.jobs.Keys
    requires p !in t.pipelines && forall j :: j in ids ==> j !in t.jobs
    requires forall q :: q in t1.pipelines && q != p ==> t'.pipelines[q] == t1.pipelines[q]
    requires forall j :: j in t1.jobs && j !in ids ==> t'.jobs[j] == t1.jobs[j]
    ensures Supersedes(t, t', input, now)
  {
    hide Overtaken, OvertakenJob;
  }

  // A new open request is served by a pipeline that is there exactly if one agrees with it, unless it asks to run
  // again or finds its pull request closed; then, and whenever none agrees, it gets a pipeline of its own.
  ghost predicate JoinsOrStarts(s: State, s': State, input: Submission, p: Id, answer: Answer, now: Time) {
    New(s, input, now) && !input.closed ==>
      && answer.Resolved? && answer.pipeline in s'.tables.pipelines
      && s'.inbox.deliveries == s.inbox.deliveries[input.requestID := answer.pipeline]
      && (answer.duplicate <==> answer.pipeline in s.tables.pipelines)
      && (answer.duplicate <==> !input.rerun && !ClosedNow(s, input) && exists q :: Agrees(s, input, q))
      && (answer.duplicate ==> Agrees(s, input, answer.pipeline) && s'.tables == s.tables)
      && (!answer.duplicate ==> answer.pipeline == p)
  }

  // Every submission decides so.
  lemma JoinsOrCreates(s: State, input: Submission, p: Id, ids: seq<Id>, pick: Id, now: Time)
    requires Enabled(s, SubmitStep(input, p, ids, pick, now)) && Coherent(s.tables)
    ensures JoinsOrStarts(s, Apply(s, SubmitStep(input, p, ids, pick, now)), input, p,
                          SubmitAnswer(s, input, p, pick, now), now)
  {
    hide InOrder, Belated, Crowded, FreshIds, IdsFor, Enabled, Apply, SubmitAnswer, Coherent, New, Supersedes,
         ClockAdvances;
    if New(s, input, now) && !input.closed {
      if Joins(s, input) {
        Joined(s, input, p, ids, pick, now);
      } else {
        Created(s, input, p, ids, pick, now);
      }
    }
    hide Agrees;
  }
}
