// Supersession: a newer event ends the older pipelines of its pull request, as far as they spell the repository
// as it does.

module Supersession {
  import opened Domain
  import opened TableModel
  import opened Model
  import opened Coherence
  import opened Steps
  import opened Evolution
  import opened Clocks
  import opened Requests
  import opened Fence
  import Planner

  // Only a pipeline of the clock's own generation is unfinished.
  ghost predicate Settled(s: State) {
    forall p {:trigger SettledAt(s, p)} :: p in s.tables.pipelines ==> SettledAt(s, p)
  }

  ghost predicate SettledAt(s: State, p: Id) {
    && p in s.tables.pipelines
    && var q := s.tables.pipelines[p];
    && (q.pr > 0 && !IsTerminal(q.status) ==>
          KeyOf(q) in s.prStates && q.generation == s.prStates[KeyOf(q)].generation)
  }

  // At most one pipeline of a pull request is unfinished.
  lemma OneUnfinished(s: State, p: Id, q: Id)
    requires Timed(s) && Settled(s) && p in s.tables.pipelines && q in s.tables.pipelines
    requires s.tables.pipelines[p].pr > 0 && KeyOf(s.tables.pipelines[p]) == KeyOf(s.tables.pipelines[q])
    requires !IsTerminal(s.tables.pipelines[p].status) && !IsTerminal(s.tables.pipelines[q].status)
    ensures p == q
  {
    assert SettledAt(s, p) && SettledAt(s, q) && Apart(s.tables, p, q);
    hide Lower, PreviewsTimed;
  }

  // ---- Submissions ----

  lemma SupersededEnds(t: Tables, input: Submission, now: Time)
    requires SpellsAlike(t, input.repo)
    ensures var t' := CancelPipelines(t, Superseded(t, input), now);
      && t'.pipelines.Keys == t.pipelines.Keys
      && forall p :: p in t.pipelines && KeyOf(t.pipelines[p]) == SubmissionKey(input) ==>
        IsTerminal(t'.pipelines[p].status)
  {
    hide Lower;
  }

  // An accepted event ends every pipeline of its pull request that was there before.
  lemma AcceptedEnds(s: State, input: Submission, p: Id, ids: seq<Id>, pick: Id, now: Time)
    requires Coherent(s.tables) && Enabled(s, SubmitStep(input, p, ids, pick, now)) && SpellsAlike(s.tables, input.repo)
    requires input.pr > 0 && Classify(s, input, now) == Fresh
    ensures var s' := Submit(s, input, p, ids, pick, now);
      forall q :: q in s.tables.pipelines && KeyOf(s.tables.pipelines[q]) == SubmissionKey(input) ==>
        q in s'.tables.pipelines && IsTerminal(s'.tables.pipelines[q].status)
  {
    hide Classify, Submit, Accept, SameRevision, CancelPipelines, Superseded, SpellsAlike, Lower, IdsFor, WellFormed,
         GenerationOf, NewPipeline, NewJobs;
    assert p !in s.tables.pipelines by {
      assert AllIssued(s.tables);
    }
    hide Coherent;
    SupersededEnds(s.tables, input, now);
    FreshIsAccepted(s, input, p, ids, pick, now);
    AcceptTables(s, input, p, ids, now);
    AdvanceTables(s, input, now);
    hide Advance, FreshIds;
  }

  lemma StaysSettled(s: State, s': State, p: Id)
    requires SettledAt(s, p) && p in s'.tables.pipelines
    requires PipelineEvolves(s.tables.pipelines[p], s'.tables.pipelines[p])
    requires KeyOf(s.tables.pipelines[p]) in s.prStates ==>
      && KeyOf(s.tables.pipelines[p]) in s'.prStates
      && s'.prStates[KeyOf(s.tables.pipelines[p])].generation == s.prStates[KeyOf(s.tables.pipelines[p])].generation
    ensures SettledAt(s', p)
  {
    hide Lower;
  }

  lemma EndedIsSettled(s: State, p: Id)
    requires p in s.tables.pipelines && IsTerminal(s.tables.pipelines[p].status)
    ensures SettledAt(s, p)
  {
    hide Lower;
  }

  // A submission leaves the generations of all other pull requests as they are, and of its own unless accepted.
  lemma GenerationsAfter(s: State, input: Submission, now: Time, clocks: map<PRKey, PRState>, k: PRKey)
    requires ClocksAfter(s, input, now, clocks) && k in s.prStates
    requires input.pr > 0 && Classify(s, input, now) == Fresh ==> k != SubmissionKey(input)
    ensures k in clocks && clocks[k].generation == s.prStates[k].generation
  {
    hide Classify, SubmissionKey, EventTime;
  }

  lemma NewIsSettled(s: State, step: Step, p: Id)
    requires Coherent(s.tables) && Enabled(s, step) && p in Apply(s, step).tables.pipelines && p !in s.tables.pipelines
    ensures SettledAt(Apply(s, step), p)
  {
    hide Submit, Coherent, Classify, IdsFor, FreshIds, SameRevision, SubmissionKey, Prior, EventTime, Lower;
    var s' := Apply(s, step);
    var q := s'.tables.pipelines[p];
    NewPipelines(s, step, KeyOf(q));
    if q.pr > 0 {
      assert p in PipelinesAt(s', KeyOf(q));
      SubmitClocks(s, step.input, step.p, step.ids, step.pick, step.now);
    }
  }

  lemma SubmitStaysSettled(s: State, input: Submission, p: Id, ids: seq<Id>, pick: Id, now: Time, q: Id)
    requires Coherent(s.tables) && Enabled(s, SubmitStep(input, p, ids, pick, now)) && SpellsAlike(s.tables, input.repo)
    requires SettledAt(s, q) && q in Submit(s, input, p, ids, pick, now).tables.pipelines
    ensures SettledAt(Submit(s, input, p, ids, pick, now), q)
  {
    var s' := Submit(s, input, p, ids, pick, now);
    var k := KeyOf(s.tables.pipelines[q]);
    SubmitEvolves(s, input, p, ids, pick, now);
    SubmitClocks(s, input, p, ids, pick, now);
    if input.pr > 0 && Classify(s, input, now) == Fresh && k == SubmissionKey(input) {
      AcceptedEnds(s, input, p, ids, pick, now);
      EndedIsSettled(s', q);
    } else {
      if k in s.prStates {
        GenerationsAfter(s, input, now, s'.prStates, k);
      }
      hide Submit, Enabled, Coherent, Classify, ClocksAfter, SpellsAlike, SettledAt, NoReturn, Rank, KeyOf;
      StaysSettled(s, s', q);
    }
  }

  lemma StepStaysSettled(s: State, step: Step)
    requires Coherent(s.tables) && Settled(s) && Enabled(s, step) && SpellsRepository(s, step)
    ensures Settled(Apply(s, step))
  {
    hide Apply, Enabled, Coherent, SettledAt, SpellsAlike;
    var s' := Apply(s, step);
    forall p | p in s'.tables.pipelines ensures SettledAt(s', p) {
      if p !in s.tables.pipelines {
        NewIsSettled(s, step, p);
      } else {
        OldStaysSettled(s, step, p);
      }
    }
  }

  lemma OldStaysSettled(s: State, step: Step, p: Id)
    requires Coherent(s.tables) && Enabled(s, step) && SpellsRepository(s, step) && SettledAt(s, p)
    requires p in Apply(s, step).tables.pipelines
    ensures SettledAt(Apply(s, step), p)
  {
    hide Coherent, SettledAt, SpellsAlike, Submit, Enabled, KeyOf, NoReturn, Rank;
    if step.SubmitStep? {
      SubmitStaysSettled(s, step.input, step.p, step.ids, step.pick, step.now, p);
    } else {
      StepEvolves(s, step);
      OnlySubmissionsAsk(s, step);
      hide Apply;
      assert p in s.tables.pipelines by {
        assert SettledAt(s, p);
      }
      StaysSettled(s, Apply(s, step), p);
    }
  }

  // Where repositories keep their spelling, everything unfinished is of its clock's generation.
  lemma {:induction false} SettledThroughout(states: seq<State>, steps: seq<Step>, i: nat)
    requires SpelledRun(states, steps) && i < |states|
    ensures Settled(states[i])
  {
    hide Settled, Coherent, Apply, Enabled, SpellsRepository;
    if i > 0 {
      SettledThroughout(states, steps, i - 1);
      CoherentThroughout(states, steps, i - 1);
      assert Taken(states, steps, i - 1) && SpellsRepository(states[i - 1], steps[i - 1]);
      StepStaysSettled(states[i - 1], steps[i - 1]);
    } else {
      EmptyIsSettled(states[0].config);
    }
  }

  lemma EmptyIsSettled(c: Config)
    ensures Settled(Init(c))
  {
  }

  // ---- Where spelling matters ----

  // Supersession compares spellings exactly while the clock ignores case: an accepted event ends every
  // pipeline of its pull request exactly when the unfinished ones spell the repository as the event does.
  lemma SupersessionReaches(s: State, input: Submission, now: Time)
    requires input.pr > 0
    ensures var key := SubmissionKey(input);
      var s' := Advance(s, input, now);
      (forall p :: p in PipelinesAt(s, key) ==> p in s'.tables.pipelines && IsTerminal(s'.tables.pipelines[p].status))
      <==> forall p :: p in PipelinesAt(s, key) && !IsTerminal(s.tables.pipelines[p].status) ==>
        s.tables.pipelines[p].repo == input.repo
  {
    AdvanceTables(s, input, now);
    hide Advance, Lower;
    var key := SubmissionKey(input);
    var t' := CancelPipelines(s.tables, Superseded(s.tables, input), now);
    forall p | p in PipelinesAt(s, key)
      ensures p in t'.pipelines
      ensures IsTerminal(t'.pipelines[p].status)
        <==> IsTerminal(s.tables.pipelines[p].status) || s.tables.pipelines[p].repo == input.repo
    {
    }
    hide CancelPipelines, Superseded, PipelinesAt;
  }

  function Event(id: string, repo: string, closed: bool, time: Time, spec: PipelineSpec): Submission {
    Submission(id, "t", repo, repo, "c", "pull_request", 1, false, false, closed, time, 0, spec)
  }

  // Opened as "A" and closed as "a": the pull request is closed while its pipeline waits to run.
  lemma SpellingSplits(c: Config, spec: PipelineSpec, p: Id, ids: seq<Id>, now: Time)
    requires Planner.Plan(spec).Some? && |ids| == |Planner.Plan(spec).value| <= c.maxQueuedJobs
    requires FreshIds(Init(c).tables, p, ids)
    ensures var s1 := Submit(Init(c), Event("1", "A", false, 1, spec), p, ids, "", now);
      var s2 := Submit(s1, Event("2", "a", true, 2, spec), "q", [], "", now);
      && p in s2.tables.pipelines && s2.tables.pipelines[p].status == Queued
      && KeyOf(s2.tables.pipelines[p]) in s2.prStates && s2.prStates[KeyOf(s2.tables.pipelines[p])].closed
  {
    var open, close := Event("1", "A", false, 1, spec), Event("2", "a", true, 2, spec);
    var s1 := Submit(Init(c), open, p, ids, "", now);
    assert Lower("A") == "a" == Lower("a");
    FirstEvent(c, open, p, ids, now);
    SecondEvent(s1, close, p, now);
  }

  lemma FirstEvent(c: Config, input: Submission, p: Id, ids: seq<Id>, now: Time)
    requires WellFormed(input) && !input.closed && input.pr > 0 && input.eventTime == 1
    requires IdsFor(input, ids) && |ids| <= c.maxQueuedJobs
    ensures var s1 := Submit(Init(c), input, p, ids, "", now);
      && s1.prStates == map[SubmissionKey(input) := PRState(1, false, 1, input.commit)]
      && s1.inbox.deliveries.Keys == {input.requestID}
      && s1.tables.pipelines == map[p := NewPipeline(input, ids, 1, now)]
  {
    var s := Init(c);
    FirstIsFresh(c, input, now);
    AdvanceTables(s, input, now);
    AcceptTables(s, input, p, ids, now);
    SubmitClocks(s, input, p, ids, "", now);
    SubmitInbox(s, input, p, ids, "", now);
    assert CancelPipelines(s.tables, Superseded(s.tables, input), now).pipelines == map[];
    hide Advance, CancelPipelines, NewJobs, NewPipeline, SubmissionKey, Classify, WellFormed, Accept;
  }

  lemma FirstIsFresh(c: Config, input: Submission, now: Time)
    requires WellFormed(input) && !input.closed && |Planner.Plan(input.spec).value| <= c.maxQueuedJobs
    ensures Classify(Init(c), input, now) == Fresh
  {
    var s := Init(c);
    hide SubmissionKey, EventTime;
    assert !Late(s, input, now);
    hide Late;
    assert !Repeats(s, input);
    hide Repeats;
    assert Unfinished(s.tables) == {};
    assert !Overflows(s, input);
    hide Overflows, WellFormed;
  }

  lemma SecondEvent(s: State, input: Submission, p: Id, now: Time)
    requires input.requestID == "2" && input.requestID !in s.inbox.deliveries && input.closed && input.pr > 0
    requires input.eventTime == 2
    requires SubmissionKey(input) in s.prStates && s.prStates[SubmissionKey(input)].updatedAt == 1
    requires p in s.tables.pipelines && s.tables.pipelines[p].repo != input.repo
    requires KeyOf(s.tables.pipelines[p]) == SubmissionKey(input)
    ensures var s' := Submit(s, input, "q", [], "", now);
      && p in s'.tables.pipelines && s'.tables.pipelines[p] == s.tables.pipelines[p]
      && SubmissionKey(input) in s'.prStates && s'.prStates[SubmissionKey(input)].closed
  {
    hide Lower, SubmissionKey, KeyOf;
    assert ByteLength("2") == 1;
    assert Classify(s, input, now) == Fresh;
    SubmitClocks(s, input, "q", [], "", now);
    AdvanceTables(s, input, now);
    AcceptTables(s, input, "q", [], now);
    hide Advance, NextClock, Classify;
  }
}
