// cmd/worker: which of its assignments a worker process starts, composed with the store.

module WorkerProcess {
  import opened Domain
  import opened Ordering
  import opened TableModel
  import opened Model
  import opened Coherence
  import opened Steps
  import opened Evolution
  import opened Control

  // What one process remembers: the leases it has started and still sees, and those it is executing.
  datatype Agent = Agent(seen: set<Id>, active: set<Id>)

  // A lease is forgotten once it is neither assigned any more nor being executed.
  function Forget(x: Agent, offered: seq<Id>): Agent {
    x.(seen := set a | a in x.seen && (a in offered || a in x.active))
  }

  predicate Starts(x: Agent, capacity: int, a: Id) {
    a !in x.seen && a !in x.active && |x.active| < capacity
  }

  function Start(x: Agent, a: Id): Agent {
    Agent(x.seen + {a}, x.active + {a})
  }

  function StartAll(x: Agent, capacity: int, offered: seq<Id>): Agent {
    if offered == [] then x
    else
      var y := StartAll(x, capacity, offered[..|offered| - 1]);
      if Starts(y, capacity, offered[|offered| - 1]) then Start(y, offered[|offered| - 1]) else y
  }

  // The leases that this starts, in order.
  function Started(x: Agent, capacity: int, offered: seq<Id>): seq<Id> {
    if offered == [] then []
    else
      var before := offered[..|offered| - 1];
      if Starts(StartAll(x, capacity, before), capacity, offered[|offered| - 1])
      then Started(x, capacity, before) + [offered[|offered| - 1]] else Started(x, capacity, before)
  }

  // The leases offered that the process neither remembers nor executes, each where it is offered first.
  function Unknown(seen: set<Id>, active: set<Id>, offered: seq<Id>): seq<Id> {
    if offered == [] then []
    else
      var before, a := offered[..|offered| - 1], offered[|offered| - 1];
      Unknown(seen, active, before) + if a !in seen && a !in active && a !in before then [a] else []
  }

  // As many of them as there is room for.
  function FirstOf(leases: seq<Id>, room: int): seq<Id> {
    if room <= 0 then [] else if room < |leases| then leases[..room] else leases
  }

  function Released(x: Agent, a: Id): Agent {
    x.(active := x.active - {a})
  }

  class Process {
    const capacity: int
    var seen: set<Id>
    var active: set<Id>

    ghost function Memory(): Agent
      reads this
    {
      Agent(seen, active)
    }

    constructor (capacity: int)
      ensures Memory() == Agent({}, {}) && this.capacity == capacity
    {
      this.capacity := capacity;
      seen, active := {}, {};
    }

    // Starts each lease once per process, as far as capacity allows.
    method Claim(offered: seq<Id>) returns (claimed: seq<Id>)
      modifies this
      ensures Memory() == StartAll(Forget(old(Memory()), offered), capacity, offered)
      ensures claimed == Started(Forget(old(Memory()), offered), capacity, offered)
      ensures claimed == FirstOf(Unknown(old(seen), old(active), offered), capacity - |old(active)|)
      ensures active == old(active) + set a | a in claimed
      ensures seen == (set a | a in old(seen) && (a in offered || a in old(active))) + set a | a in claimed
    {
      ClaimLeaves(Memory(), capacity, offered);
      hide FirstOf, Unknown;
      ForgetGone(offered);
      ghost var x := Memory();
      hide Forget;
      claimed := [];
      for i := 0 to |offered|
        invariant Memory() == StartAll(x, capacity, offered[..i]) && claimed == Started(x, capacity, offered[..i])
      {
        assert offered[..i + 1][..i] == offered[..i];
        var a := offered[i];
        if a !in seen && a !in active && |active| < capacity {
          seen := seen + {a};
          active := active + {a};
          claimed := claimed + [a];
        }
      }
      assert offered[..|offered|] == offered;
    }

    method ForgetGone(offered: seq<Id>)
      modifies this`seen
      ensures Memory() == Forget(old(Memory()), offered)
    {
      var visible := {};
      for i := 0 to |offered|
        invariant forall a :: a in visible <==> a in offered[..i]
      {
        visible := visible + {offered[i]};
      }
      assert offered[..|offered|] == offered;
      var todo := seen;
      while todo != {}
        invariant todo <= seen <= old(seen)
        invariant forall a :: a in old(seen) ==> (a in seen <==> a in todo || a in visible || a in active)
        decreases todo
      {
        var a :| a in todo;
        if a !in visible && a !in active {
          seen := seen - {a};
        }
        todo := todo - {a};
      }
    }

    // An execution ended, however it did.
    method Release(a: Id)
      modifies this`active
      ensures Memory() == Released(old(Memory()), a)
      ensures active == old(active) - {a} && seen == old(seen)
    {
      active := active - {a};
    }
  }

  // ---- The process and the store together ----

  // fetched holds assignments read from the store that were not acted on yet; history what was started so far.
  datatype System = System(store: State, agent: Agent, fetched: Option<seq<Id>>, history: seq<Id>)

  datatype Event =
    | StoreMoves(step: Step)
    | Fetch(offered: seq<Id>)
    | Claim
    | Done(a: Id)

  // Polls are sequential; anything may happen between reading the assignments and acting on them.
  ghost predicate Possible(x: System, w: Id, event: Event) {
    match event
    case StoreMoves(step) => Enabled(x.store, step)
    case Fetch(offered) => x.fetched.None? && Enumerates(offered, ActiveAttempts(x.store.tables, "", w))
    case Claim => x.fetched.Some?
    case Done(a) => a in x.agent.active
  }

  ghost function After(x: System, w: Id, capacity: int, event: Event): System
    requires Possible(x, w, event)
  {
    match event
    case StoreMoves(step) => x.(store := Apply(x.store, step))
    case Fetch(offered) => x.(fetched := Some(offered))
    case Claim =>
      x.(agent := StartAll(Forget(x.agent, x.fetched.value), capacity, x.fetched.value), fetched := None,
         history := x.history + Started(Forget(x.agent, x.fetched.value), capacity, x.fetched.value))
    case Done(a) => x.(agent := Released(x.agent, a))
  }

  function Ids(leases: seq<AttemptLease>): seq<Id> {
    seq(|leases|, i requires 0 <= i < |leases| => leases[i].id)
  }

  // What the store answers a poll with is what may be fetched.
  lemma PollMayBeFetched(x: System, w: Id, leases: seq<AttemptLease>)
    requires Coherent(x.store.tables) && w != "" && x.fetched.None?
    requires Assigned(x.store.tables, leases, w, x.store.tables.attempts.Keys)
    ensures Possible(x, w, Fetch(Ids(leases)))
  {
    var t, ids := x.store.tables, Ids(leases);
    hide Coherent;
    assert forall i :: 0 <= i < |ids| ==> IsLease(t, leases[i], w) && ids[i] == leases[i].id;
    forall a | a in ActiveAttempts(t, "", w) ensures a in ids {
      assert LeaseOf(t, a) in leases;
      var i :| 0 <= i < |leases| && leases[i] == LeaseOf(t, a);
      assert ids[i] == a;
    }
    forall i, k | 0 <= i < k < |ids| ensures ids[i] != ids[k] {
      assert leases[i].id != leases[k].id;
    }
  }

  // The attempt ended, or was pruned after it ended: it will never be assigned again.
  ghost predicate Over(t: Tables, a: Id) {
    a in t.issued && (a in t.attempts ==> IsTerminal(t.attempts[a].status))
  }

  ghost predicate Known(t: Tables, w: Id, a: Id) {
    Over(t, a) || (a in t.attempts && a in t.issued && t.attempts[a].workerID == w)
  }

  // Everything started is still remembered, or over; and what was read but not acted on offers nothing
  // that was started and forgotten.
  ghost predicate Remembers(x: System, w: Id, a: Id) {
    && Known(x.store.tables, w, a)
    && (a !in x.agent.seen ==> Over(x.store.tables, a))
    && (x.fetched.Some? && a !in x.fetched.value ==> Over(x.store.tables, a))
    && (x.fetched.Some? && a !in x.agent.seen ==> a !in x.fetched.value)
  }

  ghost predicate Careful(x: System, w: Id, capacity: int) {
    && Coherent(x.store.tables)
    && x.agent.active <= x.agent.seen && |x.agent.active| <= capacity
    && Distinct(x.history)
    && (forall a {:trigger Remembers(x, w, a)} :: a in x.history ==> Remembers(x, w, a))
    && (forall a :: a in x.agent.seen ==> a in x.history)
    && (x.fetched.Some? ==> Distinct(x.fetched.value) && forall a :: a in x.fetched.value ==>
          Known(x.store.tables, w, a))
  }

  // ---- Starting ----

  // What starting everything offered does to memory, in terms of what was started.
  lemma {:induction false} StartsOnce(x: Agent, capacity: int, offered: seq<Id>)
    requires Distinct(offered) && x.active <= x.seen && |x.active| <= capacity
    ensures var y, started := StartAll(x, capacity, offered), Started(x, capacity, offered);
      && y.active <= y.seen && |y.active| <= capacity && Distinct(started)
      && (forall a :: a in started ==> a in offered && a !in x.seen)
      && (forall a :: a in y.seen <==> a in x.seen || a in started)
      && (forall a :: a in y.active <==> a in x.active || a in started)
  {
    if offered != [] {
      var before := offered[..|offered| - 1];
      StartsOnce(x, capacity, before);
      assert offered[|offered| - 1] !in before;
    }
  }

  // A claim starts exactly the first unknown leases, in the order offered, until its places are taken.
  lemma {:induction false} StartsTheFirst(x: Agent, capacity: int, offered: seq<Id>)
    ensures Started(x, capacity, offered) == FirstOf(Unknown(x.seen, x.active, offered), capacity - |x.active|)
  {
    if offered != [] {
      var before, a := offered[..|offered| - 1], offered[|offered| - 1];
      StartsTheFirst(x, capacity, before);
      StartedAreKept(x, capacity, before);
      UnknownAreOffered(x.seen, x.active, before);
      var y, started, unknown := StartAll(x, capacity, before), Started(x, capacity, before),
                                 Unknown(x.seen, x.active, before);
      if Starts(y, capacity, a) {
        assert started == unknown;
      } else if a !in x.seen && a !in x.active && a !in before {
        assert |started| >= capacity - |x.active|;
      }
      hide StartAll;
    }
  }

  lemma {:induction false} UnknownAreOffered(seen: set<Id>, active: set<Id>, offered: seq<Id>)
    ensures forall a :: a in Unknown(seen, active, offered) <==> a in offered && a !in seen && a !in active
  {
    if offered != [] {
      UnknownAreOffered(seen, active, offered[..|offered| - 1]);
      assert offered == offered[..|offered| - 1] + [offered[|offered| - 1]];
    }
  }

  // What a claim leaves in memory, in terms of what it started.
  lemma {:induction false} StartedAreKept(x: Agent, capacity: int, offered: seq<Id>)
    ensures var y, started := StartAll(x, capacity, offered), Started(x, capacity, offered);
      && y.seen == x.seen + (set a | a in started) && y.active == x.active + (set a | a in started)
      && |y.active| == |x.active| + |started| && (forall a :: a in started ==> a in offered)
  {
    if offered != [] {
      var before := offered[..|offered| - 1];
      StartedAreKept(x, capacity, before);
    }
  }

  // Forgetting what is not offered makes no offered lease unknown.
  lemma {:induction false} UnknownAsBefore(seen: set<Id>, kept: set<Id>, active: set<Id>, offered: seq<Id>)
    requires forall a :: a in offered ==> (a in kept <==> a in seen)
    ensures Unknown(kept, active, offered) == Unknown(seen, active, offered)
  {
    if offered != [] {
      UnknownAsBefore(seen, kept, active, offered[..|offered| - 1]);
    }
  }

  // The whole of a claim: what is forgotten, what is started, and what is left in memory.
  lemma ClaimLeaves(x: Agent, capacity: int, offered: seq<Id>)
    ensures var y := StartAll(Forget(x, offered), capacity, offered);
      var started := Started(Forget(x, offered), capacity, offered);
      && started == FirstOf(Unknown(x.seen, x.active, offered), capacity - |x.active|)
      && y.active == x.active + (set a | a in started) && |y.active| == |x.active| + |started|
      && y.seen == (set a | a in x.seen && (a in offered || a in x.active)) + (set a | a in started)
  {
    var z := Forget(x, offered);
    StartsTheFirst(z, capacity, offered);
    StartedAreKept(z, capacity, offered);
    UnknownAsBefore(x.seen, z.seen, x.active, offered);
    hide Unknown, StartAll, Started, FirstOf;
  }

  // ---- Every event keeps the process careful ----

  lemma OverForGood(t: Tables, t': Tables, a: Id)
    requires AllIssued(t) && Evolves(t, t') && Over(t, a)
    ensures Over(t', a)
  {
    hide Rank;
    if a in t.attempts && a in t'.attempts {
      assert AttemptEvolves(t.attempts[a], t'.attempts[a]);
    }
  }

  // A live attempt keeps its worker; one that left the table had ended or its pipeline was pruned.
  lemma StaysKnown(t: Tables, t': Tables, w: Id, a: Id)
    requires Coherent(t) && Evolves(t, t') && Known(t, w, a)
    ensures Known(t', w, a)
  {
    assert AllIssued(t);
    hide Coherent, Rank;
    if Over(t, a) {
      OverForGood(t, t', a);
    } else if a in t'.attempts {
      assert AttemptEvolves(t.attempts[a], t'.attempts[a]);
    }
  }

  lemma StoreStaysCareful(x: System, w: Id, capacity: int, step: Step)
    requires Careful(x, w, capacity) && Enabled(x.store, step)
    ensures Careful(x.(store := Apply(x.store, step)), w, capacity)
  {
    hide Coherent, Evolves, Apply, Enabled, Known, Over;
    var t, t' := x.store.tables, Apply(x.store, step).tables;
    StepKeepsCoherent(x.store, step);
    StepEvolves(x.store, step);
    forall a | Known(t, w, a) ensures Known(t', w, a) {
      StaysKnown(t, t', w, a);
    }
    CoherentIssued(t);
    forall a | Over(t, a) ensures Over(t', a) {
      OverForGood(t, t', a);
    }
    var y := x.(store := Apply(x.store, step));
    forall a | a in y.history ensures Remembers(y, w, a) {
      assert Remembers(x, w, a);
    }
  }

  // A known attempt that is not among the worker's active ones is over.
  lemma MissingIsOver(t: Tables, w: Id, a: Id)
    requires Coherent(t) && w != "" && Known(t, w, a) && a !in ActiveAttempts(t, "", w)
    ensures Over(t, a)
  {
    if a in t.attempts {
      assert AttemptOk(t, a) && AttemptRefs(t, a);
      assert JobFits(t.jobs[t.attempts[a].jobID]);
    }
  }

  lemma ActiveIsKnown(t: Tables, w: Id, a: Id)
    requires Coherent(t) && w != "" && a in ActiveAttempts(t, "", w)
    ensures Known(t, w, a) && !Over(t, a)
  {
  }

  lemma FetchStaysCareful(x: System, w: Id, capacity: int, offered: seq<Id>)
    requires Careful(x, w, capacity) && w != "" && Possible(x, w, Fetch(offered))
    ensures Careful(x.(fetched := Some(offered)), w, capacity)
  {
    hide Coherent, Known, Over, ActiveAttempts;
    var t, y := x.store.tables, x.(fetched := Some(offered));
    forall a | a in offered ensures Known(t, w, a) && !Over(t, a) {
      ActiveIsKnown(t, w, a);
    }
    forall a | a in y.history ensures Remembers(y, w, a) {
      assert Remembers(x, w, a);
      if a !in offered {
        MissingIsOver(t, w, a);
      }
    }
  }

  lemma ClaimStaysCareful(x: System, w: Id, capacity: int)
    requires Careful(x, w, capacity) && Possible(x, w, Claim)
    ensures Careful(After(x, w, capacity, Claim), w, capacity)
  {
    hide Coherent, Known, Over;
    var offered, agent := x.fetched.value, Forget(x.agent, x.fetched.value);
    var y := After(x, w, capacity, Claim);
    StartsOnce(agent, capacity, offered);
    hide StartAll, Started;
    var started := Started(agent, capacity, offered);
    forall a | a in started ensures a !in x.history {
      assert a in x.history ==> Remembers(x, w, a);
    }
    forall a | a in y.history ensures Remembers(y, w, a) {
      if a in x.history {
        assert Remembers(x, w, a);
      } else {
        assert a in started;
      }
    }
    DistinctConcat(x.history, started);
  }

  // All are taken, or as many as there is room for.
  lemma TakesAll(leases: seq<Id>, room: int)
    requires room >= 0
    ensures |FirstOf(leases, room)| == room || FirstOf(leases, room) == leases
  {
  }

  // A claim starts the first of the leases that are new, as many as there are places, and no other; so every
  // offered lease is remembered or executed afterwards, or all places are taken.
  lemma ClaimFillsUp(x: System, w: Id, capacity: int)
    requires Possible(x, w, Claim) && |x.agent.active| <= capacity
    ensures var y, offered := After(x, w, capacity, Claim), x.fetched.value;
      var started := FirstOf(Unknown(x.agent.seen, x.agent.active, offered), capacity - |x.agent.active|);
      && y.history == x.history + started && y.store == x.store && y.fetched.None?
      && y.agent.active == x.agent.active + (set a | a in started)
      && y.agent.seen
           == (set a | a in x.agent.seen && (a in offered || a in x.agent.active)) + (set a | a in started)
      && (forall a :: a in offered ==> a in x.agent.seen || a in y.agent.active || |y.agent.active| == capacity)
      && (forall a :: a in offered && a !in x.agent.seen && a !in x.agent.active && |y.agent.active| < capacity ==>
            a in started && a in y.agent.active)
  {
    hide Apply, Enabled, Released, FirstOf, Unknown, StartAll, Started, Forget;
    var offered := x.fetched.value;
    ClaimLeaves(x.agent, capacity, offered);
    UnknownAreOffered(x.agent.seen, x.agent.active, offered);
    TakesAll(Unknown(x.agent.seen, x.agent.active, offered), capacity - |x.agent.active|);
  }

  // An execution that ends frees its place, and nothing else: a claim that follows starts a lease that is new.
  lemma DoneFreesAPlace(x: System, w: Id, capacity: int, a: Id, b: Id)
    requires a in x.agent.active && |x.agent.active| <= capacity
    requires Possible(x, w, Claim) && b in x.fetched.value && b !in x.agent.seen && b !in x.agent.active
    ensures var y := After(x, w, capacity, Done(a));
      && y == x.(agent := Agent(x.agent.seen, x.agent.active - {a})) && |y.agent.active| == |x.agent.active| - 1
      && Possible(y, w, Claim)
      && exists c :: c in x.fetched.value && c !in x.agent.seen && c !in y.agent.active
                     && c in After(y, w, capacity, Claim).agent.active
  {
    hide Apply, Enabled, FirstOf, Unknown;
    var y := After(x, w, capacity, Done(a));
    assert Possible(y, w, Claim);
    ClaimFillsUp(y, w, capacity);
    var unknown := Unknown(y.agent.seen, y.agent.active, x.fetched.value);
    UnknownAreOffered(y.agent.seen, y.agent.active, x.fetched.value);
    assert b in unknown;
    FirstIsTaken(unknown, capacity - |y.agent.active|);
    assert unknown[0] in unknown;
  }

  lemma FirstIsTaken(leases: seq<Id>, room: int)
    requires leases != [] && room > 0
    ensures leases[0] in FirstOf(leases, room)
  {
    assert FirstOf(leases, room)[0] == leases[0];
  }

  lemma DoneStaysCareful(x: System, w: Id, capacity: int, a: Id)
    requires Careful(x, w, capacity)
    ensures Careful(x.(agent := Released(x.agent, a)), w, capacity)
  {
    hide Coherent, Known, Over;
    var y := x.(agent := Released(x.agent, a));
    Capacity.SubsetSize(y.agent.active, x.agent.active);
    forall b | b in y.history ensures Remembers(y, w, b) {
      assert Remembers(x, w, b);
    }
  }

  lemma EventStaysCareful(x: System, w: Id, capacity: int, event: Event)
    requires Careful(x, w, capacity) && w != "" && Possible(x, w, event)
    ensures Careful(After(x, w, capacity, event), w, capacity)
  {
    hide Careful;
    match event
    case StoreMoves(step) => StoreStaysCareful(x, w, capacity, step);
    case Fetch(offered) => FetchStaysCareful(x, w, capacity, offered);
    case Claim => ClaimStaysCareful(x, w, capacity);
    case Done(a) => DoneStaysCareful(x, w, capacity, a);
  }

  ghost predicate Happens(systems: seq<System>, events: seq<Event>, w: Id, capacity: int, i: int) {
    && 0 <= i < |events| && i + 1 < |systems|
    && Possible(systems[i], w, events[i]) && systems[i + 1] == After(systems[i], w, capacity, events[i])
  }

  // A process that starts with nothing in mind beside a store that may already have worked for long.
  ghost predicate Life(systems: seq<System>, events: seq<Event>, w: Id, capacity: int) {
    && |systems| == |events| + 1 && w != "" && capacity >= 0
    && Coherent(systems[0].store.tables) && systems[0] == System(systems[0].store, Agent({}, {}), None, [])
    && forall i {:trigger Happens(systems, events, w, capacity, i)} :: 0 <= i < |events| ==>
      Happens(systems, events, w, capacity, i)
  }

  lemma {:induction false} CarefulForLife(systems: seq<System>, events: seq<Event>, w: Id, capacity: int, i: nat)
    requires Life(systems, events, w, capacity) && i < |systems|
    ensures Careful(systems[i], w, capacity)
  {
    hide Possible, After;
    if i > 0 {
      hide Careful;
      CarefulForLife(systems, events, w, capacity, i - 1);
      assert Happens(systems, events, w, capacity, i - 1);
      EventStaysCareful(systems[i - 1], w, capacity, events[i - 1]);
    } else {
      hide Coherent;
    }
  }

  // However store steps, polls and finished executions interleave: a process never starts the same attempt
  // twice, what it executes it also remembers, and it never executes more than its capacity.
  lemma AtMostOncePerProcess(systems: seq<System>, events: seq<Event>, w: Id, capacity: int, i: nat)
    requires Life(systems, events, w, capacity) && i < |systems|
    ensures Distinct(systems[i].history)
    ensures systems[i].agent.active <= systems[i].agent.seen && |systems[i].agent.active| <= capacity
    ensures forall a :: a in systems[i].agent.active ==> a in systems[i].history
  {
    CarefulForLife(systems, events, w, capacity, i);
    hide Life;
  }
}
