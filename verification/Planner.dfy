// internal/planner/planner.go: a pipeline configuration becomes one topological order.

module Planner {
  import opened Domain
  import opened Ordering

  const MIN_PRIORITY := -10
  const MAX_PRIORITY := 10

  type Jobs = map<string, JobSpec>

  datatype PlanError =
    | UnsupportedVersion | NoJobs | EmptyName | BadPriority(name: string)
    | NegativeResources(name: string) | SelfDependency(name: string)
    | UnknownDependency(name: string, need: string) | RepeatedDependency(name: string, need: string)
    | Cycle

  // ---- What a plan is ----

  ghost predicate FieldsOk(name: string, job: JobSpec) {
    && name != "" && MIN_PRIORITY <= job.priority <= MAX_PRIORITY
    && job.resources.cpu >= 0 && job.resources.memory >= 0
  }

  ghost predicate NeedsOk(jobs: Jobs, name: string)
    requires name in jobs
  {
    var needs := jobs[name].needs;
    name !in needs && Distinct(needs) && forall d :: d in needs ==> d in jobs
  }

  ghost predicate SchemaOk(spec: PipelineSpec) {
    && spec.version == 1 && spec.jobs.Keys != {}
    && (forall n :: n in spec.jobs ==> FieldsOk(n, spec.jobs[n]))
    && (forall n :: n in spec.jobs ==> NeedsOk(spec.jobs, n))
  }

  // A schema error names a defect the jobs really have.
  ghost predicate Defect(jobs: Jobs, error: PlanError) {
    match error
    case EmptyName => "" in jobs
    case BadPriority(n) => n in jobs && !(MIN_PRIORITY <= jobs[n].priority <= MAX_PRIORITY)
    case NegativeResources(n) => n in jobs && (jobs[n].resources.cpu < 0 || jobs[n].resources.memory < 0)
    case SelfDependency(n) => n in jobs && n in jobs[n].needs
    case UnknownDependency(n, d) => n in jobs && d in jobs[n].needs && d !in jobs
    case RepeatedDependency(n, d) =>
      n in jobs && exists i, j :: 0 <= i < j < |jobs[n].needs| && jobs[n].needs[i] == jobs[n].needs[j] == d
    case _ => false
  }

  ghost predicate Justified(spec: PipelineSpec, error: PlanError) {
    match error
    case UnsupportedVersion => spec.version != 1
    case NoJobs => spec.jobs.Keys == {}
    case Cycle => SchemaOk(spec) && exists s :: Trapped(spec.jobs, s)
    case _ => Defect(spec.jobs, error)
  }

  // Every member of s waits for a member of s.
  ghost predicate Trapped(jobs: Jobs, s: set<string>) {
    && s != {} && s <= jobs.Keys
    && forall n {:trigger Waits(jobs, s, n)} :: n in s ==> Waits(jobs, s, n)
  }

  ghost predicate Waits(jobs: Jobs, s: set<string>, n: string) {
    n in jobs && exists d :: d in jobs[n].needs && d in s
  }

  // A closed chain of needs.
  ghost predicate IsCycle(jobs: Jobs, chain: seq<string>) {
    && chain != [] && Distinct(chain)
    && (forall i :: 0 <= i < |chain| ==> chain[i] in jobs)
    && (forall i :: 0 <= i < |chain| - 1 ==> chain[i + 1] in jobs[chain[i]].needs)
    && chain[0] in jobs[chain[|chain| - 1]].needs
  }

  ghost predicate Ready(jobs: Jobs, done: seq<string>, n: string) {
    n in jobs && n !in done && forall d :: d in jobs[n].needs ==> d in done
  }

  ghost predicate Topological(jobs: Jobs, order: seq<string>) {
    && Enumerates(order, jobs.Keys)
    && forall i :: 0 <= i < |order| ==> Ready(jobs, order[..i], order[i])
  }

  // Differs first where a has the smaller name.
  ghost predicate Before(a: seq<string>, b: seq<string>) {
    exists k :: 0 <= k < |a| && k < |b| && a[..k] == b[..k] && Less(a[k], b[k])
  }

  ghost predicate Smallest(jobs: Jobs, order: seq<string>) {
    && Topological(jobs, order)
    && forall other :: Topological(jobs, other) && other != order ==> Before(order, other)
  }

  // The plan of a configuration, if it has one.
  ghost function Plan(spec: PipelineSpec): (plan: Option<seq<string>>)
    ensures plan.Some? ==> SchemaOk(spec) && Smallest(spec.jobs, plan.value) && plan.value != []
    ensures plan.Some? ==> forall n :: n in plan.value ==> n in spec.jobs
  {
    if SchemaOk(spec) && exists order :: Smallest(spec.jobs, order)
    then var order :| Smallest(spec.jobs, order); Some(order)
    else None
  }

  // ---- Facts about plans ----

  lemma SmallestIsUnique(jobs: Jobs, a: seq<string>, b: seq<string>)
    requires Smallest(jobs, a) && Smallest(jobs, b)
    ensures a == b
  {
    if a != b {
      var k :| 0 <= k < |a| && k < |b| && a[..k] == b[..k] && Less(a[k], b[k]);
      var m :| 0 <= m < |b| && m < |a| && b[..m] == a[..m] && Less(b[m], a[m]);
      BeforeIsAsymmetric(a, b, k, m);
    }
  }

  lemma BeforeIsAsymmetric(a: seq<string>, b: seq<string>, k: nat, m: nat)
    requires k < |a| && k < |b| && m < |a| && m < |b| && a[..k] == b[..k] && a[..m] == b[..m]
    ensures !(Less(a[k], b[k]) && Less(b[m], a[m]))
  {
    LessTotal(a[k], b[k]);
    LessTotal(a[m], b[m]);
    if k < m {
      assert b[..m][k] == a[..m][k];
    } else if m < k {
      assert a[..k][m] == b[..k][m];
    }
  }

  // The first names of a plan are each the least name that is ready at that point.
  ghost predicate Greedy(jobs: Jobs, order: seq<string>) {
    forall i :: 0 <= i < |order| ==>
      && Ready(jobs, order[..i], order[i])
      && forall n :: Ready(jobs, order[..i], n) && n != order[i] ==> Less(order[i], n)
  }

  lemma {:induction false} GreedyIsSmallest(jobs: Jobs, order: seq<string>)
    requires Greedy(jobs, order) && Enumerates(order, jobs.Keys)
    ensures Smallest(jobs, order)
  {
    forall other | Topological(jobs, other) && other != order ensures Before(order, other) {
      var k := FirstDifference(jobs, order, other);
      assert Ready(jobs, order[..k], other[k]);
    }
  }

  lemma {:induction false} FirstDifference(jobs: Jobs, a: seq<string>, b: seq<string>) returns (k: nat)
    requires Enumerates(a, jobs.Keys) && Enumerates(b, jobs.Keys) && a != b
    ensures k < |a| && k < |b| && a[..k] == b[..k] && a[k] != b[k]
  {
    EnumerationSize(a, jobs.Keys);
    EnumerationSize(b, jobs.Keys);
    k := 0;
    while k < |a| && a[k] == b[k]
      invariant k <= |a| && a[..k] == b[..k]
    {
      k := k + 1;
    }
  }

  // A topological order leaves no room for a set of jobs that all wait for each other.
  lemma TrapExcludesOrder(jobs: Jobs, order: seq<string>, s: set<string>)
    requires Trapped(jobs, s)
    ensures !Topological(jobs, order)
  {
    if forall i :: 0 <= i < |order| ==> Ready(jobs, order[..i], order[i]) {
      NoneTrapped(jobs, order, s, |order|);
      var n :| n in s;
      assert n !in order;
    }
  }

  lemma {:induction false} NoneTrapped(jobs: Jobs, order: seq<string>, s: set<string>, k: nat)
    requires Trapped(jobs, s) && k <= |order|
    requires forall i :: 0 <= i < |order| ==> Ready(jobs, order[..i], order[i])
    ensures forall i :: 0 <= i < k ==> order[i] !in s
  {
    if k > 0 {
      NoneTrapped(jobs, order, s, k - 1);
      assert Ready(jobs, order[..k - 1], order[k - 1]);
      assert order[k - 1] in s ==> Waits(jobs, s, order[k - 1]);
    }
  }

  // A cycle can be extracted from every trapped set, and every cycle is one.
  lemma {:induction false} TrapHoldsCycle(jobs: Jobs, s: set<string>) returns (chain: seq<string>)
    requires Trapped(jobs, s)
    ensures IsCycle(jobs, chain) && forall n :: n in chain ==> n in s
  {
    var n :| n in s;
    chain := Chase(jobs, s, [n]);
  }

  lemma {:induction false} Chase(jobs: Jobs, s: set<string>, path: seq<string>) returns (chain: seq<string>)
    requires Trapped(jobs, s) && path != [] && Distinct(path)
    requires forall n :: n in path ==> n in s
    requires forall i :: 0 <= i < |path| - 1 ==> path[i + 1] in jobs[path[i]].needs
    ensures IsCycle(jobs, chain) && forall n :: n in chain ==> n in s
    decreases s - (set n | n in path)
  {
    var last := path[|path| - 1];
    assert Waits(jobs, s, last);
    var next :| next in jobs[last].needs && next in s;
    if next in path {
      var i :| 0 <= i < |path| && path[i] == next;
      chain := path[i..];
    } else {
      assert next in s - (set n | n in path);
      chain := Chase(jobs, s, path + [next]);
    }
  }

  lemma CycleIsTrap(jobs: Jobs, chain: seq<string>)
    requires IsCycle(jobs, chain)
    ensures Trapped(jobs, set n | n in chain)
  {
    var s := set n | n in chain;
    assert chain[0] in s;
    forall n | n in s ensures Waits(jobs, s, n) {
      var i :| 0 <= i < |chain| && chain[i] == n;
      var next := if i == |chain| - 1 then chain[0] else chain[i + 1];
      assert next in jobs[n].needs && next in s;
    }
  }

  // A plan exists exactly when the schema holds and no needs form a cycle.
  lemma {:induction false} PlanExists(spec: PipelineSpec)
    ensures Plan(spec).Some? <==> SchemaOk(spec) && !exists chain :: IsCycle(spec.jobs, chain)
    ensures Plan(spec).Some? <==> SchemaOk(spec) && !exists s :: Trapped(spec.jobs, s)
  {
    var jobs := spec.jobs;
    if chain :| IsCycle(jobs, chain) {
      CycleIsTrap(jobs, chain);
    }
    if s :| Trapped(jobs, s) {
      var chain := TrapHoldsCycle(jobs, s);
      forall order ensures !Topological(jobs, order) {
        TrapExcludesOrder(jobs, order, s);
      }
    } else if SchemaOk(spec) {
      var order := Complete(jobs, []);
    }
  }

  // Rule by rule: a configuration has a plan exactly if it is of version 1, has jobs, every job has a name, a priority
  // from -10 to 10 and no negative demand, needs other jobs of the configuration, each once, and no needs go round.
  lemma PlannableExactlyIf(spec: PipelineSpec)
    ensures Plan(spec).Some? <==>
      && spec.version == 1 && |spec.jobs| > 0
      && (forall n :: n in spec.jobs ==>
            && n != "" && -10 <= spec.jobs[n].priority <= 10
            && spec.jobs[n].resources.cpu >= 0 && spec.jobs[n].resources.memory >= 0
            && n !in spec.jobs[n].needs && (forall d :: d in spec.jobs[n].needs ==> d in spec.jobs)
            && (forall i, k :: 0 <= i < k < |spec.jobs[n].needs| ==> spec.jobs[n].needs[i] != spec.jobs[n].needs[k]))
      && !exists chain :: IsCycle(spec.jobs, chain)
  {
    PlanExists(spec);
    assert |spec.jobs| > 0 <==> spec.jobs.Keys != {};
  }

  // Without a trapped set the greedy order runs to the end.
  lemma {:induction false} Complete(jobs: Jobs, done: seq<string>) returns (order: seq<string>)
    requires Greedy(jobs, done) && Distinct(done)
    requires forall n :: n in done ==> n in jobs
    requires forall n, d :: n in jobs && d in jobs[n].needs ==> d in jobs
    requires !exists s :: Trapped(jobs, s)
    ensures Smallest(jobs, order)
    decreases jobs.Keys - (set n | n in done)
  {
    var left := set n | n in jobs && n !in done;
    var ready := set n | n in jobs && Ready(jobs, done, n);
    if left == {} {
      assert forall n :: n in jobs ==> n !in left;
      GreedyIsSmallest(jobs, done);
      order := done;
    } else {
      Stuck(jobs, done, left);
      var first :| first in left && Ready(jobs, done, first);
      assert first in ready;
      var next := Min(ready);
      assert next in jobs.Keys - (set n | n in done);
      assert forall n :: Ready(jobs, done, n) ==> n in ready;
      Extend(jobs, done, next);
      order := Complete(jobs, done + [next]);
    }
  }

  lemma Stuck(jobs: Jobs, done: seq<string>, left: set<string>)
    requires left == (set n | n in jobs && n !in done) && left != {}
    requires forall n, d :: n in jobs && d in jobs[n].needs ==> d in jobs
    ensures Trapped(jobs, left) || exists n :: n in left && Ready(jobs, done, n)
  {
    if !exists n :: n in left && Ready(jobs, done, n) {
      forall n | n in left ensures Waits(jobs, left, n) {
        assert !Ready(jobs, done, n);
        var d :| d in jobs[n].needs && d !in done;
        assert d in left;
      }
    }
  }

  lemma Extend(jobs: Jobs, done: seq<string>, next: string)
    requires Greedy(jobs, done) && Distinct(done)
    requires Ready(jobs, done, next)
    requires forall n :: Ready(jobs, done, n) && n != next ==> Less(next, n)
    ensures Greedy(jobs, done + [next]) && Distinct(done + [next])
  {
    var longer := done + [next];
    forall i | 0 <= i < |longer| ensures longer[..i] == if i < |done| then done[..i] else done {
    }
  }

  // ---- The planner itself ----

  type Lists = map<string, seq<string>>

  // A Go map yields nil for an absent key.
  function Listed(lists: Lists, key: string): seq<string> {
    if key in lists then lists[key] else []
  }

  // lists holds, for every need, the jobs among done that have it.
  ghost predicate Inverts(jobs: Jobs, done: set<string>, lists: Lists) {
    forall d :: Enumerates(Listed(lists, d), Dependents(jobs, done, d))
  }

  ghost function Dependents(jobs: Jobs, done: set<string>, d: string): set<string> {
    set n | n in jobs && n in done && d in jobs[n].needs
  }

  // How many needs of n are still to be emitted.
  ghost function Missing(jobs: Jobs, done: seq<string>, n: string): set<string>
    requires n in jobs
  {
    set d | d in jobs[n].needs && d !in done
  }

  method Validate(spec: PipelineSpec) returns (r: Result<seq<string>, PlanError>)
    ensures r.Success? ==> Plan(spec) == Some(r.value)
    ensures r.Failure? ==> Plan(spec) == None && Justified(spec, r.error)
  {
    var jobs := spec.jobs;
    if spec.version != 1 {
      return Failure(UnsupportedVersion);
    }
    if |jobs| == 0 {
      assert jobs.Keys == {};
      return Failure(NoJobs);
    }
    var defect, names := CheckFields(jobs);
    if defect.Some? {
      DefectExcludesSchema(spec, defect.value);
      return Failure(defect.value);
    }
    var indegree, dependents;
    defect, indegree, dependents := CountNeeds(jobs);
    if defect.Some? {
      DefectExcludesSchema(spec, defect.value);
      return Failure(defect.value);
    }
    var order := Drain(jobs, names, indegree, dependents);
    Verdict(spec, names, order);
    if |order| != |names| {
      return Failure(Cycle);
    }
    r := Success(order);
  }

  lemma DefectExcludesSchema(spec: PipelineSpec, error: PlanError)
    requires Defect(spec.jobs, error)
    ensures !SchemaOk(spec) && Justified(spec, error)
  {
    match error
    case SelfDependency(n) => assert SchemaOk(spec) ==> NeedsOk(spec.jobs, n);
    case UnknownDependency(n, d) => assert SchemaOk(spec) ==> NeedsOk(spec.jobs, n);
    case RepeatedDependency(n, d) => assert SchemaOk(spec) ==> NeedsOk(spec.jobs, n);
    case _ =>
  }

  // What is left when no job is ready decides between a plan and a cycle.
  lemma Verdict(spec: PipelineSpec, names: seq<string>, order: seq<string>)
    requires SchemaOk(spec) && Enumerates(names, spec.jobs.Keys)
    requires Greedy(spec.jobs, order) && Distinct(order) && forall n :: n in order ==> n in spec.jobs
    requires forall n :: !Ready(spec.jobs, order, n)
    ensures |order| == |names| ==> Plan(spec) == Some(order)
    ensures |order| != |names| ==> Plan(spec) == None && Justified(spec, Cycle)
  {
    var jobs := spec.jobs;
    EnumerationSize(names, jobs.Keys);
    var left := set n | n in jobs && n !in order;
    if |order| == |names| {
      FullLength(jobs, order);
      GreedyIsSmallest(jobs, order);
      SmallestIsUnique(jobs, order, Plan(spec).value);
    } else {
      if left == {} {
        assert forall n :: n in jobs ==> n !in left;
        EnumerationSize(order, jobs.Keys);
      }
      Stuck(jobs, order, left);
      PlanExists(spec);
    }
  }

  lemma FullLength(jobs: Jobs, order: seq<string>)
    requires Distinct(order) && |order| == |jobs.Keys|
    requires forall n :: n in order ==> n in jobs
    ensures Enumerates(order, jobs.Keys)
  {
    var emitted := set n | n in order;
    EnumerationSize(order, emitted);
    SubsetOfSameSize(emitted, jobs.Keys);
  }

  lemma SubsetOfSameSize<T>(a: set<T>, b: set<T>)
    requires a <= b && |a| == |b|
    ensures a == b
  {
    assert |b - a| == |b| - |a|;
  }

  method CheckFields(jobs: Jobs) returns (defect: Option<PlanError>, names: seq<string>)
    ensures defect.None? ==> (forall n :: n in jobs ==> FieldsOk(n, jobs[n])) && Enumerates(names, jobs.Keys)
    ensures defect.Some? ==> Defect(jobs, defect.value)
  {
    names := [];
    var todo := jobs.Keys;
    while todo != {}
      invariant todo <= jobs.Keys
      invariant Enumerates(names, jobs.Keys - todo)
      invariant forall n :: n in jobs && n !in todo ==> FieldsOk(n, jobs[n])
      decreases todo
    {
      var name :| name in todo;
      var job := jobs[name];
      if name == "" {
        return Some(EmptyName), names;
      }
      if job.priority < MIN_PRIORITY || job.priority > MAX_PRIORITY {
        return Some(BadPriority(name)), names;
      }
      if job.resources.cpu < 0 || job.resources.memory < 0 {
        return Some(NegativeResources(name)), names;
      }
      names := names + [name];
      todo := todo - {name};
    }
    defect := None;
  }

  method CountNeeds(jobs: Jobs) returns (defect: Option<PlanError>, indegree: map<string, int>, dependents: Lists)
    ensures defect.Some? ==> Defect(jobs, defect.value)
    ensures defect.None? ==> forall n :: n in jobs ==> NeedsOk(jobs, n)
    ensures defect.None? ==> indegree.Keys == jobs.Keys && forall n :: n in jobs ==> indegree[n] == |jobs[n].needs|
    ensures defect.None? ==> Inverts(jobs, jobs.Keys, dependents)
  {
    indegree := map n | n in jobs :: 0;
    dependents := map[];
    var todo := jobs.Keys;
    while todo != {}
      invariant todo <= jobs.Keys && indegree.Keys == jobs.Keys
      invariant forall n :: n in jobs ==> indegree[n] == if n in todo then 0 else |jobs[n].needs|
      invariant forall n :: n in jobs && n !in todo ==> NeedsOk(jobs, n)
      invariant Inverts(jobs, jobs.Keys - todo, dependents)
      decreases todo
    {
      var name :| name in todo;
      ghost var before := dependents;
      var needs := jobs[name].needs;
      defect, indegree, dependents := CountOne(jobs, name, indegree, dependents);
      if defect.Some? {
        return;
      }
      InvertsOneMore(jobs, jobs.Keys - todo, name, before, dependents);
      assert jobs.Keys - (todo - {name}) == jobs.Keys - todo + {name};
      todo := todo - {name};
    }
    assert jobs.Keys - todo == jobs.Keys;
    defect := None;
  }

  method CountOne(jobs: Jobs, name: string, degrees: map<string, int>, lists: Lists)
    returns (defect: Option<PlanError>, indegree: map<string, int>, dependents: Lists)
    requires name in jobs && name in degrees && degrees[name] == 0
    ensures defect.Some? ==> Defect(jobs, defect.value)
    ensures defect.None? ==> NeedsOk(jobs, name) && indegree == degrees[name := |jobs[name].needs|]
    ensures defect.None? ==> Appended(lists, dependents, name, jobs[name].needs)
  {
    indegree, dependents := degrees, lists;
    var needs := jobs[name].needs;
    var seen: set<string> := {};
    var i := 0;
    hide Counted, Appended, Defect, NeedsOk, Listed;
    CountedNone(jobs, name, lists);
    NotRaised(degrees, name);
    while i < |needs|
      invariant i <= |needs| && indegree == degrees[name := i]
      invariant Counted(jobs, name, i, seen, lists, dependents)
    {
      var dependency := needs[i];
      if dependency == name {
        Broken(jobs, name, i);
        return Some(SelfDependency(name)), indegree, dependents;
      }
      if dependency !in jobs {
        Broken(jobs, name, i);
        return Some(UnknownDependency(name, dependency)), indegree, dependents;
      }
      CountedNext(jobs, name, i, seen, lists, dependents);
      OneHigher(degrees, name, i);
      if dependency in seen {
        return Some(RepeatedDependency(name, dependency)), indegree, dependents;
      }
      seen := seen + {dependency};
      indegree := indegree[name := indegree[name] + 1];
      dependents := dependents[dependency := Listed(dependents, dependency) + [name]];
      i := i + 1;
    }
    CountedAll(jobs, name, seen, lists, dependents);
    defect := None;
  }

  // The first i needs are sound, seen holds them, and name was entered under each.
  ghost predicate Counted(jobs: Jobs, name: string, i: nat, seen: set<string>, before: Lists, after: Lists) {
    && name in jobs && i <= |jobs[name].needs|
    && var needs := jobs[name].needs[..i];
    && Distinct(needs) && (forall d :: d in seen <==> d in needs)
    && (forall d :: d in needs ==> d in jobs && d != name)
    && Appended(before, after, name, needs)
  }

  lemma NotRaised(degrees: map<string, int>, name: string)
    requires name in degrees && degrees[name] == 0
    ensures degrees == degrees[name := 0]
  {
  }

  lemma OneHigher(degrees: map<string, int>, name: string, i: int)
    ensures degrees[name := i][name := i + 1] == degrees[name := i + 1]
  {
  }

  lemma CountedNone(jobs: Jobs, name: string, lists: Lists)
    requires name in jobs
    ensures Counted(jobs, name, 0, {}, lists, lists)
  {
  }

  lemma Broken(jobs: Jobs, name: string, i: nat)
    requires name in jobs && i < |jobs[name].needs|
    ensures var d := jobs[name].needs[i];
      && (d == name ==> Defect(jobs, SelfDependency(name)))
      && (d !in jobs ==> Defect(jobs, UnknownDependency(name, d)))
  {
  }

  lemma CountedNext(jobs: Jobs, name: string, i: nat, seen: set<string>, before: Lists, after: Lists)
    requires Counted(jobs, name, i, seen, before, after) && i < |jobs[name].needs|
    requires jobs[name].needs[i] in jobs && jobs[name].needs[i] != name
    ensures var d := jobs[name].needs[i];
      if d in seen then Defect(jobs, RepeatedDependency(name, d))
      else Counted(jobs, name, i + 1, seen + {d}, before, after[d := Listed(after, d) + [name]])
  {
    hide Appended, Listed;
    var needs, d := jobs[name].needs, jobs[name].needs[i];
    if d in seen {
      hide Distinct;
      var k :| 0 <= k < |needs[..i]| && needs[..i][k] == d;
      assert needs[k] == needs[i] == d;
    } else {
      hide Defect;
      AppendOne(before, after, name, needs[..i], d);
      DistinctConcat(needs[..i], [d]);
      hide Distinct;
      assert needs[..i + 1] == needs[..i] + [d];
    }
  }

  lemma CountedAll(jobs: Jobs, name: string, seen: set<string>, before: Lists, after: Lists)
    requires name in jobs && Counted(jobs, name, |jobs[name].needs|, seen, before, after)
    ensures NeedsOk(jobs, name) && Appended(before, after, name, jobs[name].needs)
  {
    hide Appended;
    assert jobs[name].needs[..|jobs[name].needs|] == jobs[name].needs;
  }

  // name was put at the end of the list of each of the given needs, and nothing else changed.
  ghost predicate Appended(before: Lists, after: Lists, name: string, needs: seq<string>) {
    forall d :: Listed(after, d) == Listed(before, d) + if d in needs then [name] else []
  }

  lemma AppendOne(before: Lists, after: Lists, name: string, needs: seq<string>, d: string)
    requires Appended(before, after, name, needs) && d !in needs
    ensures Appended(before, after[d := Listed(after, d) + [name]], name, needs + [d])
  {
  }

  lemma InvertsOneMore(jobs: Jobs, done: set<string>, name: string, before: Lists, after: Lists)
    requires Inverts(jobs, done, before) && name in jobs && name !in done
    requires Appended(before, after, name, jobs[name].needs)
    ensures Inverts(jobs, done + {name}, after)
  {
    hide Enumerates, Listed;
    forall d ensures Enumerates(Listed(after, d), Dependents(jobs, done + {name}, d)) {
      assert Enumerates(Listed(before, d), Dependents(jobs, done, d));
      if d in jobs[name].needs {
        OneMore(Listed(before, d), Dependents(jobs, done, d), name);
        assert Dependents(jobs, done + {name}, d) == Dependents(jobs, done, d) + {name};
      } else {
        assert Listed(after, d) == Listed(before, d);
        assert Dependents(jobs, done + {name}, d) == Dependents(jobs, done, d);
      }
    }
  }

  lemma OneMore(xs: seq<string>, of: set<string>, x: string)
    requires Enumerates(xs, of) && x !in of
    ensures Enumerates(xs + [x], of + {x})
  {
  }

  // Kahn's loop: emit the least ready name, release its dependents.
  method Drain(jobs: Jobs, names: seq<string>, degrees: map<string, int>, dependents: Lists)
    returns (order: seq<string>)
    requires Enumerates(names, jobs.Keys)
    requires forall n :: n in jobs ==> NeedsOk(jobs, n)
    requires degrees.Keys == jobs.Keys && forall n :: n in jobs ==> degrees[n] == |jobs[n].needs|
    requires Inverts(jobs, jobs.Keys, dependents)
    ensures Greedy(jobs, order) && Distinct(order) && forall n :: n in order ==> n in jobs
    ensures forall n :: !Ready(jobs, order, n)
  {
    hide Draining, Greedy, Ready, NeedsOk, Inverts, Less;
    var sorted := SortStrings(names);
    var indegree := degrees;
    var ready := InitiallyReady(sorted, indegree);
    order := [];
    DrainingStarts(jobs, indegree, sorted, ready);
    while |ready| > 0
      invariant Draining(jobs, order, indegree, ready)
      decreases jobs.Keys - Names(order)
    {
      var name := ready[0];
      EmitsNext(jobs, order, indegree, ready);
      indegree, ready := Release(jobs, order, name, indegree, ready, dependents);
      order := order + [name];
    }
    DrainingEnds(jobs, order, indegree, ready);
  }

  // The jobs without needs, in the order they are listed in.
  method InitiallyReady(sorted: seq<string>, indegree: map<string, int>) returns (ready: seq<string>)
    requires forall n :: n in sorted ==> n in indegree
    requires forall k, m :: 0 <= k < m < |sorted| ==> Less(sorted[k], sorted[m])
    ensures forall n :: n in ready <==> n in sorted && indegree[n] == 0
    ensures forall k, m :: 0 <= k < m < |ready| ==> Less(ready[k], ready[m])
  {
    hide Less;
    ready := [];
    for i := 0 to |sorted|
      invariant forall n :: n in ready <==> n in sorted[..i] && indegree[n] == 0
      invariant forall k, m :: 0 <= k < m < |ready| ==> Less(ready[k], ready[m])
    {
      assert forall k :: 0 <= k < |ready| ==> ready[k] in ready && ready[k] in sorted[..i];
      if indegree[sorted[i]] == 0 {
        ready := ready + [sorted[i]];
      }
    }
    assert sorted[..|sorted|] == sorted;
  }

  // What Kahn's loop keeps: the order so far is greedy, in-degrees count the needs still to be emitted, and the
  // ready list holds the ready names in order.
  ghost predicate Draining(jobs: Jobs, order: seq<string>, indegree: map<string, int>, ready: seq<string>) {
    && Greedy(jobs, order) && Distinct(order) && (forall n :: n in order ==> n in jobs)
    && indegree.Keys == jobs.Keys && (forall n :: n in jobs ==> indegree[n] == |Missing(jobs, order, n)|)
    && (forall n :: n in ready <==> Ready(jobs, order, n))
    && (forall k, m :: 0 <= k < m < |ready| ==> Less(ready[k], ready[m]))
  }

  lemma DrainingStarts(jobs: Jobs, indegree: map<string, int>, sorted: seq<string>, ready: seq<string>)
    requires forall n :: n in sorted <==> n in jobs
    requires forall n :: n in jobs ==> NeedsOk(jobs, n)
    requires indegree.Keys == jobs.Keys && forall n :: n in jobs ==> indegree[n] == |jobs[n].needs|
    requires forall n :: n in ready <==> n in sorted && indegree[n] == 0
    requires forall k, m :: 0 <= k < m < |ready| ==> Less(ready[k], ready[m])
    ensures Draining(jobs, [], indegree, ready)
  {
    hide Less, Ready;
    forall n | n in jobs ensures indegree[n] == |Missing(jobs, [], n)| {
      assert NeedsOk(jobs, n);
      EnumerationSize(jobs[n].needs, Missing(jobs, [], n));
    }
    ReadyHasNoneMissing(jobs, []);
  }

  lemma EmitsNext(jobs: Jobs, order: seq<string>, indegree: map<string, int>, ready: seq<string>)
    requires Draining(jobs, order, indegree, ready) && ready != []
    ensures ready[0] in jobs.Keys - Names(order) && forall n :: n in order + [ready[0]] ==> n in jobs
    ensures Greedy(jobs, order + [ready[0]]) && Distinct(order + [ready[0]])
  {
    hide Less, Greedy;
    assert ready[0] in ready;
    forall n | Ready(jobs, order, n) && n != ready[0] ensures Less(ready[0], n) {
      assert n in ready;
    }
    Extend(jobs, order, ready[0]);
  }

  lemma DrainingEnds(jobs: Jobs, order: seq<string>, indegree: map<string, int>, ready: seq<string>)
    requires Draining(jobs, order, indegree, ready) && ready == []
    ensures Greedy(jobs, order) && Distinct(order) && (forall n :: n in order ==> n in jobs)
    ensures forall n :: !Ready(jobs, order, n)
  {
    hide Greedy, Ready;
  }

  lemma ReadyHasNoneMissing(jobs: Jobs, done: seq<string>)
    ensures forall n :: Ready(jobs, done, n) <==> n in jobs && n !in done && |Missing(jobs, done, n)| == 0
  {
    forall n | n in jobs ensures Ready(jobs, done, n) <==> n !in done && |Missing(jobs, done, n)| == 0 {
      if |Missing(jobs, done, n)| == 0 {
        assert forall d :: d in jobs[n].needs ==> d !in Missing(jobs, done, n);
      } else {
        var d :| d in Missing(jobs, done, n);
      }
    }
  }

  // Emitting name settles one need of exactly its dependents.
  lemma MissingAfter(jobs: Jobs, done: seq<string>, name: string, n: string)
    requires n in jobs && name !in done
    ensures |Missing(jobs, done, n)| == |Missing(jobs, done + [name], n)| + if name in jobs[n].needs then 1 else 0
  {
    var longer := Missing(jobs, done + [name], n);
    if name in jobs[n].needs {
      assert Missing(jobs, done, n) == longer + {name};
    } else {
      assert Missing(jobs, done, n) == longer;
    }
  }

  // The body of Kahn's loop: name leaves the ready list, dependents whose last need it was enter.
  method Release(jobs: Jobs, ghost order: seq<string>, name: string, degrees: map<string, int>,
                 waiting: seq<string>, dependents: Lists)
    returns (indegree: map<string, int>, ready: seq<string>)
    requires forall n :: n in jobs ==> NeedsOk(jobs, n)
    requires Inverts(jobs, jobs.Keys, dependents)
    requires Draining(jobs, order, degrees, waiting) && waiting != [] && waiting[0] == name
    ensures Draining(jobs, order + [name], indegree, ready)
  {
    assert Enumerates(Listed(dependents, name), Dependents(jobs, jobs.Keys, name));
    hide Inverts, Listed, Greedy, NeedsOk, Less, Draining, Distinct, Owing, Dependents, Missing;
    var released := SortStrings(Listed(dependents, name));
    ghost var longer := order + [name];
    ghost var target := map n | n in jobs :: |Missing(jobs, longer, n)|;
    ghost var owed := Dependents(jobs, jobs.Keys, name);
    EmitsNext(jobs, order, degrees, waiting);
    BeforeRelease(jobs, order, name, degrees, waiting, target);
    indegree, ready := Decrement(released, degrees, waiting[1..], target, owed, Names(longer));
    AfterRelease(jobs, longer, target, ready);
  }

  ghost function Names(order: seq<string>): set<string> {
    set n | n in order
  }

  // Of the in-degrees, one is still owed to each name in owed; the ready list holds what is not emitted and has
  // in-degree zero, in order.
  ghost predicate Owing(target: map<string, int>, indegree: map<string, int>, owed: set<string>, emitted: set<string>,
                        ready: seq<string>) {
    && indegree.Keys == target.Keys && owed <= target.Keys && owed !! emitted
    && (forall n :: n in target ==> target[n] >= 0 && indegree[n] == target[n] + if n in owed then 1 else 0)
    && (forall n :: n in ready <==> n in target && n !in emitted && indegree[n] == 0)
    && (forall k, m :: 0 <= k < m < |ready| ==> Less(ready[k], ready[m]))
  }

  lemma BeforeRelease(jobs: Jobs, order: seq<string>, name: string, degrees: map<string, int>,
                      waiting: seq<string>, target: map<string, int>)
    requires forall n :: n in jobs ==> NeedsOk(jobs, n)
    requires Draining(jobs, order, degrees, waiting) && waiting != [] && waiting[0] == name
    requires target == map n | n in jobs :: |Missing(jobs, order + [name], n)|
    ensures Owing(target, degrees, Dependents(jobs, jobs.Keys, name), Names(order + [name]), waiting[1..])
  {
    hide NeedsOk, Less, Missing, Dependents, Draining, Names;
    DegreesOwe(jobs, order, name, degrees, waiting, target);
    WaitingRest(jobs, order, name, degrees, waiting);
  }

  lemma WaitingRest(jobs: Jobs, order: seq<string>, name: string, degrees: map<string, int>, waiting: seq<string>)
    requires Draining(jobs, order, degrees, waiting) && waiting != [] && waiting[0] == name
    ensures forall n :: n in waiting[1..] <==> n in jobs && n !in Names(order + [name]) && degrees[n] == 0
    ensures forall k, m :: 0 <= k < m < |waiting[1..]| ==> Less(waiting[1..][k], waiting[1..][m])
  {
    hide Greedy, Ready, Less, Distinct, Missing;
    ReadyHasNoneMissing(jobs, order);
    RestWaits(waiting);
  }

  lemma DegreesOwe(jobs: Jobs, order: seq<string>, name: string, degrees: map<string, int>, waiting: seq<string>,
                   target: map<string, int>)
    requires forall n :: n in jobs ==> NeedsOk(jobs, n)
    requires Draining(jobs, order, degrees, waiting) && waiting != [] && waiting[0] == name
    requires target == map n | n in jobs :: |Missing(jobs, order + [name], n)|
    ensures var owed := Dependents(jobs, jobs.Keys, name);
      && degrees.Keys == target.Keys && owed <= target.Keys && owed !! Names(order + [name])
      && forall n :: n in target ==> target[n] >= 0 && degrees[n] == target[n] + if n in owed then 1 else 0
  {
    EmitsNext(jobs, order, degrees, waiting);
    hide Greedy, NeedsOk, Distinct, Less, Ready;
    forall n | n in jobs
      ensures degrees[n] == target[n] + if name in jobs[n].needs then 1 else 0
      ensures name in jobs[n].needs ==> n !in Names(order + [name])
    {
      MissingAfter(jobs, order, name, n);
      DependentNotEmitted(jobs, order, name, n);
    }
    hide Missing;
  }

  lemma RestWaits(waiting: seq<string>)
    requires waiting != [] && forall k, m :: 0 <= k < m < |waiting| ==> Less(waiting[k], waiting[m])
    ensures forall n :: n in waiting[1..] <==> n in waiting && n != waiting[0]
  {
    LessTotal(waiting[0], waiting[0]);
    assert waiting == [waiting[0]] + waiting[1..];
    hide Less;
  }

  lemma AfterRelease(jobs: Jobs, order: seq<string>, target: map<string, int>, ready: seq<string>)
    requires Greedy(jobs, order) && Distinct(order) && forall n :: n in order ==> n in jobs
    requires target == map n | n in jobs :: |Missing(jobs, order, n)|
    requires Owing(target, target, {}, Names(order), ready)
    ensures Draining(jobs, order, target, ready)
  {
    hide Greedy, Less, Ready, Missing, Distinct;
    ReadyHasNoneMissing(jobs, order);
  }

  // Takes one off the degree of every released job; those that reach zero join the sorted list.
  method Decrement(released: seq<string>, degrees: map<string, int>, waiting: seq<string>,
                   ghost target: map<string, int>, ghost owed: set<string>, ghost emitted: set<string>)
    returns (indegree: map<string, int>, ready: seq<string>)
    requires Distinct(released) && forall n :: n in released <==> n in owed
    requires Owing(target, degrees, owed, emitted, waiting)
    ensures indegree == target && Owing(target, target, {}, emitted, ready)
  {
    hide Owing, Less;
    indegree, ready := degrees, waiting;
    var i := 0;
    ghost var left := owed;
    while i < |released|
      invariant i <= |released| && forall n :: n in left <==> n in released[i..]
      invariant Owing(target, indegree, left, emitted, ready)
    {
      var dependent := released[i];
      LeftAfter(released, left, i);
      OwesOne(target, indegree, left, emitted, ready, dependent);
      ghost var before, waited := indegree, ready;
      indegree := indegree[dependent := indegree[dependent] - 1];
      if indegree[dependent] == 0 {
        ready := SortStrings(ready + [dependent]);
      }
      OwesLess(target, before, left, emitted, waited, dependent, ready);
      left := left - {dependent};
      i := i + 1;
    }
    assert left == {};
    OwesNothing(target, indegree, emitted, ready);
  }

  lemma OwesOne(target: map<string, int>, indegree: map<string, int>, owed: set<string>, emitted: set<string>,
                ready: seq<string>, n: string)
    requires Owing(target, indegree, owed, emitted, ready) && n in owed
    ensures n in indegree && indegree[n] >= 1 && Distinct(ready + [n])
  {
    forall i, j | 0 <= i < j < |ready| ensures ready[i] != ready[j] {
      LessTotal(ready[i], ready[i]);
    }
    hide Less;
    assert n !in ready;
    DistinctConcat(ready, [n]);
  }

  lemma OwesLess(target: map<string, int>, indegree: map<string, int>, owed: set<string>, emitted: set<string>,
                 ready: seq<string>, n: string, ready': seq<string>)
    requires Owing(target, indegree, owed, emitted, ready) && n in owed
    requires if indegree[n] == 1 then (forall x :: x in ready' <==> x in ready + [n])
                                      && forall i, j :: 0 <= i < j < |ready'| ==> Less(ready'[i], ready'[j])
             else ready' == ready
    ensures Owing(target, indegree[n := indegree[n] - 1], owed - {n}, emitted, ready')
  {
    hide Less;
  }

  lemma OwesNothing(target: map<string, int>, indegree: map<string, int>, emitted: set<string>, ready: seq<string>)
    requires Owing(target, indegree, {}, emitted, ready)
    ensures indegree == target
  {
  }

  lemma LeftAfter(released: seq<string>, left: set<string>, i: nat)
    requires Distinct(released) && i < |released| && forall n :: n in left <==> n in released[i..]
    ensures released[i] in left && forall n :: n in left - {released[i]} <==> n in released[i + 1..]
  {
    assert released[i..] == [released[i]] + released[i + 1..];
    assert released[i] !in released[i + 1..];
  }

  lemma DependentNotEmitted(jobs: Jobs, order: seq<string>, name: string, n: string)
    requires n in jobs && name in jobs && NeedsOk(jobs, name)
    requires Greedy(jobs, order + [name]) && Distinct(order + [name])
    ensures name in jobs[n].needs ==> n !in order + [name]
  {
    var longer := order + [name];
    if k :| 0 <= k < |longer| && longer[k] == n {
      assert Ready(jobs, longer[..k], n);
      assert forall d :: d in longer[..k] ==> d in order;
      assert longer[|order|] == name;
    }
  }
}
