/**
 What the end of a call means: calls follow one another in one run of the transition system, and
 calls that nobody disturbs end as they should.
 */
module Calls {
  import opened Text
  import opened Feed
  import opened Naming
  import opened Objects
  import opened Builders
  import opened Protocol
  import opened Growth
  import opened Confluence
  import opened Progress
  import opened Operator
  import opened Views

  // ----- The record of success -----

  lemma RememberAdvance(cat: Catalog, w: World, id: OwnerId, j: OwnerId, p: Pass)
    ensures Advance(cat, Remember(w, id), j, p) == Remember(Advance(cat, w, j, p), id)
  {
    assert (w.done + {id}) + {j} == (w.done + {j}) + {id};
  }

  lemma RememberLook(cat: Catalog, w: World, id: OwnerId, j: OwnerId)
    ensures LookStep(cat, Remember(w, id), j) == Remember(LookStep(cat, w, j), id)
  {
    if Hits(cat, w, j) {
      RememberAdvance(cat, w, id, j, w.passes[j]);
    }
  }

  lemma RememberMade(cat: Catalog, w: World, id: OwnerId, j: OwnerId)
    ensures Creates(cat, Remember(w, id), j) == Creates(cat, w, j)
    ensures CanCreate(cat, Remember(w, id), j) == CanCreate(cat, w, j)
    ensures Creates(cat, w, j) ==> Made(cat, Remember(w, id), j) == Remember(Made(cat, w, j), id)
  {
  }

  lemma RememberCreate(cat: Catalog, w: World, id: OwnerId, j: OwnerId)
    ensures CreateStep(cat, Remember(w, id), j) == Remember(CreateStep(cat, w, j), id)
    ensures LoseStep(cat, Remember(w, id), j) == Remember(LoseStep(cat, w, j), id)
  {
    RememberMade(cat, w, id, j);
    if Creates(cat, w, j) {
      RememberAdvance(cat, Made(cat, w, j), id, j, w.passes[j]);
    }
  }

  // No step asks who has had an error-free pass.
  lemma RememberStep(cat: Catalog, w: World, id: OwnerId, l: Label)
    ensures Step(cat, Remember(w, id), l) == Remember(Step(cat, w, l), id)
  {
    match l
    case Look(j) => RememberLook(cat, w, id, j);
    case Create(j) => RememberCreate(cat, w, id, j);
    case Lose(j) => RememberCreate(cat, w, id, j);
    case _ =>
  }

  lemma {:induction false} RememberTrace(cat: Catalog, w: World, id: OwnerId, trace: seq<Label>)
    ensures Exec(cat, Remember(w, id), trace) == Remember(Exec(cat, w, trace), id)
  {
    if trace == [] {
      assert Exec(cat, w, trace) == w;
    } else {
      RememberTrace(cat, w, id, trace[..|trace| - 1]);
      RememberStep(cat, Exec(cat, w, trace[..|trace| - 1]), id, trace[|trace| - 1]);
    }
  }

  // ----- A call is a run -----

  // The steps a call can be made of.
  ghost predicate CallStep(sc: Scene, l: Label) {
    sc.May(l) || l == Begin(sc.id)
  }

  ghost predicate AllCallSteps(sc: Scene, trace: seq<Label>) {
    forall l :: l in trace ==> CallStep(sc, l)
  }

  lemma AfreshByTrace(sc: Scene, a: World, w: World, err: Option<ApiError>) returns (trace: seq<Label>)
    requires CalledAfresh(sc, a, w, err)
    ensures Exec(sc.Cat(), a, trace) == w && AllCallSteps(sc, trace)
  {
    if NoPassBegan(sc, a, w, err) {
      trace := ReachedByTrace(sc, a, w);
    } else {
      var r :| ReadAt(sc, a, r) && PassEnded(sc, r, w, err);
      var first := ReachedByTrace(sc, a, r);
      var last := ReachedByTrace(sc, BeginStep(r, sc.id), w);
      ExecOneMore(sc.Cat(), a, first, Begin(sc.id));
      ExecAppend(sc.Cat(), a, first + [Begin(sc.id)], last);
      trace := first + [Begin(sc.id)] + last;
    }
  }

  /** A call takes the world along a trace of its own steps and the announced ones, so what is
      proved of traces holds of calls. */
  lemma CalledByTrace(sc: Scene, a: World, b: World, err: Option<ApiError>) returns (trace: seq<Label>)
    requires Called(sc, a, b, err)
    ensures Exec(sc.Cat(), a, trace) == b && AllCallSteps(sc, trace)
  {
    var w :| CalledAfresh(sc, Forget(a, sc.id), w, err) && b == if sc.id in a.done then Remember(w, sc.id) else w;
    trace := AfreshByTrace(sc, Forget(a, sc.id), w, err);
    if sc.id in a.done {
      RememberTrace(sc.Cat(), Forget(a, sc.id), sc.id, trace);
      assert Remember(Forget(a, sc.id), sc.id) == a;
    } else {
      assert Forget(a, sc.id) == a;
    }
  }

  // ----- Many calls -----

  // A call the worker is to make, and what comes between its API calls.
  datatype Job = Job(request: OwnerId, turns: seq<Turn>)

  function SceneOf(parses: QuantityParser, job: Job): Scene {
    Scene(parses, job.request, job.turns)
  }

  // Nobody but this worker runs passes for the owners it serves.
  ghost predicate Exclusive(jobs: seq<Job>) {
    forall i: Job, j: Job, t: Turn, l: Label :: i in jobs && j in jobs && t in i.turns && l in t.others ==>
      !Own(j.request, l)
  }

  // Each call takes one world to the next.
  ghost predicate Chain(parses: QuantityParser, jobs: seq<Job>, worlds: seq<World>, errs: seq<Option<ApiError>>) {
    && |errs| == |jobs| && |worlds| == |jobs| + 1
    && forall i {:trigger errs[i]} :: 0 <= i < |jobs| ==>
         Called(SceneOf(parses, jobs[i]), worlds[i], worlds[i + 1], errs[i])
  }

  lemma ChainOn(parses: QuantityParser, jobs: seq<Job>, worlds: seq<World>, errs: seq<Option<ApiError>>,
                job: Job, w: World, err: Option<ApiError>)
    requires Chain(parses, jobs, worlds, errs) && Called(SceneOf(parses, job), worlds[|jobs|], w, err)
    ensures Chain(parses, jobs + [job], worlds + [w], errs + [err])
  {
  }

  lemma {:induction false} KeyedRun(cat: Catalog, w: World, trace: seq<Label>)
    requires Keyed(w)
    ensures Keyed(Exec(cat, w, trace))
  {
    if trace == [] {
      assert Exec(cat, w, trace) == w;
    } else {
      KeyedRun(cat, w, trace[..|trace| - 1]);
      KeyedStep(cat, Exec(cat, w, trace[..|trace| - 1]), trace[|trace| - 1]);
    }
  }

  lemma {:induction false} NoPassRun(cat: Catalog, w: World, trace: seq<Label>, id: OwnerId)
    requires id !in w.passes && forall l :: l in trace ==> !Own(id, l)
    ensures id !in Exec(cat, w, trace).passes
  {
    if trace == [] {
      assert Exec(cat, w, trace) == w;
    } else {
      NoPassRun(cat, w, trace[..|trace| - 1], id);
      OthersKeepPass(cat, Exec(cat, w, trace[..|trace| - 1]), trace[|trace| - 1], id);
    }
  }

  lemma {:induction false} DoneRun(cat: Catalog, w: World, trace: seq<Label>)
    ensures w.done <= Exec(cat, w, trace).done
  {
    if trace == [] {
      assert Exec(cat, w, trace) == w;
    } else {
      DoneRun(cat, w, trace[..|trace| - 1]);
      DoneStays(cat, Exec(cat, w, trace[..|trace| - 1]), trace[|trace| - 1]);
    }
  }

  // A call leaves the owners under their names, and no pass of the served owners in flight.
  lemma CallKeeps(parses: QuantityParser, jobs: seq<Job>, job: Job, a: World, b: World, err: Option<ApiError>)
    requires job in jobs && Exclusive(jobs) && Called(SceneOf(parses, job), a, b, err) && Keyed(a)
    requires (forall j :: j in jobs ==> j.request !in a.passes) && job.request !in b.passes
    ensures Keyed(b) && forall j :: j in jobs ==> j.request !in b.passes
  {
    var trace := CalledByTrace(SceneOf(parses, job), a, b, err);
    KeyedRun(Atomix(parses), a, trace);
    forall j | j in jobs
      ensures j.request !in b.passes
    {
      if j.request != job.request {
        NoPassRun(Atomix(parses), a, trace, j.request);
      }
    }
  }

  ghost predicate JobStep(parses: QuantityParser, jobs: seq<Job>, l: Label) {
    exists j: Job :: j in jobs && CallStep(SceneOf(parses, j), l)
  }

  ghost predicate AllJobSteps(parses: QuantityParser, jobs: seq<Job>, trace: seq<Label>) {
    forall l :: l in trace ==> JobStep(parses, jobs, l)
  }

  /** All calls of a worker together are one run of the transition system, in which each world
      between two calls is reached. */
  lemma {:induction false} ChainByTrace(parses: QuantityParser, jobs: seq<Job>, worlds: seq<World>,
                                        errs: seq<Option<ApiError>>, from: nat, n: nat) returns (trace: seq<Label>)
    requires Chain(parses, jobs, worlds, errs) && from <= n <= |jobs|
    ensures Exec(Atomix(parses), worlds[from], trace) == worlds[n] && AllJobSteps(parses, jobs, trace)
  {
    if n == from {
      trace := [];
    } else {
      var first := ChainByTrace(parses, jobs, worlds, errs, from, n - 1);
      assert Called(SceneOf(parses, jobs[n - 1]), worlds[n - 1], worlds[n], errs[n - 1]);
      var last := CalledByTrace(SceneOf(parses, jobs[n - 1]), worlds[n - 1], worlds[n], errs[n - 1]);
      assert forall l :: l in last ==> CallStep(SceneOf(parses, jobs[n - 1]), l) && jobs[n - 1] in jobs;
      ExecAppend(Atomix(parses), worlds[from], first, last);
      trace := first + last;
    }
  }

  ghost predicate QuietTurns(jobs: seq<Job>) {
    forall j: Job, t: Turn, l: Label :: j in jobs && t in j.turns && l in t.others ==> Quiet(l)
  }

  lemma JobsAreQuiet(parses: QuantityParser, jobs: seq<Job>, trace: seq<Label>)
    requires AllJobSteps(parses, jobs, trace) && QuietTurns(jobs)
    ensures AllQuiet(trace)
  {
    forall i | 0 <= i < |trace|
      ensures Quiet(trace[i])
    {
      assert JobStep(parses, jobs, trace[i]);
    }
  }

  lemma ChainIsQuiet(parses: QuantityParser, jobs: seq<Job>, worlds: seq<World>, errs: seq<Option<ApiError>>, n: nat)
    requires Chain(parses, jobs, worlds, errs) && QuietTurns(jobs) && n <= |jobs|
    requires StartsQuiet(Atomix(parses), worlds[0])
    ensures QuietWorld(Atomix(parses), worlds[0], worlds[n])
  {
    var trace := ChainByTrace(parses, jobs, worlds, errs, 0, n);
    JobsAreQuiet(parses, jobs, trace);
    QuietReached(Atomix(parses), worlds[0], trace);
  }

  /** Confluence reaches the code: when no specs are edited meanwhile and no two owners want a key
      that was not there, what any sequence of calls leaves in the store is the initial store
      plus desired objects only, and once every owner is on record as done it is the one final
      store. */
  lemma CallsAreConfluent(parses: QuantityParser, jobs: seq<Job>, worlds: seq<World>, errs: seq<Option<ApiError>>)
    requires Chain(parses, jobs, worlds, errs) && QuietTurns(jobs) && StartsQuiet(Atomix(parses), worlds[0])
    requires Uncontested(Atomix(parses), worlds[0].owners, worlds[0].store)
    ensures OnlyDesiredAdded(Atomix(parses), worlds[0], worlds[|jobs|].store)
    ensures worlds[|jobs|].done == worlds[0].owners.Keys ==> Final(Atomix(parses), worlds[0], worlds[|jobs|].store)
  {
    ChainIsQuiet(parses, jobs, worlds, errs, |jobs|);
    OnlyDesired(Atomix(parses), worlds[0], worlds[|jobs|]);
    if worlds[|jobs|].done == worlds[0].owners.Keys {
      DoneMeansFinal(Atomix(parses), worlds[0], worlds[|jobs|]);
    }
  }

  // A nil result, as long as the cache shows the owner, means that its pass went through.
  lemma NilMeansDone(sc: Scene, a: World, b: World)
    requires Called(sc, a, b, None) && sc.id in b.ownerCache
    ensures sc.id in b.done
  {
    var w :| CalledAfresh(sc, Forget(a, sc.id), w, None) && b == if sc.id in a.done then Remember(w, sc.id) else w;
    if NoPassBegan(sc, Forget(a, sc.id), w, None) {
      assert w.ownerCache == b.ownerCache;
    }
  }

  lemma OwnersStayCached(cat: Catalog, w: World, l: Label)
    requires Growing(cat, w) && Quiet(l)
    ensures w.ownerCache.Keys <= Step(cat, w, l).ownerCache.Keys
  {
    match l
    case Look(id) => LookOnlyMoves(cat, w, id);
    case Create(id) => CreateOnlyAdds(cat, w, id);
    case Lose(id) => CreateOnlyAdds(cat, w, id);
    case SyncOwner(id, n) => KeysStay(w.ownerCache, w.ownerNews, id, n);
    case _ =>
  }

  lemma KeysStay(copy: map<OwnerId, Owner>, news: map<OwnerId, seq<Option<Owner>>>, id: OwnerId, n: nat)
    requires NoneGone(news)
    ensures copy.Keys <= Learn(copy, news, id, n).Keys
  {
    if n < |Pending(news, id)| {
      assert Pending(news, id)[n] in news[id];
    }
  }

  lemma {:induction false} OwnersStayCachedRun(cat: Catalog, w: World, trace: seq<Label>)
    requires Ready(cat, w) && AllQuiet(trace)
    ensures w.ownerCache.Keys <= Exec(cat, w, trace).ownerCache.Keys
  {
    if trace == [] {
      assert Exec(cat, w, trace) == w;
    } else {
      OwnersStayCachedRun(cat, w, trace[..|trace| - 1]);
      ReadyFrom(cat, w, trace[..|trace| - 1]);
      OwnersStayCached(cat, Exec(cat, w, trace[..|trace| - 1]), trace[|trace| - 1]);
    }
  }

  // Some call for this owner returned nil.
  ghost predicate NilFor(jobs: seq<Job>, errs: seq<Option<ApiError>>, id: OwnerId)
    requires |errs| == |jobs|
  {
    exists i {:trigger errs[i]} :: 0 <= i < |jobs| && jobs[i].request == id && errs[i] == None
  }

  lemma NilAt(parses: QuantityParser, jobs: seq<Job>, worlds: seq<World>, errs: seq<Option<ApiError>>, i: nat)
    requires Chain(parses, jobs, worlds, errs) && QuietTurns(jobs) && StartsQuiet(Atomix(parses), worlds[0])
    requires i < |jobs| && errs[i] == None && jobs[i].request in worlds[0].ownerCache
    ensures jobs[i].request in worlds[i + 1].done
  {
    var before := ChainByTrace(parses, jobs, worlds, errs, 0, i + 1);
    JobsAreQuiet(parses, jobs, before);
    QuietStart(Atomix(parses), worlds[0]);
    OwnersStayCachedRun(Atomix(parses), worlds[0], before);
    NilMeansDone(SceneOf(parses, jobs[i]), worlds[i], worlds[i + 1]);
  }

  lemma NilOnce(parses: QuantityParser, jobs: seq<Job>, worlds: seq<World>, errs: seq<Option<ApiError>>, id: OwnerId)
    requires Chain(parses, jobs, worlds, errs) && QuietTurns(jobs) && StartsQuiet(Atomix(parses), worlds[0])
    requires id in worlds[0].ownerCache && NilFor(jobs, errs, id)
    ensures id in worlds[|jobs|].done
  {
    var i :| 0 <= i < |jobs| && jobs[i].request == id && errs[i] == None;
    NilAt(parses, jobs, worlds, errs, i);
    var after := ChainByTrace(parses, jobs, worlds, errs, i + 1, |jobs|);
    DoneRun(Atomix(parses), worlds[i + 1], after);
  }

  /** From end to end: when no specs are edited meanwhile, no two owners want a key that was not
      there, the cache shows every owner from the start, and for every owner some call returned
      nil, then the store is the one final store, however often other calls failed. */
  lemma NilForAllMeansFinal(parses: QuantityParser, jobs: seq<Job>, worlds: seq<World>, errs: seq<Option<ApiError>>)
    requires Chain(parses, jobs, worlds, errs) && QuietTurns(jobs) && StartsQuiet(Atomix(parses), worlds[0])
    requires Uncontested(Atomix(parses), worlds[0].owners, worlds[0].store)
    requires forall id :: id in worlds[0].owners ==> id in worlds[0].ownerCache && NilFor(jobs, errs, id)
    ensures Final(Atomix(parses), worlds[0], worlds[|jobs|].store)
  {
    var w0, w := worlds[0], worlds[|jobs|];
    forall id | id in w0.owners
      ensures id in w.done
    {
      NilOnce(parses, jobs, worlds, errs, id);
    }
    ChainIsQuiet(parses, jobs, worlds, errs, |jobs|);
    EveryoneDone(Atomix(parses), w0, w);
  }

  lemma EveryoneDone(cat: Catalog, w0: World, w: World)
    requires QuietWorld(cat, w0, w) && Uncontested(cat, w0.owners, w0.store)
    requires forall id :: id in w0.owners ==> id in w.done
    ensures Final(cat, w0, w.store)
  {
    assert w.done == w0.owners.Keys;
    DoneMeansFinal(cat, w0, w);
  }

  // ----- Calls that nobody disturbs -----

  // The pass's own steps that can happen when no call fails.
  predicate OwnStep(id: OwnerId, l: Label) {
    l == Look(id) || l == Create(id)
  }

  lemma OnlyOwnSteps(sc: Scene, l: Label)
    requires sc.turns == [] && sc.May(l)
    ensures OwnStep(sc.id, l)
  {
  }

  // Without a pass there is nothing for these steps to do.
  lemma IdleReaches(sc: Scene, a: World, b: World)
    requires sc.turns == [] && sc.id !in a.passes && Reaches(sc, a, b)
    ensures b == a
  {
    var ws: seq<World>, ls: seq<Label> :| IsRun(sc, ws, ls) && ws[0] == a && ws[|ls|] == b;
    for i := 0 to |ls|
      invariant ws[i] == a
    {
      OnlyOwnSteps(sc, ls[i]);
      Refuses(sc.Cat(), a, sc.id);
    }
  }

  // The cache shows every object of the owner's plan.
  ghost predicate AllCached(w: World, id: OwnerId) {
    forall i :: 0 <= i < |Plan(id)| ==> Plan(id)[i] in w.cache
  }

  ghost predicate Settled(a: World, w: World, id: OwnerId) {
    w.store == a.store && w.cache == a.cache && (id in w.passes ==> w.passes[id].misses == 0)
  }

  lemma SettledStep(cat: Catalog, a: World, w: World, id: OwnerId, l: Label)
    requires (forall i :: 0 <= i < |cat.plan(id)| ==> cat.plan(id)[i] in a.cache) && 0 < cat.looks(id.kind)
    requires Settled(a, w, id) && OwnStep(id, l)
    ensures Settled(a, Step(cat, w, l), id)
  {
    if l == Look(id) {
      LookOnlyMoves(cat, w, id);
    } else {
      Refuses(cat, w, id);
    }
  }

  lemma SettledReaches(sc: Scene, a: World, start: World, b: World)
    requires sc.turns == [] && AllCached(a, sc.id) && Settled(a, start, sc.id) && Reaches(sc, start, b)
    ensures Settled(a, b, sc.id)
  {
    var ws: seq<World>, ls: seq<Label> :| IsRun(sc, ws, ls) && ws[0] == start && ws[|ls|] == b;
    for i := 0 to |ls|
      invariant Settled(a, ws[i], sc.id)
    {
      OnlyOwnSteps(sc, ls[i]);
      SettledStep(sc.Cat(), a, ws[i], sc.id, ls[i]);
    }
  }

  // So a pass never gets to create.
  lemma SettledPass(sc: Scene, a: World, start: World, w: World, p: Pass)
    requires sc.turns == [] && AllCached(a, sc.id) && Settled(a, start, sc.id)
    requires Reaches(sc, start, With(w, sc.id, p))
    ensures !AtCreate(sc, p)
  {
    SettledReaches(sc, a, start, With(w, sc.id, p));
  }

  lemma SettledEnds(sc: Scene, a: World, w: World, err: Option<ApiError>)
    requires sc.turns == [] && AllCached(a, sc.id) && sc.id !in a.passes && PassEnded(sc, a, w, err)
    ensures err == None && w.store == a.store && w.cache == a.cache
  {
    var start := BeginStep(a, sc.id);
    SettledReaches(sc, a, start, w);
    forall p: Pass | Reaches(sc, start, With(w, sc.id, p))
      ensures !AtCreate(sc, p)
    {
      SettledPass(sc, a, start, w, p);
    }
  }

  /** A call that nobody disturbs, against a cache that shows all the owner's keys, stores nothing
      and returns nil. */
  lemma SettledCall(sc: Scene, a: World, b: World, err: Option<ApiError>)
    requires sc.turns == [] && AllCached(a, sc.id) && sc.id !in a.passes && Called(sc, a, b, err)
    ensures err == None && b.store == a.store && b.cache == a.cache
  {
    var a0 := Forget(a, sc.id);
    var w :| CalledAfresh(sc, a0, w, err) && b == if sc.id in a.done then Remember(w, sc.id) else w;
    if NoPassBegan(sc, a0, w, err) {
      IdleReaches(sc, a0, w);
    } else {
      var r :| ReadAt(sc, a0, r) && PassEnded(sc, r, w, err);
      IdleReaches(sc, a0, r);
      SettledEnds(sc, a0, w, err);
    }
  }

  // ----- Fresh calls -----

  // Nothing that the owner's pass will look up is stored without the cache showing it.
  ghost predicate NoneHidden(plan: seq<Key>, store: map<Key, Object>, cache: map<Key, Object>, from: nat) {
    forall i :: from <= i < |plan| ==> plan[i] in cache || plan[i] !in store
  }

  ghost predicate AllThere(plan: seq<Key>, store: map<Key, Object>, cache: map<Key, Object>, n: nat) {
    forall i :: 0 <= i < n && i < |plan| ==> plan[i] in cache || plan[i] in store
  }

  // The owner's only pass is under way over o, or has gone through.
  ghost predicate Fresh(cat: Catalog, a: World, w: World, id: OwnerId, o: Owner) {
    && w.cache == a.cache
    && if id in w.passes then FreshPass(cat, w, id, o, w.passes[id])
       else id in w.done && AllThere(cat.plan(id), w.store, w.cache, |cat.plan(id)|)
  }

  ghost predicate FreshPass(cat: Catalog, w: World, id: OwnerId, o: Owner, p: Pass) {
    && p.owner == o && p.step < |cat.plan(id)|
    && AllThere(cat.plan(id), w.store, w.cache, p.step) && NoneHidden(cat.plan(id), w.store, w.cache, p.step)
    && (0 < p.misses ==> cat.plan(id)[p.step] !in w.cache)
  }

  ghost predicate DistinctKeys(plan: seq<Key>) {
    forall i, j :: 0 <= i < j < |plan| ==> plan[i] != plan[j]
  }

  lemma FreshAdvance(cat: Catalog, a: World, w: World, id: OwnerId, p: Pass)
    requires w.cache == a.cache && p.step < |cat.plan(id)|
    requires AllThere(cat.plan(id), w.store, w.cache, p.step + 1)
    requires NoneHidden(cat.plan(id), w.store, w.cache, p.step + 1)
    ensures Fresh(cat, a, Advance(cat, w, id, p), id, p.owner)
  {
  }

  lemma FreshLook(cat: Catalog, a: World, w: World, id: OwnerId, o: Owner)
    requires Fresh(cat, a, w, id, o)
    ensures Fresh(cat, a, LookStep(cat, w, id), id, o)
  {
    if Hits(cat, w, id) {
      FreshAdvance(cat, a, w, id, w.passes[id]);
    } else if CanLook(cat, w, id) {
      assert FreshPass(cat, Miss(w, id, w.passes[id]), id, o, Miss(w, id, w.passes[id]).passes[id]);
    }
  }

  // A key that the pass has missed is not stored, so its creation goes through.
  lemma FreshAccepts(cat: Catalog, w: World, id: OwnerId, o: Owner)
    requires WellFormed(cat) && CanCreate(cat, w, id) && FreshPass(cat, w, id, o, w.passes[id]) && o.id == id
    requires forall i: nat :: i < |cat.plan(id)| ==> cat.build(o, i).Built?
    ensures Creates(cat, w, id)
    ensures KeyOf(cat.build(o, w.passes[id].step).result) == cat.plan(id)[w.passes[id].step]
  {
    BuiltAtPlan(cat, o, w.passes[id].step);
  }

  lemma FreshMade(cat: Catalog, w: World, id: OwnerId, p: Pass, made: Object)
    requires p.step < |cat.plan(id)| && KeyOf(made) == cat.plan(id)[p.step] && DistinctKeys(cat.plan(id))
    requires AllThere(cat.plan(id), w.store, w.cache, p.step) && NoneHidden(cat.plan(id), w.store, w.cache, p.step)
    ensures AllThere(cat.plan(id), Insert(w, p, made).store, w.cache, p.step + 1)
    ensures NoneHidden(cat.plan(id), Insert(w, p, made).store, w.cache, p.step + 1)
  {
  }

  lemma FreshCreate(cat: Catalog, a: World, w: World, id: OwnerId, o: Owner)
    requires WellFormed(cat) && DistinctKeys(cat.plan(id)) && Fresh(cat, a, w, id, o) && o.id == id
    requires forall i: nat :: i < |cat.plan(id)| ==> cat.build(o, i).Built?
    ensures Fresh(cat, a, CreateStep(cat, w, id), id, o)
  {
    if CanCreate(cat, w, id) {
      var p := w.passes[id];
      FreshAccepts(cat, w, id, o);
      FreshMade(cat, w, id, p, cat.build(o, p.step).result);
      FreshAdvance(cat, a, Made(cat, w, id), id, p);
    } else {
      Refuses(cat, w, id);
    }
  }

  // What a fresh call needs of its owner.
  ghost predicate Buildable(sc: Scene, o: Owner) {
    && o.id == sc.id && !sc.id.kind.BenchmarkKind?
    && forall i: nat :: i < |Plan(sc.id)| ==> Build(sc.parses, o, i).Built?
  }

  lemma PlanIsDistinct(parses: QuantityParser, id: OwnerId)
    requires !id.kind.BenchmarkKind?
    ensures DistinctKeys(Atomix(parses).plan(id))
  {
    forall i, j | 0 <= i < j < |Plan(id)|
      ensures Plan(id)[i] != Plan(id)[j]
    {
      PlanRepeats(id, i, j);
    }
  }

  lemma FreshStep(sc: Scene, a: World, w: World, o: Owner, l: Label)
    requires Buildable(sc, o) && Fresh(sc.Cat(), a, w, sc.id, o) && OwnStep(sc.id, l)
    ensures Fresh(sc.Cat(), a, Step(sc.Cat(), w, l), sc.id, o)
  {
    if l == Look(sc.id) {
      FreshLook(sc.Cat(), a, w, sc.id, o);
    } else {
      AtomixIsWellFormed(sc.parses);
      PlanIsDistinct(sc.parses, sc.id);
      FreshCreate(sc.Cat(), a, w, sc.id, o);
    }
  }

  lemma FreshReaches(sc: Scene, a: World, start: World, b: World, o: Owner)
    requires sc.turns == [] && Buildable(sc, o) && Fresh(sc.Cat(), a, start, sc.id, o) && Reaches(sc, start, b)
    ensures Fresh(sc.Cat(), a, b, sc.id, o)
  {
    var ws: seq<World>, ls: seq<Label> :| IsRun(sc, ws, ls) && ws[0] == start && ws[|ls|] == b;
    for i := 0 to |ls|
      invariant Fresh(sc.Cat(), a, ws[i], sc.id, o)
    {
      OnlyOwnSteps(sc, ls[i]);
      FreshStep(sc, a, ws[i], o, ls[i]);
    }
  }

  lemma FreshEnds(sc: Scene, a: World, w: World, err: Option<ApiError>)
    requires sc.turns == [] && sc.id in a.ownerCache && sc.id !in a.passes && sc.id !in w.passes
    requires Buildable(sc, a.ownerCache[sc.id]) && NoneHidden(Plan(sc.id), a.store, a.cache, 0)
    requires PassEnded(sc, a, w, err)
    ensures err == None && w.cache == a.cache && AllThere(Plan(sc.id), w.store, a.cache, |Plan(sc.id)|)
  {
    var o, start := a.ownerCache[sc.id], BeginStep(a, sc.id);
    assert Fresh(sc.Cat(), a, start, sc.id, o);
    FreshReaches(sc, a, start, w, o);
  }

  // Undisturbed, a call finds what was there and runs its pass.
  lemma UndisturbedPass(sc: Scene, a: World, b: World, err: Option<ApiError>) returns (w: World)
    requires sc.turns == [] && sc.id in a.ownerCache && sc.id !in a.passes && Called(sc, a, b, err)
    ensures PassEnded(sc, Forget(a, sc.id), w, err) && sc.id !in w.passes
    ensures b.store == w.store && b.done == if sc.id in a.done then w.done + {sc.id} else w.done
  {
    var a0 := Forget(a, sc.id);
    w :| CalledAfresh(sc, a0, w, err) && b == if sc.id in a.done then Remember(w, sc.id) else w;
    if NoPassBegan(sc, a0, w, err) {
      IdleReaches(sc, a0, w);
    } else {
      var r :| ReadAt(sc, a0, r) && PassEnded(sc, r, w, err);
      IdleReaches(sc, a0, r);
    }
  }

  /** A first call. For a cluster or a group that the cache shows and whose spec builds, and none of
      whose keys is stored without the cache showing it, a call that nobody disturbs returns nil,
      and each of its keys is then stored, unless the cache already showed it. */
  lemma FreshCall(sc: Scene, a: World, b: World, err: Option<ApiError>)
    requires sc.turns == [] && sc.id in a.ownerCache && sc.id !in a.passes && Called(sc, a, b, err)
    requires Buildable(sc, a.ownerCache[sc.id]) && NoneHidden(Plan(sc.id), a.store, a.cache, 0)
    ensures err == None && sc.id in b.done && AllThere(Plan(sc.id), b.store, a.cache, |Plan(sc.id)|)
  {
    var w := UndisturbedPass(sc, a, b, err);
    FreshEnds(sc, Forget(a, sc.id), w, err);
  }

  // ----- A benchmark's first call -----

  // Nobody lets the cache learn of the key meanwhile, and nobody deletes its object.
  ghost predicate Unlearned(sc: Scene, k: Key) {
    forall t: Turn, l: Label :: t in sc.turns && l in t.others ==> !(l.Sync? && l.key == k) && l != Collect(k)
  }

  // The pass has not got past the second time it wants its first key.
  ghost predicate Stuck(w: World, id: OwnerId) {
    var k := Plan(id)[CONTROLLER_INIT];
    && k !in w.cache && id !in w.done
    && (id in w.passes ==> StuckPass(w.store, id, w.passes[id]))
  }

  ghost predicate StuckPass(store: map<Key, Object>, id: OwnerId, p: Pass) {
    && p.owner.id == id && p.step <= WORKER_INIT
    && (0 < p.step ==> Plan(id)[CONTROLLER_INIT] in store)
  }

  lemma InitIsShared(id: OwnerId)
    requires id.kind.BenchmarkKind?
    ensures Plan(id)[WORKER_INIT] == Plan(id)[CONTROLLER_INIT] && |Plan(id)| == 8
  {
  }

  lemma StuckAdvance(parses: QuantityParser, w: World, id: OwnerId, p: Pass)
    requires id.kind.BenchmarkKind? && Plan(id)[CONTROLLER_INIT] !in w.cache && id !in w.done
    requires p.owner.id == id && p.step < WORKER_INIT && Plan(id)[CONTROLLER_INIT] in w.store
    ensures Stuck(Advance(Atomix(parses), w, id, p), id)
  {
  }

  lemma StuckLook(parses: QuantityParser, w: World, id: OwnerId)
    requires id.kind.BenchmarkKind? && Stuck(w, id)
    ensures Stuck(LookStep(Atomix(parses), w, id), id)
  {
    InitIsShared(id);
    if Hits(Atomix(parses), w, id) {
      StuckAdvance(parses, w, id, w.passes[id]);
    } else if CanLook(Atomix(parses), w, id) {
      assert Stuck(Miss(w, id, w.passes[id]), id);
    }
  }

  lemma StuckMade(parses: QuantityParser, w: World, id: OwnerId)
    requires id.kind.BenchmarkKind? && Stuck(w, id) && Creates(Atomix(parses), w, id)
    ensures w.passes[id].step < WORKER_INIT && Plan(id)[CONTROLLER_INIT] in Made(Atomix(parses), w, id).store
    ensures Made(Atomix(parses), w, id).cache == w.cache && Made(Atomix(parses), w, id).done == w.done
  {
    InitIsShared(id);
    BuiltAtItsKey(parses, w.passes[id].owner, w.passes[id].step);
  }

  lemma StuckCreate(parses: QuantityParser, w: World, id: OwnerId)
    requires id.kind.BenchmarkKind? && Stuck(w, id)
    ensures Stuck(CreateStep(Atomix(parses), w, id), id) && Stuck(LoseStep(Atomix(parses), w, id), id)
  {
    if Creates(Atomix(parses), w, id) {
      StuckMade(parses, w, id);
      StuckAdvance(parses, Made(Atomix(parses), w, id), id, w.passes[id]);
    } else {
      Refuses(Atomix(parses), w, id);
    }
  }

  lemma OthersKeepStuck(cat: Catalog, w: World, w': World, id: OwnerId)
    requires Stuck(w, id) && SamePass(w, w', id) && (id in w'.done ==> id in w.done)
    requires Plan(id)[CONTROLLER_INIT] !in w'.cache
    requires Plan(id)[CONTROLLER_INIT] in w.store ==> Plan(id)[CONTROLLER_INIT] in w'.store
    ensures Stuck(w', id)
  {
  }

  lemma AdvanceKeepsRecord(cat: Catalog, w: World, other: OwnerId, p: Pass, id: OwnerId)
    requires other != id
    ensures id in Advance(cat, w, other, p).done ==> id in w.done
  {
  }

  lemma OthersKeepRecord(cat: Catalog, w: World, l: Label, id: OwnerId)
    requires !Own(id, l)
    ensures id in Step(cat, w, l).done ==> id in w.done
  {
    match l
    case Look(j) =>
      if Hits(cat, w, j) {
        AdvanceKeepsRecord(cat, w, j, w.passes[j], id);
      }
    case Create(j) => CreateKeepsRecord(cat, w, j, id);
    case Lose(j) => CreateKeepsRecord(cat, w, j, id);
    case _ =>
  }

  lemma CreateKeepsRecord(cat: Catalog, w: World, other: OwnerId, id: OwnerId)
    requires other != id
    ensures id in CreateStep(cat, w, other).done ==> id in w.done
    ensures id in LoseStep(cat, w, other).done ==> id in w.done
  {
    if Creates(cat, w, other) {
      AdvanceKeepsRecord(cat, Made(cat, w, other), other, w.passes[other], id);
    } else {
      Refuses(cat, w, other);
    }
  }

  lemma StoredUnlessCollected(cat: Catalog, w: World, l: Label, k: Key)
    requires l != Collect(k) && k in w.store
    ensures k in Step(cat, w, l).store
  {
    if (l.Create? || l.Lose?) && Creates(cat, w, l.id) {
      StoreMade(cat, w, l);
    } else if !l.Remove? && !l.Collect? {
      StoreKept(cat, w, l);
    }
  }

  lemma UncachedUnlessSynced(cat: Catalog, w: World, l: Label, k: Key)
    requires !(l.Sync? && l.key == k) && k !in w.cache
    ensures k !in Step(cat, w, l).cache
  {
    if !l.Sync? {
      CacheKept(cat, w, l);
    }
  }

  lemma StuckStep(sc: Scene, w: World, l: Label)
    requires sc.id.kind.BenchmarkKind? && sc.Foreign() && Unlearned(sc, Plan(sc.id)[CONTROLLER_INIT])
    requires Stuck(w, sc.id) && sc.May(l)
    ensures Stuck(Step(sc.Cat(), w, l), sc.id)
  {
    if Own(sc.id, l) {
      match l
      case Look(_) => StuckLook(sc.parses, w, sc.id);
      case Create(_) => StuckCreate(sc.parses, w, sc.id);
      case Lose(_) => StuckCreate(sc.parses, w, sc.id);
      case Fault(_) =>
    } else {
      var k := Plan(sc.id)[CONTROLLER_INIT];
      OthersKeepPass(sc.Cat(), w, l, sc.id);
      OthersKeepRecord(sc.Cat(), w, l, sc.id);
      UncachedUnlessSynced(sc.Cat(), w, l, k);
      if k in w.store {
        StoredUnlessCollected(sc.Cat(), w, l, k);
      }
      OthersKeepStuck(sc.Cat(), w, Step(sc.Cat(), w, l), sc.id);
    }
  }

  lemma StuckReaches(sc: Scene, a: World, b: World)
    requires sc.id.kind.BenchmarkKind? && sc.Foreign() && Unlearned(sc, Plan(sc.id)[CONTROLLER_INIT])
    requires Stuck(a, sc.id) && Reaches(sc, a, b)
    ensures Stuck(b, sc.id)
  {
    var ws: seq<World>, ls: seq<Label> :| IsRun(sc, ws, ls) && ws[0] == a && ws[|ls|] == b;
    for i := 0 to |ls|
      invariant Stuck(ws[i], sc.id)
    {
      StuckStep(sc, ws[i], ls[i]);
    }
  }

  /** A benchmark never gets by with one call. When the cache does not show its init ConfigMap, a
      call whose turns neither let the cache learn of it nor delete it cannot go through: created
      or found taken at the controller's step, the key is taken at the worker's. So it returns an
      error, whatever else happens, unless the cache does not show the benchmark. */
  lemma BenchmarkNeedsAnotherCall(sc: Scene, a: World, b: World, err: Option<ApiError>)
    requires sc.id.kind.BenchmarkKind? && sc.Foreign() && Unlearned(sc, Plan(sc.id)[CONTROLLER_INIT])
    requires Plan(sc.id)[CONTROLLER_INIT] !in a.cache && sc.id !in a.passes && Keyed(a) && Called(sc, a, b, err)
    ensures err == None ==> sc.id !in b.ownerCache
  {
    var a0 := Forget(a, sc.id);
    var w :| CalledAfresh(sc, a0, w, err) && b == if sc.id in a.done then Remember(w, sc.id) else w;
    if !NoPassBegan(sc, a0, w, err) {
      var r :| ReadAt(sc, a0, r) && PassEnded(sc, r, w, err);
      StuckReaches(sc, a0, r);
      KeyedRead(sc, a0, r);
      assert Stuck(BeginStep(r, sc.id), sc.id);
      StuckReaches(sc, BeginStep(r, sc.id), w);
    }
  }
}
