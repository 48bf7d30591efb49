/**
 What a single undisturbed call leaves behind for an owner of a fresh name, whether all of its
 builders work or one of them fails.
 */
module Failures {
  import opened Text
  import opened Specs
  import opened Naming
  import opened Objects
  import opened Builders
  import opened Protocol
  import opened Progress
  import opened Operator
  import opened Views
  import opened Calls
  import opened Asked

  function KeysUpTo(plan: seq<Key>, n: nat): set<Key>
    requires n <= |plan|
  {
    set k | k in plan[..n]
  }

  // The store after the first n objects of the owner's plan have been added to it.
  ghost predicate Extended(cat: Catalog, before: map<Key, Object>, store: map<Key, Object>, o: Owner, n: nat) {
    var plan := cat.plan(o.id);
    && n <= |plan| && store.Keys == before.Keys + KeysUpTo(plan, n)
    && (forall k :: k in before.Keys ==> k in store && store[k] == before[k])
    && (forall i :: 0 <= i < n ==> plan[i] in store && cat.build(o, i) == Built(store[plan[i]]))
  }

  // Nobody has stored or seen anything at the owner's keys.
  ghost predicate FreshName(plan: seq<Key>, w: World) {
    forall i :: 0 <= i < |plan| ==> plan[i] !in w.store && plan[i] !in w.cache
  }

  // The builders work up to step f, and fail there unless it is past the end.
  ghost predicate WorksUpTo(cat: Catalog, o: Owner, f: nat) {
    && f <= |cat.plan(o.id)|
    && (forall i: nat :: i < f ==> cat.build(o, i).Built?)
    && (f < |cat.plan(o.id)| ==> cat.build(o, f).Failed?)
  }

  // The owner's only pass has got to some step, or is over.
  ghost predicate Filling(cat: Catalog, a: World, w: World, o: Owner, f: nat) {
    && w.cache == a.cache
    && if o.id in w.passes then FillingPass(cat, a, w, o, f, w.passes[o.id])
       else Extended(cat, a.store, w.store, o, f) && (o.id in w.done <==> f == |cat.plan(o.id)|)
  }

  ghost predicate FillingPass(cat: Catalog, a: World, w: World, o: Owner, f: nat, p: Pass) {
    && p.owner == o && p.step <= f && p.step < |cat.plan(o.id)|
    && Extended(cat, a.store, w.store, o, p.step) && o.id !in w.done
  }

  // What the call starts from.
  ghost predicate Startable(cat: Catalog, a: World, o: Owner, f: nat) {
    WellFormed(cat) && DistinctKeys(cat.plan(o.id)) && FreshName(cat.plan(o.id), a) && WorksUpTo(cat, o, f)
  }

  lemma FillingLook(cat: Catalog, a: World, w: World, o: Owner, f: nat)
    requires Startable(cat, a, o, f) && Filling(cat, a, w, o, f)
    ensures Filling(cat, a, LookStep(cat, w, o.id), o, f)
  {
    if CanLook(cat, w, o.id) {
      var p := w.passes[o.id];
      assert FillingPass(cat, a, Miss(w, o.id, p), o, f, p.(misses := p.misses + 1));
    }
  }

  // The key of the current step is still free.
  lemma FreeKey(cat: Catalog, a: World, store: map<Key, Object>, o: Owner, n: nat)
    requires DistinctKeys(cat.plan(o.id)) && FreshName(cat.plan(o.id), a) && n < |cat.plan(o.id)|
    requires Extended(cat, a.store, store, o, n)
    ensures cat.plan(o.id)[n] !in store
  {
  }

  lemma OneMoreKey(plan: seq<Key>, before: set<Key>, n: nat)
    requires n < |plan|
    ensures before + KeysUpTo(plan, n) + {plan[n]} == before + KeysUpTo(plan, n + 1)
  {
    assert plan[..n + 1] == plan[..n] + [plan[n]];
  }

  lemma ExtendedMore(cat: Catalog, a: World, store: map<Key, Object>, o: Owner, n: nat, made: Object)
    requires DistinctKeys(cat.plan(o.id)) && FreshName(cat.plan(o.id), a) && n < |cat.plan(o.id)|
    requires Extended(cat, a.store, store, o, n)
    requires cat.build(o, n) == Built(made) && KeyOf(made) == cat.plan(o.id)[n]
    ensures Extended(cat, a.store, store[KeyOf(made) := made], o, n + 1)
  {
    FreeKey(cat, a, store, o, n);
    OneMoreKey(cat.plan(o.id), a.store.Keys, n);
    assert store[KeyOf(made) := made].Keys == store.Keys + {KeyOf(made)};
  }

  lemma FillingAdvance(cat: Catalog, a: World, w: World, o: Owner, f: nat, p: Pass)
    requires w.cache == a.cache && p.owner == o && p.step < f <= |cat.plan(o.id)| && o.id !in w.done
    requires Extended(cat, a.store, w.store, o, p.step + 1)
    ensures Filling(cat, a, Advance(cat, w, o.id, p), o, f)
  {
  }

  lemma FillingBuilds(cat: Catalog, a: World, w: World, o: Owner, f: nat)
    requires Startable(cat, a, o, f) && Filling(cat, a, w, o, f) && CanCreate(cat, w, o.id) && w.passes[o.id].step < f
    ensures Filling(cat, a, CreateStep(cat, w, o.id), o, f)
  {
    var p := w.passes[o.id];
    FreeKey(cat, a, w.store, o, p.step);
    BuiltAtPlan(cat, o, p.step);
    ExtendedMore(cat, a, w.store, o, p.step, cat.build(o, p.step).result);
    FillingAdvance(cat, a, Made(cat, w, o.id), o, f, p);
  }

  lemma FillingCreate(cat: Catalog, a: World, w: World, o: Owner, f: nat)
    requires Startable(cat, a, o, f) && Filling(cat, a, w, o, f)
    ensures Filling(cat, a, CreateStep(cat, w, o.id), o, f)
  {
    if CanCreate(cat, w, o.id) && w.passes[o.id].step < f {
      FillingBuilds(cat, a, w, o, f);
    } else {
      Refuses(cat, w, o.id);
    }
  }

  lemma FillingStep(cat: Catalog, a: World, w: World, o: Owner, f: nat, l: Label)
    requires Startable(cat, a, o, f) && Filling(cat, a, w, o, f) && OwnStep(o.id, l)
    ensures Filling(cat, a, Step(cat, w, l), o, f)
  {
    if l == Look(o.id) {
      FillingLook(cat, a, w, o, f);
    } else {
      FillingCreate(cat, a, w, o, f);
    }
  }

  lemma FillingReaches(sc: Scene, a: World, start: World, b: World, o: Owner, f: nat)
    requires sc.turns == [] && o.id == sc.id && Startable(sc.Cat(), a, o, f)
    requires Filling(sc.Cat(), a, start, o, f) && Reaches(sc, start, b)
    ensures Filling(sc.Cat(), a, b, o, f)
  {
    var ws: seq<World>, ls: seq<Label> :| IsRun(sc, ws, ls) && ws[0] == start && ws[|ls|] == b;
    for i := 0 to |ls|
      invariant Filling(sc.Cat(), a, ws[i], o, f)
    {
      OnlyOwnSteps(sc, ls[i]);
      FillingStep(sc.Cat(), a, ws[i], o, f, ls[i]);
    }
  }

  // So a pass about to create finds its key free.
  lemma NeverTaken(sc: Scene, a: World, start: World, w: World, o: Owner, f: nat, p: Pass)
    requires sc.turns == [] && o.id == sc.id && Startable(sc.Cat(), a, o, f)
    requires Filling(sc.Cat(), a, start, o, f) && Reaches(sc, start, With(w, sc.id, p)) && p.step < |Plan(sc.id)|
    ensures Plan(sc.id)[p.step] !in w.store
  {
    FillingReaches(sc, a, start, With(w, sc.id, p), o, f);
    FreeKey(sc.Cat(), a, w.store, o, p.step);
  }

  lemma FillingEnds(sc: Scene, a: World, w: World, err: Option<ApiError>, f: nat)
    requires sc.turns == [] && sc.id in a.ownerCache && a.ownerCache[sc.id].id == sc.id
    requires sc.id !in a.passes && sc.id !in w.passes && sc.id !in a.done
    requires Startable(sc.Cat(), a, a.ownerCache[sc.id], f) && PassEnded(sc, a, w, err)
    ensures Extended(sc.Cat(), a.store, w.store, a.ownerCache[sc.id], f)
    ensures err == if f == |Plan(sc.id)| then None else Some(BuilderFailed)
  {
    var o, start := a.ownerCache[sc.id], BeginStep(a, sc.id);
    assert FillingPass(sc.Cat(), a, start, o, f, start.passes[sc.id]);
    FillingReaches(sc, a, start, w, o, f);
    forall p: Pass | Reaches(sc, start, With(w, sc.id, p)) && p.step < |Plan(sc.id)|
      ensures Plan(sc.id)[p.step] !in w.store
    {
      NeverTaken(sc, a, start, w, o, f, p);
    }
  }

  /** A first call, to the object. For an owner that the cache shows, all of whose keys are different
      and neither stored nor cached, a call that nobody disturbs stores exactly the objects of the
      steps before the first one whose builder fails, each as its builder makes it, and touches
      nothing else; it returns nil if no builder fails, and that builder's error otherwise. */
  lemma CallFillsUpToFailure(sc: Scene, a: World, b: World, err: Option<ApiError>, f: nat)
    requires sc.turns == [] && sc.id in a.ownerCache && a.ownerCache[sc.id].id == sc.id && sc.id !in a.passes
    requires Startable(sc.Cat(), a, a.ownerCache[sc.id], f) && Called(sc, a, b, err)
    ensures Extended(sc.Cat(), a.store, b.store, a.ownerCache[sc.id], f)
    ensures err == if f == |Plan(sc.id)| then None else Some(BuilderFailed)
  {
    var w := UndisturbedPass(sc, a, b, err);
    FillingEnds(sc, Forget(a, sc.id), w, err, f);
  }

  // ----- With the names spelled out -----

  function KeyIn(id: OwnerId, kind: ObjectKind, name: string): Key {
    Key(kind, id.namespace, name)
  }

  // What a call adds, by where the spec of a cluster or a group first fails.
  function Added(parses: QuantityParser, o: Owner): set<Key> {
    var id, n := o.id, o.id.name;
    var init, config := KeyIn(id, ConfigMapKind, n + "-init"), KeyIn(id, ConfigMapKind, n + "-config");
    var budget := KeyIn(id, DisruptionBudgetKind, n + "-pdb");
    if NoProtocol(o.spec) then {init}
    else if Unparsable(parses, o.spec) then {init, config, budget}
    else {init, config, budget, KeyIn(id, StatefulSetKind, n), KeyIn(id, ServiceKind, n)}
  }

  // A group with none of the three protocols.
  predicate NoProtocol(s: Spec) {
    s.ForGroup? && s.group.raft.None? && s.group.primaryBackup.None? && s.group.log.None?
  }

  // A claim whose size, two gigabytes if left out, does not parse.
  predicate Unparsable(parses: QuantityParser, s: Spec) {
    AskedStorage(s).Some? && !parses(TextOr(AskedStorage(s).value.size, "2G"))
  }

  function FailingStep(parses: QuantityParser, s: Spec): nat {
    if NoProtocol(s) then CONFIG_STEP else if Unparsable(parses, s) then SET_STEP else 5
  }

  lemma SpecFailsAt(parses: QuantityParser, o: Owner)
    requires !o.id.kind.BenchmarkKind? && Fits(o.id.kind, o.spec)
    ensures WorksUpTo(Atomix(parses), o, FailingStep(parses, o.spec))
  {
    AskedFails(parses, o.spec);
    var f := FailingStep(parses, o.spec);
    forall i: nat | i <= f && i < 5
      ensures Build(parses, o, i).Built? <==> i < f
    {
      BuildFailures(parses, o, i);
    }
  }

  lemma AskedFails(parses: QuantityParser, s: Spec)
    requires !s.ForBenchmark?
    ensures NoProtocol(s) <==> Default(s).ForGroup? && GroupProtocol(Default(s).group).None?
    ensures Unparsable(parses, s) <==> ClaimedSize(Default(s)).Some? && !parses(ClaimedSize(Default(s)).value)
  {
  }

  lemma AddedKeys(parses: QuantityParser, o: Owner)
    requires !o.id.kind.BenchmarkKind?
    ensures KeysUpTo(Plan(o.id), FailingStep(parses, o.spec)) == Added(parses, o)
  {
    SpelledNames(o.id);
    var p := Plan(o.id);
    assert p[..1] == [p[0]] && p[..3] == [p[0], p[1], p[2]] && p[..5] == [p[0], p[1], p[2], p[3], p[4]];
  }

  /** What a single undisturbed call does for a cluster or a group of a fresh name, whatever its spec:
      a group without a protocol gets exactly its script, an owner whose claim does not parse
      exactly its script, configuration and budget, and the call fails; for any other, it stores
      exactly the five objects and returns nil. */
  lemma FreshOwnerCall(sc: Scene, a: World, b: World, err: Option<ApiError>)
    requires sc.turns == [] && sc.id in a.ownerCache && a.ownerCache[sc.id].id == sc.id && sc.id !in a.passes
    requires !sc.id.kind.BenchmarkKind? && Fits(sc.id.kind, a.ownerCache[sc.id].spec)
    requires FreshName(Plan(sc.id), a) && Called(sc, a, b, err)
    ensures var o := a.ownerCache[sc.id];
      && b.store.Keys == a.store.Keys + Added(sc.parses, o) && (forall k :: k in a.store ==> b.store[k] == a.store[k])
      && err == if NoProtocol(o.spec) || Unparsable(sc.parses, o.spec) then Some(BuilderFailed) else None
  {
    var o := a.ownerCache[sc.id];
    AtomixIsWellFormed(sc.parses);
    PlanIsDistinct(sc.parses, sc.id);
    SpecFailsAt(sc.parses, o);
    AddedKeys(sc.parses, o);
    CallFillsUpToFailure(sc, a, b, err, FailingStep(sc.parses, o.spec));
  }
}
