/**
 The operator's own catalog, and what the run invariants say about the objects that clusters,
 groups and benchmarks actually have in the store.
 */
module Operator {
  import opened Text
  import opened Specs
  import opened Naming
  import opened Objects
  import opened Builders
  import opened Selection
  import opened Protocol
  import opened Growth
  import opened Lifecycle
  import opened Confluence
  import opened Progress
  import opened Contest

  // The benchmark reconciler looks a key up twice before it creates: in reconcile* and in add*.
  function LooksBeforeCreate(kind: OwnerKind): nat {
    if kind.BenchmarkKind? then 2 else 1
  }

  function Atomix(parses: QuantityParser): Catalog {
    Catalog(id => Plan(id), kind => LooksBeforeCreate(kind), (o: Owner, step: nat) => Build(parses, o, step))
  }

  lemma AtomixIsWellFormed(parses: QuantityParser)
    ensures WellFormed(Atomix(parses))
  {
    forall o: Owner, i: nat | i < |Plan(o.id)| && Build(parses, o, i).Built?
      ensures KeyOf(Build(parses, o, i).result) == Plan(o.id)[i]
      ensures Build(parses, o, i).result.owner == Some(RefTo(o))
    {
      BuiltAtItsKey(parses, o, i);
    }
  }

  // ----- Populations without name clashes -----

  ghost predicate NoClashes(ids: set<OwnerId>) {
    forall a, b :: a in ids && b in ids ==> !Clash(a, b)
  }

  lemma ClashIsContest(parses: QuantityParser, owners: map<OwnerId, Owner>, a: OwnerId, b: OwnerId)
    requires a in owners && b in owners
    ensures (exists k :: Contested(Atomix(parses), owners, map[], a, b, k)) <==> Clash(a, b)
  {
    if a != b {
      KeyCollision(a, b);
    }
    if k :| Contested(Atomix(parses), owners, map[], a, b, k) {
      assert Wants(a, k) && Wants(b, k);
    }
    if Clash(a, b) {
      var k :| Wants(a, k) && Wants(b, k);
      assert Contested(Atomix(parses), owners, map[], a, b, k);
    }
  }

  /** Clashing names are all that can contest a key: without them no two owners want a key that is
      not there, and over an empty store they do if and only if two names clash. */
  lemma ClashFreePlans(parses: QuantityParser, owners: map<OwnerId, Owner>, store: map<Key, Object>)
    ensures NoClashes(owners.Keys) <==> Uncontested(Atomix(parses), owners, map[])
    ensures NoClashes(owners.Keys) ==> Uncontested(Atomix(parses), owners, store)
  {
    forall a, b | a in owners && b in owners
      ensures (exists k :: Contested(Atomix(parses), owners, map[], a, b, k)) <==> Clash(a, b)
    {
      ClashIsContest(parses, owners, a, b);
    }
    forall a, b, k | Contested(Atomix(parses), owners, store, a, b, k)
      ensures Contested(Atomix(parses), owners, map[], a, b, k)
    {
    }
  }

  /** Confluence of the operator: for any clusters, groups and benchmarks among which no names
      clash, any two runs that leave their specs alone and in which each of them has had one
      error-free pass end in the same store. */
  lemma OperatorIsConfluent(parses: QuantityParser, w0: World, s: seq<Label>, t: seq<Label>)
    requires StartsQuiet(Atomix(parses), w0) && NoClashes(w0.owners.Keys)
    requires Completes(Atomix(parses), w0, s) && Completes(Atomix(parses), w0, t)
    ensures Exec(Atomix(parses), w0, s).store == Exec(Atomix(parses), w0, t).store
  {
    ClashFreePlans(parses, w0.owners, w0.store);
    Confluent(Atomix(parses), w0, s, t);
  }

  /** And the condition is exact: from an empty store and with valid specs, all such runs end in the
      same store if and only if no two names clash. */
  lemma OperatorConfluenceIsExact(parses: QuantityParser, w0: World)
    requires StartsQuiet(Atomix(parses), w0) && ValidSpecs(Atomix(parses), w0.owners) && w0.store == map[]
    ensures AllAgree(Atomix(parses), w0) <==> NoClashes(w0.owners.Keys)
  {
    ClashFreePlans(parses, w0.owners, w0.store);
    ConfluenceIsExact(Atomix(parses), w0);
  }

  lemma FiveInPlan(parses: QuantityParser, id: OwnerId)
    ensures |PlanSet(Atomix(parses), id)| == 5
  {
    FiveKeys(id);
    assert PlanSet(Atomix(parses), id) == set k | k in Plan(id);
  }

  /** No owner's passes ever create more than five objects in a deletion-free run, however long it
      is, whatever is edited and whatever names clash. */
  lemma AtMostFiveCreations(parses: QuantityParser, w0: World, trace: seq<Label>, id: OwnerId)
    requires Starts(w0) && AllAdditive(trace)
    ensures Creations(Atomix(parses), w0, trace, id) <= 5
  {
    AtomixIsWellFormed(parses);
    CreationsAreBounded(Atomix(parses), w0, trace, id);
    FiveInPlan(parses, id);
  }

  /** Nor do they abort more than five times in any such run, if the cache heeds: it knows the keys at which they
      aborted whenever the next pass begins. If no call fails, the sixth pass at the latest is
      free of errors. */
  lemma AtMostFiveAborts(parses: QuantityParser, w0: World, trace: seq<Label>, id: OwnerId)
    requires StartsBehind(w0) && AllAdditive(trace) && Heeds(Atomix(parses), w0, trace, id)
    ensures Aborts(Atomix(parses), w0, trace, id) <= 5
    ensures Unfailing(trace, id) && 6 <= Ended(Atomix(parses), w0, trace, id) ==>
      id in Exec(Atomix(parses), w0, trace).done
  {
    AtomixIsWellFormed(parses);
    AbortsAreBounded(Atomix(parses), w0, trace, id);
    FiveInPlan(parses, id);
    if Unfailing(trace, id) && 6 <= Ended(Atomix(parses), w0, trace, id) {
      RetriesSucceed(Atomix(parses), w0, trace, id);
    }
  }

  // ----- What is in the store -----

  // A run of any kind that has reached w.
  ghost predicate Ran(parses: QuantityParser, w0: World, trace: seq<Label>, w: World) {
    Starts(w0) && w == Exec(Atomix(parses), w0, trace)
  }

  // A run from an empty store, with any edits but no deletions, that has reached w.
  ghost predicate Grown(parses: QuantityParser, w0: World, trace: seq<Label>, w: World) {
    StartsBehind(w0) && w0.store == map[] && AllAdditive(trace) && w == Exec(Atomix(parses), w0, trace)
  }

  // The object at k was built for `o`, a version of its owner, at a step of its plan.
  ghost predicate BuiltFor(parses: QuantityParser, h: Histories, k: Key, made: Object, o: Owner, step: nat) {
    && Fits(o.id.kind, o.spec) && o.id in h && o.spec in h[o.id]
    && step < |Plan(o.id)| && Plan(o.id)[step] == k
    && Build(parses, o, step) == Built(made)
  }

  ghost predicate EarlierStored(store: map<Key, Object>, a: Origin, k: Key) {
    forall i: nat :: i < a.step && i < |Plan(a.owner.id)| ==> Plan(a.owner.id)[i] in store && Plan(a.owner.id)[i] != k
  }

  // What a pass created is still what the builders made of a version of its owner.
  ghost predicate BuiltAt(parses: QuantityParser, w: World, k: Key) {
    k in w.origins && k in w.store && BuiltFor(parses, w.history, k, w.store[k], w.origins[k].owner, w.origins[k].step)
  }

  lemma OriginIsBuilt(parses: QuantityParser, w0: World, trace: seq<Label>, w: World, k: Key)
    requires Ran(parses, w0, trace, w) && k in w.origins
    ensures BuiltAt(parses, w, k)
  {
    AtomixIsWellFormed(parses);
    SoundRun(Atomix(parses), w0, trace);
    SoundIsBuilt(parses, w, k);
  }

  lemma SoundIsBuilt(parses: QuantityParser, w: World, k: Key)
    requires Sound(Atomix(parses), w) && k in w.origins
    ensures BuiltAt(parses, w, k)
  {
    assert Rendered(Atomix(parses), w.history, w.uids, w.store, w.origins[k], k);
  }

  // Every stored object was built for some version of an owner, after everything before it in
  // the owner's plan, and at the first step of the plan that wants its key.
  ghost predicate Explained(parses: QuantityParser, w: World) {
    && w.store.Keys == w.origins.Keys
    && forall k :: k in w.origins ==> ExplainedAt(parses, w.history, w.store, w.origins[k], k)
  }

  ghost predicate ExplainedAt(parses: QuantityParser, h: Histories, store: map<Key, Object>, a: Origin, k: Key) {
    && k in store && BuiltFor(parses, h, k, store[k], a.owner, a.step)
    && EarlierStored(store, a, k)
  }

  lemma GrownIs(parses: QuantityParser, w0: World, trace: seq<Label>, w: World)
    requires Grown(parses, w0, trace, w)
    ensures Explained(parses, w)
  {
    AtomixIsWellFormed(parses);
    GrowingRun(Atomix(parses), w0, trace);
    AllCreatedRun(Atomix(parses), w0, trace);
    GrowthExplains(parses, w);
  }

  lemma GrowthExplains(parses: QuantityParser, w: World)
    requires Sound(Atomix(parses), w) && Growing(Atomix(parses), w) && AllCreated(w)
    ensures Explained(parses, w)
  {
    forall k | k in w.origins
      ensures ExplainedAt(parses, w.history, w.store, w.origins[k], k)
    {
      var a := w.origins[k];
      assert Rendered(Atomix(parses), w.history, w.uids, w.store, a, k);
      assert OriginInOrder(Atomix(parses), w.store, a, k);
      assert Reached(Plan(a.owner.id), w.store, a.step);
    }
  }

  lemma StoredIsBuilt(parses: QuantityParser, w: World, k: Key)
    requires Explained(parses, w) && (k in w.store || k in w.origins)
    ensures k in w.store && k in w.origins
    ensures BuiltFor(parses, w.history, k, w.store[k], w.origins[k].owner, w.origins[k].step)
  {
    assert k in w.store.Keys && k in w.origins.Keys;
    assert ExplainedAt(parses, w.history, w.store, w.origins[k], k);
  }

  lemma EarlierIsStored(parses: QuantityParser, w: World, k: Key, i: nat)
    requires Explained(parses, w) && k in w.origins && i < w.origins[k].step
    ensures var plan := Plan(w.origins[k].owner.id); i < |plan| && plan[i] in w.store && plan[i] != k
  {
    assert ExplainedAt(parses, w.history, w.store, w.origins[k], k);
    assert EarlierStored(w.store, w.origins[k], k);
  }

  lemma SameOwner(ids: set<OwnerId>, a: OwnerId, b: OwnerId, k: Key)
    requires NoClashes(ids) && a in ids && b in ids && Wants(a, k) && Wants(b, k)
    ensures a == b
  {
    if a != b {
      KeyCollision(a, b);
    }
  }

  // Without clashes an owner's keys hold only its own objects.
  lemma OwnKey(parses: QuantityParser, w: World, id: OwnerId, k: Key)
    requires Explained(parses, w) && NoClashes(w.history.Keys) && id in w.history
    requires Wants(id, k) && k in w.store
    ensures k in w.origins && w.origins[k].owner.id == id
  {
    StoredIsBuilt(parses, w, k);
    assert Wants(w.origins[k].owner.id, k);
    SameOwner(w.history.Keys, id, w.origins[k].owner.id, k);
  }

  // ----- References between stored objects -----

  function PodOf(o: Object): Option<PodSpec> {
    match o.body
    case StatefulSet(_, _, _, _, pod, _) => Some(pod)
    case Pod(pod) => Some(pod)
    case _ => None
  }

  lemma PodVolumes(parses: QuantityParser, o: Owner, step: nat)
    requires step < |Plan(o.id)| && Build(parses, o, step).Built?
    requires PodOf(Build(parses, o, step).result).Some?
    ensures PodOf(Build(parses, o, step).result).value.volumes == Volumes(o.id)
    ensures step == if o.id.kind.BenchmarkKind? && Plan(o.id)[step].kind.PodKind? then CONTROLLER_POD
                    else if o.id.kind.BenchmarkKind? then WORKER_SET else SET_STEP
  {
  }

  lemma ConfigMapsAreFirst(id: OwnerId, v: Volume)
    requires v in Volumes(id) && v.FromConfigMap?
    ensures var k := Key(ConfigMapKind, id.namespace, v.configMap); k == Plan(id)[0] || k == Plan(id)[1]
  {
  }

  /** Every ConfigMap that a stored StatefulSet or benchmark Pod mounts is stored, in every state
      that any deletion-free run from an empty store reaches, clashes and edits included. */
  lemma VolumesAreStored(parses: QuantityParser, w0: World, trace: seq<Label>, w: World, k: Key, v: Volume)
    requires Grown(parses, w0, trace, w) && k in w.store
    requires PodOf(w.store[k]).Some? && v in PodOf(w.store[k]).value.volumes && v.FromConfigMap?
    ensures Key(ConfigMapKind, k.namespace, v.configMap) in w.store
  {
    GrownIs(parses, w0, trace, w);
    MountedIsStored(parses, w, k, v);
  }

  lemma MountedIsStored(parses: QuantityParser, w: World, k: Key, v: Volume)
    requires Explained(parses, w) && k in w.store
    requires PodOf(w.store[k]).Some? && v in PodOf(w.store[k]).value.volumes && v.FromConfigMap?
    ensures Key(ConfigMapKind, k.namespace, v.configMap) in w.store
  {
    StoredIsBuilt(parses, w, k);
    PodVolumes(parses, w.origins[k].owner, w.origins[k].step);
    PlanNamespace(w.origins[k].owner.id, w.origins[k].step);
    EarlierIsStored(parses, w, k, 0);
    EarlierIsStored(parses, w, k, 1);
    ConfigMapsAreFirst(w.origins[k].owner.id, v);
  }

  lemma PlanNamespace(id: OwnerId, step: nat)
    requires step < |Plan(id)|
    ensures Plan(id)[step].namespace == id.namespace
  {
  }

  lemma SetIsSet(parses: QuantityParser, o: Owner)
    requires !o.id.kind.BenchmarkKind? && Build(parses, o, SET_STEP).Built?
    ensures var r := Build(parses, o, SET_STEP).result;
      && r.body.StatefulSet? && r.body.serviceName == o.id.name && r.name == o.id.name
      && PodLabels(r).Some?
  {
  }

  // The kind of a key fixes the step of a cluster's or a group's plan.
  lemma StepOfKind(id: OwnerId, step: nat)
    requires !id.kind.BenchmarkKind? && step < |Plan(id)|
    ensures Plan(id)[step].kind.DisruptionBudgetKind? <==> step == BUDGET_STEP
    ensures Plan(id)[step].kind.StatefulSetKind? <==> step == SET_STEP
    ensures Plan(id)[step].kind.ServiceKind? <==> step == SERVICE_STEP
  {
  }

  /** A stored Service of a cluster or a group implies the stored StatefulSet that is governed by
      it: the same owner's, naming exactly this Service. */
  lemma ServicesHaveTheirSets(parses: QuantityParser, w0: World, trace: seq<Label>, w: World, k: Key)
    requires Grown(parses, w0, trace, w) && NoClashes(w.history.Keys)
    requires k in w.store && k.kind.ServiceKind?
    requires k in w.origins && !w.origins[k].owner.id.kind.BenchmarkKind?
    ensures var sk := Key(StatefulSetKind, k.namespace, k.name);
      && sk in w.store && sk in w.origins && w.origins[sk].owner.id == w.origins[k].owner.id
      && w.store[sk].body.StatefulSet? && w.store[sk].body.serviceName == k.name
  {
    GrownIs(parses, w0, trace, w);
    ServiceHasItsSet(parses, w, k);
  }

  lemma ServiceHasItsSet(parses: QuantityParser, w: World, k: Key)
    requires Explained(parses, w) && NoClashes(w.history.Keys)
    requires k in w.store && k.kind.ServiceKind?
    requires k in w.origins && !w.origins[k].owner.id.kind.BenchmarkKind?
    ensures var sk := Key(StatefulSetKind, k.namespace, k.name);
      && sk in w.store && sk in w.origins && w.origins[sk].owner.id == w.origins[k].owner.id
      && w.store[sk].body.StatefulSet? && w.store[sk].body.serviceName == k.name
  {
    StoredIsBuilt(parses, w, k);
    var id := w.origins[k].owner.id;
    StepOfKind(id, w.origins[k].step);
    EarlierIsStored(parses, w, k, SET_STEP);
    var sk := Plan(id)[SET_STEP];
    assert sk == Key(StatefulSetKind, k.namespace, k.name) && Wants(id, sk);
    OwnKey(parses, w, id, sk);
    StoredIsBuilt(parses, w, sk);
    StepOfKind(id, w.origins[sk].step);
    SetIsSet(parses, w.origins[sk].owner);
  }

  // ----- Quorums -----

  function SizeOf(s: Spec): Int32 {
    match s
    case ForCluster(c) => c.size
    case ForGroup(g) => g.size
    case ForBenchmark(b) => b.workers
  }

  lemma BudgetAndSet(parses: QuantityParser, o: Owner)
    requires !o.id.kind.BenchmarkKind? && Fits(o.id.kind, o.spec)
    ensures Build(parses, o, BUDGET_STEP).Built?
    ensures Build(parses, o, BUDGET_STEP).result.body == DisruptionBudget(MinAvailable(SizeOf(Default(o.spec))))
    ensures Build(parses, o, SET_STEP).Built? ==>
      var body := Build(parses, o, SET_STEP).result.body;
      && body.StatefulSet? && body.replicas == SizeOf(Default(o.spec))
      && body.pod.nodesArgument == Print(body.replicas)
  {
  }

  /** Quorum across stored objects, in every run from any start. Whenever the budget and the
      StatefulSet of a cluster or a group are both stored and were rendered from the same spec
      with a positive size, the budget asks for no more pods than the StatefulSet has, and its
      count is the least that makes any two groups of so many of the StatefulSet's pods
      intersect. */
  lemma StoredQuorum(parses: QuantityParser, w0: World, trace: seq<Label>, w: World, b: Key, s: Key, k: nat)
    requires Ran(parses, w0, trace, w) && b in w.origins && s in w.origins
    requires b.kind.DisruptionBudgetKind? && s.kind.StatefulSetKind?
    requires w.origins[b].owner.id == w.origins[s].owner.id && w.origins[b].owner.spec == w.origins[s].owner.spec
    requires 0 < SizeOf(Default(w.origins[b].owner.spec))
    ensures b in w.store && w.store[b].body.DisruptionBudget? && s in w.store && w.store[s].body.StatefulSet?
    ensures var count, replicas := w.store[b].body.minAvailable, w.store[s].body.replicas;
      && 0 < count <= replicas
      && (AlwaysMeet(PodNames(s.name, 0, replicas), k) <==> count <= k)
  {
    OriginIsBuilt(parses, w0, trace, w, b);
    OriginIsBuilt(parses, w0, trace, w, s);
    StoredPair(parses, w, b, s);
    BudgetIsLeastQuorum(s.name, SizeOf(Default(w.origins[b].owner.spec)), k);
  }

  lemma StoredPair(parses: QuantityParser, w: World, b: Key, s: Key)
    requires BuiltAt(parses, w, b) && BuiltAt(parses, w, s)
    requires b.kind.DisruptionBudgetKind? && s.kind.StatefulSetKind?
    requires w.origins[b].owner.id == w.origins[s].owner.id && w.origins[b].owner.spec == w.origins[s].owner.spec
    ensures w.store[b].body == DisruptionBudget(MinAvailable(SizeOf(Default(w.origins[b].owner.spec))))
    ensures w.store[s].body.StatefulSet? && w.store[s].body.replicas == SizeOf(Default(w.origins[b].owner.spec))
  {
    var id := w.origins[b].owner.id;
    PlanKeys(id, b);
    StepOfKind(id, w.origins[b].step);
    StepOfKind(id, w.origins[s].step);
    BudgetAndSet(parses, w.origins[b].owner);
    BudgetAndSet(parses, w.origins[s].owner);
  }

  // ----- Selectors -----

  /** Selector separation among stored objects, in every run from any start: the stored StatefulSet
      of a cluster or a group selects the pods of a stored StatefulSet or Pod of its namespace
      exactly when that is the StatefulSet itself, whatever was edited or deleted on the way. */
  lemma StoredSelectorsSeparate(parses: QuantityParser, w0: World, trace: seq<Label>, w: World, a: Key, b: Key)
    requires Ran(parses, w0, trace, w) && a in w.origins && b in w.origins && a.namespace == b.namespace
    requires a.kind.StatefulSetKind? && !w.origins[a].owner.id.kind.BenchmarkKind?
    requires b in w.store && PodLabels(w.store[b]).Some?
    ensures a in w.store && w.store[a].body.StatefulSet?
    ensures Selects(w.store[a].body.selector, PodLabels(w.store[b]).value) <==> a == b
  {
    OriginIsBuilt(parses, w0, trace, w, a);
    OriginIsBuilt(parses, w0, trace, w, b);
    SelectorsSeparate(parses, w, a, b);
  }

  lemma SelectorsSeparate(parses: QuantityParser, w: World, a: Key, b: Key)
    requires BuiltAt(parses, w, a) && BuiltAt(parses, w, b) && a.namespace == b.namespace
    requires a.kind.StatefulSetKind? && !w.origins[a].owner.id.kind.BenchmarkKind?
    requires PodLabels(w.store[b]).Some?
    ensures w.store[a].body.StatefulSet?
    ensures Selects(w.store[a].body.selector, PodLabels(w.store[b]).value) <==> a == b
  {
    var oa, ob := w.origins[a].owner, w.origins[b].owner;
    PlanNamespace(oa.id, w.origins[a].step);
    PlanNamespace(ob.id, w.origins[b].step);
    StepOfKind(oa.id, w.origins[a].step);
    SetSelectsOwnPods(parses, oa, ob, w.origins[b].step);
    if oa.id == ob.id {
      PodStep(parses, ob, w.origins[b].step);
    }
  }

  lemma PodStep(parses: QuantityParser, o: Owner, step: nat)
    requires !o.id.kind.BenchmarkKind? && step < |Plan(o.id)| && Build(parses, o, step).Built?
    requires PodLabels(Build(parses, o, step).result).Some?
    ensures step == SET_STEP
  {
  }

  /** Management Services among stored objects, in every run from any start: the stored Service of
      a cluster selects the pods of a stored object exactly when that object was built for the
      cluster, for a group naming it or for a benchmark naming it; so the Services of two
      clusters never select the same stored pods. */
  lemma StoredServicesSelect(parses: QuantityParser, w0: World, trace: seq<Label>, w: World, s: Key, b: Key)
    requires Ran(parses, w0, trace, w) && s in w.origins && b in w.origins
    requires s.kind.ServiceKind? && w.origins[s].owner.id.kind.ClusterKind?
    requires b in w.store && PodLabels(w.store[b]).Some?
    ensures s in w.store && w.store[s].body.Service?
    ensures Selects(w.store[s].body.selects, PodLabels(w.store[b]).value) <==>
              ClusterOf(w.origins[b].owner) == w.origins[s].owner.id.name
  {
    OriginIsBuilt(parses, w0, trace, w, s);
    OriginIsBuilt(parses, w0, trace, w, b);
    ServiceSelects(parses, w, s, b);
  }

  /** What holds of benchmarks, in every run from any start: the stored worker StatefulSet of a
      benchmark selects the pods of a stored object exactly when that is the worker StatefulSet
      of a benchmark of the same cluster, its own or another's. */
  lemma StoredWorkersSelect(parses: QuantityParser, w0: World, trace: seq<Label>, w: World, a: Key, b: Key)
    requires Ran(parses, w0, trace, w) && a in w.origins && b in w.origins
    requires a.kind.StatefulSetKind? && w.origins[a].owner.id.kind.BenchmarkKind?
    requires b in w.store && PodLabels(w.store[b]).Some?
    ensures a in w.store && w.store[a].body.StatefulSet?
    ensures Selects(w.store[a].body.selector, PodLabels(w.store[b]).value) <==>
      && b.kind.StatefulSetKind? && w.origins[b].owner.id.kind.BenchmarkKind?
      && ClusterOf(w.origins[a].owner) == ClusterOf(w.origins[b].owner)
  {
    OriginIsBuilt(parses, w0, trace, w, a);
    OriginIsBuilt(parses, w0, trace, w, b);
    WorkersSelect(parses, w, a, b);
  }

  lemma WorkersSelect(parses: QuantityParser, w: World, a: Key, b: Key)
    requires BuiltAt(parses, w, a) && BuiltAt(parses, w, b)
    requires a.kind.StatefulSetKind? && w.origins[a].owner.id.kind.BenchmarkKind? && PodLabels(w.store[b]).Some?
    ensures w.store[a].body.StatefulSet?
    ensures Selects(w.store[a].body.selector, PodLabels(w.store[b]).value) <==>
      && b.kind.StatefulSetKind? && w.origins[b].owner.id.kind.BenchmarkKind?
      && ClusterOf(w.origins[a].owner) == ClusterOf(w.origins[b].owner)
  {
    WorkerStep(w.origins[a].owner.id, w.origins[a].step);
    WorkerStep(w.origins[b].owner.id, w.origins[b].step);
    WorkerSetSelects(parses, w.origins[a].owner, w.origins[b].owner, w.origins[b].step);
  }

  lemma WorkerStep(id: OwnerId, step: nat)
    requires step < |Plan(id)|
    ensures id.kind.BenchmarkKind? ==> (Plan(id)[step].kind.StatefulSetKind? <==> step == WORKER_SET)
  {
  }

  lemma ServiceSelects(parses: QuantityParser, w: World, s: Key, b: Key)
    requires BuiltAt(parses, w, s) && BuiltAt(parses, w, b)
    requires s.kind.ServiceKind? && w.origins[s].owner.id.kind.ClusterKind? && PodLabels(w.store[b]).Some?
    ensures w.store[s].body.Service?
    ensures Selects(w.store[s].body.selects, PodLabels(w.store[b]).value) <==>
              ClusterOf(w.origins[b].owner) == w.origins[s].owner.id.name
  {
    StepOfKind(w.origins[s].owner.id, w.origins[s].step);
    ManagementServiceSelects(parses, w.origins[s].owner, w.origins[b].owner, w.origins[b].step);
  }

  lemma StoredServicesDisjoint(parses: QuantityParser, w0: World, trace: seq<Label>, w: World, s: Key, t: Key, b: Key)
    requires Ran(parses, w0, trace, w) && s in w.origins && t in w.origins && b in w.origins
    requires s.namespace == t.namespace
    requires s.kind.ServiceKind? && w.origins[s].owner.id.kind.ClusterKind?
    requires t.kind.ServiceKind? && w.origins[t].owner.id.kind.ClusterKind?
    requires b in w.store && PodLabels(w.store[b]).Some? && s in w.store && t in w.store
    requires w.store[s].body.Service? && Selects(w.store[s].body.selects, PodLabels(w.store[b]).value)
    requires w.store[t].body.Service? && Selects(w.store[t].body.selects, PodLabels(w.store[b]).value)
    ensures s == t
  {
    StoredServicesSelect(parses, w0, trace, w, s, b);
    StoredServicesSelect(parses, w0, trace, w, t, b);
    OriginIsBuilt(parses, w0, trace, w, s);
    OriginIsBuilt(parses, w0, trace, w, t);
    ClusterService(parses, w, s);
    ClusterService(parses, w, t);
  }

  lemma ClusterService(parses: QuantityParser, w: World, s: Key)
    requires BuiltAt(parses, w, s) && s.kind.ServiceKind? && w.origins[s].owner.id.kind.ClusterKind?
    ensures s.name == w.origins[s].owner.id.name
  {
    StepOfKind(w.origins[s].owner.id, w.origins[s].step);
  }
}
