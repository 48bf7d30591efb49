/**
 What a reader of the store finds after any run, with every name and value spelled out: the order
 in which an owner's objects appear, what each of them asks for, and what the pods that mount the
 stored scripts write down.
 */
module Stored {
  import opened Text
  import opened Specs
  import opened Naming
  import opened Objects
  import opened Builders
  import opened InitScript
  import opened Selection
  import opened Protocol
  import opened Operator
  import opened Asked
  import opened Outcomes

  // ----- The order of appearance -----

  ghost predicate There(w: World, id: OwnerId, kind: ObjectKind, name: string) {
    Key(kind, id.namespace, name) in w.store
  }

  // There, and created by a pass of the owner.
  ghost predicate Has(w: World, id: OwnerId, kind: ObjectKind, name: string) {
    var k := Key(kind, id.namespace, name);
    k in w.store && k in w.origins && w.origins[k].owner.id == id
  }

  // A cluster's or a group's objects.
  ghost predicate InOrder(w: World, id: OwnerId) {
    var n := id.name;
    && (There(w, id, ConfigMapKind, n + "-config") ==> Has(w, id, ConfigMapKind, n + "-init"))
    && (There(w, id, DisruptionBudgetKind, n + "-pdb") ==>
          Has(w, id, ConfigMapKind, n + "-config") && Has(w, id, ConfigMapKind, n + "-init"))
    && (There(w, id, StatefulSetKind, n) ==>
          && Has(w, id, DisruptionBudgetKind, n + "-pdb")
          && Has(w, id, ConfigMapKind, n + "-config") && Has(w, id, ConfigMapKind, n + "-init"))
    && (There(w, id, ServiceKind, n) ==>
          && Has(w, id, StatefulSetKind, n) && Has(w, id, DisruptionBudgetKind, n + "-pdb")
          && Has(w, id, ConfigMapKind, n + "-config") && Has(w, id, ConfigMapKind, n + "-init"))
  }

  // A benchmark's.
  ghost predicate BenchmarkInOrder(w: World, id: OwnerId) {
    var n := id.name;
    && (There(w, id, ConfigMapKind, n + "-config") ==> Has(w, id, ConfigMapKind, n + "-init"))
    && (There(w, id, PodKind, n) ==>
          Has(w, id, ConfigMapKind, n + "-config") && Has(w, id, ConfigMapKind, n + "-init"))
    && (There(w, id, ServiceKind, n + "-service") ==>
          && Has(w, id, PodKind, n)
          && Has(w, id, ConfigMapKind, n + "-config") && Has(w, id, ConfigMapKind, n + "-init"))
    && (There(w, id, StatefulSetKind, n) ==>
          && Has(w, id, ServiceKind, n + "-service") && Has(w, id, PodKind, n)
          && Has(w, id, ConfigMapKind, n + "-config") && Has(w, id, ConfigMapKind, n + "-init"))
  }

  ghost predicate First(plan: seq<Key>, j: nat) {
    j < |plan| && forall m :: 0 <= m < j ==> plan[m] != plan[j]
  }

  lemma HasBefore(parses: QuantityParser, w: World, id: OwnerId, i: nat, j: nat)
    requires Explained(parses, w) && NoClashes(w.history.Keys) && id in w.history
    requires First(Plan(id), j) && i < j && Plan(id)[j] in w.store
    ensures Has(w, id, Plan(id)[i].kind, Plan(id)[i].name)
  {
    var k, before := Plan(id)[j], Plan(id)[i];
    assert Wants(id, k) && Wants(id, before);
    OwnKey(parses, w, id, k);
    StoredIsBuilt(parses, w, k);
    EarlierIsStored(parses, w, k, i);
    OwnKey(parses, w, id, before);
    PlanNamespace(id, i);
  }

  lemma PlanFirst(id: OwnerId)
    ensures First(Plan(id), 1) && First(Plan(id), 2) && First(Plan(id), 3)
    ensures if id.kind.BenchmarkKind? then First(Plan(id), 6) else First(Plan(id), 4)
  {
    SuffixedNames(id.name, id.name);
  }

  // What is stored at one place of a plan implies what is wanted before.
  ghost predicate PrefixHas(w: World, id: OwnerId, j: nat) {
    j < |Plan(id)| && (Plan(id)[j] in w.store ==>
      forall i :: 0 <= i < j ==> Has(w, id, Plan(id)[i].kind, Plan(id)[i].name))
  }

  lemma PrefixIsThere(parses: QuantityParser, w: World, id: OwnerId, j: nat)
    requires Explained(parses, w) && NoClashes(w.history.Keys) && id in w.history && First(Plan(id), j)
    ensures PrefixHas(w, id, j)
  {
    if Plan(id)[j] in w.store {
      forall i | 0 <= i < j
        ensures Has(w, id, Plan(id)[i].kind, Plan(id)[i].name)
      {
        HasBefore(parses, w, id, i, j);
      }
    }
  }

  lemma OrderOfPlan(w: World, id: OwnerId)
    requires !id.kind.BenchmarkKind?
    requires PrefixHas(w, id, 1) && PrefixHas(w, id, 2) && PrefixHas(w, id, 3) && PrefixHas(w, id, 4)
    ensures InOrder(w, id)
  {
    SpelledNames(id);
    var p := Plan(id);
    assert p[0].name == id.name + "-init" && p[1].name == id.name + "-config" && p[2].name == id.name + "-pdb";
    assert p[3].name == id.name && p[4].name == id.name;
  }

  lemma OrderOfBenchmark(w: World, id: OwnerId)
    requires id.kind.BenchmarkKind?
    requires PrefixHas(w, id, 1) && PrefixHas(w, id, 2) && PrefixHas(w, id, 3) && PrefixHas(w, id, 6)
    ensures BenchmarkInOrder(w, id)
  {
    SpelledNames(id);
    var p := Plan(id);
    assert p[0].name == id.name + "-init" && p[1].name == id.name + "-config" && p[2].name == id.name;
    assert p[3].name == id.name + "-service" && p[6].name == id.name;
  }

  /** The order of appearance, in every deletion-free run from an empty store without clashing
      names, edits included. Among the objects of a cluster or a group n, the config n-config
      implies the script n-init, the budget n-pdb implies both, the StatefulSet n implies the
      budget too, and the Service n all of them. Among those of a benchmark n the Pod n implies
      config and script, the Service n-service also the Pod, and the StatefulSet n all of them.
      What is implied is always the same owner's. */
  lemma StoredInOrder(parses: QuantityParser, w0: World, trace: seq<Label>, w: World, id: OwnerId)
    requires Grown(parses, w0, trace, w) && NoClashes(w.history.Keys) && id in w.history
    ensures if id.kind.BenchmarkKind? then BenchmarkInOrder(w, id) else InOrder(w, id)
  {
    GrownIs(parses, w0, trace, w);
    PlanFirst(id);
    PrefixIsThere(parses, w, id, 1);
    PrefixIsThere(parses, w, id, 2);
    PrefixIsThere(parses, w, id, 3);
    if id.kind.BenchmarkKind? {
      PrefixIsThere(parses, w, id, 6);
      OrderOfBenchmark(w, id);
    } else {
      PrefixIsThere(parses, w, id, 4);
      OrderOfPlan(w, id);
    }
  }

  // ----- What they ask for -----

  /** What is stored is what was asked for, in every run from any start: every object that a pass
      created has, while it is stored, the labels, names, counts, claims, volumes, mounts, ports
      and scripts that the version of the spec it was built from asks for, with the documented
      value for everything left out. */
  lemma StoredIsAsked(parses: QuantityParser, w0: World, trace: seq<Label>, w: World, k: Key)
    requires Ran(parses, w0, trace, w) && k in w.origins
    ensures k in w.store && KeyOf(w.store[k]) == k
    ensures ObjectAsked(w.origins[k].owner, WorkerPart(w.origins[k].step), w.store[k])
  {
    OriginIsBuilt(parses, w0, trace, w, k);
    BuiltAtItsKey(parses, w.origins[k].owner, w.origins[k].step);
    BuiltAsAsked(parses, w.origins[k].owner, w.origins[k].step);
  }

  /** In particular a stored StatefulSet has the replicas its spec asks for, or one, tells its pods
      exactly that count, and all its containers mount is one of its volumes or claims. */
  lemma StoredReplicas(parses: QuantityParser, w0: World, trace: seq<Label>, w: World, k: Key)
    requires Ran(parses, w0, trace, w) && k in w.origins && k.kind.StatefulSetKind?
    ensures k in w.store && w.store[k].body.StatefulSet?
    ensures var body, asked := w.store[k].body, SizeOf(w.origins[k].owner.spec);
      && body.replicas == (if asked == 0 then 1 else asked)
      && ReadInt(body.pod.nodesArgument) == Some(body.replicas)
      && Mountable(body.pod.initMounts + body.pod.mounts, body.pod.volumes, body.claims)
  {
    StoredIsAsked(parses, w0, trace, w, k);
  }

  /** The stored configuration of a group, in every run from any start: it carries the owner's name,
      the partitions asked for or as many as the size, and the settings of the protocol that
      wins, each as asked for or as documented. */
  lemma StoredConfigIsAsked(parses: QuantityParser, w0: World, trace: seq<Label>, w: World, k: Key)
    requires Ran(parses, w0, trace, w) && k in w.origins && k.kind.ConfigMapKind?
    requires var id := w.origins[k].owner.id;
      id.kind.GroupKind? && k.name == id.name + "-config" && NoSpace(id.name)
    ensures k in w.store && w.origins[k].owner.spec.ForGroup?
    ensures var body := w.store[k].body;
      && body.ConfigMap? && body.file == "atomix.conf" && body.payload.Conf?
      && ConfigAsked(w.origins[k].owner.id.name, w.origins[k].owner.spec.group, body.payload.text)
  {
    OriginIsBuilt(parses, w0, trace, w, k);
    var o := w.origins[k].owner;
    SpelledNames(o.id);
    ConfigStep(o.id, w.origins[k].step);
    GroupConfigAsked(parses, o, o.spec.group);
  }

  // ----- Services -----

  // The labels on the pods of a stored object are those asked for.
  lemma PodLabelsAsked(o: Owner, worker: bool, made: Object)
    requires ObjectAsked(o, worker, made) && PodLabels(made).Some?
    ensures PodLabels(made).value == AskedLabels(o.id, o.spec, worker || made.body.StatefulSet?)
  {
  }

  lemma GroupLabelsSelect(a: OwnerId, s: Spec, o: Owner, worker: bool)
    requires s.ForGroup? && Fits(o.id.kind, o.spec)
    ensures Selects(AskedLabels(a, s, true), AskedLabels(o.id, o.spec, worker)) <==>
              o.id.kind.GroupKind? && o.id.name == a.name && ClusterOf(o) == s.group.cluster
  {
    assert |"app"| == 3 && |"cluster"| == 7 && |"type"| == 4 && |"group"| == 5;
    var selector, labels := AskedLabels(a, s, true), AskedLabels(o.id, o.spec, worker);
    assert "group" in selector && "cluster" in selector && "type" in selector && "app" in selector;
    if !o.id.kind.GroupKind? {
      assert "group" !in labels;
    }
  }

  /** Group Services among stored objects, in every run from any start: the stored Service of a
      group selects the pods of a stored object exactly when that is the group's own StatefulSet
      and its spec still named the same cluster when that was built. */
  lemma StoredGroupServiceSelects(parses: QuantityParser, w0: World, trace: seq<Label>, w: World, s: Key, b: Key)
    requires Ran(parses, w0, trace, w) && s in w.origins && b in w.origins && s.namespace == b.namespace
    requires s.kind.ServiceKind? && w.origins[s].owner.id.kind.GroupKind?
    requires b in w.store && PodLabels(w.store[b]).Some?
    ensures s in w.store && w.store[s].body.Service?
    ensures Selects(w.store[s].body.selects, PodLabels(w.store[b]).value) <==>
      && b == Key(StatefulSetKind, s.namespace, s.name) && w.origins[b].owner.id == w.origins[s].owner.id
      && ClusterOf(w.origins[b].owner) == ClusterOf(w.origins[s].owner)
  {
    OriginIsBuilt(parses, w0, trace, w, s);
    OriginIsBuilt(parses, w0, trace, w, b);
    StoredIsAsked(parses, w0, trace, w, s);
    StoredIsAsked(parses, w0, trace, w, b);
    GroupServiceSelects(parses, w, s, b);
  }

  // What StoredIsAsked says of one object.
  ghost predicate AskedAt(parses: QuantityParser, w: World, k: Key) {
    && BuiltAt(parses, w, k) && KeyOf(w.store[k]) == k
    && ObjectAsked(w.origins[k].owner, WorkerPart(w.origins[k].step), w.store[k])
  }

  lemma GroupServiceSelects(parses: QuantityParser, w: World, s: Key, b: Key)
    requires AskedAt(parses, w, s) && AskedAt(parses, w, b) && s.namespace == b.namespace
    requires s.kind.ServiceKind? && w.origins[s].owner.id.kind.GroupKind? && PodLabels(w.store[b]).Some?
    ensures w.store[s].body.Service?
    ensures Selects(w.store[s].body.selects, PodLabels(w.store[b]).value) <==>
      && b == Key(StatefulSetKind, s.namespace, s.name) && w.origins[b].owner.id == w.origins[s].owner.id
      && ClusterOf(w.origins[b].owner) == ClusterOf(w.origins[s].owner)
  {
    var os, ob := w.origins[s].owner, w.origins[b].owner;
    PlanNamespace(os.id, w.origins[s].step);
    PlanNamespace(ob.id, w.origins[b].step);
    PodLabelsAsked(ob, WorkerPart(w.origins[b].step), w.store[b]);
    GroupLabelsSelect(os.id, os.spec, ob, WorkerPart(w.origins[b].step) || w.store[b].body.StatefulSet?);
    StepOfKind(os.id, w.origins[s].step);
    if !ob.id.kind.BenchmarkKind? {
      PodStep(parses, ob, w.origins[b].step);
    }
  }

  lemma BenchmarkLabelsSelect(a: OwnerId, s: Spec, worker: bool, o: Owner, ofSet: bool)
    requires s.ForBenchmark? && Fits(o.id.kind, o.spec)
    ensures Selects(AskedLabels(a, s, worker), AskedLabels(o.id, o.spec, ofSet)) <==>
              o.id.kind.BenchmarkKind? && worker == ofSet && ClusterOf(o) == s.benchmark.cluster
  {
    var selector, labels := AskedLabels(a, s, worker), AskedLabels(o.id, o.spec, ofSet);
    assert |"app"| == 3 && |"cluster"| == 7 && |"type"| == 4 && |"group"| == 5;
    assert "cluster" in selector && "type" in selector && "app" in selector;
    assert |"management"| == 10 && |"benchmark-worker"| == 16 && |"benchmark-coordinator"| == 21;
  }

  /** Benchmark Services among stored objects, in every run from any start: the Service that a
      benchmark's controller stored selects exactly the coordinator Pods of the benchmarks of its
      cluster, and one that its worker stored exactly their worker StatefulSets. */
  lemma StoredBenchmarkServiceSelects(parses: QuantityParser, w0: World, trace: seq<Label>, w: World, s: Key, b: Key)
    requires Ran(parses, w0, trace, w) && s in w.origins && b in w.origins
    requires s.kind.ServiceKind? && w.origins[s].owner.id.kind.BenchmarkKind?
    requires b in w.store && PodLabels(w.store[b]).Some?
    ensures s in w.store && w.store[s].body.Service?
    ensures Selects(w.store[s].body.selects, PodLabels(w.store[b]).value) <==>
      && w.origins[b].owner.id.kind.BenchmarkKind?
      && (b.kind.StatefulSetKind? <==> WorkerPart(w.origins[s].step))
      && ClusterOf(w.origins[b].owner) == ClusterOf(w.origins[s].owner)
  {
    OriginIsBuilt(parses, w0, trace, w, s);
    OriginIsBuilt(parses, w0, trace, w, b);
    StoredIsAsked(parses, w0, trace, w, s);
    StoredIsAsked(parses, w0, trace, w, b);
    BenchmarkServiceSelects(parses, w, s, b);
  }

  lemma BenchmarkServiceSelects(parses: QuantityParser, w: World, s: Key, b: Key)
    requires AskedAt(parses, w, s) && AskedAt(parses, w, b)
    requires s.kind.ServiceKind? && w.origins[s].owner.id.kind.BenchmarkKind? && PodLabels(w.store[b]).Some?
    ensures w.store[s].body.Service?
    ensures Selects(w.store[s].body.selects, PodLabels(w.store[b]).value) <==>
      && w.origins[b].owner.id.kind.BenchmarkKind?
      && (b.kind.StatefulSetKind? <==> WorkerPart(w.origins[s].step))
      && ClusterOf(w.origins[b].owner) == ClusterOf(w.origins[s].owner)
  {
    var os, ob := w.origins[s].owner, w.origins[b].owner;
    var ofSet := WorkerPart(w.origins[b].step) || w.store[b].body.StatefulSet?;
    PodLabelsAsked(ob, WorkerPart(w.origins[b].step), w.store[b]);
    BenchmarkLabelsSelect(os.id, os.spec, WorkerPart(w.origins[s].step), ob, ofSet);
    StepBuilds(parses, ob, w.origins[b].step);
  }

  /** In deletion-free runs from an empty store the first of these is the only case. */
  lemma CoordinatorServiceSelects(parses: QuantityParser, w0: World, trace: seq<Label>, w: World, s: Key, b: Key)
    requires Grown(parses, w0, trace, w) && s in w.origins && b in w.origins
    requires s.kind.ServiceKind? && w.origins[s].owner.id.kind.BenchmarkKind?
    requires b in w.store && PodLabels(w.store[b]).Some?
    ensures s in w.store && w.store[s].body.Service?
    ensures Selects(w.store[s].body.selects, PodLabels(w.store[b]).value) <==>
              b.kind.PodKind? && ClusterOf(w.origins[b].owner) == ClusterOf(w.origins[s].owner)
  {
    StoredBenchmarkServiceSelects(parses, w0, trace, w, s, b);
    OriginIsBuilt(parses, w0, trace, w, b);
    StoredByController(parses, w0, trace, w, s);
    SetOrCoordinator(parses, w, b);
  }

  lemma StoredByController(parses: QuantityParser, w0: World, trace: seq<Label>, w: World, s: Key)
    requires Grown(parses, w0, trace, w) && s in w.origins
    requires s.kind.ServiceKind? && w.origins[s].owner.id.kind.BenchmarkKind?
    ensures !WorkerPart(w.origins[s].step)
  {
    OriginIsBuilt(parses, w0, trace, w, s);
    WorkerVersionsNeverStored(parses, w0, trace, w, s);
    BenchmarkSteps(w.origins[s].owner.id, w.origins[s].step);
  }

  lemma SetOrCoordinator(parses: QuantityParser, w: World, b: Key)
    requires BuiltAt(parses, w, b) && PodLabels(w.store[b]).Some?
    ensures b.kind.StatefulSetKind? || b.kind.PodKind?
    ensures b.kind.PodKind? ==> w.origins[b].owner.id.kind.BenchmarkKind?
  {
    StepBuilds(parses, w.origins[b].owner, w.origins[b].step);
    BuiltAtItsKey(parses, w.origins[b].owner, w.origins[b].step);
  }

  // ----- Mounted scripts and configurations -----

  // The one volume of this name is filled from the stored ConfigMap at k, which holds this file.
  ghost predicate Mounted(w: World, pod: PodSpec, volume: string, k: Key, file: string) {
    && OnlyVolume(pod.volumes, FromConfigMap(volume, k.name))
    && k in w.store && w.store[k].body.ConfigMap? && w.store[k].body.file == file
  }

  /** What the pods of a stored StatefulSet, or a stored Pod, find in their volumes, in every
      deletion-free run from an empty store without clashing names: the init container mounts the
      stored script of their owner, and the main container its stored configuration. */
  lemma StoredMounts(parses: QuantityParser, w0: World, trace: seq<Label>, w: World, k: Key)
    requires Grown(parses, w0, trace, w) && NoClashes(w.history.Keys)
    requires k in w.store && PodOf(w.store[k]).Some?
    ensures k in w.origins
    ensures var id, pod := w.origins[k].owner.id, PodOf(w.store[k]).value;
      && k.namespace == id.namespace && k.name == id.name
      && Has(w, id, ConfigMapKind, k.name + "-init") && Has(w, id, ConfigMapKind, k.name + "-config")
      && Mounted(w, pod, "init-scripts", Key(ConfigMapKind, k.namespace, k.name + "-init"), "create_config.sh")
      && Mounted(w, pod, "user-config", Key(ConfigMapKind, k.namespace, k.name + "-config"), "atomix.conf")
      && "init-scripts" in pod.initMounts && "user-config" in pod.mounts
  {
    GrownIs(parses, w0, trace, w);
    StoredIsBuilt(parses, w, k);
    ItsMaps(parses, w0, trace, w, k);
    var init := Key(ConfigMapKind, k.namespace, k.name + "-init");
    var config := Key(ConfigMapKind, k.namespace, k.name + "-config");
    IsAskedAt(parses, w0, trace, w, k);
    IsAskedAt(parses, w0, trace, w, init);
    IsAskedAt(parses, w0, trace, w, config);
    MapFiles(parses, w, init);
    MapFiles(parses, w, config);
    MapsAsked(parses, w, k, init, config);
  }

  lemma IsAskedAt(parses: QuantityParser, w0: World, trace: seq<Label>, w: World, k: Key)
    requires Ran(parses, w0, trace, w) && k in w.origins
    ensures AskedAt(parses, w, k)
  {
    OriginIsBuilt(parses, w0, trace, w, k);
    StoredIsAsked(parses, w0, trace, w, k);
  }

  lemma ItsMaps(parses: QuantityParser, w0: World, trace: seq<Label>, w: World, k: Key)
    requires Grown(parses, w0, trace, w) && NoClashes(w.history.Keys)
    requires BuiltAt(parses, w, k) && PodOf(w.store[k]).Some?
    ensures var id := w.origins[k].owner.id;
      && k.namespace == id.namespace && k.name == id.name
      && Has(w, id, ConfigMapKind, id.name + "-init") && Has(w, id, ConfigMapKind, id.name + "-config")
  {
    StoredInOrder(parses, w0, trace, w, w.origins[k].owner.id);
    PodKey(parses, w, k);
  }

  lemma PodKey(parses: QuantityParser, w: World, k: Key)
    requires BuiltAt(parses, w, k) && PodOf(w.store[k]).Some?
    ensures var id := w.origins[k].owner.id;
      && k == Key(k.kind, id.namespace, id.name)
      && (k.kind.StatefulSetKind? || (id.kind.BenchmarkKind? && k.kind.PodKind?))
  {
    StepBuilds(parses, w.origins[k].owner, w.origins[k].step);
    BuiltAtItsKey(parses, w.origins[k].owner, w.origins[k].step);
    PlanKeys(w.origins[k].owner.id, k);
  }

  // An object at its key is named as its key is.
  lemma MapFiles(parses: QuantityParser, w: World, k: Key)
    requires AskedAt(parses, w, k) && k.kind.ConfigMapKind?
    ensures w.store[k].body.ConfigMap?
    ensures k.name == w.origins[k].owner.id.name + "-init" ==> w.store[k].body.file == "create_config.sh"
    ensures k.name == w.origins[k].owner.id.name + "-config" ==> w.store[k].body.file == "atomix.conf"
  {
    SpelledNames(w.origins[k].owner.id);
    SuffixedNames(w.origins[k].owner.id.name, w.origins[k].owner.id.name);
  }

  lemma PodVolumesAsked(o: Owner, worker: bool, made: Object)
    requires BodyAsked(o, worker, made.name, made.body) && PodOf(made).Some?
    ensures var pod := PodOf(made).value;
      && AskedVolumes(o.id, pod.volumes) && "init-scripts" in pod.initMounts && "user-config" in pod.mounts
  {
  }

  lemma MapsAsked(parses: QuantityParser, w: World, k: Key, init: Key, config: Key)
    requires AskedAt(parses, w, k) && PodOf(w.store[k]).Some?
    requires var n := w.origins[k].owner.id.name; init.name == n + "-init" && config.name == n + "-config"
    requires init in w.store && w.store[init].body.ConfigMap? && w.store[init].body.file == "create_config.sh"
    requires config in w.store && w.store[config].body.ConfigMap? && w.store[config].body.file == "atomix.conf"
    ensures var pod := PodOf(w.store[k]).value;
      && Mounted(w, pod, "init-scripts", init, "create_config.sh")
      && Mounted(w, pod, "user-config", config, "atomix.conf")
      && "init-scripts" in pod.initMounts && "user-config" in pod.mounts
  {
    PodVolumesAsked(w.origins[k].owner, WorkerPart(w.origins[k].step), w.store[k]);
  }

  lemma ScriptText(o: Owner, worker: bool, made: Object)
    requires ConfigMapAsked(o, worker, made.name, made.body) && made.name == o.id.name + "-init"
    requires !o.id.kind.BenchmarkKind?
    ensures made.body.payload == MemberScript(ClusterOf(o) + "." + o.id.namespace + ".svc.cluster.local")
  {
  }

  lemma NodesText(o: Owner, worker: bool, made: Object)
    requires BodyAsked(o, worker, made.name, made.body) && made.body.StatefulSet?
    ensures ReadInt(made.body.pod.nodesArgument) == Some(made.body.replicas)
  {
  }

  lemma SetAndScript(parses: QuantityParser, w: World, s: Key, init: Key)
    requires AskedAt(parses, w, s) && w.store[s].body.StatefulSet?
    requires AskedAt(parses, w, init) && w.origins[init].owner.id == w.origins[s].owner.id
    requires !w.origins[s].owner.id.kind.BenchmarkKind? && init.name == w.origins[s].owner.id.name + "-init"
    requires init.kind.ConfigMapKind?
    ensures ReadInt(w.store[s].body.pod.nodesArgument) == Some(w.store[s].body.replicas)
    ensures w.store[init].body.ConfigMap? && w.store[init].body.payload.MemberScript?
    ensures w.store[init].body.payload.service ==
              ClusterOf(w.origins[init].owner) + "." + w.origins[init].owner.id.namespace + ".svc.cluster.local"
  {
    NodesText(w.origins[s].owner, WorkerPart(w.origins[s].step), w.store[s]);
    ScriptText(w.origins[init].owner, WorkerPart(w.origins[init].step), w.store[init]);
  }

  // The script at init that the pods of the set at s run, and the service it was printed for.
  ghost predicate RunsScript(w: World, s: Key, init: Key, service: string) {
    && s in w.store && w.store[s].body.StatefulSet?
    && ReadInt(w.store[s].body.pod.nodesArgument) == Some(w.store[s].body.replicas)
    && Mounted(w, w.store[s].body.pod, "init-scripts", init, "create_config.sh")
    && w.store[init].body.payload == MemberScript(service)
  }

  lemma ItsScript(parses: QuantityParser, w0: World, trace: seq<Label>, w: World, s: Key)
    requires Grown(parses, w0, trace, w) && NoClashes(w.history.Keys)
    requires s in w.store && s.kind.StatefulSetKind? && s in w.origins && !w.origins[s].owner.id.kind.BenchmarkKind?
    ensures var init := Key(ConfigMapKind, s.namespace, s.name + "-init");
      && init in w.origins && w.origins[init].owner.id == w.origins[s].owner.id
      && RunsScript(w, s, init, ClusterOf(w.origins[init].owner) + "." + s.namespace + ".svc.cluster.local")
  {
    IsAskedAt(parses, w0, trace, w, s);
    StoredMounts(parses, w0, trace, w, s);
    var init := Key(ConfigMapKind, s.namespace, s.name + "-init");
    IsAskedAt(parses, w0, trace, w, init);
    SetAndScript(parses, w, s, init);
  }

  /** Membership across stored objects. Take the stored StatefulSet of a cluster or a group whose
      name has no dot, and run the script in the one volume of its pods called init-scripts on
      each of them, with its own ATOMIX_NODES. It succeeds on every pod; and all pods list the
      same members, one per replica, each finding itself at its own ordinal and nowhere else. */
  lemma StoredMembership(parses: QuantityParser, w0: World, trace: seq<Label>, w: World, s: Key,
                         n: nat, k: nat, domain: string)
    requires Grown(parses, w0, trace, w) && NoClashes(w.history.Keys)
    requires s in w.store && s.kind.StatefulSetKind? && s in w.origins && !w.origins[s].owner.id.kind.BenchmarkKind?
    requires '.' !in s.name && w.store[s].body.StatefulSet? && w.store[s].body.replicas == n && k < n
    ensures var pod, init := w.store[s].body.pod, Key(ConfigMapKind, s.namespace, s.name + "-init");
      && Mounted(w, pod, "init-scripts", init, "create_config.sh") && w.store[init].body.payload.MemberScript?
      && var out := Script(w.store[init].body.payload.service, s.name + "-" + Decimal(k), domain, pod.nodesArgument);
         out.Properties? && AgreedMembers(out.lines, s.name, n, k)
  {
    ItsScript(parses, w0, trace, w, s);
    var init := Key(ConfigMapKind, s.namespace, s.name + "-init");
    var service := w.store[init].body.payload.service;
    MembershipAgreement(service, s.name, n, k, domain, w.store[s].body.pod.nodesArgument);
  }

  /** Discovery across stored objects. Wherever that script succeeds, it writes as atomix.service
      the DNS name of the cluster that the owner's spec named when the script was built, as its
      own node id the host's short name, and port 5679. When the Service of that cluster is
      stored in the namespace, it selects the StatefulSet's pods if and only if the spec still
      named the cluster when the StatefulSet was built. */
  lemma StoredDiscovery(parses: QuantityParser, w0: World, trace: seq<Label>, w: World, s: Key,
                        host: string, domain: string, nodes: string)
    requires Grown(parses, w0, trace, w) && NoClashes(w.history.Keys)
    requires s in w.store && s.kind.StatefulSetKind? && s in w.origins && !w.origins[s].owner.id.kind.BenchmarkKind?
    ensures var init := Key(ConfigMapKind, s.namespace, s.name + "-init");
      && init in w.store && init in w.origins && w.origins[init].owner.id == w.origins[s].owner.id
      && w.store[init].body.ConfigMap? && w.store[init].body.payload.MemberScript?
      && var cluster := ClusterOf(w.origins[init].owner);
      && Announces(w.store[init].body.payload.service, host, domain, nodes,
                   cluster + "." + s.namespace + ".svc.cluster.local")
      && DiscoveredBy(w, Key(ServiceKind, s.namespace, cluster), s, cluster)
  {
    ItsScript(parses, w0, trace, w, s);
    var init := Key(ConfigMapKind, s.namespace, s.name + "-init");
    var service := w.store[init].body.payload.service;
    if Script(service, host, domain, nodes).Properties? {
      ScriptSays(service, host, domain, nodes);
    }
    ItsService(parses, w0, trace, w, Key(ServiceKind, s.namespace, ClusterOf(w.origins[init].owner)), s);
  }

  // What a run of the script for a service announces on a host, if it succeeds.
  ghost predicate Announces(printed: string, host: string, domain: string, nodes: string, service: string) {
    var out := Script(printed, host, domain, nodes);
    out.Properties? ==>
      && Property(out.lines, "atomix.service") == Some(service)
      && Property(out.lines, "atomix.node.id") == Some(ShortHost(host))
      && Property(out.lines, "atomix.node.port") == Some("5679")
  }

  // If the Service of the cluster is stored, it selects the pods of the set at s exactly when the
  // set was built for the cluster.
  ghost predicate DiscoveredBy(w: World, service: Key, s: Key, cluster: string)
    requires s in w.store && s in w.origins
  {
    service in w.store && service in w.origins && w.origins[service].owner.id.kind.ClusterKind? ==>
      && w.store[service].body.Service? && PodLabels(w.store[s]).Some?
      && (Selects(w.store[service].body.selects, PodLabels(w.store[s]).value) <==>
            ClusterOf(w.origins[s].owner) == cluster)
  }

  lemma ItsService(parses: QuantityParser, w0: World, trace: seq<Label>, w: World, service: Key, s: Key)
    requires Grown(parses, w0, trace, w) && service.kind.ServiceKind?
    requires s in w.store && s in w.origins && s.kind.StatefulSetKind? && !w.origins[s].owner.id.kind.BenchmarkKind?
    ensures DiscoveredBy(w, service, s, service.name)
  {
    GrownIs(parses, w0, trace, w);
    Discovered(parses, w, service, s);
  }

  lemma Discovered(parses: QuantityParser, w: World, service: Key, s: Key)
    requires Explained(parses, w) && service.kind.ServiceKind?
    requires s in w.store && s in w.origins && s.kind.StatefulSetKind? && !w.origins[s].owner.id.kind.BenchmarkKind?
    ensures DiscoveredBy(w, service, s, service.name)
  {
    if service in w.store && service in w.origins && w.origins[service].owner.id.kind.ClusterKind? {
      StoredIsBuilt(parses, w, s);
      StoredIsBuilt(parses, w, service);
      StepOfKind(w.origins[s].owner.id, w.origins[s].step);
      SetIsSet(parses, w.origins[s].owner);
      ServiceSelects(parses, w, service, s);
      ClusterService(parses, w, service);
    }
  }

  // ----- Benchmarks' coordinators -----

  /** A benchmark's coordinator. The one volume called init-scripts of its stored Pod holds the
      stored script of the controller, never the worker's; the script sends it to the DNS name
      of the cluster that the spec named when the script was built, lists no members, and gives
      the name of the benchmark's Service as the coordinator's host. */
  lemma StoredCoordinator(parses: QuantityParser, w0: World, trace: seq<Label>, w: World, p: Key,
                          host: string, i: nat)
    requires Grown(parses, w0, trace, w) && NoClashes(w.history.Keys) && p in w.store && p.kind.PodKind?
    ensures var init := Key(ConfigMapKind, p.namespace, p.name + "-init");
      && w.store[p].body.Pod? && Mounted(w, w.store[p].body.podSpec, "init-scripts", init, "create_config.sh")
      && init in w.origins && w.store[init].body.payload.CoordinatorScript?
      && var lines := CoordinatorLines(w.store[init].body.payload.service, w.store[init].body.payload.host, host);
      && Property(lines, "atomix.service") ==
           Some(ClusterOf(w.origins[init].owner) + "." + p.namespace + ".svc.cluster.local")
      && Property(lines, "atomix.node.host") == Some(p.name + "-service")
      && Property(lines, "atomix.node.port") == Some("5679")
      && Property(lines, "atomix.members." + Decimal(i)) == None
  {
    CoordinatorPod(parses, w0, trace, w, p);
    var init := Key(ConfigMapKind, p.namespace, p.name + "-init");
    CoordinatorSays(w.store[init].body.payload.service, w.store[init].body.payload.host, host);
  }

  lemma CoordinatorPod(parses: QuantityParser, w0: World, trace: seq<Label>, w: World, p: Key)
    requires Grown(parses, w0, trace, w) && NoClashes(w.history.Keys) && p in w.store && p.kind.PodKind?
    ensures var init := Key(ConfigMapKind, p.namespace, p.name + "-init");
      && w.store[p].body.Pod? && Mounted(w, w.store[p].body.podSpec, "init-scripts", init, "create_config.sh")
      && init in w.origins && w.store[init].body.payload ==
           CoordinatorScript(ClusterOf(w.origins[init].owner) + "." + p.namespace + ".svc.cluster.local",
                             p.name + "-service")
  {
    PodIsPod(parses, w0, trace, w, p);
    StoredMounts(parses, w0, trace, w, p);
    ControllerScript(parses, w0, trace, w, Key(ConfigMapKind, p.namespace, p.name + "-init"));
  }

  lemma PodIsPod(parses: QuantityParser, w0: World, trace: seq<Label>, w: World, p: Key)
    requires Grown(parses, w0, trace, w) && p in w.store && p.kind.PodKind?
    ensures p in w.origins && w.store[p].body.Pod? && w.origins[p].owner.id.kind.BenchmarkKind?
  {
    GrownIs(parses, w0, trace, w);
    StoredIsBuilt(parses, w, p);
    PodBody(parses, w, p);
  }

  lemma PodBody(parses: QuantityParser, w: World, p: Key)
    requires BuiltAt(parses, w, p) && p.kind.PodKind?
    ensures w.store[p].body.Pod? && w.origins[p].owner.id.kind.BenchmarkKind?
  {
    BuiltAtItsKey(parses, w.origins[p].owner, w.origins[p].step);
    PlanKeys(w.origins[p].owner.id, p);
  }

  lemma ControllerScript(parses: QuantityParser, w0: World, trace: seq<Label>, w: World, init: Key)
    requires Grown(parses, w0, trace, w) && init in w.origins && init.kind.ConfigMapKind?
    requires var id := w.origins[init].owner.id; id.kind.BenchmarkKind? && init.name == id.name + "-init"
    ensures init in w.store && w.store[init].body.ConfigMap?
    ensures var o := w.origins[init].owner;
      w.store[init].body.payload ==
        CoordinatorScript(ClusterOf(o) + "." + o.id.namespace + ".svc.cluster.local", o.id.name + "-service")
  {
    OriginIsBuilt(parses, w0, trace, w, init);
    var o := w.origins[init].owner;
    SpelledNames(o.id);
    BenchmarkSteps(o.id, w.origins[init].step);
    WorkerVersionsNeverStored(parses, w0, trace, w, init);
    ScriptStep(parses, o, CONTROLLER_INIT);
  }
}
