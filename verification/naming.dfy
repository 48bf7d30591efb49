/**
 Who owns what: the identities of the three kinds of owner, the keys of the objects each pass
 looks up, in order, and exactly when two owners want the same key.
 */
module Naming {
  import opened Text

  datatype OwnerKind = ClusterKind | GroupKind | BenchmarkKind

  datatype OwnerId = OwnerId(kind: OwnerKind, namespace: string, name: string)

  datatype ObjectKind = ConfigMapKind | DisruptionBudgetKind | StatefulSetKind | ServiceKind | PodKind

  datatype Key = Key(kind: ObjectKind, namespace: string, name: string)

  const SERVICE_SUFFIX := "service"
  const BUDGET_SUFFIX := "pdb"
  const INIT_SUFFIX := "init"
  const CONFIG_SUFFIX := "config"

  function ResourceName(owner: string, resource: string): string {
    owner + "-" + resource
  }

  function InitName(id: OwnerId): string { ResourceName(id.name, INIT_SUFFIX) }

  function ConfigName(id: OwnerId): string { ResourceName(id.name, CONFIG_SUFFIX) }

  function BudgetName(id: OwnerId): string { ResourceName(id.name, BUDGET_SUFFIX) }

  // Clusters and groups name their Service after themselves; a benchmark adds a suffix.
  function ServiceName(id: OwnerId): string {
    if id.kind.BenchmarkKind? then ResourceName(id.name, SERVICE_SUFFIX) else id.name
  }

  // The steps of a cluster's or a group's pass.
  const INIT_STEP: nat := 0
  const CONFIG_STEP: nat := 1
  const BUDGET_STEP: nat := 2
  const SET_STEP: nat := 3
  const SERVICE_STEP: nat := 4

  // The steps of a benchmark's pass.
  const CONTROLLER_INIT: nat := 0
  const CONTROLLER_CONFIG: nat := 1
  const CONTROLLER_POD: nat := 2
  const CONTROLLER_SERVICE: nat := 3
  const WORKER_INIT: nat := 4
  const WORKER_CONFIG: nat := 5
  const WORKER_SET: nat := 6
  const WORKER_SERVICE: nat := 7

  // The keys a pass looks up, in reconcile order. The worker steps of a benchmark name the
  // same ConfigMaps and the same Service as its controller steps.
  function Plan(id: OwnerId): seq<Key> {
    var init := Key(ConfigMapKind, id.namespace, InitName(id));
    var config := Key(ConfigMapKind, id.namespace, ConfigName(id));
    var budget := Key(DisruptionBudgetKind, id.namespace, BudgetName(id));
    var pod := Key(PodKind, id.namespace, id.name);
    var stateful := Key(StatefulSetKind, id.namespace, id.name);
    var service := Key(ServiceKind, id.namespace, ServiceName(id));
    if id.kind.BenchmarkKind? then [init, config, pod, service, init, config, stateful, service]
    else [init, config, budget, stateful, service]
  }

  ghost predicate Wants(id: OwnerId, k: Key) {
    k in Plan(id)
  }

  // The five keys behind a plan, by the kind of object.
  lemma PlanKeys(id: OwnerId, k: Key)
    ensures Wants(id, k) <==>
      && k.namespace == id.namespace
      && match k.kind
         case ConfigMapKind => k.name == InitName(id) || k.name == ConfigName(id)
         case DisruptionBudgetKind => !id.kind.BenchmarkKind? && k.name == BudgetName(id)
         case StatefulSetKind => k.name == id.name
         case ServiceKind => k.name == ServiceName(id)
         case PodKind => id.kind.BenchmarkKind? && k.name == id.name
  {
  }

  lemma SuffixedNames(a: string, b: string)
    ensures ResourceName(a, INIT_SUFFIX) == ResourceName(b, INIT_SUFFIX) <==> a == b
    ensures ResourceName(a, CONFIG_SUFFIX) == ResourceName(b, CONFIG_SUFFIX) <==> a == b
    ensures ResourceName(a, BUDGET_SUFFIX) == ResourceName(b, BUDGET_SUFFIX) <==> a == b
    ensures ResourceName(a, SERVICE_SUFFIX) == ResourceName(b, SERVICE_SUFFIX) <==> a == b
    ensures ResourceName(a, INIT_SUFFIX) != ResourceName(b, CONFIG_SUFFIX)
  {
    forall suffix | ResourceName(a, suffix) == ResourceName(b, suffix)
      ensures a == b
    {
      assert a + ("-" + suffix) == ResourceName(a, suffix) && b + ("-" + suffix) == ResourceName(b, suffix);
      SameTail(a, b, "-" + suffix);
    }
    var x, y := ResourceName(a, INIT_SUFFIX), ResourceName(b, CONFIG_SUFFIX);
    assert x[|x| - 1] == 't' && y[|y| - 1] == 'g';
  }

  // A benchmark b next to a cluster or a group called b-service.
  predicate ServiceClash(bench: OwnerId, other: OwnerId) {
    && bench.kind.BenchmarkKind? && !other.kind.BenchmarkKind?
    && other.name == ResourceName(bench.name, SERVICE_SUFFIX)
  }

  predicate Clash(a: OwnerId, b: OwnerId) {
    && a != b && a.namespace == b.namespace
    && (a.name == b.name || ServiceClash(a, b) || ServiceClash(b, a))
  }

  lemma CommonKeyClashes(a: OwnerId, b: OwnerId, k: Key)
    requires a != b && Wants(a, k) && Wants(b, k)
    ensures Clash(a, b)
  {
    PlanKeys(a, k);
    PlanKeys(b, k);
    SuffixedNames(a.name, b.name);
    SuffixedNames(b.name, a.name);
  }

  /** Two different owners want a common key exactly when they share a namespace and either
      have the same name (and so different kinds), or one is a benchmark whose Service carries
      the name of the other, a cluster or a group. No other pair of names can collide, however
      many hyphens or suffixes they contain. */
  lemma KeyCollision(a: OwnerId, b: OwnerId)
    requires a != b
    ensures (exists k :: Wants(a, k) && Wants(b, k)) <==> Clash(a, b)
  {
    if k :| Wants(a, k) && Wants(b, k) {
      CommonKeyClashes(a, b, k);
    }
    if Clash(a, b) {
      var k := if a.name == b.name then Key(StatefulSetKind, a.namespace, a.name)
               else Key(ServiceKind, a.namespace, ServiceName(a));
      PlanKeys(a, k);
      PlanKeys(b, k);
    }
  }

  // The repeated keys of a benchmark are exactly its init, config and Service keys.
  lemma PlanRepeats(id: OwnerId, i: nat, j: nat)
    requires i < j < |Plan(id)|
    ensures Plan(id)[i] == Plan(id)[j] <==>
              id.kind.BenchmarkKind? && j == i + 4 && i != CONTROLLER_POD
  {
  }

  lemma FiveKeys(id: OwnerId)
    ensures |set k | k in Plan(id)| == 5
  {
    SuffixedNames(id.name, id.name);
    var p := Plan(id);
    var five := if id.kind.BenchmarkKind? then {p[0], p[1], p[2], p[3], p[6]}
                else {p[0], p[1], p[2], p[3], p[4]};
    assert (set k | k in p) == five;
    forall i: nat, j: nat | i < j < |p| { PlanRepeats(id, i, j); }
  }
}
