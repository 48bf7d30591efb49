/**
 What the label selectors select, and what a disruption budget's count guarantees about the
 pods of the StatefulSet beside it.
 */
module Selection {
  import opened Text
  import opened Specs
  import opened Naming
  import opened Objects
  import opened Builders
  import opened InitScript

  // The labels of the pods an object stands for: a StatefulSet's template, or a Pod's own.
  function PodLabels(o: Object): Option<Labels> {
    match o.body
    case StatefulSet(_, _, _, template, _, _) => Some(template)
    case Pod(_) => Some(o.labels)
    case _ => None
  }

  // The cluster an owner's pods belong to: a cluster's own, or the one its spec names.
  function ClusterOf(o: Owner): string {
    match o.spec
    case ForCluster(_) => o.id.name
    case ForGroup(g) => g.cluster
    case ForBenchmark(b) => b.cluster
  }

  // Labels that say which owner they belong to.
  ghost predicate Names(labels: Labels, o: Owner) {
    && APP_KEY in labels && labels[APP_KEY] == ATOMIX_APP
    && CLUSTER_KEY in labels && labels[CLUSTER_KEY] == ClusterOf(o)
    && TYPE_KEY in labels
    && (labels[TYPE_KEY] == MANAGEMENT_TYPE <==> o.id.kind.ClusterKind?)
    && (labels[TYPE_KEY] == GROUP_TYPE <==> o.id.kind.GroupKind?)
    && (GROUP_KEY in labels <==> o.id.kind.GroupKind?)
    && (o.id.kind.GroupKind? ==> labels[GROUP_KEY] == o.id.name)
  }

  lemma PodLabelsOf(parses: QuantityParser, o: Owner, step: nat)
    requires step < |Plan(o.id)| && Build(parses, o, step).Built?
    requires PodLabels(Build(parses, o, step).result).Some?
    ensures Names(PodLabels(Build(parses, o, step).result).value, o)
  {
    if o.id.kind.BenchmarkKind? {
      BenchmarkPodLabels(parses, o, step);
    } else {
      SetPodLabels(parses, o, step);
    }
  }

  lemma BenchmarkPodLabels(parses: QuantityParser, o: Owner, step: nat)
    requires o.id.kind.BenchmarkKind? && step < |Plan(o.id)| && Build(parses, o, step).Built?
    requires PodLabels(Build(parses, o, step).result).Some?
    ensures Names(PodLabels(Build(parses, o, step).result).value, o)
  {
  }

  lemma SetPodLabels(parses: QuantityParser, o: Owner, step: nat)
    requires !o.id.kind.BenchmarkKind? && step < |Plan(o.id)| && Build(parses, o, step).Built?
    requires PodLabels(Build(parses, o, step).result).Some?
    ensures Names(PodLabels(Build(parses, o, step).result).value, o)
  {
    if o.id.kind.ClusterKind? {
      ClusterPodLabels(parses, o, step);
    } else {
      GroupPodLabels(parses, o, step);
    }
  }

  lemma ClusterPodLabels(parses: QuantityParser, o: Owner, step: nat)
    requires o.id.kind.ClusterKind? && step < |Plan(o.id)| && Build(parses, o, step).Built?
    requires PodLabels(Build(parses, o, step).result).Some?
    ensures Names(PodLabels(Build(parses, o, step).result).value, o)
  {
    DifferentWords();
    assert PodLabels(Build(parses, o, step).result).value == ManagementLabels(o.id);
  }

  lemma GroupPodLabels(parses: QuantityParser, o: Owner, step: nat)
    requires o.id.kind.GroupKind? && step < |Plan(o.id)| && Build(parses, o, step).Built?
    requires PodLabels(Build(parses, o, step).result).Some?
    ensures Names(PodLabels(Build(parses, o, step).result).value, o)
  {
    GroupTemplate(parses, o, step);
    GroupLabelsName(o);
  }

  lemma GroupTemplate(parses: QuantityParser, o: Owner, step: nat)
    requires o.id.kind.GroupKind? && step < |Plan(o.id)| && Build(parses, o, step).Built?
    requires PodLabels(Build(parses, o, step).result).Some?
    ensures o.spec.ForGroup?
    ensures PodLabels(Build(parses, o, step).result).value == GroupLabels(o.id, DefaultGroup(o.spec.group))
  {
    assert step == SET_STEP;
  }

  lemma GroupLabelsName(o: Owner)
    requires o.id.kind.GroupKind? && o.spec.ForGroup?
    ensures Names(GroupLabels(o.id, DefaultGroup(o.spec.group)), o)
  {
    DifferentWords();
  }

  lemma DifferentWords()
    ensures APP_KEY != CLUSTER_KEY && APP_KEY != TYPE_KEY && APP_KEY != GROUP_KEY
    ensures CLUSTER_KEY != TYPE_KEY && CLUSTER_KEY != GROUP_KEY && TYPE_KEY != GROUP_KEY
    ensures MANAGEMENT_TYPE != GROUP_TYPE && WORKER_TYPE != COORDINATOR_TYPE
    ensures MANAGEMENT_TYPE != WORKER_TYPE && MANAGEMENT_TYPE != COORDINATOR_TYPE
    ensures GROUP_TYPE != WORKER_TYPE && GROUP_TYPE != COORDINATOR_TYPE
  {
  }

  /** The StatefulSet of a cluster or a group selects the pods of its own template, and no pod
      of any other owner: other clusters, groups and benchmarks, whatever they are called and
      whatever their specs say. */
  lemma SetSelectsOwnPods(parses: QuantityParser, a: Owner, b: Owner, step: nat)
    requires !a.id.kind.BenchmarkKind? && a.id.namespace == b.id.namespace
    requires Build(parses, a, SET_STEP).Built?
    requires step < |Plan(b.id)| && Build(parses, b, step).Built?
    requires PodLabels(Build(parses, b, step).result).Some?
    ensures Build(parses, a, SET_STEP).result.body.StatefulSet?
    ensures var selector := Build(parses, a, SET_STEP).result.body.selector;
      Selects(selector, PodLabels(Build(parses, b, step).result).value)
      <==> a.id == b.id && ClusterOf(a) == ClusterOf(b)
  {
    SelectorOf(parses, a);
    PodLabelsOf(parses, b, step);
    var selector := Build(parses, a, SET_STEP).result.body.selector;
    var labels := PodLabels(Build(parses, b, step).result).value;
    SelectsExactly(a, b, selector, labels);
  }

  lemma SelectorOf(parses: QuantityParser, a: Owner)
    requires !a.id.kind.BenchmarkKind? && Build(parses, a, SET_STEP).Built?
    ensures Build(parses, a, SET_STEP).result.body.StatefulSet?
    ensures var selector := Build(parses, a, SET_STEP).result.body.selector;
      Names(selector, a) && selector.Keys <= {APP_KEY, CLUSTER_KEY, TYPE_KEY, GROUP_KEY}
  {
    SelectorIsTemplate(parses, a);
    PodLabelsOf(parses, a, SET_STEP);
  }

  lemma SelectorIsTemplate(parses: QuantityParser, a: Owner)
    requires !a.id.kind.BenchmarkKind? && Build(parses, a, SET_STEP).Built?
    ensures var body := Build(parses, a, SET_STEP).result.body;
      && body.StatefulSet? && body.selector == body.template
      && body.selector.Keys <= {APP_KEY, CLUSTER_KEY, TYPE_KEY, GROUP_KEY}
  {
  }

  lemma SelectsExactly(a: Owner, b: Owner, selector: Labels, labels: Labels)
    requires !a.id.kind.BenchmarkKind? && a.id.namespace == b.id.namespace
    requires a.id.kind.ClusterKind? ==> ClusterOf(a) == a.id.name
    requires b.id.kind.ClusterKind? ==> ClusterOf(b) == b.id.name
    requires Names(selector, a) && selector.Keys <= {APP_KEY, CLUSTER_KEY, TYPE_KEY, GROUP_KEY} && Names(labels, b)
    ensures Selects(selector, labels) <==> a.id == b.id && ClusterOf(a) == ClusterOf(b)
  {
  }

  /** The worker StatefulSet of a benchmark selects the pods of the worker StatefulSets of all
      benchmarks of its cluster, its own among them, and no others: the labels do not name the
      benchmark. */
  lemma WorkerSetSelects(parses: QuantityParser, a: Owner, b: Owner, step: nat)
    requires a.id.kind.BenchmarkKind? && Build(parses, a, WORKER_SET).Built?
    requires step < |Plan(b.id)| && Build(parses, b, step).Built?
    requires PodLabels(Build(parses, b, step).result).Some?
    ensures Build(parses, a, WORKER_SET).result.body.StatefulSet?
    ensures Selects(Build(parses, a, WORKER_SET).result.body.selector, PodLabels(Build(parses, b, step).result).value)
            <==> b.id.kind.BenchmarkKind? && ClusterOf(a) == ClusterOf(b) && step == WORKER_SET
  {
    DifferentWords();
    WorkerSelectorIs(parses, a);
    PodLabelsOf(parses, b, step);
    WorkerType(parses, b, step);
    var selector := WorkerLabels(a.spec.benchmark);
    assert TYPE_KEY in selector && CLUSTER_KEY in selector && APP_KEY in selector;
  }

  lemma WorkerSelectorIs(parses: QuantityParser, a: Owner)
    requires a.id.kind.BenchmarkKind? && Build(parses, a, WORKER_SET).Built?
    ensures a.spec.ForBenchmark? && Build(parses, a, WORKER_SET).result.body.StatefulSet?
    ensures Build(parses, a, WORKER_SET).result.body.selector == WorkerLabels(a.spec.benchmark)
  {
  }

  // Only the pods of worker sets are labelled as workers.
  lemma WorkerType(parses: QuantityParser, b: Owner, step: nat)
    requires step < |Plan(b.id)| && Build(parses, b, step).Built?
    requires PodLabels(Build(parses, b, step).result).Some?
    ensures var labels := PodLabels(Build(parses, b, step).result).value;
      && TYPE_KEY in labels
      && (labels[TYPE_KEY] == WORKER_TYPE <==> b.id.kind.BenchmarkKind? && step == WORKER_SET)
  {
    DifferentWords();
    PodLabelsOf(parses, b, step);
    if b.id.kind.BenchmarkKind? {
      BenchmarkType(parses, b, step);
    }
  }

  lemma BenchmarkType(parses: QuantityParser, b: Owner, step: nat)
    requires b.id.kind.BenchmarkKind? && step < |Plan(b.id)| && Build(parses, b, step).Built?
    requires PodLabels(Build(parses, b, step).result).Some?
    ensures step == CONTROLLER_POD || step == WORKER_SET
    ensures PodLabels(Build(parses, b, step).result).value ==
      if step == WORKER_SET then WorkerLabels(b.spec.benchmark) else CoordinatorLabels(b.spec.benchmark)
  {
  }

  /** A cluster's management Service selects exactly the pods that belong to the cluster: its
      own, those of the groups naming it, and those of the benchmarks naming it. */
  lemma ManagementServiceSelects(parses: QuantityParser, c: Owner, b: Owner, step: nat)
    requires c.id.kind.ClusterKind? && Build(parses, c, SERVICE_STEP).Built?
    requires step < |Plan(b.id)| && Build(parses, b, step).Built?
    requires PodLabels(Build(parses, b, step).result).Some?
    ensures Build(parses, c, SERVICE_STEP).result.body.Service?
    ensures Selects(Build(parses, c, SERVICE_STEP).result.body.selects, PodLabels(Build(parses, b, step).result).value)
            <==> ClusterOf(b) == c.id.name
  {
    DifferentWords();
    PodLabelsOf(parses, b, step);
    assert CLUSTER_KEY in ManagementServiceSelector(c.id);
  }

  /** No pod, whoever labelled it, is behind the management Services of two clusters. */
  lemma ManagementServicesDisjoint(c: OwnerId, d: OwnerId, labels: Labels)
    requires Selects(ManagementServiceSelector(c), labels) && Selects(ManagementServiceSelector(d), labels)
    ensures c.name == d.name
  {
    DifferentWords();
    assert CLUSTER_KEY in ManagementServiceSelector(c) && CLUSTER_KEY in ManagementServiceSelector(d);
  }

  // ----- Quorums -----

  // The pods of a StatefulSet with ordinals from `from` on.
  function PodNames(setName: string, from: nat, count: nat): set<string> {
    if count == 0 then {} else PodNames(setName, from, count - 1) + {PodName(setName, from + count - 1)}
  }

  lemma {:induction false} PodNamesAre(setName: string, from: nat, count: nat, p: string)
    ensures p in PodNames(setName, from, count) <==>
              (exists i: nat :: from <= i < from + count && p == PodName(setName, i))
  {
    if count == 0 {
    } else {
      PodNamesAre(setName, from, count - 1, p);
    }
  }

  lemma {:induction false} CountPods(setName: string, from: nat, count: nat)
    ensures |PodNames(setName, from, count)| == count
  {
    if count == 0 {
    } else {
      CountPods(setName, from, count - 1);
      var last := from + count - 1;
      PodNamesAre(setName, from, count - 1, PodName(setName, last));
      forall i: nat | i < last
        ensures PodName(setName, i) != PodName(setName, last)
      {
        PodNamesDiffer(setName, i, setName, last);
      }
    }
  }

  // The first k pods and the next k pods: disjoint, and both among the first n if 2k <= n.
  lemma TwoHalves(setName: string, k: nat, n: nat)
    requires k + k <= n
    ensures PodNames(setName, 0, k) <= PodNames(setName, 0, n) && PodNames(setName, k, k) <= PodNames(setName, 0, n)
    ensures PodNames(setName, 0, k) * PodNames(setName, k, k) == {}
  {
    forall p
      ensures p in PodNames(setName, 0, k) ==> p in PodNames(setName, 0, n) && p !in PodNames(setName, k, k)
      ensures p in PodNames(setName, k, k) ==> p in PodNames(setName, 0, n)
    {
      PodNamesAre(setName, 0, k, p);
      PodNamesAre(setName, k, k, p);
      PodNamesAre(setName, 0, n, p);
      forall i: nat, j: nat | i < k <= j
        ensures PodName(setName, i) != PodName(setName, j)
      {
        PodNamesDiffer(setName, i, setName, j);
      }
    }
  }

  // Any two groups of at least k of these pods have a pod in common.
  ghost predicate AlwaysMeet(pods: set<string>, k: nat) {
    forall a, b :: Available(a, pods, k) && Available(b, pods, k) ==> a * b != {}
  }

  ghost predicate Available(part: set<string>, pods: set<string>, k: nat) {
    part <= pods && k <= |part|
  }

  lemma SubsetSize<T>(a: set<T>, b: set<T>)
    requires a <= b
    ensures |a| <= |b|
  {
    assert |b| == |a| + |b - a| by { assert b == a + (b - a); }
  }

  /** The budget's count is a quorum and the smallest one: at most all pods, any two sets of
      that many pods of the StatefulSet intersect, and no smaller number has this property. */
  lemma BudgetIsLeastQuorum(setName: string, size: Int32, k: nat)
    requires 0 < size
    ensures 0 < MinAvailable(size) <= size
    ensures AlwaysMeet(PodNames(setName, 0, size), k) <==> MinAvailable(size) <= k
  {
    var pods := PodNames(setName, 0, size);
    CountPods(setName, 0, size);
    if MinAvailable(size) <= k {
      forall a, b | Available(a, pods, k) && Available(b, pods, k)
        ensures a * b != {}
      {
        SubsetSize(a + b, pods);
        assert |a + b| == |a| + |b| - |a * b|;
      }
    } else {
      var a, b := PodNames(setName, 0, k), PodNames(setName, k, k);
      CountPods(setName, 0, k);
      CountPods(setName, k, k);
      TwoHalves(setName, k, size);
      assert Available(a, pods, k) && Available(b, pods, k);
      assert a * b == {};
    }
  }
}
