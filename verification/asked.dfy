/**
 What a spec asks for, said without the builders: the values a user finds documented, for each
 field left out its default, and the names as they are spelled. The builders are proved to
 deliver exactly this.
 */
module Asked {
  import opened Text
  import opened Specs
  import opened Naming
  import opened Objects
  import opened Config
  import opened Builders
  import opened Selection

  // ----- What is asked for -----

  function TextOr(s: string, value: string): string {
    if s == "" then value else s
  }

  function NumberOr(n: int, value: int): int {
    if n == 0 then value else n
  }

  function AskedReplicas(s: Spec): int {
    match s
    case ForCluster(c) => NumberOr(c.size, 1)
    case ForGroup(g) => NumberOr(g.size, 1)
    case ForBenchmark(b) => NumberOr(b.workers, 1)
  }

  function AskedImage(s: Spec): string {
    match s
    case ForCluster(c) => "atomix/atomix:" + TextOr(c.version, "3.1.0")
    case ForGroup(g) => "atomix/atomix:" + TextOr(g.version, "3.1.0")
    case ForBenchmark(_) => "atomix/atomix-bench:latest"
  }

  function AskedEnv(s: Spec): Option<seq<EnvVar>> {
    match s
    case ForCluster(c) => c.env
    case ForGroup(g) => g.env
    case ForBenchmark(b) => b.env
  }

  function AskedResources(s: Spec): Resources {
    match s
    case ForCluster(c) => c.resources
    case ForGroup(g) => g.resources
    case ForBenchmark(b) => b.resources
  }

  // The protocol a group runs: raft before primary-backup before log.
  function AskedProtocol(g: GroupSpec): Option<Protocol> {
    if g.raft.Some? then Some(RaftProtocol)
    else if g.primaryBackup.Some? then Some(PrimaryBackupProtocol)
    else if g.log.Some? then Some(LogProtocol)
    else None
  }

  // The storage whose size is claimed: a cluster's, or that of a winning raft or log protocol.
  function AskedStorage(s: Spec): Option<Storage> {
    match s
    case ForCluster(c) => Some(c.storage)
    case ForGroup(g) =>
      if g.raft.Some? then Some(g.raft.value.storage)
      else if g.primaryBackup.None? && g.log.Some? then Some(g.log.value.storage)
      else None
    case ForBenchmark(_) => None
  }

  function AskedClaims(s: Spec): seq<Claim> {
    match AskedStorage(s)
    case Some(storage) => [Claim("data", storage.className, TextOr(storage.size, "2G"))]
    case None => []
  }

  function AskedPartitions(g: GroupSpec): int {
    NumberOr(g.partitions, NumberOr(g.size, 1))
  }

  // The labels on a cluster's or a group's objects, and on a benchmark's by the part they are of.
  function AskedLabels(id: OwnerId, s: Spec, worker: bool): Labels {
    match s
    case ForCluster(_) => map["app" := "atomix", "cluster" := id.name, "type" := "management"]
    case ForGroup(g) => map["app" := "atomix", "cluster" := g.cluster, "type" := "group", "group" := id.name]
    case ForBenchmark(b) =>
      if worker then map["app" := "atomix", "cluster" := b.cluster, "type" := "benchmark-worker"]
      else map["app" := "atomix", "cluster" := b.cluster, "type" := "benchmark-coordinator"]
  }

  function AskedPorts(id: OwnerId, worker: bool): map<string, nat> {
    match id.kind
    case ClusterKind => map[id.name + "-node" := 5679]
    case GroupKind => map["node" := 5679]
    case BenchmarkKind =>
      if worker then map[id.name + "-node" := 5679]
      else map[id.name + "-api" := 5678, id.name + "-node" := 5679]
  }

  function AskedServiceName(id: OwnerId): string {
    if id.kind.BenchmarkKind? then id.name + "-service" else id.name
  }

  // ----- Volumes -----

  // v is the one volume of its name.
  ghost predicate OnlyVolume(volumes: seq<Volume>, v: Volume) {
    v in volumes && forall u :: u in volumes && u.name == v.name ==> u == v
  }

  // A pod gets its scripts and its configuration from its owner's two ConfigMaps.
  ghost predicate AskedVolumes(id: OwnerId, volumes: seq<Volume>) {
    && OnlyVolume(volumes, FromConfigMap("init-scripts", id.name + "-init"))
    && OnlyVolume(volumes, FromConfigMap("user-config", id.name + "-config"))
    && OnlyVolume(volumes, EmptyDir("system-config"))
  }

  // What a container mounts is a volume of its pod or one of the claims.
  ghost predicate Mountable(mounts: seq<string>, volumes: seq<Volume>, claims: seq<Claim>) {
    forall m :: m in mounts ==> (exists v :: v in volumes && v.name == m) || (exists c :: c in claims && c.name == m)
  }

  // The init container sees the scripts and writes where the main container reads; the latter
  // sees its configuration too, and its data exactly if there is a claim.
  ghost predicate AskedMounts(pod: PodSpec, claims: seq<Claim>) {
    && Mountable(pod.initMounts, pod.volumes, claims) && Mountable(pod.mounts, pod.volumes, claims)
    && "init-scripts" in pod.initMounts && "system-config" in pod.initMounts
    && "user-config" in pod.mounts && "system-config" in pod.mounts
    && ("data" in pod.mounts <==> claims != [])
  }

  lemma VolumeNames()
    ensures "init-scripts" != "user-config" && "init-scripts" != "system-config" && "user-config" != "system-config"
    ensures "data" !in {"init-scripts", "user-config", "system-config"}
  {
    assert "init-scripts"[0] == 'i' && "user-config"[0] == 'u' && "system-config"[0] == 's' && "data"[0] == 'd';
  }

  lemma VolumesAsked(id: OwnerId)
    ensures AskedVolumes(id, Volumes(id))
  {
    VolumeNames();
    var vs := Volumes(id);
    assert vs[0] == FromConfigMap("init-scripts", id.name + "-init");
    assert vs[1] == FromConfigMap("user-config", id.name + "-config");
    assert vs[2] == EmptyDir("system-config");
  }

  lemma InVolumes(id: OwnerId, m: string)
    requires m == "init-scripts" || m == "user-config" || m == "system-config"
    ensures exists v :: v in Volumes(id) && v.name == m
  {
    var vs := Volumes(id);
    assert vs[0] in vs && vs[1] in vs && vs[2] in vs;
  }

  lemma MountsAsked(id: OwnerId, pod: PodSpec, claims: seq<Claim>)
    requires pod.volumes == Volumes(id) && pod.initMounts == InitMounts()
    requires (claims == [] && pod.mounts == EphemeralMounts())
          || (|claims| == 1 && claims[0].name == "data" && pod.mounts == PersistentMounts())
    ensures AskedMounts(pod, claims)
  {
    VolumeNames();
    InVolumes(id, "init-scripts");
    InVolumes(id, "user-config");
    InVolumes(id, "system-config");
    assert pod.initMounts[0] == "init-scripts" && pod.initMounts[1] == "system-config";
    if claims == [] {
      assert pod.mounts[0] == "user-config" && pod.mounts[1] == "system-config";
    } else {
      assert claims[0] in claims;
      assert pod.mounts[0] == "data" && pod.mounts[1] == "user-config" && pod.mounts[2] == "system-config";
    }
  }

  // ----- The builders deliver -----

  // A StatefulSet with what the owner's spec asks for.
  ghost predicate SetAsked(id: OwnerId, s: Spec, body: Body) {
    && body.StatefulSet?
    && body.replicas == AskedReplicas(s) && ReadInt(body.pod.nodesArgument) == Some(body.replicas)
    && body.serviceName == AskedServiceName(id)
    && body.selector == AskedLabels(id, s, true) && body.template == AskedLabels(id, s, true)
    && body.claims == AskedClaims(s)
    && PodAsked(id, s, body.pod, body.claims)
  }

  ghost predicate PodAsked(id: OwnerId, s: Spec, pod: PodSpec, claims: seq<Claim>) {
    && pod.image == AskedImage(s) && pod.env == AskedEnv(s) && pod.resources == AskedResources(s)
    && AskedVolumes(id, pod.volumes) && AskedMounts(pod, claims)
  }

  lemma ClusterSetAsked(parses: QuantityParser, o: Owner)
    requires o.id.kind.ClusterKind? && Build(parses, o, SET_STEP).Built?
    ensures SetAsked(o.id, o.spec, Build(parses, o, SET_STEP).result.body)
  {
    var body := Build(parses, o, SET_STEP).result.body;
    ReadIntPrint(body.replicas);
    VolumesAsked(o.id);
    MountsAsked(o.id, body.pod, body.claims);
  }

  lemma GroupSetAsked(parses: QuantityParser, o: Owner)
    requires o.id.kind.GroupKind? && Build(parses, o, SET_STEP).Built?
    ensures SetAsked(o.id, o.spec, Build(parses, o, SET_STEP).result.body)
  {
    GroupClaims(parses, o);
    GroupSetFields(parses, o);
    GroupSetIs(o, Build(parses, o, SET_STEP).result.body);
  }

  lemma GroupSetFields(parses: QuantityParser, o: Owner)
    requires o.id.kind.GroupKind? && Build(parses, o, SET_STEP).Built?
    ensures o.spec.ForGroup?
    ensures var body := Build(parses, o, SET_STEP).result.body;
      && body.StatefulSet? && body.replicas == AskedReplicas(o.spec) && body.serviceName == o.id.name
      && body.selector == AskedLabels(o.id, o.spec, true) && body.template == AskedLabels(o.id, o.spec, true)
      && body.pod == GroupPod(o.id, DefaultGroup(o.spec.group), body.pod.mounts)
  {
  }

  lemma GroupSetIs(o: Owner, body: Body)
    requires o.id.kind.GroupKind? && o.spec.ForGroup? && body.StatefulSet?
    requires body.replicas == AskedReplicas(o.spec) && body.serviceName == o.id.name
    requires body.selector == AskedLabels(o.id, o.spec, true) && body.template == AskedLabels(o.id, o.spec, true)
    requires body.pod == GroupPod(o.id, DefaultGroup(o.spec.group), body.pod.mounts)
    requires body.claims == AskedClaims(o.spec)
    requires body.pod.mounts == if body.claims == [] then EphemeralMounts() else PersistentMounts()
    ensures SetAsked(o.id, o.spec, body)
  {
    GroupPodAsked(o.id, o.spec.group, body.pod, body.claims);
  }

  lemma GroupPodAsked(id: OwnerId, g: GroupSpec, pod: PodSpec, claims: seq<Claim>)
    requires pod == GroupPod(id, DefaultGroup(g), pod.mounts) && claims == AskedClaims(ForGroup(g))
    requires pod.mounts == if claims == [] then EphemeralMounts() else PersistentMounts()
    ensures PodAsked(id, ForGroup(g), pod, claims)
    ensures ReadInt(pod.nodesArgument) == Some(AskedReplicas(ForGroup(g)))
  {
    ReadIntPrint(AskedReplicas(ForGroup(g)));
    VolumesAsked(id);
    MountsAsked(id, pod, claims);
  }

  lemma GroupClaims(parses: QuantityParser, o: Owner)
    requires o.id.kind.GroupKind? && Build(parses, o, SET_STEP).Built?
    ensures var body := Build(parses, o, SET_STEP).result.body;
      && body.StatefulSet? && body.claims == AskedClaims(o.spec)
      && body.pod.mounts == if body.claims == [] then EphemeralMounts() else PersistentMounts()
  {
    GroupSetClaims(parses, o.id, o.spec.group);
  }

  lemma GroupSetClaims(parses: QuantityParser, id: OwnerId, g: GroupSpec)
    ensures GroupSet(parses, id, DefaultGroup(g)).Some? ==>
      var body := GroupSet(parses, id, DefaultGroup(g)).value;
      && body.StatefulSet? && body.claims == AskedClaims(ForGroup(g))
      && body.pod.mounts == if body.claims == [] then EphemeralMounts() else PersistentMounts()
  {
  }

  lemma WorkerSetAsked(parses: QuantityParser, o: Owner)
    requires o.id.kind.BenchmarkKind? && Build(parses, o, WORKER_SET).Built?
    ensures SetAsked(o.id, o.spec, Build(parses, o, WORKER_SET).result.body)
  {
    BenchmarkPodAsked(o.id, o.spec.benchmark, DefaultBenchmark(o.spec.benchmark).workers);
  }

  lemma BenchmarkPodAsked(id: OwnerId, s: BenchmarkSpec, size: Int32)
    ensures var pod := BenchmarkPod(id, DefaultBenchmark(s), size);
      PodAsked(id, ForBenchmark(s), pod, []) && ReadInt(pod.nodesArgument) == Some(size)
  {
    ReadIntPrint(size);
    VolumesAsked(id);
    MountsAsked(id, BenchmarkPod(id, DefaultBenchmark(s), size), []);
  }

  lemma CoordinatorAsked(parses: QuantityParser, o: Owner)
    requires o.id.kind.BenchmarkKind? && Build(parses, o, CONTROLLER_POD).Built?
    ensures var made := Build(parses, o, CONTROLLER_POD).result;
      && made.body.Pod? && made.labels == AskedLabels(o.id, o.spec, false)
      && ReadInt(made.body.podSpec.nodesArgument) == Some(1)
      && PodAsked(o.id, o.spec, made.body.podSpec, [])
  {
    BenchmarkPodAsked(o.id, o.spec.benchmark, 1);
  }

  // The step at which a benchmark's object is built decides whose part it is.
  predicate WorkerPart(step: nat) {
    4 <= step
  }

  lemma LabelsAsked(parses: QuantityParser, o: Owner, step: nat)
    requires step < |Plan(o.id)| && Build(parses, o, step).Built?
    ensures var made := Build(parses, o, step).result;
      made.labels == if made.body.DisruptionBudget? then map[] else AskedLabels(o.id, o.spec, WorkerPart(step))
  {
    match o.id.kind
    case ClusterKind => ClusterLabelled(parses, o, step);
    case GroupKind => GroupLabelled(parses, o, step);
    case BenchmarkKind => BenchmarkLabelled(parses, o, step);
  }

  lemma ClusterLabelled(parses: QuantityParser, o: Owner, step: nat)
    requires o.id.kind.ClusterKind? && step < |Plan(o.id)| && Build(parses, o, step).Built?
    ensures var made := Build(parses, o, step).result;
      made.labels == if made.body.DisruptionBudget? then map[] else AskedLabels(o.id, o.spec, WorkerPart(step))
  {
  }

  lemma GroupLabelled(parses: QuantityParser, o: Owner, step: nat)
    requires o.id.kind.GroupKind? && step < |Plan(o.id)| && Build(parses, o, step).Built?
    ensures var made := Build(parses, o, step).result;
      made.labels == if made.body.DisruptionBudget? then map[] else AskedLabels(o.id, o.spec, WorkerPart(step))
  {
  }

  lemma BenchmarkLabelled(parses: QuantityParser, o: Owner, step: nat)
    requires o.id.kind.BenchmarkKind? && step < |Plan(o.id)| && Build(parses, o, step).Built?
    ensures var made := Build(parses, o, step).result;
      made.labels == if made.body.DisruptionBudget? then map[] else AskedLabels(o.id, o.spec, WorkerPart(step))
  {
  }

  // A Service has its ports, and selects by the labels of its owner's pods; only that of a cluster
  // leaves their type open.
  ghost predicate ServiceIsAsked(o: Owner, worker: bool, body: Body) {
    && body.Service? && body.ports == AskedPorts(o.id, worker)
    && body.selects == if o.id.kind.ClusterKind? then map["app" := "atomix", "cluster" := o.id.name]
                       else AskedLabels(o.id, o.spec, worker)
  }

  lemma ServiceAsked(parses: QuantityParser, o: Owner, step: nat)
    requires step < |Plan(o.id)| && Build(parses, o, step).Built? && Build(parses, o, step).result.body.Service?
    ensures ServiceIsAsked(o, WorkerPart(step), Build(parses, o, step).result.body)
  {
    match o.id.kind
    case ClusterKind => ClusterServiceAsked(parses, o, step);
    case GroupKind => GroupServiceAsked(parses, o, step);
    case BenchmarkKind => BenchmarkServiceAsked(parses, o, step);
  }

  lemma ClusterServiceAsked(parses: QuantityParser, o: Owner, step: nat)
    requires o.id.kind.ClusterKind? && step < |Plan(o.id)|
    requires Build(parses, o, step).Built? && Build(parses, o, step).result.body.Service?
    ensures ServiceIsAsked(o, WorkerPart(step), Build(parses, o, step).result.body)
  {
  }

  lemma GroupServiceAsked(parses: QuantityParser, o: Owner, step: nat)
    requires o.id.kind.GroupKind? && step < |Plan(o.id)|
    requires Build(parses, o, step).Built? && Build(parses, o, step).result.body.Service?
    ensures ServiceIsAsked(o, WorkerPart(step), Build(parses, o, step).result.body)
  {
  }

  lemma BenchmarkServiceAsked(parses: QuantityParser, o: Owner, step: nat)
    requires o.id.kind.BenchmarkKind? && step < |Plan(o.id)|
    requires Build(parses, o, step).Built? && Build(parses, o, step).result.body.Service?
    ensures ServiceIsAsked(o, WorkerPart(step), Build(parses, o, step).result.body)
  {
  }

  // ----- Whole objects -----

  // A pod's script: every pod is sent to the management Service of its cluster.
  function AskedScript(o: Owner, worker: bool): Payload {
    var cluster := if o.id.kind.BenchmarkKind? && worker then o.id.name else ClusterOf(o);
    var service := cluster + "." + o.id.namespace + ".svc.cluster.local";
    if o.id.kind.BenchmarkKind? && !worker then CoordinatorScript(service, o.id.name + "-service")
    else MemberScript(service)
  }

  // One more than half of the replicas, halved towards zero as Go divides.
  predicate MoreThanHalf(count: int, replicas: int) {
    && -1 <= replicas - 2 * (count - 1) <= 1
    && (0 <= replicas ==> 2 * (count - 1) <= replicas) && (replicas <= 0 ==> replicas <= 2 * (count - 1))
  }

  // Every node takes its identity and the Service it looks for from what the script wrote.
  const NODE_BLOCK := "\ncluster {\n    node: ${atomix.node}\n\n"
    + "    discovery {\n        type: dns\n        service: ${atomix.service},\n    }\n}"

  // A cluster's own group is one raft partition of all its members, stored on disk; a benchmark has
  // no groups; what a partition group's text says is ConfigAsked.
  predicate ConfAsked(kind: OwnerKind, text: string) {
    match kind
    case ClusterKind =>
      text == NODE_BLOCK + "\nmanagementGroup {\n    type: raft\n    partitions: 1\n"
              + "    members: ${atomix.members}\n    storage.level: disk\n}\n"
    case GroupKind => NODE_BLOCK <= text
    case BenchmarkKind => text == NODE_BLOCK
  }

  ghost predicate ConfigMapAsked(o: Owner, worker: bool, name: string, body: Body) {
    body.ConfigMap? &&
    if name == o.id.name + "-init" then body.file == "create_config.sh" && body.payload == AskedScript(o, worker)
    else name == o.id.name + "-config" && body.file == "atomix.conf" && body.payload.Conf?
         && ConfAsked(o.id.kind, body.payload.text)
  }

  // An object as the spec of its owner asks for it; of a benchmark's, as the part it is of asks.
  ghost predicate ObjectAsked(o: Owner, worker: bool, made: Object) {
    && made.labels == (if made.body.DisruptionBudget? then map[] else AskedLabels(o.id, o.spec, worker))
    && BodyAsked(o, worker, made.name, made.body)
  }

  ghost predicate BodyAsked(o: Owner, worker: bool, name: string, body: Body) {
    match body
    case StatefulSet(_, _, _, _, _, _) => SetAsked(o.id, o.spec, body) && name == o.id.name
    case Pod(pod) => PodAsked(o.id, o.spec, pod, []) && ReadInt(pod.nodesArgument) == Some(1) && name == o.id.name
    case Service(_, _) => ServiceIsAsked(o, worker, body) && name == AskedServiceName(o.id)
    case ConfigMap(_, _) => ConfigMapAsked(o, worker, name, body)
    case DisruptionBudget(count) => MoreThanHalf(count, AskedReplicas(o.spec)) && name == o.id.name + "-pdb"
  }

  // Which object is built at which step.
  lemma StepBuilds(parses: QuantityParser, o: Owner, step: nat)
    requires step < |Plan(o.id)| && Build(parses, o, step).Built?
    ensures var made := Build(parses, o, step).result;
      && made.name == Plan(o.id)[step].name
      && match made.body
         case StatefulSet(_, _, _, _, _, _) => step == if o.id.kind.BenchmarkKind? then WORKER_SET else SET_STEP
         case Pod(_) => o.id.kind.BenchmarkKind? && step == CONTROLLER_POD
         case Service(_, _) => true
         case ConfigMap(_, _) => made.name == InitName(o.id) || made.name == ConfigName(o.id)
         case DisruptionBudget(_) => !o.id.kind.BenchmarkKind? && step == BUDGET_STEP
  {
    BuiltAtItsKey(parses, o, step);
    PlanKeys(o.id, Plan(o.id)[step]);
  }

  lemma SpelledNames(id: OwnerId)
    ensures InitName(id) == id.name + "-init" && ConfigName(id) == id.name + "-config"
    ensures BudgetName(id) == id.name + "-pdb" && ServiceName(id) == AskedServiceName(id)
  {
  }

  lemma ScriptStep(parses: QuantityParser, o: Owner, step: nat)
    requires step == INIT_STEP || (o.id.kind.BenchmarkKind? && step == WORKER_INIT)
    ensures Build(parses, o, step).Built? ==>
      var made := Build(parses, o, step).result;
      made.name == InitName(o.id) && made.body == ConfigMap("create_config.sh", AskedScript(o, WorkerPart(step)))
  {
    SpelledNames(o.id);
  }

  lemma TextStarts(s: Settings)
    ensures NODE_BLOCK <= ConfigText(s)
  {
    assert NODE_BLOCK <= HEAD;
  }

  lemma ConfStep(parses: QuantityParser, o: Owner, step: nat)
    requires step == CONFIG_STEP || (o.id.kind.BenchmarkKind? && step == WORKER_CONFIG)
    ensures Build(parses, o, step).Built? ==>
      var made := Build(parses, o, step).result;
      && made.name == ConfigName(o.id)
      && made.body.ConfigMap? && made.body.file == "atomix.conf" && made.body.payload.Conf?
      && ConfAsked(o.id.kind, made.body.payload.text)
  {
    forall s: Settings
      ensures NODE_BLOCK <= ConfigText(s)
    {
      TextStarts(s);
    }
  }

  // The ConfigMaps are built at the first two steps, and at the worker's first two.
  lemma ConfigMapSteps(parses: QuantityParser, o: Owner, step: nat)
    requires step < |Plan(o.id)| && Build(parses, o, step).Built? && Build(parses, o, step).result.body.ConfigMap?
    ensures || step == INIT_STEP || step == CONFIG_STEP
            || (o.id.kind.BenchmarkKind? && (step == WORKER_INIT || step == WORKER_CONFIG))
  {
    BuiltAtItsKey(parses, o, step);
  }

  lemma ConfigMapBuilt(parses: QuantityParser, o: Owner, step: nat)
    requires step < |Plan(o.id)| && Build(parses, o, step).Built? && Build(parses, o, step).result.body.ConfigMap?
    ensures var made := Build(parses, o, step).result; ConfigMapAsked(o, WorkerPart(step), made.name, made.body)
  {
    SuffixedNames(o.id.name, o.id.name);
    ConfigMapSteps(parses, o, step);
    if step == INIT_STEP || step == WORKER_INIT {
      ScriptStep(parses, o, step);
    } else {
      ConfStep(parses, o, step);
    }
  }

  lemma BudgetBuilt(parses: QuantityParser, o: Owner)
    requires !o.id.kind.BenchmarkKind? && Build(parses, o, BUDGET_STEP).Built?
    ensures var body := Build(parses, o, BUDGET_STEP).result.body;
      body.DisruptionBudget? && MoreThanHalf(body.minAvailable, AskedReplicas(o.spec))
  {
  }

  lemma SetBuilt(parses: QuantityParser, o: Owner, step: nat)
    requires step == if o.id.kind.BenchmarkKind? then WORKER_SET else SET_STEP
    requires Build(parses, o, step).Built?
    ensures SetAsked(o.id, o.spec, Build(parses, o, step).result.body)
  {
    match o.id.kind
    case ClusterKind => ClusterSetAsked(parses, o);
    case GroupKind => GroupSetAsked(parses, o);
    case BenchmarkKind => WorkerSetAsked(parses, o);
  }

  lemma BodyBuilt(parses: QuantityParser, o: Owner, step: nat)
    requires step < |Plan(o.id)| && Build(parses, o, step).Built?
    ensures var made := Build(parses, o, step).result; BodyAsked(o, WorkerPart(step), made.name, made.body)
  {
    StepBuilds(parses, o, step);
    match Build(parses, o, step).result.body
    case StatefulSet(_, _, _, _, _, _) => SetBuilt(parses, o, step);
    case Pod(_) => CoordinatorAsked(parses, o);
    case Service(_, _) => ServiceAsked(parses, o, step);
    case ConfigMap(_, _) => ConfigMapBuilt(parses, o, step);
    case DisruptionBudget(_) => BudgetBuilt(parses, o);
  }

  /** Every builder delivers what the raw spec asks for. */
  lemma BuiltAsAsked(parses: QuantityParser, o: Owner, step: nat)
    requires step < |Plan(o.id)| && Build(parses, o, step).Built?
    ensures ObjectAsked(o, WorkerPart(step), Build(parses, o, step).result)
  {
    LabelsAsked(parses, o, step);
    BodyBuilt(parses, o, step);
  }

  // ----- Configuration files -----

  // A group's printed configuration says what its spec asks for.
  ghost predicate ConfigAsked(name: string, g: GroupSpec, text: string) {
    && AskedProtocol(g).Some?
    && ReadHeader(text).Some?
    && ReadHeader(text).value.name == name && Some(ReadHeader(text).value.protocol) == AskedProtocol(g)
    && ReadHeader(text).value.partitions == AskedPartitions(g)
    && match AskedProtocol(g).value
       case RaftProtocol =>
         ReadConfig(text) == Some(RaftSettings(name, AskedPartitions(g), NumberOr(g.raft.value.partitionSize, 3),
                                               TextOr(g.raft.value.storage.level, "mapped")))
       case PrimaryBackupProtocol =>
         ReadConfig(text) == Some(PrimaryBackupSettings(name, AskedPartitions(g),
                                    TextOr(g.primaryBackup.value.memberGroupStrategy, "node_aware")))
       case LogProtocol =>
         var settings := LogSettings(name, AskedPartitions(g), TextOr(g.log.value.memberGroupStrategy, "node_aware"),
                                     TextOr(g.log.value.storage.level, "mapped"));
         ReadConfig(text) == Some(settings) <==> ReadsBack(settings)
  }

  lemma SettingsAsked(name: string, g: GroupSpec)
    requires AskedProtocol(g).Some?
    ensures var s := EffectiveSettings(name, DefaultGroup(g));
      && s.Some? && s.value.name == name && s.value.partitions == AskedPartitions(g)
      && AskedProtocol(g) == Some(ProtocolOf(s.value))
      && match AskedProtocol(g).value
         case RaftProtocol =>
           s.value == RaftSettings(name, AskedPartitions(g), NumberOr(g.raft.value.partitionSize, 3),
                                   TextOr(g.raft.value.storage.level, "mapped"))
         case PrimaryBackupProtocol =>
           s.value == PrimaryBackupSettings(name, AskedPartitions(g),
                                            TextOr(g.primaryBackup.value.memberGroupStrategy, "node_aware"))
         case LogProtocol =>
           s.value == LogSettings(name, AskedPartitions(g), TextOr(g.log.value.memberGroupStrategy, "node_aware"),
                                  TextOr(g.log.value.storage.level, "mapped"))
  {
  }

  /** The configuration that a group's pass builds: the owner's name, the partitions it asks for or
      its size, and of the protocol that wins the settings it asks for or their defaults. */
  lemma GroupConfigAsked(parses: QuantityParser, o: Owner, g: GroupSpec)
    requires o.id.kind.GroupKind? && o.spec == ForGroup(g) && NoSpace(o.id.name)
    requires Build(parses, o, CONFIG_STEP).Built?
    ensures var body := Build(parses, o, CONFIG_STEP).result.body;
      && body.ConfigMap? && body.file == "atomix.conf" && body.payload.Conf?
      && ConfigAsked(o.id.name, g, body.payload.text)
  {
    ConfigNeedsProtocol(parses, o, g);
    DefaultingFillsOnlyGaps(o.spec);
    ConfigIs(parses, o, g);
    SettingsAsked(o.id.name, g);
    var settings := EffectiveSettings(o.id.name, DefaultGroup(g)).value;
    HeaderRoundTrip(settings);
    ConfigRoundTrip(settings);
  }

  lemma ConfigNeedsProtocol(parses: QuantityParser, o: Owner, g: GroupSpec)
    requires o.id.kind.GroupKind? && o.spec == ForGroup(g) && Build(parses, o, CONFIG_STEP).Built?
    ensures AskedProtocol(g).Some? && AskedProtocol(g) == GroupProtocol(g)
    ensures var body := Build(parses, o, CONFIG_STEP).result.body;
      body.ConfigMap? && body.file == "atomix.conf" && body.payload.Conf?
  {
  }
}
