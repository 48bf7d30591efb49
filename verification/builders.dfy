/**
 The builders: what each step of a cluster's, a group's or a benchmark's pass creates when its
 key is missing, and the facts that tie objects built by different functions together.
 */
module Builders {
  import opened Text
  import opened Specs
  import opened Naming
  import opened Objects
  import opened Config

  // resource.ParseQuantity succeeds on this text.
  type QuantityParser = string -> bool

  // ----- Labels -----

  function ManagementLabels(id: OwnerId): Labels {
    map[APP_KEY := ATOMIX_APP, CLUSTER_KEY := id.name, TYPE_KEY := MANAGEMENT_TYPE]
  }

  function ManagementServiceSelector(id: OwnerId): Labels {
    map[APP_KEY := ATOMIX_APP, CLUSTER_KEY := id.name]
  }

  function GroupLabels(id: OwnerId, s: GroupSpec): Labels {
    map[APP_KEY := ATOMIX_APP, CLUSTER_KEY := s.cluster, TYPE_KEY := GROUP_TYPE, GROUP_KEY := id.name]
  }

  function CoordinatorLabels(s: BenchmarkSpec): Labels {
    map[APP_KEY := ATOMIX_APP, CLUSTER_KEY := s.cluster, TYPE_KEY := COORDINATOR_TYPE]
  }

  function WorkerLabels(s: BenchmarkSpec): Labels {
    map[APP_KEY := ATOMIX_APP, CLUSTER_KEY := s.cluster, TYPE_KEY := WORKER_TYPE]
  }

  // ----- Parts shared by all builders -----

  function ServiceDnsName(namespace: string, cluster: string): string {
    cluster + "." + namespace + ".svc.cluster.local"
  }

  function Volumes(id: OwnerId): seq<Volume> {
    [FromConfigMap(INIT_SCRIPTS_VOLUME, InitName(id)),
     FromConfigMap(USER_CONFIG_VOLUME, ConfigName(id)),
     EmptyDir(SYSTEM_CONFIG_VOLUME)]
  }

  function InitMounts(): seq<string> {
    [INIT_SCRIPTS_VOLUME, SYSTEM_CONFIG_VOLUME]
  }

  function PersistentMounts(): seq<string> {
    [DATA_VOLUME, USER_CONFIG_VOLUME, SYSTEM_CONFIG_VOLUME]
  }

  function EphemeralMounts(): seq<string> {
    [USER_CONFIG_VOLUME, SYSTEM_CONFIG_VOLUME]
  }

  function AtomixImage(version: string): string {
    "atomix/atomix:" + version
  }

  const BENCHMARK_IMAGE := "atomix/atomix-bench:latest"

  function Claims(parses: QuantityParser, s: Storage): Option<seq<Claim>> {
    if parses(s.size) then Some([Claim(DATA_VOLUME, s.className, s.size)]) else None
  }

  // Go's integer division truncates towards zero.
  function Halved(n: Int32): int {
    if n < 0 then -(-(n as int) / 2) else n / 2
  }

  function MinAvailable(size: Int32): int {
    Halved(size) + 1
  }

  // ----- Objects of a cluster -----

  const SCRIPT_FILE := "create_config.sh"
  const CONF_FILE := "atomix.conf"

  const MANAGEMENT_CONFIG :=
    DISCOVERY + "\nmanagementGroup {\n    type: raft\n    partitions: 1\n"
    + "    members: ${atomix.members}\n    storage.level: disk\n}\n"

  function ClusterSet(parses: QuantityParser, id: OwnerId, s: ClusterSpec): Option<Body> {
    match Claims(parses, s.storage)
    case None => None
    case Some(claims) =>
      var pod := PodSpec(Print(s.size), AtomixImage(s.version), s.env, s.resources,
                         InitMounts(), PersistentMounts(), Volumes(id));
      Some(StatefulSet(ServiceName(id), s.size, ManagementLabels(id), ManagementLabels(id), pod, claims))
  }

  function BuildCluster(parses: QuantityParser, o: Owner, s: ClusterSpec, step: nat): Outcome {
    var id, labels := o.id, ManagementLabels(o.id);
    if step == INIT_STEP then
      Make(o, InitName(id), labels, ConfigMap(SCRIPT_FILE, MemberScript(ServiceDnsName(id.namespace, id.name))))
    else if step == CONFIG_STEP then
      Make(o, ConfigName(id), labels, ConfigMap(CONF_FILE, Conf(MANAGEMENT_CONFIG)))
    else if step == BUDGET_STEP then
      Make(o, BudgetName(id), map[], DisruptionBudget(MinAvailable(s.size)))
    else if step == SET_STEP then
      MakeIf(o, id.name, labels, ClusterSet(parses, id, s))
    else
      Make(o, ServiceName(id), labels, Service(map[id.name + "-node" := 5679], ManagementServiceSelector(id)))
  }

  // ----- Objects of a partition group -----

  function GroupConfig(id: OwnerId, s: GroupSpec): Option<Body> {
    match EffectiveSettings(id.name, s)
    case None => None
    case Some(settings) => Some(ConfigMap(CONF_FILE, Conf(ConfigText(settings))))
  }

  function GroupPod(id: OwnerId, s: GroupSpec, mounts: seq<string>): PodSpec {
    PodSpec(Print(s.size), AtomixImage(s.version), s.env, s.resources, InitMounts(), mounts, Volumes(id))
  }

  function PersistentSet(parses: QuantityParser, id: OwnerId, s: GroupSpec, storage: Storage): Option<Body> {
    match Claims(parses, storage)
    case None => None
    case Some(claims) =>
      Some(StatefulSet(ServiceName(id), s.size, GroupLabels(id, s), GroupLabels(id, s),
                       GroupPod(id, s, PersistentMounts()), claims))
  }

  function EphemeralSet(id: OwnerId, s: GroupSpec): Body {
    StatefulSet(ServiceName(id), s.size, GroupLabels(id, s), GroupLabels(id, s),
                GroupPod(id, s, EphemeralMounts()), [])
  }

  function GroupSet(parses: QuantityParser, id: OwnerId, s: GroupSpec): Option<Body> {
    match GroupProtocol(s)
    case Some(RaftProtocol) => PersistentSet(parses, id, s, s.raft.value.storage)
    case Some(PrimaryBackupProtocol) => Some(EphemeralSet(id, s))
    case Some(LogProtocol) => PersistentSet(parses, id, s, s.log.value.storage)
    case None => None
  }

  function BuildGroup(parses: QuantityParser, o: Owner, s: GroupSpec, step: nat): Outcome {
    var id, labels := o.id, GroupLabels(o.id, s);
    if step == INIT_STEP then
      Make(o, InitName(id), labels, ConfigMap(SCRIPT_FILE, MemberScript(ServiceDnsName(id.namespace, s.cluster))))
    else if step == CONFIG_STEP then
      MakeIf(o, ConfigName(id), labels, GroupConfig(id, s))
    else if step == BUDGET_STEP then
      Make(o, BudgetName(id), map[], DisruptionBudget(MinAvailable(s.size)))
    else if step == SET_STEP then
      MakeIf(o, id.name, labels, GroupSet(parses, id, s))
    else
      Make(o, ServiceName(id), labels, Service(map["node" := 5679], labels))
  }

  // ----- Objects of a benchmark -----

  function BenchmarkPod(id: OwnerId, s: BenchmarkSpec, size: Int32): PodSpec {
    PodSpec(Print(size), BENCHMARK_IMAGE, s.env, s.resources, InitMounts(), EphemeralMounts(), Volumes(id))
  }

  function BuildBenchmark(o: Owner, s: BenchmarkSpec, step: nat): Outcome {
    var id, controller, worker := o.id, CoordinatorLabels(s), WorkerLabels(s);
    if step == CONTROLLER_INIT then
      Make(o, InitName(id), controller,
           ConfigMap(SCRIPT_FILE, CoordinatorScript(ServiceDnsName(id.namespace, s.cluster), ServiceName(id))))
    else if step == CONTROLLER_CONFIG then
      Make(o, ConfigName(id), controller, ConfigMap(CONF_FILE, Conf(DISCOVERY)))
    else if step == CONTROLLER_POD then
      Make(o, id.name, controller, Pod(BenchmarkPod(id, s, 1)))
    else if step == CONTROLLER_SERVICE then
      Make(o, ServiceName(id), controller,
           Service(map[id.name + "-api" := 5678, id.name + "-node" := 5679], controller))
    else if step == WORKER_INIT then
      Make(o, InitName(id), worker, ConfigMap(SCRIPT_FILE, MemberScript(ServiceDnsName(id.namespace, id.name))))
    else if step == WORKER_CONFIG then
      Make(o, ConfigName(id), worker, ConfigMap(CONF_FILE, Conf(DISCOVERY)))
    else if step == WORKER_SET then
      Make(o, id.name, worker,
           StatefulSet(ServiceName(id), s.workers, worker, worker, BenchmarkPod(id, s, s.workers), []))
    else
      Make(o, ServiceName(id), worker, Service(map[id.name + "-node" := 5679], worker))
  }

  // ----- All owners -----

  // A builder's object with the controller reference set.
  function Make(o: Owner, name: string, labels: Labels, body: Body): Outcome {
    Built(Object(o.id.namespace, name, labels, Some(RefTo(o)), body))
  }

  function MakeIf(o: Owner, name: string, labels: Labels, body: Option<Body>): Outcome {
    if body.None? then Failed else Make(o, name, labels, body.value)
  }

  // What the builders make of an owner whose spec is defaulted already.
  function Render(parses: QuantityParser, o: Owner, step: nat): Outcome {
    match (o.id.kind, o.spec)
    case (ClusterKind, ForCluster(s)) => BuildCluster(parses, o, s, step)
    case (GroupKind, ForGroup(s)) => BuildGroup(parses, o, s, step)
    case (BenchmarkKind, ForBenchmark(s)) => BuildBenchmark(o, s, step)
    case _ => Failed
  }

  // A pass works on a defaulted copy of the owner it read.
  function Defaulted(o: Owner): Owner {
    o.(spec := Default(o.spec))
  }

  // What the pass of `o` creates at a step.
  function Build(parses: QuantityParser, o: Owner, step: nat): Outcome {
    Render(parses, Defaulted(o), step)
  }

  /** Stable rendering: passes over the same raw spec of the same incarnation build identical
      objects, whichever version of the owner they read it from, and they would go on doing so
      if the defaults were written back. */
  lemma StableRendering(parses: QuantityParser, a: Owner, b: Owner, step: nat)
    requires a.id == b.id && a.uid == b.uid
    requires b.spec == a.spec || b.spec == Default(a.spec)
    ensures Build(parses, a, step) == Build(parses, b, step)
  {
    DefaultingFillsOnlyGaps(a.spec);
    SameSpecSameObject(parses, Defaulted(a), Defaulted(b), step);
  }

  lemma SameSpecSameObject(parses: QuantityParser, a: Owner, b: Owner, step: nat)
    requires a.id == b.id && a.uid == b.uid && a.spec == b.spec
    ensures Render(parses, a, step) == Render(parses, b, step)
  {
  }

  /** Every builder names its object by the very key the reconciler looked up, and gives it the
      UID of the owner copy it was built from. */
  lemma BuiltAtItsKey(parses: QuantityParser, o: Owner, step: nat)
    requires step < |Plan(o.id)| && Build(parses, o, step).Built?
    ensures KeyOf(Build(parses, o, step).result) == Plan(o.id)[step]
    ensures Build(parses, o, step).result.owner == Some(RefTo(o))
  {
    match o.id.kind
    case ClusterKind => ClusterAtItsKey(parses, o, step);
    case GroupKind => GroupAtItsKey(parses, o, step);
    case BenchmarkKind => BenchmarkAtItsKey(parses, o, step);
  }

  lemma ClusterAtItsKey(parses: QuantityParser, o: Owner, step: nat)
    requires o.id.kind.ClusterKind? && step < |Plan(o.id)| && Build(parses, o, step).Built?
    ensures KeyOf(Build(parses, o, step).result) == Plan(o.id)[step]
    ensures Build(parses, o, step).result.owner == Some(RefTo(o))
  {
  }

  lemma GroupAtItsKey(parses: QuantityParser, o: Owner, step: nat)
    requires o.id.kind.GroupKind? && step < |Plan(o.id)| && Build(parses, o, step).Built?
    ensures KeyOf(Build(parses, o, step).result) == Plan(o.id)[step]
    ensures Build(parses, o, step).result.owner == Some(RefTo(o))
  {
  }

  lemma BenchmarkAtItsKey(parses: QuantityParser, o: Owner, step: nat)
    requires o.id.kind.BenchmarkKind? && step < |Plan(o.id)| && Build(parses, o, step).Built?
    ensures KeyOf(Build(parses, o, step).result) == Plan(o.id)[step]
    ensures Build(parses, o, step).result.owner == Some(RefTo(o))
  {
  }

  // The claim size a persistent owner asks for; None where no volume is claimed.
  function ClaimedSize(s: Spec): Option<string> {
    match s
    case ForCluster(c) => Some(c.storage.size)
    case ForGroup(g) => (match GroupStorage(g) case Some(st) => Some(st.size) case None => None)
    case ForBenchmark(_) => None
  }

  /** The only builder failures: a group without a protocol fails from its config step on
      (never at its init, budget or Service step), and a cluster or a persistent group whose
      defaulted claim size does not parse fails at its StatefulSet step. */
  lemma BuildFailures(parses: QuantityParser, o: Owner, step: nat)
    requires Fits(o.id.kind, o.spec) && step < |Plan(o.id)|
    ensures Build(parses, o, step).Failed? <==>
      var s := Default(o.spec);
      || (s.ForGroup? && GroupProtocol(s.group).None? && (step == CONFIG_STEP || step == SET_STEP))
      || (step == SET_STEP && ClaimedSize(s).Some? && !parses(ClaimedSize(s).value))
  {
  }

  // ----- Agreement between objects built by different functions -----

  function ConfMapText(o: Outcome): Option<string> {
    if o.Built? && o.result.body.ConfigMap? && o.result.body.payload.Conf? then Some(o.result.body.payload.text)
    else None
  }

  /** For every combination of set and unset protocols, the three dispatches agree. The config
      step builds something exactly when some protocol is set, and then the printed text names
      the protocol that defaulting completed and that the StatefulSet is built for; it says
      primary-backup exactly when the StatefulSet claims no volume, and that exactly when its
      container mounts no data. All this whatever the free-text fields contain; what they must
      not contain matters only for reading all settings back. */
  lemma ProtocolAgreement(parses: QuantityParser, o: Owner, g: GroupSpec)
    requires o.id.kind.GroupKind? && o.spec == ForGroup(g) && NoSpace(o.id.name)
    ensures Build(parses, o, CONFIG_STEP).Built? <==> GroupProtocol(g).Some?
    ensures Build(parses, o, SET_STEP).Built? ==> Build(parses, o, CONFIG_STEP).Built?
    ensures GroupProtocol(g).Some? ==>
      var text := ConfMapText(Build(parses, o, CONFIG_STEP));
      var settings := EffectiveSettings(o.id.name, DefaultGroup(g));
      && text.Some? && settings.Some? && ReadProtocol(text.value) == GroupProtocol(g)
      && (ReadConfig(text.value) == settings <==> ReadsBack(settings.value))
    ensures Build(parses, o, SET_STEP).Built? ==>
      var body := Build(parses, o, SET_STEP).result.body;
      && body.StatefulSet?
      && (GroupProtocol(g) == Some(PrimaryBackupProtocol) <==> body.claims == [])
      && (body.claims == [] <==> DATA_VOLUME !in body.pod.mounts)
  {
    DefaultingFillsOnlyGaps(o.spec);
    if GroupProtocol(g).Some? {
      ConfigSays(parses, o, g);
    }
    SetShape(parses, o, g);
  }

  lemma ConfigIs(parses: QuantityParser, o: Owner, g: GroupSpec)
    requires o.id.kind.GroupKind? && o.spec == ForGroup(g) && GroupProtocol(g).Some?
    requires GroupProtocol(DefaultGroup(g)) == GroupProtocol(g)
    ensures var settings := EffectiveSettings(o.id.name, DefaultGroup(g));
      && settings.Some? && settings.value.name == o.id.name && GroupProtocol(g) == Some(ProtocolOf(settings.value))
      && ConfMapText(Build(parses, o, CONFIG_STEP)) == Some(ConfigText(settings.value))
  {
  }

  lemma ConfigSays(parses: QuantityParser, o: Owner, g: GroupSpec)
    requires o.id.kind.GroupKind? && o.spec == ForGroup(g) && NoSpace(o.id.name) && GroupProtocol(g).Some?
    requires GroupProtocol(DefaultGroup(g)) == GroupProtocol(g)
    ensures var text := ConfMapText(Build(parses, o, CONFIG_STEP));
      var settings := EffectiveSettings(o.id.name, DefaultGroup(g));
      && text.Some? && settings.Some? && ReadProtocol(text.value) == GroupProtocol(g)
      && (ReadConfig(text.value) == settings <==> ReadsBack(settings.value))
  {
    ConfigIs(parses, o, g);
    TextSays(EffectiveSettings(o.id.name, DefaultGroup(g)).value);
  }

  lemma TextSays(s: Settings)
    requires NoSpace(s.name)
    ensures ReadProtocol(ConfigText(s)) == Some(ProtocolOf(s))
    ensures ReadConfig(ConfigText(s)) == Some(s) <==> ReadsBack(s)
  {
    HeaderRoundTrip(s);
    ConfigRoundTrip(s);
  }

  lemma SetShape(parses: QuantityParser, o: Owner, g: GroupSpec)
    requires o.id.kind.GroupKind? && o.spec == ForGroup(g)
    requires GroupProtocol(DefaultGroup(g)) == GroupProtocol(g)
    ensures Build(parses, o, SET_STEP).Built? ==>
      var body := Build(parses, o, SET_STEP).result.body;
      && GroupProtocol(g).Some? && body.StatefulSet?
      && (body.claims == [] <==> GroupProtocol(g) == Some(PrimaryBackupProtocol))
      && (body.claims == [] <==> DATA_VOLUME !in body.pod.mounts)
  {
    assert DATA_VOLUME == PersistentMounts()[0];
    assert DATA_VOLUME[0] != USER_CONFIG_VOLUME[0] && DATA_VOLUME[0] != SYSTEM_CONFIG_VOLUME[0];
  }
}
