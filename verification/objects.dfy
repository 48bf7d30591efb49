/**
 The Kubernetes objects the operator creates, as far as its own builders decide them, and
 label selection.
 */
module Objects {
  import opened Text
  import opened Specs
  import opened Naming

  type Labels = map<string, string>

  // What a label selector selects: every required label is there with the required value.
  predicate Selects(selector: Labels, labels: Labels) {
    forall k :: k in selector ==> k in labels && labels[k] == selector[k]
  }

  const APP_KEY := "app"
  const CLUSTER_KEY := "cluster"
  const TYPE_KEY := "type"
  const GROUP_KEY := "group"
  const ATOMIX_APP := "atomix"
  const MANAGEMENT_TYPE := "management"
  const GROUP_TYPE := "group"
  const WORKER_TYPE := "benchmark-worker"
  const COORDINATOR_TYPE := "benchmark-coordinator"

  const INIT_SCRIPTS_VOLUME := "init-scripts"
  const USER_CONFIG_VOLUME := "user-config"
  const SYSTEM_CONFIG_VOLUME := "system-config"
  const DATA_VOLUME := "data"

  // What a ConfigMap holds: one of the two shell scripts with what was printed into it, or a
  // configuration file.
  datatype Payload =
    | MemberScript(service: string)
    | CoordinatorScript(service: string, host: string)
    | Conf(text: string)

  datatype Volume = FromConfigMap(name: string, configMap: string) | EmptyDir(name: string)

  datatype PodSpec = PodSpec(
    nodesArgument: string, // ATOMIX_NODES of the init container
    image: string,
    env: Option<seq<EnvVar>>,
    resources: Resources,
    initMounts: seq<string>, // the volumes the init container mounts
    mounts: seq<string>, // the volumes the Atomix container mounts
    volumes: seq<Volume>)

  datatype Claim = Claim(name: string, className: Option<string>, size: string)

  datatype Body =
    | ConfigMap(file: string, payload: Payload)
    | DisruptionBudget(minAvailable: int)
    | StatefulSet(serviceName: string, replicas: int, selector: Labels, template: Labels,
                  pod: PodSpec, claims: seq<Claim>)
    | Service(ports: map<string, nat>, selects: Labels)
    | Pod(podSpec: PodSpec)

  // The controller reference that SetControllerReference adds.
  datatype OwnerRef = OwnerRef(kind: OwnerKind, name: string, uid: nat)

  datatype Object = Object(namespace: string, name: string, labels: Labels, owner: Option<OwnerRef>, body: Body)

  function KindOf(body: Body): ObjectKind {
    match body
    case ConfigMap(_, _) => ConfigMapKind
    case DisruptionBudget(_) => DisruptionBudgetKind
    case StatefulSet(_, _, _, _, _, _) => StatefulSetKind
    case Service(_, _) => ServiceKind
    case Pod(_) => PodKind
  }

  function KeyOf(o: Object): Key {
    Key(KindOf(o.body), o.namespace, o.name)
  }

  // An owner as the API server holds it: `uid` is its incarnation, `version` counts the specs
  // its name has had.
  datatype Owner = Owner(id: OwnerId, uid: nat, version: nat, spec: Spec)

  function RefTo(o: Owner): OwnerRef {
    OwnerRef(o.id.kind, o.id.name, o.uid)
  }

  predicate Fits(kind: OwnerKind, spec: Spec) {
    match kind
    case ClusterKind => spec.ForCluster?
    case GroupKind => spec.ForGroup?
    case BenchmarkKind => spec.ForBenchmark?
  }

  // A builder's result; Failed is an error before anything is created.
  datatype Outcome = Built(result: Object) | Failed
}
