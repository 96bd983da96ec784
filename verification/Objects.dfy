/** The API objects the operator reads and writes.  One namespace is modelled: every
    request either controller issues stays inside the namespace of the object it reconciles
    (classes are cluster-scoped and only read). */
module Objects {

  datatype Option<+T> = None | Some(value: T)

  // ---------- pipelines ----------

  /** The raw JSON of `spec.pipeline`.  JSON `null` decodes to the empty object. */
  datatype Definition = NotAnObject(text: string) | Object(fields: map<string, string>)

  datatype PipelineSpec = PipelineSpec(clusterRef: string, yamlKey: string, definition: Definition)

  datatype Truth = True | False | Unknown

  /** The type of a condition: one the operator writes, or one written by somebody else. */
  datatype Kind = Ready | Healthy | Progressing | Degraded | OtherKind(name: string)

  /** A condition message: plain words, or one of the texts built around numbers (`"%d/%d replicas
      ready"`, `"rollout updating: %d/%d replicas updated"`, `"%d unavailable replicas, none
      ready"`), kept as the numbers. */
  datatype Message =
    | Words(text: string)
    | ReplicasReady(ready: int, wanted: int)
    | ReplicasUpdated(updated: int, wanted: int)
    | ReplicasUnavailable(unavailable: int)

  datatype Condition = Condition(
    kind: Kind, status: Truth, reason: string, message: Message,
    observedGeneration: nat, lastTransition: nat)

  datatype Phase = NoPhase | Pending | Applied

  datatype PipelineStatus = PipelineStatus(
    phase: Phase, observedGeneration: nat, conditions: seq<Condition>)

  datatype Pipeline = Pipeline(
    spec: PipelineSpec, finalizer: bool, deleting: bool,
    generation: nat, status: PipelineStatus, version: nat)

  // ---------- pods ----------

  datatype Detail = Detail(reason: string, message: string)

  datatype ContainerStatus = ContainerStatus(
    name: string, waiting: Option<Detail>, terminated: Option<Detail>)

  datatype Pod = Pod(name: string, app: string, deleting: bool, containers: seq<ContainerStatus>)

  /** What `inspectClusterHealth` reports. */
  datatype Health = Health(known: bool, healthy: bool, reason: string, message: string)

  // ---------- ConfigMaps ----------

  datatype Entry = Entry(key: string, definition: Definition)

  /** A ConfigMap value: literal text with the top-level keys it has as YAML, or the YAML of a
      list of definitions. */
  datatype Content = Text(text: string, keys: set<string>) | Rendered(entries: seq<Entry>)

  /** The keys of a ConfigMap: `pipelines.yaml`, `data-prepper-config.yaml`, or another. */
  datatype DataKey = PipelinesYaml | ServerYaml | OtherKey(key: string)

  datatype ConfigMap = ConfigMap(data: map<DataKey, Content>, version: nat)

  /** The content hash: sixteen hexadecimal characters, otherwise arbitrary. */
  type Digest = h: Content -> string | forall c :: |h(c)| == 16
    witness (c: Content) => "0123456789abcdef"

  /** The keys of a pod annotation: the two the operator owns
      (`dataprepper.gabia.com/pipelines-hash` and `.../peer-config-hash`), or another. */
  datatype AnnotationKey = PipelinesHash | PeerHash | OtherAnnotation(key: string)

  const PLACEHOLDER_KEY := "placeholder-pipeline"

  /** Used while a cluster has no pipeline, because DataPrepper needs one to start. */
  const PLACEHOLDER: Content :=
    Text("placeholder-pipeline:\n  source:\n    http:\n      port: 2021\n  sink:\n    - stdout:\n", {PLACEHOLDER_KEY})

  // ---------- clusters and classes ----------

  datatype Resources = Resources(
    requests: map<string, string>, limits: map<string, string>, claims: seq<string>)

  datatype Port = Port(name: string, number: int, protocol: string)

  datatype VolumeSource = FromConfigMap(name: string) | OtherSource(description: string)

  datatype Volume = Volume(name: string, source: VolumeSource)

  datatype Mount = Mount(volume: string, path: string, subPath: string)

  datatype Autoscaling = Autoscaling(
    minReplicas: Option<int>, maxReplicas: int, cpuTarget: Option<int>)

  datatype ClusterSpec = ClusterSpec(
    classRef: string, image: string, replicas: int, resources: Resources,
    serverConfigMap: string, assetsConfigMap: string,
    extraVolumes: seq<Volume>, extraMounts: seq<Mount>, extraPorts: seq<Port>,
    envFrom: seq<string>, autoscaling: Option<Autoscaling>)

  datatype ClusterPhase = NoClusterPhase | ClusterPending | ClusterReady | ClusterDegraded

  datatype ClusterStatus = ClusterStatus(
    phase: ClusterPhase, readyReplicas: int, pipelines: int,
    observedGeneration: nat, conditions: seq<Condition>)

  datatype Cluster = Cluster(spec: ClusterSpec, generation: nat, status: ClusterStatus)

  datatype Class = Class(
    image: string, resources: Resources, envFrom: seq<string>,
    nodeSelector: map<string, string>, tolerations: seq<string>,
    podLabels: map<string, string>, podAnnotations: map<AnnotationKey, string>)

  // ---------- objects owned by a cluster ----------

  datatype Probe = Probe(initialDelay: int, period: int, failureThreshold: int)

  datatype PodSpec = PodSpec(
    nodeSelector: map<string, string>, tolerations: seq<string>,
    image: string, resources: Resources, ports: seq<Port>, mounts: seq<Mount>,
    envFrom: seq<string>, startup: Probe, liveness: Probe, readiness: Probe,
    volumes: seq<Volume>)

  datatype Deployment = Deployment(
    replicas: int, labels: map<string, string>, annotations: map<AnnotationKey, string>,
    pod: PodSpec, version: nat)

  datatype Target = ByName(name: string) | ByNumber(number: int)

  datatype ServicePort = ServicePort(name: string, port: int, target: Target, protocol: string)

  datatype Service = Service(
    clusterIP: string, publishNotReady: bool,
    selector: map<string, string>, ports: seq<ServicePort>)

  datatype Autoscaler = Autoscaler(
    target: string, minReplicas: Option<int>, maxReplicas: int, cpuTarget: int)

  // ---------- the API server ----------

  /** The objects the two controllers do not share. */
  datatype Others = Others(
    classes: map<string, Class>,
    services: map<string, Service>,
    autoscalers: map<string, Autoscaler>,
    pods: seq<Pod>)

  /** `queue` holds the names of pipelines waiting to be reconciled; `clock` is the last
      resource version handed out. */
  datatype Store = Store(
    pipelines: map<string, Pipeline>,
    clusters: map<string, Cluster>,
    configMaps: map<string, ConfigMap>,
    deployments: map<string, Deployment>,
    others: Others,
    queue: set<string>,
    clock: nat)

  /** A Go map read: the zero value when the key is absent. */
  function Lookup<K>(m: map<K, string>, key: K): string {
    if key in m then m[key] else ""
  }

  function Annotation(d: Deployment): string {
    Lookup(d.annotations, PipelinesHash)
  }

  /** The `pipelines.yaml` value of a ConfigMap holds exactly `content`. */
  predicate Holds(cm: ConfigMap, content: Content) {
    PipelinesYaml in cm.data && cm.data[PipelinesYaml] == content
  }
}
