/** The operator as a state machine over the API server's store.  The pipeline controller has one
    worker; it moves one API call at a time, so users, the cluster controller and the autoscaler
    can act between any two of its calls.  Any call may fail, before or after taking effect, a
    Deployment may be read as it was long ago, and the operator itself may be restarted at any point. */
module Protocol {
  import opened Objects
  import opened Names
  import opened Watch
  import opened Merge
  import opened Admission
  import opened PodHealth
  import opened Conditions
  import opened ApiStore
  import opened Rebuild
  import opened Overlaying

  /** The API call the pipeline worker will issue next, with what it carries. */
  datatype Stage =
    | Attach
    | Resolve
    | Collect
    | ReadConfig(content: Content)
    | WriteConfig(content: Content, base: ConfigMap)
    | ReadDeploy(content: Content)
    | WriteDeploy(content: Content, target: Deployment)
    | Detach
    | Report(phase: Phase, health: Health)

  /** The pipeline worker.  `seen` is the pipeline as read at the start of the reconcile. */
  datatype Worker = Idle | Busy(name: string, seen: Pipeline, stage: Stage)

  datatype State = State(store: Store, worker: Worker)

  /** How a call ends: answered, failed without effect, or failed after taking effect. */
  datatype Reply = Answered | Dropped | Lost

  /** What the cache shows of a Deployment: how it is, or how it once was (`None`: not there). */
  datatype DeployRead = Current | Stale(found: Option<Deployment>)

  /** What the world tells the worker during one call: the time, the health of the pods, and the
      Deployment if that is what it reads. */
  datatype Answer = Answer(now: nat, health: Health, read: DeployRead)

  datatype Action =
    | CreatePipeline(name: string, spec: PipelineSpec)
    | EditPipeline(name: string, spec: PipelineSpec)
    | DeletePipeline(name: string)
    | CreateCluster(cluster: string, manifest: Cluster)
    | EditCluster(cluster: string, manifest: Cluster)
    | WriteClusterStatus(cluster: string, status: ClusterStatus)
    | DeleteCluster(cluster: string)
    | EditConfigMap(configMap: string, data: map<DataKey, Content>)
    | RemoveConfigMap(configMap: string)
    | ProvideConfigMap(cluster: string)
    | ProvideDeployment(cluster: string, desired: Deployment, autoscaled: bool)
    | Scale(cluster: string, replicas: int)
    | LoseDeployment(cluster: string)
    | ChangeOthers(others: Others)
    | Begin(name: string)
    | Work(reply: Reply, answer: Answer)
    | Restart

  // ---------- the worker ----------

  function ExcludeOf(w: Worker): Option<string>
    requires w.Busy?
  {
    if w.seen.deleting then Some(w.name) else None
  }

  /** The worker goes on to its next call. */
  function Next(s: State, stage: Stage): State
    requires s.worker.Busy?
  {
    s.(worker := s.worker.(stage := stage))
  }

  /** The reconcile returns an error: the work queue takes the name back. */
  function Abort(s: State): State
    requires s.worker.Busy?
  {
    State(Enqueue(s.store, {s.worker.name}), Idle)
  }

  /** NotFound: an error, except while a pipeline is being deleted. */
  function OnMissing(s: State): State
    requires s.worker.Busy?
  {
    if s.worker.seen.deleting then Next(s, Detach) else Abort(s)
  }

  /** The rebuild succeeded; `health` is what the pod scan then answers. */
  function OnRebuilt(s: State, health: Health): State
    requires s.worker.Busy?
  {
    if s.worker.seen.deleting then Next(s, Detach) else Next(s, Report(Applied, health))
  }

  /** An Update is accepted when the object still has the version that was read. */
  predicate Fresh(st: Store, name: string, seen: Pipeline) {
    name in st.pipelines && st.pipelines[name].version == seen.version
  }

  /** A value Deployment `c` may have had: versions are handed out once. */
  predicate Plausible(st: Store, c: string, d: Deployment) {
    d.version <= st.clock && (c in st.deployments && st.deployments[c].version == d.version ==> st.deployments[c] == d)
  }

  /** The Deployment of `c` as the worker sees it. */
  function DeployFound(st: Store, c: string, read: DeployRead): Option<Deployment> {
    if read == Stale(None) then None
    else if read.Stale? && Plausible(st, c, read.found.value) then read.found
    else if c in st.deployments then Some(st.deployments[c])
    else None
  }

  /** The worker's next call reaches the API server and is answered. */
  ghost function Succeed(s: State, h: Digest, r: Answer): State
    requires s.worker.Busy?
  {
    var st, name, seen := s.store, s.worker.name, s.worker.seen;
    var c := seen.spec.clusterRef;
    var cm := ConfigMapName(c);
    match s.worker.stage
    case Attach =>
      if Fresh(st, name, seen) && Admissible(st.pipelines, name, seen.spec)
      then State(PutPipeline(st, name, seen.(finalizer := true)), Idle)
      else Abort(s)
    case Resolve =>
      if c !in st.clusters then Next(s, Report(Pending, UNKNOWN)) else Next(s, Collect)
    case Collect =>
      var content := ContentOf(Active(st.pipelines, c, ExcludeOf(s.worker)));
      if content.None? then Abort(s) else Next(s, ReadConfig(content.value))
    case ReadConfig(content) =>
      if cm !in st.configMaps then OnMissing(s)
      else if Holds(st.configMaps[cm], content) then Next(s, ReadDeploy(content))
      else Next(s, WriteConfig(content, st.configMaps[cm]))
    case WriteConfig(content, base) =>
      if cm !in st.configMaps then OnMissing(s)
      else if st.configMaps[cm].version != base.version then Abort(s)
      else Next(s.(store := PutConfigMap(st, cm, base.data[PipelinesYaml := content])), ReadDeploy(content))
    case ReadDeploy(content) =>
      var found := DeployFound(st, c, r.read);
      if found.None? then OnMissing(s)
      else if Annotation(found.value) == h(content) then OnRebuilt(s, r.health)
      else Next(s, WriteDeploy(content, found.value))
    case WriteDeploy(content, target) =>
      if c !in st.deployments then OnMissing(s)
      else if st.deployments[c].version != target.version then Abort(s)
      else OnRebuilt(s.(store := PutDeployment(st, c, WithHash(target, h(content)))), r.health)
    case Detach =>
      if Fresh(st, name, seen) && Admissible(st.pipelines, name, seen.spec)
      then State(DropPipeline(st, name), Idle)
      else Abort(s)
    case Report(phase, found) =>
      var next := NextStatus(seen, phase, found, r.now);
      if next == seen.status then s.(worker := Idle)
      else if Fresh(st, name, seen) then State(PutPipeline(st, name, seen.(status := next)), Idle)
      else Abort(s)
  }

  /** The worker takes a name from the queue and reads the pipeline. */
  function Start(s: State, name: string): State {
    var st := s.store.(queue := s.store.queue - {name});
    if name !in st.pipelines then State(st, Idle)
    else
      var p := st.pipelines[name];
      if p.deleting then State(st, if p.finalizer then Busy(name, p, Collect) else Idle)
      else if !p.finalizer then State(st, Busy(name, p, Attach))
      else State(st, Busy(name, p, Resolve))
  }

  /** A new operator process: nothing in flight, and the first listing enqueues every pipeline. */
  function Restarted(st: Store): State { State(st.(queue := st.pipelines.Keys), Idle) }

  // ---------- one step of the whole system ----------

  const FRESH_STATUS := PipelineStatus(NoPhase, 0, [])

  ghost function Step(s: State, h: Digest, a: Action): State {
    var st := s.store;
    match a
    case CreatePipeline(n, spec) =>
      if n !in st.pipelines && Admissible(st.pipelines, n, spec)
      then s.(store := PutPipeline(st, n, Pipeline(spec, false, false, 1, FRESH_STATUS, 0))) else s
    case EditPipeline(n, spec) =>
      if n in st.pipelines && st.pipelines[n].spec != spec && Admissible(st.pipelines, n, spec)
      then s.(store := PutPipeline(st, n, st.pipelines[n].(spec := spec, generation := st.pipelines[n].generation + 1))) else s
    case DeletePipeline(n) =>
      if n !in st.pipelines || st.pipelines[n].deleting then s
      else if st.pipelines[n].finalizer
      then s.(store := PutPipeline(st, n, st.pipelines[n].(deleting := true, generation := st.pipelines[n].generation + 1)))
      else s.(store := DropPipeline(st, n))
    case CreateCluster(c, manifest) =>
      if c !in st.clusters && ValidateCluster(manifest.spec, st.others.classes) == AdmitCluster
      then s.(store := Enqueue(st.(clusters := st.clusters[c := manifest]), Members(st.pipelines, c))) else s
    case EditCluster(c, manifest) =>
      if c in st.clusters && ValidateCluster(manifest.spec, st.others.classes) == AdmitCluster
      then s.(store := Enqueue(st.(clusters := st.clusters[c := manifest]), Members(st.pipelines, c))) else s
    case WriteClusterStatus(c, status) =>
      if c in st.clusters
      then s.(store := Enqueue(st.(clusters := st.clusters[c := st.clusters[c].(status := status)]), Members(st.pipelines, c))) else s
    case DeleteCluster(c) =>
      s.(store := Enqueue(
        st.(clusters := st.clusters - {c},
            configMaps := st.configMaps - {ConfigMapName(c), PeerConfigMapName(c)},
            deployments := st.deployments - {c},
            others := st.others.(services := st.others.services - {c, HeadlessName(c)},
                                 autoscalers := st.others.autoscalers - {c})), Members(st.pipelines, c)))
    case EditConfigMap(name, data) =>
      s.(store := PutConfigMap(st, name, data))
    case RemoveConfigMap(name) =>
      s.(store := ApiStore.DropConfigMap(st, name))
    case ProvideConfigMap(c) =>
      if c in st.clusters && ConfigMapName(c) !in st.configMaps
      then s.(store := PutConfigMap(st, ConfigMapName(c), map[PipelinesYaml := PLACEHOLDER])) else s
    case ProvideDeployment(c, desired, autoscaled) =>
      if c !in st.clusters then s
      else if c !in st.deployments then s.(store := PutDeployment(st, c, desired))
      else s.(store := ReviseDeployment(st, c, Overlay(st.deployments[c], desired, autoscaled)))
    case Scale(c, replicas) =>
      if c in st.deployments then s.(store := ReviseDeployment(st, c, st.deployments[c].(replicas := replicas))) else s
    case LoseDeployment(c) =>
      s.(store := st.(deployments := st.deployments - {c}))
    case ChangeOthers(others) =>
      s.(store := st.(others := others))
    case Begin(name) =>
      if s.worker.Idle? && name in st.queue then Start(s, name) else s
    case Restart =>
      Restarted(st)
    case Work(reply, r) =>
      if s.worker.Idle? then s
      else match reply
        case Answered => Succeed(s, h, r)
        case Dropped => Abort(s)
        case Lost => State(Enqueue(Succeed(s, h, r).store, {s.worker.name}), Idle)
  }

  ghost function Run(s: State, h: Digest, actions: seq<Action>): State
    decreases actions
  {
    if actions == [] then s else Run(Step(s, h, actions[0]), h, actions[1..])
  }

  /** Versions never exceed the clock, and an object marked for deletion has its finalizer. */
  ghost predicate VersionsOk(st: Store) {
    && (forall n :: n in st.pipelines ==> st.pipelines[n].version <= st.clock)
    && (forall n :: n in st.pipelines && st.pipelines[n].deleting ==> st.pipelines[n].finalizer)
    && (forall n :: n in st.configMaps ==> st.configMaps[n].version <= st.clock)
    && (forall n :: n in st.deployments ==> st.deployments[n].version <= st.clock)
  }

  /** Where runs start: the operator comes up on any store, whatever state its clusters and their
      objects are in, and has every existing pipeline in its queue. */
  ghost predicate Initial(s: State) {
    s.worker.Idle? && VersionsOk(s.store) && s.store.pipelines.Keys <= s.store.queue
  }

  /** Nothing queued, nothing in flight. */
  predicate Quiescent(s: State) { s.store.queue == {} && s.worker.Idle? }

  /** ConfigMap and annotation of `c` are what its active pipelines render to. */
  ghost predicate Agrees(st: Store, h: Digest, c: string) {
    var wanted := ContentOf(Active(st.pipelines, c, None));
    wanted.Some? && InSync(st, h, c, wanted.value)
  }
}
