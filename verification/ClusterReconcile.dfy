/** One reconcile of a cluster as a function of the store. */
module ClusterReconcile {
  import opened Objects
  import opened Names
  import opened Watch
  import opened Conditions
  import opened Merge
  import opened ApiStore
  import opened Overlaying
  import opened ClusterObjects

  // ---------- the owned objects, one by one ----------

  /** reconcileConfigMap: created once, then left to the pipeline controller. */
  function KeepConfigMap(st: Store, name: string): Store {
    if ConfigMapName(name) in st.configMaps then st
    else PutConfigMap(st, ConfigMapName(name), map[PipelinesYaml := PLACEHOLDER])
  }

  /** reconcilePeerConfig: the hash it returns is empty when the user supplies the map. */
  function PeerHashOf(h: Digest, ns: string, name: string, spec: ClusterSpec): string {
    if spec.serverConfigMap != "" then "" else h(PeerContent(name, ns, spec.replicas))
  }

  /** Writes `content` as the server configuration unless it is already there. */
  function KeepServerText(st: Store, cm: string, content: Content): Store {
    if cm in st.configMaps && ServerYaml in st.configMaps[cm].data && st.configMaps[cm].data[ServerYaml] == content then st
    else PutConfigMap(st, cm, map[ServerYaml := content])
  }

  function KeepPeerConfig(st: Store, ns: string, name: string, spec: ClusterSpec): Store {
    if spec.serverConfigMap != "" then DropConfigMap(st, PeerConfigMapName(name))
    else KeepServerText(st, PeerConfigMapName(name), PeerContent(name, ns, spec.replicas))
  }

  function KeepDeployment(st: Store, name: string, spec: ClusterSpec, cfg: Config, peerHash: string): Store {
    var desired := DesiredDeployment(name, spec, cfg, peerHash);
    if name !in st.deployments then PutDeployment(st, name, desired)
    else ReviseDeployment(st, name, Overlay(st.deployments[name], desired, spec.autoscaling.Some?))
  }

  function KeepService(services: map<string, Service>, name: string, spec: ClusterSpec): map<string, Service> {
    var ports := ServicePorts(spec.extraPorts);
    if name !in services then services[name := Service("", false, Selector(name), ports)]
    else if services[name].ports != ports || services[name].selector != Selector(name)
    then services[name := services[name].(ports := ports, selector := Selector(name))]
    else services
  }

  function KeepHeadless(services: map<string, Service>, name: string): map<string, Service> {
    var headless := HeadlessName(name);
    if headless !in services then services[headless := Service("None", true, Selector(name), [])]
    else if services[headless].clusterIP == "None" && services[headless].publishNotReady && services[headless].selector == Selector(name)
    then services
    else services[headless := services[headless].(publishNotReady := true, selector := Selector(name))]
  }

  function KeepAutoscaler(autoscalers: map<string, Autoscaler>, name: string, spec: ClusterSpec): map<string,
          Autoscaler> {
    match spec.autoscaling
    case None => autoscalers - {name}
    case Some(a) =>
      if name in autoscalers && autoscalers[name] == DesiredAutoscaler(name, a) then autoscalers
      else autoscalers[name := DesiredAutoscaler(name, a)]
  }

  function KeepOthers(o: Others, name: string, spec: ClusterSpec): Others {
    o.(services := KeepHeadless(KeepService(o.services, name, spec), name),
       autoscalers := KeepAutoscaler(o.autoscalers, name, spec))
  }

  /** All owned objects, in the order of Reconcile. */
  function KeepObjects(st: Store, h: Digest, ns: string, name: string, spec: ClusterSpec, cfg: Config): Store {
    var st1 := KeepPeerConfig(KeepConfigMap(st, name), ns, name, spec);
    var st2 := KeepDeployment(st1, name, spec, cfg, PeerHashOf(h, ns, name, spec));
    st2.(others := KeepOthers(st2.others, name, spec))
  }

  /** reconcileStatus: written, with an event for the pipelines of the cluster, when it differs. */
  function KeepStatus(st: Store, name: string, rollout: Rollout, now: nat): Store {
    if name !in st.clusters then st
    else
      var next := NextClusterStatus(st.clusters[name], rollout, |Active(st.pipelines, name, None)|, now);
      if next == st.clusters[name].status then st
      else Enqueue(st.(clusters := st.clusters[name := st.clusters[name].(status := next)]), Members(st.pipelines, name))
  }

  datatype ClusterResult = Reconciled(store: Store) | Unresolved(store: Store)

  /** Reconcile, up to the status. */
  function ReconcileObjects(st: Store, h: Digest, ns: string, name: string): ClusterResult {
    if name !in st.clusters then Reconciled(st)
    else
      var spec := st.clusters[name].spec;
      match Resolve(spec, st.others.classes)
      case Resolved(cfg) => Reconciled(KeepObjects(st, h, ns, name, spec, cfg))
      case _ => Unresolved(st)
  }

  /** A successful reconcile of an existing cluster is possible. */
  predicate Resolvable(st: Store, name: string) {
    name in st.clusters && Resolve(st.clusters[name].spec, st.others.classes).Resolved?
  }
}
