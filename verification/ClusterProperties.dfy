/** Properties of cluster reconciles: server-configuration mode, replica ownership, and the joint
    fixpoint of the two controllers. */
module ClusterProperties {
  import opened Objects
  import opened Names
  import opened Watch
  import opened Admission
  import opened ApiStore
  import opened Rebuild
  import opened ClusterObjects
  import opened ClusterReconcile

  // ---------- the effect on each object ----------

  /** All ConfigMaps but the named one are as before. */
  ghost predicate OnlyMapMoved(st: Store, st': Store, name: string) {
    && (forall n :: n != name ==> (n in st'.configMaps <==> n in st.configMaps))
    && (forall n :: n != name && n in st.configMaps ==> st'.configMaps[n] == st.configMaps[n])
    && st'.deployments == st.deployments && st'.others == st.others && st'.clusters == st.clusters && st'.pipelines == st.pipelines
  }

  lemma OwnMapAfter(st: Store, name: string)
    ensures var st', own := KeepConfigMap(st, name), ConfigMapName(name);
            && OnlyMapMoved(st, st', own) && own in st'.configMaps
            && (if own in st.configMaps then st' == st else st'.configMaps[own].data == map[PipelinesYaml := PLACEHOLDER])
  {
  }

  /** The peer ConfigMap holds exactly the rendered server configuration under its key. */
  predicate HoldsPeer(cm: ConfigMap, content: Content) {
    ServerYaml in cm.data && cm.data[ServerYaml] == content
  }

  lemma ServerTextAfter(st: Store, cm: string, content: Content)
    ensures var st' := KeepServerText(st, cm, content);
            OnlyMapMoved(st, st', cm) && cm in st'.configMaps && HoldsPeer(st'.configMaps[cm], content)
    ensures OnlyMapMoved(st, DropConfigMap(st, cm), cm) && cm !in DropConfigMap(st, cm).configMaps
  {
  }

  lemma PeerMapAfter(st: Store, ns: string, name: string, spec: ClusterSpec)
    ensures var st', peer := KeepPeerConfig(st, ns, name, spec), PeerConfigMapName(name);
            && OnlyMapMoved(st, st', peer)
            && (spec.serverConfigMap != "" ==> peer !in st'.configMaps)
            && (spec.serverConfigMap == "" ==> peer in st'.configMaps && HoldsPeer(st'.configMaps[peer], PeerContent(name, ns, spec.replicas)))
  {
    ServerTextAfter(st, PeerConfigMapName(name), PeerContent(name, ns, spec.replicas));
  }

  /** Peer ConfigMaps belong to no pipeline. */
  lemma PeerKeepsQueue(st: Store, ns: string, name: string, spec: ClusterSpec)
    ensures KeepPeerConfig(st, ns, name, spec).queue == st.queue
  {
    PeerEventsIgnored(st.pipelines, name);
  }

  /** The store between the ConfigMaps and the Deployment. */
  function MapsKept(st: Store, ns: string, name: string, spec: ClusterSpec): Store {
    KeepPeerConfig(KeepConfigMap(st, name), ns, name, spec)
  }

  lemma ConfigMapsAfter(st: Store, ns: string, name: string, spec: ClusterSpec)
    ensures var st' := MapsKept(st, ns, name, spec);
            var own, peer := ConfigMapName(name), PeerConfigMapName(name);
            && own in st'.configMaps
            && (if own in st.configMaps then st'.configMaps[own] == st.configMaps[own]
                else st'.configMaps[own].data == map[PipelinesYaml := PLACEHOLDER])
            && (spec.serverConfigMap != "" ==> peer !in st'.configMaps)
            && (spec.serverConfigMap == "" ==> peer in st'.configMaps && HoldsPeer(st'.configMaps[peer], PeerContent(name, ns, spec.replicas)))
            && (forall n :: n != own && n != peer ==>
                  (n in st'.configMaps <==> n in st.configMaps) && (n in st.configMaps ==> st'.configMaps[n] == st.configMaps[n]))
            && st'.deployments == st.deployments && st'.others == st.others && st'.clusters == st.clusters && st'.pipelines == st.pipelines
  {
    PeerNamesDisjoint();
    assert ConfigMapName(name) != PeerConfigMapName(name);
    OwnMapAfter(st, name);
    PeerMapAfter(KeepConfigMap(st, name), ns, name, spec);
  }

  lemma DeploymentAfter(st: Store, name: string, spec: ClusterSpec, cfg: Config, peerHash: string)
    ensures var st', desired := KeepDeployment(st, name, spec, cfg, peerHash), DesiredDeployment(name, spec, cfg, peerHash);
            && st'.configMaps == st.configMaps && st'.others == st.others && st'.clusters == st.clusters && st'.pipelines == st.pipelines
            && name in st'.deployments
            && var d := st'.deployments[name];
               && d.labels == desired.labels && d.pod == desired.pod
               && (forall k :: k != PipelinesHash ==>
                     (k in d.annotations <==> k in desired.annotations)
                     && (k in desired.annotations ==> d.annotations[k] == desired.annotations[k]))
               && d.replicas == (if name in st.deployments && spec.autoscaling.Some? then st.deployments[name].replicas else spec.replicas)
  {
  }

  // ---------- server-configuration mode ----------

  /** The peer ConfigMap exists with the rendered text, is the one mounted, and its hash is on
      the template. */
  predicate PeerMode(st: Store, h: Digest, ns: string, name: string, replicas: int) {
    var peer, content := PeerConfigMapName(name), PeerContent(name, ns, replicas);
    && peer in st.configMaps && HoldsPeer(st.configMaps[peer], content)
    && name in st.deployments
    && VolumeNamed(st.deployments[name].pod.volumes, SERVER_CONFIG) == Some(FromConfigMap(peer))
    && Lookup(st.deployments[name].annotations, PeerHash) == h(content)
  }

  /** The peer ConfigMap is absent, the user's map is mounted, and no peer hash remains. */
  predicate UserMode(st: Store, name: string, userMap: string) {
    && PeerConfigMapName(name) !in st.configMaps
    && name in st.deployments
    && VolumeNamed(st.deployments[name].pod.volumes, SERVER_CONFIG) == Some(FromConfigMap(userMap))
    && PeerHash !in st.deployments[name].annotations
  }

  /** The Service a dns domain names: kept by the same reconcile, selecting the cluster's pods. */
  predicate HeadlessKept(st: Store, name: string) {
    && HeadlessName(name) in st.others.services
    && st.others.services[HeadlessName(name)].selector == Selector(name)
    && st.others.services[HeadlessName(name)].publishNotReady
  }

  /** The Service has no address of its own, as a dns domain needs. */
  predicate IsHeadless(o: Others, name: string) {
    HeadlessName(name) in o.services && o.services[HeadlessName(name)].clusterIP == "None"
  }

  /** Server-configuration mode.  After every successful reconcile, from any store whatever and
      hence for any history of edits, the mode is the one the spec asks for; the headless Service
      named in a dns domain is there; peer mode holds exactly when no user map is given; user
      mode holds exactly when one is given and the class does not carry the peer-hash key itself;
      and the two never hold together.  An existing Service under the headless name keeps the address
      it has: it is headless afterwards exactly when it was absent or headless before. */
  lemma ServerConfigMode(st: Store, h: Digest, ns: string, name: string)
    requires Resolvable(st, name)
    ensures var spec := st.clusters[name].spec;
            var cfg := Resolve(spec, st.others.classes).config;
            var st' := ReconcileObjects(st, h, ns, name).store;
            && (PeerMode(st', h, ns, name, spec.replicas) <==> spec.serverConfigMap == "")
            && (UserMode(st', name, spec.serverConfigMap) <==> spec.serverConfigMap != "" && PeerHash !in cfg.podAnnotations)
            && HeadlessKept(st', name)
            && (IsHeadless(st'.others, name) <==> HeadlessName(name) !in st.others.services || IsHeadless(st.others, name))
            && (spec.serverConfigMap in st.configMaps ==>
                  (spec.serverConfigMap != "" && spec.serverConfigMap !in st'.configMaps <==> spec.serverConfigMap == PeerConfigMapName(name)))
  {
    var spec := st.clusters[name].spec;
    var cfg := Resolve(spec, st.others.classes).config;
    var st1 := MapsKept(st, ns, name, spec);
    ConfigMapsAfter(st, ns, name, spec);
    DeploymentAfter(st1, name, spec, cfg, PeerHashOf(h, ns, name, spec));
    ServerVolume(name, spec);
    ServicesAfter(st.others, name, spec);
    assert |PeerConfigMapName(name)| > 0;
  }

  lemma ServicesAfter(o: Others, name: string, spec: ClusterSpec)
    ensures var o' := KeepOthers(o, name, spec);
            && HeadlessName(name) in o'.services && name in o'.services
            && o'.services[HeadlessName(name)].selector == Selector(name)
            && o'.services[HeadlessName(name)].publishNotReady
            && (IsHeadless(o', name) <==> HeadlessName(name) !in o.services || IsHeadless(o, name))
            && o'.services[name].selector == Selector(name)
            && o'.services[name].ports == ServicePorts(spec.extraPorts)
            && (spec.autoscaling == None ==> name !in o'.autoscalers)
            && (spec.autoscaling.Some? ==> name in o'.autoscalers && o'.autoscalers[name] == DesiredAutoscaler(name, spec.autoscaling.value))
  {
  }

  // ---------- replica ownership ----------

  /** What can happen to the replicas of one autoscaled cluster while its spec stays put. */
  datatype Turn =
    | ReconcileTurn
    | ScaleTurn(replicas: int)
    | RebuildTurn(exclude: Option<string>)

  /** The autoscaler never goes above its own maximum, and only acts on what exists. */
  ghost function Take(st: Store, h: Digest, ns: string, name: string, t: Turn): Store {
    match t
    case ReconcileTurn => ReconcileObjects(st, h, ns, name).store
    case RebuildTurn(exclude) => RebuildCluster(st, h, name, exclude, NO_FAULTS).store
    case ScaleTurn(replicas) =>
      if name in st.others.autoscalers && name in st.deployments && replicas <= st.others.autoscalers[name].maxReplicas
      then ReviseDeployment(st, name, st.deployments[name].(replicas := replicas)) else st
  }

  ghost function Turns(st: Store, h: Digest, ns: string, name: string, ts: seq<Turn>): Store
    decreases ts
  {
    if ts == [] then st else Turns(Take(st, h, ns, name, ts[0]), h, ns, name, ts[1..])
  }

  /** An admitted spec with autoscaling, whose class is there, and replicas within bounds. */
  ghost predicate Owned(st: Store, name: string, spec: ClusterSpec) {
    && Resolvable(st, name) && st.clusters[name].spec == spec
    && ValidateCluster(spec, st.others.classes) == AdmitCluster && spec.autoscaling.Some?
    && (name in st.deployments ==> st.deployments[name].replicas <= spec.autoscaling.value.maxReplicas)
    && (name in st.others.autoscalers ==> st.others.autoscalers[name].maxReplicas == spec.autoscaling.value.maxReplicas)
  }

  /** What a successful reconcile does, as far as replicas and autoscaler are concerned. */
  lemma ReplicasAfter(st: Store, h: Digest, ns: string, name: string)
    requires Resolvable(st, name)
    ensures var st', spec := ReconcileObjects(st, h, ns, name).store, st.clusters[name].spec;
            && st'.clusters == st.clusters && st'.others == KeepOthers(st.others, name, spec)
            && name in st'.deployments
            && st'.deployments[name].replicas ==
               (if name in st.deployments && spec.autoscaling.Some? then st.deployments[name].replicas else spec.replicas)
  {
    var spec := st.clusters[name].spec;
    ConfigMapsAfter(st, ns, name, spec);
    DeploymentAfter(MapsKept(st, ns, name, spec), name, spec, Resolve(spec, st.others.classes).config, PeerHashOf(h, ns, name, spec));
  }

  lemma ReconcileKeepsReplicas(st: Store, h: Digest, ns: string, name: string, spec: ClusterSpec)
    requires Owned(st, name, spec)
    ensures var st' := ReconcileObjects(st, h, ns, name).store;
            && Owned(st', name, spec) && name in st'.deployments
            && (name in st.deployments ==> st'.deployments[name].replicas == st.deployments[name].replicas)
  {
    ReplicasAfter(st, h, ns, name);
    ServicesAfter(st.others, name, spec);
  }

  lemma TurnKeepsReplicas(st: Store, h: Digest, ns: string, name: string, spec: ClusterSpec, t: Turn)
    requires Owned(st, name, spec)
    ensures var st' := Take(st, h, ns, name, t);
            && Owned(st', name, spec)
            && (!t.ScaleTurn? && name in st.deployments ==>
                  name in st'.deployments && st'.deployments[name].replicas == st.deployments[name].replicas)
  {
    match t
    case ReconcileTurn => ReconcileKeepsReplicas(st, h, ns, name, spec);
    case RebuildTurn(exclude) => CrashConsistent(st, h, name, exclude, NO_FAULTS);
    case ScaleTurn(_) =>
  }

  /** Replica ownership.  For an admitted, unchanged spec with autoscaling, over every
      interleaving of reconciles, rebuilds and autoscaler steps, replicas stay within the maximum,
      and no reconcile or rebuild alters them. */
  lemma {:induction false} ReplicaOwnership(st: Store, h: Digest, ns: string, name: string, spec: ClusterSpec,
          ts: seq<Turn>)
    requires Owned(st, name, spec)
    ensures var st' := Turns(st, h, ns, name, ts);
            && (name in st'.deployments ==> st'.deployments[name].replicas <= spec.autoscaling.value.maxReplicas)
            && (name in st.deployments && (forall i :: 0 <= i < |ts| ==> !ts[i].ScaleTurn?) ==>
                  name in st'.deployments && st'.deployments[name].replicas == st.deployments[name].replicas)
    decreases ts
  {
    if ts != [] {
      TurnKeepsReplicas(st, h, ns, name, spec, ts[0]);
      ReplicaOwnership(Take(st, h, ns, name, ts[0]), h, ns, name, spec, ts[1..]);
    }
  }

  /** The bound is not enforced by a reconcile: switching autoscaling on for a Deployment that
      already runs more replicas leaves it there, exactly when it was over the maximum before. */
  lemma BoundIsInherited(st: Store, h: Digest, ns: string, name: string)
    requires Resolvable(st, name) && name in st.deployments
    requires st.clusters[name].spec.autoscaling.Some?
    ensures var max := st.clusters[name].spec.autoscaling.value.maxReplicas;
            ReconcileObjects(st, h, ns, name).store.deployments[name].replicas <= max <==> st.deployments[name].replicas <= max
  {
    ReplicasAfter(st, h, ns, name);
  }

  /** The first reconcile after autoscaling is cleared restores the replicas of the spec and
      removes the autoscaler, whatever they were. */
  lemma ClearingRestores(st: Store, h: Digest, ns: string, name: string)
    requires Resolvable(st, name) && st.clusters[name].spec.autoscaling == None
    ensures var st' := ReconcileObjects(st, h, ns, name).store;
            && name in st'.deployments && st'.deployments[name].replicas == st.clusters[name].spec.replicas
            && name !in st'.others.autoscalers
  {
    ReplicasAfter(st, h, ns, name);
    ServicesAfter(st.others, name, st.clusters[name].spec);
  }

  // ---------- traffic ----------

  /** The port a Service port points at is a port of the container. */
  predicate Reaches(sp: ServicePort, ports: seq<Port>) {
    match sp.target
    case ByName(n) => exists i :: 0 <= i < |ports| && ports[i].name == n && ports[i].number == sp.port
    case ByNumber(x) => x == sp.port && exists i :: 0 <= i < |ports| && ports[i].number == x
  }

  lemma {:induction false} NumberedReach(extra: seq<Port>, ports: seq<Port>, i: nat)
    requires i < |Numbered(extra)| && forall k :: 0 <= k < |extra| ==> extra[k] in ports
    ensures Reaches(Numbered(extra)[i], ports)
  {
    if i == 0 {
      assert extra[0] in ports;
    } else {
      assert forall k :: 0 <= k < |extra[1..]| ==> extra[1..][k] == extra[k + 1];
      NumberedReach(extra[1..], ports, i - 1);
    }
  }

  /** After every successful reconcile, whatever labels the class carries, both Services select
      the cluster's pods, every port of the Service reaches a port of the container, and the class
      labels other than `app` are on the pods. */
  lemma TrafficReachesPods(st: Store, h: Digest, ns: string, name: string)
    requires Resolvable(st, name)
    ensures var st' := ReconcileObjects(st, h, ns, name).store;
            var cfg := Resolve(st.clusters[name].spec, st.others.classes).config;
            && name in st'.deployments && name in st'.others.services && HeadlessName(name) in st'.others.services
            && var d, service, headless := st'.deployments[name], st'.others.services[name], st'.others.services[HeadlessName(name)];
               && (forall k :: k in service.selector ==> k in d.labels && d.labels[k] == service.selector[k])
               && headless.selector == service.selector
               && (forall i :: 0 <= i < |service.ports| ==> Reaches(service.ports[i], d.pod.ports))
               && (forall k :: k in cfg.podLabels && k != "app" ==> k in d.labels && d.labels[k] == cfg.podLabels[k])
  {
    var spec := st.clusters[name].spec;
    var cfg := Resolve(spec, st.others.classes).config;
    ConfigMapsAfter(st, ns, name, spec);
    DeploymentAfter(MapsKept(st, ns, name, spec), name, spec, cfg, PeerHashOf(h, ns, name, spec));
    ServicesAfter(st.others, name, spec);
    PortsReach(spec);
  }

  lemma PortsReach(spec: ClusterSpec)
    ensures forall i :: 0 <= i < |ServicePorts(spec.extraPorts)| ==>
              Reaches(ServicePorts(spec.extraPorts)[i], [Port("http", 4900, "")] + spec.extraPorts)
  {
    var ports := [Port("http", 4900, "")] + spec.extraPorts;
    forall i | 0 <= i < |ServicePorts(spec.extraPorts)|
      ensures Reaches(ServicePorts(spec.extraPorts)[i], ports)
    {
      if i == 0 {
        assert ports[0].name == "http" && ports[0].number == 4900;
      } else {
        assert forall k :: 0 <= k < |spec.extraPorts| ==> ports[k + 1] == spec.extraPorts[k];
        NumberedReach(spec.extraPorts, ports, i - 1);
      }
    }
  }
}
