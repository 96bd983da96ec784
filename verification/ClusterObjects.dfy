/** What the cluster controller wants each owned object to be. */
module ClusterObjects {
  import opened Objects
  import opened Names
  import opened Admission

  // ---------- configuration ----------

  /** The effective configuration after class defaults. */
  datatype Config = Config(
    image: string, resources: Resources, envFrom: seq<string>,
    nodeSelector: map<string, string>, tolerations: seq<string>,
    podLabels: map<string, string>, podAnnotations: map<AnnotationKey, string>)

  datatype Resolution = Resolved(config: Config) | ClassNotFound(name: string) | NoImage

  predicate IsEmpty(r: Resources) {
    |r.requests| == 0 && |r.limits| == 0 && |r.claims| == 0
  }

  function Resolve(spec: ClusterSpec, classes: map<string, Class>): Resolution {
    if spec.classRef == "" then
      if spec.image == "" then NoImage
      else Resolved(Config(spec.image, spec.resources, spec.envFrom, map[], [], map[], map[]))
    else if spec.classRef !in classes then ClassNotFound(spec.classRef)
    else
      var class_ := classes[spec.classRef];
      var image := if spec.image == "" then class_.image else spec.image;
      if image == "" then NoImage
      else Resolved(Config(
        image,
        if IsEmpty(spec.resources) then class_.resources else spec.resources,
        if |spec.envFrom| == 0 then class_.envFrom else spec.envFrom,
        class_.nodeSelector, class_.tolerations, class_.podLabels, class_.podAnnotations))
  }

  /** An admitted cluster always resolves, as long as its class is still there: classes have a
      non-empty image.  Without admission, resolution fails exactly for want of an image or of
      the class.  What the cluster sets wins; what it leaves empty comes from the class. */
  lemma AdmittedResolves(spec: ClusterSpec, classes: map<string, Class>)
    requires forall n :: n in classes ==> classes[n].image != ""
    ensures ValidateCluster(spec, classes) == AdmitCluster ==> Resolve(spec, classes).Resolved?
    ensures Resolve(spec, classes).Resolved? <==>
            (spec.classRef == "" && spec.image != "") || (spec.classRef != "" && spec.classRef in classes)
    ensures Resolve(spec, classes).Resolved? ==>
              var cfg := Resolve(spec, classes).config;
              && cfg.image == (if spec.image != "" then spec.image else classes[spec.classRef].image)
              && (IsEmpty(spec.resources) || cfg.resources == spec.resources)
              && (spec.envFrom == [] || cfg.envFrom == spec.envFrom)
              && (spec.classRef != "" && IsEmpty(spec.resources) ==> cfg.resources == classes[spec.classRef].resources)
              && (spec.classRef != "" && spec.envFrom == [] ==> cfg.envFrom == classes[spec.classRef].envFrom)
  {
  }

  // ---------- peer configuration ----------

  /** The text of data-prepper-config.yaml. */
  function RenderPeerConfig(name: string, namespace: string, replicas: int): string {
    if replicas <= 1 then
      "ssl: false\n"
      + "peer_forwarder:\n"
      + "  discovery_mode: local_node\n"
    else
      "ssl: false\n"
      + "peer_forwarder:\n"
      + "  discovery_mode: dns\n"
      + "  domain_name: " + (HeadlessName(name) + ("." + namespace + ".svc.cluster.local")) + "\n"
      + "  ssl: false\n"
  }

  function PeerContent(name: string, namespace: string, replicas: int): Content {
    Text(RenderPeerConfig(name, namespace, replicas), {"ssl", "peer_forwarder"})
  }

  // ---------- Deployment ----------

  const SERVER_CONFIG := "server-config"

  /** The ConfigMap mounted as the server configuration. */
  function ServerConfigName(name: string, spec: ClusterSpec): string {
    if spec.serverConfigMap == "" then PeerConfigMapName(name) else spec.serverConfigMap
  }

  function DesiredVolumes(name: string, spec: ClusterSpec): seq<Volume> {
    [Volume("pipelines", FromConfigMap(ConfigMapName(name)))]
    + (if spec.assetsConfigMap != "" then [Volume("assets", FromConfigMap(spec.assetsConfigMap))] else [])
    + [Volume(SERVER_CONFIG, FromConfigMap(ServerConfigName(name, spec)))]
    + spec.extraVolumes
  }

  function DesiredMounts(spec: ClusterSpec): seq<Mount> {
    [Mount("pipelines", "/usr/share/data-prepper/pipelines", "")]
    + (if spec.assetsConfigMap != "" then [Mount("assets", "/usr/share/data-prepper/assets", "")] else [])
    + [Mount(SERVER_CONFIG, "/usr/share/data-prepper/config/data-prepper-config.yaml", "data-prepper-config.yaml")]
    + spec.extraMounts
  }

  function DesiredAnnotations(cfg: Config, peerHash: string): map<AnnotationKey, string> {
    if peerHash != "" then cfg.podAnnotations[PeerHash := peerHash] else cfg.podAnnotations
  }

  function DesiredDeployment(name: string, spec: ClusterSpec, cfg: Config, peerHash: string): Deployment {
    Deployment(
      spec.replicas,
      cfg.podLabels["app" := name],
      DesiredAnnotations(cfg, peerHash),
      PodSpec(cfg.nodeSelector, cfg.tolerations, cfg.image, cfg.resources,
              [Port("http", 4900, "")] + spec.extraPorts, DesiredMounts(spec), cfg.envFrom,
              Probe(0, 10, 30), Probe(0, 20, 3), Probe(5, 10, 3),
              DesiredVolumes(name, spec)),
      0)
  }

  /** The source of the first volume with the given name. */
  function VolumeNamed(volumes: seq<Volume>, name: string): Option<VolumeSource> {
    if volumes == [] then None
    else if volumes[0].name == name then Some(volumes[0].source)
    else VolumeNamed(volumes[1..], name)
  }

  lemma {:induction false} VolumeSkip(front: seq<Volume>, rest: seq<Volume>, name: string)
    requires forall i :: 0 <= i < |front| ==> front[i].name != name
    ensures VolumeNamed(front + rest, name) == VolumeNamed(rest, name)
  {
    if front == [] {
      assert front + rest == rest;
    } else {
      assert (front + rest)[1..] == front[1..] + rest;
      VolumeSkip(front[1..], rest, name);
    }
  }

  /** Whatever the assets and extra volumes, the server configuration is the chosen map. */
  lemma ServerVolume(name: string, spec: ClusterSpec)
    ensures VolumeNamed(DesiredVolumes(name, spec), SERVER_CONFIG) == Some(FromConfigMap(ServerConfigName(name, spec)))
  {
    var front := [Volume("pipelines", FromConfigMap(ConfigMapName(name)))]
      + (if spec.assetsConfigMap != "" then [Volume("assets", FromConfigMap(spec.assetsConfigMap))] else []);
    var server := [Volume(SERVER_CONFIG, FromConfigMap(ServerConfigName(name, spec)))];
    assert DesiredVolumes(name, spec) == front + (server + spec.extraVolumes);
    assert forall i :: 0 <= i < |front| ==> front[i].name == "pipelines" || front[i].name == "assets";
    assert "pipelines"[0] != SERVER_CONFIG[0] && "assets"[0] != SERVER_CONFIG[0];
    VolumeSkip(front, server + spec.extraVolumes, SERVER_CONFIG);
  }

  /** Every mount has its volume, provided the user's extra mounts do. */
  lemma MountsHaveVolumes(name: string, spec: ClusterSpec)
    requires forall i :: 0 <= i < |spec.extraMounts| ==> VolumeNamed(DesiredVolumes(name, spec), spec.extraMounts[i].volume).Some?
    ensures forall m :: m in DesiredMounts(spec) ==> VolumeNamed(DesiredVolumes(name, spec), m.volume).Some?
  {
    var volumes := DesiredVolumes(name, spec);
    ServerVolume(name, spec);
    assert volumes[0].name == "pipelines";
    if spec.assetsConfigMap != "" {
      assert volumes[1].name == "assets";
      VolumeListed(volumes, 1);
    }
  }

  lemma {:induction false} VolumeListed(volumes: seq<Volume>, i: nat)
    requires i < |volumes|
    ensures VolumeNamed(volumes, volumes[i].name).Some?
  {
    if volumes[0].name != volumes[i].name {
      VolumeListed(volumes[1..], i - 1);
    }
  }

  // ---------- Services and autoscaler ----------

  function Selector(name: string): map<string, string> { map["app" := name] }

  function ServicePorts(extra: seq<Port>): seq<ServicePort> {
    [ServicePort("http", 4900, ByName("http"), "")] + Numbered(extra)
  }

  function Numbered(extra: seq<Port>): seq<ServicePort> {
    if extra == [] then []
    else [ServicePort(extra[0].name, extra[0].number, ByNumber(extra[0].number), extra[0].protocol)] + Numbered(extra[1..])
  }

  function DesiredAutoscaler(name: string, a: Autoscaling): Autoscaler {
    Autoscaler(name, a.minReplicas, a.maxReplicas, if a.cpuTarget.Some? then a.cpuTarget.value else 70)
  }
}
