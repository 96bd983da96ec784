/** What a cluster reconcile leaves on the stored objects, field by field. */
module ClusterOutcome {
  import opened Objects
  import opened Names
  import opened Merge
  import opened Conditions
  import opened ClusterObjects
  import opened ClusterReconcile
  import opened ClusterProperties
  import opened Fixpoint
  import opened LostDeployment

  // ---------- the status ----------

  /** The live pipelines that select `c`. */
  function LivePipelines(st: Store, c: string): set<string> {
    set n | n in st.pipelines && st.pipelines[n].spec.clusterRef == c && !st.pipelines[n].deleting
  }

  lemma LiveCount(st: Store, c: string)
    ensures |Active(st.pipelines, c, None)| == |LivePipelines(st, c)|
  {
    var a := Active(st.pipelines, c, None);
    assert a.Keys == LivePipelines(st, c);
    assert |a| == |a.Keys|;
  }

  /** One condition with status, reason, message and generation. */
  predicate Reads(c: Option<Condition>, status: Truth, reason: string, message: Message, generation: nat) {
    && c.Some? && c.value.status == status && c.value.reason == reason && c.value.message == message
    && c.value.observedGeneration == generation
  }

  /** The status computed from rollout figures, in those figures alone. */
  lemma StatusInFigures(cluster: Cluster, r: Rollout, pipelines: int, now: nat)
    ensures var s := NextClusterStatus(cluster, r, pipelines, now);
            var ready := 0 < cluster.spec.replicas <= r.ready;
            var degraded := 0 < r.unavailable && r.ready == 0;
            var progressing := r.generation != r.observedGeneration || r.updated < r.desired;
            && s.readyReplicas == r.ready && s.pipelines == pipelines && s.observedGeneration == cluster.generation
            && s.phase == (if ready then ClusterReady else if degraded then ClusterDegraded else ClusterPending)
            && Reads(Get(s.conditions, Ready), if ready then True else False,
                     if ready then "DeploymentAvailable" else "DeploymentUnavailable",
                     ReplicasReady(r.ready, cluster.spec.replicas), cluster.generation)
            && Reads(Get(s.conditions, Progressing), if progressing then True else False,
                     if progressing then "RolloutInProgress" else "RolloutComplete",
                     if progressing then ReplicasUpdated(r.updated, cluster.spec.replicas)
                     else Words("deployment matches desired generation"), cluster.generation)
            && Reads(Get(s.conditions, Degraded), if degraded then True else False,
                     if degraded then "AllReplicasUnavailable" else "ReplicasAvailable",
                     if degraded then ReplicasUnavailable(r.unavailable) else Words("at least one replica ready"), cluster.generation)
  {
    var signals := ClusterSignals(cluster.spec.replicas, cluster.generation, r);
    SetAllEffect(cluster.status.conditions, signals, now, 0);
    SetAllEffect(cluster.status.conditions, signals, now, 1);
    SetAllEffect(cluster.status.conditions, signals, now, 2);
  }

  lemma StatusStored(st: Store, c: string, r: Rollout, now: nat)
    requires c in st.clusters
    ensures var st' := KeepStatus(st, c, r, now);
            && c in st'.clusters && st'.clusters[c] == st.clusters[c].(status := st'.clusters[c].status)
            && st'.clusters[c].status == NextClusterStatus(st.clusters[c], r, |LivePipelines(st, c)|, now)
  {
    LiveCount(st, c);
  }

  /** The status.  After every whole reconcile the stored status says, in the figures of the rollout: Ready if and only if
      the spec asks for a positive number of replicas and so many are ready; Progressing if and only if the current
      generation is not observed or fewer replicas are updated than desired; Degraded if and only if some replica is
      unavailable and none ready; the phase goes by the first and the last; and it counts the ready replicas and the
      live pipelines, for the current generation. */
  lemma StoredClusterStatus(st: Store, h: Digest, ns: string, c: string, seen: Sighting)
    requires Resolvable(st, c)
    ensures var st', cluster, r := WholeReconcile(st, h, ns, c, seen), st.clusters[c], seen.rollout;
            c in st'.clusters
            && var s := st'.clusters[c].status;
               var ready, progressing, degraded := Get(s.conditions, Ready), Get(s.conditions, Progressing), Get(s.conditions, Degraded);
               && s.readyReplicas == r.ready && s.observedGeneration == cluster.generation
               && s.pipelines == |set n | n in st.pipelines && st.pipelines[n].spec.clusterRef == c && !st.pipelines[n].deleting|
               && ready.Some? && progressing.Some? && degraded.Some?
               && (ready.value.status == True <==> 0 < cluster.spec.replicas <= r.ready)
               && (ready.value.status == False <==> !(0 < cluster.spec.replicas <= r.ready))
               && (progressing.value.status == True <==> r.generation != r.observedGeneration || r.updated < r.desired)
               && (progressing.value.status == False <==> r.generation == r.observedGeneration && r.updated >= r.desired)
               && (degraded.value.status == True <==> r.unavailable > 0 && r.ready == 0)
               && (degraded.value.status == False <==> !(r.unavailable > 0 && r.ready == 0))
               && (s.phase == ClusterReady <==> 0 < cluster.spec.replicas <= r.ready)
               && (s.phase == ClusterDegraded <==> !(0 < cluster.spec.replicas <= r.ready) && r.unavailable > 0 && r.ready == 0)
               && (s.phase == ClusterPending <==> !(0 < cluster.spec.replicas <= r.ready) && !(r.unavailable > 0 && r.ready == 0))
               && ready.value.message == ReplicasReady(r.ready, cluster.spec.replicas)
  {
    var spec := st.clusters[c].spec;
    KeepTouchesObjectsOnly(st, h, ns, c, spec, Resolve(spec, st.others.classes).config);
    var mid := ReconcileObjects(st, h, ns, c).store;
    StatusStored(mid, c, seen.rollout, seen.now);
    StatusInFigures(mid.clusters[c], seen.rollout, |LivePipelines(mid, c)|, seen.now);
  }

  // ---------- the server configuration ----------

  function Line(text: string): string {
    if text == "" || text[0] == '\n' then "" else [text[0]] + Line(text[1..])
  }

  /** What follows the first line. */
  function Below(text: string): string {
    if text == "" then "" else if text[0] == '\n' then text[1..] else Below(text[1..])
  }

  lemma {:induction false} BelowShrinks(text: string)
    requires text != ""
    ensures |Below(text)| < |text|
  {
    if text[0] != '\n' && text[1..] != "" {
      BelowShrinks(text[1..]);
    }
  }

  /** The value of the first line that starts with `key`. */
  function Field(text: string, key: string): Option<string>
    decreases |text|
  {
    if text == "" then None
    else if key <= Line(text) then Some(Line(text)[|key|..])
    else
      BelowShrinks(text);
      Field(Below(text), key)
  }

  lemma {:induction false} FirstLine(line: string, rest: string)
    requires '\n' !in line
    ensures Line(line + "\n" + rest) == line && Below(line + "\n" + rest) == rest
  {
    var text := line + "\n" + rest;
    if line == "" {
      assert text == "\n" + rest;
    } else {
      assert text[0] == line[0] && text[1..] == line[1..] + "\n" + rest;
      FirstLine(line[1..], rest);
      assert line == [line[0]] + line[1..];
    }
  }

  lemma FieldHere(line: string, rest: string, key: string)
    requires '\n' !in line && key <= line
    ensures Field(line + "\n" + rest, key) == Some(line[|key|..])
  {
    FirstLine(line, rest);
  }

  lemma FieldBelow(line: string, rest: string, key: string)
    requires '\n' !in line && !(key <= line)
    ensures Field(line + "\n" + rest, key) == Field(rest, key)
  {
    FirstLine(line, rest);
  }

  const MODE := "  discovery_mode: "
  const DOMAIN := "  domain_name: "

  const TLS := "ssl: false"
  const OUTER := "ssl: "
  const INNER := "  ssl: "
  const FORWARDER := "peer_forwarder:"

  lemma KeysApart()
    ensures '\n' !in TLS && '\n' !in FORWARDER && '\n' !in MODE && '\n' !in DOMAIN
    ensures !(MODE <= TLS) && !(MODE <= FORWARDER) && !(DOMAIN <= TLS) && !(DOMAIN <= FORWARDER)
    ensures forall value :: !(DOMAIN <= MODE + value) && !(MODE <= DOMAIN + value)
    ensures forall value :: !(INNER <= MODE + value) && !(INNER <= DOMAIN + value)
    ensures !(INNER <= TLS) && !(INNER <= FORWARDER) && OUTER <= TLS && TLS[|OUTER|..] == "false"
  {
    forall value
      ensures !(INNER <= MODE + value) && !(INNER <= DOMAIN + value)
    {
      assert (MODE + value)[2] == 'd' && (DOMAIN + value)[2] == 'd' && INNER[2] == 's';
    }
    assert INNER[0] == ' ';
    assert MODE[0] == ' ' && DOMAIN[0] == ' ' && TLS[0] == 's' && FORWARDER[0] == 'p';
    forall value
      ensures !(DOMAIN <= MODE + value) && !(MODE <= DOMAIN + value)
    {
      assert (MODE + value)[3] == 'i' && (DOMAIN + value)[3] == 'o' && MODE[3] == 'i' && DOMAIN[3] == 'o';
    }
  }

  /** A text whose third line gives the mode. */
  lemma ModeLine(mode: string, rest: string)
    requires '\n' !in mode
    ensures var text := TLS + "\n" + (FORWARDER + "\n" + (MODE + mode + "\n" + rest));
            && Field(text, MODE) == Some(mode) && Field(text, DOMAIN) == Field(rest, DOMAIN)
            && Field(text, OUTER) == Some("false") && Field(text, INNER) == Field(rest, INNER)
  {
    KeysApart();
    var third := MODE + mode;
    var text3 := third + "\n" + rest;
    var text2 := FORWARDER + "\n" + text3;
    FieldBelow(TLS, text2, MODE);
    FieldBelow(TLS, text2, DOMAIN);
    FieldBelow(FORWARDER, text3, MODE);
    FieldBelow(FORWARDER, text3, DOMAIN);
    FieldHere(TLS, text2, OUTER);
    FieldBelow(TLS, text2, INNER);
    FieldBelow(FORWARDER, text3, INNER);
    FieldBelow(third, rest, INNER);
    FieldHere(third, rest, MODE);
    FieldBelow(third, rest, DOMAIN);
    assert third[|MODE|..] == mode;
  }

  lemma DomainLine(domain: string, rest: string)
    requires '\n' !in domain
    ensures Field(DOMAIN + domain + "\n" + rest, DOMAIN) == Some(domain)
    ensures Field(DOMAIN + domain + "\n" + rest, INNER) == Field(rest, INNER)
  {
    KeysApart();
    FieldHere(DOMAIN + domain, rest, DOMAIN);
    FieldBelow(DOMAIN + domain, rest, INNER);
    assert (DOMAIN + domain)[|DOMAIN|..] == domain;
  }

  lemma LastLine()
    ensures Field("  ssl: false\n", INNER) == Some("false")
  {
    assert "  ssl: false\n" == "  ssl: false" + "\n" + "";
    assert INNER <= "  ssl: false" && "  ssl: false"[|INNER|..] == "false";
    FieldHere("  ssl: false", "", INNER);
  }

  lemma ShortLines()
    ensures "ssl: false\n" == TLS + "\n" && "peer_forwarder:\n" == FORWARDER + "\n"
    ensures "  discovery_mode: local_node\n" == MODE + "local_node" + "\n" && "  discovery_mode: dns\n" == MODE + "dns" + "\n"
  {
  }

  lemma SingleText(name: string, ns: string, replicas: int)
    requires replicas <= 1
    ensures RenderPeerConfig(name, ns, replicas) == TLS + "\n" + (FORWARDER + "\n" + (MODE + "local_node" + "\n" + ""))
  {
    ShortLines();
    ThreeLines("ssl: false\n", "peer_forwarder:\n", "  discovery_mode: local_node\n");
  }

  lemma ThreeLines(a: string, b: string, c: string)
    ensures a + b + c == a + (b + (c + ""))
  {
  }

  lemma SeveralText(name: string, ns: string, replicas: int)
    requires replicas > 1
    ensures var domain := HeadlessName(name) + ("." + ns + ".svc.cluster.local");
            RenderPeerConfig(name, ns, replicas) ==
            TLS + "\n" + (FORWARDER + "\n" + (MODE + "dns" + "\n" + (DOMAIN + domain + "\n" + "  ssl: false\n")))
  {
    var domain := HeadlessName(name) + ("." + ns + ".svc.cluster.local");
    ShortLines();
    FiveLines("ssl: false\n", "peer_forwarder:\n", "  discovery_mode: dns\n", DOMAIN, domain, "  ssl: false\n");
  }

  lemma FiveLines(a: string, b: string, c: string, d: string, e: string, f: string)
    ensures a + b + c + d + e + "\n" + f == a + (b + (c + (d + e + "\n" + f)))
  {
  }

  /** What the peer text says. */
  lemma PeerTextSays(name: string, ns: string, replicas: int)
    requires '\n' !in name && '\n' !in ns
    ensures var text := RenderPeerConfig(name, ns, replicas);
            && Field(text, MODE) == Some(if replicas <= 1 then "local_node" else "dns")
            && Field(text, DOMAIN) == (if replicas <= 1 then None else Some(HeadlessName(name) + "." + ns + ".svc.cluster.local"))
            && Field(text, OUTER) == Some("false")
            && Field(text, INNER) == (if replicas <= 1 then None else Some("false"))
  {
    if replicas <= 1 {
      SingleText(name, ns, replicas);
      ModeLine("local_node", "");
    } else {
      var domain := HeadlessName(name) + ("." + ns + ".svc.cluster.local");
      SeveralText(name, ns, replicas);
      SeveralSays(domain);
      assert domain == HeadlessName(name) + "." + ns + ".svc.cluster.local";
    }
  }

  lemma SeveralSays(domain: string)
    requires '\n' !in domain
    ensures var text := TLS + "\n" + (FORWARDER + "\n" + (MODE + "dns" + "\n" + (DOMAIN + domain + "\n" + "  ssl: false\n")));
            && Field(text, MODE) == Some("dns") && Field(text, DOMAIN) == Some(domain)
            && Field(text, OUTER) == Some("false") && Field(text, INNER) == Some("false")
  {
    ModeLine("dns", DOMAIN + domain + "\n" + "  ssl: false\n");
    DomainLine(domain, "  ssl: false\n");
    LastLine();
  }

  lemma PeerModeSays(name: string, ns: string, replicas: int)
    ensures '\n' !in name && '\n' !in ns ==>
              Field(RenderPeerConfig(name, ns, replicas), "  discovery_mode: ") == Some(if replicas <= 1 then "local_node" else "dns")
  {
    if '\n' !in name && '\n' !in ns {
      PeerTextSays(name, ns, replicas);
    }
  }

  /** The peer text, and so the restart its hash causes, changes exactly when the cluster goes from one replica to several
      or back, and then from local_node to dns or back. */
  lemma PeerTextChanges(name: string, ns: string, before: int, after: int)
    ensures RenderPeerConfig(name, ns, before) == RenderPeerConfig(name, ns, after) <==> (before <= 1 <==> after <= 1)
    ensures '\n' !in name && '\n' !in ns && before <= 1 < after ==>
              && Field(RenderPeerConfig(name, ns, before), "  discovery_mode: ") == Some("local_node")
              && Field(RenderPeerConfig(name, ns, after), "  discovery_mode: ") == Some("dns")
  {
    if '\n' !in name && '\n' !in ns {
      PeerTextSays(name, ns, before);
      PeerTextSays(name, ns, after);
    }
  }

  /** The server configuration.  After every successful reconcile of a cluster without a map of the user's (object names
      have no line breaks) the stored peer ConfigMap says: no TLS, neither for the server nor between peers; for at most one replica, discovery mode local_node and no
      domain; for more, discovery mode dns and as domain the name of the headless Service, which is there and selects the
      cluster's pods, in the cluster's namespace. */
  lemma StoredPeerConfig(st: Store, h: Digest, ns: string, c: string)
    requires Resolvable(st, c) && st.clusters[c].spec.serverConfigMap == "" && '\n' !in c && '\n' !in ns
    ensures var st', replicas := ReconcileObjects(st, h, ns, c).store, st.clusters[c].spec.replicas;
            c + "-peer-config" in st'.configMaps
            && var data := st'.configMaps[c + "-peer-config"].data;
               && ServerYaml in data && data[ServerYaml].Text?
               && var text := data[ServerYaml].text;
                  && Field(text, "  discovery_mode: ") == Some(if replicas <= 1 then "local_node" else "dns")
                  && Field(text, "ssl: ") == Some("false") && Field(text, "  ssl: ") == (if replicas <= 1 then None else Some("false"))
                  && (replicas <= 1 ==> Field(text, "  domain_name: ") == None)
                  && (replicas > 1 ==>
                        var service := c + "-headless";
                        && Field(text, "  domain_name: ") == Some(service + "." + ns + ".svc.cluster.local")
                        && service in st'.others.services && st'.others.services[service].selector == map["app" := c])
  {
    var spec := st.clusters[c].spec;
    PeerTextSays(c, ns, spec.replicas);
    ServerConfigMode(st, h, ns, c);
  }

  // ---------- the pods ----------

  /** The first mount at a path. */
  function MountAt(mounts: seq<Mount>, path: string): Option<Mount> {
    if mounts == [] then None else if mounts[0].path == path then Some(mounts[0]) else MountAt(mounts[1..], path)
  }

  /** What a container finds at a path: the sub-path and the source of the volume mounted there. */
  function FoundAt(pod: PodSpec, path: string): Option<(string, VolumeSource)> {
    var mount := MountAt(pod.mounts, path);
    if mount.None? then None
    else
      var source := VolumeNamed(pod.volumes, mount.value.volume);
      if source.None? then None else Some((mount.value.subPath, source.value))
  }

  lemma {:induction false} MountSkip(front: seq<Mount>, rest: seq<Mount>, path: string)
    requires forall i :: 0 <= i < |front| ==> front[i].path != path
    ensures MountAt(front + rest, path) == MountAt(rest, path)
  {
    if front == [] {
      assert front + rest == rest;
    } else {
      assert (front + rest)[1..] == front[1..] + rest;
      MountSkip(front[1..], rest, path);
    }
  }

  const PIPELINES_PATH := "/usr/share/data-prepper/pipelines"
  const ASSETS_PATH := "/usr/share/data-prepper/assets"
  const SERVER_PATH := "/usr/share/data-prepper/config/data-prepper-config.yaml"

  lemma PathsApart()
    ensures PIPELINES_PATH != ASSETS_PATH && PIPELINES_PATH != SERVER_PATH && ASSETS_PATH != SERVER_PATH
    ensures "pipelines" != "assets" && "pipelines" != SERVER_CONFIG && "assets" != SERVER_CONFIG
  {
    assert PIPELINES_PATH[24] == 'p' && ASSETS_PATH[24] == 'a' && SERVER_PATH[24] == 'c';
    assert "pipelines"[0] == 'p' && "assets"[0] == 'a' && SERVER_CONFIG[0] == 's';
  }

  /** The mounts, one by one. */
  lemma MountsListed(spec: ClusterSpec)
    ensures var mounts := DesiredMounts(spec);
            && MountAt(mounts, PIPELINES_PATH) == Some(Mount("pipelines", PIPELINES_PATH, ""))
            && (spec.assetsConfigMap != "" ==> MountAt(mounts, ASSETS_PATH) == Some(Mount("assets", ASSETS_PATH, "")))
            && (spec.assetsConfigMap == "" ==> MountAt(mounts, ASSETS_PATH) == MountAt(spec.extraMounts, ASSETS_PATH))
            && MountAt(mounts, SERVER_PATH) == Some(Mount(SERVER_CONFIG, SERVER_PATH, "data-prepper-config.yaml"))
  {
    PathsApart();
    var first := [Mount("pipelines", PIPELINES_PATH, "")];
    var assets := if spec.assetsConfigMap != "" then [Mount("assets", ASSETS_PATH, "")] else [];
    var server := [Mount(SERVER_CONFIG, SERVER_PATH, "data-prepper-config.yaml")];
    assert DesiredMounts(spec) == first + (assets + (server + spec.extraMounts));
    MountSkip(first, assets + (server + spec.extraMounts), ASSETS_PATH);
    MountSkip(first, assets + (server + spec.extraMounts), SERVER_PATH);
    MountSkip(assets, server + spec.extraMounts, SERVER_PATH);
    if spec.assetsConfigMap == "" {
      assert assets + (server + spec.extraMounts) == server + spec.extraMounts;
      MountSkip(server, spec.extraMounts, ASSETS_PATH);
    }
  }

  /** The volumes, one by one. */
  lemma VolumesListed(name: string, spec: ClusterSpec)
    ensures var volumes := DesiredVolumes(name, spec);
            && VolumeNamed(volumes, "pipelines") == Some(FromConfigMap(ConfigMapName(name)))
            && (spec.assetsConfigMap != "" ==> VolumeNamed(volumes, "assets") == Some(FromConfigMap(spec.assetsConfigMap)))
            && VolumeNamed(volumes, SERVER_CONFIG) ==
               Some(FromConfigMap(if spec.serverConfigMap == "" then PeerConfigMapName(name) else spec.serverConfigMap))
  {
    PathsApart();
    ServerVolume(name, spec);
    var first := [Volume("pipelines", FromConfigMap(ConfigMapName(name)))];
    if spec.assetsConfigMap != "" {
      var rest := [Volume("assets", FromConfigMap(spec.assetsConfigMap))]
        + ([Volume(SERVER_CONFIG, FromConfigMap(ServerConfigName(name, spec)))] + spec.extraVolumes);
      assert DesiredVolumes(name, spec) == first + rest;
      VolumeSkip(first, rest, "assets");
    }
  }

  /** The Deployment a reconcile leaves has the desired pods. */
  lemma PodsDesired(st: Store, h: Digest, ns: string, c: string)
    requires Resolvable(st, c)
    ensures var st', spec := ReconcileObjects(st, h, ns, c).store, st.clusters[c].spec;
            c in st'.deployments
            && st'.deployments[c].pod == DesiredDeployment(c, spec, Resolve(spec, st.others.classes).config, PeerHashOf(h, ns, c, spec)).pod
  {
    var spec := st.clusters[c].spec;
    var cfg := Resolve(spec, st.others.classes).config;
    ConfigMapsAfter(st, ns, c, spec);
    DeploymentAfter(MapsKept(st, ns, c, spec), c, spec, cfg, PeerHashOf(h, ns, c, spec));
  }

  /** Mounted configuration.  After every successful reconcile, from any store, a container of the cluster finds at the
      pipelines path the very ConfigMap the pipeline controller writes for it; at the assets path the assets map
      if one is given; and as the server configuration, by its own key, the user's map or else the peer map. */
  lemma StoredMounts(st: Store, h: Digest, ns: string, c: string)
    requires Resolvable(st, c)
    ensures var st', spec := ReconcileObjects(st, h, ns, c).store, st.clusters[c].spec;
            c in st'.deployments
            && var pod := st'.deployments[c].pod;
               && FoundAt(pod, "/usr/share/data-prepper/pipelines") == Some(("", FromConfigMap(ConfigMapName(c))))
               && (spec.assetsConfigMap != "" ==>
                     FoundAt(pod, "/usr/share/data-prepper/assets") == Some(("", FromConfigMap(spec.assetsConfigMap))))
               && FoundAt(pod, "/usr/share/data-prepper/config/data-prepper-config.yaml") ==
                  Some(("data-prepper-config.yaml",
                        FromConfigMap(if spec.serverConfigMap == "" then PeerConfigMapName(c) else spec.serverConfigMap)))
               && (forall v :: v in spec.extraVolumes ==> v in pod.volumes)
               && (forall m :: m in spec.extraMounts ==> m in pod.mounts)
  {
    PodsDesired(st, h, ns, c);
    MountsListed(st.clusters[c].spec);
    VolumesListed(c, st.clusters[c].spec);
  }

  predicate NoResources(r: Resources) { r.requests == map[] && r.limits == map[] && r.claims == [] }

  lemma EmptyMaps(r: Resources)
    ensures IsEmpty(r) <==> NoResources(r)
  {
    assert |r.requests| == 0 <==> r.requests == map[];
    assert |r.limits| == 0 <==> r.limits == map[];
  }

  /** Resolved configuration, value by value, without a class. */
  lemma ResolvedAlone(spec: ClusterSpec, classes: map<string, Class>)
    requires spec.classRef == "" && Resolve(spec, classes).Resolved?
    ensures var cfg := Resolve(spec, classes).config;
            && cfg.image == spec.image && cfg.resources == spec.resources && cfg.envFrom == spec.envFrom
            && cfg.nodeSelector == map[] && cfg.tolerations == [] && cfg.podLabels == map[] && cfg.podAnnotations == map[]
  {
  }

  /** And with one. */
  lemma ResolvedByClass(spec: ClusterSpec, classes: map<string, Class>)
    requires spec.classRef != "" && Resolve(spec, classes).Resolved?
    ensures spec.classRef in classes
    ensures var cfg, defaults := Resolve(spec, classes).config, classes[spec.classRef];
            && cfg.image == (if spec.image != "" then spec.image else defaults.image)
            && cfg.resources == (if NoResources(spec.resources) then defaults.resources else spec.resources)
            && cfg.envFrom == (if spec.envFrom == [] then defaults.envFrom else spec.envFrom)
            && cfg.nodeSelector == defaults.nodeSelector && cfg.tolerations == defaults.tolerations
            && cfg.podLabels == defaults.podLabels && cfg.podAnnotations == defaults.podAnnotations
  {
    EmptyMaps(spec.resources);
  }

  /** Pods.  After every successful reconcile, from any store, the container runs the image of the spec or else of the class,
      with its resources and environment or else the class's, on the nodes and with the tolerations of the class; its
      probes have the fixed delays, periods and thresholds; and the http port and all extra ports are open. */
  lemma StoredPods(st: Store, h: Digest, ns: string, c: string)
    requires Resolvable(st, c)
    ensures var st', spec, classes := ReconcileObjects(st, h, ns, c).store, st.clusters[c].spec, st.others.classes;
            && c in st'.deployments && (spec.classRef != "" ==> spec.classRef in classes)
            && var pod := st'.deployments[c].pod;
               && pod.image == (if spec.image != "" then spec.image else classes[spec.classRef].image)
               && pod.resources ==
                  (if spec.classRef != "" && spec.resources.requests == map[] && spec.resources.limits == map[] && spec.resources.claims == []
                   then classes[spec.classRef].resources else spec.resources)
               && pod.envFrom == (if spec.classRef != "" && spec.envFrom == [] then classes[spec.classRef].envFrom else spec.envFrom)
               && pod.nodeSelector == (if spec.classRef != "" then classes[spec.classRef].nodeSelector else map[])
               && pod.tolerations == (if spec.classRef != "" then classes[spec.classRef].tolerations else [])
               && pod.startup == Probe(0, 10, 30) && pod.liveness == Probe(0, 20, 3) && pod.readiness == Probe(5, 10, 3)
               && pod.ports == [Port("http", 4900, "")] + spec.extraPorts
  {
    var spec := st.clusters[c].spec;
    PodsDesired(st, h, ns, c);
    if spec.classRef == "" {
      ResolvedAlone(spec, st.others.classes);
    } else {
      ResolvedByClass(spec, st.others.classes);
    }
  }

  /** The class's labels and annotations. */
  function ClassLabels(st: Store, spec: ClusterSpec): map<string, string> {
    if spec.classRef in st.others.classes && spec.classRef != "" then st.others.classes[spec.classRef].podLabels else map[]
  }

  function ClassAnnotations(st: Store, spec: ClusterSpec): map<AnnotationKey, string> {
    if spec.classRef in st.others.classes && spec.classRef != "" then st.others.classes[spec.classRef].podAnnotations else map[]
  }

  /** Resolution takes both from the class. */
  lemma ResolvedMetadata(st: Store, spec: ClusterSpec)
    requires Resolve(spec, st.others.classes).Resolved?
    ensures var cfg := Resolve(spec, st.others.classes).config;
            cfg.podLabels == ClassLabels(st, spec) && cfg.podAnnotations == ClassAnnotations(st, spec)
  {
    if spec.classRef == "" {
      ResolvedAlone(spec, st.others.classes);
    } else {
      ResolvedByClass(spec, st.others.classes);
    }
  }

  /** Labels.  After every successful reconcile the labels are the class's with the cluster's own app label over them. */
  lemma StoredLabels(st: Store, h: Digest, ns: string, c: string)
    requires Resolvable(st, c)
    ensures var st', spec := ReconcileObjects(st, h, ns, c).store, st.clusters[c].spec;
            c in st'.deployments
            && var d := st'.deployments[c];
               && "app" in d.labels && d.labels["app"] == c
               && (forall k :: k != "app" ==>
                     (k in d.labels <==> k in ClassLabels(st, spec)) && (k in d.labels ==> d.labels[k] == ClassLabels(st, spec)[k]))
  {
    var spec := st.clusters[c].spec;
    ConfigMapsAfter(st, ns, c, spec);
    DeploymentAfter(MapsKept(st, ns, c, spec), c, spec, Resolve(spec, st.others.classes).config, PeerHashOf(h, ns, c, spec));
    ResolvedMetadata(st, spec);
  }

  /** Annotations.  They are the class's but for the two the operator owns, of which the peer hash is that of the stored
      server configuration. */
  lemma StoredAnnotations(st: Store, h: Digest, ns: string, c: string)
    requires Resolvable(st, c)
    ensures var st', spec := ReconcileObjects(st, h, ns, c).store, st.clusters[c].spec;
            c in st'.deployments
            && var d := st'.deployments[c];
               && (forall k :: k != PipelinesHash && k != PeerHash ==>
                     (k in d.annotations <==> k in ClassAnnotations(st, spec))
                     && (k in d.annotations ==> d.annotations[k] == ClassAnnotations(st, spec)[k]))
               && (spec.serverConfigMap == "" ==>
                     PeerHash in d.annotations && c + "-peer-config" in st'.configMaps
                     && ServerYaml in st'.configMaps[c + "-peer-config"].data
                     && d.annotations[PeerHash] == h(st'.configMaps[c + "-peer-config"].data[ServerYaml]))
  {
    var spec := st.clusters[c].spec;
    ConfigMapsAfter(st, ns, c, spec);
    DeploymentAfter(MapsKept(st, ns, c, spec), c, spec, Resolve(spec, st.others.classes).config, PeerHashOf(h, ns, c, spec));
    ResolvedMetadata(st, spec);
  }

  // ---------- the Service ----------

  lemma {:induction false} NumberedValues(extra: seq<Port>, i: nat)
    requires i < |extra|
    ensures |Numbered(extra)| == |extra|
    ensures Numbered(extra)[i] == ServicePort(extra[i].name, extra[i].number, ByNumber(extra[i].number), extra[i].protocol)
  {
    if |extra| == 1 {
      assert Numbered(extra[1..]) == [];
    } else {
      NumberedValues(extra[1..], if i == 0 then 0 else i - 1);
    }
  }

  /** The Service.  After every successful reconcile it exposes the http port by name, and every extra port under its own
      name, number and protocol, and nothing else; one that had to be created has an address of its own and waits for
      readiness, and one that was there keeps what it has of either. */
  lemma StoredService(st: Store, h: Digest, ns: string, c: string)
    requires Resolvable(st, c)
    ensures var st', extra := ReconcileObjects(st, h, ns, c).store, st.clusters[c].spec.extraPorts;
            c in st'.others.services
            && var service := st'.others.services[c];
               && service.selector == map["app" := c]
               && |service.ports| == 1 + |extra|
               && service.ports[0] == ServicePort("http", 4900, ByName("http"), "")
               && (forall i :: 0 <= i < |extra| ==>
                     var port := service.ports[i + 1];
                     && port.name == extra[i].name && port.port == extra[i].number
                     && port.target == ByNumber(extra[i].number) && port.protocol == extra[i].protocol)
               && (if c in st.others.services
                   then service.clusterIP == st.others.services[c].clusterIP
                        && service.publishNotReady == st.others.services[c].publishNotReady
                   else service.clusterIP == "" && !service.publishNotReady)
  {
    var spec := st.clusters[c].spec;
    KeepTouchesObjectsOnly(st, h, ns, c, spec, Resolve(spec, st.others.classes).config);
    ServicesAfter(st.others, c, spec);
    ServiceAddress(st.others, c, spec);
    forall i | 0 <= i < |spec.extraPorts| {
      NumberedValues(spec.extraPorts, i);
    }
    if spec.extraPorts == [] {
      assert Numbered(spec.extraPorts) == [];
    }
  }

  lemma ServiceAddress(o: Others, c: string, spec: ClusterSpec)
    ensures var o' := KeepOthers(o, c, spec);
            c in o'.services
            && (if c in o.services
                then o'.services[c].clusterIP == o.services[c].clusterIP && o'.services[c].publishNotReady == o.services[c].publishNotReady
                else o'.services[c].clusterIP == "" && !o'.services[c].publishNotReady)
  {
    assert |HeadlessName(c)| > |c|;
  }
}
