/** DataPrepperClusterReconciler, method by method. */
module ClusterController {
  import opened Objects
  import opened Names
  import opened Watch
  import opened Merge
  import opened Conditions
  import opened ClusterObjects
  import opened ClusterReconcile
  import opened ClusterProperties
  import opened ClusterOutcome
  import opened Server

  /** Keys of `base` overlaid by `overrides`; the two ranges may visit keys in any order. */
  method MergeStringMap<K(==)>(base: map<K, string>, overrides: map<K, string>) returns (out: map<K, string>)
    ensures out == base + overrides
  {
    out := map[];
    var rest := base.Keys;
    while rest != {}
      invariant rest <= base.Keys
      invariant out.Keys == base.Keys - rest
      invariant forall k :: k in out ==> out[k] == base[k]
      decreases rest
    {
      var k :| k in rest;
      out := out[k := base[k]];
      rest := rest - {k};
    }
    rest := overrides.Keys;
    while rest != {}
      invariant rest <= overrides.Keys
      invariant out.Keys == base.Keys + (overrides.Keys - rest)
      invariant forall k :: k in out ==> out[k] == if k in overrides && k !in rest then overrides[k] else base[k]
      decreases rest
    {
      var k :| k in rest;
      out := out[k := overrides[k]];
      rest := rest - {k};
    }
  }

  class ClusterReconciler {
    const api: ApiServer
    const namespace: string

    constructor (api: ApiServer, namespace: string)
      ensures this.api == api && this.namespace == namespace
    {
      this.api, this.namespace := api, namespace;
    }

    method ResolveConfig(spec: ClusterSpec) returns (r: Resolution)
      ensures r == Resolve(spec, api.classes)
    {
      var cfg := Config(spec.image, spec.resources, spec.envFrom, map[], [], map[], map[]);
      if spec.classRef != "" {
        if spec.classRef !in api.classes {
          return ClassNotFound(spec.classRef);
        }
        var class_ := api.classes[spec.classRef];
        if cfg.image == "" {
          cfg := cfg.(image := class_.image);
        }
        if IsEmpty(cfg.resources) {
          cfg := cfg.(resources := class_.resources);
        }
        if |cfg.envFrom| == 0 {
          cfg := cfg.(envFrom := class_.envFrom);
        }
        cfg := cfg.(nodeSelector := class_.nodeSelector);
        cfg := cfg.(tolerations := class_.tolerations);
        cfg := cfg.(podLabels := class_.podLabels);
        cfg := cfg.(podAnnotations := class_.podAnnotations);
      }
      if cfg.image == "" {
        return NoImage;
      }
      return Resolved(cfg);
    }

    /** Afterwards the ConfigMap is there; every ConfigMap that was there before is untouched, this one
        included, whatever it holds; and if it had to be created it holds the placeholder and all
        pipelines of the cluster are queued. */
    method ReconcileConfigMap(name: string)
      modifies api`configMaps, api`queue, api`clock
      ensures api.View() == KeepConfigMap(old(api.View()), name)
      ensures api.configMaps.Keys == old(api.configMaps).Keys + {ConfigMapName(name)}
      ensures forall n :: n in old(api.configMaps) ==> api.configMaps[n] == old(api.configMaps)[n]
      ensures ConfigMapName(name) !in old(api.configMaps) ==>
                Holds(api.configMaps[ConfigMapName(name)], PLACEHOLDER) && Members(api.pipelines, name) <= api.queue
    {
      TargetsOfOwnConfigMap(api.pipelines, name);
      var cmName := ConfigMapName(name);
      if cmName in api.configMaps {
        return;
      }
      api.WriteConfigMap(cmName, map[PipelinesYaml := PLACEHOLDER]);
    }

    /** Afterwards the peer ConfigMap is there, with the server configuration whose hash is returned,
        exactly when the user supplies no map; every other ConfigMap is untouched; and no pipeline is
        queued, because peer ConfigMaps belong to none. */
    method ReconcilePeerConfig(h: Digest, name: string, spec: ClusterSpec) returns (peerHash: string)
      modifies api`configMaps, api`queue, api`clock
      ensures api.View() == KeepPeerConfig(old(api.View()), namespace, name, spec)
      ensures peerHash == PeerHashOf(h, namespace, name, spec)
      ensures PeerConfigMapName(name) in api.configMaps <==> spec.serverConfigMap == ""
      ensures spec.serverConfigMap == "" && '\n' !in name && '\n' !in namespace ==>
                var data := api.configMaps[PeerConfigMapName(name)].data;
                && ServerYaml in data && data[ServerYaml].Text?
                && Field(data[ServerYaml].text, "  discovery_mode: ") == Some(if spec.replicas <= 1 then "local_node" else "dns")
      ensures if spec.serverConfigMap != "" then peerHash == ""
              else
                var cm := api.configMaps[PeerConfigMapName(name)];
                HoldsPeer(cm, PeerContent(name, namespace, spec.replicas)) && peerHash == h(cm.data[ServerYaml])
      ensures forall n :: n != PeerConfigMapName(name) ==>
                (n in api.configMaps <==> n in old(api.configMaps))
                && (n in old(api.configMaps) ==> api.configMaps[n] == old(api.configMaps)[n])
      ensures api.queue == old(api.queue)
    {
      ghost var st := api.View();
      PeerMapAfter(st, namespace, name, spec);
      PeerKeepsQueue(st, namespace, name, spec);
      PeerModeSays(name, namespace, spec.replicas);
      var cmName := PeerConfigMapName(name);
      if spec.serverConfigMap != "" {
        if cmName in api.configMaps {
          api.DeleteConfigMap(cmName);
        }
        return "";
      }
      var content := PeerContent(name, namespace, spec.replicas);
      peerHash := h(content);
      WriteServerText(cmName, content);
    }

    /** The end of reconcilePeerConfig: create the map, or bring its text up to date. */
    method WriteServerText(cmName: string, content: Content)
      modifies api`configMaps, api`queue, api`clock
      ensures api.View() == KeepServerText(old(api.View()), cmName, content)
    {
      if cmName !in api.configMaps {
        api.WriteConfigMap(cmName, map[ServerYaml := content]);
        return;
      }
      var data := api.configMaps[cmName].data;
      if ServerYaml in data && data[ServerYaml] == content {
        return;
      }
      api.WriteConfigMap(cmName, map[ServerYaml := content]);
    }

    /** The volumes and mounts, appended one by one. */
    method BuildVolumes(name: string, spec: ClusterSpec) returns (volumes: seq<Volume>, mounts: seq<Mount>)
      ensures volumes == DesiredVolumes(name, spec) && mounts == DesiredMounts(spec)
    {
      volumes := [Volume("pipelines", FromConfigMap(ConfigMapName(name)))];
      mounts := [Mount("pipelines", "/usr/share/data-prepper/pipelines", "")];
      if spec.assetsConfigMap != "" {
        volumes := volumes + [Volume("assets", FromConfigMap(spec.assetsConfigMap))];
        mounts := mounts + [Mount("assets", "/usr/share/data-prepper/assets", "")];
      }
      var serverConfigMapName := spec.serverConfigMap;
      if serverConfigMapName == "" {
        serverConfigMapName := PeerConfigMapName(name);
      }
      volumes := volumes + [Volume(SERVER_CONFIG, FromConfigMap(serverConfigMapName))];
      mounts := mounts + [Mount(SERVER_CONFIG, "/usr/share/data-prepper/config/data-prepper-config.yaml", "data-prepper-config.yaml")];
      volumes := volumes + spec.extraVolumes;
      mounts := mounts + spec.extraMounts;
    }

    /** The Deployment as it would be created. */
    method BuildDeployment(name: string, spec: ClusterSpec, cfg: Config, peerHash: string) returns (d: Deployment)
      ensures d == DesiredDeployment(name, spec, cfg, peerHash)
    {
      var ports := [Port("http", 4900, "")] + spec.extraPorts;
      var volumes, mounts := BuildVolumes(name, spec);
      var podLabels := MergeStringMap(cfg.podLabels, map["app" := name]);
      assert podLabels == cfg.podLabels["app" := name];
      var podAnnotations := MergeStringMap(cfg.podAnnotations, map[]);
      assert podAnnotations == cfg.podAnnotations;
      if peerHash != "" {
        podAnnotations := podAnnotations[PeerHash := peerHash];
      }
      var pod := PodSpec(cfg.nodeSelector, cfg.tolerations, cfg.image, cfg.resources, ports, mounts, cfg.envFrom,
                         Probe(0, 10, 30), Probe(0, 20, 3), Probe(5, 10, 3), volumes);
      d := Deployment(spec.replicas, podLabels, podAnnotations, pod, 0);
    }

    method ReconcileDeployment(name: string, spec: ClusterSpec, cfg: Config, peerHash: string)
      modifies api`deployments, api`clock
      ensures api.View() == KeepDeployment(old(api.View()), name, spec, cfg, peerHash)
      ensures name in api.deployments
              && FoundAt(api.deployments[name].pod, "/usr/share/data-prepper/pipelines") == Some(("", FromConfigMap(ConfigMapName(name))))
              && api.deployments[name].pod.image == cfg.image && api.deployments[name].pod.resources == cfg.resources
    {
      DeploymentAfter(api.View(), name, spec, cfg, peerHash);
      MountsListed(spec);
      VolumesListed(name, spec);
      var desired := BuildDeployment(name, spec, cfg, peerHash);
      if name !in api.deployments {
        api.WriteDeployment(name, desired);
        return;
      }
      var existing := api.deployments[name];
      if spec.autoscaling.None? {
        existing := existing.(replicas := spec.replicas);
      }
      existing := existing.(labels := desired.labels);
      var preserved := Lookup(existing.annotations, PipelinesHash);
      existing := existing.(annotations := desired.annotations);
      if preserved != "" {
        existing := existing.(annotations := existing.annotations[PipelinesHash := preserved]);
      }
      existing := existing.(pod := desired.pod);
      api.UpdateDeployment(name, existing);
    }

    method ReconcileService(name: string, spec: ClusterSpec)
      modifies api`services
      ensures api.View() == old(api.View()).(others := old(api.View()).others.(services := KeepService(old(api.services), name, spec)))
    {
      var ports := [ServicePort("http", 4900, ByName("http"), "")];
      for i := 0 to |spec.extraPorts|
        invariant ports == ServicePorts(spec.extraPorts[..i])
        invariant api.View() == old(api.View())
      {
        var p := spec.extraPorts[i];
        NumberedAppend(spec.extraPorts[..i], p);
        assert spec.extraPorts[..i + 1] == spec.extraPorts[..i] + [p];
        ports := ports + [ServicePort(p.name, p.number, ByNumber(p.number), p.protocol)];
      }
      assert spec.extraPorts[..|spec.extraPorts|] == spec.extraPorts;
      if name !in api.services {
        api.services := api.services[name := Service("", false, Selector(name), ports)];
      } else if api.services[name].ports != ports || api.services[name].selector != Selector(name) {
        api.services := api.services[name := api.services[name].(ports := ports, selector := Selector(name))];
      }
    }

    /** Afterwards the Service selects the cluster's pods, ready or not; its address is only chosen when
        it is created, and ports and every other Service are untouched. */
    method ReconcileHeadlessService(name: string)
      modifies api`services
      ensures api.View() == old(api.View()).(others := old(api.View()).others.(services := KeepHeadless(old(api.services), name)))
      ensures api.services.Keys == old(api.services).Keys + {HeadlessName(name)}
      ensures var service := api.services[HeadlessName(name)];
              && service.selector == Selector(name) && service.publishNotReady
              && (if HeadlessName(name) in old(api.services)
                  then service.clusterIP == old(api.services)[HeadlessName(name)].clusterIP
                       && service.ports == old(api.services)[HeadlessName(name)].ports
                  else service.clusterIP == "None" && service.ports == [])
      ensures forall n :: n in old(api.services) && n != HeadlessName(name) ==> api.services[n] == old(api.services)[n]
    {
      var headless := HeadlessName(name);
      if headless !in api.services {
        api.services := api.services[headless := Service("None", true, Selector(name), [])];
        return;
      }
      var existing := api.services[headless];
      if existing.clusterIP == "None" && existing.publishNotReady && existing.selector == Selector(name) {
        return;
      }
      existing := existing.(publishNotReady := true);
      existing := existing.(selector := Selector(name));
      api.services := api.services[headless := existing];
    }

    /** Afterwards the autoscaler is there exactly when the spec asks for one, targeting the cluster's
        Deployment within the bounds of the spec, and every other autoscaler is untouched. */
    method ReconcileHPA(name: string, spec: ClusterSpec)
      modifies api`autoscalers
      ensures api.View() == old(api.View()).(others := old(api.View()).others.(autoscalers := KeepAutoscaler(old(api.autoscalers), name, spec)))
      ensures name in api.autoscalers <==> spec.autoscaling.Some?
      ensures spec.autoscaling.Some? ==>
                var wanted, hpa := spec.autoscaling.value, api.autoscalers[name];
                && hpa.target == name && hpa.minReplicas == wanted.minReplicas && hpa.maxReplicas == wanted.maxReplicas
                && (wanted.cpuTarget.Some? ==> hpa.cpuTarget == wanted.cpuTarget.value)
                && (wanted.cpuTarget.None? ==> hpa.cpuTarget == 70)
      ensures forall n :: n != name ==>
                (n in api.autoscalers <==> n in old(api.autoscalers))
                && (n in old(api.autoscalers) ==> api.autoscalers[n] == old(api.autoscalers)[n])
    {
      if spec.autoscaling.None? {
        if name in api.autoscalers {
          api.autoscalers := api.autoscalers - {name};
        } else {
          assert api.autoscalers - {name} == api.autoscalers;
        }
        return;
      }
      var a := spec.autoscaling.value;
      var cpuTarget := 70;
      if a.cpuTarget.Some? {
        cpuTarget := a.cpuTarget.value;
      }
      var desired := Autoscaler(name, a.minReplicas, a.maxReplicas, cpuTarget);
      if name in api.autoscalers && api.autoscalers[name] == desired {
        return;
      }
      api.autoscalers := api.autoscalers[name := desired];
    }

    /** The condition list part of reconcileStatus. */
    method ClusterConditions(cluster: Cluster, ready: bool, degraded: bool, rollout: Rollout, now: nat)
      returns (conditions: seq<Condition>)
      requires ready == IsReady(cluster.spec.replicas, rollout) && degraded == IsDegraded(rollout)
      ensures conditions == SetAll(cluster.status.conditions, ClusterSignals(cluster.spec.replicas, cluster.generation, rollout), now)
    {
      var progressing := rollout.generation != rollout.observedGeneration || rollout.updated < rollout.desired;
      var replicasReady := ReplicasReady(rollout.ready, cluster.spec.replicas);
      conditions := cluster.status.conditions;
      conditions := SetCond(conditions, cluster.generation, Ready, ready, "DeploymentAvailable", "DeploymentUnavailable",
                            replicasReady, replicasReady, now);
      conditions := SetCond(conditions, cluster.generation, Progressing, progressing, "RolloutInProgress", "RolloutComplete",
                            ReplicasUpdated(rollout.updated, cluster.spec.replicas),
                            Words("deployment matches desired generation"), now);
      conditions := SetCond(conditions, cluster.generation, Degraded, degraded, "AllReplicasUnavailable", "ReplicasAvailable",
                            ReplicasUnavailable(rollout.unavailable),
                            Words("at least one replica ready"), now);
      SetThree(cluster.status.conditions, ClusterSignals(cluster.spec.replicas, cluster.generation, rollout), now);
    }

    /** `rollout` is the status of the Deployment as the server reports it. */
    method ReconcileStatus(name: string, rollout: Rollout, now: nat)
      requires name in api.clusters
      modifies api`clusters, api`queue
      ensures api.View() == KeepStatus(old(api.View()), name, rollout, now)
      ensures name in api.clusters
              && var spec, status := api.clusters[name].spec, api.clusters[name].status;
                 && status.readyReplicas == rollout.ready && status.observedGeneration == old(api.clusters)[name].generation
                 && status.pipelines == |LivePipelines(old(api.View()), name)|
                 && (status.phase == ClusterReady <==> 0 < spec.replicas <= rollout.ready)
    {
      StatusStored(api.View(), name, rollout, now);
      StatusInFigures(api.clusters[name], rollout, |LivePipelines(api.View(), name)|, now);
      var cluster := api.clusters[name];
      var items := api.ListPipelines();
      var pipelineCount := CountPipelines(items, api.pipelines, name);

      var ready := cluster.spec.replicas > 0 && rollout.ready >= cluster.spec.replicas;
      var degraded := rollout.unavailable > 0 && rollout.ready == 0;
      var phase := ClusterPending;
      if ready {
        phase := ClusterReady;
      } else if degraded {
        phase := ClusterDegraded;
      }
      var conditions := ClusterConditions(cluster, ready, degraded, rollout, now);
      var desired := ClusterStatus(phase, rollout.ready, pipelineCount, cluster.generation, conditions);
      if desired == cluster.status {
        return;
      }
      api.WriteClusterStatus(name, desired);
    }

    /** The middle of Reconcile: every owned object, in order. */
    method ReconcileOwned(h: Digest, name: string, spec: ClusterSpec, cfg: Config)
      modifies api`configMaps, api`deployments, api`services, api`autoscalers, api`queue, api`clock
      ensures api.View() == KeepObjects(old(api.View()), h, namespace, name, spec, cfg)
    {
      ReconcileConfigMap(name);
      var peerHash := ReconcilePeerConfig(h, name, spec);
      ReconcileDeployment(name, spec, cfg, peerHash);
      ghost var st := api.View();
      ReconcileService(name, spec);
      ReconcileHeadlessService(name);
      ReconcileHPA(name, spec);
      assert api.View() == st.(others := KeepOthers(st.others, name, spec));
    }

    /** `ok` is false when the configuration cannot be resolved; then nothing is written. */
    method Reconcile(h: Digest, name: string, rollout: Rollout, now: nat) returns (ok: bool)
      modifies api`clusters, api`configMaps, api`deployments, api`services, api`autoscalers, api`queue, api`clock
      ensures ok <==> ReconcileObjects(old(api.View()), h, namespace, name).Reconciled?
      ensures ok <==> name !in old(api.clusters) || Resolve(old(api.clusters)[name].spec, api.classes).Resolved?
      ensures !ok || name !in old(api.clusters) ==> api.View() == old(api.View())
      ensures ok ==> api.View() == KeepStatus(ReconcileObjects(old(api.View()), h, namespace, name).store, name, rollout, now)
    {
      if name !in api.clusters {
        return true;
      }
      var spec := api.clusters[name].spec;
      var resolution := ResolveConfig(spec);
      if !resolution.Resolved? {
        return false;
      }
      var cfg := resolution.config;
      ReconcileOwned(h, name, spec, cfg);
      ReconcileStatus(name, rollout, now);
      return true;
    }
  }

  lemma {:induction false} NumberedAppend(ports: seq<Port>, p: Port)
    ensures Numbered(ports + [p]) == Numbered(ports) + [ServicePort(p.name, p.number, ByNumber(p.number), p.protocol)]
  {
    if ports == [] {
      assert ports + [p] == [p];
    } else {
      assert (ports + [p])[1..] == ports[1..] + [p];
      NumberedAppend(ports[1..], p);
    }
  }

  /** setCond: one condition, with a reason and a message for either status. */
  function SetCond(cs: seq<Condition>, generation: nat, kind: Kind, on: bool,
                   reasonOn: string, reasonOff: string, messageOn: Message, messageOff: Message, now: nat): seq<Condition> {
    SetCondition(cs, Signal(kind, if on then True else False, if on then reasonOn else reasonOff,
                            if on then messageOn else messageOff, generation), now)
  }

  lemma SetThree(cs: seq<Condition>, signals: seq<Signal>, now: nat)
    requires |signals| == 3
    ensures SetAll(cs, signals, now) == SetCondition(SetCondition(SetCondition(cs, signals[0], now), signals[1], now), signals[2], now)
  {
    var cs1 := SetCondition(cs, signals[0], now);
    var rest := signals[1..];
    assert SetAll(cs, signals, now) == SetAll(cs1, rest, now);
    var cs2 := SetCondition(cs1, rest[0], now);
    assert SetAll(cs1, rest, now) == SetAll(cs2, rest[1..], now);
    assert rest[1..] == [signals[2]] && [signals[2]][1..] == [];
  }
}
