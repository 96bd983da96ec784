/** The joint fixpoint of the two controllers, and how far clusters are independent. */
module Fixpoint {
  import opened Objects
  import opened Names
  import opened Merge
  import opened Rebuild
  import opened Overlaying
  import opened ClusterObjects
  import opened ClusterReconcile
  import opened ClusterProperties

  // ---------- one cluster ----------

  function DesiredOf(h: Digest, ns: string, name: string, spec: ClusterSpec, cfg: Config): Deployment {
    DesiredDeployment(name, spec, cfg, PeerHashOf(h, ns, name, spec))
  }

  /** Object by object, a cluster reconcile would change nothing. */
  ghost predicate Kept(st: Store, h: Digest, ns: string, name: string, spec: ClusterSpec, cfg: Config) {
    var peer := PeerConfigMapName(name);
    && ConfigMapName(name) in st.configMaps
    && (spec.serverConfigMap != "" ==> peer !in st.configMaps)
    && (spec.serverConfigMap == "" ==> peer in st.configMaps && HoldsPeer(st.configMaps[peer], PeerContent(name, ns, spec.replicas)))
    && name in st.deployments
    && Overlay(st.deployments[name], DesiredOf(h, ns, name, spec, cfg), spec.autoscaling.Some?) == st.deployments[name]
    && KeepOthers(st.others, name, spec) == st.others
  }

  /** A reconcile of `name` is possible and would change no object. */
  ghost predicate Contented(st: Store, h: Digest, ns: string, name: string) {
    && Resolvable(st, name)
    && Kept(st, h, ns, name, st.clusters[name].spec, Resolve(st.clusters[name].spec, st.others.classes).config)
  }

  lemma KeptIsFixpoint(st: Store, h: Digest, ns: string, name: string, spec: ClusterSpec, cfg: Config)
    requires Kept(st, h, ns, name, spec, cfg)
    ensures KeepObjects(st, h, ns, name, spec, cfg) == st
  {
  }

  /** Rewriting a Deployment twice is rewriting it once, even if `desired` carries the
      operator's own hash key. */
  lemma OverlayIdempotent(d: Deployment, desired: Deployment, autoscaled: bool)
    ensures var once := Overlay(d, desired, autoscaled); Overlay(once, desired, autoscaled) == once
  {
  }

  lemma CreatedIsKept(desired: Deployment, autoscaled: bool, version: nat)
    ensures var d := desired.(version := version); Overlay(d, desired, autoscaled) == d
  {
  }

  /** Whether an overlay changes anything does not depend on the version number. */
  lemma OverlayVersionFree(d: Deployment, desired: Deployment, autoscaled: bool, version: nat)
    requires Overlay(d, desired, autoscaled) == d
    ensures Overlay(d.(version := version), desired, autoscaled) == d.(version := version)
  {
  }

  lemma DeploymentKept(st: Store, name: string, spec: ClusterSpec, cfg: Config, peerHash: string)
    ensures var st', desired := KeepDeployment(st, name, spec, cfg, peerHash), DesiredDeployment(name, spec, cfg, peerHash);
            name in st'.deployments && Overlay(st'.deployments[name], desired, spec.autoscaling.Some?) == st'.deployments[name]
  {
    var desired, auto := DesiredDeployment(name, spec, cfg, peerHash), spec.autoscaling.Some?;
    if name in st.deployments {
      var once := Overlay(st.deployments[name], desired, auto);
      OverlayIdempotent(st.deployments[name], desired, auto);
      OverlayVersionFree(once, desired, auto, st.clock + 1);
    } else {
      CreatedIsKept(desired, auto, st.clock + 1);
    }
  }

  lemma OthersKept(o: Others, name: string, spec: ClusterSpec)
    ensures KeepOthers(KeepOthers(o, name, spec), name, spec) == KeepOthers(o, name, spec)
  {
  }

  lemma KeepMakesKept(st: Store, h: Digest, ns: string, name: string, spec: ClusterSpec, cfg: Config)
    ensures Kept(KeepObjects(st, h, ns, name, spec, cfg), h, ns, name, spec, cfg)
  {
    var st1, peerHash := MapsKept(st, ns, name, spec), PeerHashOf(h, ns, name, spec);
    ConfigMapsAfter(st, ns, name, spec);
    DeploymentAfter(st1, name, spec, cfg, peerHash);
    DeploymentKept(st1, name, spec, cfg, peerHash);
    OthersKept(KeepDeployment(st1, name, spec, cfg, peerHash).others, name, spec);
  }

  // ---------- each controller respects the other's work ----------

  lemma HashKeepsOverlay(d: Deployment, desired: Deployment, autoscaled: bool, hash: string)
    requires Overlay(d, desired, autoscaled) == d && hash != ""
    ensures Overlay(WithHash(d, hash), desired, autoscaled) == WithHash(d, hash)
  {
  }

  /** A rebuild leaves everything the cluster controller wants in place. */
  lemma RebuildKeeps(st: Store, h: Digest, ns: string, name: string, spec: ClusterSpec, cfg: Config)
    requires Kept(st, h, ns, name, spec, cfg)
    ensures Kept(RebuildCluster(st, h, name, None, NO_FAULTS).store, h, ns, name, spec, cfg)
  {
    var st' := RebuildCluster(st, h, name, None, NO_FAULTS).store;
    var wanted := ContentOf(Active(st.pipelines, name, None));
    CrashConsistent(st, h, name, None, NO_FAULTS);
    PeerNamesDisjoint();
    assert ConfigMapName(name) != PeerConfigMapName(name);
    if st'.deployments != st.deployments {
      var d, desired, auto := st.deployments[name], DesiredOf(h, ns, name, spec, cfg), spec.autoscaling.Some?;
      HashKeepsOverlay(d, desired, auto, h(wanted.value));
      OverlayVersionFree(WithHash(d, h(wanted.value)), desired, auto, st'.deployments[name].version);
    }
  }

  lemma KeepTouchesObjectsOnly(st: Store, h: Digest, ns: string, name: string, spec: ClusterSpec, cfg: Config)
    ensures var st' := KeepObjects(st, h, ns, name, spec, cfg);
            && st'.pipelines == st.pipelines && st'.clusters == st.clusters
            && st'.others == KeepOthers(st.others, name, spec)
  {
    ConfigMapsAfter(st, ns, name, spec);
    DeploymentAfter(MapsKept(st, ns, name, spec), name, spec, cfg, PeerHashOf(h, ns, name, spec));
  }

  lemma DeploymentKeepsHash(st: Store, name: string, spec: ClusterSpec, cfg: Config, peerHash: string)
    requires name in st.deployments && Annotation(st.deployments[name]) != ""
    ensures var st' := KeepDeployment(st, name, spec, cfg, peerHash);
            name in st'.deployments && Annotation(st'.deployments[name]) == Annotation(st.deployments[name])
  {
  }

  /** A cluster reconcile leaves content and hash in place. */
  lemma ReconcileKeepsSync(st: Store, h: Digest, ns: string, name: string, spec: ClusterSpec, cfg: Config,
          content: Content)
    requires InSync(st, h, name, content)
    ensures InSync(KeepObjects(st, h, ns, name, spec, cfg), h, name, content)
  {
    var st1, peerHash := MapsKept(st, ns, name, spec), PeerHashOf(h, ns, name, spec);
    ConfigMapsAfter(st, ns, name, spec);
    DeploymentAfter(st1, name, spec, cfg, peerHash);
    DeploymentKeepsHash(st1, name, spec, cfg, peerHash);
  }

  // ---------- the joint fixpoint ----------

  datatype Controller = ClusterController | PipelineController

  ghost function Act(st: Store, h: Digest, ns: string, name: string, who: Controller): Store {
    match who
    case ClusterController => ReconcileObjects(st, h, ns, name).store
    case PipelineController => RebuildCluster(st, h, name, None, NO_FAULTS).store
  }

  ghost function ActAll(st: Store, h: Digest, ns: string, name: string, order: seq<Controller>): Store
    decreases order
  {
    if order == [] then st else ActAll(Act(st, h, ns, name, order[0]), h, ns, name, order[1..])
  }

  lemma ActTwice(st: Store, h: Digest, ns: string, name: string, first: Controller, second: Controller)
    ensures ActAll(st, h, ns, name, [first, second]) == Act(Act(st, h, ns, name, first), h, ns, name, second)
  {
    var mid := Act(st, h, ns, name, first);
    assert [first, second][1..] == [second];
    assert ActAll(st, h, ns, name, [first, second]) == ActAll(mid, h, ns, name, [second]);
    assert [second][1..] == [];
    assert ActAll(mid, h, ns, name, [second]) == ActAll(Act(mid, h, ns, name, second), h, ns, name, []);
  }

  /** Nothing is left to do for either controller. */
  ghost predicate Settled(st: Store, h: Digest, ns: string, name: string) {
    && Resolvable(st, name)
    && Kept(st, h, ns, name, st.clusters[name].spec, Resolve(st.clusters[name].spec, st.others.classes).config)
    && Mergeable(Active(st.pipelines, name, None))
    && InSync(st, h, name, ContentOf(Active(st.pipelines, name, None)).value)
  }

  /** A rebuild without faults of a provisioned cluster brings it in sync and changes no spec. */
  lemma RebuildSyncs(st: Store, h: Digest, name: string)
    requires Provisioned(st, name) && Mergeable(Active(st.pipelines, name, None))
    ensures var r := RebuildCluster(st, h, name, None, NO_FAULTS);
            && InSync(r.store, h, name, ContentOf(Active(st.pipelines, name, None)).value)
            && r.store.pipelines == st.pipelines && r.store.clusters == st.clusters && r.store.others == st.others
  {
    ApplyEffect(st, h, name, ContentOf(Active(st.pipelines, name, None)).value, NO_FAULTS);
  }

  /** One successful reconcile followed by one successful rebuild settles the cluster. */
  lemma ReconcileThenRebuild(st: Store, h: Digest, ns: string, name: string)
    requires Resolvable(st, name) && Mergeable(Active(st.pipelines, name, None))
    ensures Settled(ActAll(st, h, ns, name, [ClusterController, PipelineController]), h, ns, name)
  {
    var spec := st.clusters[name].spec;
    var cfg := Resolve(spec, st.others.classes).config;
    var st1 := KeepObjects(st, h, ns, name, spec, cfg);
    KeepMakesKept(st, h, ns, name, spec, cfg);
    KeepTouchesObjectsOnly(st, h, ns, name, spec, cfg);
    var st2 := RebuildCluster(st1, h, name, None, NO_FAULTS).store;
    RebuildKeeps(st1, h, ns, name, spec, cfg);
    RebuildSyncs(st1, h, name);
    assert Settled(st2, h, ns, name);
    ActTwice(st, h, ns, name, ClusterController, PipelineController);
  }

  /** So does a rebuild followed by a reconcile, if the rebuild could run. */
  lemma RebuildThenReconcile(st: Store, h: Digest, ns: string, name: string)
    requires Resolvable(st, name) && Provisioned(st, name) && Mergeable(Active(st.pipelines, name, None))
    ensures Settled(ActAll(st, h, ns, name, [PipelineController, ClusterController]), h, ns, name)
  {
    var spec := st.clusters[name].spec;
    var cfg := Resolve(spec, st.others.classes).config;
    var content := ContentOf(Active(st.pipelines, name, None)).value;
    RebuildSyncs(st, h, name);
    var st1 := RebuildCluster(st, h, name, None, NO_FAULTS).store;
    var st2 := KeepObjects(st1, h, ns, name, spec, cfg);
    ReconcileKeepsSync(st1, h, ns, name, spec, cfg, content);
    KeepTouchesObjectsOnly(st1, h, ns, name, spec, cfg);
    KeepMakesKept(st1, h, ns, name, spec, cfg);
    assert Settled(st2, h, ns, name);
    ActTwice(st, h, ns, name, PipelineController, ClusterController);
  }

  /** Joint fixpoint: once settled, any further sequence of cluster reconciles and rebuilds, in
      any order, leaves the whole store identical, version numbers and queue included. */
  lemma {:induction false} JointFixpoint(st: Store, h: Digest, ns: string, name: string, order: seq<Controller>)
    requires Settled(st, h, ns, name)
    ensures ActAll(st, h, ns, name, order) == st
    decreases order
  {
    if order != [] {
      var spec := st.clusters[name].spec;
      KeptIsFixpoint(st, h, ns, name, spec, Resolve(spec, st.others.classes).config);
      InSyncIsFixpoint(st, h, name, None, NO_FAULTS);
      assert Act(st, h, ns, name, order[0]) == st;
      JointFixpoint(st, h, ns, name, order[1..]);
    }
  }

  // ---------- two clusters ----------

  /** The Services a cluster writes. */
  function OwnServices(name: string): set<string> { {name, HeadlessName(name)} }

  /** Two clusters write different Services exactly when neither is called like the other's
      headless Service. */
  lemma ServicesDisjoint(a: string, b: string)
    requires a != b
    ensures OwnServices(a) !! OwnServices(b) <==> a != HeadlessName(b) && b != HeadlessName(a)
  {
    SuffixRoundTrip(a, HEADLESS_SUFFIX);
    SuffixRoundTrip(b, HEADLESS_SUFFIX);
    assert HeadlessName(a) != HeadlessName(b);
    if a == HeadlessName(b) {
      assert a in OwnServices(a) && a in OwnServices(b);
    }
    if b == HeadlessName(a) {
      assert b in OwnServices(a) && b in OwnServices(b);
    }
  }

  /** Both reconciles leave the store alone. */
  ghost predicate BothContent(st: Store, h: Digest, ns: string, a: string, b: string) {
    && Resolvable(st, a) && Resolvable(st, b)
    && ReconcileObjects(st, h, ns, a).store == st && ReconcileObjects(st, h, ns, b).store == st
  }

  /** When they do collide there is no such store: each reconcile keeps pointing the shared Service at
      its own pods. */
  lemma CollidingNeverContent(st: Store, h: Digest, ns: string, a: string)
    ensures !BothContent(st, h, ns, a, HeadlessName(a))
  {
    var b := HeadlessName(a);
    if Resolvable(st, a) && Resolvable(st, b) {
      var specA, specB := st.clusters[a].spec, st.clusters[b].spec;
      KeepTouchesObjectsOnly(st, h, ns, a, specA, Resolve(specA, st.others.classes).config);
      KeepTouchesObjectsOnly(st, h, ns, b, specB, Resolve(specB, st.others.classes).config);
      ServicesAfter(st.others, a, specA);
      ServicesAfter(st.others, b, specB);
      assert |b| > |a|;
      assert Selector(a)["app"] == a && Selector(b)["app"] == b;
    }
  }

  lemma ServicesApart(services: map<string, Service>, a: string, specA: ClusterSpec, b: string, specB: ClusterSpec)
    requires OwnServices(a) !! OwnServices(b)
    requires KeepHeadless(KeepService(services, a, specA), a) == services
    ensures var after := KeepHeadless(KeepService(services, b, specB), b);
            KeepHeadless(KeepService(after, a, specA), a) == after
  {
    var after := KeepHeadless(KeepService(services, b, specB), b);
    assert a in OwnServices(a) && HeadlessName(a) in OwnServices(a) && b in OwnServices(b) && HeadlessName(b) in OwnServices(b);
    ServiceContent(services, a, specA);
    assert a in after && after[a] == services[a];
    assert HeadlessName(a) in after && after[HeadlessName(a)] == services[HeadlessName(a)];
    assert KeepService(after, a, specA) == after;
  }

  /** A content pair of Services is in place and as wanted. */
  lemma ServiceContent(services: map<string, Service>, a: string, specA: ClusterSpec)
    requires KeepHeadless(KeepService(services, a, specA), a) == services
    ensures KeepService(services, a, specA) == services && KeepHeadless(services, a) == services
    ensures a in services && HeadlessName(a) in services
  {
    var first := KeepService(services, a, specA);
    assert |HeadlessName(a)| > |a|;
    assert a in first && first[a] == services[a];
    assert first[a].ports == ServicePorts(specA.extraPorts) && first[a].selector == Selector(a);
    assert first == services;
  }

  lemma OthersApart(o: Others, a: string, specA: ClusterSpec, b: string, specB: ClusterSpec)
    requires a != b && OwnServices(a) !! OwnServices(b) && KeepOthers(o, a, specA) == o
    ensures var after := KeepOthers(o, b, specB); KeepOthers(after, a, specA) == after
  {
    ServicesApart(o.services, a, specA, b, specB);
    AutoscalersApart(o.autoscalers, a, specA, b, specB);
  }

  lemma AutoscalersApart(m: map<string, Autoscaler>, a: string, specA: ClusterSpec, b: string, specB: ClusterSpec)
    requires a != b && KeepAutoscaler(m, a, specA) == m
    ensures var after := KeepAutoscaler(m, b, specB); KeepAutoscaler(after, a, specA) == after
  {
    var after := KeepAutoscaler(m, b, specB);
    if specA.autoscaling == None {
      assert a !in m && a !in after;
    } else {
      assert a in m && m[a] == DesiredAutoscaler(a, specA.autoscaling.value) && after[a] == m[a];
    }
  }

  /** A reconcile of `b` leaves the ConfigMaps and the Deployment of `a` alone. */
  lemma ObjectsApart(st: Store, h: Digest, ns: string, a: string, b: string, specB: ClusterSpec, cfgB: Config)
    requires a != b
    ensures var st' := KeepObjects(st, h, ns, b, specB, cfgB);
            && (forall n :: n == ConfigMapName(a) || n == PeerConfigMapName(a) ==>
                  (n in st'.configMaps <==> n in st.configMaps) && (n in st.configMaps ==> st'.configMaps[n] == st.configMaps[n]))
            && (a in st'.deployments <==> a in st.deployments)
            && (a in st.deployments ==> st'.deployments[a] == st.deployments[a])
  {
    ConfigMapNamesInjective();
    PeerNamesInjective();
    PeerNamesDisjoint();
    ConfigMapsAfter(st, ns, b, specB);
    OneDeployment(MapsKept(st, ns, b, specB), b, specB, cfgB, PeerHashOf(h, ns, b, specB), a);
  }

  lemma OneDeployment(st: Store, name: string, spec: ClusterSpec, cfg: Config, peerHash: string, other: string)
    requires other != name
    ensures var st' := KeepDeployment(st, name, spec, cfg, peerHash);
            && st'.configMaps == st.configMaps
            && (other in st'.deployments <==> other in st.deployments)
            && (other in st.deployments ==> st'.deployments[other] == st.deployments[other])
  {
  }

  lemma KeptApart(st: Store, h: Digest, ns: string, a: string, specA: ClusterSpec, cfgA: Config, b: string, specB: ClusterSpec,
          cfgB: Config)
    requires a != b && OwnServices(a) !! OwnServices(b) && Kept(st, h, ns, a, specA, cfgA)
    ensures Kept(KeepObjects(st, h, ns, b, specB, cfgB), h, ns, a, specA, cfgA)
  {
    ObjectsApart(st, h, ns, a, b, specB, cfgB);
    KeepTouchesObjectsOnly(st, h, ns, b, specB, cfgB);
    OthersApart(st.others, a, specA, b, specB);
  }

  /** One reconcile of each, in this order, contents both when their Services are disjoint. */
  lemma DisjointSettle(st: Store, h: Digest, ns: string, a: string, b: string)
    requires a != b && Resolvable(st, a) && Resolvable(st, b) && OwnServices(a) !! OwnServices(b)
    ensures var st1 := ReconcileObjects(st, h, ns, a).store;
            var st2 := ReconcileObjects(st1, h, ns, b).store;
            SameClusters(st, st2) && BothContent(st2, h, ns, a, b)
  {
    var specA, specB := st.clusters[a].spec, st.clusters[b].spec;
    var cfgA, cfgB := Resolve(specA, st.others.classes).config, Resolve(specB, st.others.classes).config;
    var st1 := KeepObjects(st, h, ns, a, specA, cfgA);
    var st2 := KeepObjects(st1, h, ns, b, specB, cfgB);
    KeepTouchesObjectsOnly(st, h, ns, a, specA, cfgA);
    KeepTouchesObjectsOnly(st1, h, ns, b, specB, cfgB);
    KeepMakesKept(st, h, ns, a, specA, cfgA);
    KeepMakesKept(st1, h, ns, b, specB, cfgB);
    KeptApart(st1, h, ns, a, specA, cfgA, b, specB, cfgB);
    KeptIsFixpoint(st2, h, ns, a, specA, cfgA);
    KeptIsFixpoint(st2, h, ns, b, specB, cfgB);
  }

  ghost predicate SameClusters(st: Store, st': Store) {
    st'.clusters == st.clusters && st'.others.classes == st.others.classes
  }

  /** Two clusters can be content together if and only if they write different Services, that is if and
      only if neither is called like the other's headless Service; and then reconciling one after the
      other is enough. */
  lemma CollidingClustersNeverSettle(st: Store, h: Digest, ns: string, a: string, b: string)
    requires a != b && Resolvable(st, a) && Resolvable(st, b)
    ensures (exists st' :: SameClusters(st, st') && BothContent(st', h, ns, a, b)) <==> a != HeadlessName(b) && b != HeadlessName(a)
    ensures a != HeadlessName(b) && b != HeadlessName(a) ==>
              BothContent(ReconcileObjects(ReconcileObjects(st, h, ns, a).store, h, ns, b).store, h, ns, a, b)
  {
    ServicesDisjoint(a, b);
    if a == HeadlessName(b) || b == HeadlessName(a) {
      forall st'
        ensures !BothContent(st', h, ns, a, b)
      {
        CollidingNeverContent(st', h, ns, if b == HeadlessName(a) then a else b);
      }
    } else {
      DisjointSettle(st, h, ns, a, b);
    }
  }
}
