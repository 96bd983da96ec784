/** Both controllers at work: pipeline visits write ConfigMaps and Deployments, which the cluster controller
    owns; cluster reconciles write ConfigMaps and statuses, which the pipeline controller watches.  With
    specs, pods and rollout figures left alone, the two come to rest. */
module BothControllers {
  import opened Objects
  import opened Names
  import opened Watch
  import opened Merge
  import opened Admission
  import opened PodHealth
  import opened Conditions
  import opened ApiStore
  import opened Rebuild
  import opened ClusterObjects
  import opened ClusterReconcile
  import opened ClusterProperties
  import opened Fixpoint
  import opened Protocol
  import opened Reconcile
  import opened Agreement
  import opened FinalizerSafety
  import opened Termination
  import opened Draining
  import opened LostDeployment
  import opened ClusterRefinement

  /** The rollout figures the Deployment of each cluster reports. */
  type Figures = string -> Rollout

  /** The store, with the pipeline controller's queue in it, and the cluster controller's queue. */
  datatype Joint = Joint(store: Store, due: set<string>)

  /** One visit to a pipeline, or one whole reconcile of a cluster. */
  datatype Job = Serve(name: string, now: nat) | Keep(cluster: string, now: nat)

  function At<V>(m: map<string, V>, key: string): Option<V> {
    if key in m then Some(m[key]) else None
  }

  /** Cluster `c` and the objects it owns are the same. */
  predicate SameOwned(st: Store, st': Store, c: string) {
    && At(st'.clusters, c) == At(st.clusters, c)
    && At(st'.configMaps, ConfigMapName(c)) == At(st.configMaps, ConfigMapName(c))
    && At(st'.configMaps, PeerConfigMapName(c)) == At(st.configMaps, PeerConfigMapName(c))
    && At(st'.deployments, c) == At(st.deployments, c)
    && At(st'.others.services, c) == At(st.others.services, c)
    && At(st'.others.services, HeadlessName(c)) == At(st.others.services, HeadlessName(c))
    && At(st'.others.autoscalers, c) == At(st.others.autoscalers, c)
  }

  /** The clusters whose events reach the cluster controller. */
  function Events(st: Store, st': Store): set<string> {
    set c | c in st.clusters && !SameOwned(st, st', c)
  }

  /** The store becomes `st'`, after which the clusters in `done` are looked at again only if an event says so. */
  function Become(j: Joint, st': Store, done: set<string>): Joint {
    Joint(st', (j.due - done) + Events(j.store, st'))
  }

  ghost function Do(j: Joint, h: Digest, ns: string, f: Figures, job: Job): Joint {
    match job
    case Serve(n, now) => Become(j, Process(j.store, h, n, now), {})
    case Keep(c, now) => Become(j, WholeReconcile(j.store, h, ns, c, Sighting(f(c), now)), {c})
  }

  /** Every job takes a name from the queue it belongs to. */
  ghost predicate Jobs(j: Joint, h: Digest, ns: string, f: Figures, jobs: seq<Job>)
    decreases jobs
  {
    jobs != [] ==> Waiting(j, jobs[0]) && Jobs(Do(j, h, ns, f, jobs[0]), h, ns, f, jobs[1..])
  }

  predicate Waiting(j: Joint, job: Job) {
    match job
    case Serve(n, _) => n in j.store.queue
    case Keep(c, _) => c in j.due
  }

  ghost function DoAll(j: Joint, h: Digest, ns: string, f: Figures, jobs: seq<Job>): Joint
    decreases jobs
  {
    if jobs == [] then j else DoAll(Do(j, h, ns, f, jobs[0]), h, ns, f, jobs[1..])
  }

  /** The number of jobs that changed anything. */
  ghost function Steps(j: Joint, h: Digest, ns: string, f: Figures, jobs: seq<Job>): nat
    decreases jobs
  {
    if jobs == [] then 0
    else
      var next := Do(j, h, ns, f, jobs[0]);
      (if next == j then 0 else 1) + Steps(next, h, ns, f, jobs[1..])
  }

  // ---------- what is left to do ----------

  /** Clusters resolve and write different Services. */
  ghost predicate Compatible(st: Store) {
    && (forall c :: c in st.clusters ==> Resolvable(st, c))
    && (forall a, b :: a in st.clusters && b in st.clusters && a != b ==> OwnServices(a) !! OwnServices(b))
  }

  /** And pipelines are in order. */
  ghost predicate Harmony(st: Store) {
    Tidy(st.pipelines) && Compatible(st)
  }

  ghost function Unkept(st: Store, h: Digest, ns: string): set<string> {
    set c | c in st.clusters && !Contented(st, h, ns, c)
  }

  ghost predicate ClusterStale(st: Store, f: Figures, c: string) {
    c in st.clusters && NextClusterStatus(st.clusters[c], f(c), |Active(st.pipelines, c, None)|, 0) != st.clusters[c].status
  }

  ghost function StaleClusters(st: Store, f: Figures): set<string> {
    set c | c in st.clusters && ClusterStale(st, f, c)
  }

  /** A cluster whose objects are not in place weighs three: putting them in place may call for a ConfigMap and
      an annotation. */
  ghost function JointDebt(st: Store, h: Digest, ns: string, f: Figures): nat {
    Debt(st, h) + 3 * |Unkept(st, h, ns)| + |StaleClusters(st, f)|
  }

  // ---------- a visit to a pipeline ----------

  /** Whether the objects of a cluster are in place depends on these fields alone. */
  lemma KeptByObjects(st: Store, st': Store, h: Digest, ns: string, c: string, spec: ClusterSpec, cfg: Config)
    requires Kept(st, h, ns, c, spec, cfg)
    requires st'.configMaps == st.configMaps && st'.deployments == st.deployments && st'.others == st.others
    ensures Kept(st', h, ns, c, spec, cfg)
  {
  }

  /** A rebuild of `e` leaves the objects of every other cluster alone, */
  lemma RebuildElsewhereKeeps(st: Store, st': Store, h: Digest, ns: string, e: string, c: string, spec: ClusterSpec, cfg: Config)
    requires Kept(st, h, ns, c, spec, cfg) && TouchesOnly(st, st', e) && c != e
    ensures Kept(st', h, ns, c, spec, cfg)
  {
    ConfigMapNamesInjective();
    PeerNamesDisjoint();
    assert ConfigMapName(c) != ConfigMapName(e) && PeerConfigMapName(c) != ConfigMapName(e);
  }

  /** and its own in place. */
  lemma RebuildKeepsAll(st: Store, h: Digest, ns: string, e: string, c: string, spec: ClusterSpec, cfg: Config)
    requires Kept(st, h, ns, c, spec, cfg)
    ensures Kept(RebuildCluster(st, h, e, None, NO_FAULTS).store, h, ns, c, spec, cfg)
  {
    if c == e {
      RebuildKeeps(st, h, ns, c, spec, cfg);
    } else {
      CrashConsistent(st, h, e, None, NO_FAULTS);
      RebuildElsewhereKeeps(st, RebuildCluster(st, h, e, None, NO_FAULTS).store, h, ns, e, c, spec, cfg);
    }
  }

  /** The store whose objects a visit leaves behind. */
  ghost function RebuiltStore(st: Store, h: Digest, k: string): Store
    requires k in st.pipelines
  {
    RebuildCluster(Unqueue(st, k), h, st.pipelines[k].spec.clusterRef, None, NO_FAULTS).store
  }

  ghost predicate ObjectsOf(st: Store, st': Store) {
    st'.configMaps == st.configMaps && st'.deployments == st.deployments && st'.others == st.others
  }

  lemma StatusObjects(st: Store, k: string, p: Pipeline, phase: Phase, health: Health, now: nat)
    ensures ObjectsOf(st, WriteStatus(st, k, p, phase, health, NO_FAULTS, now).store)
  {
  }

  lemma ApplyObjects(st: Store, h: Digest, k: string, p: Pipeline, now: nat)
    ensures var end := Apply(st, h, k, p, NO_FAULTS, now).store;
            ObjectsOf(st, end) || ObjectsOf(RebuildCluster(st, h, p.spec.clusterRef, None, NO_FAULTS).store, end)
  {
    var mid := RebuildCluster(st, h, p.spec.clusterRef, None, NO_FAULTS).store;
    StatusObjects(st, k, p, Pending, UNKNOWN, now);
    StatusObjects(mid, k, p, Applied, Scan(mid, p.spec.clusterRef, NO_FAULTS), now);
  }

  lemma FinalizeObjects(st: Store, h: Digest, k: string)
    requires k in st.pipelines && st.pipelines[k].deleting
    ensures ObjectsOf(RebuildCluster(st, h, st.pipelines[k].spec.clusterRef, None, NO_FAULTS).store,
                      Finalize(st, h, k, st.pipelines[k], NO_FAULTS).store)
  {
    ExcludingDeletedIsIdle(st.pipelines, st.pipelines[k].spec.clusterRef, k);
  }

  /** One attempt at any pipeline: its objects are as before or as a rebuild leaves them. */
  lemma AttemptObjects(st: Store, h: Digest, k: string, now: nat)
    ensures var end := ReconcilePipeline(st, h, k, NO_FAULTS, now).store;
            || ObjectsOf(st, end)
            || (k in st.pipelines && ObjectsOf(RebuildCluster(st, h, st.pipelines[k].spec.clusterRef, None, NO_FAULTS).store, end))
  {
    if k in st.pipelines {
      if st.pipelines[k].deleting {
        FinalizeObjects(st, h, k);
      } else if st.pipelines[k].finalizer {
        ApplyObjects(st, h, k, st.pipelines[k], now);
      }
    }
  }

  lemma VisitObjects(st: Store, h: Digest, k: string, now: nat)
    ensures ObjectsOf(st, Process(st, h, k, now)) || (k in st.pipelines && ObjectsOf(RebuiltStore(st, h, k), Process(st, h, k, now)))
  {
    AttemptObjects(Unqueue(st, k), h, k, now);
  }

  lemma VisitKeepsKept(st: Store, h: Digest, ns: string, k: string, now: nat, c: string, spec: ClusterSpec, cfg: Config)
    requires Kept(st, h, ns, c, spec, cfg)
    ensures Kept(Process(st, h, k, now), h, ns, c, spec, cfg)
  {
    var st' := Process(st, h, k, now);
    VisitObjects(st, h, k, now);
    if ObjectsOf(st, st') {
      KeptByObjects(st, st', h, ns, c, spec, cfg);
    } else {
      KeptByObjects(st, Unqueue(st, k), h, ns, c, spec, cfg);
      RebuildKeepsAll(Unqueue(st, k), h, ns, st.pipelines[k].spec.clusterRef, c, spec, cfg);
      KeptByObjects(RebuiltStore(st, h, k), st', h, ns, c, spec, cfg);
    }
  }

  lemma VisitKeepsOthers(st: Store, h: Digest, k: string, now: nat)
    ensures Process(st, h, k, now).others == st.others
  {
    VisitObjects(st, h, k, now);
    if k in st.pipelines {
      CrashConsistent(Unqueue(st, k), h, st.pipelines[k].spec.clusterRef, None, NO_FAULTS);
    }
  }

  /** Clusters and pods are as before, and no documents changed. */
  ghost predicate SameWorld(st: Store, st': Store) {
    && st'.clusters == st.clusters && st'.others == st.others && Tidy(st'.pipelines)
    && forall c :: Active(st'.pipelines, c, None) == Active(st.pipelines, c, None)
  }

  lemma VisitKeepsWorld(st: Store, h: Digest, k: string, now: nat)
    requires Tidy(st.pipelines)
    ensures SameWorld(st, Process(st, h, k, now))
  {
    var st' := Process(st, h, k, now);
    VisitKeepsOthers(st, h, k, now);
    VisitServes(st, h, k, now);
    RewriteKeepsTidy(st.pipelines, st'.pipelines, k);
    forall c {
      RewriteKeepsDocument(st.pipelines, st'.pipelines, k, c);
    }
  }

  lemma WorldKeepsHarmony(st: Store, st': Store, f: Figures)
    requires Harmony(st) && SameWorld(st, st')
    ensures Harmony(st') && StaleClusters(st', f) == StaleClusters(st, f)
  {
    assert forall c :: c in st.clusters ==> Resolvable(st', c) == Resolvable(st, c);
    assert forall c :: ClusterStale(st', f, c) <==> ClusterStale(st, f, c);
  }

  lemma VisitKeepsContented(st: Store, h: Digest, ns: string, k: string, now: nat, c: string)
    requires Contented(st, h, ns, c) && SameWorld(st, Process(st, h, k, now))
    ensures Contented(Process(st, h, k, now), h, ns, c)
  {
    VisitKeepsKept(st, h, ns, k, now, c, st.clusters[c].spec, ClusterObjects.Resolve(st.clusters[c].spec, st.others.classes).config);
  }

  /** A visit: no cluster gets worse, and the joint debt follows the debt. */
  lemma VisitJoint(st: Store, h: Digest, ns: string, f: Figures, k: string, now: nat)
    requires Harmony(st)
    ensures var st' := Process(st, h, k, now);
            && Harmony(st') && Unkept(st', h, ns) <= Unkept(st, h, ns) && StaleClusters(st', f) == StaleClusters(st, f)
            && JointDebt(st', h, ns, f) + Debt(st, h) <= JointDebt(st, h, ns, f) + Debt(st', h)
  {
    var st' := Process(st, h, k, now);
    VisitKeepsWorld(st, h, k, now);
    WorldKeepsHarmony(st, st', f);
    forall c | c in st.clusters && Contented(st, h, ns, c) {
      VisitKeepsContented(st, h, ns, k, now, c);
    }
    SubsetSize(Unkept(st', h, ns), Unkept(st, h, ns));
  }

  // ---------- a reconcile of a cluster: its objects ----------

  ghost function KeptStore(st: Store, h: Digest, ns: string, c: string): Store
    requires Resolvable(st, c)
  {
    ReconcileObjects(st, h, ns, c).store
  }

  lemma KeepWorld(st: Store, h: Digest, ns: string, c: string)
    requires Resolvable(st, c)
    ensures var st' := KeptStore(st, h, ns, c);
            && st'.clusters == st.clusters && st'.pipelines == st.pipelines
            && st'.others == KeepOthers(st.others, c, st.clusters[c].spec) && Contented(st', h, ns, c)
            && (Contented(st, h, ns, c) ==> st' == st)
  {
    var spec := st.clusters[c].spec;
    var cfg := ClusterObjects.Resolve(spec, st.others.classes).config;
    KeepTouchesObjectsOnly(st, h, ns, c, spec, cfg);
    KeepMakesKept(st, h, ns, c, spec, cfg);
    if Contented(st, h, ns, c) {
      KeptIsFixpoint(st, h, ns, c, spec, cfg);
    }
  }

  lemma KeepKeepsContented(st: Store, h: Digest, ns: string, c: string, d: string)
    requires Resolvable(st, c) && d != c && OwnServices(d) !! OwnServices(c) && Contented(st, h, ns, d)
    ensures Contented(KeptStore(st, h, ns, c), h, ns, d)
  {
    var specC, specD := st.clusters[c].spec, st.clusters[d].spec;
    KeepWorld(st, h, ns, c);
    KeptApart(st, h, ns, d, specD, ClusterObjects.Resolve(specD, st.others.classes).config,
              c, specC, ClusterObjects.Resolve(specC, st.others.classes).config);
  }

  /** Every other cluster's ConfigMap and Deployment are as before. */
  lemma KeepElsewhere(st: Store, h: Digest, ns: string, c: string, d: string)
    requires Resolvable(st, c) && d != c
    ensures var st' := KeptStore(st, h, ns, c);
            && (ConfigStale(st', d) <==> ConfigStale(st, d)) && (HashStale(st', h, d) <==> HashStale(st, h, d))
  {
    var spec := st.clusters[c].spec;
    KeepWorld(st, h, ns, c);
    ObjectsApart(st, h, ns, d, c, spec, ClusterObjects.Resolve(spec, st.others.classes).config);
  }

  /** What pipelines owe is as before. */
  lemma KeepPipelineDebts(st: Store, st': Store)
    requires st'.clusters == st.clusters && st'.pipelines == st.pipelines && st'.others.pods == st.others.pods
    ensures Unattached(st') == Unattached(st) && Doomed(st') == Doomed(st)
    ensures Referenced(st') == Referenced(st) && StaleStatuses(st') == StaleStatuses(st)
  {
    assert forall n :: StatusStale(st', n) <==> StatusStale(st, n);
  }

  lemma PlusOne(a: set<string>, b: set<string>, c: string)
    requires a <= b + {c}
    ensures |a| <= |b| + 1
  {
    SubsetSize(a, b + {c});
  }

  /** Putting the objects of one cluster in place adds at most a stale ConfigMap and a stale hash. */
  lemma KeepDebt(st: Store, h: Digest, ns: string, c: string)
    requires Resolvable(st, c)
    ensures Debt(KeptStore(st, h, ns, c), h) <= Debt(st, h) + 2
  {
    var st' := KeptStore(st, h, ns, c);
    KeepWorld(st, h, ns, c);
    KeepPipelineDebts(st, st');
    forall d | d != c {
      KeepElsewhere(st, h, ns, c, d);
    }
    PlusOne(StaleConfigs(st'), StaleConfigs(st), c);
    PlusOne(StaleHashes(st', h), StaleHashes(st, h), c);
  }

  lemma ObjectsHarmony(st: Store, st': Store, f: Figures)
    requires Harmony(st) && st'.clusters == st.clusters && st'.pipelines == st.pipelines
    requires st'.others.classes == st.others.classes
    ensures Harmony(st') && StaleClusters(st', f) == StaleClusters(st, f)
  {
    assert forall c :: c in st.clusters ==> Resolvable(st', c) == Resolvable(st, c);
    assert forall c :: ClusterStale(st', f, c) <==> ClusterStale(st, f, c);
  }

  /** The objects step pays whenever it does anything. */
  lemma KeepPays(st: Store, h: Digest, ns: string, f: Figures, c: string)
    requires Harmony(st) && c in st.clusters
    ensures var st' := KeptStore(st, h, ns, c);
            && Harmony(st') && Contented(st', h, ns, c)
            && (forall d :: d in st.clusters && Contented(st, h, ns, d) ==> Contented(st', h, ns, d))
            && (st' == st || JointDebt(st', h, ns, f) < JointDebt(st, h, ns, f))
  {
    var st' := KeptStore(st, h, ns, c);
    KeepWorld(st, h, ns, c);
    ObjectsHarmony(st, st', f);
    forall d | d in st.clusters && d != c && Contented(st, h, ns, d) {
      KeepKeepsContented(st, h, ns, c, d);
    }
    if !Contented(st, h, ns, c) {
      KeepDebt(st, h, ns, c);
      assert Unkept(st', h, ns) <= Unkept(st, h, ns) && c in Unkept(st, h, ns) && c !in Unkept(st', h, ns);
      SubsetSize(Unkept(st', h, ns), Unkept(st, h, ns));
    }
  }

  // ---------- a reconcile of a cluster: its status ----------

  lemma StatusOnlyDebt(st: Store, st': Store, h: Digest, c: string)
    requires StatusOnly(st, st', c)
    ensures Debt(st', h) == Debt(st, h)
  {
    assert forall n :: StatusStale(st', n) <==> StatusStale(st, n);
    assert StaleStatuses(st') == StaleStatuses(st);
    assert Unattached(st') == Unattached(st) && Doomed(st') == Doomed(st) && Referenced(st') == Referenced(st);
    assert forall d :: ConfigStale(st', d) == ConfigStale(st, d) && HashStale(st', h, d) == HashStale(st, h, d);
    assert StaleConfigs(st') == StaleConfigs(st) && StaleHashes(st', h) == StaleHashes(st, h);
  }

  lemma StatusOnlyHarmony(st: Store, st': Store, h: Digest, ns: string, c: string)
    requires StatusOnly(st, st', c) && Harmony(st)
    ensures Harmony(st') && Unkept(st', h, ns) == Unkept(st, h, ns)
    ensures forall d :: d in st.clusters ==> (Contented(st', h, ns, d) <==> Contented(st, h, ns, d))
  {
    forall d | d in st.clusters
      ensures Resolvable(st', d) && (Contented(st', h, ns, d) <==> Contented(st, h, ns, d))
    {
      assert Resolvable(st, d);
      assert st'.clusters[d].spec == st.clusters[d].spec;
    }
  }

  /** Whether a status is due does not depend on the time of day, and writing it settles it. */
  lemma StatusSettled(cluster: Cluster, r: Rollout, pipelines: int, now: nat)
    ensures NextClusterStatus(cluster, r, pipelines, now) == cluster.status <==>
            NextClusterStatus(cluster, r, pipelines, 0) == cluster.status
    ensures var next := cluster.(status := NextClusterStatus(cluster, r, pipelines, now));
            NextClusterStatus(next, r, pipelines, 0) == next.status
  {
    ClusterStatusSettles(cluster, r, pipelines, now, 0);
    ClusterStatusSettles(cluster, r, pipelines, 0, now);
    assert cluster.(status := cluster.status) == cluster;
  }

  lemma StatusStaleness(st: Store, f: Figures, c: string, now: nat)
    requires c in st.clusters
    ensures var st' := KeepStatus(st, c, f(c), now);
            && StatusOnly(st, st', c) && !ClusterStale(st', f, c)
            && (forall d :: d != c ==> (ClusterStale(st', f, d) <==> ClusterStale(st, f, d)))
            && (st' == st || ClusterStale(st, f, c))
  {
    StatusWrite(st, c, f(c), now);
    StatusSettled(st.clusters[c], f(c), |Active(st.pipelines, c, None)|, now);
  }

  /** The status step pays whenever it does anything. */
  lemma StatusPaysJoint(st: Store, h: Digest, ns: string, f: Figures, c: string, now: nat)
    requires Harmony(st) && c in st.clusters
    ensures var st' := KeepStatus(st, c, f(c), now);
            && Harmony(st') && StatusOnly(st, st', c)
            && (st' == st || JointDebt(st', h, ns, f) < JointDebt(st, h, ns, f))
  {
    var st' := KeepStatus(st, c, f(c), now);
    StatusStaleness(st, f, c, now);
    StatusOnlyHarmony(st, st', h, ns, c);
    StatusOnlyDebt(st, st', h, c);
    if st' != st {
      assert StaleClusters(st', f) <= StaleClusters(st, f) && c in StaleClusters(st, f) && c !in StaleClusters(st', f);
      SubsetSize(StaleClusters(st', f), StaleClusters(st, f));
    }
  }

  // ---------- one job ----------

  /** Everything the cluster controller has yet to notice is in its queue. */
  ghost predicate Noticed(j: Joint, h: Digest, ns: string, f: Figures) {
    NoticedBut(j.store, h, ns, f, j.due)
  }

  ghost predicate NoticedBut(st: Store, h: Digest, ns: string, f: Figures, due: set<string>) {
    forall c :: c in st.clusters && c !in due ==> Contented(st, h, ns, c) && !ClusterStale(st, f, c)
  }

  lemma MoreDue(st: Store, h: Digest, ns: string, f: Figures, due: set<string>, more: set<string>)
    requires NoticedBut(st, h, ns, f, due)
    ensures NoticedBut(st, h, ns, f, due + more)
  {
  }

  /** What a whole reconcile of an existing cluster achieves. */
  lemma ReconcileAchieves(st: Store, h: Digest, ns: string, f: Figures, c: string, now: nat)
    requires Harmony(st) && c in st.clusters
    ensures var st' := WholeReconcile(st, h, ns, c, Sighting(f(c), now));
            && Harmony(st') && st'.clusters.Keys == st.clusters.Keys
            && Contented(st', h, ns, c) && !ClusterStale(st', f, c)
            && (st' == st || JointDebt(st', h, ns, f) < JointDebt(st, h, ns, f))
  {
    var mid := KeptStore(st, h, ns, c);
    KeepWorld(st, h, ns, c);
    KeepPays(st, h, ns, f, c);
    StatusAchieves(mid, h, ns, f, c, now);
  }

  lemma StatusAchieves(st: Store, h: Digest, ns: string, f: Figures, c: string, now: nat)
    requires Harmony(st) && c in st.clusters && Contented(st, h, ns, c)
    ensures var st' := KeepStatus(st, c, f(c), now);
            && Harmony(st') && st'.clusters.Keys == st.clusters.Keys
            && Contented(st', h, ns, c) && !ClusterStale(st', f, c)
            && (st' == st || JointDebt(st', h, ns, f) < JointDebt(st, h, ns, f))
  {
    StatusPaysJoint(st, h, ns, f, c, now);
    StatusStaleness(st, f, c, now);
    StatusOnlyContented(st, KeepStatus(st, c, f(c), now), h, ns, c);
  }

  /** And what it leaves alone for any other cluster. */
  lemma ReconcileSpares(st: Store, h: Digest, ns: string, f: Figures, c: string, now: nat, d: string)
    requires Harmony(st) && c in st.clusters && d in st.clusters && d != c
    ensures var st' := WholeReconcile(st, h, ns, c, Sighting(f(c), now));
            && (Contented(st, h, ns, d) ==> Contented(st', h, ns, d))
            && (ClusterStale(st', f, d) <==> ClusterStale(st, f, d))
  {
    var mid := KeptStore(st, h, ns, c);
    KeepWorld(st, h, ns, c);
    KeepPays(st, h, ns, f, c);
    assert ClusterStale(mid, f, d) <==> ClusterStale(st, f, d);
    StatusStaleness(mid, f, c, now);
    StatusOnlyHarmony(mid, KeepStatus(mid, c, f(c), now), h, ns, c);
  }

  lemma ConfigTargetsKnown(st: Store, ns: string, c: string, spec: ClusterSpec)
    ensures MapsKept(st, ns, c, spec).queue <= st.queue + st.pipelines.Keys
  {
    PeerKeepsQueue(KeepConfigMap(st, c), ns, c, spec);
  }

  lemma ReconcileKnown(st: Store, h: Digest, ns: string, f: Figures, c: string, now: nat)
    requires Resolvable(st, c)
    ensures KnownNames(st, WholeReconcile(st, h, ns, c, Sighting(f(c), now)))
  {
    ConfigTargetsKnown(st, ns, c, st.clusters[c].spec);
    KeepWorld(st, h, ns, c);
    KeepQueue(st, h, ns, c);
    StatusWrite(KeptStore(st, h, ns, c), c, f(c), now);
  }

  lemma KeepQueue(st: Store, h: Digest, ns: string, c: string)
    requires Resolvable(st, c)
    ensures KeptStore(st, h, ns, c).queue == MapsKept(st, ns, c, st.clusters[c].spec).queue
  {
  }

  /** A change of the pipeline controller's queue is no event for the cluster controller. */
  lemma QuietBecoming(j: Joint, st': Store, done: set<string>)
    requires st' == j.store.(queue := st'.queue)
    ensures Become(j, st', done) == Joint(st', j.due - done)
  {
    assert Events(j.store, st') == {};
  }

  // ---------- fuel ----------

  function Places(j: Joint): nat { |Everyone(j.store)| + |j.store.clusters.Keys + j.due| }

  ghost function JointFuel(j: Joint, h: Digest, ns: string, f: Figures): nat {
    Weigh(JointDebt(j.store, h, ns, f), Places(j), |j.store.queue| + |j.due|)
  }

  /** No new names and no new clusters. */
  predicate NothingNew(j: Joint, j': Joint) {
    && KnownNames(j.store, j'.store) && j'.store.clusters.Keys == j.store.clusters.Keys
    && j'.due <= j.due + j.store.clusters.Keys
  }

  lemma PlacesShrink(j: Joint, j': Joint)
    requires NothingNew(j, j')
    ensures Places(j') <= Places(j) && |j'.store.queue| + |j'.due| <= Places(j')
  {
    NamesShrink(j.store, j'.store);
    SubsetSize(j'.store.clusters.Keys + j'.due, j.store.clusters.Keys + j.due);
    SubsetSize(j'.due, j'.store.clusters.Keys + j'.due);
  }

  lemma FuelBurns(j: Joint, j': Joint, h: Digest, ns: string, f: Figures)
    requires NothingNew(j, j')
    requires var d, d' := JointDebt(j.store, h, ns, f), JointDebt(j'.store, h, ns, f);
             d' < d || (d' == d && |j'.store.queue| + |j'.due| < |j.store.queue| + |j.due|)
    ensures JointFuel(j', h, ns, f) < JointFuel(j, h, ns, f)
  {
    PlacesShrink(j, j');
    LexDrop(JointDebt(j.store, h, ns, f), JointDebt(j'.store, h, ns, f), Places(j), Places(j'),
            |j.store.queue| + |j.due|, |j'.store.queue| + |j'.due|);
  }

  /** Only the queue differs. */
  lemma QueueIsFreeJoint(st: Store, queue: set<string>, h: Digest, ns: string, f: Figures)
    ensures JointDebt(st.(queue := queue), h, ns, f) == JointDebt(st, h, ns, f)
  {
    QueueIsFree(st, queue, h);
    QueueKeepsContent(st, queue, h, ns);
    QueueKeepsStatuses(st, queue, f);
  }

  lemma QueueKeepsContent(st: Store, queue: set<string>, h: Digest, ns: string)
    ensures Unkept(st.(queue := queue), h, ns) == Unkept(st, h, ns)
  {
    var st' := st.(queue := queue);
    assert forall c :: Contented(st', h, ns, c) <==> Contented(st, h, ns, c);
  }

  lemma QueueKeepsStatuses(st: Store, queue: set<string>, f: Figures)
    ensures StaleClusters(st.(queue := queue), f) == StaleClusters(st, f)
  {
    var st' := st.(queue := queue);
    assert forall c :: ClusterStale(st', f, c) <==> ClusterStale(st, f, c);
  }

  /** What every job keeps. */
  ghost predicate Together(j: Joint, j': Joint, h: Digest, ns: string, f: Figures) {
    && Harmony(j'.store) && NothingNew(j, j')
    && (Noticed(j, h, ns, f) ==> Noticed(j', h, ns, f))
    && (LiveProvisioned(j.store) ==> LiveProvisioned(j'.store))
  }

  lemma ServeNoticed(j: Joint, h: Digest, ns: string, f: Figures, n: string, now: nat)
    requires Harmony(j.store) && Noticed(j, h, ns, f)
    ensures Noticed(Do(j, h, ns, f, Serve(n, now)), h, ns, f)
  {
    var st' := Process(j.store, h, n, now);
    VisitKeepsWorld(j.store, h, n, now);
    forall c | c in st'.clusters && c !in j.due
      ensures Contented(st', h, ns, c) && !ClusterStale(st', f, c)
    {
      VisitKeepsContented(j.store, h, ns, n, now, c);
      assert !ClusterStale(j.store, f, c);
    }
    assert j.due - {} == j.due;
    MoreDue(st', h, ns, f, j.due, Events(j.store, st'));
  }

  lemma ServeKeeps(j: Joint, h: Digest, ns: string, f: Figures, n: string, now: nat)
    requires Harmony(j.store)
    ensures Together(j, Do(j, h, ns, f, Serve(n, now)), h, ns, f)
  {
    ProcessPays(j.store, h, n, now);
    VisitJoint(j.store, h, ns, f, n, now);
    VisitKeepsWorld(j.store, h, n, now);
    BecomesKnown(j, Process(j.store, h, n, now), {});
    if Noticed(j, h, ns, f) {
      ServeNoticed(j, h, ns, f, n, now);
    }
  }

  /** A visit burns fuel, unless the pipeline is stalled and nothing changes at all. */
  lemma ServeBurns(j: Joint, h: Digest, ns: string, f: Figures, n: string, now: nat)
    requires Harmony(j.store) && n in j.store.queue
    ensures var j' := Do(j, h, ns, f, Serve(n, now));
            JointFuel(j', h, ns, f) < JointFuel(j, h, ns, f) || (j' == j && Stalled(j.store, n))
  {
    var st' := Process(j.store, h, n, now);
    ProcessPays(j.store, h, n, now);
    VisitJoint(j.store, h, ns, f, n, now);
    ServeKeeps(j, h, ns, f, n, now);
    VisitBurns(j, st', h, ns, f, n);
  }

  /** The same, from what a visit achieves. */
  lemma VisitBurns(j: Joint, st': Store, h: Digest, ns: string, f: Figures, n: string)
    requires n in j.store.queue && Achieves(j.store, st', h, n) && NothingNew(j, Become(j, st', {}))
    requires JointDebt(st', h, ns, f) + Debt(j.store, h) <= JointDebt(j.store, h, ns, f) + Debt(st', h)
    ensures var j' := Become(j, st', {});
            JointFuel(j', h, ns, f) < JointFuel(j, h, ns, f) || (j' == j && Stalled(j.store, n))
  {
    if Debt(st', h) < Debt(j.store, h) {
      FuelBurns(j, Become(j, st', {}), h, ns, f);
    } else {
      Requeue(j.store, n);
      QuietBecoming(j, st', {});
      assert j.due - {} == j.due;
      if st' == Unqueue(j.store, n) {
        UnqueueBurns(j, h, ns, f, n);
      }
    }
  }

  lemma Requeue(st: Store, n: string)
    requires n in st.queue
    ensures Enqueue(st, {n}) == st
  {
    assert st.queue + {n} == st.queue;
  }

  lemma UnqueueBurns(j: Joint, h: Digest, ns: string, f: Figures, n: string)
    requires n in j.store.queue
    ensures JointFuel(Joint(Unqueue(j.store, n), j.due), h, ns, f) < JointFuel(j, h, ns, f)
  {
    var st' := Unqueue(j.store, n);
    QueueIsFreeJoint(j.store, st'.queue, h, ns, f);
    assert n !in st'.queue;
    SubsetSize(st'.queue, j.store.queue);
    FuelBurns(j, Joint(st', j.due), h, ns, f);
  }

  lemma KeepProvisioned(st: Store, h: Digest, ns: string, c: string, d: string)
    requires Resolvable(st, c) && Provisioned(st, d)
    ensures Provisioned(KeptStore(st, h, ns, c), d)
  {
    KeepWorld(st, h, ns, c);
    if d != c {
      ObjectsApart(st, h, ns, d, c, st.clusters[c].spec, ClusterObjects.Resolve(st.clusters[c].spec, st.others.classes).config);
    }
  }

  lemma ReconcileProvisioned(st: Store, h: Digest, ns: string, f: Figures, c: string, now: nat)
    requires Resolvable(st, c) && LiveProvisioned(st)
    ensures LiveProvisioned(WholeReconcile(st, h, ns, c, Sighting(f(c), now)))
  {
    KeepWorld(st, h, ns, c);
    forall d | Provisioned(st, d) {
      KeepProvisioned(st, h, ns, c, d);
    }
    StatusWrite(KeptStore(st, h, ns, c), c, f(c), now);
  }

  lemma KeepNoticed(j: Joint, h: Digest, ns: string, f: Figures, c: string, now: nat)
    requires Harmony(j.store) && Noticed(j, h, ns, f) && c in j.store.clusters
    ensures Noticed(Do(j, h, ns, f, Keep(c, now)), h, ns, f)
  {
    var st' := WholeReconcile(j.store, h, ns, c, Sighting(f(c), now));
    ReconcileNotices(j, h, ns, f, c, now);
    MoreDue(st', h, ns, f, j.due - {c}, Events(j.store, st'));
  }

  lemma ReconcileNotices(j: Joint, h: Digest, ns: string, f: Figures, c: string, now: nat)
    requires Harmony(j.store) && Noticed(j, h, ns, f) && c in j.store.clusters
    ensures NoticedBut(WholeReconcile(j.store, h, ns, c, Sighting(f(c), now)), h, ns, f, j.due - {c})
  {
    ReconcileAchieves(j.store, h, ns, f, c, now);
    forall d | d in j.store.clusters && d !in j.due - {c} {
      KeepNoticedAt(j, h, ns, f, c, now, d);
    }
  }

  lemma KeepNoticedAt(j: Joint, h: Digest, ns: string, f: Figures, c: string, now: nat, d: string)
    requires Harmony(j.store) && Noticed(j, h, ns, f) && c in j.store.clusters
    requires d in j.store.clusters && d !in j.due - {c}
    ensures var st' := WholeReconcile(j.store, h, ns, c, Sighting(f(c), now));
            Contented(st', h, ns, d) && !ClusterStale(st', f, d)
  {
    if d == c {
      ReconcileAchieves(j.store, h, ns, f, c, now);
    } else {
      ReconcileSpares(j.store, h, ns, f, c, now, d);
    }
  }

  /** A cluster that is not there any more. */
  lemma AbsentKeep(j: Joint, h: Digest, ns: string, f: Figures, c: string, now: nat)
    requires c !in j.store.clusters
    ensures Do(j, h, ns, f, Keep(c, now)) == Joint(j.store, j.due - {c})
  {
    QuietBecoming(j, j.store, {c});
  }

  lemma AbsentKeeps(j: Joint, h: Digest, ns: string, f: Figures, c: string)
    requires Harmony(j.store) && c !in j.store.clusters
    ensures Together(j, Joint(j.store, j.due - {c}), h, ns, f)
  {
  }

  lemma KeepNothingNew(j: Joint, h: Digest, ns: string, f: Figures, c: string, now: nat)
    requires Harmony(j.store) && c in j.store.clusters
    ensures Harmony(Do(j, h, ns, f, Keep(c, now)).store) && NothingNew(j, Do(j, h, ns, f, Keep(c, now)))
  {
    ReconcileAchieves(j.store, h, ns, f, c, now);
    ReconcileKnown(j.store, h, ns, f, c, now);
    BecomesKnown(j, WholeReconcile(j.store, h, ns, c, Sighting(f(c), now)), {c});
  }

  lemma BecomesKnown(j: Joint, st': Store, done: set<string>)
    requires KnownNames(j.store, st') && st'.clusters.Keys == j.store.clusters.Keys
    ensures NothingNew(j, Become(j, st', done))
  {
  }

  lemma KeepKeeps(j: Joint, h: Digest, ns: string, f: Figures, c: string, now: nat)
    requires Harmony(j.store)
    ensures Together(j, Do(j, h, ns, f, Keep(c, now)), h, ns, f)
  {
    if c !in j.store.clusters {
      AbsentKeep(j, h, ns, f, c, now);
      AbsentKeeps(j, h, ns, f, c);
    } else {
      KeepNothingNew(j, h, ns, f, c, now);
      if LiveProvisioned(j.store) {
        ReconcileProvisioned(j.store, h, ns, f, c, now);
      }
      if Noticed(j, h, ns, f) {
        KeepNoticed(j, h, ns, f, c, now);
      }
    }
  }

  /** A cluster reconcile always burns fuel. */
  lemma KeepBurns(j: Joint, h: Digest, ns: string, f: Figures, c: string, now: nat)
    requires Harmony(j.store) && c in j.due
    ensures JointFuel(Do(j, h, ns, f, Keep(c, now)), h, ns, f) < JointFuel(j, h, ns, f)
  {
    if c !in j.store.clusters {
      AbsentKeep(j, h, ns, f, c, now);
      UndueBurns(j, h, ns, f, c);
    } else {
      ReconcileBurns(j, h, ns, f, c, now);
    }
  }

  lemma ReconcileBurns(j: Joint, h: Digest, ns: string, f: Figures, c: string, now: nat)
    requires Harmony(j.store) && c in j.due && c in j.store.clusters
    ensures JointFuel(Do(j, h, ns, f, Keep(c, now)), h, ns, f) < JointFuel(j, h, ns, f)
  {
    ReconcileAchieves(j.store, h, ns, f, c, now);
    KeepNothingNew(j, h, ns, f, c, now);
    BecomingBurns(j, WholeReconcile(j.store, h, ns, c, Sighting(f(c), now)), h, ns, f, c);
  }

  lemma BecomingBurns(j: Joint, st': Store, h: Digest, ns: string, f: Figures, c: string)
    requires c in j.due && NothingNew(j, Become(j, st', {c}))
    requires st' == j.store || JointDebt(st', h, ns, f) < JointDebt(j.store, h, ns, f)
    ensures JointFuel(Become(j, st', {c}), h, ns, f) < JointFuel(j, h, ns, f)
  {
    if st' == j.store {
      QuietBecoming(j, st', {c});
      UndueBurns(j, h, ns, f, c);
    } else {
      FuelBurns(j, Become(j, st', {c}), h, ns, f);
    }
  }

  lemma UndueBurns(j: Joint, h: Digest, ns: string, f: Figures, c: string)
    requires c in j.due
    ensures JointFuel(Joint(j.store, j.due - {c}), h, ns, f) < JointFuel(j, h, ns, f)
  {
    assert c !in j.due - {c};
    SubsetSize(j.due - {c}, j.due);
    FuelBurns(j, Joint(j.store, j.due - {c}), h, ns, f);
  }

  /** Every job keeps what jobs keep, and burns fuel unless it is a visit to a stalled pipeline that changes
      nothing. */
  lemma JobBurns(j: Joint, h: Digest, ns: string, f: Figures, job: Job)
    requires Harmony(j.store) && Waiting(j, job)
    ensures var j' := Do(j, h, ns, f, job);
            && Together(j, j', h, ns, f)
            && (JointFuel(j', h, ns, f) < JointFuel(j, h, ns, f) || (j' == j && job.Serve? && Stalled(j.store, job.name)))
  {
    match job
    case Serve(n, now) =>
      ServeKeeps(j, h, ns, f, n, now);
      ServeBurns(j, h, ns, f, n, now);
    case Keep(c, now) =>
      KeepKeeps(j, h, ns, f, c, now);
      KeepBurns(j, h, ns, f, c, now);
  }

  // ---------- whole sequences ----------

  /** No loops across the two controllers: in every mixed sequence of pipeline visits and cluster reconciles,
      in any order, at most `JointFuel` jobs change anything. */
  lemma {:induction false} NoJointLoops(j: Joint, h: Digest, ns: string, f: Figures, jobs: seq<Job>)
    requires Harmony(j.store) && Jobs(j, h, ns, f, jobs)
    ensures Steps(j, h, ns, f, jobs) <= JointFuel(j, h, ns, f)
    ensures LiveProvisioned(j.store) ==> |jobs| <= JointFuel(j, h, ns, f)
    decreases jobs
  {
    if jobs != [] {
      JobBurns(j, h, ns, f, jobs[0]);
      NoJointLoops(Do(j, h, ns, f, jobs[0]), h, ns, f, jobs[1..]);
    }
  }

  /** A pipeline is only ever stalled while the cluster controller has its cluster in the queue. */
  lemma StalledIsDue(j: Joint, h: Digest, ns: string, f: Figures, n: string)
    requires Noticed(j, h, ns, f) && Stalled(j.store, n)
    ensures j.store.pipelines[n].spec.clusterRef in j.due
  {
  }

  /** Whatever waits, some job gets on with it: a due cluster, or else a pipeline, which is then not stalled. */
  lemma NextJob(j: Joint, h: Digest, ns: string, f: Figures) returns (job: Job)
    requires Noticed(j, h, ns, f) && (j.due != {} || j.store.queue != {})
    ensures Waiting(j, job) && (job.Serve? ==> !Stalled(j.store, job.name))
  {
    if c :| c in j.due {
      job := Keep(c, 0);
    } else {
      var n :| n in j.store.queue;
      job := Serve(n, 0);
      if Stalled(j.store, n) {
        StalledIsDue(j, h, ns, f, n);
      }
    }
  }

  lemma FirstJob(j: Joint, h: Digest, ns: string, f: Figures, job: Job, rest: seq<Job>)
    requires Waiting(j, job) && Jobs(Do(j, h, ns, f, job), h, ns, f, rest)
    ensures Jobs(j, h, ns, f, [job] + rest)
    ensures DoAll(j, h, ns, f, [job] + rest) == DoAll(Do(j, h, ns, f, job), h, ns, f, rest)
  {
    assert ([job] + rest)[1..] == rest;
  }

  /** Some sequence of jobs brings both controllers to rest, without any condition on provisioning. */
  lemma {:induction false} JobsToRest(j: Joint, h: Digest, ns: string, f: Figures) returns (jobs: seq<Job>)
    requires Harmony(j.store) && Noticed(j, h, ns, f)
    ensures Jobs(j, h, ns, f, jobs) && AtRest(DoAll(j, h, ns, f, jobs))
    decreases JointFuel(j, h, ns, f)
  {
    if AtRest(j) {
      jobs := [];
    } else {
      var job := NextJob(j, h, ns, f);
      JobBurns(j, h, ns, f, job);
      var rest := JobsToRest(Do(j, h, ns, f, job), h, ns, f);
      FirstJob(j, h, ns, f, job, rest);
      jobs := [job] + rest;
    }
  }

  // ---------- the exact condition ----------

  /** No sequence of jobs is longer than `k`. */
  ghost predicate JointlyBounded(j: Joint, h: Digest, ns: string, f: Figures, k: nat) {
    forall jobs :: Jobs(j, h, ns, f, jobs) ==> |jobs| <= k
  }

  function Serves(n: string, k: nat): (jobs: seq<Job>)
    ensures |jobs| == k
  {
    if k == 0 then [] else [Serve(n, 0)] + Serves(n, k - 1)
  }

  lemma {:induction false} StuckJobs(j: Joint, h: Digest, ns: string, f: Figures, n: string, k: nat)
    requires Stuck(j.store, n)
    ensures Jobs(j, h, ns, f, Serves(n, k))
    decreases k
  {
    if k > 0 {
      StuckStays(j.store, h, n, 0);
      StuckJobs(Do(j, h, ns, f, Serve(n, 0)), h, ns, f, n, k - 1);
      assert Serves(n, k)[1..] == Serves(n, k - 1);
    }
  }

  /** All sequences end, however unfairly the two queues are served, if and only if no live pipeline waits for
      an object of its cluster: otherwise visits to it can go on forever while the cluster controller, which
      has that cluster in its queue, is never given a turn. */
  lemma JointlyBoundedIffProvisioned(j: Joint, h: Digest, ns: string, f: Figures)
    requires Harmony(j.store) && Inv(State(j.store, Idle), h)
    ensures (exists k: nat :: JointlyBounded(j, h, ns, f, k)) <==> LiveProvisioned(j.store)
  {
    if LiveProvisioned(j.store) {
      forall jobs | Jobs(j, h, ns, f, jobs)
        ensures |jobs| <= JointFuel(j, h, ns, f)
      {
        NoJointLoops(j, h, ns, f, jobs);
      }
      assert JointlyBounded(j, h, ns, f, JointFuel(j, h, ns, f));
    } else {
      var n :| n in j.store.pipelines && !j.store.pipelines[n].deleting && j.store.pipelines[n].spec.clusterRef in j.store.clusters
               && !Provisioned(j.store, j.store.pipelines[n].spec.clusterRef);
      UnprovisionedIsQueued(j.store, h, n);
      forall k: nat
        ensures !JointlyBounded(j, h, ns, f, k)
      {
        StuckJobs(j, h, ns, f, n, k + 1);
        assert |Serves(n, k + 1)| > k;
      }
    }
  }

  // ---------- rest ----------

  lemma ReconcileKeepsInv(st: Store, h: Digest, ns: string, c: string, seen: Sighting)
    requires Inv(State(st, Idle), h) && Resolvable(st, c)
    ensures Inv(State(WholeReconcile(st, h, ns, c, seen), Idle), h)
  {
    var actions := ReconcileIsRun(st, Idle, h, ns, c, seen.rollout, seen.now);
    RunKeepsInv(State(st, Idle), h, actions);
  }

  lemma JobKeepsInv(j: Joint, h: Digest, ns: string, f: Figures, job: Job)
    requires Harmony(j.store) && Inv(State(j.store, Idle), h) && Waiting(j, job)
    ensures Inv(State(Do(j, h, ns, f, job).store, Idle), h)
  {
    match job
    case Serve(n, now) =>
      ProcessKeepsInv(j.store, h, n, now);
    case Keep(c, now) =>
      if c in j.store.clusters {
        ReconcileKeepsInv(j.store, h, ns, c, Sighting(f(c), now));
      }
  }

  lemma {:induction false} JobsKeep(j: Joint, h: Digest, ns: string, f: Figures, jobs: seq<Job>)
    requires Harmony(j.store) && Noticed(j, h, ns, f) && Inv(State(j.store, Idle), h) && Jobs(j, h, ns, f, jobs)
    ensures var end := DoAll(j, h, ns, f, jobs);
            && Harmony(end.store) && Noticed(end, h, ns, f) && Inv(State(end.store, Idle), h)
            && end.store.clusters.Keys == j.store.clusters.Keys
    decreases jobs
  {
    if jobs != [] {
      JobBurns(j, h, ns, f, jobs[0]);
      JobKeepsInv(j, h, ns, f, jobs[0]);
      JobsKeep(Do(j, h, ns, f, jobs[0]), h, ns, f, jobs[1..]);
    }
  }

  /** Nothing waits for either controller. */
  predicate AtRest(j: Joint) { j.store.queue == {} && j.due == {} }

  /** At rest every cluster has its objects and its status, and one with pipelines is settled for both. */
  lemma RestIsSettled(j: Joint, h: Digest, ns: string, f: Figures, c: string)
    requires Noticed(j, h, ns, f) && Inv(State(j.store, Idle), h) && AtRest(j) && c in j.store.clusters
    ensures Contented(j.store, h, ns, c) && !ClusterStale(j.store, f, c)
    ensures Members(j.store.pipelines, c) != {} ==> Settled(j.store, h, ns, c)
  {
    IdleAgrees(j.store, h, c);
  }

  /** What a sequence of jobs from `j` to `end` comes to. */
  ghost predicate Converges(j: Joint, h: Digest, ns: string, f: Figures, jobs: seq<Job>, end: Joint) {
    && Steps(j, h, ns, f, jobs) <= JointFuel(j, h, ns, f)
    && (forall job :: Waiting(end, job) && Do(end, h, ns, f, job) == end ==>
          job.Serve? && job.name in end.store.pipelines && end.store.pipelines[job.name].spec.clusterRef in end.due)
    && (AtRest(end) ==> forall c :: c in end.store.clusters ==>
          && Contented(end.store, h, ns, c) && !ClusterStale(end.store, f, c)
          && (Members(end.store.pipelines, c) != {} ==> Settled(end.store, h, ns, c)))
  }

  lemma JobsConverge(j: Joint, h: Digest, ns: string, f: Figures, jobs: seq<Job>)
    requires Harmony(j.store) && Noticed(j, h, ns, f) && Inv(State(j.store, Idle), h) && Jobs(j, h, ns, f, jobs)
    ensures Converges(j, h, ns, f, jobs, DoAll(j, h, ns, f, jobs))
  {
    var end := DoAll(j, h, ns, f, jobs);
    NoJointLoops(j, h, ns, f, jobs);
    JobsKeep(j, h, ns, f, jobs);
    forall job | Waiting(end, job) && Do(end, h, ns, f, job) == end
      ensures job.Serve? && job.name in end.store.pipelines && end.store.pipelines[job.name].spec.clusterRef in end.due
    {
      JobBurns(end, h, ns, f, job);
      StalledIsDue(end, h, ns, f, job.name);
    }
    if AtRest(end) {
      forall c | c in end.store.clusters {
        RestIsSettled(end, h, ns, f, c);
      }
    }
  }

  /** Both controllers converge.  Take any disciplined run, from any store of admitted pipelines the operator may
      come up on, that leaves the worker idle; let clusters resolve and write different Services, let the cluster
      controller have in its queue whatever it has yet to look at, and leave specs, pods and rollout
      figures alone.  Then in every mixed sequence of visits and reconciles, in any order:
      at most `JointFuel` jobs change anything; a job that changes nothing is a visit to a pipeline whose cluster
      the cluster controller has in its queue; rest, whenever it is reached, means that every cluster has its
      objects and its status and every cluster with pipelines is settled for both; and the length of all
      sequences is bounded if and only if live pipelines' clusters are absent or provisioned. */
  lemma BothConverge(start: State, h: Digest, actions: seq<Action>, s: State, ns: string, f: Figures, due: set<string>,
          jobs: seq<Job>)
    requires Initial(start) && AllAdmitted(start.store.pipelines)
    requires DisciplinedRun(start, h, actions) && s == Run(start, h, actions) && s.worker.Idle?
    requires Compatible(s.store) && Noticed(Joint(s.store, due), h, ns, f) && Jobs(Joint(s.store, due), h, ns, f, jobs)
    ensures var j := Joint(s.store, due);
            && Converges(j, h, ns, f, jobs, DoAll(j, h, ns, f, jobs))
            && ((exists k: nat :: JointlyBounded(j, h, ns, f, k)) <==> LiveProvisioned(s.store))
  {
    InitiallyInv(start, h);
    RunKeepsInv(start, h, actions);
    RunKeepsSound(start, h, actions);
    assert s == State(s.store, Idle);
    JointlyBoundedIffProvisioned(Joint(s.store, due), h, ns, f);
    JobsConverge(Joint(s.store, due), h, ns, f, jobs);
  }
}
