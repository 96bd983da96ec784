/** Runs from a bare API server to the situations in which a rule of `Disciplined` matters, and on to
    a cluster left in disagreement with nothing queued. */
module Witnesses {
  import opened Objects
  import opened Names
  import opened Watch
  import opened Merge
  import opened Admission
  import opened Conditions
  import opened ApiStore
  import opened Rebuild
  import opened ClusterReconcile
  import opened ClusterProperties
  import opened ClusterRefinement
  import opened Fixpoint
  import opened Protocol
  import opened Reconcile
  import opened Agreement
  import opened Termination
  import opened Draining
  import opened Necessity
  import opened LostDeployment
  import opened BothControllers

  const BARE := Store(map[], map[], map[], map[], Others(map[], map[], map[], []), {}, 0)

  const START := State(BARE, Idle)

  // ---------- runs ----------

  lemma RunOne(s: State, h: Digest, a: Action)
    ensures Run(s, h, [a]) == Step(s, h, a)
    ensures Disciplined(s, h, a) ==> DisciplinedRun(s, h, [a])
  {
    assert [a][1..] == [];
  }

  /** A disciplined run from the bare API server to `s`. */
  ghost predicate Reaches(h: Digest, actions: seq<Action>, s: State) {
    DisciplinedRun(START, h, actions) && Run(START, h, actions) == s
  }

  lemma ReachesStart(h: Digest)
    ensures Initial(START) && AllAdmitted(START.store.pipelines) && Reaches(h, [], START)
  {
  }

  lemma ReachesThen(h: Digest, first: seq<Action>, mid: State, second: seq<Action>, s: State)
    requires Reaches(h, first, mid) && DisciplinedRun(mid, h, second) && Run(mid, h, second) == s
    ensures Reaches(h, first + second, s)
  {
    RunThen(START, h, first, second);
  }

  lemma ReachesStep(h: Digest, first: seq<Action>, mid: State, a: Action)
    requires Reaches(h, first, mid) && Disciplined(mid, h, a)
    ensures Reaches(h, first + [a], Step(mid, h, a))
  {
    RunOne(mid, h, a);
    ReachesThen(h, first, mid, [a], Step(mid, h, a));
  }

  // ---------- a cluster and its pipelines ----------

  ghost predicate Hosted(st: Store, c: string, n: string, spec: PipelineSpec) {
    && n in st.pipelines && st.pipelines[n].spec == spec && spec.clusterRef == c && !st.pipelines[n].deleting
    && (st.pipelines[n].finalizer || n in st.queue)
  }

  /** `c` is the only cluster, provisioned, and has exactly these live pipelines; those without finalizer are
      queued. */
  ghost predicate Hosts(st: Store, c: string, specs: map<string, PipelineSpec>) {
    && Calm(st) && st.clusters.Keys == {c} && Provisioned(st, c)
    && st.pipelines.Keys == specs.Keys && st.queue <= specs.Keys
    && forall n :: n in specs ==> Hosted(st, c, n, specs[n])
  }

  /** Its document is theirs. */
  lemma HostsDocument(st: Store, c: string, specs: map<string, PipelineSpec>)
    requires Hosts(st, c, specs)
    ensures Active(st.pipelines, c, None) == specs && Mergeable(specs) && Wanted(st, c) == ContentOf(specs)
    ensures Members(st.pipelines, c) == specs.Keys
  {
    AdmittedMerges(st.pipelines, c, None);
    forall n | n in specs
      ensures n in Active(st.pipelines, c, None)
    {
      assert Hosted(st, c, n, specs[n]);
    }
    assert Active(st.pipelines, c, None) == specs;
  }

  lemma VisitHosted(st: Store, h: Digest, m: string, now: nat, c: string, n: string, spec: PipelineSpec)
    requires Tidy(st.pipelines) && Hosted(st, c, n, spec)
    ensures Hosted(Process(st, h, m, now), c, n, spec)
  {
    var st' := Process(st, h, m, now);
    VisitServes(st, h, m, now);
    RewriteKeepsOthers(st.pipelines, st'.pipelines, m, n);
    if n == m && !st.pipelines[n].finalizer {
      VisitAttaches(st, h, n, now);
    }
  }

  lemma ServedHosts(st: Store, st': Store, m: string, c: string, specs: map<string, PipelineSpec>)
    requires Hosts(st, c, specs) && Served(st, st', m) && Orderly(st, st') && KnownNames(st, st')
    requires forall n :: n in specs ==> Hosted(st', c, n, specs[n])
    ensures Hosts(st', c, specs)
  {
    assert st'.pipelines.Keys == specs.Keys;
  }

  /** Serving the queue keeps it so. */
  lemma VisitKeepsHosts(st: Store, h: Digest, m: string, now: nat, c: string, specs: map<string, PipelineSpec>)
    requires Hosts(st, c, specs)
    ensures Hosts(Process(st, h, m, now), c, specs)
  {
    ProcessPays(st, h, m, now);
    VisitServes(st, h, m, now);
    forall n | n in specs
      ensures Hosted(Process(st, h, m, now), c, n, specs[n])
    {
      assert Hosted(st, c, n, specs[n]);
      VisitHosted(st, h, m, now, c, n, specs[n]);
    }
    ServedHosts(st, Process(st, h, m, now), m, c, specs);
  }

  lemma {:induction false} DrainKeepsHosts(st: Store, h: Digest, visits: seq<Visit>, c: string, specs: map<string, PipelineSpec>)
    requires Hosts(st, c, specs)
    ensures Hosts(Drain(st, h, visits), c, specs) && Drain(st, h, visits).clusters == st.clusters
    decreases visits
  {
    if visits != [] {
      VisitKeepsHosts(st, h, visits[0].name, visits[0].now, c, specs);
      VisitServes(st, h, visits[0].name, visits[0].now);
      DrainKeepsHosts(Process(st, h, visits[0].name, visits[0].now), h, visits[1..], c, specs);
    }
  }

  /** Everything is at rest, and the cluster with its pipelines agrees. */
  ghost predicate Resting(s: State, h: Digest, c: string, specs: map<string, PipelineSpec>) {
    Quiescent(s) && Hosts(s.store, c, specs) && Agrees(s.store, h, c)
  }

  /** From any idle state of such a cluster that agrees or has a pipeline queued to rest. */
  lemma RestReached(st: Store, h: Digest, c: string, specs: map<string, PipelineSpec>)
    returns (actions: seq<Action>, visits: seq<Visit>)
    requires Hosts(st, c, specs) && Hopeful(st, h, c)
    ensures DisciplinedRun(State(st, Idle), h, actions)
    ensures Resting(Run(State(st, Idle), h, actions), h, c, specs)
    ensures Run(State(st, Idle), h, actions).store == Drain(st, h, visits) && Drain(st, h, visits).clusters == st.clusters
  {
    visits := ChainExists(st, h);
    actions := ChainIsRun(st, h, visits);
    DrainKeepsHosts(st, h, visits, c, specs);
    DrainDecides(st, h, visits, c);
  }

  // ---------- users ----------

  /** A spec for `c` with a key no other has. */
  ghost predicate Fits(c: string, specs: map<string, PipelineSpec>, n: string, spec: PipelineSpec) {
    GoodShape(spec) && spec.clusterRef == c && forall m :: m in specs && m != n ==> specs[m].yamlKey != spec.yamlKey
  }

  lemma FitsAdmissible(st: Store, c: string, specs: map<string, PipelineSpec>, n: string, spec: PipelineSpec)
    requires Hosts(st, c, specs) && Fits(c, specs, n, spec)
    ensures Admissible(st.pipelines, n, spec)
  {
    forall m | m in st.pipelines
      ensures !Clashes(n, spec, m, st.pipelines[m].spec)
    {
      assert Hosted(st, c, m, specs[m]);
    }
  }

  lemma PutHosted(st: Store, c: string, n: string, p: Pipeline, m: string, spec: PipelineSpec)
    requires if m == n then p.spec == spec && spec.clusterRef == c && !p.deleting else Hosted(st, c, m, spec)
    ensures Hosted(PutPipeline(st, n, p), c, m, spec)
  {
  }

  /** Writing a pipeline of `c`. */
  lemma PutHosts(st: Store, c: string, specs: map<string, PipelineSpec>, n: string, p: Pipeline)
    requires Hosts(st, c, specs) && Fits(c, specs, n, p.spec) && !p.deleting
    ensures Hosts(PutPipeline(st, n, p), c, specs[n := p.spec])
  {
    var specs' := specs[n := p.spec];
    FitsAdmissible(st, c, specs, n, p.spec);
    PutKeepsTidy(st, n, p);
    PutProvisioned(st, n, p, c);
    forall m | m in specs'
      ensures Hosted(PutPipeline(st, n, p), c, m, specs'[m])
    {
      PutHosted(st, c, n, p, m, specs'[m]);
    }
  }

  lemma PutIsDue(st: Store, n: string, p: Pipeline)
    ensures Due(PutPipeline(st, n, p), p.spec.clusterRef)
  {
    var st' := PutPipeline(st, n, p);
    assert n in st'.queue && n in Members(st'.pipelines, p.spec.clusterRef);
  }

  lemma PutProvisioned(st: Store, n: string, p: Pipeline, c: string)
    requires LiveProvisioned(st) && Provisioned(st, c) && p.spec.clusterRef == c
    ensures LiveProvisioned(PutPipeline(st, n, p))
  {
  }

  lemma CreateHosts(s: State, h: Digest, c: string, specs: map<string, PipelineSpec>, n: string, spec: PipelineSpec)
    requires Hosts(s.store, c, specs) && n !in specs && Fits(c, specs, n, spec)
    ensures var s' := Step(s, h, CreatePipeline(n, spec));
            && s'.worker == s.worker && Hosts(s'.store, c, specs[n := spec]) && Due(s'.store, c)
            && s'.store.queue == s.store.queue + {n} && !s'.store.pipelines[n].finalizer
  {
    FitsAdmissible(s.store, c, specs, n, spec);
    var p := Pipeline(spec, false, false, 1, FRESH_STATUS, 0);
    PutHosts(s.store, c, specs, n, p);
    PutIsDue(s.store, n, p);
  }

  // ---------- a provisioned cluster ----------

  /** A cluster to create, what its reconciles see of the rollout, and two pipelines for it. */
  datatype Cast = Cast(c: string, manifest: Cluster, ns: string, seen: Sighting,
                       k: string, pk: PipelineSpec, n: string, pn: PipelineSpec)

  ghost predicate Playable(x: Cast) {
    && ValidateCluster(x.manifest.spec, map[]) == AdmitCluster
    && x.k != x.n && Fits(x.c, map[], x.k, x.pk) && Fits(x.c, map[x.k := x.pk], x.n, x.pn)
  }

  function One(x: Cast): map<string, PipelineSpec> { map[x.k := x.pk] }

  function Both(x: Cast): map<string, PipelineSpec> { map[x.k := x.pk][x.n := x.pn] }

  function SampleSpec(key: string): PipelineSpec {
    PipelineSpec("c", key, Object(map["source" := "http", "sink" := "stdout"]))
  }

  /** Such a cast exists. */
  lemma CastExists() returns (x: Cast)
    ensures Playable(x)
  {
    var none := Resources(map[], map[], []);
    var spec := ClusterSpec("", "image", 1, none, "", "", [], [], [], [], None);
    var cluster := Cluster(spec, 1, ClusterStatus(NoClusterPhase, 0, 0, 0, []));
    x := Cast("c", cluster, "ns", Sighting(Rollout(0, 0, 0, 1, 0, 1), 0), "k", SampleSpec("a"), "n", SampleSpec("b"));
    SampleGood("a");
    SampleGood("b");
    assert "k"[0] != "n"[0] && "a"[0] != "b"[0] && "image" != "";
  }

  lemma SampleGood(key: string)
    requires key == "a" || key == "b"
    ensures GoodShape(SampleSpec(key))
  {
    var fields := map["source" := "http", "sink" := "stdout"];
    assert "source" in fields && fields != map[];
    assert !IsSpace(key[0]);
  }

  lemma BothHosted(st: Store, x: Cast)
    requires Playable(x) && Hosts(st, x.c, Both(x))
    ensures Hosted(st, x.c, x.k, x.pk) && Hosted(st, x.c, x.n, x.pn)
    ensures x.k in Members(st.pipelines, x.c) && x.n in Members(st.pipelines, x.c)
  {
    assert x.k in Both(x) && Both(x)[x.k] == x.pk && x.n in Both(x) && Both(x)[x.n] == x.pn;
  }

  lemma ClassLess(x: Cast)
    requires Playable(x)
    ensures x.manifest.spec.classRef == "" && x.manifest.spec.image != ""
  {
  }

  lemma Created(h: Digest, x: Cast)
    requires Playable(x)
    ensures var s := Step(START, h, CreateCluster(x.c, x.manifest));
            && s == State(BARE.(clusters := map[x.c := x.manifest]), Idle) && Resolvable(s.store, x.c)
  {
    ClassLess(x);
    assert Members(BARE.pipelines, x.c) == {};
  }

  lemma SameHosts(st: Store, st': Store, c: string, specs: map<string, PipelineSpec>)
    requires Tidy(st.pipelines) && st'.pipelines == st.pipelines && st'.clusters.Keys == {c} && Provisioned(st', c)
    requires st.pipelines.Keys == specs.Keys && st.queue <= st'.queue <= specs.Keys
    requires forall n :: n in specs ==> Hosted(st, c, n, specs[n])
    ensures Hosts(st', c, specs)
  {
    forall n | n in specs
      ensures Hosted(st', c, n, specs[n])
    {
      assert Hosted(st, c, n, specs[n]);
    }
  }

  lemma ReconcileFacts(st: Store, h: Digest, ns: string, c: string, seen: Sighting)
    requires Resolvable(st, c)
    ensures var st' := WholeReconcile(st, h, ns, c, seen);
            && st'.pipelines == st.pipelines && st'.clusters.Keys == st.clusters.Keys && Provisioned(st', c)
  {
    KeepWorld(st, h, ns, c);
    StatusWrite(KeptStore(st, h, ns, c), c, seen.rollout, seen.now);
  }

  /** A whole reconcile keeps the pipelines and their cluster. */
  lemma ReconcileHosts(st: Store, h: Digest, ns: string, c: string, seen: Sighting, specs: map<string, PipelineSpec>)
    requires Tidy(st.pipelines) && Resolvable(st, c) && st.clusters.Keys == {c}
    requires st.pipelines.Keys == specs.Keys && st.queue <= specs.Keys && forall n :: n in specs ==> Hosted(st, c, n, specs[n])
    ensures Hosts(WholeReconcile(st, h, ns, c, seen), c, specs)
  {
    ReconcileFacts(st, h, ns, c, seen);
    ReconcileKnown(st, h, ns, _ => seen.rollout, c, seen.now);
    ReconcileQueue(st, h, ns, c, seen);
    SameHosts(st, WholeReconcile(st, h, ns, c, seen), c, specs);
  }

  /** Nothing leaves the queue during a cluster reconcile. */
  lemma ReconcileQueue(st: Store, h: Digest, ns: string, c: string, seen: Sighting)
    requires Resolvable(st, c)
    ensures st.queue <= WholeReconcile(st, h, ns, c, seen).queue
  {
    KeepQueue(st, h, ns, c);
    PeerKeepsQueue(KeepConfigMap(st, c), ns, c, st.clusters[c].spec);
    KeepWorld(st, h, ns, c);
    StatusWrite(KeptStore(st, h, ns, c), c, seen.rollout, seen.now);
  }

  /** A whole reconcile of the cluster is a continuation of a disciplined run. */
  lemma ReconcileReached(h: Digest, first: seq<Action>, st: Store, ns: string, c: string, seen: Sighting)
    returns (actions: seq<Action>)
    requires Reaches(h, first, State(st, Idle)) && Resolvable(st, c)
    ensures Reaches(h, actions, State(WholeReconcile(st, h, ns, c, seen), Idle))
  {
    var second := ReconcileIsRun(st, Idle, h, ns, c, seen.rollout, seen.now);
    ReachesThen(h, first, State(st, Idle), second, State(WholeReconcile(st, h, ns, c, seen), Idle));
    actions := first + second;
  }

  /** A disciplined run from a bare API server to a provisioned cluster without pipelines. */
  lemma ProvisionedReached(h: Digest, x: Cast) returns (actions: seq<Action>, s: State)
    requires Playable(x)
    ensures Reaches(h, actions, s) && s.worker.Idle? && Hosts(s.store, x.c, map[]) && SpecOf(s.store, x)
  {
    var first, st := ClusterReached(h, x);
    actions := ReconcileReached(h, first, st, x.ns, x.c, x.seen);
    s := State(WholeReconcile(st, h, x.ns, x.c, x.seen), Idle);
    ReconcileHosts(st, h, x.ns, x.c, x.seen, map[]);
    ReconcileSpec(st, h, x);
  }

  lemma ClusterReached(h: Digest, x: Cast) returns (actions: seq<Action>, st: Store)
    requires Playable(x)
    ensures Reaches(h, actions, State(st, Idle)) && Resolvable(st, x.c) && SpecOf(st, x)
    ensures st.clusters.Keys == {x.c} && st.pipelines == map[] && st.queue == {}
  {
    ReachesStart(h);
    Created(h, x);
    ReachesStep(h, [], START, CreateCluster(x.c, x.manifest));
    actions, st := [] + [CreateCluster(x.c, x.manifest)], BARE.(clusters := map[x.c := x.manifest]);
  }

  /** The cluster is as created, except for its status. */
  predicate SpecOf(st: Store, x: Cast) {
    && x.c in st.clusters && st.clusters[x.c].spec == x.manifest.spec && st.clusters[x.c].generation == x.manifest.generation
  }

  lemma ReconcileSpec(st: Store, h: Digest, x: Cast)
    requires Resolvable(st, x.c) && SpecOf(st, x)
    ensures SpecOf(WholeReconcile(st, h, x.ns, x.c, x.seen), x)
  {
    KeepWorld(st, h, x.ns, x.c);
    StatusWrite(KeptStore(st, h, x.ns, x.c), x.c, x.seen.rollout, x.seen.now);
  }

  lemma SpecResolves(st: Store, x: Cast)
    requires Playable(x) && SpecOf(st, x)
    ensures Resolvable(st, x.c) && ClassHash(st, x.c) == ""
  {
    ClassLess(x);
  }

  // ---------- one and two pipelines at rest ----------

  /** One more pipeline. */
  lemma CreateReached(h: Digest, first: seq<Action>, mid: State, c: string, specs: map<string, PipelineSpec>, n: string,
          spec: PipelineSpec)
    returns (actions: seq<Action>, s: State)
    requires Reaches(h, first, mid) && mid.worker.Idle? && Hosts(mid.store, c, specs) && n !in specs && Fits(c, specs, n, spec)
    ensures Reaches(h, actions, s) && s.worker.Idle? && Hosts(s.store, c, specs[n := spec])
    ensures Due(s.store, c) && s.store.queue == mid.store.queue + {n} && !s.store.pipelines[n].finalizer
    ensures s.store.clusters == mid.store.clusters
  {
    CreateHosts(mid, h, c, specs, n, spec);
    ReachesStep(h, first, mid, CreatePipeline(n, spec));
    actions, s := first + [CreatePipeline(n, spec)], Step(mid, h, CreatePipeline(n, spec));
  }

  /** Another definition for a pipeline that stays in its cluster. */
  lemma EditHosts(st: Store, c: string, specs: map<string, PipelineSpec>, n: string, spec: PipelineSpec)
    requires Hosts(st, c, specs) && st.queue == {} && n in specs && Fits(c, specs, n, spec)
    ensures n in st.pipelines && st.pipelines[n].spec == specs[n] && Admissible(st.pipelines, n, spec)
    ensures var st' := PutPipeline(st, n, st.pipelines[n].(spec := spec, generation := st.pipelines[n].generation + 1));
            && Hosts(st', c, specs[n := spec]) && Due(st', c) && st'.queue == {n} && st'.pipelines[n].finalizer
            && st'.deployments == st.deployments && st'.configMaps == st.configMaps && st.clock <= st'.clock
  {
    assert Hosted(st, c, n, specs[n]);
    FitsAdmissible(st, c, specs, n, spec);
    var p := st.pipelines[n].(spec := spec, generation := st.pipelines[n].generation + 1);
    PutHosts(st, c, specs, n, p);
    PutIsDue(st, n, p);
  }

  /** From rest, with only that pipeline queued. */
  lemma EditReached(h: Digest, first: seq<Action>, mid: State, c: string, specs: map<string, PipelineSpec>, n: string,
          spec: PipelineSpec)
    returns (actions: seq<Action>, s: State)
    requires Reaches(h, first, mid) && Resting(mid, h, c, specs) && n in specs && Fits(c, specs, n, spec)
    requires spec != specs[n]
    ensures Reaches(h, actions, s) && s.worker.Idle? && Hosts(s.store, c, specs[n := spec]) && Due(s.store, c)
    ensures s.store.queue == {n} && s.store.pipelines[n].finalizer && mid.store.clock <= s.store.clock
    ensures s.store.deployments == mid.store.deployments && s.store.configMaps == mid.store.configMaps
  {
    EditHosts(mid.store, c, specs, n, spec);
    EditEffect(mid, h, n, spec);
    SameCluster(mid, h, n, spec);
    ReachesStep(h, first, mid, EditPipeline(n, spec));
    actions, s := first + [EditPipeline(n, spec)], Step(mid, h, EditPipeline(n, spec));
  }

  lemma SameCluster(s: State, h: Digest, n: string, spec: PipelineSpec)
    requires n in s.store.pipelines && s.store.pipelines[n].spec.clusterRef == spec.clusterRef
    ensures Disciplined(s, h, EditPipeline(n, spec))
  {
  }

  /** And on to rest. */
  lemma RestFollows(h: Digest, first: seq<Action>, mid: State, c: string, specs: map<string, PipelineSpec>)
    returns (actions: seq<Action>, s: State, visits: seq<Visit>)
    requires Reaches(h, first, mid) && mid.worker.Idle? && Hosts(mid.store, c, specs) && Hopeful(mid.store, h, c)
    ensures Reaches(h, actions, s) && Resting(s, h, c, specs) && s.store.clusters == mid.store.clusters
    ensures s.store == Drain(mid.store, h, visits)
  {
    assert mid == State(mid.store, Idle);
    var more;
    more, visits := RestReached(mid.store, h, c, specs);
    s := Run(mid, h, more);
    ReachesThen(h, first, mid, more, s);
    actions := first + more;
  }

  /** One pipeline, queued. */
  lemma OneQueued(h: Digest, x: Cast) returns (actions: seq<Action>, s: State)
    requires Playable(x)
    ensures Reaches(h, actions, s) && s.worker.Idle? && Hosts(s.store, x.c, One(x)) && SpecOf(s.store, x)
    ensures Due(s.store, x.c) && s.store.queue == {x.k}
  {
    actions, s := ProvisionedReached(h, x);
    assert map[][x.k := x.pk] == One(x);
    actions, s := CreateReached(h, actions, s, x.c, map[], x.k, x.pk);
  }

  /** The same at rest. */
  lemma OneAtRest(h: Digest, x: Cast) returns (actions: seq<Action>, s: State)
    requires Playable(x)
    ensures Reaches(h, actions, s) && Resting(s, h, x.c, One(x)) && SpecOf(s.store, x)
  {
    actions, s := OneQueued(h, x);
    var visits;
    actions, s, visits := RestFollows(h, actions, s, x.c, One(x));
  }

  /** Two pipelines, both queued. */
  lemma BothQueued(h: Digest, x: Cast) returns (actions: seq<Action>, s: State)
    requires Playable(x)
    ensures Reaches(h, actions, s) && s.worker.Idle? && Hosts(s.store, x.c, Both(x))
    ensures Due(s.store, x.c) && s.store.queue == {x.k, x.n} && !s.store.pipelines[x.n].finalizer
  {
    actions, s := OneQueued(h, x);
    assert x.n !in One(x) && Fits(x.c, One(x), x.n, x.pn);
    actions, s := CreateReached(h, actions, s, x.c, One(x), x.n, x.pn);
  }

  // ---------- retargeting ----------

  lemma RetargetShape(spec: PipelineSpec, d: string)
    requires GoodShape(spec)
    ensures GoodShape(spec.(clusterRef := d))
  {
  }

  lemma PutSpares(st: Store, n: string, p: Pipeline, c: string, k: string)
    requires k != n && k in Members(st.pipelines, c) && !st.pipelines[k].deleting && c in st.clusters
    ensures var st' := PutPipeline(st, n, p);
            c in st'.clusters && k in Members(st'.pipelines, c) && !st'.pipelines[k].deleting
  {
  }

  /** After the edit the old cluster still has its other pipeline, and the new one does not exist. */
  lemma RetargetEdit(s: State, h: Digest, c: string, n: string, k: string, spec: PipelineSpec)
    requires n in s.store.pipelines && Admissible(s.store.pipelines, n, spec) && s.store.pipelines[n].spec != spec
    requires var p := s.store.pipelines[n];
             StillThere(PutPipeline(s.store, n, p.(spec := spec, generation := p.generation + 1)), c, k)
    ensures StillThere(Step(s, h, EditPipeline(n, spec)).store, c, k)
  {
    EditEffect(s, h, n, spec);
  }

  /** The store is calm and cluster `c` has the live pipeline `k`. */
  ghost predicate StillThere(st: Store, c: string, k: string) {
    Calm(st) && c in st.clusters && k in Members(st.pipelines, c) && !st.pipelines[k].deleting
  }

  lemma RetargetPut(st: Store, c: string, specs: map<string, PipelineSpec>, n: string, spec: PipelineSpec, k: string)
    requires Hosts(st, c, specs) && n in specs && k in specs && k != n && GoodShape(spec) && spec.clusterRef != c
    ensures n in st.pipelines && Admissible(st.pipelines, n, spec)
    ensures st.pipelines[n].spec.clusterRef == c && !st.pipelines[n].deleting && st.pipelines[n].spec != spec
    ensures StillThere(PutPipeline(st, n, st.pipelines[n].(spec := spec, generation := st.pipelines[n].generation + 1)), c, k)
  {
    assert Hosted(st, c, n, specs[n]) && Hosted(st, c, k, specs[k]);
    var p := st.pipelines[n].(spec := spec, generation := st.pipelines[n].generation + 1);
    RetargetCalm(st, c, specs, n, p);
    PutSpares(st, n, p, c, k);
  }

  lemma RetargetCalm(st: Store, c: string, specs: map<string, PipelineSpec>, n: string, p: Pipeline)
    requires Hosts(st, c, specs) && GoodShape(p.spec) && p.spec.clusterRef != c && !p.deleting
    ensures Admissible(st.pipelines, n, p.spec) && Calm(PutPipeline(st, n, p))
  {
    forall m | m in st.pipelines
      ensures !Clashes(n, p.spec, m, st.pipelines[m].spec)
    {
      assert Hosted(st, c, m, specs[m]);
    }
    PutKeepsTidy(st, n, p);
  }

  /** The pipeline that was not touched keeps its cluster inhabited and provisioned to the end. */
  lemma StaysBehind(st: Store, h: Digest, visits: seq<Visit>, k: string, c: string)
    requires StillThere(st, c, k) && Chain(st, h, visits)
    ensures var end := Drain(st, h, visits);
            c in end.clusters && Provisioned(end, c) && Members(end.pipelines, c) != {}
  {
    DrainKeepsLive(st, h, visits, k);
    assert k in Members(Drain(st, h, visits).pipelines, c);
  }

  lemma RetargetAtRest(s: State, h: Digest, c: string, specs: map<string, PipelineSpec>, n: string, k: string, spec: PipelineSpec)
    returns (visits: seq<Visit>)
    requires Resting(s, h, c, specs) && n in specs && k in specs && k != n && GoodShape(spec) && spec.clusterRef != c
    ensures var st' := Step(s, h, EditPipeline(n, spec)).store;
            Chain(st', h, visits) && Orphaned(Drain(st', h, visits), h, c)
  {
    var st' := Step(s, h, EditPipeline(n, spec)).store;
    RetargetPut(s.store, c, specs, n, spec, k);
    RetargetEdit(s, h, c, n, k, spec);
    visits := ChainExists(st', h);
    RetargetOrphans(s, h, n, spec, visits);
    StaysBehind(st', h, visits, k, c);
  }

  /** Retargeting orphans: there is a disciplined run from a bare API server to rest, after which
      pointing one pipeline at any other cluster name and serving the queue until it is empty leaves
      the old cluster in disagreement. */
  lemma RetargetWitness(h: Digest, x: Cast, d: string) returns (actions: seq<Action>, s: State, visits: seq<Visit>)
    requires Playable(x) && d != x.c
    ensures Reaches(h, actions, s) && Quiescent(s)
    ensures var st' := Step(s, h, EditPipeline(x.n, x.pn.(clusterRef := d))).store;
            Chain(st', h, visits) && Orphaned(Drain(st', h, visits), h, x.c)
  {
    actions, s := BothQueued(h, x);
    actions, s, visits := RestFollows(h, actions, s, x.c, Both(x));
    RetargetShape(x.pn, d);
    visits := RetargetAtRest(s, h, x.c, Both(x), x.n, x.k, x.pn.(clusterRef := d));
  }

  // ---------- one pipeline merged before its own finalizer is attached ----------

  /** The first of `j` visits to one name. */
  lemma FirstVisit(st: Store, h: Digest, k: string, j: nat)
    requires j > 0
    ensures Chain(st, h, Visits(k, j)) <==> k in st.queue && Chain(Process(st, h, k, 0), h, Visits(k, j - 1))
  {
    assert Visits(k, j)[0] == Visit(k, 0) && Visits(k, j)[1..] == Visits(k, j - 1);
  }

  lemma FirstDrain(st: Store, h: Digest, k: string, j: nat)
    requires j > 0
    ensures Drain(st, h, Visits(k, j)) == Drain(Process(st, h, k, 0), h, Visits(k, j - 1))
  {
    assert Visits(k, j)[0] == Visit(k, 0) && Visits(k, j)[1..] == Visits(k, j - 1);
  }

  /** Serving one name until it is no longer queued takes so many visits. */
  lemma {:induction false} ServeOnly(st: Store, h: Digest, k: string) returns (j: nat)
    requires Calm(st)
    ensures Chain(st, h, Visits(k, j)) && k !in Drain(st, h, Visits(k, j)).queue
    decreases Fuel(st, h)
  {
    if k !in st.queue {
      j := 0;
    } else {
      VisitBurnsFuel(st, h, k, 0);
      j := ServeOnly(Process(st, h, k, 0), h, k);
      j := j + 1;
      FirstVisit(st, h, k, j);
      FirstDrain(st, h, k, j);
    }
  }

  /** While only `k` is served: `n` stays as it was, `p`, and queued; and `c` agrees unless `k` is queued. */
  ghost predicate Ahead(st: Store, h: Digest, c: string, k: string, n: string, p: Pipeline) {
    && Tidy(st.pipelines) && c in st.clusters && Provisioned(st, c) && k != n && k in Members(st.pipelines, c)
    && !st.pipelines[k].deleting
    && n in st.queue && n in st.pipelines && st.pipelines[n] == p
    && (k in st.queue || Agrees(st, h, c))
  }

  lemma VisitSettles(st: Store, h: Digest, k: string, now: nat, c: string)
    requires Tidy(st.pipelines) && k in Members(st.pipelines, c) && c in st.clusters && Provisioned(st, c)
    ensures k in Process(st, h, k, now).queue || Agrees(Process(st, h, k, now), h, c)
  {
    if st.pipelines[k].deleting {
      FinalizeAgrees(st, h, k, now);
    } else if st.pipelines[k].finalizer {
      ApplyAgrees(st, h, k, now);
    } else {
      VisitAttaches(st, h, k, now);
    }
  }

  lemma ServedStaysAhead(st: Store, st': Store, h: Digest, c: string, k: string, n: string, p: Pipeline)
    requires Ahead(st, h, c, k, n, p) && Served(st, st', k) && (k in st'.queue || Agrees(st', h, c))
    ensures Ahead(st', h, c, k, n, p)
  {
    RewriteKeepsTidy(st.pipelines, st'.pipelines, k);
    RewriteKeepsOthers(st.pipelines, st'.pipelines, k, k);
    RewriteKeepsOthers(st.pipelines, st'.pipelines, k, n);
  }

  lemma VisitStaysAhead(st: Store, h: Digest, c: string, k: string, n: string, p: Pipeline)
    requires Ahead(st, h, c, k, n, p)
    ensures Ahead(Process(st, h, k, 0), h, c, k, n, p)
  {
    VisitServes(st, h, k, 0);
    VisitSettles(st, h, k, 0, c);
    ServedStaysAhead(st, Process(st, h, k, 0), h, c, k, n, p);
  }

  lemma {:induction false} ServedAhead(st: Store, h: Digest, j: nat, c: string, k: string, n: string, p: Pipeline)
    requires Ahead(st, h, c, k, n, p)
    ensures Ahead(Drain(st, h, Visits(k, j)), h, c, k, n, p)
    decreases j
  {
    if j > 0 {
      FirstDrain(st, h, k, j);
      VisitStaysAhead(st, h, c, k, n, p);
      ServedAhead(Process(st, h, k, 0), h, j - 1, c, k, n, p);
    }
  }

  lemma AheadStart(st: Store, h: Digest, x: Cast)
    requires Playable(x) && Hosts(st, x.c, Both(x)) && st.queue == {x.k, x.n}
    ensures Ahead(st, h, x.c, x.k, x.n, st.pipelines[x.n])
  {
    BothHosted(st, x);
  }

  /** A run to a state in which a pipeline is merged, and still waiting for its finalizer, with nothing else
      queued. */
  lemma AheadReached(h: Digest, x: Cast) returns (actions: seq<Action>, s: State)
    requires Playable(x)
    ensures Reaches(h, actions, s) && s.worker.Idle? && s.store.queue == {x.n} && Hosts(s.store, x.c, Both(x))
    ensures Agrees(s.store, h, x.c) && !s.store.pipelines[x.n].finalizer
  {
    var mid;
    actions, mid := BothQueued(h, x);
    var st := mid.store;
    assert mid == State(st, Idle);
    var j := ServeOnly(st, h, x.k);
    var more := ChainIsRun(st, h, Visits(x.k, j));
    s := State(Drain(st, h, Visits(x.k, j)), Idle);
    ReachesThen(h, actions, mid, more, s);
    actions := actions + more;
    AheadEnds(st, h, x, j);
  }

  lemma AheadEnds(st: Store, h: Digest, x: Cast, j: nat)
    requires Playable(x) && Hosts(st, x.c, Both(x)) && st.queue == {x.k, x.n} && x.k !in Drain(st, h, Visits(x.k, j)).queue
    ensures var end := Drain(st, h, Visits(x.k, j));
            && end.queue == {x.n} && Hosts(end, x.c, Both(x)) && Agrees(end, h, x.c) && end.pipelines[x.n] == st.pipelines[x.n]
  {
    AheadStart(st, h, x);
    ServedAhead(st, h, j, x.c, x.k, x.n, st.pipelines[x.n]);
    DrainKeepsHosts(st, h, Visits(x.k, j), x.c, Both(x));
    OnlyOther(Drain(st, h, Visits(x.k, j)), h, x, st.pipelines[x.n]);
  }

  lemma OnlyOther(st: Store, h: Digest, x: Cast, p: Pipeline)
    requires Ahead(st, h, x.c, x.k, x.n, p) && st.queue <= Both(x).Keys && x.k !in st.queue
    ensures st.queue == {x.n} && Agrees(st, h, x.c) && st.pipelines[x.n] == p
  {
    assert Both(x).Keys == {x.k, x.n};
  }

  lemma DropCalm(st: Store, n: string)
    requires Calm(st)
    ensures Calm(DropPipeline(st, n))
  {
    RemoveKeeps(st.pipelines, n);
  }

  /** `c` agrees with `n` merged, so not without it. */
  lemma NotWithout(st: Store, h: Digest, c: string, n: string)
    requires Agrees(st, h, c) && n in st.pipelines && st.pipelines[n].spec.clusterRef == c && !st.pipelines[n].deleting
    ensures !AgreesWithout(st, h, c, n)
  {
    DocumentChanges(Active(st.pipelines, c, None), n);
  }

  lemma DeleteDisagrees(s: State, h: Digest, c: string, n: string, visits: seq<Visit>)
    requires s.worker.Idle? && s.store.queue == {n} && Tidy(s.store.pipelines) && c in s.store.clusters && Agrees(s.store, h, c)
    requires n in Members(s.store.pipelines, c) && !s.store.pipelines[n].finalizer
    requires var st' := Step(s, h, DeletePipeline(n)).store;
             Chain(st', h, visits) && Drain(st', h, visits).queue == {}
    ensures !Agrees(Drain(Step(s, h, DeletePipeline(n)).store, h, visits), h, c)
  {
    EarlyDeleteOrphans(s, h, n, visits);
    NotWithout(s.store, h, c, n);
  }

  lemma DeleteEdit(s: State, h: Digest, x: Cast)
    requires Playable(x) && Hosts(s.store, x.c, Both(x)) && !s.store.pipelines[x.n].finalizer
    ensures var st' := Step(s, h, DeletePipeline(x.n)).store;
            StillThere(st', x.c, x.k) && x.n in Members(s.store.pipelines, x.c)
  {
    BothHosted(s.store, x);
    DeleteEffect(s, h, x.n);
    DropCalm(s.store, x.n);
  }

  /** Early deletion orphans: there is a disciplined run from a bare API server to an idle worker, after
      which deleting a pipeline that is merged but still without finalizer, and serving the queue until it
      is empty, leaves its cluster in disagreement. */
  lemma EarlyDeleteWitness(h: Digest, x: Cast) returns (actions: seq<Action>, s: State, visits: seq<Visit>)
    requires Playable(x)
    ensures Reaches(h, actions, s) && s.worker.Idle? && Agrees(s.store, h, x.c)
    ensures var st' := Step(s, h, DeletePipeline(x.n)).store;
            Chain(st', h, visits) && Orphaned(Drain(st', h, visits), h, x.c)
  {
    actions, s := AheadReached(h, x);
    var st' := Step(s, h, DeletePipeline(x.n)).store;
    DeleteEdit(s, h, x);
    visits := ChainExists(st', h);
    DeleteDisagrees(s, h, x.c, x.n, visits);
    StaysBehind(st', h, visits, x.k, x.c);
  }

  // ---------- a Deployment lost before its rollout was observed ----------

  /** A whole reconcile leaves an agreeing cluster agreeing, with a status that is up to date. */
  lemma ReconcileAgrees(st: Store, h: Digest, ns: string, c: string, seen: Sighting)
    requires Resolvable(st, c) && Agrees(st, h, c)
    ensures Agrees(WholeReconcile(st, h, ns, c, seen), h, c)
  {
    var spec := st.clusters[c].spec;
    KeepWorld(st, h, ns, c);
    ReconcileKeepsSync(st, h, ns, c, spec, ClusterObjects.Resolve(spec, st.others.classes).config, Wanted(st, c).value);
    StatusWrite(KeptStore(st, h, ns, c), c, seen.rollout, seen.now);
  }

  /** The sighting calls for the status the cluster has. */
  predicate UpToDate(cluster: Cluster, pipelines: int, seen: Sighting) {
    NextClusterStatus(cluster, seen.rollout, pipelines, seen.now) == cluster.status
  }

  lemma ReconcileUpToDate(st: Store, h: Digest, ns: string, c: string, seen: Sighting)
    requires Resolvable(st, c)
    ensures var st' := WholeReconcile(st, h, ns, c, seen);
            c in st'.clusters && UpToDate(st'.clusters[c], |Active(st.pipelines, c, None)|, seen)
  {
    var mid := KeptStore(st, h, ns, c);
    KeepWorld(st, h, ns, c);
    StatusWrite(mid, c, seen.rollout, seen.now);
    ClusterStatusSettles(mid.clusters[c], seen.rollout, |Active(st.pipelines, c, None)|, seen.now, seen.now);
  }

  /** Rest, with the cluster's status up to date. */
  lemma ObservedAtRest(h: Digest, x: Cast) returns (actions: seq<Action>, s: State)
    requires Playable(x)
    ensures Reaches(h, actions, s) && Resting(s, h, x.c, One(x)) && SpecOf(s.store, x)
    ensures UpToDate(s.store.clusters[x.c], |One(x)|, x.seen)
  {
    actions, s := OneAtRest(h, x);
    var st := s.store;
    assert s == State(st, Idle);
    SpecResolves(st, x);
    HostsDocument(st, x.c, One(x));
    var mid := State(WholeReconcile(st, h, x.ns, x.c, x.seen), Idle);
    actions := ReconcileReached(h, actions, st, x.ns, x.c, x.seen);
    ReconcileHosts(st, h, x.ns, x.c, x.seen, One(x));
    ReconcileSpec(st, h, x);
    ReconcileAgrees(st, h, x.ns, x.c, x.seen);
    ReconcileUpToDate(st, h, x.ns, x.c, x.seen);
    var visits;
    actions, s, visits := RestFollows(h, actions, mid, x.c, One(x));
  }

  /** The loss and one whole reconcile, on the store. */
  lemma LossOrphans(st: Store, h: Digest, x: Cast)
    requires Playable(x) && Resting(State(st, Idle), h, x.c, One(x)) && SpecOf(st, x)
    requires UpToDate(st.clusters[x.c], |One(x)|, x.seen)
    ensures Orphaned(WholeReconcile(Without(st, x.c), h, x.ns, x.c, x.seen), h, x.c)
  {
    SpecResolves(st, x);
    HostsDocument(st, x.c, One(x));
    assert x.k in Members(st.pipelines, x.c);
    assert |h(Wanted(st, x.c).value)| == 16;
    UnmovedLoss(st, h, x.ns, x.c, x.seen);
  }

  /** Losing a Deployment can orphan: there is a disciplined run from a bare API server to rest, after which a
      Deployment that is lost before its rollout was observed, and recreated by one whole reconcile that sees
      the same figures again and so writes no status, stays without its hash. */
  lemma LostDeploymentWitness(h: Digest, x: Cast) returns (actions: seq<Action>, s: State, more: seq<Action>)
    requires Playable(x)
    ensures Reaches(h, actions, s) && Quiescent(s) && Agrees(s.store, h, x.c)
    ensures var lost := Step(s, h, LoseDeployment(x.c));
            && DisciplinedRun(lost, h, more) && (forall i :: 0 <= i < |more| ==> ControllerAction(more[i], x.c))
            && Quiescent(Run(lost, h, more)) && Orphaned(Run(lost, h, more).store, h, x.c)
  {
    actions, s := ObservedAtRest(h, x);
    var st := s.store;
    assert s == State(st, Idle);
    SpecResolves(st, x);
    LossOrphans(st, h, x);
    LoseStep(s, h, x.c);
    more := ReconcileIsRun(Without(st, x.c), Idle, h, x.ns, x.c, x.seen.rollout, x.seen.now);
  }

  lemma LoseStep(s: State, h: Digest, c: string)
    ensures Step(s, h, LoseDeployment(c)) == s.(store := Without(s.store, c))
  {
  }

  // ---------- a lasting orphan ----------

  /** Only pipeline `n` is left and queued, merged but without finalizer. */
  ghost predicate LastOne(st: Store, h: Digest, c: string, n: string) {
    && Tidy(st.pipelines) && c in st.clusters && Agrees(st, h, c) && st.queue == {n}
    && st.pipelines.Keys == {n} && st.pipelines[n].spec.clusterRef == c
    && !st.pipelines[n].deleting && !st.pipelines[n].finalizer
  }

  /** A pipeline on its way out, and one that is merged but without finalizer, both queued. */
  ghost predicate Leaving(st: Store, c: string, k: string, n: string) {
    && Tidy(st.pipelines) && c in st.clusters && Provisioned(st, c) && k != n
    && st.pipelines.Keys == {k, n} && st.queue == {k, n}
    && st.pipelines[k].spec.clusterRef == c && st.pipelines[k].deleting
    && st.pipelines[n].spec.clusterRef == c && !st.pipelines[n].deleting && !st.pipelines[n].finalizer
  }

  lemma LeavingReached(s: State, h: Digest, x: Cast)
    requires Playable(x) && s.worker.Idle? && s.store.queue == {x.n} && Hosts(s.store, x.c, Both(x))
    requires !s.store.pipelines[x.n].finalizer
    ensures var s' := Step(s, h, DeletePipeline(x.k));
            Disciplined(s, h, DeletePipeline(x.k)) && s'.worker.Idle? && Leaving(s'.store, x.c, x.k, x.n)
  {
    BothHosted(s.store, x);
    DeleteEffect(s, h, x.k);
    DeleteKeepsTidy(s, h, x.k);
  }

  /** The first visit finishes the deletion; the document is then that of `n` alone. */
  lemma LeavingVisit(st: Store, h: Digest, c: string, k: string, n: string)
    requires Leaving(st, c, k, n)
    ensures var st' := Process(st, h, k, 0);
            && Tidy(st'.pipelines) && st'.clusters == st.clusters && Agrees(st', h, c)
            && st'.pipelines == st.pipelines - {k} && st'.queue == {k, n}
  {
    FinalizeAgrees(st, h, k, 0);
    LeavingStore(st, h, c, k, n);
    RemoveKeeps(st.pipelines, k);
  }

  lemma LeavingStore(st: Store, h: Digest, c: string, k: string, n: string)
    requires Leaving(st, c, k, n)
    ensures var st' := Process(st, h, k, 0);
            st'.clusters == st.clusters && st'.pipelines == st.pipelines - {k} && st'.queue == {k, n}
  {
    VisitServes(st, h, k, 0);
    LeavingPipelines(st, h, c, k);
    LeavingQueue(st, Process(st, h, k, 0), c, k, n);
  }

  lemma LeavingPipelines(st: Store, h: Digest, c: string, k: string)
    requires Tidy(st.pipelines) && k in st.pipelines && st.pipelines[k].deleting && st.pipelines[k].spec.clusterRef == c
    requires Provisioned(st, c)
    ensures var st' := Process(st, h, k, 0);
            st'.pipelines == st.pipelines - {k} && k in st'.queue
  {
    RebuildAgrees(Unqueue(st, k), h, c, Some(k));
    FinalizeVisit(st, h, k, 0);
  }

  lemma LeavingQueue(st: Store, st': Store, c: string, k: string, n: string)
    requires Leaving(st, c, k, n) && Served(st, st', k) && k in st'.queue
    ensures st'.queue == {k, n}
  {
  }

  /** The second one finds it gone. */
  lemma GoneVisit(st: Store, h: Digest, k: string)
    requires k !in st.pipelines
    ensures Process(st, h, k, 0) == Unqueue(st, k)
  {
  }

  lemma TwoVisits(st: Store, h: Digest, k: string)
    requires k in st.queue && k in Process(st, h, k, 0).queue
    ensures Chain(st, h, Visits(k, 2)) && Drain(st, h, Visits(k, 2)) == Process(Process(st, h, k, 0), h, k, 0)
  {
    var st1 := Process(st, h, k, 0);
    FirstVisit(st, h, k, 2);
    FirstVisit(st1, h, k, 1);
    FirstDrain(st, h, k, 2);
    FirstDrain(st1, h, k, 1);
  }

  lemma LastOneReached(st: Store, h: Digest, c: string, k: string, n: string)
    requires Leaving(st, c, k, n)
    ensures Chain(st, h, Visits(k, 2)) && LastOne(Drain(st, h, Visits(k, 2)), h, c, n)
  {
    LeavingVisit(st, h, c, k, n);
    TwoVisits(st, h, k);
    GoneVisit(Process(st, h, k, 0), h, k);
  }

  /** Deleting it leaves its document in the ConfigMap of a cluster without pipelines. */
  lemma LastOneAbandons(s: State, h: Digest, c: string, n: string)
    requires s.worker.Idle? && LastOne(s.store, h, c, n)
    ensures var st' := Step(s, h, DeletePipeline(n)).store;
            var end := Process(st', h, n, 0);
            && n in st'.queue && end.queue == {} && end.pipelines == map[] && Abandoned(State(end, Idle), c)
  {
    DeleteEffect(s, h, n);
    GoneVisit(DropPipeline(s.store, n), h, n);
    DocumentNotEmpty(s.store, h, c, n);
  }

  lemma DocumentNotEmpty(st: Store, h: Digest, c: string, n: string)
    requires Agrees(st, h, c) && n in Members(st.pipelines, c) && !st.pipelines[n].deleting
    ensures !Holds(st.configMaps[ConfigMapName(c)], PLACEHOLDER)
  {
    var a := Active(st.pipelines, c, None);
    assert n in a;
    EntriesEmpty(a);
  }

  /** A lasting orphan: there is a disciplined run from a bare API server to an idle worker, after which deleting a
      pipeline that is merged but still without finalizer, the last of its cluster, and serving the queue, leaves
      nothing queued and no pipeline at all, and its definition in the ConfigMap.  From there on nothing the
      operator does ever takes it out: `AbandonedForever` applies. */
  lemma LastingOrphanWitness(h: Digest, x: Cast, after: seq<Action>) returns (actions: seq<Action>, s: State)
    requires Playable(x) && forall i :: 0 <= i < |after| ==> LeavesAlone(after[i], x.c)
    ensures Reaches(h, actions, s) && s.worker.Idle? && Agrees(s.store, h, x.c)
    ensures var st' := Step(s, h, DeletePipeline(x.n)).store;
            var end := Process(st', h, x.n, 0);
            && x.n in st'.queue && end.queue == {} && end.pipelines == map[] && ConfigMapName(x.c) in end.configMaps
            && var last := Run(State(end, Idle), h, after).store;
               && !Agrees(last, h, x.c) && ConfigMapName(x.c) in last.configMaps
               && last.configMaps[ConfigMapName(x.c)] == s.store.configMaps[ConfigMapName(x.c)]
  {
    var mid;
    actions, mid := AheadReached(h, x);
    LeavingReached(mid, h, x);
    ReachesStep(h, actions, mid, DeletePipeline(x.k));
    actions, mid := actions + [DeletePipeline(x.k)], Step(mid, h, DeletePipeline(x.k));
    assert mid == State(mid.store, Idle);
    LastOneReached(mid.store, h, x.c, x.k, x.n);
    var more := ChainIsRun(mid.store, h, Visits(x.k, 2));
    s := State(Drain(mid.store, h, Visits(x.k, 2)), Idle);
    ReachesThen(h, actions, mid, more, s);
    actions := actions + more;
    LastOneStays(s, h, x.c, x.n, after);
  }

  lemma LastOneStays(s: State, h: Digest, c: string, n: string, after: seq<Action>)
    requires s.worker.Idle? && LastOne(s.store, h, c, n) && forall i :: 0 <= i < |after| ==> LeavesAlone(after[i], c)
    ensures var st' := Step(s, h, DeletePipeline(n)).store;
            var end := Process(st', h, n, 0);
            && n in st'.queue && end.queue == {} && end.pipelines == map[] && ConfigMapName(c) in end.configMaps
            && var last := Run(State(end, Idle), h, after).store;
               && !Agrees(last, h, c) && ConfigMapName(c) in last.configMaps
               && last.configMaps[ConfigMapName(c)] == s.store.configMaps[ConfigMapName(c)]
  {
    var end := Process(Step(s, h, DeletePipeline(n)).store, h, n, 0);
    LastOneAbandons(s, h, c, n);
    DeleteEffect(s, h, n);
    GoneVisit(DropPipeline(s.store, n), h, n);
    AbandonedForever(State(end, Idle), h, after, c);
  }
}
