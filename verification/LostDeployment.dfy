/** A Deployment that is taken away and recreated by the cluster controller.  The pipeline controller does
    not watch Deployments, but the status the same reconcile writes is an event on the cluster, which it
    does watch. */
module LostDeployment {
  import opened Objects
  import opened Names
  import opened Watch
  import opened Merge
  import opened Conditions
  import opened Rebuild
  import opened ClusterObjects
  import opened ClusterReconcile
  import opened ClusterProperties
  import opened Fixpoint
  import opened Protocol
  import opened Termination
  import opened Draining

  /** What a reconcile finds the rollout to be, and when. */
  datatype Sighting = Sighting(rollout: Rollout, now: nat)

  /** One whole reconcile of a cluster that resolves, status included. */
  ghost function WholeReconcile(st: Store, h: Digest, ns: string, c: string, seen: Sighting): Store {
    KeepStatus(ReconcileObjects(st, h, ns, c).store, c, seen.rollout, seen.now)
  }

  /** One after another, as the rollout goes on. */
  ghost function Reconciles(st: Store, h: Digest, ns: string, c: string, sightings: seq<Sighting>): Store
    decreases sightings
  {
    if sightings == [] then st
    else Reconciles(WholeReconcile(st, h, ns, c, sightings[0]), h, ns, c, sightings[1..])
  }

  /** One of the sightings calls for another status than the cluster has. */
  predicate Moves(cluster: Cluster, pipelines: int, sightings: seq<Sighting>) {
    exists i :: 0 <= i < |sightings| &&
      NextClusterStatus(cluster, sightings[i].rollout, pipelines, sightings[i].now) != cluster.status
  }

  // ---------- a cluster whose objects are as they should be ----------

  /** Only the status of `c` and the queue may differ. */
  ghost predicate StatusOnly(st: Store, st': Store, c: string) {
    && c in st.clusters && c in st'.clusters
    && st' == st.(clusters := st.clusters[c := st.clusters[c].(status := st'.clusters[c].status)], queue := st'.queue)
    && st.queue <= st'.queue <= st.queue + Members(st.pipelines, c)
  }

  lemma StatusOnlyContented(st: Store, st': Store, h: Digest, ns: string, c: string)
    requires StatusOnly(st, st', c) && Contented(st, h, ns, c)
    ensures Contented(st', h, ns, c)
  {
  }

  lemma ContentedReconcile(st: Store, h: Digest, ns: string, c: string, seen: Sighting)
    requires Contented(st, h, ns, c)
    ensures WholeReconcile(st, h, ns, c, seen) == KeepStatus(st, c, seen.rollout, seen.now)
  {
    KeptIsFixpoint(st, h, ns, c, st.clusters[c].spec, ClusterObjects.Resolve(st.clusters[c].spec, st.others.classes).config);
  }

  lemma StatusWrite(st: Store, c: string, rollout: Rollout, now: nat)
    requires c in st.clusters
    ensures var st', next := KeepStatus(st, c, rollout, now),
                             NextClusterStatus(st.clusters[c], rollout, |Active(st.pipelines, c, None)|, now);
            && StatusOnly(st, st', c)
            && (if next == st.clusters[c].status then st' == st else st'.queue == st.queue + Members(st.pipelines, c))
  {
    var next := NextClusterStatus(st.clusters[c], rollout, |Active(st.pipelines, c, None)|, now);
    if next == st.clusters[c].status {
      assert st.clusters[c := st.clusters[c].(status := next)] == st.clusters;
    }
  }

  /** One reconcile: the status is written, with an event for all pipelines, or nothing happens. */
  lemma StatusRound(st: Store, h: Digest, ns: string, c: string, seen: Sighting)
    requires Contented(st, h, ns, c)
    ensures var st', next := WholeReconcile(st, h, ns, c, seen),
                             NextClusterStatus(st.clusters[c], seen.rollout, |Active(st.pipelines, c, None)|, seen.now);
            && StatusOnly(st, st', c) && Contented(st', h, ns, c)
            && (if next == st.clusters[c].status then st' == st else st'.queue == st.queue + Members(st.pipelines, c))
  {
    ContentedReconcile(st, h, ns, c, seen);
    StatusWrite(st, c, seen.rollout, seen.now);
    StatusOnlyContented(st, WholeReconcile(st, h, ns, c, seen), h, ns, c);
  }

  lemma MovesFirst(cluster: Cluster, pipelines: int, sightings: seq<Sighting>)
    requires sightings != []
    ensures Moves(cluster, pipelines, sightings) <==>
            || NextClusterStatus(cluster, sightings[0].rollout, pipelines, sightings[0].now) != cluster.status
            || Moves(cluster, pipelines, sightings[1..])
  {
    if i :| 0 < i < |sightings|
            && NextClusterStatus(cluster, sightings[i].rollout, pipelines, sightings[i].now) != cluster.status {
      assert sightings[1..][i - 1] == sightings[i];
    }
    assert forall i :: 0 <= i < |sightings[1..]| ==> sightings[1..][i] == sightings[i + 1];
  }

  lemma StatusOnlyThen(st: Store, mid: Store, st': Store, c: string)
    requires StatusOnly(st, mid, c) && StatusOnly(mid, st', c)
    ensures StatusOnly(st, st', c)
  {
  }

  /** What any number of reconciles comes to: all pipelines are queued exactly if some sighting moves the status. */
  ghost predicate RoundsTo(st: Store, st': Store, c: string, sightings: seq<Sighting>) {
    && StatusOnly(st, st', c)
    && (if Moves(st.clusters[c], |Active(st.pipelines, c, None)|, sightings)
        then st'.queue == st.queue + Members(st.pipelines, c) else st' == st)
  }

  lemma RoundThenRounds(st: Store, mid: Store, st': Store, c: string, sightings: seq<Sighting>)
    requires sightings != [] && StatusOnly(st, mid, c) && RoundsTo(mid, st', c, sightings[1..])
    requires var next := NextClusterStatus(st.clusters[c], sightings[0].rollout, |Active(st.pipelines, c, None)|, sightings[0].now);
             if next == st.clusters[c].status then mid == st else mid.queue == st.queue + Members(st.pipelines, c)
    ensures RoundsTo(st, st', c, sightings)
  {
    StatusOnlyThen(st, mid, st', c);
    MovesFirst(st.clusters[c], |Active(st.pipelines, c, None)|, sightings);
    if mid != st {
      AllQueued(st, mid, st', c);
    }
  }

  lemma {:induction false} StatusRounds(st: Store, h: Digest, ns: string, c: string, sightings: seq<Sighting>)
    requires Contented(st, h, ns, c)
    ensures RoundsTo(st, Reconciles(st, h, ns, c, sightings), c, sightings)
    decreases sightings
  {
    if sightings == [] {
      NoRounds(st, c);
    } else {
      var mid := WholeReconcile(st, h, ns, c, sightings[0]);
      StatusRound(st, h, ns, c, sightings[0]);
      StatusRounds(mid, h, ns, c, sightings[1..]);
      RoundThenRounds(st, mid, Reconciles(mid, h, ns, c, sightings[1..]), c, sightings);
    }
  }

  lemma NoRounds(st: Store, c: string)
    requires c in st.clusters
    ensures RoundsTo(st, st, c, [])
  {
    assert st.clusters[c := st.clusters[c].(status := st.clusters[c].status)] == st.clusters;
  }

  /** Once all pipelines are queued they stay so. */
  lemma AllQueued(st: Store, mid: Store, st': Store, c: string)
    requires StatusOnly(st, mid, c) && mid.queue == st.queue + Members(st.pipelines, c) && StatusOnly(mid, st', c)
    ensures st'.queue == st.queue + Members(st.pipelines, c)
  {
  }

  // ---------- after the loss ----------

  function Without(st: Store, c: string): Store { st.(deployments := st.deployments - {c}) }

  /** The class's own value for the annotation the pipelines hash goes into, usually none. */
  function ClassHash(st: Store, c: string): string
    requires Resolvable(st, c)
  {
    Lookup(ClusterObjects.Resolve(st.clusters[c].spec, st.others.classes).config.podAnnotations, PipelinesHash)
  }

  /** The objects after the first reconcile: the Deployment is back, with the annotation the class gives it. */
  lemma Recreated(st: Store, h: Digest, ns: string, c: string)
    requires Resolvable(st, c) && ConfigMapName(c) in st.configMaps
    ensures var st' := ReconcileObjects(Without(st, c), h, ns, c).store;
            && Contented(st', h, ns, c) && st'.pipelines == st.pipelines && st'.clusters == st.clusters && st'.queue == st.queue
            && Provisioned(st', c) && st'.configMaps[ConfigMapName(c)] == st.configMaps[ConfigMapName(c)]
            && Annotation(st'.deployments[c]) == ClassHash(st, c)
  {
    var lost, spec := Without(st, c), st.clusters[c].spec;
    var cfg, peerHash := ClusterObjects.Resolve(spec, st.others.classes).config, PeerHashOf(h, ns, c, spec);
    ConfigMapsAfter(lost, ns, c, spec);
    OwnMapAfter(lost, c);
    PeerKeepsQueue(lost, ns, c, spec);
    KeepTouchesObjectsOnly(lost, h, ns, c, spec, cfg);
    KeepMakesKept(lost, h, ns, c, spec, cfg);
    CreatedAnnotation(MapsKept(lost, ns, c, spec), c, spec, cfg, peerHash);
  }

  lemma CreatedAnnotation(st: Store, c: string, spec: ClusterSpec, cfg: Config, peerHash: string)
    requires c !in st.deployments
    ensures var st' := KeepDeployment(st, c, spec, cfg, peerHash);
            && c in st'.deployments && Annotation(st'.deployments[c]) == Lookup(cfg.podAnnotations, PipelinesHash)
            && st'.queue == st.queue && st'.configMaps == st.configMaps
  {
  }

  /** The first reconcile after the loss recreates; the rest, and its own status, find nothing to do but the
      status. */
  lemma ReconcilesAfterLoss(st: Store, h: Digest, ns: string, c: string, sightings: seq<Sighting>)
    requires Resolvable(st, c) && ConfigMapName(c) in st.configMaps && sightings != []
    ensures var st1 := ReconcileObjects(Without(st, c), h, ns, c).store;
            Reconciles(Without(st, c), h, ns, c, sightings) == Reconciles(st1, h, ns, c, sightings)
  {
    Recreated(st, h, ns, c);
    ContentedReconcile(ReconcileObjects(Without(st, c), h, ns, c).store, h, ns, c, sightings[0]);
  }

  /** Losing a Deployment.  Let everything be at rest and `c`, which has pipelines, agree; take its Deployment
      away and let the cluster controller reconcile any number of times, at least once.  Once the queue has
      been served, in any order, `c` agrees if and only if one of those reconciles found a status to write,
      which is an event for all pipelines of `c`, or the recreated template carries the hash to begin
      with, which then comes from the class. */
  lemma LostDeploymentHeals(st: Store, h: Digest, ns: string, c: string, sightings: seq<Sighting>, visits: seq<Visit>)
    requires Tidy(st.pipelines) && st.queue == {} && Resolvable(st, c) && Agrees(st, h, c) && Members(st.pipelines, c) != {}
    requires sightings != []
    requires var st' := Reconciles(Without(st, c), h, ns, c, sightings);
             Chain(st', h, visits) && Drain(st', h, visits).queue == {}
    ensures Agrees(Drain(Reconciles(Without(st, c), h, ns, c, sightings), h, visits), h, c) <==>
            || Moves(st.clusters[c], |Active(st.pipelines, c, None)|, sightings)
            || ClassHash(st, c) == h(ContentOf(Active(st.pipelines, c, None)).value)
  {
    LossHopes(st, h, ns, c, sightings);
    DrainDecides(Reconciles(Without(st, c), h, ns, c, sightings), h, visits, c);
  }

  /** What the pipeline controller is left with. */
  lemma LossHopes(st: Store, h: Digest, ns: string, c: string, sightings: seq<Sighting>)
    requires Tidy(st.pipelines) && st.queue == {} && Resolvable(st, c) && Agrees(st, h, c) && Members(st.pipelines, c) != {}
    requires sightings != []
    ensures var st' := Reconciles(Without(st, c), h, ns, c, sightings);
            && Tidy(st'.pipelines) && c in st'.clusters
            && (Hopeful(st', h, c) <==>
                  || Moves(st.clusters[c], |Active(st.pipelines, c, None)|, sightings)
                  || ClassHash(st, c) == h(ContentOf(Active(st.pipelines, c, None)).value))
  {
    var st1 := ReconcileObjects(Without(st, c), h, ns, c).store;
    Recreated(st, h, ns, c);
    ReconcilesAfterLoss(st, h, ns, c, sightings);
    StatusRounds(st1, h, ns, c, sightings);
    if Moves(st.clusters[c], |Active(st.pipelines, c, None)|, sightings) {
      QueuedHopes(st1, Reconciles(st1, h, ns, c, sightings), h, c);
    } else {
      RestingHopes(st, st1, h, c);
    }
  }

  lemma QueuedHopes(st1: Store, st': Store, h: Digest, c: string)
    requires Provisioned(st1, c) && Members(st1.pipelines, c) != {}
    requires StatusOnly(st1, st', c) && st'.queue == st1.queue + Members(st1.pipelines, c)
    ensures Hopeful(st', h, c)
  {
    var n :| n in Members(st1.pipelines, c);
    assert n in st'.queue && n in Members(st'.pipelines, c);
  }

  lemma RestingHopes(st: Store, st1: Store, h: Digest, c: string)
    requires Agrees(st, h, c) && st1.pipelines == st.pipelines && st1.queue == {} && Provisioned(st1, c)
    requires st1.configMaps[ConfigMapName(c)] == st.configMaps[ConfigMapName(c)]
    ensures Hopeful(st1, h, c) <==> Annotation(st1.deployments[c]) == h(ContentOf(Active(st.pipelines, c, None)).value)
  {
  }

  /** If no status moves, nothing is queued after the loss either. */
  lemma UnmovedRests(st: Store, h: Digest, ns: string, c: string, sightings: seq<Sighting>)
    requires Resolvable(st, c) && ConfigMapName(c) in st.configMaps && sightings != []
    requires !Moves(st.clusters[c], |Active(st.pipelines, c, None)|, sightings)
    ensures var st' := Reconciles(Without(st, c), h, ns, c, sightings);
            && st'.queue == st.queue && st'.pipelines == st.pipelines && st'.clusters == st.clusters && Provisioned(st', c)
  {
    Recreated(st, h, ns, c);
    ReconcilesAfterLoss(st, h, ns, c, sightings);
    StatusRounds(ReconcileObjects(Without(st, c), h, ns, c).store, h, ns, c, sightings);
  }

  lemma OneReconcile(st: Store, h: Digest, ns: string, c: string, seen: Sighting)
    ensures Reconciles(st, h, ns, c, [seen]) == WholeReconcile(st, h, ns, c, seen)
  {
    assert [seen][1..] == [];
  }

  lemma NoMove(cluster: Cluster, pipelines: int, seen: Sighting)
    requires NextClusterStatus(cluster, seen.rollout, pipelines, seen.now) == cluster.status
    ensures !Moves(cluster, pipelines, [seen])
  {
  }

  /** One whole reconcile that finds no status to write leaves a lost hash lost, with nothing queued. */
  lemma UnmovedLoss(st: Store, h: Digest, ns: string, c: string, seen: Sighting)
    requires Tidy(st.pipelines) && st.queue == {} && Resolvable(st, c) && Agrees(st, h, c) && Members(st.pipelines, c) != {}
    requires NextClusterStatus(st.clusters[c], seen.rollout, |Active(st.pipelines, c, None)|, seen.now) == st.clusters[c].status
    requires ClassHash(st, c) != h(ContentOf(Active(st.pipelines, c, None)).value)
    ensures var st' := WholeReconcile(Without(st, c), h, ns, c, seen);
            && st'.queue == {} && st'.pipelines == st.pipelines && c in st'.clusters && Provisioned(st', c)
            && !Agrees(st', h, c)
  {
    OneReconcile(Without(st, c), h, ns, c, seen);
    NoMove(st.clusters[c], |Active(st.pipelines, c, None)|, seen);
    UnmovedRests(st, h, ns, c, [seen]);
    LossHopes(st, h, ns, c, [seen]);
  }

  // ---------- when the status moves ----------

  /** A Deployment that has just been created is not observed yet, so it counts as progressing; a cluster
      whose last rollout was reported complete, or not reported at all, then gets another status. */
  lemma FreshDeploymentMoves(cluster: Cluster, pipelines: int, seen: Sighting)
    requires seen.rollout.generation != seen.rollout.observedGeneration
    requires Get(cluster.status.conditions, Progressing).Some? ==> Get(cluster.status.conditions, Progressing).value.status != True
    ensures NextClusterStatus(cluster, seen.rollout, pipelines, seen.now) != cluster.status
  {
    SetAllEffect(cluster.status.conditions, ClusterSignals(cluster.spec.replicas, cluster.generation, seen.rollout), seen.now, 1);
  }

  /** So a cluster whose rollout was complete heals by itself, whatever else is seen. */
  lemma SettledClusterHeals(st: Store, h: Digest, ns: string, c: string, sightings: seq<Sighting>, visits: seq<Visit>)
    requires Tidy(st.pipelines) && st.queue == {} && Resolvable(st, c) && Agrees(st, h, c) && Members(st.pipelines, c) != {}
    requires sightings != [] && sightings[0].rollout.generation != sightings[0].rollout.observedGeneration
    requires var progressing := Get(st.clusters[c].status.conditions, Progressing);
             progressing.Some? ==> progressing.value.status != True
    requires var st' := Reconciles(Without(st, c), h, ns, c, sightings);
             Chain(st', h, visits) && Drain(st', h, visits).queue == {}
    ensures Agrees(Drain(Reconciles(Without(st, c), h, ns, c, sightings), h, visits), h, c)
  {
    FreshDeploymentMoves(st.clusters[c], |Active(st.pipelines, c, None)|, sightings[0]);
    LostDeploymentHeals(st, h, ns, c, sightings, visits);
  }
}
