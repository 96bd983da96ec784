/** Quiescent agreement: whenever the queue is empty and nothing is in flight, every provisioned
    cluster with a pipeline has the ConfigMap and the annotation its pipelines call for. */
module Agreement {
  import opened Objects
  import opened Names
  import opened Watch
  import opened Rendering
  import opened Merge
  import opened Conditions
  import opened ApiStore
  import opened Rebuild
  import opened Overlaying
  import opened Protocol

  /** The Deployment read on which the worker takes its rebuild to be complete: it shows the wanted
      hash, or no Deployment at all while the pipeline is being deleted. */
  ghost predicate Closing(s: State, h: Digest, r: Answer)
    requires s.worker.Busy? && s.worker.stage.ReadDeploy?
  {
    var found := DeployFound(s.store, s.worker.seen.spec.clusterRef, r.read);
    if found.None? then s.worker.seen.deleting else Annotation(found.value) == h(s.worker.stage.content)
  }

  /** Such a read is right: the hash is there, or there is no Deployment.  Nothing is asked of any
      other read, however stale. */
  ghost predicate Trusted(s: State, h: Digest, r: Answer) {
    s.worker.Busy? && s.worker.stage.ReadDeploy? && Closing(s, h, r) ==>
      var st, c := s.store, s.worker.seen.spec.clusterRef;
      if c in st.deployments then Annotation(st.deployments[c]) == h(s.worker.stage.content)
      else DeployFound(st, c, r.read).None?
  }

  /** What agreement rests on: nobody retargets a pipeline, deletes one before its finalizer is
      attached, or takes a Deployment away, and the worker is not told that its work is already
      done when it is not.  Modules Necessity and LostDeployment show exactly when
      breaking each rule does harm. */
  ghost predicate Disciplined(s: State, h: Digest, a: Action) {
    match a
    case EditPipeline(n, spec) => n in s.store.pipelines ==> s.store.pipelines[n].spec.clusterRef == spec.clusterRef
    case DeletePipeline(n) => n in s.store.pipelines ==> s.store.pipelines[n].finalizer
    case LoseDeployment(_) => false
    case Work(Answered, r) => Trusted(s, h, r)
    case _ => true
  }

  ghost predicate DisciplinedRun(s: State, h: Digest, actions: seq<Action>)
    decreases actions
  {
    actions != [] ==> Disciplined(s, h, actions[0]) && DisciplinedRun(Step(s, h, actions[0]), h, actions[1..])
  }

  // ---------- structural invariant ----------

  /** The pipeline in flight still exists, still selects the same cluster, and is the one that
      was read if its version is. */
  ghost predicate WorkerOk(s: State) {
    var st, w := s.store, s.worker;
    w.Busy? ==>
      && w.name in st.pipelines
      && var p := st.pipelines[w.name];
         && p.spec.clusterRef == w.seen.spec.clusterRef
         && (w.seen.deleting ==> p.deleting)
         && w.seen.version <= st.clock
         && (p.version == w.seen.version ==> p == w.seen)
         && (w.stage.Attach? || w.stage.Resolve? || w.stage.Report? ==> !w.seen.deleting)
         && (w.stage.Attach? ==> !w.seen.finalizer)
         && (w.stage.Detach? ==> w.seen.deleting)
         && (w.stage.WriteConfig? ==>
               && w.stage.base.version <= st.clock
               && var cm := ConfigMapName(w.seen.spec.clusterRef);
                  (cm in st.configMaps && st.configMaps[cm].version == w.stage.base.version ==> st.configMaps[cm] == w.stage.base))
         && (w.stage.WriteDeploy? ==>
               && w.stage.target.version <= st.clock
               && var c := w.seen.spec.clusterRef;
                  (c in st.deployments && st.deployments[c].version == w.stage.target.version ==> st.deployments[c] == w.stage.target))
  }

  // ---------- coverage invariant ----------

  predicate Serves(w: Worker, c: string) {
    w.Busy? && w.seen.spec.clusterRef == c
  }

  /** The reconcile in flight holds a rendered document for `c` that it may still apply. */
  predicate Committed(w: Worker, c: string) {
    Serves(w, c) && (w.stage.ReadConfig? || w.stage.WriteConfig? || w.stage.ReadDeploy? || w.stage.WriteDeploy?)
  }

  ghost predicate Removing(w: Worker, n: string) {
    w.Busy? && w.seen.deleting && w.name == n
  }

  /** `n` selects `c` and is not just being removed. */
  ghost predicate Mine(s: State, c: string, n: string) {
    n in s.store.pipelines && s.store.pipelines[n].spec.clusterRef == c && !Removing(s.worker, n)
  }

  /** The reconcile of `n` in flight has yet to find out that an object of `c` is missing. */
  ghost predicate Awaiting(s: State, c: string, n: string) {
    var w := s.worker;
    && Serves(w, c) && w.name == n && !w.seen.deleting
    && (|| w.stage.Attach? || w.stage.Resolve? || w.stage.Collect? || w.stage.ReadConfig?
        || ((w.stage.WriteConfig? || w.stage.ReadDeploy? || w.stage.WriteDeploy?) && ConfigMapName(c) in s.store.configMaps))
  }

  /** While an object of `c` is missing, all its pipelines keep being retried. */
  ghost predicate Retried(s: State, c: string) {
    c in s.store.clusters && !Provisioned(s.store, c) ==>
      forall n :: Mine(s, c, n) ==> n in s.store.queue || Awaiting(s, c, n)
  }

  ghost function Wanted(st: Store, c: string): Option<Content> {
    ContentOf(Active(st.pipelines, c, None))
  }

  /** The reconcile in flight serves `c` and what it has established so far still holds. */
  ghost predicate OnIt(s: State, c: string) {
    var w, cm := s.worker, ConfigMapName(c);
    && Serves(w, c)
    && (|| w.stage.Attach? || w.stage.Resolve? || w.stage.Collect?
        || ((w.stage.ReadConfig? || w.stage.WriteConfig?) && Wanted(s.store, c) == Some(w.stage.content))
        || ((w.stage.ReadDeploy? || w.stage.WriteDeploy?) && Wanted(s.store, c) == Some(w.stage.content)
            && cm in s.store.configMaps && Holds(s.store.configMaps[cm], w.stage.content)))
  }

  ghost predicate SomeQueued(s: State, c: string) {
    exists n :: Mine(s, c, n) && n in s.store.queue
  }

  ghost predicate Inhabited(s: State, c: string) {
    exists n :: Mine(s, c, n)
  }

  /** A cluster with pipelines has one of them queued, or the reconcile in flight is about to
      make it agree, or it agrees and nothing is about to be written. */
  ghost predicate Covered(s: State, h: Digest, c: string) {
    c in s.store.clusters && Inhabited(s, c) ==>
      SomeQueued(s, c) || OnIt(s, c) || (Agrees(s.store, h, c) && !Committed(s.worker, c))
  }

  ghost predicate Inv(s: State, h: Digest) {
    && VersionsOk(s.store)
    && WorkerOk(s)
    && forall c :: Retried(s, c) && Covered(s, h, c)
  }

  // ---------- steps that do not concern a cluster ----------

  /** From cluster `c`'s point of view nothing happened, except that the queue may have grown. */
  ghost predicate Unaffected(s: State, s': State, c: string) {
    && (s'.worker == s.worker || (!Serves(s.worker, c) && !Serves(s'.worker, c)))
    && (c in s'.store.clusters ==> c in s.store.clusters)
    && s.store.queue <= s'.store.queue
    && (forall n :: Mine(s', c, n) <==> Mine(s, c, n))
    && Active(s'.store.pipelines, c, None) == Active(s.store.pipelines, c, None)
    && SameObjects(s.store, s'.store, c)
  }

  ghost predicate SameObjects(st: Store, st': Store, c: string) {
    var cm := ConfigMapName(c);
    && (cm in st'.configMaps <==> cm in st.configMaps)
    && (cm in st.configMaps ==> st'.configMaps[cm].data == st.configMaps[cm].data)
    && (c in st'.deployments <==> c in st.deployments)
    && (c in st.deployments ==> Annotation(st'.deployments[c]) == Annotation(st.deployments[c]))
  }

  lemma UnaffectedKept(s: State, s': State, h: Digest, c: string)
    requires Unaffected(s, s', c) && Retried(s, c) && Covered(s, h, c)
    ensures Retried(s', c) && Covered(s', h, c)
  {
  }

  /** All pipelines of `c` were enqueued, which covers `c` whatever else happened. */
  lemma EnqueuedKept(s': State, h: Digest, c: string)
    requires Members(s'.store.pipelines, c) <= s'.store.queue
    ensures Retried(s', c) && Covered(s', h, c)
  {
  }

  // ---------- users ----------

  /** A write to pipeline `n`, of cluster `c0` before and after, by somebody else. */
  lemma PutPipelineKept(s: State, h: Digest, n: string, p: Pipeline, c: string)
    requires Inv(s, h)
    requires n in s.store.pipelines ==>
               && s.store.pipelines[n].spec.clusterRef == p.spec.clusterRef
               && (s.store.pipelines[n].deleting ==> p.deleting)
    ensures var s' := s.(store := PutPipeline(s.store, n, p));
            Retried(s', c) && Covered(s', h, c)
  {
    var s' := s.(store := PutPipeline(s.store, n, p));
    assert Retried(s, c) && Covered(s, h, c);
    if s'.store != s.store {
      if p.spec.clusterRef != c || Removing(s.worker, n) {
        assert Active(s'.store.pipelines, c, None) == Active(s.store.pipelines, c, None);
        assert forall k :: Mine(s', c, k) <==> Mine(s, c, k);
        UnaffectedKept(s, s', h, c);
      } else {
        assert Mine(s', c, n) && n in s'.store.queue;
        if c in s'.store.clusters && !Provisioned(s'.store, c) {
          forall k | Mine(s', c, k)
            ensures k in s'.store.queue || Awaiting(s', c, k)
          {
            assert k == n || Mine(s, c, k);
          }
        }
      }
    }
  }

  lemma PutPipelineStructure(s: State, h: Digest, n: string, p: Pipeline)
    requires Inv(s, h)
    requires n in s.store.pipelines ==>
               && s.store.pipelines[n].spec.clusterRef == p.spec.clusterRef
               && (s.store.pipelines[n].deleting ==> p.deleting)
    requires p.deleting ==> p.finalizer
    ensures var s' := s.(store := PutPipeline(s.store, n, p));
            VersionsOk(s'.store) && WorkerOk(s')
  {
  }

  predicate UserAction(a: Action) {
    a.CreatePipeline? || a.EditPipeline? || a.DeletePipeline?
  }

  lemma UserStep(s: State, h: Digest, a: Action)
    requires Inv(s, h) && UserAction(a) && Disciplined(s, h, a)
    ensures Inv(Step(s, h, a), h)
  {
    var s' := Step(s, h, a);
    if s' != s {
      var n := a.name;
      var p := if a.CreatePipeline? then Pipeline(a.spec, false, false, 1, FRESH_STATUS, 0)
               else if a.EditPipeline? then s.store.pipelines[n].(spec := a.spec, generation := s.store.pipelines[n].generation + 1)
               else s.store.pipelines[n].(deleting := true, generation := s.store.pipelines[n].generation + 1);
      assert s' == s.(store := PutPipeline(s.store, n, p));
      PutPipelineStructure(s, h, n, p);
      forall c {
        PutPipelineKept(s, h, n, p, c);
      }
    }
  }

  // ---------- clusters, ConfigMaps and Deployments ----------

  /** A change that leaves pipelines and worker alone. */
  ghost predicate ObjectsOnly(s: State, s': State) {
    && s'.worker == s.worker && s'.store.pipelines == s.store.pipelines
    && s.store.queue <= s'.store.queue && s.store.clock <= s'.store.clock
  }

  /** Objects of the API server only disappear, stay, or get a version above the old clock. */
  ghost predicate VersionsMove(st: Store, st': Store) {
    && (forall n :: n in st'.configMaps ==>
          (n in st.configMaps && st'.configMaps[n] == st.configMaps[n]) || st.clock < st'.configMaps[n].version <= st'.clock)
    && (forall n :: n in st'.deployments ==>
          (n in st.deployments && st'.deployments[n] == st.deployments[n]) || st.clock < st'.deployments[n].version <= st'.clock)
  }

  lemma ObjectsStructure(s: State, s': State, h: Digest)
    requires Inv(s, h) && ObjectsOnly(s, s') && VersionsMove(s.store, s'.store)
    ensures VersionsOk(s'.store) && WorkerOk(s')
  {
  }

  /** Each cluster either saw nothing or had all its pipelines enqueued. */
  lemma ObjectsStep(s: State, s': State, h: Digest)
    requires Inv(s, h) && ObjectsOnly(s, s') && VersionsMove(s.store, s'.store)
    requires forall c :: Noticed(s.store, s'.store, c)
    ensures Inv(s', h)
  {
    ObjectsStructure(s, s', h);
    forall c
      ensures Retried(s', c) && Covered(s', h, c)
    {
      assert Retried(s, c) && Covered(s, h, c);
      assert Noticed(s.store, s'.store, c);
      if Members(s'.store.pipelines, c) <= s'.store.queue {
        EnqueuedKept(s', h, c);
      } else {
        assert forall n :: Mine(s', c, n) <==> Mine(s, c, n);
        UnaffectedKept(s, s', h, c);
      }
    }
  }

  predicate EnvironmentAction(a: Action) {
    || a.CreateCluster? || a.EditCluster? || a.WriteClusterStatus? || a.DeleteCluster?
    || a.EditConfigMap? || a.RemoveConfigMap? || a.ProvideConfigMap? || a.ChangeOthers?
  }

  /** Either cluster `c` has all its pipelines enqueued, or it cannot tell the difference. */
  ghost predicate Noticed(st: Store, st': Store, c: string) {
    || Members(st'.pipelines, c) <= st'.queue
    || ((c in st'.clusters ==> c in st.clusters) && SameObjects(st, st', c))
  }

  /** An event on any ConfigMap reaches the cluster it belongs to, if any. */
  lemma ConfigEventNoticed(st: Store, name: string, data: map<DataKey, Content>, c: string)
    ensures Noticed(st, PutConfigMap(st, name, data), c)
    ensures Noticed(st, ApiStore.DropConfigMap(st, name), c)
  {
  }

  lemma ClusterEventNoticed(s: State, h: Digest, a: Action, c: string)
    requires a.CreateCluster? || a.EditCluster? || a.WriteClusterStatus? || a.DeleteCluster?
    ensures Noticed(s.store, Step(s, h, a).store, c)
  {
    if c != a.cluster {
      ConfigMapNamesInjective();
      PeerNamesDisjoint();
      assert ConfigMapName(c) != ConfigMapName(a.cluster) && ConfigMapName(c) != PeerConfigMapName(a.cluster);
    }
  }

  lemma EnvironmentStep(s: State, h: Digest, a: Action)
    requires Inv(s, h) && EnvironmentAction(a)
    ensures Inv(Step(s, h, a), h)
  {
    var s' := Step(s, h, a);
    forall c
      ensures Noticed(s.store, s'.store, c)
    {
      if a.CreateCluster? || a.EditCluster? || a.WriteClusterStatus? || a.DeleteCluster? {
        ClusterEventNoticed(s, h, a, c);
      } else if !a.ChangeOthers? {
        var name := if a.ProvideConfigMap? then ConfigMapName(a.cluster) else a.configMap;
        ConfigEventNoticed(s.store, name, if a.EditConfigMap? then a.data else map[PipelinesYaml := PLACEHOLDER], c);
      }
    }
    ObjectsStep(s, s', h);
  }

  /** A Deployment write by the cluster controller or the autoscaler keeps a non-empty hash. */
  lemma HashSurvives(s: State, h: Digest, a: Action)
    requires a.ProvideDeployment? || a.Scale?
    ensures var st, st' := s.store, Step(s, h, a).store;
            && (forall c :: c != a.cluster ==> SameObjects(st, st', c))
            && (a.cluster in st.deployments ==>
                  a.cluster in st'.deployments
                  && (Annotation(st.deployments[a.cluster]) != "" ==>
                        Annotation(st'.deployments[a.cluster]) == Annotation(st.deployments[a.cluster])))
            && st'.configMaps == st.configMaps && st'.clusters == st.clusters
  {
    var st := s.store;
    if a.ProvideDeployment? && a.cluster in st.deployments && Annotation(st.deployments[a.cluster]) != "" {
      OverlayKeepsHash(st.deployments[a.cluster], a.desired, a.autoscaled);
    }
  }

  /** The Deployment of `c` changed while `c` did not agree: whatever covered `c` still does. */
  lemma DisagreeingKept(s: State, s': State, h: Digest, c: string)
    requires ObjectsOnly(s, s') && s'.store.configMaps == s.store.configMaps && s'.store.clusters == s.store.clusters
    requires c in s.store.deployments ==> c in s'.store.deployments
    requires !Agrees(s.store, h, c) && Retried(s, c) && Covered(s, h, c)
    ensures Retried(s', c) && Covered(s', h, c)
  {
    assert forall n :: Mine(s', c, n) <==> Mine(s, c, n);
    if SomeQueued(s, c) {
      var n :| Mine(s, c, n) && n in s.store.queue;
      assert Mine(s', c, n) && n in s'.store.queue;
    }
    if Inhabited(s', c) {
      var n :| Mine(s', c, n);
      assert Mine(s, c, n);
    }
  }

  lemma DeploymentStep(s: State, h: Digest, a: Action)
    requires Inv(s, h) && (a.ProvideDeployment? || a.Scale?)
    ensures Inv(Step(s, h, a), h)
  {
    var s' := Step(s, h, a);
    ObjectsStructure(s, s', h);
    HashSurvives(s, h, a);
    forall c
      ensures Retried(s', c) && Covered(s', h, c)
    {
      assert Retried(s, c) && Covered(s, h, c);
      if c != a.cluster || Agrees(s.store, h, c) {
        assert forall n :: Mine(s', c, n) <==> Mine(s, c, n);
        UnaffectedKept(s, s', h, c);
      } else {
        DisagreeingKept(s, s', h, c);
      }
    }
  }

  // ---------- the worker ----------

  /** Taking a name off the queue: its cluster is now in the worker's hands. */
  lemma BeginCovers(s: State, h: Digest, name: string, c: string)
    requires VersionsOk(s.store) && s.worker.Idle? && name in s.store.queue
    requires Retried(s, c) && Covered(s, h, c)
    ensures Retried(Start(s, name), c) && Covered(Start(s, name), h, c)
  {
    var s' := Start(s, name);
    assert forall n :: Mine(s', c, n) ==> Mine(s, c, n);
    if SomeQueued(s, c) && !OnIt(s', c) {
      var n :| Mine(s, c, n) && n in s.store.queue;
      assert Mine(s', c, n) && n in s'.store.queue;
    }
    if Inhabited(s', c) {
      var n :| Mine(s', c, n);
      assert Mine(s, c, n);
    }
  }

  lemma BeginStructure(s: State, name: string)
    requires VersionsOk(s.store) && s.worker.Idle?
    ensures VersionsOk(Start(s, name).store) && WorkerOk(Start(s, name))
  {
  }

  lemma BeginStep(s: State, h: Digest, name: string)
    requires Inv(s, h) && s.worker.Idle? && name in s.store.queue
    ensures Inv(Start(s, name), h)
  {
    BeginStructure(s, name);
    forall c
      ensures Retried(Start(s, name), c) && Covered(Start(s, name), h, c)
    {
      assert Retried(s, c) && Covered(s, h, c);
      BeginCovers(s, h, name, c);
    }
  }

  /** Giving up puts the name back in the queue, which covers its cluster. */
  lemma AbortStep(s: State, h: Digest)
    requires Inv(s, h) && s.worker.Busy?
    ensures Inv(Abort(s), h)
  {
    var s', name := Abort(s), s.worker.name;
    forall c
      ensures Retried(s', c) && Covered(s', h, c)
    {
      assert Retried(s, c) && Covered(s, h, c);
      if Serves(s.worker, c) {
        assert Mine(s', c, name) && name in s'.store.queue;
      } else {
        assert forall n :: Mine(s', c, n) <==> Mine(s, c, n);
        UnaffectedKept(s, s', h, c);
      }
    }
  }

  /** The worker moves on and writes at most objects of its own cluster: only that cluster
      needs another look. */
  lemma OwnStep(s: State, s': State, h: Digest)
    requires Inv(s, h) && s.worker.Busy? && s'.worker.Busy?
    requires s'.worker.name == s.worker.name && s'.worker.seen == s.worker.seen
    requires s'.store.pipelines == s.store.pipelines && s'.store.clusters == s.store.clusters
    requires s.store.queue <= s'.store.queue && s.store.clock <= s'.store.clock
    requires VersionsMove(s.store, s'.store) && WorkerOk(s')
    requires forall c :: c != s.worker.seen.spec.clusterRef ==> SameObjects(s.store, s'.store, c)
    requires Retried(s', s.worker.seen.spec.clusterRef) && Covered(s', h, s.worker.seen.spec.clusterRef)
    ensures Inv(s', h)
  {
    forall c
      ensures Retried(s', c) && Covered(s', h, c)
    {
      assert Retried(s, c) && Covered(s, h, c);
      if !Serves(s.worker, c) {
        assert forall n :: Mine(s', c, n) <==> Mine(s, c, n);
        UnaffectedKept(s, s', h, c);
      }
    }
  }

  /** Same, for a step that writes nothing. */
  lemma MoveStep(s: State, stage: Stage, h: Digest)
    requires Inv(s, h) && s.worker.Busy? && WorkerOk(Next(s, stage))
    requires var c := s.worker.seen.spec.clusterRef;
             Retried(s, c) && Covered(s, h, c) ==> Retried(Next(s, stage), c) && Covered(Next(s, stage), h, c)
    ensures Inv(Next(s, stage), h)
  {
    assert Retried(s, s.worker.seen.spec.clusterRef);
    OwnStep(s, Next(s, stage), h);
  }

  /** The same pipelines of `c` count, and those queued still are. */
  lemma StillQueued(s: State, s': State, c: string)
    requires s'.store.pipelines == s.store.pipelines && s.store.queue <= s'.store.queue
    requires forall n :: Removing(s'.worker, n) <==> Removing(s.worker, n)
    ensures forall n :: Mine(s', c, n) <==> Mine(s, c, n)
    ensures SomeQueued(s, c) ==> SomeQueued(s', c)
    ensures Inhabited(s', c) <==> Inhabited(s, c)
  {
  }

  /** While an object is missing every remaining pipeline is queued, so letting the deletion
      go ahead loses nothing. */
  lemma MissingStep(s: State, h: Digest)
    requires Inv(s, h) && s.worker.Busy? && !s.worker.stage.Attach? && !s.worker.stage.Resolve? && !s.worker.stage.Report?
    requires !Provisioned(s.store, s.worker.seen.spec.clusterRef)
    ensures Inv(OnMissing(s), h)
  {
    if s.worker.seen.deleting {
      var s', c := Next(s, Detach), s.worker.seen.spec.clusterRef;
      assert Retried(s, c) && Covered(s, h, c);
      StillQueued(s, s', c);
      if c in s.store.clusters && Inhabited(s', c) {
        var n :| Mine(s', c, n);
        assert n in s'.store.queue;
      }
      MoveStep(s, Detach, h);
    } else {
      AbortStep(s, h);
    }
  }

  lemma CollectStep(s: State, h: Digest, r: Answer)
    requires Inv(s, h) && s.worker.Busy? && s.worker.stage.Collect?
    ensures Inv(Succeed(s, h, r), h)
  {
    var st, w := s.store, s.worker;
    var c := w.seen.spec.clusterRef;
    if w.seen.deleting {
      ExcludingDeletedIsIdle(st.pipelines, c, w.name);
    }
    var content := ContentOf(Active(st.pipelines, c, ExcludeOf(w)));
    if content.None? {
      AbortStep(s, h);
    } else {
      var s' := Next(s, ReadConfig(content.value));
      StillQueued(s, s', c);
      MoveStep(s, s'.worker.stage, h);
    }
  }

  lemma ResolveStep(s: State, h: Digest, r: Answer)
    requires Inv(s, h) && s.worker.Busy? && s.worker.stage.Resolve?
    ensures Inv(Succeed(s, h, r), h)
  {
    var s' := Succeed(s, h, r);
    var c := s.worker.seen.spec.clusterRef;
    StillQueued(s, s', c);
    MoveStep(s, s'.worker.stage, h);
  }

  lemma ReadConfigStep(s: State, h: Digest, r: Answer)
    requires Inv(s, h) && s.worker.Busy? && s.worker.stage.ReadConfig?
    ensures Inv(Succeed(s, h, r), h)
  {
    var c := s.worker.seen.spec.clusterRef;
    var cm := ConfigMapName(c);
    if cm !in s.store.configMaps {
      MissingStep(s, h);
    } else {
      var s' := Succeed(s, h, r);
      StillQueued(s, s', c);
      MoveStep(s, s'.worker.stage, h);
    }
  }

  lemma WriteConfigStep(s: State, h: Digest, r: Answer)
    requires Inv(s, h) && s.worker.Busy? && s.worker.stage.WriteConfig?
    ensures Inv(Succeed(s, h, r), h)
  {
    var st, w := s.store, s.worker;
    var c := w.seen.spec.clusterRef;
    var cm := ConfigMapName(c);
    if cm !in st.configMaps {
      MissingStep(s, h);
    } else if st.configMaps[cm].version != w.stage.base.version {
      AbortStep(s, h);
    } else {
      var s' := Succeed(s, h, r);
      assert Retried(s, c) && Covered(s, h, c);
      ConfigMapNamesInjective();
      TargetsOfOwnConfigMap(st.pipelines, c);
      StillQueued(s, s', c);
      assert Holds(s'.store.configMaps[cm], w.stage.content);
      if s'.store != st {
        EnqueuedKept(s', h, c);
      }
      OwnStep(s, s', h);
    }
  }

  /** `s'` is `s` after the rebuild of the worker's cluster is complete: the worker goes on to the
      finalizer or the status, and the annotation is the hash of its document. */
  ghost predicate Rebuilt(s: State, s': State, h: Digest) {
    && s.worker.Busy? && (s.worker.stage.ReadDeploy? || s.worker.stage.WriteDeploy?)
    && s'.worker.Busy? && s'.worker == s.worker.(stage := s'.worker.stage)
    && (if s.worker.seen.deleting then s'.worker.stage.Detach? else s'.worker.stage.Report?)
    && s'.store.pipelines == s.store.pipelines && s'.store.clusters == s.store.clusters
    && s'.store.configMaps == s.store.configMaps && s'.store.queue == s.store.queue
    && s.store.clock <= s'.store.clock && VersionsMove(s.store, s'.store)
    && (forall c :: c != s.worker.seen.spec.clusterRef ==> SameObjects(s.store, s'.store, c))
    && var c := s.worker.seen.spec.clusterRef;
       c in s.store.deployments && c in s'.store.deployments && Annotation(s'.store.deployments[c]) == h(s.worker.stage.content)
  }

  lemma RebuiltAgrees(s: State, s': State, h: Digest)
    requires Rebuilt(s, s', h) && OnIt(s, s.worker.seen.spec.clusterRef)
    ensures Agrees(s'.store, h, s.worker.seen.spec.clusterRef)
  {
  }

  lemma RebuiltRetried(s: State, s': State, h: Digest, c: string)
    requires Rebuilt(s, s', h) && c == s.worker.seen.spec.clusterRef && Retried(s, c)
    ensures Retried(s', c)
  {
    StillQueued(s, s', c);
  }

  lemma RebuiltCovers(s: State, s': State, h: Digest, c: string)
    requires Rebuilt(s, s', h) && c == s.worker.seen.spec.clusterRef && Covered(s, h, c)
    ensures Covered(s', h, c)
  {
    StillQueued(s, s', c);
    if OnIt(s, c) {
      RebuiltAgrees(s, s', h);
    }
  }

  lemma RebuiltStep(s: State, s': State, h: Digest)
    requires Inv(s, h) && Rebuilt(s, s', h)
    ensures Inv(s', h)
  {
    var c := s.worker.seen.spec.clusterRef;
    assert Retried(s, c) && Covered(s, h, c);
    RebuiltRetried(s, s', h, c);
    RebuiltCovers(s, s', h, c);
    OwnStep(s, s', h);
  }

  lemma ReadDeployStep(s: State, h: Digest, r: Answer)
    requires Inv(s, h) && s.worker.Busy? && s.worker.stage.ReadDeploy? && Trusted(s, h, r)
    ensures Inv(Succeed(s, h, r), h)
  {
    var c := s.worker.seen.spec.clusterRef;
    var s', found := Succeed(s, h, r), DeployFound(s.store, c, r.read);
    if Closing(s, h, r) {
      if c in s.store.deployments {
        RebuiltStep(s, s', h);
      } else {
        MissingStep(s, h);
      }
    } else if found.None? {
      AbortStep(s, h);
    } else {
      StillQueued(s, s', c);
      MoveStep(s, s'.worker.stage, h);
    }
  }

  lemma WriteDeployStep(s: State, h: Digest, r: Answer)
    requires Inv(s, h) && s.worker.Busy? && s.worker.stage.WriteDeploy?
    ensures Inv(Succeed(s, h, r), h)
  {
    var st, w := s.store, s.worker;
    var c := w.seen.spec.clusterRef;
    if c !in st.deployments {
      MissingStep(s, h);
    } else if st.deployments[c].version != w.stage.target.version {
      AbortStep(s, h);
    } else {
      var s' := Succeed(s, h, r);
      assert Annotation(WithHash(w.stage.target, h(w.stage.content))) == h(w.stage.content);
      RebuiltStep(s, s', h);
    }
  }

  /** Writing the pipeline in flight itself, which enqueues it. */
  lemma AttachOrReportStep(s: State, h: Digest, r: Answer)
    requires Inv(s, h) && s.worker.Busy? && (s.worker.stage.Attach? || s.worker.stage.Report?)
    ensures Inv(Succeed(s, h, r), h)
  {
    var w, s' := s.worker, Succeed(s, h, r);
    if s' == Abort(s) {
      AbortStep(s, h);
    } else if s'.store == s.store {
      ReportDone(s, h);
    } else {
      var p := if w.stage.Attach? then w.seen.(finalizer := true)
               else w.seen.(status := NextStatus(w.seen, w.stage.phase, w.stage.health, r.now));
      assert s.store.pipelines[w.name] == w.seen;
      PutPipelineStructure(s, h, w.name, p);
      forall c
        ensures Retried(s', c) && Covered(s', h, c)
      {
        OwnWriteKept(s, s', h, p, c);
      }
    }
  }

  lemma ReportDone(s: State, h: Digest)
    requires Inv(s, h) && s.worker.Busy? && s.worker.stage.Report?
    ensures Inv(s.(worker := Idle), h)
  {
    var s' := s.(worker := Idle);
    forall c
      ensures Retried(s', c) && Covered(s', h, c)
    {
      assert Retried(s, c) && Covered(s, h, c);
      StillQueued(s, s', c);
    }
  }

  lemma OwnWriteKept(s: State, s': State, h: Digest, p: Pipeline, c: string)
    requires Inv(s, h) && s.worker.Busy? && !s.worker.seen.deleting && s'.worker.Idle?
    requires s'.store == PutPipeline(s.store, s.worker.name, p) && s'.store != s.store
    requires p.spec == s.worker.seen.spec == s.store.pipelines[s.worker.name].spec
    requires p.deleting == s.store.pipelines[s.worker.name].deleting
    ensures Retried(s', c) && Covered(s', h, c)
  {
    var name := s.worker.name;
    assert Retried(s, c) && Covered(s, h, c);
    assert forall n :: Mine(s', c, n) <==> Mine(s, c, n);
    if Serves(s.worker, c) {
      assert Mine(s', c, name) && name in s'.store.queue;
    } else {
      assert Active(s'.store.pipelines, c, None) == Active(s.store.pipelines, c, None);
      UnaffectedKept(s, s', h, c);
    }
  }

  lemma DetachStep(s: State, h: Digest, r: Answer)
    requires Inv(s, h) && s.worker.Busy? && s.worker.stage.Detach?
    ensures Inv(Succeed(s, h, r), h)
  {
    var w, s' := s.worker, Succeed(s, h, r);
    if s' == Abort(s) {
      AbortStep(s, h);
    } else {
      forall c
        ensures Retried(s', c) && Covered(s', h, c)
      {
        assert Retried(s, c) && Covered(s, h, c);
        assert Active(s'.store.pipelines, c, None) == Active(s.store.pipelines, c, None);
        assert forall n :: Mine(s', c, n) <==> Mine(s, c, n);
        if SomeQueued(s, c) {
          var n :| Mine(s, c, n) && n in s.store.queue;
          assert Mine(s', c, n) && n in s'.store.queue;
        }
        if Inhabited(s', c) {
          var n :| Mine(s', c, n);
          assert Mine(s, c, n);
        }
      }
    }
  }

  lemma AnsweredStep(s: State, h: Digest, r: Answer)
    requires Inv(s, h) && s.worker.Busy? && Trusted(s, h, r)
    ensures Inv(Succeed(s, h, r), h)
  {
    match s.worker.stage
    case Attach => AttachOrReportStep(s, h, r);
    case Resolve => ResolveStep(s, h, r);
    case Collect => CollectStep(s, h, r);
    case ReadConfig(_) => ReadConfigStep(s, h, r);
    case WriteConfig(_, _) => WriteConfigStep(s, h, r);
    case ReadDeploy(_) => ReadDeployStep(s, h, r);
    case WriteDeploy(_, _) => WriteDeployStep(s, h, r);
    case Detach => DetachStep(s, h, r);
    case Report(_, _) => AttachOrReportStep(s, h, r);
  }

  /** More names in the queue never hurt. */
  lemma EnqueueStep(s: State, h: Digest, names: set<string>)
    requires Inv(s, h)
    ensures Inv(s.(store := Enqueue(s.store, names)), h)
  {
    var s' := s.(store := Enqueue(s.store, names));
    forall c
      ensures Retried(s', c) && Covered(s', h, c)
    {
      assert Retried(s, c) && Covered(s, h, c);
      StillQueued(s, s', c);
    }
  }

  lemma SameName(s: State, h: Digest, r: Answer)
    requires s.worker.Busy?
    ensures Succeed(s, h, r).worker.Busy? ==> Succeed(s, h, r).worker.name == s.worker.name
  {
  }

  /** A call whose answer is lost after it took effect. */
  lemma LostStep(s: State, h: Digest, r: Answer)
    requires Inv(s, h) && s.worker.Busy?
    ensures Inv(State(Enqueue(Succeed(s, h, r).store, {s.worker.name}), Idle), h)
  {
    var done := Succeed(s, h, r);
    if s.worker.stage.ReadDeploy? {
      AbortStep(s, h);
    } else {
      AnsweredStep(s, h, r);
      SameName(s, h, r);
      if done.worker.Idle? {
        EnqueueStep(done, h, {s.worker.name});
      } else {
        AbortStep(done, h);
      }
    }
  }

  /** A restart forgets the reconcile in flight, wherever it was, and looks at every pipeline. */
  lemma RestartStep(s: State, h: Digest)
    requires VersionsOk(s.store)
    ensures Inv(Restarted(s.store), h)
  {
    InitiallyInv(Restarted(s.store), h);
  }

  lemma StepKeepsInv(s: State, h: Digest, a: Action)
    requires Inv(s, h) && Disciplined(s, h, a)
    ensures Inv(Step(s, h, a), h)
  {
    if UserAction(a) {
      UserStep(s, h, a);
    } else if EnvironmentAction(a) {
      EnvironmentStep(s, h, a);
    } else if a.ProvideDeployment? || a.Scale? {
      DeploymentStep(s, h, a);
    } else if a.Begin? {
      if s.worker.Idle? && a.name in s.store.queue {
        BeginStep(s, h, a.name);
      }
    } else if a.Restart? {
      RestartStep(s, h);
    } else if s.worker.Busy? {
      match a.reply
      case Answered => AnsweredStep(s, h, a.answer);
      case Dropped => AbortStep(s, h);
      case Lost => LostStep(s, h, a.answer);
    }
  }

  lemma {:induction false} RunKeepsInv(s: State, h: Digest, actions: seq<Action>)
    requires Inv(s, h) && DisciplinedRun(s, h, actions)
    ensures Inv(Run(s, h, actions), h)
    decreases actions
  {
    if actions != [] {
      StepKeepsInv(s, h, actions[0]);
      RunKeepsInv(Step(s, h, actions[0]), h, actions[1..]);
    }
  }

  lemma InitiallyInv(s: State, h: Digest)
    requires Initial(s)
    ensures Inv(s, h)
  {
    forall c
      ensures Retried(s, c) && Covered(s, h, c)
    {
      EnqueuedKept(s, h, c);
    }
  }

  /** The invariant at rest. */
  lemma RestMeansAgreement(s: State, h: Digest, c: string)
    requires Inv(s, h) && Quiescent(s) && c in s.store.clusters && Members(s.store.pipelines, c) != {}
    ensures Agrees(s.store, h, c)
  {
    var n :| n in Members(s.store.pipelines, c);
    assert Mine(s, c, n);
    assert Covered(s, h, c);
  }

  /** Agreement, entry by entry: the ConfigMap holds the placeholder if no live pipeline selects the cluster; otherwise it
      holds, strictly in key order, exactly one entry with key and definition for every live pipeline that does; and the
      annotation is the hash of what the ConfigMap holds. */
  lemma AgreementInEntries(st: Store, h: Digest, c: string)
    requires Agrees(st, h, c)
    ensures c + "-pipelines" in st.configMaps && PipelinesYaml in st.configMaps[c + "-pipelines"].data && c in st.deployments
    ensures var content := st.configMaps[c + "-pipelines"].data[PipelinesYaml];
            && PipelinesHash in st.deployments[c].annotations && st.deployments[c].annotations[PipelinesHash] == h(content)
            && (content == PLACEHOLDER <==>
                  (forall n :: n in st.pipelines && st.pipelines[n].spec.clusterRef == c ==> st.pipelines[n].deleting))
            && (content != PLACEHOLDER ==>
                  && content.Rendered?
                  && (forall i, j :: 0 <= i < j < |content.entries| ==> Before(content.entries[i].key, content.entries[j].key))
                  && (forall n :: n in st.pipelines && st.pipelines[n].spec.clusterRef == c && !st.pipelines[n].deleting ==>
                        Entry(st.pipelines[n].spec.yamlKey, st.pipelines[n].spec.definition) in content.entries)
                  && (forall e :: e in content.entries ==>
                        exists n :: n in st.pipelines && st.pipelines[n].spec.clusterRef == c && !st.pipelines[n].deleting
                                    && st.pipelines[n].spec.yamlKey == e.key && st.pipelines[n].spec.definition == e.definition))
  {
    var a := Active(st.pipelines, c, None);
    var content := st.configMaps[c + "-pipelines"].data[PipelinesYaml];
    assert |h(content)| == 16;
    EntriesEmpty(a);
    if a != map[] {
      var n :| n in a;
      assert EntryOf(a[n]) in Entries(a);
      forall e | e in content.entries
        ensures exists n :: n in st.pipelines && st.pipelines[n].spec.clusterRef == c && !st.pipelines[n].deleting
                            && st.pipelines[n].spec.yamlKey == e.key && st.pipelines[n].spec.definition == e.definition
      {
        var k :| k in a && e == EntryOf(a[k]);
        assert k in st.pipelines;
      }
      forall n | n in st.pipelines && st.pipelines[n].spec.clusterRef == c && !st.pipelines[n].deleting
        ensures Entry(st.pipelines[n].spec.yamlKey, st.pipelines[n].spec.definition) in content.entries
      {
        assert n in a && EntryOf(a[n]) in Entries(a);
      }
    } else {
      forall n | n in st.pipelines && st.pipelines[n].spec.clusterRef == c
        ensures st.pipelines[n].deleting
      {
        assert n !in a;
      }
    }
  }

  /** Quiescent agreement.  Take any disciplined run from any store the operator may come up on:
      users, both controllers and the autoscaler interleaved at every API call, with calls failing
      before or after taking effect, stale Deployment reads, and restarts of the operator between
      any two calls.  Whenever it reaches an empty queue with nothing in flight, every
      cluster that selects at least one pipeline is provisioned, its ConfigMap holds the
      rendering of its active pipelines and its annotation is that content's hash. */
  lemma QuiescentAgreement(start: State, h: Digest, actions: seq<Action>, s: State, c: string)
    requires Initial(start) && DisciplinedRun(start, h, actions) && s == Run(start, h, actions)
    requires Quiescent(s) && c in s.store.clusters && Members(s.store.pipelines, c) != {}
    ensures Agrees(s.store, h, c)
  {
    InitiallyInv(start, h);
    RunKeepsInv(start, h, actions);
    RestMeansAgreement(s, h, c);
  }
}
