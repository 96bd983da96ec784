/** Each rule of `Disciplined` is needed, and exactly when: what one broken rule leads to once the
    queue has been served until it is empty, in any order. */
module Necessity {
  import opened Objects
  import opened Names
  import opened Watch
  import opened Merge
  import opened Admission
  import opened Conditions
  import opened ApiStore
  import opened Rebuild
  import opened Protocol
  import opened Agreement
  import opened FinalizerSafety
  import opened Termination
  import opened Draining

  /** Nothing is queued, and a provisioned cluster with pipelines is left in disagreement. */
  ghost predicate Orphaned(st: Store, h: Digest, c: string) {
    st.queue == {} && c in st.clusters && Provisioned(st, c) && Members(st.pipelines, c) != {} && !Agrees(st, h, c)
  }

  /** Leaving out one active pipeline changes the document. */
  lemma DocumentChanges(a: map<string, PipelineSpec>, n: string)
    requires Mergeable(a) && n in a
    ensures Mergeable(a - {n}) && ContentOf(a - {n}) != ContentOf(a)
  {
  }

  lemma ActiveWithout(m: map<string, Pipeline>, m': map<string, Pipeline>, c: string, n: string)
    requires m' == m - {n} || (n in m' && m' == m[n := m'[n]] && (m'[n].spec.clusterRef != c || m'[n].deleting))
    ensures Active(m', c, None) == Active(m, c, None) - {n}
  {
  }

  // ---------- retargeting ----------

  /** A live pipeline that leaves `c` takes its agreement along. */
  lemma LiveLeaves(st: Store, st': Store, h: Digest, c: string, n: string)
    requires n in st.pipelines && st.pipelines[n].spec.clusterRef == c && !st.pipelines[n].deleting && Agrees(st, h, c)
    requires Active(st'.pipelines, c, None) == Active(st.pipelines, c, None) - {n}
    requires st'.configMaps == st.configMaps && st'.deployments == st.deployments
    ensures !Agrees(st', h, c)
  {
    DocumentChanges(Active(st.pipelines, c, None), n);
  }

  lemma NotActive(m: map<string, Pipeline>, c: string, n: string)
    requires n in m && m[n].deleting
    ensures Active(m, c, None) - {n} == Active(m, c, None)
  {
  }

  /** What the edit leaves for `c` when the pipeline goes to another cluster. */
  lemma RetargetView(st: Store, h: Digest, n: string, p: Pipeline, c: string)
    requires n in st.pipelines && st.pipelines[n].spec.clusterRef == c && p.spec.clusterRef != c && Agrees(st, h, c)
    ensures Agrees(PutPipeline(st, n, p), h, c) <==> st.pipelines[n].deleting
  {
    var st' := PutPipeline(st, n, p);
    ActiveWithout(st.pipelines, st'.pipelines, c, n);
    if st.pipelines[n].deleting {
      NotActive(st.pipelines, c, n);
    } else {
      LiveLeaves(st, st', h, c, n);
    }
  }

  lemma EditEffect(s: State, h: Digest, n: string, spec: PipelineSpec)
    requires n in s.store.pipelines && Admissible(s.store.pipelines, n, spec) && spec != s.store.pipelines[n].spec
    ensures var p := s.store.pipelines[n];
            Step(s, h, EditPipeline(n, spec)) == s.(store := PutPipeline(s.store, n, p.(spec := spec, generation := p.generation + 1)))
  {
  }

  lemma PutKeepsTidy(st: Store, n: string, p: Pipeline)
    requires Tidy(st.pipelines) && Admissible(st.pipelines, n, p.spec) && (p.deleting ==> p.finalizer)
    ensures Tidy(PutPipeline(st, n, p).pipelines)
  {
    AdmitKeeps(st.pipelines, n, p.(version := st.clock + 1));
  }

  /** Writing a pipeline with nothing else queued makes due the cluster it selects, and no other. */
  lemma PutDue(st: Store, n: string, p: Pipeline, c: string)
    requires st.queue == {}
    ensures Due(PutPipeline(st, n, p), c) <==> p.spec.clusterRef == c
  {
    var st' := PutPipeline(st, n, p);
    if p.spec.clusterRef == c {
      assert n in st'.queue && n in Members(st'.pipelines, c);
    }
  }

  /** What the edit leaves to hope for. */
  lemma EditHopes(st: Store, h: Digest, n: string, p: Pipeline)
    requires n in st.pipelines && st.queue == {} && p.deleting == st.pipelines[n].deleting
    requires Agrees(st, h, st.pipelines[n].spec.clusterRef)
    ensures Hopeful(PutPipeline(st, n, p), h, st.pipelines[n].spec.clusterRef) <==>
            p.spec.clusterRef == st.pipelines[n].spec.clusterRef || p.deleting
  {
    var c := st.pipelines[n].spec.clusterRef;
    PutDue(st, n, p, c);
    if p.spec.clusterRef != c {
      RetargetView(st, h, n, p, c);
    }
  }

  lemma EditDecides(st: Store, st': Store, h: Digest, n: string, p: Pipeline, visits: seq<Visit>)
    requires Tidy(st.pipelines) && n in st.pipelines && st.queue == {} && st' == PutPipeline(st, n, p)
    requires Admissible(st.pipelines, n, p.spec) && p.deleting == st.pipelines[n].deleting && p.finalizer == st.pipelines[n].finalizer
    requires st.pipelines[n].spec.clusterRef in st.clusters && Agrees(st, h, st.pipelines[n].spec.clusterRef)
    requires Chain(st', h, visits) && Drain(st', h, visits).queue == {}
    ensures Agrees(Drain(st', h, visits), h, st.pipelines[n].spec.clusterRef) <==>
            p.spec.clusterRef == st.pipelines[n].spec.clusterRef || p.deleting
  {
    PutKeepsTidy(st, n, p);
    EditHopes(st, h, n, p);
    DrainDecides(st', h, visits, st.pipelines[n].spec.clusterRef);
  }

  /** Retargeting.  Let everything be at rest and `c` agree, and edit a pipeline of `c` in any
      admissible way.  Once the queue has been served, in any order, `c` agrees if and only if the edit
      left the pipeline in `c`, or the pipeline was on its way out anyway.  Otherwise the definition
      that left is still in the ConfigMap of `c`. */
  lemma RetargetOrphans(s: State, h: Digest, n: string, spec: PipelineSpec, visits: seq<Visit>)
    requires Quiescent(s) && Tidy(s.store.pipelines) && n in s.store.pipelines
    requires s.store.pipelines[n].spec.clusterRef in s.store.clusters
    requires Agrees(s.store, h, s.store.pipelines[n].spec.clusterRef)
    requires Admissible(s.store.pipelines, n, spec)
    requires var st' := Step(s, h, EditPipeline(n, spec)).store;
             Chain(st', h, visits) && Drain(st', h, visits).queue == {}
    ensures var c, end := s.store.pipelines[n].spec.clusterRef, Drain(Step(s, h, EditPipeline(n, spec)).store, h, visits);
            Agrees(end, h, c) <==> spec.clusterRef == c || s.store.pipelines[n].deleting
  {
    var st, st' := s.store, Step(s, h, EditPipeline(n, spec)).store;
    if spec == st.pipelines[n].spec {
      assert visits == [];
    } else {
      EditEffect(s, h, n, spec);
      var p := st.pipelines[n].(spec := spec, generation := st.pipelines[n].generation + 1);
      EditDecides(st, st', h, n, p, visits);
    }
  }

  // ---------- deleting before the finalizer is attached ----------

  /** `c` already is as it should be once `n` is gone. */
  ghost predicate AgreesWithout(st: Store, h: Digest, c: string, n: string) {
    var wanted := ContentOf(Active(st.pipelines, c, None) - {n});
    wanted.Some? && InSync(st, h, c, wanted.value)
  }

  ghost predicate OtherDue(st: Store, c: string, n: string) {
    exists k :: k != n && k in st.queue && k in Members(st.pipelines, c)
  }

  lemma DeleteEffect(s: State, h: Digest, n: string)
    requires n in s.store.pipelines && !s.store.pipelines[n].deleting
    ensures var p := s.store.pipelines[n];
            Step(s, h, DeletePipeline(n)).store ==
            if p.finalizer then PutPipeline(s.store, n, p.(deleting := true, generation := p.generation + 1))
            else DropPipeline(s.store, n)
  {
  }

  lemma DeleteKeepsTidy(s: State, h: Digest, n: string)
    requires Tidy(s.store.pipelines) && n in s.store.pipelines && !s.store.pipelines[n].deleting
    ensures Tidy(Step(s, h, DeletePipeline(n)).store.pipelines)
  {
    DeleteEffect(s, h, n);
    var m' := Step(s, h, DeletePipeline(n)).store.pipelines;
    if s.store.pipelines[n].finalizer {
      OwnUpdatesReadmitted(s.store.pipelines, n);
      AdmitKeeps(s.store.pipelines, n, m'[n]);
    } else {
      RemoveKeeps(s.store.pipelines, n);
    }
  }

  lemma DeleteDue(st: Store, st': Store, c: string, n: string)
    requires n in Members(st.pipelines, c) && n in st'.queue && st'.queue == st.queue + {n}
    requires st'.pipelines == st.pipelines - {n} || (n in st'.pipelines && st'.pipelines == st.pipelines[n := st'.pipelines[n]]
                                                     && st'.pipelines[n].spec == st.pipelines[n].spec)
    ensures Due(st', c) <==> n in st'.pipelines || OtherDue(st, c, n)
  {
    if n in st'.pipelines {
      assert n in st'.queue && n in Members(st'.pipelines, c);
    }
    if OtherDue(st, c, n) {
      var k :| k != n && k in st.queue && k in Members(st.pipelines, c);
      assert k in st'.queue && k in Members(st'.pipelines, c);
    }
  }

  /** Deletion.  Let the worker be idle in any store of admitted pipelines, and delete a live pipeline
      of `c`.  Once the queue has been served, in any order, `c` agrees if and only if it agreed
      without the pipeline to begin with, or is provisioned and either the finalizer was attached
      or another pipeline of `c` was queued.  Otherwise the definition stays behind. */
  lemma EarlyDeleteOrphans(s: State, h: Digest, n: string, visits: seq<Visit>)
    requires s.worker.Idle? && Tidy(s.store.pipelines) && n in s.store.pipelines && !s.store.pipelines[n].deleting
    requires s.store.pipelines[n].spec.clusterRef in s.store.clusters
    requires var st' := Step(s, h, DeletePipeline(n)).store;
             Chain(st', h, visits) && Drain(st', h, visits).queue == {}
    ensures var st, c := s.store, s.store.pipelines[n].spec.clusterRef;
            var end := Drain(Step(s, h, DeletePipeline(n)).store, h, visits);
            Agrees(end, h, c) <==>
            AgreesWithout(st, h, c, n) || (Provisioned(st, c) && (st.pipelines[n].finalizer || OtherDue(st, c, n)))
  {
    var st, c := s.store, s.store.pipelines[n].spec.clusterRef;
    var st' := Step(s, h, DeletePipeline(n)).store;
    DeleteEffect(s, h, n);
    DeleteKeepsTidy(s, h, n);
    ActiveWithout(st.pipelines, st'.pipelines, c, n);
    DeleteDue(st, st', c, n);
    DrainDecides(st', h, visits, c);
  }

  // ---------- an orphan that stays ----------

  /** A cluster without pipelines whose ConfigMap still holds a document for some. */
  ghost predicate Abandoned(s: State, c: string) {
    && Members(s.store.pipelines, c) == {} && !Serves(s.worker, c)
    && ConfigMapName(c) in s.store.configMaps && !Holds(s.store.configMaps[ConfigMapName(c)], PLACEHOLDER)
  }

  /** Nobody selects `c`, and nobody edits or removes its ConfigMap. */
  predicate LeavesAlone(a: Action, c: string) {
    match a
    case CreatePipeline(_, spec) => spec.clusterRef != c
    case EditPipeline(_, spec) => spec.clusterRef != c
    case EditConfigMap(name, _) => name != ConfigMapName(c)
    case RemoveConfigMap(name) => name != ConfigMapName(c)
    case DeleteCluster(d) => d != c
    case _ => true
  }

  /** The worker writes its own pipeline, */
  lemma AnswerKeepsMembers(s: State, h: Digest, r: Answer, c: string)
    requires Members(s.store.pipelines, c) == {} && s.worker.Busy? && !Serves(s.worker, c)
    ensures Members(Succeed(s, h, r).store.pipelines, c) == {}
  {
    var s' := Succeed(s, h, r);
    if s.worker.stage.Attach? || s.worker.stage.Detach? || s.worker.stage.Report? {
      forall n | n in s'.store.pipelines
        ensures s'.store.pipelines[n].spec.clusterRef != c
      {
        assert n in s.store.pipelines ==> n !in Members(s.store.pipelines, c);
      }
    } else {
      QuietAnswer(s, h, r);
    }
  }

  /** and the objects of its own cluster. */
  lemma AnswerKeepsMap(s: State, h: Digest, r: Answer, c: string)
    requires s.worker.Busy? && !Serves(s.worker, c) && ConfigMapName(c) in s.store.configMaps
    ensures var s' := Succeed(s, h, r);
            && !Serves(s'.worker, c) && ConfigMapName(c) in s'.store.configMaps
            && s'.store.configMaps[ConfigMapName(c)] == s.store.configMaps[ConfigMapName(c)]
  {
    if s.worker.stage.WriteConfig? {
      ConfigMapNamesInjective();
    } else {
      ConfigUntouched(s, h, r);
    }
  }

  lemma AnswerLeavesAlone(s: State, h: Digest, r: Answer, c: string)
    requires Abandoned(s, c) && s.worker.Busy?
    ensures var s' := Succeed(s, h, r);
            && Abandoned(s', c) && s'.store.configMaps[ConfigMapName(c)] == s.store.configMaps[ConfigMapName(c)]
  {
    AnswerKeepsMembers(s, h, r, c);
    AnswerKeepsMap(s, h, r, c);
  }

  lemma UserLeavesAlone(s: State, h: Digest, a: Action, c: string)
    requires Abandoned(s, c) && LeavesAlone(a, c) && UserAction(a)
    ensures var s' := Step(s, h, a);
            Abandoned(s', c) && s'.store.configMaps == s.store.configMaps
  {
  }

  lemma OthersLeaveAlone(s: State, h: Digest, a: Action, c: string)
    requires Abandoned(s, c) && LeavesAlone(a, c) && !UserAction(a) && !a.Work?
    ensures var s' := Step(s, h, a);
            && Abandoned(s', c) && s'.store.configMaps[ConfigMapName(c)] == s.store.configMaps[ConfigMapName(c)]
  {
    ConfigMapNamesInjective();
    PeerNamesDisjoint();
    if a.Begin? {
      assert a.name !in Members(s.store.pipelines, c);
    } else if a.DeleteCluster? {
      assert ConfigMapName(c) != ConfigMapName(a.cluster) && ConfigMapName(c) != PeerConfigMapName(a.cluster);
    }
  }

  lemma StepLeavesAlone(s: State, h: Digest, a: Action, c: string)
    requires Abandoned(s, c) && LeavesAlone(a, c)
    ensures var s' := Step(s, h, a);
            && Abandoned(s', c) && s'.store.configMaps[ConfigMapName(c)] == s.store.configMaps[ConfigMapName(c)]
  {
    if UserAction(a) {
      UserLeavesAlone(s, h, a, c);
    } else if !a.Work? {
      OthersLeaveAlone(s, h, a, c);
    } else if s.worker.Busy? {
      AnswerLeavesAlone(s, h, a.answer, c);
    }
  }

  /** A lasting orphan.  Once a cluster has no pipeline left and its ConfigMap still lists one, it stays so,
      to the letter, over every run whatever, restarts and reconciles of either controller included, until a
      pipeline selects the cluster again or somebody edits or removes the ConfigMap. */
  lemma {:induction false} AbandonedForever(s: State, h: Digest, actions: seq<Action>, c: string)
    requires Abandoned(s, c) && forall i :: 0 <= i < |actions| ==> LeavesAlone(actions[i], c)
    ensures var s' := Run(s, h, actions);
            && Abandoned(s', c) && !Agrees(s'.store, h, c)
            && s'.store.configMaps[ConfigMapName(c)] == s.store.configMaps[ConfigMapName(c)]
    decreases actions
  {
    if actions == [] {
      NoDocument(s, h, c);
    } else {
      StepLeavesAlone(s, h, actions[0], c);
      AbandonedForever(Step(s, h, actions[0]), h, actions[1..], c);
    }
  }

  /** Without pipelines the document is the placeholder. */
  lemma NoDocument(s: State, h: Digest, c: string)
    requires Abandoned(s, c)
    ensures !Agrees(s.store, h, c)
  {
    var a := Active(s.store.pipelines, c, None);
    forall n
      ensures n !in a
    {
      assert n !in Members(s.store.pipelines, c);
    }
    assert a == map[];
    EntriesEmpty(a);
  }

  // ---------- being told that the work is done ----------

  lemma ClosingMoves(s: State, h: Digest, r: Answer)
    requires s.worker.Busy? && s.worker.stage.ReadDeploy? && Closing(s, h, r)
    ensures Succeed(s, h, r) == OnRebuilt(s, r.health)
  {
  }

  /** The call that follows changes nothing `c` depends on. */
  lemma DetachEnds(s: State, h: Digest, r: Answer, c: string)
    requires s.worker.Busy? && s.worker.stage.Detach? && s.worker.seen.deleting
    requires Fresh(s.store, s.worker.name, s.worker.seen) ==> s.store.pipelines[s.worker.name] == s.worker.seen
    ensures var s' := Succeed(s, h, r);
            && s'.worker.Idle? && s'.store.configMaps == s.store.configMaps && s'.store.deployments == s.store.deployments
            && Active(s'.store.pipelines, c, None) == Active(s.store.pipelines, c, None)
  {
  }

  lemma ReportEnds(s: State, h: Digest, r: Answer, c: string)
    requires s.worker.Busy? && s.worker.stage.Report?
    requires Fresh(s.store, s.worker.name, s.worker.seen) ==> s.store.pipelines[s.worker.name] == s.worker.seen
    ensures var s' := Succeed(s, h, r);
            && s'.worker.Idle? && s'.store.configMaps == s.store.configMaps && s'.store.deployments == s.store.deployments
            && Active(s'.store.pipelines, c, None) == Active(s.store.pipelines, c, None)
            && (s'.store.queue == {} <==>
                  s.store.queue == {} && NextStatus(s.worker.seen, s.worker.stage.phase, s.worker.stage.health, r.now) == s.worker.seen.status)
  {
  }

  /** Stale reads.  Let the worker have the current document in the ConfigMap and read the Deployment,
      however stale, with the answer that its work is done.  After its last call the cluster agrees
      if and only if the Deployment really carries the hash; and for a live pipeline everything is
      then at rest if and only if nothing was queued and the status is already as computed. */
  lemma StaleReadMisleads(s: State, h: Digest, r: Answer, last: Answer)
    requires s.worker.Busy? && s.worker.stage.ReadDeploy? && Closing(s, h, r)
    requires OnIt(s, s.worker.seen.spec.clusterRef)
    requires Fresh(s.store, s.worker.name, s.worker.seen) ==> s.store.pipelines[s.worker.name] == s.worker.seen
    ensures var st, c, content := s.store, s.worker.seen.spec.clusterRef, s.worker.stage.content;
            var s' := Succeed(Succeed(s, h, r), h, last);
            && s'.worker.Idle?
            && (Agrees(s'.store, h, c) <==> c in st.deployments && Annotation(st.deployments[c]) == h(content))
            && (c in st.deployments ==> (Agrees(s'.store, h, c) <==> Trusted(s, h, r)))
            && (!s.worker.seen.deleting ==>
                  (Quiescent(s') <==> st.queue == {} && NextStatus(s.worker.seen, Applied, r.health, last.now) == s.worker.seen.status))
  {
    ClosingMoves(s, h, r);
    if s.worker.seen.deleting {
      DetachEnds(Succeed(s, h, r), h, last, s.worker.seen.spec.clusterRef);
    } else {
      ReportEnds(Succeed(s, h, r), h, last, s.worker.seen.spec.clusterRef);
    }
  }
}
