/** What a reconcile that ends well leaves on the stored pipeline, field by field. */
module PipelineOutcome {
  import opened Objects
  import opened Merge
  import opened Admission
  import opened PodHealth
  import opened Conditions
  import opened Rebuild
  import opened Reconcile

  /** A pipeline as its status update leaves it: all but status and version is as before. */
  predicate OnlyStatusMoved(p: Pipeline, q: Pipeline) {
    q == p.(status := q.status, version := q.version)
  }

  lemma WrittenStatus(st: Store, n: string, p: Pipeline, phase: Phase, health: Health, faults: Faults, now: nat)
    requires n in st.pipelines && st.pipelines[n] == p && WriteStatus(st, n, p, phase, health, faults, now).ok
    ensures var st' := WriteStatus(st, n, p, phase, health, faults, now).store;
            && n in st'.pipelines && OnlyStatusMoved(p, st'.pipelines[n])
            && st'.pipelines[n].status == NextStatus(p, phase, health, now)
  {
  }

  /** The Ready condition and the phase of a computed status. */
  lemma ReadyValues(p: Pipeline, phase: Phase, health: Health, now: nat)
    ensures var status := NextStatus(p, phase, health, now);
            var ready := Get(status.conditions, Ready);
            && status.phase == phase && status.observedGeneration == p.generation && ready.Some?
            && ready.value.observedGeneration == p.generation
            && ready.value.status == (if phase == Applied then True else False)
            && ready.value.reason == (if phase == Applied then "PipelineApplied" else "ClusterNotFound")
            && ready.value.message ==
               (if phase == Applied then Words("pipeline content merged into cluster ConfigMap")
                else Words("cluster \"" + p.spec.clusterRef + "\" not found in namespace"))
  {
    SetAllEffect(p.status.conditions, PipelineSignals(p.spec.clusterRef, p.generation, phase, health), now, 0);
  }

  /** The Healthy condition of a computed status. */
  lemma HealthyValues(p: Pipeline, phase: Phase, health: Health, now: nat)
    ensures var healthy := Get(NextStatus(p, phase, health, now).conditions, Healthy);
            if !health.known then healthy == Get(p.status.conditions, Healthy)
            else
              && healthy.Some? && healthy.value.observedGeneration == p.generation
              && healthy.value.status == (if health.healthy then True else False)
              && healthy.value.reason == health.reason && healthy.value.message == Words(health.message)
  {
    var signals := PipelineSignals(p.spec.clusterRef, p.generation, phase, health);
    if health.known {
      SetAllEffect(p.status.conditions, signals, now, 1);
    } else {
      SetAllUntouched(p.status.conditions, signals, now, Healthy);
    }
  }

  /** How a good end comes about: the status was computed for a cluster that is there, after a rebuild, or for one that
      is not. */
  lemma GoodEnd(st: Store, h: Digest, n: string, faults: Faults, now: nat)
    requires n in st.pipelines && !st.pipelines[n].deleting && st.pipelines[n].finalizer
    requires ReconcilePipeline(st, h, n, faults, now).ok
    ensures var p, st' := st.pipelines[n], ReconcilePipeline(st, h, n, faults, now).store;
            var c := p.spec.clusterRef;
            && n in st'.pipelines && OnlyStatusMoved(p, st'.pipelines[n])
            && st'.pipelines[n].status ==
               (if c in st.clusters then NextStatus(p, Applied, Scan(st, c, faults), now) else NextStatus(p, Pending, UNKNOWN, now))
  {
    var p := st.pipelines[n];
    var c := p.spec.clusterRef;
    if c in st.clusters {
      var r := RebuildCluster(st, h, c, None, faults);
      CrashConsistent(st, h, c, None, faults);
      WrittenStatus(r.store, n, p, Applied, Scan(r.store, c, faults), faults, now);
    } else {
      WrittenStatus(st, n, p, Pending, UNKNOWN, faults, now);
    }
  }

  /** Phase and Ready.  After every reconcile of a live pipeline that ends well, whichever calls failed without
      stopping it, the stored pipeline has phase Applied if its cluster is there and Pending if it is not; phase and
      Ready condition speak for the current generation; Ready is true exactly for phase Applied and otherwise false,
      with the reason and the words for it; and nothing of the pipeline but its status moved. */
  lemma StoredPhase(st: Store, h: Digest, n: string, faults: Faults, now: nat)
    requires n in st.pipelines && !st.pipelines[n].deleting && st.pipelines[n].finalizer
    requires ReconcilePipeline(st, h, n, faults, now).ok
    ensures var p, st' := st.pipelines[n], ReconcilePipeline(st, h, n, faults, now).store;
            n in st'.pipelines
            && var q := st'.pipelines[n];
               var ready := Get(q.status.conditions, Ready);
               && q == p.(status := q.status, version := q.version)
               && q.status.phase == (if p.spec.clusterRef in st.clusters then Applied else Pending)
               && q.status.observedGeneration == p.generation
               && ready.Some? && ready.value.observedGeneration == p.generation
               && (q.status.phase == Applied <==> ready.value.status == True)
               && (q.status.phase != Applied <==> ready.value.status == False)
               && (p.spec.clusterRef in st.clusters ==>
                     ready.value.reason == "PipelineApplied"
                     && ready.value.message == Words("pipeline content merged into cluster ConfigMap"))
               && (p.spec.clusterRef !in st.clusters ==>
                     ready.value.reason == "ClusterNotFound"
                     && ready.value.message == Words("cluster \"" + p.spec.clusterRef + "\" not found in namespace"))
  {
    var p := st.pipelines[n];
    GoodEnd(st, h, n, faults, now);
    if p.spec.clusterRef in st.clusters {
      ReadyValues(p, Applied, Scan(st, p.spec.clusterRef, faults), now);
    } else {
      ReadyValues(p, Pending, UNKNOWN, now);
    }
  }

  /** A reconcile of a live pipeline that meets no fault ends well if its cluster is absent, or provisioned with
      documents that merge, and only then. */
  lemma EndsWell(st: Store, h: Digest, n: string, now: nat)
    requires n in st.pipelines && !st.pipelines[n].deleting && st.pipelines[n].finalizer
    ensures var c := st.pipelines[n].spec.clusterRef;
            ReconcilePipeline(st, h, n, NO_FAULTS, now).ok <==>
            c !in st.clusters || (Provisioned(st, c) && Mergeable(Active(st.pipelines, c, None)))
  {
    var c := st.pipelines[n].spec.clusterRef;
    if c in st.clusters && Mergeable(Active(st.pipelines, c, None)) {
      var content := ContentOf(Active(st.pipelines, c, None)).value;
      ApplyEffect(st, h, c, content, NO_FAULTS);
    }
  }

  /** The other ways through a reconcile that meets no fault, on the store: a pipeline that is not there, or on its way out
      without the operator's finalizer, is left alone; a live admitted one without finalizer gets it and is queued
      again, and nothing else moves; and one on its way out with the finalizer is gone. */
  lemma StoredFinalizer(st: Store, h: Digest, n: string, now: nat)
    requires AllAdmitted(st.pipelines)
    requires n in st.pipelines ==> st.pipelines[n].deleting || !st.pipelines[n].finalizer
    ensures var r := ReconcilePipeline(st, h, n, NO_FAULTS, now);
            && r.ok
            && (n !in st.pipelines || (st.pipelines[n].deleting && !st.pipelines[n].finalizer) ==> r.store == st)
            && (n in st.pipelines && !st.pipelines[n].deleting ==>
                  && n in r.store.pipelines && n in r.store.queue
                  && r.store.pipelines[n] == st.pipelines[n].(finalizer := true, version := r.store.pipelines[n].version)
                  && r.store == st.(pipelines := st.pipelines[n := r.store.pipelines[n]], queue := r.store.queue, clock := r.store.clock))
            && (n in st.pipelines && st.pipelines[n].deleting && st.pipelines[n].finalizer ==> r.store.pipelines == st.pipelines - {n})
  {
    if n in st.pipelines {
      var p := st.pipelines[n];
      OwnUpdatesReadmitted(st.pipelines, n);
      if p.deleting && p.finalizer {
        AdmittedMerges(st.pipelines, p.spec.clusterRef, Some(n));
        FinalizeEnds(st, h, n);
      }
    }
  }

  lemma FinalizeEnds(st: Store, h: Digest, n: string)
    requires n in st.pipelines && Admissible(st.pipelines, n, st.pipelines[n].spec)
    requires Mergeable(Active(st.pipelines, st.pipelines[n].spec.clusterRef, Some(n)))
    ensures var r := Finalize(st, h, n, st.pipelines[n], NO_FAULTS);
            r.ok && r.store.pipelines == st.pipelines - {n}
  {
    var c := st.pipelines[n].spec.clusterRef;
    CrashConsistent(st, h, c, Some(n), NO_FAULTS);
    NeverFails(st, h, c, ContentOf(Active(st.pipelines, c, Some(n))).value);
  }

  lemma NeverFails(st: Store, h: Digest, c: string, content: Content)
    ensures ApplyContent(st, h, c, content, NO_FAULTS).outcome != Failed
  {
  }

  /** Some pod of `c` is listed, and none that is staying has a data-prepper container that waits or has terminated
      for a stated reason. */
  ghost predicate RunsWell(pods: seq<Pod>, c: string) {
    && (exists pod :: pod in pods && pod.app == c)
    && (forall pod, cs ::
          (pod in pods && pod.app == c && !pod.deleting && cs in pod.containers && cs.name == "data-prepper") ==>
          !(cs.waiting.Some? && cs.waiting.value.reason != "") && !(cs.terminated.Some? && cs.terminated.value.reason != ""))
  }

  lemma ScanValues(st: Store, c: string, faults: Faults)
    ensures var health := Scan(st, c, faults);
            && (health.known <==> ListPods !in faults)
            && (health.known ==> (health.healthy <==> RunsWell(st.others.pods, c)))
            && (health.known && (forall pod :: pod in st.others.pods ==> pod.app != c) ==> health.reason == "NoPods")
  {
    var health, pods := Scan(st, c, faults), PodsOf(st.others.pods, c);
    if ListPods in faults || pods == [] {
      HealthWithoutPods(health, if ListPods in faults then None else Some(pods));
      assert pods == [] ==> forall pod :: pod in st.others.pods && pod.app == c ==> pod in pods;
    } else {
      HealthInFields(health, pods);
      assert pods[0] in pods;
      if health.healthy {
        forall pod, cs | pod in st.others.pods && pod.app == c && !pod.deleting && cs in pod.containers && cs.name == "data-prepper"
          ensures !Stated(cs.waiting) && !Stated(cs.terminated)
        {
          assert pod in pods;
          var i :| 0 <= i < |pods| && pods[i] == pod;
          var k :| 0 <= k < |pod.containers| && pod.containers[k] == cs;
          assert pods[i].containers[k].name == "data-prepper";
        }
      }
    }
  }

  /** Healthy.  After every reconcile of a live pipeline that ends well, the stored Healthy condition is true if and
      only if the cluster is there with pods that run well, for the current generation; if the cluster is not there
      or the pods could not be listed, it is what it was. */
  lemma StoredHealth(st: Store, h: Digest, n: string, faults: Faults, now: nat)
    requires n in st.pipelines && !st.pipelines[n].deleting && st.pipelines[n].finalizer
    requires ReconcilePipeline(st, h, n, faults, now).ok
    ensures var p, st' := st.pipelines[n], ReconcilePipeline(st, h, n, faults, now).store;
            n in st'.pipelines
            && var healthy := Get(st'.pipelines[n].status.conditions, Healthy);
               if p.spec.clusterRef !in st.clusters || ListPods in faults then healthy == Get(p.status.conditions, Healthy)
               else
                 && healthy.Some? && healthy.value.observedGeneration == p.generation
                 && (healthy.value.status == True <==> RunsWell(st.others.pods, p.spec.clusterRef))
                 && (healthy.value.status == False <==> !RunsWell(st.others.pods, p.spec.clusterRef))
  {
    var p := st.pipelines[n];
    GoodEnd(st, h, n, faults, now);
    ScanValues(st, p.spec.clusterRef, faults);
    if p.spec.clusterRef in st.clusters {
      HealthyValues(p, Applied, Scan(st, p.spec.clusterRef, faults), now);
    } else {
      HealthyValues(p, Pending, UNKNOWN, now);
    }
  }
}
