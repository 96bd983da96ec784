/** Where serving the queue leads: from any idle store, for any order of visits that empties the
    queue, exactly when a given cluster ends up in agreement. */
module Draining {
  import opened Objects
  import opened Names
  import opened Watch
  import opened Merge
  import opened Admission
  import opened PodHealth
  import opened Conditions
  import opened ApiStore
  import opened Rebuild
  import opened Protocol
  import opened Reconcile
  import opened Termination

  // ---------- what one visit can change ----------

  /** At most pipeline `k` moved: it went if it was being deleted, or kept spec and deletion mark. */
  ghost predicate RewritesAtMost(m: map<string, Pipeline>, m': map<string, Pipeline>, k: string) {
    || m' == m
    || (k in m && m[k].deleting && m' == m - {k})
    || (&& k in m && k in m' && m' == m[k := m'[k]]
        && m'[k].spec == m[k].spec && m'[k].deleting == m[k].deleting && (m[k].finalizer ==> m'[k].finalizer))
  }

  /** What a visit to `k` may do: to its cluster's objects, to itself, and to the queue. */
  ghost predicate Served(st: Store, st': Store, k: string) {
    && st'.clusters == st.clusters
    && st'.configMaps.Keys == st.configMaps.Keys && st'.deployments.Keys == st.deployments.Keys
    && RewritesAtMost(st.pipelines, st'.pipelines, k)
    && st.queue - {k} <= st'.queue
    && (k !in st.pipelines ==> st' == Unqueue(st, k))
    && (k in st.pipelines ==>
          var e := st.pipelines[k].spec.clusterRef;
          && (forall n :: n in st.configMaps && n != ConfigMapName(e) ==> st'.configMaps[n] == st.configMaps[n])
          && (forall n :: n in st.deployments && n != e ==> st'.deployments[n] == st.deployments[n])
          && st'.queue <= st.queue + Members(st.pipelines, e))
  }

  lemma RewriteKeepsTidy(m: map<string, Pipeline>, m': map<string, Pipeline>, k: string)
    requires Tidy(m) && RewritesAtMost(m, m', k)
    ensures Tidy(m')
  {
    if m' == m - {k} {
      RemoveKeeps(m, k);
    } else if m' != m {
      OwnUpdatesReadmitted(m, k);
      AdmitKeeps(m, k, m'[k]);
    }
  }

  lemma RewriteKeepsDocument(m: map<string, Pipeline>, m': map<string, Pipeline>, k: string, c: string)
    requires RewritesAtMost(m, m', k)
    ensures Active(m', c, None) == Active(m, c, None)
  {
  }

  /** Only a pipeline that is being deleted can go. */
  lemma RewriteKeepsOthers(m: map<string, Pipeline>, m': map<string, Pipeline>, k: string, n: string)
    requires RewritesAtMost(m, m', k)
    ensures n in m' ==> n in m && m'[n].spec == m[n].spec && m'[n].deleting == m[n].deleting
    ensures n in m && (n != k || !m[n].deleting) ==> n in m'
    ensures n in m && n != k ==> m'[n] == m[n]
    ensures n in m && n in m' && m[n].finalizer ==> m'[n].finalizer
  {
  }

  /** A visit that ends in the status update. */
  lemma StatusServes(st: Store, mid: Store, k: string, phase: Phase, health: Health, now: nat)
    requires k in st.pipelines && TouchesOnly(Unqueue(st, k), mid, st.pipelines[k].spec.clusterRef)
    ensures Served(st, WriteStatus(mid, k, st.pipelines[k], phase, health, NO_FAULTS, now).store, k)
  {
    WriteServes(st, mid, k, st.pipelines[k].(status := NextStatus(st.pipelines[k], phase, health, now)));
  }

  lemma WriteServes(st: Store, mid: Store, k: string, p: Pipeline)
    requires k in st.pipelines && TouchesOnly(Unqueue(st, k), mid, st.pipelines[k].spec.clusterRef)
    requires p.spec == st.pipelines[k].spec && p.deleting == st.pipelines[k].deleting && p.finalizer == st.pipelines[k].finalizer
    ensures Served(st, mid, k) && Served(st, PutPipeline(mid, k, p), k)
  {
  }

  /** A visit that fails after a rebuild. */
  lemma FailureServes(st: Store, mid: Store, k: string)
    requires k in st.pipelines && TouchesOnly(Unqueue(st, k), mid, st.pipelines[k].spec.clusterRef)
    ensures Served(st, Enqueue(mid, {k}), k)
  {
  }

  /** A visit that removes the finalizer after a rebuild. */
  lemma DropServes(st: Store, mid: Store, k: string)
    requires k in st.pipelines && st.pipelines[k].deleting && TouchesOnly(Unqueue(st, k), mid, st.pipelines[k].spec.clusterRef)
    ensures Served(st, DropPipeline(mid, k), k)
  {
  }

  lemma FinalizeServes(st: Store, h: Digest, k: string, now: nat)
    requires k in st.pipelines && st.pipelines[k].deleting && st.pipelines[k].finalizer
    ensures Served(st, Process(st, h, k, now), k)
  {
    var st0, c := Unqueue(st, k), st.pipelines[k].spec.clusterRef;
    var mid := RebuildCluster(st0, h, c, Some(k), NO_FAULTS).store;
    CrashConsistent(st0, h, c, Some(k), NO_FAULTS);
    FailureServes(st, mid, k);
    DropServes(st, mid, k);
  }

  lemma ApplyServes(st: Store, h: Digest, k: string, now: nat)
    requires k in st.pipelines && !st.pipelines[k].deleting && st.pipelines[k].finalizer
    ensures Served(st, Process(st, h, k, now), k)
  {
    var st0, p := Unqueue(st, k), st.pipelines[k];
    var c := p.spec.clusterRef;
    if c in st.clusters {
      var mid := RebuildCluster(st0, h, c, None, NO_FAULTS).store;
      CrashConsistent(st0, h, c, None, NO_FAULTS);
      FailureServes(st, mid, k);
      StatusServes(st, mid, k, Applied, Scan(mid, c, NO_FAULTS), now);
    } else {
      StatusServes(st, st0, k, Pending, UNKNOWN, now);
    }
  }

  lemma VisitServes(st: Store, h: Digest, k: string, now: nat)
    requires Tidy(st.pipelines)
    ensures Served(st, Process(st, h, k, now), k)
  {
    if k in st.pipelines {
      if st.pipelines[k].deleting {
        FinalizeServes(st, h, k, now);
      } else if st.pipelines[k].finalizer {
        ApplyServes(st, h, k, now);
      } else {
        VisitAttaches(st, h, k, now);
      }
    }
  }

  // ---------- and what it does for its own cluster ----------

  /** Some pipeline of `c` is in the queue. */
  ghost predicate Due(st: Store, c: string) {
    exists n :: n in st.queue && n in Members(st.pipelines, c)
  }

  /** A rebuild of a provisioned cluster makes it agree, whether or not a pipeline on its way out is
      named in the exclusion. */
  lemma RebuildAgrees(st: Store, h: Digest, c: string, exclude: Option<string>)
    requires AllAdmitted(st.pipelines) && Provisioned(st, c)
    requires exclude.Some? ==> exclude.value in st.pipelines && st.pipelines[exclude.value].deleting
    ensures var r := RebuildCluster(st, h, c, exclude, NO_FAULTS);
            r.outcome == Done && Agrees(r.store, h, c) && TouchesOnly(st, r.store, c)
  {
    AdmittedMerges(st.pipelines, c, exclude);
    if exclude.Some? {
      ExcludingDeletedIsIdle(st.pipelines, c, exclude.value);
    }
    ApplyEffect(st, h, c, ContentOf(Active(st.pipelines, c, exclude)).value, NO_FAULTS);
  }

  /** What follows a rebuild does not disturb it. */
  lemma RewriteAgrees(st: Store, st': Store, h: Digest, c: string, k: string)
    requires Agrees(st, h, c) && RewritesAtMost(st.pipelines, st'.pipelines, k)
    requires st'.configMaps == st.configMaps && st'.deployments == st.deployments
    ensures Agrees(st', h, c)
  {
    RewriteKeepsDocument(st.pipelines, st'.pipelines, k, c);
  }

  lemma ApplyAgrees(st: Store, h: Digest, k: string, now: nat)
    requires Tidy(st.pipelines) && k in st.pipelines && st.pipelines[k].finalizer && !st.pipelines[k].deleting
    requires st.pipelines[k].spec.clusterRef in st.clusters && Provisioned(st, st.pipelines[k].spec.clusterRef)
    ensures Agrees(Process(st, h, k, now), h, st.pipelines[k].spec.clusterRef)
  {
    var p, st0 := st.pipelines[k], Unqueue(st, k);
    var c := p.spec.clusterRef;
    RebuildAgrees(st0, h, c, None);
    var mid := RebuildCluster(st0, h, c, None, NO_FAULTS).store;
    RewriteAgrees(mid, WriteStatus(mid, k, p, Applied, Scan(mid, c, NO_FAULTS), NO_FAULTS, now).store, h, c, k);
  }

  lemma FinalizeAgrees(st: Store, h: Digest, k: string, now: nat)
    requires Tidy(st.pipelines) && k in st.pipelines && st.pipelines[k].deleting
    requires Provisioned(st, st.pipelines[k].spec.clusterRef)
    ensures Agrees(Process(st, h, k, now), h, st.pipelines[k].spec.clusterRef)
  {
    var st0, c := Unqueue(st, k), st.pipelines[k].spec.clusterRef;
    RebuildAgrees(st0, h, c, Some(k));
    var mid := RebuildCluster(st0, h, c, Some(k), NO_FAULTS).store;
    FinalizeVisit(st, h, k, now);
    RewriteAgrees(mid, DropPipeline(mid, k), h, c, k);
  }

  lemma FinalizeVisit(st: Store, h: Digest, k: string, now: nat)
    requires Tidy(st.pipelines) && k in st.pipelines && st.pipelines[k].deleting
    requires RebuildCluster(Unqueue(st, k), h, st.pipelines[k].spec.clusterRef, Some(k), NO_FAULTS).outcome == Done
    ensures var mid := RebuildCluster(Unqueue(st, k), h, st.pipelines[k].spec.clusterRef, Some(k), NO_FAULTS).store;
            Process(st, h, k, now) == DropPipeline(mid, k)
  {
    OwnUpdatesReadmitted(st.pipelines, k);
    CrashConsistent(Unqueue(st, k), h, st.pipelines[k].spec.clusterRef, Some(k), NO_FAULTS);
  }

  /** A visit to a pipeline of `c` makes `c` agree or leaves the pipeline queued. */
  lemma VisitHere(st: Store, h: Digest, k: string, now: nat, c: string)
    requires Tidy(st.pipelines) && k in Members(st.pipelines, c) && c in st.clusters && Provisioned(st, c)
    ensures Agrees(Process(st, h, k, now), h, c) || Due(Process(st, h, k, now), c)
  {
    if st.pipelines[k].deleting {
      FinalizeAgrees(st, h, k, now);
    } else if st.pipelines[k].finalizer {
      ApplyAgrees(st, h, k, now);
    } else {
      VisitAttaches(st, h, k, now);
      var st' := Process(st, h, k, now);
      assert k in st'.queue && k in Members(st'.pipelines, c);
    }
  }

  /** A visit to any other pipeline leaves `c` as it is, */
  lemma VisitElsewhere(st: Store, h: Digest, k: string, now: nat, c: string)
    requires Served(st, Process(st, h, k, now), k) && k !in Members(st.pipelines, c)
    ensures Agrees(Process(st, h, k, now), h, c) <==> Agrees(st, h, c)
  {
    RewriteKeepsDocument(st.pipelines, Process(st, h, k, now).pipelines, k, c);
    ConfigMapNamesInjective();
  }

  /** and queued pipelines of `c` stay queued, and no others are. */
  lemma VisitElsewhereDue(st: Store, st': Store, k: string, c: string)
    requires Served(st, st', k) && k !in Members(st.pipelines, c)
    ensures Due(st', c) <==> Due(st, c)
  {
    if Due(st, c) {
      var n :| n in st.queue && n in Members(st.pipelines, c);
      RewriteKeepsOthers(st.pipelines, st'.pipelines, k, n);
      assert n in st'.queue && n in Members(st'.pipelines, c);
    }
    if Due(st', c) {
      var n :| n in st'.queue && n in Members(st'.pipelines, c);
      RewriteKeepsOthers(st.pipelines, st'.pipelines, k, n);
      assert n in st.queue && n in Members(st.pipelines, c);
    }
  }

  // ---------- whole chains ----------

  /** The outcome for `c` is decided at the start: it will agree, once the queue is empty, exactly
      if it agrees already or is provisioned with one of its pipelines queued. */
  ghost predicate Hopeful(st: Store, h: Digest, c: string) {
    Agrees(st, h, c) || (Provisioned(st, c) && Due(st, c))
  }

  lemma VisitKeepsHope(st: Store, h: Digest, k: string, now: nat, c: string)
    requires Tidy(st.pipelines) && c in st.clusters && k in st.queue
    ensures var st' := Process(st, h, k, now);
            Tidy(st'.pipelines) && c in st'.clusters && (Hopeful(st', h, c) <==> Hopeful(st, h, c))
  {
    var st' := Process(st, h, k, now);
    VisitServes(st, h, k, now);
    RewriteKeepsTidy(st.pipelines, st'.pipelines, k);
    assert Provisioned(st', c) <==> Provisioned(st, c);
    if k !in Members(st.pipelines, c) {
      VisitElsewhere(st, h, k, now, c);
      VisitElsewhereDue(st, st', k, c);
    } else if Provisioned(st, c) {
      VisitHere(st, h, k, now, c);
    }
  }

  /** Where draining leads.  From any idle store of admitted pipelines, whatever happened to it before,
      every chain of visits that empties the queue, in any order, ends with cluster `c` in agreement
      if and only if `c` agreed at the start or was provisioned with a pipeline of its own queued. */
  lemma {:induction false} DrainDecides(st: Store, h: Digest, visits: seq<Visit>, c: string)
    requires Tidy(st.pipelines) && c in st.clusters && Chain(st, h, visits) && Drain(st, h, visits).queue == {}
    ensures Agrees(Drain(st, h, visits), h, c) <==> Hopeful(st, h, c)
    decreases visits
  {
    if visits != [] {
      VisitKeepsHope(st, h, visits[0].name, visits[0].now, c);
      DrainDecides(Process(st, h, visits[0].name, visits[0].now), h, visits[1..], c);
    }
  }

  /** Along any chain live pipelines stay, with their specs. */
  lemma {:induction false} DrainKeepsLive(st: Store, h: Digest, visits: seq<Visit>, n: string)
    requires Tidy(st.pipelines) && Chain(st, h, visits) && n in st.pipelines && !st.pipelines[n].deleting
    ensures var end := Drain(st, h, visits);
            && n in end.pipelines && !end.pipelines[n].deleting && end.pipelines[n].spec == st.pipelines[n].spec
            && end.clusters == st.clusters && Tidy(end.pipelines)
            && (forall c :: Provisioned(end, c) <==> Provisioned(st, c))
    decreases visits
  {
    if visits != [] {
      var st' := Process(st, h, visits[0].name, visits[0].now);
      VisitServes(st, h, visits[0].name, visits[0].now);
      RewriteKeepsTidy(st.pipelines, st'.pipelines, visits[0].name);
      RewriteKeepsOthers(st.pipelines, st'.pipelines, visits[0].name, n);
      DrainKeepsLive(st', h, visits[1..], n);
    }
  }
}
