/** No reconcile loops: with specs, clusters and pods left alone, reconciles and the requeues their
    own writes trigger come to an end, and the end is agreement. */
module Termination {
  import opened Objects
  import opened Names
  import opened Watch
  import opened Merge
  import opened Admission
  import opened PodHealth
  import opened Conditions
  import opened ApiStore
  import opened Rebuild
  import opened Protocol
  import opened Reconcile
  import opened Agreement
  import opened FinalizerSafety

  /** Every cluster a live pipeline refers to is absent or provisioned. */
  ghost predicate LiveProvisioned(st: Store) {
    forall n :: n in st.pipelines && !st.pipelines[n].deleting && st.pipelines[n].spec.clusterRef in st.clusters ==>
      Provisioned(st, st.pipelines[n].spec.clusterRef)
  }

  /** Pipelines are admitted, and those being deleted have their finalizer. */
  ghost predicate Tidy(m: map<string, Pipeline>) {
    AllAdmitted(m) && forall n :: n in m && m[n].deleting ==> m[n].finalizer
  }

  /** Pipelines are in order, and the clusters of live ones are absent or provisioned. */
  ghost predicate Calm(st: Store) {
    Tidy(st.pipelines) && LiveProvisioned(st)
  }

  /** An applied pipeline whose cluster exists and lacks an object: a visit cannot get through. */
  ghost predicate Stalled(st: Store, n: string) {
    && n in st.pipelines && !st.pipelines[n].deleting && st.pipelines[n].finalizer
    && st.pipelines[n].spec.clusterRef in st.clusters && !Provisioned(st, st.pipelines[n].spec.clusterRef)
  }

  // ---------- what is left to do ----------

  function Unattached(st: Store): set<string> {
    set n | n in st.pipelines && !st.pipelines[n].finalizer
  }

  function Doomed(st: Store): set<string> {
    set n | n in st.pipelines && st.pipelines[n].deleting
  }

  function Referenced(st: Store): set<string> {
    set n | n in st.pipelines :: st.pipelines[n].spec.clusterRef
  }

  ghost predicate ConfigStale(st: Store, c: string) {
    ConfigMapName(c) in st.configMaps && Wanted(st, c).Some? && !Holds(st.configMaps[ConfigMapName(c)], Wanted(st, c).value)
  }

  ghost predicate HashStale(st: Store, h: Digest, c: string) {
    c in st.deployments && Wanted(st, c).Some? && Annotation(st.deployments[c]) != h(Wanted(st, c).value)
  }

  ghost function StaleConfigs(st: Store): set<string> {
    set c | c in Referenced(st) && ConfigStale(st, c)
  }

  ghost function StaleHashes(st: Store, h: Digest): set<string> {
    set c | c in Referenced(st) && HashStale(st, h, c)
  }

  /** The status the next reconcile of `p` would compute at time `now`. */
  ghost function DueStatus(st: Store, p: Pipeline, now: nat): PipelineStatus {
    if p.spec.clusterRef in st.clusters
    then NextStatus(p, Applied, Scan(st, p.spec.clusterRef, NO_FAULTS), now)
    else NextStatus(p, Pending, UNKNOWN, now)
  }

  ghost predicate StatusStale(st: Store, n: string) {
    n in st.pipelines && !st.pipelines[n].deleting && DueStatus(st, st.pipelines[n], 0) != st.pipelines[n].status
  }

  ghost function StaleStatuses(st: Store): set<string> {
    set n | n in st.pipelines && StatusStale(st, n)
  }

  /** Finalizers to attach, deletions to finish, and ConfigMaps, annotations and statuses that
      are out of date. */
  ghost function Debt(st: Store, h: Digest): nat {
    |Unattached(st)| + |Doomed(st)| + |StaleConfigs(st)| + |StaleHashes(st, h)| + |StaleStatuses(st)|
  }

  /** Nothing got worse, set by set. */
  ghost predicate NoWorse(st: Store, st': Store, h: Digest) {
    && Unattached(st') <= Unattached(st)
    && Doomed(st') <= Doomed(st)
    && StaleConfigs(st') <= StaleConfigs(st)
    && StaleHashes(st', h) <= StaleHashes(st, h)
    && StaleStatuses(st') <= StaleStatuses(st)
  }

  /** Something got better. */
  ghost predicate Better(st: Store, st': Store, h: Digest) {
    || Unattached(st') < Unattached(st)
    || Doomed(st') < Doomed(st)
    || StaleConfigs(st') < StaleConfigs(st)
    || StaleHashes(st', h) < StaleHashes(st, h)
    || StaleStatuses(st') < StaleStatuses(st)
  }

  lemma SubsetSize(a: set<string>, b: set<string>)
    requires a <= b
    ensures |a| <= |b| && (a < b ==> |a| < |b|)
  {
    assert b == a + (b - a);
    if a < b {
      var x :| x in b - a;
      assert |b - a| > 0;
    }
  }

  lemma DebtFollows(st: Store, st': Store, h: Digest)
    requires NoWorse(st, st', h)
    ensures Debt(st', h) <= Debt(st, h)
    ensures Better(st, st', h) ==> Debt(st', h) < Debt(st, h)
  {
    SubsetSize(Unattached(st'), Unattached(st));
    SubsetSize(Doomed(st'), Doomed(st));
    SubsetSize(StaleConfigs(st'), StaleConfigs(st));
    SubsetSize(StaleHashes(st', h), StaleHashes(st, h));
    SubsetSize(StaleStatuses(st'), StaleStatuses(st));
  }

  // ---------- each kind of write pays off some debt ----------

  /** Only the queue differs. */
  lemma QueueIsFree(st: Store, queue: set<string>, h: Digest)
    ensures Debt(st.(queue := queue), h) == Debt(st, h)
    ensures LiveProvisioned(st.(queue := queue)) == LiveProvisioned(st)
  {
    var st' := st.(queue := queue);
    assert Unattached(st') == Unattached(st) && Doomed(st') == Doomed(st) && Referenced(st') == Referenced(st);
    assert forall c :: ConfigStale(st', c) == ConfigStale(st, c) && HashStale(st', h, c) == HashStale(st, h, c);
    assert StaleConfigs(st') == StaleConfigs(st) && StaleHashes(st', h) == StaleHashes(st, h);
    assert forall n :: StatusStale(st', n) == StatusStale(st, n);
    assert StaleStatuses(st') == StaleStatuses(st);
  }

  lemma RewriteReferenced(st: Store, n: string, p: Pipeline)
    requires n in st.pipelines && p.spec == st.pipelines[n].spec
    ensures Referenced(PutPipeline(st, n, p)) == Referenced(st)
  {
    var st' := PutPipeline(st, n, p);
    forall c | c in Referenced(st)
      ensures c in Referenced(st')
    {
      var k :| k in st.pipelines && st.pipelines[k].spec.clusterRef == c;
      assert k in st'.pipelines && st'.pipelines[k].spec.clusterRef == c;
    }
    forall c | c in Referenced(st')
      ensures c in Referenced(st)
    {
      var k :| k in st'.pipelines && st'.pipelines[k].spec.clusterRef == c;
      assert k in st.pipelines && st.pipelines[k].spec.clusterRef == c;
    }
  }

  /** Rewriting a pipeline without touching its spec or deletion mark. */
  lemma RewriteKeeps(st: Store, h: Digest, n: string, p: Pipeline)
    requires n in st.pipelines && p.spec == st.pipelines[n].spec && p.deleting == st.pipelines[n].deleting
    ensures var st' := PutPipeline(st, n, p);
            && Doomed(st') == Doomed(st)
            && StaleConfigs(st') == StaleConfigs(st) && StaleHashes(st', h) == StaleHashes(st, h)
            && Unattached(st') == (if p.finalizer then Unattached(st) - {n} else Unattached(st) + {n})
            && (forall k :: k != n ==> (StatusStale(st', k) <==> StatusStale(st, k)))
  {
    var st' := PutPipeline(st, n, p);
    RewriteReferenced(st, n, p);
    forall c
      ensures Active(st'.pipelines, c, None) == Active(st.pipelines, c, None)
    {
    }
    assert forall c :: Wanted(st', c) == Wanted(st, c);
    assert StaleConfigs(st') == StaleConfigs(st);
    assert StaleHashes(st', h) == StaleHashes(st, h);
  }

  /** Pipelines stay in order, and no cluster of a live pipeline loses an object. */
  ghost predicate Orderly(st: Store, st': Store) {
    Tidy(st'.pipelines) && (LiveProvisioned(st) ==> LiveProvisioned(st'))
  }

  lemma RewriteTidy(st: Store, n: string, p: Pipeline)
    requires Tidy(st.pipelines) && n in st.pipelines && p.spec == st.pipelines[n].spec && p.deleting == st.pipelines[n].deleting
    requires p.deleting ==> p.finalizer
    ensures Orderly(st, PutPipeline(st, n, p))
  {
  }

  lemma AttachPays(st: Store, h: Digest, n: string)
    requires Tidy(st.pipelines) && n in st.pipelines && !st.pipelines[n].finalizer
    ensures var st' := PutPipeline(st, n, st.pipelines[n].(finalizer := true));
            Orderly(st, st') && Debt(st', h) < Debt(st, h)
  {
    var p := st.pipelines[n].(finalizer := true);
    var st' := PutPipeline(st, n, p);
    RewriteTidy(st, n, p);
    RewriteKeeps(st, h, n, p);
    assert DueStatus(st', st'.pipelines[n], 0) == DueStatus(st, st.pipelines[n], 0);
    assert forall k :: StatusStale(st', k) <==> StatusStale(st, k);
    assert StaleStatuses(st') == StaleStatuses(st);
    assert n in Unattached(st);
    DebtFollows(st, st', h);
  }

  /** Whether a status is due does not depend on the time of day. */
  lemma DueAnyTime(st: Store, p: Pipeline, now: nat, later: nat)
    requires DueStatus(st, p, now) == p.status
    ensures DueStatus(st, p, later) == p.status
  {
    var phase, health := if p.spec.clusterRef in st.clusters then Applied else Pending,
                         if p.spec.clusterRef in st.clusters then Scan(st, p.spec.clusterRef, NO_FAULTS) else UNKNOWN;
    PipelineStatusSettles(p, phase, health, now, later);
    assert p.(status := p.status) == p;
  }

  lemma StatusPays(st: Store, h: Digest, n: string, now: nat)
    requires Tidy(st.pipelines) && n in st.pipelines && !st.pipelines[n].deleting && st.pipelines[n].finalizer
    requires DueStatus(st, st.pipelines[n], now) != st.pipelines[n].status
    ensures var st' := PutPipeline(st, n, st.pipelines[n].(status := DueStatus(st, st.pipelines[n], now)));
            Orderly(st, st') && Debt(st', h) < Debt(st, h)
  {
    var was := st.pipelines[n];
    var p := was.(status := DueStatus(st, was, now));
    var st' := PutPipeline(st, n, p);
    RewriteTidy(st, n, p);
    RewriteKeeps(st, h, n, p);
    assert StatusStale(st, n) by {
      if DueStatus(st, was, 0) == was.status {
        DueAnyTime(st, was, 0, now);
      }
    }
    assert !StatusStale(st', n) by {
      var c := was.spec.clusterRef;
      if c in st.clusters {
        PipelineStatusSettles(was, Applied, Scan(st, c, NO_FAULTS), now, 0);
      } else {
        PipelineStatusSettles(was, Pending, UNKNOWN, now, 0);
      }
    }
    assert StaleStatuses(st') <= StaleStatuses(st) && n in StaleStatuses(st) && n !in StaleStatuses(st');
    assert Unattached(st') == Unattached(st);
    DebtFollows(st, st', h);
  }

  /** A rebuild of `c` leaves all debts but those of `c` as they are. */
  lemma RebuildElsewhere(st: Store, h: Digest, c: string)
    requires Wanted(st, c).Some?
    ensures var st' := ApplyContent(st, h, c, Wanted(st, c).value, NO_FAULTS).store;
            && TouchesOnly(st, st', c)
            && Unattached(st') == Unattached(st) && Doomed(st') == Doomed(st)
            && Referenced(st') == Referenced(st) && StaleStatuses(st') == StaleStatuses(st)
            && (forall d :: d != c ==> (ConfigStale(st', d) <==> ConfigStale(st, d)) && (HashStale(st', h, d) <==> HashStale(st, h, d)))
  {
    var st' := ApplyContent(st, h, c, Wanted(st, c).value, NO_FAULTS).store;
    ApplyEffect(st, h, c, Wanted(st, c).value, NO_FAULTS);
    PipelineDebtsKept(st, st', c);
    forall d | d != c {
      StaleElsewhere(st, st', h, c, d);
    }
  }

  lemma PipelineDebtsKept(st: Store, st': Store, c: string)
    requires TouchesOnly(st, st', c)
    ensures Unattached(st') == Unattached(st) && Doomed(st') == Doomed(st)
    ensures Referenced(st') == Referenced(st) && StaleStatuses(st') == StaleStatuses(st)
  {
    assert forall n :: StatusStale(st', n) <==> StatusStale(st, n);
  }

  lemma StaleElsewhere(st: Store, st': Store, h: Digest, c: string, d: string)
    requires TouchesOnly(st, st', c) && d != c
    ensures ConfigStale(st', d) <==> ConfigStale(st, d)
    ensures HashStale(st', h, d) <==> HashStale(st, h, d)
  {
    ConfigMapNamesInjective();
    assert ConfigMapName(d) != ConfigMapName(c);
  }

  lemma RebuildTidy(st: Store, h: Digest, c: string)
    requires Tidy(st.pipelines) && Wanted(st, c).Some?
    ensures Orderly(st, ApplyContent(st, h, c, Wanted(st, c).value, NO_FAULTS).store)
  {
    ApplyEffect(st, h, c, Wanted(st, c).value, NO_FAULTS);
  }

  /** A rebuild of `c` that was allowed to run makes nothing worse, and makes something better
      if it wrote anything. */
  lemma RebuildPays(st: Store, h: Digest, c: string)
    requires Tidy(st.pipelines) && c in Referenced(st)
    ensures Wanted(st, c).Some?
    ensures Pays(st, Attempt(ApplyContent(st, h, c, Wanted(st, c).value, NO_FAULTS).store, true), h)
  {
    AdmittedMerges(st.pipelines, c, None);
    var st' := ApplyContent(st, h, c, Wanted(st, c).value, NO_FAULTS).store;
    RebuildTidy(st, h, c);
    RebuildElsewhere(st, h, c);
    StaleAfter(st, h, c);
    assert StaleConfigs(st') <= StaleConfigs(st);
    assert StaleHashes(st', h) <= StaleHashes(st, h);
    if st' != st {
      assert (c in StaleConfigs(st) && c !in StaleConfigs(st')) || (c in StaleHashes(st, h) && c !in StaleHashes(st', h));
    }
    DebtFollows(st, st', h);
  }

  /** What a rebuild does to the two staleness marks of its own cluster. */
  lemma StaleAfter(st: Store, h: Digest, c: string)
    requires Wanted(st, c).Some?
    ensures var st' := ApplyContent(st, h, c, Wanted(st, c).value, NO_FAULTS).store;
            && (ConfigStale(st', c) ==> ConfigStale(st, c) && st' == st)
            && (HashStale(st', h, c) ==> HashStale(st, h, c))
            && (st' != st ==> (ConfigStale(st, c) && !ConfigStale(st', c)) || (HashStale(st, h, c) && !HashStale(st', h, c)))
  {
  }

  /** Removing a pipeline that is being deleted. */
  lemma DropKeeps(st: Store, h: Digest, n: string)
    requires n in st.pipelines && st.pipelines[n].deleting
    ensures NoWorse(st, DropPipeline(st, n), h)
  {
    var st' := DropPipeline(st, n);
    forall c
      ensures Wanted(st', c) == Wanted(st, c)
    {
      assert Active(st'.pipelines, c, None) == Active(st.pipelines, c, None);
    }
    assert Referenced(st') <= Referenced(st);
    assert forall k :: k != n ==> (StatusStale(st', k) <==> StatusStale(st, k));
  }

  lemma DropPays(st: Store, h: Digest, n: string)
    requires Tidy(st.pipelines) && n in st.pipelines && st.pipelines[n].deleting
    ensures Orderly(st, DropPipeline(st, n)) && Debt(DropPipeline(st, n), h) < Debt(st, h)
  {
    var st' := DropPipeline(st, n);
    RemoveKeeps(st.pipelines, n);
    DropKeeps(st, h, n);
    assert n in Doomed(st) && n !in Doomed(st');
    assert Better(st, st', h);
    DebtFollows(st, st', h);
  }

  /** Where a step may enqueue: only names already known. */
  predicate KnownNames(st: Store, st': Store) {
    && st'.pipelines.Keys <= st.pipelines.Keys
    && st'.queue <= st.queue + st.pipelines.Keys
  }

  /** What one attempt achieves. */
  ghost predicate Pays(st: Store, r: Attempt, h: Digest) {
    && r.ok && Orderly(st, r.store) && KnownNames(st, r.store)
    && (r.store == st || Debt(r.store, h) < Debt(st, h))
  }

  lemma FinalizePays(st: Store, h: Digest, n: string)
    requires Tidy(st.pipelines) && n in st.pipelines && st.pipelines[n].deleting
    ensures Pays(st, Finalize(st, h, n, st.pipelines[n], NO_FAULTS), h)
  {
    var c := st.pipelines[n].spec.clusterRef;
    assert c in Referenced(st);
    ExcludingDeletedIsIdle(st.pipelines, c, n);
    RebuildPays(st, h, c);
    RebuildElsewhere(st, h, c);
    var r := ApplyContent(st, h, c, Wanted(st, c).value, NO_FAULTS);
    ApplyNeverFails(st, h, c, Wanted(st, c).value);
    OwnUpdatesReadmitted(st.pipelines, n);
    DropAttempt(r.store, h, n);
    PaysThenPays(st, r.store, Attempt(DropPipeline(r.store, n), true), h);
    assert Finalize(st, h, n, st.pipelines[n], NO_FAULTS) == Attempt(DropPipeline(r.store, n), true);
  }

  lemma DropAttempt(st: Store, h: Digest, n: string)
    requires Tidy(st.pipelines) && n in st.pipelines && st.pipelines[n].deleting
    ensures Pays(st, Attempt(DropPipeline(st, n), true), h)
  {
    DropPays(st, h, n);
  }

  lemma ApplyNeverFails(st: Store, h: Digest, c: string, content: Content)
    ensures ApplyContent(st, h, c, content, NO_FAULTS).outcome != Failed
    ensures Provisioned(st, c) ==> ApplyContent(st, h, c, content, NO_FAULTS).outcome == Done
  {
  }

  lemma StatusAttempt(st: Store, h: Digest, n: string, phase: Phase, health: Health, now: nat)
    requires Tidy(st.pipelines) && n in st.pipelines && !st.pipelines[n].deleting && st.pipelines[n].finalizer
    requires NextStatus(st.pipelines[n], phase, health, now) == DueStatus(st, st.pipelines[n], now)
    ensures Pays(st, WriteStatus(st, n, st.pipelines[n], phase, health, NO_FAULTS, now), h)
  {
    if DueStatus(st, st.pipelines[n], now) != st.pipelines[n].status {
      StatusPays(st, h, n, now);
    }
  }

  lemma PaysThenPays(st: Store, mid: Store, r: Attempt, h: Digest)
    requires Pays(st, Attempt(mid, true), h) && Pays(mid, r, h)
    ensures Pays(st, r, h)
  {
  }

  /** The rebuild half of applying a pipeline. */
  lemma ApplyRebuilds(st: Store, h: Digest, n: string)
    requires Tidy(st.pipelines) && n in st.pipelines && !st.pipelines[n].deleting
    requires st.pipelines[n].spec.clusterRef in st.clusters && Provisioned(st, st.pipelines[n].spec.clusterRef)
    ensures var c := st.pipelines[n].spec.clusterRef;
            && Wanted(st, c).Some?
            && RebuildCluster(st, h, c, None, NO_FAULTS) == ApplyContent(st, h, c, Wanted(st, c).value, NO_FAULTS)
            && var r := RebuildCluster(st, h, c, None, NO_FAULTS);
               r.outcome == Done && Pays(st, Attempt(r.store, true), h) && TouchesOnly(st, r.store, c)
  {
    var c := st.pipelines[n].spec.clusterRef;
    assert c in Referenced(st);
    RebuildPays(st, h, c);
    ApplyNeverFails(st, h, c, Wanted(st, c).value);
    RebuildElsewhere(st, h, c);
  }

  lemma ApplyPays(st: Store, h: Digest, n: string, now: nat)
    requires Tidy(st.pipelines) && !Stalled(st, n) && n in st.pipelines && !st.pipelines[n].deleting && st.pipelines[n].finalizer
    ensures Pays(st, Apply(st, h, n, st.pipelines[n], NO_FAULTS, now), h)
  {
    var p := st.pipelines[n];
    var c := p.spec.clusterRef;
    if c in st.clusters {
      ApplyRebuilds(st, h, n);
      var mid := RebuildCluster(st, h, c, None, NO_FAULTS).store;
      StatusAttempt(mid, h, n, Applied, Scan(mid, c, NO_FAULTS), now);
      PaysThenPays(st, mid, WriteStatus(mid, n, p, Applied, Scan(mid, c, NO_FAULTS), NO_FAULTS, now), h);
    } else {
      StatusAttempt(st, h, n, Pending, UNKNOWN, now);
    }
  }

  lemma ReconcilePays(st: Store, h: Digest, n: string, now: nat)
    requires Tidy(st.pipelines) && !Stalled(st, n)
    ensures Pays(st, ReconcilePipeline(st, h, n, NO_FAULTS, now), h)
  {
    if n in st.pipelines {
      var p := st.pipelines[n];
      if p.deleting {
        FinalizePays(st, h, n);
      } else if !p.finalizer {
        OwnUpdatesReadmitted(st.pipelines, n);
        AttachPays(st, h, n);
      } else {
        ApplyPays(st, h, n, now);
      }
    }
  }

  /** What one visit of the work queue achieves: it pays off debt, or just shortens the queue, or the
      pipeline is stalled and goes back into the queue with nothing changed. */
  ghost predicate Achieves(st: Store, st': Store, h: Digest, n: string) {
    && Orderly(st, st') && KnownNames(st, st') && Debt(st', h) <= Debt(st, h)
    && (Debt(st', h) < Debt(st, h) || st' == Unqueue(st, n) || (Stalled(st, n) && st' == Enqueue(st, {n})))
  }

  /** The rebuild that fails for want of an object, after which the name is queued again. */
  lemma StalledVisit(st: Store, h: Digest, n: string, now: nat) returns (mid: Store)
    requires Tidy(st.pipelines) && Stalled(st, n)
    ensures Process(st, h, n, now) == Enqueue(mid, {n}) && Pays(Unqueue(st, n), Attempt(mid, true), h)
  {
    var st0, c := Unqueue(st, n), st.pipelines[n].spec.clusterRef;
    assert c in Referenced(st0);
    RebuildPays(st0, h, c);
    ApplyFails(st0, h, n, now);
    mid := ApplyContent(st0, h, c, Wanted(st0, c).value, NO_FAULTS).store;
  }

  lemma RequeueAchieves(st: Store, mid: Store, h: Digest, n: string)
    requires Stalled(st, n) && Pays(Unqueue(st, n), Attempt(mid, true), h)
    ensures Achieves(st, Enqueue(mid, {n}), h, n)
  {
    RequeueOrder(st, mid, h, n);
    RequeueDebt(st, mid, h, n);
  }

  lemma RequeueOrder(st: Store, mid: Store, h: Digest, n: string)
    requires Stalled(st, n) && Pays(Unqueue(st, n), Attempt(mid, true), h)
    ensures Orderly(st, Enqueue(mid, {n})) && KnownNames(st, Enqueue(mid, {n}))
  {
    ProvisionIgnoresQueue(st, st.queue - {n});
    ProvisionIgnoresQueue(mid, mid.queue + {n});
  }

  lemma ProvisionIgnoresQueue(st: Store, queue: set<string>)
    ensures LiveProvisioned(st.(queue := queue)) <==> LiveProvisioned(st)
  {
  }

  lemma RequeueDebt(st: Store, mid: Store, h: Digest, n: string)
    requires mid == Unqueue(st, n) || Debt(mid, h) < Debt(Unqueue(st, n), h)
    ensures Debt(Enqueue(mid, {n}), h) < Debt(st, h) || Enqueue(mid, {n}) == Enqueue(st, {n})
    ensures Debt(Enqueue(mid, {n}), h) <= Debt(st, h)
  {
    QueueIsFree(st, st.queue - {n}, h);
    QueueIsFree(mid, mid.queue + {n}, h);
    assert Enqueue(Unqueue(st, n), {n}) == Enqueue(st, {n});
    assert mid == Unqueue(st, n) ==> Debt(mid, h) == Debt(st, h);
  }

  lemma StalledAchieves(st: Store, h: Digest, n: string, now: nat)
    requires Tidy(st.pipelines) && Stalled(st, n)
    ensures Achieves(st, Process(st, h, n, now), h, n)
  {
    var mid := StalledVisit(st, h, n, now);
    RequeueAchieves(st, mid, h, n);
  }

  /** Every visit to a queued name either pays off debt or just shortens the queue, unless the pipeline is
      stalled, when it may also leave everything as it is. */
  lemma ProcessPays(st: Store, h: Digest, n: string, now: nat)
    requires Tidy(st.pipelines)
    ensures Achieves(st, Process(st, h, n, now), h, n)
  {
    if Stalled(st, n) {
      StalledAchieves(st, h, n, now);
    } else {
      var st0 := Unqueue(st, n);
      QueueIsFree(st, st0.queue, h);
      assert !Stalled(st0, n);
      ReconcilePays(st0, h, n, now);
    }
  }

  // ---------- chains of reconciles ----------

  /** One visit of the worker: which name, and when. */
  datatype Visit = Visit(name: string, now: nat)

  /** Every visit takes a name that is queued at that point. */
  ghost predicate Chain(st: Store, h: Digest, visits: seq<Visit>)
    decreases visits
  {
    visits != [] ==>
      visits[0].name in st.queue && Chain(Process(st, h, visits[0].name, visits[0].now), h, visits[1..])
  }

  ghost function Drain(st: Store, h: Digest, visits: seq<Visit>): Store
    decreases visits
  {
    if visits == [] then st else Drain(Process(st, h, visits[0].name, visits[0].now), h, visits[1..])
  }

  /** Debt first, then the length of the queue, as one number. */
  function Weigh(debt: nat, names: nat, queued: nat): nat { debt * (names + 1) + queued }

  /** All names that can ever be queued from here. */
  function Everyone(st: Store): set<string> { st.queue + st.pipelines.Keys }

  ghost function Fuel(st: Store, h: Digest): nat {
    Weigh(Debt(st, h), |Everyone(st)|, |st.queue|)
  }

  lemma LexDrop(d: nat, d': nat, k: nat, k': nat, q: nat, q': nat)
    requires k' <= k && q' <= k' && d' <= d
    requires d' < d || q' < q
    ensures Weigh(d', k', q') < Weigh(d, k, q)
  {
    assert d' * (k' + 1) <= d' * (k + 1);
    if d' < d {
      assert (d' + 1) * (k + 1) <= d * (k + 1);
    } else {
      assert d' == d;
    }
  }

  lemma NamesShrink(st: Store, st': Store)
    requires KnownNames(st, st')
    ensures |st'.queue| <= |Everyone(st')| <= |Everyone(st)|
  {
    SubsetSize(Everyone(st'), Everyone(st));
    SubsetSize(st'.queue, Everyone(st'));
  }

  lemma VisitBurnsFuel(st: Store, h: Digest, n: string, now: nat)
    requires Calm(st) && n in st.queue
    ensures Calm(Process(st, h, n, now)) && Fuel(Process(st, h, n, now), h) < Fuel(st, h)
  {
    var st' := Process(st, h, n, now);
    ProcessPays(st, h, n, now);
    NamesShrink(st, st');
    if st' == Unqueue(st, n) {
      SubsetSize(st'.queue, st.queue);
      assert n !in st'.queue;
    }
    LexDrop(Debt(st, h), Debt(st', h), |Everyone(st)|, |Everyone(st')|, |st.queue|, |st'.queue|);
  }

  /** No reconcile loops: every chain of reconciles and watch-triggered requeues has at most
      `Fuel` visits, in whatever order the queue is served. */
  lemma {:induction false} NoReconcileLoops(st: Store, h: Digest, visits: seq<Visit>)
    requires Calm(st) && Chain(st, h, visits)
    ensures |visits| <= Fuel(st, h)
    decreases visits
  {
    if visits != [] {
      VisitBurnsFuel(st, h, visits[0].name, visits[0].now);
      NoReconcileLoops(Process(st, h, visits[0].name, visits[0].now), h, visits[1..]);
    }
  }

  /** The exact condition for going round in circles: a visit to an applied pipeline of an existing
      cluster leads back to the very same store exactly when the ConfigMap is missing, or holds the
      document already and the Deployment is missing. */
  lemma UnprovisionedRetriesForever(st: Store, h: Digest, n: string, now: nat)
    requires AllAdmitted(st.pipelines) && n in st.queue && n in st.pipelines
    requires !st.pipelines[n].deleting && st.pipelines[n].finalizer
    requires st.pipelines[n].spec.clusterRef in st.clusters
    ensures var c := st.pipelines[n].spec.clusterRef;
            && Wanted(st, c).Some?
            && (Process(st, h, n, now) == st <==>
                  || ConfigMapName(c) !in st.configMaps
                  || (Holds(st.configMaps[ConfigMapName(c)], Wanted(st, c).value) && c !in st.deployments))
  {
    var c := st.pipelines[n].spec.clusterRef;
    AdmittedMerges(st.pipelines, c, None);
    RetryOutcome(Unqueue(st, n), h, c, Wanted(st, c).value);
    if Provisioned(st, c) {
      VisitGetsThrough(st, h, n, now);
    } else {
      VisitFails(st, h, n, now);
    }
  }

  /** A live pipeline with its finalizer, on a cluster that exists. */
  ghost predicate Applicable(st: Store, n: string) {
    && n in st.pipelines && !st.pipelines[n].deleting && st.pipelines[n].finalizer
    && st.pipelines[n].spec.clusterRef in st.clusters && Wanted(st, st.pipelines[n].spec.clusterRef).Some?
  }

  lemma VisitGetsThrough(st: Store, h: Digest, n: string, now: nat)
    requires Applicable(st, n) && n in st.queue && Provisioned(st, st.pipelines[n].spec.clusterRef)
    ensures Process(st, h, n, now) != st
  {
    var c, st0 := st.pipelines[n].spec.clusterRef, Unqueue(st, n);
    var r := RebuildCluster(st0, h, c, None, NO_FAULTS);
    RetryOutcome(st0, h, c, Wanted(st, c).value);
    assert Process(st, h, n, now)
        == WriteStatus(r.store, n, st.pipelines[n], Applied, Scan(r.store, c, NO_FAULTS), NO_FAULTS, now).store;
    assert n !in st0.queue;
  }

  lemma VisitFails(st: Store, h: Digest, n: string, now: nat)
    requires Applicable(st, n) && n in st.queue && !Provisioned(st, st.pipelines[n].spec.clusterRef)
    ensures var c := st.pipelines[n].spec.clusterRef;
            var r := ApplyContent(Unqueue(st, n), h, c, Wanted(st, c).value, NO_FAULTS);
            && Process(st, h, n, now) == Enqueue(r.store, {n})
            && (Process(st, h, n, now) == st <==> r.store == Unqueue(st, n))
  {
    var c := st.pipelines[n].spec.clusterRef;
    RetryOutcome(Unqueue(st, n), h, c, Wanted(st, c).value);
    ApplyFails(Unqueue(st, n), h, n, now);
    Requeued(st, ApplyContent(Unqueue(st, n), h, c, Wanted(st, c).value, NO_FAULTS).store, n);
  }

  lemma ApplyFails(st: Store, h: Digest, n: string, now: nat)
    requires Applicable(st, n) && !Provisioned(st, st.pipelines[n].spec.clusterRef)
    ensures var c := st.pipelines[n].spec.clusterRef;
            ReconcilePipeline(st, h, n, NO_FAULTS, now) == Attempt(ApplyContent(st, h, c, Wanted(st, c).value, NO_FAULTS).store, false)
  {
    var c := st.pipelines[n].spec.clusterRef;
    RetryOutcome(st, h, c, Wanted(st, c).value);
  }

  lemma Requeued(st: Store, after: Store, n: string)
    requires n in st.queue && (after == Unqueue(st, n) || after.clock > st.clock)
    ensures Enqueue(after, {n}) == st <==> after == Unqueue(st, n)
  {
  }

  /** When a rebuild gets through, and when it leaves the store alone. */
  lemma RetryOutcome(st: Store, h: Digest, c: string, content: Content)
    ensures var r := ApplyContent(st, h, c, content, NO_FAULTS);
            && (r.outcome == Done <==> Provisioned(st, c))
            && r.outcome != Failed
            && (r.store == st || r.store.clock > st.clock)
            && (!Provisioned(st, c) ==>
                  (r.store == st <==>
                     ConfigMapName(c) !in st.configMaps || Holds(st.configMaps[ConfigMapName(c)], content)))
  {
  }

  /** A live pipeline that cannot get through: its cluster exists and lacks an object. */
  ghost predicate Stuck(st: Store, n: string) {
    && AllAdmitted(st.pipelines) && n in st.queue && n in st.pipelines && !st.pipelines[n].deleting
    && st.pipelines[n].spec.clusterRef in st.clusters && !Provisioned(st, st.pipelines[n].spec.clusterRef)
  }

  /** Visiting it does not help. */
  lemma StuckStays(st: Store, h: Digest, n: string, now: nat)
    requires Stuck(st, n)
    ensures Stuck(Process(st, h, n, now), n)
  {
    var c := st.pipelines[n].spec.clusterRef;
    if st.pipelines[n].finalizer {
      AdmittedMerges(st.pipelines, c, None);
      VisitFails(st, h, n, now);
      ApplyEffect(Unqueue(st, n), h, c, Wanted(st, c).value, NO_FAULTS);
    } else {
      VisitAttaches(st, h, n, now);
      AdmitKeeps(st.pipelines, n, Process(st, h, n, now).pipelines[n]);
    }
  }

  lemma VisitAttaches(st: Store, h: Digest, n: string, now: nat)
    requires AllAdmitted(st.pipelines) && n in st.pipelines && !st.pipelines[n].deleting && !st.pipelines[n].finalizer
    ensures Process(st, h, n, now) == PutPipeline(Unqueue(st, n), n, st.pipelines[n].(finalizer := true))
    ensures Admissible(st.pipelines, n, st.pipelines[n].spec)
  {
    OwnUpdatesReadmitted(st.pipelines, n);
  }

  /** `k` visits to one name. */
  function Visits(n: string, k: nat): (visits: seq<Visit>)
    ensures |visits| == k
  {
    if k == 0 then [] else [Visit(n, 0)] + Visits(n, k - 1)
  }

  lemma {:induction false} StuckForever(st: Store, h: Digest, n: string, k: nat)
    requires Stuck(st, n)
    ensures Chain(st, h, Visits(n, k))
    decreases k
  {
    if k > 0 {
      StuckStays(st, h, n, 0);
      StuckForever(Process(st, h, n, 0), h, n, k - 1);
      assert Visits(n, k)[1..] == Visits(n, k - 1);
    }
  }

  /** No chain of reconciles is longer than `k`. */
  ghost predicate Bounded(st: Store, h: Digest, k: nat) {
    forall visits :: Chain(st, h, visits) ==> |visits| <= k
  }

  /** The exact condition for reconciles to come to an end: every cluster a live pipeline refers to
      is absent or provisioned. */
  lemma BoundedIffProvisioned(st: Store, h: Digest)
    requires Inv(State(st, Idle), h) && AllAdmitted(st.pipelines)
    ensures LiveProvisioned(st) ==> Bounded(st, h, Fuel(st, h))
    ensures (exists k: nat :: Bounded(st, h, k)) <==> LiveProvisioned(st)
  {
    if LiveProvisioned(st) {
      forall visits | Chain(st, h, visits)
        ensures |visits| <= Fuel(st, h)
      {
        NoReconcileLoops(st, h, visits);
      }
      assert Bounded(st, h, Fuel(st, h));
    } else {
      var n :| n in st.pipelines && !st.pipelines[n].deleting && st.pipelines[n].spec.clusterRef in st.clusters
               && !Provisioned(st, st.pipelines[n].spec.clusterRef);
      UnprovisionedIsQueued(st, h, n);
      forall k: nat
        ensures !Bounded(st, h, k)
      {
        StuckForever(st, h, n, k + 1);
        assert |Visits(n, k + 1)| > k;
      }
    }
  }

  lemma UnprovisionedIsQueued(st: Store, h: Digest, n: string)
    requires Inv(State(st, Idle), h) && n in st.pipelines
    requires st.pipelines[n].spec.clusterRef in st.clusters && !Provisioned(st, st.pipelines[n].spec.clusterRef)
    ensures n in st.queue
  {
    var s, c := State(st, Idle), st.pipelines[n].spec.clusterRef;
    assert Retried(s, c) && Mine(s, c, n);
  }

  // ---------- convergence ----------

  lemma ProcessKeepsInv(st: Store, h: Digest, n: string, now: nat)
    requires Inv(State(st, Idle), h) && n in st.queue
    ensures Inv(State(Process(st, h, n, now), Idle), h)
  {
    var actions := AttendIsRun(st, h, n, NO_FAULTS, now);
    RunKeepsInv(State(st, Idle), h, actions);
  }

  lemma {:induction false} DrainKeepsInv(st: Store, h: Digest, visits: seq<Visit>)
    requires Inv(State(st, Idle), h) && Chain(st, h, visits)
    ensures Inv(State(Drain(st, h, visits), Idle), h)
    decreases visits
  {
    if visits != [] {
      ProcessKeepsInv(st, h, visits[0].name, visits[0].now);
      DrainKeepsInv(Process(st, h, visits[0].name, visits[0].now), h, visits[1..]);
    }
  }

  /** Convergence: from any idle state that satisfies the invariant with pipelines admitted, serving
      the queue in any order ends if and only if the clusters of live pipelines are provisioned or
      absent, then after at most `Fuel` visits; and whenever it empties the queue, every cluster with
      a pipeline agrees. */
  lemma Convergence(st: Store, h: Digest, visits: seq<Visit>, c: string)
    requires Inv(State(st, Idle), h) && AllAdmitted(st.pipelines) && Chain(st, h, visits)
    ensures LiveProvisioned(st) ==> |visits| <= Fuel(st, h)
    ensures (exists k: nat :: Bounded(st, h, k)) <==> LiveProvisioned(st)
    ensures var end := Drain(st, h, visits);
            end.queue == {} && c in end.clusters && Members(end.pipelines, c) != {} ==> Agrees(end, h, c)
  {
    BoundedIffProvisioned(st, h);
    DrainKeepsInv(st, h, visits);
    IdleAgrees(Drain(st, h, visits), h, c);
  }

  lemma IdleAgrees(st: Store, h: Digest, c: string)
    requires Inv(State(st, Idle), h)
    ensures st.queue == {} && c in st.clusters && Members(st.pipelines, c) != {} ==> Agrees(st, h, c)
  {
    if st.queue == {} && c in st.clusters && Members(st.pipelines, c) != {} {
      RestMeansAgreement(State(st, Idle), h, c);
    }
  }

  /** The same for whole runs: after any disciplined run that leaves the worker idle, from any store
      of admitted pipelines the operator may come up on. */
  lemma RunsConverge(start: State, h: Digest, actions: seq<Action>, s: State, visits: seq<Visit>, c: string)
    requires Initial(start) && AllAdmitted(start.store.pipelines)
    requires DisciplinedRun(start, h, actions) && s == Run(start, h, actions) && s.worker.Idle?
    requires Chain(s.store, h, visits)
    ensures LiveProvisioned(s.store) ==> |visits| <= Fuel(s.store, h)
    ensures (exists k: nat :: Bounded(s.store, h, k)) <==> LiveProvisioned(s.store)
    ensures var end := Drain(s.store, h, visits);
            end.queue == {} && c in end.clusters && Members(end.pipelines, c) != {} ==> Agrees(end, h, c)
  {
    InitiallyInv(start, h);
    RunKeepsInv(start, h, actions);
    RunKeepsSound(start, h, actions);
    assert s == State(s.store, Idle);
    Convergence(s.store, h, visits, c);
  }

  // ---------- chains exist, and are runs ----------

  /** On a calm store some chain does empty the queue, and leaves the store calm. */
  lemma {:induction false} ChainExists(st: Store, h: Digest) returns (visits: seq<Visit>)
    requires Calm(st)
    ensures Chain(st, h, visits) && Drain(st, h, visits).queue == {} && Calm(Drain(st, h, visits))
    decreases Fuel(st, h)
  {
    if st.queue == {} {
      visits := [];
    } else {
      var n :| n in st.queue;
      VisitBurnsFuel(st, h, n, 0);
      var rest := ChainExists(Process(st, h, n, 0), h);
      visits := [Visit(n, 0)] + rest;
      assert visits[1..] == rest;
    }
  }

  lemma {:induction false} ChainIsRun(st: Store, h: Digest, visits: seq<Visit>) returns (actions: seq<Action>)
    requires Chain(st, h, visits)
    ensures Run(State(st, Idle), h, actions) == State(Drain(st, h, visits), Idle)
    ensures DisciplinedRun(State(st, Idle), h, actions)
    decreases visits
  {
    if visits == [] {
      actions := [];
    } else {
      var first := AttendIsRun(st, h, visits[0].name, NO_FAULTS, visits[0].now);
      var rest := ChainIsRun(Process(st, h, visits[0].name, visits[0].now), h, visits[1..]);
      RunThen(State(st, Idle), h, first, rest);
      actions := first + rest;
    }
  }
}
