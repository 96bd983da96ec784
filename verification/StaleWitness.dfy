/** A run in which the pipeline worker reads the Deployment as it was two changes ago, takes its work to be
    done, and leaves the cluster in disagreement with nothing queued. */
module StaleWitness {
  import opened Objects
  import opened Names
  import opened Watch
  import opened Rendering
  import opened Merge
  import opened Admission
  import opened PodHealth
  import opened Conditions
  import opened ApiStore
  import opened Rebuild
  import opened Protocol
  import opened Reconcile
  import opened Agreement
  import opened Termination
  import opened Draining
  import opened Necessity
  import opened BothControllers
  import opened Witnesses

  // ---------- the worker with one and the same answer to every call ----------

  ghost function WorkOn(s: State, h: Digest, r: Answer): State
    decreases Rank(s.worker)
  {
    if s.worker.Idle? then s
    else
      RankFalls(s, h, r);
      WorkOn(Succeed(s, h, r), h, r)
  }

  lemma {:induction false} WorkOnIsRun(s: State, h: Digest, r: Answer) returns (actions: seq<Action>)
    ensures Run(s, h, actions) == WorkOn(s, h, r)
    ensures forall i :: 0 <= i < |actions| ==> actions[i] == Work(Answered, r)
    decreases Rank(s.worker)
  {
    if s.worker.Idle? {
      actions := [];
    } else {
      RankFalls(s, h, r);
      var rest := WorkOnIsRun(Succeed(s, h, r), h, r);
      actions := [Work(Answered, r)] + rest;
      WorkThen(s, h, r, rest);
    }
  }

  lemma WorkThen(s: State, h: Digest, r: Answer, rest: seq<Action>)
    requires s.worker.Busy?
    ensures Run(s, h, [Work(Answered, r)] + rest) == Run(Succeed(s, h, r), h, rest)
  {
    assert ([Work(Answered, r)] + rest)[1..] == rest;
  }

  lemma WorkOnStep(s: State, h: Digest, r: Answer)
    requires s.worker.Busy?
    ensures WorkOn(s, h, r) == WorkOn(Succeed(s, h, r), h, r)
  {
  }

  lemma ReportAnswer(s: State, h: Digest, r: Answer)
    requires Alone(s) && s.worker.stage.Report?
    ensures Succeed(s, h, r) ==
            State(WriteStatus(s.store, s.worker.name, s.worker.seen, s.worker.stage.phase, s.worker.stage.health, NO_FAULTS, r.now).store, Idle)
  {
  }

  /** From the Deployment read on, when it closes the rebuild of a live pipeline. */
  lemma ClosingWork(s: State, h: Digest, r: Answer)
    requires Alone(s) && s.worker.stage.ReadDeploy? && !s.worker.seen.deleting && Closing(s, h, r)
    ensures WorkOn(s, h, r) ==
            State(WriteStatus(s.store, s.worker.name, s.worker.seen, Applied, r.health, NO_FAULTS, r.now).store, Idle)
  {
    ClosingMoves(s, h, r);
    WorkOnStep(s, h, r);
    var s' := Next(s, Report(Applied, r.health));
    WorkOnStep(s', h, r);
    ReportAnswer(s', h, r);
  }

  /** The store with the document in the ConfigMap of `c`. */
  function Documented(st: Store, c: string, content: Content): Store
    requires ConfigMapName(c) in st.configMaps
  {
    var cm := ConfigMapName(c);
    if Holds(st.configMaps[cm], content) then st
    else PutConfigMap(st, cm, st.configMaps[cm].data[PipelinesYaml := content])
  }

  lemma ReadConfigWork(s: State, h: Digest, r: Answer)
    requires s.worker.Busy? && s.worker.stage.ReadConfig? && ConfigMapName(s.worker.seen.spec.clusterRef) in s.store.configMaps
    ensures var st', content := Documented(s.store, s.worker.seen.spec.clusterRef, s.worker.stage.content), s.worker.stage.content;
            WorkOn(s, h, r) == WorkOn(State(st', s.worker.(stage := ReadDeploy(content))), h, r)
  {
    var cm, content := ConfigMapName(s.worker.seen.spec.clusterRef), s.worker.stage.content;
    WorkOnStep(s, h, r);
    if !Holds(s.store.configMaps[cm], content) {
      WorkOnStep(Next(s, WriteConfig(content, s.store.configMaps[cm])), h, r);
    }
  }

  /** From the start of the reconcile of a live pipeline to the ConfigMap read. */
  lemma BeginWork(st: Store, h: Digest, k: string, r: Answer)
    requires k in st.pipelines && !st.pipelines[k].deleting && st.pipelines[k].finalizer
    requires st.pipelines[k].spec.clusterRef in st.clusters && Wanted(st, st.pipelines[k].spec.clusterRef).Some?
    ensures WorkOn(Start(State(st, Idle), k), h, r) ==
            WorkOn(State(Unqueue(st, k), Busy(k, st.pipelines[k], ReadConfig(Wanted(st, st.pipelines[k].spec.clusterRef).value))), h, r)
  {
    var s := Start(State(st, Idle), k);
    WorkOnStep(s, h, r);
    WorkOnStep(Next(s, Collect), h, r);
  }

  /** A live pipeline of `c` is visited, and the Deployment is seen as `d`, which carries the wanted hash. */
  ghost predicate SeenDone(st: Store, h: Digest, c: string, k: string, d: Deployment) {
    && k in st.pipelines && !st.pipelines[k].deleting && st.pipelines[k].finalizer && st.pipelines[k].spec.clusterRef == c
    && c in st.clusters && ConfigMapName(c) in st.configMaps && Wanted(st, c).Some? && Annotation(d) == h(Wanted(st, c).value)
    && Plausible(st, c, d)
  }

  function Glance(d: Deployment): Answer { Answer(0, UNKNOWN, Stale(Some(d))) }

  /** What such a visit leaves behind: the document, the status, and no look at the annotation. */
  ghost function StaleVisit(st: Store, h: Digest, c: string, k: string): Store
    requires k in st.pipelines && ConfigMapName(c) in st.configMaps && Wanted(st, c).Some?
  {
    WriteStatus(Documented(Unqueue(st, k), c, Wanted(st, c).value), k, st.pipelines[k], Applied, UNKNOWN, NO_FAULTS, 0).store
  }

  lemma StaleVisitWorks(st: Store, h: Digest, c: string, k: string, d: Deployment)
    requires SeenDone(st, h, c, k, d)
    ensures WorkOn(Start(State(st, Idle), k), h, Glance(d)) == State(StaleVisit(st, h, c, k), Idle)
  {
    var content, r := Wanted(st, c).value, Glance(d);
    var w := Busy(k, st.pipelines[k], ReadConfig(content));
    BeginWork(st, h, k, r);
    ReadConfigWork(State(Unqueue(st, k), w), h, r);
    var s := State(Documented(Unqueue(st, k), c, content), w.(stage := ReadDeploy(content)));
    StillPlausible(st, h, c, k, d);
    assert Closing(s, h, r);
    ClosingWork(s, h, r);
  }

  lemma StillPlausible(st: Store, h: Digest, c: string, k: string, d: Deployment)
    requires SeenDone(st, h, c, k, d)
    ensures var st' := Documented(Unqueue(st, k), c, Wanted(st, c).value);
            && DeployFound(st', c, Stale(Some(d))) == Some(d)
            && st'.pipelines == st.pipelines && st'.deployments == st.deployments
  {
  }

  /** As a run of the machine. */
  lemma StaleVisitIsRun(st: Store, h: Digest, c: string, k: string, d: Deployment) returns (actions: seq<Action>)
    requires SeenDone(st, h, c, k, d) && k in st.queue
    ensures Run(State(st, Idle), h, actions) == State(StaleVisit(st, h, c, k), Idle)
    ensures StaleMoves(actions, k, d)
  {
    var rest := WorkOnIsRun(Start(State(st, Idle), k), h, Glance(d));
    StaleVisitWorks(st, h, c, k, d);
    BeginThen(st, h, k, rest);
    actions := [Begin(k)] + rest;
    BothAre([Begin(k)], rest, k, d);
  }

  lemma BeginThen(st: Store, h: Digest, k: string, rest: seq<Action>)
    requires k in st.queue
    ensures Run(State(st, Idle), h, [Begin(k)] + rest) == Run(Start(State(st, Idle), k), h, rest)
  {
    assert ([Begin(k)] + rest)[1..] == rest;
  }

  // ---------- two such visits ----------

  /** The first visit writes the document and queues the pipeline again, because of its own ConfigMap write; the
      Deployment is not touched. */
  lemma FirstStaleVisit(st: Store, h: Digest, c: string, k: string, d: Deployment)
    requires SeenDone(st, h, c, k, d) && !Holds(st.configMaps[ConfigMapName(c)], Wanted(st, c).value)
    ensures var st' := StaleVisit(st, h, c, k);
            && k in st'.queue && st'.queue <= st.queue + Members(st.pipelines, c)
            && ConfigMapName(c) in st'.configMaps && Holds(st'.configMaps[ConfigMapName(c)], Wanted(st, c).value)
            && st'.deployments == st.deployments && st'.clusters == st.clusters && st.clock <= st'.clock
  {
    var mid := Documented(Unqueue(st, k), c, Wanted(st, c).value);
    DocumentedEffect(Unqueue(st, k), c, Wanted(st, c).value);
    StatusKeeps(mid, k, st.pipelines[k]);
    assert k in Members(st.pipelines, c);
  }

  lemma DocumentedEffect(st: Store, c: string, content: Content)
    requires ConfigMapName(c) in st.configMaps && !Holds(st.configMaps[ConfigMapName(c)], content)
    ensures var st' := Documented(st, c, content);
            && st'.queue == st.queue + Members(st.pipelines, c) && st.clock <= st'.clock
            && ConfigMapName(c) in st'.configMaps && Holds(st'.configMaps[ConfigMapName(c)], content)
            && st'.deployments == st.deployments && st'.clusters == st.clusters && st'.pipelines == st.pipelines
  {
    TargetsOfOwnConfigMap(st.pipelines, c);
  }

  lemma StatusKeeps(st: Store, k: string, p: Pipeline)
    ensures var st' := WriteStatus(st, k, p, Applied, UNKNOWN, NO_FAULTS, 0).store;
            && st.queue <= st'.queue <= st.queue + {k} && st.clock <= st'.clock
            && st'.configMaps == st.configMaps && st'.deployments == st.deployments && st'.clusters == st.clusters
  {
  }

  /** It leaves the pipeline with the status it computed. */
  lemma StaleVisitStatus(st: Store, h: Digest, c: string, k: string, d: Deployment)
    requires SeenDone(st, h, c, k, d)
    ensures var p, st' := st.pipelines[k], StaleVisit(st, h, c, k);
            && k in st'.pipelines && st'.pipelines == st.pipelines[k := st'.pipelines[k]]
            && st'.pipelines[k].spec == p.spec && st'.pipelines[k].finalizer && !st'.pipelines[k].deleting
            && st'.pipelines[k].generation == p.generation && st'.pipelines[k].status == NextStatus(p, Applied, UNKNOWN, 0)
  {
    StillPlausible(st, h, c, k, d);
    StatusWritten(Documented(Unqueue(st, k), c, Wanted(st, c).value), k, st.pipelines[k]);
  }

  lemma StatusWritten(st: Store, k: string, p: Pipeline)
    requires k in st.pipelines && st.pipelines[k] == p
    ensures var st' := WriteStatus(st, k, p, Applied, UNKNOWN, NO_FAULTS, 0).store;
            && k in st'.pipelines && st'.pipelines == st.pipelines[k := st'.pipelines[k]]
            && st'.pipelines[k] == p.(status := NextStatus(p, Applied, UNKNOWN, 0), version := st'.pipelines[k].version)
  {
  }

  lemma StatusComputedAgain(p: Pipeline, q: Pipeline)
    requires q.spec == p.spec && q.generation == p.generation && q.status == NextStatus(p, Applied, UNKNOWN, 0)
    ensures NextStatus(q, Applied, UNKNOWN, 0) == q.status
  {
    PipelineStatusSettles(p, Applied, UNKNOWN, 0, 0);
  }

  /** The document does not depend on the status. */
  lemma StaleVisitDocument(st: Store, h: Digest, c: string, k: string, d: Deployment)
    requires SeenDone(st, h, c, k, d)
    ensures Active(StaleVisit(st, h, c, k).pipelines, c, None) == Active(st.pipelines, c, None)
  {
    StaleVisitStatus(st, h, c, k, d);
    RewriteKeepsDocument(st.pipelines, StaleVisit(st, h, c, k).pipelines, k, c);
  }

  /** The second visit finds document and status as they should be, and is content. */
  lemma SecondStaleVisit(st: Store, h: Digest, c: string, k: string)
    requires k in st.pipelines && ConfigMapName(c) in st.configMaps && Wanted(st, c).Some?
    requires Holds(st.configMaps[ConfigMapName(c)], Wanted(st, c).value)
    requires NextStatus(st.pipelines[k], Applied, UNKNOWN, 0) == st.pipelines[k].status
    ensures StaleVisit(st, h, c, k) == Unqueue(st, k)
  {
  }

  lemma SeenDoneAgain(st: Store, h: Digest, c: string, k: string, d: Deployment)
    requires SeenDone(st, h, c, k, d) && !Holds(st.configMaps[ConfigMapName(c)], Wanted(st, c).value)
    ensures var st' := StaleVisit(st, h, c, k);
            && SeenDone(st', h, c, k, d) && Wanted(st', c) == Wanted(st, c)
            && NextStatus(st'.pipelines[k], Applied, UNKNOWN, 0) == st'.pipelines[k].status
  {
    FirstStaleVisit(st, h, c, k, d);
    StaleVisitStatus(st, h, c, k, d);
    StaleVisitDocument(st, h, c, k, d);
    StatusComputedAgain(st.pipelines[k], StaleVisit(st, h, c, k).pipelines[k]);
  }

  /** Two stale visits to the only pipeline of `c`: nothing is queued any more, the ConfigMap holds the document,
      and the annotation is what it was. */
  lemma StaleVisitsOrphan(st: Store, h: Digest, c: string, k: string, d: Deployment) returns (actions: seq<Action>, end: Store)
    requires SeenDone(st, h, c, k, d) && st.queue == {k} && Members(st.pipelines, c) == {k} && Provisioned(st, c)
    requires !Holds(st.configMaps[ConfigMapName(c)], Wanted(st, c).value)
    requires Annotation(st.deployments[c]) != h(Wanted(st, c).value)
    ensures Run(State(st, Idle), h, actions) == State(end, Idle) && Orphaned(end, h, c)
    ensures StaleMoves(actions, k, d)
  {
    var mid := StaleVisit(st, h, c, k);
    FirstStaleVisit(st, h, c, k, d);
    SeenDoneAgain(st, h, c, k, d);
    actions := TwoStaleVisits(st, mid, h, c, k, d);
    SecondStaleVisit(mid, h, c, k);
    end := Unqueue(mid, k);
    StaleEnd(st, mid, h, c, k, d);
  }

  lemma TwoStaleVisits(st: Store, mid: Store, h: Digest, c: string, k: string, d: Deployment) returns (actions: seq<Action>)
    requires SeenDone(st, h, c, k, d) && k in st.queue && mid == StaleVisit(st, h, c, k)
    requires SeenDone(mid, h, c, k, d) && k in mid.queue
    ensures Run(State(st, Idle), h, actions) == State(StaleVisit(mid, h, c, k), Idle)
    ensures StaleMoves(actions, k, d)
  {
    var first := StaleVisitIsRun(st, h, c, k, d);
    var second := StaleVisitIsRun(mid, h, c, k, d);
    RunThen(State(st, Idle), h, first, second);
    actions := first + second;
    BothAre(first, second, k, d);
  }

  /** Nothing but the worker's own moves. */
  ghost predicate StaleMoves(actions: seq<Action>, k: string, d: Deployment) {
    forall i :: 0 <= i < |actions| ==> actions[i] == Begin(k) || actions[i] == Work(Answered, Glance(d))
  }

  lemma BothAre(first: seq<Action>, second: seq<Action>, k: string, d: Deployment)
    requires StaleMoves(first, k, d) && StaleMoves(second, k, d)
    ensures StaleMoves(first + second, k, d)
  {
  }

  lemma StaleEnd(st: Store, mid: Store, h: Digest, c: string, k: string, d: Deployment)
    requires SeenDone(st, h, c, k, d) && st.queue == {k} && Members(st.pipelines, c) == {k} && Provisioned(st, c)
    requires !Holds(st.configMaps[ConfigMapName(c)], Wanted(st, c).value)
    requires Annotation(st.deployments[c]) != h(Wanted(st, c).value) && mid == StaleVisit(st, h, c, k)
    ensures Orphaned(Unqueue(mid, k), h, c)
  {
    FirstStaleVisit(st, h, c, k, d);
    SeenDoneAgain(st, h, c, k, d);
    assert k in Members(mid.pipelines, c);
  }

  // ---------- versions ----------

  /** The Deployment of `c` is as it was, or has a version above the old clock. */
  predicate Succeeds(st: Store, st': Store, c: string) {
    && st.clock <= st'.clock && (c in st'.deployments <==> c in st.deployments)
    && (c in st.deployments && st'.deployments[c] != st.deployments[c] ==> st'.deployments[c].version > st.clock)
  }

  lemma SyncSucceeds(st: Store, h: Digest, e: string, content: Content, c: string)
    ensures Succeeds(st, SyncDeployment(st, h, e, content, NO_FAULTS).store, c)
  {
  }

  lemma ApplySucceeds(st: Store, h: Digest, e: string, content: Content, c: string)
    ensures Succeeds(st, ApplyContent(st, h, e, content, NO_FAULTS).store, c)
  {
    var name := ConfigMapName(e);
    if name in st.configMaps {
      if Holds(st.configMaps[name], content) {
        SyncSucceeds(st, h, e, content, c);
      } else {
        SyncSucceeds(PutConfigMap(st, name, st.configMaps[name].data[PipelinesYaml := content]), h, e, content, c);
      }
    }
  }

  lemma RebuildSucceeds(st: Store, h: Digest, e: string, exclude: Option<string>, c: string)
    ensures Succeeds(st, RebuildCluster(st, h, e, exclude, NO_FAULTS).store, c)
  {
    var content := ContentOf(Active(st.pipelines, e, exclude));
    if content.Some? {
      ApplySucceeds(st, h, e, content.value, c);
    }
  }

  lemma StatusClock(st: Store, k: string, p: Pipeline, phase: Phase, health: Health, now: nat)
    ensures st.clock <= WriteStatus(st, k, p, phase, health, NO_FAULTS, now).store.clock
  {
  }

  lemma ApplyClock(st: Store, h: Digest, k: string, p: Pipeline, now: nat)
    ensures st.clock <= Apply(st, h, k, p, NO_FAULTS, now).store.clock
  {
    var c := p.spec.clusterRef;
    var mid := RebuildCluster(st, h, c, None, NO_FAULTS).store;
    RebuildSucceeds(st, h, c, None, c);
    StatusClock(st, k, p, Pending, UNKNOWN, now);
    StatusClock(mid, k, p, Applied, Scan(mid, c, NO_FAULTS), now);
  }

  lemma FinalizeClock(st: Store, h: Digest, k: string, p: Pipeline)
    ensures st.clock <= Finalize(st, h, k, p, NO_FAULTS).store.clock
  {
    RebuildSucceeds(st, h, p.spec.clusterRef, Some(k), p.spec.clusterRef);
  }

  lemma VisitClock(st: Store, h: Digest, k: string, now: nat)
    ensures st.clock <= Process(st, h, k, now).clock
  {
    if k in st.pipelines {
      ApplyClock(Unqueue(st, k), h, k, st.pipelines[k], now);
      FinalizeClock(Unqueue(st, k), h, k, st.pipelines[k]);
    }
  }

  lemma VisitSucceeds(st: Store, h: Digest, k: string, now: nat, c: string)
    ensures Succeeds(st, Process(st, h, k, now), c)
  {
    VisitClock(st, h, k, now);
    VisitObjects(st, h, k, now);
    if k in st.pipelines {
      RebuildSucceeds(Unqueue(st, k), h, st.pipelines[k].spec.clusterRef, None, c);
    }
  }

  lemma {:induction false} DrainSucceeds(st: Store, h: Digest, visits: seq<Visit>, c: string)
    ensures Succeeds(st, Drain(st, h, visits), c)
    decreases visits
  {
    if visits != [] {
      VisitSucceeds(st, h, visits[0].name, visits[0].now, c);
      DrainSucceeds(Process(st, h, visits[0].name, visits[0].now), h, visits[1..], c);
    }
  }

  // ---------- the whole run ----------

  /** The pipeline `k` with its other definition. */
  function Other(x: Cast): map<string, PipelineSpec> { map[x.k := x.pn] }

  /** The hash tells the two documents apart. */
  ghost predicate Distinguishes(h: Digest, x: Cast) {
    var a, b := ContentOf(One(x)), ContentOf(Other(x));
    a.Some? && b.Some? && h(a.value) != h(b.value)
  }

  lemma SoleEntry(k: string, spec: PipelineSpec)
    requires GoodShape(spec)
    ensures Mergeable(map[k := spec]) && Entries(map[k := spec]) == {EntryOf(spec)}
  {
    var a := map[k := spec];
    assert k in a && a[k] == spec;
    forall e | e in Entries(a)
      ensures e == EntryOf(spec)
    {
      var n :| n in a && e == EntryOf(a[n]);
    }
    assert EntryOf(a[k]) in Entries(a);
  }

  /** The two documents differ, because the keys do. */
  lemma DocumentsDiffer(x: Cast)
    requires Playable(x)
    ensures ContentOf(One(x)).Some? && ContentOf(Other(x)).Some? && ContentOf(One(x)) != ContentOf(Other(x))
  {
    SoleEntry(x.k, x.pk);
    SoleEntry(x.k, x.pn);
    assert x.k in One(x) && One(x)[x.k] == x.pk;
    assert EntryOf(x.pk) != EntryOf(x.pn);
    if ContentOf(One(x)) == ContentOf(Other(x)) {
      RenderInjective(Entries(One(x)), Entries(Other(x)));
    }
  }

  /** A hash that tells one content from all others. */
  function Telling(a: Content): Digest {
    (c: Content) => if c == a then "0123456789abcdef" else "fedcba9876543210"
  }

  lemma TellingTells(a: Content, b: Content)
    requires a != b
    ensures Telling(a)(a) != Telling(a)(b)
  {
    assert Telling(a)(a)[0] == '0' && Telling(a)(b)[0] == 'f';
  }

  /** So a hash that tells the two documents apart exists for every cast. */
  lemma DigestExists(x: Cast) returns (h: Digest)
    requires Playable(x)
    ensures Distinguishes(h, x)
  {
    DocumentsDiffer(x);
    h := Telling(ContentOf(One(x)).value);
    TellingTells(ContentOf(One(x)).value, ContentOf(Other(x)).value);
  }

  /** What the worker will be shown: the Deployment as it was at the first rest. */
  ghost predicate Remembers(s: State, h: Digest, x: Cast, d: Deployment) {
    && Resting(s, h, x.c, Other(x)) && ContentOf(One(x)).Some? && Annotation(d) == h(ContentOf(One(x)).value)
    && d.version < s.store.deployments[x.c].version && d.version <= s.store.clock
  }

  /** Every state of a disciplined run has versions below its clock. */
  lemma ReachedVersions(h: Digest, actions: seq<Action>, s: State)
    requires Reaches(h, actions, s)
    ensures VersionsOk(s.store)
  {
    ReachesStart(h);
    InitiallyInv(START, h);
    RunKeepsInv(START, h, actions);
  }

  lemma OneDocument(st: Store, h: Digest, c: string, specs: map<string, PipelineSpec>)
    requires Hosts(st, c, specs) && Agrees(st, h, c)
    ensures ContentOf(specs).Some? && c in st.deployments && Annotation(st.deployments[c]) == h(ContentOf(specs).value)
    ensures ConfigMapName(c) in st.configMaps && Holds(st.configMaps[ConfigMapName(c)], ContentOf(specs).value)
  {
    HostsDocument(st, c, specs);
  }

  lemma FitsInstead(x: Cast)
    requires Playable(x)
    ensures Fits(x.c, One(x), x.k, x.pn) && Fits(x.c, Other(x), x.k, x.pk) && x.pk != x.pn
    ensures One(x)[x.k := x.pn] == Other(x) && Other(x)[x.k := x.pk] == One(x)
    ensures x.k in One(x) && One(x)[x.k] == x.pk && x.k in Other(x) && Other(x)[x.k] == x.pn
  {
    assert x.k in One(x) && One(x)[x.k] == x.pk;
  }

  /** The Deployment at the first rest. */
  lemma FirstRest(h: Digest, x: Cast) returns (actions: seq<Action>, s: State)
    requires Playable(x)
    ensures Reaches(h, actions, s) && Resting(s, h, x.c, One(x)) && VersionsOk(s.store)
    ensures ContentOf(One(x)).Some? && Annotation(s.store.deployments[x.c]) == h(ContentOf(One(x)).value)
  {
    actions, s := OneAtRest(h, x);
    ReachedVersions(h, actions, s);
    OneDocument(s.store, h, x.c, One(x));
  }

  /** From one rest, through another definition, to the next. */
  lemma NextRest(h: Digest, first: seq<Action>, s: State, x: Cast) returns (actions: seq<Action>, s': State)
    requires Playable(x) && Reaches(h, first, s) && Resting(s, h, x.c, One(x))
    ensures Reaches(h, actions, s') && Resting(s', h, x.c, Other(x)) && Succeeds(s.store, s'.store, x.c)
  {
    FitsInstead(x);
    var mid, visits;
    actions, mid := EditReached(h, first, s, x.c, One(x), x.k, x.pn);
    actions, s', visits := RestFollows(h, actions, mid, x.c, Other(x));
    DrainSucceeds(mid.store, h, visits, x.c);
  }

  /** The definition is changed, and all comes to rest: the Deployment has another hash and another version. */
  lemma ChangedOnce(h: Digest, x: Cast) returns (actions: seq<Action>, s: State, d: Deployment)
    requires Playable(x) && Distinguishes(h, x)
    ensures Reaches(h, actions, s) && Remembers(s, h, x, d)
  {
    var first;
    actions, first := FirstRest(h, x);
    d := first.store.deployments[x.c];
    actions, s := NextRest(h, actions, first, x);
    OneDocument(s.store, h, x.c, Other(x));
  }

  lemma SeenDoneNow(s: State, h: Digest, x: Cast, d: Deployment)
    requires s.worker.Idle? && Hosts(s.store, x.c, One(x)) && s.store.pipelines[x.k].finalizer
    requires ContentOf(One(x)).Some? && Annotation(d) == h(ContentOf(One(x)).value)
    requires d.version < s.store.deployments[x.c].version && d.version <= s.store.clock
    ensures SeenDone(s.store, h, x.c, x.k, d) && Members(s.store.pipelines, x.c) == {x.k}
    ensures Wanted(s.store, x.c) == ContentOf(One(x))
  {
    HostsDocument(s.store, x.c, One(x));
    assert Hosted(s.store, x.c, x.k, One(x)[x.k]);
  }

  /** Stale reads orphan: there is a disciplined run from a bare API server after which the worker, taking names from
      the queue and reading the Deployment as it once really was, serves the queue until it is empty and leaves
      the cluster in disagreement.  The definition was changed and changed back in between. */
  lemma StaleReadWitness(h: Digest, x: Cast)
    returns (actions: seq<Action>, s: State, d: Deployment, more: seq<Action>, end: Store)
    requires Playable(x) && Distinguishes(h, x)
    ensures Reaches(h, actions, s) && s.worker.Idle?
    ensures StaleMoves(more, x.k, d)
    ensures Run(s, h, more) == State(end, Idle) && Orphaned(end, h, x.c)
  {
    var mid;
    actions, mid, d := ChangedOnce(h, x);
    actions, s := ChangedBack(h, actions, mid, x, d);
    assert s == State(s.store, Idle);
    more, end := StaleVisitsOrphan(s.store, h, x.c, x.k, d);
  }

  /** The old definition comes back; the Deployment still carries the hash of the other. */
  lemma ChangedBack(h: Digest, first: seq<Action>, mid: State, x: Cast, d: Deployment) returns (actions: seq<Action>, s: State)
    requires Playable(x) && Distinguishes(h, x) && Reaches(h, first, mid) && Remembers(mid, h, x, d)
    ensures Reaches(h, actions, s) && s.worker.Idle? && SeenDone(s.store, h, x.c, x.k, d)
    ensures s.store.queue == {x.k} && Members(s.store.pipelines, x.c) == {x.k} && Provisioned(s.store, x.c)
    ensures !Holds(s.store.configMaps[ConfigMapName(x.c)], Wanted(s.store, x.c).value)
    ensures Annotation(s.store.deployments[x.c]) != h(Wanted(s.store, x.c).value)
  {
    FitsInstead(x);
    actions, s := EditReached(h, first, mid, x.c, Other(x), x.k, x.pk);
    OneDocument(mid.store, h, x.c, Other(x));
    SeenDoneNow(s, h, x, d);
    NotYet(s.store, h, x);
  }

  /** The other document is not the wanted one. */
  lemma NotYet(st: Store, h: Digest, x: Cast)
    requires Distinguishes(h, x) && Wanted(st, x.c) == ContentOf(One(x)) && Provisioned(st, x.c)
    requires Holds(st.configMaps[ConfigMapName(x.c)], ContentOf(Other(x)).value)
    requires Annotation(st.deployments[x.c]) == h(ContentOf(Other(x)).value)
    ensures !Holds(st.configMaps[ConfigMapName(x.c)], Wanted(st, x.c).value)
    ensures Annotation(st.deployments[x.c]) != h(Wanted(st, x.c).value)
  {
  }
}
