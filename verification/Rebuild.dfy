/** rebuildClusterConfig as a function of the store and of the calls that fail. */
module Rebuild {
  import opened Objects
  import opened Names
  import opened Watch
  import opened Merge
  import opened ApiStore

  /** The API calls of one pipeline reconcile; each is issued at most once. */
  datatype Call =
    | GetPipeline | GetCluster | ListPipelines | GetConfigMap | UpdateConfigMap
    | GetDeployment | UpdateDeployment | ListPods | UpdatePipeline | UpdateStatus

  /** How a call can fail: without effect, or after taking effect with the answer lost. */
  datatype Fault = Unsent | Unheard

  /** The calls that fail.  Their caller sees an error either way. */
  type Faults = map<Call, Fault>

  const NO_FAULTS: Faults := map[]

  /** A write takes effect although its caller may see an error. */
  predicate Lands(faults: Faults, call: Call) { call in faults ==> faults[call] == Unheard }

  /** `Missing` is the API server's NotFound, which the deletion path forgives. */
  datatype Outcome = Done | Missing | Failed

  datatype Result = Result(store: Store, outcome: Outcome)

  function WithHash(d: Deployment, hash: string): Deployment {
    d.(annotations := d.annotations[PipelinesHash := hash])
  }

  function SyncDeployment(st: Store, h: Digest, c: string, content: Content, faults: Faults): Result {
    if GetDeployment in faults then Result(st, Failed)
    else if c !in st.deployments then Result(st, Missing)
    else if Annotation(st.deployments[c]) == h(content) then Result(st, Done)
    else
      Result(if Lands(faults, UpdateDeployment) then PutDeployment(st, c, WithHash(st.deployments[c], h(content))) else st,
             if UpdateDeployment in faults then Failed else Done)
  }

  function ApplyContent(st: Store, h: Digest, c: string, content: Content, faults: Faults): Result {
    var name := ConfigMapName(c);
    if GetConfigMap in faults then Result(st, Failed)
    else if name !in st.configMaps then Result(st, Missing)
    else if Holds(st.configMaps[name], content) then SyncDeployment(st, h, c, content, faults)
    else
      var written := PutConfigMap(st, name, st.configMaps[name].data[PipelinesYaml := content]);
      if UpdateConfigMap in faults then Result(if Lands(faults, UpdateConfigMap) then written else st, Failed)
      else SyncDeployment(written, h, c, content, faults)
  }

  ghost function RebuildCluster(st: Store, h: Digest, c: string, exclude: Option<string>, faults: Faults): Result {
    if ListPipelines in faults then Result(st, Failed)
    else match ContentOf(Active(st.pipelines, c, exclude))
      case None => Result(st, Failed)
      case Some(content) => ApplyContent(st, h, c, content, faults)
  }

  // ---------- what a rebuild leaves behind ----------

  /** Both objects a rebuild writes exist. */
  predicate Provisioned(st: Store, c: string) {
    ConfigMapName(c) in st.configMaps && c in st.deployments
  }

  /** ConfigMap and annotation both say `content`. */
  predicate InSync(st: Store, h: Digest, c: string, content: Content) {
    && Provisioned(st, c)
    && Holds(st.configMaps[ConfigMapName(c)], content)
    && Annotation(st.deployments[c]) == h(content)
  }

  /** Only the ConfigMap and the Deployment of `c`, the queue and the clock may differ; the
      queue only grows, by pipelines of `c`. */
  ghost predicate TouchesOnly(st: Store, st': Store, c: string) {
    && st' == st.(configMaps := st'.configMaps, deployments := st'.deployments, queue := st'.queue, clock := st'.clock)
    && st'.configMaps.Keys == st.configMaps.Keys && st'.deployments.Keys == st.deployments.Keys
    && (forall n :: n in st.configMaps && n != ConfigMapName(c) ==> st'.configMaps[n] == st.configMaps[n])
    && (forall n :: n in st.deployments && n != c ==> st'.deployments[n] == st.deployments[n])
    && st.queue <= st'.queue <= st.queue + Members(st.pipelines, c)
    && st.clock <= st'.clock
  }

  /** The Deployment of `c` is as before, but for the pipelines hash, which is `hash`. */
  predicate OnlyHashMoved(st: Store, st': Store, c: string, hash: string) {
    && c in st.deployments && c in st'.deployments
    && st'.deployments[c].annotations == st.deployments[c].annotations[PipelinesHash := hash]
    && st'.deployments[c] == WithHash(st.deployments[c], hash).(version := st'.deployments[c].version)
  }

  /** Only the `pipelines.yaml` key of the ConfigMap of `c` moved, to `content`. */
  predicate OnlyContentMoved(st: Store, st': Store, c: string, content: Content) {
    var n := ConfigMapName(c);
    && n in st.configMaps && n in st'.configMaps
    && st'.configMaps[n].data == st.configMaps[n].data[PipelinesYaml := content]
  }

  /** The Deployment half of a rebuild: what it can touch. */
  lemma SyncEffect(st: Store, h: Digest, c: string, content: Content, faults: Faults)
    ensures var r := SyncDeployment(st, h, c, content, faults);
            && TouchesOnly(st, r.store, c)
            && r.store.configMaps == st.configMaps && r.store.queue == st.queue
            && (r.store == st || OnlyHashMoved(st, r.store, c, h(content)))
  {
  }

  /** And what its outcome says. */
  lemma SyncOutcome(st: Store, h: Digest, c: string, content: Content, faults: Faults)
    ensures var r := SyncDeployment(st, h, c, content, faults);
            && (r.outcome == Done ==> c in r.store.deployments && Annotation(r.store.deployments[c]) == h(content))
            && (r.outcome == Missing ==> r.store == st && c !in st.deployments)
            && (faults == NO_FAULTS && c in st.deployments ==> r.outcome == Done)
            && (c in st.deployments && Annotation(st.deployments[c]) == h(content) ==> r.store == st)
  {
  }

  /** The ConfigMap half: what the write does when it is needed. */
  lemma WriteEffect(st: Store, c: string, content: Content)
    requires ConfigMapName(c) in st.configMaps
    ensures var st' := PutConfigMap(st, ConfigMapName(c), st.configMaps[ConfigMapName(c)].data[PipelinesYaml := content]);
            && TouchesOnly(st, st', c)
            && st'.deployments == st.deployments
            && OnlyContentMoved(st, st', c, content)
            && Holds(st'.configMaps[ConfigMapName(c)], content)
  {
  }

  /** What became of the pair (ConfigMap, annotation): old/old, new/old or new/new. */
  ghost predicate ConsistentPair(st: Store, st': Store, h: Digest, c: string, content: Content) {
    || (st'.configMaps == st.configMaps && st'.deployments == st.deployments)
    || (OnlyContentMoved(st, st', c, content) && st'.deployments == st.deployments)
    || (OnlyContentMoved(st, st', c, content) && OnlyHashMoved(st, st', c, h(content)))
  }

  /** Both halves, from a store where the ConfigMap already holds the content. */
  lemma HeldEffect(st: Store, h: Digest, c: string, content: Content, faults: Faults)
    requires ConfigMapName(c) in st.configMaps && Holds(st.configMaps[ConfigMapName(c)], content)
    ensures Applies(st, SyncDeployment(st, h, c, content, faults), h, c, content, faults)
  {
    var name := ConfigMapName(c);
    assert st.configMaps[name].data[PipelinesYaml := content] == st.configMaps[name].data;
    SyncEffect(st, h, c, content, faults);
    SyncOutcome(st, h, c, content, faults);
  }

  /** And from one where it is written first. */
  lemma WrittenEffect(st: Store, st1: Store, h: Digest, c: string, content: Content, faults: Faults)
    requires ConfigMapName(c) in st.configMaps
    requires st1 == PutConfigMap(st, ConfigMapName(c), st.configMaps[ConfigMapName(c)].data[PipelinesYaml := content])
    ensures Applies(st, SyncDeployment(st1, h, c, content, faults), h, c, content, faults)
  {
    WriteEffect(st, c, content);
    SyncEffect(st1, h, c, content, faults);
    SyncOutcome(st1, h, c, content, faults);
  }

  /** What an attempt to apply `content` to `c` leaves behind. */
  ghost predicate Applies(st: Store, r: Result, h: Digest, c: string, content: Content, faults: Faults) {
    && TouchesOnly(st, r.store, c)
    && ConsistentPair(st, r.store, h, c, content)
    && (r.outcome == Done ==> InSync(r.store, h, c, content) && OnlyContentMoved(st, r.store, c, content))
    && (r.outcome == Missing ==> !Provisioned(st, c))
    && (faults == NO_FAULTS && Provisioned(st, c) ==> r.outcome == Done)
    && (c in st.deployments && Annotation(st.deployments[c]) == h(content) ==> r.store.deployments == st.deployments)
  }

  lemma ApplyEffect(st: Store, h: Digest, c: string, content: Content, faults: Faults)
    ensures Applies(st, ApplyContent(st, h, c, content, faults), h, c, content, faults)
  {
    var name := ConfigMapName(c);
    if name in st.configMaps && GetConfigMap !in faults {
      var st1 := PutConfigMap(st, name, st.configMaps[name].data[PipelinesYaml := content]);
      if Holds(st.configMaps[name], content) {
        HeldEffect(st, h, c, content, faults);
      } else if UpdateConfigMap in faults {
        WriteEffect(st, c, content);
      } else {
        WrittenEffect(st, st1, h, c, content, faults);
      }
    }
  }

  /** Crash consistency: whichever calls fail, with or without taking effect, the pair (ConfigMap, annotation) is old/old,
      new/old or new/new; success means new/new; a merge error changes nothing; and nothing
      else is ever touched. */
  lemma CrashConsistent(st: Store, h: Digest, c: string, exclude: Option<string>, faults: Faults)
    ensures var r := RebuildCluster(st, h, c, exclude, faults);
            var wanted := ContentOf(Active(st.pipelines, c, exclude));
            && TouchesOnly(st, r.store, c)
            && (wanted.None? ==> r == Result(st, Failed))
            && (wanted.Some? ==>
                  && ConsistentPair(st, r.store, h, c, wanted.value)
                  && (r.outcome == Done ==>
                        InSync(r.store, h, c, wanted.value) && OnlyContentMoved(st, r.store, c, wanted.value)))
  {
    var wanted := ContentOf(Active(st.pipelines, c, exclude));
    if wanted.Some? {
      ApplyEffect(st, h, c, wanted.value, faults);
    }
  }

  /** A rerun after any failure, on the same pipelines, completes to new/new, because the
      annotation is compared whether or not the ConfigMap had already been written. */
  lemma RerunCompletes(st: Store, h: Digest, c: string, exclude: Option<string>, faults: Faults)
    requires Provisioned(st, c) && Mergeable(Active(st.pipelines, c, exclude))
    ensures var crashed := RebuildCluster(st, h, c, exclude, faults).store;
            var r := RebuildCluster(crashed, h, c, exclude, NO_FAULTS);
            r.outcome == Done && InSync(r.store, h, c, ContentOf(Active(st.pipelines, c, exclude)).value)
  {
    CrashConsistent(st, h, c, exclude, faults);
    var crashed := RebuildCluster(st, h, c, exclude, faults).store;
    assert crashed.pipelines == st.pipelines;
    CrashConsistent(crashed, h, c, exclude, NO_FAULTS);
    ApplyEffect(crashed, h, c, ContentOf(Active(st.pipelines, c, exclude)).value, NO_FAULTS);
  }

  /** Success is a fixpoint: a store already in sync is left alone, version numbers included,
      and no event is raised. */
  lemma InSyncIsFixpoint(st: Store, h: Digest, c: string, exclude: Option<string>, faults: Faults)
    requires ContentOf(Active(st.pipelines, c, exclude)).Some?
    requires InSync(st, h, c, ContentOf(Active(st.pipelines, c, exclude)).value)
    ensures RebuildCluster(st, h, c, exclude, faults).store == st
    ensures faults == NO_FAULTS ==> RebuildCluster(st, h, c, exclude, faults).outcome == Done
  {
  }

  // ---------- restart only on change ----------

  /** One rebuild after the pipelines became `m`. */
  ghost function Edit(st: Store, h: Digest, c: string, m: map<string, Pipeline>): Store {
    RebuildCluster(st.(pipelines := m), h, c, None, NO_FAULTS).store
  }

  /** Number of Deployment writes, each a rolling restart, over a sequence of edits. */
  ghost function Restarts(st: Store, h: Digest, c: string, edits: seq<map<string, Pipeline>>): nat
    decreases edits
  {
    if edits == [] then 0
    else
      var next := Edit(st, h, c, edits[0]);
      (if next.deployments == st.deployments then 0 else 1) + Restarts(next, h, c, edits[1..])
  }

  ghost predicate AllMergeable(c: string, edits: seq<map<string, Pipeline>>) {
    forall i :: 0 <= i < |edits| ==> Mergeable(Active(edits[i], c, None))
  }

  /** The contents the edits call for, one by one. */
  ghost function Contents(c: string, edits: seq<map<string, Pipeline>>): (r: seq<Content>)
    requires AllMergeable(c, edits)
    ensures |r| == |edits|
    ensures forall i :: 0 <= i < |r| ==> ContentOf(Active(edits[i], c, None)) == Some(r[i])
  {
    seq(|edits|, i requires 0 <= i < |edits| => ContentOf(Active(edits[i], c, None)).value)
  }

  /** Number of places where the hash differs from the one before, starting from `current`. */
  function HashChanges(current: string, h: Digest, contents: seq<Content>): nat
    decreases contents
  {
    if contents == [] then 0
    else (if h(contents[0]) == current then 0 else 1) + HashChanges(h(contents[0]), h, contents[1..])
  }

  function ContentChanges(current: Content, contents: seq<Content>): nat
    decreases contents
  {
    if contents == [] then 0
    else (if contents[0] == current then 0 else 1) + ContentChanges(contents[0], contents[1..])
  }

  /** One edit: the Deployment is written exactly when the hash differs. */
  lemma OneEdit(st: Store, h: Digest, c: string, m: map<string, Pipeline>)
    requires Provisioned(st, c) && Mergeable(Active(m, c, None))
    ensures var next, hash := Edit(st, h, c, m), h(ContentOf(Active(m, c, None)).value);
            && Provisioned(next, c)
            && Annotation(next.deployments[c]) == hash
            && (next.deployments == st.deployments <==> Annotation(st.deployments[c]) == hash)
  {
    var content := ContentOf(Active(m, c, None)).value;
    var before := st.(pipelines := m);
    ApplyEffect(before, h, c, content, NO_FAULTS);
    assert Provisioned(before, c);
  }

  /** Over any sequence of edits, each followed by a rebuild, the Deployment is written exactly
      at the edits whose content hash differs from the annotation then in place. */
  lemma {:induction false} RestartsAreHashChanges(st: Store, h: Digest, c: string, edits: seq<map<string, Pipeline>>)
    requires Provisioned(st, c) && AllMergeable(c, edits)
    ensures Restarts(st, h, c, edits) == HashChanges(Annotation(st.deployments[c]), h, Contents(c, edits))
    decreases edits
  {
    if edits != [] {
      OneEdit(st, h, c, edits[0]);
      RestartsAreHashChanges(Edit(st, h, c, edits[0]), h, c, edits[1..]);
      var contents := Contents(c, edits);
      assert contents[1..] == Contents(c, edits[1..]);
    }
  }

  ghost predicate CollisionFree(h: Digest, contents: set<Content>) {
    forall x, y :: x in contents && y in contents && h(x) == h(y) ==> x == y
  }

  /** When no two of the contents involved collide under the hash, the restarts are exactly
      the content changes: none while the content repeats, one for each change. */
  lemma {:induction false} RestartsAreContentChanges(st: Store, h: Digest, c: string, edits: seq<map<string,
          Pipeline>>, current: Content)
    requires Provisioned(st, c) && AllMergeable(c, edits)
    requires Annotation(st.deployments[c]) == h(current)
    requires CollisionFree(h, {current} + set x | x in Contents(c, edits))
    ensures Restarts(st, h, c, edits) == ContentChanges(current, Contents(c, edits))
  {
    RestartsAreHashChanges(st, h, c, edits);
    HashChangesAreContentChanges(current, h, Contents(c, edits));
  }

  lemma {:induction false} HashChangesAreContentChanges(current: Content, h: Digest, contents: seq<Content>)
    requires CollisionFree(h, {current} + set x | x in contents)
    ensures HashChanges(h(current), h, contents) == ContentChanges(current, contents)
    decreases contents
  {
    if contents != [] {
      var all := {current} + set x | x in contents;
      assert contents[0] in all && current in all;
      assert {contents[0]} + (set x | x in contents[1..]) <= all;
      HashChangesAreContentChanges(contents[0], h, contents[1..]);
    }
  }
}
