/** What holds over every run, disciplined or not: admitted pipelines stay mergeable, and a
    finalizer is only removed once the pipeline is out of its cluster's ConfigMap. */
module FinalizerSafety {
  import opened Objects
  import opened Names
  import opened Watch
  import opened Rendering
  import opened Merge
  import opened Admission
  import opened Conditions
  import opened ApiStore
  import opened Protocol

  // ---------- admission over runs ----------

  /** A pipeline that still has the version read by the worker is the pipeline that was read. */
  ghost predicate SnapshotOk(s: State) {
    && (forall n :: n in s.store.pipelines ==> s.store.pipelines[n].version <= s.store.clock)
    && (s.worker.Busy? ==>
          && s.worker.seen.version <= s.store.clock
          && (Fresh(s.store, s.worker.name, s.worker.seen) ==> s.store.pipelines[s.worker.name] == s.worker.seen))
  }

  ghost predicate Sound(s: State) {
    SnapshotOk(s) && AllAdmitted(s.store.pipelines)
  }

  /** The only pipeline a step can concern. */
  function Concerned(s: State, a: Action): string {
    if UserLike(a) then a.name else if s.worker.Busy? then s.worker.name else ""
  }

  predicate UserLike(a: Action) { a.CreatePipeline? || a.EditPipeline? || a.DeletePipeline? }

  /** At most pipeline `n` changed: it went away, or was admitted, or kept its spec. */
  ghost predicate MovesOnly(m: map<string, Pipeline>, m': map<string, Pipeline>, n: string) {
    || m' == m
    || m' == m - {n}
    || (&& n in m' && m' == m[n := m'[n]]
        && (Admissible(m, n, m'[n].spec) || (n in m && m[n].spec == m'[n].spec)))
  }

  lemma MoveKeepsAdmitted(m: map<string, Pipeline>, m': map<string, Pipeline>, n: string)
    requires AllAdmitted(m) && MovesOnly(m, m', n)
    ensures AllAdmitted(m')
  {
    if m' == m - {n} {
      RemoveKeeps(m, n);
    } else if m' != m {
      if !Admissible(m, n, m'[n].spec) {
        OwnUpdatesReadmitted(m, n);
      }
      AdmitKeeps(m, n, m'[n]);
    }
  }

  /** Pipelines change version whenever they change, above the clock. */
  ghost predicate VersionsRise(st: Store, st': Store) {
    && st.clock <= st'.clock
    && forall n :: n in st'.pipelines ==>
         || (n in st.pipelines && st'.pipelines[n] == st.pipelines[n])
         || st.clock < st'.pipelines[n].version <= st'.clock
  }

  /** The worker went on with what it had seen, stopped, or started on a current object. */
  ghost predicate WorkerMoves(s: State, s': State) {
    || s'.worker.Idle?
    || (s.worker.Busy? && s'.worker.name == s.worker.name && s'.worker.seen == s.worker.seen)
    || (s'.worker.name in s'.store.pipelines && s'.store.pipelines[s'.worker.name] == s'.worker.seen)
  }

  lemma MovesKeepSnapshot(s: State, s': State)
    requires SnapshotOk(s) && VersionsRise(s.store, s'.store) && WorkerMoves(s, s')
    ensures SnapshotOk(s')
  {
  }

  /** Calls other than the two finalizer updates and the status update leave pipelines alone. */
  lemma QuietAnswer(s: State, h: Digest, r: Answer)
    requires s.worker.Busy? && !s.worker.stage.Attach? && !s.worker.stage.Detach? && !s.worker.stage.Report?
    ensures var s' := Succeed(s, h, r);
            s'.store.pipelines == s.store.pipelines && s.store.clock <= s'.store.clock && WorkerMoves(s, s')
  {
    match s.worker.stage
    case Resolve =>
    case Collect =>
    case ReadConfig(_) =>
    case WriteConfig(_, _) =>
    case ReadDeploy(_) =>
    case WriteDeploy(_, _) =>
  }

  lemma AnswerMoves(s: State, h: Digest, r: Answer)
    requires SnapshotOk(s) && s.worker.Busy?
    ensures var s' := Succeed(s, h, r);
            && MovesOnly(s.store.pipelines, s'.store.pipelines, s.worker.name)
            && VersionsRise(s.store, s'.store) && WorkerMoves(s, s')
  {
    if !s.worker.stage.Attach? && !s.worker.stage.Detach? && !s.worker.stage.Report? {
      QuietAnswer(s, h, r);
    }
  }

  /** Writing a pipeline with an admitted spec, or with the spec it had. */
  lemma PutMoves(st: Store, n: string, p: Pipeline)
    requires Admissible(st.pipelines, n, p.spec) || (n in st.pipelines && st.pipelines[n].spec == p.spec)
    ensures var st' := PutPipeline(st, n, p);
            MovesOnly(st.pipelines, st'.pipelines, n) && VersionsRise(st, st')
  {
  }

  lemma UserMoves(s: State, h: Digest, a: Action)
    requires UserLike(a)
    ensures var s' := Step(s, h, a);
            && MovesOnly(s.store.pipelines, s'.store.pipelines, a.name)
            && VersionsRise(s.store, s'.store) && s'.worker == s.worker
  {
    var st, n := s.store, a.name;
    match a
    case CreatePipeline(_, spec) =>
      if n !in st.pipelines && Admissible(st.pipelines, n, spec) {
        PutMoves(st, n, Pipeline(spec, false, false, 1, FRESH_STATUS, 0));
      }
    case EditPipeline(_, spec) =>
      if n in st.pipelines && Admissible(st.pipelines, n, spec) {
        PutMoves(st, n, st.pipelines[n].(spec := spec, generation := st.pipelines[n].generation + 1));
      }
    case DeletePipeline(_) =>
      if n in st.pipelines {
        PutMoves(st, n, st.pipelines[n].(deleting := true, generation := st.pipelines[n].generation + 1));
      }
  }

  lemma StepMoves(s: State, h: Digest, a: Action)
    requires SnapshotOk(s)
    ensures var s' := Step(s, h, a);
            && MovesOnly(s.store.pipelines, s'.store.pipelines, Concerned(s, a))
            && VersionsRise(s.store, s'.store) && WorkerMoves(s, s')
  {
    if a.Work? && s.worker.Busy? {
      AnswerMoves(s, h, a.answer);
    } else if UserLike(a) {
      UserMoves(s, h, a);
    } else {
      OthersKeepPipelines(s, h, a);
    }
  }

  lemma StepKeepsSound(s: State, h: Digest, a: Action)
    requires Sound(s)
    ensures Sound(Step(s, h, a))
  {
    StepMoves(s, h, a);
    MovesKeepSnapshot(s, Step(s, h, a));
    MoveKeepsAdmitted(s.store.pipelines, Step(s, h, a).store.pipelines, Concerned(s, a));
  }

  lemma {:induction false} RunKeepsSound(s: State, h: Digest, actions: seq<Action>)
    requires Sound(s)
    ensures Sound(Run(s, h, actions))
    decreases actions
  {
    if actions != [] {
      StepKeepsSound(s, h, actions[0]);
      RunKeepsSound(Step(s, h, actions[0]), h, actions[1..]);
    }
  }

  /** The admission invariant.  If the pipelines the operator comes up on were admitted, then in
      every state reached by any run whatever, keys are distinct
      per cluster and definitions well formed; hence no rebuild of any cluster can fail to
      merge, in any listing order and with any exclusion; and the finalizer updates of the
      reconcile in flight are never refused by the webhook unless the object itself changed. */
  lemma AdmissionInvariant(start: State, h: Digest, actions: seq<Action>, s: State, c: string, exclude: Option<string>)
    requires Initial(start) && AllAdmitted(start.store.pipelines) && s == Run(start, h, actions)
    ensures AllAdmitted(s.store.pipelines)
    ensures forall items :: Listing(items, s.store.pipelines) ==> MergeableList(items, c, exclude)
    ensures s.worker.Busy? && Fresh(s.store, s.worker.name, s.worker.seen) ==>
              Admissible(s.store.pipelines, s.worker.name, s.worker.seen.spec)
  {
    RunKeepsSound(start, h, actions);
    AdmittedMerges(s.store.pipelines, c, exclude);
    if s.worker.Busy? && Fresh(s.store, s.worker.name, s.worker.seen) {
      OwnUpdatesReadmitted(s.store.pipelines, s.worker.name);
    }
  }

  // ---------- the ConfigMap at the moment a finalizer goes ----------

  /** The content does not list the key.  The one exception is a pipeline that is called like the
      placeholder, which then stands in for it when it was the last of its cluster. */
  predicate OmitsKey(content: Content, key: string) {
    key in TopKeys(content) ==> content == PLACEHOLDER && key == PLACEHOLDER_KEY
  }

  predicate DataOmits(data: map<DataKey, Content>, key: string) {
    PipelinesYaml in data ==> OmitsKey(data[PipelinesYaml], key)
  }

  /** The ConfigMap of `c` does not exist, or does not list `key`. */
  predicate Gone(st: Store, c: string, key: string) {
    ConfigMapName(c) in st.configMaps ==> DataOmits(st.configMaps[ConfigMapName(c)].data, key)
  }

  /** Nobody writes the key into the ConfigMap of `c` from outside. */
  predicate EditOmits(a: Action, c: string, key: string) {
    a.EditConfigMap? && a.configMap == ConfigMapName(c) ==> DataOmits(a.data, key)
  }

  /** While a deletion is in flight nobody writes its key into the ConfigMap of its cluster. */
  predicate Undisturbed(s: State, a: Action) {
    s.worker.Busy? && s.worker.seen.deleting ==>
      EditOmits(a, s.worker.seen.spec.clusterRef, s.worker.seen.spec.yamlKey)
  }

  ghost predicate UndisturbedRun(s: State, h: Digest, actions: seq<Action>)
    decreases actions
  {
    actions != [] ==> Undisturbed(s, actions[0]) && UndisturbedRun(Step(s, h, actions[0]), h, actions[1..])
  }

  /** What the deletion in flight has achieved, as long as its pipeline did not change. */
  ghost predicate Leaving(s: State) {
    var st, w := s.store, s.worker;
    w.Busy? && w.seen.deleting && Fresh(st, w.name, w.seen) ==>
      var c, key := w.seen.spec.clusterRef, w.seen.spec.yamlKey;
      && (w.stage.ReadConfig? || w.stage.WriteConfig? || w.stage.ReadDeploy? || w.stage.WriteDeploy? ==> OmitsKey(w.stage.content, key))
      && (w.stage.ReadDeploy? || w.stage.WriteDeploy? || w.stage.Detach? ==> Gone(st, c, key))
      && !w.stage.Attach? && !w.stage.Resolve? && !w.stage.Report?
  }

  /** A document never lists a key that no active pipeline has. */
  lemma ContentOmits(m: map<string, Pipeline>, c: string, exclude: Option<string>, key: string)
    requires Mergeable(Active(m, c, exclude))
    requires forall n :: n in Active(m, c, exclude) ==> m[n].spec.yamlKey != key
    ensures OmitsKey(ContentOf(Active(m, c, exclude)).value, key)
  {
  }

  lemma CollectLeaves(s: State, h: Digest, r: Answer)
    requires Sound(s) && s.worker.Busy? && s.worker.stage.Collect?
    ensures Leaving(Succeed(s, h, r))
  {
  }

  lemma ConfigLeaves(s: State, h: Digest, r: Answer)
    requires Leaving(s) && s.worker.Busy? && (s.worker.stage.ReadConfig? || s.worker.stage.WriteConfig?)
    ensures Leaving(Succeed(s, h, r))
  {
  }

  lemma AnswerKeepsLeaving(s: State, h: Digest, r: Answer)
    requires Sound(s) && Leaving(s) && s.worker.Busy?
    ensures Leaving(Succeed(s, h, r))
  {
    match s.worker.stage {
      case Collect => CollectLeaves(s, h, r);
      case ReadConfig(_) => ConfigLeaves(s, h, r);
      case WriteConfig(_, _) => ConfigLeaves(s, h, r);
      case _ =>
    }
  }

  /** What one step can do to the ConfigMap of `c`. */
  ghost predicate ConfigMoves(s: State, a: Action, st': Store, c: string) {
    var cm := ConfigMapName(c);
    || cm !in st'.configMaps
    || (cm in s.store.configMaps && st'.configMaps[cm].data == s.store.configMaps[cm].data)
    || st'.configMaps[cm].data == map[PipelinesYaml := PLACEHOLDER]
    || (a.EditConfigMap? && a.configMap == cm && st'.configMaps[cm].data == a.data)
    || (a.Work? && s.worker.Busy? && s.worker.stage.WriteConfig? && s.worker.seen.spec.clusterRef == c && Holds(st'.configMaps[cm], s.worker.stage.content))
  }

  lemma AnswerConfig(s: State, h: Digest, r: Answer, c: string)
    requires s.worker.Busy?
    ensures ConfigMoves(s, Work(Answered, r), Succeed(s, h, r).store, c)
  {
    if s.worker.stage.WriteConfig? {
      WriteConfigMoves(s, h, r, c);
    } else {
      ConfigUntouched(s, h, r);
    }
  }

  lemma ConfigUntouched(s: State, h: Digest, r: Answer)
    requires s.worker.Busy? && !s.worker.stage.WriteConfig?
    ensures Succeed(s, h, r).store.configMaps == s.store.configMaps
  {
    match s.worker.stage
    case Attach =>
    case Resolve =>
    case Collect =>
    case ReadConfig(_) =>
    case ReadDeploy(_) =>
    case WriteDeploy(_, _) =>
    case Detach =>
    case Report(_, _) =>
  }

  lemma WriteConfigMoves(s: State, h: Digest, r: Answer, c: string)
    requires s.worker.Busy? && s.worker.stage.WriteConfig?
    ensures ConfigMoves(s, Work(Answered, r), Succeed(s, h, r).store, c)
  {
  }

  lemma ProvideConfig(s: State, h: Digest, a: Action, c: string)
    requires a.ProvideConfigMap? || a.EditConfigMap?
    ensures ConfigMoves(s, a, Step(s, h, a).store, c)
  {
  }

  lemma DropConfig(s: State, h: Digest, a: Action, c: string)
    requires a.DeleteCluster? || a.RemoveConfigMap?
    ensures ConfigMoves(s, a, Step(s, h, a).store, c)
  {
  }

  lemma StepConfig(s: State, h: Digest, a: Action, c: string)
    ensures ConfigMoves(s, a, Step(s, h, a).store, c)
  {
    if a.Work? && s.worker.Busy? {
      AnswerConfig(s, h, a.answer, c);
    } else if a.ProvideConfigMap? || a.EditConfigMap? {
      ProvideConfig(s, h, a, c);
    } else if a.DeleteCluster? || a.RemoveConfigMap? {
      DropConfig(s, h, a, c);
    } else {
      OthersKeepConfigs(s, h, a);
    }
  }

  lemma OthersKeepConfigs(s: State, h: Digest, a: Action)
    requires !(a.Work? && s.worker.Busy?)
    requires !a.ProvideConfigMap? && !a.EditConfigMap? && !a.DeleteCluster? && !a.RemoveConfigMap?
    ensures Step(s, h, a).store.configMaps == s.store.configMaps
  {
  }

  lemma StepKeepsGone(s: State, h: Digest, a: Action, c: string, key: string)
    requires Gone(s.store, c, key)
    requires EditOmits(a, c, key)
    requires a.Work? && s.worker.Busy? && s.worker.stage.WriteConfig? && s.worker.seen.spec.clusterRef == c ==> OmitsKey(s.worker.stage.content, key)
    ensures Gone(Step(s, h, a).store, c, key)
  {
    StepConfig(s, h, a, c);
  }

  /** A pipeline that is fresh after a step was fresh before it. */
  lemma FreshBackwards(s: State, s': State)
    requires SnapshotOk(s) && VersionsRise(s.store, s'.store) && s.worker.Busy?
    requires Fresh(s'.store, s.worker.name, s.worker.seen)
    ensures Fresh(s.store, s.worker.name, s.worker.seen)
  {
  }

  lemma BystanderKeepsLeaving(s: State, h: Digest, a: Action)
    requires Sound(s) && Leaving(s) && Undisturbed(s, a) && !a.Work? && !a.Restart? && s.worker.Busy?
    ensures Leaving(Step(s, h, a))
  {
    var s', w := Step(s, h, a), s.worker;
    assert s'.worker == w;
    StepMoves(s, h, a);
    if w.seen.deleting && Fresh(s'.store, w.name, w.seen) {
      FreshBackwards(s, s');
      if w.stage.ReadDeploy? || w.stage.WriteDeploy? || w.stage.Detach? {
        StepKeepsGone(s, h, a, w.seen.spec.clusterRef, w.seen.spec.yamlKey);
      }
    }
  }

  /** An idle worker stays idle or starts afresh. */
  lemma IdleKeepsLeaving(s: State, h: Digest, a: Action)
    requires s.worker.Idle?
    ensures Leaving(Step(s, h, a))
  {
  }

  lemma StepKeepsLeaving(s: State, h: Digest, a: Action)
    requires Sound(s) && Leaving(s) && Undisturbed(s, a)
    ensures Leaving(Step(s, h, a))
  {
    if s.worker.Idle? {
      IdleKeepsLeaving(s, h, a);
    } else if a.Restart? {
      assert Step(s, h, a).worker.Idle?;
    } else if a.Work? {
      AnswerKeepsLeaving(s, h, a.answer);
      assert a.reply.Answered? || Step(s, h, a).worker.Idle?;
    } else {
      BystanderKeepsLeaving(s, h, a);
    }
  }

  lemma {:induction false} RunKeepsLeaving(s: State, h: Digest, actions: seq<Action>)
    requires Sound(s) && Leaving(s) && UndisturbedRun(s, h, actions)
    ensures Sound(Run(s, h, actions)) && Leaving(Run(s, h, actions))
    decreases actions
  {
    if actions != [] {
      StepKeepsSound(s, h, actions[0]);
      StepKeepsLeaving(s, h, actions[0]);
      RunKeepsLeaving(Step(s, h, actions[0]), h, actions[1..]);
    }
  }

  // ---------- and ever after ----------

  /** Neither the pipelines of `c`, nor its ConfigMap, nor a document about to be applied to
      it has the key. */
  ghost predicate Forgotten(s: State, c: string, key: string) {
    KeyFree(s.store.pipelines, c, key) && Gone(s.store, c, key) && WorkerFree(s.worker, c, key)
  }

  /** Nobody gives the key to a pipeline of `c` again or writes it into the ConfigMap of `c`. */
  predicate NoReturn(a: Action, c: string, key: string) {
    match a
    case CreatePipeline(_, spec) => spec.clusterRef != c || spec.yamlKey != key
    case EditPipeline(_, spec) => spec.clusterRef != c || spec.yamlKey != key
    case EditConfigMap(_, _) => EditOmits(a, c, key)
    case _ => true
  }

  /** No pipeline of `c` has the key. */
  ghost predicate KeyFree(m: map<string, Pipeline>, c: string, key: string) {
    forall n :: n in m && m[n].spec.clusterRef == c ==> m[n].spec.yamlKey != key
  }

  /** The worker holds neither the key nor a document that lists it, as far as `c` goes. */
  ghost predicate WorkerFree(w: Worker, c: string, key: string) {
    w.Busy? && w.seen.spec.clusterRef == c ==>
      && w.seen.spec.yamlKey != key
      && (w.stage.ReadConfig? || w.stage.WriteConfig? || w.stage.ReadDeploy? || w.stage.WriteDeploy? ==> OmitsKey(w.stage.content, key))
  }

  lemma CollectKeepsWorkerFree(s: State, h: Digest, r: Answer, c: string, key: string)
    requires Sound(s) && s.worker.Busy? && s.worker.stage.Collect?
    requires KeyFree(s.store.pipelines, c, key) && WorkerFree(s.worker, c, key)
    ensures WorkerFree(Succeed(s, h, r).worker, c, key)
  {
    var w := s.worker;
    if w.seen.spec.clusterRef == c {
      AdmittedMerges(s.store.pipelines, c, ExcludeOf(w));
      ContentOmits(s.store.pipelines, c, ExcludeOf(w), key);
    }
  }

  /** Every other call goes on with the document in hand, if there is one. */
  lemma AnswerKeepsContent(s: State, h: Digest, r: Answer)
    requires s.worker.Busy? && !s.worker.stage.Collect?
    ensures var w, w' := s.worker, Succeed(s, h, r).worker;
            w'.Busy? ==>
              && w'.seen == w.seen
              && (w'.stage.ReadConfig? || w'.stage.WriteConfig? || w'.stage.ReadDeploy? || w'.stage.WriteDeploy? ==>
                    (w.stage.ReadConfig? || w.stage.WriteConfig? || w.stage.ReadDeploy? || w.stage.WriteDeploy?)
                    && w'.stage.content == w.stage.content)
  {
    match s.worker.stage
    case Attach =>
    case Resolve =>
    case ReadConfig(_) =>
    case WriteConfig(_, _) =>
    case ReadDeploy(_) =>
    case WriteDeploy(_, _) =>
    case Detach =>
    case Report(_, _) =>
  }

  lemma AnswerKeepsWorkerFree(s: State, h: Digest, r: Answer, c: string, key: string)
    requires Sound(s) && s.worker.Busy? && KeyFree(s.store.pipelines, c, key) && WorkerFree(s.worker, c, key)
    ensures WorkerFree(Succeed(s, h, r).worker, c, key)
  {
    if s.worker.stage.Collect? {
      CollectKeepsWorkerFree(s, h, r, c, key);
    } else {
      AnswerKeepsContent(s, h, r);
    }
  }

  lemma PutKeepsKeyFree(st: Store, n: string, p: Pipeline, c: string, key: string)
    requires KeyFree(st.pipelines, c, key)
    requires p.spec.clusterRef != c || p.spec.yamlKey != key
    ensures KeyFree(PutPipeline(st, n, p).pipelines, c, key)
  {
  }

  lemma AnswerKeepsKeyFree(s: State, h: Digest, r: Answer, c: string, key: string)
    requires s.worker.Busy? && KeyFree(s.store.pipelines, c, key) && WorkerFree(s.worker, c, key)
    ensures KeyFree(Succeed(s, h, r).store.pipelines, c, key)
  {
    var w := s.worker;
    match w.stage {
      case Attach =>
        PutKeepsKeyFree(s.store, w.name, w.seen.(finalizer := true), c, key);
      case Report(phase, found) =>
        PutKeepsKeyFree(s.store, w.name, w.seen.(status := NextStatus(w.seen, phase, found, r.now)), c, key);
      case Detach =>
        assert Succeed(s, h, r).store.pipelines.Keys <= s.store.pipelines.Keys;
      case _ =>
        QuietAnswer(s, h, r);
    }
  }

  lemma UserKeepsKeyFree(s: State, h: Digest, a: Action, c: string, key: string)
    requires KeyFree(s.store.pipelines, c, key) && NoReturn(a, c, key) && UserLike(a)
    ensures KeyFree(Step(s, h, a).store.pipelines, c, key)
  {
  }

  lemma StepKeepsKeyFree(s: State, h: Digest, a: Action, c: string, key: string)
    requires KeyFree(s.store.pipelines, c, key) && NoReturn(a, c, key) && WorkerFree(s.worker, c, key)
    ensures KeyFree(Step(s, h, a).store.pipelines, c, key)
  {
    if a.Work? && s.worker.Busy? {
      AnswerKeepsKeyFree(s, h, a.answer, c, key);
    } else if UserLike(a) {
      UserKeepsKeyFree(s, h, a, c, key);
    } else {
      assert Step(s, h, a).store.pipelines == s.store.pipelines;
    }
  }

  lemma StepKeepsForgotten(s: State, h: Digest, a: Action, c: string, key: string)
    requires Sound(s) && Forgotten(s, c, key) && NoReturn(a, c, key)
    ensures Forgotten(Step(s, h, a), c, key)
  {
    StepKeepsKeyFree(s, h, a, c, key);
    StepKeepsGone(s, h, a, c, key);
    if a.Work? && s.worker.Busy? {
      AnswerKeepsWorkerFree(s, h, a.answer, c, key);
    } else {
      assert Step(s, h, a).worker == s.worker || a.Begin? || a.Restart?;
    }
  }

  lemma {:induction false} RunKeepsForgotten(s: State, h: Digest, actions: seq<Action>, c: string, key: string)
    requires Sound(s) && Forgotten(s, c, key)
    requires forall i :: 0 <= i < |actions| ==> NoReturn(actions[i], c, key)
    ensures Forgotten(Run(s, h, actions), c, key)
    decreases actions
  {
    if actions != [] {
      StepKeepsSound(s, h, actions[0]);
      StepKeepsForgotten(s, h, actions[0], c, key);
      RunKeepsForgotten(Step(s, h, actions[0]), h, actions[1..], c, key);
    }
  }

  /** The only way a pipeline with a finalizer goes: the worker's Detach call on the object it
      has read. */
  lemma OnlyDetachRemoves(s: State, h: Digest, a: Action, n: string)
    requires SnapshotOk(s)
    requires n in s.store.pipelines && s.store.pipelines[n].finalizer && n !in Step(s, h, a).store.pipelines
    ensures a.Work? && s.worker.Busy? && s.worker.stage.Detach? && s.worker.name == n
    ensures Fresh(s.store, n, s.worker.seen) && s.worker.seen == s.store.pipelines[n]
    ensures var s' := Step(s, h, a);
            s'.worker.Idle? && s'.store.pipelines == s.store.pipelines - {n} && s'.store.configMaps == s.store.configMaps
  {
    if a.Work? && s.worker.Busy? {
      AnswerRemoves(s, h, a.answer, n);
    } else if UserLike(a) {
      UserNeverRemoves(s, h, a, n);
    } else {
      OthersKeepPipelines(s, h, a);
    }
  }

  lemma UserNeverRemoves(s: State, h: Digest, a: Action, n: string)
    requires UserLike(a) && n in s.store.pipelines && s.store.pipelines[n].finalizer
    ensures n in Step(s, h, a).store.pipelines
  {
  }

  lemma OthersKeepPipelines(s: State, h: Digest, a: Action)
    requires !UserLike(a) && !(a.Work? && s.worker.Busy?)
    ensures Step(s, h, a).store.pipelines == s.store.pipelines && s.store.clock <= Step(s, h, a).store.clock
    ensures WorkerMoves(s, Step(s, h, a))
  {
  }

  lemma OthersNeverRemove(s: State, h: Digest, r: Answer, n: string)
    requires s.worker.Busy? && n in s.store.pipelines && !s.worker.stage.Detach?
    ensures n in Succeed(s, h, r).store.pipelines
  {
    if !s.worker.stage.Attach? && !s.worker.stage.Report? {
      QuietAnswer(s, h, r);
    }
  }

  lemma AnswerRemoves(s: State, h: Digest, r: Answer, n: string)
    requires SnapshotOk(s) && s.worker.Busy? && n in s.store.pipelines
    requires n !in Succeed(s, h, r).store.pipelines
    ensures s.worker.stage.Detach? && s.worker.name == n && Fresh(s.store, n, s.worker.seen)
    ensures var s' := Succeed(s, h, r);
            s'.worker.Idle? && s'.store.pipelines == s.store.pipelines - {n} && s'.store.configMaps == s.store.configMaps
  {
    if !s.worker.stage.Detach? {
      OthersNeverRemove(s, h, r, n);
    }
  }

  /** At the moment the finalizer goes, the key is forgotten. */
  lemma DetachForgets(s: State, h: Digest, a: Action, n: string)
    requires Sound(s) && Leaving(s) && DetachSeesDeletion(s)
    requires n in s.store.pipelines && s.store.pipelines[n].finalizer && n !in Step(s, h, a).store.pipelines
    ensures s.store.pipelines[n].deleting
    ensures Forgotten(Step(s, h, a), s.store.pipelines[n].spec.clusterRef, s.store.pipelines[n].spec.yamlKey)
  {
    OnlyDetachRemoves(s, h, a, n);
    var spec := s.store.pipelines[n].spec;
    assert Gone(s.store, spec.clusterRef, spec.yamlKey);
  }

  ghost predicate DetachSeesDeletion(s: State) {
    s.worker.Busy? && s.worker.stage.Detach? ==> s.worker.seen.deleting
  }

  lemma {:induction false} RunKeepsDetachSeesDeletion(s: State, h: Digest, actions: seq<Action>)
    requires DetachSeesDeletion(s)
    ensures DetachSeesDeletion(Run(s, h, actions))
    decreases actions
  {
    if actions != [] {
      StepKeepsDetachSeesDeletion(s, h, actions[0]);
      RunKeepsDetachSeesDeletion(Step(s, h, actions[0]), h, actions[1..]);
    }
  }

  lemma StepKeepsDetachSeesDeletion(s: State, h: Digest, a: Action)
    requires DetachSeesDeletion(s)
    ensures DetachSeesDeletion(Step(s, h, a))
  {
  }

  ghost predicate Removes(s: State, h: Digest, a: Action, n: string) {
    n in s.store.pipelines && s.store.pipelines[n].finalizer && n !in Step(s, h, a).store.pipelines
  }

  /** Finalizer safety.  Let `s` be reached by any run, from admitted pipelines, in which nobody
      writes the key of a deletion in flight into the ConfigMap, and let the next step remove a
      pipeline that carried the finalizer.  Then the pipeline was being deleted, and at that moment
      its cluster's ConfigMap does not exist or does not list it, even when a missing ConfigMap or
      Deployment was forgiven; and it stays so over every continuation, restarts included, until
      the key is given to a pipeline of that cluster again or written into the ConfigMap from
      outside. */
  lemma FinalizerIsSafe(start: State, h: Digest, before: seq<Action>, s: State, a: Action, after: seq<Action>,
          n: string)
    requires Initial(start) && AllAdmitted(start.store.pipelines)
    requires UndisturbedRun(start, h, before) && s == Run(start, h, before)
    requires Removes(s, h, a, n)
    requires forall i :: 0 <= i < |after| ==>
               NoReturn(after[i], s.store.pipelines[n].spec.clusterRef, s.store.pipelines[n].spec.yamlKey)
    ensures var spec := s.store.pipelines[n].spec;
            && s.store.pipelines[n].deleting
            && Gone(Step(s, h, a).store, spec.clusterRef, spec.yamlKey)
            && Gone(Run(Step(s, h, a), h, after).store, spec.clusterRef, spec.yamlKey)
  {
    RunKeepsLeaving(start, h, before);
    RunKeepsDetachSeesDeletion(start, h, before);
    DetachForgets(s, h, a, n);
    StepKeepsSound(s, h, a);
    RunKeepsForgotten(Step(s, h, a), h, after, s.store.pipelines[n].spec.clusterRef, s.store.pipelines[n].spec.yamlKey);
  }
}
