/** One pipeline reconcile run without interruption, as a function of the store and of the calls
    that fail; and the proof that it is the state machine's worker left to itself, for every choice
    of failing calls. */
module Reconcile {
  import opened Objects
  import opened Names
  import opened Merge
  import opened Admission
  import opened PodHealth
  import opened Conditions
  import opened ApiStore
  import opened Rebuild
  import opened Protocol
  import opened Agreement

  datatype Attempt = Attempt(store: Store, ok: bool)

  /** The pod scan the reconcile of a pipeline of `c` makes. */
  ghost function Scan(st: Store, c: string, faults: Faults): Health {
    HealthOf(if ListPods in faults then None else Some(PodsOf(st.others.pods, c)))
  }

  /** setStatus: computes the status and writes it when it differs. */
  function WriteStatus(st: Store, name: string, p: Pipeline, phase: Phase, health: Health, faults: Faults,
          now: nat): Attempt {
    var next := NextStatus(p, phase, health, now);
    if next == p.status then Attempt(st, true)
    else Attempt(if Lands(faults, UpdateStatus) then PutPipeline(st, name, p.(status := next)) else st, UpdateStatus !in faults)
  }

  /** The finalizer updates: refused by the webhook, or sent. */
  ghost function UpdateTo(st: Store, name: string, p: Pipeline, next: Store, faults: Faults): Attempt {
    if !Admissible(st.pipelines, name, p.spec) then Attempt(st, false)
    else Attempt(if Lands(faults, UpdatePipeline) then next else st, UpdatePipeline !in faults)
  }

  /** The path of a pipeline that is being deleted and still has its finalizer. */
  ghost function Finalize(st: Store, h: Digest, name: string, p: Pipeline, faults: Faults): Attempt {
    var r := RebuildCluster(st, h, p.spec.clusterRef, Some(name), faults);
    if r.outcome == Failed then Attempt(r.store, false)
    else UpdateTo(r.store, name, p, DropPipeline(r.store, name), faults)
  }

  /** The path of a pipeline that is applied to its cluster. */
  ghost function Apply(st: Store, h: Digest, name: string, p: Pipeline, faults: Faults, now: nat): Attempt {
    var c := p.spec.clusterRef;
    if GetCluster in faults then Attempt(st, false)
    else if c !in st.clusters then WriteStatus(st, name, p, Pending, UNKNOWN, faults, now)
    else
      var r := RebuildCluster(st, h, c, None, faults);
      if r.outcome != Done then Attempt(r.store, false)
      else WriteStatus(r.store, name, p, Applied, Scan(r.store, c, faults), faults, now)
  }

  ghost function ReconcilePipeline(st: Store, h: Digest, name: string, faults: Faults, now: nat): Attempt {
    if GetPipeline in faults then Attempt(st, false)
    else if name !in st.pipelines then Attempt(st, true)
    else
      var p := st.pipelines[name];
      if p.deleting then
        if p.finalizer then Finalize(st, h, name, p, faults) else Attempt(st, true)
      else if !p.finalizer then UpdateTo(st, name, p, PutPipeline(st, name, p.(finalizer := true)), faults)
      else Apply(st, h, name, p, faults, now)
  }

  function Unqueue(st: Store, name: string): Store { st.(queue := st.queue - {name}) }

  /** The work queue around it: take the name, reconcile, put it back on error. */
  ghost function Attend(st: Store, h: Digest, name: string, faults: Faults, now: nat): Store {
    var r := ReconcilePipeline(Unqueue(st, name), h, name, faults, now);
    if r.ok then r.store else Enqueue(r.store, {name})
  }

  /** The same when every call is answered. */
  ghost function Process(st: Store, h: Digest, name: string, now: nat): Store {
    Attend(st, h, name, NO_FAULTS, now)
  }

  // ---------- the worker left to itself ----------

  function Rank(w: Worker): nat {
    if w.Idle? then 0
    else match w.stage
      case Attach => 1
      case Detach => 1
      case Report(_, _) => 1
      case WriteDeploy(_, _) => 2
      case ReadDeploy(_) => 3
      case WriteConfig(_, _) => 4
      case ReadConfig(_) => 5
      case Collect => 6
      case Resolve => 7
  }

  lemma RankFalls(s: State, h: Digest, r: Answer)
    requires s.worker.Busy?
    ensures Rank(Succeed(s, h, r).worker) < Rank(s.worker)
  {
  }

  /** The call the worker issues next. */
  function CallOf(stage: Stage): Call {
    match stage
    case Attach => UpdatePipeline
    case Resolve => GetCluster
    case Collect => ListPipelines
    case ReadConfig(_) => GetConfigMap
    case WriteConfig(_, _) => UpdateConfigMap
    case ReadDeploy(_) => GetDeployment
    case WriteDeploy(_, _) => UpdateDeployment
    case Detach => UpdatePipeline
    case Report(_, _) => UpdateStatus
  }

  /** How that call ends.  A status that would not change is not sent. */
  function ReplyOf(w: Worker, faults: Faults, now: nat): Reply
    requires w.Busy?
  {
    if CallOf(w.stage) !in faults then Answered
    else if w.stage.Report? && NextStatus(w.seen, w.stage.phase, w.stage.health, now) == w.seen.status then Answered
    else if faults[CallOf(w.stage)] == Unsent then Dropped
    else Lost
  }

  /** What the worker is told: the Deployment as it is, and the pods if they can be listed. */
  ghost function Told(s: State, faults: Faults, now: nat): Answer
    requires s.worker.Busy?
  {
    Answer(now, Scan(s.store, s.worker.seen.spec.clusterRef, faults), Current)
  }

  ghost function NextCall(s: State, faults: Faults, now: nat): Action
    requires s.worker.Busy?
  {
    Work(ReplyOf(s.worker, faults, now), Told(s, faults, now))
  }

  lemma CallFalls(s: State, h: Digest, faults: Faults, now: nat)
    requires s.worker.Busy?
    ensures Rank(Step(s, h, NextCall(s, faults, now)).worker) < Rank(s.worker)
  {
    RankFalls(s, h, Told(s, faults, now));
  }

  /** The worker issues its calls one after another with nobody in between, until it is done or
      one of them fails. */
  ghost function Finish(s: State, h: Digest, faults: Faults, now: nat): State
    decreases Rank(s.worker)
  {
    if s.worker.Idle? then s
    else
      CallFalls(s, h, faults, now);
      Finish(Step(s, h, NextCall(s, faults, now)), h, faults, now)
  }

  lemma AnsweredCall(s: State, h: Digest, faults: Faults, now: nat)
    requires s.worker.Busy? && CallOf(s.worker.stage) !in faults
    ensures Step(s, h, NextCall(s, faults, now)) == Succeed(s, h, Told(s, faults, now))
  {
  }

  lemma FinishUnfolds(s: State, h: Digest, faults: Faults, now: nat)
    requires s.worker.Busy?
    ensures Finish(s, h, faults, now) == Finish(Step(s, h, NextCall(s, faults, now)), h, faults, now)
  {
  }

  /** An answered call. */
  lemma FinishStep(s: State, h: Digest, faults: Faults, now: nat)
    requires s.worker.Busy? && CallOf(s.worker.stage) !in faults
    ensures Finish(s, h, faults, now) == Finish(Succeed(s, h, Told(s, faults, now)), h, faults, now)
  {
    AnsweredCall(s, h, faults, now);
    FinishUnfolds(s, h, faults, now);
  }

  /** A failed call. */
  lemma FinishFailed(s: State, h: Digest, faults: Faults, now: nat)
    requires s.worker.Busy? && CallOf(s.worker.stage) in faults && !s.worker.stage.Report?
    ensures Finish(s, h, faults, now) ==
            (if faults[CallOf(s.worker.stage)] == Unsent then Abort(s)
             else State(Enqueue(Succeed(s, h, Told(s, faults, now)).store, {s.worker.name}), Idle))
  {
  }

  /** What the machine makes of an attempt: done, or the name is queued again. */
  function Settle(a: Attempt, name: string): State {
    State(if a.ok then a.store else Enqueue(a.store, {name}), Idle)
  }

  /** The worker's snapshot is the stored object: nobody else has been around. */
  predicate Alone(s: State) {
    s.worker.Busy? && s.worker.name in s.store.pipelines && s.store.pipelines[s.worker.name] == s.worker.seen
  }

  /** What remains to be done once a rebuild returned. */
  ghost function AfterRebuild(r: Result, name: string, p: Pipeline, faults: Faults, now: nat): Attempt {
    if p.deleting then
      if r.outcome == Failed then Attempt(r.store, false)
      else UpdateTo(r.store, name, p, DropPipeline(r.store, name), faults)
    else if r.outcome != Done then Attempt(r.store, false)
    else WriteStatus(r.store, name, p, Applied, Scan(r.store, p.spec.clusterRef, faults), faults, now)
  }

  lemma FinishAttach(s: State, h: Digest, faults: Faults, now: nat)
    requires Alone(s) && s.worker.stage.Attach?
    ensures Finish(s, h, faults, now) ==
            Settle(UpdateTo(s.store, s.worker.name, s.worker.seen,
                            PutPipeline(s.store, s.worker.name, s.worker.seen.(finalizer := true)), faults), s.worker.name)
  {
  }

  lemma FinishDetach(s: State, h: Digest, faults: Faults, now: nat)
    requires Alone(s) && s.worker.stage.Detach?
    ensures Finish(s, h, faults, now) ==
            Settle(UpdateTo(s.store, s.worker.name, s.worker.seen, DropPipeline(s.store, s.worker.name), faults), s.worker.name)
  {
  }

  /** A call after which the worker is done. */
  lemma FinishLast(s: State, h: Digest, faults: Faults, now: nat)
    requires s.worker.Busy? && Step(s, h, NextCall(s, faults, now)).worker.Idle?
    ensures Finish(s, h, faults, now) == Step(s, h, NextCall(s, faults, now))
  {
  }

  lemma ReportCall(s: State, h: Digest, faults: Faults, now: nat)
    requires Alone(s) && s.worker.stage.Report?
    ensures Step(s, h, NextCall(s, faults, now)) ==
            Settle(WriteStatus(s.store, s.worker.name, s.worker.seen, s.worker.stage.phase, s.worker.stage.health, faults, now), s.worker.name)
  {
  }

  lemma FinishReport(s: State, h: Digest, faults: Faults, now: nat)
    requires Alone(s) && s.worker.stage.Report?
    ensures Finish(s, h, faults, now) ==
            Settle(WriteStatus(s.store, s.worker.name, s.worker.seen, s.worker.stage.phase, s.worker.stage.health, faults, now), s.worker.name)
  {
    ReportCall(s, h, faults, now);
    FinishLast(s, h, faults, now);
  }

  lemma FinishRebuilt(s: State, h: Digest, faults: Faults, now: nat)
    requires Alone(s)
    ensures Finish(OnRebuilt(s, Scan(s.store, s.worker.seen.spec.clusterRef, faults)), h, faults, now)
         == Settle(AfterRebuild(Result(s.store, Done), s.worker.name, s.worker.seen, faults, now), s.worker.name)
  {
    var health := Scan(s.store, s.worker.seen.spec.clusterRef, faults);
    if s.worker.seen.deleting {
      FinishDetach(Next(s, Detach), h, faults, now);
    } else {
      FinishReport(Next(s, Report(Applied, health)), h, faults, now);
    }
  }

  lemma FinishMissing(s: State, h: Digest, faults: Faults, now: nat)
    requires Alone(s)
    ensures Finish(OnMissing(s), h, faults, now)
         == Settle(AfterRebuild(Result(s.store, Missing), s.worker.name, s.worker.seen, faults, now), s.worker.name)
  {
    if s.worker.seen.deleting {
      FinishDetach(Next(s, Detach), h, faults, now);
    }
  }

  /** The end of a rebuild whose result is `r`. */
  ghost predicate Ends(s: State, h: Digest, faults: Faults, now: nat, r: Result)
    requires s.worker.Busy?
  {
    Finish(s, h, faults, now) == Settle(AfterRebuild(r, s.worker.name, s.worker.seen, faults, now), s.worker.name)
  }

  /** The annotation write goes through when the Deployment is as it was read. */
  lemma StampAnswer(s: State, h: Digest, r: Answer)
    requires s.worker.Busy? && s.worker.stage.WriteDeploy?
    requires var c := s.worker.seen.spec.clusterRef; c in s.store.deployments && s.worker.stage.target == s.store.deployments[c]
    ensures var st, c, content := s.store, s.worker.seen.spec.clusterRef, s.worker.stage.content;
            Succeed(s, h, r) == OnRebuilt(s.(store := PutDeployment(st, c, WithHash(st.deployments[c], h(content)))), r.health)
  {
  }

  lemma FinishWriteDeploy(s: State, h: Digest, faults: Faults, now: nat)
    requires Alone(s) && s.worker.stage.WriteDeploy?
    requires var c := s.worker.seen.spec.clusterRef; c in s.store.deployments && s.worker.stage.target == s.store.deployments[c]
    ensures var st, c, content := s.store, s.worker.seen.spec.clusterRef, s.worker.stage.content;
            Ends(s, h, faults, now,
                 Result(if Lands(faults, UpdateDeployment) then PutDeployment(st, c, WithHash(st.deployments[c], h(content))) else st,
                        if UpdateDeployment in faults then Failed else Done))
  {
    var st, c, content := s.store, s.worker.seen.spec.clusterRef, s.worker.stage.content;
    StampAnswer(s, h, Told(s, faults, now));
    if UpdateDeployment in faults {
      FinishFailed(s, h, faults, now);
    } else {
      FinishStep(s, h, faults, now);
      FinishRebuilt(s.(store := PutDeployment(st, c, WithHash(st.deployments[c], h(content)))), h, faults, now);
    }
  }

  lemma FinishReadDeploy(s: State, h: Digest, faults: Faults, now: nat)
    requires Alone(s) && s.worker.stage.ReadDeploy?
    ensures Ends(s, h, faults, now, SyncDeployment(s.store, h, s.worker.seen.spec.clusterRef, s.worker.stage.content, faults))
  {
    var st, c, content := s.store, s.worker.seen.spec.clusterRef, s.worker.stage.content;
    if GetDeployment in faults {
      FinishFailed(s, h, faults, now);
    } else {
      FinishStep(s, h, faults, now);
      if c !in st.deployments {
        FinishMissing(s, h, faults, now);
      } else if Annotation(st.deployments[c]) == h(content) {
        FinishRebuilt(s, h, faults, now);
      } else {
        FinishWriteDeploy(Next(s, WriteDeploy(content, st.deployments[c])), h, faults, now);
      }
    }
  }

  lemma FinishWriteConfig(s: State, h: Digest, faults: Faults, now: nat)
    requires Alone(s) && s.worker.stage.WriteConfig?
    requires var cm := ConfigMapName(s.worker.seen.spec.clusterRef);
             cm in s.store.configMaps && s.worker.stage.base == s.store.configMaps[cm]
    ensures var st, c, content := s.store, s.worker.seen.spec.clusterRef, s.worker.stage.content;
            var written := PutConfigMap(st, ConfigMapName(c), st.configMaps[ConfigMapName(c)].data[PipelinesYaml := content]);
            Ends(s, h, faults, now,
                 if UpdateConfigMap in faults then Result(if Lands(faults, UpdateConfigMap) then written else st, Failed)
                 else SyncDeployment(written, h, c, content, faults))
  {
    var st, c, content := s.store, s.worker.seen.spec.clusterRef, s.worker.stage.content;
    var written := PutConfigMap(st, ConfigMapName(c), st.configMaps[ConfigMapName(c)].data[PipelinesYaml := content]);
    if UpdateConfigMap in faults {
      FinishFailed(s, h, faults, now);
    } else {
      FinishStep(s, h, faults, now);
      FinishReadDeploy(Next(s.(store := written), ReadDeploy(content)), h, faults, now);
    }
  }

  lemma FinishReadConfig(s: State, h: Digest, faults: Faults, now: nat)
    requires Alone(s) && s.worker.stage.ReadConfig?
    ensures Ends(s, h, faults, now, ApplyContent(s.store, h, s.worker.seen.spec.clusterRef, s.worker.stage.content, faults))
  {
    var st, c, content := s.store, s.worker.seen.spec.clusterRef, s.worker.stage.content;
    var cm := ConfigMapName(c);
    if GetConfigMap in faults {
      FinishFailed(s, h, faults, now);
    } else {
      FinishStep(s, h, faults, now);
      if cm !in st.configMaps {
        FinishMissing(s, h, faults, now);
      } else if Holds(st.configMaps[cm], content) {
        FinishReadDeploy(Next(s, ReadDeploy(content)), h, faults, now);
      } else {
        FinishWriteConfig(Next(s, WriteConfig(content, st.configMaps[cm])), h, faults, now);
      }
    }
  }

  lemma FinishCollect(s: State, h: Digest, faults: Faults, now: nat)
    requires Alone(s) && s.worker.stage.Collect?
    ensures Ends(s, h, faults, now, RebuildCluster(s.store, h, s.worker.seen.spec.clusterRef, ExcludeOf(s.worker), faults))
  {
    if ListPipelines in faults {
      FinishFailed(s, h, faults, now);
    } else {
      FinishStep(s, h, faults, now);
      var content := ContentOf(Active(s.store.pipelines, s.worker.seen.spec.clusterRef, ExcludeOf(s.worker)));
      if content.Some? {
        FinishReadConfig(Next(s, ReadConfig(content.value)), h, faults, now);
      }
    }
  }

  lemma FinishResolve(s: State, h: Digest, faults: Faults, now: nat)
    requires Alone(s) && s.worker.stage.Resolve? && !s.worker.seen.deleting
    ensures Finish(s, h, faults, now) ==
            Settle(Apply(s.store, h, s.worker.name, s.worker.seen, faults, now), s.worker.name)
  {
    if GetCluster in faults {
      FinishFailed(s, h, faults, now);
    } else {
      FinishStep(s, h, faults, now);
      if s.worker.seen.spec.clusterRef !in s.store.clusters {
        FinishReport(Next(s, Report(Pending, UNKNOWN)), h, faults, now);
      } else {
        FinishCollect(Next(s, Collect), h, faults, now);
      }
    }
  }

  /** Atomicity: a reconcile that nobody interrupts, run call by call on the state machine, ends
      exactly where the one-shot reconcile says, whichever calls fail and however they fail. */
  lemma UninterruptedIsAtomic(st: Store, h: Digest, name: string, faults: Faults, now: nat)
    requires GetPipeline !in faults
    ensures Finish(Start(State(st, Idle), name), h, faults, now) == State(Attend(st, h, name, faults, now), Idle)
  {
    var s := Start(State(st, Idle), name);
    if s.worker.Busy? {
      match s.worker.stage {
        case Attach => FinishAttach(s, h, faults, now);
        case Collect => FinishCollect(s, h, faults, now);
        case Resolve => FinishResolve(s, h, faults, now);
      }
    }
  }

  // ---------- as a run ----------

  /** Calls of the worker on current Deployments, all answered except perhaps the last. */
  predicate Calls(actions: seq<Action>) {
    && (forall i :: 0 <= i < |actions| ==> actions[i].Work? && actions[i].answer.read == Current)
    && (forall i :: 0 <= i < |actions| - 1 ==> actions[i].reply.Answered?)
  }

  /** Runs compose. */
  lemma {:induction false} RunThen(s: State, h: Digest, first: seq<Action>, second: seq<Action>)
    ensures Run(s, h, first + second) == Run(Run(s, h, first), h, second)
    ensures DisciplinedRun(s, h, first) && DisciplinedRun(Run(s, h, first), h, second) ==> DisciplinedRun(s, h, first + second)
    decreases first
  {
    if first == [] {
      assert first + second == second;
    } else {
      assert (first + second)[1..] == first[1..] + second;
      RunThen(Step(s, h, first[0]), h, first[1..], second);
    }
  }

  lemma {:induction false} FinishIsRun(s: State, h: Digest, faults: Faults, now: nat) returns (actions: seq<Action>)
    ensures Run(s, h, actions) == Finish(s, h, faults, now)
    ensures DisciplinedRun(s, h, actions) && Calls(actions)
    decreases Rank(s.worker)
  {
    if s.worker.Idle? {
      actions := [];
    } else {
      var a := NextCall(s, faults, now);
      CallFalls(s, h, faults, now);
      var rest := FinishIsRun(Step(s, h, a), h, faults, now);
      if !a.reply.Answered? {
        rest := [];
      }
      actions := [a] + rest;
      assert actions[0] == a && actions[1..] == rest;
    }
  }

  /** The one-shot reconcile is a run: whichever calls fail, it is the worker taking the name from
      the queue and issuing calls that are all answered except perhaps the last; or nothing at
      all when the pipeline itself cannot be read. */
  lemma AttendIsRun(st: Store, h: Digest, name: string, faults: Faults, now: nat) returns (actions: seq<Action>)
    requires name in st.queue
    ensures Run(State(st, Idle), h, actions) == State(Attend(st, h, name, faults, now), Idle)
    ensures DisciplinedRun(State(st, Idle), h, actions)
    ensures if GetPipeline in faults then actions == []
            else actions != [] && actions[0] == Begin(name) && Calls(actions[1..])
  {
    if GetPipeline in faults {
      actions := [];
      assert Enqueue(Unqueue(st, name), {name}) == st;
    } else {
      var s := State(st, Idle);
      UninterruptedIsAtomic(st, h, name, faults, now);
      var rest := FinishIsRun(Start(s, name), h, faults, now);
      actions := [Begin(name)] + rest;
      assert actions[0] == Begin(name) && actions[1..] == rest;
    }
  }
}
