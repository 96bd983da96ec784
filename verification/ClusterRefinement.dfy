/** The cluster controller's reconcile is one of the environment's behaviours in the state machine,
    so everything proved over runs of the machine holds with it in them. */
module ClusterRefinement {
  import opened Objects
  import opened Names
  import opened Merge
  import opened Conditions
  import opened ClusterObjects
  import opened ClusterReconcile
  import opened ClusterProperties
  import opened Protocol
  import opened Agreement

  /** What the cluster controller does for `name`: never a write to a pipelines ConfigMap that
      exists. */
  predicate ControllerAction(a: Action, name: string) {
    match a
    case ProvideConfigMap(c) => c == name
    case EditConfigMap(cm, _) => cm == PeerConfigMapName(name)
    case RemoveConfigMap(cm) => cm == PeerConfigMapName(name)
    case ProvideDeployment(c, _, _) => c == name
    case ChangeOthers(_) => true
    case WriteClusterStatus(c, _) => c == name
    case _ => false
  }

  /** `actions`, all of them the controller's, lead from `s` to `s'`. */
  ghost predicate Leads(s: State, h: Digest, actions: seq<Action>, name: string, s': State) {
    && Run(s, h, actions) == s'
    && DisciplinedRun(s, h, actions)
    && forall i :: 0 <= i < |actions| ==> ControllerAction(actions[i], name)
  }

  lemma {:induction false} LeadsThen(s: State, h: Digest, actions: seq<Action>, name: string, mid: State, a: Action,
          s': State)
    requires Leads(s, h, actions, name, mid) && ControllerAction(a, name) && Step(mid, h, a) == s'
    ensures Leads(s, h, actions + [a], name, s')
    decreases actions
  {
    if actions == [] {
      assert actions + [a] == [a] && [a][1..] == [];
    } else {
      assert (actions + [a])[1..] == actions[1..] + [a];
      LeadsThen(Step(s, h, actions[0]), h, actions[1..], name, mid, a, s');
      assert forall i :: 0 <= i < |actions + [a]| ==> ControllerAction((actions + [a])[i], name);
    }
  }

  lemma ConfigMapLeads(st: Store, w: Worker, h: Digest, name: string)
    requires name in st.clusters
    ensures Leads(State(st, w), h, [ProvideConfigMap(name)], name, State(KeepConfigMap(st, name), w))
  {
  }

  lemma PeerLeads(s: State, h: Digest, actions: seq<Action>, st: Store, w: Worker, ns: string, name: string,
          spec: ClusterSpec)
    returns (more: seq<Action>)
    requires Leads(s, h, actions, name, State(st, w))
    ensures Leads(s, h, more, name, State(KeepPeerConfig(st, ns, name, spec), w))
  {
    var st', peer := KeepPeerConfig(st, ns, name, spec), PeerConfigMapName(name);
    if st' == st {
      more := actions;
    } else {
      var a := if spec.serverConfigMap != "" then RemoveConfigMap(peer)
               else EditConfigMap(peer, map[ServerYaml := PeerContent(name, ns, spec.replicas)]);
      more := actions + [a];
      LeadsThen(s, h, actions, name, State(st, w), a, State(st', w));
    }
  }

  lemma DeploymentLeads(s: State, h: Digest, actions: seq<Action>, st: Store, w: Worker, name: string,
          spec: ClusterSpec, cfg: Config, peerHash: string)
    returns (more: seq<Action>)
    requires Leads(s, h, actions, name, State(st, w)) && name in st.clusters
    ensures Leads(s, h, more, name, State(KeepDeployment(st, name, spec, cfg, peerHash), w))
  {
    var a := ProvideDeployment(name, DesiredDeployment(name, spec, cfg, peerHash), spec.autoscaling.Some?);
    more := actions + [a];
    LeadsThen(s, h, actions, name, State(st, w), a, State(KeepDeployment(st, name, spec, cfg, peerHash), w));
  }

  lemma StatusLeads(s: State, h: Digest, actions: seq<Action>, st: Store, w: Worker, name: string, rollout: Rollout,
          now: nat)
    returns (more: seq<Action>)
    requires Leads(s, h, actions, name, State(st, w)) && name in st.clusters
    ensures Leads(s, h, more, name, State(KeepStatus(st, name, rollout, now), w))
  {
    var next := NextClusterStatus(st.clusters[name], rollout, |Active(st.pipelines, name, None)|, now);
    if next == st.clusters[name].status {
      more := actions;
    } else {
      more := actions + [WriteClusterStatus(name, next)];
      LeadsThen(s, h, actions, name, State(st, w), WriteClusterStatus(name, next), State(KeepStatus(st, name, rollout, now), w));
    }
  }

  /** Refinement: from any store and with the pipeline worker anywhere, a whole cluster reconcile
      is a disciplined run of the controller's own actions.  Hence quiescent agreement and
      finalizer safety cover it, and also every other interleaving of those writes. */
  lemma ReconcileIsRun(st: Store, w: Worker, h: Digest, ns: string, name: string, rollout: Rollout, now: nat)
    returns (actions: seq<Action>)
    requires Resolvable(st, name)
    ensures Leads(State(st, w), h, actions, name, State(KeepStatus(ReconcileObjects(st, h, ns, name).store, name, rollout, now), w))
  {
    var s, spec := State(st, w), st.clusters[name].spec;
    var cfg, peerHash := ClusterObjects.Resolve(spec, st.others.classes).config, PeerHashOf(h, ns, name, spec);
    ConfigMapsAfter(st, ns, name, spec);
    OwnMapAfter(st, name);
    var st1 := KeepConfigMap(st, name);
    ConfigMapLeads(st, w, h, name);
    actions := PeerLeads(s, h, [ProvideConfigMap(name)], st1, w, ns, name, spec);
    var st2 := KeepPeerConfig(st1, ns, name, spec);
    actions := DeploymentLeads(s, h, actions, st2, w, name, spec, cfg, peerHash);
    var st3 := KeepDeployment(st2, name, spec, cfg, peerHash);
    DeploymentAfter(st2, name, spec, cfg, peerHash);
    var st4 := st3.(others := KeepOthers(st3.others, name, spec));
    LeadsThen(s, h, actions, name, State(st3, w), ChangeOthers(st4.others), State(st4, w));
    actions := StatusLeads(s, h, actions + [ChangeOthers(st4.others)], st4, w, name, rollout, now);
    assert st4 == ReconcileObjects(st, h, ns, name).store;
  }

  // ---------- cluster admission over runs ----------

  /** What admission leaves in a cluster for good, whatever happens to the classes. */
  predicate SoundSpec(spec: ClusterSpec) {
    && (spec.image != "" || spec.classRef != "")
    && (spec.autoscaling.Some? ==> spec.replicas <= spec.autoscaling.value.maxReplicas)
  }

  ghost predicate ClustersSound(st: Store) {
    forall c :: c in st.clusters ==> SoundSpec(st.clusters[c].spec)
  }

  /** Calls of the pipeline worker and restarts leave clusters alone. */
  lemma AnswerKeepsClusters(s: State, h: Digest, r: Answer)
    requires s.worker.Busy?
    ensures Succeed(s, h, r).store.clusters == s.store.clusters
  {
    match s.worker.stage
    case Attach =>
    case Resolve =>
    case Collect =>
    case ReadConfig(_) =>
    case WriteConfig(_, _) =>
    case ReadDeploy(_) =>
    case WriteDeploy(_, _) =>
    case Detach =>
    case Report(_, _) =>
  }

  lemma StepKeepsClustersSound(s: State, h: Digest, a: Action)
    requires ClustersSound(s.store)
    ensures ClustersSound(Step(s, h, a).store)
  {
    if a.Work? && s.worker.Busy? {
      AnswerKeepsClusters(s, h, a.answer);
    } else if ClusterWrite(a) {
      WriteKeepsClustersSound(s, h, a);
    } else {
      OthersKeepClusters(s, h, a);
    }
  }

  predicate ClusterWrite(a: Action) { a.CreateCluster? || a.EditCluster? || a.WriteClusterStatus? || a.DeleteCluster? }

  lemma WriteKeepsClustersSound(s: State, h: Digest, a: Action)
    requires ClustersSound(s.store) && ClusterWrite(a)
    ensures ClustersSound(Step(s, h, a).store)
  {
  }

  lemma OthersKeepClusters(s: State, h: Digest, a: Action)
    requires !ClusterWrite(a) && !(a.Work? && s.worker.Busy?)
    ensures Step(s, h, a).store.clusters == s.store.clusters
  {
  }

  lemma {:induction false} RunKeepsClustersSound(s: State, h: Digest, actions: seq<Action>)
    requires ClustersSound(s.store)
    ensures ClustersSound(Run(s, h, actions).store)
    decreases actions
  {
    if actions != [] {
      StepKeepsClustersSound(s, h, actions[0]);
      RunKeepsClustersSound(Step(s, h, actions[0]), h, actions[1..]);
    }
  }

  /** The admission invariant of clusters.  Over every run whatever, from clusters that were admitted, a
      stored cluster fails to reconcile if and only if it names a class that is gone (classes have a
      non-empty image); and when it is reconciled under autoscaling, a Deployment it creates starts
      within the bound of the autoscaler it creates. */
  lemma ClusterAdmissionInvariant(start: State, h: Digest, actions: seq<Action>, s: State, ns: string, c: string)
    requires ClustersSound(start.store) && s == Run(start, h, actions) && c in s.store.clusters
    requires forall n :: n in s.store.others.classes ==> s.store.others.classes[n].image != ""
    ensures var st, spec := s.store, s.store.clusters[c].spec;
            && (ReconcileObjects(st, h, ns, c).Unresolved? <==> spec.classRef != "" && spec.classRef !in st.others.classes)
            && (Resolvable(st, c) && spec.autoscaling.Some? && c !in st.deployments ==>
                  var st' := ReconcileObjects(st, h, ns, c).store;
                  && c in st'.deployments && c in st'.others.autoscalers
                  && st'.deployments[c].replicas <= st'.others.autoscalers[c].maxReplicas)
  {
    RunKeepsClustersSound(start, h, actions);
    AdmittedResolves(s.store.clusters[c].spec, s.store.others.classes);
    if Resolvable(s.store, c) {
      ReplicasAfter(s.store, h, ns, c);
      ServicesAfter(s.store.others, c, s.store.clusters[c].spec);
    }
  }
}
