/** Status conditions: `SetStatusCondition`, and the status both controllers write. */
module Conditions {
  import opened Objects

  /** One condition as a controller asks for it, before a transition time is chosen. */
  datatype Signal = Signal(kind: Kind, status: Truth, reason: string, message: Message, generation: nat)

  /** Index of the first condition of a type, or the length of the list. */
  function Find(cs: seq<Condition>, kind: Kind): (i: nat)
    ensures i <= |cs| && (i < |cs| ==> cs[i].kind == kind)
    ensures forall j :: 0 <= j < i ==> cs[j].kind != kind
  {
    if cs == [] then 0 else if cs[0].kind == kind then 0 else 1 + Find(cs[1..], kind)
  }

  function Get(cs: seq<Condition>, kind: Kind): Option<Condition> {
    var i := Find(cs, kind);
    if i < |cs| then Some(cs[i]) else None
  }

  /** `meta.SetStatusCondition` with an unset transition time. */
  function SetCondition(cs: seq<Condition>, s: Signal, now: nat): seq<Condition> {
    var i := Find(cs, s.kind);
    if i == |cs| then cs + [Condition(s.kind, s.status, s.reason, s.message, s.generation, now)]
    else
      cs[i := Condition(s.kind, s.status, s.reason, s.message, s.generation,
                        if cs[i].status == s.status then cs[i].lastTransition else now)]
  }

  function SetAll(cs: seq<Condition>, signals: seq<Signal>, now: nat): seq<Condition>
    decreases signals
  {
    if signals == [] then cs else SetAll(SetCondition(cs, signals[0], now), signals[1..], now)
  }

  ghost predicate Distinct(cs: seq<Condition>) {
    forall i, j :: 0 <= i < j < |cs| ==> cs[i].kind != cs[j].kind
  }

  ghost predicate DistinctSignals(signals: seq<Signal>) {
    forall i, j :: 0 <= i < j < |signals| ==> signals[i].kind != signals[j].kind
  }

  /** The condition already says what the signal asks for. */
  predicate Says(c: Condition, s: Signal) {
    && c.kind == s.kind && c.status == s.status && c.reason == s.reason
    && c.message == s.message && c.observedGeneration == s.generation
  }

  lemma FindUnique(cs: seq<Condition>, kind: Kind, i: nat)
    requires i <= |cs| && (i < |cs| ==> cs[i].kind == kind)
    requires forall j :: 0 <= j < i ==> cs[j].kind != kind
    ensures Find(cs, kind) == i
  {
  }

  /** One call: the signalled type says what was asked, and its transition time moves only on a
      flip or when the type is new. */
  lemma SetConditionEffect(cs: seq<Condition>, s: Signal, now: nat)
    ensures var before, after := Get(cs, s.kind), Get(SetCondition(cs, s, now), s.kind);
            && after.Some? && Says(after.value, s)
            && after.value.lastTransition ==
               (if before.Some? && before.value.status == s.status then before.value.lastTransition else now)
  {
    FindUnique(SetCondition(cs, s, now), s.kind, Find(cs, s.kind));
  }

  /** Every other type is untouched. */
  lemma SetConditionElsewhere(cs: seq<Condition>, s: Signal, now: nat, kind: Kind)
    requires kind != s.kind
    ensures Get(SetCondition(cs, s, now), kind) == Get(cs, kind)
  {
    var cs', k := SetCondition(cs, s, now), Find(cs, kind);
    FindUnique(cs', kind, if k < |cs| then k else |cs'|);
  }

  /** Distinct types stay distinct. */
  lemma SetConditionDistinct(cs: seq<Condition>, s: Signal, now: nat)
    requires Distinct(cs)
    ensures Distinct(SetCondition(cs, s, now))
  {
  }

  /** Asking for what already holds changes nothing, at any time. */
  lemma SetConditionStable(cs: seq<Condition>, s: Signal, now: nat)
    requires Get(cs, s.kind).Some? && Says(Get(cs, s.kind).value, s)
    ensures SetCondition(cs, s, now) == cs
  {
  }

  lemma {:induction false} SetAllUntouched(cs: seq<Condition>, signals: seq<Signal>, now: nat, kind: Kind)
    requires forall i :: 0 <= i < |signals| ==> signals[i].kind != kind
    ensures Get(SetAll(cs, signals, now), kind) == Get(cs, kind)
    decreases signals
  {
    if signals != [] {
      SetConditionElsewhere(cs, signals[0], now, kind);
      SetAllUntouched(SetCondition(cs, signals[0], now), signals[1..], now, kind);
    }
  }

  lemma {:induction false} SetAllDistinct(cs: seq<Condition>, signals: seq<Signal>, now: nat)
    requires Distinct(cs)
    ensures Distinct(SetAll(cs, signals, now))
    decreases signals
  {
    if signals != [] {
      SetConditionDistinct(cs, signals[0], now);
      SetAllDistinct(SetCondition(cs, signals[0], now), signals[1..], now);
    }
  }

  /** After one status computation each signalled type says what was asked, and its transition
      time differs from the earlier one only if the status flipped or the type was new. */
  lemma {:induction false} SetAllEffect(cs: seq<Condition>, signals: seq<Signal>, now: nat, i: nat)
    requires DistinctSignals(signals) && i < |signals|
    ensures var s, got := signals[i], Get(SetAll(cs, signals, now), signals[i].kind);
            && got.Some? && Says(got.value, s)
            && got.value.lastTransition ==
               (if Get(cs, s.kind).Some? && Get(cs, s.kind).value.status == s.status
                then Get(cs, s.kind).value.lastTransition else now)
    decreases signals
  {
    var first := SetCondition(cs, signals[0], now);
    if i == 0 {
      SetConditionEffect(cs, signals[0], now);
      SetAllUntouched(first, signals[1..], now, signals[0].kind);
    } else {
      SetConditionElsewhere(cs, signals[0], now, signals[i].kind);
      SetAllEffect(first, signals[1..], now, i - 1);
    }
  }

  lemma {:induction false} SetAllStable(cs: seq<Condition>, signals: seq<Signal>, now: nat)
    requires forall i :: 0 <= i < |signals| ==> Get(cs, signals[i].kind).Some? && Says(Get(cs, signals[i].kind).value, signals[i])
    ensures SetAll(cs, signals, now) == cs
  {
    if signals != [] {
      SetConditionStable(cs, signals[0], now);
      SetAllStable(cs, signals[1..], now);
    }
  }

  /** Re-running on the same observation, however much later, computes the same list. */
  lemma SetAllIdempotent(cs: seq<Condition>, signals: seq<Signal>, now: nat, later: nat)
    requires DistinctSignals(signals)
    ensures var cs' := SetAll(cs, signals, now); SetAll(cs', signals, later) == cs'
  {
    forall i | 0 <= i < |signals| {
      SetAllEffect(cs, signals, now, i);
    }
    SetAllStable(SetAll(cs, signals, now), signals, later);
  }

  // ---------- what the two controllers signal ----------

  function PipelineSignals(clusterRef: string, generation: nat, phase: Phase, health: Health): seq<Signal> {
    [ if phase == Applied
      then Signal(Ready, True, "PipelineApplied", Words("pipeline content merged into cluster ConfigMap"), generation)
      else Signal(Ready, False, "ClusterNotFound", Words("cluster \"" + clusterRef + "\" not found in namespace"), generation) ]
    + if health.known
      then [Signal(Healthy, if health.healthy then True else False, health.reason, Words(health.message), generation)]
      else []
  }

  /** The status `setStatus` computes; it is written exactly when it differs. */
  function NextStatus(p: Pipeline, phase: Phase, health: Health, now: nat): PipelineStatus {
    PipelineStatus(phase, p.generation,
                   SetAll(p.status.conditions, PipelineSignals(p.spec.clusterRef, p.generation, phase, health), now))
  }

  /** Rollout figures read from a Deployment's status. */
  datatype Rollout = Rollout(
    ready: int, unavailable: int, updated: int, generation: nat, observedGeneration: nat, desired: int)

  predicate IsReady(replicas: int, r: Rollout) { replicas > 0 && r.ready >= replicas }

  predicate IsDegraded(r: Rollout) { r.unavailable > 0 && r.ready == 0 }

  predicate IsProgressing(r: Rollout) {
    r.generation != r.observedGeneration || r.updated < r.desired
  }

  function ClusterSignals(replicas: int, generation: nat, r: Rollout): seq<Signal> {
    [ Signal(Ready, if IsReady(replicas, r) then True else False,
             if IsReady(replicas, r) then "DeploymentAvailable" else "DeploymentUnavailable",
             ReplicasReady(r.ready, replicas), generation),
      Signal(Progressing, if IsProgressing(r) then True else False,
             if IsProgressing(r) then "RolloutInProgress" else "RolloutComplete",
             if IsProgressing(r)
             then ReplicasUpdated(r.updated, replicas) else Words("deployment matches desired generation"), generation),
      Signal(Degraded, if IsDegraded(r) then True else False,
             if IsDegraded(r) then "AllReplicasUnavailable" else "ReplicasAvailable",
             if IsDegraded(r) then ReplicasUnavailable(r.unavailable) else Words("at least one replica ready"), generation) ]
  }

  /** The status `reconcileStatus` computes; it is written exactly when it differs. */
  function NextClusterStatus(cluster: Cluster, r: Rollout, pipelines: int, now: nat): ClusterStatus {
    ClusterStatus(
      if IsReady(cluster.spec.replicas, r) then ClusterReady
      else if IsDegraded(r) then ClusterDegraded else ClusterPending,
      r.ready, pipelines, cluster.generation,
      SetAll(cluster.status.conditions, ClusterSignals(cluster.spec.replicas, cluster.generation, r), now))
  }

  // ---------- runs of status computations ----------

  /** One status computation by either controller. */
  datatype Update =
    | ByPipeline(clusterRef: string, generation: nat, phase: Phase, health: Health, now: nat)
    | ByCluster(replicas: int, generation: nat, rollout: Rollout, now: nat)

  function SignalsOf(u: Update): seq<Signal> {
    match u
    case ByPipeline(c, g, phase, health, _) => PipelineSignals(c, g, phase, health)
    case ByCluster(n, g, r, _) => ClusterSignals(n, g, r)
  }

  function RunUpdates(cs: seq<Condition>, us: seq<Update>): seq<Condition>
    decreases us
  {
    if us == [] then cs else RunUpdates(SetAll(cs, SignalsOf(us[0]), us[0].now), us[1..])
  }

  /** Health answers carry a reason whenever they are known. */
  predicate Sensible(u: Update) { u.ByPipeline? && u.health.known ==> u.health.reason != "" }

  predicate Mentions(us: seq<Update>, kind: Kind) {
    exists i, j :: 0 <= i < |us| && 0 <= j < |SignalsOf(us[i])| && SignalsOf(us[i])[j].kind == kind
  }

  /** No update of the run asks for another status of `kind` than `status`. */
  predicate Steady(us: seq<Update>, kind: Kind, status: Truth) {
    forall i, j :: 0 <= i < |us| && 0 <= j < |SignalsOf(us[i])| && SignalsOf(us[i])[j].kind == kind ==>
      SignalsOf(us[i])[j].status == status
  }

  lemma PipelineSignalsSensible(clusterRef: string, generation: nat, phase: Phase, health: Health)
    requires health.known ==> health.reason != ""
    ensures var signals := PipelineSignals(clusterRef, generation, phase, health);
            && DistinctSignals(signals)
            && forall j :: 0 <= j < |signals| ==> signals[j].reason != ""
  {
  }

  lemma ClusterSignalsSensible(replicas: int, generation: nat, r: Rollout)
    ensures var signals := ClusterSignals(replicas, generation, r);
            && DistinctSignals(signals)
            && forall j :: 0 <= j < |signals| ==> signals[j].reason != ""
  {
  }

  lemma SignalsSensible(u: Update)
    requires Sensible(u)
    ensures DistinctSignals(SignalsOf(u))
    ensures forall j :: 0 <= j < |SignalsOf(u)| ==> SignalsOf(u)[j].reason != ""
  {
    match u
    case ByPipeline(c, g, phase, health, _) => PipelineSignalsSensible(c, g, phase, health);
    case ByCluster(n, g, r, _) => ClusterSignalsSensible(n, g, r);
  }

  /** One update, seen from one condition type. */
  lemma UpdateEffect(cs: seq<Condition>, u: Update, kind: Kind)
    requires Sensible(u)
    ensures var cs' := SetAll(cs, SignalsOf(u), u.now);
            && (Get(cs', kind) == Get(cs, kind) || (Get(cs', kind).Some? && Get(cs', kind).value.reason != ""))
            && (!Mentions([u], kind) ==> Get(cs', kind) == Get(cs, kind))
            && (Get(cs, kind).Some? ==> Get(cs', kind).Some?)
            && (Get(cs, kind).Some? && Get(cs', kind).value.status == Get(cs, kind).value.status ==>
                  Get(cs', kind).value.lastTransition == Get(cs, kind).value.lastTransition)
            && (Get(cs, kind).Some? && Steady([u], kind, Get(cs, kind).value.status) ==>
                  Get(cs', kind).value.status == Get(cs, kind).value.status)
  {
    var signals := SignalsOf(u);
    SignalsSensible(u);
    if j :| 0 <= j < |signals| && signals[j].kind == kind {
      SetAllEffect(cs, signals, u.now, j);
      assert [u][0] == u;
    } else {
      SetAllUntouched(cs, signals, u.now, kind);
    }
  }

  lemma SplitRun(us: seq<Update>, kind: Kind, status: Truth)
    requires us != []
    ensures !Mentions(us, kind) ==> !Mentions([us[0]], kind) && !Mentions(us[1..], kind)
    ensures Steady(us, kind, status) ==> Steady([us[0]], kind, status) && Steady(us[1..], kind, status)
  {
  }

  /** The condition of one type survived with status and transition time. */
  predicate Unflipped(before: Option<Condition>, after: Option<Condition>) {
    && before.Some? && after.Some?
    && after.value.status == before.value.status && after.value.lastTransition == before.value.lastTransition
  }

  lemma {:induction false} RunsKeepConditions(cs: seq<Condition>, us: seq<Update>, kind: Kind)
    requires forall i :: 0 <= i < |us| ==> Sensible(us[i])
    ensures var cs' := RunUpdates(cs, us);
            && (Distinct(cs) ==> Distinct(cs'))
            && (!Mentions(us, kind) ==> Get(cs', kind) == Get(cs, kind))
            && (Get(cs', kind) == Get(cs, kind) || (Get(cs', kind).Some? && Get(cs', kind).value.reason != ""))
            && (Get(cs, kind).Some? && Steady(us, kind, Get(cs, kind).value.status) ==> Unflipped(Get(cs, kind), Get(cs', kind)))
    decreases us
  {
    if us != [] {
      var next := SetAll(cs, SignalsOf(us[0]), us[0].now);
      UpdateEffect(cs, us[0], kind);
      if Distinct(cs) {
        SetAllDistinct(cs, SignalsOf(us[0]), us[0].now);
      }
      SplitRun(us, kind, if Get(cs, kind).Some? then Get(cs, kind).value.status else Unknown);
      RunsKeepConditions(next, us[1..], kind);
    }
  }

  // ---------- when a status last flipped ----------

  /** The status an update asks for a type. */
  function Asked(u: Update, kind: Kind): (r: Option<Truth>)
    ensures r.None? <==> forall j :: 0 <= j < |SignalsOf(u)| ==> SignalsOf(u)[j].kind != kind
    ensures r.Some? ==> exists j :: 0 <= j < |SignalsOf(u)| && SignalsOf(u)[j].kind == kind && SignalsOf(u)[j].status == r.value
  {
    AskedIn(SignalsOf(u), kind)
  }

  function AskedIn(signals: seq<Signal>, kind: Kind): (r: Option<Truth>)
    ensures r.None? <==> forall j :: 0 <= j < |signals| ==> signals[j].kind != kind
    ensures r.Some? ==> exists j :: 0 <= j < |signals| && signals[j].kind == kind && signals[j].status == r.value
  {
    if signals == [] then None
    else if signals[0].kind == kind then Some(signals[0].status)
    else
      var rest := AskedIn(signals[1..], kind);
      assert forall j :: 0 < j < |signals| ==> signals[j] == signals[1..][j - 1];
      rest
  }

  /** What each update of a run asks for a type. */
  function Asks(us: seq<Update>, kind: Kind): (r: seq<Option<Truth>>)
    ensures |r| == |us| && forall i :: 0 <= i < |us| ==> r[i] == Asked(us[i], kind)
  {
    if us == [] then [] else Asks(us[..|us| - 1], kind) + [Asked(us[|us| - 1], kind)]
  }

  /** The status last asked for, or the one at the start. */
  function StatusAfter(before: Option<Truth>, asks: seq<Option<Truth>>): Option<Truth> {
    if asks == [] then before
    else if asks[|asks| - 1].Some? then asks[|asks| - 1]
    else StatusAfter(before, asks[..|asks| - 1])
  }

  /** The `i`-th update asks for another status than the one then in place. */
  predicate FlipsAt(before: Option<Truth>, asks: seq<Option<Truth>>, i: int) {
    0 <= i < |asks| && asks[i].Some? && asks[i] != StatusAfter(before, asks[..i])
  }

  /** And is the last to do so. */
  predicate LastFlip(before: Option<Truth>, asks: seq<Option<Truth>>, i: int) {
    FlipsAt(before, asks, i) && forall j :: i < j < |asks| ==> !FlipsAt(before, asks, j)
  }

  predicate NeverFlips(before: Option<Truth>, asks: seq<Option<Truth>>) {
    forall i :: 0 <= i < |asks| ==> !FlipsAt(before, asks, i)
  }

  /** `t` is the time of the last flip, or the old transition time if there was none. */
  ghost predicate Since(before: Option<Condition>, us: seq<Update>, asks: seq<Option<Truth>>, t: nat)
    requires |asks| == |us|
  {
    || (exists i :: LastFlip(StatusOf(before), asks, i) && t == us[i].now)
    || (NeverFlips(StatusOf(before), asks) && before.Some? && t == before.value.lastTransition)
  }

  function StatusOf(c: Option<Condition>): Option<Truth> {
    if c.Some? then Some(c.value.status) else None
  }

  lemma {:induction false} RunUpdatesLast(cs: seq<Condition>, us: seq<Update>, u: Update)
    ensures RunUpdates(cs, us + [u]) == SetAll(RunUpdates(cs, us), SignalsOf(u), u.now)
    decreases us
  {
    if us == [] {
      assert us + [u] == [u] && [u][1..] == [];
    } else {
      assert (us + [u])[1..] == us[1..] + [u];
      RunUpdatesLast(SetAll(cs, SignalsOf(us[0]), us[0].now), us[1..], u);
    }
  }

  lemma EarlierFlips(before: Option<Truth>, asks: seq<Option<Truth>>, i: int)
    requires asks != [] && i < |asks| - 1
    ensures FlipsAt(before, asks, i) <==> FlipsAt(before, asks[..|asks| - 1], i)
  {
    if 0 <= i {
      assert asks[..|asks| - 1][..i] == asks[..i];
    }
  }

  /** One update, seen from one type: the status asked for, with a new transition time on a flip. */
  lemma UpdateMoves(cs: seq<Condition>, u: Update, kind: Kind)
    requires Sensible(u)
    ensures var before, after := Get(cs, kind), Get(SetAll(cs, SignalsOf(u), u.now), kind);
            if Asked(u, kind).None? then after == before
            else
              && StatusOf(after) == Asked(u, kind)
              && after.value.lastTransition == (if StatusOf(before) == Asked(u, kind) then before.value.lastTransition else u.now)
  {
    var signals := SignalsOf(u);
    SignalsSensible(u);
    if Asked(u, kind).None? {
      SetAllUntouched(cs, signals, u.now, kind);
    } else {
      var j :| 0 <= j < |signals| && signals[j].kind == kind && signals[j].status == Asked(u, kind).value;
      SetAllEffect(cs, signals, u.now, j);
    }
  }

  lemma SinceStays(before: Option<Condition>, us: seq<Update>, asks: seq<Option<Truth>>, t: nat)
    requires us != [] && |asks| == |us| && !FlipsAt(StatusOf(before), asks, |asks| - 1)
    requires Since(before, us[..|us| - 1], asks[..|asks| - 1], t)
    ensures Since(before, us, asks, t)
  {
    var front, was := asks[..|asks| - 1], StatusOf(before);
    forall i | i < |asks| - 1 {
      EarlierFlips(was, asks, i);
    }
    if NeverFlips(was, front) && before.Some? && t == before.value.lastTransition {
      assert NeverFlips(was, asks);
    } else {
      var i :| LastFlip(was, front, i) && t == us[..|us| - 1][i].now;
      assert LastFlip(was, asks, i);
    }
  }

  /** Transition times, exactly: after any run of status updates by both controllers a type has the
      status last asked for, or its old one if none was, and its transition time is the time of the
      last update that asked for another status than the one then in place, or the old transition time if
      there was none. */
  lemma {:induction false} TransitionIsLastFlip(cs: seq<Condition>, us: seq<Update>, kind: Kind)
    requires forall i :: 0 <= i < |us| ==> Sensible(us[i])
    ensures var before, after := Get(cs, kind), Get(RunUpdates(cs, us), kind);
            && StatusOf(after) == StatusAfter(StatusOf(before), Asks(us, kind))
            && (after.Some? ==> Since(before, us, Asks(us, kind), after.value.lastTransition))
    decreases us
  {
    if us != [] {
      var front, u := us[..|us| - 1], us[|us| - 1];
      assert us == front + [u];
      RunUpdatesLast(cs, front, u);
      TransitionIsLastFlip(cs, front, kind);
      UpdateMoves(RunUpdates(cs, front), u, kind);
      OneMoreAsk(Get(cs, kind), Get(RunUpdates(cs, front), kind), Get(RunUpdates(cs, us), kind), us, Asks(us, kind));
    }
  }

  /** The same seen from one type, one update at a time. */
  lemma OneMoreAsk(before: Option<Condition>, mid: Option<Condition>, after: Option<Condition>, us: seq<Update>,
          asks: seq<Option<Truth>>)
    requires us != [] && |asks| == |us|
    requires var front, ask := asks[..|asks| - 1], asks[|asks| - 1];
             && StatusOf(mid) == StatusAfter(StatusOf(before), front)
             && (mid.Some? ==> Since(before, us[..|us| - 1], front, mid.value.lastTransition))
             && (if ask.None? then after == mid
                 else
                   && StatusOf(after) == ask
                   && after.value.lastTransition == (if StatusOf(mid) == ask then mid.value.lastTransition else us[|us| - 1].now))
    ensures StatusOf(after) == StatusAfter(StatusOf(before), asks)
    ensures after.Some? ==> Since(before, us, asks, after.value.lastTransition)
  {
    if after.Some? {
      if FlipsAt(StatusOf(before), asks, |asks| - 1) {
        assert LastFlip(StatusOf(before), asks, |asks| - 1);
      } else {
        SinceStays(before, us, asks, after.value.lastTransition);
      }
    }
  }

  /** Over every run of status updates by both controllers: distinct types stay distinct; a type the
      run never signals is untouched; every condition that was written has a reason; a condition whose
      status is never asked to flip keeps it and its transition time; and in general status and transition
      time are those of the last flip. */
  lemma ConditionRuns(cs: seq<Condition>, us: seq<Update>, kind: Kind)
    requires forall i :: 0 <= i < |us| ==> Sensible(us[i])
    ensures var before, after := Get(cs, kind), Get(RunUpdates(cs, us), kind);
            && (Distinct(cs) ==> Distinct(RunUpdates(cs, us)))
            && (!Mentions(us, kind) ==> after == before)
            && (after == before || (after.Some? && after.value.reason != ""))
            && (before.Some? && Steady(us, kind, before.value.status) ==> Unflipped(before, after))
            && StatusOf(after) == StatusAfter(StatusOf(before), Asks(us, kind))
            && (after.Some? ==> Since(before, us, Asks(us, kind), after.value.lastTransition))
  {
    RunsKeepConditions(cs, us, kind);
    TransitionIsLastFlip(cs, us, kind);
  }

  /** Writing the computed status and computing it again on the same observation, at any later
      time, gives the same status: the second run writes nothing.  An unknown health answer
      leaves an earlier Healthy condition as it was. */
  lemma PipelineStatusSettles(p: Pipeline, phase: Phase, health: Health, now: nat, later: nat)
    ensures var p' := p.(status := NextStatus(p, phase, health, now));
            NextStatus(p', phase, health, later) == p'.status
    ensures !health.known ==>
              Get(NextStatus(p, phase, health, now).conditions, Healthy) == Get(p.status.conditions, Healthy)
    ensures health.known ==>
              && Get(NextStatus(p, phase, health, now).conditions, Healthy).Some?
              && Get(NextStatus(p, phase, health, now).conditions, Healthy).value.status == (if health.healthy then True else False)
              && Get(NextStatus(p, phase, health, now).conditions, Healthy).value.reason == health.reason
    ensures Get(NextStatus(p, phase, health, now).conditions, Ready).Some?
    ensures phase == Applied <==> Get(NextStatus(p, phase, health, now).conditions, Ready).value.status == True
    ensures NextStatus(p, phase, health, now).phase == phase && NextStatus(p, phase, health, now).observedGeneration == p.generation
  {
    var signals := PipelineSignals(p.spec.clusterRef, p.generation, phase, health);
    SetAllIdempotent(p.status.conditions, signals, now, later);
    SetAllEffect(p.status.conditions, signals, now, 0);
    if health.known {
      SetAllEffect(p.status.conditions, signals, now, 1);
    } else {
      SetAllUntouched(p.status.conditions, signals, now, Healthy);
    }
  }

  lemma ClusterStatusSettles(cluster: Cluster, r: Rollout, pipelines: int, now: nat, later: nat)
    ensures var next := cluster.(status := NextClusterStatus(cluster, r, pipelines, now));
            NextClusterStatus(next, r, pipelines, later) == next.status
  {
    SetAllIdempotent(cluster.status.conditions, ClusterSignals(cluster.spec.replicas, cluster.generation, r), now, later);
  }

  /** Phase and conditions of a cluster never contradict each other: Ready exactly when the Ready
      condition is true, Degraded exactly when it is not and the Degraded condition is. */
  lemma PhaseMatchesConditions(cluster: Cluster, r: Rollout, pipelines: int, now: nat)
    ensures var next := NextClusterStatus(cluster, r, pipelines, now);
            var ready, degraded := Get(next.conditions, Ready), Get(next.conditions, Degraded);
            && ready.Some? && degraded.Some?
            && (next.phase == ClusterReady <==> ready.value.status == True)
            && (next.phase == ClusterReady <==> 0 < cluster.spec.replicas <= r.ready)
            && (degraded.value.status == True <==> r.unavailable > 0 && r.ready == 0)
            && (next.phase == ClusterDegraded <==> ready.value.status != True && degraded.value.status == True)
            && (degraded.value.status == True && cluster.spec.replicas > 0 ==> ready.value.status == False)
  {
    var signals := ClusterSignals(cluster.spec.replicas, cluster.generation, r);
    SetAllEffect(cluster.status.conditions, signals, now, 0);
    SetAllEffect(cluster.status.conditions, signals, now, 2);
  }
}
