/** Two controllers and an autoscaler write one Deployment.  Gets may be arbitrarily stale; an
    Update is accepted only if it was computed from the latest version. */
module TwoWriters {
  import opened Objects
  import opened Rebuild
  import opened Overlaying

  /** Who wrote a version, and with what in mind. */
  datatype Writer =
    | Created
    | ByCluster(desired: Deployment, autoscaled: bool)
    | ByPipeline(hash: string)
    | ByAutoscaler(replicas: int)

  datatype Version = Version(writer: Writer, value: Deployment)

  /** An Update waiting to be sent: computed from version `base`. */
  datatype Draft = NoDraft | Draft(base: nat, version: Version)

  /** All versions the Deployment ever had, the last one being current, and the two controllers'
      drafts. */
  datatype Shared = Shared(history: seq<Version>, cluster: Draft, pipeline: Draft)

  datatype Move =
    | ClusterGet(seen: nat, desired: Deployment, autoscaled: bool)
    | ClusterUpdate
    | PipelineGet(seen: nat, hash: string)
    | PipelineUpdate
    | Rescale(replicas: int)

  function Rewrite(w: Writer, d: Deployment): Deployment {
    match w
    case Created => d
    case ByCluster(desired, autoscaled) => Overlay(d, desired, autoscaled)
    case ByPipeline(hash) => WithHash(d, hash)
    case ByAutoscaler(replicas) => d.(replicas := replicas)
  }

  /** Accepted exactly when the draft was computed from the latest version. */
  function Submit(s: Shared, draft: Draft): seq<Version> {
    if draft.Draft? && draft.base + 1 == |s.history| then s.history + [draft.version] else s.history
  }

  function Step(s: Shared, m: Move): Shared {
    match m
    case ClusterGet(seen, desired, autoscaled) =>
      if seen < |s.history| then
        var w := ByCluster(desired, autoscaled);
        s.(cluster := Draft(seen, Version(w, Rewrite(w, s.history[seen].value))))
      else s
    case ClusterUpdate =>
      s.(history := Submit(s, s.cluster), cluster := NoDraft)
    case PipelineGet(seen, hash) =>
      if seen < |s.history| && hash != "" then
        if Annotation(s.history[seen].value) == hash then s.(pipeline := NoDraft)
        else
          var w := ByPipeline(hash);
          s.(pipeline := Draft(seen, Version(w, Rewrite(w, s.history[seen].value))))
      else s
    case PipelineUpdate =>
      s.(history := Submit(s, s.pipeline), pipeline := NoDraft)
    case Rescale(replicas) =>
      if s.history == [] then s
      else
        var w := ByAutoscaler(replicas);
        s.(history := s.history + [Version(w, Rewrite(w, s.history[|s.history| - 1].value))])
  }

  function Run(s: Shared, moves: seq<Move>): Shared
    decreases moves
  {
    if moves == [] then s else Run(Step(s, moves[0]), moves[1..])
  }

  // ---------- no lost update ----------

  /** Every version but the first is its predecessor as rewritten by whoever wrote it. */
  ghost predicate Linear(history: seq<Version>) {
    forall i :: 0 < i < |history| ==>
      && history[i].value == Rewrite(history[i].writer, history[i - 1].value)
      && (history[i].writer.ByPipeline? ==> history[i].writer.hash != "")
  }

  /** A draft is what its writer makes of the version it was computed from. */
  ghost predicate DraftOk(history: seq<Version>, draft: Draft) {
    draft.Draft? ==>
      && draft.base < |history|
      && draft.version.value == Rewrite(draft.version.writer, history[draft.base].value)
      && (draft.version.writer.ByPipeline? ==> draft.version.writer.hash != "")
  }

  ghost predicate Orderly(s: Shared) {
    Linear(s.history) && DraftOk(s.history, s.cluster) && DraftOk(s.history, s.pipeline)
  }

  lemma StepKeepsOrder(s: Shared, m: Move)
    requires Orderly(s)
    ensures Orderly(Step(s, m)) && s.history <= Step(s, m).history
  {
  }

  lemma {:induction false} RunKeepsOrder(s: Shared, moves: seq<Move>)
    requires Orderly(s)
    ensures Orderly(Run(s, moves)) && s.history <= Run(s, moves).history
    decreases moves
  {
    if moves != [] {
      StepKeepsOrder(s, moves[0]);
      RunKeepsOrder(Step(s, moves[0]), moves[1..]);
    }
  }

  /** The last hash written by the pipeline controller up to version `i`. */
  function LastHash(history: seq<Version>, i: nat): Option<string>
    requires i < |history|
  {
    if history[i].writer.ByPipeline? then Some(history[i].writer.hash)
    else if i == 0 then None
    else LastHash(history, i - 1)
  }

  lemma RewriteKeepsHash(w: Writer, d: Deployment)
    requires Annotation(d) != "" && !w.ByPipeline?
    ensures Annotation(Rewrite(w, d)) == Annotation(d)
  {
    if w.ByCluster? {
      OverlayKeepsHash(d, w.desired, w.autoscaled);
    }
  }

  lemma {:induction false} HashIsLastWritten(history: seq<Version>, i: nat)
    requires Linear(history) && i < |history|
    requires history[0].writer.Created?
    ensures LastHash(history, i).Some? ==> LastHash(history, i).value != "" && Annotation(history[i].value) == LastHash(history, i).value
  {
    if i > 0 {
      HashIsLastWritten(history, i - 1);
      if !history[i].writer.ByPipeline? && LastHash(history, i - 1).Some? {
        RewriteKeepsHash(history[i].writer, history[i - 1].value);
      }
    }
  }

  lemma {:induction false} NonEmptyHashStays(history: seq<Version>, i: nat, j: nat)
    requires Linear(history) && i <= j < |history|
    requires Annotation(history[i].value) != ""
    requires forall k :: i < k <= j ==> !history[k].writer.ByPipeline?
    ensures Annotation(history[j].value) == Annotation(history[i].value)
  {
    if i < j {
      NonEmptyHashStays(history, i, j - 1);
      RewriteKeepsHash(history[j].writer, history[j - 1].value);
    }
  }

  /** Two-writer safety.  In every interleaving of both controllers' Gets and Updates, stale Gets
      included, and of the autoscaler:
      every accepted write is applied to the version just before it, so a pipeline write leaves
      replicas, labels, pod and all other annotations exactly as the others last wrote them;
      from the first pipeline write on, the hash in every version is the last one the pipeline
      controller wrote;
      and a non-empty hash, wherever it came from, is only ever changed by the pipeline controller. */
  lemma TwoWriterSafety(d: Deployment, moves: seq<Move>, i: nat, j: nat)
    requires i < j < |Run(Shared([Version(Created, d)], NoDraft, NoDraft), moves).history|
    ensures var history := Run(Shared([Version(Created, d)], NoDraft, NoDraft), moves).history;
            && (history[j].writer.ByPipeline? ==>
                  history[j].value == history[j - 1].value.(annotations := history[j].value.annotations)
                  && history[j].value.annotations == history[j - 1].value.annotations[PipelinesHash := history[j].writer.hash])
            && (LastHash(history, j).Some? ==> Annotation(history[j].value) == LastHash(history, j).value)
            && (Annotation(history[i].value) != "" && Annotation(history[j].value) != Annotation(history[i].value) ==>
                  exists k :: i < k <= j && history[k].writer.ByPipeline?)
  {
    var s := Shared([Version(Created, d)], NoDraft, NoDraft);
    RunKeepsOrder(s, moves);
    var history := Run(s, moves).history;
    assert history[0] == s.history[0];
    HashIsLastWritten(history, j);
    if Annotation(history[i].value) != "" && forall k :: i < k <= j ==> !history[k].writer.ByPipeline? {
      NonEmptyHashStays(history, i, j);
    }
  }

  // ---------- stale reads ----------

  /** The drafts are of their controllers' making. */
  predicate OwnDrafts(s: Shared) {
    (s.pipeline.Draft? ==> s.pipeline.version.writer.ByPipeline?) && (s.cluster.Draft? ==> s.cluster.version.writer.ByCluster?)
  }

  /** There is nothing to send, or it was computed from a version that is no longer the latest. */
  predicate Outdated(history: seq<Version>, draft: Draft) {
    draft.Draft? ==> draft.base + 1 < |history|
  }

  /** Written by somebody other than the pipeline controller (the cluster controller, if `cluster`). */
  predicate Foreign(w: Writer, cluster: bool) {
    if cluster then !w.ByCluster? else !w.ByPipeline?
  }

  predicate Gets(m: Move, cluster: bool) {
    if cluster then m.ClusterGet? else m.PipelineGet?
  }

  function DraftOf(s: Shared, cluster: bool): Draft {
    if cluster then s.cluster else s.pipeline
  }

  lemma StepAfterConflict(s: Shared, m: Move, cluster: bool)
    requires OwnDrafts(s) && Outdated(s.history, DraftOf(s, cluster)) && !Gets(m, cluster)
    ensures var s' := Step(s, m);
            && OwnDrafts(s') && Outdated(s'.history, DraftOf(s', cluster)) && s.history <= s'.history
            && forall i :: |s.history| <= i < |s'.history| ==> Foreign(s'.history[i].writer, cluster)
  {
  }

  /** A conflict is final: once a controller's draft is outdated, nothing it has in hand ever lands,
      over any interleaving, until it reads the Deployment again. */
  lemma {:induction false} StaleDraftNeverLands(s: Shared, moves: seq<Move>, cluster: bool)
    requires OwnDrafts(s) && Outdated(s.history, DraftOf(s, cluster))
    requires forall i :: 0 <= i < |moves| ==> !Gets(moves[i], cluster)
    ensures var history := Run(s, moves).history;
            && s.history <= history
            && forall i :: |s.history| <= i < |history| ==> Foreign(history[i].writer, cluster)
    decreases moves
  {
    if moves != [] {
      var next := Step(s, moves[0]);
      StepAfterConflict(s, moves[0], cluster);
      StaleDraftNeverLands(next, moves[1..], cluster);
      assert forall i :: |s.history| <= i < |next.history| ==> Run(s, moves).history[i] == next.history[i];
    }
  }

  function Latest(s: Shared): Deployment
    requires s.history != []
  {
    s.history[|s.history| - 1].value
  }

  /** One Get and the Update that may follow it, with nobody in between: the hash ends up in place if
      and only if the Get was current or the hash was there already.  A stale Get is harmless when it
      leads to a draft, which is rejected; it misleads when it shows the hash, for then no Update is
      sent and no error is raised. */
  lemma GetThenUpdate(s: Shared, seen: nat, hash: string)
    requires seen < |s.history| && hash != ""
    ensures var s1 := Step(s, PipelineGet(seen, hash));
            var s2 := Step(s1, PipelineUpdate);
            && (Annotation(Latest(s2)) == hash <==> seen + 1 == |s.history| || Annotation(Latest(s)) == hash)
            && (s1.pipeline.Draft? && s2.history == s.history ==> seen + 1 < |s.history|)
            && (s1.pipeline.NoDraft? ==> s2.history == s.history && Annotation(s.history[seen].value) == hash)
  {
  }

  lemma RunStep(s: Shared, m: Move, moves: seq<Move>)
    ensures Run(s, [m] + moves) == Run(Step(s, m), moves)
  {
    assert ([m] + moves)[1..] == moves;
  }

  /** And that does happen: write `a`, write `b`, then ask for `a` again on a read that still shows the
      first write.  The controller is content, and the annotation stays at `b`. */
  lemma StaleGetMisleads(d: Deployment, a: string, b: string)
    requires a != "" && b != "" && a != b && Annotation(d) != a
    ensures var s := Run(Shared([Version(Created, d)], NoDraft, NoDraft),
                         [PipelineGet(0, a)] + ([PipelineUpdate] + ([PipelineGet(1, b)] + ([PipelineUpdate] + ([PipelineGet(1, a)] + [])))));
            s.pipeline.NoDraft? && |s.history| == 3 && Annotation(s.history[1].value) == a && Annotation(Latest(s)) == b
  {
    var s0 := Shared([Version(Created, d)], NoDraft, NoDraft);
    var s1 := Step(s0, PipelineGet(0, a));
    var s2 := Step(s1, PipelineUpdate);
    var s3 := Step(s2, PipelineGet(1, b));
    var s4 := Step(s3, PipelineUpdate);
    RunStep(s4, PipelineGet(1, a), []);
    RunStep(s3, PipelineUpdate, [PipelineGet(1, a)] + []);
    RunStep(s2, PipelineGet(1, b), [PipelineUpdate] + ([PipelineGet(1, a)] + []));
    RunStep(s1, PipelineUpdate, [PipelineGet(1, b)] + ([PipelineUpdate] + ([PipelineGet(1, a)] + [])));
    RunStep(s0, PipelineGet(0, a), [PipelineUpdate] + ([PipelineGet(1, b)] + ([PipelineUpdate] + ([PipelineGet(1, a)] + []))));
    assert s2.history == s0.history + [s1.pipeline.version] && Annotation(s2.history[1].value) == a;
    assert s4.history == s2.history + [s3.pipeline.version] && Annotation(s4.history[2].value) == b;
  }
}
