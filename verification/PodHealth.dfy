/** Scanning a cluster's pods for boot errors. */
module PodHealth {
  import opened Objects

  const CONTAINER := "data-prepper"

  /** A container state that comes with a reason. */
  predicate Stated(state: Option<Detail>) { state.Some? && state.value.reason != "" }

  /** What is reported of a container that waits or has terminated for a stated reason. */
  function ComplaintOf(pod: string, cs: ContainerStatus): Health
    requires Stated(cs.waiting) || Stated(cs.terminated)
  {
    if Stated(cs.waiting)
    then Health(true, false, cs.waiting.value.reason, "pod " + pod + " waiting: " + cs.waiting.value.message)
    else Health(true, false, cs.terminated.value.reason, "pod " + pod + " terminated: " + cs.terminated.value.message)
  }

  const UNKNOWN := Health(false, false, "", "")
  const NO_PODS := Health(true, false, "NoPods", "no DataPrepper pods are scheduled")
  const RUNNING := Health(true, true, "DataPrepperRunning", "all data-prepper containers running")

  /** Position (i, j) holds a data-prepper container, of a pod that is not being deleted, that waits or has
      terminated for a stated reason. */
  predicate TroubledAt(pods: seq<Pod>, i: int, j: int) {
    && 0 <= i < |pods| && 0 <= j < |pods[i].containers| && !pods[i].deleting
    && pods[i].containers[j].name == CONTAINER
    && (Stated(pods[i].containers[j].waiting) || Stated(pods[i].containers[j].terminated))
  }

  /** (i, j) comes before (k, l) in scanning order. */
  predicate Earlier(i: int, j: int, k: int, l: int) {
    i < k || (i == k && j < l)
  }

  /** `h` is the right answer for the answer the pod list call gave (`None`: it failed). */
  ghost predicate Reports(h: Health, listing: Option<seq<Pod>>) {
    match listing
    case None => h == UNKNOWN
    case Some(pods) =>
      if pods == [] then h == NO_PODS
      else
        || (h == RUNNING && forall i, j :: !TroubledAt(pods, i, j))
        || exists i, j ::
             && TroubledAt(pods, i, j)
             && ComplaintOf(pods[i].name, pods[i].containers[j]) == h
             && forall k, l :: TroubledAt(pods, k, l) ==> !Earlier(k, l, i, j)
  }

  method InspectClusterHealth(listing: Option<seq<Pod>>) returns (h: Health)
    ensures Reports(h, listing)
  {
    if listing.None? {
      return UNKNOWN;
    }
    var pods := listing.value;
    if |pods| == 0 {
      return NO_PODS;
    }
    for i := 0 to |pods|
      invariant forall k, l :: TroubledAt(pods, k, l) ==> i <= k
    {
      if pods[i].deleting {
        continue;
      }
      var statuses := pods[i].containers;
      for j := 0 to |statuses|
        invariant forall k, l :: TroubledAt(pods, k, l) ==> !Earlier(k, l, i, j)
      {
        var cs := statuses[j];
        if cs.name != CONTAINER {
          continue;
        }
        if cs.waiting.Some? && cs.waiting.value.reason != "" {
          assert TroubledAt(pods, i, j);
          return Health(true, false, cs.waiting.value.reason, "pod " + pods[i].name + " waiting: " + cs.waiting.value.message);
        }
        if cs.terminated.Some? && cs.terminated.value.reason != "" {
          assert TroubledAt(pods, i, j);
          return Health(true, false, cs.terminated.value.reason, "pod " + pods[i].name + " terminated: " + cs.terminated.value.message);
        }
      }
    }
    return RUNNING;
  }

  /** The answer is determined by the listing; it is healthy exactly when some pod is listed and
      no pod that is staying has a data-prepper container waiting or terminated with a reason;
      and a known answer always carries a reason. */
  lemma ReportsUnique(h: Health, h': Health, listing: Option<seq<Pod>>)
    requires Reports(h, listing) && Reports(h', listing)
    ensures h == h'
    ensures h.known <==> listing.Some?
    ensures h.healthy <==> listing.Some? && listing.value != [] && forall i, j :: !TroubledAt(listing.value, i, j)
    ensures h.known ==> h.reason != ""
  {
  }

  /** The answer for a listing of some pods, in terms of the pods alone.  It is healthy if and only if no staying
      pod has a container called data-prepper that waits or has terminated with a non-empty reason.  Otherwise
      reason and message are those of the first such container in listing order, the waiting state before
      the terminated one, and the message names its pod. */
  lemma HealthInFields(h: Health, pods: seq<Pod>)
    requires Reports(h, Some(pods)) && pods != []
    ensures h.known
    ensures h.healthy <==>
            (forall i, j ::
               (0 <= i < |pods| && 0 <= j < |pods[i].containers| && !pods[i].deleting && pods[i].containers[j].name == "data-prepper") ==>
               var cs := pods[i].containers[j];
               !(cs.waiting.Some? && cs.waiting.value.reason != "") && !(cs.terminated.Some? && cs.terminated.value.reason != ""))
    ensures h.healthy ==> h.reason == "DataPrepperRunning" && h.message == "all data-prepper containers running"
    ensures !h.healthy ==>
              (exists i, j ::
                 && 0 <= i < |pods| && 0 <= j < |pods[i].containers|
                 && !pods[i].deleting && pods[i].containers[j].name == "data-prepper"
                 && (forall k, l ::
                       (0 <= k < |pods| && 0 <= l < |pods[k].containers| && (k < i || (k == i && l < j))
                        && !pods[k].deleting && pods[k].containers[l].name == "data-prepper") ==>
                       var cs := pods[k].containers[l];
                       !(cs.waiting.Some? && cs.waiting.value.reason != "") && !(cs.terminated.Some? && cs.terminated.value.reason != ""))
                 && var cs := pods[i].containers[j];
                    if cs.waiting.Some? && cs.waiting.value.reason != ""
                    then h.reason == cs.waiting.value.reason
                         && h.message == "pod " + pods[i].name + " waiting: " + cs.waiting.value.message
                    else cs.terminated.Some? && cs.terminated.value.reason != "" && h.reason == cs.terminated.value.reason
                         && h.message == "pod " + pods[i].name + " terminated: " + cs.terminated.value.message)
  {
    if !h.healthy {
      var i, j :| TroubledAt(pods, i, j) && ComplaintOf(pods[i].name, pods[i].containers[j]) == h
                  && forall k, l :: TroubledAt(pods, k, l) ==> !Earlier(k, l, i, j);
      forall k, l | 0 <= k < |pods| && 0 <= l < |pods[k].containers| && (k < i || (k == i && l < j))
                    && !pods[k].deleting && pods[k].containers[l].name == "data-prepper"
        ensures !Stated(pods[k].containers[l].waiting) && !Stated(pods[k].containers[l].terminated)
      {
        assert Earlier(k, l, i, j) && !TroubledAt(pods, k, l);
      }
    } else {
      forall i, j | 0 <= i < |pods| && 0 <= j < |pods[i].containers|
                    && !pods[i].deleting && pods[i].containers[j].name == "data-prepper"
        ensures !Stated(pods[i].containers[j].waiting) && !Stated(pods[i].containers[j].terminated)
      {
        assert !TroubledAt(pods, i, j);
      }
    }
  }

  /** Without a listing nothing is known, and without pods that is what is reported. */
  lemma HealthWithoutPods(h: Health, listing: Option<seq<Pod>>)
    requires Reports(h, listing) && (listing.Some? ==> listing.value == [])
    ensures h.known <==> listing.Some?
    ensures !h.healthy
    ensures h.known ==> h.reason == "NoPods" && h.message == "no DataPrepper pods are scheduled"
  {
  }

  lemma ReportExists(listing: Option<seq<Pod>>)
    ensures exists h :: Reports(h, listing)
  {
    match listing
    case None =>
      assert Reports(UNKNOWN, listing);
    case Some(pods) =>
      if pods == [] {
        assert Reports(NO_PODS, listing);
      } else if exists i, j :: TroubledAt(pods, i, j) {
        var i, j :| TroubledAt(pods, i, j);
        var i', j' := FirstTrouble(pods, i, j);
        assert Reports(ComplaintOf(pods[i'].name, pods[i'].containers[j']), listing);
      } else {
        assert Reports(RUNNING, listing);
      }
  }

  lemma {:induction false} FirstTrouble(pods: seq<Pod>, i: int, j: int) returns (i': int, j': int)
    requires TroubledAt(pods, i, j)
    ensures TroubledAt(pods, i', j')
    ensures forall k, l :: TroubledAt(pods, k, l) ==> !Earlier(k, l, i', j')
    decreases i, j
  {
    if exists k, l :: TroubledAt(pods, k, l) && Earlier(k, l, i, j) {
      var k, l :| TroubledAt(pods, k, l) && Earlier(k, l, i, j);
      i', j' := FirstTrouble(pods, k, l);
    } else {
      i', j' := i, j;
    }
  }

  /** The health reported for a listing, as a function. */
  ghost function HealthOf(listing: Option<seq<Pod>>): (h: Health)
    ensures Reports(h, listing)
  {
    ReportExists(listing);
    var h :| Reports(h, listing);
    h
  }

  /** The pods carrying the cluster's `app` label, in listing order. */
  function PodsOf(pods: seq<Pod>, cluster: string): (r: seq<Pod>)
    ensures forall p :: p in r <==> p in pods && p.app == cluster
    ensures |r| <= |pods|
  {
    if pods == [] then []
    else (if pods[0].app == cluster then [pods[0]] else []) + PodsOf(pods[1..], cluster)
  }

  /** Where position `i` of the listing goes: after the selected pods listed before it. */
  function Position(pods: seq<Pod>, cluster: string, i: nat): nat
    requires i <= |pods|
  {
    |PodsOf(pods[..i], cluster)|
  }

  /** The selection keeps the listing order: it is the selection of any first part followed by that of
      the rest, so each selected pod comes right after the selected pods listed before it. */
  lemma {:induction false} SelectionKeepsOrder(pods: seq<Pod>, cluster: string, i: nat)
    requires i <= |pods|
    ensures PodsOf(pods, cluster) == PodsOf(pods[..i], cluster) + PodsOf(pods[i..], cluster)
    ensures i < |pods| && pods[i].app == cluster ==>
              Position(pods, cluster, i) < |PodsOf(pods, cluster)|
              && PodsOf(pods, cluster)[Position(pods, cluster, i)] == pods[i]
  {
    if i == 0 {
      assert pods[..0] == [] && pods[0..] == pods;
    } else {
      SelectionKeepsOrder(pods[1..], cluster, i - 1);
      assert pods[1..][..i - 1] == pods[..i][1..] && pods[1..][i - 1..] == pods[i..];
    }
  }
}
