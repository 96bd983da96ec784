/** Listing pipelines, and mapping watch events to reconcile requests. */
module Watch {
  import opened Objects
  import opened Names

  datatype Item = Item(name: string, pipeline: Pipeline)

  /** `items` is one answer the API server may give when asked to list `m`: every pipeline
      once, in any order. */
  ghost predicate Listing(items: seq<Item>, m: map<string, Pipeline>) {
    && (forall i :: 0 <= i < |items| ==> items[i].name in m && m[items[i].name] == items[i].pipeline)
    && (forall n :: n in m ==> exists i :: 0 <= i < |items| && items[i].name == n)
    && (forall i, j :: 0 <= i < j < |items| ==> items[i].name != items[j].name)
  }

  /** The pipelines that select cluster `c`. */
  function Members(m: map<string, Pipeline>, c: string): set<string> {
    set n | n in m && m[n].spec.clusterRef == c
  }

  /** The pipelines enqueued by an event on the ConfigMap called `cmName`. */
  function EventTargets(m: map<string, Pipeline>, cmName: string): set<string> {
    if HasSuffix(cmName, PIPELINES_SUFFIX)
    then Members(m, TrimSuffix(cmName, PIPELINES_SUFFIX)) else {}
  }

  /** `requests` names, in listing order, exactly the listed pipelines that select `c`. */
  ghost predicate SelectsInOrder(requests: seq<string>, items: seq<Item>, c: string) {
    if items == [] then requests == []
    else
      var last := items[|items| - 1];
      if last.pipeline.spec.clusterRef == c
      then
        && requests != []
        && requests[|requests| - 1] == last.name
        && SelectsInOrder(requests[..|requests| - 1], items[..|items| - 1], c)
      else SelectsInOrder(requests, items[..|items| - 1], c)
  }

  method FindPipelinesForCluster(clusterName: string, items: seq<Item>) returns (requests: seq<string>)
    ensures SelectsInOrder(requests, items, clusterName)
  {
    requests := [];
    for i := 0 to |items|
      invariant SelectsInOrder(requests, items[..i], clusterName)
    {
      assert items[..i + 1][..i] == items[..i];
      if items[i].pipeline.spec.clusterRef == clusterName {
        assert (requests + [items[i].name])[..|requests|] == requests;
        requests := requests + [items[i].name];
      }
    }
    assert items[..|items|] == items;
  }

  method FindPipelinesForConfigMap(cmName: string, items: seq<Item>) returns (requests: seq<string>)
    ensures if HasSuffix(cmName, PIPELINES_SUFFIX)
            then SelectsInOrder(requests, items, TrimSuffix(cmName, PIPELINES_SUFFIX))
            else requests == []
  {
    requests := [];
    if !HasSuffix(cmName, PIPELINES_SUFFIX) {
      return;
    }
    var clusterName := TrimSuffix(cmName, PIPELINES_SUFFIX);
    for i := 0 to |items|
      invariant SelectsInOrder(requests, items[..i], clusterName)
    {
      assert items[..i + 1][..i] == items[..i];
      if items[i].pipeline.spec.clusterRef == clusterName {
        assert (requests + [items[i].name])[..|requests|] == requests;
        requests := requests + [items[i].name];
      }
    }
    assert items[..|items|] == items;
  }

  lemma {:induction false} SelectionByName(requests: seq<string>, items: seq<Item>, c: string, n: string)
    requires SelectsInOrder(requests, items, c)
    ensures n in requests <==> exists i :: 0 <= i < |items| && items[i].name == n && items[i].pipeline.spec.clusterRef == c
  {
    if items != [] {
      var front, last := items[..|items| - 1], items[|items| - 1];
      if last.pipeline.spec.clusterRef == c {
        var k := |requests| - 1;
        assert requests == requests[..k] + [requests[k]];
        SelectionByName(requests[..k], front, c, n);
      } else {
        SelectionByName(requests, front, c, n);
      }
      assert items == front + [last];
    }
  }

  lemma {:induction false} SelectionDistinct(requests: seq<string>, items: seq<Item>, c: string)
    requires SelectsInOrder(requests, items, c)
    requires forall i, j :: 0 <= i < j < |items| ==> items[i].name != items[j].name
    ensures forall i, j :: 0 <= i < j < |requests| ==> requests[i] != requests[j]
  {
    if items != [] {
      var front, last := items[..|items| - 1], items[|items| - 1];
      if last.pipeline.spec.clusterRef == c {
        var k := |requests| - 1;
        SelectionDistinct(requests[..k], front, c);
        SelectionByName(requests[..k], front, c, last.name);
        assert requests[k] !in requests[..k];
        forall i | 0 <= i < k
          ensures requests[i] != requests[k]
        {
          assert requests[..k][i] == requests[i];
        }
      } else {
        SelectionDistinct(requests, front, c);
      }
    }
  }

  /** Whatever the listing order, the requests are the selecting pipelines, once each. */
  lemma SelectionIsMembers(m: map<string, Pipeline>, items: seq<Item>, c: string, requests: seq<string>)
    requires Listing(items, m) && SelectsInOrder(requests, items, c)
    ensures (set n | n in requests) == Members(m, c)
    ensures |requests| == |Members(m, c)|
  {
    forall n
      ensures n in requests <==> n in Members(m, c)
    {
      SelectionByName(requests, items, c, n);
    }
    SelectionDistinct(requests, items, c);
    DistinctSize(requests);
    assert (set n | n in requests) == Members(m, c);
  }

  /** The watch mapping is exact: whatever the listing order, an event on the ConfigMap that a
      rebuild of `c` writes enqueues, once each, exactly the pipelines selecting `c`, the same
      pipelines as an event on the cluster itself; and an event on the peer ConfigMap of any
      cluster enqueues nothing. */
  lemma WatchMappingExact(m: map<string, Pipeline>, items: seq<Item>, c: string,
                          byConfigMap: seq<string>, byCluster: seq<string>)
    requires Listing(items, m)
    requires SelectsInOrder(byConfigMap, items, TrimSuffix(ConfigMapName(c), PIPELINES_SUFFIX))
    requires SelectsInOrder(byCluster, items, c)
    ensures HasSuffix(ConfigMapName(c), PIPELINES_SUFFIX)
    ensures (set n | n in byConfigMap) == (set n | n in byCluster) == Members(m, c)
    ensures |byConfigMap| == |byCluster| == |Members(m, c)|
    ensures EventTargets(m, ConfigMapName(c)) == Members(m, c)
    ensures forall d :: EventTargets(m, PeerConfigMapName(d)) == {}
  {
    SuffixRoundTrip(c, PIPELINES_SUFFIX);
    SelectionIsMembers(m, items, c, byConfigMap);
    SelectionIsMembers(m, items, c, byCluster);
    forall d {
      PeerEventsIgnored(m, d);
    }
  }

  lemma PeerEventsIgnored(m: map<string, Pipeline>, d: string)
    ensures EventTargets(m, PeerConfigMapName(d)) == {}
  {
    var name := PeerConfigMapName(d);
    PeerNamesDisjoint();
    SuffixRoundTrip(name, PIPELINES_SUFFIX);
    assert name != ConfigMapName(TrimSuffix(name, PIPELINES_SUFFIX));
  }

  lemma {:induction false} DistinctSize(s: seq<string>)
    requires forall i, j :: 0 <= i < j < |s| ==> s[i] != s[j]
    ensures |set n | n in s| == |s|
  {
    if s == [] {
      assert (set n | n in s) == {};
    } else {
      var k := |s| - 1;
      DistinctSize(s[..k]);
      assert (set n | n in s) == (set n | n in s[..k]) + {s[k]};
    }
  }

  /** Event targets of a cluster's own ConfigMap, without mentioning listings. */
  lemma TargetsOfOwnConfigMap(m: map<string, Pipeline>, c: string)
    ensures EventTargets(m, ConfigMapName(c)) == Members(m, c)
  {
  }
}
