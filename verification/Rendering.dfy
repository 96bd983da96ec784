/** Rendering definitions to YAML.  Go maps have no order; `yaml.Marshal` sorts by key, so the
    rendered text is modelled by the sequence of entries in key order. */
module Rendering {
  import opened Objects

  /** Strict lexicographic order on keys. */
  predicate Before(a: string, b: string) {
    b != [] && (a == [] || a[0] < b[0] || (a[0] == b[0] && Before(a[1..], b[1..])))
  }

  lemma {:induction false} BeforeTotal(a: string, b: string)
    ensures a == b || Before(a, b) || Before(b, a)
    ensures !(Before(a, b) && Before(b, a))
    ensures !Before(a, a)
  {
    if a != [] {
      BeforeTotal(a[1..], if b == [] then [] else b[1..]);
      if b != [] && a[0] == b[0] && a[1..] == b[1..] {
        assert a == [a[0]] + a[1..] && b == [b[0]] + b[1..];
      }
    }
  }

  lemma {:induction false} BeforeTransitive(a: string, b: string, c: string)
    requires Before(a, b) && Before(b, c)
    ensures Before(a, c)
  {
    if a != [] && a[0] == b[0] && b[0] == c[0] {
      BeforeTransitive(a[1..], b[1..], c[1..]);
    }
  }

  ghost predicate DistinctKeys(s: set<Entry>) {
    forall x, y :: x in s && y in s && x.key == y.key ==> x == y
  }

  predicate IsFirst(e: Entry, s: set<Entry>) {
    e in s && forall x :: x in s && x != e ==> Before(e.key, x.key)
  }

  ghost predicate StrictlySorted(r: seq<Entry>) {
    forall i, j :: 0 <= i < j < |r| ==> Before(r[i].key, r[j].key)
  }

  lemma {:induction false} FirstExists(s: set<Entry>)
    requires s != {} && DistinctKeys(s)
    ensures exists e :: IsFirst(e, s)
  {
    var x :| x in s;
    if s == {x} {
      assert IsFirst(x, s);
    } else {
      var rest := s - {x};
      assert s == rest + {x};
      FirstExists(rest);
      var y :| IsFirst(y, rest);
      BeforeTotal(x.key, y.key);
      if Before(x.key, y.key) {
        forall z | z in rest && z != y { BeforeTransitive(x.key, y.key, z.key); }
        assert IsFirst(x, s);
      } else {
        assert IsFirst(y, s);
      }
    }
  }

  lemma FirstUnique(s: set<Entry>)
    ensures forall x, y :: IsFirst(x, s) && IsFirst(y, s) ==> x == y
  {
    forall x, y | IsFirst(x, s) && IsFirst(y, s)
      ensures x == y
    {
      BeforeTotal(x.key, y.key);
    }
  }

  /** The entries in key order. */
  function Sorted(s: set<Entry>): (r: seq<Entry>)
    requires DistinctKeys(s)
    ensures StrictlySorted(r)
    ensures forall e :: e in r <==> e in s
    ensures |r| == |s|
  {
    if s == {} then []
    else
      FirstExists(s);
      FirstUnique(s);
      var e :| IsFirst(e, s);
      [e] + Sorted(s - {e})
  }

  /** Only one sequence is sorted and has the given entries, so any correct sort renders the
      same text. */
  lemma {:induction false} SortedUnique(a: seq<Entry>, b: seq<Entry>)
    requires StrictlySorted(a) && StrictlySorted(b)
    requires forall e :: e in a <==> e in b
    ensures a == b
  {
    assert a != [] ==> a[0] in b;
    assert b != [] ==> b[0] in a;
    if a != [] {
      FirstIsLeast(a);
      FirstIsLeast(b);
      BeforeTotal(a[0].key, b[0].key);
      assert a[0] == b[0];
      forall e
        ensures e in a[1..] <==> e in b[1..]
      {
        TailMembers(a, e);
        TailMembers(b, e);
      }
      SortedUnique(a[1..], b[1..]);
      assert a == [a[0]] + a[1..] && b == [b[0]] + b[1..];
    }
  }

  lemma FirstIsLeast(a: seq<Entry>)
    requires StrictlySorted(a) && a != []
    ensures forall e :: e in a ==> e == a[0] || Before(a[0].key, e.key)
  {
  }

  lemma TailMembers(a: seq<Entry>, e: Entry)
    requires StrictlySorted(a) && a != []
    ensures e in a[1..] <==> e in a && e != a[0]
  {
    BeforeTotal(a[0].key, a[0].key);
    assert a == [a[0]] + a[1..];
  }

  /** What rebuild writes for a set of definitions. */
  function Render(s: set<Entry>): (c: Content)
    requires DistinctKeys(s)
    ensures c == PLACEHOLDER <==> s == {}
  {
    if s == {} then PLACEHOLDER else Rendered(Sorted(s))
  }

  /** Rendering loses nothing: equal contents come from equal sets of definitions. */
  lemma RenderInjective(s: set<Entry>, t: set<Entry>)
    requires DistinctKeys(s) && DistinctKeys(t) && Render(s) == Render(t)
    ensures s == t
  {
  }

  /** The top-level keys of a content. */
  function TopKeys(c: Content): set<string> {
    match c
    case Text(_, keys) => keys
    case Rendered(entries) => set e | e in entries :: e.key
  }
}
