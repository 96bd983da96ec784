/** Merging the pipelines of one cluster into one document. */
module Merge {
  import opened Objects
  import opened Names
  import opened Rendering
  import opened Watch

  // ---------- specification: on the set of pipelines, no order ----------

  /** The specs that count for cluster `c`: selecting it, not being deleted, not excluded.
      `None` stands for the empty exclude name, which no API object has. */
  function Active(m: map<string, Pipeline>, c: string, exclude: Option<string>): map<string, PipelineSpec> {
    map n | n in m && Chosen(n, m[n], c, exclude) :: m[n].spec
  }

  predicate Chosen(n: string, p: Pipeline, c: string, exclude: Option<string>) {
    exclude != Some(n) && p.spec.clusterRef == c && !p.deleting
  }

  /** The shape the merge loop insists on. */
  predicate WellFormed(spec: PipelineSpec) {
    !Blank(spec.yamlKey) && spec.definition.Object? && spec.definition.fields != map[]
  }

  ghost predicate Mergeable(a: map<string, PipelineSpec>) {
    && (forall n :: n in a ==> WellFormed(a[n]))
    && (forall n, k :: n in a && k in a && n != k ==> a[n].yamlKey != a[k].yamlKey)
  }

  function EntryOf(spec: PipelineSpec): Entry { Entry(spec.yamlKey, spec.definition) }

  function Entries(a: map<string, PipelineSpec>): (s: set<Entry>)
    ensures forall n :: n in a ==> EntryOf(a[n]) in s
    ensures Mergeable(a) ==> DistinctKeys(s)
  {
    set n | n in a :: EntryOf(a[n])
  }

  /** The document a rebuild should produce, or `None` when merging must fail. */
  ghost function ContentOf(a: map<string, PipelineSpec>): (r: Option<Content>)
    ensures r.Some? <==> Mergeable(a)
  {
    if Mergeable(a) then Some(Render(Entries(a))) else None
  }

  /** Excluding a pipeline that is already being deleted changes nothing. */
  lemma ExcludingDeletedIsIdle(m: map<string, Pipeline>, c: string, n: string)
    requires n in m ==> m[n].deleting
    ensures Active(m, c, Some(n)) == Active(m, c, None)
  {
  }

  // ---------- the loop ----------

  datatype MergeError = EmptyKey(name: string) | DuplicateKey(key: string) | Invalid(name: string) | Empty(name: string)

  datatype MergeResult = Merged(definitions: map<string, Definition>) | Refused(error: MergeError)

  ghost predicate ChosenAt(items: seq<Item>, i: int, c: string, exclude: Option<string>) {
    0 <= i < |items| && Chosen(items[i].name, items[i].pipeline, c, exclude)
  }

  /** The listing can be merged: chosen items are well formed and have distinct keys. */
  ghost predicate MergeableList(items: seq<Item>, c: string, exclude: Option<string>) {
    && (forall i :: ChosenAt(items, i, c, exclude) ==> WellFormed(items[i].pipeline.spec))
    && (forall i, j :: ChosenAt(items, i, c, exclude) && ChosenAt(items, j, c, exclude) && i != j ==>
          items[i].pipeline.spec.yamlKey != items[j].pipeline.spec.yamlKey)
  }

  /** `defs` maps the key of every chosen item to its definition, and holds nothing else. */
  ghost predicate CollectsList(defs: map<string, Definition>, items: seq<Item>, c: string, exclude: Option<string>) {
    && (forall i :: ChosenAt(items, i, c, exclude) ==>
          items[i].pipeline.spec.yamlKey in defs && defs[items[i].pipeline.spec.yamlKey] == items[i].pipeline.spec.definition)
    && (forall k :: k in defs ==> exists i :: ChosenAt(items, i, c, exclude) && items[i].pipeline.spec.yamlKey == k)
  }

  /** What is wrong with one chosen pipeline, given the definitions collected before it. */
  function Complaint(name: string, spec: PipelineSpec, defs: map<string, Definition>): (e: Option<MergeError>)
    ensures e == None <==> WellFormed(spec) && spec.yamlKey !in defs
  {
    if Blank(spec.yamlKey) then Some(EmptyKey(name))
    else if spec.yamlKey in defs then Some(DuplicateKey(spec.yamlKey))
    else if spec.definition.NotAnObject? then Some(Invalid(name))
    else if spec.definition.fields == map[] then Some(Empty(name))
    else None
  }

  /** Item `i` is the first that cannot be merged, for the reason `e`. */
  ghost predicate Blames(e: MergeError, items: seq<Item>, i: int, c: string, exclude: Option<string>) {
    && ChosenAt(items, i, c, exclude)
    && MergeableList(items[..i], c, exclude)
    && exists defs ::
         && CollectsList(defs, items[..i], c, exclude)
         && Complaint(items[i].name, items[i].pipeline.spec, defs) == Some(e)
  }

  /** An item counts for `c`, in terms of the item. */
  predicate Counts(item: Item, c: string, exclude: Option<string>) {
    item.pipeline.spec.clusterRef == c && !item.pipeline.deleting && exclude != Some(item.name)
  }

  /** A listing merges if and only if every item that counts has a key that is not blank, and a definition that is an object
      with at least one field, and no two of them have the same key. */
  lemma MergeableInFields(items: seq<Item>, c: string, exclude: Option<string>)
    ensures MergeableList(items, c, exclude) <==>
            && (forall i :: 0 <= i < |items| && Counts(items[i], c, exclude) ==>
                  var spec := items[i].pipeline.spec;
                  (exists k :: 0 <= k < |spec.yamlKey| && !IsSpace(spec.yamlKey[k]))
                  && spec.definition.Object? && spec.definition.fields != map[])
            && (forall i, j :: 0 <= i < j < |items| && Counts(items[i], c, exclude) && Counts(items[j], c, exclude) ==>
                  items[i].pipeline.spec.yamlKey != items[j].pipeline.spec.yamlKey)
  {
    assert forall i :: 0 <= i < |items| ==> (Counts(items[i], c, exclude) <==> ChosenAt(items, i, c, exclude));
  }

  /** The reason for a refusal, in terms of the blamed item and those before it: a blank key; else a key that an earlier item
      that counts has too; else a definition that is no object; else one without fields. */
  lemma BlameInFields(e: MergeError, items: seq<Item>, i: int, c: string, exclude: Option<string>)
    requires Blames(e, items, i, c, exclude)
    ensures 0 <= i < |items| && Counts(items[i], c, exclude)
    ensures var name, spec := items[i].name, items[i].pipeline.spec;
            var blank := forall k :: 0 <= k < |spec.yamlKey| ==> IsSpace(spec.yamlKey[k]);
            var taken := exists j :: 0 <= j < i && Counts(items[j], c, exclude) && items[j].pipeline.spec.yamlKey == spec.yamlKey;
            if blank then e == EmptyKey(name)
            else if taken then e == DuplicateKey(spec.yamlKey)
            else if spec.definition.NotAnObject? then e == Invalid(name)
            else spec.definition.fields == map[] && e == Empty(name)
  {
    var spec := items[i].pipeline.spec;
    var defs :| CollectsList(defs, items[..i], c, exclude) && Complaint(items[i].name, spec, defs) == Some(e);
    if spec.yamlKey in defs {
      var j :| ChosenAt(items[..i], j, c, exclude) && items[..i][j].pipeline.spec.yamlKey == spec.yamlKey;
      assert Counts(items[j], c, exclude) && items[j].pipeline.spec.yamlKey == spec.yamlKey;
    } else {
      forall j | 0 <= j < i && Counts(items[j], c, exclude)
        ensures items[j].pipeline.spec.yamlKey != spec.yamlKey
      {
        assert ChosenAt(items[..i], j, c, exclude);
      }
    }
  }

  method MergeDefinitions(items: seq<Item>, clusterRef: string, exclude: Option<string>) returns (r: MergeResult)
    ensures r.Merged? <==> MergeableList(items, clusterRef, exclude)
    ensures r.Merged? ==> CollectsList(r.definitions, items, clusterRef, exclude)
    ensures r.Refused? ==> exists i :: Blames(r.error, items, i, clusterRef, exclude)
  {
    var definitions: map<string, Definition> := map[];
    for i := 0 to |items|
      invariant MergeableList(items[..i], clusterRef, exclude)
      invariant CollectsList(definitions, items[..i], clusterRef, exclude)
    {
      var name, p := items[i].name, items[i].pipeline;
      if exclude == Some(name) || p.spec.clusterRef != clusterRef || p.deleting {
        Skip(definitions, items, i, clusterRef, exclude);
        continue;
      }
      var complaint := Complaint(name, p.spec, definitions);
      if complaint.Some? {
        Blocked(definitions, items, i, clusterRef, exclude);
        assert Blames(complaint.value, items, i, clusterRef, exclude);
        return Refused(complaint.value);
      }
      ExtendMergeable(definitions, items, i, clusterRef, exclude);
      ExtendCollects(definitions, items, i, clusterRef, exclude);
      definitions := definitions[p.spec.yamlKey := p.spec.definition];
    }
    assert items[..|items|] == items;
    r := Merged(definitions);
  }

  /** An item that is not chosen leaves the collection as it is. */
  lemma Skip(defs: map<string, Definition>, items: seq<Item>, i: int, c: string, exclude: Option<string>)
    requires 0 <= i < |items| && !ChosenAt(items, i, c, exclude)
    requires MergeableList(items[..i], c, exclude) && CollectsList(defs, items[..i], c, exclude)
    ensures MergeableList(items[..i + 1], c, exclude) && CollectsList(defs, items[..i + 1], c, exclude)
  {
  }

  /** One bad item is enough to make the whole list unmergeable. */
  lemma Blocked(defs: map<string, Definition>, items: seq<Item>, i: int, c: string, exclude: Option<string>)
    requires ChosenAt(items, i, c, exclude) && CollectsList(defs, items[..i], c, exclude)
    requires Complaint(items[i].name, items[i].pipeline.spec, defs).Some?
    ensures !MergeableList(items, c, exclude)
  {
  }

  /** The chosen items of a longer prefix: those of the shorter one and the new item. */
  lemma ChosenAtNext(items: seq<Item>, i: int, c: string, exclude: Option<string>, j: int)
    requires ChosenAt(items, i, c, exclude)
    ensures ChosenAt(items[..i + 1], j, c, exclude) <==> j == i || ChosenAt(items[..i], j, c, exclude)
    ensures ChosenAt(items[..i], j, c, exclude) ==> items[..i][j] == items[..i + 1][j] == items[j]
  {
  }

  /** A well-formed item with a fresh key can be added. */
  lemma ExtendMergeable(defs: map<string, Definition>, items: seq<Item>, i: int, c: string, exclude: Option<string>)
    requires ChosenAt(items, i, c, exclude)
    requires MergeableList(items[..i], c, exclude) && CollectsList(defs, items[..i], c, exclude)
    requires WellFormed(items[i].pipeline.spec) && items[i].pipeline.spec.yamlKey !in defs
    ensures MergeableList(items[..i + 1], c, exclude)
  {
    var longer := items[..i + 1];
    forall j {
      ChosenAtNext(items, i, c, exclude, j);
    }
    forall j | ChosenAt(longer, j, c, exclude) && j != i
      ensures longer[j].pipeline.spec.yamlKey in defs
    {
      assert ChosenAt(items[..i], j, c, exclude);
    }
  }

  /** And the collection then has its definition. */
  lemma ExtendCollects(defs: map<string, Definition>, items: seq<Item>, i: int, c: string, exclude: Option<string>)
    requires ChosenAt(items, i, c, exclude) && CollectsList(defs, items[..i], c, exclude)
    requires items[i].pipeline.spec.yamlKey !in defs
    ensures CollectsList(defs[items[i].pipeline.spec.yamlKey := items[i].pipeline.spec.definition], items[..i + 1], c, exclude)
  {
    var longer := items[..i + 1];
    var spec := items[i].pipeline.spec;
    forall j {
      ChosenAtNext(items, i, c, exclude, j);
    }
    forall k | k in defs
      ensures exists j :: ChosenAt(longer, j, c, exclude) && longer[j].pipeline.spec.yamlKey == k
    {
      var j :| ChosenAt(items[..i], j, c, exclude) && items[..i][j].pipeline.spec.yamlKey == k;
      assert ChosenAt(longer, j, c, exclude);
    }
    assert ChosenAt(longer, i, c, exclude) && longer[i] == items[i];
  }

  // ---------- the loop refines the specification ----------

  /** For every listing order, the loop succeeds exactly when the active pipelines are well
      formed with distinct keys, and its map is then their definitions. */
  lemma ListOrderIrrelevant(items: seq<Item>, m: map<string, Pipeline>, c: string, exclude: Option<string>)
    requires Listing(items, m)
    ensures MergeableList(items, c, exclude) <==> Mergeable(Active(m, c, exclude))
  {
    var a := Active(m, c, exclude);
    if MergeableList(items, c, exclude) {
      forall n | n in a
        ensures WellFormed(a[n])
      {
        var i := IndexOf(items, m, n);
        assert ChosenAt(items, i, c, exclude);
      }
      forall n, k | n in a && k in a && n != k
        ensures a[n].yamlKey != a[k].yamlKey
      {
        var i := IndexOf(items, m, n);
        var j := IndexOf(items, m, k);
        assert ChosenAt(items, i, c, exclude) && ChosenAt(items, j, c, exclude);
      }
    }
    if Mergeable(a) {
      forall i | ChosenAt(items, i, c, exclude)
        ensures WellFormed(items[i].pipeline.spec)
      {
        assert items[i].name in a;
      }
      forall i, j | ChosenAt(items, i, c, exclude) && ChosenAt(items, j, c, exclude) && i != j
        ensures items[i].pipeline.spec.yamlKey != items[j].pipeline.spec.yamlKey
      {
        assert items[i].name in a && items[j].name in a;
      }
    }
  }

  lemma IndexOf(items: seq<Item>, m: map<string, Pipeline>, n: string) returns (i: int)
    requires Listing(items, m) && n in m
    ensures 0 <= i < |items| && items[i] == Item(n, m[n])
  {
    i :| 0 <= i < |items| && items[i].name == n;
  }

  function EntriesOfMap(defs: map<string, Definition>): (s: set<Entry>)
    ensures DistinctKeys(s)
    ensures s == {} <==> defs == map[]
  {
    var s := set k | k in defs :: Entry(k, defs[k]);
    assert forall k :: k in defs ==> Entry(k, defs[k]) in s;
    s
  }

  lemma CollectedEntries(defs: map<string, Definition>, items: seq<Item>, m: map<string, Pipeline>, c: string,
          exclude: Option<string>)
    requires Listing(items, m) && CollectsList(defs, items, c, exclude)
    ensures EntriesOfMap(defs) == Entries(Active(m, c, exclude))
  {
    forall k | k in defs {
      CollectedIsActive(defs, items, m, c, exclude, k);
    }
    forall n | n in Active(m, c, exclude) {
      ActiveIsCollected(defs, items, m, c, exclude, n);
    }
  }

  lemma CollectedIsActive(defs: map<string, Definition>, items: seq<Item>, m: map<string, Pipeline>, c: string,
          exclude: Option<string>, k: string)
    requires Listing(items, m) && CollectsList(defs, items, c, exclude) && k in defs
    ensures Entry(k, defs[k]) in Entries(Active(m, c, exclude))
  {
    var i :| ChosenAt(items, i, c, exclude) && items[i].pipeline.spec.yamlKey == k;
    var a := Active(m, c, exclude);
    assert items[i].name in a;
    assert Entry(k, defs[k]) == EntryOf(a[items[i].name]);
  }

  lemma ActiveIsCollected(defs: map<string, Definition>, items: seq<Item>, m: map<string, Pipeline>, c: string,
          exclude: Option<string>, n: string)
    requires Listing(items, m) && CollectsList(defs, items, c, exclude) && n in Active(m, c, exclude)
    ensures EntryOf(Active(m, c, exclude)[n]) in EntriesOfMap(defs)
  {
    var i := IndexOf(items, m, n);
    assert ChosenAt(items, i, c, exclude);
  }

  /** Lines 218-253 of rebuildClusterConfig: the result does not depend on the listing order. */
  method CollectContent(items: seq<Item>, ghost m: map<string, Pipeline>, clusterRef: string, exclude: Option<string>)
    returns (r: Option<Content>)
    requires Listing(items, m)
    ensures r == ContentOf(Active(m, clusterRef, exclude))
  {
    var merged := MergeDefinitions(items, clusterRef, exclude);
    ListOrderIrrelevant(items, m, clusterRef, exclude);
    match merged
    case Refused(_) =>
      r := None;
    case Merged(definitions) =>
      CollectedEntries(definitions, items, m, clusterRef, exclude);
      var content := PLACEHOLDER;
      if |definitions| > 0 {
        content := Rendered(Sorted(EntriesOfMap(definitions)));
      }
      r := Some(content);
  }

  /** Two listings of the same pipelines render to the same content, for any two sequences the
      YAML library might produce that are sorted and hold the collected entries. */
  lemma RenderedTextUnique(items: seq<Item>, items': seq<Item>, m: map<string, Pipeline>, c: string,
          exclude: Option<string>,
                           defs: map<string, Definition>, defs': map<string, Definition>, out: seq<Entry>, out': seq<Entry>)
    requires Listing(items, m) && Listing(items', m)
    requires CollectsList(defs, items, c, exclude) && CollectsList(defs', items', c, exclude)
    requires StrictlySorted(out) && forall e :: e in out <==> e in EntriesOfMap(defs)
    requires StrictlySorted(out') && forall e :: e in out' <==> e in EntriesOfMap(defs')
    ensures defs == defs' && out == out'
  {
    CollectedEntries(defs, items, m, c, exclude);
    CollectedEntries(defs', items', m, c, exclude);
    SortedUnique(out, out');
    EntriesDetermineMap(defs, defs');
  }

  lemma EntriesDetermineMap(defs: map<string, Definition>, defs': map<string, Definition>)
    requires EntriesOfMap(defs) == EntriesOfMap(defs')
    ensures defs == defs'
  {
    forall k
      ensures k in defs <==> k in defs'
      ensures k in defs ==> defs[k] == defs'[k]
    {
      if k in defs { assert Entry(k, defs[k]) in EntriesOfMap(defs'); }
      if k in defs' { assert Entry(k, defs'[k]) in EntriesOfMap(defs); }
    }
  }

  // ---------- the count the cluster controller reports ----------

  method CountPipelines(items: seq<Item>, ghost m: map<string, Pipeline>, clusterName: string) returns (count: nat)
    requires Listing(items, m)
    ensures count == |Active(m, clusterName, None)|
  {
    count := 0;
    ghost var seen: set<string> := {};
    for i := 0 to |items|
      invariant forall n :: n in seen <==> exists j :: 0 <= j < i && items[j].name == n && Chosen(n, items[j].pipeline, clusterName, None)
      invariant count == |seen|
    {
      if items[i].pipeline.spec.clusterRef == clusterName && !items[i].pipeline.deleting {
        assert items[i].name !in seen;
        seen := seen + {items[i].name};
        count := count + 1;
      }
    }
    forall n
      ensures n in seen <==> n in Active(m, clusterName, None)
    {
      if n in Active(m, clusterName, None) {
        var j := IndexOf(items, m, n);
      }
    }
    assert seen == Active(m, clusterName, None).Keys;
  }

  /** Whenever a rebuild with no exclusion succeeds, the reported count is zero exactly when the
      placeholder is chosen, and otherwise it is the number of top-level keys rendered.  The
      placeholder itself has one key, which is counted as no pipeline. */
  lemma CountMatchesContent(m: map<string, Pipeline>, c: string)
    requires Mergeable(Active(m, c, None))
    ensures var a := Active(m, c, None);
            var content := ContentOf(a).value;
            && (|a| == 0 <==> content == PLACEHOLDER)
            && (|a| != 0 ==> |TopKeys(content)| == |a| && TopKeys(content) == KeysOf(a, a.Keys))
            && (|a| == 0 ==> TopKeys(content) == {PLACEHOLDER_KEY})
  {
    var a := Active(m, c, None);
    EntriesEmpty(a);
    if a != map[] {
      TopKeysAre(a);
      KeyImage(a, a.Keys);
      assert |a| == |a.Keys|;
    }
  }

  lemma EntriesEmpty(a: map<string, PipelineSpec>)
    ensures Entries(a) == {} <==> |a| == 0
  {
  }

  function KeysOf(a: map<string, PipelineSpec>, names: set<string>): set<string>
    requires names <= a.Keys
  {
    set n | n in names :: a[n].yamlKey
  }

  /** The top-level keys of the document are the keys of the active pipelines. */
  lemma TopKeysAre(a: map<string, PipelineSpec>)
    requires Mergeable(a) && a != map[]
    ensures TopKeys(ContentOf(a).value) == KeysOf(a, a.Keys)
  {
  }

  lemma {:induction false} KeyImage(a: map<string, PipelineSpec>, names: set<string>)
    requires names <= a.Keys
    requires forall n, k :: n in a && k in a && n != k ==> a[n].yamlKey != a[k].yamlKey
    ensures |KeysOf(a, names)| == |names|
  {
    if names != {} {
      var x :| x in names;
      var rest := names - {x};
      KeyImage(a, rest);
      assert KeysOf(a, names) == KeysOf(a, rest) + {a[x].yamlKey};
      assert a[x].yamlKey !in KeysOf(a, rest);
    }
  }
}
