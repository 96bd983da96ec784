/** The validating webhooks, and what serialised admission keeps true of the store. */
module Admission {
  import opened Objects
  import opened Names
  import opened Watch
  import opened Merge

  // ---------- pipelines ----------

  datatype Denial =
    | KeyEmpty | NotObject | NoFields | NoSource | NoSink
    | KeyTaken(holder: string) | ListFailed

  datatype Verdict = Admit | Deny(why: Denial)

  /** What the webhook can see: no client at all, a failing list, or a listing. */
  datatype Client = NoClient | Failing | Listed(items: seq<Item>)

  function ValidateDefinition(spec: PipelineSpec): Verdict {
    if Blank(spec.yamlKey) then Deny(KeyEmpty)
    else match spec.definition
      case NotAnObject(_) => Deny(NotObject)
      case Object(fields) =>
        if |fields| == 0 then Deny(NoFields)
        else if "source" !in fields then Deny(NoSource)
        else if "sink" !in fields then Deny(NoSink)
        else Admit
  }

  predicate Clashes(name: string, spec: PipelineSpec, other: string, otherSpec: PipelineSpec) {
    other != name && otherSpec.clusterRef == spec.clusterRef && otherSpec.yamlKey == spec.yamlKey
  }

  /** The first listed pipeline that already uses the key. */
  function FirstClash(name: string, spec: PipelineSpec, items: seq<Item>): (r: Option<string>)
    ensures r == None <==> forall i :: 0 <= i < |items| ==> !Clashes(name, spec, items[i].name, items[i].pipeline.spec)
    ensures r.Some? ==> exists i :: 0 <= i < |items| && items[i].name == r.value
                                    && Clashes(name, spec, items[i].name, items[i].pipeline.spec)
                                    && forall j :: 0 <= j < i ==> !Clashes(name, spec, items[j].name, items[j].pipeline.spec)
  {
    if items == [] then None
    else if Clashes(name, spec, items[0].name, items[0].pipeline.spec) then Some(items[0].name)
    else
      var rest := FirstClash(name, spec, items[1..]);
      assert forall i :: 0 < i < |items| ==> items[i] == items[1..][i - 1];
      rest
  }

  function Validate(name: string, spec: PipelineSpec, client: Client): Verdict {
    var shape := ValidateDefinition(spec);
    if shape != Admit then shape
    else match client
      case NoClient => Admit
      case Failing => Deny(ListFailed)
      case Listed(items) =>
        match FirstClash(name, spec, items)
        case None => Admit
        case Some(other) => Deny(KeyTaken(other))
  }

  /** What admission means, with no listing in sight. */
  ghost predicate Admissible(m: map<string, Pipeline>, name: string, spec: PipelineSpec) {
    && GoodShape(spec)
    && forall k :: k in m ==> !Clashes(name, spec, k, m[k].spec)
  }

  predicate GoodShape(spec: PipelineSpec) {
    && WellFormed(spec)
    && "source" in spec.definition.fields && "sink" in spec.definition.fields
  }

  /** For every listing order the webhook admits exactly the admissible objects, and a denial
      for a taken key names a pipeline that holds it. */
  lemma ValidateExact(m: map<string, Pipeline>, items: seq<Item>, name: string, spec: PipelineSpec)
    requires Listing(items, m)
    ensures Validate(name, spec, Listed(items)) == Admit <==> Admissible(m, name, spec)
    ensures Validate(name, spec, NoClient) == Admit <==> GoodShape(spec)
    ensures forall k :: Validate(name, spec, Listed(items)) == Deny(KeyTaken(k)) ==>
              k in m && Clashes(name, spec, k, m[k].spec)
  {
  }

  /** What the webhook sees before it lists anything: the reasons it denies for, first to last, in terms of the object. */
  lemma ShapeReasons(name: string, spec: PipelineSpec, client: Client)
    ensures var v := Validate(name, spec, client);
            var blank := forall i :: 0 <= i < |spec.yamlKey| ==> IsSpace(spec.yamlKey[i]);
            && (v == Deny(KeyEmpty) <==> blank)
            && (v == Deny(NotObject) <==> !blank && spec.definition.NotAnObject?)
            && (v == Deny(NoFields) <==> !blank && spec.definition.Object? && spec.definition.fields == map[])
            && (v == Deny(NoSource) <==>
                  !blank && spec.definition.Object? && spec.definition.fields != map[] && "source" !in spec.definition.fields)
            && (v == Deny(NoSink) <==>
                  !blank && spec.definition.Object? && "source" in spec.definition.fields && "sink" !in spec.definition.fields)
  {
    if spec.definition.Object? {
      assert |spec.definition.fields| == 0 <==> spec.definition.fields == map[];
    }
  }

  /** Beyond its shape an object is denied exactly if the listing fails, or if another pipeline of the same cluster is listed
      with its key, and then the first such pipeline is named; without a client nothing more is asked. */
  lemma ListingReasons(name: string, spec: PipelineSpec, items: seq<Item>)
    requires Validate(name, spec, NoClient) == Admit
    ensures Validate(name, spec, Failing) == Deny(ListFailed)
    ensures Validate(name, spec, Listed(items)) == Admit <==>
              (forall i :: 0 <= i < |items| ==>
                 !(items[i].name != name && items[i].pipeline.spec.clusterRef == spec.clusterRef && items[i].pipeline.spec.yamlKey == spec.yamlKey))
    ensures forall k :: Validate(name, spec, Listed(items)) == Deny(KeyTaken(k)) ==>
              (exists i :: 0 <= i < |items| && items[i].name == k && k != name
                 && items[i].pipeline.spec.clusterRef == spec.clusterRef && items[i].pipeline.spec.yamlKey == spec.yamlKey
                 && (forall j :: 0 <= j < i ==>
                       !(items[j].name != name && items[j].pipeline.spec.clusterRef == spec.clusterRef
                         && items[j].pipeline.spec.yamlKey == spec.yamlKey)))
  {
  }

  /** What every admitted store satisfies: shapes are good, and keys are distinct per cluster,
      pipelines that are being deleted included. */
  ghost predicate AllAdmitted(m: map<string, Pipeline>) {
    && (forall n :: n in m ==> GoodShape(m[n].spec))
    && (forall n, k :: n in m && k in m && n != k && m[n].spec.clusterRef == m[k].spec.clusterRef ==>
          m[n].spec.yamlKey != m[k].spec.yamlKey)
  }

  /** One serialised create or update, controller updates included, keeps the invariant. */
  lemma AdmitKeeps(m: map<string, Pipeline>, n: string, p: Pipeline)
    requires AllAdmitted(m) && Admissible(m, n, p.spec)
    ensures AllAdmitted(m[n := p])
  {
  }

  lemma RemoveKeeps(m: map<string, Pipeline>, n: string)
    requires AllAdmitted(m)
    ensures AllAdmitted(m - {n})
  {
  }

  /** Whatever the order of the listing and whichever name is excluded, merging an admitted
      store never fails. */
  lemma AdmittedMerges(m: map<string, Pipeline>, c: string, exclude: Option<string>)
    requires AllAdmitted(m)
    ensures Mergeable(Active(m, c, exclude))
    ensures forall items :: Listing(items, m) ==> MergeableList(items, c, exclude)
  {
  }

  /** The controller's own updates change no spec, so they are always admitted again. */
  lemma OwnUpdatesReadmitted(m: map<string, Pipeline>, n: string)
    requires AllAdmitted(m) && n in m
    ensures Admissible(m, n, m[n].spec)
  {
  }

  predicate SameSlot(a: PipelineSpec, b: PipelineSpec) { a.clusterRef == b.clusterRef && a.yamlKey == b.yamlKey }

  /** Serialisation is needed, and exactly when: of two creates validated against the same listing both
      are let in; the store is still admitted if and only if they differ in cluster or key, which is
      when the second would have been admitted after the first; and, for live pipelines, if and only
      if any listing of their cluster can still be merged. */
  lemma ConcurrentAdmissionsBreakMerge(m: map<string, Pipeline>, a: string, b: string, pa: Pipeline, pb: Pipeline,
          items: seq<Item>)
    requires AllAdmitted(m) && a !in m && b !in m && a != b
    requires Admissible(m, a, pa.spec) && Admissible(m, b, pb.spec)
    requires Listing(items, m[a := pa][b := pb])
    ensures AllAdmitted(m[a := pa][b := pb]) <==> !SameSlot(pa.spec, pb.spec)
    ensures Admissible(m[a := pa], b, pb.spec) <==> !SameSlot(pa.spec, pb.spec)
    ensures !pa.deleting && !pb.deleting ==>
              (MergeableList(items, pa.spec.clusterRef, None) <==> !SameSlot(pa.spec, pb.spec))
  {
    var c, m1 := pa.spec.clusterRef, m[a := pa];
    var m' := m1[b := pb];
    assert m1[a] == pa && m'[a] == pa && m'[b] == pb;
    ListOrderIrrelevant(items, m', c, None);
    if SameSlot(pa.spec, pb.spec) {
      assert Clashes(b, pb.spec, a, m1[a].spec);
      assert !pa.deleting && !pb.deleting ==> a in Active(m', c, None) && b in Active(m', c, None);
    } else {
      AdmitKeeps(m, a, pa);
      AdmitKeeps(m1, b, pb);
      AdmittedMerges(m', c, None);
    }
  }

  // ---------- clusters ----------

  datatype ClusterVerdict = AdmitCluster | NoImageOrClass | ClassMissing(name: string) | MaxBelowReplicas

  function ValidateCluster(spec: ClusterSpec, classes: map<string, Class>): (v: ClusterVerdict)
    ensures v == AdmitCluster <==>
            && (spec.image != "" || spec.classRef != "")
            && (spec.classRef != "" ==> spec.classRef in classes)
            && (spec.autoscaling.Some? ==> spec.replicas <= spec.autoscaling.value.maxReplicas)
    ensures v.NoImageOrClass? ==> spec.image == spec.classRef == ""
    ensures v.ClassMissing? ==> v.name == spec.classRef != "" && spec.classRef !in classes
    ensures v.MaxBelowReplicas? ==> spec.autoscaling.Some? && spec.replicas > spec.autoscaling.value.maxReplicas
  {
    if spec.image == "" && spec.classRef == "" then NoImageOrClass
    else if spec.classRef != "" && spec.classRef !in classes then ClassMissing(spec.classRef)
    else if spec.autoscaling.Some? && spec.autoscaling.value.maxReplicas < spec.replicas then MaxBelowReplicas
    else AdmitCluster
  }
}
