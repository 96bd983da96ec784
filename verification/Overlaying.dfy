/** How the cluster controller rewrites a Deployment that already exists. */
module Overlaying {
  import opened Objects

  /** Everything comes from `desired`, except that an autoscaled Deployment keeps its replicas
      and a non-empty pipelines hash is carried over. */
  function Overlay(existing: Deployment, desired: Deployment, autoscaled: bool): Deployment {
    var preserved := Annotation(existing);
    existing.(
      replicas := if autoscaled then existing.replicas else desired.replicas,
      labels := desired.labels,
      annotations := if preserved != "" then desired.annotations[PipelinesHash := preserved] else desired.annotations,
      pod := desired.pod)
  }

  lemma OverlayKeepsHash(existing: Deployment, desired: Deployment, autoscaled: bool)
    requires Annotation(existing) != ""
    ensures Annotation(Overlay(existing, desired, autoscaled)) == Annotation(existing)
  {
  }
}
