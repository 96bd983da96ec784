/** Object names derived from a cluster name, and the string tests the controllers use. */
module Names {

  const PIPELINES_SUFFIX := "-pipelines"
  const PEER_SUFFIX := "-peer-config"
  const HEADLESS_SUFFIX := "-headless"

  function ConfigMapName(cluster: string): string { cluster + PIPELINES_SUFFIX }

  function PeerConfigMapName(cluster: string): string { cluster + PEER_SUFFIX }

  function HeadlessName(cluster: string): string { cluster + HEADLESS_SUFFIX }

  predicate HasSuffix(s: string, suffix: string) {
    |suffix| <= |s| && s[|s| - |suffix|..] == suffix
  }

  function TrimSuffix(s: string, suffix: string): string {
    if HasSuffix(s, suffix) then s[..|s| - |suffix|] else s
  }

  /** The characters removed by `strings.TrimSpace`. */
  predicate IsSpace(c: char) {
    || '\t' <= c <= '\r' || c == ' ' || c == '\U{85}' || c == '\U{A0}' || c == '\U{1680}'
    || '\U{2000}' <= c <= '\U{200A}' || c == '\U{2028}' || c == '\U{2029}'
    || c == '\U{202F}' || c == '\U{205F}' || c == '\U{3000}'
  }

  /** `strings.TrimSpace(s) == ""` */
  predicate Blank(s: string) {
    forall i :: 0 <= i < |s| ==> IsSpace(s[i])
  }

  /** Suffixing then trimming is the identity, and so is trimming then suffixing. */
  lemma SuffixRoundTrip(s: string, suffix: string)
    ensures HasSuffix(s + suffix, suffix) && TrimSuffix(s + suffix, suffix) == s
    ensures HasSuffix(s, suffix) ==> TrimSuffix(s, suffix) + suffix == s
  {
  }

  /** Pipelines ConfigMap names are injective in the cluster name. */
  lemma ConfigMapNamesInjective()
    ensures forall a, b :: ConfigMapName(a) == ConfigMapName(b) ==> a == b
  {
    forall a, b | ConfigMapName(a) == ConfigMapName(b)
      ensures a == b
    {
      SuffixRoundTrip(a, PIPELINES_SUFFIX);
      SuffixRoundTrip(b, PIPELINES_SUFFIX);
    }
  }

  lemma PeerNamesInjective()
    ensures forall a, b :: PeerConfigMapName(a) == PeerConfigMapName(b) ==> a == b
  {
    forall a, b | PeerConfigMapName(a) == PeerConfigMapName(b)
      ensures a == b
    {
      SuffixRoundTrip(a, PEER_SUFFIX);
      SuffixRoundTrip(b, PEER_SUFFIX);
    }
  }

  /** No pipelines ConfigMap is the peer ConfigMap of any cluster: the last letters differ. */
  lemma PeerNamesDisjoint()
    ensures forall a, b :: ConfigMapName(a) != PeerConfigMapName(b)
  {
    forall a, b
      ensures ConfigMapName(a) != PeerConfigMapName(b)
    {
      var x, y := ConfigMapName(a), PeerConfigMapName(b);
      assert x[|x| - 1] == 's' && y[|y| - 1] == 'g';
    }
  }
}
