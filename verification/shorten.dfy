/** Display shortening of cluster names: GKE names lose their project,
    zone and `gke` prefix segments; EKS ARNs are reduced to the cluster name. */
module Shorten {
  import opened Wrappers
  import opened Strings
  import opened Arn

  const GkePrefix: string := "gke"

  /** Splitting off three pieces: a string with at least three separators
      is its first three pieces, each followed by the separator, and then
      the rest of the pieces joined. */
  lemma {:induction false} DropThreePieces(s: string, c: char)
    requires Count(s, c) >= 3
    ensures var parts := Split(s, c);
            var rest := Join(parts[3..], c);
            s == parts[0] + [c] + parts[1] + [c] + parts[2] + [c] + rest
            && Count(s[..|s| - |rest|], c) == 3
  {
    var parts := Split(s, c);
    var rest := Join(parts[3..], c);
    assert parts[1..][1..] == parts[2..];
    assert parts[2..][1..] == parts[3..];
    assert Join(parts, c) == parts[0] + [c] + Join(parts[1..], c);
    assert Join(parts[1..], c) == parts[1] + [c] + Join(parts[2..], c);
    assert Join(parts[2..], c) == parts[2] + [c] + rest;
    var head := parts[0] + [c] + parts[1] + [c] + parts[2] + [c];
    assert s == head + rest;
    assert s[..|s| - |rest|] == head;
    CountZero(parts[0], c);
    CountZero(parts[1], c);
    CountZero(parts[2], c);
    CountConcat(parts[0], [c], c);
    CountConcat(parts[0] + [c], parts[1], c);
    CountConcat(parts[0] + [c] + parts[1], [c], c);
    CountConcat(parts[0] + [c] + parts[1] + [c], parts[2], c);
    CountConcat(parts[0] + [c] + parts[1] + [c] + parts[2], [c], c);
  }

  /** GKE shortening: with the flag on, a cluster starting with `gke` that
      splits into more than three `_` pieces keeps only the text after its
      third `_`; every other cluster is unchanged. */
  function ShortenGke(cluster: string, enabled: bool): (r: string)
    ensures !(enabled && GkePrefix <= cluster && Count(cluster, '_') >= 3) ==> r == cluster
    ensures enabled && GkePrefix <= cluster && Count(cluster, '_') >= 3 ==>
              |r| + 3 <= |cluster| && IsSuffix(r, cluster)
              && Count(cluster[..|cluster| - |r|], '_') == 3 && cluster[|cluster| - |r| - 1] == '_'
    ensures r != cluster <==> enabled && GkePrefix <= cluster && Count(cluster, '_') >= 3
  {
    if GkePrefix <= cluster && enabled then
      var segments := Split(cluster, '_');
      if |segments| > 3 then
        DropThreePieces(cluster, '_');
        Join(segments[3..], '_')
      else cluster
    else cluster
  }

  /** The ARN replacement: the name after `cluster/` for a name matching
      the EKS ARN pattern, the name itself otherwise. */
  function ArnClusterName(cluster: string): (r: string)
    ensures (forall p :: WellFormed(p) ==> Render(p) != cluster) ==> r == cluster
    ensures IsSuffix(r, cluster)
  {
    match ParseArn(cluster)
    case Some(parts) =>
      NameIsSuffix(parts);
      parts.name
    case None => cluster
  }

  /** EKS shortening: with the flag on, a cluster name matching the EKS
      ARN pattern becomes the text after `cluster/`; a name that is not a
      well-formed ARN is never changed, and the result is always a suffix
      of the input. */
  function ShortenEks(cluster: string, enabled: bool): (r: string)
    ensures !enabled ==> r == cluster
    ensures (forall p :: WellFormed(p) ==> Render(p) != cluster) ==> r == cluster
    ensures IsSuffix(r, cluster)
  {
    if enabled then ArnClusterName(cluster) else cluster
  }

  /** A well-formed EKS ARN shortens to its cluster name when the flag is on. */
  lemma ShortenEksOnArn(p: ArnParts, enabled: bool)
    requires WellFormed(p)
    ensures ShortenEks(Render(p), enabled) == if enabled then p.name else Render(p)
  {
    ParseArnComplete(p);
  }

  /** The displayed cluster: GKE shortening first, then EKS shortening of
      its output. The result is a suffix of the configured cluster. */
  function DisplayCluster(cluster: string, shortenGke: bool, shortenEks: bool): (r: string)
    ensures IsSuffix(r, cluster)
  {
    var gke := ShortenGke(cluster, shortenGke);
    assert IsSuffix(gke, cluster);
    var r := ShortenEks(gke, shortenEks);
    SuffixTransitive(r, gke, cluster);
    r
  }
}
