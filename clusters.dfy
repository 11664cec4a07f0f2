/**
 * `assign_cluster`: the nearest centroid to a scaled feature row. The
 * scaling and the Euclidean norm are a given `distance` function; what is
 * modelled is the scan that keeps the first centroid at the least distance.
 */
module Clusters {
  import opened Wrappers

  /**
   * The index of the first least element: no element is smaller, and every
   * element before it is strictly larger.
   */
  function FirstArgMin(d: seq<real>): (k: nat)
    requires |d| > 0
    ensures k < |d|
    ensures forall j :: 0 <= j < |d| ==> d[k] <= d[j]
    ensures forall j :: 0 <= j < k ==> d[j] > d[k]
  {
    if |d| == 1 then 0
    else
      var n := |d| - 1;
      var k := FirstArgMin(d[..n]);
      assert forall j :: 0 <= j < n ==> d[..n][j] == d[j];
      if d[n] < d[k] then n else k
  }

  /** There is only one first least element. */
  lemma FirstArgMinUnique(d: seq<real>, k: nat)
    requires k < |d|
    requires forall j :: 0 <= j < |d| ==> d[k] <= d[j]
    requires forall j :: 0 <= j < k ==> d[j] > d[k]
    ensures k == FirstArgMin(d)
  {
    var m := FirstArgMin(d);
    assert d[k] <= d[m] && d[m] <= d[k];
  }

  /** The distance of every centroid, in iteration order. */
  function Distances<K, C>(centroids: seq<(K, C)>, distance: C -> real): (d: seq<real>)
    ensures |d| == |centroids|
    ensures forall i :: 0 <= i < |d| ==> d[i] == distance(centroids[i].1)
  {
    seq(|centroids|, i requires 0 <= i < |centroids| => distance(centroids[i].1))
  }

  /**
   * The scan over `cluster_centroids.items()`: a centroid replaces the one
   * kept so far only when it is strictly closer, so among equally close
   * centroids the first one wins. No centroids, no cluster.
   */
  method AssignCluster<K, C>(centroids: seq<(K, C)>, distance: C -> real) returns (chosen: Option<K>)
    ensures chosen.None? <==> centroids == []
    ensures centroids != [] ==>
      chosen == Some(centroids[FirstArgMin(Distances(centroids, distance))].0)
  {
    ghost var d := Distances(centroids, distance);
    chosen := None;
    var minDist: real := 0.0;
    ghost var best: nat := 0;
    for i := 0 to |centroids|
      invariant chosen.None? <==> i == 0
      invariant i > 0 ==> best == FirstArgMin(d[..i])
      invariant i > 0 ==> chosen == Some(centroids[best].0) && minDist == d[best]
    {
      var (cluster, centroid) := centroids[i];
      var dist := distance(centroid);
      assert d[..i + 1][..i] == d[..i];
      assert d[..i + 1][i] == dist;
      if chosen.None? || dist < minDist {
        minDist := dist;
        chosen := Some(cluster);
        best := i;
      }
    }
    assert d[..|centroids|] == d;
  }
}
