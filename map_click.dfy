/** Resolving a map click to a danger zone: the nearest zone centre by planar
    Euclidean distance, taken only when it is closer than 0.2 degrees.
    Distances are compared squared, which orders them the same way as the
    square roots the dashboard takes. */
module MapClick {
  import opened Types

  /** The click tolerance 0.2, squared. */
  const ThresholdSq: real := 0.04

  /** Squared Euclidean distance from a zone centre to the clicked point. */
  function SqDist(z: Zone, clat: real, clon: real): (d: real)
    ensures d >= 0.0
  {
    (z.lat - clat) * (z.lat - clat) + (z.lon - clon) * (z.lon - clon)
  }

  /** For non-negative distances, comparing squares decides the same as
      comparing the distances themselves. */
  lemma SquaresOrderDistances(d: real, e: real)
    requires d >= 0.0 && e >= 0.0
    ensures d < e <==> d * d < e * e
  {
    if d < e {
      assert (e - d) * d >= 0.0;
      assert (e - d) * e > 0.0;
    } else {
      assert (d - e) * e >= 0.0;
      assert (d - e) * d >= 0.0;
    }
  }

  /** Hence the tolerance test on distances equals the test on squares. */
  lemma {:induction false} ThresholdOnSquares(d: real)
    requires d >= 0.0
    ensures d < 0.2 <==> d * d < ThresholdSq
  {
    SquaresOrderDistances(d, 0.2);
  }

  /** Zone `k` is the first zone, in enumeration order, at minimum distance. */
  predicate IsFirstNearest(zones: seq<Zone>, clat: real, clon: real, k: nat) {
    && k < |zones|
    && (forall j :: 0 <= j < |zones| ==> SqDist(zones[k], clat, clon) <= SqDist(zones[j], clat, clon))
    && (forall j :: 0 <= j < k ==> SqDist(zones[k], clat, clon) < SqDist(zones[j], clat, clon))
  }

  /** The click handler's scan: starting from an infinite minimum, a zone
      replaces the candidate only when strictly closer. Returns the index of
      the chosen zone (None when there are no zones) and its squared distance. */
  method NearestZone(zones: seq<Zone>, clat: real, clon: real) returns (closest: Option<nat>, minSq: real)
    ensures closest.None? <==> |zones| == 0
    ensures closest.Some? ==> IsFirstNearest(zones, clat, clon, closest.value)
    ensures closest.Some? ==> minSq == SqDist(zones[closest.value], clat, clon)
  {
    closest := None;
    minSq := 0.0;
    for i := 0 to |zones|
      invariant closest.None? <==> i == 0
      invariant closest.Some? ==> closest.value < i && minSq == SqDist(zones[closest.value], clat, clon)
      invariant closest.Some? ==> forall j :: 0 <= j < i ==> minSq <= SqDist(zones[j], clat, clon)
      invariant closest.Some? ==> forall j :: 0 <= j < closest.value ==> minSq < SqDist(zones[j], clat, clon)
    {
      var d := SqDist(zones[i], clat, clon);
      if closest.None? || d < minSq {
        minSq := d;
        closest := Some(i);
      }
    }
  }

  /** A click hits when the nearest zone is strictly within the tolerance. */
  predicate ClickHits(zones: seq<Zone>, clat: real, clon: real, k: nat)
    requires k < |zones|
  {
    SqDist(zones[k], clat, clon) < ThresholdSq
  }
}
