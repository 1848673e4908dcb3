/**
 * Tier derivation. A program with tiers stores its thresholds with a
 * default threshold 0 inserted in front, so a user with `p` points is in
 * the largest tier whose threshold is at most `p`; a program without
 * tiers keeps no thresholds and everybody stays in tier 0.
 */
module Tiers {

  /** Thresholds strictly increase with the tier index. */
  predicate Ascending(thresholds: seq<nat>)
  {
    forall i, j :: 0 <= i < j < |thresholds| ==> thresholds[i] < thresholds[j]
  }

  /** The stored thresholds of a program: the default tier 0 followed by the supplied ones. */
  function WithDefaultTier(supplied: seq<nat>): (r: seq<nat>)
    ensures |r| == |supplied| + 1 && r[0] == 0
    ensures forall i :: 0 < i < |r| ==> r[i] == supplied[i - 1]
  {
    [0] + supplied
  }

  /** The tier of a user holding `points` points: the last index whose threshold is reached. */
  function TierOf(thresholds: seq<nat>, points: nat): (t: nat)
    ensures thresholds == [] ==> t == 0
    ensures thresholds != [] ==> t < |thresholds|
    ensures t == 0 || thresholds[t] <= points
    ensures forall j :: t < j < |thresholds| ==> points < thresholds[j]
    decreases |thresholds|
  {
    if |thresholds| <= 1 then 0
    else if thresholds[|thresholds| - 1] <= points then |thresholds| - 1
    else TierOf(thresholds[..|thresholds| - 1], points)
  }

  /**
   * With ascending thresholds starting at 0, tier `i` is reached exactly
   * when its threshold is at most the points held.
   */
  lemma TierReachedIff(thresholds: seq<nat>, points: nat, i: nat)
    requires Ascending(thresholds) && thresholds != [] && thresholds[0] == 0
    requires i < |thresholds|
    ensures i <= TierOf(thresholds, points) <==> thresholds[i] <= points
  {
    var t := TierOf(thresholds, points);
    if i <= t && i > 0 {
      assert thresholds[i] <= thresholds[t];
    }
  }

  /** More points never mean a lower tier. */
  lemma TierMonotone(thresholds: seq<nat>, p: nat, q: nat)
    requires Ascending(thresholds) && thresholds != [] && thresholds[0] == 0
    requires p <= q
    ensures TierOf(thresholds, p) <= TierOf(thresholds, q)
  {
    var t := TierOf(thresholds, p);
    TierReachedIff(thresholds, p, t);
    TierReachedIff(thresholds, q, t);
  }

  /**
   * The tiers newly reached when points move from `p` to `q` are exactly
   * the indices between the old tier (exclusive) and the new tier
   * (inclusive): those whose threshold lies in (p, q].
   */
  lemma CrossedTiers(thresholds: seq<nat>, p: nat, q: nat, i: nat)
    requires Ascending(thresholds) && thresholds != [] && thresholds[0] == 0
    requires i < |thresholds|
    ensures TierOf(thresholds, p) < i <= TierOf(thresholds, q) <==> p < thresholds[i] <= q
  {
    TierReachedIff(thresholds, p, i);
    TierReachedIff(thresholds, q, i);
  }
}
