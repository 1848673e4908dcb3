/**
 * The part of every reward condition that does not depend on the asset:
 * which once-only keys a progress event triggers, and which of those are
 * still owed to the user. Each escrow maps its own condition enumeration
 * to a `Rule` and prices the owed keys in its own asset.
 *
 * One-off conditions fire when the event crosses their goal (the goal was
 * not reached before the call and is reached after it); per-index
 * conditions fire for the completed objective, or for every tier crossed
 * in the call, lowest first. A key already paid to the user is never owed
 * again, whatever the points did in between.
 */
module Rewards {
  import opened Types

  /** What a reward condition watches. */
  datatype Rule =
    | EveryObjective          // a payout for each completed objective
    | OneObjective(index: nat) // a payout when one objective is completed
    | EveryTier               // a payout for each tier reached
    | OneTier(tier: nat)      // a payout when one tier is reached
    | LastTier                // a payout when the last tier is reached
    | PointsGoal(points: nat) // a payout when the points total reaches a goal
    | AllObjectives           // a payout when every objective is complete

  /** The keys of tiers `lo + 1` up to `hi`, lowest first. */
  function TierKeys(lo: nat, hi: nat): (r: seq<RewardKey>)
    ensures |r| == (if lo < hi then hi - lo else 0)
    ensures forall k :: 0 <= k < |r| ==> r[k] == TierKey(lo + 1 + k)
    ensures forall k :: k in r <==> k.TierKey? && lo < k.tier <= hi
    decreases hi
  {
    if hi <= lo then [] else TierKeys(lo, hi - 1) + [TierKey(hi)]
  }

  /**
   * Whether an event triggers key `k` under a rule: the completed objective,
   * the one objective or tier when it is reached, every tier crossed, the
   * last tier, the points goal crossed, or the completion that finishes
   * every objective.
   */
  predicate Fires(rule: Rule, tierCount: nat, ev: Progress, k: RewardKey)
  {
    match rule
    case EveryObjective => ev.trigger.Completion? && k == ObjectiveKey(ev.trigger.index)
    case OneObjective(g) => ev.trigger == Completion(g) && k == ObjectiveKey(g)
    case EveryTier => k.TierKey? && ev.oldTier < k.tier <= ev.newTier
    case OneTier(g) => ev.oldTier < g <= ev.newTier && k == TierKey(g)
    case LastTier => 0 < tierCount && ev.oldTier < tierCount - 1 <= ev.newTier && k == AllTiersKey
    case PointsGoal(g) => ev.oldPoints < g <= ev.newPoints && k == PointsTotalKey
    case AllObjectives => ev.trigger.Completion? && ev.allObjectivesComplete && k == AllObjectivesKey
  }

  /**
   * The keys an event triggers under a rule, before looking at what was
   * paid: exactly the keys the rule fires for, at most one except for the
   * per-tier rule, and none for an objective rule on a points grant.
   */
  function Candidates(rule: Rule, tierCount: nat, ev: Progress): (r: seq<RewardKey>)
    ensures forall k :: k in r <==> Fires(rule, tierCount, ev, k)
    ensures !rule.EveryTier? ==> |r| <= 1
    ensures rule.EveryTier? ==> |r| == (if ev.oldTier < ev.newTier then ev.newTier - ev.oldTier else 0)
    ensures ev.trigger == Grant && (rule.EveryObjective? || rule.OneObjective? || rule.AllObjectives?) ==> r == []
  {
    match rule
    case EveryObjective =>
      if ev.trigger.Completion? then [ObjectiveKey(ev.trigger.index)] else []
    case OneObjective(g) =>
      if ev.trigger == Completion(g) then [ObjectiveKey(g)] else []
    case EveryTier =>
      TierKeys(ev.oldTier, ev.newTier)
    case OneTier(g) =>
      if ev.oldTier < g <= ev.newTier then [TierKey(g)] else []
    case LastTier =>
      if 0 < tierCount && ev.oldTier < tierCount - 1 <= ev.newTier then [AllTiersKey] else []
    case PointsGoal(g) =>
      if ev.oldPoints < g <= ev.newPoints then [PointsTotalKey] else []
    case AllObjectives =>
      if ev.trigger.Completion? && ev.allObjectivesComplete then [AllObjectivesKey] else []
  }

  /** The keys of `keys` not yet paid, in their original order. */
  function Unpaid(keys: seq<RewardKey>, paid: set<RewardKey>): (r: seq<RewardKey>)
    ensures forall k :: k in r <==> k in keys && k !in paid
    ensures |r| <= |keys|
  {
    if keys == [] then []
    else if keys[0] in paid then Unpaid(keys[1..], paid)
    else [keys[0]] + Unpaid(keys[1..], paid)
  }

  /**
   * The keys an event makes payable to a user who was already paid `paid`:
   * exactly the keys the rule fires for that were not paid before.
   */
  function Owed(rule: Rule, tierCount: nat, ev: Progress, paid: set<RewardKey>): (r: seq<RewardKey>)
    ensures forall k :: k in r <==> Fires(rule, tierCount, ev, k) && k !in paid
    ensures |r| <= |Candidates(rule, tierCount, ev)|
  {
    Unpaid(Candidates(rule, tierCount, ev), paid)
  }

  /** No key occurs twice. */
  predicate Distinct(keys: seq<RewardKey>)
  {
    forall i, j :: 0 <= i < j < |keys| ==> keys[i] != keys[j]
  }

  /** Dropping paid keys keeps distinct keys distinct. */
  lemma {:induction false} UnpaidDistinct(keys: seq<RewardKey>, paid: set<RewardKey>)
    requires Distinct(keys)
    ensures Distinct(Unpaid(keys, paid))
    decreases |keys|
  {
    if keys != [] {
      var rest := keys[1..];
      assert Distinct(rest) by {
        forall i, j | 0 <= i < j < |rest| ensures rest[i] != rest[j] {
          assert rest[i] == keys[i + 1] && rest[j] == keys[j + 1];
        }
      }
      UnpaidDistinct(rest, paid);
      if keys[0] !in paid {
        forall j | 0 <= j < |rest| ensures rest[j] != keys[0] {
          assert rest[j] == keys[j + 1];
        }
      }
    }
  }

  /** An event never owes the same key twice, so no payout is doubled within one call. */
  lemma OwedDistinct(rule: Rule, tierCount: nat, ev: Progress, paid: set<RewardKey>)
    ensures Distinct(Owed(rule, tierCount, ev, paid))
  {
    var c := Candidates(rule, tierCount, ev);
    if rule.EveryTier? {
      forall i, j | 0 <= i < j < |c| ensures c[i] != c[j] {
        assert c[i] == TierKey(ev.oldTier + 1 + i);
      }
    }
    UnpaidDistinct(c, paid);
  }

  /**
   * Once-only: after the owed keys of one event are recorded as paid, no
   * later event, whatever its points and tiers, owes any of them again.
   */
  lemma PaidKeysNeverOwedAgain(rule: Rule, tierCount: nat, ev: Progress, later: Progress,
                               paid: set<RewardKey>, k: RewardKey)
    requires k in Owed(rule, tierCount, ev, paid)
    ensures k !in paid
    ensures k !in Owed(rule, tierCount, later, paid + KeySet(Owed(rule, tierCount, ev, paid)))
  {
  }

  /** The keys of a sequence, as a set. */
  function KeySet(keys: seq<RewardKey>): (r: set<RewardKey>)
    ensures forall k :: k in r <==> k in keys
  {
    set k | k in keys
  }

  /**
   * Per-tier rules pay for every tier crossed in the call, including the
   * tiers skipped over, lowest first, and for no tier already paid.
   */
  lemma EveryTierOwed(tierCount: nat, ev: Progress, paid: set<RewardKey>, t: nat)
    ensures TierKey(t) in Owed(EveryTier, tierCount, ev, paid)
      <==> ev.oldTier < t <= ev.newTier && TierKey(t) !in paid
  {
    var c := TierKeys(ev.oldTier, ev.newTier);
    if ev.oldTier < t <= ev.newTier {
      assert c[t - ev.oldTier - 1] == TierKey(t);
    }
  }

  /** Every key is a tier key, and tiers strictly increase along the sequence. */
  predicate TiersIncreasing(keys: seq<RewardKey>)
  {
    (forall i :: 0 <= i < |keys| ==> keys[i].TierKey?) &&
    forall i, j :: 0 <= i < j < |keys| ==> keys[i].tier < keys[j].tier
  }

  /** In an increasing sequence the first tier is below every later key's tier. */
  lemma HeadBelowRest(keys: seq<RewardKey>)
    requires TiersIncreasing(keys) && keys != []
    ensures TiersIncreasing(keys[1..])
    ensures forall x :: x in keys[1..] ==> x.TierKey? && keys[0].tier < x.tier
  {
    var rest := keys[1..];
    forall i | 0 <= i < |rest| ensures rest[i] == keys[i + 1] { }
  }

  /** A tier key below every key of an increasing sequence can go in front of it. */
  lemma ConsIncreasing(x: RewardKey, u: seq<RewardKey>)
    requires x.TierKey? && TiersIncreasing(u)
    requires forall y :: y in u ==> x.tier < y.tier
    ensures TiersIncreasing([x] + u)
  {
    var r := [x] + u;
    forall i, j | 0 <= i < j < |r| ensures r[i].tier < r[j].tier {
      assert r[j] == u[j - 1];
      if i > 0 {
        assert r[i] == u[i - 1];
      }
    }
  }

  /** Dropping paid keys keeps tier keys in increasing order. */
  lemma {:induction false} UnpaidKeepsOrder(keys: seq<RewardKey>, paid: set<RewardKey>)
    requires TiersIncreasing(keys)
    ensures TiersIncreasing(Unpaid(keys, paid))
    decreases |keys|
  {
    if keys != [] {
      HeadBelowRest(keys);
      UnpaidKeepsOrder(keys[1..], paid);
      if keys[0] !in paid {
        ConsIncreasing(keys[0], Unpaid(keys[1..], paid));
      }
    }
  }

  /** Per-tier payouts are made lowest tier first. */
  lemma EveryTierInOrder(tierCount: nat, ev: Progress, paid: set<RewardKey>)
    ensures TiersIncreasing(Owed(EveryTier, tierCount, ev, paid))
  {
    var c := TierKeys(ev.oldTier, ev.newTier);
    assert TiersIncreasing(c) by {
      forall i | 0 <= i < |c| ensures c[i] == TierKey(ev.oldTier + 1 + i) { }
    }
    UnpaidKeepsOrder(c, paid);
  }

  /** A points grant never pays an objective-based condition. */
  lemma GrantOwesNoObjective(rule: Rule, tierCount: nat, ev: Progress, paid: set<RewardKey>)
    requires ev.trigger == Grant
    requires rule.EveryObjective? || rule.OneObjective? || rule.AllObjectives?
    ensures Owed(rule, tierCount, ev, paid) == []
  {
  }

  /** An event that leaves points and tier where they were before pays no points- or tier-based condition. */
  lemma NoProgressOwesNoTier(rule: Rule, tierCount: nat, ev: Progress, paid: set<RewardKey>)
    requires ev.newTier <= ev.oldTier && ev.newPoints <= ev.oldPoints
    requires rule.EveryTier? || rule.OneTier? || rule.LastTier? || rule.PointsGoal?
    ensures Owed(rule, tierCount, ev, paid) == []
  {
  }
}
