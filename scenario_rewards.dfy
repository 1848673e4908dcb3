/**
 * The tier and reward rules on the numbers of the standard program: tiers
 * at 400, 4400, 7000 and 7800 above the default tier 0
 * (test/0.03/TierAndPointsRewardConditions.ts).
 */
module ScenarioRewards {
  import opened Types
  import Tiers
  import Rewards
  import Erc20Escrow
  import Erc721Escrow
  import Program

  const Thresholds: seq<nat> := [0, 400, 4400, 7000, 7800]
  const User: Address := 10

  /** The event of a grant taking the user from `p` to `q` points. */
  function GrantEvent(p: nat, q: nat): Progress
  {
    Program.ProgressFor(Thresholds, User, Grant, p, q, false)
  }

  /** The tier is the last threshold reached: 7000 is tier 3, 7800 tier 4, 800 and 4000 tier 1, 0 and 100 tier 0. */
  lemma StandardTiers()
    ensures Tiers.TierOf(Thresholds, 7000) == 3 && Tiers.TierOf(Thresholds, 7800) == 4
    ensures Tiers.TierOf(Thresholds, 800) == 1 && Tiers.TierOf(Thresholds, 4000) == 1
    ensures Tiers.TierOf(Thresholds, 0) == 0 && Tiers.TierOf(Thresholds, 100) == 0
  {
    assert Thresholds[1] == 400 && Thresholds[2] == 4400 && Thresholds[3] == 7000 && Thresholds[4] == 7800;
  }

  /**
   * Per-tier payouts on a grant from 0 to 7000 are owed for tiers 1, 2 and
   * 3 in tier order; after a deduction to 0, a grant to 7900 owes tier 4
   * only.
   */
  lemma EachTierSkipsAndReearns()
    ensures Rewards.Owed(Rewards.EveryTier, 5, GrantEvent(0, 7000), {}) == [TierKey(1), TierKey(2), TierKey(3)]
    ensures Rewards.Owed(Rewards.EveryTier, 5, GrantEvent(0, 7900), {TierKey(1), TierKey(2), TierKey(3)})
            == [TierKey(4)]
  {
    StandardTiers();
    assert Tiers.TierOf(Thresholds, 7900) == 4;
    assert Rewards.TierKeys(0, 3) == [TierKey(1), TierKey(2), TierKey(3)];
    assert Rewards.TierKeys(0, 4) == [TierKey(1), TierKey(2), TierKey(3), TierKey(4)];
  }

  /**
   * Under the ERC20 table [0, 1, 1, 2, 4] per tier: completing objective 4
   * (0 to 4000 points) pays tier 1's 1, a grant of 3000 (4000 to 7000) pays
   * tiers 2 and 3, 1 + 2, so 4 in all; after a deduction of 3000, the same
   * grant again pays nothing. The jump from 0 to 7000 in one call also pays 4.
   */
  lemma RewardPerTierTable()
    ensures Rewards.Owed(Rewards.EveryTier, 5, CompletionAt(4, 0, 4000), {}) == [TierKey(1)]
    ensures Erc20Escrow.Cost(Erc20Escrow.RewardPerTier, 0, [0, 1, 1, 2, 4], [TierKey(1)]) == 1
    ensures Rewards.Owed(Rewards.EveryTier, 5, GrantEvent(4000, 7000), {TierKey(1)}) == [TierKey(2), TierKey(3)]
    ensures Erc20Escrow.Cost(Erc20Escrow.RewardPerTier, 0, [0, 1, 1, 2, 4], [TierKey(2), TierKey(3)]) == 3
    ensures Rewards.Owed(Rewards.EveryTier, 5, GrantEvent(4000, 7000), {TierKey(1), TierKey(2), TierKey(3)}) == []
    ensures Erc20Escrow.Cost(Erc20Escrow.RewardPerTier, 0, [0, 1, 1, 2, 4],
                             Rewards.Owed(Rewards.EveryTier, 5, GrantEvent(0, 7000), {})) == 4
    ensures Rewards.Owed(Rewards.EveryTier, 5, GrantEvent(0, 7000), {TierKey(1), TierKey(2), TierKey(3)}) == []
  {
    PerTierCompletion();
    PerTierGrant();
    PerTierRegrant();
    PerTierJump();
  }

  /** Completing objective 4 from 0 points reaches tier 1, which the table pays 1. */
  lemma PerTierCompletion()
    ensures Rewards.Owed(Rewards.EveryTier, 5, CompletionAt(4, 0, 4000), {}) == [TierKey(1)]
    ensures Erc20Escrow.Cost(Erc20Escrow.RewardPerTier, 0, [0, 1, 1, 2, 4], [TierKey(1)]) == 1
  {
    StandardTiers();
    assert Rewards.TierKeys(0, 1) == [TierKey(1)];
    assert Erc20Escrow.Price(Erc20Escrow.RewardPerTier, 0, [0, 1, 1, 2, 4], TierKey(1)) == 1;
  }

  /** The grant from 4000 to 7000, with tier 1 paid, owes tiers 2 and 3, which the table pays 3. */
  lemma PerTierGrant()
    ensures Rewards.Owed(Rewards.EveryTier, 5, GrantEvent(4000, 7000), {TierKey(1)}) == [TierKey(2), TierKey(3)]
    ensures Erc20Escrow.Cost(Erc20Escrow.RewardPerTier, 0, [0, 1, 1, 2, 4], [TierKey(2), TierKey(3)]) == 3
  {
    StandardTiers();
    assert Rewards.TierKeys(1, 3) == [TierKey(2), TierKey(3)];
    assert Rewards.Unpaid([TierKey(3)], {TierKey(1)}) == [TierKey(3)];
    assert Erc20Escrow.Price(Erc20Escrow.RewardPerTier, 0, [0, 1, 1, 2, 4], TierKey(3)) == 2;
    assert Erc20Escrow.Cost(Erc20Escrow.RewardPerTier, 0, [0, 1, 1, 2, 4], [TierKey(3)]) == 2;
  }

  /** After the deduction to 4000, the same grant owes nothing: tiers 1 to 3 are paid. */
  lemma PerTierRegrant()
    ensures Rewards.Owed(Rewards.EveryTier, 5, GrantEvent(4000, 7000), {TierKey(1), TierKey(2), TierKey(3)}) == []
  {
    StandardTiers();
    var paid := {TierKey(1), TierKey(2), TierKey(3)};
    assert Rewards.TierKeys(1, 3) == [TierKey(2), TierKey(3)];
    assert Rewards.Unpaid([TierKey(3)], paid) == [];
  }

  /** The jump from 0 to 7000 in one call pays 1 + 1 + 2, and nothing once those tiers are paid. */
  lemma PerTierJump()
    ensures Erc20Escrow.Cost(Erc20Escrow.RewardPerTier, 0, [0, 1, 1, 2, 4],
                             Rewards.Owed(Rewards.EveryTier, 5, GrantEvent(0, 7000), {})) == 4
    ensures Rewards.Owed(Rewards.EveryTier, 5, GrantEvent(0, 7000), {TierKey(1), TierKey(2), TierKey(3)}) == []
  {
    StandardTiers();
    EachTierSkipsAndReearns();
    assert Erc20Escrow.Price(Erc20Escrow.RewardPerTier, 0, [0, 1, 1, 2, 4], TierKey(3)) == 2;
    assert Erc20Escrow.Cost(Erc20Escrow.RewardPerTier, 0, [0, 1, 1, 2, 4], [TierKey(3)]) == 2;
    assert Erc20Escrow.Cost(Erc20Escrow.RewardPerTier, 0, [0, 1, 1, 2, 4], [TierKey(2), TierKey(3)]) == 3;
    var paid := {TierKey(1), TierKey(2), TierKey(3)};
    var keys := Rewards.TierKeys(0, 3);
    assert Rewards.Unpaid(keys[2..], paid) == [];
    assert Rewards.Unpaid(keys[1..], paid) == [];
  }

  /** A one-off tier condition on tier 3 fires on reaching 7000 exactly: the threshold is inclusive. */
  lemma SingleTierInclusive()
    ensures Rewards.Owed(Rewards.OneTier(3), 5, GrantEvent(6999, 7000), {}) == [TierKey(3)]
    ensures Rewards.Owed(Rewards.OneTier(3), 5, GrantEvent(0, 6999), {}) == []
  {
    StandardTiers();
    assert Tiers.TierOf(Thresholds, 6999) == 2;
  }

  /** The event of completing objective `index`, taking the user from `p` to `q` points. */
  function CompletionAt(index: nat, p: nat, q: nat): Progress
  {
    Program.ProgressFor(Thresholds, User, Completion(index), p, q, false)
  }

  /**
   * AllTiersComplete owes nothing at tier 3, owes once on reaching the last
   * tier by a grant, and owes nothing when that tier is reached again after
   * a deduction.
   */
  lemma AllTiersCompleteOnce()
    ensures Rewards.Owed(Rewards.LastTier, 5, GrantEvent(0, 7000), {}) == []
    ensures Rewards.Owed(Rewards.LastTier, 5, GrantEvent(7000, 7800), {}) == [AllTiersKey]
    ensures Rewards.Owed(Rewards.LastTier, 5, GrantEvent(4800, 7800), {AllTiersKey}) == []
  {
    StandardTiers();
    assert Tiers.TierOf(Thresholds, 4800) == 2;
  }

  /** SingleObjective on objective 2 owes once, when objective 2 is completed, and not on the completions after it. */
  lemma SingleObjectiveOnce()
    ensures Rewards.Owed(Rewards.OneObjective(2), 5, CompletionAt(2, 800, 1800), {}) == [ObjectiveKey(2)]
    ensures Rewards.Owed(Rewards.OneObjective(2), 5, CompletionAt(3, 1800, 3800), {ObjectiveKey(2)}) == []
    ensures Rewards.Owed(Rewards.OneObjective(2), 5, CompletionAt(4, 3800, 7800), {ObjectiveKey(2)}) == []
  {
  }

  /**
   * PointsTotal 5000 owes nothing at 2800, owes once when a completion
   * takes the user from 2800 to 6800, and nothing on the completion to
   * 7800 after it.
   */
  lemma PointsTotalOnce()
    ensures Rewards.Owed(Rewards.PointsGoal(5000), 5, CompletionAt(3, 800, 2800), {}) == []
    ensures Rewards.Owed(Rewards.PointsGoal(5000), 5, CompletionAt(4, 2800, 6800), {}) == [PointsTotalKey]
    ensures Rewards.Owed(Rewards.PointsGoal(5000), 5, CompletionAt(2, 6800, 7800), {PointsTotalKey}) == []
  {
  }

  /**
   * The ERC721 conditions on the same path: PointsTotal 7000 does not
   * qualify at 1800 and does at 7800; TierReached 2 qualifies on the jump
   * from tier 1 (3800 points) to tier 4 (7800).
   */
  lemma UniqueConditions()
    ensures !Erc721Escrow.Qualifies(Erc721Escrow.PointsTotal, 7000, 5, CompletionAt(2, 800, 1800))
    ensures Erc721Escrow.Qualifies(Erc721Escrow.PointsTotal, 7000, 5, CompletionAt(4, 3800, 7800))
    ensures CompletionAt(4, 3800, 7800).oldTier == 1 && CompletionAt(4, 3800, 7800).newTier == 4
    ensures Erc721Escrow.Qualifies(Erc721Escrow.TierReached, 2, 5, CompletionAt(4, 3800, 7800))
  {
    StandardTiers();
    assert Tiers.TierOf(Thresholds, 3800) == 1;
  }
}
