/**
 * A program with the five standard objectives (400, 400, 1000, 2000 and
 * 4000 points, the last one of Creator authority), the tiers 400, 4400,
 * 7000 and 7800, and an ERC20 escrow paying 100 base units once the points
 * total reaches 7000, driven through grants and completions by the user,
 * the relayer and the creator (test/0.03/LPDeployTestChanges.ts).
 */
module ScenarioPoints {
  import opened Types
  import Tiers
  import Rewards
  import EscrowStates
  import Erc20Escrow
  import opened Program

  const Owner: Address := 1
  const Relay: Address := 5
  const UserOne: Address := 10
  const UserTwo: Address := 11
  const UserThree: Address := 12
  const Key: nat := 77

  /** The objectives of the standard program. */
  function StandardObjectives(): (r: seq<Objective>)
    ensures |r| == 5 && SumRewards(r) == 7800
  {
    [Objective("Invite 4 friends", 400, User), Objective("Use a discount code", 400, User),
     Objective("Buy items from shop", 1000, User), Objective("Buy $60 from shop", 2000, User),
     Objective("Follow all of our socials", 4000, Creator)]
  }

  /** The supplied tier thresholds of the standard program. */
  function StandardTiers(): (r: seq<nat>)
    ensures Tiers.Ascending(r) && forall i :: 0 <= i < |r| ==> 0 < r[i]
  {
    [400, 4400, 7000, 7800]
  }

  /** The escrow of the standard program, funded with 500 and set to pay 100 once the points total reaches 7000. */
  method ArmedEscrow() returns (e: Erc20Escrow.Escrow)
    ensures fresh(e) && e.Valid() && e.creator == Owner
    ensures e.objectiveCount == 5 && e.tierCount == 5
    ensures e.state == EscrowStates.Idle
    ensures e.escrowBalance == 500 && e.userBalances == map[] && e.rewarded == map[]
    ensures e.condition == Erc20Escrow.PointsTotal && e.rewardGoal == 7000 && e.rewardAmount == 100
  {
    e := new Erc20Escrow.Escrow(Owner, 5, 5, {Owner}, false);
    var o := e.SetDepositKey(Owner, Key, 100);
    assert o == Ok;
    o := e.DepositBudget(Owner, 500, Key, 0);
    assert o == Ok;
    o := e.SetEscrowSettingsBasic(Owner, Erc20Escrow.PointsTotal, 7000, 100, 100);
    assert o == Ok;
  }

  /** Deploys the program, links the armed escrow and starts both. */
  method DeployActive() returns (p: LoyaltyProgram, e: Erc20Escrow.Escrow)
    ensures fresh(p) && fresh(e) && p.Valid() && p.escrow == Fungible(e)
    ensures p.state == Active && e.state == EscrowStates.InIssuance
    ensures e.escrowBalance == 500 && e.userBalances == map[] && e.rewarded == map[]
  {
    e := ArmedEscrow();
    p := new LoyaltyProgram(Owner, Relay, StandardObjectives(), ERC20, true, StandardTiers());
    var o := p.SetEscrowContract(Owner, Fungible(e));
    assert o == Ok;
    o := p.SetLoyaltyProgramActive(Owner);
    assert o == Ok;
  }

  /** The standard program with no escrow (a Points program), started by its creator. */
  method PointsProgram() returns (p: LoyaltyProgram)
    ensures fresh(p) && p.Valid() && p.escrow == NoEscrow && p.state == Active
    ensures p.creator == Owner && p.relay == Relay && p.pointsGiven == map[]
    ensures p.greatestPointsGiven == 0 && p.totalPointsPossible == 7800
    ensures p.objectives == StandardObjectives() && p.thresholds == [0, 400, 4400, 7000, 7800]
    ensures p.points == map[] && p.completed == map[]
  {
    p := new LoyaltyProgram(Owner, Relay, StandardObjectives(), RewardType.Points, true, StandardTiers());
    var o := p.SetLoyaltyProgramActive(Owner);
    assert o == Ok;
  }

  /** The creator grants 100 points to each of two users: the high-water mark is 100 after both. */
  method FirstGrants(p: LoyaltyProgram) returns (t1: nat, g1: nat, t2: nat, g2: nat)
    requires p.Valid() && p.escrow == NoEscrow && p.state == Active && p.creator == Owner
    requires p.pointsGiven == map[] && p.greatestPointsGiven == 0 && p.totalPointsPossible == 7800
    modifies p
    ensures p.Valid() && p.escrow == NoEscrow && p.state == Active
    ensures p.pointsGiven == map[UserOne := 100, UserTwo := 100]
    ensures p.greatestPointsGiven == 100 && p.totalPointsPossible == 7900
    ensures (t1, g1) == (7900, 100) && (t2, g2) == (7900, 100)
  {
    var o := p.GivePointsToUser(Owner, UserOne, 100);
    t1, g1 := p.totalPointsPossible, p.greatestPointsGiven;
    o := p.GivePointsToUser(Owner, UserTwo, 100);
    t2, g2 := p.totalPointsPossible, p.greatestPointsGiven;
  }

  /** The creator tops up the first user and the relayer the second: the mark follows the larger lifetime grant. */
  method LaterGrants(p: LoyaltyProgram) returns (t3: nat, g3: nat, t4: nat, g4: nat)
    requires p.Valid() && p.escrow == NoEscrow && p.state == Active && p.creator == Owner && p.relay == Relay
    requires p.pointsGiven == map[UserOne := 100, UserTwo := 100]
    requires p.greatestPointsGiven == 100 && p.totalPointsPossible == 7900
    modifies p
    ensures (t3, g3) == (8100, 300) && (t4, g4) == (8900, 1100)
  {
    var o := p.GivePointsToUser(Owner, UserOne, 200);
    t3, g3 := p.totalPointsPossible, p.greatestPointsGiven;
    o := p.GivePointsToUser(Relay, UserTwo, 1000);
    t4, g4 := p.totalPointsPossible, p.greatestPointsGiven;
  }

  /**
   * Grants by the creator and the relayer: the high-water mark follows the
   * largest lifetime grant (100, 100, 300, 1100) and the total points
   * possible is 7800 plus it (7900, 7900, 8100, 8900).
   */
  method ReplayHighWater() returns (t1: nat, g1: nat, t2: nat, g2: nat, t3: nat, g3: nat, t4: nat, g4: nat)
    ensures (t1, g1) == (7900, 100) && (t2, g2) == (7900, 100)
    ensures (t3, g3) == (8100, 300) && (t4, g4) == (8900, 1100)
  {
    var p := PointsProgram();
    t1, g1, t2, g2 := FirstGrants(p);
    t3, g3, t4, g4 := LaterGrants(p);
  }

  /** The event of a points change of `UserThree` in the standard program. */
  function StandardEvent(trigger: Trigger, oldPoints: nat, newPoints: nat, allComplete: bool): Progress
  {
    ProgressFor([0, 400, 4400, 7000, 7800], UserThree, trigger, oldPoints, newPoints, allComplete)
  }

  /** The crossing grant pays the flat amount; the completion after it pays nothing more. */
  method CrossPointsGoal(e: Erc20Escrow.Escrow) returns (afterCrossing: nat, afterLast: nat, budget: nat)
    requires e.Valid() && e.state == EscrowStates.InIssuance
    requires e.condition == Erc20Escrow.PointsTotal && e.rewardGoal == 7000 && e.rewardAmount == 100
    requires e.escrowBalance == 500 && e.UserBalance(UserThree) == 0 && e.Rewarded(UserThree) == {}
    modifies e
    ensures afterCrossing == 100 && afterLast == 100 && budget == 400
  {
    var ev := StandardEvent(Grant, 6100, 8100, false);
    assert Rewards.Unpaid([PointsTotalKey], {}) == [PointsTotalKey];
    assert e.OwedFor(ev) == [PointsTotalKey];
    assert e.CostFor(ev) == 100;
    var o := e.HandleRewards(ev);
    assert o == Ok;
    afterCrossing := e.UserBalance(UserThree);
    o := e.HandleRewards(StandardEvent(Completion(3), 8100, 10100, true));
    afterLast, budget := e.UserBalance(UserThree), e.escrowBalance;
  }

  /**
   * The escrow's evaluator along the third user's path: the creator's
   * completion to 6100 pays nothing, the relayer's grant of 2000 crosses
   * 7000 and pays the 100 once, and the last completion to 10100 pays
   * nothing more.
   */
  method ReplayPointsGoal() returns (afterCompletion: nat, afterCrossing: nat, afterLast: nat, budget: nat)
    ensures afterCompletion == 0 && afterCrossing == 100 && afterLast == 100 && budget == 400
  {
    var e := ArmedEscrow();
    var o := e.Activate();
    assert o == Ok;
    o := e.HandleRewards(StandardEvent(Completion(4), 2100, 6100, false));
    assert o == Ok;
    afterCompletion := e.UserBalance(UserThree);
    afterCrossing, afterLast, budget := CrossPointsGoal(e);
  }
}
