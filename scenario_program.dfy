/**
 * The progression engine on its own, with the standard objectives and
 * tiers: construction with and without tiers
 * (test/0.02/LoyaltyDeployWithERC20.ts), completions by the user, the
 * relayer and the creator (test/0.03/LPDeployTestChanges.ts), and grants
 * and deductions moving the tier both ways while the completion array
 * stays as it was (test/0.03/TierAndPointsRewardConditions.ts).
 */
module ScenarioProgram {
  import opened Types
  import Tiers
  import Rewards
  import opened Program
  import opened ScenarioPoints
  import ScenarioRewards

  /** One permitted completion on a program without an escrow: the objective's points and its entry. */
  method Complete(p: LoyaltyProgram, caller: Address, index: nat, user: Address, entry: Authority)
    requires p.Valid() && p.escrow == NoEscrow && p.CompletionCheck(caller, index, user, entry) == Ok
    modifies p`points, p`completed
    ensures p.Valid() && index < |p.objectives|
    ensures p.Points(user) == old(p.Points(user)) + p.objectives[index].reward
    ensures p.Completed(user) == old(p.Completed(user))[index := true]
  {
    var o := p.CompleteObjective(caller, index, user, entry);
  }

  /** One permitted grant on a program without an escrow: the points grow by the amount. */
  method Grant(p: LoyaltyProgram, caller: Address, user: Address, amount: nat)
    requires p.Valid() && p.escrow == NoEscrow && p.PointsCheck(caller) == Ok
    modifies p`points, p`pointsGiven, p`greatestPointsGiven, p`totalPointsPossible
    ensures p.Valid() && p.Points(user) == old(p.Points(user)) + amount
  {
    var o := p.GivePointsToUser(caller, user, amount);
  }

  /**
   * Four supplied thresholds are stored with the default tier in front
   * (five tiers); no supplied thresholds leave tiers inactive. Either way
   * the objectives are kept in input order and the program starts Idle
   * with 7800 points possible.
   */
  method ReplayConstruction() returns (tiered: LoyaltyProgram, untiered: LoyaltyProgram)
    ensures tiered.tiersAreActive && tiered.thresholds == [0, 400, 4400, 7000, 7800] && |tiered.thresholds| == 5
    ensures !untiered.tiersAreActive && |untiered.thresholds| == 0
    ensures tiered.objectives == StandardObjectives() && untiered.objectives == StandardObjectives()
    ensures tiered.objectives[4] == Objective("Follow all of our socials", 4000, Creator)
    ensures tiered.totalPointsPossible == 7800 && untiered.totalPointsPossible == 7800
    ensures tiered.state == Idle && untiered.state == Idle
  {
    tiered := new LoyaltyProgram(Owner, Relay, StandardObjectives(), ERC20, true, StandardTiers());
    untiered := new LoyaltyProgram(Owner, Relay, StandardObjectives(), ERC20, false, []);
  }

  /**
   * With the 300 points granted earlier, the user completes objectives 0
   * and 1 and the relayer objective 2: 2100 points and the first three
   * entries set.
   */
  method UserAndRelayCompletions(p: LoyaltyProgram)
    requires p.Valid() && p.escrow == NoEscrow && p.state == Active
    requires p.creator == Owner && p.relay == Relay && p.objectives == StandardObjectives()
    requires p.Points(UserOne) == 300 && p.Completed(UserOne) == [false, false, false, false, false]
    modifies p`points, p`completed
    ensures p.Valid() && p.Points(UserOne) == 2100 && p.Completed(UserOne) == [true, true, true, false, false]
  {
    Complete(p, UserOne, 0, UserOne, User);
    Complete(p, UserOne, 1, UserOne, User);
    Complete(p, Relay, 2, UserOne, User);
  }

  /**
   * Another user cannot complete objective 4 for the first user, nor can
   * the first user complete the creator-authority objective 4 through the
   * user entry point; the creator completes it for 4000 more points.
   */
  method CreatorCompletion(p: LoyaltyProgram) returns (stranger: Outcome, wrongEntry: Outcome)
    requires p.Valid() && p.escrow == NoEscrow && p.state == Active
    requires p.creator == Owner && p.relay == Relay && p.objectives == StandardObjectives()
    requires p.Points(UserOne) == 2100 && p.Completed(UserOne) == [true, true, true, false, false]
    modifies p`points, p`completed
    ensures stranger == Err(Unauthorized) && wrongEntry == Err(Unauthorized)
    ensures p.Valid() && p.Points(UserOne) == 6100 && p.Completed(UserOne) == [true, true, true, false, true]
  {
    stranger := p.CompleteObjective(UserTwo, 4, UserOne, User);
    wrongEntry := p.CompleteObjective(UserOne, 4, UserOne, User);
    Complete(p, Owner, 4, UserOne, Creator);
  }

  /**
   * The relayer completes the creator-authority objective 4 for a user
   * through the user entry point: the call succeeds and the user gains its
   * 4000 points, and a second such call is AlreadyCompleted.
   */
  method RelayCompletesCreatorObjective() returns (first: Outcome, again: Outcome, points: nat, done: seq<bool>)
    ensures first == Ok && again == Err(AlreadyCompleted)
    ensures points == 4000 && done == [false, false, false, false, true]
  {
    var p := PointsProgram();
    assert p.Completed(UserOne) == [false, false, false, false, false];
    first := p.CompleteObjective(Relay, 4, UserOne, User);
    again := p.CompleteObjective(Relay, 4, UserOne, User);
    points, done := p.Points(UserOne), p.Completed(UserOne);
  }

  /** Grants of 100 and 200, then completions through both entry points, on a program without an escrow. */
  method ReplayCompletions() returns (afterUser: nat, afterCreator: nat, done: seq<bool>)
    ensures afterUser == 2100 && afterCreator == 6100 && done == [true, true, true, false, true]
  {
    var p := PointsProgram();
    assert p.Completed(UserOne) == [false, false, false, false, false];
    Grant(p, Owner, UserOne, 100);
    Grant(p, Owner, UserOne, 200);
    UserAndRelayCompletions(p);
    afterUser := p.Points(UserOne);
    var stranger, wrongEntry := CreatorCompletion(p);
    afterCreator, done := p.Points(UserOne), p.Completed(UserOne);
  }

  /** Grants of 7000 and 800 reach tier 3 and then the last tier; no objective is marked complete. */
  method GrantToLastTier(p: LoyaltyProgram) returns (firstTier: nat)
    requires p.Valid() && p.escrow == NoEscrow && p.state == Active
    requires p.creator == Owner && p.thresholds == [0, 400, 4400, 7000, 7800]
    requires p.Points(UserOne) == 0 && p.completed == map[]
    modifies p`points, p`pointsGiven, p`greatestPointsGiven, p`totalPointsPossible
    ensures p.Valid() && firstTier == 3
    ensures p.Points(UserOne) == 7800 && p.CurrentTier(UserOne) == 4 && p.completed == map[]
  {
    ScenarioRewards.StandardTiers();
    Grant(p, Owner, UserOne, 7000);
    firstTier := p.CurrentTier(UserOne);
    Grant(p, Owner, UserOne, 800);
  }

  /**
   * The relayer deducts 7000 (tier 1 at 800), the creator completes
   * objective 4 and the relayer grants 3000: back at 7800 and the last
   * tier, with only objective 4 complete.
   */
  method DeductAndReearn(p: LoyaltyProgram) returns (lowPoints: nat, lowTier: nat)
    requires p.Valid() && p.escrow == NoEscrow && p.state == Active
    requires p.creator == Owner && p.relay == Relay && p.objectives == StandardObjectives()
    requires p.thresholds == [0, 400, 4400, 7000, 7800]
    requires p.Points(UserOne) == 7800 && p.completed == map[]
    modifies p`points, p`completed, p`pointsGiven, p`greatestPointsGiven, p`totalPointsPossible
    ensures lowPoints == 800 && lowTier == 1
    ensures p.Points(UserOne) == 7800 && p.CurrentTier(UserOne) == 4
    ensures p.Completed(UserOne) == [false, false, false, false, true]
  {
    ScenarioRewards.StandardTiers();
    var o := p.DeductPointsFromUser(Relay, UserOne, 7000);
    lowPoints, lowTier := p.Points(UserOne), p.CurrentTier(UserOne);
    assert p.Completed(UserOne) == [false, false, false, false, false];
    Complete(p, Owner, 4, UserOne, Creator);
    Grant(p, Relay, UserOne, 3000);
  }

  /** The tier follows the points down and up again; grants and deductions never mark an objective. */
  method ReplayGrantDeduct() returns (firstTier: nat, lastTier: nat, lowTier: nat, finalTier: nat, done: seq<bool>)
    ensures firstTier == 3 && lastTier == 4 && lowTier == 1 && finalTier == 4
    ensures done == [false, false, false, false, true]
  {
    var p := new LoyaltyProgram(Owner, Relay, StandardObjectives(), RewardType.Points, true, StandardTiers());
    var o := p.SetLoyaltyProgramActive(Owner);
    assert o == Ok;
    firstTier := GrantToLastTier(p);
    lastTier := p.CurrentTier(UserOne);
    var lowPoints;
    lowPoints, lowTier := DeductAndReearn(p);
    finalTier, done := p.CurrentTier(UserOne), p.Completed(UserOne);
  }
}
