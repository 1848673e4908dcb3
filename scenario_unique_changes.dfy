/**
 * The unique-token escrow through freezing and cancellation: fifty ids,
 * one token for each user who completes objective 4, withdrawals locked
 * while frozen, and a canceled escrow that records nothing, pays out what
 * users hold and hands the creator a queue of deleted slots
 * (test/0.04/TestERC721EscrowChanges.ts).
 */
module ScenarioUniqueChanges {
  import opened Types
  import opened EscrowStates
  import Erc721Escrow
  import Program
  import opened ScenarioUnique

  const UserThree: Address := 12

  /** A completion of objective `index` taking `user` from `p` to `q` points. */
  function CompletionEvent(user: Address, index: nat, p: nat, q: nat): Progress
  {
    Program.ProgressFor([0, 400, 4400, 7000, 7800], user, Completion(index), p, q, false)
  }

  /** Settings for one token on completing objective 4, the max-to-min queue, and activation. */
  method ArmedForObjective() returns (e: Erc721Escrow.Escrow)
    ensures fresh(e) && e.Valid() && e.creator == Owner && e.state == InIssuance
    ensures e.condition == Erc721Escrow.ObjectiveCompleted && e.rewardGoal == 4
    ensures e.tokenQueue == DownFrom(0, 50)
    ensures e.userAccounts == map[] && e.rewardedUsers == {} && e.transferred == map[]
  {
    e := DeployAndDeposit();
    assert e.StateNow(EndDate) == AwaitingEscrowSettings;
    var r := e.SetEscrowSettings(Owner, RewardOrder.Ascending, Erc721Escrow.ObjectiveCompleted, 4, EndDate);
    assert r.Success?;
    var o := e.ReceiveTokenQueue(Owner, DownFrom(0, 50), Key);
    assert o == Ok;
    o := e.Activate();
    assert o == Ok;
  }

  /** A completion of objective 4 by a user not yet rewarded hands that user the lowest queued id. */
  method IssueLowest(e: Erc721Escrow.Escrow, user: Address, lo: nat, hi: nat)
    requires e.Valid() && e.state == InIssuance && lo < hi
    requires e.condition == Erc721Escrow.ObjectiveCompleted && e.rewardGoal == 4
    requires e.tokenQueue == DownFrom(lo, hi) && user !in e.rewardedUsers
    modifies e`tokenQueue, e`userAccounts, e`rewardedUsers
    ensures e.Valid() && e.tokenQueue == DownFrom(lo + 1, hi)
    ensures e.Account(user) == old(e.Account(user)) + [lo]
    ensures forall u :: u != user ==> e.Account(u) == old(e.Account(u))
    ensures e.rewardedUsers == old(e.rewardedUsers) + {user}
  {
    PopDownFrom(lo, hi);
    var o := e.HandleRewards(CompletionEvent(user, 4, 0, 4000));
    assert o == Ok;
  }

  /** An event of a canceled escrow, or one that does not meet the condition, issues nothing. */
  method IssueNothing(e: Erc721Escrow.Escrow, ev: Progress)
    requires e.Valid() && e.condition != Erc721Escrow.Condition.NotSet
    requires e.state == Canceled || (e.state == InIssuance && !Erc721Escrow.Qualifies(e.condition, e.rewardGoal, e.tierCount, ev))
    modifies e`tokenQueue, e`userAccounts, e`rewardedUsers
    ensures unchanged(e)
  {
    var o := e.HandleRewards(ev);
  }

  /**
   * Two users complete objective 4 and receive ids 0 and 1; the third
   * user's completion of objective 0 issues nothing; the first user
   * withdraws the one token.
   */
  method IssueAndWithdraw(e: Erc721Escrow.Escrow, lo: nat, hi: nat)
    requires e.Valid() && e.creator == Owner && e.state == InIssuance && lo + 2 <= hi
    requires e.condition == Erc721Escrow.ObjectiveCompleted && e.rewardGoal == 4
    requires e.tokenQueue == DownFrom(lo, hi)
    requires e.userAccounts == map[] && e.rewardedUsers == {} && e.transferred == map[]
    modifies e`tokenQueue, e`userAccounts, e`rewardedUsers, e`transferred
    ensures e.Valid() && e.creator == Owner && e.state == InIssuance
    ensures e.condition == Erc721Escrow.ObjectiveCompleted && e.rewardGoal == 4
    ensures e.tokenQueue == DownFrom(lo + 2, hi)
    ensures e.Account(Alice) == [] && e.Received(Alice) == [lo]
    ensures e.Account(Bob) == [lo + 1] && e.Received(Bob) == []
    ensures e.Account(UserThree) == [] && e.rewardedUsers == {Alice, Bob} && e.Received(Owner) == []
  {
    IssueLowest(e, Alice, lo, hi);
    IssueLowest(e, Bob, lo + 1, hi);
    IssueNothing(e, CompletionEvent(UserThree, 0, 0, 400));
    var o := e.UserWithdrawAll(Alice);
    assert o == Ok;
  }

  /**
   * While frozen, neither the second user nor the creator can withdraw and
   * nothing moves; after unfreezing, the escrow is back in issuance and a
   * completion of objective 3 issues nothing.
   */
  method FreezeLocksWithdrawals(e: Erc721Escrow.Escrow, queue: seq<nat>, first: nat, second: nat) returns (userWithdraw: Outcome, creatorWithdraw: Outcome)
    requires e.Valid() && e.creator == Owner && e.state == InIssuance
    requires e.condition == Erc721Escrow.ObjectiveCompleted && e.rewardGoal == 4
    requires e.tokenQueue == queue
    requires e.Account(Bob) == [second] && e.Received(Bob) == [] && e.Account(UserThree) == []
    requires e.rewardedUsers == {Alice, Bob} && e.Received(Alice) == [first] && e.Received(Owner) == []
    modifies e`state, e`beforeFreeze, e`tokenQueue, e`userAccounts, e`rewardedUsers, e`transferred, e`queueWithdrawn
    ensures userWithdraw == Err(FundsAreLocked) && creatorWithdraw == Err(MustBeActiveOrCompleted)
    ensures e.Valid() && e.creator == Owner && e.state == InIssuance
    ensures e.condition == Erc721Escrow.ObjectiveCompleted && e.rewardGoal == 4
    ensures e.tokenQueue == queue
    ensures e.Account(Bob) == [second] && e.Received(Bob) == [] && e.Account(UserThree) == []
    ensures e.rewardedUsers == {Alice, Bob} && e.Received(Alice) == [first] && e.Received(Owner) == []
  {
    var o := e.EmergencyFreeze(Owner, true);
    assert o == Ok && e.state == Frozen;
    userWithdraw := e.UserWithdrawAll(Bob);
    creatorWithdraw := e.CreatorWithdrawAll(Owner);
    o := e.EmergencyFreeze(Owner, false);
    assert o == Ok && e.state == InIssuance;
    IssueNothing(e, CompletionEvent(UserThree, 3, 400, 2400));
  }

  /**
   * Once canceled, the third user's completion of objective 4 succeeds and
   * issues nothing, the second user withdraws the one token, and the
   * creator's withdrawal takes the queued ids and leaves as many zeroed slots.
   */
  method CancelAndWithdraw(e: Erc721Escrow.Escrow, queue: seq<nat>, second: nat) returns (bobWallet: seq<nat>, creatorWallet: seq<nat>)
    requires e.Valid() && e.creator == Owner && e.state == InIssuance
    requires e.condition == Erc721Escrow.ObjectiveCompleted && e.rewardGoal == 4
    requires e.tokenQueue == queue
    requires e.Account(Bob) == [second] && e.Received(Bob) == [] && e.Account(UserThree) == []
    requires e.Received(Owner) == []
    modifies e`state, e`tokenQueue, e`userAccounts, e`rewardedUsers, e`transferred, e`queueWithdrawn
    ensures e.state == Canceled && e.Account(UserThree) == [] && e.Account(Bob) == []
    ensures bobWallet == [second] && creatorWallet == queue
    ensures e.tokenQueue == Erc721Escrow.Cleared(queue)
  {
    var o := e.CancelProgramEscrow(Owner);
    assert o == Ok;
    IssueNothing(e, CompletionEvent(UserThree, 4, 2400, 6400));
    o := e.UserWithdrawAll(Bob);
    assert o == Ok && e.Received(Bob) == [second] && e.Received(Owner) == [];
    o := e.CreatorWithdrawAll(Owner);
    assert o == Ok;
    bobWallet, creatorWallet := e.Received(Bob), e.Received(Owner);
  }

  /** The whole test: issuance, a freeze that locks both withdrawals, and cancellation. */
  method ReplayEscrowChanges()
    returns (aliceWallet: seq<nat>, bobWallet: seq<nat>, lockedUser: Outcome, lockedCreator: Outcome, queue: seq<nat>)
    ensures aliceWallet == [0] && bobWallet == [1]
    ensures lockedUser == Err(FundsAreLocked) && lockedCreator == Err(MustBeActiveOrCompleted)
    ensures |queue| == 48 && forall i :: 0 <= i < |queue| ==> queue[i] == 0
  {
    var e := ArmedForObjective();
    IssueAndWithdraw(e, 0, 50);
    aliceWallet := e.Received(Alice);
    var rest := e.tokenQueue;
    lockedUser, lockedCreator := FreezeLocksWithdrawals(e, rest, 0, 1);
    var creatorWallet;
    bobWallet, creatorWallet := CancelAndWithdraw(e, rest, 1);
    queue := e.tokenQueue;
  }
}
