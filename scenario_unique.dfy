/**
 * The unique-token escrow on the numbers of its tests: fifty ids deposited
 * in order, the sort request and the returned max-to-min queue, activation,
 * and one token per user popped from the end of the queue
 * (test/0.02/LoyaltyDeployWithERC721.ts,
 * test/0.02/LoyaltyWithERC721RewardConditions.ts).
 */
module ScenarioUnique {
  import opened Types
  import opened EscrowStates
  import Erc721Escrow
  import Program

  const Owner: Address := 1
  const Collection: Address := 2
  const Key: nat := 77
  const EndDate: nat := 100
  const Alice: Address := 10
  const Bob: Address := 11

  /** The ids `lo`, `lo + 1`, ..., `hi - 1`, as deposited one after the other. */
  function Range(lo: nat, hi: nat): (r: seq<nat>)
    ensures |r| == (if lo < hi then hi - lo else 0)
    ensures forall k :: 0 <= k < |r| ==> r[k] == lo + k
    decreases hi
  {
    if hi <= lo then [] else Range(lo, hi - 1) + [hi - 1]
  }

  /** The ids `hi - 1` down to `lo`: a max-to-min queue. */
  function DownFrom(lo: nat, hi: nat): (r: seq<nat>)
    ensures |r| == (if lo < hi then hi - lo else 0)
    ensures forall k :: 0 <= k < |r| ==> r[k] == hi - 1 - k
    decreases hi
  {
    if hi <= lo then [] else [hi - 1] + DownFrom(lo, hi - 1)
  }

  /** Popping a max-to-min queue issues its lowest id and leaves the queue of the ids above it. */
  lemma PopDownFrom(lo: nat, hi: nat)
    requires lo < hi
    ensures DownFrom(lo, hi) != [] && DownFrom(lo, hi)[|DownFrom(lo, hi)| - 1] == lo
    ensures DownFrom(lo, hi)[..|DownFrom(lo, hi)| - 1] == DownFrom(lo + 1, hi)
  {
    var q := DownFrom(lo, hi);
    var front := q[..|q| - 1];
    forall k | 0 <= k < |front|
      ensures front[k] == DownFrom(lo + 1, hi)[k]
    {
    }
  }

  /** The creator deposits ids `0 .. n - 1` one by one during the deposit period; they are recorded in that order. */
  method DepositRange(e: Erc721Escrow.Escrow, n: nat)
    requires e.creator == Owner && e.collection == Collection && Owner in e.approvedDepositors
    requires e.depositKey == Some(Key) && e.state == DepositPeriod && e.depositEndDate == EndDate
    requires e.tokenIds == [] && e.Valid()
    modifies e`tokenIds
    ensures e.Valid() && e.tokenIds == Range(0, n) && e.TotalTokens() == n
  {
    var i := 0;
    while i < n
      invariant 0 <= i <= n
      invariant e.Valid() && e.tokenIds == Range(0, i)
    {
      var o := e.Deposit(Owner, Collection, i, Key, 0);
      assert o == Ok;
      i := i + 1;
    }
  }

  /** Deployment, the deposit key and fifty ids deposited in order during the deposit period. */
  method DeployAndDeposit() returns (e: Erc721Escrow.Escrow)
    ensures fresh(e) && e.Valid() && e.creator == Owner && e.objectiveCount == 5 && e.tierCount == 5
    ensures e.depositKey == Some(Key) && e.state == DepositPeriod && e.depositEndDate == EndDate
    ensures e.tokenIds == Range(0, 50) && e.TotalTokens() == 50
    ensures e.condition == Erc721Escrow.Condition.NotSet && !e.queueReceived
    ensures e.userAccounts == map[] && e.rewardedUsers == {} && e.transferred == map[]
  {
    e := new Erc721Escrow.Escrow(Owner, Collection, 5, 5, {});
    var o := e.SetDepositKey(Owner, Key, EndDate);
    assert o == Ok && e.StateNow(0) == DepositPeriod;
    DepositRange(e, 50);
  }

  /**
   * From deployment to issuance: the key opens the deposit period, fifty
   * ids arrive in order, the period ends without a transaction, the
   * settings emit all fifty ids with the order, the returned queue is
   * stored as given, and activation starts issuance.
   */
  method ReplayLifecycle() returns (e: Erc721Escrow.Escrow, request: Erc721Escrow.SortRequest)
    ensures fresh(e) && e.Valid()
    ensures request == Erc721Escrow.SortRequest(Owner, Range(0, 50), RewardOrder.Ascending)
    ensures e.TotalTokens() == 50 && e.tokenQueue == DownFrom(0, 50) && e.state == InIssuance
    ensures e.condition == Erc721Escrow.PointsTotal && e.rewardGoal == 7000
    ensures e.userAccounts == map[] && e.rewardedUsers == {}
  {
    e := DeployAndDeposit();
    assert e.StateNow(EndDate) == AwaitingEscrowSettings;
    var r := e.SetEscrowSettings(Owner, RewardOrder.Ascending, Erc721Escrow.PointsTotal, 7000, EndDate);
    assert r.Success?;
    request := r.value;
    var o := e.ReceiveTokenQueue(Owner, DownFrom(0, 50), Key);
    assert o == Ok;
    o := e.Activate();
    assert o == Ok;
  }

  /** The event of a grant taking `user` from `p` to `q` points in the standard program. */
  function GrantEvent(user: Address, p: nat, q: nat): Progress
  {
    Program.ProgressFor([0, 400, 4400, 7000, 7800], user, Grant, p, q, false)
  }

  /**
   * Two users crossing 7000 receive the two lowest ids, in turn; a later
   * event of the first user pops nothing, and the queue keeps the ids
   * above in their order.
   */
  method IssueToTwoUsers(e: Erc721Escrow.Escrow, lo: nat, hi: nat)
    requires e.Valid() && e.state == InIssuance && lo + 2 <= hi
    requires e.condition == Erc721Escrow.PointsTotal && e.rewardGoal == 7000
    requires e.tokenQueue == DownFrom(lo, hi) && e.userAccounts == map[] && e.rewardedUsers == {}
    modifies e
    ensures e.Account(Alice) == [lo] && e.Account(Bob) == [lo + 1]
    ensures e.tokenQueue == DownFrom(lo + 2, hi)
  {
    assert Erc721Escrow.Qualifies(e.condition, e.rewardGoal, e.tierCount, GrantEvent(Alice, 0, 7800));
    RewardNext(e, GrantEvent(Alice, 0, 7800), lo, hi);
    assert Erc721Escrow.Qualifies(e.condition, e.rewardGoal, e.tierCount, GrantEvent(Bob, 6900, 7000));
    RewardNext(e, GrantEvent(Bob, 6900, 7000), lo + 1, hi);
    var o := e.HandleRewards(GrantEvent(Alice, 7800, 9800));
  }

  /** A qualifying event of a user not yet rewarded pops the lowest id `lo` of the queue into that user's account. */
  method RewardNext(e: Erc721Escrow.Escrow, ev: Progress, lo: nat, hi: nat)
    requires e.Valid() && e.state == InIssuance && lo < hi && e.condition == Erc721Escrow.PointsTotal
    requires e.tokenQueue == DownFrom(lo, hi) && ev.user !in e.rewardedUsers
    requires Erc721Escrow.Qualifies(e.condition, e.rewardGoal, e.tierCount, ev)
    modifies e`tokenQueue, e`userAccounts, e`rewardedUsers
    ensures e.Valid() && e.tokenQueue == DownFrom(lo + 1, hi)
    ensures e.Account(ev.user) == old(e.Account(ev.user)) + [lo]
    ensures forall u :: u != ev.user ==> e.Account(u) == old(e.Account(u))
    ensures e.rewardedUsers == old(e.rewardedUsers) + {ev.user}
  {
    PopDownFrom(lo, hi);
    var o := e.HandleRewards(ev);
  }

  /** Under the max-to-min queue the first two rewarded users get ids 0 and 1; 49 down to 2 remain. */
  method ReplayIssuance() returns (first: seq<nat>, second: seq<nat>, rest: seq<nat>)
    ensures first == [0] && second == [1] && rest == DownFrom(2, 50)
  {
    var e, request := ReplayLifecycle();
    IssueToTwoUsers(e, 0, 50);
    first, second, rest := e.Account(Alice), e.Account(Bob), e.tokenQueue;
  }
}
