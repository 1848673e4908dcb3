/**
 * The multi-token escrow on the numbers of its tests: 800 of each of the
 * ids 0 to 3 deposited in one batch, a per-objective payout table, unit
 * payouts to three users (one while frozen), cancelation and the
 * creator's withdrawals (test/0.04/TestERC1155EscrowChanges.ts).
 */
module ScenarioMulti {
  import opened Types
  import opened EscrowStates
  import Tiers
  import Rewards
  import Erc1155Escrow
  import Program

  const Owner: Address := 1
  const Collection: Address := 2
  const Key: nat := 77
  const EndDate: nat := 100
  const UserOne: Address := 10
  const UserTwo: Address := 11
  const UserThree: Address := 12

  /** The balances after the batch deposit: 800 of each of the ids 0 to 3. */
  function Deposited(): map<nat, nat>
  {
    map[0 := 800, 1 := 800, 2 := 800, 3 := 800]
  }

  /** The batch of four ids, 800 each, goes to the balances and the deposit records. */
  lemma BatchOfFour()
    ensures Erc1155Escrow.CreditAll(map[], [0, 1, 2, 3], [800, 800, 800, 800]) == Deposited()
    ensures |Erc1155Escrow.Zip([0, 1, 2, 3], [800, 800, 800, 800])| == 4
  {
    var ids: seq<nat> := [0, 1, 2, 3];
    var amounts: seq<nat> := [800, 800, 800, 800];
    assert ids[..1] == [0] && amounts[..1] == [800];
    assert ids[..2][..1] == [0] && amounts[..2][..1] == [800];
    assert ids[..3][..2] == ids[..2] && amounts[..3][..2] == amounts[..2];
    assert ids[..3] == [0, 1, 2] && amounts[..3] == [800, 800, 800];
    assert Erc1155Escrow.CreditAll(map[], ids[..1], amounts[..1]) == map[0 := 800];
    assert Erc1155Escrow.CreditAll(map[], ids[..2], amounts[..2]) == map[0 := 800, 1 := 800];
    assert Erc1155Escrow.CreditAll(map[], ids[..3], amounts[..3]) == map[0 := 800, 1 := 800, 2 := 800];
  }

  /** Deployment, the deposit key and the batch during the deposit period. */
  method DeployAndDeposit() returns (e: Erc1155Escrow.Escrow)
    ensures fresh(e) && e.Valid() && e.creator == Owner && e.objectiveCount == 5
    ensures e.depositKey == Some(Key) && e.state == DepositPeriod && e.depositEndDate == EndDate
    ensures e.balances == Deposited() && e.TotalTokenIds() == 4
    ensures e.condition == Erc1155Escrow.Condition.NotSet
    ensures e.userRewards == map[] && e.rewarded == map[] && e.transferred == map[]
  {
    e := new Erc1155Escrow.Escrow(Owner, Collection, 5, 5, {});
    var o := e.SetDepositKey(Owner, Key, EndDate);
    assert o == Ok;
    BatchOfFour();
    o := e.DepositBatch(Owner, Collection, [0, 1, 2, 3], [800, 800, 800, 800], Key, 0);
    assert o == Ok;
  }

  /**
   * After the deposit period the per-objective table (ids 0, 1, 2, 3, 3;
   * amounts 1, 1, 2, 2, 4) is set with the goal reading 0, and activation
   * starts issuance.
   */
  method ReplaySetup() returns (e: Erc1155Escrow.Escrow)
    ensures fresh(e) && e.Valid() && e.creator == Owner && e.state == InIssuance
    ensures e.balances == Deposited() && e.TotalTokenIds() == 4
    ensures e.condition == Erc1155Escrow.EachObjective && e.rewardGoal == 0
    ensures e.payoutIds == [0, 1, 2, 3, 3] && e.payoutAmounts == [1, 1, 2, 2, 4]
    ensures e.userRewards == map[] && e.rewarded == map[] && e.transferred == map[]
  {
    e := DeployAndDeposit();
    assert e.StateNow(EndDate) == AwaitingEscrowSettings;
    var o := e.SetEscrowSettingsAdvanced(Owner, Erc1155Escrow.EachObjective, [0, 1, 2, 3, 3], [1, 1, 2, 2, 4], EndDate);
    assert o == Ok;
    o := e.Activate();
    assert o == Ok;
  }

  /** The event of a first completion of objective 0 (400 points) by `user`. */
  function FirstObjective(user: Address): Progress
  {
    Program.ProgressFor([0, 400, 4400, 7000, 7800], user, Completion(0), 0, 400, false)
  }

  /** A first completion of objective 0 is owed the table's entry 0: one of id 0. */
  lemma FirstObjectivePays(e: Erc1155Escrow.Escrow, user: Address)
    requires e.condition == Erc1155Escrow.EachObjective && e.Rewarded(user) == {}
    requires e.payoutIds == [0, 1, 2, 3, 3] && e.payoutAmounts == [1, 1, 2, 2, 4]
    ensures e.PayoutsFor(FirstObjective(user)) == [Erc1155Escrow.TokenAmount(0, 1)]
  {
  }

  /** Paying one of id 0 from a balance `b` of it is affordable when `b` is positive, and leaves `b - 1`. */
  lemma PayOneOfIdZero(balances: map<nat, nat>, b: nat)
    requires 0 < b && 0 in balances && balances[0] == b
    ensures Erc1155Escrow.Affordable(balances, [Erc1155Escrow.TokenAmount(0, 1)])
    ensures Erc1155Escrow.Debit(balances, [Erc1155Escrow.TokenAmount(0, 1)]) == balances[0 := b - 1]
  {
  }

  /** A first completion of objective 0 by `user`, issued or frozen: one of id 0 goes from the balance to the user. */
  method PayFirstObjective(e: Erc1155Escrow.Escrow, user: Address, b: nat)
    requires e.Valid() && (e.state == InIssuance || e.state == Frozen)
    requires e.condition == Erc1155Escrow.EachObjective
    requires e.payoutIds == [0, 1, 2, 3, 3] && e.payoutAmounts == [1, 1, 2, 2, 4]
    requires 0 < b && 0 in e.balances && e.balances[0] == b && e.Rewarded(user) == {}
    modifies e`balances, e`userRewards, e`rewarded
    ensures e.Valid() && e.balances == old(e.balances)[0 := b - 1]
    ensures e.UserRewards(user) == old(e.UserRewards(user)) + [Erc1155Escrow.TokenAmount(0, 1)]
    ensures forall u :: u != user ==> e.Rewarded(u) == old(e.Rewarded(u)) && e.UserRewards(u) == old(e.UserRewards(u))
  {
    FirstObjectivePays(e, user);
    PayOneOfIdZero(e.balances, b);
    var o := e.HandleRewards(FirstObjective(user));
  }

  /** The first two users complete objective 0 and get (id 0, 1) each; the third is still unpaid. */
  method PayFirstTwo(e: Erc1155Escrow.Escrow)
    requires e.Valid() && e.state == InIssuance
    requires e.balances == Deposited()
    requires e.condition == Erc1155Escrow.EachObjective
    requires e.payoutIds == [0, 1, 2, 3, 3] && e.payoutAmounts == [1, 1, 2, 2, 4]
    requires e.userRewards == map[] && e.rewarded == map[]
    modifies e`balances, e`userRewards, e`rewarded
    ensures e.Valid() && e.balances == Deposited()[0 := 799][0 := 798]
    ensures e.UserRewards(UserOne) == [Erc1155Escrow.TokenAmount(0, 1)] && e.Rewarded(UserThree) == {}
  {
    PayFirstObjective(e, UserOne, 800);
    PayFirstObjective(e, UserTwo, 799);
  }

  /**
   * Two users complete objective 0 and get (id 0, 1) each; while frozen
   * the user's withdrawal is FundsAreLocked and both creator withdrawals
   * MustBeCompletedOrCanceled, yet a third completion pays; the unfreeze
   * restores InIssuance. Id 0 is at 797.
   */
  method ThreeUnitPayouts(e: Erc1155Escrow.Escrow) returns (userWd: Outcome, creatorWd: Outcome, creatorWdAll: Outcome)
    requires e.Valid() && e.creator == Owner && e.state == InIssuance
    requires e.balances == Deposited() && e.transferred == map[]
    requires e.condition == Erc1155Escrow.EachObjective
    requires e.payoutIds == [0, 1, 2, 3, 3] && e.payoutAmounts == [1, 1, 2, 2, 4]
    requires e.userRewards == map[] && e.rewarded == map[]
    modifies e`balances, e`userRewards, e`rewarded, e`transferred, e`state, e`beforeFreeze
    ensures e.Valid() && e.state == InIssuance && e.transferred == map[]
    ensures e.balances == map[0 := 797, 1 := 800, 2 := 800, 3 := 800]
    ensures e.UserRewards(UserOne) == [Erc1155Escrow.TokenAmount(0, 1)]
    ensures userWd == Err(FundsAreLocked)
    ensures creatorWd == Err(MustBeCompletedOrCanceled) && creatorWdAll == Err(MustBeCompletedOrCanceled)
  {
    PayFirstTwo(e);
    var o := e.EmergencyFreeze(Owner, true);
    assert o == Ok && e.state == Frozen;
    userWd := e.UserWithdrawAll(UserOne);
    creatorWd := e.CreatorWithdrawToken(Owner, 0, 10);
    creatorWdAll := e.CreatorWithdrawAllBalance(Owner);
    PayFirstObjective(e, UserThree, 798);
    o := e.EmergencyFreeze(Owner, false);
    assert o == Ok;
  }

  /** After cancelation the first user withdraws the one token; the creator's wallet is still empty. */
  method CancelAndUserWithdraw(e: Erc1155Escrow.Escrow) returns (wallet: seq<Erc1155Escrow.TokenAmount>)
    requires e.Valid() && e.creator == Owner && e.state == InIssuance
    requires e.UserRewards(UserOne) == [Erc1155Escrow.TokenAmount(0, 1)] && e.transferred == map[]
    modifies e`state, e`userRewards, e`transferred
    ensures e.Valid() && e.state == Canceled && e.balances == old(e.balances)
    ensures wallet == [Erc1155Escrow.TokenAmount(0, 1)] && e.UserRewards(UserOne) == []
    ensures e.Received(Owner) == []
  {
    var o := e.CancelProgramEscrow(Owner);
    assert o == Ok;
    o := e.UserWithdrawAll(UserOne);
    assert o == Ok;
    wallet := e.Received(UserOne);
  }

  /**
   * The creator withdraws all 800 of id 3, leaving 797, 800, 800 and 0,
   * and then the rest, leaving every id at 0; the creator's wallet then
   * holds 797, 800, 800 and 800 of the ids 0 to 3.
   */
  method CreatorWithdrawals(e: Erc1155Escrow.Escrow) returns (afterToken: seq<nat>, afterAll: seq<nat>, wallet: seq<nat>)
    requires e.Valid() && e.creator == Owner && e.state == Canceled
    requires e.balances == map[0 := 797, 1 := 800, 2 := 800, 3 := 800] && e.Received(Owner) == []
    modifies e`balances, e`transferred
    ensures afterToken == [797, 800, 800, 0] && afterAll == [0, 0, 0, 0]
    ensures wallet == [797, 800, 800, 800]
  {
    var o := e.CreatorWithdrawToken(Owner, 3, 800);
    assert o == Ok;
    afterToken := [e.TokenBalance(0), e.TokenBalance(1), e.TokenBalance(2), e.TokenBalance(3)];
    assert Erc1155Escrow.AmountOf(e.Received(Owner), 3) == 800 by {
      assert e.Received(Owner)[1..] == [];
    }
    assert forall id :: id != 3 ==> Erc1155Escrow.AmountOf(e.Received(Owner), id) == 0 by {
      assert e.Received(Owner)[1..] == [];
    }
    o := e.CreatorWithdrawAllBalance(Owner);
    assert o == Ok;
    afterAll := [e.TokenBalance(0), e.TokenBalance(1), e.TokenBalance(2), e.TokenBalance(3)];
    var w := e.Received(Owner);
    wallet := [Erc1155Escrow.AmountOf(w, 0), Erc1155Escrow.AmountOf(w, 1), Erc1155Escrow.AmountOf(w, 2),
               Erc1155Escrow.AmountOf(w, 3)];
  }

  /** The whole replay. */
  method ReplayFreezeCancelWithdraw() returns (wallet: seq<Erc1155Escrow.TokenAmount>,
                                               afterToken: seq<nat>, afterAll: seq<nat>,
                                               locked: seq<Outcome>, creatorWallet: seq<nat>)
    ensures wallet == [Erc1155Escrow.TokenAmount(0, 1)]
    ensures locked == [Err(FundsAreLocked), Err(MustBeCompletedOrCanceled), Err(MustBeCompletedOrCanceled)]
    ensures afterToken == [797, 800, 800, 0] && afterAll == [0, 0, 0, 0]
    ensures creatorWallet == [797, 800, 800, 800]
  {
    var e := ReplaySetup();
    var userWd, creatorWd, creatorWdAll := ThreeUnitPayouts(e);
    locked := [userWd, creatorWd, creatorWdAll];
    wallet := CancelAndUserWithdraw(e);
    afterToken, afterAll, creatorWallet := CreatorWithdrawals(e);
  }

  /** The event of a completion of objective `i` by `user`, from `p` to `q` points. */
  function CompletionEvent(user: Address, i: nat, p: nat, q: nat, all: bool): Progress
  {
    Program.ProgressFor([0, 400, 4400, 7000, 7800], user, Completion(i), p, q, all)
  }

  /** The per-tier payouts of an event for a user paid `paid`, under the table ids 0, 1, 1, 3, 4 and amounts 0, 2, 2, 3, 3. */
  function TierPayouts(ev: Progress, paid: set<RewardKey>): seq<Erc1155Escrow.TokenAmount>
  {
    Erc1155Escrow.Payouts(Erc1155Escrow.EachTier, Erc1155Escrow.TokenAmount(0, 0), [0, 1, 1, 3, 4], [0, 2, 2, 3, 3],
                          Rewards.Owed(Rewards.EveryTier, 5, ev, paid))
  }

  /** The tiers of the points in the per-tier replay. */
  lemma ReplayTiers()
    ensures Tiers.TierOf([0, 400, 4400, 7000, 7800], 0) == 0
    ensures Tiers.TierOf([0, 400, 4400, 7000, 7800], 400) == 1
    ensures Tiers.TierOf([0, 400, 4400, 7000, 7800], 1800) == 1
    ensures Tiers.TierOf([0, 400, 4400, 7000, 7800], 3800) == 1
    ensures Tiers.TierOf([0, 400, 4400, 7000, 7800], 7800) == 4
  {
    var th: seq<nat> := [0, 400, 4400, 7000, 7800];
    assert th[1] == 400 && th[2] == 4400 && th[3] == 7000 && th[4] == 7800;
  }

  /** Per tier: 400 points reach tier 1 and pay (1, 2); completions up to 3800 stay in tier 1 and pay nothing. */
  lemma EachTierFirstTier(user: Address)
    ensures TierPayouts(CompletionEvent(user, 0, 0, 400, false), {}) == [Erc1155Escrow.TokenAmount(1, 2)]
    ensures TierPayouts(CompletionEvent(user, 3, 1800, 3800, false), {TierKey(1)}) == []
  {
    ReplayTiers();
    assert Rewards.TierKeys(0, 1) == [TierKey(1)];
  }

  /**
   * Per tier (test/0.02/LoyaltyWithERC1155RewardConditions.ts): the jump
   * from 3800 to 7800 skips from tier 1 to tier 4 and pays tiers 2, 3 and 4
   * in order, appended after the first (1, 2): the list holds two separate
   * (1, 2) entries.
   */
  lemma EachTierSkipAppends(user: Address)
    ensures [Erc1155Escrow.TokenAmount(1, 2)] + TierPayouts(CompletionEvent(user, 4, 3800, 7800, true), {TierKey(1)})
            == [Erc1155Escrow.TokenAmount(1, 2), Erc1155Escrow.TokenAmount(1, 2),
                Erc1155Escrow.TokenAmount(3, 3), Erc1155Escrow.TokenAmount(4, 3)]
  {
    ReplayTiers();
    var ev := CompletionEvent(user, 4, 3800, 7800, true);
    assert ev == Progress(user, Completion(4), 3800, 7800, 1, 4, true);
    SkipOneToFour(ev);
  }

  /** From tier 1 to tier 4, a user paid for tier 1 is owed tiers 2, 3 and 4, in that order. */
  lemma OwedOneToFour(ev: Progress)
    requires ev.oldTier == 1 && ev.newTier == 4
    ensures Rewards.Owed(Rewards.EveryTier, 5, ev, {TierKey(1)}) == [TierKey(2), TierKey(3), TierKey(4)]
  {
    var skip := Rewards.TierKeys(1, 4);
    assert skip == [TierKey(2), TierKey(3), TierKey(4)];
    assert Rewards.Unpaid(skip[2..], {TierKey(1)}) == skip[2..];
    assert Rewards.Unpaid(skip[1..], {TierKey(1)}) == skip[1..];
  }

  /** Any event from tier 1 to tier 4 of a user paid for tier 1 pays the table's entries 2, 3 and 4. */
  lemma SkipOneToFour(ev: Progress)
    requires ev.oldTier == 1 && ev.newTier == 4
    ensures TierPayouts(ev, {TierKey(1)})
            == [Erc1155Escrow.TokenAmount(1, 2), Erc1155Escrow.TokenAmount(3, 3), Erc1155Escrow.TokenAmount(4, 3)]
  {
    OwedOneToFour(ev);
    var r := TierPayouts(ev, {TierKey(1)});
    assert |r| == 3;
    assert r[0] == Erc1155Escrow.TokenAmount(1, 2);
    assert r[1] == Erc1155Escrow.TokenAmount(3, 3);
    assert r[2] == Erc1155Escrow.TokenAmount(4, 3);
  }
}
