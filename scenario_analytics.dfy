/**
 * The fungible escrow's accounting under a per-objective table of 0.0002,
 * driven by fifteen users as in test/0.03/TestEventAnalyticsERC20.ts:
 * every user completes objective 0 and is granted 400 points, then
 * completes objectives 1 to 3; the last ten complete objective 4; the first
 * five withdraw everything. Amounts are in units of 0.0001 of an
 * 18-decimal token.
 */
module ScenarioAnalytics {
  import opened Types
  import opened EscrowStates
  import Rewards
  import Ledger
  import Erc20Escrow
  import Program
  import ScenarioBudget

  /** 0.0001 of an 18-decimal token, in base units. */
  const Unit: nat := 100_000_000_000_000

  /** The table entry of every objective, 0.0002. */
  const Payout: nat := 2 * Unit

  /**
   * A user's points before objective `i` (for `i` from 1) and after it:
   * objective 0 takes 0 to 400 and the grant 400 to 800.
   */
  const Path: seq<nat> := [0, 800, 1200, 2200, 4200, 8200]

  /** The number of users. */
  const Users: nat := 15

  /** The `j`-th user's address. */
  function UserAt(j: nat): Address
  {
    5 + j
  }

  /** The keys paid after the first objective. */
  const First: set<RewardKey> := {ObjectiveKey(0)}

  /** The keys paid after the first four objectives. */
  const Middle: set<RewardKey> := First + {ObjectiveKey(1)} + {ObjectiveKey(2)} + {ObjectiveKey(3)}

  /** The keys paid after all five objectives. */
  const All: set<RewardKey> := Middle + {ObjectiveKey(4)}

  /** Every entry of the table is `Payout`. */
  predicate Flat(payouts: seq<nat>)
  {
    |payouts| == 5 && forall k :: 0 <= k < 5 ==> payouts[k] == Payout
  }

  /** The keys paid to `u` in a map of paid keys. */
  function PaidOf(paid: map<Address, set<RewardKey>>, u: Address): set<RewardKey>
  {
    if u in paid then paid[u] else {}
  }

  /** `after` credits `amount` more to `user` than `before` and holds every other balance as it was. */
  ghost predicate Credited(before: map<Address, nat>, after: map<Address, nat>, user: Address, amount: nat)
  {
    && Ledger.BalanceOf(after, user) == Ledger.BalanceOf(before, user) + amount
    && forall u :: u != user ==> Ledger.BalanceOf(after, u) == Ledger.BalanceOf(before, u)
  }

  /** `after` records `keys` as the keys paid to `user` and every other user's keys as `before` did. */
  ghost predicate Marked(before: map<Address, set<RewardKey>>, after: map<Address, set<RewardKey>>, user: Address,
                   keys: set<RewardKey>)
  {
    && PaidOf(after, user) == keys
    && forall u :: u != user ==> PaidOf(after, u) == PaidOf(before, u)
  }

  /** Users `lo` .. `hi - 1` are each credited `amount`. */
  predicate Balances(balances: map<Address, nat>, lo: nat, hi: nat, amount: nat)
  {
    forall j :: lo <= j < hi ==> Ledger.BalanceOf(balances, UserAt(j)) == amount
  }

  /** Users `lo` .. `hi - 1` have each been paid exactly `keys`. */
  predicate PaidSets(paid: map<Address, set<RewardKey>>, lo: nat, hi: nat, keys: set<RewardKey>)
  {
    forall j :: lo <= j < hi ==> PaidOf(paid, UserAt(j)) == keys
  }

  /** Crediting user `k` the difference moves it from the users still at `outside` to those at `inside`. */
  lemma CreditMovesBoundary(before: map<Address, nat>, after: map<Address, nat>, lo: nat, k: nat, hi: nat,
                            inside: nat, outside: nat)
    requires lo <= k < hi && outside <= inside
    requires Balances(before, lo, k, inside) && Balances(before, k, hi, outside)
    requires Credited(before, after, UserAt(k), inside - outside)
    ensures Balances(after, lo, k + 1, inside) && Balances(after, k + 1, hi, outside)
  {
    forall j | lo <= j < k + 1
      ensures Ledger.BalanceOf(after, UserAt(j)) == inside
    {
      if j < k {
        assert UserAt(j) != UserAt(k);
      }
    }
  }

  /** Crediting a user outside `lo` .. `hi - 1` leaves the balances of those users alone. */
  lemma CreditKeepsOthers(before: map<Address, nat>, after: map<Address, nat>, lo: nat, hi: nat, amount: nat,
                          k: nat, credit: nat)
    requires Balances(before, lo, hi, amount) && Credited(before, after, UserAt(k), credit) && (k < lo || hi <= k)
    ensures Balances(after, lo, hi, amount)
  {
    forall j | lo <= j < hi
      ensures Ledger.BalanceOf(after, UserAt(j)) == amount
    {
      assert UserAt(j) != UserAt(k);
    }
  }

  /** Paying user `k` the keys `inside` moves it from the users still at `outside` to those at `inside`. */
  lemma MarkMovesBoundary(before: map<Address, set<RewardKey>>, after: map<Address, set<RewardKey>>,
                          lo: nat, k: nat, hi: nat, inside: set<RewardKey>, outside: set<RewardKey>)
    requires lo <= k < hi
    requires PaidSets(before, lo, k, inside) && PaidSets(before, k, hi, outside)
    requires Marked(before, after, UserAt(k), inside)
    ensures PaidSets(after, lo, k + 1, inside) && PaidSets(after, k + 1, hi, outside)
  {
    forall j | lo <= j < k + 1
      ensures PaidOf(after, UserAt(j)) == inside
    {
      if j < k {
        assert UserAt(j) != UserAt(k);
      }
    }
  }

  /** A grant pays nothing under a per-objective table and leaves every balance and paid set as it was. */
  method PassGrant(e: Erc20Escrow.Escrow, ev: Progress)
    requires e.Valid() && e.state == InIssuance && e.condition == Erc20Escrow.RewardPerObjective
    requires ev.trigger == Grant
    modifies e`escrowBalance, e`userBalances, e`rewarded
    ensures e.Valid() && e.escrowBalance == old(e.escrowBalance)
    ensures forall u :: Ledger.BalanceOf(e.userBalances, u) == Ledger.BalanceOf(old(e.userBalances), u)
    ensures forall u :: PaidOf(e.rewarded, u) == PaidOf(old(e.rewarded), u)
  {
    Rewards.GrantOwesNoObjective(Rewards.EveryObjective, e.tierCount, ev, e.Rewarded(ev.user));
    assert e.OwedFor(ev) == [];
    assert Rewards.KeySet([]) == {};
    var o := e.HandleRewards(ev);
    assert o == Ok;
  }

  /** One user completes objective 0, paid once, and is then granted 400 points, paid nothing; no other user is touched. */
  method CompleteFirst(e: Erc20Escrow.Escrow, user: Address)
    requires e.Valid() && e.state == InIssuance && e.condition == Erc20Escrow.RewardPerObjective
    requires Flat(e.payouts) && Payout <= e.escrowBalance
    requires e.Rewarded(user) == {}
    modifies e`escrowBalance, e`userBalances, e`rewarded
    ensures e.Valid() && e.escrowBalance == old(e.escrowBalance) - Payout
    ensures Credited(old(e.userBalances), e.userBalances, user, Payout)
    ensures Marked(old(e.rewarded), e.rewarded, user, First)
  {
    ScenarioBudget.PayCompletion(e, ScenarioBudget.CompletionEvent(user, 0, 0, 400), 0);
    PassGrant(e, Program.ProgressFor(ScenarioBudget.Thresholds, user, Grant, 400, 800, false));
  }

  /** One user completes objectives 1, 2 and 3 in order, each paid once; no other user is touched. */
  method CompleteMiddle(e: Erc20Escrow.Escrow, user: Address)
    requires e.Valid() && e.state == InIssuance && e.condition == Erc20Escrow.RewardPerObjective
    requires Flat(e.payouts) && 3 * Payout <= e.escrowBalance
    requires e.Rewarded(user) == First
    modifies e`escrowBalance, e`userBalances, e`rewarded
    ensures e.Valid() && e.escrowBalance == old(e.escrowBalance) - 3 * Payout
    ensures Credited(old(e.userBalances), e.userBalances, user, 3 * Payout)
    ensures Marked(old(e.rewarded), e.rewarded, user, Middle)
  {
    ScenarioBudget.PayCompletion(e, ScenarioBudget.CompletionEvent(user, 1, Path[1], Path[2]), 1);
    ScenarioBudget.PayCompletion(e, ScenarioBudget.CompletionEvent(user, 2, Path[2], Path[3]), 2);
    ScenarioBudget.PayCompletion(e, ScenarioBudget.CompletionEvent(user, 3, Path[3], Path[4]), 3);
  }

  /** One user completes objective 4, paid once; no other user is touched. */
  method CompleteLast(e: Erc20Escrow.Escrow, user: Address)
    requires e.Valid() && e.state == InIssuance && e.condition == Erc20Escrow.RewardPerObjective
    requires Flat(e.payouts) && Payout <= e.escrowBalance
    requires e.Rewarded(user) == Middle
    modifies e`escrowBalance, e`userBalances, e`rewarded
    ensures e.Valid() && e.escrowBalance == old(e.escrowBalance) - Payout
    ensures Credited(old(e.userBalances), e.userBalances, user, Payout)
    ensures Marked(old(e.rewarded), e.rewarded, user, All)
  {
    ScenarioBudget.PayCompletion(e, ScenarioBudget.CompletionEvent(user, 4, Path[4], Path[5]), 4);
  }

  // The loop invariants below write the payout, 2 * 10^14 base units, as a
  // literal so that the solver sees linear arithmetic.

  /** Each user completes objective 0 (paid 0.0002) and is granted 400 points (paid nothing). */
  method FirstRound(e: Erc20Escrow.Escrow)
    requires e.Valid() && e.state == InIssuance && e.condition == Erc20Escrow.RewardPerObjective
    requires Flat(e.payouts) && e.escrowBalance == 6000 * Unit
    requires e.userBalances == map[] && e.rewarded == map[]
    modifies e`escrowBalance, e`userBalances, e`rewarded
    ensures e.Valid() && e.escrowBalance == 6000 * Unit - Users * Payout
    ensures Balances(e.userBalances, 0, Users, Payout) && PaidSets(e.rewarded, 0, Users, First)
  {
    var k := 0;
    while k < Users
      invariant 0 <= k <= Users && e.Valid() && e.escrowBalance == 6000 * Unit - k * 200_000_000_000_000
      invariant Balances(e.userBalances, 0, k, Payout) && Balances(e.userBalances, k, Users, 0)
      invariant PaidSets(e.rewarded, 0, k, First) && PaidSets(e.rewarded, k, Users, {})
    {
      ghost var balances, paid := e.userBalances, e.rewarded;
      CompleteFirst(e, UserAt(k));
      CreditMovesBoundary(balances, e.userBalances, 0, k, Users, Payout, 0);
      MarkMovesBoundary(paid, e.rewarded, 0, k, Users, First, {});
      k := k + 1;
    }
  }

  /** Each user then completes objectives 1, 2 and 3. */
  method SecondRound(e: Erc20Escrow.Escrow)
    requires e.Valid() && e.state == InIssuance && e.condition == Erc20Escrow.RewardPerObjective
    requires Flat(e.payouts) && e.escrowBalance == 6000 * Unit - Users * Payout
    requires Balances(e.userBalances, 0, Users, Payout) && PaidSets(e.rewarded, 0, Users, First)
    modifies e`escrowBalance, e`userBalances, e`rewarded
    ensures e.Valid() && e.escrowBalance == 6000 * Unit - 4 * Users * Payout
    ensures Balances(e.userBalances, 0, Users, 4 * Payout) && PaidSets(e.rewarded, 0, Users, Middle)
  {
    var k := 0;
    while k < Users
      invariant 0 <= k <= Users && e.Valid()
      invariant e.escrowBalance == 6000 * Unit - (Users + 3 * k) * 200_000_000_000_000
      invariant Balances(e.userBalances, 0, k, 4 * Payout) && Balances(e.userBalances, k, Users, Payout)
      invariant PaidSets(e.rewarded, 0, k, Middle) && PaidSets(e.rewarded, k, Users, First)
    {
      ghost var balances, paid := e.userBalances, e.rewarded;
      CompleteMiddle(e, UserAt(k));
      CreditMovesBoundary(balances, e.userBalances, 0, k, Users, 4 * Payout, Payout);
      MarkMovesBoundary(paid, e.rewarded, 0, k, Users, Middle, First);
      k := k + 1;
    }
  }

  /** The last ten users complete objective 4. */
  method ThirdRound(e: Erc20Escrow.Escrow)
    requires e.Valid() && e.state == InIssuance && e.condition == Erc20Escrow.RewardPerObjective
    requires Flat(e.payouts) && e.escrowBalance == 6000 * Unit - 4 * Users * Payout
    requires Balances(e.userBalances, 0, Users, 4 * Payout) && PaidSets(e.rewarded, 0, Users, Middle)
    modifies e`escrowBalance, e`userBalances, e`rewarded
    ensures e.Valid() && e.escrowBalance == 6000 * Unit - 70 * Payout
    ensures Balances(e.userBalances, 0, 5, 4 * Payout) && Balances(e.userBalances, 5, Users, 5 * Payout)
  {
    var k := 5;
    while k < Users
      invariant 5 <= k <= Users && e.Valid()
      invariant e.escrowBalance == 6000 * Unit - (4 * Users + k - 5) * 200_000_000_000_000
      invariant Balances(e.userBalances, 0, 5, 4 * Payout)
      invariant Balances(e.userBalances, 5, k, 5 * Payout) && Balances(e.userBalances, k, Users, 4 * Payout)
      invariant PaidSets(e.rewarded, 5, k, All) && PaidSets(e.rewarded, k, Users, Middle)
    {
      ghost var balances, paid := e.userBalances, e.rewarded;
      CompleteLast(e, UserAt(k));
      CreditKeepsOthers(balances, e.userBalances, 0, 5, 4 * Payout, k, Payout);
      CreditMovesBoundary(balances, e.userBalances, 5, k, Users, 5 * Payout, 4 * Payout);
      MarkMovesBoundary(paid, e.rewarded, 5, k, Users, All, Middle);
      k := k + 1;
    }
  }

  /** The first five users withdraw everything; the budget does not move. */
  method FirstFiveWithdraw(e: Erc20Escrow.Escrow)
    requires e.Valid() && e.state == InIssuance
    requires Balances(e.userBalances, 0, 5, 4 * Payout) && Balances(e.userBalances, 5, Users, 5 * Payout)
    modifies e`userBalances, e`tokenBalance, e`transferred
    ensures e.Valid() && e.escrowBalance == old(e.escrowBalance)
    ensures e.tokenBalance == old(e.tokenBalance) - 20 * Payout
    ensures forall j :: 0 <= j < Users ==> e.UserBalance(UserAt(j)) == (if j < 5 then 0 else 5 * Payout)
  {
    var k := 0;
    while k < 5
      invariant 0 <= k <= 5 && e.Valid() && e.escrowBalance == old(e.escrowBalance)
      invariant e.tokenBalance == old(e.tokenBalance) - 4 * k * Payout
      invariant forall j :: 0 <= j < Users ==>
                  e.UserBalance(UserAt(j)) == (if j < k then 0 else if j < 5 then 4 * Payout else 5 * Payout)
    {
      var o := e.UserWithdrawAll(UserAt(k));
      assert o == Ok;
      k := k + 1;
    }
  }

  /**
   * Seventy completions pay 0.014 in all and the grants nothing; the first
   * user holds 0.0008 from four completions; after five users withdraw
   * 0.0008 each, 0.004 has left the escrow, 0.01 is still claimable, and
   * the budget is 0.586.
   */
  method ReplayAnalytics() returns (e: Erc20Escrow.Escrow, firstUser: nat, rewarded: nat, withdrawn: nat,
                                    unclaimed: nat, budget: nat)
    ensures e.Valid() && withdrawn == Ledger.Total(e.transferred) && unclaimed == Ledger.Total(e.userBalances)
    ensures firstUser == 8 * Unit && rewarded == 140 * Unit
    ensures withdrawn == 40 * Unit && unclaimed == 100 * Unit && budget == 5860 * Unit
  {
    e := ScenarioBudget.FundedPerObjective(6000 * Unit, Payout);
    assert Flat(e.payouts);
    FirstRound(e);
    SecondRound(e);
    ThirdRound(e);
    firstUser, rewarded := e.UserBalance(UserAt(0)), 6000 * Unit - e.escrowBalance;
    FirstFiveWithdraw(e);
    withdrawn, unclaimed, budget := e.totalDeposited - e.tokenBalance, e.tokenBalance - e.escrowBalance, e.escrowBalance;
  }
}
