/**
 * The fungible escrow's budget on the numbers of its tests: the revised
 * escrow without a deposit period, topped up before and during issuance
 * (test/0.04/TestNoDepositPeriod.ts), and exact base-unit payouts and
 * withdrawals for tokens of 18 and of 6 decimals
 * (test/0.03/TestERC20EscrowUnits.ts). Completions are handed to the
 * escrow as the program would hand them.
 */
module ScenarioBudget {
  import opened Types
  import opened EscrowStates
  import Rewards
  import Ledger
  import Erc20Escrow
  import Program
  import ScenarioPoints

  const Owner: Address := 1
  const Relay: Address := 5
  const UserOne: Address := 10
  const UserTwo: Address := 11
  const Key: nat := 77
  const EndDate: nat := 100
  const Thresholds: seq<nat> := [0, 400, 4400, 7000, 7800]

  /** 0.01 of an 18-decimal token, in base units. */
  const Cent: nat := 10_000_000_000_000_000

  /** The points of the standard program after completing objectives 0, 1 and 2 in order. */
  const Reached: seq<nat> := [0, 400, 800, 1800]

  /** The per-objective table 0.01, 0.01, 0.01, 0.01, 0.02. */
  function Table(): (r: seq<nat>)
    ensures |r| == 5 && r[0] == Cent && r[1] == Cent && r[2] == Cent
  {
    [Cent, Cent, Cent, Cent, 2 * Cent]
  }

  /** The event of `user` completing objective `i` of the standard program, from `p` to `q` points. */
  function CompletionEvent(user: Address, i: nat, p: nat, q: nat): (ev: Progress)
    ensures ev.user == user && ev.trigger == Completion(i)
  {
    Program.ProgressFor(Thresholds, user, Completion(i), p, q, false)
  }

  /**
   * Under a per-objective table, a first completion of objective `i` moves
   * the table entry from the budget to the user and marks the objective
   * paid for that user; nothing else changes.
   */
  method PayCompletion(e: Erc20Escrow.Escrow, ev: Progress, i: nat)
    requires e.Valid() && e.state == InIssuance && e.condition == Erc20Escrow.RewardPerObjective
    requires ev.trigger == Completion(i) && i < |e.payouts|
    requires ObjectiveKey(i) !in e.Rewarded(ev.user) && e.payouts[i] <= e.escrowBalance
    modifies e`escrowBalance, e`userBalances, e`rewarded
    ensures e.Valid()
    ensures e.escrowBalance == old(e.escrowBalance) - e.payouts[i]
    ensures e.userBalances == old(e.userBalances)[ev.user := old(e.UserBalance(ev.user)) + e.payouts[i]]
    ensures e.rewarded == old(e.rewarded)[ev.user := old(e.Rewarded(ev.user)) + {ObjectiveKey(i)}]
  {
    Erc20Escrow.RewardPerObjectivePaysEntry(e.rewardAmount, e.payouts, e.tierCount, ev, e.Rewarded(ev.user), i);
    assert Rewards.Unpaid([ObjectiveKey(i)], e.Rewarded(ev.user)) == [ObjectiveKey(i)];
    assert e.OwedFor(ev) == [ObjectiveKey(i)];
    assert Rewards.KeySet([ObjectiveKey(i)]) == {ObjectiveKey(i)};
    var o := e.HandleRewards(ev);
    assert o == Ok;
  }

  // ---------------------------------------------------------------------
  // No deposit period

  /** The revised escrow waits for its settings from deployment on, and the deposit key keeps it there. */
  method DeployWithoutDepositPeriod() returns (e: Erc20Escrow.Escrow, initial: EscrowState, keyed: EscrowState)
    ensures fresh(e) && e.Valid() && e.creator == Owner && e.noDepositPeriod && Owner in e.approvedDepositors
    ensures e.objectiveCount == 5 && e.tierCount == 5
    ensures initial == AwaitingEscrowSettings && keyed == AwaitingEscrowSettings
    ensures e.state == AwaitingEscrowSettings && e.depositKey == Some(Key)
    ensures e.condition == Erc20Escrow.Condition.NotSet
    ensures e.escrowBalance == 0 && e.tokenBalance == 0 && e.totalDeposited == 0
    ensures e.userBalances == map[] && e.rewarded == map[] && e.transferred == map[]
  {
    e := new Erc20Escrow.Escrow(Owner, 5, 5, {Owner}, true);
    initial := e.state;
    var o := e.SetDepositKey(Owner, Key, 0);
    assert o == Ok;
    keyed := e.state;
  }

  /** 0.8 deposited, the per-objective table set (the escrow is armed), then 0.2 more: the budget is 1.0. */
  method ConfigureAndTopUp(e: Erc20Escrow.Escrow) returns (first: nat, armed: EscrowState, second: nat)
    requires e.Valid() && e.creator == Owner && e.noDepositPeriod && Owner in e.approvedDepositors
    requires e.objectiveCount == 5 && e.state == AwaitingEscrowSettings && e.depositKey == Some(Key)
    requires e.escrowBalance == 0 && e.tokenBalance == 0
    modifies e`escrowBalance, e`tokenBalance, e`totalDeposited, e`condition, e`payouts, e`state
    ensures e.Valid() && e.state == Idle
    ensures e.condition == Erc20Escrow.RewardPerObjective && e.payouts == Table()
    ensures first == 80 * Cent && armed == Idle && second == 100 * Cent
    ensures e.escrowBalance == 100 * Cent && e.tokenBalance == 100 * Cent
  {
    var o := e.DepositBudget(Owner, 80 * Cent, Key, 0);
    assert o == Ok;
    first := e.escrowBalance;
    o := e.SetEscrowSettingsAdvanced(Owner, Erc20Escrow.RewardPerObjective, Table(), 0);
    assert o == Ok;
    armed := e.state;
    o := e.DepositBudget(Owner, 20 * Cent, Key, 0);
    assert o == Ok;
    second := e.escrowBalance;
  }

  /** Linking the armed escrow to a program and starting the program starts issuance; the program was Idle till then. */
  method Launch(e: Erc20Escrow.Escrow) returns (before: Program.LoyaltyState, after: Program.LoyaltyState)
    requires e.Valid() && e.objectiveCount == 5 && e.tierCount == 5
    requires e.state == Idle && e.condition == Erc20Escrow.RewardPerObjective
    modifies e
    ensures e.Started()
    ensures before == Program.LoyaltyState.Idle && after == Program.LoyaltyState.Active
  {
    var p := new Program.LoyaltyProgram(Owner, Relay, ScenarioPoints.StandardObjectives(),
                                        RewardType.ERC20, true, ScenarioPoints.StandardTiers());
    var o := p.SetEscrowContract(Owner, Program.Fungible(e));
    assert o == Ok;
    before := p.state;
    o := p.SetLoyaltyProgramActive(Owner);
    assert o == Ok;
    after := p.state;
  }

  /** The relayer completes objectives 0, 1 and 2 for both users in turn: 0.03 each, 0.94 left. */
  method CompleteFirstThree(e: Erc20Escrow.Escrow)
    requires e.Valid() && e.state == InIssuance && e.condition == Erc20Escrow.RewardPerObjective
    requires e.payouts == Table() && e.escrowBalance == 100 * Cent
    requires e.userBalances == map[] && e.rewarded == map[]
    modifies e`escrowBalance, e`userBalances, e`rewarded
    ensures e.Valid()
    ensures e.UserBalance(UserOne) == 3 * Cent && e.UserBalance(UserTwo) == 3 * Cent
    ensures e.escrowBalance == 94 * Cent
  {
    var i := 0;
    while i < 3
      invariant 0 <= i <= 3 && e.Valid()
      invariant e.escrowBalance == (100 - 2 * i) * Cent
      invariant e.UserBalance(UserOne) == i * Cent && e.UserBalance(UserTwo) == i * Cent
      invariant forall k :: i <= k ==> ObjectiveKey(k) !in e.Rewarded(UserOne)
      invariant forall k :: i <= k ==> ObjectiveKey(k) !in e.Rewarded(UserTwo)
    {
      PayCompletion(e, CompletionEvent(UserOne, i, Reached[i], Reached[i + 1]), i);
      PayCompletion(e, CompletionEvent(UserTwo, i, Reached[i], Reached[i + 1]), i);
      i := i + 1;
    }
  }

  /**
   * The first user withdraws everything while issuance goes on (the budget
   * stays 0.94), the creator tops up 0.2 during issuance (1.14), and the
   * escrow holds 1.17: the budget plus the second user's unclaimed 0.03.
   */
  method WithdrawAndTopUp(e: Erc20Escrow.Escrow) returns (afterWithdraw: nat, afterTopUp: nat)
    requires e.Valid() && e.state == InIssuance && e.noDepositPeriod && Owner in e.approvedDepositors
    requires e.depositKey == Some(Key) && e.tokenBalance == 100 * Cent && e.escrowBalance == 94 * Cent
    requires e.UserBalance(UserOne) == 3 * Cent && e.UserBalance(UserTwo) == 3 * Cent
    requires e.transferred == map[]
    modifies e`userBalances, e`tokenBalance, e`transferred, e`escrowBalance, e`totalDeposited
    ensures e.Valid()
    ensures e.UserBalance(UserOne) == 0 && Ledger.BalanceOf(e.transferred, UserOne) == 3 * Cent
    ensures afterWithdraw == 94 * Cent && afterTopUp == 114 * Cent
    ensures e.tokenBalance == 117 * Cent && e.UserBalance(UserTwo) == 3 * Cent
  {
    var o := e.UserWithdrawAll(UserOne);
    assert o == Ok;
    afterWithdraw := e.escrowBalance;
    o := e.DepositBudget(Owner, 20 * Cent, Key, 0);
    assert o == Ok;
    afterTopUp := e.escrowBalance;
  }

  /**
   * The whole revised flow: settings await from the start, deposits are
   * taken before and after the settings and during issuance, payouts move
   * table entries to the users, and a withdrawal leaves the budget alone.
   */
  method ReplayNoDepositPeriod() returns (afterKey: EscrowState, first: nat, second: nat, afterPayouts: nat,
                                          afterWithdraw: nat, afterTopUp: nat, held: nat)
    ensures afterKey == AwaitingEscrowSettings
    ensures first == 80 * Cent && second == 100 * Cent && afterPayouts == 94 * Cent
    ensures afterWithdraw == 94 * Cent && afterTopUp == 114 * Cent && held == 117 * Cent
  {
    var e, initial, armed, before, after;
    e, initial, afterKey := DeployWithoutDepositPeriod();
    first, armed, second := ConfigureAndTopUp(e);
    before, after := Launch(e);
    CompleteFirstThree(e);
    afterPayouts := e.escrowBalance;
    afterWithdraw, afterTopUp := WithdrawAndTopUp(e);
    held := e.tokenBalance;
  }

  // ---------------------------------------------------------------------
  // Base units

  /**
   * An escrow funded with `deposit` base units during its deposit period,
   * paying `payout` per objective once the period has ended, and started.
   */
  method FundedPerObjective(deposit: nat, payout: nat) returns (e: Erc20Escrow.Escrow)
    requires 0 < deposit
    ensures fresh(e) && e.Valid() && e.state == InIssuance
    ensures e.condition == Erc20Escrow.RewardPerObjective && e.payouts == [payout, payout, payout, payout, payout]
    ensures e.escrowBalance == deposit && e.tokenBalance == deposit && e.totalDeposited == deposit
    ensures e.userBalances == map[] && e.rewarded == map[] && e.transferred == map[]
  {
    e := FundedInDepositPeriod(deposit);
    assert e.StateNow(EndDate) == AwaitingEscrowSettings;
    var o := e.SetEscrowSettingsAdvanced(Owner, Erc20Escrow.RewardPerObjective, [payout, payout, payout, payout, payout], EndDate);
    assert o == Ok;
    o := e.Activate();
    assert o == Ok;
  }

  /** The escrow with a deposit period ending at `EndDate`, funded with `deposit` at time 0. */
  method FundedInDepositPeriod(deposit: nat) returns (e: Erc20Escrow.Escrow)
    ensures fresh(e) && e.Valid() && e.creator == Owner && !e.noDepositPeriod
    ensures e.objectiveCount == 5 && e.tierCount == 5
    ensures e.state == DepositPeriod && e.depositEndDate == EndDate && e.condition == Erc20Escrow.Condition.NotSet
    ensures e.escrowBalance == deposit && e.tokenBalance == deposit && e.totalDeposited == deposit
    ensures e.userBalances == map[] && e.rewarded == map[] && e.transferred == map[]
  {
    e := new Erc20Escrow.Escrow(Owner, 5, 5, {Owner}, false);
    var o := e.SetDepositKey(Owner, Key, EndDate);
    assert o == Ok;
    o := e.DepositBudget(Owner, deposit, Key, 0);
    assert o == Ok;
  }

  /** Two completions by the same user pay 2 x `payout` out of the budget to that user. */
  method PayTwice(e: Erc20Escrow.Escrow)
    requires e.Valid() && e.state == InIssuance && e.condition == Erc20Escrow.RewardPerObjective
    requires |e.payouts| == 5 && e.payouts[0] == e.payouts[1] && 2 * e.payouts[0] <= e.escrowBalance
    requires e.userBalances == map[] && e.rewarded == map[]
    modifies e`escrowBalance, e`userBalances, e`rewarded
    ensures e.Valid()
    ensures e.escrowBalance == old(e.escrowBalance) - 2 * e.payouts[0]
    ensures e.UserBalance(UserOne) == 2 * e.payouts[0]
  {
    PayCompletion(e, CompletionEvent(UserOne, 0, 0, 400), 0);
    PayCompletion(e, CompletionEvent(UserOne, 1, 400, 800), 1);
  }

  /** Withdrawing `part` leaves exactly the rest; withdrawing all leaves 0 and the wallet holds the whole balance. */
  method WithdrawInTwoSteps(e: Erc20Escrow.Escrow, part: nat) returns (afterPart: nat, afterAll: nat, wallet: nat)
    requires e.Valid() && e.state == InIssuance && part <= e.UserBalance(UserOne) && e.transferred == map[]
    modifies e`userBalances, e`tokenBalance, e`transferred
    ensures afterPart == old(e.UserBalance(UserOne)) - part && afterAll == 0
    ensures wallet == old(e.UserBalance(UserOne)) && e.escrowBalance == old(e.escrowBalance)
  {
    var o := e.UserWithdraw(UserOne, part);
    assert o == Ok;
    afterPart := e.UserBalance(UserOne);
    o := e.UserWithdrawAll(UserOne);
    assert o == Ok;
    afterAll, wallet := e.UserBalance(UserOne), Ledger.BalanceOf(e.transferred, UserOne);
  }

  /** Two payouts, then a partial withdrawal of `part` and a withdrawal of everything left. */
  method PayTwiceAndWithdraw(e: Erc20Escrow.Escrow, part: nat)
    returns (budget: nat, credited: nat, afterPart: nat, afterAll: nat, wallet: nat)
    requires e.Valid() && e.state == InIssuance && e.condition == Erc20Escrow.RewardPerObjective
    requires |e.payouts| == 5 && e.payouts[0] == e.payouts[1] && 2 * e.payouts[0] <= e.escrowBalance
    requires part <= 2 * e.payouts[0]
    requires e.userBalances == map[] && e.rewarded == map[] && e.transferred == map[]
    modifies e`escrowBalance, e`userBalances, e`rewarded, e`tokenBalance, e`transferred
    ensures budget == old(e.escrowBalance) - 2 * e.payouts[0] && credited == 2 * e.payouts[0]
    ensures afterPart == credited - part && afterAll == 0 && wallet == credited
  {
    PayTwice(e);
    budget, credited := e.escrowBalance, e.UserBalance(UserOne);
    afterPart, afterAll, wallet := WithdrawInTwoSteps(e, part);
  }

  /**
   * An 18-decimal token: 0.6 deposited, 0.0002 per objective; after two
   * completions the budget is 0.5996 and the user holds 0.0004, 0.0003
   * after withdrawing 0.0001, and the wallet ends with 0.0004.
   */
  method ReplayEighteenDecimals() returns (budget: nat, credited: nat, afterPart: nat, afterAll: nat, wallet: nat)
    ensures budget == 599_600_000_000_000_000 && credited == 400_000_000_000_000
    ensures afterPart == 300_000_000_000_000 && afterAll == 0 && wallet == 400_000_000_000_000
  {
    var e := FundedPerObjective(600_000_000_000_000_000, 200_000_000_000_000);
    budget, credited, afterPart, afterAll, wallet := PayTwiceAndWithdraw(e, 100_000_000_000_000);
  }

  /**
   * A 6-decimal token: 100000000 tokens deposited, 1000000 per objective;
   * after two completions the budget is 98000000 tokens, withdrawing
   * 1000000 leaves 1000000, and the wallet ends with 2000000.
   */
  method ReplaySixDecimals() returns (budget: nat, credited: nat, afterPart: nat, afterAll: nat, wallet: nat)
    ensures budget == 98_000_000_000_000 && credited == 2_000_000_000_000
    ensures afterPart == 1_000_000_000_000 && afterAll == 0 && wallet == 2_000_000_000_000
  {
    var e := FundedPerObjective(100_000_000_000_000, 1_000_000_000_000);
    budget, credited, afterPart, afterAll, wallet := PayTwiceAndWithdraw(e, 1_000_000_000_000);
  }
}
