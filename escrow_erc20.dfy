/**
 * The fungible-token escrow of a loyalty program (LoyaltyERC20Escrow).
 * It holds a budget in base units of one reward token, pays rewards from
 * that budget into per-user claimable balances under one configured
 * reward condition, and lets users, and after the end the creator, move
 * tokens out. The escrow's own token balance always equals the budget plus
 * the claimable balances, and everything ever deposited is either still
 * held or has been transferred out.
 *
 * `noDepositPeriod` selects the later revision of the contract: it starts
 * awaiting settings, keeps that state when the deposit key is set, and
 * accepts budget top-ups in every live state instead of during a deposit
 * window only.
 */
module Erc20Escrow {
  import opened Types
  import opened EscrowStates
  import Ledger
  import Rewards

  /** ERC20RewardCondition. */
  datatype Condition =
    | NotSet
    | AllObjectivesComplete
    | SingleObjective
    | AllTiersComplete
    | SingleTier
    | PointsTotal
    | RewardPerObjective
    | RewardPerTier

  /** The conditions configured with `setEscrowSettingsBasic`: one flat amount, paid once. */
  predicate Basic(c: Condition)
  {
    c == AllObjectivesComplete || c == SingleObjective || c == AllTiersComplete ||
    c == SingleTier || c == PointsTotal
  }

  /** The conditions configured with `setEscrowSettingsAdvanced`: a payout table by index. */
  predicate PerIndex(c: Condition)
  {
    c == RewardPerObjective || c == RewardPerTier
  }

  /** What each condition watches; the goal is an objective index, a tier index or a points total. */
  function RuleOf(c: Condition, goal: nat): (r: Rewards.Rule)
    requires c != Condition.NotSet
    ensures PerIndex(c) <==> r.EveryObjective? || r.EveryTier?
  {
    match c
    case AllObjectivesComplete => Rewards.AllObjectives
    case SingleObjective => Rewards.OneObjective(goal)
    case AllTiersComplete => Rewards.LastTier
    case SingleTier => Rewards.OneTier(goal)
    case PointsTotal => Rewards.PointsGoal(goal)
    case RewardPerObjective => Rewards.EveryObjective
    case RewardPerTier => Rewards.EveryTier
  }

  /** The index a per-index table is looked up at for a key. */
  function TableIndex(k: RewardKey): Option<nat>
  {
    match k
    case ObjectiveKey(i) => Some(i)
    case TierKey(t) => Some(t)
    case _ => None
  }

  /** The amount paid for one key: the flat amount, or the table entry of the key's index. */
  function Price(c: Condition, amount: nat, payouts: seq<nat>, k: RewardKey): (p: nat)
    ensures !PerIndex(c) ==> p == amount
    ensures PerIndex(c) && k.ObjectiveKey? && k.index < |payouts| ==> p == payouts[k.index]
    ensures PerIndex(c) && k.TierKey? && k.tier < |payouts| ==> p == payouts[k.tier]
  {
    if !PerIndex(c) then amount
    else
      match TableIndex(k)
      case Some(i) => if i < |payouts| then payouts[i] else 0
      case None => 0
  }

  /**
   * The amount paid for a list of keys: nothing for no keys, and the flat
   * amount once per key under a one-off condition.
   */
  function Cost(c: Condition, amount: nat, payouts: seq<nat>, keys: seq<RewardKey>): (r: nat)
    ensures keys == [] ==> r == 0
    ensures !PerIndex(c) ==> r == |keys| * amount
    decreases |keys|
  {
    if keys == [] then 0 else Price(c, amount, payouts, keys[0]) + Cost(c, amount, payouts, keys[1..])
  }

  /** The cost of two lists paid one after the other is the sum of their costs. */
  lemma {:induction false} CostAppend(c: Condition, amount: nat, payouts: seq<nat>,
                                      a: seq<RewardKey>, b: seq<RewardKey>)
    ensures Cost(c, amount, payouts, a + b) == Cost(c, amount, payouts, a) + Cost(c, amount, payouts, b)
    decreases |a|
  {
    if a == [] {
      assert a + b == b;
    } else {
      assert (a + b)[1..] == a[1..] + b;
      CostAppend(c, amount, payouts, a[1..], b);
    }
  }

  /** The table entries of tiers `lo + 1` up to `hi`. */
  function TierTableSum(payouts: seq<nat>, lo: nat, hi: nat): nat
    requires hi < |payouts|
    decreases hi
  {
    if hi <= lo then 0 else TierTableSum(payouts, lo, hi - 1) + payouts[hi]
  }

  /** Paying the keys of tiers `lo + 1 .. hi` costs exactly their table entries. */
  lemma {:induction false} CostOfTierKeys(amount: nat, payouts: seq<nat>, lo: nat, hi: nat)
    requires hi < |payouts|
    ensures Cost(RewardPerTier, amount, payouts, Rewards.TierKeys(lo, hi)) == TierTableSum(payouts, lo, hi)
    decreases hi
  {
    if lo < hi {
      CostOfTierKeys(amount, payouts, lo, hi - 1);
      CostAppend(RewardPerTier, amount, payouts, Rewards.TierKeys(lo, hi - 1), [TierKey(hi)]);
      assert Cost(RewardPerTier, amount, payouts, [TierKey(hi)]) == payouts[hi];
    }
  }

  /** Dropping paid keys drops nothing when none of them was paid. */
  lemma {:induction false} UnpaidOfFresh(keys: seq<RewardKey>, paid: set<RewardKey>)
    requires forall i :: 0 <= i < |keys| ==> keys[i] !in paid
    ensures Rewards.Unpaid(keys, paid) == keys
    decreases |keys|
  {
    if keys != [] {
      UnpaidOfFresh(keys[1..], paid);
    }
  }

  /**
   * RewardPerTier pays, in one call, the table entry of every tier crossed
   * by the call that was not paid before: a jump from tier 0 to tier 3 under
   * the table [0, 1, 1, 2, 4] pays 1 + 1 + 2.
   */
  lemma RewardPerTierPaysCrossedTiers(amount: nat, payouts: seq<nat>, tierCount: nat,
                                      ev: Progress, paid: set<RewardKey>)
    requires ev.newTier < |payouts|
    requires forall t :: ev.oldTier < t <= ev.newTier ==> TierKey(t) !in paid
    ensures Cost(RewardPerTier, amount, payouts,
                 Rewards.Owed(RuleOf(RewardPerTier, 0), tierCount, ev, paid))
            == TierTableSum(payouts, ev.oldTier, ev.newTier)
  {
    var keys := Rewards.TierKeys(ev.oldTier, ev.newTier);
    UnpaidOfFresh(keys, paid);
    CostOfTierKeys(amount, payouts, ev.oldTier, ev.newTier);
  }

  /** RewardPerObjective pays the table entry of the objective just completed, once. */
  lemma RewardPerObjectivePaysEntry(amount: nat, payouts: seq<nat>, tierCount: nat,
                                    ev: Progress, paid: set<RewardKey>, i: nat)
    requires ev.trigger == Completion(i) && i < |payouts|
    ensures Cost(RewardPerObjective, amount, payouts,
                 Rewards.Owed(RuleOf(RewardPerObjective, 0), tierCount, ev, paid))
            == if ObjectiveKey(i) in paid then 0 else payouts[i]
  {
  }

  /** A basic condition pays its flat amount for the one key it watches, or nothing. */
  lemma BasicPaysAmountOrNothing(c: Condition, goal: nat, amount: nat, payouts: seq<nat>,
                                 tierCount: nat, ev: Progress, paid: set<RewardKey>)
    requires Basic(c)
    ensures var cost := Cost(c, amount, payouts, Rewards.Owed(RuleOf(c, goal), tierCount, ev, paid));
            cost == 0 || cost == amount
  {
    var keys := Rewards.Owed(RuleOf(c, goal), tierCount, ev, paid);
    assert |Rewards.Candidates(RuleOf(c, goal), tierCount, ev)| <= 1;
    assert |keys| <= 1;
  }

  class Escrow {
    const creator: Address
    const objectiveCount: nat
    const tierCount: nat
    const noDepositPeriod: bool
    const approvedDepositors: set<Address>

    var state: EscrowState
    var beforeFreeze: EscrowState
    var depositKey: Option<nat>
    var depositEndDate: nat

    var condition: Condition
    var rewardGoal: nat
    var rewardAmount: nat
    var payouts: seq<nat>

    /** The budget not yet paid out. */
    var escrowBalance: nat
    /** Rewards paid out and not yet withdrawn, per user. */
    var userBalances: map<Address, nat>
    /** The once-only keys each user has been paid for. */
    var rewarded: map<Address, set<RewardKey>>

    /** The escrow contract's own balance in the reward token. */
    var tokenBalance: nat
    /** Everything ever deposited. */
    var totalDeposited: nat
    /** Tokens transferred out of the escrow, per receiving wallet. */
    var transferred: map<Address, nat>

    /** The invariant of every escrow: conservation and a well-formed payout table. */
    ghost predicate Valid()
      reads this
    {
      Conserved() && TableFits()
    }

    /**
     * The escrow's token balance is the budget plus the claimable balances,
     * and everything deposited is either still held or was transferred out.
     */
    ghost predicate Conserved()
      reads this`tokenBalance, this`escrowBalance, this`userBalances, this`totalDeposited, this`transferred
    {
      tokenBalance == escrowBalance + Ledger.Total(userBalances) &&
      totalDeposited == tokenBalance + Ledger.Total(transferred)
    }

    /** A per-index table has one entry per objective or per tier, and tier 0 never pays. */
    predicate TableFits()
      reads this`condition, this`payouts
    {
      (condition == RewardPerObjective ==> |payouts| == objectiveCount) &&
      (condition == RewardPerTier ==> |payouts| == tierCount && 0 < |payouts| && payouts[0] == 0)
    }

    /** `lookupUserBalance`. */
    function UserBalance(user: Address): nat
      reads this`userBalances
    {
      Ledger.BalanceOf(userBalances, user)
    }

    /** The keys a user has already been paid for. */
    function Rewarded(user: Address): set<RewardKey>
      reads this`rewarded
    {
      if user in rewarded then rewarded[user] else {}
    }

    /** The state as read at time `now`. */
    function StateNow(now: nat): EscrowState
      reads this`state, this`depositEndDate
    {
      StateAt(state, depositEndDate, now)
    }

    /** Whether a deposit is accepted at time `now`. */
    predicate DepositsOpen(now: nat)
      reads this`state, this`depositEndDate
    {
      if noDepositPeriod then state != Frozen && !Terminal(state)
      else StateNow(now) == DepositPeriod
    }

    /** The keys an event makes payable under the configured condition. */
    function OwedFor(ev: Progress): seq<RewardKey>
      requires condition != Condition.NotSet
      reads this`condition, this`rewardGoal, this`rewarded
    {
      Rewards.Owed(RuleOf(condition, rewardGoal), tierCount, ev, Rewarded(ev.user))
    }

    /** What paying those keys costs. */
    function CostFor(ev: Progress): nat
      requires condition != Condition.NotSet
      reads this`condition, this`rewardGoal, this`rewarded, this`rewardAmount, this`payouts
    {
      Cost(condition, rewardAmount, payouts, OwedFor(ev))
    }

    /**
     * The escrow as deployed for a program with `objectiveCount` objectives
     * and `tierCount` tiers, the default tier included.
     */
    constructor (creator: Address, objectiveCount: nat, tierCount: nat,
                 approvedDepositors: set<Address>, noDepositPeriod: bool)
      ensures Valid()
      ensures this.creator == creator && this.objectiveCount == objectiveCount
      ensures this.tierCount == tierCount && this.noDepositPeriod == noDepositPeriod
      ensures this.approvedDepositors == approvedDepositors
      ensures state == (if noDepositPeriod then AwaitingEscrowSettings else Idle)
      ensures depositKey == None && condition == Condition.NotSet
      ensures escrowBalance == 0 && userBalances == map[] && rewarded == map[]
      ensures tokenBalance == 0 && totalDeposited == 0 && transferred == map[]
    {
      this.creator := creator;
      this.objectiveCount := objectiveCount;
      this.tierCount := tierCount;
      this.noDepositPeriod := noDepositPeriod;
      this.approvedDepositors := approvedDepositors;
      state := if noDepositPeriod then AwaitingEscrowSettings else Idle;
      beforeFreeze := Idle;
      depositKey := None;
      depositEndDate := 0;
      condition := Condition.NotSet;
      rewardGoal := 0;
      rewardAmount := 0;
      payouts := [];
      escrowBalance := 0;
      userBalances := map[];
      rewarded := map[];
      tokenBalance := 0;
      totalDeposited := 0;
      transferred := map[];
    }

    /**
     * `setDepositKey(key, depositEndDate)`: the creator sets the key once;
     * this opens the deposit period, except in the revision without one.
     */
    method SetDepositKey(caller: Address, key: nat, endDate: nat) returns (o: Outcome)
      requires Valid()
      modifies this`depositKey, this`depositEndDate, this`state
      ensures Valid()
      ensures o == (if caller != creator then Err(Unauthorized)
                    else if old(depositKey).Some? then Err(AlreadySet)
                    else if old(state) != (if noDepositPeriod then AwaitingEscrowSettings else Idle)
                    then Err(InvalidState)
                    else Ok)
      ensures o.Err? ==> unchanged(this)
      ensures o.Ok? ==> depositKey == Some(key) && depositEndDate == endDate
      ensures o.Ok? ==> state == (if noDepositPeriod then AwaitingEscrowSettings else DepositPeriod)
    {
      if caller != creator {
        return Err(Unauthorized);
      }
      if depositKey.Some? {
        return Err(AlreadySet);
      }
      if state != (if noDepositPeriod then AwaitingEscrowSettings else Idle) {
        return Err(InvalidState);
      }
      depositKey := Some(key);
      depositEndDate := endDate;
      if !noDepositPeriod {
        state := DepositPeriod;
      }
      o := Ok;
    }

    /** `depositBudget(amount, key)`: an approved depositor adds base units to the budget. */
    method DepositBudget(caller: Address, amount: nat, key: nat, now: nat) returns (o: Outcome)
      requires Valid()
      modifies this`escrowBalance, this`tokenBalance, this`totalDeposited
      ensures Valid()
      ensures o == (if caller !in approvedDepositors then Err(NotApprovedDepositor)
                    else if old(depositKey) != Some(key) then Err(InvalidDepositKey)
                    else if !old(DepositsOpen(now)) then Err(InvalidState)
                    else Ok)
      ensures o.Err? ==> unchanged(this)
      ensures o.Ok? ==> escrowBalance == old(escrowBalance) + amount
      ensures o.Ok? ==> tokenBalance == old(tokenBalance) + amount
      ensures o.Ok? ==> totalDeposited == old(totalDeposited) + amount
    {
      if caller !in approvedDepositors {
        return Err(NotApprovedDepositor);
      }
      if depositKey != Some(key) {
        return Err(InvalidDepositKey);
      }
      if !DepositsOpen(now) {
        return Err(InvalidState);
      }
      escrowBalance := escrowBalance + amount;
      tokenBalance := tokenBalance + amount;
      totalDeposited := totalDeposited + amount;
      o := Ok;
    }

    /** Why a basic setting would be refused, if it would. */
    function BasicSettingsCheck(caller: Address, c: Condition, goal: nat, now: nat): Outcome
      reads this
    {
      if caller != creator then Err(Unauthorized)
      else if StateNow(now) != AwaitingEscrowSettings then Err(InvalidState)
      else if !Basic(c) then Err(InvalidCondition)
      else if c == SingleObjective && goal >= objectiveCount then Err(InvalidGoal)
      else if c == SingleTier && (goal == 0 || goal >= tierCount) then Err(InvalidGoal)
      else Ok
    }

    /**
     * `setEscrowSettingsBasic(condition, goal, amount)`: records a one-off
     * condition and arms the escrow (Idle).
     */
    method SetEscrowSettingsBasic(caller: Address, c: Condition, goal: nat, amount: nat, now: nat)
      returns (o: Outcome)
      requires Valid()
      modifies this`condition, this`rewardGoal, this`rewardAmount, this`state
      ensures Valid()
      ensures o == old(BasicSettingsCheck(caller, c, goal, now))
      ensures o.Err? ==> unchanged(this)
      ensures o.Ok? ==> condition == c && rewardGoal == goal && rewardAmount == amount && state == Idle
    {
      o := BasicSettingsCheck(caller, c, goal, now);
      if o.Ok? {
        condition, rewardGoal, rewardAmount := c, goal, amount;
        state := Idle;
      }
    }

    /** Why an advanced setting would be refused, if it would. */
    function AdvancedSettingsCheck(caller: Address, c: Condition, table: seq<nat>, now: nat): Outcome
      reads this
    {
      if caller != creator then Err(Unauthorized)
      else if StateNow(now) != AwaitingEscrowSettings then Err(InvalidState)
      else if !PerIndex(c) then Err(InvalidCondition)
      else if c == RewardPerObjective && |table| != objectiveCount then Err(InvalidPayouts)
      else if c == RewardPerTier && (|table| != tierCount || |table| == 0 || table[0] != 0)
      then Err(InvalidPayouts)
      else Ok
    }

    /**
     * `setEscrowSettingsAdvanced(condition, payouts)`: records a per-index
     * table, one entry per objective or per tier; a non-zero entry for
     * tier 0 is refused.
     */
    method SetEscrowSettingsAdvanced(caller: Address, c: Condition, table: seq<nat>, now: nat)
      returns (o: Outcome)
      requires Valid()
      modifies this`condition, this`payouts, this`state
      ensures Valid()
      ensures o == old(AdvancedSettingsCheck(caller, c, table, now))
      ensures o.Err? ==> unchanged(this)
      ensures o.Ok? ==> condition == c && payouts == table && state == Idle
    {
      o := AdvancedSettingsCheck(caller, c, table, now);
      if o.Ok? {
        condition, payouts := c, table;
        state := Idle;
      }
    }

    /** Activation moved the lifecycle state to InIssuance and nothing else. */
    twostate predicate Started()
      reads this
    {
      state == InIssuance &&
      unchanged(this`beforeFreeze, this`depositKey, this`depositEndDate,
        this`condition, this`rewardGoal, this`rewardAmount, this`payouts,
        this`escrowBalance, this`userBalances, this`rewarded,
        this`tokenBalance, this`totalDeposited, this`transferred)
    }

    /** Activation by the program: an armed escrow starts issuing. */
    method Activate() returns (o: Outcome)
      requires Valid()
      modifies this`state
      ensures Valid()
      ensures o == (if old(state) == Idle && old(condition) != Condition.NotSet then Ok else Err(EscrowNotReady))
      ensures o.Err? ==> unchanged(this)
      ensures o.Ok? ==> Started()
    {
      if state != Idle || condition == Condition.NotSet {
        return Err(EscrowNotReady);
      }
      state := InIssuance;
      o := Ok;
    }

    /** `emergencyFreeze(freeze)`, creator only. */
    method EmergencyFreeze(caller: Address, freeze: bool) returns (o: Outcome)
      requires Valid()
      modifies this`state, this`beforeFreeze
      ensures Valid()
      ensures caller != creator ==> o == Err(Unauthorized)
      ensures caller == creator ==>
        (o.Ok? <==> FreezeStep(old(state), old(beforeFreeze), freeze).Success?)
      ensures o.Err? ==> unchanged(this)
      ensures o.Ok? ==> (state, beforeFreeze) == FreezeStep(old(state), old(beforeFreeze), freeze).value
    {
      if caller != creator {
        return Err(Unauthorized);
      }
      var r := FreezeStep(state, beforeFreeze, freeze);
      if r.Failure? {
        return Err(r.error);
      }
      state, beforeFreeze := r.value.0, r.value.1;
      o := Ok;
    }

    /** `cancelProgramEscrow()`, creator only and final. */
    method CancelProgramEscrow(caller: Address) returns (o: Outcome)
      requires Valid()
      modifies this`state
      ensures Valid()
      ensures o == (if caller != creator then Err(Unauthorized) else CancelGate(old(state)))
      ensures o.Err? ==> unchanged(this)
      ensures o.Ok? ==> state == Canceled
    {
      if caller != creator {
        return Err(Unauthorized);
      }
      o := CancelGate(state);
      if o.Ok? {
        state := Canceled;
      }
    }

    /** The outcome and effect of `HandleRewards(ev)` returning `o`. */
    twostate predicate Handled(ev: Progress, o: Outcome)
      reads this
    {
      && (old(state) == Canceled ==> o == Ok && unchanged(this))
      && (old(state) != Canceled && old(condition) == Condition.NotSet ==> o == Err(ConditionNotSet))
      && ((old(state) != Canceled && old(condition) != Condition.NotSet &&
               old(state) != InIssuance && old(state) != Frozen) ==> o == Err(NotActive))
      && ((old(state) == InIssuance || old(state) == Frozen) && old(condition) != Condition.NotSet ==>
              (o.Ok? <==> old(CostFor(ev)) <= old(escrowBalance)))
      && (o.Err? ==> unchanged(this))
      && (o.Ok? && old(state) != Canceled ==>
        old(condition) != Condition.NotSet &&
        escrowBalance == old(escrowBalance) - old(CostFor(ev)) &&
        userBalances == old(userBalances)[ev.user := old(UserBalance(ev.user)) + old(CostFor(ev))] &&
        rewarded == old(rewarded)[ev.user := old(Rewarded(ev.user)) + Rewards.KeySet(old(OwedFor(ev)))])
    }

    /**
     * The evaluator the program calls after each completion or grant. A
     * canceled escrow accepts the event and pays nothing. Otherwise every
     * owed key is priced and the total moves from the budget to the user's
     * balance in one step, and the keys are remembered as paid; a budget
     * that cannot cover the total refuses the whole call.
     */
    method HandleRewards(ev: Progress) returns (o: Outcome)
      requires Valid()
      modifies this`escrowBalance, this`userBalances, this`rewarded
      ensures Valid()
      ensures Handled(ev, o)
    {
      if state == Canceled {
        return Ok;
      }
      if condition == Condition.NotSet {
        return Err(ConditionNotSet);
      }
      if state != InIssuance && state != Frozen {
        return Err(NotActive);
      }
      var keys := OwedFor(ev);
      var cost := Cost(condition, rewardAmount, payouts, keys);
      if cost > escrowBalance {
        return Err(InsufficientBudget);
      }
      Pay(ev.user, keys, cost);
      o := Ok;
    }

    /** Moves `cost` from the budget to `user`'s claimable balance and records `keys` as paid. */
    method Pay(user: Address, keys: seq<RewardKey>, cost: nat)
      requires Valid() && cost <= escrowBalance
      modifies this`escrowBalance, this`userBalances, this`rewarded
      ensures Valid()
      ensures escrowBalance == old(escrowBalance) - cost
      ensures userBalances == old(userBalances)[user := old(UserBalance(user)) + cost]
      ensures rewarded == old(rewarded)[user := old(Rewarded(user)) + Rewards.KeySet(keys)]
    {
      var balances := userBalances[user := UserBalance(user) + cost];
      Ledger.TotalCredit(userBalances, user, cost);
      ghost var claims := Ledger.Total(balances);
      assert tokenBalance == escrowBalance - cost + claims;
      escrowBalance, userBalances := escrowBalance - cost, balances;
      assert Ledger.Total(userBalances) == claims;
      rewarded := rewarded[user := Rewarded(user) + Rewards.KeySet(keys)];
    }

    /** Moves `amount` of a user's claimable balance to the user's wallet. */
    method Withdraw(user: Address, amount: nat)
      requires Valid() && amount <= UserBalance(user)
      modifies this`userBalances, this`tokenBalance, this`transferred
      ensures Valid()
      ensures userBalances == old(userBalances)[user := old(UserBalance(user)) - amount]
      ensures tokenBalance == old(tokenBalance) - amount
      ensures transferred == old(transferred)[user := Ledger.BalanceOf(old(transferred), user) + amount]
    {
      var balances := userBalances[user := UserBalance(user) - amount];
      var sent := transferred[user := Ledger.BalanceOf(transferred, user) + amount];
      Ledger.TotalDebit(userBalances, user, amount);
      Ledger.TotalCredit(transferred, user, amount);
      ghost var claims := Ledger.Total(balances);
      ghost var out := Ledger.Total(sent);
      assert tokenBalance - amount == escrowBalance + claims;
      assert totalDeposited == tokenBalance - amount + out;
      userBalances, tokenBalance, transferred := balances, tokenBalance - amount, sent;
      assert Ledger.Total(userBalances) == claims;
      assert Ledger.Total(transferred) == out;
    }

    /** `userWithdraw(amount)`: part of the caller's claimable balance; the budget is untouched. */
    method UserWithdraw(caller: Address, amount: nat) returns (o: Outcome)
      requires Valid()
      modifies this`userBalances, this`tokenBalance, this`transferred
      ensures Valid()
      ensures o == (if UserWithdrawGate(old(state)).Err? then UserWithdrawGate(old(state))
                    else if amount > old(UserBalance(caller)) then Err(InsufficientBalance)
                    else Ok)
      ensures o.Err? ==> unchanged(this)
      ensures o.Ok? ==> UserBalance(caller) == old(UserBalance(caller)) - amount
      ensures o.Ok? ==> tokenBalance == old(tokenBalance) - amount
      ensures o.Ok? ==> Ledger.BalanceOf(transferred, caller) == Ledger.BalanceOf(old(transferred), caller) + amount
      ensures o.Ok? ==> forall u :: u != caller ==> UserBalance(u) == old(UserBalance(u))
      ensures forall u :: u != caller ==> Ledger.BalanceOf(transferred, u) == Ledger.BalanceOf(old(transferred), u)
    {
      o := UserWithdrawGate(state);
      if o.Err? {
        return;
      }
      if amount > UserBalance(caller) {
        return Err(InsufficientBalance);
      }
      Withdraw(caller, amount);
    }

    /** `userWithdrawAll()`: the caller's whole claimable balance. */
    method UserWithdrawAll(caller: Address) returns (o: Outcome)
      requires Valid()
      modifies this`userBalances, this`tokenBalance, this`transferred
      ensures Valid()
      ensures o == UserWithdrawGate(old(state))
      ensures o.Err? ==> unchanged(this)
      ensures o.Ok? ==> UserBalance(caller) == 0
      ensures o.Ok? ==> tokenBalance == old(tokenBalance) - old(UserBalance(caller))
      ensures o.Ok? ==> Ledger.BalanceOf(transferred, caller)
                        == Ledger.BalanceOf(old(transferred), caller) + old(UserBalance(caller))
      ensures o.Ok? ==> forall u :: u != caller ==> UserBalance(u) == old(UserBalance(u))
      ensures forall u :: u != caller ==> Ledger.BalanceOf(transferred, u) == Ledger.BalanceOf(old(transferred), u)
      ensures escrowBalance == old(escrowBalance)
    {
      o := UserWithdrawGate(state);
      if o.Err? {
        return;
      }
      Withdraw(caller, UserBalance(caller));
    }

    /** The creator takes back the whole remaining budget once the escrow has ended. */
    method CreatorWithdrawAllBalance(caller: Address) returns (o: Outcome)
      requires Valid()
      modifies this`escrowBalance, this`tokenBalance, this`transferred
      ensures Valid()
      ensures o == (if caller != creator then Err(Unauthorized) else CreatorWithdrawGate(old(state)))
      ensures o.Err? ==> unchanged(this)
      ensures o.Ok? ==> escrowBalance == 0 && tokenBalance == old(tokenBalance) - old(escrowBalance)
      ensures o.Ok? ==> Ledger.BalanceOf(transferred, creator)
                        == Ledger.BalanceOf(old(transferred), creator) + old(escrowBalance)
      ensures forall u :: u != creator ==> Ledger.BalanceOf(transferred, u) == Ledger.BalanceOf(old(transferred), u)
      ensures userBalances == old(userBalances)
    {
      if caller != creator {
        return Err(Unauthorized);
      }
      o := CreatorWithdrawGate(state);
      if o.Err? {
        return;
      }
      var sent := transferred[creator := Ledger.BalanceOf(transferred, creator) + escrowBalance];
      Ledger.TotalCredit(transferred, creator, escrowBalance);
      ghost var out := Ledger.Total(sent);
      assert totalDeposited == tokenBalance - escrowBalance + out;
      tokenBalance, transferred, escrowBalance := tokenBalance - escrowBalance, sent, 0;
      assert Ledger.Total(transferred) == out;
    }
  }
}
