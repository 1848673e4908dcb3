/**
 * The multi-token escrow of a loyalty program (LoyaltyERC1155Escrow). It
 * holds a balance per token id of one collection, fills it from batch
 * deposits, and pays each owed reward as a (token id, amount) entry that
 * is appended to the user's reward list and debited from that id's
 * balance. Per token id, everything deposited is still in the escrow's
 * balance, in a user's reward list, or in a wallet it was transferred to.
 */
module Erc1155Escrow {
  import opened Types
  import opened EscrowStates
  import Rewards
  import Ledger

  /** ERC1155RewardCondition. */
  datatype Condition = NotSet | EachObjective | SingleObjective | EachTier | SingleTier | PointsTotal

  /** An amount of one token id: a deposit record or a payout entry. */
  datatype TokenAmount = TokenAmount(id: nat, amount: nat)

  /** The conditions configured with `setEscrowSettingsAdvanced`: a payout table by index. */
  predicate PerIndex(c: Condition)
  {
    c == EachObjective || c == EachTier
  }

  /** What each condition watches; the goal is an objective index, a tier index or a points total. */
  function RuleOf(c: Condition, goal: nat): (r: Rewards.Rule)
    requires c != Condition.NotSet
    ensures PerIndex(c) <==> r.EveryObjective? || r.EveryTier?
  {
    match c
    case EachObjective => Rewards.EveryObjective
    case SingleObjective => Rewards.OneObjective(goal)
    case EachTier => Rewards.EveryTier
    case SingleTier => Rewards.OneTier(goal)
    case PointsTotal => Rewards.PointsGoal(goal)
  }

  /** The index a per-index table is looked up at for a key. */
  function TableIndex(k: RewardKey): Option<nat>
  {
    match k
    case ObjectiveKey(i) => Some(i)
    case TierKey(t) => Some(t)
    case _ => None
  }

  /**
   * The payout for one key: the configured (id, amount) of a one-off
   * condition, or entry `i` of the table for index `i`.
   */
  function PayoutFor(c: Condition, single: TokenAmount, ids: seq<nat>, amounts: seq<nat>,
                     k: RewardKey): (p: TokenAmount)
    ensures !PerIndex(c) ==> p == single
    ensures PerIndex(c) && TableIndex(k).Some? && TableIndex(k).value < |ids| &&
            TableIndex(k).value < |amounts| ==>
            p == TokenAmount(ids[TableIndex(k).value], amounts[TableIndex(k).value])
  {
    if !PerIndex(c) then single
    else
      match TableIndex(k)
      case Some(i) => if i < |ids| && i < |amounts| then TokenAmount(ids[i], amounts[i]) else TokenAmount(0, 0)
      case None => TokenAmount(0, 0)
  }

  /** The payouts for a list of keys, in the same order. */
  function Payouts(c: Condition, single: TokenAmount, ids: seq<nat>, amounts: seq<nat>,
                   keys: seq<RewardKey>): (r: seq<TokenAmount>)
    ensures |r| == |keys|
    ensures forall i :: 0 <= i < |keys| ==> r[i] == PayoutFor(c, single, ids, amounts, keys[i])
    decreases |keys|
  {
    if keys == [] then []
    else [PayoutFor(c, single, ids, amounts, keys[0])] + Payouts(c, single, ids, amounts, keys[1..])
  }

  /** The escrow's balance of one token id; an id never deposited has 0. */
  function BalanceOf(balances: map<nat, nat>, id: nat): nat
  {
    if id in balances then balances[id] else 0
  }

  /** The total amount of token `id` in a list of entries. */
  function AmountOf(entries: seq<TokenAmount>, id: nat): nat
    decreases |entries|
  {
    if entries == [] then 0
    else (if entries[0].id == id then entries[0].amount else 0) + AmountOf(entries[1..], id)
  }

  lemma {:induction false} AmountOfAppend(a: seq<TokenAmount>, b: seq<TokenAmount>, id: nat)
    ensures AmountOf(a + b, id) == AmountOf(a, id) + AmountOf(b, id)
    decreases |a|
  {
    if a == [] {
      assert a + b == b;
    } else {
      assert (a + b)[1..] == a[1..] + b;
      AmountOfAppend(a[1..], b, id);
    }
  }

  /** Whether the balances cover every entry, each debited in turn. */
  predicate Affordable(balances: map<nat, nat>, entries: seq<TokenAmount>)
    decreases |entries|
  {
    entries == [] ||
    (entries[0].amount <= BalanceOf(balances, entries[0].id) &&
     Affordable(balances[entries[0].id := BalanceOf(balances, entries[0].id) - entries[0].amount],
                entries[1..]))
  }

  /** The balances after paying every entry. */
  function Debit(balances: map<nat, nat>, entries: seq<TokenAmount>): map<nat, nat>
    requires Affordable(balances, entries)
    decreases |entries|
  {
    if entries == [] then balances
    else
      Debit(balances[entries[0].id := BalanceOf(balances, entries[0].id) - entries[0].amount],
            entries[1..])
  }

  /** Paying entries lowers each id's balance by exactly that id's total in the entries. */
  lemma {:induction false} DebitAmounts(balances: map<nat, nat>, entries: seq<TokenAmount>, id: nat)
    requires Affordable(balances, entries)
    ensures BalanceOf(Debit(balances, entries), id) + AmountOf(entries, id) == BalanceOf(balances, id)
    decreases |entries|
  {
    if entries != [] {
      var e := entries[0];
      DebitAmounts(balances[e.id := BalanceOf(balances, e.id) - e.amount], entries[1..], id);
    }
  }

  /** The entries are affordable exactly when no id is asked for more than its balance. */
  lemma {:induction false} AffordableIff(balances: map<nat, nat>, entries: seq<TokenAmount>)
    ensures Affordable(balances, entries) <==>
            forall id :: AmountOf(entries, id) <= BalanceOf(balances, id)
    decreases |entries|
  {
    if Affordable(balances, entries) {
      forall id ensures AmountOf(entries, id) <= BalanceOf(balances, id) {
        DebitAmounts(balances, entries, id);
      }
    }
    if entries != [] {
      var e := entries[0];
      if e.amount <= BalanceOf(balances, e.id) {
        var rest := balances[e.id := BalanceOf(balances, e.id) - e.amount];
        AffordableIff(rest, entries[1..]);
        if forall id :: AmountOf(entries, id) <= BalanceOf(balances, id) {
          forall id ensures AmountOf(entries[1..], id) <= BalanceOf(rest, id) {
            assert AmountOf(entries, id) <= BalanceOf(balances, id);
          }
        }
      } else {
        assert AmountOf(entries, e.id) > BalanceOf(balances, e.id);
      }
    }
  }

  /** The (id, amount) records of a batch, in order. */
  function Zip(ids: seq<nat>, amounts: seq<nat>): (r: seq<TokenAmount>)
    requires |ids| == |amounts|
    ensures |r| == |ids|
    ensures forall i :: 0 <= i < |r| ==> r[i] == TokenAmount(ids[i], amounts[i])
    decreases |ids|
  {
    if ids == [] then [] else Zip(ids[..|ids| - 1], amounts[..|ids| - 1]) + [TokenAmount(ids[|ids| - 1], amounts[|ids| - 1])]
  }

  /** The balances after a batch deposit, one id at a time in order. */
  function CreditAll(balances: map<nat, nat>, ids: seq<nat>, amounts: seq<nat>): map<nat, nat>
    requires |ids| == |amounts|
    decreases |ids|
  {
    if ids == [] then balances
    else
      var n := |ids| - 1;
      var before := CreditAll(balances, ids[..n], amounts[..n]);
      before[ids[n] := BalanceOf(before, ids[n]) + amounts[n]]
  }

  /** A batch deposit raises each id's balance by exactly that id's total in the batch. */
  lemma {:induction false} CreditAllAmounts(balances: map<nat, nat>, ids: seq<nat>, amounts: seq<nat>, id: nat)
    requires |ids| == |amounts|
    ensures BalanceOf(CreditAll(balances, ids, amounts), id) == BalanceOf(balances, id) + AmountOf(Zip(ids, amounts), id)
    decreases |ids|
  {
    if ids != [] {
      var n := |ids| - 1;
      CreditAllAmounts(balances, ids[..n], amounts[..n], id);
      AmountOfAppend(Zip(ids[..n], amounts[..n]), [TokenAmount(ids[n], amounts[n])], id);
    }
  }

  /** A user's reward list or a wallet: the entries held there, none if never credited. */
  function Holding(m: map<Address, seq<TokenAmount>>, u: Address): seq<TokenAmount>
  {
    if u in m then m[u] else []
  }

  /** How much of token `id` each list or wallet of `m` holds. */
  ghost function Claims(m: map<Address, seq<TokenAmount>>, id: nat): map<Address, nat>
  {
    map u | u in m :: AmountOf(m[u], id)
  }

  /** Replacing one holding changes the amount of `id` held in total by the difference. */
  lemma ClaimsUpdate(m: map<Address, seq<TokenAmount>>, u: Address, s: seq<TokenAmount>, id: nat)
    ensures Ledger.Total(Claims(m[u := s], id)) + AmountOf(Holding(m, u), id)
            == Ledger.Total(Claims(m, id)) + AmountOf(s, id)
  {
    assert Claims(m[u := s], id) == Claims(m, id)[u := AmountOf(s, id)];
    assert Ledger.BalanceOf(Claims(m, id), u) == AmountOf(Holding(m, u), id);
    Ledger.TotalUpdate(Claims(m, id), u, AmountOf(s, id));
  }

  /**
   * Per token id: everything deposited is still in the balance, in a
   * user's reward list, or in a wallet.
   */
  ghost predicate Balanced(deposits: seq<TokenAmount>, balances: map<nat, nat>,
                           lists: map<Address, seq<TokenAmount>>, wallets: map<Address, seq<TokenAmount>>, id: nat)
  {
    AmountOf(deposits, id)
      == BalanceOf(balances, id) + Ledger.Total(Claims(lists, id)) + Ledger.Total(Claims(wallets, id))
  }

  /** A token id some entry carries a positive amount of occurs among the entries' ids. */
  lemma {:induction false} AmountOfPositive(entries: seq<TokenAmount>, id: nat)
    requires 0 < AmountOf(entries, id)
    ensures exists i :: 0 <= i < |entries| && entries[i].id == id
    decreases |entries|
  {
    if entries[0].id != id {
      AmountOfPositive(entries[1..], id);
      var i :| 0 <= i < |entries[1..]| && entries[1..][i].id == id;
      assert entries[i + 1].id == id;
    }
  }

  /**
   * The entries a full withdrawal transfers: for each id of `records` in
   * order, its whole balance, once, skipping ids with nothing left.
   */
  function Sweep(balances: map<nat, nat>, records: seq<TokenAmount>): seq<TokenAmount>
    decreases |records|
  {
    if records == [] then []
    else
      var id := records[0].id;
      (if 0 < BalanceOf(balances, id) then [TokenAmount(id, BalanceOf(balances, id))] else [])
      + Sweep(balances[id := 0], records[1..])
  }

  /** The ids of a list of entries, as a set. */
  function Ids(records: seq<TokenAmount>): (r: set<nat>)
    ensures forall id :: id in r <==> exists i :: 0 <= i < |records| && records[i].id == id
  {
    set i | 0 <= i < |records| :: records[i].id
  }

  /** A sweep takes the whole balance of every listed id, and nothing of any other id. */
  lemma {:induction false} SweepAmounts(balances: map<nat, nat>, records: seq<TokenAmount>, id: nat)
    ensures AmountOf(Sweep(balances, records), id) == if id in Ids(records) then BalanceOf(balances, id) else 0
    decreases |records|
  {
    if records != [] {
      var head := records[0].id;
      var first := if 0 < BalanceOf(balances, head) then [TokenAmount(head, BalanceOf(balances, head))] else [];
      var rest := Sweep(balances[head := 0], records[1..]);
      assert Sweep(balances, records) == first + rest;
      AmountOfAppend(first, rest, id);
      SweepAmounts(balances[head := 0], records[1..], id);
      assert AmountOf(first, id) == if id == head then BalanceOf(balances, head) else 0 by {
        if first != [] {
          assert first[1..] == [];
        }
      }
      assert id in Ids(records) <==> id == head || id in Ids(records[1..]) by {
        if id in Ids(records[1..]) {
          var i :| 0 <= i < |records[1..]| && records[1..][i].id == id;
          assert records[i + 1].id == id;
        }
        if id in Ids(records) && id != head {
          var i :| 0 <= i < |records| && records[i].id == id;
          assert records[1..][i - 1].id == id;
        }
      }
    }
  }

  /**
   * Nothing is paid out of thin air: with every id balanced, the balance
   * of an id plus what one user's list and wallet hold of it is at most
   * what was deposited of it.
   */
  lemma ClaimsWithinDeposits(deposits: seq<TokenAmount>, balances: map<nat, nat>,
                             lists: map<Address, seq<TokenAmount>>, wallets: map<Address, seq<TokenAmount>>,
                             u: Address, id: nat)
    requires forall j :: Balanced(deposits, balances, lists, wallets, j)
    ensures BalanceOf(balances, id) + AmountOf(Holding(lists, u), id) + AmountOf(Holding(wallets, u), id)
            <= AmountOf(deposits, id)
  {
    assert Balanced(deposits, balances, lists, wallets, id);
    assert Ledger.BalanceOf(Claims(lists, id), u) == AmountOf(Holding(lists, u), id);
    assert Ledger.BalanceOf(Claims(wallets, id), u) == AmountOf(Holding(wallets, u), id);
    Ledger.BalanceWithinTotal(Claims(lists, id), u);
    Ledger.BalanceWithinTotal(Claims(wallets, id), u);
  }

  class Escrow {
    const creator: Address
    const collection: Address
    const objectiveCount: nat
    const tierCount: nat
    const approvedDepositors: set<Address>

    var state: EscrowState
    var beforeFreeze: EscrowState
    var depositKey: Option<nat>
    var depositEndDate: nat

    /** Every deposit record, in arrival order. */
    var deposits: seq<TokenAmount>
    /** The escrow's balance per token id. */
    var balances: map<nat, nat>

    var condition: Condition
    var rewardGoal: nat
    /** The payout of a one-off condition. */
    var single: TokenAmount
    /** The payout table of a per-index condition. */
    var payoutIds: seq<nat>
    var payoutAmounts: seq<nat>

    /** The entries issued to each user and not yet withdrawn. */
    var userRewards: map<Address, seq<TokenAmount>>
    /** The once-only keys each user has been paid for. */
    var rewarded: map<Address, set<RewardKey>>
    /** Entries transferred out of the escrow, per receiving wallet. */
    var transferred: map<Address, seq<TokenAmount>>

    ghost predicate Valid()
      reads this
    {
      Conserved() && TableFits()
    }

    /** Per token id: deposited = still held + in users' reward lists + transferred out. */
    ghost predicate Conserved()
      reads this`deposits, this`balances, this`userRewards, this`transferred
    {
      forall id :: Balanced(deposits, balances, userRewards, transferred, id)
    }

    /** A payout table has one (id, amount) per objective or per tier, and tier 0 pays nothing. */
    predicate TableFits()
      reads this`condition, this`payoutIds, this`payoutAmounts
    {
      |payoutIds| == |payoutAmounts| &&
      (condition == EachObjective ==> |payoutIds| == objectiveCount) &&
      (condition == EachTier ==> |payoutIds| == tierCount && 0 < |payoutAmounts| && payoutAmounts[0] == 0)
    }

    /** `getEscrowTokenBalance(id)`. */
    function TokenBalance(id: nat): nat
      reads this`balances
    {
      BalanceOf(balances, id)
    }

    /** `getUserRewards(user)`. */
    function UserRewards(user: Address): seq<TokenAmount>
      reads this`userRewards
    {
      Holding(userRewards, user)
    }

    /** Entries a wallet has received from the escrow. */
    function Received(wallet: Address): seq<TokenAmount>
      reads this`transferred
    {
      Holding(transferred, wallet)
    }

    /** The keys a user has already been paid for. */
    function Rewarded(user: Address): set<RewardKey>
      reads this`rewarded
    {
      if user in rewarded then rewarded[user] else {}
    }

    /** `getEscrowTokenDetails().totalTokenIds`: the number of deposit records. */
    function TotalTokenIds(): nat
      reads this`deposits
    {
      |deposits|
    }

    /** The state as read at time `now`. */
    function StateNow(now: nat): EscrowState
      reads this`state, this`depositEndDate
    {
      StateAt(state, depositEndDate, now)
    }

    /** The entries an event makes payable under the configured condition. */
    function PayoutsFor(ev: Progress): seq<TokenAmount>
      requires condition != Condition.NotSet
      reads this`condition, this`single, this`payoutIds, this`payoutAmounts, this`rewardGoal, this`rewarded
    {
      Payouts(condition, single, payoutIds, payoutAmounts,
              Rewards.Owed(RuleOf(condition, rewardGoal), tierCount, ev, Rewarded(ev.user)))
    }

    /** The escrow as deployed: the creator and the listed depositors may deposit. */
    constructor (creator: Address, collection: Address, objectiveCount: nat, tierCount: nat,
                 depositors: set<Address>)
      ensures Valid()
      ensures this.creator == creator && this.collection == collection
      ensures this.objectiveCount == objectiveCount && this.tierCount == tierCount
      ensures approvedDepositors == {creator} + depositors
      ensures state == Idle && depositKey == None && condition == Condition.NotSet
      ensures deposits == [] && balances == map[]
      ensures userRewards == map[] && rewarded == map[] && transferred == map[]
    {
      this.creator := creator;
      this.collection := collection;
      this.objectiveCount := objectiveCount;
      this.tierCount := tierCount;
      approvedDepositors := {creator} + depositors;
      state := Idle;
      beforeFreeze := Idle;
      depositKey := None;
      depositEndDate := 0;
      deposits := [];
      balances := map[];
      condition := Condition.NotSet;
      rewardGoal := 0;
      single := TokenAmount(0, 0);
      payoutIds := [];
      payoutAmounts := [];
      userRewards := map[];
      rewarded := map[];
      transferred := map[];
    }

    /** `setDepositKey(key, depositEndDate)`: once, by the creator, from Idle; opens the deposit period. */
    method SetDepositKey(caller: Address, key: nat, endDate: nat) returns (o: Outcome)
      requires Valid()
      modifies this`depositKey, this`depositEndDate, this`state
      ensures Valid()
      ensures o == (if caller != creator then Err(Unauthorized)
                    else if old(depositKey).Some? then Err(AlreadySet)
                    else if old(state) != Idle then Err(InvalidState)
                    else Ok)
      ensures o.Err? ==> unchanged(this)
      ensures o.Ok? ==> depositKey == Some(key) && depositEndDate == endDate && state == DepositPeriod
    {
      if caller != creator {
        return Err(Unauthorized);
      }
      if depositKey.Some? {
        return Err(AlreadySet);
      }
      if state != Idle {
        return Err(InvalidState);
      }
      depositKey, depositEndDate, state := Some(key), endDate, DepositPeriod;
      o := Ok;
    }

    /**
     * `onERC1155BatchReceived` for a batch carrying the deposit key: each
     * (id, amount) of an approved depositor's batch is added to that id's
     * balance and recorded, in order, while the deposit period is open.
     */
    method DepositBatch(from: Address, token: Address, ids: seq<nat>, amounts: seq<nat>, key: nat, now: nat)
      returns (o: Outcome)
      requires Valid()
      modifies this`deposits, this`balances
      ensures Valid()
      ensures o == (if |ids| != |amounts| then Err(LengthMismatch)
                    else if from !in approvedDepositors then Err(NotApprovedDepositor)
                    else if token != collection then Err(CollectionNotApproved)
                    else if old(depositKey) != Some(key) then Err(InvalidDepositKey)
                    else if old(StateNow(now)) != DepositPeriod then Err(InvalidState)
                    else Ok)
      ensures o.Err? ==> unchanged(this)
      ensures o.Ok? ==> deposits == old(deposits) + Zip(ids, amounts)
      ensures o.Ok? ==> balances == CreditAll(old(balances), ids, amounts)
    {
      if |ids| != |amounts| {
        return Err(LengthMismatch);
      }
      if from !in approvedDepositors {
        return Err(NotApprovedDepositor);
      }
      if token != collection {
        return Err(CollectionNotApproved);
      }
      if depositKey != Some(key) {
        return Err(InvalidDepositKey);
      }
      if StateNow(now) != DepositPeriod {
        return Err(InvalidState);
      }
      ghost var deposits0, balances0 := deposits, balances;
      var i := 0;
      while i < |ids|
        invariant 0 <= i <= |ids|
        invariant deposits == deposits0 + Zip(ids[..i], amounts[..i])
        invariant balances == CreditAll(balances0, ids[..i], amounts[..i])
        invariant Conserved()
      {
        DepositStep(ids, amounts, i);
        Credit(ids[i], amounts[i]);
        i := i + 1;
      }
      assert ids[..i] == ids && amounts[..i] == amounts;
      o := Ok;
    }

    /** One (id, amount) of a batch: added to the id's balance and recorded. */
    method Credit(id: nat, amount: nat)
      requires Conserved()
      modifies this`deposits, this`balances
      ensures Conserved()
      ensures deposits == old(deposits) + [TokenAmount(id, amount)]
      ensures balances == old(balances)[id := BalanceOf(old(balances), id) + amount]
    {
      ghost var before := deposits;
      balances := balances[id := BalanceOf(balances, id) + amount];
      deposits := deposits + [TokenAmount(id, amount)];
      forall j ensures Balanced(deposits, balances, userRewards, transferred, j) {
        assert Balanced(before, old(balances), userRewards, transferred, j);
        AmountOfAppend(before, [TokenAmount(id, amount)], j);
      }
    }

    /** Why `setEscrowSettingsBasic` would be refused, if it would. */
    function BasicSettingsCheck(caller: Address, c: Condition, goal: nat, now: nat): Outcome
      reads this`state, this`depositEndDate
    {
      if caller != creator then Err(Unauthorized)
      else if StateNow(now) != AwaitingEscrowSettings then Err(InvalidState)
      else if c != SingleObjective && c != SingleTier && c != PointsTotal then Err(InvalidCondition)
      else if c == SingleObjective && goal >= objectiveCount then Err(InvalidGoal)
      else if c == SingleTier && (goal == 0 || goal >= tierCount) then Err(InvalidGoal)
      else Ok
    }

    /** `setEscrowSettingsBasic(condition, tokenId, amount, goal)`: one (id, amount), paid once. */
    method SetEscrowSettingsBasic(caller: Address, c: Condition, tokenId: nat, amount: nat, goal: nat, now: nat)
      returns (o: Outcome)
      requires Valid()
      modifies this`condition, this`single, this`rewardGoal, this`state
      ensures Valid()
      ensures o == old(BasicSettingsCheck(caller, c, goal, now))
      ensures o.Err? ==> unchanged(this)
      ensures o.Ok? ==> condition == c && single == TokenAmount(tokenId, amount) && rewardGoal == goal
      ensures o.Ok? ==> state == Idle
    {
      o := BasicSettingsCheck(caller, c, goal, now);
      if o.Ok? {
        condition, single, rewardGoal, state := c, TokenAmount(tokenId, amount), goal, Idle;
      }
    }

    /** Why `setEscrowSettingsAdvanced` would be refused, if it would. */
    function AdvancedSettingsCheck(caller: Address, c: Condition, ids: seq<nat>, amounts: seq<nat>, now: nat)
      : Outcome
      reads this`state, this`depositEndDate
    {
      if caller != creator then Err(Unauthorized)
      else if StateNow(now) != AwaitingEscrowSettings then Err(InvalidState)
      else if !PerIndex(c) then Err(InvalidCondition)
      else if |ids| != |amounts| then Err(LengthMismatch)
      else if c == EachObjective && |ids| != objectiveCount then Err(InvalidPayouts)
      else if c == EachTier && (|ids| != tierCount || |amounts| == 0 || amounts[0] != 0) then Err(InvalidPayouts)
      else Ok
    }

    /**
     * `setEscrowSettingsAdvanced(condition, ids, amounts)`: payout `i` is
     * (ids[i], amounts[i]); the goal is not used and reads 0.
     */
    method SetEscrowSettingsAdvanced(caller: Address, c: Condition, ids: seq<nat>, amounts: seq<nat>, now: nat)
      returns (o: Outcome)
      requires Valid()
      modifies this`condition, this`payoutIds, this`payoutAmounts, this`rewardGoal, this`state
      ensures Valid()
      ensures o == old(AdvancedSettingsCheck(caller, c, ids, amounts, now))
      ensures o.Err? ==> unchanged(this)
      ensures o.Ok? ==> condition == c && payoutIds == ids && payoutAmounts == amounts && rewardGoal == 0
      ensures o.Ok? ==> state == Idle
    {
      o := AdvancedSettingsCheck(caller, c, ids, amounts, now);
      if o.Ok? {
        condition, payoutIds, payoutAmounts, rewardGoal, state := c, ids, amounts, 0, Idle;
      }
    }

    /** Activation moved the lifecycle state to InIssuance and nothing else. */
    twostate predicate Started()
      reads this
    {
      state == InIssuance &&
      unchanged(this`beforeFreeze, this`depositKey, this`depositEndDate, this`deposits,
        this`balances, this`condition, this`rewardGoal, this`single,
        this`payoutIds, this`payoutAmounts, this`userRewards, this`rewarded,
        this`transferred)
    }

    /** Activation by the program: an armed escrow starts issuing. */
    method Activate() returns (o: Outcome)
      requires Valid()
      modifies this`state
      ensures Valid()
      ensures o == (if old(state) == Idle && old(condition) != Condition.NotSet then Ok else Err(EscrowNotReady))
      ensures o.Err? ==> unchanged(this)
      ensures o.Ok? ==> Started()
    {
      if state != Idle || condition == Condition.NotSet {
        return Err(EscrowNotReady);
      }
      state := InIssuance;
      o := Ok;
    }

    /** `emergencyFreeze(freeze)`, creator only. */
    method EmergencyFreeze(caller: Address, freeze: bool) returns (o: Outcome)
      requires Valid()
      modifies this`state, this`beforeFreeze
      ensures Valid()
      ensures caller != creator ==> o == Err(Unauthorized)
      ensures caller == creator ==>
        (o.Ok? <==> FreezeStep(old(state), old(beforeFreeze), freeze).Success?)
      ensures o.Err? ==> unchanged(this)
      ensures o.Ok? ==> (state, beforeFreeze) == FreezeStep(old(state), old(beforeFreeze), freeze).value
    {
      if caller != creator {
        return Err(Unauthorized);
      }
      var r := FreezeStep(state, beforeFreeze, freeze);
      if r.Failure? {
        return Err(r.error);
      }
      state, beforeFreeze := r.value.0, r.value.1;
      o := Ok;
    }

    /** `cancelProgramEscrow()`, creator only and final. */
    method CancelProgramEscrow(caller: Address) returns (o: Outcome)
      requires Valid()
      modifies this`state
      ensures Valid()
      ensures o == (if caller != creator then Err(Unauthorized) else CancelGate(old(state)))
      ensures o.Err? ==> unchanged(this)
      ensures o.Ok? ==> state == Canceled
    {
      if caller != creator {
        return Err(Unauthorized);
      }
      o := CancelGate(state);
      if o.Ok? {
        state := Canceled;
      }
    }

    /** The outcome and effect of `HandleRewards(ev)` returning `o`. */
    twostate predicate Handled(ev: Progress, o: Outcome)
      reads this
    {
      && (old(state) == Canceled ==> o == Ok && unchanged(this))
      && (old(state) != Canceled && old(condition) == Condition.NotSet ==> o == Err(ConditionNotSet))
      && ((old(state) != Canceled && old(condition) != Condition.NotSet &&
               old(state) != InIssuance && old(state) != Frozen) ==> o == Err(NotActive))
      && ((old(state) == InIssuance || old(state) == Frozen) && old(condition) != Condition.NotSet ==>
              (o.Ok? <==> Affordable(old(balances), old(PayoutsFor(ev)))))
      && (o.Err? ==> unchanged(this))
      && ((o.Ok? && old(state) != Canceled) ==>
        old(condition) != Condition.NotSet &&
        Affordable(old(balances), old(PayoutsFor(ev))) &&
        balances == Debit(old(balances), old(PayoutsFor(ev))) &&
        userRewards == old(userRewards)[ev.user := old(UserRewards(ev.user)) + old(PayoutsFor(ev))] &&
        rewarded == old(rewarded)[ev.user := old(Rewarded(ev.user)) +
          Rewards.KeySet(Rewards.Owed(RuleOf(old(condition), old(rewardGoal)), tierCount, ev, old(Rewarded(ev.user))))])
    }

    /**
     * The evaluator the program calls after each completion or grant. The
     * payouts of the owed keys are appended to the user's list in key
     * order (never merged) and debited from their ids; the keys are
     * remembered as paid. A canceled escrow accepts the event and pays
     * nothing; balances that cannot cover every payout refuse the call.
     */
    method HandleRewards(ev: Progress) returns (o: Outcome)
      requires Valid()
      modifies this`balances, this`userRewards, this`rewarded
      ensures Valid()
      ensures Handled(ev, o)
    {
      if state == Canceled {
        return Ok;
      }
      if condition == Condition.NotSet {
        return Err(ConditionNotSet);
      }
      if state != InIssuance && state != Frozen {
        return Err(NotActive);
      }
      var keys := Rewards.Owed(RuleOf(condition, rewardGoal), tierCount, ev, Rewarded(ev.user));
      var entries := Payouts(condition, single, payoutIds, payoutAmounts, keys);
      if !Affordable(balances, entries) {
        return Err(InsufficientBudget);
      }
      assert entries == PayoutsFor(ev);
      Pay(ev.user, entries);
      rewarded := rewarded[ev.user := Rewarded(ev.user) + Rewards.KeySet(keys)];
      o := Ok;
    }

    /** Debits affordable entries from the balances and appends them to the user's reward list. */
    method Pay(user: Address, entries: seq<TokenAmount>)
      requires Conserved() && Affordable(balances, entries)
      modifies this`balances, this`userRewards
      ensures Conserved()
      ensures balances == Debit(old(balances), entries)
      ensures userRewards == old(userRewards)[user := old(UserRewards(user)) + entries]
    {
      var balances', lists' := Debit(balances, entries), userRewards[user := UserRewards(user) + entries];
      forall id ensures Balanced(deposits, balances', lists', transferred, id) {
        assert Balanced(deposits, balances, userRewards, transferred, id);
        DebitAmounts(balances, entries, id);
        AmountOfAppend(UserRewards(user), entries, id);
        ClaimsUpdate(userRewards, user, UserRewards(user) + entries, id);
      }
      balances, userRewards := balances', lists';
    }

    /** `userWithdrawAll()`: the caller's whole reward list goes to the caller's wallet. */
    method UserWithdrawAll(caller: Address) returns (o: Outcome)
      requires Valid()
      modifies this`userRewards, this`transferred
      ensures Valid()
      ensures o == UserWithdrawGate(old(state))
      ensures o.Err? ==> unchanged(this)
      ensures o.Ok? ==> UserRewards(caller) == [] && Received(caller) == old(Received(caller)) + old(UserRewards(caller))
      ensures o.Ok? ==> forall u :: u != caller ==> UserRewards(u) == old(UserRewards(u)) && Received(u) == old(Received(u))
      ensures balances == old(balances)
    {
      o := UserWithdrawGate(state);
      if o.Err? {
        return;
      }
      var moved := UserRewards(caller);
      var lists', wallets' := userRewards[caller := []], transferred[caller := Received(caller) + moved];
      forall id ensures Balanced(deposits, balances, lists', wallets', id) {
        assert Balanced(deposits, balances, userRewards, transferred, id);
        AmountOfAppend(Received(caller), moved, id);
        ClaimsUpdate(userRewards, caller, [], id);
        ClaimsUpdate(transferred, caller, Received(caller) + moved, id);
      }
      userRewards, transferred := lists', wallets';
    }

    /** `creatorWithdrawToken(id, amount)`, once the escrow has ended. */
    method CreatorWithdrawToken(caller: Address, id: nat, amount: nat) returns (o: Outcome)
      requires Valid()
      modifies this`balances, this`transferred
      ensures Valid()
      ensures o == (if caller != creator then Err(Unauthorized)
                    else if CreatorWithdrawGate(old(state)).Err? then CreatorWithdrawGate(old(state))
                    else if amount > old(TokenBalance(id)) then Err(InsufficientBalance)
                    else Ok)
      ensures o.Err? ==> unchanged(this)
      ensures o.Ok? ==> TokenBalance(id) == old(TokenBalance(id)) - amount
      ensures o.Ok? ==> forall j :: j != id ==> TokenBalance(j) == old(TokenBalance(j))
      ensures o.Ok? ==> Received(creator) == old(Received(creator)) + [TokenAmount(id, amount)]
      ensures o.Ok? ==> forall w :: w != creator ==> Received(w) == old(Received(w))
      ensures userRewards == old(userRewards)
    {
      if caller != creator {
        return Err(Unauthorized);
      }
      o := CreatorWithdrawGate(state);
      if o.Err? {
        return;
      }
      if amount > TokenBalance(id) {
        return Err(InsufficientBalance);
      }
      var entry := [TokenAmount(id, amount)];
      var balances', wallets' := balances[id := TokenBalance(id) - amount], transferred[creator := Received(creator) + entry];
      forall j ensures Balanced(deposits, balances', userRewards, wallets', j) {
        assert Balanced(deposits, balances, userRewards, transferred, j);
        assert AmountOf(entry, j) == if j == id then amount else 0 by {
          assert entry[1..] == [];
        }
        AmountOfAppend(Received(creator), entry, j);
        ClaimsUpdate(transferred, creator, Received(creator) + entry, j);
      }
      balances, transferred := balances', wallets';
    }

    /**
     * `creatorWithdrawAllBalance()`, once the escrow has ended: every id's
     * balance goes to 0 and to the creator's wallet, one entry per
     * deposited id with something left.
     */
    method CreatorWithdrawAllBalance(caller: Address) returns (o: Outcome)
      requires Valid()
      modifies this`balances, this`transferred
      ensures Valid()
      ensures o == (if caller != creator then Err(Unauthorized) else CreatorWithdrawGate(old(state)))
      ensures o.Err? ==> unchanged(this)
      ensures o.Ok? ==> forall id :: TokenBalance(id) == 0
      ensures o.Ok? ==> Received(creator) == old(Received(creator)) + Sweep(old(balances), old(deposits))
      ensures o.Ok? ==> forall id :: AmountOf(Received(creator), id)
                                     == old(AmountOf(Received(creator), id)) + old(TokenBalance(id))
      ensures o.Ok? ==> forall w :: w != creator ==> Received(w) == old(Received(w))
      ensures userRewards == old(userRewards)
    {
      if caller != creator {
        return Err(Unauthorized);
      }
      o := CreatorWithdrawGate(state);
      if o.Err? {
        return;
      }
      var swept := Sweep(balances, deposits);
      var balances', wallets' := map id | id in balances :: 0, transferred[creator := Received(creator) + swept];
      forall id ensures Balanced(deposits, balances', userRewards, wallets', id)
        && AmountOf(Holding(wallets', creator), id) == AmountOf(Received(creator), id) + TokenBalance(id)
      {
        assert Balanced(deposits, balances, userRewards, transferred, id);
        if 0 < TokenBalance(id) {
          AmountOfPositive(deposits, id);
        }
        SweepAmounts(balances, deposits, id);
        AmountOfAppend(Received(creator), swept, id);
        ClaimsUpdate(transferred, creator, Received(creator) + swept, id);
      }
      balances, transferred := balances', wallets';
    }
  }

  /** One more element of a batch, on both the record list and the balances. */
  lemma DepositStep(ids: seq<nat>, amounts: seq<nat>, i: nat)
    requires |ids| == |amounts| && i < |ids|
    ensures ids[..i + 1][..i] == ids[..i] && amounts[..i + 1][..i] == amounts[..i]
    ensures Zip(ids[..i + 1], amounts[..i + 1]) == Zip(ids[..i], amounts[..i]) + [TokenAmount(ids[i], amounts[i])]
  {
    assert ids[..i + 1][..i] == ids[..i] && amounts[..i + 1][..i] == amounts[..i];
  }
}
