/**
 * The unique-token escrow of a loyalty program (LoyaltyERC721Escrow).
 * Deposited token ids are recorded in arrival order. Settings emit a sort
 * request (the ids and the chosen order); the off-chain sorter returns the
 * queue, which is stored as given. Each qualifying user receives exactly
 * one token, popped from the end of the queue, and at most one per
 * program; a canceled escrow keeps accepting progress but issues nothing.
 */
module Erc721Escrow {
  import opened Types
  import opened EscrowStates
  import Rewards
  import Ledger

  /** ERC721RewardCondition. */
  datatype Condition = NotSet | ObjectiveCompleted | TierReached | PointsTotal

  /** What each condition watches: one objective index, one tier index or a points total. */
  function RuleOf(c: Condition, goal: nat): (r: Rewards.Rule)
    requires c != Condition.NotSet
  {
    match c
    case ObjectiveCompleted => Rewards.OneObjective(goal)
    case TierReached => Rewards.OneTier(goal)
    case PointsTotal => Rewards.PointsGoal(goal)
  }

  /**
   * Whether an event meets the condition: the goal objective was just
   * completed, the goal tier was not reached before and is now, or the
   * points total crossed the goal in this call.
   */
  predicate Qualifies(c: Condition, goal: nat, tierCount: nat, ev: Progress)
    requires c != Condition.NotSet
  {
    Rewards.Candidates(RuleOf(c, goal), tierCount, ev) != []
  }

  /** The three conditions, stated on the event directly. */
  lemma QualifiesIff(c: Condition, goal: nat, tierCount: nat, ev: Progress)
    requires c != Condition.NotSet
    ensures c == ObjectiveCompleted ==> (Qualifies(c, goal, tierCount, ev) <==> ev.trigger == Completion(goal))
    ensures c == TierReached ==> (Qualifies(c, goal, tierCount, ev) <==> ev.oldTier < goal <= ev.newTier)
    ensures c == PointsTotal ==> (Qualifies(c, goal, tierCount, ev) <==> ev.oldPoints < goal <= ev.newPoints)
  {
  }

  /** The sort request emitted by `setEscrowSettings` (SortTokenQueue): the ids and the order. */
  datatype SortRequest = SortRequest(creator: Address, tokens: seq<nat>, order: RewardOrder)

  /** `delete` on every queue slot: each id becomes 0 and the length stays. */
  function Cleared(queue: seq<nat>): (r: seq<nat>)
    ensures |r| == |queue|
    ensures forall i :: 0 <= i < |r| ==> r[i] == 0
    decreases |queue|
  {
    if queue == [] then [] else Cleared(queue[..|queue| - 1]) + [0]
  }

  /** A user's account or a wallet: the ids held there, none if never credited. */
  function Holding(m: map<Address, seq<nat>>, u: Address): seq<nat>
  {
    if u in m then m[u] else []
  }

  /** How many copies of `id` each account or wallet of `m` holds. */
  ghost function Copies(m: map<Address, seq<nat>>, id: nat): map<Address, nat>
  {
    map u | u in m :: multiset(m[u])[id]
  }

  /** Replacing one holding changes the copies of `id` held in total by the difference. */
  lemma CopiesUpdate(m: map<Address, seq<nat>>, u: Address, s: seq<nat>, id: nat)
    ensures Ledger.Total(Copies(m[u := s], id)) + multiset(Holding(m, u))[id]
            == Ledger.Total(Copies(m, id)) + multiset(s)[id]
  {
    assert Copies(m[u := s], id) == Copies(m, id)[u := multiset(s)[id]];
    assert Ledger.BalanceOf(Copies(m, id), u) == multiset(Holding(m, u))[id];
    Ledger.TotalUpdate(Copies(m, id), u, multiset(s)[id]);
  }

  /**
   * Every copy of `id` the creator returned is still queued, in a user's
   * account or in a wallet.
   */
  ghost predicate Balanced(returned: seq<nat>, live: seq<nat>, accounts: map<Address, seq<nat>>,
                           wallets: map<Address, seq<nat>>, id: nat)
  {
    multiset(returned)[id]
      == multiset(live)[id] + Ledger.Total(Copies(accounts, id)) + Ledger.Total(Copies(wallets, id))
  }

  /** Issuing the last queued id to a user with an empty account keeps every id balanced. */
  lemma IssueBalanced(returned: seq<nat>, live: seq<nat>, accounts: map<Address, seq<nat>>,
                      wallets: map<Address, seq<nat>>, u: Address,
                      live': seq<nat>, accounts': map<Address, seq<nat>>)
    requires live != [] && Holding(accounts, u) == []
    requires live' == live[..|live| - 1] && accounts' == accounts[u := [live[|live| - 1]]]
    requires forall id :: Balanced(returned, live, accounts, wallets, id)
    ensures forall id :: Balanced(returned, live', accounts', wallets, id)
  {
    var token := live[|live| - 1];
    assert live == live' + [token];
    forall id ensures Balanced(returned, live', accounts', wallets, id) {
      assert Balanced(returned, live, accounts, wallets, id);
      CopiesUpdate(accounts, u, [token], id);
    }
  }

  /** Moving a user's account to the user's wallet keeps every id balanced. */
  lemma WithdrawBalanced(returned: seq<nat>, live: seq<nat>, accounts: map<Address, seq<nat>>,
                         wallets: map<Address, seq<nat>>, u: Address,
                         accounts': map<Address, seq<nat>>, wallets': map<Address, seq<nat>>)
    requires accounts' == accounts[u := []]
    requires wallets' == wallets[u := Holding(wallets, u) + Holding(accounts, u)]
    requires forall id :: Balanced(returned, live, accounts, wallets, id)
    ensures forall id :: Balanced(returned, live, accounts', wallets', id)
  {
    var sent := Holding(wallets, u) + Holding(accounts, u);
    assert multiset(sent) == multiset(Holding(wallets, u)) + multiset(Holding(accounts, u));
    forall id ensures Balanced(returned, live, accounts', wallets', id) {
      assert Balanced(returned, live, accounts, wallets, id);
      CopiesUpdate(accounts, u, [], id);
      CopiesUpdate(wallets, u, sent, id);
    }
  }

  /** Moving the whole live queue to one wallet keeps every id balanced. */
  lemma ReturnBalanced(returned: seq<nat>, live: seq<nat>, accounts: map<Address, seq<nat>>,
                       wallets: map<Address, seq<nat>>, w: Address,
                       live': seq<nat>, wallets': map<Address, seq<nat>>)
    requires live' == [] && wallets' == wallets[w := Holding(wallets, w) + live]
    requires forall id :: Balanced(returned, live, accounts, wallets, id)
    ensures forall id :: Balanced(returned, live', accounts, wallets', id)
  {
    var sent := Holding(wallets, w) + live;
    assert multiset(sent) == multiset(Holding(wallets, w)) + multiset(live);
    forall id ensures Balanced(returned, live', accounts, wallets', id) {
      assert Balanced(returned, live, accounts, wallets, id);
      CopiesUpdate(wallets, w, sent, id);
    }
  }

  /**
   * Nothing is issued out of thin air: with every id balanced, what one
   * user's account and wallet hold of an id is at most what was returned.
   */
  lemma HeldWithinReturned(returned: seq<nat>, live: seq<nat>, accounts: map<Address, seq<nat>>,
                           wallets: map<Address, seq<nat>>, u: Address, id: nat)
    requires forall j :: Balanced(returned, live, accounts, wallets, j)
    ensures multiset(Holding(accounts, u))[id] + multiset(Holding(wallets, u))[id] <= multiset(returned)[id]
  {
    assert Balanced(returned, live, accounts, wallets, id);
    assert Ledger.BalanceOf(Copies(accounts, id), u) == multiset(Holding(accounts, u))[id];
    assert Ledger.BalanceOf(Copies(wallets, id), u) == multiset(Holding(wallets, u))[id];
    Ledger.BalanceWithinTotal(Copies(accounts, id), u);
    Ledger.BalanceWithinTotal(Copies(wallets, id), u);
  }

  class Escrow {
    const creator: Address
    const collection: Address
    const objectiveCount: nat
    const tierCount: nat
    const approvedDepositors: set<Address>

    var state: EscrowState
    var beforeFreeze: EscrowState
    var depositKey: Option<nat>
    var depositEndDate: nat

    /** Deposited ids, in arrival order. */
    var tokenIds: seq<nat>
    var rewardOrder: RewardOrder
    var condition: Condition
    var rewardGoal: nat
    /** The returned queue; issuance pops its last element. */
    var tokenQueue: seq<nat>
    var queueReceived: bool
    /** Whether the creator has taken the queue back; its slots are then deleted. */
    var queueWithdrawn: bool
    /** The queue exactly as the creator returned it. */
    ghost var received: seq<nat>

    /** Tokens issued to each user and not yet withdrawn. */
    var userAccounts: map<Address, seq<nat>>
    /** Users who have received their token. */
    var rewardedUsers: set<Address>
    /** Tokens transferred out of the escrow, per receiving wallet. */
    var transferred: map<Address, seq<nat>>

    /**
     * The escrow's invariant: one token per user, every returned id
     * accounted for, and the queue taken back only once the escrow ended.
     */
    ghost predicate Valid()
      reads this
    {
      OneTokenEach() && Conserved() &&
      (queueWithdrawn ==> Terminal(state)) &&
      (!queueReceived ==> received == [])
    }

    /** One token per user: an account holds at most one id, and only a rewarded user's does. */
    ghost predicate OneTokenEach()
      reads this`userAccounts, this`rewardedUsers
    {
      forall u :: u in userAccounts ==>
        |userAccounts[u]| <= 1 && (userAccounts[u] != [] ==> u in rewardedUsers)
    }

    /** The ids still queued for issuance: none once the creator took the queue back. */
    function Live(): (r: seq<nat>)
      reads this`tokenQueue, this`queueWithdrawn
      ensures !queueWithdrawn ==> r == tokenQueue
    {
      if queueWithdrawn then [] else tokenQueue
    }

    /**
     * Conservation: each id of the returned queue is, as many times as it
     * was returned, still queued, in a user's account, or in a wallet.
     */
    ghost predicate Conserved()
      reads this`received, this`tokenQueue, this`queueWithdrawn, this`userAccounts, this`transferred
    {
      forall id :: Balanced(received, Live(), userAccounts, transferred, id)
    }

    /** `getUserAccount`: the ids a user may withdraw. */
    function Account(user: Address): seq<nat>
      reads this`userAccounts
    {
      Holding(userAccounts, user)
    }

    /** The ids a wallet has received from the escrow. */
    function Received(wallet: Address): seq<nat>
      reads this`transferred
    {
      Holding(transferred, wallet)
    }

    /** `getBasicEscrowInfo().totalTokens`. */
    function TotalTokens(): nat
      reads this`tokenIds
    {
      |tokenIds|
    }

    /** The state as read at time `now`. */
    function StateNow(now: nat): EscrowState
      reads this`state, this`depositEndDate
    {
      StateAt(state, depositEndDate, now)
    }

    /** The escrow as deployed: the creator and the listed depositors may deposit. */
    constructor (creator: Address, collection: Address, objectiveCount: nat, tierCount: nat,
                 depositors: set<Address>)
      ensures Valid()
      ensures this.creator == creator && this.collection == collection
      ensures this.objectiveCount == objectiveCount && this.tierCount == tierCount
      ensures approvedDepositors == {creator} + depositors
      ensures state == Idle && depositKey == None && condition == Condition.NotSet
      ensures tokenIds == [] && tokenQueue == [] && !queueReceived && !queueWithdrawn && received == []
      ensures userAccounts == map[] && rewardedUsers == {} && transferred == map[]
    {
      this.creator := creator;
      this.collection := collection;
      this.objectiveCount := objectiveCount;
      this.tierCount := tierCount;
      approvedDepositors := {creator} + depositors;
      state := Idle;
      beforeFreeze := Idle;
      depositKey := None;
      depositEndDate := 0;
      tokenIds := [];
      rewardOrder := RewardOrder.NotSet;
      condition := Condition.NotSet;
      rewardGoal := 0;
      tokenQueue := [];
      queueReceived := false;
      queueWithdrawn := false;
      received := [];
      userAccounts := map[];
      rewardedUsers := {};
      transferred := map[];
    }

    /** `setDepositKey(key, depositEndDate)`: once, by the creator, from Idle; opens the deposit period. */
    method SetDepositKey(caller: Address, key: nat, endDate: nat) returns (o: Outcome)
      requires Valid()
      modifies this`depositKey, this`depositEndDate, this`state
      ensures Valid()
      ensures o == (if caller != creator then Err(Unauthorized)
                    else if old(depositKey).Some? then Err(AlreadySet)
                    else if old(state) != Idle then Err(InvalidState)
                    else Ok)
      ensures o.Err? ==> unchanged(this)
      ensures o.Ok? ==> depositKey == Some(key) && depositEndDate == endDate && state == DepositPeriod
    {
      if caller != creator {
        return Err(Unauthorized);
      }
      if depositKey.Some? {
        return Err(AlreadySet);
      }
      if state != Idle {
        return Err(InvalidState);
      }
      depositKey, depositEndDate, state := Some(key), endDate, DepositPeriod;
      o := Ok;
    }

    /**
     * `onERC721Received` for a transfer carrying the deposit key: an
     * approved depositor's token of the reward collection is appended to
     * the deposited ids while the deposit period is open.
     */
    method Deposit(from: Address, token: Address, tokenId: nat, key: nat, now: nat) returns (o: Outcome)
      requires Valid()
      modifies this`tokenIds
      ensures Valid()
      ensures o == (if from !in approvedDepositors then Err(NotApprovedDepositor)
                    else if token != collection then Err(CollectionNotApproved)
                    else if old(depositKey) != Some(key) then Err(InvalidDepositKey)
                    else if old(StateNow(now)) != DepositPeriod then Err(InvalidState)
                    else Ok)
      ensures o.Err? ==> unchanged(this)
      ensures o.Ok? ==> tokenIds == old(tokenIds) + [tokenId]
    {
      if from !in approvedDepositors {
        return Err(NotApprovedDepositor);
      }
      if token != collection {
        return Err(CollectionNotApproved);
      }
      if depositKey != Some(key) {
        return Err(InvalidDepositKey);
      }
      if StateNow(now) != DepositPeriod {
        return Err(InvalidState);
      }
      tokenIds := tokenIds + [tokenId];
      o := Ok;
    }

    /** Why `setEscrowSettings` would be refused, if it would. */
    function SettingsCheck(caller: Address, c: Condition, goal: nat, now: nat): Outcome
      reads this`state, this`depositEndDate
    {
      if caller != creator then Err(Unauthorized)
      else if StateNow(now) != AwaitingEscrowSettings then Err(InvalidState)
      else if c == Condition.NotSet then Err(InvalidCondition)
      else if c == ObjectiveCompleted && goal >= objectiveCount then Err(InvalidGoal)
      else if c == TierReached && (goal == 0 || goal >= tierCount) then Err(InvalidGoal)
      else Ok
    }

    /**
     * `setEscrowSettings(order, condition, goal)`: records the condition,
     * moves to Idle and emits every deposited id with the order for the
     * off-chain sorter.
     */
    method SetEscrowSettings(caller: Address, order: RewardOrder, c: Condition, goal: nat, now: nat)
      returns (r: Result<SortRequest>)
      requires Valid()
      modifies this`rewardOrder, this`condition, this`rewardGoal, this`state
      ensures Valid()
      ensures r.Failure? <==> old(SettingsCheck(caller, c, goal, now)).Err?
      ensures r.Failure? ==> r.error == old(SettingsCheck(caller, c, goal, now)).error && unchanged(this)
      ensures r.Success? ==> r.value == SortRequest(creator, tokenIds, order)
      ensures r.Success? ==> rewardOrder == order && condition == c && rewardGoal == goal && state == Idle
    {
      var check := SettingsCheck(caller, c, goal, now);
      if check.Err? {
        return Failure(check.error);
      }
      rewardOrder, condition, rewardGoal, state := order, c, goal, Idle;
      r := Success(SortRequest(creator, tokenIds, order));
    }

    /**
     * `receiveTokenQueue(queue, key)`: the creator returns the sorted ids once
     * the settings are in; the queue is stored exactly as returned, and it
     * is what the escrow accounts for from then on.
     */
    method ReceiveTokenQueue(caller: Address, queue: seq<nat>, key: nat) returns (o: Outcome)
      requires Valid()
      modifies this`tokenQueue, this`queueReceived, this`received
      ensures Valid()
      ensures o == (if caller != creator then Err(Unauthorized)
                    else if old(depositKey) != Some(key) then Err(InvalidDepositKey)
                    else if old(condition) == Condition.NotSet || old(state) != Idle || old(queueReceived)
                    then Err(InvalidState)
                    else Ok)
      ensures o.Err? ==> unchanged(this)
      ensures o.Ok? ==> tokenQueue == queue && queueReceived && received == queue
    {
      if caller != creator {
        return Err(Unauthorized);
      }
      if depositKey != Some(key) {
        return Err(InvalidDepositKey);
      }
      if condition == Condition.NotSet || state != Idle || queueReceived {
        return Err(InvalidState);
      }
      forall id ensures Ledger.Total(Copies(userAccounts, id)) == 0 && Ledger.Total(Copies(transferred, id)) == 0 {
        assert Balanced(received, Live(), userAccounts, transferred, id);
      }
      tokenQueue, queueReceived := queue, true;
      received := queue;
      o := Ok;
    }

    /** Activation moved the lifecycle state to InIssuance and nothing else. */
    twostate predicate Started()
      reads this
    {
      state == InIssuance &&
      unchanged(this`beforeFreeze, this`depositKey, this`depositEndDate, this`tokenIds,
        this`rewardOrder, this`condition, this`rewardGoal, this`tokenQueue,
        this`queueReceived, this`queueWithdrawn, this`received, this`userAccounts,
        this`rewardedUsers, this`transferred)
    }

    /** Activation by the program: only once the settings are in and the queue came back. */
    method Activate() returns (o: Outcome)
      requires Valid()
      modifies this`state
      ensures Valid()
      ensures o == (if old(state) == Idle && old(condition) != Condition.NotSet && old(queueReceived)
                    then Ok else Err(EscrowNotReady))
      ensures o.Err? ==> unchanged(this)
      ensures o.Ok? ==> Started()
    {
      if state != Idle || condition == Condition.NotSet || !queueReceived {
        return Err(EscrowNotReady);
      }
      state := InIssuance;
      o := Ok;
    }

    /** `emergencyFreeze(freeze)`, creator only. */
    method EmergencyFreeze(caller: Address, freeze: bool) returns (o: Outcome)
      requires Valid()
      modifies this`state, this`beforeFreeze
      ensures Valid()
      ensures caller != creator ==> o == Err(Unauthorized)
      ensures caller == creator ==>
        (o.Ok? <==> FreezeStep(old(state), old(beforeFreeze), freeze).Success?)
      ensures o.Err? ==> unchanged(this)
      ensures o.Ok? ==> (state, beforeFreeze) == FreezeStep(old(state), old(beforeFreeze), freeze).value
    {
      if caller != creator {
        return Err(Unauthorized);
      }
      var r := FreezeStep(state, beforeFreeze, freeze);
      if r.Failure? {
        return Err(r.error);
      }
      state, beforeFreeze := r.value.0, r.value.1;
      o := Ok;
    }

    /** `cancelProgramEscrow()`, creator only and final. */
    method CancelProgramEscrow(caller: Address) returns (o: Outcome)
      requires Valid()
      modifies this`state
      ensures Valid()
      ensures o == (if caller != creator then Err(Unauthorized) else CancelGate(old(state)))
      ensures o.Err? ==> unchanged(this)
      ensures o.Ok? ==> state == Canceled
    {
      if caller != creator {
        return Err(Unauthorized);
      }
      o := CancelGate(state);
      if o.Ok? {
        state := Canceled;
      }
    }

    /** The outcome and effect of `HandleRewards(ev)` returning `o`. */
    twostate predicate Handled(ev: Progress, o: Outcome)
      reads this
    {
      && (old(state) == Canceled ==> o == Ok && unchanged(this))
      && (old(state) != Canceled && old(condition) == Condition.NotSet ==> o == Err(ConditionNotSet))
      && ((old(state) != Canceled && old(condition) != Condition.NotSet &&
           old(state) != InIssuance && old(state) != Frozen) ==> o == Err(NotActive))
      && (o.Err? ==> unchanged(this))
      && (old(condition) != Condition.NotSet ==>
           && ((o.Ok? && (ev.user in old(rewardedUsers) ||
                          !old(Qualifies(condition, rewardGoal, tierCount, ev)))) ==> unchanged(this))
           && ((o.Ok? && old(state) != Canceled && ev.user !in old(rewardedUsers) &&
                old(Qualifies(condition, rewardGoal, tierCount, ev))) ==>
                 && old(tokenQueue) != []
                 && tokenQueue == old(tokenQueue)[..|old(tokenQueue)| - 1]
                 && Account(ev.user) == old(Account(ev.user)) + [old(tokenQueue)[|old(tokenQueue)| - 1]]
                 && (forall u :: u != ev.user ==> Account(u) == old(Account(u)))
                 && rewardedUsers == old(rewardedUsers) + {ev.user})
           && ((old(state) == InIssuance || old(state) == Frozen) ==>
                 (o.Err? <==> ev.user !in old(rewardedUsers) && old(Qualifies(condition, rewardGoal, tierCount, ev)) &&
                              old(tokenQueue) == [])))
    }

    /**
     * The evaluator the program calls after each completion or grant. A user
     * not yet rewarded whose event qualifies receives the last id of the
     * queue; the rest of the queue keeps its order. A canceled escrow, a
     * rewarded user or an event that does not qualify changes nothing; an
     * empty queue refuses the call.
     */
    method HandleRewards(ev: Progress) returns (o: Outcome)
      requires Valid()
      modifies this`tokenQueue, this`userAccounts, this`rewardedUsers
      ensures Valid()
      ensures Handled(ev, o)
    {
      if state == Canceled {
        return Ok;
      }
      if condition == Condition.NotSet {
        return Err(ConditionNotSet);
      }
      if state != InIssuance && state != Frozen {
        return Err(NotActive);
      }
      if ev.user in rewardedUsers || !Qualifies(condition, rewardGoal, tierCount, ev) {
        return Ok;
      }
      if tokenQueue == [] {
        return Err(InsufficientBudget);
      }
      Issue(ev.user);
      o := Ok;
    }

    /** Pops the last queued id into the account of a user not yet rewarded. */
    method Issue(user: Address)
      requires Valid() && tokenQueue != [] && user !in rewardedUsers && !Terminal(state)
      modifies this`tokenQueue, this`userAccounts, this`rewardedUsers
      ensures Valid()
      ensures tokenQueue == old(tokenQueue)[..|old(tokenQueue)| - 1]
      ensures userAccounts == old(userAccounts)[user := [old(tokenQueue)[|old(tokenQueue)| - 1]]]
      ensures rewardedUsers == old(rewardedUsers) + {user}
    {
      var last := |tokenQueue| - 1;
      var queue', accounts' := tokenQueue[..last], userAccounts[user := [tokenQueue[last]]];
      assert Account(user) == [] && Live() == tokenQueue;
      IssueBalanced(received, tokenQueue, userAccounts, transferred, user, queue', accounts');
      userAccounts := accounts';
      tokenQueue := queue';
      rewardedUsers := rewardedUsers + {user};
    }

    /** Moves the live queue to the creator's wallet and deletes every queue slot. */
    method ReturnQueue()
      requires Valid() && Terminal(state)
      modifies this`tokenQueue, this`transferred, this`queueWithdrawn
      ensures Valid()
      ensures tokenQueue == Cleared(old(tokenQueue)) && queueWithdrawn
      ensures transferred == old(transferred)[creator := old(Received(creator)) + old(Live())]
    {
      var wallets' := transferred[creator := Received(creator) + Live()];
      ReturnBalanced(received, Live(), userAccounts, transferred, creator, [], wallets');
      transferred := wallets';
      tokenQueue := Cleared(tokenQueue);
      queueWithdrawn := true;
      assert Live() == [];
    }

    /** `userWithdrawAll()`: the caller's issued token goes to the caller's wallet. */
    method UserWithdrawAll(caller: Address) returns (o: Outcome)
      requires Valid()
      modifies this`userAccounts, this`transferred
      ensures Valid()
      ensures o == UserWithdrawGate(old(state))
      ensures o.Err? ==> unchanged(this)
      ensures o.Ok? ==> Account(caller) == [] && Received(caller) == old(Received(caller)) + old(Account(caller))
      ensures o.Ok? ==> forall u :: u != caller ==> Account(u) == old(Account(u)) && Received(u) == old(Received(u))
    {
      o := UserWithdrawGate(state);
      if o.Err? {
        return;
      }
      var accounts', wallets' := userAccounts[caller := []], transferred[caller := Received(caller) + Account(caller)];
      WithdrawBalanced(received, Live(), userAccounts, transferred, caller, accounts', wallets');
      transferred, userAccounts := wallets', accounts';
    }

    /**
     * `creatorWithdrawAll()`, once the escrow has ended: the queued ids go to
     * the creator and every queue slot is deleted, so the queue keeps its
     * length with each id zeroed. A second call finds no id left to move.
     */
    method CreatorWithdrawAll(caller: Address) returns (o: Outcome)
      requires Valid()
      modifies this`tokenQueue, this`transferred, this`queueWithdrawn
      ensures Valid()
      ensures o == (if caller != creator then Err(Unauthorized) else UniqueCreatorWithdrawGate(old(state)))
      ensures o.Err? ==> unchanged(this)
      ensures o.Ok? ==> tokenQueue == Cleared(old(tokenQueue)) && queueWithdrawn && Live() == []
      ensures o.Ok? ==> Received(creator) == old(Received(creator)) + old(Live())
      ensures o.Ok? && !old(queueWithdrawn) ==> Received(creator) == old(Received(creator)) + old(tokenQueue)
      ensures o.Ok? ==> forall w :: w != creator ==> Received(w) == old(Received(w))
      ensures userAccounts == old(userAccounts)
    {
      if caller != creator {
        return Err(Unauthorized);
      }
      o := UniqueCreatorWithdrawGate(state);
      if o.Err? {
        return;
      }
      ReturnQueue();
    }
  }
}
