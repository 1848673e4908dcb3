/**
 * The progression engine (LoyaltyProgram): objectives with point values
 * and authorities, tiers derived from points, grants and deductions of
 * points outside objectives, the high-water mark of granted points, and
 * the lifecycle. After every completion or grant the program hands a
 * progress event to its escrow, whose evaluator decides what is paid; if
 * the escrow refuses the event the whole call fails and nothing changes.
 */
module Program {
  import opened Types
  import Tiers
  import Rewards
  import Erc20Escrow
  import Erc721Escrow
  import Erc1155Escrow
  import EscrowStates

  /** LoyaltyState. */
  datatype LoyaltyState = Idle | Active | Completed | Canceled

  /** The escrow a program pays through, if any (a Points program has none). */
  datatype EscrowLink =
    | NoEscrow
    | Fungible(erc20: Erc20Escrow.Escrow)
    | Unique(erc721: Erc721Escrow.Escrow)
    | Multi(erc1155: Erc1155Escrow.Escrow)

  /** The escrow object of a link. */
  function LinkObjects(link: EscrowLink): set<object>
  {
    match link
    case NoEscrow => {}
    case Fungible(e) => {e}
    case Unique(e) => {e}
    case Multi(e) => {e}
  }

  /**
   * What the linked escrow did with an event, by its own evaluator's
   * contract; a program without an escrow accepts every event.
   */
  twostate predicate EscrowHandled(link: EscrowLink, ev: Progress, o: Outcome)
    reads LinkObjects(link)
  {
    match link
    case NoEscrow => o == Ok
    case Fungible(e) => e.Handled(ev, o)
    case Unique(e) => e.Handled(ev, o)
    case Multi(e) => e.Handled(ev, o)
  }

  /** Whether the linked escrow would accept activation: armed (Idle) with a condition set, an ERC721 one with its queue in. */
  predicate EscrowReady(link: EscrowLink)
    reads LinkObjects(link)
  {
    match link
    case NoEscrow => true
    case Fungible(e) => e.state == EscrowStates.Idle && e.condition != Erc20Escrow.Condition.NotSet
    case Unique(e) => e.state == EscrowStates.Idle && e.condition != Erc721Escrow.Condition.NotSet && e.queueReceived
    case Multi(e) => e.state == EscrowStates.Idle && e.condition != Erc1155Escrow.Condition.NotSet
  }

  /** The linked escrow, if any, was activated and nothing else about it changed. */
  twostate predicate EscrowStarted(link: EscrowLink)
    reads LinkObjects(link)
  {
    match link
    case NoEscrow => true
    case Fungible(e) => e.Started()
    case Unique(e) => e.Started()
    case Multi(e) => e.Started()
  }

  /** The sum of the objectives' point values. */
  function SumRewards(objectives: seq<Objective>): nat
    decreases |objectives|
  {
    if objectives == [] then 0 else objectives[0].reward + SumRewards(objectives[1..])
  }

  /** Whether every entry of a completion array is set. */
  predicate AllComplete(done: seq<bool>)
  {
    forall i :: 0 <= i < |done| ==> done[i]
  }

  /** The stored thresholds for the supplied tiers: none, or the default tier 0 in front. */
  function StoredThresholds(supplied: seq<nat>): (r: seq<nat>)
    ensures supplied == [] ==> r == []
    ensures supplied != [] ==> |r| == |supplied| + 1 && r[0] == 0 && r[1..] == supplied
  {
    if supplied == [] then [] else Tiers.WithDefaultTier(supplied)
  }

  /** Ascending positive thresholds give ascending stored thresholds starting at 0. */
  lemma StoredThresholdsAscending(supplied: seq<nat>)
    requires Tiers.Ascending(supplied)
    requires forall i :: 0 <= i < |supplied| ==> 0 < supplied[i]
    ensures Tiers.Ascending(StoredThresholds(supplied))
  {
    var r := StoredThresholds(supplied);
    forall i, j | 0 <= i < j < |r| ensures r[i] < r[j] {
      assert r[j] == supplied[j - 1];
      if 0 < i {
        assert r[i] == supplied[i - 1];
      }
    }
  }

  /** The event a points change of one user produces, with both tiers derived from the thresholds. */
  function ProgressFor(thresholds: seq<nat>, user: Address, trigger: Trigger, oldPoints: nat, newPoints: nat,
                       allComplete: bool): Progress
  {
    Progress(user, trigger, oldPoints, newPoints,
             Tiers.TierOf(thresholds, oldPoints), Tiers.TierOf(thresholds, newPoints), allComplete)
  }

  /**
   * For an event the program produces, a per-tier condition owes tier `i`
   * exactly when `i` was not paid and the points moved from below its
   * threshold to at or above it: skipped tiers included, tier 0 never.
   */
  lemma TierPayoutsFollowPoints(thresholds: seq<nat>, user: Address, trigger: Trigger, p: nat, q: nat,
                                allComplete: bool, paid: set<RewardKey>, i: nat)
    requires Tiers.Ascending(thresholds) && thresholds != [] && thresholds[0] == 0
    requires i < |thresholds|
    ensures TierKey(i) in Rewards.Owed(Rewards.EveryTier, |thresholds|, ProgressFor(thresholds, user, trigger, p, q, allComplete), paid)
            <==> p < thresholds[i] <= q && TierKey(i) !in paid
  {
    Tiers.CrossedTiers(thresholds, p, q, i);
    Rewards.EveryTierOwed(|thresholds|, ProgressFor(thresholds, user, trigger, p, q, allComplete), paid, i);
  }

  /** A deduction that does not exceed the points leaves the rest; a larger one floors at zero. */
  function Deducted(points: nat, amount: nat): (r: nat)
    ensures r <= points
    ensures amount <= points ==> r + amount == points
    ensures points <= amount ==> r == 0
  {
    if amount >= points then 0 else points - amount
  }

  class LoyaltyProgram {
    const creator: Address
    /** The relayer that may act on behalf of users and of the creator. */
    const relay: Address
    const objectives: seq<Objective>
    /** The tier thresholds, the default tier 0 included; empty without tiers. */
    const thresholds: seq<nat>
    const tiersAreActive: bool
    const rewardType: RewardType

    var state: LoyaltyState
    var escrow: EscrowLink

    var points: map<Address, nat>
    var completed: map<Address, seq<bool>>
    /** Points granted to each user outside objectives, over the program's life. */
    var pointsGiven: map<Address, nat>
    var greatestPointsGiven: nat
    var totalPointsPossible: nat

    ghost predicate Valid()
      reads this`completed, this`pointsGiven, this`greatestPointsGiven, this`totalPointsPossible,
            this`escrow, EscrowObjects()
    {
      TiersFit() && ArraysFit() && HighWater() && LinkValid()
    }

    /** The stored thresholds ascend from the default tier 0, and are present exactly when tiers are active. */
    predicate TiersFit()
    {
      (tiersAreActive <==> thresholds != []) &&
      (thresholds != [] ==> Tiers.Ascending(thresholds) && thresholds[0] == 0)
    }

    /** Every stored completion array has one entry per objective. */
    predicate ArraysFit()
      reads this`completed
    {
      forall u :: u in completed ==> |completed[u]| == |objectives|
    }

    /**
     * `greatestPointsGiven` is the largest lifetime grant of any user, and
     * `totalPointsPossible` is the objectives' points plus it.
     */
    ghost predicate HighWater()
      reads this`pointsGiven, this`greatestPointsGiven, this`totalPointsPossible
    {
      (forall u :: u in pointsGiven ==> pointsGiven[u] <= greatestPointsGiven) &&
      (greatestPointsGiven == 0 || exists u :: u in pointsGiven && pointsGiven[u] == greatestPointsGiven) &&
      totalPointsPossible == SumRewards(objectives) + greatestPointsGiven
    }

    /** The linked escrow matches the reward type, counts the same objectives and tiers, and is itself valid. */
    ghost predicate LinkValid()
      reads this`escrow, EscrowObjects()
    {
      match escrow
      case NoEscrow => true
      case Fungible(e) =>
        rewardType == ERC20 && e.Valid() && e.objectiveCount == |objectives| && e.tierCount == |thresholds|
      case Unique(e) =>
        rewardType == ERC721 && e.Valid() && e.objectiveCount == |objectives| && e.tierCount == |thresholds|
      case Multi(e) =>
        rewardType == ERC1155 && e.Valid() && e.objectiveCount == |objectives| && e.tierCount == |thresholds|
    }

    /** The escrow object, as a frame. */
    function EscrowObjects(): set<object>
      reads this`escrow
    {
      LinkObjects(escrow)
    }

    /** `getUserProgression(user).rewardsEarned`. */
    function Points(user: Address): nat
      reads this`points
    {
      if user in points then points[user] else 0
    }

    /** `getUserCompletedObjectives(user)`: all false for a user never seen. */
    function Completed(user: Address): (r: seq<bool>)
      reads this`completed
      ensures |r| == |objectives|
    {
      if user in completed && |completed[user]| == |objectives| then completed[user]
      else seq(|objectives|, _ => false)
    }

    /**
     * `getUserProgression(user).currentTier`: derived from the points on
     * every read, the highest tier whose threshold the points reach.
     */
    function CurrentTier(user: Address): (t: nat)
      reads this`points
      ensures thresholds == [] ==> t == 0
      ensures thresholds != [] ==> t < |thresholds|
      ensures t == 0 || thresholds[t] <= Points(user)
      ensures forall j :: t < j < |thresholds| ==> Points(user) < thresholds[j]
    {
      Tiers.TierOf(thresholds, Points(user))
    }

    /** The lifetime grant of a user. */
    function PointsGiven(user: Address): nat
      reads this`pointsGiven
    {
      if user in pointsGiven then pointsGiven[user] else 0
    }

    /**
     * Deployment: the objectives in input order, the supplied thresholds
     * with the default tier in front when tier sorting is switched on and
     * tiers are supplied (otherwise no tiers), the total points possible
     * set to the objectives' points, and no escrow yet.
     */
    constructor (creator: Address, relay: Address, objectives: seq<Objective>, rewardType: RewardType,
                 tierSortingActive: bool, supplied: seq<nat>)
      requires tierSortingActive ==> Tiers.Ascending(supplied)
      requires tierSortingActive ==> forall i :: 0 <= i < |supplied| ==> 0 < supplied[i]
      ensures Valid()
      ensures this.creator == creator && this.relay == relay && this.objectives == objectives
      ensures this.rewardType == rewardType
      ensures tiersAreActive == (tierSortingActive && supplied != [])
      ensures thresholds == StoredThresholds(if tierSortingActive then supplied else [])
      ensures state == Idle && escrow == NoEscrow
      ensures totalPointsPossible == SumRewards(objectives) && greatestPointsGiven == 0
      ensures points == map[] && completed == map[] && pointsGiven == map[]
    {
      var stored := if tierSortingActive then supplied else [];
      StoredThresholdsAscending(stored);
      this.creator := creator;
      this.relay := relay;
      this.objectives := objectives;
      thresholds := StoredThresholds(stored);
      tiersAreActive := stored != [];
      this.rewardType := rewardType;
      state := Idle;
      escrow := NoEscrow;
      points := map[];
      completed := map[];
      pointsGiven := map[];
      greatestPointsGiven := 0;
      totalPointsPossible := SumRewards(objectives);
    }

    /** `setEscrowContract(escrow, rewardType)`: once, by the creator, while the program is Idle. */
    method SetEscrowContract(caller: Address, link: EscrowLink) returns (o: Outcome)
      requires Valid()
      requires link.Fungible? ==> (rewardType == ERC20 && link.erc20.Valid() &&
        link.erc20.objectiveCount == |objectives| && link.erc20.tierCount == |thresholds|)
      requires link.Unique? ==> (rewardType == ERC721 && link.erc721.Valid() &&
        link.erc721.objectiveCount == |objectives| && link.erc721.tierCount == |thresholds|)
      requires link.Multi? ==> (rewardType == ERC1155 && link.erc1155.Valid() &&
        link.erc1155.objectiveCount == |objectives| && link.erc1155.tierCount == |thresholds|)
      modifies this`escrow
      ensures Valid()
      ensures o == (if caller != creator then Err(Unauthorized)
                    else if old(state) != Idle then Err(InvalidState)
                    else if !old(escrow).NoEscrow? then Err(AlreadySet)
                    else if link.NoEscrow? then Err(EscrowNotSet)
                    else Ok)
      ensures o.Err? ==> unchanged(this)
      ensures o.Ok? ==> escrow == link
    {
      if caller != creator {
        return Err(Unauthorized);
      }
      if state != Idle {
        return Err(InvalidState);
      }
      if !escrow.NoEscrow? {
        return Err(AlreadySet);
      }
      if link.NoEscrow? {
        return Err(EscrowNotSet);
      }
      escrow := link;
      o := Ok;
    }

    /**
     * `setLoyaltyProgramActive()`: the creator starts the program; a
     * program with an escrow activates it, which needs its settings in.
     */
    method SetLoyaltyProgramActive(caller: Address) returns (o: Outcome)
      requires Valid()
      modifies this`state, EscrowObjects()
      ensures Valid()
      ensures caller != creator ==> o == Err(Unauthorized)
      ensures caller == creator && old(state) != Idle ==> o == Err(InvalidState)
      ensures caller == creator && old(state) == Idle && old(escrow).NoEscrow? ==>
              o == (if rewardType == RewardType.Points then Ok else Err(EscrowNotSet))
      ensures caller == creator && old(state) == Idle && !old(escrow).NoEscrow? ==>
              o == (if old(EscrowReady(escrow)) then Ok else Err(EscrowNotReady))
      ensures o.Err? ==> unchanged(this) && unchanged(old(EscrowObjects()))
      ensures o.Ok? ==> state == Active
      ensures o.Ok? ==> EscrowStarted(old(escrow))
    {
      if caller != creator {
        return Err(Unauthorized);
      }
      if state != Idle {
        return Err(InvalidState);
      }
      if escrow.NoEscrow? && rewardType != RewardType.Points {
        return Err(EscrowNotSet);
      }
      o := ActivateEscrow();
      if o.Err? {
        return;
      }
      state := Active;
    }

    /** Activates the linked escrow, if there is one. */
    method ActivateEscrow() returns (o: Outcome)
      requires LinkValid()
      modifies EscrowObjects()
      ensures LinkValid()
      ensures o == (if old(EscrowReady(escrow)) then Ok else Err(EscrowNotReady))
      ensures o.Err? ==> unchanged(EscrowObjects())
      ensures o.Ok? ==> EscrowStarted(escrow)
    {
      match escrow {
        case NoEscrow =>
          o := Ok;
        case Fungible(e) =>
          o := e.Activate();
        case Unique(e) =>
          o := e.Activate();
        case Multi(e) =>
          o := e.Activate();
      }
    }

    /** Hands an event to the escrow's evaluator; a program without an escrow accepts it. */
    method Notify(ev: Progress) returns (o: Outcome)
      requires LinkValid()
      modifies EscrowObjects()
      ensures LinkValid()
      ensures o.Err? ==> unchanged(EscrowObjects())
      ensures EscrowHandled(escrow, ev, o)
    {
      match escrow {
        case NoEscrow =>
          o := Ok;
        case Fungible(e) =>
          o := e.HandleRewards(ev);
        case Unique(e) =>
          o := e.HandleRewards(ev);
        case Multi(e) =>
          o := e.HandleRewards(ev);
      }
    }

    /**
     * Why a completion would be refused, if it would. `entry` is the entry
     * point: `completeUserAuthorityObjective` (User), which the user or the
     * relayer may call, or `completeCreatorAuthorityObjective` (Creator),
     * which the creator or the relayer may call. The relayer may complete
     * any objective through either entry point; anyone else must use the
     * entry point of the objective's authority.
     */
    function CompletionCheck(caller: Address, index: nat, user: Address, entry: Authority): (r: Outcome)
      reads this`state, this`completed
      ensures r.Ok? ==> state == Active && index < |objectives| && !Completed(user)[index]
      ensures r.Ok? ==> caller == relay || (objectives[index].authority == entry &&
                                           caller == (if entry == User then user else creator))
      ensures state == Active && index < |objectives| && caller != relay && objectives[index].authority != entry
              ==> r == Err(Unauthorized)
      ensures state == Active && index < |objectives| && caller == relay
              ==> r == (if Completed(user)[index] then Err(AlreadyCompleted) else Ok)
    {
      if state != Active then Err(NotActive)
      else if index >= |objectives| then Err(ObjectiveNotFound)
      else if caller != relay && objectives[index].authority != entry then Err(Unauthorized)
      else if caller != relay && caller != (if entry == User then user else creator) then Err(Unauthorized)
      else if Completed(user)[index] then Err(AlreadyCompleted)
      else Ok
    }

    /** The event a completion hands to the escrow. */
    function CompletionEvent(index: nat, user: Address): Progress
      requires index < |objectives|
      reads this`points, this`completed
    {
      ProgressFor(thresholds, user, Completion(index), Points(user), Points(user) + objectives[index].reward,
                  AllComplete(Completed(user)[index := true]))
    }

    /**
     * Completing objective `index` for `user`: the completion bit is set,
     * the objective's points are added, the tier follows from the new
     * points, and the escrow is handed the event.
     */
    method CompleteObjective(caller: Address, index: nat, user: Address, entry: Authority) returns (o: Outcome)
      requires Valid()
      modifies this`points, this`completed, EscrowObjects()
      ensures Valid()
      ensures old(CompletionCheck(caller, index, user, entry)).Err? ==>
              o == old(CompletionCheck(caller, index, user, entry))
      ensures o.Err? ==> unchanged(this) && unchanged(old(EscrowObjects()))
      ensures o.Ok? ==> old(CompletionCheck(caller, index, user, entry)) == Ok
      ensures o.Ok? ==> points == old(points)[user := old(Points(user)) + objectives[index].reward]
      ensures o.Ok? ==> completed == old(completed)[user := old(Completed(user))[index := true]]
      ensures old(CompletionCheck(caller, index, user, entry)) == Ok ==> EscrowHandled(escrow, old(CompletionEvent(index, user)), o)
    {
      o := CompletionCheck(caller, index, user, entry);
      if o.Err? {
        return;
      }
      o := Notify(CompletionEvent(index, user));
      if o.Ok? {
        RecordCompletion(index, user);
      }
    }

    /** The program's own part of a completion. */
    method RecordCompletion(index: nat, user: Address)
      requires index < |objectives| && ArraysFit()
      modifies this`points, this`completed
      ensures ArraysFit()
      ensures completed == old(completed)[user := old(Completed(user))[index := true]]
      ensures points == old(points)[user := old(Points(user)) + objectives[index].reward]
    {
      completed := completed[user := Completed(user)[index := true]];
      points := points[user := Points(user) + objectives[index].reward];
    }

    /** Who may grant or deduct points, and when. */
    function PointsCheck(caller: Address): Outcome
      reads this`state
    {
      if caller != creator && caller != relay then Err(Unauthorized)
      else if state != Active then Err(NotActive)
      else Ok
    }

    /** The event a grant hands to the escrow. */
    function GrantEvent(user: Address, amount: nat): Progress
      reads this`points, this`completed
    {
      ProgressFor(thresholds, user, Grant, Points(user), Points(user) + amount, AllComplete(Completed(user)))
    }

    /**
     * `givePointsToUser(user, amount)`: the points and the user's lifetime
     * grant grow by `amount`, the high-water mark follows when the grant
     * passes it, and the escrow is handed the event. Completions are not
     * touched.
     */
    method GivePointsToUser(caller: Address, user: Address, amount: nat) returns (o: Outcome)
      requires Valid()
      modifies this`points, this`pointsGiven, this`greatestPointsGiven, this`totalPointsPossible,
               EscrowObjects()
      ensures Valid()
      ensures old(PointsCheck(caller)).Err? ==> o == old(PointsCheck(caller))
      ensures o.Err? ==> unchanged(this) && unchanged(old(EscrowObjects()))
      ensures o.Ok? ==> old(PointsCheck(caller)) == Ok
      ensures o.Ok? ==> Granted(user, amount)
      ensures old(PointsCheck(caller)) == Ok ==> EscrowHandled(escrow, old(GrantEvent(user, amount)), o)
    {
      o := PointsCheck(caller);
      if o.Err? {
        return;
      }
      o := NotifyGrant(user, amount);
    }

    /** A permitted grant: the escrow is handed the event first, and the grant is recorded only if it accepts. */
    method NotifyGrant(user: Address, amount: nat) returns (o: Outcome)
      requires Valid()
      modifies this`points, this`pointsGiven, this`greatestPointsGiven, this`totalPointsPossible,
               EscrowObjects()
      ensures Valid()
      ensures o.Err? ==> unchanged(this) && unchanged(old(EscrowObjects()))
      ensures o.Ok? ==> Granted(user, amount)
      ensures EscrowHandled(escrow, old(GrantEvent(user, amount)), o)
    {
      o := Notify(GrantEvent(user, amount));
      if o.Err? {
        return;
      }
      RecordGrant(user, amount);
    }

    /**
     * The program's record of a grant of `amount` to `user`: the points and
     * the lifetime grant grow by it, and the high-water mark follows the
     * lifetime grant if it now exceeds it.
     */
    twostate predicate Granted(user: Address, amount: nat)
      reads this
    {
      && points == old(points)[user := old(Points(user)) + amount]
      && pointsGiven == old(pointsGiven)[user := old(PointsGiven(user)) + amount]
      && greatestPointsGiven ==
         (if old(PointsGiven(user)) + amount > old(greatestPointsGiven) then old(PointsGiven(user)) + amount
          else old(greatestPointsGiven))
    }

    /** The program's own part of a grant: the points, the lifetime grant and the high-water mark. */
    method RecordGrant(user: Address, amount: nat)
      requires HighWater()
      modifies this`points, this`pointsGiven, this`greatestPointsGiven, this`totalPointsPossible
      ensures HighWater()
      ensures Granted(user, amount)
    {
      ghost var before := pointsGiven;
      var given := PointsGiven(user) + amount;
      points := points[user := Points(user) + amount];
      pointsGiven := pointsGiven[user := given];
      if given > greatestPointsGiven {
        greatestPointsGiven, totalPointsPossible := given, SumRewards(objectives) + given;
        assert pointsGiven[user] == greatestPointsGiven;
      } else if greatestPointsGiven != 0 {
        ghost var w :| w in before && before[w] == greatestPointsGiven;
        assert w in pointsGiven && pointsGiven[w] == greatestPointsGiven;
      }
      forall u | u in pointsGiven ensures pointsGiven[u] <= greatestPointsGiven {
        if u != user {
          assert u in before && pointsGiven[u] == before[u];
        }
      }
    }

    /**
     * `deductPointsFromUser(user, amount)`: the points drop by `amount`,
     * floored at zero, and the tier follows. Nothing is paid or taken
     * back, and the lifetime grants and the high-water mark stay.
     */
    method DeductPointsFromUser(caller: Address, user: Address, amount: nat) returns (o: Outcome)
      requires Valid()
      modifies this`points
      ensures Valid()
      ensures o == old(PointsCheck(caller))
      ensures o.Err? ==> unchanged(this)
      ensures o.Ok? ==> points == old(points)[user := Deducted(old(Points(user)), amount)]
    {
      o := PointsCheck(caller);
      if o.Err? {
        return;
      }
      points := points[user := Deducted(Points(user), amount)];
    }
  }
}
