/**
 * The escrow lifecycle shared by the three escrow kinds
 * (ERC20/ERC721/ERC1155EscrowState in constants/contractEnums.ts): the
 * deposit window that closes by itself when its end date passes, the
 * emergency freeze that remembers the state it interrupted, cancellation,
 * and the gates withdrawals pass through.
 */
module EscrowStates {
  import opened Types

  datatype EscrowState =
    | Idle
    | DepositPeriod
    | AwaitingEscrowSettings
    | InIssuance
    | Completed
    | Frozen
    | Canceled

  /** Completed and Canceled are final. */
  predicate Terminal(s: EscrowState)
  {
    s == Completed || s == Canceled
  }

  /**
   * The state as read at time `now`: a deposit period whose end date has
   * been reached reads as AwaitingEscrowSettings without any transaction.
   */
  function StateAt(stored: EscrowState, depositEndDate: nat, now: nat): (s: EscrowState)
    ensures s == AwaitingEscrowSettings <==>
      stored == AwaitingEscrowSettings || (stored == DepositPeriod && depositEndDate <= now)
    ensures s == DepositPeriod <==> stored == DepositPeriod && now < depositEndDate
    ensures stored != DepositPeriod ==> s == stored
  {
    if stored == DepositPeriod && depositEndDate <= now then AwaitingEscrowSettings else stored
  }

  /**
   * `emergencyFreeze(freeze)`: freezing a live escrow records the state it
   * leaves; unfreezing a frozen one returns to the recorded state. The
   * result is the new (state, state before freeze) pair.
   */
  function FreezeStep(state: EscrowState, beforeFreeze: EscrowState, freeze: bool)
    : (r: Result<(EscrowState, EscrowState)>)
    ensures r.Success? <==> (if freeze then state != Frozen && !Terminal(state) else state == Frozen)
    ensures r.Success? && freeze ==> r.value == (Frozen, state)
    ensures r.Success? && !freeze ==> r.value.0 == beforeFreeze
  {
    if freeze then
      if state == Frozen || Terminal(state) then Failure(InvalidState) else Success((Frozen, state))
    else
      if state != Frozen then Failure(InvalidState) else Success((beforeFreeze, beforeFreeze))
  }

  /** Unfreezing right after a freeze restores the interrupted state exactly. */
  lemma FreezeRoundTrip(state: EscrowState, beforeFreeze: EscrowState)
    requires state != Frozen && !Terminal(state)
    ensures FreezeStep(state, beforeFreeze, true).Success?
    ensures FreezeStep(FreezeStep(state, beforeFreeze, true).value.0,
                       FreezeStep(state, beforeFreeze, true).value.1, false)
            == Success((state, state))
  {
  }

  /**
   * Whether a user may withdraw claimable rewards: never while Frozen, and
   * otherwise only once issuance has started or the escrow has ended.
   */
  function UserWithdrawGate(s: EscrowState): (o: Outcome)
    ensures o.Ok? <==> s == InIssuance || Terminal(s)
    ensures s == Frozen ==> o == Err(FundsAreLocked)
  {
    if s == Frozen then Err(FundsAreLocked)
    else if s == InIssuance || Terminal(s) then Ok
    else Err(InvalidState)
  }

  /**
   * Whether the creator may take back the remaining budget of a fungible or
   * multi-token escrow: only once the escrow has ended; every other state,
   * Frozen included, is refused with MustBeCompletedOrCanceled.
   */
  function CreatorWithdrawGate(s: EscrowState): (o: Outcome)
    ensures o.Ok? <==> Terminal(s)
    ensures !Terminal(s) ==> o == Err(MustBeCompletedOrCanceled)
  {
    if Terminal(s) then Ok else Err(MustBeCompletedOrCanceled)
  }

  /**
   * The same gate for the unique-token escrow, whose refusal, Frozen
   * included, is MustBeActiveOrCompleted.
   */
  function UniqueCreatorWithdrawGate(s: EscrowState): (o: Outcome)
    ensures o.Ok? <==> Terminal(s)
    ensures !Terminal(s) ==> o == Err(MustBeActiveOrCompleted)
  {
    if Terminal(s) then Ok else Err(MustBeActiveOrCompleted)
  }

  /**
   * While Frozen, users and creator are both refused, with different codes:
   * the freeze locks the users' funds, while the creator is simply not yet
   * allowed.
   */
  lemma FrozenLocksBoth()
    ensures UserWithdrawGate(Frozen) == Err(FundsAreLocked)
    ensures CreatorWithdrawGate(Frozen) == Err(MustBeCompletedOrCanceled)
    ensures UniqueCreatorWithdrawGate(Frozen) == Err(MustBeActiveOrCompleted)
  {
  }

  /** `cancelProgramEscrow`: allowed from every state that is not final, Frozen included. */
  function CancelGate(s: EscrowState): (o: Outcome)
    ensures o.Ok? <==> !Terminal(s)
  {
    if Terminal(s) then Err(InvalidState) else Ok
  }
}
