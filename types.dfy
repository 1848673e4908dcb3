/**
 * Shared vocabulary of the loyalty-program contracts: accounts, objectives,
 * the enumerations of constants/contractEnums.ts, the progress event the
 * program hands to its escrow, and the error outcomes of a call.
 */
module Types {

  /** An account (an EOA or a contract address). */
  type Address = nat

  datatype Option<T> = None | Some(value: T)

  /** Who may complete an objective besides the relayer. */
  datatype Authority = User | Creator

  /** One objective of a program: its display name, its point value and its authority. */
  datatype Objective = Objective(name: string, reward: nat, authority: Authority)

  /** Asset class of a program's rewards (RewardType). */
  datatype RewardType = Points | ERC20 | ERC721 | ERC1155

  /** Order in which an ERC721 escrow issues its tokens (ERC721RewardOrder). */
  datatype RewardOrder = NotSet | Ascending | Descending | Random

  /** What made a user's progress change. */
  datatype Trigger = Completion(index: nat) | Grant

  /**
   * The progress event a program passes to its escrow after a completion
   * or a grant: the user, the trigger, points and tier before and after,
   * and whether every objective of the program is now complete.
   */
  datatype Progress = Progress(
    user: Address,
    trigger: Trigger,
    oldPoints: nat,
    newPoints: nat,
    oldTier: nat,
    newTier: nat,
    allObjectivesComplete: bool)

  /**
   * The once-only key under which an escrow remembers that it has rewarded
   * a user: one objective, one tier, or one of the flat one-off conditions.
   */
  datatype RewardKey =
    | ObjectiveKey(index: nat)
    | TierKey(tier: nat)
    | PointsTotalKey
    | AllObjectivesKey
    | AllTiersKey

  /** Why a call reverts. Every failing call leaves all state unchanged. */
  datatype Error =
    | Unauthorized
    | NotActive
    | ObjectiveNotFound
    | AlreadyCompleted
    | AlreadySet
    | InvalidState
    | NotApprovedDepositor
    | InvalidDepositKey
    | InvalidCondition
    | InvalidGoal
    | InvalidPayouts
    | InsufficientBudget
    | InsufficientBalance
    | FundsAreLocked
    | MustBeCompletedOrCanceled
    | MustBeActiveOrCompleted
    | EscrowNotSet
    | ConditionNotSet
    | CollectionNotApproved
    | LengthMismatch
    | EscrowNotReady

  /** Outcome of a state-changing call. */
  datatype Outcome = Ok | Err(error: Error)

  /** Outcome of a call that also returns a value. */
  datatype Result<T> = Success(value: T) | Failure(error: Error)
}
