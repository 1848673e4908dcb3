# Loyalty programs with reward escrows, in Dafny

This project is a verified model of a loyalty-program system. A creator deploys a
`LoyaltyProgram`. The program holds objectives, each with a point value and an
authority (User or Creator), and optional tier thresholds. Users earn points by
completing objectives. The creator or a relayer can also grant them points or
deduct points from them. A user's tier is derived from their points: the stored
thresholds carry a default tier 0 in front of the supplied ones.

After every completion or grant the program hands a progress event to its
escrow. There are three kinds of escrow:

- **ERC20 escrow:** pays base units of one token. It pays a flat amount once, or
  an amount per objective or per tier from a table.
- **ERC721 escrow:** pays one token per user. The token is popped from a queue
  that an off-chain sorter produced.
- **ERC1155 escrow:** pays (token id, amount) entries. They are appended to the
  user's reward list.

Each escrow also models:

- the lifecycle Idle, DepositPeriod, AwaitingEscrowSettings, InIssuance, Frozen,
  Canceled and Completed;
- deposits, settings, activation, emergency freeze and cancellation;
- user and creator withdrawals;
- a conservation invariant, kept by every operation and stated on the escrow's
  own fields:
  - ERC20: the tokens held equal the budget plus what users can still claim, and
    everything deposited is held or was transferred out;
  - ERC721: each id of the queue the creator returned is, as many times as it
    was returned, still queued, in a user's account or in a wallet;
  - ERC1155: per token id, everything deposited is still in the balance, in a
    user's reward list or in a wallet.

One shared evaluator (`Rewards`) decides which once-only keys an event owes:

- an objective key, a tier key, or the key of a one-off condition;
- skipped tiers included, lowest first;
- a key already paid is never owed again, even after deduct-then-re-earn.

Two client-side helpers are modelled as the imperative code they are:

- **the dynamic Merkle tree over addresses** (`utils/merkleUtils.ts`): the root,
  update proofs and append proofs. Each is proved to round-trip through a proof
  verifier.
- **the off-chain token sorter** (`utils/sortTokens.ts`): an in-place sort in
  either direction, or a Fisher-Yates shuffle. Each branch is proved to be a
  permutation.

The contracts themselves are Solidity files that are not part of this model.
Their behaviour is reconstructed from the assertions of the repository's test
files; these are the lines cited below.

The `Scenario*` modules replay those tests on their own numbers: thresholds 400,
4400, 7000 and 7800; objectives worth 400, 400, 1000, 2000 and 4000; fifty
ERC721 ids; 800 of each of four ERC1155 ids; and budgets in base units.

Layout:

| File | Contents |
|---|---|
| `types.dfy` | shared datatypes and outcomes |
| `tiers.dfy` | tier derivation |
| `ledger.dfy` | sums of claimable balances |
| `merkle.dfy` | the Merkle helpers |
| `sort_tokens.dfy` | the token sorter |
| `escrow_states.dfy` | the shared lifecycle |
| `rewards.dfy` | the shared evaluator |
| `escrow_erc20.dfy`, `escrow_erc721.dfy`, `escrow_erc1155.dfy` | the three escrow classes |
| `program.dfy` | the `LoyaltyProgram` class |
| `scenario_*.dfy` | the test replays |

## Model

| member | source | states |
|---|---|---|
| Tiers.WithDefaultTier | test/0.02/LoyaltyDeployWithERC20.ts:115-137 | the stored thresholds are the supplied ones behind a default threshold 0, one entry longer |
| Tiers.TierOf | test/0.03/TierAndPointsRewardConditions.ts:442-493 | the tier is an index whose threshold is at most the points, with every later threshold above them; tier 0 without thresholds |
| Tiers.TierReachedIff | test/0.03/TierAndPointsRewardConditions.ts:442-493 | with ascending thresholds from 0, tier i is reached if and only if its threshold is at most the points |
| Tiers.TierMonotone | test/0.03/TierAndPointsRewardConditions.ts:442-512 | more points never give a lower tier |
| Tiers.CrossedTiers | test/0.02/LoyaltyWithERC1155RewardConditions.ts:604-634 | going from p to q points newly reaches tier i if and only if p < threshold(i) <= q |
| Ledger.TotalRemove | test/0.04/TestNoDepositPeriod.ts:221-224 | the total of the claimable balances splits into any one user's balance plus the rest |
| Ledger.TotalUpdate | test/0.04/TestNoDepositPeriod.ts:221-224 | setting one balance changes the total by exactly the difference |
| Ledger.TotalCredit | test/0.04/TestNoDepositPeriod.ts:184-200 | crediting a user raises the total by the amount |
| Ledger.TotalDebit | test/0.04/TestNoDepositPeriod.ts:203-211 | a withdrawal lowers the total by the amount |
| Ledger.BalanceWithinTotal | test/0.04/TestNoDepositPeriod.ts:221-224 | no balance exceeds the total |
| Merkle.LeafHashes | utils/merkleUtils.ts:14 | one leaf hash per address, in order |
| Merkle.NextLevel | utils/merkleUtils.ts:18-30 | a round maps n nodes to ceil(n/2), strictly fewer when n > 1, so the loop ends |
| Merkle.NextLevelAt | utils/merkleUtils.ts:20-27 | parent k hashes nodes 2k and 2k+1, with HashZero for a missing right node |
| Merkle.Root | utils/merkleUtils.ts:13-33 | an empty list has root HashZero and a one-address list has its leaf hash |
| Merkle.FoldProofOf | utils/merkleUtils.ts:45-61 | folding the node at idx with its proof gives the level's root |
| Merkle.ParentOfPosition | utils/merkleUtils.ts:46-57 | the parent of idx hashes it with its sibling, or with HashZero, on the side its parity gives |
| Merkle.ProofIgnoresOwnNode | utils/merkleUtils.ts:45-61 | the proof of idx does not depend on the node at idx |
| Merkle.UpdateRoundTrip | utils/merkleUtils.ts:35-63 | for index < length, folding the leaf at index with its update proof gives the root |
| Merkle.UpdateToNewRoot | test/0.03/TestERC20EscrowUnits.ts:291-306 | the same proof folds a replacement leaf to the root of the updated list |
| Merkle.AppendRoundTrip | utils/merkleUtils.ts:41-66 | the proof one past the end folds a new leaf x to the root of addresses + [x] |
| Merkle.ProofLengthBound | utils/merkleUtils.ts:45-49 | a proof holds at most one hash per halving round |
| Merkle.UpdateProofLength | utils/merkleUtils.ts:35-63 | the proofs handed out are no longer than the tree is deep |
| Merkle.HashLevel | utils/merkleUtils.ts:19-29 | the push loop builds exactly the next level |
| Merkle.CalculateRootHash | utils/merkleUtils.ts:13-33 | the method computes the root of the address list |
| Merkle.GetUpdateProof | utils/merkleUtils.ts:35-63 | the method returns the update proof, which folds the existing leaf back to the root |
| Merkle.GetAppendProof | utils/merkleUtils.ts:65-66 | the result is the update proof at the length, and it folds every new leaf to the grown root |
| SortTokens.SortInPlace | utils/sortTokens.ts:7-13 | the array ends sorted in the requested direction and is a permutation of the old one |
| SortTokens.SwapAtPermutes | utils/sortTokens.ts:17 | an exchange of two positions keeps the multiset |
| SortTokens.ShuffleStepsPermutes | utils/sortTokens.ts:15-19 | the shuffle steps keep the multiset for every oracle draw in [0, i] |
| SortTokens.ShuffleStep | utils/sortTokens.ts:15-19 | one step swaps i with the draw at i and continues at i - 1 |
| SortTokens.ShuffledPermutes | utils/sortTokens.ts:14-20 | the shuffle is a permutation of its input, whatever the oracle draws |
| SortTokens.Swap | utils/sortTokens.ts:17 | cells i and j are exchanged and every other cell stays |
| SortTokens.ShuffleInPlace | utils/sortTokens.ts:15-19 | the in-place loop leaves the array equal to the shuffle of the old contents |
| SortTokens.SimulateOffChainSortTokens | utils/sortTokens.ts:3-21 | returns the input array itself, permuted: Ascending sorts max to min, Descending min to max, and any other order shuffles |
| SortTokens.IssueOrderPermutes | utils/sortTokens.ts:7-10 | popping a queue from its end hands out exactly its ids |
| SortTokens.IssueOrderReverses | utils/sortTokens.ts:7-10 | the k-th id issued is the k-th from the end of the queue |
| SortTokens.MaxToMinIssuesIncreasing | utils/sortTokens.ts:7-10 | a max-to-min queue popped from its end issues ids smallest first |
| EscrowStates.StateAt | test/0.02/LoyaltyDeployWithERC721.ts:275-287 | a deposit period reads AwaitingEscrowSettings once its end date is reached, with no transaction; every other state reads as stored |
| EscrowStates.FreezeStep | test/0.04/TestERC1155EscrowChanges.ts:155-186 | a freeze succeeds from a live state that is not frozen and records that state; an unfreeze succeeds only from Frozen and returns to the recorded state |
| EscrowStates.FreezeRoundTrip | test/0.04/TestERC721EscrowChanges.ts:237-264 | freezing and then unfreezing restores the interrupted state |
| EscrowStates.UserWithdrawGate | test/0.04/TestERC1155EscrowChanges.ts:163-202 | users may withdraw if and only if issuance has started or the escrow has ended; Frozen gives FundsAreLocked |
| EscrowStates.CreatorWithdrawGate | test/0.04/TestERC1155EscrowChanges.ts:163-236 | the creator of a fungible or multi-token escrow may withdraw if and only if the escrow has ended; every other state, Frozen included, gives MustBeCompletedOrCanceled |
| EscrowStates.UniqueCreatorWithdrawGate | test/0.04/TestERC721EscrowChanges.ts:250-314 | the creator of a unique-token escrow may withdraw if and only if the escrow has ended; every other state, Frozen included, gives MustBeActiveOrCompleted |
| EscrowStates.FrozenLocksBoth | test/0.04/TestERC1155EscrowChanges.ts:163-171 | while Frozen, users get FundsAreLocked and the creator MustBeCompletedOrCanceled, or MustBeActiveOrCompleted for a unique-token escrow |
| EscrowStates.CancelGate | test/0.04/TestERC1155EscrowChanges.ts:187-193 | cancelling is allowed if and only if the escrow has not ended |
| Rewards.TierKeys | test/0.02/LoyaltyWithERC1155RewardConditions.ts:604-634 | the keys of tiers lo+1 up to hi, lowest first: a key is listed if and only if it is a tier key with lo < tier <= hi |
| Rewards.Candidates | test/0.02/LoyaltyWithERC1155RewardConditions.ts:251-634 | an event lists exactly the keys its rule fires for: the completed objective, the goal objective or tier when reached, every tier crossed, the last tier, the points goal crossed; at most one key except per tier, and none for an objective rule on a grant |
| Rewards.Owed | test/0.03/TierAndPointsRewardConditions.ts:481-512 | an event owes a key if and only if its rule fires for it and it was not paid before |
| Rewards.Unpaid | test/0.03/TierAndPointsRewardConditions.ts:481-512 | a key stays if and only if it is listed and not yet paid, in the original order |
| Rewards.UnpaidDistinct | test/0.03/TierAndPointsRewardConditions.ts:481-512 | dropping paid keys keeps distinct keys distinct |
| Rewards.OwedDistinct | test/0.03/TierAndPointsRewardConditions.ts:597-648 | one event never owes the same key twice |
| Rewards.PaidKeysNeverOwedAgain | test/0.03/TierAndPointsRewardConditions.ts:481-512 | once an event's owed keys are recorded as paid, no later event owes any of them again |
| Rewards.KeySet | test/0.02/LoyaltyWithERC1155RewardConditions.ts:287-326 | the paid keys recorded are exactly the keys of the list |
| Rewards.EveryTierOwed | test/0.03/TierAndPointsRewardConditions.ts:791-846 | a per-tier rule owes tier t if and only if the old tier < t <= the new tier and t was not paid |
| Rewards.UnpaidKeepsOrder | test/0.03/TierAndPointsRewardConditions.ts:791-846 | dropping paid keys keeps tier keys increasing |
| Rewards.EveryTierInOrder | test/0.03/TierAndPointsRewardConditions.ts:791-846 | per-tier payouts come lowest tier first |
| Rewards.GrantOwesNoObjective | test/0.03/TestEventAnalyticsERC20.ts:130-157 | a grant owes nothing under an objective condition |
| Rewards.NoProgressOwesNoTier | test/0.02/LoyaltyWithERC1155RewardConditions.ts:575-602 | an event that leaves the points and the tier where they were owes nothing under a points or tier condition |
| Erc20Escrow.RuleOf | test/0.03/TierAndPointsRewardConditions.ts:514-648 | the per-index conditions are exactly the ones that watch every objective or every tier |
| Erc20Escrow.Price | test/0.03/TestERC20EscrowUnits.ts:195-256 | a basic condition pays its flat amount; a table pays the entry at the key's objective or tier index |
| Erc20Escrow.Cost | test/0.03/TestERC20EscrowUnits.ts:308-325 | no keys cost nothing; under a one-off condition each key costs the flat amount, so n keys cost n times it |
| Erc20Escrow.CostAppend | test/0.03/TestERC20EscrowUnits.ts:308-325 | paying two lists in turn costs the sum of their costs |
| Erc20Escrow.CostOfTierKeys | test/0.03/TierAndPointsRewardConditions.ts:597-648 | paying tiers lo+1..hi costs exactly their table entries |
| Erc20Escrow.UnpaidOfFresh | test/0.03/TierAndPointsRewardConditions.ts:597-648 | with none of them paid, no key is dropped |
| Erc20Escrow.RewardPerTierPaysCrossedTiers | test/0.03/TierAndPointsRewardConditions.ts:588-648 | RewardPerTier pays in one call the entries of every unpaid tier crossed |
| Erc20Escrow.RewardPerObjectivePaysEntry | test/0.03/TestEventAnalyticsERC20.ts:125-195 | RewardPerObjective pays the entry of the objective just completed, once |
| Erc20Escrow.BasicPaysAmountOrNothing | test/0.03/LPDeployTestChanges.ts:237-305 | a basic condition pays its flat amount or nothing |
| Erc20Escrow.Escrow.constructor | test/0.02/LoyaltyDeployWithERC20.ts:198-203 | the escrow starts Idle (AwaitingEscrowSettings in the revision without a deposit period) with no budget, balances or condition |
| Erc20Escrow.Escrow.SetDepositKey | test/0.02/LoyaltyDeployWithERC20.ts:306-316 | the creator sets the key once; this opens the deposit period, except in the revision, which keeps awaiting settings |
| Erc20Escrow.Escrow.DepositBudget | test/0.03/TestERC20EscrowUnits.ts:138-194 | an approved depositor with the key adds the exact base-unit amount to the budget and the holdings |
| Erc20Escrow.Escrow.SetEscrowSettingsBasic | test/0.03/LPDeployTestChanges.ts:87-113 | only the creator, only while awaiting settings, only a one-off condition with a goal in range: records the condition, its goal and its amount, and arms the escrow (Idle); a refusal changes nothing |
| Erc20Escrow.Escrow.SetEscrowSettingsAdvanced | test/0.03/TestERC20EscrowUnits.ts:195-256 | only the creator, only while awaiting settings, only a table with one entry per objective, or per tier with tier 0 paying nothing: records the table as given and arms the escrow; a refusal changes nothing |
| Erc20Escrow.Escrow.Activate | test/0.04/TestNoDepositPeriod.ts:170-179 | an armed escrow moves to InIssuance and nothing else changes; otherwise EscrowNotReady |
| Erc20Escrow.Escrow.EmergencyFreeze | test/0.04/TestERC1155EscrowChanges.ts:155-186 | the creator only; the state follows FreezeStep |
| Erc20Escrow.Escrow.CancelProgramEscrow | test/0.04/TestERC1155EscrowChanges.ts:187-193 | the creator only; the escrow becomes Canceled unless it has ended |
| Erc20Escrow.Escrow.HandleRewards | test/0.03/TierAndPointsRewardConditions.ts:514-648 | the owed keys' total moves from the budget to the user's balance and the keys are recorded as paid; a canceled escrow pays nothing; an uncovered total fails the call with nothing changed |
| Erc20Escrow.Escrow.Pay | test/0.04/TestNoDepositPeriod.ts:184-200 | the budget drops by the cost, the user's balance rises by it, and conservation holds |
| Erc20Escrow.Escrow.Withdraw | test/0.03/TestERC20EscrowUnits.ts:333-347 | an amount leaves the user's balance and the holdings and reaches the user's wallet |
| Erc20Escrow.Escrow.UserWithdraw | test/0.03/TestERC20EscrowUnits.ts:333-347 | the caller's balance drops by exactly the amount, which reaches the caller's wallet; the budget, other users and other wallets are unchanged |
| Erc20Escrow.Escrow.UserWithdrawAll | test/0.03/TestERC20EscrowUnits.ts:350-371 | the caller's balance goes to 0 and the whole amount reaches the wallet; the budget and other wallets are unchanged |
| Erc20Escrow.Escrow.CreatorWithdrawAllBalance | test/0.04/TestERC1155EscrowChanges.ts:223-236 | once ended, the whole budget goes to the creator's wallet, other wallets and user balances stay; before that, Frozen included, MustBeCompletedOrCanceled |
| Erc721Escrow.QualifiesIff | test/0.02/LoyaltyWithERC721RewardConditions.ts:303-586 | ObjectiveCompleted qualifies if and only if the goal objective was just completed; TierReached if and only if old tier < goal <= new tier; PointsTotal if and only if old points < goal <= new points |
| Erc721Escrow.Cleared | test/0.04/TestERC721EscrowChanges.ts:314-322 | deleting every slot keeps the length and zeroes every id |
| Erc721Escrow.CopiesUpdate | test/0.04/TestERC721EscrowChanges.ts:217-235 | replacing one account or wallet changes the copies of an id held in total by exactly the difference |
| Erc721Escrow.IssueBalanced | test/0.02/LoyaltyWithERC721RewardConditions.ts:421-502 | popping the last queued id into an empty account keeps every id accounted for |
| Erc721Escrow.WithdrawBalanced | test/0.04/TestERC721EscrowChanges.ts:217-235 | moving an account to its wallet keeps every id accounted for |
| Erc721Escrow.ReturnBalanced | test/0.04/TestERC721EscrowChanges.ts:299-322 | moving the whole queue to one wallet keeps every id accounted for |
| Erc721Escrow.HeldWithinReturned | test/0.04/TestERC721EscrowChanges.ts:217-235 | no id is held by a user, in account and wallet together, more often than the creator returned it |
| Erc721Escrow.Escrow.constructor | test/0.02/LoyaltyDeployWithERC721.ts:186-215 | the creator and the listed depositors are approved; Idle; no ids, queue or accounts |
| Erc721Escrow.Escrow.SetDepositKey | test/0.02/LoyaltyDeployWithERC721.ts:226-231 | the creator sets the key once, from Idle; the escrow enters DepositPeriod |
| Erc721Escrow.Escrow.Deposit | test/0.02/LoyaltyDeployWithERC721.ts:236-267 | a keyed deposit from an approved depositor, of the reward collection, in the deposit period, appends the id |
| Erc721Escrow.Escrow.SetEscrowSettings | test/0.02/LoyaltyDeployWithERC721.ts:294-322 | records the order and condition, moves to Idle, and emits every deposited id with the order |
| Erc721Escrow.Escrow.ReceiveTokenQueue | test/0.02/LoyaltyDeployWithERC721.ts:336-364 | the creator's returned queue is stored exactly as given, once, while Idle with settings, and becomes what the escrow accounts for |
| Erc721Escrow.Escrow.Activate | test/0.02/LoyaltyDeployWithERC721.ts:366-382 | Idle with settings and a queue moves to InIssuance; otherwise EscrowNotReady |
| Erc721Escrow.Escrow.EmergencyFreeze | test/0.04/TestERC721EscrowChanges.ts:237-264 | the creator only; the state follows FreezeStep |
| Erc721Escrow.Escrow.CancelProgramEscrow | test/0.04/TestERC721EscrowChanges.ts:279-285 | the creator only; the escrow becomes Canceled unless it has ended |
| Erc721Escrow.Escrow.HandleRewards | test/0.02/LoyaltyWithERC721RewardConditions.ts:421-502 | a qualifying user not yet rewarded gets the last queued id and the rest of the queue keeps its order; otherwise nothing changes; an empty queue fails the call; every id stays accounted for |
| Erc721Escrow.Escrow.Issue | test/0.02/LoyaltyWithERC721RewardConditions.ts:421-466 | the last queued id goes to the user's account, the user is marked rewarded, and conservation holds |
| Erc721Escrow.Escrow.Live | test/0.04/TestERC721EscrowChanges.ts:314-322 | the ids still queued are the queue until the creator takes it back, and none after |
| Erc721Escrow.Escrow.UserWithdrawAll | test/0.04/TestERC721EscrowChanges.ts:217-235 | the caller's account is emptied into the wallet; other accounts and wallets stay; every id stays accounted for; Frozen gives FundsAreLocked |
| Erc721Escrow.Escrow.CreatorWithdrawAll | test/0.04/TestERC721EscrowChanges.ts:299-322 | once ended, the queued ids go to the creator, the queue keeps its length with every slot zeroed, other wallets and accounts stay, and every id stays accounted for; before that, Frozen included, MustBeActiveOrCompleted |
| Erc721Escrow.Escrow.ReturnQueue | test/0.04/TestERC721EscrowChanges.ts:314-322 | the live queue is appended to the creator's wallet and every slot is deleted, keeping conservation |
| Erc1155Escrow.RuleOf | test/0.02/LoyaltyWithERC1155RewardConditions.ts:251-634 | the per-index conditions are exactly the ones that watch every objective or every tier |
| Erc1155Escrow.PayoutFor | test/0.02/LoyaltyDeployWithERC1155.ts:321-340 | index i pays (tokenIds[i], amounts[i]); a one-off condition pays its configured entry |
| Erc1155Escrow.Payouts | test/0.02/LoyaltyWithERC1155RewardConditions.ts:604-634 | one payout per owed key, in key order |
| Erc1155Escrow.AmountOfAppend | test/0.04/TestERC1155EscrowChanges.ts:204-221 | the amount of an id in two lists is the sum of the two |
| Erc1155Escrow.DebitAmounts | test/0.04/TestERC1155EscrowChanges.ts:204-221 | paying entries lowers each id's balance by exactly that id's total in them |
| Erc1155Escrow.AffordableIff | test/0.04/TestERC1155EscrowChanges.ts:136-151 | entries can be paid in turn if and only if no id is asked for more than its balance |
| Erc1155Escrow.Zip | test/0.02/LoyaltyDeployWithERC1155.ts:226-269 | the deposit records are the (id, amount) pairs of the batch, in order |
| Erc1155Escrow.CreditAllAmounts | test/0.02/LoyaltyDeployWithERC1155.ts:226-269 | a batch raises each id's balance by exactly that id's total in the batch |
| Erc1155Escrow.ClaimsUpdate | test/0.04/TestERC1155EscrowChanges.ts:191-202 | replacing one reward list or wallet changes the amount of an id held in total by exactly the difference |
| Erc1155Escrow.AmountOfPositive | test/0.04/TestERC1155EscrowChanges.ts:223-236 | an id some entry carries a positive amount of occurs among the entries |
| Erc1155Escrow.Ids | test/0.02/LoyaltyDeployWithERC1155.ts:240-259 | an id belongs to the deposited ids if and only if some deposit record carries it |
| Erc1155Escrow.SweepAmounts | test/0.04/TestERC1155EscrowChanges.ts:223-236 | a full withdrawal transfers the whole balance of every deposited id and nothing of any other id |
| Erc1155Escrow.ClaimsWithinDeposits | test/0.04/TestERC1155EscrowChanges.ts:191-236 | an id's balance plus what one user's reward list and wallet hold of it never exceeds what was deposited of it |
| Erc1155Escrow.Escrow.constructor | test/0.02/LoyaltyDeployWithERC1155.ts:167-197 | the creator and the listed depositors are approved; Idle; no balances or rewards |
| Erc1155Escrow.Escrow.SetDepositKey | test/0.02/LoyaltyDeployWithERC1155.ts:211-225 | the creator sets the key once, from Idle; the escrow enters DepositPeriod |
| Erc1155Escrow.Escrow.DepositBatch | test/0.02/LoyaltyDeployWithERC1155.ts:226-269 | a keyed batch appends its records and credits every id; unequal lengths fail with LengthMismatch |
| Erc1155Escrow.Escrow.Credit | test/0.02/LoyaltyDeployWithERC1155.ts:231-269 | one id is credited and recorded, keeping per-id conservation |
| Erc1155Escrow.Escrow.SetEscrowSettingsBasic | test/0.02/LoyaltyWithERC1155RewardConditions.ts:126-250 | records a one-off condition's (id, amount) and goal, and arms the escrow |
| Erc1155Escrow.Escrow.SetEscrowSettingsAdvanced | test/0.02/LoyaltyDeployWithERC1155.ts:282-319 | records the payout table, with the goal reading 0, and arms the escrow |
| Erc1155Escrow.Escrow.Activate | test/0.02/LoyaltyDeployWithERC1155.ts:282-312 | an armed escrow moves to InIssuance; otherwise EscrowNotReady |
| Erc1155Escrow.Escrow.EmergencyFreeze | test/0.04/TestERC1155EscrowChanges.ts:155-186 | the creator only; the state follows FreezeStep |
| Erc1155Escrow.Escrow.CancelProgramEscrow | test/0.04/TestERC1155EscrowChanges.ts:187-193 | the creator only; the escrow becomes Canceled unless it has ended |
| Erc1155Escrow.Escrow.HandleRewards | test/0.02/LoyaltyWithERC1155RewardConditions.ts:251-634 | the owed payouts are appended to the user's list in key order and debited from their ids; a canceled escrow pays nothing; uncovered payouts fail the call; per-id conservation holds |
| Erc1155Escrow.Escrow.Pay | test/0.04/TestERC1155EscrowChanges.ts:136-151 | the balances are debited by the entries, the same entries are appended to the user's reward list, and per-id conservation holds |
| Erc1155Escrow.Escrow.UserWithdrawAll | test/0.04/TestERC1155EscrowChanges.ts:191-202 | the caller's reward list is emptied into the wallet; other lists, other wallets and the balances stay; per-id conservation holds; Frozen gives FundsAreLocked |
| Erc1155Escrow.Escrow.CreatorWithdrawToken | test/0.04/TestERC1155EscrowChanges.ts:204-221 | once ended, only that id drops by the amount, which the creator's wallet receives, other wallets stay; before that, Frozen included, MustBeCompletedOrCanceled; more than the balance is InsufficientBalance |
| Erc1155Escrow.Escrow.CreatorWithdrawAllBalance | test/0.04/TestERC1155EscrowChanges.ts:223-236 | once ended, every id's balance goes to 0 and the creator's wallet gains exactly each id's former balance; other wallets and lists stay; before that, Frozen included, MustBeCompletedOrCanceled |
| Program.StoredThresholds | test/0.02/LoyaltyDeployWithERC20.ts:233-265 | no supplied tiers store none; otherwise a default 0 is placed in front of the supplied thresholds |
| Program.StoredThresholdsAscending | test/0.02/LoyaltyDeployWithERC20.ts:115-137 | ascending positive thresholds stay ascending once the default tier is inserted |
| Program.TierPayoutsFollowPoints | test/0.03/TierAndPointsRewardConditions.ts:777-846 | for a program event, tier i is owed if and only if it was unpaid and the points went from below its threshold to at or above it |
| Program.Deducted | test/0.03/TierAndPointsRewardConditions.ts:481-493 | a deduction subtracts exactly when covered and floors at 0 otherwise |
| Program.LoyaltyProgram.Completed | test/0.03/TierAndPointsRewardConditions.ts:580-586 | every user's completion array has one entry per objective |
| Program.LoyaltyProgram.CurrentTier | test/0.03/TierAndPointsRewardConditions.ts:442-493 | the tier read for a user is the highest one whose threshold the points reach: its threshold is at most the points and every higher threshold is above them |
| Program.LoyaltyProgram.constructor | test/0.02/LoyaltyDeployWithERC20.ts:51-153 | objectives in input order; with tier sorting on and tiers supplied, the thresholds with the default tier in front and tiers active, otherwise no tiers and tiers inactive; totalPointsPossible is the objectives' sum; Idle, with no escrow |
| Program.LoyaltyProgram.SetEscrowContract | test/0.02/LoyaltyDeployWithERC20.ts:155-210 | the creator links one escrow of the program's reward type while Idle; each refusal has its own error |
| Program.LoyaltyProgram.SetLoyaltyProgramActive | test/0.02/LoyaltyDeployWithERC721.ts:366-382 | the creator starts an Idle program and activates its armed escrow; otherwise nothing changes |
| Program.LoyaltyProgram.CompleteObjective | test/0.03/LPDeployTestChanges.ts:169-235 | a completion that passes the check adds the objective's points, sets its entry and hands the escrow the event; a refusal returns the check's reason and changes nothing |
| Program.LoyaltyProgram.CompletionCheck | test/0.04/TestERC721EscrowChanges.ts:193-213 | a completion passes only while Active, for an existing objective not yet completed, by the relayer through either entry point or by the objective's own party (the user, or the creator) through its authority's entry point; anyone else, or the wrong entry point, is Unauthorized |
| Program.LoyaltyProgram.GivePointsToUser | test/0.03/LPDeployTestChanges.ts:114-168 | a grant by the creator or the relayer adds the points and the lifetime grant, moves the high-water mark, and hands the escrow the event |
| Program.LoyaltyProgram.RecordGrant | test/0.03/LPDeployTestChanges.ts:117-147 | greatestPointsGiven stays the largest lifetime grant and totalPointsPossible the objectives' sum plus it |
| Program.LoyaltyProgram.DeductPointsFromUser | test/0.03/TierAndPointsRewardConditions.ts:481-493 | the points drop, floored at 0; completions, grants and the escrow are untouched |
| ScenarioRewards.StandardTiers | test/0.03/TierAndPointsRewardConditions.ts:442-537 | 7000 is tier 3, 7800 tier 4, 800 and 4000 tier 1, and 0 and 100 tier 0 |
| ScenarioRewards.EachTierSkipsAndReearns | test/0.03/TierAndPointsRewardConditions.ts:791-846 | 0 to 7000 owes tiers 1, 2 and 3 in order; after a deduction, 0 to 7900 owes tier 4 only |
| ScenarioRewards.RewardPerTierTable | test/0.03/TierAndPointsRewardConditions.ts:588-648 | under the table [0,1,1,2,4], completing objective 4 (0 to 4000) pays tier 1's 1, the grant to 7000 pays tiers 2 and 3 for 3 more, and after the deduction the same grant pays nothing; a single jump to tier 3 also pays 4 |
| ScenarioRewards.SingleTierInclusive | test/0.02/LoyaltyWithERC1155RewardConditions.ts:366-392 | tier 3 fires at exactly 7000 and not at 6999 |
| ScenarioRewards.AllTiersCompleteOnce | test/0.03/TierAndPointsRewardConditions.ts:442-512 | AllTiersComplete owes nothing at tier 3, once on reaching tier 4, and nothing after deduct-then-re-earn |
| ScenarioRewards.SingleObjectiveOnce | test/0.02/LoyaltyWithERC1155RewardConditions.ts:287-326 | SingleObjective 2 owes once, on completing objective 2, and not on later completions |
| ScenarioRewards.PointsTotalOnce | test/0.02/LoyaltyWithERC1155RewardConditions.ts:433-477 | PointsTotal 5000 owes nothing at 2800, once on 2800 to 6800, and nothing after |
| ScenarioRewards.UniqueConditions | test/0.02/LoyaltyWithERC721RewardConditions.ts:303-586 | ERC721 PointsTotal 7000 fails at 1800 and holds at 7800; TierReached 2 holds on the jump from tier 1 to tier 4 |
| ScenarioPoints.StandardObjectives | constants/basicLoyaltyConstructorArgs.ts:4-21 | five objectives summing to 7800 |
| ScenarioPoints.StandardTiers | constants/basicLoyaltyConstructorArgs.ts:26 | the supplied thresholds ascend and are positive |
| ScenarioPoints.DeployActive | test/0.03/LPDeployTestChanges.ts:65-113 | settings, then activation, give escrow InIssuance and program Active |
| ScenarioPoints.ReplayHighWater | test/0.03/LPDeployTestChanges.ts:117-168 | (total, greatest) go (7900, 100), (7900, 100), (8100, 300), (8900, 1100) |
| ScenarioPoints.ReplayPointsGoal | test/0.03/LPDeployTestChanges.ts:237-305 | the completion to 6100 pays 0, the grant crossing 7000 pays 100, the last completion nothing; the budget ends at 400 |
| ScenarioProgram.ReplayConstruction | test/0.02/LoyaltyDeployWithERC20.ts:51-265 | with tiers: thresholds [0,400,4400,7000,7800]; without: none and inactive; both total 7800 and Idle |
| ScenarioProgram.CreatorCompletion | test/0.03/LPDeployTestChanges.ts:207-235 | another user completing objective 4 for the first user is Unauthorized, as is the user completing the creator-authority objective through the user entry point; the creator's completion gives 6100 |
| ScenarioProgram.RelayCompletesCreatorObjective | test/0.04/TestERC721EscrowChanges.ts:193-213 | the relayer completes the creator-authority objective 4 through the user entry point: accepted, 4000 points and [f,f,f,f,t]; repeating it is AlreadyCompleted |
| ScenarioProgram.ReplayCompletions | test/0.03/LPDeployTestChanges.ts:149-235 | user and relayer completions give 2100; the creator's gives 6100 and [t,t,t,f,t] |
| ScenarioProgram.ReplayGrantDeduct | test/0.03/TierAndPointsRewardConditions.ts:442-512 | tiers 3, 4, 1 and 4 along grant, deduct and re-earn; only the completed objective is marked |
| ScenarioUnique.PopDownFrom | test/0.02/LoyaltyWithERC721RewardConditions.ts:421-466 | popping a max-to-min queue issues its lowest id and keeps the rest in order |
| ScenarioUnique.DepositRange | test/0.02/LoyaltyDeployWithERC721.ts:236-267 | depositing 0..n-1 records them in order and totalTokens is n |
| ScenarioUnique.ReplayLifecycle | test/0.02/LoyaltyDeployWithERC721.ts:217-382 | the sort request carries ids 0..49 Ascending; the queue is 49..0 and the escrow InIssuance |
| ScenarioUnique.IssueToTwoUsers | test/0.02/LoyaltyWithERC721RewardConditions.ts:588-622 | successive users get lo and lo+1; a later event pops nothing |
| ScenarioUnique.ReplayIssuance | test/0.02/LoyaltyWithERC721RewardConditions.ts:421-502 | the first two users get 0 and 1; 49 down to 2 remain |
| ScenarioUniqueChanges.IssueAndWithdraw | test/0.04/TestERC721EscrowChanges.ts:193-235 | two users get lo and lo+1; the third's objective-0 completion issues nothing; the first withdraws lo |
| ScenarioUniqueChanges.FreezeLocksWithdrawals | test/0.04/TestERC721EscrowChanges.ts:237-277 | while frozen, the user's withdrawal is FundsAreLocked and the creator's MustBeActiveOrCompleted; unfreezing restores InIssuance |
| ScenarioUniqueChanges.CancelAndWithdraw | test/0.04/TestERC721EscrowChanges.ts:279-322 | after cancel nothing is issued; the user withdraws; the creator receives the queue, left as zeroed slots |
| ScenarioUniqueChanges.ReplayEscrowChanges | test/0.04/TestERC721EscrowChanges.ts:76-322 | wallets [0] and [1]; while frozen FundsAreLocked for the user and MustBeActiveOrCompleted for the creator; 48 zeroed slots left |
| ScenarioMulti.BatchOfFour | test/0.04/TestERC1155EscrowChanges.ts:76-122 | the batch gives 800 of each of ids 0 to 3 in four records |
| ScenarioMulti.ReplaySetup | test/0.04/TestERC1155EscrowChanges.ts:76-132 | the table ids [0,1,2,3,3] and amounts [1,1,2,2,4] are stored, the goal reads 0, and the escrow is InIssuance |
| ScenarioMulti.FirstObjectivePays | test/0.04/TestERC1155EscrowChanges.ts:136-151 | a first completion of objective 0 is owed (id 0, 1) |
| ScenarioMulti.ThreeUnitPayouts | test/0.04/TestERC1155EscrowChanges.ts:136-186 | three unit payouts, one while frozen, leave 797 of id 0; while frozen the user's withdrawal is FundsAreLocked and both creator withdrawals MustBeCompletedOrCanceled |
| ScenarioMulti.ReplayFreezeCancelWithdraw | test/0.04/TestERC1155EscrowChanges.ts:136-236 | the frozen refusals; the user withdraws (0, 1); the balances go 797, 800, 800, 0 and then all 0; the creator's wallet ends with 797, 800, 800 and 800 of ids 0 to 3 |
| ScenarioMulti.EachTierFirstTier | test/0.02/LoyaltyWithERC1155RewardConditions.ts:532-602 | 400 points pay tier 1's (1, 2); completions within tier 1 pay nothing |
| ScenarioMulti.EachTierSkipAppends | test/0.02/LoyaltyWithERC1155RewardConditions.ts:604-634 | the jump from tier 1 to tier 4 appends the entries of tiers 2, 3 and 4, with two separate (1, 2) entries |
| ScenarioMulti.SkipOneToFour | test/0.02/LoyaltyWithERC1155RewardConditions.ts:604-634 | any event from tier 1 to tier 4 of a user paid for tier 1 pays entries 2, 3 and 4 |
| ScenarioBudget.ReplayNoDepositPeriod | test/0.04/TestNoDepositPeriod.ts:77-224 | settings awaited from the start; 0.8 then 1.0 budget; 0.03 per user and 0.94 left; the withdrawal leaves the budget; a top-up gives 1.14; holdings 1.17 |
| ScenarioBudget.ReplayEighteenDecimals | test/0.03/TestERC20EscrowUnits.ts:257-371 | two payouts of 0.0002 move 0.0004 to the user; partial and full withdrawals leave the rest and then 0 |
| ScenarioBudget.ReplaySixDecimals | test/0.03/TestERC20EscrowUnits.ts:373-478 | the same flow in units of a 6-decimal token |
| ScenarioAnalytics.ReplayAnalytics | test/0.03/TestEventAnalyticsERC20.ts:125-336 | 70 completions pay 0.014 and the grants nothing; a four-completion user holds 0.0008; withdrawals leave the budget at 0.586; 0.01 stays unclaimed |

## Left out

- SHA-256 and the leaf and pair hashes of the Merkle tree are not modelled. They are the two functions of a `Hasher` parameter, and HashZero is thirty-two zero bytes.
- The on-chain Merkle proof check, relayer signatures (EIP-191) and the keccak256 message hashes are not modelled. `Merkle.FoldRoot` is the reference verifier instead: it plays the role of the contracts' proof check, which is not part of this model.
- `Math.random` in the shuffle becomes an oracle run `picks`, with `picks[i]` in [0, i].
- The sort comparator of `Array.prototype.sort` is modelled as an insertion sort with the same order. It is not a model of the engine's sorting algorithm.
- Token mechanics are not modelled: allowances, receiver hooks, wallet balances outside the escrow, and the token contracts. Deposits and withdrawals are escrow methods, and what a wallet received is a map in the escrow.
- Block time is a `now` parameter compared with the deposit end date. Time travel in tests and the program end date are not modelled.
- Events, event queries and the off-chain analytics (averages, counts derived from logs) are not modelled. The analytics replay states the balances those counts describe.
- Decimal formatting is not modelled: every amount is in integer base units.
- Gas estimation, price fetching, deployment helpers, contract routes and verification scripts are not modelled.
- The merkletreejs wrapper `createMerkleTree` and its use in test/0.03/TestMerkleProof.ts are not modelled.
- The program's Completed state, its end time and the escrow Completed transition are not modelled. The states exist, but no operation enters them.
- Erc20Escrow.Escrow.HandleRewards: an uncovered total fails the whole call with nothing changed. No test exercises an insufficient budget, so this is a choice made here.
- Erc1155Escrow.Escrow.HandleRewards: uncovered payouts fail the whole call, a choice made here for the same reason.
- Erc721Escrow.Escrow.HandleRewards: an empty queue fails the call, a choice made here for the same reason.
- Program.Deducted: a deduction larger than the points floors at 0. No test deducts more than a user holds.
- Erc20Escrow.RuleOf: AllObjectivesComplete is modelled as paying once, when a completion makes every objective complete. No test exercises it.
- Erc721Escrow.Escrow.ReceiveTokenQueue: the returned queue is stored verbatim and is not checked against the deposited ids. The tests feed queues that are not a permutation of the deposits and expect them to be accepted.
- The order in which the contracts check their refusal conditions is not visible. Each member's ensures fixes its own order, a choice made here; an input with several faults gets the reason that member checks first.
- A Frozen escrow locks withdrawals but still issues rewards. The freeze tests do not await their rejection checks, and the 797 balance implies that the completion sent while frozen did pay. No revert of a frozen completion is claimed.
- Erc20Escrow.Escrow.EmergencyFreeze, Erc20Escrow.Escrow.CancelProgramEscrow and Erc20Escrow.Escrow.CreatorWithdrawAllBalance follow the ERC721 and ERC1155 escrow tests. No ERC20 test exercises freezing, cancelling or the creator's withdrawal.
- The scenarios hand progress events to an escrow directly where a test first drives the program. The program's hand-off is proved once, in `Program.LoyaltyProgram.CompleteObjective` and `GivePointsToUser`.
- The numeric codes of the state and condition enumerations, which differ between versions, are not modelled. Only the symbolic names are used. Each escrow takes one entry-point variant, with a flag for the ERC20 revision without a deposit period.
- Program.LoyaltyProgram.CompletionCheck: the relayer may complete an objective of either authority for any user, through either entry point (test/0.04/TestERC721EscrowChanges.ts:195-201). Anyone else must be the objective's own party, the user for User objectives and the creator for Creator objectives, calling through that authority's entry point; the refusal of the user calling the creator-authority entry, or of a mismatched entry by a non-relay caller, is not shown by the tests and is a choice made here.
- Integer widths (uint256) are not modelled: amounts never come near the bound, so no wrap-around is modelled.
- Program.LoyaltyProgram.constructor: the tier list is used only when tier sorting is on, and tiers are active only if the list is also non-empty; every deployment passes the flag and the list together (utils/deployLoyaltyUtils.ts). With sorting on, the thresholds are required ascending and positive, since the contracts' handling of other lists is not part of this model.
- Erc721Escrow.Escrow.CreatorWithdrawAll: a second withdrawal after the queue was taken back moves nothing, because the queue no longer holds live ids; the tests withdraw once.
- Erc721Escrow.Escrow.CreatorWithdrawAll: every state that has not ended is refused with MustBeActiveOrCompleted; the tests show this code only for Frozen.
- Erc1155Escrow.Escrow.TotalTokenIds counts deposit records, which equals the number of distinct ids when each id is deposited once, as in every test.
