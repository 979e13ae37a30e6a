# Spotwin ledger model

A Dafny model of the Spotwin Solana program (`programs/spotwin/src`). The
program runs prediction contests with a separate staking pool.

- **Contest life.** A creator opens a contest with an entry fee and a token
  mint, and a vault is created beside it. Players join by paying the fee into
  the vault. The creator records each player's answer masks, locks the
  contest and posts a 12-bit answer key. The creator then pays winners from
  the vault in batches.
- **Staking.** Token holders deposit into one global stake vault. They can
  withdraw once a lock period has passed since their last deposit.

## How the model is organised

- **Records.** `Contest`, `Participant` and `StakeAccount`, their status
  enum, and their byte sizes (`contest.dfy`, `participant.dfy`,
  `stake.dfy`).
- **Addresses.** Program-derived addresses form a datatype built from their
  seeds, so two addresses are equal exactly when their seeds are
  (`types.dfy`). A derived address cannot sign a transaction.
- **Errors.** The program's error codes, the framework's account-check
  failures, the token program's failures and a panic (`errors.dfy`).
- **Token transfer.** The token program's `transfer` / `transfer_checked`
  works on a map of token accounts, with its checks in the token program's
  order (`token.dfy`).
- **Instructions as functions.** Each instruction is a function from a
  `State` to a `Result<State>` (`contest_instructions.dfy`, `payout.dfy`,
  `stake_instructions.dfy`). An error means the transaction is rolled back
  and nothing changes. The account checks come first, in the framework's
  three passes:
  1. Every non-`init` account is loaded in struct field order. A `Signer`
     account that is a program-derived address fails with AccountNotSigner,
     since no one holds its key; a wallet key named as a `Signer` is taken to
     have signed. An account that does not exist fails with
     AccountNotInitialized.
  2. The `init` accounts are created. One that already exists fails with
     AccountAlreadyInUse.
  3. Account by account, its `has_one` keys are checked, then its
     `constraint`s.

  Then the handler runs.
- **The invariant.** `LedgerState.Inv` holds in every reachable state
  (`state.dfy`). `Solvency.StakesBacked` says the stake vault holds at least
  the sum of all stakes (`solvency.dfy`).
- **The ledger as a class.** `SpotwinLedger.Ledger` holds the four maps as
  fields and has one method per instruction (`ledger.dfy`). Each method:
  - updates the fields in place;
  - keeps `Valid()`;
  - is proved to end in exactly the state, or the error, that the
    instruction's function specifies.
- **Payout loops.** The two loops of `send_batch` are methods with loop
  invariants: one validates the participant addresses, the other pays each
  winner.
- **Sequences of transactions.** `lifecycle.dfy` runs sequences of
  transactions from a fresh deployment and proves facts about every
  reachable state.

## Model

| member | source | states |
|---|---|---|
| ContestRecord.ContestLenFitsLayout | programs/spotwin/src/state/contest.rs:33-38 | Contest::LEN is the 8-byte discriminator plus the widths of the 14 declared fields, a 1-byte status tag among them, and equals 150 |
| ContestRecord.StatusAdvancesTransitive | programs/spotwin/src/state/contest.rs:24-31 | the forward order Open, Locked, AnswerKeyPosted is transitive |
| ParticipantRecord.ParticipantLenHasSpareByte | programs/spotwin/src/state/participant.rs:11-15 | Participant::LEN is 45, one byte more than the discriminator and fields need |
| ParticipantRecord.SubMaskHasNoStrayBits | programs/spotwin/src/instructions/update_answers.rs:56-59 | the check bits == bits & mask holds exactly when bits & !mask == 0 |
| ParticipantRecord.SubMaskPopCount | programs/spotwin/src/instructions/update_answers.rs:52-59 | answer bits inside the attempt mask set no more bits than the mask, so at most nine answers |
| StakeRecord.StakeLenHasSpareByte | programs/spotwin/src/state/stake.rs:10-15 | StakeAccount::LEN is 57, one byte more than the 56 the discriminator and fields need |
| StakeRecord.StakeTotalRemove | programs/spotwin/src/state/stake.rs:4-8 | the total of all stakes is one stake plus the total of the rest, whichever stake is taken out |
| StakeRecord.StakeTotalUpdate | programs/spotwin/src/instructions/stake_tokens.rs:60-63 | rewriting one staker's record changes the total of all stakes by the difference of the two amounts |
| Token.Transfer | programs/spotwin/src/instructions/join_contest.rs:76-86 | a transfer succeeds exactly when both accounts exist, the source covers the amount, the mints agree (and match a checked transfer's mint), the authority owns the source and the destination cannot overflow. On success exactly the amount moves and no account's mint or owner changes; a short source fails with InsufficientFunds, and every failure is a token-program error |
| Token.TransferBack | programs/spotwin/src/instructions/unstake_tokens.rs:64-73 | moving an amount back to where it came from restores every balance |
| ContestInstructions.CreateContest | programs/spotwin/src/instructions/create_contest.rs:6-66 | succeeds exactly when the creator signs and neither the contest address nor its vault exists, failing otherwise with AccountAlreadyInUse or AccountNotSigner. The new contest stores the arguments, is Open with key 0, zero root and zero counters; an empty vault with the contest's mint and authority is added; nothing else changes |
| ContestInstructions.JoinContest | programs/spotwin/src/instructions/join_contest.rs:10-95 | succeeds exactly when the player signs; the contest, its vault and the token account exist; there is no participant record yet; the mint is the contest's; the contest is Open; the player owns the token account in that mint; the fee can be paid (nothing to pay when it is 0); and total_entries < u32::MAX. Each failure has its own code, in this order: AccountNotSigner, AccountNotInitialized, AccountAlreadyInUse (before has_one, since the participant is created first), ConstraintHasOne, ContestClosed, InvalidOwner, InvalidMint, InsufficientFunds for a short account, NumericalOverflow. Success adds a blank participant, adds one entry, and moves exactly entry_fee from the player to the vault |
| ContestInstructions.UpdateAnswers | programs/spotwin/src/instructions/update_answers.rs:9-64 | succeeds exactly when the creator signs, the contest and the participant record exist, the signer is the contest's creator, the contest is Open and before its lock slot, the record names the player, the attempt mask has nine bits and the answer bits lie inside it. Each failure has its own code, in this order: AccountNotSigner, AccountNotInitialized (contest or participant missing), ConstraintHasOne, ContestClosed (status or slot), InvalidParticipant, InvalidAttemptMask, InvalidAnswerBits. Both masks are replaced wholesale and nothing else changes |
| ContestInstructions.LockContest | programs/spotwin/src/instructions/lock_contest.rs:8-25 | succeeds exactly when the creator signs and the contest is Open, with no clock check; only the status changes, to Locked. A contest that is not Open fails with ContestClosed |
| ContestInstructions.PostAnswerKey | programs/spotwin/src/instructions/post_answer_key.rs:8-35 | succeeds exactly when the creator signs, the contest is Locked and the key is below 4096. A contest that is not Locked fails with ContestNotLocked, a key of 4096 or more with InvalidAnswerKey. On success the key is set, the status becomes AnswerKeyPosted and nothing else changes |
| ContestInstructions.PostPayoutRoot | programs/spotwin/src/instructions/post_payout_root.rs:8-35 | succeeds exactly when the creator signs, the contest is Locked, its key is non-zero and 0 < winner_count <= total_entries. Once the creator checks pass, a contest that is not Locked fails with ContestNotLocked, key 0 with AnswerKeyNotSet, a bad count with InvalidWinnerCount. Only the root and the winner count change |
| ContestInstructions.PostPayoutRootNeverSucceeds | programs/spotwin/src/instructions/post_payout_root.rs:15-18 | under the invariant a Locked contest has key 0, so the instruction always fails, and with AnswerKeyNotSet once the signer, contest and status checks pass |
| ContestInstructions.CreateContestPreservesInv | programs/spotwin/src/instructions/create_contest.rs:45-66 | create_contest keeps the invariant |
| ContestInstructions.AddParticipantKeepsInv | programs/spotwin/src/instructions/join_contest.rs:87-95 | adding one blank participant and one entry keeps total_entries equal to the number of participants |
| ContestInstructions.JoinContestPreservesInv | programs/spotwin/src/instructions/join_contest.rs:69-95 | join_contest keeps the invariant |
| ContestInstructions.UpdateAnswersPreservesInv | programs/spotwin/src/instructions/update_answers.rs:42-64 | update_answers keeps the invariant |
| ContestInstructions.LockContestPreservesInv | programs/spotwin/src/instructions/lock_contest.rs:22-25 | lock_contest keeps the invariant |
| ContestInstructions.PostAnswerKeyPreservesInv | programs/spotwin/src/instructions/post_answer_key.rs:22-35 | post_answer_key keeps the invariant; the key is set only together with the move to AnswerKeyPosted |
| ContestInstructions.PostPayoutRootPreservesInv | programs/spotwin/src/instructions/post_payout_root.rs:24-35 | post_payout_root keeps the invariant |
| Payout.ReceivedFromNone | programs/spotwin/src/instructions/send_batch.rs:89-117 | an account named by no destination slot of the batch receives nothing |
| Payout.CheckWinners | programs/spotwin/src/instructions/send_batch.rs:68-83 | the validation pass succeeds exactly when every remaining account i < n is the participant address of winners[i]. Otherwise it fails with InvalidParticipant, or with a panic when remaining_accounts is too short |
| Payout.PayFrom | programs/spotwin/src/instructions/send_batch.rs:85-120 | the transfer pass's running total ends as the sum of the amounts; it needs n + |amounts| remaining accounts and changes no account's mint or owner; it fails only with a panic, a token-program error or NumericalOverflow |
| Payout.PayFromBalances | programs/spotwin/src/instructions/send_batch.rs:89-117 | after the transfer pass the vault has lost the sum of the amounts and every account has gained what the batch's destination slots that name it were sent |
| Payout.PayFromSucceeds | programs/spotwin/src/instructions/send_batch.rs:85-120 | the transfer pass goes through when the vault is held by the signing authority in the batch's mint, covers the remaining amounts, every destination slot names an existing account of that mint other than the vault with room for everything it is sent, and the running total fits in u64 |
| Payout.SendBatch | programs/spotwin/src/instructions/send_batch.rs:9-123 | succeeds exactly when the account checks pass (contest and vault exist, creator key without signature, AnswerKeyPosted, non-zero key), the lengths are equal and non-zero, the stored contest_id matches, the participant pass and the transfer pass go through and paid_so_far does not overflow. Each failure has its own code, in this order: AccountNotInitialized (contest or vault missing), ConstraintHasOne, ContestNotAnswerKeyPosted, AnswerKeyNotSet, InvalidWinnerCount, EmptyBatch, InvalidContestId, then the participant pass's error, then the transfer pass's error (each passed on unchanged, and a failed transfer aborts the whole batch), then NumericalOverflow on paid_so_far. Success adds exactly sum(amounts) to paid_so_far and changes no other contest, participant or stake |
| Payout.SendBatchChecksWinners | programs/spotwin/src/instructions/send_batch.rs:68-91 | a batch that succeeds had 2n remaining accounts and every winner's participant address in place. With the account checks passed, one wrong participant address fails the batch with InvalidParticipant and no transfer happens |
| Payout.SendBatchSucceeds | programs/spotwin/src/instructions/send_batch.rs:9-123 | on a well-formed ledger, a batch whose account checks pass, with equal non-zero lengths, the winners' participant addresses followed by n ready destinations in the contest's mint, a vault covering the sum and no overflow of paid_so_far, always succeeds |
| Payout.DuplicateWinnersPass | programs/spotwin/src/instructions/send_batch.rs:68-83 | the participant pass accepts the same winner twice, since it compares addresses only |
| Payout.SendBatchPays | programs/spotwin/src/instructions/send_batch.rs:89-122 | a successful batch moves exactly sum(amounts) out of the contest vault and into the destination accounts in array order, keeping every mint and owner |
| Payout.SendBatchWithinVault | programs/spotwin/src/instructions/send_batch.rs:91-117 | when no destination is the vault itself, a successful batch pays out at most the vault balance, and the vault falls by exactly sum(amounts) |
| Payout.SendBatchPreservesInv | programs/spotwin/src/instructions/send_batch.rs:119-122 | send_batch keeps the invariant |
| StakeInstructions.InitializeStake | programs/spotwin/src/instructions/initialize_stake.rs:6-39 | succeeds exactly when the payer signs and the single stake vault does not exist yet; it adds an empty vault with the given mint owned by the stake authority and changes nothing else; a second call fails with AccountAlreadyInUse |
| StakeInstructions.StakeTokens | programs/spotwin/src/instructions/stake_tokens.rs:7-65 | succeeds exactly when the staker signs, the stake vault and the staker's token account exist, the staker owns that account in the vault's mint and it holds the amount, the vault has room for it, and the stake plus the amount fits in u64. Failures in order: AccountNotSigner, AccountNotInitialized, the transfer's token error (InsufficientFunds for a short account), a panic when the stake would overflow. Success moves exactly the amount into the vault and creates or tops up the stake account with owner = staker and amount + x; the lock restarts at the current slot |
| StakeInstructions.ZeroStakeRestartsLock | programs/spotwin/src/instructions/stake_tokens.rs:44-63 | staking 0 is accepted, moves no token, keeps the staked amount and restarts the lock at the current slot |
| StakeInstructions.UnstakeTokens | programs/spotwin/src/instructions/unstake_tokens.rs:9-80 | success needs a signer, an existing stake account and both token accounts, an expired lock and 0 < amount <= staked. It moves exactly the amount from the vault to the staker, lowers the stake by it and zeroes start_slot when nothing is left. Failures in order: AccountNotSigner, AccountNotInitialized, NumericalOverflow when start_slot + lock period overflows, StakeLocked, InvalidUnstakeAmount |
| StakeInstructions.InitializeStakePreservesInv | programs/spotwin/src/instructions/initialize_stake.rs:15-30 | initialize_stake keeps the invariant |
| StakeInstructions.StakeTokensPreservesInv | programs/spotwin/src/instructions/stake_tokens.rs:44-65 | stake_tokens keeps the invariant |
| StakeInstructions.UnstakeTokensPreservesInv | programs/spotwin/src/instructions/unstake_tokens.rs:41-80 | unstake_tokens keeps the invariant |
| StakeInstructions.StakeThenUnstake | programs/spotwin/src/instructions/unstake_tokens.rs:48-78 | staking x and, once the lock period has passed, unstaking x succeeds and restores every token balance and the staked amount; a first-time staker is left with amount 0 and start_slot 0 |
| Solvency.BackedWhenVaultKept | programs/spotwin/src/instructions/join_contest.rs:76-86 | stakes stay backed when no stake changes and the stake vault does not shrink |
| Solvency.CreateContestKeepsBacked | programs/spotwin/src/instructions/create_contest.rs:21-29 | creating a contest keeps every stake backed by the stake vault |
| Solvency.JoinContestKeepsBacked | programs/spotwin/src/instructions/join_contest.rs:76-86 | paying an entry fee never draws on the stake vault |
| Solvency.SendBatchKeepsBacked | programs/spotwin/src/instructions/send_batch.rs:93-117 | a payout draws only on its contest vault, never on the stake vault |
| Solvency.InitializeStakeKeepsBacked | programs/spotwin/src/instructions/initialize_stake.rs:15-23 | creating the stake vault keeps stakes backed |
| Solvency.StakeTokensKeepsBacked | programs/spotwin/src/instructions/stake_tokens.rs:50-63 | a stake adds the same amount to the vault and to the stakes' total |
| Solvency.UnstakeTokensKeepsBacked | programs/spotwin/src/instructions/unstake_tokens.rs:64-78 | an unstake takes the same amount from the vault and from the stakes' total |
| Solvency.StakedWithinTotal | programs/spotwin/src/state/stake.rs:4-8 | one staker's amount is at most the total of all stakes |
| Solvency.UnstakeCanPay | programs/spotwin/src/instructions/unstake_tokens.rs:45-80 | on a reachable ledger an unlocked, in-range unstake into a token account of the vault's mint with room for the amount always succeeds, because the vault backs every stake |
| SpotwinLedger.Ledger.constructor | programs/spotwin/src/lib.rs:13-20 | a fresh deployment holds no contest, participant or stake, only the users' token accounts, and is valid |
| SpotwinLedger.Ledger.CreateContest | programs/spotwin/src/instructions/create_contest.rs:45-66 | the in-place handler ends in the state or error ContestInstructions.CreateContest specifies and keeps the ledger valid |
| SpotwinLedger.Ledger.JoinContest | programs/spotwin/src/instructions/join_contest.rs:10-95 | the in-place handler ends in the state or error ContestInstructions.JoinContest specifies and keeps the ledger valid |
| SpotwinLedger.Ledger.UpdateAnswers | programs/spotwin/src/instructions/update_answers.rs:9-64 | the in-place handler ends in the state or error ContestInstructions.UpdateAnswers specifies and keeps the ledger valid |
| SpotwinLedger.Ledger.LockContest | programs/spotwin/src/instructions/lock_contest.rs:22-25 | the in-place handler ends in the state or error ContestInstructions.LockContest specifies and keeps the ledger valid |
| SpotwinLedger.Ledger.PostAnswerKey | programs/spotwin/src/instructions/post_answer_key.rs:22-35 | the in-place handler ends in the state or error ContestInstructions.PostAnswerKey specifies and keeps the ledger valid |
| SpotwinLedger.Ledger.PostPayoutRoot | programs/spotwin/src/instructions/post_payout_root.rs:24-35 | the in-place handler ends in the state or error ContestInstructions.PostPayoutRoot specifies; on a valid ledger its writes are unreachable |
| SpotwinLedger.Ledger.SendBatch | programs/spotwin/src/instructions/send_batch.rs:9-123 | the in-place handler ends in the state or error Payout.SendBatch specifies and keeps the ledger valid |
| SpotwinLedger.Ledger.InitializeStake | programs/spotwin/src/instructions/initialize_stake.rs:6-39 | the in-place handler ends in the state or error StakeInstructions.InitializeStake specifies and keeps the ledger valid |
| SpotwinLedger.Ledger.StakeTokens | programs/spotwin/src/instructions/stake_tokens.rs:44-65 | the in-place handler ends in the state or error StakeInstructions.StakeTokens specifies and keeps the ledger valid |
| SpotwinLedger.Ledger.UnstakeTokens | programs/spotwin/src/instructions/unstake_tokens.rs:41-80 | the in-place handler ends in the state or error StakeInstructions.UnstakeTokens specifies and keeps the ledger valid |
| SpotwinLedger.CheckWinnerAccounts | programs/spotwin/src/instructions/send_batch.rs:68-83 | the validation loop returns what Payout.CheckWinners specifies |
| SpotwinLedger.PayWinners | programs/spotwin/src/instructions/send_batch.rs:85-120 | the transfer loop with its running total returns what Payout.PayFrom specifies |
| SpotwinLedger.ExecuteBatch | programs/spotwin/src/instructions/send_batch.rs:56-122 | the handler body, loops included, returns what Payout.BatchHandler specifies |
| Lifecycle.ExecutePreservesInv | programs/spotwin/src/lib.rs:22-53 | every instruction, whether it succeeds or fails, keeps the invariant and keeps stakes backed |
| Lifecycle.RunPreservesInv | programs/spotwin/src/lib.rs:22-53 | any sequence of transactions keeps the invariant and keeps stakes backed |
| Lifecycle.ReachableInv | programs/spotwin/src/lib.rs:22-53 | every ledger reachable from a fresh deployment satisfies the invariant and backs every stake |
| Lifecycle.ExecuteAdvances | programs/spotwin/src/lib.rs:22-53 | no transaction moves a status backwards, changes a contest's creator, id, mint, fee or lock slot, lowers total_entries or paid_so_far, changes a posted key, or removes an account |
| Lifecycle.RunAdvances | programs/spotwin/src/lib.rs:22-53 | the same holds between any ledger and every ledger a sequence of transactions leads to |
| Lifecycle.PostPayoutRootAlwaysFails | programs/spotwin/src/instructions/post_payout_root.rs:15-18 | on every reachable ledger post_payout_root fails |
| Lifecycle.ZeroAnswerKeyBlocksPayout | programs/spotwin/src/instructions/post_answer_key.rs:29-35 | once key 0 is posted for a contest, send_batch for it fails after any later sequence of transactions |
| Lifecycle.JoinOnce | programs/spotwin/src/instructions/join_contest.rs:23-30 | after a successful join the same player's second join fails with AccountAlreadyInUse, whatever existing token account and mint it names |

## Left out

- Program-derived address hashing and the off-curve search are not modelled. Addresses are a datatype of their seeds, bumps are plain inputs, and a bump passed to an instruction is never compared with the canonical one.
- The token program is reduced to transfer checks on a map of accounts. Delegates, frozen accounts, native SOL, decimals in `transfer_checked`, and mint accounts as separate accounts are not modelled. Mints are identities that are not checked to exist.
- `Clock::get()` is a `now` argument. `LOCK_PERIOD_SLOTS` lives in `crate::constants`, which is not part of this model; it is the `lockPeriod` parameter.
- Rent, lamports, account reallocation, `emit!` events and `msg!` logging are not modelled. They change none of the modelled fields.
- `instructions/sweep_fees.rs` is not modelled. It names a `ContestStatus::Completed` variant and a `SweepVault` context that do not exist, and it is not registered in `instructions/mod.rs`.
- The `initialize` instruction only logs and is not modelled. Dispatch in `lib.rs` appears only through `Lifecycle.Execute`, whose argument order follows the handlers: `lib.rs:30-31` receives the answer bits before the attempt mask and passes them on by name.
- The three staking instructions are not registered in `lib.rs` or `instructions/mod.rs`. They are modelled from their own files as if they were.
- SpotwinLedger.Ledger.PostPayoutRoot: it has no `requires Valid()` and promises `Valid()` afterwards only when the ledger was valid before. On a valid ledger the instruction cannot succeed, so its field writes are reached only from ledgers that are not valid.
- Signatures are not a separate input. A wallet key named as a `Signer` is taken to have signed, so only a program-derived address fails the signer check. The difference between `update_answers`, whose `creator` must sign, and `send_batch`, whose `creator` is any account with the right key, shows only in which instructions can fail with AccountNotSigner. Writable (`mut`) flags are not modelled either.
- Token transfers made outside the program are not among the modelled transactions: `Lifecycle.Run` executes program instructions only. The vaults are owned by program-derived authorities, so no outside transfer can draw on them, but outside deposits into a vault are not modelled.
- Concurrency between transactions is not modelled. Each transaction is atomic and they run one after another.
- The contest vault's balance is not tied to `entry_fee * total_entries - paid_so_far`. That holds in the code only when no one else sends tokens into the vault, and `send_batch` may name any token account as a destination, including a vault.

### Behaviour of the code worth knowing

- `create_contest` accepts any `entry_fee`, 0 included.
- `update_answers` is signed by the contest's creator, not the player. It overwrites both masks.
- `lock_contest` checks no slot. `update_answers` refuses slots at or past `lock_slot`.
- `send_batch` takes the creator key without a signature. It does not check that winners joined or that destinations belong to the winners. It accepts duplicate winners.
- `stake_tokens` accepts an amount of 0.
- `unstake_tokens` waits out a lock period counted from the last stake.
- `post_answer_key` accepts key 0, after which `send_batch` for that contest fails for good.
- `post_payout_root` asks for a Locked contest with a non-zero key. That never occurs, so it always fails.
