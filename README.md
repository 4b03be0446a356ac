# Dice escrow and settlement, modelled in Dafny

This project models the escrow and settlement logic of two Anchor programs for
a dice game on Solana, and proves properties of that model.

- `solana_dice_game` (programs/solana-dice-game/src/lib.rs) has one account,
  `GameConfig`. It holds the admin, the reward percentage, the pause flag and
  fixed bet bounds. The account's own lamports are the vault.
- `dice` (src/lib.rs) has a `State` account (admin, a `u8` reward percentage,
  the pause flag) and a separate vault account.

In both programs, a bet moves the stake from the player to the vault. A die
face is derived from injected entropy. On a match, the payout
`floor(amount * reward / 100)` moves back to the player. The admin can change
the reward, pause or unpause the game, and withdraw from the vault.

Files:

- `runtime.dfy`, module `Runtime`: the host ledger.
  - Integer widths `u8`, `u64`, `i64`, with their bounds as constants.
  - Account keys, and `Account` objects holding lamports.
  - The system program's transfer, and the raw lamport `-=` and `+=`. Each can
    fail with a host fault.
  - Rust's `checked_mul`, its truncating `%`, and the `as u8` cast.
  - `PercentOf`, the payout computation both programs share.
- `dice_game.dfy`, module `DiceGame`: the bounded program. Class `GameConfig`.
- `dice.dfy`, module `Dice`: the unbounded program. Class `State`; the vault,
  the player and the admin are `Runtime.Account` objects.

Each class method runs the handler step by step on its fields. The host's
transaction rollback is written out explicitly: when a step fails after the
stake has moved, the saved balances are restored before returning `Err`.
Each method's postcondition ties its result and the new state to a pure
outcome function of the old state (`BetOutcome`, `RewardUpdate`,
`PauseUpdate`, `Withdrawal`). Those functions' contracts state the properties:

- the order in which the checks fail;
- the exact overflow condition;
- the exact new balances, with conservation of lamports;
- the emitted `BetResult`;
- that an admin operation writes only its own field.

The lemmas relate these functions to one another and to the configuration.

Points of the code that the model keeps as written:

- The bounded program checks the pause flag, then the bet bounds, then the
  number (programs/solana-dice-game/src/lib.rs:53-61).
- `initialize_game` takes only `reward_percentage`. The bounds are the
  constants 1_000_000 and 100_000_000 lamports that it writes
  (programs/solana-dice-game/src/lib.rs:30-36), that is 0.001 SOL and
  0.1 SOL. The source's comments there call them 0.01 SOL and 1 SOL, which
  does not match the numbers.
- The unbounded program checks the guess first, then the pause flag, then
  `amount > 0` (src/lib.rs:19-22).
- The unbounded program checks for overflow only on a win, after the stake
  has moved (src/lib.rs:24-40). The host's rollback then undoes the stake
  too.
- A non-admin caller of the unbounded program gets Anchor's `has_one`
  constraint error (`ConstraintHasOne`), since its constraints name no custom
  error (src/lib.rs:95-111).
- The unbounded program's `withdraw` has no balance check (src/lib.rs:58-62).
  An amount above the vault's balance fails in the lamport `-=` as a host
  fault (`LamportUnderflow`) and is rolled back.

## Model

| member | source | states |
|---|---|---|
| Runtime.Transfer | programs/solana-dice-game/src/lib.rs:74-85 | the system transfer succeeds iff the source holds at least the amount and the destination does not overflow; a short source fails with `InsufficientLamports`, an overflowing destination with `LamportOverflow`; on success exactly `amount` moves and the sum of the two balances is unchanged |
| Runtime.Debit | programs/solana-dice-game/src/lib.rs:90-94 | a raw `-=` succeeds iff the balance covers the amount, leaves `balance - amount`, and otherwise faults with `LamportUnderflow` |
| Runtime.Credit | programs/solana-dice-game/src/lib.rs:95-99 | a raw `+=` succeeds iff the result fits in a u64, adds exactly the amount, and otherwise faults with `LamportOverflow` |
| Runtime.CheckedMul | programs/solana-dice-game/src/lib.rs:68-69 | `checked_mul` yields the product exactly when it is at most 2^64-1, and `None` otherwise |
| Runtime.TruncRem | programs/solana-dice-game/src/lib.rs:65 | Rust's `%`: the remainder is smaller than the divisor in magnitude, is never positive for a negative dividend, and equals the Euclidean remainder for a non-negative one |
| Runtime.AsU8 | programs/solana-dice-game/src/lib.rs:65 | `as u8` keeps values in 0..255 and adds 256 to values in -256..-1 |
| Runtime.PercentOf | programs/solana-dice-game/src/lib.rs:68-71 | `amount.checked_mul(percent)` then `/ 100`: `None` iff `amount * percent > 2^64-1`; otherwise the floor of `amount * percent / 100` (bracketed as `100*w <= product < 100*w + 100`); the same computation is at src/lib.rs:36-39 |
| Runtime.OverflowThreshold | src/lib.rs:36-38 | for a nonzero factor, the product fits in a u64 iff the other operand is at most floor((2^64-1) / factor) |
| DiceGame.RandomNumber | programs/solana-dice-game/src/lib.rs:65 | for a non-negative timestamp the draw is `timestamp % 6 + 1`, in 1..6; for a negative one it is 0, 1 or 252..255, and exactly the byte whose unwrapped value minus one is the remainder in -5..0 congruent to the timestamp modulo 6 |
| DiceGame.Settle | programs/solana-dice-game/src/lib.rs:73-120 | once the checks pass, settlement succeeds iff the player can pay the stake, the vault can take it, and (on a win) the vault can pay the win and the player can receive it; a failure here is always a host fault, and which one is fixed: `InsufficientLamports` for a short player, `LamportOverflow` for an overflowing vault, then on a win `LamportUnderflow` for a vault short of the win and `LamportOverflow` for an overflowing player; on success the vault gains the stake and loses the win, and the event records it |
| DiceGame.BetOutcome | programs/solana-dice-game/src/lib.rs:49-123 | `GamePaused` iff paused; `InvalidBetAmount` iff unpaused and not `min_bet <= amount <= max_bet`; `InvalidNumber` iff both checks pass and the number is not in 1..6; `MathOverflow` iff the checks pass and the product exceeds 2^64-1, whatever the balances; past those, every failure is a host fault: `InsufficientLamports` when the player is short of the stake, `LamportOverflow` when the vault cannot take it, and on a win `LamportUnderflow` when the vault cannot pay the win and `LamportOverflow` when the player cannot receive it; success iff the checks pass, the product fits and the transfers can be made; on success `vault' = vault + amount - payout` and `player' = player - amount + payout`, with `payout = floor(amount*reward/100)` on a win and 0 on a loss, so the sum is conserved; the event has `won` iff chosen equals drawn, `win_amount = payout`, and echoes player, amount, chosen number, drawn number and timestamp |
| DiceGame.RewardUpdate | programs/solana-dice-game/src/lib.rs:125-135 | succeeds iff the signer is the stored admin, otherwise `Unauthorized`; on success the new reward is stored and every other field is as before |
| DiceGame.PauseUpdate | programs/solana-dice-game/src/lib.rs:137-145 | succeeds iff the signer is the admin, otherwise `Unauthorized`; on success `is_paused` takes the given value (true for `pause_game`, false for `unpause_game`) and every other field is as before |
| DiceGame.Withdrawal | programs/solana-dice-game/src/lib.rs:147-160 | `Unauthorized` iff the signer is not the admin; an admin whose balance would overflow (the vault covering the amount) gets `LamportOverflow`; the admin gets `InsufficientFunds` iff the amount exceeds the vault's lamports; success iff the admin is authorised, the vault covers the amount and the admin's balance does not overflow; success moves exactly `amount` from vault to admin |
| DiceGame.GameConfig.InitializeGame | programs/solana-dice-game/src/lib.rs:30-38 | the signer becomes admin with the given reward, unpaused, `min_bet = 1_000_000` and `max_bet = 100_000_000`, so `min_bet <= max_bet` |
| DiceGame.GameConfig.PlaceBet | programs/solana-dice-game/src/lib.rs:49-123 | returns the event and commits the balances `BetOutcome` gives; since the account keeps the fixed bounds, the result is `InvalidBetAmount` iff the game is unpaused and the amount is outside 1_000_000..100_000_000; on `Err` both balances equal their old values; on `Ok` their sum is unchanged; no config field changes |
| DiceGame.GameConfig.UpdateRewardPercentage | programs/solana-dice-game/src/lib.rs:132-135 | the new state and the result are those of `RewardUpdate`; a rejected call changes nothing |
| DiceGame.GameConfig.PauseGame | programs/solana-dice-game/src/lib.rs:137-140 | the new state and the result are those of `PauseUpdate` with `true`; a rejected call changes nothing |
| DiceGame.GameConfig.UnpauseGame | programs/solana-dice-game/src/lib.rs:142-145 | the new state and the result are those of `PauseUpdate` with `false`; a rejected call changes nothing |
| DiceGame.GameConfig.WithdrawFunds | programs/solana-dice-game/src/lib.rs:147-160 | the new balances and the result are those of `Withdrawal`; on `Err` neither balance changes; no config field changes |
| DiceGame.OverflowNeedsLargeReward | programs/solana-dice-game/src/lib.rs:68-71 | with the fixed bounds, no bet can fail with `MathOverflow` while `reward_percentage <= floor((2^64-1) / max_bet)`; above that, a bet of `max_bet` on an unpaused game with a valid number does fail with `MathOverflow` |
| DiceGame.OnlyWinsCanFail | programs/solana-dice-game/src/lib.rs:87-99 | once the checks pass, the product fits and the stake can move, a failed bet is a win; a vault too poor to pay never makes a losing bet fail |
| DiceGame.BoundsInclusive | programs/solana-dice-game/src/lib.rs:54-57 | on an unpaused game with the fixed bounds, `min_bet - 1` and `max_bet + 1` fail with `InvalidBetAmount`, and `min_bet` and `max_bet` pass the amount check |
| DiceGame.ChosenZeroRejected | tests/solana-dice-game.ts:66-81 | on a freshly initialised game, number 0 with 0.1 SOL (exactly `max_bet`) fails with `InvalidNumber` |
| DiceGame.PauseThenUnpause | tests/solana-dice-game.ts:83-105 | the admin can always pause; while paused every bet fails with `GamePaused`; unpausing gives back the configuration with `is_paused = false` |
| DiceGame.AdminAndBoundsFixed | programs/solana-dice-game/src/lib.rs:125-145 | no reward or pause update, by any signer, changes `admin`, `min_bet` or `max_bet` |
| Dice.Random | src/lib.rs:65-69 | the draw from a hash byte is in 1..6, and is one more than the byte modulo 6 |
| Dice.BetOutcome | src/lib.rs:18-44 | `InvalidGuess` iff the guess is not in 1..6; `ContractPaused` iff the guess is valid and the game is paused; `InvalidBetAmount` iff both pass and `amount == 0`; `MathOverflow` iff the checks pass, the stake can move, the bet wins and the product exceeds 2^64-1; past the checks every other failure is a host fault: `InsufficientLamports` when the user is short of the stake, `LamportOverflow` when the vault cannot take it, and on a win whose product fits `LamportUnderflow` when the vault cannot pay and `LamportOverflow` when the user cannot receive; success iff the checks pass, the stake can move and, on a win, the product fits and the payout can be made; on success `vault' = vault + amount - reward` and `user' = user - amount + reward`, with `reward = 0` on a loss, so the sum is conserved |
| Dice.RewardUpdate | src/lib.rs:46-50 | succeeds iff the signer is the stored admin (the `has_one = admin` constraint of `AdminOnly`, src/lib.rs:95-100), otherwise `ConstraintHasOne`; on success it writes only `reward_percent` |
| Dice.PauseUpdate | src/lib.rs:52-56 | succeeds iff the signer is the admin, otherwise `ConstraintHasOne`; on success it writes only `is_paused`, to the given value |
| Dice.Withdrawal | src/lib.rs:58-62 | `ConstraintHasOne` iff the signer is not the admin (the `Withdraw` constraint at src/lib.rs:102-111); an admin whose balance would overflow (the vault covering the amount) gets `LamportOverflow`; the admin withdrawing more than the vault holds gets the host fault `LamportUnderflow`; success iff the admin is authorised, the vault covers the amount and the admin's balance does not overflow; success moves exactly `amount` from vault to admin |
| Dice.State.Initialize | src/lib.rs:10-16 | the signer becomes admin with the given `reward_percent`, unpaused |
| Dice.State.PlaceBet | src/lib.rs:18-44 | commits the balances `BetOutcome` gives and returns its result; on `Err`, including a `MathOverflow` found after the stake moved, both balances equal their old values; on `Ok` their sum is unchanged; `admin`, `reward_percent` and `is_paused` do not change |
| Dice.State.UpdateReward | src/lib.rs:46-50 | the new state and the result are those of `RewardUpdate`; a rejected call changes nothing |
| Dice.State.SetPause | src/lib.rs:52-56 | the new state and the result are those of `PauseUpdate`; a rejected call changes nothing |
| Dice.State.Withdraw | src/lib.rs:58-62 | the new balances and the result are those of `Withdrawal`; on `Err` neither balance changes; the state does not change |
| Dice.SetPauseIdempotent | src/lib.rs:52-56 | applying a successful `set_pause(p)` a second time gives the same state as applying it once |
| Dice.LosingBetNeverOverflows | src/lib.rs:35-42 | a bet whose guess differs from the draw never fails with `MathOverflow`, however large its product |
| Dice.SmallBetsNeverOverflow | src/lib.rs:36-38 | since the reward is a u8, a bet of at most floor((2^64-1)/255) lamports has a product that fits, and never fails with `MathOverflow` |
| Dice.FaceCountSixMore | src/lib.rs:65-69 | any six consecutive hash bytes draw each face 1..6 exactly once |
| Dice.FaceCountMultiple | src/lib.rs:65-69 | the first `6k` hash bytes draw each face exactly `k` times |
| Dice.RandomBias | src/lib.rs:65-69 | over the 256 hash bytes, faces 1 to 4 are drawn by 43 bytes each and faces 5 and 6 by 42 each, so the draw is not uniform |

## Left out

- `Clock::get` and `hashv` are foreign calls. The timestamp (bounded
  program) and the hash byte (unbounded program) are parameters. A failing
  `Clock::get` is not modelled.
- The system-program `transfer` CPI is the pure `Runtime.Transfer`. It
  fails when the source is short or the destination would overflow.
- Anchor account wiring is reduced to comparing the signer's key with the
  stored admin. This covers `#[derive(Accounts)]`, program-address seeds and
  bumps, `space`/`LEN`/`SIZE`, `declare_id!` and signature checks.
- The unbounded vault is a program address, which cannot sign. The methods
  therefore require it to be a different account from the user or admin.
- Account creation is left out. This covers paying rent at initialisation
  (the bounded `GameConfig` account, the unbounded `State` and vault
  accounts) and re-initialisation (`AlreadyInitialized`).
  `DiceGame.GameConfig.InitializeGame` takes the new account's lamports as
  a parameter. `Dice.State.Initialize` creates only the `State` record; the
  vault it creates (src/lib.rs:75-77) is an `Account` the caller supplies.
- The host's rent-exemption check on an account whose lamports a program
  lowered is left out. It applies to the vault after a winning payout
  (programs/solana-dice-game/src/lib.rs:90-94, src/lib.rs:40) and after a
  withdrawal. The model lets the vault go down to zero lamports.
- Account writability is left out. The bounded program's `withdraw_funds`
  credits an admin account that its accounts struct does not mark `mut`. The
  model assumes the transaction makes that account writable (the admin
  usually pays the fee, which makes it writable).
- The raw lamport `-=` and `+=` are modelled as faulting. This assumes the
  program is built with overflow checks on. Without them, the runtime's
  lamport-balance check rejects the same transactions, with a different
  fault.
- `emit!` is not modelled as log delivery. The bounded program's
  `BetResult` is returned as a value.
- Concurrency is left out. The host serialises transactions, and each
  operation is modelled as one atomic step.
- The fairness of the entropy is left out. `Dice.RandomBias` states only the
  modulo bias of the byte-to-face map.
- The frontend (frontend/src/App.tsx) is not modelled. This includes its
  floating-point SOL-to-lamport conversion. The test suite is used only as
  evidence for `DiceGame.ChosenZeroRejected` and `DiceGame.PauseThenUnpause`.
