/** The bounded dice program (`solana_dice_game`). Its one account,
    `GameConfig`, holds the rules and is itself the vault: a player's stake
    is credited to its lamports and winnings are debited from them. Bets are
    bounded by a fixed minimum and maximum. */
module DiceGame {
  import opened Runtime

  /** 0.001 SOL and 0.1 SOL (in lamports, 10^9 to the SOL), written at
      initialisation and never changed. */
  const MIN_BET: u64 := 1_000_000
  const MAX_BET: u64 := 100_000_000

  /** The program's own errors, in declaration order. */
  datatype ErrorCode =
    | GamePaused
    | InvalidBetAmount
    | InvalidNumber
    | Unauthorized
    | MathOverflow
    | InsufficientFunds

  /** Every way an instruction can fail: a program error, or a host fault
      that aborts the transaction. */
  datatype Error = Program(code: ErrorCode) | Host(fault: HostFault)

  /** The configuration record without the lamports of its account. */
  datatype Config = Config(
    admin: Pubkey,
    rewardPercentage: u64,
    isPaused: bool,
    minBet: u64,
    maxBet: u64)

  /** The event emitted once per settled bet. */
  datatype BetResult = BetResult(
    player: Pubkey,
    betAmount: u64,
    chosenNumber: u8,
    randomNumber: u8,
    winAmount: u64,
    won: bool,
    timestamp: i64)

  /** The balances of the vault and the player after a settled bet, and its event. */
  datatype Settlement = Settlement(vault: u64, player: u64, event: BetResult)

  /** The three `require!` checks of `place_bet` all pass. */
  predicate Admissible(c: Config, chosenNumber: u8, betAmount: u64) {
    && !c.isPaused
    && c.minBet <= betAmount <= c.maxBet
    && 1 <= chosenNumber <= 6
  }

  /** `((unix_timestamp % 6) + 1) as u8`, with Rust's truncating `%` and the
      wrapping cast. Only a non-negative timestamp lands in 1..6. */
  function RandomNumber(timestamp: i64): (r: u8)
    ensures timestamp >= 0 ==> 1 <= r <= 6 && r == timestamp % 6 + 1
    ensures timestamp < 0 ==> r <= 1 || r >= 252
    // for a negative timestamp, the wrapped byte undoes to a remainder in -5..0
    // that differs from the timestamp by a multiple of 6, which fixes it
    ensures timestamp < 0 ==>
              var rem := (if r >= 252 then r - (U8_MAX + 1) else r) - 1;
              -5 <= rem <= 0 && (timestamp - rem) % 6 == 0
  {
    var rem := TruncRem(timestamp, 6);
    assert timestamp < 0 ==> (timestamp - rem) % 6 == 0 by {
      if timestamp < 0 {
        var n: int := 0 - timestamp as int;
        assert n == 6 * (n / 6) + n % 6;
        assert timestamp - rem == -6 * (n / 6);
      }
    }
    AsU8(rem + 1)
  }

  /** The part of `place_bet` after the checks and the payout computation:
      the stake moves from the player to the vault, and on a win
      `potentialWin` moves back. */
  function Settle(vault: u64, player: u64, playerKey: Pubkey, chosenNumber: u8, betAmount: u64,
                  randomNumber: u8, potentialWin: u64, timestamp: i64): (r: Result<Settlement, Error>)
    ensures r.Ok? <==>
              && betAmount <= player && vault + betAmount <= U64_MAX
              && (chosenNumber == randomNumber ==>
                    potentialWin <= vault + betAmount && player - betAmount + potentialWin <= U64_MAX)
    ensures r.Err? ==> r.error.Host?
    // which host fault, step by step
    ensures betAmount > player ==> r == Err(Host(InsufficientLamports))
    ensures betAmount <= player && vault + betAmount > U64_MAX ==> r == Err(Host(LamportOverflow))
    ensures (&& betAmount <= player && vault + betAmount <= U64_MAX && chosenNumber == randomNumber
             && potentialWin > vault + betAmount) ==>
              r == Err(Host(LamportUnderflow))
    ensures (&& betAmount <= player && vault + betAmount <= U64_MAX && chosenNumber == randomNumber
             && potentialWin <= vault + betAmount && player - betAmount + potentialWin > U64_MAX) ==>
              r == Err(Host(LamportOverflow))
    ensures r.Ok? ==>
              var won := chosenNumber == randomNumber;
              var payout := if won then potentialWin else 0;
              && r.value.vault == vault + betAmount - payout
              && r.value.player == player - betAmount + payout
              && r.value.event == BetResult(playerKey, betAmount, chosenNumber, randomNumber, payout, won, timestamp)
  {
    match Transfer(player, vault, betAmount)
    case Err(f) => Err(Host(f))
    case Ok(staked) =>
      if chosenNumber == randomNumber then
        match Debit(staked.to, potentialWin)
        case Err(f) => Err(Host(f))
        case Ok(vault') =>
          match Credit(staked.from, potentialWin)
          case Err(f) => Err(Host(f))
          case Ok(player') =>
            Ok(Settlement(vault', player',
                          BetResult(playerKey, betAmount, chosenNumber, randomNumber, potentialWin, true, timestamp)))
      else
        Ok(Settlement(staked.to, staked.from,
                      BetResult(playerKey, betAmount, chosenNumber, randomNumber, 0, false, timestamp)))
  }

  /** `place_bet` on a snapshot: the configuration, the vault's and the
      player's lamports, the player's key, the arguments and the clock's
      timestamp. `Ok` carries the balances to commit and the emitted event;
      on `Err` the host commits nothing. */
  function BetOutcome(c: Config, vault: u64, player: u64, playerKey: Pubkey,
                      chosenNumber: u8, betAmount: u64, timestamp: i64): (r: Result<Settlement, Error>)
    // the checks, in the order they are made
    ensures r == Err(Program(GamePaused)) <==> c.isPaused
    ensures r == Err(Program(InvalidBetAmount)) <==> !c.isPaused && !(c.minBet <= betAmount <= c.maxBet)
    ensures r == Err(Program(InvalidNumber)) <==>
              !c.isPaused && c.minBet <= betAmount <= c.maxBet && !(1 <= chosenNumber <= 6)
    // the overflow check comes before the stake moves, whether or not the bet wins
    ensures r == Err(Program(MathOverflow)) <==>
              Admissible(c, chosenNumber, betAmount) && betAmount * c.rewardPercentage > U64_MAX
    ensures r.Ok? <==>
              && Admissible(c, chosenNumber, betAmount)
              && betAmount * c.rewardPercentage <= U64_MAX
              && betAmount <= player && vault + betAmount <= U64_MAX
              && (chosenNumber == RandomNumber(timestamp) ==>
                    betAmount * c.rewardPercentage / 100 <= vault + betAmount &&
                    player - betAmount + betAmount * c.rewardPercentage / 100 <= U64_MAX)
    // past the checks and the overflow check, only the host can refuse, and it says why
    ensures Admissible(c, chosenNumber, betAmount) && betAmount * c.rewardPercentage <= U64_MAX ==>
              (r.Err? ==> r.error.Host?)
    ensures (&& Admissible(c, chosenNumber, betAmount) && betAmount * c.rewardPercentage <= U64_MAX
             && betAmount > player) ==>
              r == Err(Host(InsufficientLamports))
    ensures (&& Admissible(c, chosenNumber, betAmount) && betAmount * c.rewardPercentage <= U64_MAX
             && betAmount <= player && vault + betAmount > U64_MAX) ==>
              r == Err(Host(LamportOverflow))
    ensures (&& Admissible(c, chosenNumber, betAmount) && betAmount * c.rewardPercentage <= U64_MAX
             && betAmount <= player && vault + betAmount <= U64_MAX
             && chosenNumber == RandomNumber(timestamp)
             && betAmount * c.rewardPercentage / 100 > vault + betAmount) ==>
              r == Err(Host(LamportUnderflow))
    ensures (&& Admissible(c, chosenNumber, betAmount) && betAmount * c.rewardPercentage <= U64_MAX
             && betAmount <= player && vault + betAmount <= U64_MAX
             && chosenNumber == RandomNumber(timestamp)
             && betAmount * c.rewardPercentage / 100 <= vault + betAmount
             && player - betAmount + betAmount * c.rewardPercentage / 100 > U64_MAX) ==>
              r == Err(Host(LamportOverflow))
    // settlement: the stake moves in, the payout (if won) moves out, nothing is created
    ensures r.Ok? ==>
              var won := chosenNumber == RandomNumber(timestamp);
              var payout := if won then betAmount * c.rewardPercentage / 100 else 0;
              && r.value.vault == vault + betAmount - payout
              && r.value.player == player - betAmount + payout
              && r.value.vault + r.value.player == vault + player
              && r.value.event.won == won
              && r.value.event.winAmount == payout
              && r.value.event.player == playerKey
              && r.value.event.betAmount == betAmount
              && r.value.event.chosenNumber == chosenNumber
              && r.value.event.randomNumber == RandomNumber(timestamp)
              && r.value.event.timestamp == timestamp
  {
    if c.isPaused then Err(Program(GamePaused))
    else if !(betAmount >= c.minBet && betAmount <= c.maxBet) then Err(Program(InvalidBetAmount))
    else if !(chosenNumber >= 1 && chosenNumber <= 6) then Err(Program(InvalidNumber))
    else
      var randomNumber := RandomNumber(timestamp);
      // `checked_mul(..).and_then(|v| v.checked_div(100))`: dividing by 100 cannot fail
      match PercentOf(betAmount, c.rewardPercentage)
      case None => Err(Program(MathOverflow))
      case Some(potentialWin) =>
        Settle(vault, player, playerKey, chosenNumber, betAmount, randomNumber, potentialWin, timestamp)
  }

  /** `update_reward_percentage` behind `has_one = admin @ Unauthorized`:
      only the admin may call it, and it writes only the reward percentage. */
  function RewardUpdate(c: Config, signer: Pubkey, newPercentage: u64): (r: Result<Config, Error>)
    ensures r.Ok? <==> signer == c.admin
    ensures r.Err? ==> r.error == Program(Unauthorized)
    ensures r.Ok? ==> r.value.rewardPercentage == newPercentage
    ensures r.Ok? ==> r.value.(rewardPercentage := c.rewardPercentage) == c
  {
    if signer != c.admin then Err(Program(Unauthorized))
    else Ok(c.(rewardPercentage := newPercentage))
  }

  /** `pause_game` (`paused` true) and `unpause_game` (`paused` false):
      admin only, and they write only the pause flag. */
  function PauseUpdate(c: Config, signer: Pubkey, paused: bool): (r: Result<Config, Error>)
    ensures r.Ok? <==> signer == c.admin
    ensures r.Err? ==> r.error == Program(Unauthorized)
    ensures r.Ok? ==> r.value.isPaused == paused
    ensures r.Ok? ==> r.value.(isPaused := c.isPaused) == c
  {
    if signer != c.admin then Err(Program(Unauthorized))
    else Ok(c.(isPaused := paused))
  }

  /** `withdraw_funds`: admin only, `InsufficientFunds` exactly when the
      amount exceeds the vault's lamports, and otherwise exactly `amount`
      leaves the vault (`from`) for the admin's account (`to`). */
  function Withdrawal(c: Config, vault: u64, admin: u64, signer: Pubkey, amount: u64): (r: Result<Moved, Error>)
    ensures r == Err(Program(Unauthorized)) <==> signer != c.admin
    ensures signer != c.admin ==> r == Err(Program(Unauthorized))
    ensures r == Err(Program(InsufficientFunds)) <==> signer == c.admin && amount > vault
    ensures r.Ok? <==> signer == c.admin && amount <= vault && admin + amount <= U64_MAX
    ensures signer == c.admin && amount <= vault && admin + amount > U64_MAX ==> r == Err(Host(LamportOverflow))
    ensures r.Ok? ==> r.value.from == vault - amount && r.value.to == admin + amount
  {
    if signer != c.admin then Err(Program(Unauthorized))
    else if !(amount <= vault) then Err(Program(InsufficientFunds))
    else
      match Debit(vault, amount)
      case Err(f) => Err(Host(f))
      case Ok(vault') =>
        match Credit(admin, amount)
        case Err(f) => Err(Host(f))
        case Ok(admin') => Ok(Moved(vault', admin'))
  }

  /** The `GameConfig` account: its fields and its own lamports, which are the vault. */
  class GameConfig {
    var admin: Pubkey
    var rewardPercentage: u64
    var isPaused: bool
    var minBet: u64
    var maxBet: u64
    var lamports: u64

    function View(): Config
      reads this
    {
      Config(admin, rewardPercentage, isPaused, minBet, maxBet)
    }

    /** The bounds are the constants `initialize_game` writes; nothing else writes them. */
    ghost predicate Valid()
      reads this
    {
      minBet == MIN_BET && maxBet == MAX_BET
    }

    /** `initialize_game`: the signer becomes admin, with the given reward,
        unpaused, and with the fixed bounds. `lamports` is what the new
        account was funded with. */
    constructor InitializeGame(signer: Pubkey, rewardPercentage: u64, lamports: u64)
      ensures Valid()
      ensures View() == Config(signer, rewardPercentage, false, MIN_BET, MAX_BET)
      ensures View().minBet <= View().maxBet
      ensures this.lamports == lamports
    {
      this.admin := signer;
      this.rewardPercentage := rewardPercentage;
      this.isPaused := false;
      this.minBet := 1000000;
      this.maxBet := 100000000;
      this.lamports := lamports;
    }

    /** `place_bet`, step by step. A failure after the stake has moved is
        rolled back, as the host discards a failed transaction. */
    method PlaceBet(player: Account, chosenNumber: u8, betAmount: u64, timestamp: i64)
      returns (r: Result<BetResult, Error>)
      requires Valid()
      modifies this`lamports, player`lamports
      ensures Valid() && View() == old(View())
      ensures r.Err? ==> lamports == old(lamports) && player.lamports == old(player.lamports)
      ensures r.Ok? ==> lamports + player.lamports == old(lamports) + old(player.lamports)
      ensures !old(isPaused) && !(MIN_BET <= betAmount <= MAX_BET) <==> r == Err(Program(InvalidBetAmount))
      ensures var out := BetOutcome(old(View()), old(lamports), old(player.lamports), player.key,
                                    chosenNumber, betAmount, timestamp);
              match out
              case Ok(s) => r == Ok(s.event) && lamports == s.vault && player.lamports == s.player
              case Err(e) => r == Err(e)
    {
      if isPaused {
        return Err(Program(GamePaused));
      }
      if !(betAmount >= minBet && betAmount <= maxBet) {
        return Err(Program(InvalidBetAmount));
      }
      if !(chosenNumber >= 1 && chosenNumber <= 6) {
        return Err(Program(InvalidNumber));
      }

      var randomNumber := RandomNumber(timestamp);

      var win := PercentOf(betAmount, rewardPercentage);
      if win.None? {
        return Err(Program(MathOverflow));
      }
      var potentialWin := win.value;

      var stake := Transfer(player.lamports, lamports, betAmount);
      if stake.Err? {
        return Err(Host(stake.error));
      }
      var vaultBefore, playerBefore := lamports, player.lamports;
      player.lamports, lamports := stake.value.from, stake.value.to;

      if chosenNumber == randomNumber {
        var vault' := Debit(lamports, potentialWin);
        if vault'.Err? {
          lamports, player.lamports := vaultBefore, playerBefore;
          return Err(Host(vault'.error));
        }
        lamports := vault'.value;
        var player' := Credit(player.lamports, potentialWin);
        if player'.Err? {
          lamports, player.lamports := vaultBefore, playerBefore;
          return Err(Host(player'.error));
        }
        player.lamports := player'.value;
        r := Ok(BetResult(player.key, betAmount, chosenNumber, randomNumber, potentialWin, true, timestamp));
      } else {
        r := Ok(BetResult(player.key, betAmount, chosenNumber, randomNumber, 0, false, timestamp));
      }
    }

    /** `update_reward_percentage`. */
    method UpdateRewardPercentage(signer: Pubkey, newPercentage: u64) returns (r: Result<(), Error>)
      requires Valid()
      modifies this`rewardPercentage
      ensures Valid()
      ensures var out := RewardUpdate(old(View()), signer, newPercentage);
              match out
              case Ok(c) => r == Ok(()) && View() == c
              case Err(e) => r == Err(e) && View() == old(View())
    {
      if signer != admin {
        return Err(Program(Unauthorized));
      }
      rewardPercentage := newPercentage;
      r := Ok(());
    }

    /** `pause_game`. */
    method PauseGame(signer: Pubkey) returns (r: Result<(), Error>)
      requires Valid()
      modifies this`isPaused
      ensures Valid()
      ensures var out := PauseUpdate(old(View()), signer, true);
              match out
              case Ok(c) => r == Ok(()) && View() == c
              case Err(e) => r == Err(e) && View() == old(View())
    {
      if signer != admin {
        return Err(Program(Unauthorized));
      }
      isPaused := true;
      r := Ok(());
    }

    /** `unpause_game`. */
    method UnpauseGame(signer: Pubkey) returns (r: Result<(), Error>)
      requires Valid()
      modifies this`isPaused
      ensures Valid()
      ensures var out := PauseUpdate(old(View()), signer, false);
              match out
              case Ok(c) => r == Ok(()) && View() == c
              case Err(e) => r == Err(e) && View() == old(View())
    {
      if signer != admin {
        return Err(Program(Unauthorized));
      }
      isPaused := false;
      r := Ok(());
    }

    /** `withdraw_funds`, paid to the signing admin's account. */
    method WithdrawFunds(admin: Account, amount: u64) returns (r: Result<(), Error>)
      requires Valid()
      modifies this`lamports, admin`lamports
      ensures Valid() && View() == old(View())
      ensures r.Err? ==> lamports == old(lamports) && admin.lamports == old(admin.lamports)
      ensures var out := Withdrawal(old(View()), old(lamports), old(admin.lamports), admin.key, amount);
              match out
              case Ok(m) => r == Ok(()) && lamports == m.from && admin.lamports == m.to
              case Err(e) => r == Err(e)
    {
      if admin.key != this.admin {
        return Err(Program(Unauthorized));
      }
      var balance := lamports;
      if !(amount <= balance) {
        return Err(Program(InsufficientFunds));
      }
      // the `-=` cannot underflow after the check above
      var vault' := Debit(lamports, amount);
      assert vault'.Ok?;
      var admin' := Credit(admin.lamports, amount);
      if admin'.Err? {
        return Err(Host(admin'.error));
      }
      lamports, admin.lamports := vault'.value, admin'.value;
      r := Ok(());
    }
  }

  /** With the fixed bounds, `MathOverflow` is unreachable exactly while the
      reward percentage is at most floor(U64_MAX / MAX_BET): below that every
      admissible bet's product fits, above it a maximal bet overflows. */
  lemma {:induction false} OverflowNeedsLargeReward(c: Config, vault: u64, player: u64, playerKey: Pubkey,
                                                    chosenNumber: u8, betAmount: u64, timestamp: i64)
    requires c.minBet == MIN_BET && c.maxBet == MAX_BET
    ensures c.rewardPercentage <= U64_MAX / MAX_BET ==>
              BetOutcome(c, vault, player, playerKey, chosenNumber, betAmount, timestamp) != Err(Program(MathOverflow))
    ensures c.rewardPercentage > U64_MAX / MAX_BET && !c.isPaused && 1 <= chosenNumber <= 6 ==>
              BetOutcome(c, vault, player, playerKey, chosenNumber, MAX_BET, timestamp) == Err(Program(MathOverflow))
  {
    var pct := c.rewardPercentage;
    OverflowThreshold(pct, MAX_BET);
    assert pct * MAX_BET == MAX_BET * pct;
    if pct <= U64_MAX / MAX_BET && betAmount <= MAX_BET {
      MulMonotone(betAmount, MAX_BET, pct);
    }
  }

  /** A vault too poor to pay a win does not make a losing bet fail: once the
      checks pass, the product fits and the stake can move, a failure means the
      bet was a win. */
  lemma OnlyWinsCanFail(c: Config, vault: u64, player: u64, playerKey: Pubkey,
                        chosenNumber: u8, betAmount: u64, timestamp: i64)
    requires Admissible(c, chosenNumber, betAmount)
    requires betAmount * c.rewardPercentage <= U64_MAX
    requires betAmount <= player && vault + betAmount <= U64_MAX
    ensures BetOutcome(c, vault, player, playerKey, chosenNumber, betAmount, timestamp).Err? ==>
              chosenNumber == RandomNumber(timestamp)
  {
  }

  /** The bounds are inclusive at both ends: with the fixed bounds an unpaused
      game accepts MIN_BET and MAX_BET through the amount check and rejects
      one lamport below or above with `InvalidBetAmount`. */
  lemma BoundsInclusive(c: Config, vault: u64, player: u64, playerKey: Pubkey, chosenNumber: u8, timestamp: i64)
    requires c.minBet == MIN_BET && c.maxBet == MAX_BET && !c.isPaused
    ensures BetOutcome(c, vault, player, playerKey, chosenNumber, MIN_BET - 1, timestamp) == Err(Program(InvalidBetAmount))
    ensures BetOutcome(c, vault, player, playerKey, chosenNumber, MAX_BET + 1, timestamp) == Err(Program(InvalidBetAmount))
    ensures BetOutcome(c, vault, player, playerKey, chosenNumber, MIN_BET, timestamp) != Err(Program(InvalidBetAmount))
    ensures BetOutcome(c, vault, player, playerKey, chosenNumber, MAX_BET, timestamp) != Err(Program(InvalidBetAmount))
  {
  }

  /** The rejected bet of the test suite: number 0 with 0.1 SOL (which is
      MAX_BET) on a freshly initialised game fails with `InvalidNumber`. */
  lemma ChosenZeroRejected(signer: Pubkey, rewardPercentage: u64, vault: u64, player: u64,
                           playerKey: Pubkey, timestamp: i64)
    ensures BetOutcome(Config(signer, rewardPercentage, false, MIN_BET, MAX_BET), vault, player, playerKey,
                       0, 100_000_000, timestamp) == Err(Program(InvalidNumber))
  {
  }

  /** Pausing then unpausing, both by the admin, gives back the configuration
      with the flag cleared; while paused every bet is refused. */
  lemma PauseThenUnpause(c: Config, vault: u64, player: u64, playerKey: Pubkey,
                         chosenNumber: u8, betAmount: u64, timestamp: i64)
    ensures PauseUpdate(c, c.admin, true).Ok?
    ensures BetOutcome(PauseUpdate(c, c.admin, true).value, vault, player, playerKey,
                       chosenNumber, betAmount, timestamp) == Err(Program(GamePaused))
    ensures PauseUpdate(PauseUpdate(c, c.admin, true).value, c.admin, false) == Ok(c.(isPaused := false))
  {
  }

  /** No admin operation touches the admin or the bounds, whoever calls it. */
  lemma AdminAndBoundsFixed(c: Config, signer: Pubkey, newPercentage: u64, paused: bool)
    ensures RewardUpdate(c, signer, newPercentage).Ok? ==>
              var c' := RewardUpdate(c, signer, newPercentage).value;
              c'.admin == c.admin && c'.minBet == c.minBet && c'.maxBet == c.maxBet
    ensures PauseUpdate(c, signer, paused).Ok? ==>
              var c' := PauseUpdate(c, signer, paused).value;
              c'.admin == c.admin && c'.minBet == c.minBet && c'.maxBet == c.maxBet
  {
  }
}
