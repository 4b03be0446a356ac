/** The unbounded dice program (`dice`). Its `State` account holds the rules;
    the stakes sit in a separate vault account (the program address derived
    from the seed "vault"). Any positive amount may be bet, and the draw is
    taken from the first byte of a hash of the player's key and the clock. */
module Dice {
  import opened Runtime

  /** The program's own errors. */
  datatype DiceError = InvalidGuess | ContractPaused | InvalidBetAmount | MathOverflow

  /** Every way an instruction can fail: a program error, the framework's
      error for a failed `has_one = admin` constraint (no custom error is
      given for it), or a host fault that aborts the transaction. */
  datatype Error = Program(code: DiceError) | ConstraintHasOne | Host(fault: HostFault)

  /** The `State` record. */
  datatype Rules = Rules(admin: Pubkey, rewardPercent: u8, isPaused: bool)

  /** The vault's and the user's lamports after a settled bet. */
  datatype Settled = Settled(vault: u64, user: u64)

  /** `random`: `(hash[0] % 6) + 1`, where the hash byte is supplied from
      outside. It never leaves 1..6, so the u8 addition cannot overflow. */
  function Random(hashByte: u8): (r: u8)
    ensures 1 <= r <= 6
    ensures r - 1 == hashByte % 6
  {
    (hashByte % 6) + 1
  }

  /** The three `require!` checks of `place_bet` all pass. */
  predicate Admissible(s: Rules, guess: u8, amount: u64) {
    1 <= guess <= 6 && !s.isPaused && amount > 0
  }

  /** `place_bet` on a snapshot: the rules, the vault's and the user's
      lamports, the arguments and the hash byte. `Ok` carries the balances
      to commit; on `Err` the host commits nothing, so a `MathOverflow`
      found after the stake has moved undoes the stake as well. */
  function BetOutcome(s: Rules, vault: u64, user: u64, guess: u8, amount: u64, hashByte: u8): (r: Result<Settled, Error>)
    // the checks, in the order they are made
    ensures r == Err(Program(InvalidGuess)) <==> !(1 <= guess <= 6)
    ensures r == Err(Program(ContractPaused)) <==> 1 <= guess <= 6 && s.isPaused
    ensures r == Err(Program(InvalidBetAmount)) <==> 1 <= guess <= 6 && !s.isPaused && amount == 0
    // the overflow check is made only for a win, after the stake has moved
    ensures r == Err(Program(MathOverflow)) <==>
              && Admissible(s, guess, amount)
              && amount <= user && vault + amount <= U64_MAX
              && Random(hashByte) == guess
              && amount * s.rewardPercent > U64_MAX
    ensures r.Ok? <==>
              && Admissible(s, guess, amount)
              && amount <= user && vault + amount <= U64_MAX
              && (Random(hashByte) == guess ==>
                    && amount * s.rewardPercent <= U64_MAX
                    && amount * s.rewardPercent / 100 <= vault + amount
                    && user - amount + amount * s.rewardPercent / 100 <= U64_MAX)
    // past the checks, any failure other than the win's overflow is the host's, and it says why
    ensures Admissible(s, guess, amount) && r.Err? && r != Err(Program(MathOverflow)) ==> r.error.Host?
    ensures Admissible(s, guess, amount) && amount > user ==> r == Err(Host(InsufficientLamports))
    ensures Admissible(s, guess, amount) && amount <= user && vault + amount > U64_MAX ==>
              r == Err(Host(LamportOverflow))
    ensures (&& Admissible(s, guess, amount) && amount <= user && vault + amount <= U64_MAX
             && Random(hashByte) == guess && amount * s.rewardPercent <= U64_MAX
             && amount * s.rewardPercent / 100 > vault + amount) ==>
              r == Err(Host(LamportUnderflow))
    ensures (&& Admissible(s, guess, amount) && amount <= user && vault + amount <= U64_MAX
             && Random(hashByte) == guess && amount * s.rewardPercent <= U64_MAX
             && amount * s.rewardPercent / 100 <= vault + amount
             && user - amount + amount * s.rewardPercent / 100 > U64_MAX) ==>
              r == Err(Host(LamportOverflow))
    // settlement: the stake moves in, the reward (if won) moves out, nothing is created
    ensures r.Ok? ==>
              var reward := if Random(hashByte) == guess then amount * s.rewardPercent / 100 else 0;
              && r.value.vault == vault + amount - reward
              && r.value.user == user - amount + reward
              && r.value.vault + r.value.user == vault + user
  {
    if !(guess >= 1 && guess <= 6) then Err(Program(InvalidGuess))
    else if s.isPaused then Err(Program(ContractPaused))
    else if !(amount > 0) then Err(Program(InvalidBetAmount))
    else
      match Transfer(user, vault, amount)
      case Err(f) => Err(Host(f))
      case Ok(staked) =>
        var randomNumber := Random(hashByte);
        if randomNumber == guess then
          // `checked_mul(reward_percent as u64).ok_or(MathOverflow)? / 100`
          match PercentOf(amount, s.rewardPercent)
          case None => Err(Program(MathOverflow))
          case Some(reward) =>
            match Debit(staked.to, reward)
            case Err(f) => Err(Host(f))
            case Ok(vault') =>
              match Credit(staked.from, reward)
              case Err(f) => Err(Host(f))
              case Ok(user') => Ok(Settled(vault', user'))
        else
          Ok(Settled(staked.to, staked.from))
  }

  /** `update_reward` behind `has_one = admin`: admin only, and it writes only
      the reward percentage. */
  function RewardUpdate(s: Rules, signer: Pubkey, rewardPercent: u8): (r: Result<Rules, Error>)
    ensures r.Ok? <==> signer == s.admin
    ensures r.Err? ==> r.error == ConstraintHasOne
    ensures r.Ok? ==> r.value.rewardPercent == rewardPercent
    ensures r.Ok? ==> r.value.(rewardPercent := s.rewardPercent) == s
  {
    if signer != s.admin then Err(ConstraintHasOne)
    else Ok(s.(rewardPercent := rewardPercent))
  }

  /** `set_pause` behind `has_one = admin`: admin only, and it writes only the
      pause flag. */
  function PauseUpdate(s: Rules, signer: Pubkey, paused: bool): (r: Result<Rules, Error>)
    ensures r.Ok? <==> signer == s.admin
    ensures r.Err? ==> r.error == ConstraintHasOne
    ensures r.Ok? ==> r.value.isPaused == paused
    ensures r.Ok? ==> r.value.(isPaused := s.isPaused) == s
  {
    if signer != s.admin then Err(ConstraintHasOne)
    else Ok(s.(isPaused := paused))
  }

  /** `withdraw` behind `has_one = admin`: there is no balance check in the
      program, so an amount above the vault's lamports fails in the `-=`;
      otherwise exactly `amount` leaves the vault (`from`) for the admin (`to`). */
  function Withdrawal(s: Rules, vault: u64, admin: u64, signer: Pubkey, amount: u64): (r: Result<Moved, Error>)
    ensures r == Err(ConstraintHasOne) <==> signer != s.admin
    ensures signer == s.admin && amount > vault ==> r == Err(Host(LamportUnderflow))
    ensures signer == s.admin && amount <= vault && admin + amount > U64_MAX ==> r == Err(Host(LamportOverflow))
    ensures r.Ok? <==> signer == s.admin && amount <= vault && admin + amount <= U64_MAX
    ensures r.Ok? ==> r.value.from == vault - amount && r.value.to == admin + amount
  {
    if signer != s.admin then Err(ConstraintHasOne)
    else
      match Debit(vault, amount)
      case Err(f) => Err(Host(f))
      case Ok(vault') =>
        match Credit(admin, amount)
        case Err(f) => Err(Host(f))
        case Ok(admin') => Ok(Moved(vault', admin'))
  }

  /** The `State` account. */
  class State {
    var admin: Pubkey
    var rewardPercent: u8
    var isPaused: bool

    function View(): Rules
      reads this
    {
      Rules(admin, rewardPercent, isPaused)
    }

    /** `initialize`: the signer becomes admin, with the given reward, unpaused. */
    constructor Initialize(signer: Pubkey, rewardPercent: u8)
      ensures View() == Rules(signer, rewardPercent, false)
    {
      this.admin := signer;
      this.rewardPercent := rewardPercent;
      this.isPaused := false;
    }

    /** `place_bet`, step by step; it reads the state and moves lamports
        between the user and the vault. A failure after the stake has moved
        is rolled back, as the host discards a failed transaction. The vault
        is a program address, which cannot sign, so it is not the user. */
    method PlaceBet(vault: Account, user: Account, guess: u8, amount: u64, hashByte: u8)
      returns (r: Result<(), Error>)
      requires vault != user
      modifies vault`lamports, user`lamports
      ensures View() == old(View())
      ensures r.Err? ==> vault.lamports == old(vault.lamports) && user.lamports == old(user.lamports)
      ensures r.Ok? ==> vault.lamports + user.lamports == old(vault.lamports) + old(user.lamports)
      ensures var out := BetOutcome(View(), old(vault.lamports), old(user.lamports), guess, amount, hashByte);
              match out
              case Ok(b) => r == Ok(()) && vault.lamports == b.vault && user.lamports == b.user
              case Err(e) => r == Err(e)
    {
      if !(guess >= 1 && guess <= 6) {
        return Err(Program(InvalidGuess));
      }
      if isPaused {
        return Err(Program(ContractPaused));
      }
      if !(amount > 0) {
        return Err(Program(InvalidBetAmount));
      }

      var stake := Transfer(user.lamports, vault.lamports, amount);
      if stake.Err? {
        return Err(Host(stake.error));
      }
      var vaultBefore, userBefore := vault.lamports, user.lamports;
      user.lamports, vault.lamports := stake.value.from, stake.value.to;

      var randomNumber := Random(hashByte);

      if randomNumber == guess {
        var reward := PercentOf(amount, rewardPercent);
        if reward.None? {
          vault.lamports, user.lamports := vaultBefore, userBefore;
          return Err(Program(MathOverflow));
        }
        var vault' := Debit(vault.lamports, reward.value);
        if vault'.Err? {
          vault.lamports, user.lamports := vaultBefore, userBefore;
          return Err(Host(vault'.error));
        }
        vault.lamports := vault'.value;
        var user' := Credit(user.lamports, reward.value);
        if user'.Err? {
          vault.lamports, user.lamports := vaultBefore, userBefore;
          return Err(Host(user'.error));
        }
        user.lamports := user'.value;
      }
      r := Ok(());
    }

    /** `update_reward`. */
    method UpdateReward(signer: Pubkey, rewardPercent: u8) returns (r: Result<(), Error>)
      modifies this`rewardPercent
      ensures var out := RewardUpdate(old(View()), signer, rewardPercent);
              match out
              case Ok(s) => r == Ok(()) && View() == s
              case Err(e) => r == Err(e) && View() == old(View())
    {
      if signer != admin {
        return Err(ConstraintHasOne);
      }
      this.rewardPercent := rewardPercent;
      r := Ok(());
    }

    /** `set_pause`. */
    method SetPause(signer: Pubkey, paused: bool) returns (r: Result<(), Error>)
      modifies this`isPaused
      ensures var out := PauseUpdate(old(View()), signer, paused);
              match out
              case Ok(s) => r == Ok(()) && View() == s
              case Err(e) => r == Err(e) && View() == old(View())
    {
      if signer != admin {
        return Err(ConstraintHasOne);
      }
      isPaused := paused;
      r := Ok(());
    }

    /** `withdraw`, paid to the signing admin's account; the vault is a
        program address, so it is not the admin. */
    method Withdraw(vault: Account, admin: Account, amount: u64) returns (r: Result<(), Error>)
      requires vault != admin
      modifies vault`lamports, admin`lamports
      ensures View() == old(View())
      ensures r.Err? ==> vault.lamports == old(vault.lamports) && admin.lamports == old(admin.lamports)
      ensures var out := Withdrawal(View(), old(vault.lamports), old(admin.lamports), admin.key, amount);
              match out
              case Ok(m) => r == Ok(()) && vault.lamports == m.from && admin.lamports == m.to
              case Err(e) => r == Err(e)
    {
      if admin.key != this.admin {
        return Err(ConstraintHasOne);
      }
      var vault' := Debit(vault.lamports, amount);
      if vault'.Err? {
        return Err(Host(vault'.error));
      }
      var admin' := Credit(admin.lamports, amount);
      if admin'.Err? {
        return Err(Host(admin'.error));
      }
      vault.lamports, admin.lamports := vault'.value, admin'.value;
      r := Ok(());
    }
  }

  /** `set_pause(p)` is idempotent: a second identical call leaves the same state. */
  lemma SetPauseIdempotent(s: Rules, signer: Pubkey, paused: bool)
    ensures PauseUpdate(s, signer, paused).Ok? ==>
              PauseUpdate(PauseUpdate(s, signer, paused).value, signer, paused) == PauseUpdate(s, signer, paused)
  {
  }

  /** A losing bet never meets `MathOverflow`, however large its product. */
  lemma LosingBetNeverOverflows(s: Rules, vault: u64, user: u64, guess: u8, amount: u64, hashByte: u8)
    requires Random(hashByte) != guess
    ensures BetOutcome(s, vault, user, guess, amount, hashByte) != Err(Program(MathOverflow))
  {
  }

  /** Since the reward percentage is a u8, no bet of at most
      floor(U64_MAX / 255) lamports can overflow, whatever the percentage. */
  lemma {:induction false} SmallBetsNeverOverflow(s: Rules, vault: u64, user: u64, guess: u8, amount: u64, hashByte: u8)
    requires amount <= U64_MAX / U8_MAX
    ensures amount * s.rewardPercent <= U64_MAX
    ensures BetOutcome(s, vault, user, guess, amount, hashByte) != Err(Program(MathOverflow))
  {
    MulMonotone(s.rewardPercent, U8_MAX, amount);
    MulMonotone(amount, U64_MAX / U8_MAX, U8_MAX);
  }

  /** How many of the hash bytes below `n` draw `face`. */
  function FaceCount(face: int, n: nat): nat
    requires n <= U8_MAX + 1
  {
    if n == 0 then 0 else FaceCount(face, n - 1) + Hit(face, n - 1)
  }

  /** Six consecutive bytes draw every face once. */
  lemma {:induction false} FaceCountSixMore(face: int, n: nat)
    requires n + 6 <= U8_MAX + 1
    ensures FaceCount(face, n + 6) == FaceCount(face, n) + (if 1 <= face <= 6 then 1 else 0)
  {
    if n == 0 {
      assert FaceCount(face, 1) == Hit(face, 0);
      assert FaceCount(face, 2) == FaceCount(face, 1) + Hit(face, 1);
      assert FaceCount(face, 3) == FaceCount(face, 2) + Hit(face, 2);
      assert FaceCount(face, 4) == FaceCount(face, 3) + Hit(face, 3);
      assert FaceCount(face, 5) == FaceCount(face, 4) + Hit(face, 4);
      assert FaceCount(face, 6) == FaceCount(face, 5) + Hit(face, 5);
    } else {
      FaceCountSixMore(face, n - 1);
      // the draw repeats with period six
      assert Random(n + 5) == Random(n - 1);
      assert FaceCount(face, n + 6) == FaceCount(face, n + 5) + Hit(face, n + 5);
      assert FaceCount(face, n) == FaceCount(face, n - 1) + Hit(face, n - 1);
    }
  }

  /** 1 when byte `b` draws `face`, else 0. */
  function Hit(face: int, b: u8): nat {
    if Random(b) == face then 1 else 0
  }

  lemma {:induction false} FaceCountMultiple(face: int, k: nat)
    requires 6 * k <= U8_MAX + 1 && 1 <= face <= 6
    ensures FaceCount(face, 6 * k) == k
  {
    if k > 0 {
      FaceCountMultiple(face, k - 1);
      FaceCountSixMore(face, 6 * (k - 1));
    }
  }

  /** The draw is biased: of the 256 hash bytes, faces 1 to 4 are drawn by
      43 each and faces 5 and 6 by 42 each. */
  lemma RandomBias(face: int)
    requires 1 <= face <= 6
    ensures FaceCount(face, U8_MAX + 1) == if face <= 4 then 43 else 42
  {
    FaceCountMultiple(face, 42);
    assert Random(252) == 1 && Random(253) == 2 && Random(254) == 3 && Random(255) == 4;
    assert FaceCount(face, 256) == FaceCount(face, 252)
      + (if face == 1 then 1 else 0) + (if face == 2 then 1 else 0)
      + (if face == 3 then 1 else 0) + (if face == 4 then 1 else 0);
  }
}
