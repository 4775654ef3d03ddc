/** The three casino games. Each one checks the gambling cooldown, then the
    balance, takes the bet, draws an outcome and pays out through the ledger. */
module Gambling {
  import opened Wrappers
  import opened Strings
  import opened Random
  import opened Economy

  /** Why a game refuses to run. */
  datatype GameError = CooldownWait(remaining: int) | NotEnoughBread

  // ------------------------------------------------------------ slots

  datatype Symbol = Bread | Cherry | Bell | Diamond | Seven

  const SLOTS_SYMBOLS: seq<Symbol> := [Bread, Cherry, Bell, Diamond, Seven]

  /** The emoji text of a symbol; the seven is a keycap sequence of three
      code points. */
  function SymbolText(s: Symbol): (t: string)
    ensures |t| == if s == Seven then 3 else 1
  {
    match s
    case Bread => "\U{1F35E}"
    case Cherry => "\U{1F352}"
    case Bell => "\U{1F514}"
    case Diamond => "\U{1F48E}"
    case Seven => "7\U{FE0F}\U{20E3}"
  }

  /** `SLOTS_MULTIPLIERS`, keyed by the joined text of three symbols. */
  const SLOTS_MULTIPLIERS: map<string, int> := map[
    "\U{1F35E}\U{1F35E}\U{1F35E}" := 2,
    "\U{1F352}\U{1F352}\U{1F352}" := 3,
    "\U{1F514}\U{1F514}\U{1F514}" := 5,
    "\U{1F48E}\U{1F48E}\U{1F48E}" := 10,
    "7\U{FE0F}\U{20E3}7\U{FE0F}\U{20E3}7\U{FE0F}\U{20E3}" := 25
  ]

  /** The multiplier of three identical symbols. */
  function TripleMultiplier(s: Symbol): (m: int)
    ensures m in {2, 3, 5, 10, 25}
  {
    match s
    case Bread => 2
    case Cherry => 3
    case Bell => 5
    case Diamond => 10
    case Seven => 25
  }

  /** `result.join('')`. */
  function SpinKey(a: Symbol, b: Symbol, c: Symbol): string {
    SymbolText(a) + (SymbolText(b) + SymbolText(c))
  }

  lemma TextsDiffer(a: Symbol, b: Symbol)
    requires a != b
    ensures SymbolText(a)[0] != SymbolText(b)[0]
  {
  }

  /** Every triple of one symbol has its multiplier in the table. */
  lemma TripleInTable(a: Symbol)
    ensures SpinKey(a, a, a) in SLOTS_MULTIPLIERS
    ensures SLOTS_MULTIPLIERS[SpinKey(a, a, a)] == TripleMultiplier(a)
  {
    match a
    case Bread => assert SpinKey(a, a, a) == "\U{1F35E}\U{1F35E}\U{1F35E}";
    case Cherry => assert SpinKey(a, a, a) == "\U{1F352}\U{1F352}\U{1F352}";
    case Bell => assert SpinKey(a, a, a) == "\U{1F514}\U{1F514}\U{1F514}";
    case Diamond => assert SpinKey(a, a, a) == "\U{1F48E}\U{1F48E}\U{1F48E}";
    case Seven => assert SpinKey(a, a, a) == "7\U{FE0F}\U{20E3}7\U{FE0F}\U{20E3}7\U{FE0F}\U{20E3}";
  }

  /** Every key of the table is the text of a triple. */
  lemma TableKeysAreTriples(k: string)
    requires k in SLOTS_MULTIPLIERS
    ensures exists a :: k == SpinKey(a, a, a)
  {
    if k == "\U{1F35E}\U{1F35E}\U{1F35E}" { assert k == SpinKey(Bread, Bread, Bread); }
    else if k == "\U{1F352}\U{1F352}\U{1F352}" { assert k == SpinKey(Cherry, Cherry, Cherry); }
    else if k == "\U{1F514}\U{1F514}\U{1F514}" { assert k == SpinKey(Bell, Bell, Bell); }
    else if k == "\U{1F48E}\U{1F48E}\U{1F48E}" { assert k == SpinKey(Diamond, Diamond, Diamond); }
    else { assert k == SpinKey(Seven, Seven, Seven); }
  }

  /** The text of the first symbol determines it, and the rest of the text. */
  lemma FirstSymbol(a: Symbol, ra: string, x: Symbol, rx: string)
    requires SymbolText(a) + ra == SymbolText(x) + rx
    ensures a == x && ra == rx
  {
    var k := SymbolText(a) + ra;
    assert k[0] == SymbolText(a)[0] && k[0] == SymbolText(x)[0];
    if a != x {
      TextsDiffer(a, x);
    } else {
      var n := |SymbolText(a)|;
      assert ra == k[n..] == rx;
    }
  }

  /** The joined text determines the three symbols. */
  lemma SpinKeyInjective(a: Symbol, b: Symbol, c: Symbol, x: Symbol, y: Symbol, z: Symbol)
    requires SpinKey(a, b, c) == SpinKey(x, y, z)
    ensures a == x && b == y && c == z
  {
    FirstSymbol(a, SymbolText(b) + SymbolText(c), x, SymbolText(y) + SymbolText(z));
    FirstSymbol(b, SymbolText(c), y, SymbolText(z));
    if c != z {
      TextsDiffer(c, z);
    }
  }

  /** A spin's joined text is in the table exactly when all three symbols are
      the same. */
  lemma SpinKeyInTable(a: Symbol, b: Symbol, c: Symbol)
    ensures SpinKey(a, b, c) in SLOTS_MULTIPLIERS <==> a == b && b == c
  {
    if SpinKey(a, b, c) in SLOTS_MULTIPLIERS {
      TableKeysAreTriples(SpinKey(a, b, c));
      var x :| SpinKey(a, b, c) == SpinKey(x, x, x);
      SpinKeyInjective(a, b, c, x, x, x);
    } else if a == b && b == c {
      TripleInTable(a);
    }
  }

  /** `spinSlots()` with one draw per reel. */
  function SpinSlots(r0: real, r1: real, r2: real): (reels: seq<Symbol>)
    requires IsDraw(r0) && IsDraw(r1) && IsDraw(r2)
    ensures |reels| == 3
  {
    [SLOTS_SYMBOLS[ScaledIndex(r0, 5)], SLOTS_SYMBOLS[ScaledIndex(r1, 5)], SLOTS_SYMBOLS[ScaledIndex(r2, 5)]]
  }

  /** What a spin pays: the table multiplier for a triple, `floor(bet * 1.5)`
      for a pair, nothing otherwise. The multiplier is returned alongside. */
  function SlotsPayout(reels: seq<Symbol>, bet: int): (p: (int, real))
    requires |reels| == 3
  {
    var key := SpinKey(reels[0], reels[1], reels[2]);
    if key in SLOTS_MULTIPLIERS then
      (bet * SLOTS_MULTIPLIERS[key], SLOTS_MULTIPLIERS[key] as real)
    else if reels[0] == reels[1] || reels[1] == reels[2] || reels[0] == reels[2] then
      ((bet * 3) / 2, 1.5)
    else (0, 0.0)
  }

  /** The payout rules in terms of the symbols: a triple pays its table
      multiple, a pair pays one and a half times the bet rounded down, and
      three different symbols pay nothing. */
  lemma SlotsPayoutRules(reels: seq<Symbol>, bet: int)
    requires |reels| == 3
    ensures reels[0] == reels[1] == reels[2] ==>
              SlotsPayout(reels, bet) == (bet * TripleMultiplier(reels[0]), TripleMultiplier(reels[0]) as real)
    ensures !(reels[0] == reels[1] == reels[2]) && (reels[0] == reels[1] || reels[1] == reels[2] || reels[0] == reels[2]) ==>
              SlotsPayout(reels, bet) == ((bet * 3) / 2, 1.5)
    ensures reels[0] != reels[1] && reels[1] != reels[2] && reels[0] != reels[2] ==>
              SlotsPayout(reels, bet) == (0, 0.0)
  {
    SpinKeyInTable(reels[0], reels[1], reels[2]);
    if reels[0] == reels[1] == reels[2] {
      TripleInTable(reels[0]);
    }
  }

  /** `Math.floor(bet * 1.5)` is `(bet * 3) / 2` with floor division. */
  lemma PairPayoutIsFloor(bet: int)
    ensures ((bet * 3) / 2) as real <= bet as real * 1.5 < ((bet * 3) / 2) as real + 1.0
  {
  }

  datatype SlotsOutcome = SlotsOutcome(result: seq<Symbol>, winnings: int, multiplier: real, newBalance: int, isWin: bool)

  datatype RouletteOutcome = RouletteOutcome(spinResult: nat, color: string, isWin: bool, winnings: int, multiplier: int, newBalance: int)

  datatype CoinflipOutcome = CoinflipOutcome(result: string, isWin: bool, winnings: int, newBalance: int)

  /** The wait `checkGamblingCooldown` computes for `u` at `now`; the
      cooldown runs while it is positive. A user who never played counts as
      last playing at time 0. */
  function CooldownRemaining(cooldowns: map<UserId, int>, u: UserId, now: int): int {
    GAMBLING_COOLDOWN - (now - if u in cooldowns then cooldowns[u] else 0)
  }

  /** How the opening of a game can end, given the cooldown map `before` and
      `after` it, whether the balance covers the bet, and the refusal if any.
      While the cooldown runs the wait is reported and nothing is recorded.
      Once it has passed `now` is recorded, even when the bet is then refused,
      and the game is refused, for lack of bread, exactly when the balance
      does not cover the bet. */
  predicate Opening(before: map<UserId, int>, after: map<UserId, int>, covered: bool, u: UserId, now: int,
                    refusal: Option<GameError>)
  {
    var remaining := CooldownRemaining(before, u, now);
    && (remaining > 0 ==> refusal == Some(CooldownWait(remaining)) && after == before)
    && (remaining <= 0 ==> && after == before[u := now]
                           && (refusal == Some(NotEnoughBread) <==> !covered)
                           && (refusal == None <==> covered))
  }

  /** The refusal a game's result carries, if any. */
  function Refusal<T>(res: Result<T, GameError>): Option<GameError> {
    if res.Err? then Some(res.error) else None
  }

  /** The shared opening of every game: the cooldown first, then the balance. */
  method Admit(ledger: Ledger, u: UserId, bet: int, now: int) returns (err: Option<GameError>)
    requires ledger.Valid()
    modifies ledger
    ensures ledger.Valid() && ledger.users == old(ledger.users) && ledger.order == old(ledger.order)
    ensures Opening(old(ledger.gamblingCooldowns), ledger.gamblingCooldowns, ledger.HasBalance(u, bet), u, now, err)
  {
    var cooldown := ledger.CheckGamblingCooldown(u, now);
    if cooldown.OnCooldown? {
      return Some(CooldownWait(cooldown.remaining));
    }
    if !ledger.HasBalance(u, bet) {
      return Some(NotEnoughBread);
    }
    err := None;
  }

  /** The balance after taking the bet and adding the winnings. */
  function Settled(balance: int, bet: int, winnings: int): int {
    Clamped(Clamped(balance, -bet), winnings)
  }

  /** For a covered non-negative bet and non-negative winnings, the final
      balance is the old one minus the bet plus the winnings. */
  lemma SettledExact(balance: int, bet: int, winnings: int)
    requires 0 <= bet <= balance && winnings >= 0
    ensures Settled(balance, bet, winnings) == balance - bet + winnings
  {
  }

  /** `removeBalance(userId, bet)` followed, when the game pays (`paid`), by
      `addBalance(userId, winnings)`. Only the user's balance changes. */
  method Settle(ledger: Ledger, u: UserId, bet: int, winnings: int, paid: bool) returns (balance: int)
    requires ledger.Valid() && (paid || winnings == 0)
    modifies ledger
    ensures ledger.Valid() && ledger.gamblingCooldowns == old(ledger.gamblingCooldowns)
    ensures balance == Settled(old(ledger.GetUserData(u)).balance, bet, winnings)
    ensures balance == ledger.GetUserData(u).balance
    ensures ledger.users == old(ledger.users)[u := UserData(balance, old(ledger.GetUserData(u)).lastHourly)]
    ensures ledger.order == if u in old(ledger.users) then old(ledger.order) else old(ledger.order) + [u]
  {
    balance := ledger.RemoveBalance(u, bet);
    if paid {
      balance := ledger.AddBalance(u, winnings);
    }
  }

  /** `playSlots(userId, bet)` at time `now`, with one draw per reel. */
  method PlaySlots(ledger: Ledger, u: UserId, bet: int, now: int, r0: real, r1: real, r2: real)
    returns (res: Result<SlotsOutcome, GameError>)
    requires ledger.Valid() && IsDraw(r0) && IsDraw(r1) && IsDraw(r2)
    modifies ledger
    ensures ledger.Valid()
    ensures Opening(old(ledger.gamblingCooldowns), ledger.gamblingCooldowns, old(ledger.HasBalance(u, bet)), u, now, Refusal(res))
    ensures res.Err? ==> ledger.users == old(ledger.users) && ledger.order == old(ledger.order)
    ensures res.Ok? ==> var o := res.value;
              && o.result == SpinSlots(r0, r1, r2)
              && (o.winnings, o.multiplier) == SlotsPayout(o.result, bet)
              && o.isWin == (o.winnings > 0)
              && o.newBalance == Settled(old(ledger.GetUserData(u)).balance, bet, o.winnings)
              && ledger.GetUserData(u).balance == o.newBalance
              && ledger.users == old(ledger.users)[u := UserData(o.newBalance, old(ledger.GetUserData(u)).lastHourly)]
              && ledger.order == if u in old(ledger.users) then old(ledger.order) else old(ledger.order) + [u]
  {
    var err := Admit(ledger, u, bet, now);
    if err.Some? {
      return Err(err.value);
    }
    // The draw reads no ledger state, so it may come before the bet is taken.
    var reels := SpinSlots(r0, r1, r2);
    var key := SpinKey(reels[0], reels[1], reels[2]);
    var winnings, multiplier, paid := 0, 0.0, false;
    if key in SLOTS_MULTIPLIERS {
      multiplier := SLOTS_MULTIPLIERS[key] as real;
      winnings := bet * SLOTS_MULTIPLIERS[key];
      paid := true;
    } else if reels[0] == reels[1] || reels[1] == reels[2] || reels[0] == reels[2] {
      multiplier := 1.5;
      winnings := (bet * 3) / 2;
      paid := true;
    }
    var balance := Settle(ledger, u, bet, winnings, paid);
    res := Ok(SlotsOutcome(reels, winnings, multiplier, balance, winnings > 0));
  }

  // ------------------------------------------------------------ roulette

  /** `ROULETTE_NUMBERS.red` and `ROULETTE_NUMBERS.black`. */
  const RED: seq<int> := [1, 3, 5, 7, 9, 12, 14, 16, 18, 19, 21, 23, 25, 27, 30, 32, 34, 36]
  const BLACK: seq<int> := [2, 4, 6, 8, 10, 11, 13, 15, 17, 20, 22, 24, 26, 28, 29, 31, 33, 35]

  lemma RedNotBlack(n: int)
    requires n in RED
    ensures n !in BLACK
  {
  }

  lemma OnWheel(n: int)
    requires n in RED || n in BLACK
    ensures 1 <= n <= 36
  {
  }

  lemma WheelCovered(n: int)
    requires 1 <= n <= 36
    ensures n in RED || n in BLACK
  {
  }

  /** The red and black lists are disjoint, hold 18 numbers each and, with
      the green 0, make up the whole wheel 0..36. */
  lemma WheelPartition()
    ensures |RED| == 18 && |BLACK| == 18
    ensures forall n :: n in RED ==> n !in BLACK
    ensures forall n :: n in RED || n in BLACK || n == 0 <==> 0 <= n <= 36
  {
    forall n | n in RED ensures n !in BLACK {
      RedNotBlack(n);
    }
    forall n ensures n in RED || n in BLACK || n == 0 <==> 0 <= n <= 36 {
      if n in RED || n in BLACK {
        OnWheel(n);
      } else if 1 <= n <= 36 {
        WheelCovered(n);
      }
    }
  }

  /** The spin `Math.floor(Math.random() * 37)`. */
  function SpinWheel(r: real): (n: nat)
    requires IsDraw(r)
    ensures n <= 36
  {
    ScaledIndex(r, 37)
  }

  /** The colour shown for a spin. */
  function Color(n: int): (c: string)
    ensures c == "red" <==> n in RED
    ensures c == "green" <==> n !in RED && n == 0
    ensures c == "black" <==> n !in RED && n != 0
  {
    if n in RED then "red" else if n == 0 then "green" else "black"
  }

  /** Whether a bet wins on `spin`, and its multiplier. An unknown bet type
      never wins. */
  function RouletteRule(betType: string, number: Option<int>, spin: int): (w: (bool, int))
  {
    if betType == "number" && number.Some? then (spin == number.value, 35)
    else if betType == "red" then (spin in RED, 2)
    else if betType == "black" then (spin in BLACK, 2)
    else if betType == "green" then (spin == 0, 14)
    else if betType == "odd" then (spin != 0 && spin % 2 == 1, 2)
    else if betType == "even" then (spin != 0 && spin % 2 == 0, 2)
    else (false, 0)
  }

  /** The winning rules: green only on 0, odd and even never on 0, red and
      black by their lists, a number only on itself, and nothing else ever. */
  lemma RouletteRules(betType: string, number: Option<int>, spin: int)
    requires 0 <= spin <= 36
    ensures betType == "green" ==> (RouletteRule(betType, number, spin).0 <==> spin == 0)
    ensures betType in {"odd", "even"} && spin == 0 ==> !RouletteRule(betType, number, spin).0
    ensures betType == "red" ==> (RouletteRule(betType, number, spin).0 <==> Color(spin) == "red")
    ensures betType == "black" ==> (RouletteRule(betType, number, spin).0 <==> Color(spin) == "black")
    ensures betType == "number" && number.Some? ==> (RouletteRule(betType, number, spin).0 <==> spin == number.value)
    ensures betType !in {"number", "red", "black", "green", "odd", "even"} ==> !RouletteRule(betType, number, spin).0
    ensures betType == "number" && number.None? ==> !RouletteRule(betType, number, spin).0
  {
    WheelPartition();
  }

  /** `playRoulette(userId, bet, betType, number)` at time `now`. */
  method PlayRoulette(ledger: Ledger, u: UserId, bet: int, betType: string, number: Option<int>, now: int, r: real)
    returns (res: Result<RouletteOutcome, GameError>)
    requires ledger.Valid() && IsDraw(r)
    modifies ledger
    ensures ledger.Valid()
    ensures Opening(old(ledger.gamblingCooldowns), ledger.gamblingCooldowns, old(ledger.HasBalance(u, bet)), u, now, Refusal(res))
    ensures res.Err? ==> ledger.users == old(ledger.users) && ledger.order == old(ledger.order)
    ensures res.Ok? ==> var o := res.value;
              && o.spinResult == SpinWheel(r)
              && o.color == Color(o.spinResult)
              && (o.isWin, o.multiplier) == RouletteRule(betType, number, o.spinResult)
              && o.winnings == (if o.isWin then bet * o.multiplier else 0)
              && o.newBalance == Settled(old(ledger.GetUserData(u)).balance, bet, o.winnings)
              && ledger.GetUserData(u).balance == o.newBalance
              && ledger.users == old(ledger.users)[u := UserData(o.newBalance, old(ledger.GetUserData(u)).lastHourly)]
              && ledger.order == if u in old(ledger.users) then old(ledger.order) else old(ledger.order) + [u]
  {
    var err := Admit(ledger, u, bet, now);
    if err.Some? {
      return Err(err.value);
    }
    var spin := SpinWheel(r);
    var (isWin, multiplier) := RouletteRule(betType, number, spin);
    var winnings := 0;
    if isWin {
      winnings := bet * multiplier;
    }
    var balance := Settle(ledger, u, bet, winnings, isWin);
    res := Ok(RouletteOutcome(spin, Color(spin), isWin, winnings, multiplier, balance));
  }

  // ------------------------------------------------------------ coinflip

  /** `Math.random() < 0.5 ? 'heads' : 'tails'`. */
  function Flip(r: real): (side: string)
    requires IsDraw(r)
    ensures side == "heads" <==> r < 0.5
    ensures side == "heads" || side == "tails"
  {
    if r < 0.5 then "heads" else "tails"
  }

  /** `playCoinflip(userId, bet, choice)` at time `now`. */
  method PlayCoinflip(ledger: Ledger, u: UserId, bet: int, choice: string, now: int, r: real)
    returns (res: Result<CoinflipOutcome, GameError>)
    requires ledger.Valid() && IsDraw(r)
    modifies ledger
    ensures ledger.Valid()
    ensures Opening(old(ledger.gamblingCooldowns), ledger.gamblingCooldowns, old(ledger.HasBalance(u, bet)), u, now, Refusal(res))
    ensures res.Err? ==> ledger.users == old(ledger.users) && ledger.order == old(ledger.order)
    ensures res.Ok? ==> var o := res.value;
              && o.result == Flip(r)
              && (o.isWin <==> o.result == choice)
              && o.winnings == (if o.isWin then bet * 2 else 0)
              && o.newBalance == Settled(old(ledger.GetUserData(u)).balance, bet, o.winnings)
              && ledger.GetUserData(u).balance == o.newBalance
              && ledger.users == old(ledger.users)[u := UserData(o.newBalance, old(ledger.GetUserData(u)).lastHourly)]
              && ledger.order == if u in old(ledger.users) then old(ledger.order) else old(ledger.order) + [u]
  {
    var err := Admit(ledger, u, bet, now);
    if err.Some? {
      return Err(err.value);
    }
    var result := Flip(r);
    var isWin := result == choice;
    var winnings := 0;
    if isWin {
      winnings := bet * 2;
    }
    var balance := Settle(ledger, u, bet, winnings, isWin);
    res := Ok(CoinflipOutcome(result, isWin, winnings, balance));
  }
}
