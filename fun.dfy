/** The small party games: rock-paper-scissors against the bot, the magic
    8 ball and dice rolls in `NdM` notation. */
module Fun {
  import opened Wrappers
  import opened Strings
  import opened Random

  // ------------------------------------------------------------ rock-paper-scissors

  datatype Choice = Rock | Paper | Scissors

  const RPS_CHOICES: seq<Choice> := [Rock, Paper, Scissors]

  /** `RPS_WINS[c]`: the choice that `c` beats. */
  function Beats(c: Choice): Choice {
    match c
    case Rock => Scissors
    case Paper => Rock
    case Scissors => Paper
  }

  /** `RPS_WINS` is a 3-cycle: no choice beats itself, and going round three
      times comes back. */
  lemma BeatsIsThreeCycle(c: Choice)
    ensures Beats(c) != c
    ensures Beats(Beats(c)) != c
    ensures Beats(Beats(Beats(c))) == c
  {
  }

  /** Of two different choices exactly one beats the other. */
  lemma ExactlyOneWins(a: Choice, b: Choice)
    requires a != b
    ensures (Beats(a) == b) != (Beats(b) == a)
  {
  }

  datatype RpsResult = Draw | Win | Lose

  datatype RpsRound = RpsRound(playerChoice: Choice, botChoice: Choice, result: RpsResult)

  /** The result of a round from the player's side. */
  function Judge(player: Choice, bot: Choice): (r: RpsResult)
    ensures r == Draw <==> player == bot
    ensures r == Win <==> player != bot && Beats(player) == bot
    ensures r == Lose <==> player != bot && Beats(player) != bot
  {
    if player == bot then Draw
    else if Beats(player) == bot then Win
    else Lose
  }

  /** Swapping sides swaps a win and a loss. */
  lemma JudgeSymmetric(a: Choice, b: Choice)
    ensures Judge(a, b) == Win <==> Judge(b, a) == Lose
    ensures Judge(a, b) == Draw <==> Judge(b, a) == Draw
  {
  }

  /** `playRPS(playerChoice)`, with `r` the draw that picks the bot's choice. */
  function PlayRPS(playerChoice: Choice, r: real): (round: RpsRound)
    requires IsDraw(r)
    ensures round.playerChoice == playerChoice && round.botChoice in RPS_CHOICES
    ensures round.result == Judge(playerChoice, round.botChoice)
  {
    var bot := RPS_CHOICES[ScaledIndex(r, |RPS_CHOICES|)];
    RpsRound(playerChoice, bot, Judge(playerChoice, bot))
  }

  // ------------------------------------------------------------ magic 8 ball

  const MAGIC_8BALL_RESPONSES: seq<string> := [
    "Yes.",
    "Definitely yes.",
    "Without a doubt.",
    "For sure.",
    "You can count on it.",
    "Most likely.",
    "Looks good.",
    "Yes, in my opinion.",
    "Signs point to yes.",
    "Reply hazy, try again.",
    "Ask again later.",
    "Better not tell you now.",
    "Cannot predict now.",
    "Concentrate and ask again.",
    "Don't count on it.",
    "My reply is no.",
    "My sources say no.",
    "Outlook not so good.",
    "Very doubtful."
  ]

  /** `magic8Ball()`: always one of the listed answers. */
  function Magic8Ball(r: real): (answer: string)
    requires IsDraw(r)
    ensures answer in MAGIC_8BALL_RESPONSES
  {
    MAGIC_8BALL_RESPONSES[ScaledIndex(r, |MAGIC_8BALL_RESPONSES|)]
  }

  // ------------------------------------------------------------ dice

  const MAX_DICE: nat := 100
  const MAX_SIDES: nat := 1000

  /** The two digit groups of `^(\d+)d(\d+)$` on the lower-cased notation.
      Digits are never `d`, so the `d` of a match is the first one. */
  function MatchDice(notation: string): (m: Option<(string, string)>)
    ensures m.Some? ==> var (a, b) := m.value;
              |a| >= 1 && |b| >= 1 && AllDigits(a) && AllDigits(b) && Lower(notation) == a + "d" + b
  {
    var s := Lower(notation);
    match IndexOf(s, "d")
    case None => None
    case Some(k) =>
      if k >= 1 && k + 1 < |s| && AllDigits(s[..k]) && AllDigits(s[k + 1..]) then
        assert s == s[..k] + "d" + s[k + 1..];
        Some((s[..k], s[k + 1..]))
      else None
  }

  /** Every notation of the form digits, `d`, digits matches, in any case of
      the `d`, and gives back its two groups. */
  lemma MatchDiceAccepts(a: string, b: string, notation: string)
    requires |a| >= 1 && |b| >= 1 && AllDigits(a) && AllDigits(b)
    requires Lower(notation) == a + "d" + b
    ensures MatchDice(notation) == Some((a, b))
  {
    var s := Lower(notation);
    assert 'd' !in a by {
      forall i | 0 <= i < |a| ensures a[i] != 'd' {
        assert IsDigit(a[i]);
      }
    }
    assert s[..|a|] == a && s[|a|] == 'd' && s[|a| + 1..] == b;
    assert s[|a|..|a| + 1] == "d";
    forall k | 0 <= k < |a| ensures !StartsWith(s[k..], "d") {
      assert s[k..][0] == a[k];
    }
    IndexOfAt(s, "d", |a|);
  }

  /** `Math.min(n, cap)`. */
  function Min(n: nat, cap: nat): (m: nat)
    ensures m <= n && m <= cap && (m == n || m == cap)
  {
    if n < cap then n else cap
  }

  /** The count and the number of sides that `rollDice` accepts. */
  function DiceOf(notation: string): (d: Option<(nat, nat)>)
    ensures d.Some? ==> 1 <= d.value.0 <= MAX_DICE && 2 <= d.value.1 <= MAX_SIDES
    ensures d.Some? <==> MatchDice(notation).Some? && DigitsValue(MatchDice(notation).value.0) >= 1
                                                   && DigitsValue(MatchDice(notation).value.1) >= 2
  {
    match MatchDice(notation)
    case None => None
    case Some((a, b)) =>
      var count := Min(DigitsValue(a), MAX_DICE);
      var sides := Min(DigitsValue(b), MAX_SIDES);
      if count < 1 || sides < 2 then None else Some((count, sides))
  }

  /** The value of a dice group is clamped to the cap. */
  lemma DiceOfClamps(notation: string)
    requires DiceOf(notation).Some?
    ensures var (a, b) := MatchDice(notation).value;
            DiceOf(notation).value == (Min(DigitsValue(a), MAX_DICE), Min(DigitsValue(b), MAX_SIDES))
  {
  }

  datatype DiceRoll = DiceRoll(rolls: seq<int>, total: int, notation: string)

  function Sum(xs: seq<int>): int
    decreases |xs|
  {
    if xs == [] then 0 else Sum(xs[..|xs| - 1]) + xs[|xs| - 1]
  }

  /** `Math.floor(r * sides) + 1`. */
  function Roll(r: real, sides: nat): (face: int)
    requires IsDraw(r) && sides >= 1
    ensures 1 <= face <= sides
  {
    ScaledIndex(r, sides) + 1
  }

  /** The sum of `n` faces of an `m`-sided die lies between `n` and `n * m`. */
  lemma {:induction false} SumBounds(xs: seq<int>, sides: int)
    requires forall i :: 0 <= i < |xs| ==> 1 <= xs[i] <= sides
    ensures |xs| <= Sum(xs) <= |xs| * sides
    decreases |xs|
  {
    if xs != [] {
      SumBounds(xs[..|xs| - 1], sides);
    }
  }

  /** The roll loop: one face per die, each from the next draw. */
  method RollAll(count: nat, sides: nat, draws: seq<real>) returns (rolls: seq<int>)
    requires count <= |draws| && AllDraws(draws) && sides >= 1
    ensures |rolls| == count
    ensures forall k :: 0 <= k < count ==> rolls[k] == Roll(draws[k], sides)
  {
    rolls := [];
    var i := 0;
    while i < count
      invariant 0 <= i <= count
      invariant |rolls| == i
      invariant forall k :: 0 <= k < i ==> rolls[k] == Roll(draws[k], sides)
    {
      rolls := rolls + [Roll(draws[i], sides)];
      i := i + 1;
    }
  }

  /** `rolls.reduce((a, b) => a + b, 0)`. */
  method Total(rolls: seq<int>) returns (total: int)
    ensures total == Sum(rolls)
  {
    total := 0;
    var j := 0;
    while j < |rolls|
      invariant 0 <= j <= |rolls|
      invariant total == Sum(rolls[..j])
    {
      assert rolls[..j + 1][..j] == rolls[..j];
      total := total + rolls[j];
      j := j + 1;
    }
    assert rolls[..j] == rolls;
  }

  /** `rollDice(notation)`: `draws` are the successive `Math.random()` values,
      enough for the largest count. */
  method RollDice(notation: string, draws: seq<real>) returns (r: Option<DiceRoll>)
    requires |draws| >= MAX_DICE && AllDraws(draws)
    ensures r.Some? <==> DiceOf(notation).Some?
    ensures r.Some? ==> var count := DiceOf(notation).value.0;
                        var sides := DiceOf(notation).value.1;
              && |r.value.rolls| == count
              && (forall i :: 0 <= i < count ==> r.value.rolls[i] == Roll(draws[i], sides))
              && r.value.total == Sum(r.value.rolls)
              && count <= r.value.total <= count * sides
              && r.value.notation == NatToString(count) + "d" + NatToString(sides)
  {
    var dice := DiceOf(notation);
    if dice.None? {
      return None;
    }
    var count := dice.value.0;
    var sides := dice.value.1;
    var rolls := RollAll(count, sides, draws);
    var total := Total(rolls);
    SumBounds(rolls, sides);
    r := Some(DiceRoll(rolls, total, NatToString(count) + "d" + NatToString(sides)));
  }

  /** Digits around a `d` are already lower case. */
  lemma DigitsNotationIsLower(a: string, b: string)
    requires AllDigits(a) && AllDigits(b)
    ensures Lower(a + "d" + b) == a + "d" + b
  {
    var s := a + "d" + b;
    forall i | 0 <= i < |s| ensures LowerChar(s[i]) == s[i] {
      if i < |a| { assert s[i] == a[i]; } else if i > |a| { assert s[i] == b[i - |a| - 1]; }
    }
  }

  /** The dice of matched groups: the group values, clamped. */
  lemma DiceOfGroups(notation: string, a: string, b: string)
    requires MatchDice(notation) == Some((a, b))
    requires 1 <= DigitsValue(a) <= MAX_DICE && 2 <= DigitsValue(b) <= MAX_SIDES
    ensures DiceOf(notation) == Some((DigitsValue(a), DigitsValue(b)))
  {
  }

  /** The rebuilt notation is accepted again and describes the same dice. */
  lemma RolledNotationRoundTrip(count: nat, sides: nat)
    requires 1 <= count <= MAX_DICE && 2 <= sides <= MAX_SIDES
    ensures DiceOf(NatToString(count) + "d" + NatToString(sides)) == Some((count, sides))
  {
    var a := NatToString(count);
    var b := NatToString(sides);
    DigitsNotationIsLower(a, b);
    MatchDiceAccepts(a, b, a + "d" + b);
    NatToStringValue(count);
    NatToStringValue(sides);
    DiceOfGroups(a + "d" + b, a, b);
  }
}
