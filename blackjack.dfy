/** Blackjack against the bot: a shuffled 52-card deck, soft aces, a dealer
    who draws to 17, and one game per user kept in a map. */
module Blackjack {
  import opened Wrappers
  import opened Strings
  import opened Random

  type UserId = string

  datatype Suit = Spades | Hearts | Diamonds | Clubs
  datatype Rank = Ace | Two | Three | Four | Five | Six | Seven | Eight | Nine | Ten | Jack | Queen | King
  datatype Card = Card(rank: Rank, suit: Suit)

  const SUITS: seq<Suit> := [Spades, Hearts, Diamonds, Clubs]
  const RANKS: seq<Rank> := [Ace, Two, Three, Four, Five, Six, Seven, Eight, Nine, Ten, Jack, Queen, King]
  const BUTTON_PREFIX: string := "blackjack"

  // ------------------------------------------------------------ the deck

  function SuitIndex(s: Suit): (i: nat)
    ensures i < 4 && SUITS[i] == s
  {
    match s
    case Spades => 0
    case Hearts => 1
    case Diamonds => 2
    case Clubs => 3
  }

  function RankIndex(r: Rank): (i: nat)
    ensures i < 13 && RANKS[i] == r
  {
    match r
    case Ace => 0
    case Two => 1
    case Three => 2
    case Four => 3
    case Five => 4
    case Six => 5
    case Seven => 6
    case Eight => 7
    case Nine => 8
    case Ten => 9
    case Jack => 10
    case Queen => 11
    case King => 12
  }

  /** The card the nested suit/rank loops push at position `i`. */
  function OrderedCard(i: nat): Card
    requires i < 52
  {
    Card(RANKS[i % 13], SUITS[i / 13])
  }

  /** The deck before shuffling: suits in order, ranks in order within a suit. */
  const FULL_DECK: seq<Card> := seq(52, i requires 0 <= i < 52 => OrderedCard(i))

  lemma OrderedCardAt(si: nat, ri: nat)
    requires si < 4 && ri < 13
    ensures 13 * si + ri < 52 && OrderedCard(13 * si + ri) == Card(RANKS[ri], SUITS[si])
  {
    assert (13 * si + ri) / 13 == si && (13 * si + ri) % 13 == ri;
  }

  /** The unshuffled deck holds every one of the 52 (rank, suit) pairs exactly once. */
  lemma FullDeckIsEveryCardOnce()
    ensures |FULL_DECK| == 52
    ensures forall i, j :: 0 <= i < j < 52 ==> FULL_DECK[i] != FULL_DECK[j]
    ensures forall c: Card :: c in FULL_DECK
  {
    forall i, j | 0 <= i < j < 52 ensures FULL_DECK[i] != FULL_DECK[j] {
      assert i == 13 * (i / 13) + i % 13 && j == 13 * (j / 13) + j % 13;
      if i % 13 == j % 13 {
        assert SuitIndex(SUITS[i / 13]) == i / 13 && SuitIndex(SUITS[j / 13]) == j / 13;
      } else {
        assert RankIndex(RANKS[i % 13]) == i % 13 && RankIndex(RANKS[j % 13]) == j % 13;
      }
    }
    forall c: Card ensures c in FULL_DECK {
      var k := 13 * SuitIndex(c.suit) + RankIndex(c.rank);
      OrderedCardAt(SuitIndex(c.suit), RankIndex(c.rank));
      assert FULL_DECK[k] == c;
    }
  }

  /** `createDeck()`: the two loops push the cards in order, then the
      Fisher-Yates loop shuffles them with 51 draws. */
  method CreateDeck(draws: seq<real>) returns (deck: seq<Card>)
    requires |draws| >= 51 && AllDraws(draws)
    ensures |deck| == 52 && multiset(deck) == multiset(FULL_DECK)
  {
    var ordered: seq<Card> := [];
    for si := 0 to 4
      invariant |ordered| == 13 * si
      invariant forall k :: 0 <= k < |ordered| ==> ordered[k] == OrderedCard(k)
    {
      for ri := 0 to 13
        invariant |ordered| == 13 * si + ri
        invariant forall k :: 0 <= k < |ordered| ==> ordered[k] == OrderedCard(k)
      {
        OrderedCardAt(si, ri);
        ordered := ordered + [Card(RANKS[ri], SUITS[si])];
      }
    }
    assert ordered == FULL_DECK;
    var a := new Card[52](i requires 0 <= i < 52 reads {} => ordered[i]);
    assert a[..] == ordered;
    Shuffle(a, draws);
    deck := a[..];
  }

  // ------------------------------------------------------------ hand value

  /** A card's value with an ace counted as 11. */
  function Points(r: Rank): (p: nat)
    ensures 2 <= p <= 11
    ensures p == 11 <==> r == Ace
  {
    match r
    case Ace => 11
    case Two => 2
    case Three => 3
    case Four => 4
    case Five => 5
    case Six => 6
    case Seven => 7
    case Eight => 8
    case Nine => 9
    case Ten | Jack | Queen | King => 10
  }

  /** The total with every ace at 11. */
  function SoftTotal(cards: seq<Card>): nat
    decreases |cards|
  {
    if cards == [] then 0 else SoftTotal(cards[..|cards| - 1]) + Points(cards[|cards| - 1].rank)
  }

  function AceCount(cards: seq<Card>): nat
    decreases |cards|
  {
    if cards == [] then 0 else AceCount(cards[..|cards| - 1]) + (if cards[|cards| - 1].rank == Ace then 1 else 0)
  }

  /** The total with every ace at 1. */
  function HardTotal(cards: seq<Card>): int {
    SoftTotal(cards) - 10 * AceCount(cards)
  }

  /** Every card is worth at least 1 even with aces low. */
  lemma {:induction false} HardTotalAtLeastCount(cards: seq<Card>)
    ensures HardTotal(cards) >= |cards|
    ensures AceCount(cards) <= |cards|
    decreases |cards|
  {
    if cards != [] {
      HardTotalAtLeastCount(cards[..|cards| - 1]);
    }
  }

  /** The `while (total > 21 && aces > 0)` loop: turn aces from 11 into 1
      while the total is over 21. */
  function Soften(total: int, aces: nat): int
    decreases aces
  {
    if total > 21 && aces > 0 then Soften(total - 10, aces - 1) else total
  }

  lemma {:induction false} SoftenFacts(total: int, aces: nat)
    ensures total - 10 * aces <= Soften(total, aces) <= total
    ensures (total - Soften(total, aces)) % 10 == 0
    ensures Soften(total, aces) > 21 ==> Soften(total, aces) == total - 10 * aces
    ensures Soften(total, aces) < total ==> Soften(total, aces) + 10 > 21
    decreases aces
  {
    if total > 21 && aces > 0 {
      SoftenFacts(total - 10, aces - 1);
    }
  }

  /** `handValue(cards)`. */
  function Value(cards: seq<Card>): int {
    Soften(SoftTotal(cards), AceCount(cards))
  }

  /** The hand value is the soft total with just enough aces counted low:
      it lies between the hard and the soft total, it is over 21 only when
      every ace already counts 1, and when any ace was counted low, counting
      one more ace as 11 would bust. */
  lemma ValueFacts(cards: seq<Card>)
    ensures HardTotal(cards) <= Value(cards) <= SoftTotal(cards)
    ensures Value(cards) > 21 ==> Value(cards) == HardTotal(cards)
    ensures Value(cards) < SoftTotal(cards) ==> Value(cards) + 10 > 21
    ensures |cards| <= Value(cards)
  {
    SoftenFacts(SoftTotal(cards), AceCount(cards));
    HardTotalAtLeastCount(cards);
  }

  /** The loop of `handValue`. */
  method HandValue(cards: seq<Card>) returns (total: int)
    ensures total == Value(cards)
  {
    total := 0;
    var aces: nat := 0;
    for i := 0 to |cards|
      invariant total == SoftTotal(cards[..i]) && aces == AceCount(cards[..i])
    {
      assert cards[..i + 1][..i] == cards[..i];
      if cards[i].rank == Ace {
        aces := aces + 1;
        total := total + 11;
      } else if cards[i].rank in [King, Queen, Jack] {
        total := total + 10;
      } else {
        total := total + Points(cards[i].rank);
      }
    }
    assert cards[..|cards|] == cards;
    while total > 21 && aces > 0
      invariant Soften(total, aces) == Value(cards)
      decreases aces
    {
      total := total - 10;
      aces := aces - 1;
    }
  }

  // ------------------------------------------------------------ outcomes

  datatype Outcome = PlayerBusts | DealerBusts | PlayerWins | DealerWins | Push

  function ResultText(o: Outcome): string {
    match o
    case PlayerBusts => "Player busts. Dealer wins!"
    case DealerBusts => "Dealer busts. You win!"
    case PlayerWins => "You win!"
    case DealerWins => "Dealer wins!"
    case Push => "Push."
  }

  /** The outcome of `stand`, checked in order: a player bust first, then a
      dealer bust, then the higher total. */
  function Classify(playerTotal: int, dealerTotal: int): (o: Outcome)
    ensures o == PlayerBusts <==> playerTotal > 21
    ensures o == DealerBusts <==> playerTotal <= 21 && dealerTotal > 21
    ensures o == PlayerWins <==> playerTotal <= 21 && dealerTotal <= 21 && playerTotal > dealerTotal
    ensures o == DealerWins <==> playerTotal <= 21 && dealerTotal <= 21 && playerTotal < dealerTotal
    ensures o == Push <==> playerTotal <= 21 && dealerTotal <= 21 && playerTotal == dealerTotal
  {
    if playerTotal > 21 then PlayerBusts
    else if dealerTotal > 21 then DealerBusts
    else if playerTotal > dealerTotal then PlayerWins
    else if playerTotal < dealerTotal then DealerWins
    else Push
  }

  /** The player comes out ahead exactly when they did not bust and either
      the dealer busted or the player is higher; a double bust is the
      dealer's. */
  lemma PlayerAheadIff(p: int, d: int)
    ensures Classify(p, d) in {DealerBusts, PlayerWins} <==> p <= 21 && (d > 21 || p > d)
    ensures p > 21 && d > 21 ==> Classify(p, d) == PlayerBusts
  {
  }

  /** What the dealer's loop in `stand` draws: cards from the end of the
      deck until the hand is worth 17 or more. */
  function DealerPlay(deck: seq<Card>, hand: seq<Card>): (r: (seq<Card>, seq<Card>))
    ensures multiset(r.0) + multiset(r.1) == multiset(deck) + multiset(hand)
    ensures |r.0| + |r.1| == |deck| + |hand|
    ensures |r.1| >= |hand| && r.1[..|hand|] == hand
    decreases |deck|
  {
    if Value(hand) >= 17 || deck == [] then (deck, hand)
    else
      var last := deck[|deck| - 1];
      assert deck == deck[..|deck| - 1] + [last];
      var r := DealerPlay(deck[..|deck| - 1], hand + [last]);
      assert r.1[..|hand|] == (r.1[..|hand| + 1])[..|hand|];
      r
  }

  /** A hand worth under 17 has at most 16 cards, so while deck and hand
      together hold 17 cards or more the deck never runs out before the
      dealer reaches 17. */
  lemma {:induction false} DealerReaches17(deck: seq<Card>, hand: seq<Card>)
    requires |deck| + |hand| >= 17
    ensures Value(DealerPlay(deck, hand).1) >= 17
    decreases |deck|
  {
    if Value(hand) < 17 {
      ValueFacts(hand);
      var last := deck[|deck| - 1];
      DealerReaches17(deck[..|deck| - 1], hand + [last]);
    }
  }

  // ------------------------------------------------------------ games

  /** The four cards dealt off the end and the 48 left make up the deck. */
  lemma DealSplits(d: seq<Card>)
    requires |d| == 52
    ensures multiset(d[..48]) + multiset([d[51], d[50]]) + multiset([d[49], d[48]]) == multiset(d)
  {
    assert d == d[..48] + [d[48], d[49]] + [d[50], d[51]];
  }

  lemma Regroup(a: multiset<Card>, b: multiset<Card>, c: multiset<Card>, a0: multiset<Card>, c0: multiset<Card>, f: multiset<Card>)
    requires a0 + b + c0 == f && a + c == a0 + c0
    ensures a + b + c == f
  {
    assert a + b + c == (a + c) + b;
    assert a0 + b + c0 == (a0 + c0) + b;
  }

  /** One draw of the dealer's loop. */
  lemma DealerPlayStep(deck: seq<Card>, hand: seq<Card>)
    requires deck != [] && Value(hand) < 17
    ensures DealerPlay(deck, hand) == DealerPlay(deck[..|deck| - 1], hand + [deck[|deck| - 1]])
  {
  }

  /** The loop `while (handValue(game.dealer) < 17)` of `stand`, which pops
      the deck onto the dealer's hand. With at most 21 cards in the
      player's hand the deck never runs out. */
  method DealerDraws(deck: seq<Card>, dealer: seq<Card>, playerCount: nat) returns (d: seq<Card>, h: seq<Card>)
    requires |deck| + |dealer| + playerCount == 52 && playerCount <= 21
    ensures (d, h) == DealerPlay(deck, dealer)
    ensures Value(h) >= 17
  {
    DealerReaches17(deck, dealer);
    d, h := deck, dealer;
    var dealerTotal := HandValue(h);
    while dealerTotal < 17
      invariant |d| + |h| + playerCount == 52
      invariant dealerTotal == Value(h)
      invariant DealerPlay(d, h) == DealerPlay(deck, dealer)
      decreases |d|
    {
      ValueFacts(h);
      DealerPlayStep(d, h);
      h := h + [d[|d| - 1]];
      d := d[..|d| - 1];
      dealerTotal := HandValue(h);
    }
  }

  /** One user's game, updated in place by `hit` and `stand`. */
  class Game {
    var deck: seq<Card>
    var player: seq<Card>
    var dealer: seq<Card>
    var finished: bool
    var result: Option<Outcome>

    /** The cards of the three piles are exactly the 52 cards. */
    ghost predicate Conserved()
      reads this
    {
      && |deck| + |player| + |dealer| == 52
      && multiset(deck) + multiset(player) + multiset(dealer) == multiset(FULL_DECK)
    }

    ghost predicate Valid()
      reads this
    {
      && Conserved()
      && |player| >= 2 && |dealer| >= 2
      && (finished <==> result.Some?)
      && (!finished ==> |dealer| == 2 && (|player| == 2 || Value(player) < 21) && |deck| >= 30)
      && (finished ==> Value(dealer) >= 17 && result == Some(Classify(Value(player), Value(dealer))))
    }

    /** The game object of `startGame`: two cards each popped off the end
        of the shuffled deck, player first. */
    constructor Deal(shuffled: seq<Card>)
      requires |shuffled| == 52 && multiset(shuffled) == multiset(FULL_DECK)
      ensures Valid() && !finished && result == None
      ensures deck == shuffled[..48]
      ensures player == [shuffled[51], shuffled[50]] && dealer == [shuffled[49], shuffled[48]]
    {
      deck := shuffled[..48];
      player := [shuffled[51], shuffled[50]];
      dealer := [shuffled[49], shuffled[48]];
      finished := false;
      result := None;
      new;
      DealSplits(shuffled);
    }

    /** The body of `stand` once the game is known to be open: the dealer
        draws to 17 and the outcome is recorded. */
    method Finish()
      requires Conserved() && !finished && |player| >= 2 && |player| <= 21 && |dealer| == 2
      modifies this
      ensures Valid() && finished
      ensures (deck, dealer) == DealerPlay(old(deck), old(dealer))
      ensures player == old(player)
      ensures result == Some(Classify(Value(player), Value(dealer)))
    {
      var d, h := DealerDraws(deck, dealer, |player|);
      Regroup(multiset(d), multiset(player), multiset(h), multiset(deck), multiset(dealer), multiset(FULL_DECK));
      deck, dealer := d, h;
      var playerTotal := HandValue(player);
      var dealerTotal := HandValue(dealer);
      result := Some(Classify(playerTotal, dealerTotal));
      finished := true;
    }

    /** One `hit`: the player takes the last card of the deck, and a total
        of 21 or more stands automatically. */
    method Hit()
      requires Valid() && !finished
      modifies this
      ensures Valid()
      ensures |old(deck)| > 0
      ensures player == old(player) + [old(deck)[|old(deck)| - 1]]
      ensures Value(player) < 21 ==> !finished && deck == old(deck)[..|old(deck)| - 1] && dealer == old(dealer)
      ensures Value(player) >= 21 ==>
                finished && (deck, dealer) == DealerPlay(old(deck)[..|old(deck)| - 1], old(dealer))
    {
      ValueFacts(player);
      var card := deck[|deck| - 1];
      assert deck == deck[..|deck| - 1] + [card];
      deck := deck[..|deck| - 1];
      player := player + [card];
      ValueFacts(player);
      var total := HandValue(player);
      if total >= 21 {
        Finish();
      }
    }

    /** One `stand` on an open game. */
    method Stand()
      requires Valid() && !finished
      modifies this
      ensures Valid() && finished
      ensures (deck, dealer) == DealerPlay(old(deck), old(dealer))
      ensures player == old(player)
    {
      ValueFacts(player);
      Finish();
    }
  }

  /** `buildEmbedData(game)`. */
  datatype EmbedData = EmbedData(dealerHand: string, playerHand: string, dealerValue: Option<int>,
                                 playerValue: int, result: Option<Outcome>, finished: bool)

  function RankText(r: Rank): string {
    match r
    case Ace => "A"
    case Two => "2"
    case Three => "3"
    case Four => "4"
    case Five => "5"
    case Six => "6"
    case Seven => "7"
    case Eight => "8"
    case Nine => "9"
    case Ten => "10"
    case Jack => "J"
    case Queen => "Q"
    case King => "K"
  }

  function SuitText(s: Suit): string {
    match s
    case Spades => "♠"
    case Hearts => "♥"
    case Diamonds => "♦"
    case Clubs => "♣"
  }

  /** `formatCard(card)`. */
  function FormatCard(c: Card): string {
    RankText(c.rank) + SuitText(c.suit)
  }

  /** `cards.map(formatCard).join(' ')`. */
  function FormatCards(cards: seq<Card>): string {
    Join(seq(|cards|, i requires 0 <= i < |cards| => FormatCard(cards[i])), ' ')
  }

  /** `formatHand(cards, revealAll)`. */
  function FormatHand(cards: seq<Card>, revealAll: bool): string
    requires |cards| >= 1
  {
    if revealAll then FormatCards(cards) else FormatCard(cards[0]) + " ??"
  }

  /** A hidden hand shows its first card and nothing else: two hands with
      the same first card look the same. */
  lemma HiddenHandShowsFirstCard(a: seq<Card>, b: seq<Card>)
    requires |a| >= 1 && |b| >= 1 && a[0] == b[0]
    ensures FormatHand(a, false) == FormatHand(b, false)
  {
  }

  /** `buildEmbedData(game)`: until the game is over, the dealer's second
      card and total stay hidden. */
  function BuildEmbedData(g: Game): (e: EmbedData)
    reads g
    requires |g.dealer| >= 1
    ensures e.finished == g.finished && e.result == g.result
    ensures e.playerValue == Value(g.player) && e.playerHand == FormatCards(g.player)
    ensures !g.finished ==> e.dealerValue == None && e.dealerHand == FormatCard(g.dealer[0]) + " ??"
    ensures g.finished ==> e.dealerValue == Some(Value(g.dealer)) && e.dealerHand == FormatCards(g.dealer)
  {
    var revealDealer := g.finished;
    var dealerValue := if revealDealer then Some(Value(g.dealer)) else None;
    EmbedData(FormatHand(g.dealer, revealDealer), FormatCards(g.player), dealerValue, Value(g.player), g.result, g.finished)
  }

  datatype Button = Button(customId: string, caption: string)

  /** `blackjack:<action>:<userId>`. */
  function ButtonId(action: string, u: UserId): string {
    Join([BUTTON_PREFIX, action, u], ':')
  }

  /** `buildComponents(userId, finished)`: hit and stand while the game is
      open, nothing once it is finished. */
  function BuildComponents(u: UserId, finished: bool := false): (buttons: seq<Button>)
    ensures finished <==> buttons == []
    ensures !finished ==> buttons == [Button(ButtonId("hit", u), "Hit"), Button(ButtonId("stand", u), "Stand")]
  {
    if finished then [] else [Button(ButtonId("hit", u), "Hit"), Button(ButtonId("stand", u), "Stand")]
  }

  /** The button handler splits the id on `:` and gets the prefix, the
      action and the user back, for a user id without a colon. */
  lemma ButtonIdRoundTrip(action: string, u: UserId)
    requires ':' !in action && ':' !in u
    ensures Split(ButtonId(action, u), ':') == [BUTTON_PREFIX, action, u]
  {
    var parts := [BUTTON_PREFIX, action, u];
    forall i | 0 <= i < |parts| ensures ':' !in parts[i] {
      if i == 0 {
        assert forall k :: 0 <= k < |BUTTON_PREFIX| ==> BUTTON_PREFIX[k] != ':';
      }
    }
    SplitJoin(parts, ':');
  }

  /** The `games` map from user to game. */
  class Table {
    var games: map<UserId, Game>

    ghost predicate Valid()
      reads this, games.Values
    {
      forall u :: u in games ==> games[u].Valid()
    }

    constructor ()
      ensures games == map[] && Valid()
    {
      games := map[];
    }

    /** `startGame(userId)`: a fresh game replaces any earlier one. */
    method StartGame(u: UserId, draws: seq<real>) returns (g: Game)
      requires Valid() && |draws| >= 51 && AllDraws(draws)
      modifies this
      ensures Valid() && fresh(g)
      ensures games == old(games)[u := g]
      ensures !g.finished && g.result == None && |g.deck| == 48 && |g.player| == 2 && |g.dealer| == 2
    {
      var deck := CreateDeck(draws);
      g := new Game.Deal(deck);
      games := games[u := g];
    }

    /** `getGame(userId)`. */
    function GetGame(u: UserId): (g: Option<Game>)
      reads this
      ensures g.Some? <==> u in games
      ensures g.Some? ==> g.value == games[u]
    {
      if u in games then Some(games[u]) else None
    }

    /** `hit(userId)`: nothing, and no change, for a missing or finished
        game; otherwise the open game takes one hit. */
    method Hit(u: UserId) returns (g: Option<Game>)
      requires Valid()
      modifies if u in games && !games[u].finished then {games[u]} else {}
      ensures Valid() && games == old(games)
      ensures (u !in games || old(games[u].finished)) ==> g == None
      ensures u in games && old(games[u].finished) ==> unchanged(games[u])
      ensures u in games && !old(games[u].finished) ==>
                var game := games[u];
                var d0 := old(game.deck);
                && g == Some(game) && |d0| > 0
                && game.player == old(game.player) + [d0[|d0| - 1]]
                && (Value(game.player) < 21 ==> !game.finished && game.deck == d0[..|d0| - 1] && game.dealer == old(game.dealer))
                && (Value(game.player) >= 21 ==>
                      game.finished && (game.deck, game.dealer) == DealerPlay(d0[..|d0| - 1], old(game.dealer)))
    {
      if u !in games || games[u].finished {
        return None;
      }
      var game := games[u];
      game.Hit();
      g := Some(game);
    }

    /** `stand(userId)`: nothing, and no change, for a missing or finished
        game; otherwise the dealer plays out the open game. */
    method Stand(u: UserId) returns (g: Option<Game>)
      requires Valid()
      modifies if u in games && !games[u].finished then {games[u]} else {}
      ensures Valid() && games == old(games)
      ensures (u !in games || old(games[u].finished)) ==> g == None
      ensures u in games && old(games[u].finished) ==> unchanged(games[u])
      ensures u in games && !old(games[u].finished) ==>
                var game := games[u];
                && g == Some(game) && game.finished && game.player == old(game.player)
                && (game.deck, game.dealer) == DealerPlay(old(game.deck), old(game.dealer))
    {
      if u !in games || games[u].finished {
        return None;
      }
      var game := games[u];
      game.Stand();
      g := Some(game);
    }

    /** `endGame(userId)`. */
    method EndGame(u: UserId)
      requires Valid()
      modifies this
      ensures Valid() && games == old(games) - {u}
    {
      games := games - {u};
    }
  }
}
