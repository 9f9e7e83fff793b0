/**
 * A player (push/game.py, class Player): the hand, dealing a turn's piles
 * from the deck, taking a pile, and the die rolls that discard a colour.
 */
module Players {
  import opened Cards
  import opened Hands
  import opened Piles
  import opened Dealing
  import opened Randomness
  import opened Decks

  /** How many cards `create_piles` takes when it draws n and the deck holds `size`. */
  function Taken(n: int, size: nat): (k: nat)
    ensures k <= size
    ensures n <= 0 ==> k == 0
    ensures 0 < n <= size ==> k == n
    ensures size < n ==> k == size
  {
    if n <= 0 then 0 else if n <= size then n else size
  }

  /** The value of every pile of a group, in pile order. */
  function Values(piles: seq<Pile>): (v: seq<int>)
    ensures |v| == |piles|
    ensures forall i :: 0 <= i < |piles| ==> v[i] == PileValue(piles[i])
  {
    if piles == [] then [] else [PileValue(piles[0])] + Values(piles[1..])
  }

  /** The pile `choose_pile` takes: the first of the lowest value. */
  function Lowest(piles: seq<Pile>): (k: nat)
    requires |piles| > 0
    ensures k < |piles|
    ensures forall j :: 0 <= j < |piles| ==> PileValue(piles[k]) <= PileValue(piles[j])
    ensures forall j :: 0 <= j < k ==> PileValue(piles[k]) < PileValue(piles[j])
  {
    ArgMin(Values(piles))
  }

  /**
   * The hand after taking a pile, card by card from the bottom: a roll card
   * rolls the die (the draw taken from the oracle at index `next`) and
   * discards the colour shown; any other card joins the hand.
   */
  function Received(hand: seq<Card>, pile: Pile, outcomes: nat -> nat, next: nat): seq<Card>
    decreases |pile|
  {
    if pile == [] then hand
    else if pile[0].Roll? then Received(Discarded(hand, DieFace(outcomes(next))), pile[1..], outcomes, next + 1)
    else Received(hand + [pile[0]], pile[1..], outcomes, next)
  }

  /** Without roll cards the pile is appended to the hand as it is. */
  lemma {:induction false} ReceivedNoRolls(hand: seq<Card>, pile: Pile, outcomes: nat -> nat, next: nat)
    requires Count(pile, Roll) == 0
    ensures Received(hand, pile, outcomes, next) == hand + pile
    decreases |pile|
  {
    if pile != [] {
      CountConcat([pile[0]], pile[1..], Roll);
      assert [pile[0]] + pile[1..] == pile;
      ReceivedNoRolls(hand + [pile[0]], pile[1..], outcomes, next);
      assert hand + [pile[0]] + pile[1..] == hand + pile;
    }
  }

  /** Taking a pile adds no card from elsewhere: every resulting card was in the hand or the pile. */
  lemma {:induction false} ReceivedFrom(hand: seq<Card>, pile: Pile, outcomes: nat -> nat, next: nat)
    ensures multiset(Received(hand, pile, outcomes, next)) <= multiset(hand) + multiset(pile)
    decreases |pile|
  {
    if pile != [] {
      assert pile == [pile[0]] + pile[1..];
      if pile[0].Roll? {
        var color := DieFace(outcomes(next));
        DiscardedShrinks(hand, color);
        ReceivedFrom(Discarded(hand, color), pile[1..], outcomes, next + 1);
      } else {
        ReceivedFrom(hand + [pile[0]], pile[1..], outcomes, next);
      }
    }
  }

  /** Roll cards never reach a hand: they are used up by rolling the die. */
  lemma {:induction false} ReceivedHasNoRoll(hand: seq<Card>, pile: Pile, outcomes: nat -> nat, next: nat)
    requires Roll !in hand
    ensures Roll !in Received(hand, pile, outcomes, next)
    decreases |pile|
  {
    if pile != [] {
      if pile[0].Roll? {
        var color := DieFace(outcomes(next));
        DiscardedShrinks(hand, color);
        assert multiset(hand)[Roll] == 0;
        ReceivedHasNoRoll(Discarded(hand, color), pile[1..], outcomes, next + 1);
      } else {
        ReceivedHasNoRoll(hand + [pile[0]], pile[1..], outcomes, next);
      }
    }
  }

  /**
   * Taking a pile in two parts: the second part is received by the hand the
   * first part leaves, with the draws the first part did not use.
   */
  lemma {:induction false} ReceivedConcat(hand: seq<Card>, a: Pile, b: Pile, outcomes: nat -> nat, next: nat)
    ensures Received(hand, a + b, outcomes, next)
      == Received(Received(hand, a, outcomes, next), b, outcomes, next + Count(a, Roll))
    decreases |a|
  {
    if a == [] {
      assert a + b == b;
    } else {
      assert (a + b)[0] == a[0] && (a + b)[1..] == a[1..] + b;
      assert [a[0]][..0] == [];
      CountConcat([a[0]], a[1..], Roll);
      assert [a[0]] + a[1..] == a;
      if a[0].Roll? {
        ReceivedConcat(Discarded(hand, DieFace(outcomes(next))), a[1..], b, outcomes, next + 1);
      } else {
        ReceivedConcat(hand + [a[0]], a[1..], b, outcomes, next);
      }
    }
  }

  /** The cards after a pile's last roll card end the hand, in pile order. */
  lemma ReceivedEndsWith(hand: seq<Card>, a: Pile, b: Pile, outcomes: nat -> nat, next: nat)
    requires Count(b, Roll) == 0
    ensures Received(hand, a + b, outcomes, next) == Received(hand, a, outcomes, next) + b
  {
    ReceivedConcat(hand, a, b, outcomes, next);
    ReceivedNoRolls(Received(hand, a, outcomes, next), b, outcomes, next + Count(a, Roll));
  }

  /** The cards of a pile other than its roll cards, in pile order. */
  function NonRoll(pile: Pile): seq<Card>
  {
    if pile == [] then [] else (if pile[0].Roll? then [] else [pile[0]]) + NonRoll(pile[1..])
  }

  /**
   * When every roll the pile causes shows black, which no card of the deck
   * has, the hand gains exactly the pile's other cards, in pile order.
   */
  lemma {:induction false} ReceivedAllBlack(hand: seq<Card>, pile: Pile, outcomes: nat -> nat, next: nat)
    requires forall i :: 0 <= i < |hand| ==> WellFormed(hand[i])
    requires forall i :: 0 <= i < |pile| ==> WellFormed(pile[i])
    requires forall k :: next <= k < next + Count(pile, Roll) ==> DieFace(outcomes(k)) == Black
    ensures Received(hand, pile, outcomes, next) == hand + NonRoll(pile)
    decreases |pile|
  {
    if pile != [] {
      var rest := pile[1..];
      assert [pile[0]][..0] == [];
      CountConcat([pile[0]], rest, Roll);
      assert [pile[0]] + rest == pile;
      assert forall i :: 0 <= i < |rest| ==> rest[i] == pile[i + 1];
      if pile[0].Roll? {
        assert DieFace(outcomes(next)) == Black;
        DiscardedNoMatch(hand, Black);
        ReceivedAllBlack(hand, rest, outcomes, next + 1);
      } else {
        var h := hand + [pile[0]];
        assert forall i :: 0 <= i < |h| ==> WellFormed(h[i]);
        ReceivedAllBlack(h, rest, outcomes, next);
        assert h + NonRoll(rest) == hand + NonRoll(pile);
      }
    }
  }

  /** The inner loop of `create_piles`: the card goes on the first pile that accepts it, if any. */
  method PlaceCard(piles: PileGroup, card: Card) returns (added: bool)
    modifies piles
    ensures added <==> FirstFit(old(piles.piles), card).Some?
    ensures piles.piles == if added then old(piles.piles)[FirstFit(old(piles.piles), card).value :=
      old(piles.piles)[FirstFit(old(piles.piles), card).value] + [card]] else old(piles.piles)
  {
    added := false;
    var p := 0;
    while p < |piles.piles|
      invariant p <= |piles.piles| && piles.piles == old(piles.piles)
      invariant forall j :: 0 <= j < p ==> !Accepts(piles.piles[j], card)
    {
      if piles.ValidAddition(p, card) {
        assert FirstFit(piles.piles, card) == Some(p);
        piles.AddCard(p, card);
        added := true;
        return;
      }
      p := p + 1;
    }
  }

  /** One pass of the dealing loop of `create_piles` for a card already dealt. */
  method DealCard(isReversed: bool, pushedTooFar: bool, piles: PileGroup, card: Card)
    returns (isReversed': bool, pushedTooFar': bool)
    modifies piles
    ensures Dealt(isReversed', pushedTooFar', piles.piles) == DealOne(Dealt(isReversed, pushedTooFar, old(piles.piles)), card)
  {
    isReversed', pushedTooFar' := isReversed, pushedTooFar;
    if card.Reverse? {
      isReversed' := !isReversed;
    } else {
      var added := PlaceCard(piles, card);
      if !added {
        pushedTooFar' := true;
      }
    }
  }

  /** The dealing loop of `create_piles`: up to `count` cards, fewer when the deck runs out. */
  method DealCards(deck: Deck, count: int) returns (isReversed: bool, pushedTooFar: bool, piles: PileGroup)
    modifies deck
    ensures fresh(piles)
    ensures var k := Taken(count, |old(deck.cards)|);
      deck.cards == old(deck.cards)[k..]
      && Dealt(isReversed, pushedTooFar, piles.piles) == DealAll(old(deck.cards)[..k])
  {
    isReversed, pushedTooFar := false, false;
    piles := new PileGroup();
    ghost var start := deck.cards;
    var t := 0;
    while t < count
      invariant 0 <= t <= |start| && (t == 0 || t <= count)
      invariant deck.cards == start[t..]
      invariant Dealt(isReversed, pushedTooFar, piles.piles) == DealAll(start[..t])
      modifies deck, piles
      decreases count - t
    {
      var next := deck.Deal();
      if next.None? {
        break;
      }
      var card := next.value;
      assert card == start[t] && deck.cards == start[t + 1..];
      isReversed, pushedTooFar := DealCard(isReversed, pushedTooFar, piles, card);
      DealAllPrefix(start, t);
      t := t + 1;
    }
  }

  class Player {
    const name: string
    const cardDrawLimit: int
    const cardMinDraw: int
    var cards: seq<Card>

    /** `Player(name, card_draw_limit, card_min_draw)`: an empty hand. */
    constructor(name: string := "", cardDrawLimit: int := 10, cardMinDraw: int := 5)
      ensures this.name == name && this.cardDrawLimit == cardDrawLimit && this.cardMinDraw == cardMinDraw
      ensures cards == []
    {
      this.name := name;
      this.cardDrawLimit := cardDrawLimit;
      this.cardMinDraw := cardMinDraw;
      cards := [];
    }

    /** `sum_cards`. */
    function SumCards(): int
      reads this
    {
      StandardSum(cards)
    }

    /** `num_cards`. */
    function NumCards(): nat
      reads this
    {
      StandardCount(cards)
    }

    /**
     * `create_piles`: draws how many cards to deal (Python raises when the
     * minimum exceeds the limit), then deals that many, or what the deck
     * still holds, into three fresh piles.
     */
    method CreatePiles(deck: Deck, rng: Random) returns (isReversed: bool, pushedTooFar: bool, piles: PileGroup)
      requires cardMinDraw <= cardDrawLimit
      modifies deck, rng
      ensures fresh(piles)
      ensures rng.calls == old(rng.calls) + 1
      ensures var k := Taken(IntBetween(rng.outcomes(old(rng.calls)), cardMinDraw, cardDrawLimit), |old(deck.cards)|);
        deck.cards == old(deck.cards)[k..]
        && Dealt(isReversed, pushedTooFar, piles.piles) == DealAll(old(deck.cards)[..k])
    {
      var count := rng.RandInt(cardMinDraw, cardDrawLimit);
      isReversed, pushedTooFar, piles := DealCards(deck, count);
    }

    /** `roll_die`: rolls the die and discards the colour it shows. */
    method RollDie(rng: Random)
      modifies this, rng
      ensures cards == Discarded(old(cards), DieFace(rng.outcomes(old(rng.calls))))
      ensures rng.calls == old(rng.calls) + 1
    {
      var color := Randomness.RollDie(rng);
      DiscardColor(color);
    }

    /**
     * `choose_pile`: takes the first pile of lowest value out of the group
     * and receives its cards.
     */
    method ChoosePile(group: PileGroup, rng: Random)
      requires |group.piles| > 0
      modifies this, group, rng
      ensures var k := Lowest(old(group.piles));
        group.piles == old(group.piles)[..k] + old(group.piles)[k + 1..]
        && cards == Received(old(cards), old(group.piles)[k], rng.outcomes, old(rng.calls))
        && rng.calls == old(rng.calls) + Count(old(group.piles)[k], Roll)
    {
      var values := group.PileValues();
      assert values == Values(group.piles);
      var k := ArgMin(values);
      assert k == Lowest(group.piles);
      var pile := group.RemovePile(k);
      ReceivePile(pile, rng);
    }

    /** The loop of `choose_pile` over the cards of the pile it took. */
    method ReceivePile(pile: Pile, rng: Random)
      modifies this, rng
      ensures cards == Received(old(cards), pile, rng.outcomes, old(rng.calls))
      ensures rng.calls == old(rng.calls) + Count(pile, Roll)
    {
      ghost var hand, next := cards, rng.calls;
      for i := 0 to |pile|
        modifies this, rng
        invariant Received(cards, pile[i..], rng.outcomes, rng.calls)
          == Received(hand, pile, rng.outcomes, next)
        invariant rng.calls == next + Count(pile[..i], Roll)
      {
        assert pile[i..][1..] == pile[i + 1..];
        assert pile[..i + 1][..i] == pile[..i];
        if pile[i].Roll? {
          RollDie(rng);
        } else {
          cards := cards + [pile[i]];
        }
      }
      assert pile[..|pile|] == pile;
    }

    /**
     * `discard_color` as written: the hand is enumerated while cards are
     * popped from it, so the card after each removed one is passed over.
     */
    method DiscardColor(color: Color)
      modifies this
      ensures cards == Discarded(old(cards), color)
    {
      var s := cards;
      ghost var goal := Discarded(s, color);
      var i := 0;
      while i < |s|
        invariant i <= |s| + 1
        invariant i <= |s| ==> s[..i] + Discarded(s[i..], color) == goal
        invariant i == |s| + 1 ==> s == goal
        decreases |s| + 1 - i
      {
        DiscardedAt(s, i, color);
        if Matches(s[i], color) {
          s := s[..i] + s[i + 1..];
        }
        i := i + 1;
      }
      if i == |s| {
        assert s[i..] == [] && s[..i] == s;
      }
      cards := s;
    }

    /** `bank_cards`: every card of the colour is marked banked. */
    method BankCards(color: Color)
      modifies this
      ensures cards == Banked(old(cards), color)
    {
      var s := cards;
      ghost var orig := s;
      for i := 0 to |s|
        invariant |s| == |orig|
        invariant s == Banked(orig[..i], color) + orig[i..]
      {
        var card := s[i];
        BankedStep(orig, i, color);
        if HasColor(card, color) {
          card := card.(banked := true);
        }
        s := s[i := card];
      }
      assert orig[..|s|] == orig;
      cards := s;
    }
  }
}
