/**
 * What one turn's dealing produces (push/game.py, Player.create_piles):
 * the cards are taken in order; a reverse card toggles the reversal flag,
 * any other card goes on the first pile that accepts it, or nowhere (and
 * the player has pushed too far).
 */
module Dealing {
  import opened Cards
  import opened Piles

  /** The three results of `create_piles`. */
  datatype Dealt = Dealt(isReversed: bool, pushedTooFar: bool, piles: seq<Pile>)

  /** Before the first card: no flag set, three empty piles. */
  const Start: Dealt := Dealt(false, false, [[], [], []])

  /** The first pile, in order, that accepts the card; None when none does. */
  function FirstFit(piles: seq<Pile>, card: Card): (r: Option<nat>)
    ensures r.Some? ==> r.value < |piles| && Accepts(piles[r.value], card)
    ensures r.Some? ==> forall j :: 0 <= j < r.value ==> !Accepts(piles[j], card)
    ensures r.None? ==> forall j :: 0 <= j < |piles| ==> !Accepts(piles[j], card)
  {
    if piles == [] then None
    else if Accepts(piles[0], card) then Some(0)
    else match FirstFit(piles[1..], card)
      case None => None
      case Some(k) => Some(k + 1)
  }

  /** One pass of the dealing loop body. */
  function DealOne(d: Dealt, card: Card): Dealt
  {
    if card.Reverse? then d.(isReversed := !d.isReversed)
    else match FirstFit(d.piles, card)
      case None => d.(pushedTooFar := true)
      case Some(i) => d.(piles := d.piles[i := d.piles[i] + [card]])
  }

  /** The result of dealing the given cards, in order, from the start. */
  function DealAll(cards: seq<Card>): (d: Dealt)
    ensures |d.piles| == 3
  {
    if cards == [] then Start else DealOne(DealAll(cards[..|cards| - 1]), cards[|cards| - 1])
  }

  /** Dealing one more card of the deck is one more pass of the loop. */
  lemma DealAllPrefix(cards: seq<Card>, t: nat)
    requires t < |cards|
    ensures DealAll(cards[..t + 1]) == DealOne(DealAll(cards[..t]), cards[t])
  {
    assert cards[..t + 1][..t] == cards[..t];
  }

  /** Whether a non-reverse card finds a pile after the cards before it. */
  predicate Fits(before: seq<Card>, card: Card)
  {
    FirstFit(DealAll(before).piles, card).Some?
  }

  /** The dealt cards that went on a pile, in dealing order. */
  function Placed(cards: seq<Card>): seq<Card>
  {
    if cards == [] then []
    else
      var before, card := cards[..|cards| - 1], cards[|cards| - 1];
      Placed(before) + (if !card.Reverse? && Fits(before, card) then [card] else [])
  }

  /** The dealt cards that fitted nowhere (pushed too far), in dealing order. */
  function Dropped(cards: seq<Card>): seq<Card>
  {
    if cards == [] then []
    else
      var before, card := cards[..|cards| - 1], cards[|cards| - 1];
      Dropped(before) + (if !card.Reverse? && !Fits(before, card) then [card] else [])
  }

  /** All cards of all piles, pile after pile. */
  function Flatten(piles: seq<Pile>): seq<Card>
  {
    if piles == [] then [] else Flatten(piles[..|piles| - 1]) + piles[|piles| - 1]
  }

  /** Each of the three piles is well built. */
  lemma {:induction false} DealAllShape(cards: seq<Card>)
    ensures forall i :: 0 <= i < 3 ==> WellBuilt(DealAll(cards).piles[i])
  {
    if cards != [] {
      var d := DealAll(cards[..|cards| - 1]);
      var card := cards[|cards| - 1];
      DealAllShape(cards[..|cards| - 1]);
      if !card.Reverse? {
        var f := FirstFit(d.piles, card);
        if f.Some? {
          AddKeepsWellBuilt(d.piles[f.value], card);
        }
      }
    }
  }

  /** `is_reversed` is set exactly when an odd number of reverse cards were dealt. */
  lemma {:induction false} DealAllReversed(cards: seq<Card>)
    ensures DealAll(cards).isReversed <==> Count(cards, Reverse) % 2 == 1
  {
    if cards != [] {
      DealAllReversed(cards[..|cards| - 1]);
    }
  }

  /** `pushed_too_far` is set exactly when some dealt non-reverse card fitted no pile. */
  lemma {:induction false} DealAllPushed(cards: seq<Card>)
    ensures DealAll(cards).pushedTooFar <==> Dropped(cards) != []
  {
    if cards != [] {
      DealAllPushed(cards[..|cards| - 1]);
    }
  }

  /** A dropped card is a dealt non-reverse card that fitted no pile when its turn came. */
  lemma {:induction false} DroppedMeans(cards: seq<Card>, x: Card)
    ensures x in Dropped(cards) <==>
      exists i :: 0 <= i < |cards| && cards[i] == x && !x.Reverse? && !Fits(cards[..i], x)
  {
    if cards != [] {
      var n := |cards| - 1;
      var before := cards[..n];
      DroppedMeans(before, x);
      if exists i :: 0 <= i < |cards| && cards[i] == x && !x.Reverse? && !Fits(cards[..i], x) {
        var i :| 0 <= i < |cards| && cards[i] == x && !x.Reverse? && !Fits(cards[..i], x);
        if i < n {
          assert before[..i] == cards[..i] && before[i] == x;
        } else {
          assert cards[..i] == before;
        }
      }
      if x in Dropped(before) {
        var i :| 0 <= i < n && before[i] == x && !x.Reverse? && !Fits(before[..i], x);
        assert cards[..i] == before[..i] && cards[i] == x;
      }
    }
  }

  /** The dealt cards other than reverse cards, in dealing order. */
  function NonReverse(cards: seq<Card>): seq<Card>
  {
    if cards == [] then []
    else NonReverse(cards[..|cards| - 1]) + (if cards[|cards| - 1].Reverse? then [] else [cards[|cards| - 1]])
  }

  /** Every non-reverse card dealt is either placed or dropped, never both, never lost. */
  lemma {:induction false} PlacedOrDropped(cards: seq<Card>)
    ensures multiset(Placed(cards)) + multiset(Dropped(cards)) == multiset(NonReverse(cards))
  {
    if cards != [] {
      PlacedOrDropped(cards[..|cards| - 1]);
    }
  }

  /** The piles hold, with multiplicity, exactly the dealt cards that fitted. */
  lemma {:induction false} PilesHoldPlaced(cards: seq<Card>)
    ensures multiset(Flatten(DealAll(cards).piles)) == multiset(Placed(cards))
  {
    if cards != [] {
      var before, card := cards[..|cards| - 1], cards[|cards| - 1];
      PilesHoldPlaced(before);
      var d := DealAll(before);
      assert DealAll(cards) == DealOne(d, card);
      if !card.Reverse? {
        var f := FirstFit(d.piles, card);
        if f.Some? {
          FlattenUpdate(d.piles, f.value, card);
          assert Placed(cards) == Placed(before) + [card];
        } else {
          assert Placed(cards) == Placed(before);
        }
      } else {
        assert Placed(cards) == Placed(before);
      }
    } else {
      FlattenStart();
    }
  }

  /** The three empty piles of the start hold no card. */
  lemma FlattenStart()
    ensures Flatten(Start.piles) == []
  {
    var e: Pile := [];
    assert [e][..0] == [];
    assert Flatten([e]) == [];
    assert [e, e][..1] == [e];
    assert Flatten([e, e]) == [];
    assert [e, e, e][..2] == [e, e];
    assert Flatten([e, e, e]) == [];
    assert Start.piles == [e, e, e];
  }

  /** Putting a card on one pile adds exactly that card to the flattened piles. */
  lemma {:induction false} FlattenUpdate(piles: seq<Pile>, i: nat, card: Card)
    requires i < |piles|
    ensures multiset(Flatten(piles[i := piles[i] + [card]])) == multiset(Flatten(piles)) + multiset{card}
  {
    var n := |piles| - 1;
    var updated := piles[i := piles[i] + [card]];
    assert updated[..n] == if i < n then piles[..n][i := piles[i] + [card]] else piles[..n];
    if i < n {
      FlattenUpdate(piles[..n], i, card);
    }
  }

  /** When nobody is pushed too far, every non-reverse card dealt is on a pile. */
  lemma NotPushedPlacesAll(cards: seq<Card>)
    requires !DealAll(cards).pushedTooFar
    ensures multiset(Flatten(DealAll(cards).piles)) == multiset(NonReverse(cards))
  {
    DealAllPushed(cards);
    PilesHoldPlaced(cards);
    PlacedOrDropped(cards);
  }

  /**
   * Dealing red 1, blue 2 and a reverse card: blue 2 joins red 1 on the
   * first pile, the reversal flag is set, nobody is pushed too far.
   */
  lemma DealExample()
    ensures DealAll([Standard(Red, 1, false), Standard(Blue, 2, false), Reverse]) ==
      Dealt(true, false, [[Standard(Red, 1, false), Standard(Blue, 2, false)], [], []])
  {
    var a, b := Standard(Red, 1, false), Standard(Blue, 2, false);
    var s := [a, b, Reverse];
    assert s[..2] == [a, b];
    assert [a, b][..1] == [a];
    assert [a][..0] == [];
    assert FirstFit(Start.piles, a) == Some(0);
    var e: Pile := [];
    assert Start.piles == [e, e, e];
    assert e + [a] == [a];
    assert [e, e, e][0 := e + [a]] == [[a], e, e];
    assert DealAll([a]) == DealOne(Start, a);
    assert DealAll([a]) == Dealt(false, false, [[a], [], []]);
    assert Accepts([a], b);
    assert FirstFit([[a], e, e], b) == Some(0);
    assert [a] + [b] == [a, b];
    assert [[a], e, e][0 := [a] + [b]] == [[a, b], e, e];
    assert DealAll([a, b]) == DealOne(DealAll([a]), b);
    assert DealAll([a, b]) == Dealt(false, false, [[a, b], e, e]);
    assert DealAll(s) == DealOne(DealAll([a, b]), Reverse);
  }

  /** A red 1 and a red 2 cannot share a pile: the second goes on the next pile. */
  lemma DealSameColorExample()
    ensures DealAll([Standard(Red, 1, false), Standard(Red, 2, false)]).piles ==
      [[Standard(Red, 1, false)], [Standard(Red, 2, false)], []]
  {
    var a, b := Standard(Red, 1, false), Standard(Red, 2, false);
    var s := [a, b];
    assert s[..1] == [a];
    assert [a][..0] == [];
    assert FirstFit(Start.piles, a) == Some(0);
    var e: Pile := [];
    assert Start.piles == [e, e, e];
    assert e + [a] == [a];
    assert [e, e, e][0 := e + [a]] == [[a], e, e];
    assert DealAll([a]) == DealOne(Start, a);
    assert DealAll([a]) == Dealt(false, false, [[a], [], []]);
    assert !Accepts([a], b);
    assert FirstFit([[a], e, e], b) == Some(1);
    assert e + [b] == [b];
    assert [[a], e, e][1 := e + [b]] == [[a], [b], e];
    assert DealAll(s) == DealOne(DealAll([a]), b);
  }
}
