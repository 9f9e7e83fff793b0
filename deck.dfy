/**
 * The deck (push/game.py, class Deck): built in a fixed order, shuffled in
 * place, dealt from the front.
 */
module Decks {
  import opened Cards
  import opened Randomness

  /** The sequence with the elements at i and j exchanged. */
  function Swap<T>(s: seq<T>, i: nat, j: nat): (r: seq<T>)
    requires i < |s| && j < |s|
    ensures |r| == |s|
  {
    s[i := s[j]][j := s[i]]
  }

  lemma SwapPreserves<T>(s: seq<T>, i: nat, j: nat)
    requires i < |s| && j < |s|
    ensures multiset(Swap(s, i, j)) == multiset(s)
  {
  }

  /**
   * The passes of `random.shuffle` still to run: positions i, i-1, ..., 1
   * in turn are exchanged with a position drawn below position + 1, the
   * draws taken from the oracle starting at index `next`.
   */
  function ShuffleFrom<T>(s: seq<T>, i: nat, outcomes: nat -> nat, next: nat): seq<T>
    requires i < |s|
    decreases i
  {
    if i == 0 then s
    else ShuffleFrom(Swap(s, i, Below(outcomes(next), i + 1)), i - 1, outcomes, next + 1)
  }

  /** `random.shuffle(s)` with the draws starting at oracle index `start`. */
  function Shuffled<T>(s: seq<T>, outcomes: nat -> nat, start: nat): seq<T>
  {
    if |s| <= 1 then s else ShuffleFrom(s, |s| - 1, outcomes, start)
  }

  /** The number of draws `random.shuffle` makes on n elements. */
  function ShuffleDraws(n: nat): nat
  {
    if n <= 1 then 0 else n - 1
  }

  lemma {:induction false} ShuffleFromPreserves<T>(s: seq<T>, i: nat, outcomes: nat -> nat, next: nat)
    requires i < |s|
    ensures |ShuffleFrom(s, i, outcomes, next)| == |s|
    ensures multiset(ShuffleFrom(s, i, outcomes, next)) == multiset(s)
    decreases i
  {
    if i > 0 {
      var j := Below(outcomes(next), i + 1);
      SwapPreserves(s, i, j);
      ShuffleFromPreserves(Swap(s, i, j), i - 1, outcomes, next + 1);
    }
  }

  /** Shuffling only reorders: same length, same cards with the same multiplicities. */
  lemma ShuffledIsPermutation<T>(s: seq<T>, outcomes: nat -> nat, start: nat)
    ensures |Shuffled(s, outcomes, start)| == |s|
    ensures multiset(Shuffled(s, outcomes, start)) == multiset(s)
  {
    if |s| > 1 {
      ShuffleFromPreserves(s, |s| - 1, outcomes, start);
    }
  }

  /**
   * Whatever the draws, a new deck holds 120 cards: three unbanked copies of
   * every (colour, number 0..5) card, 12 reverse and 18 roll cards.
   */
  lemma ShuffledDeckCount(outcomes: nat -> nat, start: nat, x: Card)
    ensures |Shuffled(FreshDeck(), outcomes, start)| == 120
    ensures multiset(Shuffled(FreshDeck(), outcomes, start))[x] ==
      if x.Standard? then (if WellFormed(x) && !x.banked then 3 else 0)
      else if x == Reverse then 12 else 18
  {
    ShuffledIsPermutation(FreshDeck(), outcomes, start);
    FreshDeckLength();
    FreshDeckCount(x);
  }

  class Deck {
    var cards: seq<Card>

    /** `Deck()`: the cards in construction order, then shuffled. */
    constructor(rng: Random)
      modifies rng
      ensures cards == Shuffled(FreshDeck(), rng.outcomes, old(rng.calls))
      ensures rng.calls == old(rng.calls) + 119
    {
      var built: seq<Card> := [];
      var colors := CardColors;
      for number := 0 to 6
        invariant built == StandardRun(number, colors)
      {
        ghost var lower := built;
        for ci := 0 to |colors|
          invariant built == lower + NumberRun(number, colors[..ci])
        {
          var card := Standard(colors[ci], number, false);
          ghost var before := built;
          for copy := 0 to 3
            invariant built == before + Copies(card, copy)
          {
            built := built + [card];
          }
          assert colors[..ci + 1][..ci] == colors[..ci];
        }
        assert colors[..|colors|] == colors;
      }
      ghost var standard := built;
      for k := 0 to 12
        invariant built == standard + Copies(Reverse, k)
      {
        built := built + [Reverse];
      }
      ghost var withReverse := built;
      for k := 0 to 18
        invariant built == withReverse + Copies(Roll, k)
      {
        built := built + [Roll];
      }
      assert built == FreshDeck();
      cards := built;
      new;
      Shuffle(rng);
    }

    /** `shuffle`: CPython's in-place exchange passes from the last position down. */
    method Shuffle(rng: Random)
      modifies this, rng
      ensures cards == Shuffled(old(cards), rng.outcomes, old(rng.calls))
      ensures rng.calls == old(rng.calls) + ShuffleDraws(|old(cards)|)
    {
      if |cards| <= 1 {
        return;
      }
      var s := cards;
      var i: nat := |s| - 1;
      while i > 0
        invariant i < |s| == |old(cards)|
        invariant ShuffleFrom(s, i, rng.outcomes, rng.calls) == Shuffled(old(cards), rng.outcomes, old(rng.calls))
        invariant rng.calls == old(rng.calls) + (|s| - 1 - i)
      {
        var j := rng.RandBelow(i + 1);
        s := Swap(s, i, j);
        i := i - 1;
      }
      cards := s;
    }

    /** `deal`: removes and returns the front card; None where Python raises IndexError. */
    method Deal() returns (c: Option<Card>)
      modifies this
      ensures c.None? <==> old(cards) == []
      ensures old(cards) == if c.Some? then [c.value] + cards else cards
    {
      if cards == [] {
        c := None;
      } else {
        c := Some(cards[0]);
        cards := cards[1..];
      }
    }

    /** `is_empty`. */
    predicate IsEmpty()
      reads this
    {
      |cards| == 0
    }
  }
}
