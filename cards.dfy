/**
 * Cards of the Push game and the fixed 120-card sequence a fresh deck is
 * built from (push/game.py, class Card and Deck.__init__).
 */
module Cards {

  datatype Option<T> = None | Some(value: T)

  /** The five card colours, plus black, which only the die can show. */
  datatype Color = Red | Purple | Yellow | Blue | Green | Black

  /** Colours in the order the deck constructor iterates them. */
  const CardColors: seq<Color> := [Red, Purple, Yellow, Blue, Green]

  /**
   * A card. Only standard cards have a colour and a number; reverse and
   * roll cards carry neither (None in the source). Only a standard card can
   * ever be banked, since banking selects cards by colour.
   */
  datatype Card =
    | Standard(color: Color, number: int, banked: bool)
    | Reverse
    | Roll

  /** The card's `color` attribute: None for reverse and roll cards. */
  function ColorOf(c: Card): Option<Color>
  {
    if c.Standard? then Some(c.color) else None
  }

  /** The card's `number` attribute: None for reverse and roll cards. */
  function NumberOf(c: Card): Option<int>
  {
    if c.Standard? then Some(c.number) else None
  }

  /** A card the deck constructor can produce: any colour but black, a number from 0 to 5. */
  predicate WellFormed(c: Card)
  {
    c.Standard? ==> c.color != Black && 0 <= c.number <= 5
  }

  /** k copies of one card, as appended by a `for __ in range(k)` loop. */
  function Copies(c: Card, k: nat): (r: seq<Card>)
    ensures |r| == k
    ensures forall i :: 0 <= i < k ==> r[i] == c
  {
    if k == 0 then [] else Copies(c, k - 1) + [c]
  }

  /** The cards of one number in the given colours, three of each. */
  function NumberRun(number: int, colors: seq<Color>): (r: seq<Card>)
    ensures |r| == 3 * |colors|
  {
    if colors == [] then []
    else NumberRun(number, colors[..|colors| - 1]) + Copies(Standard(colors[|colors| - 1], number, false), 3)
  }

  /** The standard cards for numbers 0 .. n-1 in the given colours, in construction order. */
  function StandardRun(n: nat, colors: seq<Color>): seq<Card>
  {
    if n == 0 then [] else StandardRun(n - 1, colors) + NumberRun(n - 1, colors)
  }

  /** The deck before shuffling: 90 standard cards, then 12 reverse, then 18 roll. */
  function FreshDeck(): seq<Card>
  {
    StandardRun(6, CardColors) + Copies(Reverse, 12) + Copies(Roll, 18)
  }

  /** Number of occurrences of x in s. */
  function Count<T(==)>(s: seq<T>, x: T): nat
  {
    if s == [] then 0 else Count(s[..|s| - 1], x) + (if s[|s| - 1] == x then 1 else 0)
  }

  lemma {:induction false} CountConcat<T>(a: seq<T>, b: seq<T>, x: T)
    ensures Count(a + b, x) == Count(a, x) + Count(b, x)
  {
    if b != [] {
      assert (a + b)[..|a + b| - 1] == a + b[..|b| - 1];
      CountConcat(a, b[..|b| - 1], x);
    } else {
      assert a + b == a;
    }
  }

  /** Count agrees with the multiplicity in the sequence's multiset. */
  lemma {:induction false} CountIsMultiplicity<T>(s: seq<T>, x: T)
    ensures Count(s, x) == multiset(s)[x]
  {
    if s != [] {
      CountIsMultiplicity(s[..|s| - 1], x);
      assert s == s[..|s| - 1] + [s[|s| - 1]];
    }
  }

  lemma {:induction false} CopiesCount(c: Card, k: nat, x: Card)
    ensures Count(Copies(c, k), x) == if x == c then k else 0
  {
    if k > 0 {
      CopiesCount(c, k - 1, x);
      assert Copies(c, k)[..k - 1] == Copies(c, k - 1);
    }
  }

  lemma {:induction false} NumberRunCount(number: int, colors: seq<Color>, x: Card)
    ensures Count(NumberRun(number, colors), x) ==
      if x.Standard? && !x.banked && x.number == number then 3 * Count(colors, x.color) else 0
  {
    if colors != [] {
      var last := colors[|colors| - 1];
      var card := Standard(last, number, false);
      NumberRunCount(number, colors[..|colors| - 1], x);
      CopiesCount(card, 3, x);
      CountConcat(NumberRun(number, colors[..|colors| - 1]), Copies(card, 3), x);
      if x.Standard? && !x.banked && x.number == number && x.color == last {
        assert x == card;
      } else {
        assert x != card;
      }
    }
  }

  lemma {:induction false} StandardRunCount(n: nat, colors: seq<Color>, x: Card)
    ensures Count(StandardRun(n, colors), x) ==
      if x.Standard? && !x.banked && 0 <= x.number < n then 3 * Count(colors, x.color) else 0
  {
    if n > 0 {
      StandardRunCount(n - 1, colors, x);
      NumberRunCount(n - 1, colors, x);
      CountConcat(StandardRun(n - 1, colors), NumberRun(n - 1, colors), x);
    }
  }

  /** In a sequence without repetitions every element occurs once. */
  lemma {:induction false} CountDistinct<T>(s: seq<T>, x: T)
    requires forall i, j :: 0 <= i < j < |s| ==> s[i] != s[j]
    ensures Count(s, x) == if x in s then 1 else 0
  {
    if s != [] {
      var init := s[..|s| - 1];
      CountDistinct(init, x);
      assert s == init + [s[|s| - 1]];
      if x == s[|s| - 1] {
        assert x !in init;
      }
    }
  }

  lemma CardColorsCount(c: Color)
    ensures Count(CardColors, c) == if c == Black then 0 else 1
  {
    CountDistinct(CardColors, c);
  }

  lemma {:induction false} StandardRunLength(n: nat)
    ensures |StandardRun(n, CardColors)| == 15 * n
  {
    if n > 0 {
      StandardRunLength(n - 1);
    }
  }

  /** Occurrences of x among standard cards for numbers 0..n-1, reverse and roll copies. */
  lemma DeckCount(n: nat, reverses: nat, rolls: nat, x: Card)
    ensures Count(StandardRun(n, CardColors) + Copies(Reverse, reverses) + Copies(Roll, rolls), x) ==
      if x.Standard? then (if x.color != Black && !x.banked && 0 <= x.number < n then 3 else 0)
      else if x == Reverse then reverses else rolls
  {
    StandardRunCount(n, CardColors, x);
    CopiesCount(Reverse, reverses, x);
    CopiesCount(Roll, rolls, x);
    CountConcat(StandardRun(n, CardColors), Copies(Reverse, reverses), x);
    CountConcat(StandardRun(n, CardColors) + Copies(Reverse, reverses), Copies(Roll, rolls), x);
    if x.Standard? {
      CardColorsCount(x.color);
    }
  }

  /** A fresh deck has 120 cards. */
  lemma FreshDeckLength()
    ensures |FreshDeck()| == 120
  {
    StandardRunLength(6);
  }

  /**
   * How many copies of x a fresh deck holds: three of every well-formed
   * unbanked standard card, 12 reverse and 18 roll cards, and nothing else.
   */
  lemma FreshDeckCount(x: Card)
    ensures multiset(FreshDeck())[x] ==
      if x.Standard? then (if WellFormed(x) && !x.banked then 3 else 0)
      else if x == Reverse then 12 else 18
  {
    DeckCount(6, 12, 18, x);
    CountIsMultiplicity(FreshDeck(), x);
  }
}
