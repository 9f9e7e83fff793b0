/**
 * The random sources of the game (Python's `random` module as used by
 * push/game.py). Randomness is an explicit oracle: the n-th value drawn is
 * `outcomes(n)`, so every run of the model is a deterministic function of
 * the oracle. Each primitive consumes one oracle value.
 */
module Randomness {
  import opened Cards

  /** The faces of the die, in the order roll_die lists them. */
  const DieColors: seq<Color> := [Red, Purple, Yellow, Blue, Green, Black]

  /** The value `randbelow(n)` returns when the oracle yields o: the remainder of o divided by n,
   * computed by repeated subtraction. */
  function Below(o: nat, n: nat): (r: nat)
    requires n > 0
    ensures r < n
    decreases o
  {
    if o < n then o else Below(o - n, n)
  }

  /** The value `randint(lo, hi)` returns when the oracle yields o. */
  function IntBetween(o: nat, lo: int, hi: int): (r: int)
    requires lo <= hi
    ensures lo <= r <= hi
  {
    lo + Below(o, hi - lo + 1)
  }

  /** The face the die shows when the oracle yields o. */
  function DieFace(o: nat): (c: Color)
    ensures c in DieColors
  {
    DieColors[Below(o, |DieColors|)]
  }

  /** Every face, black included, is shown for some oracle value. */
  lemma {:induction false} EveryFaceReachable(c: Color)
    ensures exists o: nat :: DieFace(o) == c
  {
    var k: nat := match c
      case Red => 0 case Purple => 1 case Yellow => 2
      case Blue => 3 case Green => 4 case Black => 5;
    assert DieFace(k) == c;
  }

  /** A source of random numbers: a fixed oracle and the number of draws so far. */
  class Random {
    const outcomes: nat -> nat
    var calls: nat

    constructor(outcomes: nat -> nat)
      ensures this.outcomes == outcomes && calls == 0
    {
      this.outcomes := outcomes;
      calls := 0;
    }

    /** `randbelow(n)`: a number in [0, n). */
    method RandBelow(n: nat) returns (r: nat)
      requires n > 0
      modifies this
      ensures r == Below(outcomes(old(calls)), n)
      ensures calls == old(calls) + 1
    {
      r := Below(outcomes(calls), n);
      calls := calls + 1;
    }

    /** `randint(lo, hi)`: a number in [lo, hi]; Python raises when lo > hi. */
    method RandInt(lo: int, hi: int) returns (r: int)
      requires lo <= hi
      modifies this
      ensures r == IntBetween(outcomes(old(calls)), lo, hi)
      ensures calls == old(calls) + 1
    {
      var k := RandBelow(hi - lo + 1);
      r := lo + k;
    }
  }

  /** Module-level `roll_die` (push/game.py): `random.choice` over the six faces. */
  method RollDie(rng: Random) returns (c: Color)
    modifies rng
    ensures c == DieFace(rng.outcomes(old(rng.calls)))
    ensures rng.calls == old(rng.calls) + 1
  {
    var k := rng.RandBelow(|DieColors|);
    c := DieColors[k];
  }
}
