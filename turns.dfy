/**
 * The seating order of a game (push/game.py, Game.play): an array of player
 * indices whose first entry is the player whose turn it is, rotated after
 * every turn and reversed by an odd number of reverse cards.
 */
module TurnOrder {

  /** `np.arange(n)`: 0, 1, ..., n - 1. */
  function Range(n: nat): (r: seq<nat>)
    ensures |r| == n
    ensures forall i :: 0 <= i < n ==> r[i] == i
  {
    if n == 0 then [] else Range(n - 1) + [n - 1]
  }

  /** n seats, each holding the index of one of n players. */
  predicate Seats(s: seq<nat>, n: nat)
  {
    |s| == n && forall i :: 0 <= i < |s| ==> s[i] < n
  }

  /** No index is seated twice. */
  predicate NoRepeats(s: seq<nat>)
  {
    forall i, j :: 0 <= i < j < |s| ==> s[i] != s[j]
  }

  /** A seating of n players: every index below n, none twice, so each exactly once. */
  predicate IsOrder(s: seq<nat>, n: nat)
  {
    Seats(s, n) && NoRepeats(s)
  }

  /** The seating at the start of the game is a seating. */
  lemma RangeIsOrder(n: nat)
    ensures IsOrder(Range(n), n)
  {
  }

  /** `np.roll(s, -1)`: every entry moves one place to the front, the first goes last. */
  function RotateLeft(s: seq<nat>): (r: seq<nat>)
    ensures |r| == |s|
  {
    if s == [] then [] else s[1..] + [s[0]]
  }

  /** Where each entry of a rotated sequence comes from. */
  lemma RotateLeftAt(s: seq<nat>, i: nat)
    requires i < |s|
    ensures RotateLeft(s)[i] == if i + 1 < |s| then s[i + 1] else s[0]
  {
  }

  /** `np.flip(s)`: the entries in reverse order. */
  function Flip(s: seq<nat>): (r: seq<nat>)
    ensures |r| == |s|
  {
    if s == [] then [] else [s[|s| - 1]] + Flip(s[..|s| - 1])
  }

  lemma {:induction false} FlipAt(s: seq<nat>, i: nat)
    requires i < |s|
    ensures Flip(s)[i] == s[|s| - 1 - i]
  {
    if i > 0 {
      FlipAt(s[..|s| - 1], i - 1);
    }
  }

  /** What play does when the turn's dealing is reversed: roll by one, then flip. */
  function Reversal(s: seq<nat>): (r: seq<nat>)
    ensures |r| == |s|
  {
    Flip(RotateLeft(s))
  }

  /**
   * Reversing keeps the current player first and seats everybody else in the
   * opposite order.
   */
  lemma ReversalAt(s: seq<nat>, i: nat)
    requires i < |s|
    ensures Reversal(s)[i] == if i == 0 then s[0] else s[|s| - i]
  {
    FlipAt(RotateLeft(s), i);
    RotateLeftAt(s, |s| - 1 - i);
  }

  /** Rotating keeps every seat holding a player. */
  lemma RotateLeftSeats(s: seq<nat>, n: nat)
    requires Seats(s, n)
    ensures Seats(RotateLeft(s), n)
  {
    var r := RotateLeft(s);
    forall i | 0 <= i < |r| ensures r[i] < n {
      RotateLeftAt(s, i);
    }
  }

  /** Rotating seats nobody twice. */
  lemma RotateLeftNoRepeats(s: seq<nat>)
    requires NoRepeats(s)
    ensures NoRepeats(RotateLeft(s))
  {
    var r := RotateLeft(s);
    forall i | 0 <= i < |r|
      ensures r[i] == if i + 1 < |s| then s[i + 1] else s[0]
    {
      RotateLeftAt(s, i);
    }
  }

  /** Reversing keeps every seat holding a player. */
  lemma ReversalSeats(s: seq<nat>, n: nat)
    requires Seats(s, n)
    ensures Seats(Reversal(s), n)
  {
    var r := Reversal(s);
    forall i | 0 <= i < |r| ensures r[i] < n {
      ReversalAt(s, i);
    }
  }

  /** Reversing seats nobody twice. */
  lemma ReversalNoRepeats(s: seq<nat>)
    requires NoRepeats(s)
    ensures NoRepeats(Reversal(s))
  {
    var r := Reversal(s);
    forall i | 0 <= i < |r|
      ensures r[i] == if i == 0 then s[0] else s[|s| - i]
    {
      ReversalAt(s, i);
    }
  }

  /** Rotating and reversing a seating give seatings. */
  lemma MovesKeepOrder(s: seq<nat>, n: nat)
    requires IsOrder(s, n)
    ensures IsOrder(RotateLeft(s), n) && IsOrder(Reversal(s), n)
  {
    RotateLeftSeats(s, n);
    RotateLeftNoRepeats(s);
    ReversalSeats(s, n);
    ReversalNoRepeats(s);
  }

  /**
   * Who takes a pile this turn: the (at most) three players from the dealer
   * on, or, when the dealer pushed too far, the three after the dealer.
   */
  function Targets(s: seq<nat>, pushedTooFar: bool): (t: seq<nat>)
    ensures |t| <= 3
  {
    if pushedTooFar then s[Min(1, |s|)..Min(4, |s|)] else s[..Min(3, |s|)]
  }

  function Min(a: nat, b: nat): nat
  {
    if a <= b then a else b
  }

  /** As many takers as the seats allow, each of them a player. */
  lemma TargetsSeats(s: seq<nat>, n: nat, pushedTooFar: bool)
    requires Seats(s, n) && n > 0
    ensures var t := Targets(s, pushedTooFar);
      |t| == (if pushedTooFar then Min(3, n - 1) else Min(3, n))
      && forall i :: 0 <= i < |t| ==> t[i] < n
  {
    var t := Targets(s, pushedTooFar);
    if pushedTooFar {
      assert forall i :: 0 <= i < |t| ==> t[i] == s[i + 1];
    } else {
      assert forall i :: 0 <= i < |t| ==> t[i] == s[i];
    }
  }

  /**
   * In a seating the takers are distinct, and the dealer is among them
   * exactly when they did not push too far.
   */
  lemma TargetsOf(s: seq<nat>, n: nat, pushedTooFar: bool)
    requires IsOrder(s, n) && n > 0
    ensures var t := Targets(s, pushedTooFar);
      NoRepeats(t) && (s[0] in t <==> !pushedTooFar)
  {
    var t := Targets(s, pushedTooFar);
    if pushedTooFar {
      assert forall i :: 0 <= i < |t| ==> t[i] == s[i + 1];
    } else {
      assert t[0] == s[0];
      assert forall i :: 0 <= i < |t| ==> t[i] == s[i];
    }
  }

  /** After a turn without reversal the next player in the seating deals. */
  lemma NextDealer(s: seq<nat>)
    requires |s| > 1
    ensures RotateLeft(s)[0] == s[1]
    ensures RotateLeft(Reversal(s))[0] == s[|s| - 1]
  {
    RotateLeftAt(s, 0);
    RotateLeftAt(Reversal(s), 0);
    ReversalAt(s, 1);
  }
}
