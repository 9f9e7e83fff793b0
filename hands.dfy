/**
 * Operations on a player's hand as a sequence of cards (push/game.py,
 * class Player): the two scoring properties, banking, and discarding a
 * colour with the source's pop-while-enumerating behaviour.
 */
module Hands {
  import opened Cards

  /** `sum_cards`: the numbers of the standard cards, added up. */
  function StandardSum(s: seq<Card>): int
  {
    if s == [] then 0
    else StandardSum(s[..|s| - 1]) + (if s[|s| - 1].Standard? then s[|s| - 1].number else 0)
  }

  /** `num_cards`: how many standard cards there are. */
  function StandardCount(s: seq<Card>): nat
  {
    if s == [] then 0
    else StandardCount(s[..|s| - 1]) + (if s[|s| - 1].Standard? then 1 else 0)
  }

  lemma {:induction false} StandardSumConcat(a: seq<Card>, b: seq<Card>)
    ensures StandardSum(a + b) == StandardSum(a) + StandardSum(b)
    ensures StandardCount(a + b) == StandardCount(a) + StandardCount(b)
  {
    if b != [] {
      assert (a + b)[..|a + b| - 1] == a + b[..|b| - 1];
      StandardSumConcat(a, b[..|b| - 1]);
    } else {
      assert a + b == a;
    }
  }

  /** num_cards never exceeds the hand size, and is the hand size exactly when every card is standard. */
  lemma {:induction false} StandardCountBound(s: seq<Card>)
    ensures StandardCount(s) <= |s|
    ensures StandardCount(s) == |s| <==> forall i :: 0 <= i < |s| ==> s[i].Standard?
  {
    if s != [] {
      StandardCountBound(s[..|s| - 1]);
      if StandardCount(s) == |s| {
        forall i | 0 <= i < |s| ensures s[i].Standard? {
          if i < |s| - 1 {
            assert s[..|s| - 1][i] == s[i];
          }
        }
      }
    }
  }

  /** Whether `bank_cards(color)` marks this card: its colour attribute equals the colour. */
  predicate HasColor(c: Card, color: Color)
  {
    ColorOf(c) == Some(color)
  }

  /** `bank_cards(color)`: every card of that colour becomes banked, in place. */
  function Banked(s: seq<Card>, color: Color): (r: seq<Card>)
    ensures |r| == |s|
  {
    if s == [] then []
    else Banked(s[..|s| - 1], color) + [if HasColor(s[|s| - 1], color) then s[|s| - 1].(banked := true) else s[|s| - 1]]
  }

  /**
   * Banking keeps the order and the length; it sets the flag on exactly the
   * cards of the colour and changes nothing else about any card.
   */
  lemma {:induction false} BankedAt(s: seq<Card>, color: Color, i: nat)
    requires i < |s|
    ensures |Banked(s, color)| == |s|
    ensures Banked(s, color)[i] == if HasColor(s[i], color) then s[i].(banked := true) else s[i]
  {
    if i < |s| - 1 {
      BankedAt(s[..|s| - 1], color, i);
      assert s[..|s| - 1][i] == s[i];
    } else if |s| > 1 {
      BankedAt(s[..|s| - 1], color, 0);
    }
  }

  /** One step of the in-place banking loop: position i joins the banked prefix. */
  lemma BankedStep(s: seq<Card>, i: nat, color: Color)
    requires i < |s|
    ensures var card := if HasColor(s[i], color) then s[i].(banked := true) else s[i];
      Banked(s[..i + 1], color) == Banked(s[..i], color) + [card]
      && (Banked(s[..i], color) + s[i..])[i := card] == Banked(s[..i + 1], color) + s[i + 1..]
  {
    assert s[..i + 1][..i] == s[..i];
    var card := if HasColor(s[i], color) then s[i].(banked := true) else s[i];
    var b := Banked(s[..i], color);
    assert (b + s[i..])[i := card] == b + [card] + s[i + 1..];
  }

  /** Banking changes neither sum_cards nor num_cards. */
  lemma {:induction false} BankedKeepsScore(s: seq<Card>, color: Color)
    ensures StandardSum(Banked(s, color)) == StandardSum(s)
    ensures StandardCount(Banked(s, color)) == StandardCount(s)
  {
    if s != [] {
      var init := s[..|s| - 1];
      BankedKeepsScore(init, color);
      if |init| > 0 {
        BankedAt(init, color, 0);
      }
      var b := Banked(s, color);
      assert b[..|b| - 1] == Banked(init, color);
    }
  }

  /** The cards `discard_color(color)` is meant to remove: unbanked cards of that colour. */
  predicate Matches(c: Card, color: Color)
  {
    c.Standard? && c.color == color && !c.banked
  }

  /**
   * `discard_color(color)` as written: the hand is enumerated while it is
   * popped from, so after a card is removed the card that slides into its
   * place is passed over and kept, whatever it is.
   */
  function Discarded(s: seq<Card>, color: Color): seq<Card>
    decreases |s|
  {
    if s == [] then []
    else if Matches(s[0], color) then
      (if |s| == 1 then [] else [s[1]] + Discarded(s[2..], color))
    else [s[0]] + Discarded(s[1..], color)
  }

  /**
   * One step of the enumerate-and-pop loop at position i: a matching card is
   * removed and its successor passed over; any other card is kept.
   */
  lemma DiscardedAt(s: seq<Card>, i: nat, color: Color)
    requires i < |s|
    ensures var t := s[..i] + s[i + 1..];
      Matches(s[i], color) ==>
        if i + 1 < |s| then s[..i] + Discarded(s[i..], color) == t[..i + 1] + Discarded(t[i + 1..], color)
        else s[..i] + Discarded(s[i..], color) == t
    ensures !Matches(s[i], color) ==>
      s[..i] + Discarded(s[i..], color) == s[..i + 1] + Discarded(s[i + 1..], color)
  {
    var t := s[..i] + s[i + 1..];
    if Matches(s[i], color) {
      if i + 1 < |s| {
        assert s[i..][2..] == s[i + 2..];
        assert t[..i + 1] == s[..i] + [s[i + 1]];
        assert t[i + 1..] == s[i + 2..];
      } else {
        assert t == s[..i];
      }
    } else {
      assert s[i..][1..] == s[i + 1..];
      assert s[..i + 1] == s[..i] + [s[i]];
    }
  }

  /** The cards of s that match nothing, in order. */
  function Unmatched(s: seq<Card>, color: Color): seq<Card>
    decreases |s|
  {
    if s == [] then []
    else (if Matches(s[0], color) then [] else [s[0]]) + Unmatched(s[1..], color)
  }

  /** a can be obtained from b by deleting elements. */
  predicate IsSubsequence(a: seq<Card>, b: seq<Card>)
    decreases |b|
  {
    if a == [] then true
    else if b == [] then false
    else (a[0] == b[0] && IsSubsequence(a[1..], b[1..])) || IsSubsequence(a, b[1..])
  }

  lemma {:induction false} SubsequenceDrop(a: seq<Card>, b: seq<Card>, x: Card)
    requires IsSubsequence(a, b)
    ensures IsSubsequence(a, [x] + b)
  {
    if a != [] {
      assert ([x] + b)[1..] == b;
    }
  }

  lemma {:induction false} SubsequenceKeep(a: seq<Card>, b: seq<Card>, x: Card)
    requires IsSubsequence(a, b)
    ensures IsSubsequence([x] + a, [x] + b)
  {
    assert ([x] + a)[1..] == a;
    assert ([x] + b)[1..] == b;
  }

  /** What survives a discard is a subsequence of the hand: nothing is added or reordered. */
  lemma {:induction false} DiscardedIsSubsequence(s: seq<Card>, color: Color)
    ensures IsSubsequence(Discarded(s, color), s)
    decreases |s|
  {
    if s == [] {
    } else if Matches(s[0], color) {
      if |s| > 1 {
        DiscardedIsSubsequence(s[2..], color);
        SubsequenceKeep(Discarded(s[2..], color), s[2..], s[1]);
        assert [s[1]] + s[2..] == s[1..];
        SubsequenceDrop(Discarded(s, color), s[1..], s[0]);
        assert [s[0]] + s[1..] == s;
      }
    } else {
      DiscardedIsSubsequence(s[1..], color);
      SubsequenceKeep(Discarded(s[1..], color), s[1..], s[0]);
      assert [s[0]] + s[1..] == s;
    }
  }

  /**
   * A discard never removes a banked card or a card of another colour: the
   * non-matching cards survive, all of them, in their order.
   */
  lemma {:induction false} DiscardedKeepsUnmatched(s: seq<Card>, color: Color)
    ensures Unmatched(Discarded(s, color), color) == Unmatched(s, color)
    decreases |s|
  {
    if s == [] {
    } else if Matches(s[0], color) {
      if |s| > 1 {
        DiscardedKeepsUnmatched(s[2..], color);
        var rest := Discarded(s[2..], color);
        assert ([s[1]] + rest)[1..] == rest;
        assert s[1..][1..] == s[2..];
      }
    } else {
      DiscardedKeepsUnmatched(s[1..], color);
      assert ([s[0]] + Discarded(s[1..], color))[1..] == Discarded(s[1..], color);
    }
  }

  /** With no two matching cards side by side, every matching card is removed. */
  lemma {:induction false} DiscardedApart(s: seq<Card>, color: Color)
    requires forall i :: 0 <= i < |s| - 1 ==> !(Matches(s[i], color) && Matches(s[i + 1], color))
    ensures Discarded(s, color) == Unmatched(s, color)
    decreases |s|
  {
    if s == [] {
    } else if Matches(s[0], color) {
      if |s| > 1 {
        assert !Matches(s[1], color);
        var t := s[2..];
        assert forall i :: 0 <= i < |t| ==> t[i] == s[i + 2];
        DiscardedApart(t, color);
        assert s[1..][1..] == s[2..];
      }
    } else {
      var t := s[1..];
      assert forall i :: 0 <= i < |t| ==> t[i] == s[i + 1];
      DiscardedApart(t, color);
    }
  }

  /** A hand with no matching card (for instance after the die shows black) is left as it was. */
  lemma {:induction false} DiscardedNoMatch(s: seq<Card>, color: Color)
    requires forall i :: 0 <= i < |s| ==> !Matches(s[i], color)
    ensures Discarded(s, color) == s
    decreases |s|
  {
    if s != [] {
      assert forall i :: 0 <= i < |s[1..]| ==> s[1..][i] == s[i + 1];
      DiscardedNoMatch(s[1..], color);
      assert [s[0]] + s[1..] == s;
    }
  }

  /** A discard only removes cards: every surviving card was in the hand, with multiplicity. */
  lemma {:induction false} DiscardedShrinks(s: seq<Card>, color: Color)
    ensures multiset(Discarded(s, color)) <= multiset(s)
    decreases |s|
  {
    if s == [] {
    } else if Matches(s[0], color) {
      if |s| > 1 {
        DiscardedShrinks(s[2..], color);
        assert s == [s[0]] + [s[1]] + s[2..];
      }
    } else {
      DiscardedShrinks(s[1..], color);
      assert s == [s[0]] + s[1..];
    }
  }

  /** With every card well formed, sum_cards lies between 0 and five per standard card. */
  lemma {:induction false} StandardSumBound(s: seq<Card>)
    requires forall i :: 0 <= i < |s| ==> WellFormed(s[i])
    ensures 0 <= StandardSum(s) <= 5 * StandardCount(s)
  {
    if s != [] {
      var init := s[..|s| - 1];
      assert forall i :: 0 <= i < |init| ==> init[i] == s[i];
      StandardSumBound(init);
    }
  }

  /** Two adjacent red cards: discarding red removes the first and passes over the second. */
  lemma DiscardedSkipsNext()
    ensures Discarded([Standard(Red, 2, false), Standard(Red, 4, false)], Red) == [Standard(Red, 4, false)]
  {
    var s := [Standard(Red, 2, false), Standard(Red, 4, false)];
    assert s[2..] == [];
  }
}
