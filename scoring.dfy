/**
 * The end of the game (push/game.py, Game.score and Game.end_game): the
 * highest score wins; a tie goes to the tied player holding the most
 * standard cards, the first of them when several hold equally many, and to
 * nobody when none of the tied players holds one.
 */
module Scoring {
  import opened Cards
  import opened Hands

  /** `score`: `sum_cards` of every hand, in seating order. */
  function HandScores(hands: seq<seq<Card>>): (r: seq<int>)
    ensures |r| == |hands|
    ensures forall i :: 0 <= i < |hands| ==> r[i] == StandardSum(hands[i])
  {
    if hands == [] then [] else [StandardSum(hands[0])] + HandScores(hands[1..])
  }

  /** `num_cards` of every hand, in seating order. */
  function HandCounts(hands: seq<seq<Card>>): (r: seq<nat>)
    ensures |r| == |hands|
    ensures forall i :: 0 <= i < |hands| ==> r[i] == StandardCount(hands[i])
  {
    if hands == [] then [] else [StandardCount(hands[0])] + HandCounts(hands[1..])
  }

  /** `max`: the largest entry of a non-empty list. */
  function Max(s: seq<int>): (m: int)
    requires |s| > 0
    ensures m in s
    ensures forall i :: 0 <= i < |s| ==> s[i] <= m
  {
    if |s| == 1 then s[0]
    else
      var m := Max(s[..|s| - 1]);
      assert s[..|s| - 1][0] == s[0];
      if s[|s| - 1] > m then s[|s| - 1] else m
  }

  /** `np.argmax`: the first index holding the largest entry. */
  function ArgMax(s: seq<int>): (k: nat)
    requires |s| > 0
    ensures k < |s| && s[k] == Max(s)
    ensures forall i :: 0 <= i < k ==> s[i] < s[k]
  {
    if |s| == 1 then 0
    else
      var k := ArgMax(s[..|s| - 1]);
      if s[|s| - 1] > s[k] then |s| - 1 else k
  }

  /**
   * What `end_game` may return for these scores and standard-card counts:
   * the one player with the top score if there is one; otherwise the first
   * tied player with the most standard cards, or None when no tied player
   * holds any.
   */
  predicate IsWinner(scores: seq<int>, nums: seq<nat>, w: Option<nat>)
    requires |scores| > 0 && |nums| == |scores|
  {
    var m := Max(scores);
    if Count(scores, m) == 1 then
      w.Some? && w.value < |scores| && scores[w.value] == m
    else
      (w.None? <==> forall i :: 0 <= i < |scores| && scores[i] == m ==> nums[i] == 0)
      && (w.Some? ==>
        w.value < |scores| && scores[w.value] == m
        && (forall i :: 0 <= i < |scores| && scores[i] == m ==> nums[i] <= nums[w.value])
        && (forall i :: 0 <= i < w.value && scores[i] == m ==> nums[i] < nums[w.value]))
  }

  /** An entry found at two indices is counted at least twice. */
  lemma CountTwice<T>(s: seq<T>, x: T, i: nat, j: nat)
    requires i < j < |s| && s[i] == x && s[j] == x
    ensures Count(s, x) >= 2
  {
    CountIsMultiplicity(s, x);
    assert s == s[..i] + [s[i]] + s[i + 1..j] + [s[j]] + s[j + 1..];
  }

  /** The outcome of a game is determined: at most one result satisfies IsWinner. */
  lemma IsWinnerUnique(scores: seq<int>, nums: seq<nat>, w1: Option<nat>, w2: Option<nat>)
    requires |scores| > 0 && |nums| == |scores|
    requires IsWinner(scores, nums, w1) && IsWinner(scores, nums, w2)
    ensures w1 == w2
  {
    var m := Max(scores);
    if Count(scores, m) == 1 {
      if w1.value < w2.value {
        CountTwice(scores, m, w1.value, w2.value);
      } else if w2.value < w1.value {
        CountTwice(scores, m, w2.value, w1.value);
      }
    }
  }

  /**
   * The decision of `end_game`: the unique top score wins outright;
   * otherwise the tied players are scanned in order and one replaces the
   * current choice only with strictly more standard cards than it.
   */
  method PickWinner(scores: seq<int>, nums: seq<nat>) returns (winner: Option<nat>)
    requires |scores| > 0 && |nums| == |scores|
    ensures IsWinner(scores, nums, winner)
  {
    var m := Max(scores);
    if Count(scores, m) == 1 {
      winner := Some(ArgMax(scores));
    } else {
      var best := 0;
      winner := None;
      for k := 0 to |scores|
        invariant winner.None? ==> best == 0
        invariant winner.Some? ==> winner.value < k && scores[winner.value] == m && nums[winner.value] == best > 0
        invariant forall i :: 0 <= i < k && scores[i] == m ==> nums[i] <= best
        invariant winner.Some? ==> forall i :: 0 <= i < winner.value && scores[i] == m ==> nums[i] < best
      {
        if scores[k] == m && nums[k] > best {
          best := nums[k];
          winner := Some(k);
        }
      }
    }
  }
}
