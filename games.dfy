/**
 * A game (push/game.py, class Game): turns are played until the deck is
 * empty, then the winner is determined. The whole game is also described
 * as a function on values, `Finish`, which `Game.Play` is proved to follow.
 */
module Games {
  import opened Cards
  import opened Hands
  import opened Piles
  import opened Dealing
  import opened Randomness
  import opened Decks
  import opened Players
  import opened TurnOrder
  import opened Scoring

  /**
   * Everything a turn changes: the deck, the hands in player order, the
   * seating, and how many random draws have been taken.
   */
  datatype Table = Table(deck: seq<Card>, hands: seq<seq<Card>>, order: seq<nat>, draws: nat)

  /** Per-player drawing bounds under which a game can be played to its end. */
  predicate Rules(mins: seq<int>, limits: seq<int>)
  {
    |mins| == |limits| && |mins| > 0
    && forall i :: 0 <= i < |mins| ==> 1 <= mins[i] <= limits[i]
  }

  /** A table for n players: one hand each, and a seating of them. */
  predicate Seated(t: Table, n: nat)
  {
    |t.hands| == n && Seats(t.order, n)
  }

  /** Part way through a turn's hand-out: the hands, the piles left, the draws taken so far. */
  datatype Handout = Handout(hands: seq<seq<Card>>, piles: seq<Pile>, draws: nat)

  /** Player q takes the lowest-valued pile left (the first of them) and receives its cards. */
  function Take(h: Handout, q: nat, outcomes: nat -> nat): (r: Handout)
    requires q < |h.hands| && |h.piles| > 0
    ensures |r.hands| == |h.hands| && |r.piles| == |h.piles| - 1
  {
    var k := Lowest(h.piles);
    Handout(h.hands[q := Received(h.hands[q], h.piles[k], outcomes, h.draws)],
            h.piles[..k] + h.piles[k + 1..], h.draws + Count(h.piles[k], Roll))
  }

  /** The takers, in turn, each take a pile; the die draws are taken from the oracle in that order. */
  function Distribute(h: Handout, takers: seq<nat>, outcomes: nat -> nat): (r: Handout)
    requires |takers| <= |h.piles|
    requires forall i :: 0 <= i < |takers| ==> takers[i] < |h.hands|
    ensures |r.hands| == |h.hands|
    decreases |takers|
  {
    if takers == [] then h else Distribute(Take(h, takers[0], outcomes), takers[1..], outcomes)
  }

  /** A player who takes no pile keeps the hand they had. */
  lemma {:induction false} DistributeKeepsOthers(h: Handout, takers: seq<nat>, outcomes: nat -> nat, q: nat)
    requires |takers| <= |h.piles|
    requires forall i :: 0 <= i < |takers| ==> takers[i] < |h.hands|
    requires q < |h.hands| && q !in takers
    ensures Distribute(h, takers, outcomes).hands[q] == h.hands[q]
    decreases |takers|
  {
    if takers != [] {
      DistributeKeepsOthers(Take(h, takers[0], outcomes), takers[1..], outcomes, q);
    }
  }

  /** How many cards the dealer of the turn deals: at least one, at most their limit. */
  function Drawn(t: Table, mins: seq<int>, limits: seq<int>, outcomes: nat -> nat): (k: nat)
    requires Rules(mins, limits) && Seated(t, |mins|) && t.deck != []
    ensures 0 < k <= |t.deck| && k <= limits[t.order[0]]
  {
    var p := t.order[0];
    Taken(IntBetween(outcomes(t.draws), mins[p], limits[p]), |t.deck|)
  }

  /** The seating once the dealing is known: reversed when the dealing says so. */
  function Reseat(order: seq<nat>, n: nat, reversed: bool): (r: seq<nat>)
    requires Seats(order, n)
    ensures Seats(r, n)
  {
    ReversalSeats(order, n);
    if reversed then Reversal(order) else order
  }

  /** A turn once its cards are dealt: the deck left, the dealing, the new seating, the draws so far. */
  datatype Stage = Stage(deck: seq<Card>, dealt: Dealt, seated: seq<nat>, draws: nat)

  /**
   * The first half of a turn: the player seated first draws how many cards
   * to deal and deals them; the seating is reversed if the dealing says so.
   */
  function DealStage(t: Table, mins: seq<int>, limits: seq<int>, outcomes: nat -> nat): (s: Stage)
    requires Rules(mins, limits) && Seated(t, |mins|) && t.deck != []
    ensures Seats(s.seated, |mins|)
    ensures 0 < |t.deck| - |s.deck| <= limits[t.order[0]]
    ensures s.deck == t.deck[|t.deck| - |s.deck|..]
  {
    var k := Drawn(t, mins, limits, outcomes);
    var d := DealAll(t.deck[..k]);
    Stage(t.deck[k..], d, Reseat(t.order, |mins|, d.isReversed), t.draws + 1)
  }

  /**
   * One turn of `play`: after the dealing the takers take piles and the
   * seating moves on by one.
   */
  function Turn(t: Table, mins: seq<int>, limits: seq<int>, outcomes: nat -> nat): (r: Table)
    requires Rules(mins, limits) && Seated(t, |mins|) && t.deck != []
    ensures Seated(r, |mins|) && |r.deck| < |t.deck|
  {
    var s := DealStage(t, mins, limits, outcomes);
    var takers := Targets(s.seated, s.dealt.pushedTooFar);
    TargetsSeats(s.seated, |mins|, s.dealt.pushedTooFar);
    RotateLeftSeats(s.seated, |mins|);
    var h := Distribute(Handout(t.hands, s.dealt.piles, s.draws), takers, outcomes);
    Table(s.deck, h.hands, RotateLeft(s.seated), h.draws)
  }

  /** The table once turns have been played until the deck is empty. */
  function Finish(t: Table, mins: seq<int>, limits: seq<int>, outcomes: nat -> nat): (r: Table)
    requires Rules(mins, limits) && Seated(t, |mins|)
    ensures r.deck == [] && Seated(r, |mins|)
    decreases |t.deck|
  {
    if t.deck == [] then t else Finish(Turn(t, mins, limits, outcomes), mins, limits, outcomes)
  }

  /** A turn leaves a seating of the players a seating: nobody gains or loses a seat. */
  lemma TurnKeepsOrder(t: Table, mins: seq<int>, limits: seq<int>, outcomes: nat -> nat)
    requires Rules(mins, limits) && Seated(t, |mins|) && t.deck != []
    requires IsOrder(t.order, |mins|)
    ensures IsOrder(Turn(t, mins, limits, outcomes).order, |mins|)
  {
    var s := DealStage(t, mins, limits, outcomes);
    MovesKeepOrder(t.order, |mins|);
    MovesKeepOrder(s.seated, |mins|);
  }

  /** The seating the game ends with is a permutation of the players. */
  lemma {:induction false} FinishKeepsOrder(t: Table, mins: seq<int>, limits: seq<int>, outcomes: nat -> nat)
    requires Rules(mins, limits) && Seated(t, |mins|)
    requires IsOrder(t.order, |mins|)
    ensures IsOrder(Finish(t, mins, limits, outcomes).order, |mins|)
    decreases |t.deck|
  {
    if t.deck != [] {
      TurnKeepsOrder(t, mins, limits, outcomes);
      FinishKeepsOrder(Turn(t, mins, limits, outcomes), mins, limits, outcomes);
    }
  }

  /** No hand holds a roll card. */
  predicate NoRolls(hands: seq<seq<Card>>)
  {
    forall i :: 0 <= i < |hands| ==> Roll !in hands[i]
  }

  /** Taking a pile puts none of its roll cards in a hand. */
  lemma TakeKeepsNoRolls(h: Handout, q: nat, outcomes: nat -> nat)
    requires q < |h.hands| && |h.piles| > 0 && NoRolls(h.hands)
    ensures NoRolls(Take(h, q, outcomes).hands)
  {
    ReceivedHasNoRoll(h.hands[q], h.piles[Lowest(h.piles)], outcomes, h.draws);
  }

  lemma {:induction false} DistributeKeepsNoRolls(h: Handout, takers: seq<nat>, outcomes: nat -> nat)
    requires |takers| <= |h.piles|
    requires forall i :: 0 <= i < |takers| ==> takers[i] < |h.hands|
    requires NoRolls(h.hands)
    ensures NoRolls(Distribute(h, takers, outcomes).hands)
    decreases |takers|
  {
    if takers != [] {
      TakeKeepsNoRolls(h, takers[0], outcomes);
      DistributeKeepsNoRolls(Take(h, takers[0], outcomes), takers[1..], outcomes);
    }
  }

  /** Roll cards are used up by rolling the die: hands without one never get one. */
  lemma {:induction false} FinishKeepsNoRolls(t: Table, mins: seq<int>, limits: seq<int>, outcomes: nat -> nat)
    requires Rules(mins, limits) && Seated(t, |mins|) && NoRolls(t.hands)
    ensures NoRolls(Finish(t, mins, limits, outcomes).hands)
    decreases |t.deck|
  {
    if t.deck != [] {
      var s := DealStage(t, mins, limits, outcomes);
      TargetsSeats(s.seated, |mins|, s.dealt.pushedTooFar);
      DistributeKeepsNoRolls(Handout(t.hands, s.dealt.piles, s.draws), Targets(s.seated, s.dealt.pushedTooFar), outcomes);
      FinishKeepsNoRolls(Turn(t, mins, limits, outcomes), mins, limits, outcomes);
    }
  }

  class Game {
    const players: seq<Player>
    const deck: Deck

    /** `Game(players)`: a new shuffled deck. */
    constructor(players: seq<Player>, rng: Random)
      modifies rng
      ensures this.players == players && fresh(deck)
      ensures deck.cards == Shuffled(FreshDeck(), rng.outcomes, old(rng.calls))
      ensures rng.calls == old(rng.calls) + 119
    {
      this.players := players;
      deck := new Deck(rng);
    }

    /** The hands of the players, in player order. */
    function PlayerHands(): (h: seq<seq<Card>>)
      reads players
      ensures |h| == |players|
      ensures forall i :: 0 <= i < |players| ==> h[i] == players[i].cards
    {
      seq(|players|, i reads players requires 0 <= i < |players| => players[i].cards)
    }

    function Mins(): (m: seq<int>)
      ensures |m| == |players|
      ensures forall i :: 0 <= i < |players| ==> m[i] == players[i].cardMinDraw
    {
      seq(|players|, i requires 0 <= i < |players| => players[i].cardMinDraw)
    }

    function Limits(): (m: seq<int>)
      ensures |m| == |players|
      ensures forall i :: 0 <= i < |players| ==> m[i] == players[i].cardDrawLimit
    {
      seq(|players|, i requires 0 <= i < |players| => players[i].cardDrawLimit)
    }

    /** No player object is seated twice. */
    predicate Distinct()
    {
      forall i, j :: 0 <= i < j < |players| ==> players[i] != players[j]
    }

    /**
     * `play`: turns until the deck is empty, then `end_game`. Python raises
     * on an empty player list and on a minimum above the limit; a minimum
     * below one could let the deck never empty.
     */
    method Play(rng: Random) returns (winner: Option<nat>)
      requires Distinct() && Rules(Mins(), Limits())
      modifies deck, rng, players
      ensures var t := Finish(Table(old(deck.cards), old(PlayerHands()), Range(|players|), old(rng.calls)),
                              Mins(), Limits(), rng.outcomes);
        deck.cards == [] && PlayerHands() == t.hands && rng.calls == t.draws
      ensures IsWinner(HandScores(PlayerHands()), HandCounts(PlayerHands()), winner)
    {
      var order := Range(|players|);
      RangeIsOrder(|players|);
      ghost var goal := Finish(Table(deck.cards, PlayerHands(), order, rng.calls), Mins(), Limits(), rng.outcomes);
      while !deck.IsEmpty()
        invariant IsOrder(order, |players|)
        invariant Finish(Table(deck.cards, PlayerHands(), order, rng.calls), Mins(), Limits(), rng.outcomes) == goal
        decreases |deck.cards|
      {
        ghost var t := Table(deck.cards, PlayerHands(), order, rng.calls);
        order := PlayTurn(rng, order);
        TurnKeepsOrder(t, Mins(), Limits(), rng.outcomes);
      }
      winner := EndGame();
    }

    /** One pass of the loop of `play`, with the seating as an explicit parameter. */
    method PlayTurn(rng: Random, order: seq<nat>) returns (next: seq<nat>)
      requires Distinct() && Rules(Mins(), Limits())
      requires Seats(order, |players|) && deck.cards != []
      modifies deck, rng, players
      ensures Table(deck.cards, PlayerHands(), next, rng.calls)
        == Turn(Table(old(deck.cards), old(PlayerHands()), order, old(rng.calls)), Mins(), Limits(), rng.outcomes)
    {
      ghost var t := Table(deck.cards, PlayerHands(), order, rng.calls);
      var seated, takers, piles := DealTurn(rng, order);
      ghost var s := DealStage(t, Mins(), Limits(), rng.outcomes);
      TargetsSeats(seated, |players|, s.dealt.pushedTooFar);
      next := RotateLeft(seated);
      GivePiles(takers, piles, rng);
    }

    /** The first half of a pass: the dealer creates the piles and the seating may reverse. */
    method DealTurn(rng: Random, order: seq<nat>) returns (seated: seq<nat>, takers: seq<nat>, piles: PileGroup)
      requires Rules(Mins(), Limits())
      requires Seats(order, |players|) && deck.cards != []
      modifies deck, rng
      ensures fresh(piles)
      ensures var s := DealStage(Table(old(deck.cards), PlayerHands(), order, old(rng.calls)), Mins(), Limits(), rng.outcomes);
        deck.cards == s.deck && piles.piles == s.dealt.piles && seated == s.seated
        && takers == Targets(seated, s.dealt.pushedTooFar) && rng.calls == s.draws
    {
      ghost var t := Table(deck.cards, PlayerHands(), order, rng.calls);
      ghost var k := Drawn(t, Mins(), Limits(), rng.outcomes);
      var isReversed, pushedTooFar, p := players[order[0]].CreatePiles(deck, rng);
      piles := p;
      seated := Reseat(order, |players|, isReversed);
      takers := Targets(seated, pushedTooFar);
    }

    /** The loop of `play` that lets each taker in turn choose a pile. */
    method GivePiles(takers: seq<nat>, piles: PileGroup, rng: Random)
      requires Distinct()
      requires |takers| <= |piles.piles|
      requires forall i :: 0 <= i < |takers| ==> takers[i] < |players|
      modifies players, piles, rng
      ensures Handout(PlayerHands(), piles.piles, rng.calls)
        == Distribute(Handout(old(PlayerHands()), old(piles.piles), old(rng.calls)), takers, rng.outcomes)
    {
      for i := 0 to |takers|
        invariant |piles.piles| == old(|piles.piles|) - i
        invariant Distribute(Handout(PlayerHands(), piles.piles, rng.calls), takers[i..], rng.outcomes)
          == Distribute(Handout(old(PlayerHands()), old(piles.piles), old(rng.calls)), takers, rng.outcomes)
      {
        assert takers[i..][0] == takers[i] && takers[i..][1..] == takers[i + 1..];
        GivePile(takers[i], piles, rng);
      }
    }

    /** One pass of that loop: player q chooses a pile. */
    method GivePile(q: nat, piles: PileGroup, rng: Random)
      requires Distinct() && q < |players| && |piles.piles| > 0
      modifies players, piles, rng
      ensures Handout(PlayerHands(), piles.piles, rng.calls)
        == Take(Handout(old(PlayerHands()), old(piles.piles), old(rng.calls)), q, rng.outcomes)
    {
      ghost var before := Handout(PlayerHands(), piles.piles, rng.calls);
      players[q].ChoosePile(piles, rng);
      assert forall p :: 0 <= p < |players| && p != q ==> players[p].cards == before.hands[p];
    }

    /** `score`. */
    function Scores(): (s: seq<int>)
      reads players
      ensures s == HandScores(PlayerHands())
    {
      seq(|players|, i reads players requires 0 <= i < |players| => players[i].SumCards())
    }

    /** `num_cards` of every player. */
    function NumCardsList(): (s: seq<nat>)
      reads players
      ensures s == HandCounts(PlayerHands())
    {
      seq(|players|, i reads players requires 0 <= i < |players| => players[i].NumCards())
    }

    /** `end_game`: the winner's index, or None when nobody wins a tie. */
    method EndGame() returns (winner: Option<nat>)
      requires |players| > 0
      ensures IsWinner(Scores(), NumCardsList(), winner)
    {
      winner := PickWinner(Scores(), NumCardsList());
    }
  }
}
