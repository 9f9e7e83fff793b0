/**
 * Piles and the group of piles a turn deals into (push/game.py, classes
 * Pile and PileGroup): the rule for adding a card, the pile values, and
 * the choice of the lowest-valued pile.
 */
module Piles {
  import opened Cards
  import opened Hands

  /** A pile: its cards in the order they were added. */
  type Pile = seq<Card>

  /**
   * The four rejection tests of `valid_addition` for one card already on the
   * pile. Colours and numbers are compared as Python compares them, None
   * included, so two non-standard cards always share a colour.
   */
  predicate Conflicts(existing: Card, incoming: Card)
  {
    existing.Reverse?
    || ColorOf(existing) == ColorOf(incoming)
    || NumberOf(existing) == NumberOf(incoming)
    || (existing.Roll? && incoming.Roll?)
  }

  /** The same test spelled out by card kind. */
  lemma ConflictsByKind(existing: Card, incoming: Card)
    ensures Conflicts(existing, incoming) <==>
      match existing
      case Reverse => true
      case Roll => !incoming.Standard?
      case Standard(c, n, _) => incoming.Standard? && (incoming.color == c || incoming.number == n)
  {
  }

  /** `Pile.valid_addition`: the pile accepts the card when no card on it conflicts with it. */
  function Accepts(pile: Pile, card: Card): (ok: bool)
    ensures ok <==> forall i :: 0 <= i < |pile| ==> !Conflicts(pile[i], card)
  {
    if pile == [] then true
    else if Conflicts(pile[0], card) then false
    else Accepts(pile[1..], card)
  }

  /** An empty pile accepts every card. */
  lemma EmptyAccepts(card: Card)
    ensures Accepts([], card)
  {
  }

  /**
   * The shape every dealt pile keeps: no reverse card, and no two cards that
   * conflict, so no two cards share a colour or a number and at most one is
   * a roll card.
   */
  predicate WellBuilt(pile: Pile)
  {
    (forall i :: 0 <= i < |pile| ==> !pile[i].Reverse?)
    && (forall i, j :: 0 <= i < j < |pile| ==> !Conflicts(pile[i], pile[j]))
  }

  /** Adding an accepted card that is not a reverse card keeps a pile well built. */
  lemma AddKeepsWellBuilt(pile: Pile, card: Card)
    requires WellBuilt(pile) && Accepts(pile, card) && !card.Reverse?
    ensures WellBuilt(pile + [card])
  {
    var p := pile + [card];
    forall i, j | 0 <= i < j < |p| ensures !Conflicts(p[i], p[j]) {
      if j == |pile| {
        assert p[i] == pile[i] && p[j] == card;
      } else {
        assert p[i] == pile[i] && p[j] == pile[j];
      }
    }
  }

  /** In a well-built pile colours and numbers are pairwise distinct and two roll cards never meet. */
  lemma {:induction false} WellBuiltDistinct(pile: Pile, i: nat, j: nat)
    requires WellBuilt(pile) && i < j < |pile|
    ensures ColorOf(pile[i]) != ColorOf(pile[j])
    ensures NumberOf(pile[i]) != NumberOf(pile[j])
    ensures !(pile[i].Roll? && pile[j].Roll?)
  {
    assert !Conflicts(pile[i], pile[j]);
  }

  /** The value a card adds to its pile: its number, -6 for a roll card, 0 for a reverse card. */
  function CardValue(c: Card): int
  {
    match c
    case Standard(_, n, _) => n
    case Roll => -6
    case Reverse => 0
  }

  /** The value of a pile: the card values added up. */
  function PileValue(pile: Pile): int
  {
    if pile == [] then 0 else PileValue(pile[..|pile| - 1]) + CardValue(pile[|pile| - 1])
  }

  /** A pile's value is the sum of its standard numbers less six per roll card. */
  lemma {:induction false} PileValueFormula(pile: Pile)
    ensures PileValue(pile) == StandardSum(pile) - 6 * Count(pile, Roll)
  {
    if pile != [] {
      PileValueFormula(pile[..|pile| - 1]);
    }
  }

  /**
   * `min(range(len(v)), key=v.__getitem__)`: the index of the first minimum
   * of a non-empty list.
   */
  function ArgMin(v: seq<int>): (k: nat)
    requires |v| > 0
    ensures k < |v|
    ensures forall j :: 0 <= j < |v| ==> v[k] <= v[j]
    ensures forall j :: 0 <= j < k ==> v[k] < v[j]
  {
    if |v| == 1 then 0
    else
      var k := ArgMin(v[..|v| - 1]);
      if v[|v| - 1] < v[k] then |v| - 1 else k
  }

  /** The first minimum is the only index that is minimal and below every earlier value. */
  lemma ArgMinUnique(v: seq<int>, k: nat)
    requires k < |v|
    requires forall j :: 0 <= j < |v| ==> v[k] <= v[j]
    requires forall j :: 0 <= j < k ==> v[k] < v[j]
    ensures ArgMin(v) == k
  {
    var m := ArgMin(v);
    assert !(m < k) && !(k < m);
  }

  /** `PileGroup`: the piles of one turn. */
  class PileGroup {
    var piles: seq<Pile>

    /** `PileGroup()`: three empty piles. */
    constructor()
      ensures piles == [[], [], []]
    {
      piles := [[], [], []];
    }

    /** `PileGroup.valid_addition(i, card)`: the i-th pile accepts the card. */
    predicate ValidAddition(i: nat, card: Card): (ok: bool)
      reads this
      requires i < |piles|
      ensures ok <==> forall j :: 0 <= j < |piles[i]| ==> !Conflicts(piles[i][j], card)
    {
      Accepts(piles[i], card)
    }

    /** `PileGroup.add_card` with `Pile.add_card`: the card goes on top of pile i. */
    method AddCard(i: nat, card: Card)
      requires i < |piles|
      modifies this
      ensures piles == old(piles)[i := old(piles)[i] + [card]]
    {
      piles := piles[i := piles[i] + [card]];
    }

    /** `remove_pile(i)`: pile i leaves the group and is returned. */
    method RemovePile(i: nat) returns (pile: Pile)
      requires i < |piles|
      modifies this
      ensures pile == old(piles)[i]
      ensures piles == old(piles)[..i] + old(piles)[i + 1..]
    {
      pile := piles[i];
      piles := piles[..i] + piles[i + 1..];
    }

    /** `pile_values`: the value of every pile, in pile order. */
    method PileValues() returns (values: seq<int>)
      ensures |values| == |piles|
      ensures forall i :: 0 <= i < |piles| ==> values[i] == PileValue(piles[i])
    {
      values := [];
      for p := 0 to |piles|
        invariant |values| == p
        invariant forall i :: 0 <= i < p ==> values[i] == PileValue(piles[i])
      {
        var pile := piles[p];
        var value := 0;
        for k := 0 to |pile|
          invariant value == PileValue(pile[..k])
        {
          var card := pile[k];
          if card.Standard? {
            value := value + card.number;
          } else if card.Roll? {
            value := value - 6;
          }
          assert pile[..k + 1][..k] == pile[..k];
        }
        assert pile[..|pile|] == pile;
        values := values + [value];
      }
    }
  }
}
