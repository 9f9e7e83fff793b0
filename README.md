# Push: a verified model of the game engine

Push is a card game for several players. A 120-card deck holds:

- standard cards in five colours, numbered 0 to 5, three of each;
- 12 reverse cards;
- 18 roll cards.

On each turn, the player seated first draws a random number of cards. The cards are dealt first-fit onto three piles:

- A pile refuses a card that shares a colour or a number with a card already on it.
- A pile with a reverse card on it refuses every card.
- A reverse card never goes on a pile. Instead it toggles the reversal of the seating.
- A card that fits no pile is lost, and the dealer has *pushed too far*.

Then the takers each take a pile in turn. Each taker takes the pile of lowest value and adds its cards to their hand. Each roll card in that pile rolls a six-colour die instead. The die's colour is then discarded from the taker's hand the way `discard_color` does it: each unbanked card of that colour is removed, but the card that slides into a removed card's place is passed over and kept. So a matching card right after a removed one survives.

The takers are the first three seats, or seats 2 to 4 when the dealer pushed too far.

When the deck is empty, the highest score wins. A tie goes to the tied player with the most standard cards. Randomness is modelled as an injected oracle, with one value consumed per random draw.

This project models the game engine of `push/game.py` in Dafny and proves properties of that model:

| file | module | models |
|---|---|---|
| `cards.dfy` | `Cards` | cards and the fresh 120-card deck, with its composition proved |
| `random.dfy` | `Randomness` | the random oracle: `randbelow`, `randint`, the die |
| `deck.dfy` | `Decks` | class `Deck`: construction, CPython's swap shuffle, `deal`, `is_empty` |
| `piles.dfy` | `Piles` | the pile rule `valid_addition`, pile values, class `PileGroup` |
| `hands.dfy` | `Hands` | hand scoring, `bank_cards` and `discard_color` as functions on sequences, and their properties |
| `dealing.dfy` | `Dealing` | what the dealing loop of `create_piles` produces, and its properties |
| `players.dfy` | `Players` | class `Player`, plus the dealing methods proved against `Dealing` |
| `turns.dfy` | `TurnOrder` | the seating array of `play`: rotation, reversal, the takers' window |
| `scoring.dfy` | `Scoring` | `score` and the winner decision of `end_game` |
| `games.dfy` | `Games` | class `Game`; `Play` is proved to follow the value-level game `Finish` |

State that the source changes in place lives in classes:

| class | fields |
|---|---|
| `Deck` | `cards` |
| `PileGroup` | `piles` |
| `Player` | `cards` |
| `Random` | its draw counter |

Each method states its effect as a function of the old state, and the properties are proved as lemmas about those functions.

`discard_color` is modelled exactly as written. It pops from the hand while enumerating it, so the card right after a removed card is never examined. The model keeps this behaviour everywhere, and `Hands.DiscardedSkipsNext` shows it on a two-card hand. The lemmas about it state what still holds:

- it removes nothing it must keep;
- the result is a subsequence of the hand;
- it removes every matching card when no two matching cards are adjacent.

## Model

| member | source | states |
|---|---|---|
| Cards.ColorOf | push/game.py:8-11 | a card's `color` attribute: its colour for a standard card, None for reverse and roll cards |
| Cards.NumberOf | push/game.py:8-11 | a card's `number` attribute: its number for a standard card, None for reverse and roll cards |
| Cards.FreshDeck | push/game.py:31-42 | the unshuffled deck list: for numbers 0..5, for each colour red, purple, yellow, blue, green, three copies; then 12 reverse and 18 roll cards |
| Cards.FreshDeckLength | push/game.py:29-42 | the deck the constructor builds has 120 cards |
| Cards.FreshDeckCount | push/game.py:29-42 | the built deck holds 3 copies of each unbanked standard card of colour red..green and number 0..5, 12 reverse and 18 roll cards, and no other card |
| Randomness.DieFace | push/game.py:18-20 | `random.choice` over the six listed faces: the face is `DieColors[randbelow(6)]` for one oracle value (its ensures only says the face is listed; that every face, black included, is reachable is `Randomness.EveryFaceReachable`) |
| Randomness.EveryFaceReachable | push/game.py:18-20 | every colour, black included, is shown for some draw |
| Randomness.Below | push/game.py:20 | `_randbelow(n)`, used by `choice` (line 20), `shuffle` (line 48) and `randint` (line 120): the oracle value reduced below n |
| Randomness.IntBetween | push/game.py:120 | `randint(lo, hi)` lies in `[lo, hi]` |
| Randomness.Random.RandBelow | push/game.py:48 | returns `randbelow(n)` for the next oracle value, below `n`, consuming one draw |
| Randomness.Random.RandInt | push/game.py:120 | returns `randint(lo, hi)` for the next oracle value, consuming one draw |
| Randomness.RollDie | push/game.py:18-24 | returns the face for the next oracle value, consuming one draw |
| Decks.Swap | push/game.py:48 | one exchange of `random.shuffle`: positions i and j trade cards |
| Decks.ShuffleFrom | push/game.py:48 | the remaining passes of `random.shuffle` from position i down to 1, each exchanging i with `randbelow(i + 1)` |
| Decks.SwapPreserves | push/game.py:48 | one exchange of the shuffle keeps the multiset of cards |
| Decks.ShuffledIsPermutation | push/game.py:46-48 | for every oracle, a shuffle keeps the length and the multiset of the cards |
| Decks.ShuffledDeckCount | push/game.py:29-48 | a new shuffled deck has 120 cards with the same composition as the built deck |
| Decks.Deck.constructor | push/game.py:29-44 | the nested loops append exactly the fresh deck, which is then shuffled with 119 draws |
| Decks.Deck.Shuffle | push/game.py:46-48 | the new deck is the oracle-driven swap shuffle of the old deck, so a permutation of it |
| Decks.Shuffled | push/game.py:48 | `random.shuffle`: for i from n-1 down to 1, exchange position i with position `randbelow(i + 1)`, each draw from the next oracle value |
| Decks.Deck.IsEmpty | push/game.py:53-54 | the deck has no card left; `Decks.Deck.Deal` returns None exactly then |
| Decks.Deck.Deal | push/game.py:50-51 | removes and returns exactly the front card; None (Python's IndexError) exactly when the deck is empty |
| Hands.StandardSum | push/game.py:172-174 | `sum_cards`: the numbers of the standard cards, added up |
| Hands.StandardCount | push/game.py:176-178 | `num_cards`: how many cards are standard |
| Hands.StandardSumConcat | push/game.py:172-178 | `sum_cards` and `num_cards` add up over concatenated hands |
| Hands.StandardCountBound | push/game.py:176-178 | `num_cards` is at most the hand size, with equality exactly when every card is standard |
| Hands.StandardSumBound | push/game.py:172-178 | a hand of deck cards scores between 0 and 5 times its standard-card count |
| Hands.Banked | push/game.py:167-170 | `bank_cards(c)` on a hand: each card of colour `c` gets its flag set, in place |
| Hands.BankedAt | push/game.py:167-170 | `bank_cards(c)` flags exactly the cards of colour `c`, and leaves the length and every other card unchanged |
| Hands.BankedKeepsScore | push/game.py:167-178 | banking changes neither `sum_cards` nor `num_cards` |
| Hands.Discarded | push/game.py:158-161 | `discard_color` as written: an unbanked card of the colour is removed and the card after it is kept unexamined; any other card is kept |
| Hands.DiscardedAt | push/game.py:158-161 | one step of enumerate-and-pop: a matching card is removed and the card sliding into its place is passed over; any other card is kept |
| Hands.DiscardedIsSubsequence | push/game.py:158-161 | the hand after `discard_color` is a subsequence of the hand before |
| Hands.DiscardedKeepsUnmatched | push/game.py:158-161 | no banked card and no card of another colour is ever removed |
| Hands.DiscardedApart | push/game.py:158-161 | when no two matching cards are adjacent, exactly the matching cards are removed |
| Hands.DiscardedNoMatch | push/game.py:158-161 | a hand with no matching card is unchanged |
| Hands.DiscardedShrinks | push/game.py:158-161 | discarding adds no card: the result's multiset is contained in the hand's |
| Hands.DiscardedSkipsNext | push/game.py:158-161 | with red 2 followed by red 4, discarding red removes only the red 2 |
| Piles.Conflicts | push/game.py:66-74 | the four early returns of `valid_addition` for one card on the pile: it is a reverse card, its colour equals the new card's, its number does, or both are roll cards; None equals None |
| Piles.ConflictsByKind | push/game.py:65-75 | a reverse card refuses everything; a roll card refuses every non-standard card (their colours are both None); a standard card refuses a standard card of the same colour or number |
| Piles.Accepts | push/game.py:65-75 | a pile accepts a card exactly when no card on it conflicts with it |
| Piles.EmptyAccepts | push/game.py:65-75 | an empty pile accepts every card |
| Piles.AddKeepsWellBuilt | push/game.py:65-78 | adding an accepted non-reverse card keeps a pile free of reverse cards and pairwise free of conflicts |
| Piles.WellBuiltDistinct | push/game.py:65-75 | on such a pile, colours and numbers are pairwise distinct and two roll cards never meet |
| Piles.PileValue | push/game.py:99-107 | one entry of `pile_values`: each standard card adds its number, each roll card subtracts 6 |
| Piles.CardValue | push/game.py:102-106 | the try/except per card: a standard card adds its number, a roll card -6, a reverse card nothing |
| Piles.PileValueFormula | push/game.py:96-108 | a pile's value is the sum of its standard numbers minus 6 per roll card |
| Piles.ArgMin | push/game.py:150 | the key-minimum picks a minimal index, strictly below every earlier entry |
| Piles.ArgMinUnique | push/game.py:150 | that index is the only one with these two properties |
| Piles.PileGroup.ValidAddition | push/game.py:87-88 | pile i accepts the card exactly when no card on it conflicts with it |
| Piles.PileGroup.constructor | push/game.py:83-85 | a new group has exactly three empty piles |
| Piles.PileGroup.AddCard | push/game.py:77-78 | the card goes on top of pile i, and no other pile changes |
| Piles.PileGroup.RemovePile | push/game.py:93-94 | returns pile i, and the group loses exactly that pile |
| Piles.PileGroup.PileValues | push/game.py:96-108 | the loop computes every pile's value, in pile order |
| Dealing.DealOne | push/game.py:133-145 | one pass of the dealing loop: a reverse card toggles `is_reversed`; any other card goes on the first accepting pile, or sets `pushed_too_far` when none accepts |
| Dealing.FirstFit | push/game.py:138-142 | the first pile, in order, that accepts the card, or None when no pile does |
| Dealing.DealAll | push/game.py:122-147 | dealing always yields exactly three piles |
| Dealing.DealAllShape | push/game.py:125-145 | every dealt pile holds no reverse card and no two conflicting cards |
| Dealing.DealAllReversed | push/game.py:133-135 | `is_reversed` holds exactly when an odd number of reverse cards was dealt |
| Dealing.DealAllPushed | push/game.py:137-145 | `pushed_too_far` holds exactly when some dealt non-reverse card fitted no pile |
| Dealing.DroppedMeans | push/game.py:137-145 | a card is lost exactly when it is a dealt non-reverse card that no pile accepted at its turn |
| Dealing.PlacedOrDropped | push/game.py:127-145 | every dealt non-reverse card is either placed or lost, never both and never neither |
| Dealing.PilesHoldPlaced | push/game.py:125-145 | the piles hold exactly the dealt cards that fitted, with multiplicity |
| Dealing.NotPushedPlacesAll | push/game.py:125-145 | without pushing too far, the piles hold exactly the dealt non-reverse cards |
| Dealing.DealExample | push/game.py:127-147 | red 1, blue 2, reverse: blue 2 joins red 1 on pile 0, and the reversal flag is set |
| Dealing.DealSameColorExample | push/game.py:137-142 | red 1, red 2: red 2 goes on pile 1 |
| Players.Values | push/game.py:96-108 | the value of every pile, in pile order |
| Players.Lowest | push/game.py:150 | the index of the first pile of minimal value |
| Players.Received | push/game.py:152-156 | the hand after `choose_pile`'s loop: cards in pile order; a roll card rolls the die on the next draw and applies `discard_color` as written, any other card is appended |
| Players.ReceivedNoRolls | push/game.py:152-156 | a pile without roll cards is appended to the hand unchanged and in order |
| Players.ReceivedFrom | push/game.py:152-156 | taking a pile adds no card that was neither in the hand nor in the pile |
| Players.ReceivedHasNoRoll | push/game.py:152-156 | a taken roll card never enters a hand |
| Players.ReceivedConcat | push/game.py:152-156 | receiving a pile in two parts: the second part is received by the hand the first leaves, starting at the first draw the first part did not use |
| Players.ReceivedEndsWith | push/game.py:152-156 | the cards after a pile's last roll card end the hand, unchanged and in pile order |
| Players.NonRoll | push/game.py:152-156 | the pile's cards other than roll cards, in pile order |
| Players.ReceivedAllBlack | push/game.py:152-165 | when every roll the pile causes shows black, the hand gains exactly the pile's non-roll cards, in pile order |
| Players.PlaceCard | push/game.py:137-142 | the card goes on the first accepting pile, and the result says whether it was placed; with no accepting pile nothing changes |
| Players.DealCard | push/game.py:133-145 | one pass of the dealing loop is one step of `DealAll` |
| Players.DealCards | push/game.py:122-147 | removes exactly the first min(count, deck size) cards from the deck, none for a non-positive count (the loop breaks when the deck runs out), and returns what `DealAll` gives for exactly those cards |
| Players.Player.constructor | push/game.py:113-117 | stores the name and the draw bounds, with an empty hand |
| Players.Player.SumCards | push/game.py:172-174 | `sum_cards` of the player's hand |
| Players.Player.NumCards | push/game.py:176-178 | `num_cards` of the player's hand |
| Players.Player.CreatePiles | push/game.py:119-147 | one draw picks the count in `[min, limit]`; the deck loses its first min(count, deck size) cards, and the results are `DealAll` of exactly those cards |
| Players.Player.RollDie | push/game.py:163-165 | one draw; the hand becomes `Discarded` of it for the face shown, as `discard_color` as written leaves it |
| Players.Player.ChoosePile | push/game.py:149-156 | removes the first lowest-valued pile; the hand becomes `Received` of it, with one draw per roll card |
| Players.Player.ReceivePile | push/game.py:152-156 | the card loop of `choose_pile` appends non-roll cards and rolls for roll cards, in pile order |
| Players.Player.DiscardColor | push/game.py:158-161 | the enumerate-and-pop loop leaves exactly `Discarded` of the hand |
| Players.Player.BankCards | push/game.py:167-170 | the hand becomes `Banked` of it: the same cards, with those of the colour flagged |
| TurnOrder.Range | push/game.py:189 | the starting seating is 0, 1, ..., n-1 |
| TurnOrder.RangeIsOrder | push/game.py:189 | the starting seating is a permutation of the players |
| TurnOrder.RotateLeft | push/game.py:199 | `np.roll(s, -1)`: every entry one place forward, the first to the end; also the unconditional rotation at line 208 |
| TurnOrder.Flip | push/game.py:200 | `np.flip`: the entries in reverse order |
| TurnOrder.RotateLeftAt | push/game.py:199 | `np.roll(s, -1)` moves every entry one place forward and the first to the end |
| TurnOrder.FlipAt | push/game.py:200 | `np.flip` reads the seating backwards |
| TurnOrder.Reversal | push/game.py:199-200 | `np.flip(np.roll(player_id, -1))` |
| TurnOrder.ReversalAt | push/game.py:199-200 | a reversal keeps the dealer at seat 0 and seats everyone else in the opposite order |
| TurnOrder.RotateLeftSeats | push/game.py:208 | rotating keeps every seat holding a player |
| TurnOrder.RotateLeftNoRepeats | push/game.py:208 | rotating seats nobody twice |
| TurnOrder.ReversalSeats | push/game.py:199-200 | reversing keeps every seat holding a player |
| TurnOrder.ReversalNoRepeats | push/game.py:199-200 | reversing seats nobody twice |
| TurnOrder.MovesKeepOrder | push/game.py:197-208 | rotation and reversal each map a permutation of the players to a permutation |
| TurnOrder.Targets | push/game.py:202-206 | `player_id[1:4]` after pushing too far, `player_id[:3]` otherwise, with numpy's clipping at the end |
| TurnOrder.TargetsSeats | push/game.py:202-206 | gives min(3, n-1) takers after pushing too far and min(3, n) otherwise, so never more than the three piles, each taker a player |
| TurnOrder.TargetsOf | push/game.py:202-206 | the takers are distinct, and the dealer is a taker exactly when they did not push too far |
| TurnOrder.NextDealer | push/game.py:197-208 | the next dealer is the player seated second, or the player seated last after a reversal |
| Scoring.HandScores | push/game.py:219-221 | `score` is every player's `sum_cards`, in player order |
| Scoring.HandCounts | push/game.py:233 | `num_cards` of every player, in player order |
| Scoring.Max | push/game.py:224 | the maximum score is one of the scores and at least every score |
| Scoring.ArgMax | push/game.py:228 | `np.argmax` is the first index holding the maximum |
| Scoring.IsWinnerUnique | push/game.py:223-246 | at most one outcome satisfies the winning rule |
| Scoring.PickWinner | push/game.py:223-246 | a unique top score wins; otherwise the first tied player with the most standard cards wins, or None exactly when every tied player holds no standard card |
| Games.Take | push/game.py:149-156 | one taker takes a pile: hand count unchanged, one pile fewer |
| Games.Distribute | push/game.py:210-211 | the takers take piles in turn; every player keeps a hand |
| Games.DistributeKeepsOthers | push/game.py:210-211 | a player who takes no pile keeps their hand |
| Games.Drawn | push/game.py:120-131 | the dealer deals at least one card and at most their limit |
| Games.Reseat | push/game.py:197-200 | the seating after an optional reversal still seats the players |
| Games.DealStage | push/game.py:195-200 | a turn deals from the front of the deck, between 1 and the dealer's limit cards |
| Games.Turn | push/game.py:191-211 | one turn keeps the table seated and strictly shrinks the deck |
| Games.Finish | push/game.py:190-213 | turns run until the deck is empty, and the table stays seated |
| Games.TurnKeepsOrder | push/game.py:191-211 | a turn maps a permutation seating to a permutation seating |
| Games.FinishKeepsOrder | push/game.py:188-213 | the seating the game ends with is a permutation of the players |
| Games.TakeKeepsNoRolls | push/game.py:149-156 | taking a pile puts no roll card into a hand |
| Games.DistributeKeepsNoRolls | push/game.py:210-211 | the takers' taking keeps every hand free of roll cards |
| Games.FinishKeepsNoRolls | push/game.py:188-213 | hands without roll cards never receive one in a whole game |
| Games.Game.constructor | push/game.py:183-186 | stores the players and creates a fresh shuffled deck |
| Games.Game.Scores | push/game.py:219-221 | `score` is `HandScores` of the players' hands |
| Games.Game.NumCardsList | push/game.py:233 | the players' `num_cards` are `HandCounts` of their hands |
| Games.Game.EndGame | push/game.py:223-246 | the returned winner satisfies the winning rule of `end_game` |
| Games.Game.DealTurn | push/game.py:191-206 | the dealer's `create_piles`, the reversal and the takers' window match `DealStage` |
| Games.Game.GivePile | push/game.py:211 | one taker's `choose_pile` is `Take`; no other player's hand changes |
| Games.Game.GivePiles | push/game.py:210-211 | the loop over the takers is `Distribute` |
| Games.Game.PlayTurn | push/game.py:191-211 | one pass of the loop of `play` is `Turn` on the deck, the hands, the seating and the draws |
| Games.Game.Play | push/game.py:188-213 | the game ends with an empty deck; the hands and the draws are those of `Finish`; the winner satisfies the winning rule; `player_id` is a permutation of the players before every turn (a loop invariant, kept by `TurnKeepsOrder`) |

## Left out

- Logging, including the die-roll and win messages. It is output only.
- `Card.__str__`. It is presentation only.
- Randomness is an injected oracle `outcomes: nat -> nat`. Each call to `randbelow`, `randint` or `choice` consumes one value.
  - `randbelow(n)` is taken to be the oracle value modulo `n`.
  - CPython's rejection sampling over random bits is not modelled. Every result is still reachable.
  - The shuffle is CPython's swap loop, driven by the same oracle.
- numpy is not modelled as a library. `np.arange`, `np.roll`, `np.flip` and `np.argmax` are plain sequence functions, and so is the tie scan in `np.where`.
- `Deck(cards=...)` and `PileGroup(piles=...)` are not modelled. Their non-default paths never assign the field.
- `Game.is_reversed` is not modelled. It is set once and never read.
- Sharing of card objects is not modelled: cards are values. In the source, `bank_cards` mutates shared card objects. No other list holds the cards of a hand, because the piles they came from are discarded, so nothing observable is lost.
- `bank_cards` is modelled and proved on its own. `play` never calls it.
- `Players.Player.CreatePiles`: requires `card_min_draw <= card_draw_limit`. Python raises `ValueError` there, and the model does not model the exception.
- `Games.Game.Play`: requires the following.
  - At least one player. With none, Python raises.
  - Distinct player objects. A player listed twice would alias hands.
  - `1 <= card_min_draw <= card_draw_limit` for every player. With a minimum below one, a draw of zero cards could stall the loop forever.
- `Games.Game.EndGame`: requires at least one player, because `max` of an empty list raises.
- Rules that the game's description mentions but `push/game.py` does not implement are not modelled: player-count validation, a starting-player offset, and a banking threshold or banking turn.
