# No Thanks! — a verified model of `No_Thanks.py`

`No_Thanks.py` plays the card game *No Thanks!* for three players. It has three parts:

- A `Deck` of 24 cards, drawn from 3 to 35.
- A `Player` class. Each player starts with 11 chips and can take or pass the open card. There are two decision rules: a coin flip (`rand_play`) and a fixed worth per chip (`calculated_play1`). `point_tally` scores a hand.
- A `Run_Game` function. It deals, lets Player_1 draw the first card, and runs turns by `turn_no % 3` until the deck is empty. It then tallies the scores and names the first player with the lowest total.

The open card and the chips on it live in the module globals `card_pool` and `chip_pool`.

The project has three modules:

- `Tally` (tally.dfy) models `point_tally` as the code behaves. The hand is sorted, reversed, then walked by a Python `for` loop that removes elements from the list it is walking. The loop's hidden index moves on after a removal, so the card that slides into the freed slot is never looked at.
  - `Sweep` is that loop with the index written out.
  - `Collapse` is the hand left behind.
  - `Score` is the returned total.
- `Rules` (rules.dfy) states every move as a function of the state: a player (`Seat`) and the table (`Table`: deck, `card_pool`, `chip_pool`). Each move has its own function:
  - `TakeOutcome` for `take_card`, including the draws that follow a take.
  - `DrawOutcome` for `draw_card`.
  - `RandOutcome` for `rand_play`.
  - `CalculatedOutcome` for `calculated_play1`.
  - `PassOutcome` for `pass_card`.

  Further functions cover the game as a whole:
  - `Turn` is one pass of Run_Game's loop.
  - `PlayOut` is the whole loop.
  - `Game` is the opening followed by the loop.
  - `Winner` is the final `if`/`elif`.

  The module also holds the lemmas:
  - Chip conservation: the players' chips and `chip_pool` always add up to 33, and nobody goes below zero.
  - Card conservation: every dealt card ends in exactly one hand, or on the table.
  - Termination of the loop.
  - The decision rules, including the forced take at zero chips.
  - Seat rotation.
  - The winner's minimality and tie-breaking.
- `NoThanks` (no_thanks.dfy) has the source's own objects as classes that change in place:
  - `Deck`.
  - `Pool`, which holds the two globals.
  - `Player`.

  It also has the method `RunGame`. Each method that plays a move is proved to leave the player and the table exactly as the `Rules` function of the same name says. `PointTally` is a `while i < |cardHand|` loop that advances `i` on every pass, proved to give `Collapse` and `Score`. `RunGame`'s result is proved to be the name of the seat `GameWinner` picks.

Randomness is an input:
- The deal that `random.sample` makes is the `sample` parameter of `RunGame`. `Rules.Dealt` requires it to hold 24 distinct cards in 3..35.
- The values of `random.randint(0, 1)` in `rand_play` come from a `Coins` oracle (`nat -> bool`). Every `rand_play` follows a draw, and every draw leaves the deck one card shorter, so the oracle is indexed by the number of cards left after that draw. No value is read twice.

Observations from the code, which the model keeps as they are:
- `point_tally` does not reduce a run to its lowest card. A run v+2, v+1, v keeps v+1 and v, so 10, 9, 8 scores 17 instead of 8 (`Tally.ScoreRunOfThree`). The rule of the game counts only the lowest card of a run; the model follows the code.
- The game stops as soon as the deck is empty. If the last card drawn was passed, it stays in `card_pool` and belongs to no one. `Rules.GameCards` states this outcome explicitly: the hands together with the card still on the table hold the whole deal.
- In `RunGame` the body of the `while` loop is the method `PlayTurn`, and the tally and `if`/`elif` after it are the method `DeclareWinner`. Both are inline in `Run_Game`.

## Model

| member | source | states |
|---|---|---|
| Tally.Sort | No_Thanks.py:95 | `list.sort()`: the result is in ascending order and holds exactly the hand's cards (same multiset) |
| Tally.Insert | No_Thanks.py:95 | inserting a card into an ascending list keeps it ascending and adds exactly that card |
| Tally.AscendingUnique | No_Thanks.py:95 | two ascending lists with the same cards are equal, so the sorted hand is unique |
| Tally.Reverse | No_Thanks.py:96 | `list.reverse()`: same length, position k holds the element at position n-1-k, same cards |
| Tally.IndexOf | No_Thanks.py:100 | `list.remove` finds the first occurrence: the index holds `x` and no earlier index does |
| Tally.RemoveFirst | No_Thanks.py:100 | `list.remove(x)` drops the first occurrence of `x` and keeps every other element in order; the list is one shorter and has exactly one copy of `x` fewer |
| Tally.Sweep | No_Thanks.py:98-100 | the removal loop only ever removes cards: the result's cards are a sub-multiset of its input |
| Tally.SweepDescending | No_Thanks.py:98-100 | the removal loop keeps a non-increasing list non-increasing |
| Tally.Collapse | No_Thanks.py:95-100 | the hand point_tally leaves is sorted descending and holds only cards of the original hand |
| Tally.SweepRemovesAfterPredecessor | No_Thanks.py:98-100 | the loop removes a copy of v only if v-1 is in the list it started from |
| Tally.CollapseRemovesAfterPredecessor | No_Thanks.py:94-100 | every card point_tally drops had its predecessor value in the hand |
| Tally.SweepNoRuns | No_Thanks.py:98-100 | on a list in which no value has its predecessor, the loop removes nothing |
| Tally.CollapseNoRuns | No_Thanks.py:94-100 | a hand without two consecutive values keeps every card |
| Tally.SortPair | No_Thanks.py:95 | both orders of {v, v+1} sort to [v, v+1] |
| Tally.SweepPair | No_Thanks.py:98-100 | the loop turns [v+1, v] into [v] |
| Tally.CollapsePair | No_Thanks.py:94-100 | a hand of exactly {v, v+1}, in either order, reduces to [v] |
| Tally.SortRunOfThree | No_Thanks.py:95 | v+2, v+1, v sorts to v, v+1, v+2 |
| Tally.SweepRunOfThreeHead | No_Thanks.py:98-100 | on v+2, v+1, v the first pass removes v+2 and the index moves past the slot v+1 slid into |
| Tally.SweepRunOfThreeTail | No_Thanks.py:98-100 | the lowest card of the run has no predecessor, so the loop stops with v+1, v |
| Tally.CollapseRunOfThree | No_Thanks.py:94-100 | a run of three keeps its two lower cards, not only the lowest |
| Tally.Sum | No_Thanks.py:102 | Python's `sum` over the remaining cards; it has no contract of its own and is used by `Tally.Score` |
| Tally.Score | No_Thanks.py:102-104 | point_tally's value: card points of `Tally.Collapse` of the hand minus the chips; `NoThanks.Player.PointTally` is proved to return it and `Tally.ScoreRunOfThree` evaluates it |
| Tally.ScoreRunOfThree | No_Thanks.py:94-104 | the run v+2, v+1, v with no chips scores 2v+1, e.g. 17 for 10, 9, 8 |
| Rules.RandomChoice | No_Thanks.py:83-92 | rand_play's decision: take at zero chips; otherwise pass exactly when the coin is 1 |
| Rules.CalculatedChoice | No_Thanks.py:113-125 | calculated_play1's decision: take at zero chips; otherwise take exactly when card_pool - chip_pool*chip_value < 0 |
| Rules.PassOutcome | No_Thanks.py:68-73 | pass_card: the player has one chip fewer and chip_pool one more; the hand, the deck, card_pool and the open card are unchanged |
| Rules.TakeOutcome | No_Thanks.py:55-66 | take_card, with the draw that follows on a non-empty deck: the hand grows, the deck never grows and a non-empty deck gets shorter; chips are stated by `Rules.TakeChips` and `Rules.TakeTransfer`, cards by `Rules.TakeCards` |
| Rules.DrawOutcome | No_Thanks.py:47-53 | draw_card then rand_play: the deck gets strictly shorter and the hand never shrinks; chips and cards are stated by `Rules.DrawChips` and `Rules.DrawCards` |
| Rules.RandOutcome | No_Thanks.py:77-92 | rand_play: the hand never shrinks and the deck never grows; chips and cards are stated by `Rules.RandChips` and `Rules.RandCards`, and `Rules.RandFollowsChoice` ties the result to `Rules.RandomChoice` |
| Rules.CalculatedOutcome | No_Thanks.py:106-125 | calculated_play1: the hand never shrinks and the deck never grows; chips and cards are stated by `Rules.CalculatedChips` and `Rules.CalculatedCards`, and `Rules.CalculatedFollowsChoice` ties the result to `Rules.CalculatedChoice` |
| Rules.TakeTransfer | No_Thanks.py:55-66 | take_card gives the player all of chip_pool and empties it: the move ends with 0 or 1 chip on the table (1 only after a pass on the next card drawn), the player holding the rest, and 0 on an empty deck |
| Rules.DrawTransfer | No_Thanks.py:47-53 | a draw onto an empty pool ends with 0 or 1 chip on the table, and the player has exactly that many chips fewer |
| Rules.RandTransfer | No_Thanks.py:77-92 | rand_play on an empty pool ends with 0 or 1 chip on the table, and the player has exactly that many chips fewer |
| Rules.RandFollowsChoice | No_Thanks.py:83-92 | rand_play does what `Rules.RandomChoice` decides: on Pass its result is pass_card's; on Take it is take_card's, and the open card is the next card of the hand |
| Rules.CalculatedFollowsChoice | No_Thanks.py:113-125 | calculated_play1 does what `Rules.CalculatedChoice` decides: on Pass its result is pass_card's; on Take it is take_card's, and the open card is the next card of the hand |
| Rules.TakeChips | No_Thanks.py:55-66 | take_card and the draws after it keep the player's chips plus chip_pool, and keep both non-negative |
| Rules.DrawChips | No_Thanks.py:47-53 | draw_card and the decision on the drawn card keep the player's chips plus chip_pool, and keep both non-negative |
| Rules.RandChips | No_Thanks.py:77-92 | rand_play keeps the player's chips plus chip_pool, and never makes either negative |
| Rules.CalculatedChips | No_Thanks.py:106-125 | calculated_play1 keeps the player's chips plus chip_pool, and never makes either negative |
| Rules.TakeCards | No_Thanks.py:55-66 | take_card appends the open card to the hand; the deck loses cards only from its end and at least one if it had any; the move ends with the deck empty or a card waiting; the hand, deck and open card together hold the same cards as before |
| Rules.DrawCards | No_Thanks.py:47-53 | draw_card takes from the end of the deck and makes it strictly shorter; hand, deck and open card hold the same cards as hand and deck before |
| Rules.RandCards | No_Thanks.py:77-92 | rand_play only extends the hand and only shortens the deck from its end; on a non-empty deck it shortens the deck or is exactly a pass; it loses no card |
| Rules.CalculatedCards | No_Thanks.py:106-125 | calculated_play1 only extends the hand and only shortens the deck from its end; on a non-empty deck it shortens the deck or is exactly a pass; it loses no card |
| Rules.ForcedTake | No_Thanks.py:83-122 | a player with zero chips takes the open card under both rand_play and calculated_play1: it becomes the next card of the hand |
| Rules.SeatOf | No_Thanks.py:158-168 | the seat chosen by turn_no % 3 is one of the three players |
| Rules.SeatRotation | No_Thanks.py:153-168 | turn 1 is Player_1's, each turn goes to the next seat, and seats repeat every three turns |
| Rules.ChipValue | No_Thanks.py:158-168 | the chip value each seat passes to calculated_play1: 5 for Player_1, 4 for Player_2, 6 for Player_3; no contract of its own, `NoThanks.PlayTurn` is proved to play `Rules.Turn`, which uses it |
| Rules.Turn | No_Thanks.py:156-168 | a pass of the loop body leaves three players, and every player other than the one turn_no % 3 picks is untouched |
| Rules.TurnLaws | No_Thanks.py:156-168 | a turn keeps the chip total and keeps everyone's chips non-negative; on a non-empty deck it shortens the deck or moves one of the players' chips to the pool; it loses no card |
| Rules.PlayOut | No_Thanks.py:155-168 | the `while` loop terminates (measure: deck size, then players' chips), ends with the deck empty, and keeps the chip total and non-negative chips |
| Rules.PlayOutCards | No_Thanks.py:155-168 | over the loop every card of the deck ends in a hand or, last passed, on the table |
| Rules.Dealt | No_Thanks.py:17-18 | what `build` deals: 24 pairwise different cards, each in 3..35; a predicate without a contract, the precondition of `NoThanks.RunGame` |
| Rules.Opening | No_Thanks.py:137-153 | three players with 11 chips each, pools at 0, Player_1 draws: 33 chips, none negative |
| Rules.Game | No_Thanks.py:137-168 | a whole game ends with the deck empty, all 33 chips still held by players or the pool, none negative |
| Rules.GameCards | No_Thanks.py:137-168 | the hands at the end, plus a last card left on the table, are exactly the deal |
| Rules.Min | No_Thanks.py:179 | `min` of three totals is at most each and equal to one of them |
| Rules.Winner | No_Thanks.py:179-189 | the winner has the lowest total and every player before it has a strictly higher one (ties go to Player_1, then Player_2) |
| Rules.Totals | No_Thanks.py:171-173 | there is one total per player |
| Rules.GameWinner | No_Thanks.py:171-189 | the winner of a dealt game is one of the three seats, has the lowest final total, and every earlier seat has a strictly higher total |
| NoThanks.Deck.constructor | No_Thanks.py:13-14 | a new deck is empty |
| NoThanks.Deck.Build | No_Thanks.py:20-21 | the sampled cards are appended to the deck in order |
| NoThanks.Deck.Draw | No_Thanks.py:25-26 | the returned card is the deck's last card and the deck is what came before it |
| NoThanks.Deck.CheckEnd | No_Thanks.py:28-30 | true exactly when the deck is empty |
| NoThanks.Pool.constructor | No_Thanks.py:150-151 | both pools start at 0 |
| NoThanks.Player.constructor | No_Thanks.py:42-45 | a new player has the given name, an empty hand and 11 chips |
| NoThanks.Player.DrawCard | No_Thanks.py:47-53 | the new player and table are `Rules.DrawOutcome` of the old ones |
| NoThanks.Player.TakeCard | No_Thanks.py:55-66 | the new player and table are `Rules.TakeOutcome` of the old ones |
| NoThanks.Player.PassCard | No_Thanks.py:68-73 | one chip moves from the player to chip_pool; the hand and card_pool are unchanged |
| NoThanks.Player.RandPlay | No_Thanks.py:77-92 | the new player and table are `Rules.RandOutcome` of the old ones |
| NoThanks.Player.CalculatedPlay1 | No_Thanks.py:106-125 | the new player and table are `Rules.CalculatedOutcome` of the old ones |
| NoThanks.Player.PointTally | No_Thanks.py:94-104 | the hand becomes `Tally.Collapse` of the old hand, the chips are unchanged, and the result is the remaining cards' sum minus the chips |
| NoThanks.PlayTurn | No_Thanks.py:156-168 | the seat turn_no % 3 picks plays calculated_play1 with chip value 5, 4 or 6; the board becomes `Rules.Turn` of the old board |
| NoThanks.DeclareWinner | No_Thanks.py:171-189 | each player tallies, the name returned is the one at the seat `Rules.Winner` picks from the totals, and each hand is left as `Tally.Collapse` of itself with the chips unchanged |
| NoThanks.RunGame | No_Thanks.py:130-189 | the returned name is the name at the seat `Rules.GameWinner` picks for the deal and the coins |

## Left out

- `Deck.build`'s `random.sample` and its `print`: the deal is the parameter `sample`. `Build` only appends it.
- `random.randint` in `rand_play`: its values are the `Coins` oracle.
- The top-level `win_counter` script: a driver that repeats random games.
- The commented-out narration `print`s: console output.
- NoThanks.Deck.Draw: requires a non-empty deck, as does NoThanks.Player.DrawCard. Python's `pop` raises on an empty list. `take_card` checks `check_end` before it draws, and Run_Game's opening draw comes right after `build` has dealt 24 cards.
- NoThanks.Deck.CheckEnd: returns `false` where `check_end` falls through to `None`. Callers only compare the result with `True`.
- `player` argument: `draw_card`, `take_card`, `rand_play` and `calculated_play1` take one, and every call passes the object itself, so the methods act on `this`.
- Tally.Collapse: "sub-list of the original" is stated as a sub-multiset of the hand in descending order, not as an order-preserving subsequence of the unsorted hand.
- Tally.CollapseRemovesAfterPredecessor: states that v-1 was in the hand. It does not state that v-1 was still in the list at the moment v was removed, although the loop's guard checks exactly that.
- Rules.Totals: its contract states only the number of totals. What each total is comes from `NoThanks.Player.PointTally`.
- `Pool.open`: a ghost flag. It records whether `card_pool` holds a card nobody has taken, so that card conservation can be stated. The source has no such flag.
