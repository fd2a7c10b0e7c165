/** The rules of one game of No Thanks! as played by Run_Game, stated as
    functions of the game state. The classes in module NoThanks change this
    state in place, and each of their methods is proved to produce what the
    function of the same name here computes.

    The state a player's move sees is the player (hand and chips) and the
    table: the deck, the global `card_pool` (the open card) and the global
    `chip_pool` (the chips put on it). */
module Rules {
  import opened Tally

  /** What a player does with the open card. The source encodes it as the
      integer `decision`: 0 is Take and 1 is Pass. */
  datatype Action = Take | Pass

  /** The values of `random.randint(0, 1)` in rand_play, supplied from outside.
      Every rand_play follows a draw, and every draw leaves the deck one card
      shorter, so the value for the rand_play after the draw that left `n`
      cards is `coins(n)`, and no value is read twice. `true` stands for 1. */
  type Coins = nat -> bool

  /** A player: `card_hand` and `chip_hand`. */
  datatype Seat = Seat(hand: seq<int>, chips: int)

  /** The shared state. `open` is true while `cardPool` holds a card that was
      drawn and that nobody has taken yet; the source keeps no such flag (a
      taken card's value stays in `card_pool`), it is here so that where the
      cards are can be stated. */
  datatype Table = Table(deck: seq<int>, cardPool: int, chipPool: int, open: bool)

  /** A player and the table after that player's move. */
  datatype Step = Step(seat: Seat, table: Table)

  /** The three players and the table between two turns of Run_Game. */
  datatype Board = Board(seats: seq<Seat>, table: Table)

  /** The card waiting on the table, if any. */
  ghost function OpenCard(t: Table): multiset<int> {
    if t.open then multiset{t.cardPool} else multiset{}
  }

  /** Every card a move can see: the player's hand, the deck and the open
      card. */
  ghost function Cards(s: Step): multiset<int> {
    multiset(s.seat.hand) + multiset(s.table.deck) + OpenCard(s.table)
  }

  /** Between moves either the deck is empty or a card is waiting. */
  ghost predicate Settled(t: Table) {
    t.deck == [] || t.open
  }

  /** rand_play's decision: the coin, overridden by a forced take when the
      player has no chips left. */
  function RandomChoice(chips: int, coin: bool): (a: Action)
    ensures chips == 0 ==> a == Take
    ensures a == Pass ==> chips != 0
    ensures chips != 0 ==> (a == Pass <==> coin)
  {
    var drawn := if coin then 1 else 0;
    var decision := if chips == 0 then 0 else drawn;
    if decision == 0 then Take else Pass
  }

  /** calculated_play1's decision: take when the card costs less than the
      chips on it are worth at `chipValue` each, and always take without
      chips. */
  function CalculatedChoice(cardPool: int, chipPool: int, chipValue: int, chips: int): (a: Action)
    ensures chips == 0 ==> a == Take
    ensures a == Pass ==> chips != 0
    ensures chips != 0 ==> (a == Take <==> cardPool < chipPool * chipValue)
  {
    var judged := if cardPool - chipPool * chipValue < 0 then 0 else 1;
    var decision := if chips == 0 then 0 else judged;
    if decision == 0 then Take else Pass
  }

  /** pass_card: the player puts one chip on the open card. */
  function PassOutcome(p: Seat, t: Table): (s: Step)
    ensures s.seat.chips == p.chips - 1 && s.table.chipPool == t.chipPool + 1
    ensures s.seat.hand == p.hand && s.table.deck == t.deck
    ensures s.table.cardPool == t.cardPool && s.table.open == t.open
  {
    Step(Seat(p.hand, p.chips - 1), t.(chipPool := t.chipPool + 1))
  }

  /** take_card: the player takes the card and the chips on it; while the
      deck is not empty the same player then draws (draw_card) and decides on
      the new card at random (rand_play). */
  function TakeOutcome(p: Seat, t: Table, coins: Coins): (s: Step)
    ensures |s.seat.hand| > |p.hand| && |s.table.deck| <= |t.deck|
    ensures t.deck != [] ==> |s.table.deck| < |t.deck|
    decreases |t.deck|, 1
  {
    var p' := Seat(p.hand + [t.cardPool], p.chips + t.chipPool);
    var t' := t.(chipPool := 0, open := false);
    if t.deck != [] then DrawOutcome(p', t', coins) else Step(p', t')
  }

  /** draw_card: the last card of the deck becomes the open card, and the
      player decides on it at random. */
  function DrawOutcome(p: Seat, t: Table, coins: Coins): (s: Step)
    requires t.deck != []
    ensures |s.seat.hand| >= |p.hand| && |s.table.deck| < |t.deck|
    decreases |t.deck|, 0
  {
    var n := |t.deck| - 1;
    RandOutcome(p, t.(deck := t.deck[..n], cardPool := t.deck[n], open := true), coins)
  }

  /** rand_play: take or pass the open card as the coin says, but take when
      out of chips. */
  function RandOutcome(p: Seat, t: Table, coins: Coins): (s: Step)
    ensures |s.seat.hand| >= |p.hand| && |s.table.deck| <= |t.deck|
    decreases |t.deck|, 2
  {
    match RandomChoice(p.chips, coins(|t.deck|))
    case Take => TakeOutcome(p, t, coins)
    case Pass => PassOutcome(p, t)
  }

  /** calculated_play1 with chips worth `chipValue` each. */
  function CalculatedOutcome(p: Seat, t: Table, chipValue: int, coins: Coins): (s: Step)
    ensures |s.seat.hand| >= |p.hand| && |s.table.deck| <= |t.deck|
  {
    match CalculatedChoice(t.cardPool, t.chipPool, chipValue, p.chips)
    case Take => TakeOutcome(p, t, coins)
    case Pass => PassOutcome(p, t)
  }

  /** The chips of a player and the table only move between the two, and
      nobody ever owes chips: a player with no chips cannot pass. */
  ghost predicate ChipsKept(p: Seat, t: Table, s: Step) {
    s.seat.chips + s.table.chipPool == p.chips + t.chipPool &&
    (p.chips >= 0 && t.chipPool >= 0 ==> s.seat.chips >= 0 && s.table.chipPool >= 0)
  }

  lemma {:induction false} TakeChips(p: Seat, t: Table, coins: Coins)
    ensures ChipsKept(p, t, TakeOutcome(p, t, coins))
    decreases |t.deck|, 1
  {
    if t.deck != [] {
      DrawChips(Seat(p.hand + [t.cardPool], p.chips + t.chipPool), t.(chipPool := 0, open := false), coins);
    }
  }

  lemma {:induction false} DrawChips(p: Seat, t: Table, coins: Coins)
    requires t.deck != []
    ensures ChipsKept(p, t, DrawOutcome(p, t, coins))
    decreases |t.deck|, 0
  {
    var n := |t.deck| - 1;
    RandChips(p, t.(deck := t.deck[..n], cardPool := t.deck[n], open := true), coins);
  }

  lemma {:induction false} RandChips(p: Seat, t: Table, coins: Coins)
    ensures ChipsKept(p, t, RandOutcome(p, t, coins))
    decreases |t.deck|, 2
  {
    if RandomChoice(p.chips, coins(|t.deck|)) == Take {
      TakeChips(p, t, coins);
    }
  }

  lemma CalculatedChips(p: Seat, t: Table, chipValue: int, coins: Coins)
    ensures ChipsKept(p, t, CalculatedOutcome(p, t, chipValue, coins))
  {
    if CalculatedChoice(t.cardPool, t.chipPool, chipValue, p.chips) == Take {
      TakeChips(p, t, coins);
    }
  }

  /** take_card and the draws that follow it: the taken card heads what the
      player gains, the deck only loses cards from its end and loses at least
      one when it had any, the move ends with the deck empty or a card
      waiting, and no card appears or disappears. */
  lemma {:induction false} TakeCards(p: Seat, t: Table, coins: Coins)
    ensures var s := TakeOutcome(p, t, coins);
      p.hand + [t.cardPool] <= s.seat.hand &&
      s.table.deck <= t.deck && (t.deck != [] ==> |s.table.deck| < |t.deck|) &&
      Settled(s.table) &&
      Cards(s) == multiset(p.hand) + multiset(t.deck) + multiset{t.cardPool}
    decreases |t.deck|, 1
  {
    if t.deck != [] {
      DrawCards(Seat(p.hand + [t.cardPool], p.chips + t.chipPool), t.(chipPool := 0, open := false), coins);
    }
  }

  /** draw_card and the decision on the drawn card. */
  lemma {:induction false} DrawCards(p: Seat, t: Table, coins: Coins)
    requires t.deck != []
    ensures p.hand <= DrawOutcome(p, t, coins).seat.hand
    ensures DrawOutcome(p, t, coins).table.deck < t.deck
    ensures Settled(DrawOutcome(p, t, coins).table)
    ensures Cards(DrawOutcome(p, t, coins)) == multiset(p.hand) + multiset(t.deck)
    decreases |t.deck|, 0
  {
    var n := |t.deck| - 1;
    var u := t.(deck := t.deck[..n], cardPool := t.deck[n], open := true);
    RandCards(p, u, coins);
    assert t.deck == u.deck + [u.cardPool];
  }

  /** rand_play on a waiting card: a pass leaves the deck as it is, a take
      shortens it. */
  lemma {:induction false} RandCards(p: Seat, t: Table, coins: Coins)
    ensures var s := RandOutcome(p, t, coins);
      p.hand <= s.seat.hand &&
      s.table.deck <= t.deck && (t.deck != [] ==> |s.table.deck| < |t.deck| || s == PassOutcome(p, t)) &&
      (t.open ==> Settled(s.table) && Cards(s) == multiset(p.hand) + multiset(t.deck) + OpenCard(t))
    decreases |t.deck|, 2
  {
    if RandomChoice(p.chips, coins(|t.deck|)) == Take {
      TakeCards(p, t, coins);
    }
  }

  /** calculated_play1 on a waiting card. */
  lemma CalculatedCards(p: Seat, t: Table, chipValue: int, coins: Coins)
    ensures var s := CalculatedOutcome(p, t, chipValue, coins);
      p.hand <= s.seat.hand &&
      s.table.deck <= t.deck && (t.deck != [] ==> |s.table.deck| < |t.deck| || s == PassOutcome(p, t)) &&
      (t.open ==> Settled(s.table) && Cards(s) == multiset(p.hand) + multiset(t.deck) + OpenCard(t))
  {
    if CalculatedChoice(t.cardPool, t.chipPool, chipValue, p.chips) == Take {
      TakeCards(p, t, coins);
    }
  }

  /** Where take_card's chips go: the player gains all of `chip_pool` and the
      pool is emptied. If the player then passes the next card drawn, one chip
      goes back onto it, so the move ends with 0 or 1 chip on the table and
      the player holding the rest; on an empty deck the pool ends at 0. */
  lemma {:induction false} TakeTransfer(p: Seat, t: Table, coins: Coins)
    ensures var s := TakeOutcome(p, t, coins);
      (s.table.chipPool == 0 || s.table.chipPool == 1) &&
      s.seat.chips == p.chips + t.chipPool - s.table.chipPool &&
      (t.deck == [] ==> s.table.chipPool == 0)
    decreases |t.deck|, 1
  {
    if t.deck != [] {
      DrawTransfer(Seat(p.hand + [t.cardPool], p.chips + t.chipPool), t.(chipPool := 0, open := false), coins);
    }
  }

  /** A draw onto an empty pool ends with 0 or 1 chip on the table, the one
      the player put there on a pass. */
  lemma {:induction false} DrawTransfer(p: Seat, t: Table, coins: Coins)
    requires t.deck != [] && t.chipPool == 0
    ensures var s := DrawOutcome(p, t, coins);
      (s.table.chipPool == 0 || s.table.chipPool == 1) &&
      s.seat.chips == p.chips - s.table.chipPool
    decreases |t.deck|, 0
  {
    var n := |t.deck| - 1;
    RandTransfer(p, t.(deck := t.deck[..n], cardPool := t.deck[n], open := true), coins);
  }

  lemma {:induction false} RandTransfer(p: Seat, t: Table, coins: Coins)
    requires t.chipPool == 0
    ensures var s := RandOutcome(p, t, coins);
      (s.table.chipPool == 0 || s.table.chipPool == 1) &&
      s.seat.chips == p.chips - s.table.chipPool
    decreases |t.deck|, 2
  {
    if RandomChoice(p.chips, coins(|t.deck|)) == Take {
      TakeTransfer(p, t, coins);
    }
  }

  /** rand_play does what its decision says: on a pass the result is
      pass_card's, on a take it is take_card's, with the open card next in
      the hand. */
  lemma RandFollowsChoice(p: Seat, t: Table, coins: Coins)
    ensures RandomChoice(p.chips, coins(|t.deck|)) == Pass ==>
      RandOutcome(p, t, coins) == PassOutcome(p, t)
    ensures RandomChoice(p.chips, coins(|t.deck|)) == Take ==>
      RandOutcome(p, t, coins) == TakeOutcome(p, t, coins) &&
      p.hand + [t.cardPool] <= RandOutcome(p, t, coins).seat.hand
  {
    TakeCards(p, t, coins);
  }

  /** calculated_play1 does what its decision says: with chips in hand it
      passes exactly when card_pool - chip_pool*chip_value is not negative. */
  lemma CalculatedFollowsChoice(p: Seat, t: Table, chipValue: int, coins: Coins)
    ensures CalculatedChoice(t.cardPool, t.chipPool, chipValue, p.chips) == Pass ==>
      CalculatedOutcome(p, t, chipValue, coins) == PassOutcome(p, t)
    ensures CalculatedChoice(t.cardPool, t.chipPool, chipValue, p.chips) == Take ==>
      CalculatedOutcome(p, t, chipValue, coins) == TakeOutcome(p, t, coins) &&
      p.hand + [t.cardPool] <= CalculatedOutcome(p, t, chipValue, coins).seat.hand
  {
    TakeCards(p, t, coins);
  }

  /** A player without chips takes the open card, whatever the coin or the
      card's worth: it is the next card of the hand. */
  lemma ForcedTake(p: Seat, t: Table, chipValue: int, coins: Coins)
    requires p.chips == 0
    ensures var s := RandOutcome(p, t, coins);
      |p.hand| < |s.seat.hand| && s.seat.hand[|p.hand|] == t.cardPool
    ensures var s := CalculatedOutcome(p, t, chipValue, coins);
      |p.hand| < |s.seat.hand| && s.seat.hand[|p.hand|] == t.cardPool
  {
    TakeCards(p, t, coins);
    var s := TakeOutcome(p, t, coins);
    assert (p.hand + [t.cardPool])[|p.hand|] == t.cardPool;
    assert s.seat.hand[|p.hand|] == (p.hand + [t.cardPool])[|p.hand|];
  }

  /** The seat whose turn `turnNo` is: turn_no % 3 == 1 is Player_1 (seat
      0), 2 is Player_2 (seat 1) and 0 is Player_3 (seat 2). */
  function SeatOf(turnNo: int): (k: nat)
    ensures k < 3
  {
    if turnNo % 3 == 1 then 0 else if turnNo % 3 == 2 then 1 else 2
  }

  /** Run_Game hands each player a fixed chip value: 5, 4 and 6. */
  function ChipValue(k: nat): int {
    if k == 0 then 5 else if k == 1 then 4 else 6
  }

  /** Turns go round the table: turn 1 is Player_1's and every turn passes
      to the next seat, Player_3 handing back to Player_1. */
  lemma SeatRotation(turnNo: int)
    ensures SeatOf(1) == 0
    ensures SeatOf(turnNo + 1) == (SeatOf(turnNo) + 1) % 3
    ensures SeatOf(turnNo + 3) == SeatOf(turnNo)
  {
    assert (turnNo + 1) % 3 == (turnNo % 3 + 1) % 3;
    assert (turnNo + 3) % 3 == turnNo % 3;
  }

  function ChipsHeld(seats: seq<Seat>): int {
    if seats == [] then 0 else seats[0].chips + ChipsHeld(seats[1..])
  }

  ghost function Hands(seats: seq<Seat>): multiset<int> {
    if seats == [] then multiset{} else multiset(seats[0].hand) + Hands(seats[1..])
  }

  /** Chips in the players' hands and on the table. */
  function ChipTotal(b: Board): int {
    ChipsHeld(b.seats) + b.table.chipPool
  }

  ghost predicate NonNegative(b: Board) {
    b.table.chipPool >= 0 && forall k :: 0 <= k < |b.seats| ==> b.seats[k].chips >= 0
  }

  /** Replacing one seat changes the chips held by the difference. */
  lemma {:induction false} ChipsHeldUpdate(seats: seq<Seat>, k: nat, s: Seat)
    requires k < |seats|
    ensures ChipsHeld(seats[k := s]) == ChipsHeld(seats) - seats[k].chips + s.chips
  {
    if k > 0 {
      ChipsHeldUpdate(seats[1..], k - 1, s);
      assert seats[k := s][1..] == seats[1..][k - 1 := s];
    }
  }

  /** Replacing one seat swaps that seat's cards among the cards held. */
  lemma {:induction false} HandsUpdate(seats: seq<Seat>, k: nat, s: Seat)
    requires k < |seats|
    ensures Hands(seats[k := s]) + multiset(seats[k].hand) == Hands(seats) + multiset(s.hand)
  {
    var t := seats[k := s];
    if k > 0 {
      var rest := seats[1..];
      HandsUpdate(rest, k - 1, s);
      assert t[1..] == rest[k - 1 := s];
      assert t[0] == seats[0] && rest[k - 1] == seats[k];
      calc {
        Hands(t) + multiset(seats[k].hand);
        multiset(seats[0].hand) + Hands(rest[k - 1 := s]) + multiset(rest[k - 1].hand);
        multiset(seats[0].hand) + (Hands(rest[k - 1 := s]) + multiset(rest[k - 1].hand));
        multiset(seats[0].hand) + (Hands(rest) + multiset(s.hand));
        Hands(seats) + multiset(s.hand);
      }
    } else {
      assert t[1..] == seats[1..];
    }
  }

  /** Cancelling a multiset common to both sides of two balances. */
  lemma Rebalance(a: multiset<int>, b: multiset<int>, x: multiset<int>, y: multiset<int>,
                  c1: multiset<int>, c2: multiset<int>, d1: multiset<int>, d2: multiset<int>)
    requires a + x == b + y && y + c1 + c2 == x + d1 + d2
    ensures a + c1 + c2 == b + d1 + d2
  {
    forall v ensures (a + c1 + c2)[v] == (b + d1 + d2)[v] {
      assert (a + x)[v] == (b + y)[v] && (y + c1 + c2)[v] == (x + d1 + d2)[v];
    }
  }

  /** A board where every player holds chips holds a non-negative number of
      them. */
  lemma {:induction false} ChipsHeldNonNegative(seats: seq<Seat>)
    requires forall k :: 0 <= k < |seats| ==> seats[k].chips >= 0
    ensures ChipsHeld(seats) >= 0
  {
    if seats != [] {
      ChipsHeldNonNegative(seats[1..]);
    }
  }

  /** One pass of Run_Game's loop body: the seat whose turn `turnNo` is plays
      calculated_play1 with its chip value. */
  function Turn(b: Board, turnNo: int, coins: Coins): (r: Board)
    requires |b.seats| == 3
    ensures |r.seats| == 3
    ensures forall j :: 0 <= j < 3 && j != SeatOf(turnNo) ==> r.seats[j] == b.seats[j]
  {
    var k := SeatOf(turnNo);
    var s := CalculatedOutcome(b.seats[k], b.table, ChipValue(k), coins);
    Board(b.seats[k := s.seat], s.table)
  }

  /** A turn keeps the chip total and keeps everyone solvent; on a non-empty
      deck it draws a card or moves a chip from the players to the table; and
      it keeps every card in a hand, in the deck or on the table. */
  lemma TurnLaws(b: Board, turnNo: int, coins: Coins)
    requires |b.seats| == 3
    ensures var r := Turn(b, turnNo, coins);
      ChipTotal(r) == ChipTotal(b) && (NonNegative(b) ==> NonNegative(r))
    ensures var r := Turn(b, turnNo, coins);
      r.table.deck <= b.table.deck &&
      (b.table.deck != [] ==>
        |r.table.deck| < |b.table.deck| || ChipsHeld(r.seats) == ChipsHeld(b.seats) - 1)
    ensures var r := Turn(b, turnNo, coins);
      b.table.open ==>
        Settled(r.table) &&
        Hands(r.seats) + multiset(r.table.deck) + OpenCard(r.table) == Hands(b.seats) + multiset(b.table.deck) + OpenCard(b.table)
  {
    var k := SeatOf(turnNo);
    var s := CalculatedOutcome(b.seats[k], b.table, ChipValue(k), coins);
    var r := Board(b.seats[k := s.seat], s.table);
    CalculatedChips(b.seats[k], b.table, ChipValue(k), coins);
    CalculatedCards(b.seats[k], b.table, ChipValue(k), coins);
    ChipsHeldUpdate(b.seats, k, s.seat);
    HandsUpdate(b.seats, k, s.seat);
    if b.table.open {
      Rebalance(Hands(r.seats), Hands(b.seats), multiset(b.seats[k].hand), multiset(s.seat.hand),
                multiset(s.table.deck), OpenCard(s.table), multiset(b.table.deck), OpenCard(b.table));
    }
  }

  /** Run_Game's `while` loop from turn `turnNo` on: it runs until the deck is
      empty. It stops because every turn either draws a card or moves one of
      the players' chips to the table, and those chips never go below zero.
      The chip total is what it was and nobody owes chips. */
  function PlayOut(b: Board, turnNo: int, coins: Coins): (r: Board)
    requires |b.seats| == 3 && NonNegative(b)
    ensures |r.seats| == 3 && r.table.deck == []
    ensures ChipTotal(r) == ChipTotal(b) && NonNegative(r)
    decreases |b.table.deck|, ChipsHeld(b.seats)
  {
    if b.table.deck == [] then b
    else
      ChipsHeldNonNegative(b.seats);
      TurnLaws(b, turnNo + 1, coins);
      PlayOut(Turn(b, turnNo + 1, coins), turnNo + 1, coins)
  }

  /** Over the whole loop every card of the deck ends in a hand or, if the
      last card was passed, on the table. */
  lemma {:induction false} PlayOutCards(b: Board, turnNo: int, coins: Coins)
    requires |b.seats| == 3 && NonNegative(b) && Settled(b.table)
    ensures var r := PlayOut(b, turnNo, coins);
      Hands(r.seats) + OpenCard(r.table) == Hands(b.seats) + multiset(b.table.deck) + OpenCard(b.table)
    decreases |b.table.deck|, ChipsHeld(b.seats)
  {
    if b.table.deck != [] {
      ChipsHeldNonNegative(b.seats);
      TurnLaws(b, turnNo + 1, coins);
      PlayOutCards(Turn(b, turnNo + 1, coins), turnNo + 1, coins);
    }
  }

  /** What `Deck.build` deals: 24 different cards out of 3 to 35. */
  ghost predicate Dealt(deck: seq<int>) {
    |deck| == 24 &&
    (forall k :: 0 <= k < |deck| ==> 3 <= deck[k] <= 35) &&
    (forall j, k :: 0 <= j < k < |deck| ==> deck[j] != deck[k])
  }

  /** Beside Player_1 sit two players who have not played yet. */
  lemma JoinNewcomers(first: Seat)
    ensures ChipsHeld([first, Seat([], 11), Seat([], 11)]) == first.chips + 22
    ensures Hands([first, Seat([], 11), Seat([], 11)]) == multiset(first.hand)
  {
    var n := Seat([], 11);
    assert [first, n, n][1..] == [n, n] && [n, n][1..] == [n] && [n][1..] == [];
    assert ChipsHeld([n]) == 11 && ChipsHeld([n, n]) == 22;
    assert Hands([n]) == multiset{} && Hands([n, n]) == multiset{};
  }

  /** The opening of Run_Game: three players with 11 chips each, both pools
      at 0, and Player_1 drawing the first card. */
  function Opening(deck: seq<int>, coins: Coins): (b: Board)
    requires deck != []
    ensures |b.seats| == 3 && NonNegative(b)
    ensures ChipTotal(b) == 33
  {
    var newcomer := Seat([], 11);
    var s := DrawOutcome(newcomer, Table(deck, 0, 0, false), coins);
    DrawChips(newcomer, Table(deck, 0, 0, false), coins);
    JoinNewcomers(s.seat);
    Board([s.seat, newcomer, newcomer], s.table)
  }

  /** A whole game: the opening, then the loop from turn 1 on. It ends with
      the deck empty, all 33 chips still there and nobody owing chips. */
  function Game(deck: seq<int>, coins: Coins): (b: Board)
    requires deck != []
    ensures |b.seats| == 3 && b.table.deck == []
    ensures ChipTotal(b) == 33 && NonNegative(b)
  {
    PlayOut(Opening(deck, coins), 1, coins)
  }

  /** Every card of the deck ends the game in exactly one hand or, when the
      last card was passed, still on the table. */
  lemma GameCards(deck: seq<int>, coins: Coins)
    requires deck != []
    ensures var b := Game(deck, coins);
      Hands(b.seats) + OpenCard(b.table) == multiset(deck)
  {
    var newcomer := Seat([], 11);
    var t := Table(deck, 0, 0, false);
    var s := DrawOutcome(newcomer, t, coins);
    DrawCards(newcomer, t, coins);
    JoinNewcomers(s.seat);
    PlayOutCards(Opening(deck, coins), 1, coins);
  }

  /** Python's `min` of three totals. */
  function Min(a: int, b: int, c: int): (m: int)
    ensures m <= a && m <= b && m <= c
    ensures m == a || m == b || m == c
  {
    if a <= b && a <= c then a else if b <= c then b else c
  }

  /** The winner selection of Run_Game: the first player whose total equals
      the minimum. The winner has the lowest total and every player before it
      has a higher one, so ties go to Player_1, then Player_2. */
  function Winner(totals: seq<int>): (k: nat)
    requires |totals| == 3
    ensures k < 3
    ensures forall j :: 0 <= j < 3 ==> totals[k] <= totals[j]
    ensures forall j :: 0 <= j < k ==> totals[j] > totals[k]
  {
    var m := Min(totals[0], totals[1], totals[2]);
    if m == totals[0] then 0 else if m == totals[1] then 1 else 2
  }

  /** What point_tally returns for each player at the end. */
  function Totals(seats: seq<Seat>): (totals: seq<int>)
    requires |seats| == 3
    ensures |totals| == 3
  {
    [Score(seats[0].hand, seats[0].chips),
     Score(seats[1].hand, seats[1].chips),
     Score(seats[2].hand, seats[2].chips)]
  }

  /** The seat Run_Game names as the winner of the game dealt as `deck`. */
  function GameWinner(deck: seq<int>, coins: Coins): (k: nat)
    requires deck != []
    ensures k < 3
    ensures forall j :: 0 <= j < 3 ==> Totals(Game(deck, coins).seats)[k] <= Totals(Game(deck, coins).seats)[j]
    ensures forall j :: 0 <= j < k ==> Totals(Game(deck, coins).seats)[j] > Totals(Game(deck, coins).seats)[k]
  {
    Winner(Totals(Game(deck, coins).seats))
  }
}
