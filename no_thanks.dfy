/** The objects of No_Thanks.py and Run_Game, which change them in place.

    The module-level globals `card_pool` and `chip_pool` are the fields of a
    `Pool` object that every method touching them receives. Each method that
    plays a move is proved to leave the player and the table as the function
    of the same name in module Rules says; what those functions keep (chips,
    cards, a shrinking deck) is proved there. */
module NoThanks {
  import opened Tally
  import opened Rules

  /** The deck: a list of cards drawn from the end. */
  class Deck {
    var cards: seq<int>

    constructor()
      ensures cards == []
    {
      cards := [];
    }

    /** `build` appends the cards of a random sample of 24 out of 3..35; the
        sample is the parameter here. */
    method Build(sample: seq<int>)
      modifies this
      ensures cards == old(cards) + sample
    {
      var i := 0;
      while i < |sample|
        invariant i <= |sample|
        invariant cards == old(cards) + sample[..i]
      {
        cards := cards + [sample[i]];
        i := i + 1;
      }
      assert sample[..i] == sample;
    }

    /** `draw`: pops the last card. */
    method Draw() returns (card: int)
      requires cards != []
      modifies this
      ensures old(cards) == cards + [card]
    {
      card := cards[|cards| - 1];
      cards := cards[..|cards| - 1];
    }

    /** `check_end`: whether the deck is empty. */
    method CheckEnd() returns (end: bool)
      ensures end <==> cards == []
    {
      end := cards == [];
    }
  }

  /** The globals `card_pool` and `chip_pool`. `open` records whether
      `cardPool` still holds a card nobody took (see Rules.Table). */
  class Pool {
    var cardPool: int
    var chipPool: int
    ghost var open: bool

    constructor()
      ensures cardPool == 0 && chipPool == 0 && !open
    {
      cardPool, chipPool, open := 0, 0, false;
    }
  }

  /** The table as module Rules sees it. */
  ghost function TableOf(deck: Deck, pool: Pool): Table
    reads deck, pool
  {
    Table(deck.cards, pool.cardPool, pool.chipPool, pool.open)
  }

  /** A player: a name, a hand of cards and a number of chips. */
  class Player {
    const name: string
    var cardHand: seq<int>
    var chipHand: int

    constructor(name: string)
      ensures this.name == name && cardHand == [] && chipHand == 11
    {
      this.name := name;
      cardHand := [];
      chipHand := 11;
    }

    function AsSeat(): Seat
      reads this
    {
      Seat(cardHand, chipHand)
    }

    /** `draw_card`: the last card of the deck goes into `card_pool`, and the
        player decides on it with `rand_play`. */
    method DrawCard(deck: Deck, pool: Pool, coins: Coins)
      requires deck.cards != []
      modifies this, deck, pool
      ensures Step(AsSeat(), TableOf(deck, pool)) == DrawOutcome(old(AsSeat()), old(TableOf(deck, pool)), coins)
      decreases |deck.cards|, 0
    {
      pool.cardPool := deck.Draw();
      pool.open := true;
      RandPlay(deck, pool, coins);
    }

    /** `take_card`: the card and the chips on it go to the player, and while
        the deck is not empty the player draws again. */
    method TakeCard(deck: Deck, pool: Pool, coins: Coins)
      modifies this, deck, pool
      ensures Step(AsSeat(), TableOf(deck, pool)) == TakeOutcome(old(AsSeat()), old(TableOf(deck, pool)), coins)
      decreases |deck.cards|, 1
    {
      cardHand := cardHand + [pool.cardPool];
      chipHand := chipHand + pool.chipPool;
      pool.chipPool := 0;
      pool.open := false;
      var end := deck.CheckEnd();
      if !end {
        DrawCard(deck, pool, coins);
      }
    }

    /** `pass_card`: one chip from the player onto the card. */
    method PassCard(pool: Pool)
      modifies this, pool
      ensures chipHand == old(chipHand) - 1 && cardHand == old(cardHand)
      ensures pool.chipPool == old(pool.chipPool) + 1
      ensures pool.cardPool == old(pool.cardPool) && pool.open == old(pool.open)
    {
      chipHand := chipHand - 1;
      pool.chipPool := pool.chipPool + 1;
    }

    /** `rand_play`: `randint(0, 1)` picks take (0) or pass (1); a player
        without chips takes. */
    method RandPlay(deck: Deck, pool: Pool, coins: Coins)
      modifies this, deck, pool
      ensures Step(AsSeat(), TableOf(deck, pool)) == RandOutcome(old(AsSeat()), old(TableOf(deck, pool)), coins)
      decreases |deck.cards|, 2
    {
      var decision := if coins(|deck.cards|) then 1 else 0;
      if chipHand == 0 {
        decision := 0;
      }
      if decision == 0 {
        TakeCard(deck, pool, coins);
      }
      if decision == 1 {
        PassCard(pool);
      }
    }

    /** `calculated_play1`: take when the card minus the chips on it, each
        worth `chipValue`, is negative; a player without chips takes. */
    method CalculatedPlay1(deck: Deck, pool: Pool, chipValue: int, coins: Coins)
      modifies this, deck, pool
      ensures Step(AsSeat(), TableOf(deck, pool)) == CalculatedOutcome(old(AsSeat()), old(TableOf(deck, pool)), chipValue, coins)
    {
      var decision;
      if pool.cardPool - pool.chipPool * chipValue < 0 {
        decision := 0;
      } else {
        decision := 1;
      }
      if chipHand == 0 {
        decision := 0;
      }
      if decision == 0 {
        TakeCard(deck, pool, coins);
      }
      if decision == 1 {
        PassCard(pool);
      }
    }

    /** `point_tally`: sort the hand, reverse it, drop every card whose
        predecessor value is in the hand as the `for` loop reaches it, and
        return the sum of what is left minus the chips. The loop's hidden
        index `i` moves on after a removal too. */
    method PointTally() returns (total: int)
      modifies this
      ensures cardHand == Collapse(old(cardHand)) && chipHand == old(chipHand)
      ensures total == Score(old(cardHand), chipHand)
    {
      cardHand := Sort(cardHand);
      cardHand := Reverse(cardHand);
      ghost var reversed := cardHand;
      var i := 0;
      while i < |cardHand|
        invariant Sweep(cardHand, i) == Sweep(reversed, 0)
        invariant chipHand == old(chipHand)
        decreases |cardHand| - i
      {
        if cardHand[i] - 1 in cardHand {
          cardHand := RemoveFirst(cardHand, cardHand[i]);
        }
        i := i + 1;
      }
      assert cardHand == Collapse(old(cardHand));
      total := Sum(cardHand) - chipHand;
    }
  }

  /** The board Run_Game's three players and the table make up. */
  ghost function BoardOf(p1: Player, p2: Player, p3: Player, deck: Deck, pool: Pool): Board
    reads p1, p2, p3, deck, pool
  {
    Board([p1.AsSeat(), p2.AsSeat(), p3.AsSeat()], TableOf(deck, pool))
  }

  /** One pass of Run_Game's loop body: the seat `turn_no % 3` picks plays
      `calculated_play1` with its own chip value. */
  method PlayTurn(p1: Player, p2: Player, p3: Player, deck: Deck, pool: Pool, turnNo: int, coins: Coins)
    requires p1 != p2 && p2 != p3 && p1 != p3
    modifies p1, p2, p3, deck, pool
    ensures BoardOf(p1, p2, p3, deck, pool) == Turn(old(BoardOf(p1, p2, p3, deck, pool)), turnNo, coins)
  {
    if turnNo % 3 == 1 {
      p1.CalculatedPlay1(deck, pool, 5, coins);
    }
    if turnNo % 3 == 2 {
      p2.CalculatedPlay1(deck, pool, 4, coins);
    }
    if turnNo % 3 == 0 {
      p3.CalculatedPlay1(deck, pool, 6, coins);
    }
  }

  /** The end of Run_Game: every player tallies, and the first player with
      the lowest total wins (`if`/`elif` over the three totals). */
  method DeclareWinner(p1: Player, p2: Player, p3: Player) returns (winner: string)
    requires p1 != p2 && p2 != p3 && p1 != p3
    modifies p1, p2, p3
    ensures winner == [p1.name, p2.name, p3.name][Winner(Totals(old([p1.AsSeat(), p2.AsSeat(), p3.AsSeat()])))]
    ensures p1.cardHand == Collapse(old(p1.cardHand)) && p1.chipHand == old(p1.chipHand)
    ensures p2.cardHand == Collapse(old(p2.cardHand)) && p2.chipHand == old(p2.chipHand)
    ensures p3.cardHand == Collapse(old(p3.cardHand)) && p3.chipHand == old(p3.chipHand)
  {
    ghost var seats := [p1.AsSeat(), p2.AsSeat(), p3.AsSeat()];
    var total1 := p1.PointTally();
    var total2 := p2.PointTally();
    var total3 := p3.PointTally();
    assert [total1, total2, total3] == Totals(seats);
    var least := Min(total1, total2, total3);
    if least == total1 {
      winner := p1.name;
    } else if least == total2 {
      winner := p2.name;
    } else {
      winner := p3.name;
    }
  }

  /** `Run_Game`: deal, let Player_1 draw, run turns until the deck is empty,
      tally and name the first player with the lowest total. The deal
      (`random.sample`) and the values of `randint` are parameters. */
  method RunGame(player1: string, player2: string, player3: string, sample: seq<int>, coins: Coins)
    returns (winner: string)
    requires Dealt(sample)
    ensures winner == [player1, player2, player3][GameWinner(sample, coins)]
  {
    var p1 := new Player(player1);
    var p2 := new Player(player2);
    var p3 := new Player(player3);
    var deck := new Deck();
    deck.Build(sample);
    var turnNo := 1;
    var pool := new Pool();
    assert p1.AsSeat() == p2.AsSeat() == p3.AsSeat() == Seat([], 11);
    assert TableOf(deck, pool) == Table(sample, 0, 0, false);
    p1.DrawCard(deck, pool, coins);
    assert BoardOf(p1, p2, p3, deck, pool) == Opening(sample, coins);
    var end := deck.CheckEnd();
    while !end
      invariant end <==> deck.cards == []
      invariant |BoardOf(p1, p2, p3, deck, pool).seats| == 3
      invariant NonNegative(BoardOf(p1, p2, p3, deck, pool))
      invariant PlayOut(BoardOf(p1, p2, p3, deck, pool), turnNo, coins) == Game(sample, coins)
      decreases |deck.cards|, ChipsHeld(BoardOf(p1, p2, p3, deck, pool).seats)
    {
      ghost var before := BoardOf(p1, p2, p3, deck, pool);
      ChipsHeldNonNegative(before.seats);
      turnNo := turnNo + 1;
      TurnLaws(before, turnNo, coins);
      PlayTurn(p1, p2, p3, deck, pool, turnNo, coins);
      end := deck.CheckEnd();
    }
    assert BoardOf(p1, p2, p3, deck, pool) == Game(sample, coins);
    winner := DeclareWinner(p1, p2, p3);
  }
}
