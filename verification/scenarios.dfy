/** A game played through the session object, using only the handlers'
    contracts: four players join, the first in turn order lands on Baltic
    Avenue, and the purchase is charged to the next player in turn order. */
module Scenarios {
  import opened Board
  import opened Game
  import opened Session
  import TurnOrder

  /** Turn-order draws by join position: ann 3, bob 5, cid 3, dee 1. */
  const DRAWS: seq<int> := [3, 5, 3, 1]

  /** The record after ann, bob and cid have joined. */
  function ThreeSeated(): State {
    StartState().(players := map[10 := NewPlayer("ann"), 20 := NewPlayer("bob"), 30 := NewPlayer("cid")],
                  joinOrder := [10, 20, 30])
  }

  /** The table of draws of the example. */
  lemma ExampleRolls()
    ensures TurnOrder.RollTable([10, 20, 30, 40], [3, 5, 3, 1]) == map[10 := 3, 20 := 5, 30 := 3, 40 := 1]
  {
    var ids := [10, 20, 30, 40];
    var rolls := TurnOrder.RollTable(ids, [3, 5, 3, 1]);
    assert ids[0] == 10 && ids[1] == 20 && ids[2] == 30 && ids[3] == 40;
    assert rolls.Keys == {10, 20, 30, 40} by {
      forall x ensures x in rolls <==> x in {10, 20, 30, 40} {
        assert x in ids <==> x == 10 || x == 20 || x == 30 || x == 40;
      }
    }
  }

  /** Sorting the example by draw. */
  lemma ExampleSort(rolls: map<int, int>)
    requires rolls == map[10 := 3, 20 := 5, 30 := 3, 40 := 1]
    ensures TurnOrder.SortByRoll([10, 20, 30, 40], rolls) == [20, 10, 30, 40]
  {
    assert [10, 20, 30, 40][1..] == [20, 30, 40];
    assert [20, 30, 40][1..] == [30, 40];
    assert [30, 40][1..] == [40];
    assert TurnOrder.SortByRoll([40], rolls) == [40];
    assert TurnOrder.Insert(30, [40], rolls) == [30, 40];
    assert TurnOrder.SortByRoll([30, 40], rolls) == [30, 40];
    assert TurnOrder.Insert(20, [30, 40], rolls) == [20, 30, 40];
    assert TurnOrder.SortByRoll([20, 30, 40], rolls) == [20, 30, 40];
    assert TurnOrder.Insert(10, [30, 40], rolls) == [10, 30, 40];
    assert TurnOrder.Insert(10, [20, 30, 40], rolls) == [20, 10, 30, 40];
  }

  /** bob drew 5; ann and cid tie on 3 and keep their join order; dee drew 1. */
  lemma ExampleTurnOrder(ids: seq<int>, draws: seq<int>)
    requires ids == [10, 20, 30, 40] && draws == [3, 5, 3, 1]
    ensures TurnOrder.SortByRoll(ids, TurnOrder.RollTable(ids, draws)) == [20, 10, 30, 40]
  {
    ExampleRolls();
    ExampleSort(TurnOrder.RollTable(ids, draws));
  }

  /** ann, bob and cid join a fresh game; it stays in the lobby. */
  lemma ExampleFirstJoins()
    ensures var s1 := JoinStep(StartState(), 10, "ann", DRAWS);
            var s2 := JoinStep(s1.0, 20, "bob", DRAWS);
            var s3 := JoinStep(s2.0, 30, "cid", DRAWS);
            s1.1 == s2.1 == s3.1 == Joined(false) && s3.0 == ThreeSeated()
  {
    var s1 := JoinStep(StartState(), 10, "ann", DRAWS);
    assert s1.0 == StartState().(players := map[10 := NewPlayer("ann")], joinOrder := [10]);
    var s2 := JoinStep(s1.0, 20, "bob", DRAWS);
    assert s2.0 == StartState().(players := map[10 := NewPlayer("ann"), 20 := NewPlayer("bob")],
                                 joinOrder := [10, 20]);
  }

  /** dee's join fills the table and fixes the turn order bob, ann, cid, dee. */
  lemma ExampleFourthJoin(s: State, draws: seq<int>)
    requires Valid(s) && !s.gameStarted && s.joinOrder == [10, 20, 30] && draws == [3, 5, 3, 1]
    ensures var r := JoinStep(s, 40, "dee", draws);
            && r.1 == Joined(true) && r.0.gameStarted && r.0.currentTurn == 0
            && r.0.joinOrder == [10, 20, 30, 40] && r.0.turnOrder == [20, 10, 30, 40]
            && r.0.players == s.players[40 := NewPlayer("dee")]
            && r.0.properties == s.properties && r.0.boardOrder == s.boardOrder
  {
    assert 40 !in s.joinOrder;
    ExampleTurnOrder(s.joinOrder + [40], draws);
  }

  /** The four joins, made on the session object. */
  method FourJoin(g: GameSession) returns (joined: JoinResult)
    requires g.Snapshot() == StartState()
    modifies g
    ensures g.Valid() && joined == Joined(true) && g.gameStarted
    ensures g.joinOrder == [10, 20, 30, 40] && g.turnOrder == [20, 10, 30, 40] && g.currentTurn == 0
    ensures 10 in g.players && g.players[10] == NewPlayer("ann")
    ensures 20 in g.players && g.players[20] == NewPlayer("bob")
    ensures g.properties == SeedProperties() && g.boardOrder == SeedOrder()
  {
    ExampleFirstJoins();
    joined := g.Join(10, "ann", DRAWS);
    joined := g.Join(20, "bob", DRAWS);
    joined := g.Join(30, "cid", DRAWS);
    ExampleFourthJoin(g.Snapshot(), DRAWS);
    joined := g.Join(40, "dee", DRAWS);
  }

  /** bob, first in turn order, rolls 1 and 2 from square 0 and lands on
      Baltic Avenue, which the bank still holds. */
  lemma ExampleRoll(s: State)
    requires Valid(s) && s.gameStarted && s.turnOrder == [20, 10, 30, 40] && s.currentTurn == 0
    requires 20 in s.players && s.players[20].position == 0 && s.properties == SeedProperties()
    ensures var r := RollStep(s, 1, 2);
            && r.1.Rolled? && r.1.player == 20 && r.1.position == 3
            && r.1.event == PurchaseOffer(3, Property("Baltic Avenue", 60, 4, BANKER))
            && r.0.currentTurn == 1 && r.0.properties == s.properties
  {
  }

  /** The "Buy Baltic Avenue" press is charged to ann, who holds the turn. */
  lemma ExampleBuy(s: State)
    requires Valid(s) && s.gameStarted && s.turnOrder == [20, 10, 30, 40] && s.currentTurn == 1
    requires 10 in s.players && s.players[10] == NewPlayer("ann")
    requires s.properties == SeedProperties() && s.boardOrder == SeedOrder()
    ensures var r := BuyStep(s, "Baltic Avenue");
            && r.1 == Bought(3, 60)
            && r.0.players[10].money == 1440 && r.0.properties[3].owner == "ann"
  {
    assert s.boardOrder[0] == 1 && s.boardOrder[1] == 3;
    assert !ForSaleAs(s.properties[s.boardOrder[0]], "Baltic Avenue");
  }

  /** An offer for Baltic Avenue made to the player who rolled is accepted,
      and paid for, by the next player in turn order. */
  method OfferThenBuy() returns (roller: PlayerId, buyer: PlayerId, paid: int, owner: string)
    ensures roller == 20 && buyer == 10 && paid == 60 && owner == "ann"
  {
    var g := new GameSession();
    g.Start();
    var joined := FourJoin(g);

    ExampleRoll(g.Snapshot());
    var rolled := g.Roll(1, 2);
    roller := rolled.player;

    ExampleBuy(g.Snapshot());
    var bought := g.HandleBuy("Baltic Avenue");
    buyer := g.turnOrder[g.currentTurn];
    paid := 1500 - g.players[buyer].money;
    owner := g.properties[3].owner;
  }
}
