/** The bot's single in-memory game record, as an object whose handlers
    update its fields in place. Each handler is proved to perform exactly
    the corresponding step function of module Game. */
module Session {
  import opened Board
  import opened Game
  import TurnOrder

  class GameSession {
    var players: map<PlayerId, Player>
    var joinOrder: seq<PlayerId>      // insertion order of `players`
    var turnOrder: seq<PlayerId>
    var currentTurn: nat
    var properties: map<int, Property>
    var boardOrder: seq<int>          // insertion order of `properties`
    var gameStarted: bool

    /** The record held by this object, as a value. */
    function Snapshot(): State
      reads this
    {
      State(players, joinOrder, turnOrder, currentTurn, properties, boardOrder, gameStarted)
    }

    ghost predicate Valid()
      reads this
    {
      Game.Valid(Snapshot())
    }

    /** The record as the program creates it on loading. */
    constructor ()
      ensures Valid() && Snapshot() == InitialState()
    {
      players, joinOrder, turnOrder, currentTurn := map[], [], [], 0;
      properties, boardOrder, gameStarted := map[], [], false;
    }

    /** /start: discards the previous game and seeds the board. */
    method Start()
      modifies this
      ensures Valid() && Snapshot() == StartState()
    {
      players, joinOrder, turnOrder, currentTurn := map[], [], [], 0;
      properties, boardOrder := SeedProperties(), SeedOrder();
      gameStarted := false;
    }

    /** /join: `draws` are the turn-order dice, used if this join fills the table. */
    method Join(id: PlayerId, username: string, draws: seq<int>) returns (r: JoinResult)
      requires Valid() && DrawsOk(draws)
      modifies this
      ensures (Snapshot(), r) == JoinStep(old(Snapshot()), id, username, draws)
      ensures Valid()
    {
      if gameStarted {
        return AlreadyStarted;
      }
      if id in players {
        return AlreadyJoined;
      }
      if |players| >= MAX_PLAYERS {
        return Full;
      }
      ghost var before := Snapshot();
      players := players[id := NewPlayer(username)];
      joinOrder := joinOrder + [id];
      OwnersCarryOver(before, Snapshot());
      r := Joined(false);
      if |players| == MAX_PLAYERS {
        StartGame(draws);
        r := Joined(true);
      }
    }

    /** Marks the game as running and fixes the turn order by the draws. */
    method StartGame(draws: seq<int>)
      requires Consistent(Snapshot()) && !gameStarted && |joinOrder| == MAX_PLAYERS
      requires |draws| == MAX_PLAYERS
      modifies this
      ensures Snapshot() == StartGameStep(old(Snapshot()), draws)
      ensures Valid()
    {
      gameStarted := true;
      var rolls := TurnOrder.RollTable(joinOrder, draws);
      turnOrder := TurnOrder.SortByRoll(joinOrder, rolls);
    }

    /** /roll with the two dice `d1` and `d2`. */
    method Roll(d1: int, d2: int) returns (r: RollResult)
      requires Valid() && IsDie(d1) && IsDie(d2)
      modifies this
      ensures (Snapshot(), r) == RollStep(old(Snapshot()), d1, d2)
      ensures Valid()
    {
      if !gameStarted {
        return NotStarted;
      }
      var id := turnOrder[currentTurn];
      var player := players[id];
      var total := d1 + d2;
      player := player.(position := (player.position + total) % BOARD_SIZE);
      players := players[id := player];
      var event := Landing(properties, player.username, player.position);
      r := Rolled(id, d1, d2, total, player.position, event);
      if event.RentDue? {
        // the rent handler does not exist: the handler fails here
        return;
      }
      currentTurn := (currentTurn + 1) % |turnOrder|;
    }

    /** The "Buy <name>" button, pressed by whoever holds the turn now. */
    method HandleBuy(name: string) returns (r: BuyResult)
      requires Valid()
      modifies this
      ensures (Snapshot(), r) == BuyStep(old(Snapshot()), name)
      ensures Valid()
    {
      if !gameStarted {
        // the turn order is empty: looking up the buyer fails
        return NoCurrentPlayer;
      }
      var id := turnOrder[currentTurn];
      var player := players[id];
      r := NothingForSale;
      var i := 0;
      while i < |boardOrder|
        invariant 0 <= i <= |boardOrder|
        invariant Snapshot() == old(Snapshot())
        invariant forall j :: 0 <= j < i ==> !ForSaleAs(properties[boardOrder[j]], name)
        invariant r == NothingForSale
      {
        var pos := boardOrder[i];
        var property := properties[pos];
        if property.name == name && property.owner == BANKER {
          if player.money >= property.price {
            players := players[id := player.(money := player.money - property.price)];
            properties := properties[pos := property.(owner := player.username)];
            r := Bought(pos, property.price);
          } else {
            r := InsufficientFunds(pos, property.price);
          }
          break;
        }
        i := i + 1;
      }
    }
  }
}
