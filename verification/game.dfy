/** The game session as a value: the record the bot keeps in memory, its
    invariant, and one step function per handler. The mutable session
    object in module Session is proved to follow these functions. */
module Game {
  import opened Board
  import TurnOrder

  datatype State = State(
    players: map<PlayerId, Player>,
    joinOrder: seq<PlayerId>,      // insertion order of `players`
    turnOrder: seq<PlayerId>,
    currentTurn: nat,
    properties: map<int, Property>,
    boardOrder: seq<int>,          // insertion order of `properties`
    gameStarted: bool)

  datatype JoinResult = AlreadyStarted | AlreadyJoined | Full | Joined(started: bool)

  /** `position` is the square the token came to rest on. */
  datatype RollResult =
    | NotStarted
    | Rolled(player: PlayerId, die1: int, die2: int, total: int, position: int, event: LandingEvent)

  datatype BuyResult =
    | NoCurrentPlayer
    | NothingForSale
    | InsufficientFunds(position: int, price: int)
    | Bought(position: int, price: int)

  /** `owner` is the bank or the username of some joined player. */
  ghost predicate IsOwner(s: State, owner: string) {
    owner == BANKER || exists id :: id in s.players && s.players[id].username == owner
  }

  /** Everything the session keeps true, except the link between the phase
      and the roster size, which the join of the fourth player breaks for a
      moment before the game is started. */
  ghost predicate Consistent(s: State) {
    && TurnOrder.Distinct(s.joinOrder)
    && (forall id :: id in s.players <==> id in s.joinOrder)
    && |s.players| == |s.joinOrder| <= MAX_PLAYERS
    && (s.gameStarted ==>
          && multiset(s.turnOrder) == multiset(s.joinOrder)
          && TurnOrder.Distinct(s.turnOrder)
          && (forall i :: 0 <= i < |s.turnOrder| ==> s.turnOrder[i] in s.players)
          && s.currentTurn < |s.turnOrder|)
    && (!s.gameStarted ==> s.turnOrder == [] && s.currentTurn == 0)
    && (forall id :: id in s.players ==>
          0 <= s.players[id].position < BOARD_SIZE && s.players[id].money >= 0)
    && TurnOrder.Distinct(s.boardOrder)
    && (forall pos :: pos in s.properties <==> pos in s.boardOrder)
    && (forall i :: 0 <= i < |s.boardOrder| ==> s.boardOrder[i] in s.properties)
    && (forall pos :: pos in s.properties ==>
          s.properties[pos].price > 0 && s.properties[pos].rent >= 0
          && IsOwner(s, s.properties[pos].owner))
  }

  /** The session invariant: the game is running exactly when the roster is full. */
  ghost predicate Valid(s: State) {
    Consistent(s) && (s.gameStarted <==> |s.joinOrder| == MAX_PLAYERS)
  }

  /** Every player of `s` is still there in `t` under the same username. */
  ghost predicate PlayersKept(s: State, t: State) {
    forall id :: id in s.players ==> id in t.players && t.players[id].username == s.players[id].username
  }

  lemma OwnersCarryOver(s: State, t: State)
    requires PlayersKept(s, t)
    ensures forall owner :: IsOwner(s, owner) ==> IsOwner(t, owner)
  {
    forall owner | IsOwner(s, owner) ensures IsOwner(t, owner) {
      if owner != BANKER {
        var id :| id in s.players && s.players[id].username == owner;
        assert id in t.players && t.players[id].username == owner;
      }
    }
  }

  /** The record as it is when the program loads: no players, no board. */
  function InitialState(): (s: State)
    ensures Valid(s) && !s.gameStarted
    ensures s.players == map[] && s.properties == map[]
  {
    State(map[], [], [], 0, map[], [], false)
  }

  /** The record after /start: no players, lobby phase, the seeded board
      with every property held by the bank. */
  function StartState(): (s: State)
    ensures Valid(s) && !s.gameStarted
    ensures s.players == map[] && s.turnOrder == [] && s.currentTurn == 0
    ensures s.properties.Keys == {1, 3}
    ensures forall pos :: pos in s.properties ==> s.properties[pos].owner == BANKER
  {
    State(map[], [], [], 0, SeedProperties(), SeedOrder(), false)
  }

  /** One turn-order draw per seat; only the draws of the players who end up
      seated are used. */
  predicate DrawsOk(draws: seq<int>) {
    |draws| == MAX_PLAYERS && forall i :: 0 <= i < |draws| ==> IsDie(draws[i])
  }

  /** The draw of each joined player: the i-th player to join gets draws[i]. */
  function TurnRolls(s: State, draws: seq<int>): (rolls: map<PlayerId, int>)
    requires TurnOrder.Distinct(s.joinOrder) && |draws| == |s.joinOrder|
    ensures TurnOrder.Covers(rolls, s.joinOrder)
  {
    TurnOrder.RollTable(s.joinOrder, draws)
  }

  /** Starting the game with a full roster: the phase flag is set and the
      turn order is fixed; nothing else changes. */
  function StartGameStep(s: State, draws: seq<int>): (t: State)
    requires Consistent(s) && !s.gameStarted && |s.joinOrder| == MAX_PLAYERS
    requires |draws| == MAX_PLAYERS
    ensures Valid(t) && t.gameStarted && t.currentTurn == 0
    ensures multiset(t.turnOrder) == multiset(s.joinOrder)
    ensures TurnOrder.OrderedByDraw(t.turnOrder, s.joinOrder, TurnRolls(s, draws))
    ensures t == s.(gameStarted := true, turnOrder := t.turnOrder)
  {
    var rolls := TurnRolls(s, draws);
    var order := TurnOrder.SortByRoll(s.joinOrder, rolls);
    var t := s.(gameStarted := true, turnOrder := order);
    TurnOrder.SortOrderedByDraw(s.joinOrder, rolls);
    StartedValid(s, order);
    t
  }

  /** Fixing any rearrangement of a full roster as the turn order starts a
      valid game. */
  lemma StartedValid(s: State, order: seq<PlayerId>)
    requires Consistent(s) && !s.gameStarted && |s.joinOrder| == MAX_PLAYERS
    requires multiset(order) == multiset(s.joinOrder)
    ensures Valid(s.(gameStarted := true, turnOrder := order))
  {
    var t := s.(gameStarted := true, turnOrder := order);
    TurnOrder.DistinctPermutation(order, s.joinOrder);
    assert forall i :: 0 <= i < |order| ==> order[i] in multiset(s.joinOrder);
    OwnersCarryOver(s, t);
  }

  /** Join: refused once the game is running, for a player already seated
      and for a full table; otherwise the player is seated with the starting
      money on square 0, and the fourth player starts the game. */
  function JoinStep(s: State, id: PlayerId, username: string, draws: seq<int>): (r: (State, JoinResult))
    requires Valid(s) && DrawsOk(draws)
    ensures Valid(r.0)
    ensures s.gameStarted ==> r.1 == AlreadyStarted
    ensures !s.gameStarted && id in s.players ==> r.1 == AlreadyJoined
    ensures r.1.Joined? <==> !s.gameStarted && id !in s.players && |s.players| < MAX_PLAYERS
    ensures r.1 != Full
    ensures !r.1.Joined? ==> r.0 == s
    ensures r.1.Joined? ==>
              && r.0.players == s.players[id := NewPlayer(username)]
              && r.0.joinOrder == s.joinOrder + [id]
              && |r.0.players| == |s.players| + 1
              && r.0.properties == s.properties && r.0.boardOrder == s.boardOrder
    ensures r.1.Joined? ==> (r.1.started <==> |r.0.players| == MAX_PLAYERS) && r.0.currentTurn == 0
    ensures r.0.gameStarted <==> s.gameStarted || (r.1.Joined? && r.1.started)
    ensures r.1 == Joined(true) ==>
              r.0.turnOrder == TurnOrder.SortByRoll(r.0.joinOrder, TurnRolls(r.0, draws))
  {
    if s.gameStarted then (s, AlreadyStarted)
    else if id in s.players then (s, AlreadyJoined)
    else if |s.players| >= MAX_PLAYERS then (s, Full)
    else
      var seated := s.(players := s.players[id := NewPlayer(username)], joinOrder := s.joinOrder + [id]);
      assert TurnOrder.Distinct(seated.joinOrder);
      OwnersCarryOver(s, seated);
      if |seated.players| == MAX_PLAYERS then (StartGameStep(seated, draws), Joined(true))
      else (seated, Joined(false))
  }

  /** Roll: the current player moves by the sum of two dice, wrapping round
      the board, and the landing is resolved. The turn then passes on, except
      when rent is due: the rent handler the bot calls does not exist, so the
      handler stops with an error after the move and before the turn index
      is advanced. */
  function RollStep(s: State, d1: int, d2: int): (r: (State, RollResult))
    requires Valid(s) && IsDie(d1) && IsDie(d2)
    ensures Valid(r.0)
    ensures r.1 == NotStarted <==> !s.gameStarted
    ensures !s.gameStarted ==> r.0 == s
    ensures s.gameStarted ==>
              var p := s.turnOrder[s.currentTurn];
              var before := s.players[p];
              && r.1.Rolled? && r.1.player == p && r.1.die1 == d1 && r.1.die2 == d2
              && r.1.total == d1 + d2 && 2 <= r.1.total <= 2 * DICE_SIDES
              && 0 <= r.1.position < BOARD_SIZE
              && r.1.position == (before.position + r.1.total) % BOARD_SIZE
              && r.0.players == s.players[p := before.(position := r.1.position)]
              && r.1.event == Landing(s.properties, before.username, r.1.position)
              && r.0.currentTurn == (if r.1.event.RentDue? then s.currentTurn
                                     else (s.currentTurn + 1) % |s.turnOrder|)
              && r.0 == s.(players := r.0.players, currentTurn := r.0.currentTurn)
  {
    if !s.gameStarted then (s, NotStarted)
    else
      var p := s.turnOrder[s.currentTurn];
      var player := s.players[p];
      var total := d1 + d2;
      var moved := player.(position := (player.position + total) % BOARD_SIZE);
      var t := s.(players := s.players[p := moved]);
      OwnersCarryOver(s, t);
      var event := Landing(t.properties, player.username, moved.position);
      var outcome := Rolled(p, d1, d2, total, moved.position, event);
      if event.RentDue? then (t, outcome)
      else (t.(currentTurn := (t.currentTurn + 1) % |t.turnOrder|), outcome)
  }

  /** Buy: the buyer is whoever holds the turn when the button is pressed.
      The first property, in table order, that is named `name` and still held
      by the bank is bought if the buyer can pay its price: the price is
      debited and the property passes to the buyer's username. */
  function BuyStep(s: State, name: string): (r: (State, BuyResult))
    requires Valid(s)
    ensures Valid(r.0)
    ensures r.1 == NoCurrentPlayer <==> !s.gameStarted
    ensures !r.1.Bought? ==> r.0 == s
    ensures r.1 == NothingForSale <==>
              s.gameStarted && forall pos :: pos in s.properties ==> !ForSaleAs(s.properties[pos], name)
    ensures r.1.InsufficientFunds? || r.1.Bought? ==>
              && s.gameStarted
              && r.1.position in s.properties
              && ForSaleAs(s.properties[r.1.position], name)
              && r.1.price == s.properties[r.1.position].price
              && (forall k :: 0 <= k < |s.boardOrder| && s.boardOrder[k] == r.1.position ==>
                    forall j :: 0 <= j < k ==> !ForSaleAs(s.properties[s.boardOrder[j]], name))
              && (r.1.Bought? <==> s.players[s.turnOrder[s.currentTurn]].money >= r.1.price)
    ensures r.1.Bought? ==>
              var buyer := s.players[s.turnOrder[s.currentTurn]];
              var property := s.properties[r.1.position];
              && r.0.players == s.players[s.turnOrder[s.currentTurn] := buyer.(money := buyer.money - r.1.price)]
              && r.0.properties == s.properties[r.1.position := property.(owner := buyer.username)]
              && r.0 == s.(players := r.0.players, properties := r.0.properties)
  {
    if !s.gameStarted then (s, NoCurrentPlayer)
    else
      var id := s.turnOrder[s.currentTurn];
      var buyer := s.players[id];
      match FirstForSale(s.properties, s.boardOrder, name)
      case None =>
        (s, NothingForSale)
      case Some(k) =>
        var pos := s.boardOrder[k];
        var property := s.properties[pos];
        assert forall j :: 0 <= j < |s.boardOrder| && s.boardOrder[j] == pos ==> j == k;
        if buyer.money >= property.price then
          var t := s.(players := s.players[id := buyer.(money := buyer.money - property.price)],
                      properties := s.properties[pos := property.(owner := buyer.username)]);
          OwnersCarryOver(s, t);
          assert IsOwner(t, buyer.username);
          (t, Bought(pos, property.price))
        else
          (s, InsufficientFunds(pos, property.price))
  }
}
