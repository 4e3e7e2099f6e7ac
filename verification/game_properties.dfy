/** Properties of the session that relate several steps: join idempotence,
    the fairness of the turn order, who is charged for a purchase, what a
    purchase means for later landings, and the invariants that every run of
    commands keeps. */
module GameProperties {
  import opened Board
  import opened Game
  import TurnOrder

  /** A second join with the same id changes nothing and is refused. */
  lemma JoinTwiceIsNoOp(s: State, id: PlayerId, name1: string, draws1: seq<int>,
                        name2: string, draws2: seq<int>)
    requires Valid(s) && DrawsOk(draws1) && DrawsOk(draws2)
    ensures var s1 := JoinStep(s, id, name1, draws1).0;
            var r2 := JoinStep(s1, id, name2, draws2);
            r2.0 == s1 && (r2.1 == AlreadyJoined || r2.1 == AlreadyStarted)
  {
    var r1 := JoinStep(s, id, name1, draws1);
    assert id in r1.0.players || r1.0.gameStarted;
  }

  /** Once four players are seated every further join is refused, before the
      roster size is even looked at, because the game has started. */
  lemma FullTableRefusesJoin(s: State, id: PlayerId, username: string, draws: seq<int>)
    requires Valid(s) && DrawsOk(draws) && |s.players| == MAX_PLAYERS
    ensures JoinStep(s, id, username, draws) == (s, AlreadyStarted)
  {
  }

  /** The join that seats the fourth player fixes a turn order that is a
      rearrangement of the joined ids, sorted by draw highest first, in which
      players with equal draws keep their join order. */
  lemma TurnOrderFair(s: State, id: PlayerId, username: string, draws: seq<int>)
    requires Valid(s) && DrawsOk(draws)
    requires JoinStep(s, id, username, draws).1 == Joined(true)
    ensures var t := JoinStep(s, id, username, draws).0;
            var rolls := TurnRolls(t, draws);
            && t.gameStarted && t.currentTurn == 0
            && multiset(t.turnOrder) == multiset(t.joinOrder)
            && TurnOrder.Covers(rolls, t.turnOrder)
            && TurnOrder.NonIncreasing(t.turnOrder, rolls)
            && (forall v :: TurnOrder.DrewValue(t.turnOrder, rolls, v) == TurnOrder.DrewValue(t.joinOrder, rolls, v))
            && (forall i :: 0 <= i < |t.joinOrder| ==> rolls[t.joinOrder[i]] == draws[i])
  {
    var t := JoinStep(s, id, username, draws).0;
    var rolls := TurnRolls(t, draws);
    TurnOrder.SortNonIncreasing(t.joinOrder, rolls);
    forall v ensures TurnOrder.DrewValue(t.turnOrder, rolls, v) == TurnOrder.DrewValue(t.joinOrder, rolls, v) {
      TurnOrder.SortStable(t.joinOrder, rolls, v);
    }
  }

  /** The turn index has already moved on when a purchase offer is shown, so
      the player who is charged for pressing "Buy" is not the player who
      landed on the property. */
  lemma OfferGoesToNextPlayer(s: State, d1: int, d2: int)
    requires Valid(s) && IsDie(d1) && IsDie(d2)
    requires RollStep(s, d1, d2).1.Rolled? && RollStep(s, d1, d2).1.event.PurchaseOffer?
    ensures var t := RollStep(s, d1, d2).0;
            t.gameStarted && t.turnOrder[t.currentTurn] != RollStep(s, d1, d2).1.player
  {
    var t := RollStep(s, d1, d2).0;
    assert |t.turnOrder| == MAX_PLAYERS by {
      assert |multiset(t.turnOrder)| == |multiset(t.joinOrder)|;
    }
    assert t.currentTurn != s.currentTurn;
  }

  /** After a purchase the buyer lands on the property without effect, and
      any other player (unless named like the bank) owes rent there. */
  lemma BoughtThenLanding(s: State, name: string, other: string)
    requires Valid(s)
    requires BuyStep(s, name).1.Bought?
    requires s.players[s.turnOrder[s.currentTurn]].username != BANKER
    requires other != BANKER && other != s.players[s.turnOrder[s.currentTurn]].username
    ensures var r := BuyStep(s, name);
            var buyer := s.players[s.turnOrder[s.currentTurn]];
            && Landing(r.0.properties, buyer.username, r.1.position) == NoEvent
            && Landing(r.0.properties, other, r.1.position).RentDue?
            && BuyStep(r.0, name).1 != Bought(r.1.position, r.1.price)
  {
  }

  /** What no step taken within one game undoes: the board keeps its squares
      and their names, prices and rents; a bought property keeps its owner;
      seated players stay seated under their usernames; a running game keeps
      its roster and its turn order. */
  ghost predicate Successor(s: State, t: State) {
    && t.properties.Keys == s.properties.Keys
    && (forall pos :: pos in s.properties ==>
          t.properties[pos] == s.properties[pos].(owner := t.properties[pos].owner))
    && (forall pos :: pos in s.properties && s.properties[pos].owner != BANKER ==>
          t.properties[pos].owner == s.properties[pos].owner)
    && PlayersKept(s, t)
    && (s.gameStarted ==> t.gameStarted && t.turnOrder == s.turnOrder && t.joinOrder == s.joinOrder)
  }

  lemma SuccessorTransitive(s: State, t: State, u: State)
    requires Successor(s, t) && Successor(t, u)
    ensures Successor(s, u)
  {
  }

  lemma JoinWithinGame(s: State, id: PlayerId, username: string, draws: seq<int>)
    requires Valid(s) && DrawsOk(draws)
    ensures Successor(s, JoinStep(s, id, username, draws).0)
  {
    var r := JoinStep(s, id, username, draws);
    if r.1.Joined? {
      assert r.0.properties == s.properties && !s.gameStarted;
      assert r.0.players == s.players[id := NewPlayer(username)] && id !in s.players;
    }
  }

  lemma RollWithinGame(s: State, d1: int, d2: int)
    requires Valid(s) && IsDie(d1) && IsDie(d2)
    ensures Successor(s, RollStep(s, d1, d2).0)
  {
  }

  lemma BuyWithinGame(s: State, name: string)
    requires Valid(s)
    ensures Successor(s, BuyStep(s, name).0)
  {
  }

  /** The commands of the bot, with the dice and turn-order draws as inputs. */
  datatype Command =
    | NewGame
    | JoinCmd(id: PlayerId, username: string, draws: seq<int>)
    | RollCmd(die1: int, die2: int)
    | BuyCmd(name: string)

  predicate WellFormed(c: Command) {
    match c
    case NewGame => true
    case JoinCmd(_, _, draws) => DrawsOk(draws)
    case RollCmd(d1, d2) => IsDie(d1) && IsDie(d2)
    case BuyCmd(_) => true
  }

  function Apply(s: State, c: Command): (t: State)
    requires Valid(s) && WellFormed(c)
    ensures Valid(t)
    ensures c.NewGame? ==> t == StartState()
    ensures !c.NewGame? ==> Successor(s, t)
  {
    match c
    case NewGame => StartState()
    case JoinCmd(id, username, draws) =>
      JoinWithinGame(s, id, username, draws);
      JoinStep(s, id, username, draws).0
    case RollCmd(d1, d2) =>
      RollWithinGame(s, d1, d2);
      RollStep(s, d1, d2).0
    case BuyCmd(name) =>
      BuyWithinGame(s, name);
      BuyStep(s, name).0
  }

  /** Any run of commands keeps the session invariant: at most four players,
      every token on the board, no negative balance. */
  function Run(s: State, cs: seq<Command>): (t: State)
    requires Valid(s) && forall i :: 0 <= i < |cs| ==> WellFormed(cs[i])
    ensures Valid(t)
    ensures |t.players| <= MAX_PLAYERS
    ensures forall id :: id in t.players ==> t.players[id].money >= 0 && 0 <= t.players[id].position < BOARD_SIZE
    decreases |cs|
  {
    if cs == [] then s else Run(Apply(s, cs[0]), cs[1..])
  }

  /** Within one game (no /start in between) ownership only ever moves from
      the bank to a player, and the turn order, once fixed, is never
      recomputed. */
  lemma {:induction false} RunWithinGame(s: State, cs: seq<Command>)
    requires Valid(s) && forall i :: 0 <= i < |cs| ==> WellFormed(cs[i])
    requires forall i :: 0 <= i < |cs| ==> !cs[i].NewGame?
    ensures Successor(s, Run(s, cs))
    decreases |cs|
  {
    if cs != [] {
      var s1 := Apply(s, cs[0]);
      RunWithinGame(s1, cs[1..]);
      SuccessorTransitive(s, s1, Run(s1, cs[1..]));
    }
  }
}
