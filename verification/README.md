# Monopoly bot game engine, in Dafny

This project models the game engine of a Telegram bot that runs one game of
Monopoly for up to four players. The bot keeps the whole game in one
in-memory record. That record holds:

- the seated players, keyed by user id;
- the turn order and the index of the player whose turn it is;
- the property table, keyed by board square;
- a "game started" flag.

Four handlers change the record:

- `/start` resets the record and seeds two bank-held properties.
- `/join` seats a player. The fourth player to join starts the game, which fixes the turn order by a die draw.
- `/roll` moves the current player by two dice and resolves the landing square. It then passes the turn on.
- The "Buy" button buys a property by name for the player who holds the turn.

The project is organised in these modules:

- `Board` (board.dfy): the constants (1500 starting money, 4 players, 40 squares, 6-sided dice). It also holds the player and property records and the seed table. `Landing` is the decision taken on a landing square. `FirstForSale` is the search that the Buy handler performs over the property table.
- `TurnOrder` (turn_order.dfy): the table of turn-order draws, and a stable sort by draw, highest first. It is proved to be a permutation, to be non-increasing, and to keep join order among equal draws.
- `Game` (game.dfy): the record as a value (`State`) and its invariant (`Valid`). It has one step function per handler: `StartState`, `JoinStep`, `StartGameStep`, `RollStep` and `BuyStep`.
- `GameProperties` (game_properties.dfy): facts that relate several steps. It also proves that any run of commands keeps the invariant, and that within one game ownership only moves from the bank to a player.
- `Session` (session.dfy): the record as an object, `GameSession`, whose handlers update its fields in place. Each handler is proved to do exactly what its step function does.
- `Scenarios` (scenarios.dfy): a concrete game played on a `GameSession`.

Dice and turn-order draws are parameters. A die is any value from 1 to 6. The turn-order draws are a sequence indexed by join position, because the bot draws one die per player in the order the players joined.

Behaviour of the code that may surprise a reader, and that the model keeps:

- A property's owner is recorded as the buyer's username, not the buyer's id. Landing compares usernames too.
- The Roll handler advances the turn index before the purchase offer can be answered. So the Buy button charges the player whose turn is next, not the player who landed (`OfferGoesToNextPlayer`, `OfferThenBuy`).
- The rent branch calls a function that the program never defines. The Roll handler therefore fails after the token has moved and before the turn index advances. The model returns a `RentDue` event and leaves the turn index unchanged. No money moves.
- Provided the Telegram replies succeed, the "table full" refusal of `/join` can never happen. The fourth join starts the game, and the "already started" check comes first (`FullTableRefusesJoin`).
- A Buy press before the game has started fails on the empty turn order and changes nothing. It is modelled as the result `NoCurrentPlayer`.
- The record that exists before the first `/start` has no properties (`InitialState`).

## Model

| member | source | states |
|---|---|---|
| Board.NewPlayer | main.py:60 | a joined player starts with 1500, on square 0, not in jail, under the given username |
| Board.SeedProperties | main.py:32-36 | the seeded board has properties on squares 1 and 3 only, all held by the bank, positive price, non-negative rent |
| Board.SeedOrder | main.py:32-36 | the table's iteration order lists each seeded square exactly once |
| Board.Landing | main.py:109-117 | landing gives an offer iff the square holds a bank-held property; rent iff the square's owner is neither the bank nor the lander's username; otherwise nothing |
| Board.FirstForSale | main.py:146-154 | the search returns the first index in table order whose property has the name and is bank-held; none iff no property qualifies |
| TurnOrder.RollTable | main.py:72 | every joined player has exactly one draw, the one drawn at their join position |
| TurnOrder.SortByRoll | main.py:73 | the turn order is a rearrangement (same multiset) of the joined ids |
| TurnOrder.SortNonIncreasing | main.py:73 | the turn order is sorted by draw, highest first |
| TurnOrder.SortStable | main.py:73 | for every draw value, the players who drew it keep their join order |
| TurnOrder.SortOrderedByDraw | main.py:73 | the sorted order is non-increasing in draw and keeps join order among equal draws, for every draw value |
| TurnOrder.DistinctPermutation | main.py:73 | a rearrangement of distinct ids repeats no id, so no player appears twice in the turn order |
| Game.InitialState | main.py:11-17 | the record at load time: lobby phase, no players, no properties, invariant holds |
| Game.StartState | main.py:28-38 | after /start: lobby phase, no players, turn index 0, squares 1 and 3 bank-held, invariant holds |
| Game.StartGameStep | main.py:66-73 | starting sets the flag and a turn order that is a permutation of the roster, sorted by the draws highest first, with equal draws in join order; turn index 0; nothing else changes; invariant holds |
| Game.JoinStep | main.py:41-64 | refused with no change when started or already seated; the full-table refusal never occurs; otherwise seats exactly one new player and leaves others untouched; the game starts exactly on the fourth join, with the turn order sorted by the draws; invariant kept |
| Game.RollStep | main.py:80-107 | no change before the game starts; otherwise only the current player moves to (old + d1 + d2) mod 40, the total is in [2, 12], the landing event is computed, and the turn index becomes (old + 1) mod the turn-order length except on rent |
| Game.BuyStep | main.py:133-154 | changes state only when the first bank-held property with the name is affordable: money drops by its price and its owner becomes the buyer's username; otherwise nothing changes; money stays non-negative |
| GameProperties.JoinTwiceIsNoOp | main.py:47-53 | a second join with the same id changes nothing and is refused |
| GameProperties.FullTableRefusesJoin | main.py:47-57 | with four players seated a join is refused as "already started" and changes nothing |
| GameProperties.TurnOrderFair | main.py:63-73 | the fourth join fixes a turn order that is a permutation of the joined ids, non-increasing in draw, ties in join order |
| GameProperties.OfferGoesToNextPlayer | main.py:142 | after a roll that ends on an offer, the player charged by the Buy button is not the player who rolled |
| GameProperties.BoughtThenLanding | main.py:112-117 | after a purchase the buyer lands there without effect, any other player owes rent, and the property cannot be bought again |
| GameProperties.JoinWithinGame | main.py:41-64 | a join keeps the board, every bought property's owner, the seated players and a fixed turn order |
| GameProperties.RollWithinGame | main.py:80-107 | a roll keeps the board, every owner, the seated players and the turn order |
| GameProperties.BuyWithinGame | main.py:133-154 | a purchase only moves a property from the bank to a player; nothing else on the board changes |
| GameProperties.Apply | main.py:168-171 | every command keeps the invariant; /start gives the seeded record; other commands do not undo ownership |
| GameProperties.Run | main.py:168-171 | any run of commands keeps at most four players, every token on the board and every balance non-negative |
| GameProperties.RunWithinGame | main.py:146-154 | within one game ownership only moves from the bank to a player, and the turn order is never recomputed |
| Session.GameSession.constructor | main.py:11-17 | the object starts as the load-time record |
| Session.GameSession.Start | main.py:25-38 | the object is reset to the seeded record |
| Session.GameSession.Join | main.py:41-64 | the object's new state and result are those of JoinStep; invariant kept |
| Session.GameSession.StartGame | main.py:66-73 | the object's new state is that of StartGameStep; invariant established |
| Session.GameSession.Roll | main.py:80-107 | the object's new state and result are those of RollStep; invariant kept |
| Session.GameSession.HandleBuy | main.py:133-154 | the loop with early exit gives exactly the state and result of BuyStep; invariant kept |
| Scenarios.ExampleRolls | main.py:72 | draws 3, 5, 3, 1 by join position give each id its draw |
| Scenarios.ExampleSort | main.py:73 | ids 10, 20, 30, 40 with draws 3, 5, 3, 1 sort to 20, 10, 30, 40 |
| Scenarios.ExampleTurnOrder | main.py:72-73 | the tie between 10 and 30 keeps join order: the turn order is 20, 10, 30, 40 |
| Scenarios.ExampleFirstJoins | main.py:55-60 | three joins on a fresh game seat three players and leave the game in the lobby |
| Scenarios.ExampleFourthJoin | main.py:63-73 | the fourth join starts the game with turn order 20, 10, 30, 40 |
| Scenarios.FourJoin | main.py:41-73 | four joins on the object give the started game above |
| Scenarios.ExampleRoll | main.py:87-106 | the first player rolls 1 and 2 from square 0, lands on Baltic Avenue, gets an offer; the turn passes to index 1 |
| Scenarios.ExampleBuy | main.py:142-150 | the Buy press for Baltic Avenue charges the player at index 1: 1500 becomes 1440, owner becomes that username |
| Scenarios.OfferThenBuy | main.py:103-150 | the player who landed (id 20) is not the one who pays (id 10) |

## Left out

- Telegram I/O is not modelled: message replies, the inline Buy/Skip keyboard (main.py:119-131), the turn announcement (main.py:156-161), and handler registration and polling (main.py:164-177). The "Skip" button has no registered handler, so it has no effect to model.
- `async`/`await` and the unsynchronised global record are not modelled: handlers are sequential method calls on one object.
- `random.randint` is replaced by parameters: the two dice of a roll, and the sequence of turn-order draws.
- Logging setup (main.py:7-8) is not modelled.
- Rent is not transferred: the called rent function does not exist in the program, so only the `RentDue` event and the aborted turn advance are modelled.
- Callback-data parsing (`"buy" in data`, `data.split("_")[1]`, main.py:141-144) is not modelled: the property name is a parameter. Names containing `_` therefore do not show the truncation the split causes.
- A missing Telegram username (`None`) is not modelled: usernames are strings.
- Exceptions are modelled as results. The failing rent call is `RentDue` with the turn not advanced; the empty turn order at Buy time is `NoCurrentPlayer`.
- Python's shared mutable player dict is modelled as a map update of an immutable record. The effect on the game record is the same.
- The program has no "not your turn" check on `/roll`, no per-chat sessions, no locking, no rent policy and no buying by board position, so neither has the model.
- The model assumes that every Telegram reply succeeds. Two replies sit in the middle of an update. If the reply at main.py:61 fails, the fourth player is seated but `start_game` never runs, so the table holds four players and has not started: every later `/join` gets the "table full" refusal and `/roll` reports the game as not started, until `/start`. If the reply at main.py:97-100 fails, the token has moved but the turn does not pass on, even on a square with no rent. The invariant `Game.Valid` (the game is running exactly when four players are seated) excludes the first of these states.
