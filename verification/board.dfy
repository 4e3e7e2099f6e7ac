/** The board of the game: configuration constants, the player and property
    records, the decision taken when a token lands on a space, and the
    search that a "Buy" button press performs over the property table. */
module Board {

  const STARTING_MONEY: int := 1500
  const MAX_PLAYERS: nat := 4
  const BOARD_SIZE: nat := 40
  const DICE_SIDES: nat := 6

  /** The pseudo-owner of every property nobody has bought yet. */
  const BANKER: string := "Banker"

  /** Players are keyed by the chat platform's numeric user id. */
  type PlayerId = int

  datatype Option<T> = None | Some(value: T)

  datatype Player = Player(username: string, money: int, position: int, inJail: bool)

  /** `owner` is `BANKER` or the USERNAME (not the id) of the buyer. */
  datatype Property = Property(name: string, price: int, rent: int, owner: string)

  datatype LandingEvent =
    | NoEvent
    | PurchaseOffer(position: int, property: Property)
    | RentDue(position: int, property: Property)

  predicate IsDie(d: int) { 1 <= d <= DICE_SIDES }

  /** A freshly joined player: starting money, on GO, not in jail. */
  function NewPlayer(username: string): (p: Player)
    ensures p.username == username && p.money == STARTING_MONEY
    ensures p.position == 0 && !p.inJail
  {
    Player(username, STARTING_MONEY, 0, false)
  }

  /** The properties a new game is seeded with, keyed by board position. */
  function SeedProperties(): (m: map<int, Property>)
    ensures m.Keys == {1, 3}
    ensures forall pos :: pos in m ==> m[pos].owner == BANKER && m[pos].price > 0 && m[pos].rent >= 0
  {
    map[1 := Property("Mediterranean Avenue", 60, 2, BANKER),
        3 := Property("Baltic Avenue", 60, 4, BANKER)]
  }

  /** The iteration order of the seeded property table (insertion order). */
  function SeedOrder(): (order: seq<int>)
    ensures forall pos :: pos in order <==> pos in SeedProperties()
    ensures forall i, j :: 0 <= i < j < |order| ==> order[i] != order[j]
  {
    [1, 3]
  }

  /** What happens when the player called `username` comes to rest on
      `position`: an offer for a bank-held property, rent for a property
      held under another username, nothing otherwise. */
  function Landing(properties: map<int, Property>, username: string, position: int): (ev: LandingEvent)
    ensures ev.PurchaseOffer? <==> position in properties && properties[position].owner == BANKER
    ensures ev.RentDue? <==>
              position in properties && properties[position].owner != BANKER
              && properties[position].owner != username
    ensures ev.NoEvent? <==>
              position !in properties
              || (properties[position].owner != BANKER && properties[position].owner == username)
    ensures !ev.NoEvent? ==> ev.position == position && ev.property == properties[position]
  {
    if position !in properties then NoEvent
    else
      var property := properties[position];
      if property.owner == BANKER then PurchaseOffer(position, property)
      else if property.owner != username then RentDue(position, property)
      else NoEvent
  }

  /** A property a "Buy <name>" press can take: right name, still bank-held. */
  predicate ForSaleAs(property: Property, name: string) {
    property.name == name && property.owner == BANKER
  }

  /** The index, in the table's iteration order, of the first property that
      is for sale under `name`; None when there is none. */
  function FirstForSale(properties: map<int, Property>, order: seq<int>, name: string): (r: Option<nat>)
    requires forall i :: 0 <= i < |order| ==> order[i] in properties
    ensures r.Some? ==> r.value < |order| && ForSaleAs(properties[order[r.value]], name)
    ensures r.Some? ==> forall j :: 0 <= j < r.value ==> !ForSaleAs(properties[order[j]], name)
    ensures r.None? <==> forall j :: 0 <= j < |order| ==> !ForSaleAs(properties[order[j]], name)
  {
    if order == [] then None
    else if ForSaleAs(properties[order[0]], name) then Some(0)
    else
      match FirstForSale(properties, order[1..], name)
      case None => None
      case Some(k) => Some(k + 1)
  }
}
