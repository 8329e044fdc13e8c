/**
 * The order cart both pages keep: a JavaScript `Map` from item id to a line
 * `{name, price, img, qty}`. A `Map` iterates in insertion order, and the cart
 * is rendered and summed in that order, so the value model keeps the ids in
 * insertion order beside the map of lines.
 */
module OrderCart {

  /** One cart line. Prices are integer cents. */
  datatype Line = Line(name: string, price: int, img: string, qty: int)

  /** The cart as a value: ids in insertion order, and the line of each id. */
  datatype CartState = CartState(order: seq<string>, lines: map<string, Line>)

  const Empty: CartState := CartState([], map[])

  predicate Distinct(s: seq<string>) {
    forall i, j :: 0 <= i < j < |s| ==> s[i] != s[j]
  }

  /** The order lists every id of the map exactly once, and nothing else. */
  ghost predicate WellFormed(c: CartState) {
    Distinct(c.order) && forall id :: id in c.lines <==> id in c.order
  }

  /** Every line has a quantity of at least one. */
  ghost predicate AllPositive(c: CartState) {
    forall id :: id in c.lines ==> c.lines[id].qty >= 1
  }

  /** The lines of every id other than `id` are the same in both carts. */
  ghost predicate SameElsewhere(c: CartState, r: CartState, id: string) {
    forall x :: x != id ==> (x in r.lines <==> x in c.lines) && (x in c.lines ==> r.lines[x] == c.lines[x])
  }

  /** s without the occurrences of id, in the same order. */
  function Without(s: seq<string>, id: string): (r: seq<string>)
    ensures forall x :: x in r <==> x in s && x != id
    ensures Distinct(s) ==> Distinct(r)
    ensures id !in s ==> r == s
  {
    if s == [] then []
    else if s[0] == id then Without(s[1..], id)
    else
      var rest := Without(s[1..], id);
      assert Distinct(s) ==> s[0] !in s[1..];
      [s[0]] + rest
  }

  /** `Map.set`: an id already present keeps its place, a new id goes last. */
  function SetLine(c: CartState, id: string, line: Line): (r: CartState)
    ensures WellFormed(c) ==> WellFormed(r)
    ensures id in r.lines && r.lines[id] == line && SameElsewhere(c, r, id)
  {
    CartState(if id in c.lines then c.order else c.order + [id], c.lines[id := line])
  }

  /** `Map.delete`. */
  function DeleteLine(c: CartState, id: string): (r: CartState)
    ensures WellFormed(c) ==> WellFormed(r)
    ensures id !in r.lines && SameElsewhere(c, r, id)
    ensures WellFormed(c) && id !in c.lines ==> r == c
  {
    CartState(Without(c.order, id), c.lines - {id})
  }

  /** Deleting an id makes any earlier `set` of that id irrelevant. */
  lemma DeleteAfterSet(c: CartState, id: string, line: Line)
    requires WellFormed(c) && id in c.lines
    ensures DeleteLine(SetLine(c, id, line), id) == DeleteLine(c, id)
  {
    assert c.lines[id := line] - {id} == c.lines - {id};
  }

  /**
   * Adding an item: an id already in the cart has its quantity raised by one
   * (its stored name, price and image stay); a new id gets a line with
   * quantity one. Nothing else changes.
   */
  function AddOrBump(c: CartState, id: string, name: string, price: int, img: string): (r: CartState)
    ensures id in r.lines
    ensures id in c.lines ==> r.lines[id] == c.lines[id].(qty := c.lines[id].qty + 1)
    ensures id !in c.lines ==> r.lines[id] == Line(name, price, img, 1)
    ensures SameElsewhere(c, r, id)
    ensures r != c
    ensures WellFormed(c) ==> WellFormed(r)
    ensures AllPositive(c) ==> AllPositive(r)
  {
    if id in c.lines then
      var existing := c.lines[id];
      SetLine(c, id, existing.(qty := existing.qty + 1))
    else
      SetLine(c, id, Line(name, price, img, 1))
  }

  /** The `+` button of a line. An id not in the cart is left alone. */
  function Increase(c: CartState, id: string): (r: CartState)
    ensures id !in c.lines ==> r == c
    ensures id in c.lines ==> id in r.lines && r.lines[id] == c.lines[id].(qty := c.lines[id].qty + 1)
    ensures SameElsewhere(c, r, id)
    ensures WellFormed(c) ==> WellFormed(r)
    ensures AllPositive(c) ==> AllPositive(r)
  {
    if id in c.lines then SetLine(c, id, c.lines[id].(qty := c.lines[id].qty + 1)) else c
  }

  /**
   * The `−` button of a line: the quantity drops by one and the line is
   * deleted once the quantity is zero or below.
   */
  function Decrease(c: CartState, id: string): (r: CartState)
    ensures id !in c.lines ==> r == c
    ensures id in c.lines && c.lines[id].qty <= 1 ==> id !in r.lines
    ensures id in c.lines && c.lines[id].qty > 1 ==>
      id in r.lines && r.lines[id] == c.lines[id].(qty := c.lines[id].qty - 1)
    ensures SameElsewhere(c, r, id)
    ensures WellFormed(c) ==> WellFormed(r)
    ensures AllPositive(c) ==> AllPositive(r)
  {
    if id in c.lines then
      var qty := c.lines[id].qty - 1;
      if qty <= 0 then DeleteLine(c, id) else SetLine(c, id, c.lines[id].(qty := qty))
    else c
  }

  /** The Remove button of a line: the line goes whatever its quantity. */
  function Remove(c: CartState, id: string): (r: CartState)
    ensures id !in r.lines
    ensures SameElsewhere(c, r, id)
    ensures WellFormed(c) && id !in c.lines ==> r == c
    ensures WellFormed(c) ==> WellFormed(r)
    ensures AllPositive(c) ==> AllPositive(r)
  {
    DeleteLine(c, id)
  }

  /** The `data-action` values of the cart's buttons. */
  datatype CartAction = IncreaseItem | DecreaseItem | RemoveItem | OtherAction

  function ParseAction(action: string): CartAction {
    if action == "increase-item" then IncreaseItem
    else if action == "decrease-item" then DecreaseItem
    else if action == "remove-item" then RemoveItem
    else OtherAction
  }

  /**
   * One cart-button click on the line of `id`, once the handler has found
   * the line. Any other action string changes nothing.
   */
  function Apply(c: CartState, id: string, action: CartAction): (r: CartState)
    ensures action == IncreaseItem && id in c.lines ==>
      id in r.lines && r.lines[id] == c.lines[id].(qty := c.lines[id].qty + 1)
    ensures action == DecreaseItem && id in c.lines ==>
      if c.lines[id].qty <= 1 then id !in r.lines
      else id in r.lines && r.lines[id] == c.lines[id].(qty := c.lines[id].qty - 1)
    ensures action == RemoveItem ==> id !in r.lines
    ensures SameElsewhere(c, r, id)
    ensures action == OtherAction ==> r == c
    ensures WellFormed(c) && id !in c.lines ==> r == c
    ensures WellFormed(c) ==> WellFormed(r)
    ensures AllPositive(c) ==> AllPositive(r)
  {
    match action
    case IncreaseItem => Increase(c, id)
    case DecreaseItem => Decrease(c, id)
    case RemoveItem => Remove(c, id)
    case OtherAction => c
  }

  /** The cart `Map` itself, updated in place by the page's handlers. */
  class Cart {
    var order: seq<string>
    var lines: map<string, Line>

    function State(): CartState
      reads this
    {
      CartState(order, lines)
    }

    ghost predicate Valid()
      reads this
    {
      WellFormed(State())
    }

    /** `new Map()`. */
    constructor ()
      ensures Valid() && State() == Empty
    {
      order := [];
      lines := map[];
    }

    /** `cart.set(id, line)`. */
    method Set(id: string, line: Line)
      requires Valid()
      modifies this
      ensures Valid() && State() == SetLine(old(State()), id, line)
    {
      if id !in lines {
        order := order + [id];
      }
      lines := lines[id := line];
    }

    /** `cart.delete(id)`. */
    method Delete(id: string)
      requires Valid()
      modifies this
      ensures Valid() && State() == DeleteLine(old(State()), id)
    {
      order := Without(order, id);
      lines := lines - {id};
    }
  }
}
