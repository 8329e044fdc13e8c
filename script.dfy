/**
 * Triad-New/script.js: a separate category filter and search filter, a
 * cart seeded from the rows already in the markup, add-to-cart without any
 * rejection, the cart buttons, the totals and the party-size buttons.
 */
module Script {
  import opened Wrappers
  import opened Text
  import opened OrderCart
  import opened Pricing
  import PartySize

  const TAX_RATE: real := 0.10
  const DISC_RATE: real := 0.10
  /** The category of a card without a `data-category` attribute. */
  const DEFAULT_CATEGORY: string := "hot-coffee"

  /**
   * A menu card as script.js reads it, "" standing for an absent attribute
   * or element: `data-id`, `data-name`, the text of its `h4`, `data-category`,
   * the text of its `p`, and the two prices as parsed by `parseFloat`
   * (cents; None when NaN): `data-price` and the `[data-price-text]` text.
   */
  datatype MenuCard = MenuCard(
    id: string, name: string, heading: string, category: string, description: string,
    price: Option<int>, priceText: Option<int>, img: string)

  // ---------------------------------------------------------------------
  // Category filter and search filter

  /** `filterByCategory`'s test: a card without a category counts as hot coffee. */
  predicate CategoryMatches(category: string, card: MenuCard) {
    var cardCategory := if card.category == "" then DEFAULT_CATEGORY else card.category;
    category == "all" || cardCategory == category
  }

  /**
   * A category button without `data-category` passes null, modelled as "":
   * no card's category is "" after the default, so every card is hidden.
   */
  lemma MissingCategoryHidesAll(card: MenuCard)
    ensures !CategoryMatches("", card)
  {
  }

  /** A card without a category is shown exactly under "all" and "hot-coffee". */
  lemma UncategorisedIsHotCoffee(category: string, card: MenuCard)
    requires card.category == ""
    ensures CategoryMatches(category, card) <==> category == "all" || category == "hot-coffee"
  {
  }

  method FilterByCategory(cards: seq<MenuCard>, category: string, shown: array<bool>)
    requires shown.Length == |cards|
    modifies shown
    ensures forall i :: 0 <= i < |cards| ==> shown[i] == CategoryMatches(category, cards[i])
  {
    for i := 0 to |cards|
      invariant forall j :: 0 <= j < i ==> shown[j] == CategoryMatches(category, cards[j])
    {
      shown[i] := CategoryMatches(category, cards[i]);
    }
  }

  /** The search test: the lower-cased name or description includes the trimmed, lower-cased query. */
  predicate SearchMatches(rawQuery: string, card: MenuCard) {
    var q := ToLower(Trim(rawQuery));
    Contains(ToLower(card.name), q) || Contains(ToLower(card.description), q)
  }

  /** An empty (or blank) query matches every card. */
  lemma BlankQueryMatchesAll(rawQuery: string, card: MenuCard)
    requires Trim(rawQuery) == ""
    ensures SearchMatches(rawQuery, card)
  {
    ContainsEmpty(ToLower(card.name));
  }

  /** The search input handler. */
  method Search(cards: seq<MenuCard>, rawQuery: string, shown: array<bool>)
    requires shown.Length == |cards|
    modifies shown
    ensures forall i :: 0 <= i < |cards| ==> shown[i] == SearchMatches(rawQuery, cards[i])
  {
    for i := 0 to |cards|
      invariant forall j :: 0 <= j < i ==> shown[j] == SearchMatches(rawQuery, cards[j])
    {
      shown[i] := SearchMatches(rawQuery, cards[i]);
    }
  }

  /**
   * The two handlers each overwrite every card's display, and the search one
   * does not look at the category: once "tea" is selected, clearing the
   * search box shows a hot-coffee card again.
   */
  lemma SearchIgnoresCategory()
    ensures var card := MenuCard("1", "latte", "", "hot-coffee", "", Some(450), None, "");
      !CategoryMatches("tea", card) && SearchMatches("", card)
  {
    BlankQueryMatchesAll("", MenuCard("1", "latte", "", "hot-coffee", "", Some(450), None, ""));
  }

  // ---------------------------------------------------------------------
  // Cart seeded from the markup

  /**
   * One `[data-cart-item]` row of the markup: its `data-id`, the text of its
   * `.order-name` ("" when absent), its `.order-price` and `[data-qty]` as
   * parsed (None when NaN), and its image.
   */
  datatype CartRow = CartRow(id: string, nameText: string, price: Option<int>, qty: Option<int>, img: string)

  /** The line a row gives: name "Item" when blank, price 0 when NaN, quantity 1 when 0 or NaN. */
  function SeedLine(row: CartRow): (line: Line)
    ensures line.name != []
    ensures row.price.None? ==> line.price == 0
    ensures row.price.Some? ==> line.price == row.price.value
    ensures line.qty != 0
    ensures line.qty >= 1 <==> row.qty.None? || row.qty.value >= 0
    ensures row.qty.Some? && row.qty.value != 0 ==> line.qty == row.qty.value
    ensures row.qty.None? || row.qty == Some(0) ==> line.qty == 1
    ensures Trim(row.nameText) != "" ==> line.name == Trim(row.nameText)
    ensures Trim(row.nameText) == "" ==> line.name == "Item"
    ensures line.img == row.img
  {
    var trimmed := Trim(row.nameText);
    var name := if trimmed == "" then "Item" else trimmed;
    var price := match row.price case None => 0 case Some(p) => p;
    var qty := match row.qty case None => 1 case Some(q) => if q == 0 then 1 else q;
    Line(name, price, row.img, qty)
  }

  /** The cart after the seeding loop has run over `rows`: each row is `cart.set` in turn. */
  function SeedState(rows: seq<CartRow>): (c: CartState)
    ensures WellFormed(c)
  {
    if rows == [] then Empty
    else SetLine(SeedState(rows[..|rows| - 1]), rows[|rows| - 1].id, SeedLine(rows[|rows| - 1]))
  }

  /** The `data-id`s of the rows, in markup order. */
  function RowIds(rows: seq<CartRow>): (ids: seq<string>)
    ensures |ids| == |rows| && forall i :: 0 <= i < |rows| ==> ids[i] == rows[i].id
  {
    seq(|rows|, i requires 0 <= i < |rows| => rows[i].id)
  }

  /** Each row adds its id to the keys of the cart seeded so far. */
  lemma SeedStepKeys(rows: seq<CartRow>)
    requires rows != []
    ensures SeedState(rows).lines.Keys == SeedState(rows[..|rows| - 1]).lines.Keys + {rows[|rows| - 1].id}
  {
  }

  /** A row appends its id to the ids before it. */
  lemma RowIdsSnoc(rows: seq<CartRow>)
    requires rows != []
    ensures RowIds(rows) == RowIds(rows[..|rows| - 1]) + [rows[|rows| - 1].id]
  {
  }

  /** The seeded cart holds exactly the ids of the rows. */
  lemma {:induction false} SeedKeys(rows: seq<CartRow>)
    ensures forall id :: id in SeedState(rows).lines <==> id in RowIds(rows)
  {
    if rows != [] {
      SeedKeys(rows[..|rows| - 1]);
      SeedStepKeys(rows);
      RowIdsSnoc(rows);
    }
  }

  /** A later row with the same id overwrites the earlier one: each id gets the line of its last row. */
  lemma {:induction false} SeedLastRowWins(rows: seq<CartRow>, k: nat)
    requires k < |rows|
    requires forall j :: k < j < |rows| ==> rows[j].id != rows[k].id
    ensures rows[k].id in SeedState(rows).lines
    ensures SeedState(rows).lines[rows[k].id] == SeedLine(rows[k])
  {
    if k < |rows| - 1 {
      SeedLastRowWins(rows[..|rows| - 1], k);
    }
  }

  /** Seeding gives every line a quantity of at least one unless the markup holds a negative quantity. */
  lemma {:induction false} SeedQuantitiesPositive(rows: seq<CartRow>)
    requires forall i :: 0 <= i < |rows| ==> rows[i].qty.None? || rows[i].qty.value >= 0
    ensures AllPositive(SeedState(rows))
  {
    if rows != [] {
      SeedQuantitiesPositive(rows[..|rows| - 1]);
    }
  }

  /** The `forEach` over the cart rows of the markup. */
  method SeedCart(rows: seq<CartRow>) returns (cart: Cart)
    ensures fresh(cart)
    ensures cart.Valid() && cart.State() == SeedState(rows)
  {
    cart := new Cart();
    for i := 0 to |rows|
      invariant cart.Valid() && cart.State() == SeedState(rows[..i])
    {
      assert rows[..i + 1][..i] == rows[..i];
      cart.Set(rows[i].id, SeedLine(rows[i]));
    }
    assert rows[..|rows|] == rows;
  }

  // ---------------------------------------------------------------------
  // Add to cart

  /** `data-id`, or the id made from the clock when the card has none. */
  function CardId(card: MenuCard, fallbackId: string): string {
    if card.id != "" then card.id else fallbackId
  }

  /** `data-name`, else the trimmed `h4` text, else "Item". */
  function CardName(card: MenuCard): (name: string)
    ensures name != []
    ensures card.name != "" ==> name == card.name
    ensures card.name == "" && Trim(card.heading) != "" ==> name == Trim(card.heading)
    ensures card.name == "" && Trim(card.heading) == "" ==> name == "Item"
  {
    if card.name != "" then card.name
    else if Trim(card.heading) != "" then Trim(card.heading)
    else "Item"
  }

  /** `data-price`, else the price text, else 0; a zero or NaN price falls through to the next. */
  function CardPrice(card: MenuCard): (price: int)
    ensures price != 0 ==> card.price == Some(price) || card.priceText == Some(price)
    ensures card.price.Some? && card.price.value != 0 ==> price == card.price.value
    ensures !(card.price.Some? && card.price.value != 0) && card.priceText.Some? && card.priceText.value != 0 ==>
      price == card.priceText.value
  {
    if card.price.Some? && card.price.value != 0 then card.price.value
    else if card.priceText.Some? && card.priceText.value != 0 then card.priceText.value
    else 0
  }

  /**
   * An add-to-cart click. `card` is the enclosing `.card` (None when there is
   * none); `fallbackId` stands in for `item-${Date.now()}`. Nothing is
   * rejected: every click on a card changes the cart.
   */
  function AddCard(c: CartState, card: Option<MenuCard>, fallbackId: string): (r: CartState)
    ensures r == c <==> card.None?
    ensures card.Some? ==> var id := CardId(card.value, fallbackId);
      id in r.lines && r.lines[id].qty == (if id in c.lines then c.lines[id].qty + 1 else 1)
    ensures card.Some? && CardId(card.value, fallbackId) in c.lines ==> var id := CardId(card.value, fallbackId);
      r.lines[id] == c.lines[id].(qty := c.lines[id].qty + 1)
    ensures card.Some? && CardId(card.value, fallbackId) !in c.lines ==>
      r.lines[CardId(card.value, fallbackId)] == Line(CardName(card.value), CardPrice(card.value), card.value.img, 1)
    ensures card.Some? ==> SameElsewhere(c, r, CardId(card.value, fallbackId))
    ensures WellFormed(c) ==> WellFormed(r)
    ensures AllPositive(c) ==> AllPositive(r)
  {
    match card
    case None => c
    case Some(k) => AddOrBump(c, CardId(k, fallbackId), CardName(k), CardPrice(k), k.img)
  }

  method AddToCart(cart: Cart, card: Option<MenuCard>, fallbackId: string)
    requires cart.Valid()
    modifies cart
    ensures cart.Valid() && cart.State() == AddCard(old(cart.State()), card, fallbackId)
  {
    if card.None? {
      return;
    }
    var k := card.value;
    var id := CardId(k, fallbackId);
    if id in cart.lines {
      var line := cart.lines[id];
      cart.Set(id, line.(qty := line.qty + 1));
    } else {
      cart.Set(id, Line(CardName(k), CardPrice(k), k.img, 1));
    }
  }

  // ---------------------------------------------------------------------
  // Cart buttons

  /**
   * A click inside the cart: `action` is the clicked element's
   * `data-action` ("" when absent), `row` the id of the enclosing cart row
   * (None when there is none).
   */
  function CartClick(c: CartState, action: string, row: Option<string>): (r: CartState)
    ensures action == "" || row.None? ==> r == c
    ensures row.Some? ==> SameElsewhere(c, r, row.value)
    ensures WellFormed(c) && row.Some? && row.value !in c.lines ==> r == c
    ensures action != "" && row.Some? && row.value in c.lines ==> r == Apply(c, row.value, ParseAction(action))
    ensures WellFormed(c) ==> WellFormed(r)
    ensures AllPositive(c) ==> AllPositive(r)
  {
    if action == "" || row.None? then c
    else if row.value !in c.lines then c
    else Apply(c, row.value, ParseAction(action))
  }

  method OnCartClick(cart: Cart, action: string, row: Option<string>)
    requires cart.Valid()
    modifies cart
    ensures cart.Valid() && cart.State() == CartClick(old(cart.State()), action, row)
  {
    if action == "" || row.None? {
      return;
    }
    var id := row.value;
    if id !in cart.lines {
      return;
    }
    ghost var before := cart.State();
    var act := ParseAction(action);
    assert CartClick(before, action, row) == Apply(before, id, act);
    match act
    case IncreaseItem =>
      var line := cart.lines[id];
      cart.Set(id, line.(qty := line.qty + 1));
      assert cart.State() == Increase(before, id);
    case DecreaseItem =>
      var line := cart.lines[id];
      cart.Set(id, line.(qty := line.qty - 1));
      if cart.lines[id].qty <= 0 {
        cart.Delete(id);
        DeleteAfterSet(before, id, line.(qty := line.qty - 1));
        assert cart.State() == DeleteLine(before, id);
      } else {
        assert cart.State() == SetLine(before, id, line.(qty := line.qty - 1));
      }
      assert cart.State() == Decrease(before, id);
    case RemoveItem =>
      cart.Delete(id);
      assert cart.State() == Remove(before, id);
    case OtherAction =>
  }

  /** `updateTotals`. */
  method UpdateTotals(cart: Cart) returns (t: Totals)
    requires cart.Valid()
    ensures t.subtotal == Subtotal(cart.State())
    ensures t.tax == t.subtotal as real * TAX_RATE
    ensures t.discount == t.subtotal as real * DISC_RATE
    ensures t.total == t.subtotal as real + t.tax - t.discount
    ensures t.total == t.subtotal as real
  {
    var subtotal := SumSubtotal(cart);
    t := Derive(subtotal, TAX_RATE, DISC_RATE);
  }

  /** What the user can do to the cart of script.js. */
  datatype CartEvent = AddClick(card: Option<MenuCard>, fallbackId: string) | Click(action: string, row: Option<string>)

  function Step(c: CartState, e: CartEvent): CartState {
    match e
    case AddClick(card, fallbackId) => AddCard(c, card, fallbackId)
    case Click(action, row) => CartClick(c, action, row)
  }

  function Run(c: CartState, events: seq<CartEvent>): CartState
    decreases |events|
  {
    if events == [] then c else Run(Step(c, events[0]), events[1..])
  }

  lemma {:induction false} RunKeepsQuantitiesPositive(c: CartState, events: seq<CartEvent>)
    requires WellFormed(c) && AllPositive(c)
    ensures WellFormed(Run(c, events)) && AllPositive(Run(c, events))
    decreases |events|
  {
    if events != [] {
      RunKeepsQuantitiesPositive(Step(c, events[0]), events[1..]);
    }
  }

  /**
   * From a cart seeded with no negative quantity, every line keeps a
   * quantity of at least one whatever the user does.
   */
  lemma FromSeedQuantitiesPositive(rows: seq<CartRow>, events: seq<CartEvent>)
    requires forall i :: 0 <= i < |rows| ==> rows[i].qty.None? || rows[i].qty.value >= 0
    ensures AllPositive(Run(SeedState(rows), events))
  {
    SeedQuantitiesPositive(rows);
    RunKeepsQuantitiesPositive(SeedState(rows), events);
  }

  // ---------------------------------------------------------------------
  // Party size

  /** `parseInt(text || "1", 10) || 1`: a count that is NaN or 0 is read as 1. */
  function ReadPersonCount(parsed: Option<int>): (n: int)
    ensures n != 0
    ensures parsed.None? || parsed == Some(0) ==> n == 1
    ensures parsed.Some? && parsed.value != 0 ==> n == parsed.value
  {
    match parsed
    case None => 1
    case Some(v) => if v == 0 then 1 else v
  }

  /** One press of a person button: the count shown is at least one whatever the text held. */
  function StepPersons(parsed: Option<int>, delta: int): (count: int)
    ensures count >= 1
    ensures count >= ReadPersonCount(parsed) + delta
    ensures ReadPersonCount(parsed) + delta >= 1 ==> count == ReadPersonCount(parsed) + delta
    ensures ReadPersonCount(parsed) + delta < 1 ==> count == 1
  {
    PartySize.SetPersonCount(ReadPersonCount(parsed) + delta)
  }

  /**
   * The count after k presses of the decrement button. The count written to
   * the label is an integer of one or more, so `parseInt` reads it back as it
   * was written.
   */
  function DecrementPresses(parsed: Option<int>, k: nat): int {
    if k == 0 then ReadPersonCount(parsed) else StepPersons(Some(DecrementPresses(parsed, k - 1)), -1)
  }

  /** From a shown count of n ≥ 1, k presses of the decrement button show max(1, n − k). */
  lemma {:induction false} DecrementPressesStayAtLeastOne(n: int, k: nat)
    requires n >= 1
    ensures DecrementPresses(Some(n), k) == PartySize.Decrements(n, k)
    ensures DecrementPresses(Some(n), k) == if n - k >= 1 then n - k else 1
  {
    PartySize.DecrementsStayAtLeastOne(n, k);
    if k > 0 {
      DecrementPressesStayAtLeastOne(n, k - 1);
    }
  }
}
