/**
 * Triad-New/app.js: the menu filter (one test combining category and
 * search), best-seller badges, the cart handlers, the totals and the
 * party-size buttons.
 */
module App {
  import opened Wrappers
  import opened Text
  import opened OrderCart
  import opened Pricing
  import PartySize

  const TAX_RATE: real := 0.10
  const DISCOUNT_RATE: real := 0.10
  const BEST_SELLER_IDS: set<int> := {1, 2, 3, 4, 8, 9, 13, 15, 17, 21}
  /**
   * The category selected when the page loads. A category button's
   * `data-category` becomes the active category as it is, so a button without
   * one makes it `undefined` (None).
   */
  const INITIAL_CATEGORY: Option<string> := Some("hot-coffee")

  /**
   * A menu card's data attributes as app.js reads them, "" standing for an
   * absent attribute. `price` is `Number(data-price || 0)` in cents, None
   * when that is NaN.
   */
  datatype MenuCard = MenuCard(id: string, name: string, category: string, price: Option<int>, img: string)

  // ---------------------------------------------------------------------
  // Category and search filter

  /** The trimmed, lower-cased search text. */
  function Query(rawQuery: string): string {
    ToLower(Trim(rawQuery))
  }

  /**
   * A card is shown iff it is in the active category (or "all") and its
   * lower-cased name includes the query. An undefined category is neither
   * "all" nor equal to any card's category, which is a string.
   */
  predicate Visible(activeCategory: Option<string>, rawQuery: string, card: MenuCard) {
    var q := Query(rawQuery);
    (activeCategory == Some("all") || activeCategory == Some(card.category))
    && (q == "" || Contains(ToLower(card.name), q))
  }

  /** `applyFilters`: every card's display is set from its own attributes only. */
  method ApplyFilters(cards: seq<MenuCard>, activeCategory: Option<string>, rawQuery: string, shown: array<bool>)
    requires shown.Length == |cards|
    modifies shown
    ensures forall i :: 0 <= i < |cards| ==> shown[i] == Visible(activeCategory, rawQuery, cards[i])
  {
    for i := 0 to |cards|
      invariant forall j :: 0 <= j < i ==> shown[j] == Visible(activeCategory, rawQuery, cards[j])
    {
      shown[i] := Visible(activeCategory, rawQuery, cards[i]);
    }
  }

  /** The cards left visible, in menu order. */
  function FilterCards(cards: seq<MenuCard>, activeCategory: Option<string>, rawQuery: string): (r: seq<MenuCard>)
    ensures |r| <= |cards|
    ensures forall x :: x in r <==> x in cards && Visible(activeCategory, rawQuery, x)
  {
    if cards == [] then []
    else
      var rest := FilterCards(cards[1..], activeCategory, rawQuery);
      if Visible(activeCategory, rawQuery, cards[0]) then [cards[0]] + rest else rest
  }

  /** Filtering the visible cards again with the same category and query changes nothing. */
  lemma {:induction false} FilterIdempotent(cards: seq<MenuCard>, activeCategory: Option<string>, rawQuery: string)
    ensures FilterCards(FilterCards(cards, activeCategory, rawQuery), activeCategory, rawQuery)
         == FilterCards(cards, activeCategory, rawQuery)
  {
    if cards != [] {
      var rest := FilterCards(cards[1..], activeCategory, rawQuery);
      FilterIdempotent(cards[1..], activeCategory, rawQuery);
      if Visible(activeCategory, rawQuery, cards[0]) {
        assert ([cards[0]] + rest)[1..] == rest;
      }
    }
  }

  /** Filtering keeps menu order: the cards of a + b that stay are those of a, then those of b. */
  lemma {:induction false} FilterCardsAppend(a: seq<MenuCard>, b: seq<MenuCard>, activeCategory: Option<string>, rawQuery: string)
    ensures FilterCards(a + b, activeCategory, rawQuery)
         == FilterCards(a, activeCategory, rawQuery) + FilterCards(b, activeCategory, rawQuery)
  {
    if a == [] {
      assert a + b == b;
    } else {
      assert (a + b)[0] == a[0];
      assert (a + b)[1..] == a[1..] + b;
      FilterCardsAppend(a[1..], b, activeCategory, rawQuery);
    }
  }

  /** A category button without `data-category` hides every card. */
  lemma UndefinedCategoryHidesAll(rawQuery: string, card: MenuCard)
    ensures !Visible(None, rawQuery, card)
  {
  }

  /** On load, with the search box empty, exactly the hot-coffee cards are shown. */
  lemma InitialViewIsHotCoffee(card: MenuCard)
    ensures Visible(INITIAL_CATEGORY, "", card) <==> card.category == "hot-coffee"
  {
  }

  /** The search is case-insensitive: lower-casing the typed text shows the same cards. */
  lemma QueryCaseInsensitive(activeCategory: Option<string>, rawQuery: string, card: MenuCard)
    ensures Visible(activeCategory, ToLower(rawQuery), card) == Visible(activeCategory, rawQuery, card)
  {
    TrimLower(rawQuery);
    ToLowerIdempotent(Trim(rawQuery));
  }

  /** With "all" selected and nothing but spaces typed, every card is shown. */
  lemma AllAndBlankShowsEverything(rawQuery: string, card: MenuCard)
    requires forall i :: 0 <= i < |rawQuery| ==> IsSpace(rawQuery[i])
    ensures Visible(Some("all"), rawQuery, card)
  {
  }

  /**
   * The `q === ""` test is only a shortcut: since every name includes the
   * empty string, visibility is the category test and the substring test.
   */
  lemma EmptyQueryTestIsShortcut(activeCategory: Option<string>, rawQuery: string, card: MenuCard)
    ensures Visible(activeCategory, rawQuery, card)
        <==> (activeCategory == Some("all") || activeCategory == Some(card.category))
             && Contains(ToLower(card.name), Query(rawQuery))
  {
    ContainsEmpty(ToLower(card.name));
  }

  // ---------------------------------------------------------------------
  // Best-seller badge

  /** `BEST_SELLER_IDS.has(Number(card.dataset.id))`; None stands for NaN. */
  predicate IsBestSeller(parsedId: Option<int>) {
    parsedId.Some? && parsedId.value in BEST_SELLER_IDS
  }

  /** `markBestSellers`: the badge is added to the listed ids and never taken off. */
  method MarkBestSellers(parsedIds: seq<Option<int>>, badge: array<bool>)
    requires badge.Length == |parsedIds|
    modifies badge
    ensures forall i :: 0 <= i < |parsedIds| ==> badge[i] == (old(badge[i]) || IsBestSeller(parsedIds[i]))
  {
    for i := 0 to |parsedIds|
      invariant forall j :: 0 <= j < i ==> badge[j] == (old(badge[j]) || IsBestSeller(parsedIds[j]))
      invariant forall j :: i <= j < |parsedIds| ==> badge[j] == old(badge[j])
    {
      if IsBestSeller(parsedIds[i]) {
        badge[i] := true;
      }
    }
  }

  // ---------------------------------------------------------------------
  // Cart

  /** `!id || !name || !price`: an add that app.js ignores. */
  predicate Rejected(card: MenuCard) {
    card.id == "" || card.name == "" || card.price == None || card.price == Some(0)
  }

  /**
   * `addToCartFromCard`: a card with no id, no name, or a zero or NaN price
   * leaves the cart as it is; otherwise its line is raised by one or
   * created with quantity one, and no other line changes.
   */
  function AddFromCard(c: CartState, card: MenuCard): (r: CartState)
    ensures r == c <==> Rejected(card)
    ensures !Rejected(card) ==>
      card.id in r.lines && r.lines[card.id].qty == (if card.id in c.lines then c.lines[card.id].qty + 1 else 1)
    ensures !Rejected(card) && card.id !in c.lines ==>
      r.lines[card.id] == Line(card.name, card.price.value, card.img, 1)
    ensures !Rejected(card) && card.id in c.lines ==>
      r.lines[card.id] == c.lines[card.id].(qty := c.lines[card.id].qty + 1)
    ensures SameElsewhere(c, r, card.id)
    ensures WellFormed(c) ==> WellFormed(r)
    ensures AllPositive(c) ==> AllPositive(r)
  {
    if Rejected(card) then c
    else AddOrBump(c, card.id, card.name, card.price.value, card.img)
  }

  method AddToCartFromCard(cart: Cart, card: MenuCard)
    requires cart.Valid()
    modifies cart
    ensures cart.Valid() && cart.State() == AddFromCard(old(cart.State()), card)
  {
    if card.id == "" || card.name == "" || card.price.None? || card.price.value == 0 {
      return;
    }
    if card.id in cart.lines {
      var existing := cart.lines[card.id];
      cart.Set(card.id, existing.(qty := existing.qty + 1));
    } else {
      cart.Set(card.id, Line(card.name, card.price.value, card.img, 1));
    }
  }

  /**
   * A click inside the cart: `row` is the id of the enclosing cart row,
   * `button` the `data-action` of the enclosing button ("" when it has
   * none); None where there is no such element.
   */
  function CartClick(c: CartState, row: Option<string>, button: Option<string>): (r: CartState)
    ensures row.None? || button.None? ==> r == c
    ensures row.Some? ==> SameElsewhere(c, r, row.value)
    ensures WellFormed(c) && row.Some? && row.value !in c.lines ==> r == c
    ensures row.Some? && button.Some? && row.value in c.lines ==>
      r == Apply(c, row.value, ParseAction(button.value))
    ensures WellFormed(c) ==> WellFormed(r)
    ensures AllPositive(c) ==> AllPositive(r)
  {
    if row.None? then c
    else if row.value !in c.lines then c
    else if button.None? then c
    else Apply(c, row.value, ParseAction(button.value))
  }

  method OnCartClick(cart: Cart, row: Option<string>, button: Option<string>)
    requires cart.Valid()
    modifies cart
    ensures cart.Valid() && cart.State() == CartClick(old(cart.State()), row, button)
  {
    if row.None? {
      return;
    }
    var id := row.value;
    if id !in cart.lines {
      return;
    }
    if button.None? {
      return;
    }
    ghost var before := cart.State();
    var action := ParseAction(button.value);
    assert CartClick(before, row, button) == Apply(before, id, action);
    var item := cart.lines[id];
    match action
    case IncreaseItem =>
      cart.Set(id, item.(qty := item.qty + 1));
      assert cart.State() == Increase(before, id);
    case DecreaseItem =>
      var qty := item.qty - 1;
      if qty <= 0 {
        cart.Delete(id);
        assert cart.State() == DeleteLine(before, id);
      } else {
        cart.Set(id, item.(qty := qty));
        assert cart.State() == SetLine(before, id, item.(qty := qty));
      }
      assert cart.State() == Decrease(before, id);
    case RemoveItem =>
      cart.Delete(id);
      assert cart.State() == Remove(before, id);
    case OtherAction =>
  }

  /** `calcTotals`: with both rates at 10% the total always equals the subtotal. */
  method CalcTotals(cart: Cart) returns (t: Totals)
    requires cart.Valid()
    ensures t.subtotal == Subtotal(cart.State())
    ensures t.tax == t.subtotal as real * TAX_RATE
    ensures t.discount == t.subtotal as real * DISCOUNT_RATE
    ensures t.total == t.subtotal as real + t.tax - t.discount
    ensures t.total == t.subtotal as real
  {
    var subtotal := SumSubtotal(cart);
    t := Derive(subtotal, TAX_RATE, DISCOUNT_RATE);
  }

  /** What the user can do to the cart of app.js. */
  datatype CartEvent = AddCard(card: MenuCard) | Click(row: Option<string>, button: Option<string>)

  function Step(c: CartState, e: CartEvent): CartState {
    match e
    case AddCard(card) => AddFromCard(c, card)
    case Click(row, button) => CartClick(c, row, button)
  }

  function Run(c: CartState, events: seq<CartEvent>): CartState
    decreases |events|
  {
    if events == [] then c else Run(Step(c, events[0]), events[1..])
  }

  /** Whatever the user does, the cart stays well formed and every line keeps a quantity of at least one. */
  lemma {:induction false} RunKeepsQuantitiesPositive(c: CartState, events: seq<CartEvent>)
    requires WellFormed(c) && AllPositive(c)
    ensures WellFormed(Run(c, events)) && AllPositive(Run(c, events))
    decreases |events|
  {
    if events != [] {
      RunKeepsQuantitiesPositive(Step(c, events[0]), events[1..]);
    }
  }

  /** The page starts with an empty cart, so every line it ever shows has a quantity of at least one. */
  lemma FromEmptyQuantitiesPositive(events: seq<CartEvent>)
    ensures WellFormed(Run(Empty, events)) && AllPositive(Run(Empty, events))
  {
    RunKeepsQuantitiesPositive(Empty, events);
  }

  /** Adding a $4.50 item twice: subtotal $9.00, tax $0.90, discount $0.90, total $9.00. */
  lemma TwoOfOneItem(c: CartState)
    requires c == Run(Empty, [AddCard(MenuCard("1", "Espresso", "hot-coffee", Some(450), "")),
                              AddCard(MenuCard("1", "Espresso", "hot-coffee", Some(450), ""))])
    ensures WellFormed(c) && Subtotal(c) == 900
    ensures Subtotal(c) as real * TAX_RATE == 90.0 && Subtotal(c) as real * DISCOUNT_RATE == 90.0
  {
    var card := MenuCard("1", "Espresso", "hot-coffee", Some(450), "");
    var once := AddFromCard(Empty, card);
    SubtotalAfterAdd(Empty, "1", "Espresso", 450, "");
    SubtotalAfterAdd(once, "1", "Espresso", 450, "");
  }

  // ---------------------------------------------------------------------
  // Party size

  /**
   * One press of a person button: `Number(text || 1)` is read (None when it
   * is NaN) and `setPersonCount(current + delta)` shown. `Math.max(1, NaN)`
   * is NaN, so a count that does not parse stays unparsable.
   */
  function StepPersons(current: Option<int>, delta: int): (r: Option<int>)
    ensures r.None? <==> current.None?
    ensures r.Some? ==> r.value >= 1 && r.value >= current.value + delta
    ensures r.Some? && current.value + delta >= 1 ==> r.value == current.value + delta
    ensures r.Some? && current.value + delta < 1 ==> r.value == 1
  {
    match current
    case None => None
    case Some(n) => Some(PartySize.SetPersonCount(n + delta))
  }

  /** The count after k decrement presses. */
  function DecrementPresses(current: Option<int>, k: nat): Option<int> {
    if k == 0 then current else StepPersons(DecrementPresses(current, k - 1), -1)
  }

  /** From a shown count of one or more, no number of decrements takes it below one; from one it stays one. */
  lemma {:induction false} DecrementPressesStayAtLeastOne(n: int, k: nat)
    requires n >= 1
    ensures DecrementPresses(Some(n), k).Some?
    ensures DecrementPresses(Some(n), k).value >= 1
    ensures n == 1 ==> DecrementPresses(Some(n), k) == Some(1)
    ensures DecrementPresses(Some(n), k) == Some(PartySize.Decrements(n, k))
  {
    if k > 0 {
      DecrementPressesStayAtLeastOne(n, k - 1);
      PartySize.DecrementsStayAtLeastOne(n, k - 1);
    }
  }
}
