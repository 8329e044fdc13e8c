# Triad point-of-sale page: the order cart and its neighbours

This project models the logic of a restaurant point-of-sale page. The page
exists in two versions, `Triad-New/app.js` and `Triad-New/script.js`. Each
version keeps an **order cart**: a JavaScript `Map` from item id to a line
`{name, price, img, qty}`. Each version has handlers that add a menu card,
raise or lower a line's quantity, or remove a line. From the cart, the page
derives a subtotal, tax, discount and total. Beside the cart sit a menu
filter, a hero-image slider, the best-seller badges (app.js only) and a
party-size stepper.

Modules:

- `OrderCart` (cart.dfy) holds the cart logic both files share. `CartState`
  is the cart as a value: the ids in insertion order, because a `Map`
  renders and sums in that order, and the map of lines. `SetLine` and
  `DeleteLine` are `Map.set` and `Map.delete`. Then come the four cart
  operations and the class `Cart`, the mutable `Map` itself.
- `Pricing` (pricing.dfy) has the subtotal Σ price·qty, the summing loop,
  and lemmas on how each operation moves the subtotal. Amounts are integer
  cents. The rates are exact rationals (`real`), so nothing is rounded.
- `Slider` (slider.dfy) is the slide index and its wrap-around.
  `PartySize` (party_size.dfy) is `Math.max(1, n)`.
- `App` (app.dfy) and `Script` (script.dfy) hold what each file does its
  own way. app.js ignores an add whose id, name or price is falsy. script.js
  rejects nothing: it falls back to "Item", to price 0 and to a
  clock-based id. script.js also seeds the cart from the rows already in
  the markup, and it uses separate category and search filters. app.js
  uses one test that combines the two.
- `Text` (text.dfy) has `trim`, `toLowerCase` and `includes`. `Wrappers`
  has `Option`.

The cart itself is the class `Cart`, whose methods `Set` and `Delete` are
`Map.set` and `Map.delete`. Each page handler that changes the cart is a
module-level method that takes a `Cart` (or, for the seeding loop, builds
one) and calls those two methods. The handler's `ensures` ties the new state
to a function of the old state (`AddFromCard`, `CartClick`, `AddCard`,
`SeedState`, ...). The properties are proved about those functions.

Facts about the code that the model keeps:

- The handlers keep quantities at one or more: a line whose quantity would
  drop to zero is deleted.
- A seeded quantity defaults to 1 (for 0 or NaN), and a missing name becomes "Item".
- In script.js, a negative quantity in the markup is kept as it is. When no
  seeded quantity is negative, every line stays positive whatever the user
  does (`Script.FromSeedQuantitiesPositive`).
- script.js's search ignores the selected category (`Script.SearchIgnoresCategory`).

## Model

| member | source | states |
|---|---|---|
| `OrderCart.AddOrBump` | Triad-New/app.js:176-181 | an id already in the cart gets exactly one more unit and keeps its stored name, price and image; a new id gets a line with qty 1; no other line changes; the cart always changes; well-formedness and positive quantities are preserved |
| `OrderCart.Increase` | Triad-New/app.js:211-212 | the line's qty rises by exactly 1; other lines untouched; an id not in the cart is a no-op |
| `OrderCart.Decrease` | Triad-New/app.js:213-215 | qty drops by 1, and the line is deleted when the new qty is ≤ 0 (old qty ≤ 1); other lines untouched; positive quantities stay positive |
| `OrderCart.Remove` | Triad-New/app.js:216-217 | the line is gone whatever its qty; other lines untouched; removing an absent id changes nothing |
| `OrderCart.Apply` | Triad-New/app.js:209-218 | dispatch on `data-action`: increase-item, decrease-item and remove-item have the effects above; any other action leaves the cart unchanged |
| `OrderCart.Cart.constructor` | Triad-New/app.js:111 | `new Map()` is the empty, well-formed cart |
| `OrderCart.Cart.Set` | Triad-New/app.js:180 | `cart.set` keeps an existing id in its place and appends a new id; the cart stays well formed |
| `OrderCart.Cart.Delete` | Triad-New/app.js:217 | `cart.delete` removes the id from the lines and from the order; the cart stays well formed |
| `Pricing.SumSubtotal` | Triad-New/app.js:118-119 | the `forEach` accumulation returns Σ price·qty over the cart's lines |
| `Pricing.Derive` | Triad-New/app.js:121-123 | tax = subtotal·taxRate, discount = subtotal·discountRate, total = subtotal + tax − discount; equal rates make total = subtotal |
| `Pricing.SubtotalIgnoresOrder` | Triad-New/app.js:119 | the subtotal depends only on the lines: two carts with the same lines in any insertion order have the same subtotal |
| `Pricing.SubtotalOfEmpty` | Triad-New/app.js:136-138 | the empty cart has subtotal 0 |
| `Pricing.SubtotalAfterSet` | Triad-New/app.js:180 | setting a line replaces that id's price·qty in the subtotal and leaves the rest of the sum alone |
| `Pricing.SubtotalAfterDelete` | Triad-New/app.js:217 | deleting a line subtracts exactly its price·qty |
| `Pricing.SubtotalAfterAdd` | Triad-New/app.js:176-183 | an add raises the subtotal by one unit price (the stored price for an id already in the cart) |
| `Pricing.SubtotalAfterIncrease` | Triad-New/app.js:211-212 | `+` raises the subtotal by the line's price |
| `Pricing.SubtotalAfterDecrease` | Triad-New/app.js:213-215 | on a cart of positive quantities, `−` lowers the subtotal by the line's price, also when it deletes the line |
| `Pricing.SubtotalAfterApply` | Triad-New/app.js:209-220 | a cart click moves the subtotal by +price, −price, −price·qty or 0 according to the action |
| `App.ApplyFilters` | Triad-New/app.js:71-87 | every card's display becomes (the active category is "all" or equals the card's; an undefined one equals none) and (trimmed lower-cased query empty or contained in the lower-cased name); the previous display plays no part, so applying twice equals applying once |
| `App.FilterCards` | Triad-New/app.js:75-86 | the visible cards are exactly the menu cards passing the test, and there are no more of them than cards |
| `App.FilterCardsAppend` | Triad-New/app.js:75-86 | filtering keeps menu order: the visible cards of a + b are those of a followed by those of b |
| `App.UndefinedCategoryHidesAll` | Triad-New/app.js:77-81 | a category button without `data-category` sets the category to `undefined`, which hides every card |
| `App.FilterIdempotent` | Triad-New/app.js:71-87 | filtering the visible cards again with the same category and query gives the same cards |
| `App.InitialViewIsHotCoffee` | Triad-New/app.js:69 | on load, with an empty search, a card is visible iff its category is "hot-coffee" |
| `App.QueryCaseInsensitive` | Triad-New/app.js:72-83 | lower-casing the typed query never changes which cards are visible |
| `App.AllAndBlankShowsEverything` | Triad-New/app.js:79-83 | under "all" with a blank query every card is visible |
| `App.EmptyQueryTestIsShortcut` | Triad-New/app.js:83 | the `q === ""` branch is redundant: visibility is the category test and `name.includes(q)` |
| `App.MarkBestSellers` | Triad-New/app.js:58-64 | a card gets the badge iff its numeric id is one of 1, 2, 3, 4, 8, 9, 13, 15, 17, 21, or it already had it |
| `App.AddFromCard` | Triad-New/app.js:168-184 | the cart is unchanged iff id or name is empty or price is 0 or NaN; otherwise an id already in the cart gets exactly qty + 1 and keeps its stored name, price and image, and a new id gets the card's name, price and image with qty 1; other lines untouched |
| `App.AddToCartFromCard` | Triad-New/app.js:168-184 | the in-place handler produces exactly `AddFromCard` of the old cart |
| `App.CartClick` | Triad-New/app.js:198-221 | no row, no button, or an id not in the cart: no-op; otherwise the button's action applied to that line only |
| `App.OnCartClick` | Triad-New/app.js:198-221 | the in-place handler produces exactly `CartClick` of the old cart |
| `App.CalcTotals` | Triad-New/app.js:117-123 | subtotal = Σ price·qty, tax = subtotal·0.10, discount = subtotal·0.10, total = subtotal + tax − discount = subtotal |
| `App.RunKeepsQuantitiesPositive` | Triad-New/app.js:168-221 | after any sequence of adds and cart clicks, the cart stays well formed and every qty is ≥ 1 |
| `App.FromEmptyQuantitiesPositive` | Triad-New/app.js:111 | starting from the empty cart, every line ever present has qty ≥ 1 |
| `App.TwoOfOneItem` | Triad-New/app.js:117-123 | adding a 450-cent item twice gives subtotal 900, tax 90, discount 90 |
| `App.StepPersons` | Triad-New/app.js:249-257 | a press shows current ± 1 when that is ≥ 1, and 1 otherwise; a count that is NaN stays NaN |
| `App.DecrementPressesStayAtLeastOne` | Triad-New/app.js:249-252 | from a count n ≥ 1, k decrements show `PartySize.Decrements(n, k)`, which is ≥ 1, and from 1 the count stays 1 |
| `PartySize.SetPersonCount` | Triad-New/app.js:243-247 | the count shown is the least value that is ≥ 1 and ≥ the request: the request itself, or 1 |
| `PartySize.DecrementsStayAtLeastOne` | Triad-New/script.js:183-186 | k decrements from n ≥ 1 give max(1, n − k) |
| `Slider.FirstActive` | Triad-New/app.js:40 | `findIndex`: −1 iff no slide is active, else the first active slide |
| `Slider.InitialIndex` | Triad-New/app.js:40-41 | the start index is the first active slide, or 0 when none is; it lies in [0, n) when there are slides |
| `Slider.Next` | Triad-New/app.js:50 | a tick stays in [0, n): idx + 1, or 0 after the last slide |
| `Slider.AdvanceIsModular` | Triad-New/app.js:49-52 | k ticks from idx land on (idx + k) mod n |
| `Slider.FullRound` | Triad-New/app.js:49-52 | n ticks bring the slider back to where it started |
| `Slider.HeroSlider.FromMarkup` | Triad-New/app.js:36-48 | app.js's slider starts at the initial index and is in range |
| `Slider.HeroSlider.AtStart` | Triad-New/script.js:5-6 | script.js's slider starts at 0 whatever the markup marks active |
| `Slider.HeroSlider.Tick` | Triad-New/script.js:13-18 | a tick (run only when there are slides) sets the index to (i + 1) mod n and keeps it in range |
| `Script.UncategorisedIsHotCoffee` | Triad-New/script.js:28 | a card without a category is shown exactly under "all" and "hot-coffee" |
| `Script.MissingCategoryHidesAll` | Triad-New/script.js:26-30 | a category button without `data-category` hides every card, since no card's category is blank after the "hot-coffee" default |
| `Script.FilterByCategory` | Triad-New/script.js:26-31 | each card is shown iff the category is "all" or equals the card's (defaulting to "hot-coffee") |
| `Script.BlankQueryMatchesAll` | Triad-New/script.js:54-59 | an empty or blank query matches every card |
| `Script.Search` | Triad-New/script.js:53-62 | each card is shown iff its lower-cased name or description includes the trimmed lower-cased query |
| `Script.SearchIgnoresCategory` | Triad-New/script.js:53-62 | a hot-coffee card hidden under "tea" is shown again by an empty search |
| `Script.SeedLine` | Triad-New/script.js:80-84 | a row's line has the trimmed `.order-name` text as name, or "Item" when that is blank; the parsed price, or 0 when it is NaN; the parsed qty, or 1 when it is 0 or NaN (so qty ≥ 1 iff the parsed qty is not negative); and the row's image |
| `Script.SeedState` | Triad-New/script.js:78-85 | each row is `cart.set` in turn, so the seeded cart is well formed |
| `Script.SeedKeys` | Triad-New/script.js:78-85 | the seeded cart holds exactly the `data-id`s of the rows, however often an id repeats |
| `Script.SeedLastRowWins` | Triad-New/script.js:84 | a later row with the same id overwrites the earlier one: each id has the line of its last row |
| `Script.SeedQuantitiesPositive` | Triad-New/script.js:83 | with no negative quantity in the markup, every seeded qty is ≥ 1 |
| `Script.SeedCart` | Triad-New/script.js:78-85 | the seeding loop builds exactly `SeedState` of the rows |
| `Script.CardName` | Triad-New/script.js:141 | the added name is `data-name` when present, else the trimmed heading when that is not blank, else "Item" |
| `Script.CardPrice` | Triad-New/script.js:142 | the price is `data-price` when that is a non-zero number, else the price text when that is, else 0 |
| `Script.AddCard` | Triad-New/script.js:136-149 | the cart changes iff a card encloses the button (no rejection); an id already in the cart gets exactly qty + 1 and keeps its stored name, price and image; a new id gets a line of `CardName`, `CardPrice`, the image and qty 1; other lines untouched |
| `Script.AddToCart` | Triad-New/script.js:136-149 | the in-place handler produces exactly `AddCard` of the old cart |
| `Script.CartClick` | Triad-New/script.js:154-172 | no action, no row, or an id not in the cart: no-op; otherwise the action applied to that line only |
| `Script.OnCartClick` | Triad-New/script.js:154-172 | the in-place handler produces exactly `CartClick` of the old cart |
| `Script.UpdateTotals` | Triad-New/script.js:120-126 | subtotal = Σ price·qty, tax = subtotal·0.10, discount = subtotal·0.10, total = subtotal + tax − discount = subtotal |
| `Script.RunKeepsQuantitiesPositive` | Triad-New/script.js:154-172 | after any sequence of adds and cart clicks, a cart with qty ≥ 1 everywhere keeps it |
| `Script.FromSeedQuantitiesPositive` | Triad-New/script.js:79-85 | from a cart seeded without negative quantities, every qty stays ≥ 1 whatever the user does |
| `Script.ReadPersonCount` | Triad-New/script.js:191 | a count that is NaN or 0 is read as 1, any other as itself |
| `Script.StepPersons` | Triad-New/script.js:189-201 | a press shows the read count ± 1 when that is ≥ 1, and 1 otherwise, whatever the label held |
| `Script.DecrementPressesStayAtLeastOne` | Triad-New/script.js:189-193 | from a shown count n ≥ 1, k decrement presses show max(1, n − k), the same as `PartySize.Decrements(n, k)` |

## Left out

- Rendering is left out: `renderCart`, `innerHTML` templates, the empty-cart text, class and aria toggling, the slides' `active` class, and the payment-button toggle. These only write the page.
- Event wiring is left out: listener registration, the menu-grid click delegation (app.js:187-195) that only finds the card, and the category buttons that assign `activeCategory`. The category and the query are parameters.
- The 5-second `setInterval` schedule is left out. Only the index update of one tick is modelled.
- Money formatting (`money`, `toFixed`) and floating-point prices are left out. Prices are integer cents, so a price with a fraction of a cent cannot be expressed. The rates are exact, so no rounding happens.
- String-to-number parsing (`Number`, `parseFloat`, `parseInt`, stripping "$") is left out. The parsed value is an input: `Option<int>`, where None stands for NaN. Non-integer person counts are not modelled.
- The `item-${Date.now()}` id depends on the clock. It is the parameter `fallbackId`.
- `toLowerCase` is modelled for ASCII letters only. `trim` strips the common whitespace characters, not every Unicode space.
- An absent attribute of a card or row is modelled as "". Most reads of one fall back with `|| ""` or another default, so an absent value and "" behave alike. app.js's `addToCartFromCard` reads `data-id` and `data-name` with no fallback (app.js:169-170); there undefined and "" behave alike only because both fail the `!id || !name` test (app.js:174), which rejects the add. app.js's active category has no such fallback: it is `Option<string>`, with None for `undefined`, which matches no card. In script.js an absent `data-category` of a button is null; it is modelled as "", which also matches no card (`Script.MissingCategoryHidesAll`). Left out: a seeded markup row with no `data-id` would be keyed by JavaScript `null`.
- Line objects are mutated in place (`existing.qty += 1`). The model replaces the line in the map instead. Nothing else holds a reference to a line, so the two behave the same.
- The line object's own `id` field repeats the map key, so it is not kept.
