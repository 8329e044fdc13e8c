/**
 * The totals shown under the cart: the subtotal is the sum of price times
 * quantity over the lines, tax and discount are the subtotal times a fixed
 * rate, and the total is subtotal plus tax minus discount. Amounts are in
 * cents; the rates are exact rationals.
 */
module Pricing {
  import opened OrderCart

  /** The four figures the page displays. */
  datatype Totals = Totals(subtotal: int, tax: real, discount: real, total: real)

  function LineTotal(line: Line): int {
    line.price * line.qty
  }

  /** The sum of the line totals of `ids`, taken in that order. */
  function SumLines(ids: seq<string>, lines: map<string, Line>): int
    requires forall id :: id in ids ==> id in lines
  {
    if ids == [] then 0 else LineTotal(lines[ids[0]]) + SumLines(ids[1..], lines)
  }

  /** Σ price·qty over the lines of a cart. */
  function Subtotal(c: CartState): int
    requires WellFormed(c)
  {
    SumLines(c.order, c.lines)
  }

  lemma {:induction false} SumAppend(a: seq<string>, b: seq<string>, lines: map<string, Line>)
    requires forall id :: id in a + b ==> id in lines
    ensures SumLines(a + b, lines) == SumLines(a, lines) + SumLines(b, lines)
  {
    if a == [] {
      assert a + b == b;
    } else {
      assert (a + b)[1..] == a[1..] + b;
      SumAppend(a[1..], b, lines);
    }
  }

  /** The sum only looks at the lines of the ids it runs over. */
  lemma {:induction false} SumFrame(ids: seq<string>, m1: map<string, Line>, m2: map<string, Line>)
    requires forall id :: id in ids ==> id in m1 && id in m2 && m1[id] == m2[id]
    ensures SumLines(ids, m1) == SumLines(ids, m2)
  {
    if ids != [] {
      SumFrame(ids[1..], m1, m2);
    }
  }

  /** Replacing the line of an id listed once changes the sum by the difference of the two line totals. */
  lemma {:induction false} SumUpdate(ids: seq<string>, lines: map<string, Line>, id: string, line: Line)
    requires forall x :: x in ids ==> x in lines
    requires Distinct(ids) && id in ids
    ensures SumLines(ids, lines[id := line]) == SumLines(ids, lines) - LineTotal(lines[id]) + LineTotal(line)
  {
    if ids[0] == id {
      assert id !in ids[1..];
      SumFrame(ids[1..], lines[id := line], lines);
    } else {
      SumUpdate(ids[1..], lines, id, line);
    }
  }

  /** Deleting an id listed once takes its line total off the sum. */
  lemma {:induction false} SumWithout(ids: seq<string>, lines: map<string, Line>, id: string)
    requires forall x :: x in ids ==> x in lines
    requires Distinct(ids) && id in ids
    ensures SumLines(Without(ids, id), lines - {id}) == SumLines(ids, lines) - LineTotal(lines[id])
  {
    if ids[0] == id {
      assert id !in ids[1..];
      SumFrame(ids[1..], lines - {id}, lines);
    } else {
      SumWithout(ids[1..], lines, id);
    }
  }

  /** Any two duplicate-free listings of the same ids give the same sum. */
  lemma {:induction false} SumPermutation(s: seq<string>, t: seq<string>, lines: map<string, Line>)
    requires Distinct(s) && Distinct(t)
    requires forall x :: x in s <==> x in t
    requires forall x :: x in s ==> x in lines
    ensures SumLines(s, lines) == SumLines(t, lines)
  {
    if s == [] {
      assert forall x :: x !in t;
    } else {
      var x := s[0];
      assert x !in s[1..];
      assert Without(s, x) == s[1..];
      SumWithout(t, lines, x);
      SumFrame(Without(t, x), lines - {x}, lines);
      SumPermutation(s[1..], Without(t, x), lines);
    }
  }

  /**
   * The subtotal is a function of the lines alone: the insertion order the
   * cart is summed in does not matter.
   */
  lemma SubtotalIgnoresOrder(c: CartState, d: CartState)
    requires WellFormed(c) && WellFormed(d) && c.lines == d.lines
    ensures Subtotal(c) == Subtotal(d)
  {
    SumPermutation(c.order, d.order, c.lines);
  }

  lemma SubtotalOfEmpty()
    ensures WellFormed(Empty) && Subtotal(Empty) == 0
  {
  }

  /** One more (or one fewer) unit moves a line total by one unit price. */
  lemma LineTotalStep(line: Line, d: int)
    requires d == 1 || d == -1
    ensures LineTotal(line.(qty := line.qty + d)) == LineTotal(line) + d * line.price
  {
    assert line.price * (line.qty + d) == line.price * line.qty + d * line.price;
  }

  /** Setting the line of an id replaces that id's line total in the subtotal. */
  lemma SubtotalAfterSet(c: CartState, id: string, line: Line)
    requires WellFormed(c)
    ensures Subtotal(SetLine(c, id, line))
      == Subtotal(c) - (if id in c.lines then LineTotal(c.lines[id]) else 0) + LineTotal(line)
  {
    var r := SetLine(c, id, line);
    if id in c.lines {
      SumUpdate(c.order, c.lines, id, line);
    } else {
      SumAppend(c.order, [id], r.lines);
      SumFrame(c.order, r.lines, c.lines);
    }
  }

  /** Deleting the line of an id takes that id's line total off the subtotal. */
  lemma SubtotalAfterDelete(c: CartState, id: string)
    requires WellFormed(c)
    ensures Subtotal(DeleteLine(c, id)) == Subtotal(c) - (if id in c.lines then LineTotal(c.lines[id]) else 0)
  {
    if id in c.lines {
      SumWithout(c.order, c.lines, id);
    }
  }

  /** Adding an item raises the subtotal by one unit price: the stored one for an id already in the cart. */
  lemma SubtotalAfterAdd(c: CartState, id: string, name: string, price: int, img: string)
    requires WellFormed(c)
    ensures Subtotal(AddOrBump(c, id, name, price, img))
      == Subtotal(c) + (if id in c.lines then c.lines[id].price else price)
  {
    if id in c.lines {
      var line := c.lines[id];
      SubtotalAfterSet(c, id, line.(qty := line.qty + 1));
      LineTotalStep(line, 1);
    } else {
      SubtotalAfterSet(c, id, Line(name, price, img, 1));
    }
  }

  /** How one cart-button click moves the subtotal, on a cart whose quantities are all positive. */
  function ActionDelta(c: CartState, id: string, action: CartAction): int
    requires id in c.lines
  {
    match action
    case IncreaseItem => c.lines[id].price
    case DecreaseItem => -c.lines[id].price
    case RemoveItem => -LineTotal(c.lines[id])
    case OtherAction => 0
  }

  lemma SubtotalAfterIncrease(c: CartState, id: string)
    requires WellFormed(c) && id in c.lines
    ensures Subtotal(Increase(c, id)) == Subtotal(c) + c.lines[id].price
  {
    var line := c.lines[id];
    SubtotalAfterSet(c, id, line.(qty := line.qty + 1));
    LineTotalStep(line, 1);
  }

  lemma SubtotalAfterDecrease(c: CartState, id: string)
    requires WellFormed(c) && AllPositive(c) && id in c.lines
    ensures Subtotal(Decrease(c, id)) == Subtotal(c) - c.lines[id].price
  {
    var line := c.lines[id];
    if line.qty - 1 <= 0 {
      assert Decrease(c, id) == DeleteLine(c, id);
      SubtotalAfterDelete(c, id);
      assert line.qty == 1;
      assert LineTotal(line) == line.price;
    } else {
      assert Decrease(c, id) == SetLine(c, id, line.(qty := line.qty - 1));
      SubtotalAfterSet(c, id, line.(qty := line.qty - 1));
      LineTotalStep(line, -1);
    }
  }

  /**
   * `+` adds one unit price, `−` takes one off (also when it deletes a line
   * of quantity one), Remove takes off the whole line, anything else nothing.
   */
  lemma SubtotalAfterApply(c: CartState, id: string, action: CartAction)
    requires WellFormed(c) && AllPositive(c) && id in c.lines
    ensures Subtotal(Apply(c, id, action)) == Subtotal(c) + ActionDelta(c, id, action)
  {
    match action
    case IncreaseItem => SubtotalAfterIncrease(c, id);
    case DecreaseItem => SubtotalAfterDecrease(c, id);
    case RemoveItem => SubtotalAfterDelete(c, id);
    case OtherAction =>
  }

  /** The `cart.forEach(item => subtotal += item.price * item.qty)` loop. */
  method SumSubtotal(cart: Cart) returns (subtotal: int)
    requires cart.Valid()
    ensures subtotal == Subtotal(cart.State())
  {
    subtotal := 0;
    for i := 0 to |cart.order|
      invariant subtotal == SumLines(cart.order[..i], cart.lines)
    {
      var item := cart.lines[cart.order[i]];
      assert cart.order[..i + 1] == cart.order[..i] + [cart.order[i]];
      SumAppend(cart.order[..i], [cart.order[i]], cart.lines);
      subtotal := subtotal + item.price * item.qty;
    }
    assert cart.order[..|cart.order|] == cart.order;
  }

  /** The three derived figures, from a subtotal and the two rates. */
  method Derive(subtotal: int, taxRate: real, discountRate: real) returns (t: Totals)
    ensures t.subtotal == subtotal
    ensures t.tax == subtotal as real * taxRate
    ensures t.discount == subtotal as real * discountRate
    ensures t.total == t.subtotal as real + t.tax - t.discount
    ensures taxRate == discountRate ==> t.total == subtotal as real
  {
    var tax := subtotal as real * taxRate;
    var discount := subtotal as real * discountRate;
    t := Totals(subtotal, tax, discount, subtotal as real + tax - discount);
  }
}
