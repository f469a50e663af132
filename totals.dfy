/**
 * Invoice arithmetic (app.py, create_pdf): line totals, the running subtotal,
 * the grand total with freight, and Python's int() used to display them.
 */
module Totals {
  import opened Wrappers
  import opened Items

  /** item_total = qv * pv. */
  function LineTotal(item: LineItem): real {
    item.qty as real * item.price
  }

  /** The subtotal as the row loop accumulates it: left to right, starting from 0. */
  function Subtotal(items: seq<LineItem>): real {
    if items == [] then 0.0
    else Subtotal(items[..|items| - 1]) + LineTotal(items[|items| - 1])
  }

  /** grand_total = subtotal + frt_val. */
  function GrandTotal(items: seq<LineItem>, freight: real): real {
    Subtotal(items) + freight
  }

  /** Python's int() of a float: truncation toward zero, the floor of a non-negative value and the ceiling of a negative one. */
  function Trunc(x: real): (r: int)
    ensures x >= 0.0 ==> r == x.Floor
    ensures x < 0.0 ==> r <= 0 && x <= r as real < x + 1.0
  {
    if x >= 0.0 then x.Floor else -((-x).Floor)
  }

  /** The sum of the displayed (truncated) line totals, which the source never uses for the summary. */
  function SumOfShownLineTotals(items: seq<LineItem>): int {
    if items == [] then 0
    else SumOfShownLineTotals(items[..|items| - 1]) + Trunc(LineTotal(items[|items| - 1]))
  }

  predicate AllValid(items: seq<LineItem>) {
    forall k :: 0 <= k < |items| ==> ValidItem(items[k])
  }

  /** A valid row has a line total that is not negative, and at least its unit price. */
  lemma LineTotalBounds(item: LineItem)
    requires ValidItem(item)
    ensures 0.0 <= item.price <= LineTotal(item)
  {
    var q := item.qty as real;
    assert q >= 1.0;
    assert q * item.price == item.price + (q - 1.0) * item.price;
  }

  /** The subtotal of valid rows is not negative. */
  lemma {:induction false} SubtotalNonNegative(items: seq<LineItem>)
    requires AllValid(items)
    ensures Subtotal(items) >= 0.0
  {
    if items != [] {
      var init := items[..|items| - 1];
      assert AllValid(init) by {
        forall k | 0 <= k < |init| ensures ValidItem(init[k]) { assert init[k] == items[k]; }
      }
      SubtotalNonNegative(init);
      LineTotalBounds(items[|items| - 1]);
    }
  }

  /** The subtotal is the sum of the line totals in any split of the rows: the order of accumulation does not matter. */
  lemma {:induction false} SubtotalAppend(a: seq<LineItem>, b: seq<LineItem>)
    ensures Subtotal(a + b) == Subtotal(a) + Subtotal(b)
  {
    if b == [] {
      assert a + b == a;
    } else {
      var b' := b[..|b| - 1];
      assert (a + b)[..|a + b| - 1] == a + b';
      SubtotalAppend(a, b');
    }
  }

  /** Adding the default row raises the subtotal by exactly 4 x 80. */
  lemma AddDefaultItemRaisesSubtotal(items: seq<LineItem>)
    ensures Subtotal(items + [DefaultItem()]) == Subtotal(items) + 320.0
  {
    assert (items + [DefaultItem()])[..|items|] == items;
  }

  /**
   * The displayed subtotal int(subtotal) is taken of the accumulated value, not
   * summed from the displayed line totals: it is never smaller than that sum and
   * exceeds it by less than the number of rows.
   */
  lemma {:induction false} ShownSubtotalVersusShownLines(items: seq<LineItem>)
    requires AllValid(items)
    ensures SumOfShownLineTotals(items) <= Trunc(Subtotal(items))
    ensures Trunc(Subtotal(items)) - SumOfShownLineTotals(items) <= if items == [] then 0 else |items| - 1
  {
    if items != [] {
      var init := items[..|items| - 1];
      var last := items[|items| - 1];
      assert AllValid(init) by {
        forall k | 0 <= k < |init| ensures ValidItem(init[k]) { assert init[k] == items[k]; }
      }
      ShownSubtotalVersusShownLines(init);
      SubtotalNonNegative(init);
      LineTotalBounds(last);
      var s := Subtotal(init);
      var x := LineTotal(last);
      assert Subtotal(items) == s + x;
      assert s.Floor + x.Floor <= (s + x).Floor <= s.Floor + x.Floor + 1;
      if init == [] {
        assert Subtotal(init) == 0.0;
        assert (s + x).Floor == x.Floor;
      }
    }
  }

  /** Two rows of one unit at 0.5 display a subtotal of 1 while their displayed line totals are both 0. */
  lemma TruncationAtDisplayOnly()
    ensures var items := [LineItem("Other", 1, 0.5, "", None, Auto), LineItem("Other", 1, 0.5, "", None, Auto)];
      Trunc(Subtotal(items)) == 1 && SumOfShownLineTotals(items) == 0
  {
    var items := [LineItem("Other", 1, 0.5, "", None, Auto), LineItem("Other", 1, 0.5, "", None, Auto)];
    assert items[..1][..0] == [];
    assert Subtotal(items[..1]) == 0.5;
    assert SumOfShownLineTotals(items[..1]) == 0;
  }

  /** One default row with freight 140: subtotal 320 and grand total 460. */
  lemma DefaultInvoiceTotals()
    ensures Subtotal([DefaultItem()]) == 320.0
    ensures GrandTotal([DefaultItem()], 140.0) == 460.0
    ensures Trunc(GrandTotal([DefaultItem()], 140.0)) == 460
  {
    assert [DefaultItem()][..0] == [];
  }

  /** Rows 2 x 50.5 and 1 x 99.99: the subtotal 200.99 is displayed as 200. */
  lemma FractionalSubtotalDisplay()
    ensures var items := [LineItem("YH8-520", 2, 50.5, "", None, Auto), LineItem("YH8-521", 1, 99.99, "", None, Auto)];
      Subtotal(items) == 200.99 && Trunc(Subtotal(items)) == 200
  {
    var items := [LineItem("YH8-520", 2, 50.5, "", None, Auto), LineItem("YH8-521", 1, 99.99, "", None, Auto)];
    assert items[..1][..0] == [];
    assert Subtotal(items[..1]) == 101.0;
  }
}
