/** The folds over the cart: the money total, the item count, and the badge
    label the navigation link shows. Prices are whole cents; the two-decimal
    display formatting is not modelled. */
module Totals {
  import opened CartLines

  /** `lines.reduce((acc, item) => acc + term(item), acc)`: a left-to-right fold. */
  function Reduce(acc: int, lines: seq<Line>, term: Line -> int): int
    decreases lines
  {
    if lines == [] then acc else Reduce(acc + term(lines[0]), lines[1..], term)
  }

  /** Reference definition: the sum of `term` over the lines, by structural recursion. */
  function Sum(lines: seq<Line>, term: Line -> int): int {
    if lines == [] then 0 else term(lines[0]) + Sum(lines[1..], term)
  }

  /** What one line contributes to the total: `item.price * item.quantity`. */
  function Subtotal(l: Line): int {
    l.price * l.quantity
  }

  /** What one line contributes to the badge count: `item.quantity`. */
  function Quantity(l: Line): int {
    l.quantity
  }

  /** The cart total, as both frontends fold it (before formatting). */
  function Total(lines: seq<Line>): (total: int)
    ensures total == Sum(lines, Subtotal)
  {
    ReduceIsSum(0, lines, Subtotal);
    Reduce(0, lines, Subtotal)
  }

  /** The number of items, as the single-page app folds it for the badge. */
  function Count(lines: seq<Line>): (count: int)
    ensures count == Sum(lines, Quantity)
  {
    ReduceIsSum(0, lines, Quantity);
    Reduce(0, lines, Quantity)
  }

  /** The fold started from `acc` is `acc` plus the sum over the lines. */
  lemma {:induction false} ReduceIsSum(acc: int, lines: seq<Line>, term: Line -> int)
    ensures Reduce(acc, lines, term) == acc + Sum(lines, term)
    decreases lines
  {
    if lines != [] {
      ReduceIsSum(acc + term(lines[0]), lines[1..], term);
    }
  }

  /** Sums split over concatenation. */
  lemma {:induction false} SumAppend(a: seq<Line>, b: seq<Line>, term: Line -> int)
    ensures Sum(a + b, term) == Sum(a, term) + Sum(b, term)
  {
    if a == [] {
      assert a + b == b;
    } else {
      assert (a + b)[1..] == a[1..] + b;
      SumAppend(a[1..], b, term);
    }
  }

  /** Replacing line `k` changes the sum by the difference of the two lines' terms. */
  lemma SumUpdate(lines: seq<Line>, k: nat, l: Line, term: Line -> int)
    requires k < |lines|
    ensures Sum(lines[k := l], term) == Sum(lines, term) - term(lines[k]) + term(l)
  {
    var before, after := lines[..k], lines[k + 1..];
    assert lines == before + [lines[k]] + after;
    assert lines[k := l] == before + [l] + after;
    SumAppend(before + [lines[k]], after, term);
    SumAppend(before, [lines[k]], term);
    SumAppend(before + [l], after, term);
    SumAppend(before, [l], term);
  }

  /** Removing line `k` lowers the sum by exactly that line's term. */
  lemma SumRemove(lines: seq<Line>, k: nat, term: Line -> int)
    requires k < |lines|
    ensures Sum(lines[..k] + lines[k + 1..], term) == Sum(lines, term) - term(lines[k])
  {
    var before, after := lines[..k], lines[k + 1..];
    assert lines == (before + [lines[k]]) + after;
    SumAppend(before + [lines[k]], after, term);
    SumAppend(before, [lines[k]], term);
    SumAppend(before, after, term);
    assert Sum([lines[k]], term) == term(lines[k]) by {
      assert [lines[k]][1..] == [];
    }
  }

  /** With every quantity at least 1, the count is at least the number of lines,
      so it is 0 exactly for the empty cart. */
  lemma {:induction false} CountAtLeastLength(lines: seq<Line>)
    ensures PositiveQuantities(lines) ==> Count(lines) >= |lines|
    ensures PositiveQuantities(lines) ==> (Count(lines) == 0 <==> lines == [])
  {
    if lines != [] && PositiveQuantities(lines) {
      CountAtLeastLength(lines[1..]);
    }
  }

  /** Adding a line raises the count by exactly the added quantity. */
  lemma MergeCount(lines: seq<Line>, line: Line)
    ensures Count(Merge(lines, line)) == Count(lines) + line.quantity
  {
    match FirstIndex(lines, line.id)
    case Some(k) =>
      SumUpdate(lines, k, lines[k].(quantity := lines[k].quantity + line.quantity), Quantity);
    case None =>
      SumAppend(lines, [line], Quantity);
  }

  /** Adding raises the total by the added quantity at the price of the line it lands
      on: the existing line's snapshot price, or the new line's own price. */
  lemma MergeTotal(lines: seq<Line>, line: Line)
    ensures var price := match FirstIndex(lines, line.id)
                         case Some(k) => lines[k].price
                         case None => line.price;
      Total(Merge(lines, line)) == Total(lines) + price * line.quantity
  {
    match FirstIndex(lines, line.id)
    case Some(k) =>
      var l := lines[k].(quantity := lines[k].quantity + line.quantity);
      SumUpdate(lines, k, l, Subtotal);
      assert Subtotal(l) == Subtotal(lines[k]) + lines[k].price * line.quantity;
    case None =>
      SumAppend(lines, [line], Subtotal);
  }

  /** With one line per id, stepping the quantity of line `k` moves the count by the
      step, or, when the line is removed, lowers it by exactly its prior quantity. */
  lemma ChangeQuantityCount(lines: seq<Line>, id: string, change: int, k: nat)
    requires UniqueIds(lines) && k < |lines| && lines[k].id == id
    ensures var q := lines[k].quantity;
      Count(ChangeQuantity(lines, id, change)) == Count(lines) + (if q + change < 1 then -q else change)
  {
    var r := ChangeQuantity(lines, id, change);
    ChangeQuantityAt(lines, id, change, k);
    if lines[k].quantity + change < 1 {
      SumRemove(lines, k, Quantity);
    } else {
      SumUpdate(lines, k, lines[k].(quantity := lines[k].quantity + change), Quantity);
    }
  }

  /** With one line per id, filtering an id out lowers the total by exactly that
      line's price times quantity. */
  lemma WithoutTotal(lines: seq<Line>, id: string, k: nat)
    requires UniqueIds(lines) && k < |lines| && lines[k].id == id
    ensures Total(Without(lines, id)) == Total(lines) - lines[k].price * lines[k].quantity
  {
    WithoutAt(lines, id, k);
    SumRemove(lines, k, Subtotal);
  }

  /** Whatever the ids, filtering an id out lowers a sum by exactly the terms of the
      lines that carry it, however many there are. */
  lemma {:induction false} WithoutSum(lines: seq<Line>, id: string, term: Line -> int)
    ensures Sum(Without(lines, id), term)
              == Sum(lines, term) - Sum(lines, (l: Line) => if l.id == id then term(l) else 0)
  {
    if lines != [] {
      WithoutSum(lines[1..], id, term);
      var head := if lines[0].id == id then [] else [lines[0]];
      SumAppend(head, Without(lines[1..], id), term);
      assert [lines[0]][1..] == [];
    }
  }

  // ---------------------------------------------------------------------------
  // The navigation badge

  /** One decimal digit. */
  function DigitChar(d: nat): char
    requires d < 10
  {
    "0123456789"[d]
  }

  /** The value of a decimal digit character. */
  function DigitValue(c: char): int {
    c as int - '0' as int
  }

  /** A natural number in decimal, as a template literal renders it: no leading zero. */
  function Decimal(n: nat): (s: string)
    ensures |s| >= 1
    ensures forall i :: 0 <= i < |s| ==> '0' <= s[i] <= '9'
    ensures s[0] == '0' <==> n == 0
  {
    if n < 10 then [DigitChar(n)] else Decimal(n / 10) + [DigitChar(n % 10)]
  }

  /** The number a string of decimal digits denotes. */
  function DecimalValue(s: string): int {
    if s == [] then 0 else DecimalValue(s[..|s| - 1]) * 10 + DigitValue(s[|s| - 1])
  }

  /** Reading back a rendered number gives the number. */
  lemma {:induction false} DecimalRoundTrip(n: nat)
    ensures DecimalValue(Decimal(n)) == n
  {
    var s := Decimal(n);
    if n < 10 {
      assert s[..|s| - 1] == [];
    } else {
      assert s[..|s| - 1] == Decimal(n / 10);
      DecimalRoundTrip(n / 10);
    }
  }

  /** The navigation link's text for a badge count: `Cart (n)` when the count is
      positive, plain `Cart` otherwise. */
  function BadgeLabel(count: int): (text: string)
    ensures text == "Cart" <==> count <= 0
    ensures count > 0 ==>
              && |text| > 7 && text[..6] == "Cart (" && text[|text| - 1] == ')'
              && DecimalValue(text[6..|text| - 1]) == count
    ensures count > 0 ==> text == "Cart (" + Decimal(count) + ")"
  {
    if count > 0 then
      var digits := Decimal(count);
      var text := "Cart (" + digits + ")";
      DecimalRoundTrip(count);
      assert text[6..|text| - 1] == digits;
      text
    else
      "Cart"
  }

  /** For a cart whose quantities are all at least 1, the label is plain `Cart`
      exactly when the cart is empty. */
  lemma EmptyCartBadge(lines: seq<Line>)
    requires PositiveQuantities(lines)
    ensures BadgeLabel(Count(lines)) == "Cart" <==> lines == []
  {
    CountAtLeastLength(lines);
  }

  /** The cart of the worked example: 2 of p1 at 9.99 and 1 of p2 at 5.00 total 24.98
      in 3 items; setting p1 to 1 makes 14.99, and removing p2 then leaves 9.99. */
  lemma WorkedExample(p1: Product, p2: Product)
    requires p1.id == "p1" && p1.price == 999 && p2.id == "p2" && p2.price == 500
    ensures var c1 := Merge([], Snapshot(p1, 2));
      && Total(c1) == 1998
      && var c2 := Merge(c1, Snapshot(p2, 1));
      && Total(c2) == 2498 && Count(c2) == 3
      && var c3 := WithQuantity(c2, "p1", 1);
      && Total(c3) == 1499
      && Total(Without(c3, "p2")) == 999
  {
    var c1 := Merge([], Snapshot(p1, 2));
    assert c1 == [Snapshot(p1, 2)];
    assert p1.id != p2.id by { assert p1.id[1] != p2.id[1]; }
    MergeAbsent(c1, Snapshot(p2, 1));
    var c2 := c1 + [Snapshot(p2, 1)];
    var c3 := WithQuantity(c2, "p1", 1);
    assert c3 == [Snapshot(p1, 1), Snapshot(p2, 1)];
    var c4 := Without(c3, "p2");
    assert c4 == [Snapshot(p1, 1)] by {
      assert c3[1..] == [Snapshot(p2, 1)];
      assert Without(c3[1..], "p2") == [] by {
        assert c3[1..][1..] == [];
      }
    }
    assert c2[1..] == [Snapshot(p2, 1)] && c2[1..][1..] == [];
    assert c1[1..] == [] && c4[1..] == [];
    assert Total(c1) == Sum(c1, Subtotal) == 1998;
    assert Total(c2) == Sum(c2, Subtotal) == 2498;
    assert Sum(c2[1..], Quantity) == 1;
    assert Count(c2) == Sum(c2, Quantity) == 3;
    assert Total(c3) == Sum(c3, Subtotal) == 1499;
    assert Total(c4) == Sum(c4, Subtotal) == 999;
  }
}
