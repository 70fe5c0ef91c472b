/** The shopping cart as an ordered list of lines, and the pure list operations
    that both frontends apply to it: find the first line of an id, merge an added
    product, move one line's quantity, filter an id out, and set a quantity. */
module CartLines {

  datatype Option<T> = None | Some(value: T)

  /** A catalog product as the product API returns it; prices are whole cents. */
  datatype Product = Product(
    id: string, name: string, price: int, description: string,
    image: string, category: string, inStock: bool)

  /** The catalog fields a line carries only when the whole product was copied into it. */
  datatype Details = Details(description: string, category: string, inStock: bool)

  /** One cart entry: a snapshot of the product taken when it was added, and a quantity. */
  datatype Line = Line(
    id: string, name: string, price: int, image: string,
    quantity: int, details: Option<Details>)

  /** The line the single-page app creates: id, name, price and image, and the quantity. */
  function Snapshot(p: Product, quantity: int): Line {
    Line(p.id, p.name, p.price, p.image, quantity, None)
  }

  /** The line the React detail page creates: every product field, and the quantity. */
  function FullCopy(p: Product, quantity: int): (line: Line)
    ensures line.(details := None) == Snapshot(p, quantity)
    ensures line.details == Some(Details(p.description, p.category, p.inStock))
  {
    Line(p.id, p.name, p.price, p.image, quantity, Some(Details(p.description, p.category, p.inStock)))
  }

  /** At most one line per product id. */
  ghost predicate UniqueIds(lines: seq<Line>) {
    forall i, j :: 0 <= i < j < |lines| ==> lines[i].id != lines[j].id
  }

  /** Every quantity is at least 1. */
  ghost predicate PositiveQuantities(lines: seq<Line>) {
    forall i :: 0 <= i < |lines| ==> lines[i].quantity >= 1
  }

  /** The cart invariant: at most one line per id, every quantity at least 1. */
  ghost predicate WellFormed(lines: seq<Line>) {
    UniqueIds(lines) && PositiveQuantities(lines)
  }

  /** No line carries `id`. */
  ghost predicate Absent(lines: seq<Line>, id: string) {
    forall j :: 0 <= j < |lines| ==> lines[j].id != id
  }

  /** The index `cart.find(item => item._id === id)` lands on: the first line with `id`. */
  function FirstIndex(lines: seq<Line>, id: string): (r: Option<nat>)
    ensures r.Some? ==> r.value < |lines| && lines[r.value].id == id
    ensures r.Some? ==> forall j :: 0 <= j < r.value ==> lines[j].id != id
    ensures r.None? <==> Absent(lines, id)
  {
    if lines == [] then None
    else if lines[0].id == id then Some(0)
    else match FirstIndex(lines[1..], id)
      case None => None
      case Some(k) => Some(k + 1)
  }

  /** `cart.find` as the loop it performs. */
  method Find(lines: seq<Line>, id: string) returns (r: Option<nat>)
    ensures r == FirstIndex(lines, id)
  {
    var i := 0;
    while i < |lines|
      invariant 0 <= i <= |lines|
      invariant forall j :: 0 <= j < i ==> lines[j].id != id
    {
      if lines[i].id == id {
        return Some(i);
      }
      i := i + 1;
    }
    return None;
  }

  /** `lines` with line `k`'s quantity moved by `delta` (the in-place `quantity +=`). */
  function Bumped(lines: seq<Line>, k: nat, delta: int): seq<Line>
    requires k < |lines|
  {
    lines[k := lines[k].(quantity := lines[k].quantity + delta)]
  }

  /** Adding `line`: the first line with its id grows by `line.quantity`; otherwise
      `line` is appended at the end. */
  function Merge(lines: seq<Line>, line: Line): (r: seq<Line>)
    ensures |lines| <= |r| <= |lines| + 1
    ensures !Absent(r, line.id)
  {
    match FirstIndex(lines, line.id)
    case Some(k) =>
      assert Bumped(lines, k, line.quantity)[k].id == line.id;
      Bumped(lines, k, line.quantity)
    case None =>
      assert (lines + [line])[|lines|] == line;
      lines + [line]
  }

  /** `lines.filter(item => item._id !== id)`. */
  function Without(lines: seq<Line>, id: string): (r: seq<Line>)
    ensures |r| <= |lines|
    ensures forall l :: l in r <==> l in lines && l.id != id
  {
    if lines == [] then []
    else
      assert lines == [lines[0]] + lines[1..];
      (if lines[0].id == id then [] else [lines[0]]) + Without(lines[1..], id)
  }

  /** The single-page app's quantity step: the first line with `id` moves by `change`,
      and when that leaves it below 1 every line with `id` is filtered out. */
  function ChangeQuantity(lines: seq<Line>, id: string, change: int): (r: seq<Line>)
    ensures |r| <= |lines|
    ensures forall i :: 0 <= i < |r| && r[i].id != id ==> r[i] in lines
  {
    match FirstIndex(lines, id)
    case None => lines
    case Some(k) =>
      if lines[k].quantity + change < 1 then Without(lines, id) else Bumped(lines, k, change)
  }

  /** `lines.map(item => item._id === id ? { ...item, quantity } : item)`. */
  function WithQuantity(lines: seq<Line>, id: string, quantity: int): (r: seq<Line>)
    ensures |r| == |lines|
    ensures forall i :: 0 <= i < |lines| ==>
              r[i] == if lines[i].id == id then lines[i].(quantity := quantity) else lines[i]
  {
    if lines == [] then []
    else
      [if lines[0].id == id then lines[0].(quantity := quantity) else lines[0]]
      + WithQuantity(lines[1..], id, quantity)
  }

  // ---------------------------------------------------------------------------
  // Merge

  /** Adding an id whose first line is `k`: that line's quantity grows by exactly the
      added amount, and the length, the order and every other line stay as they were. */
  lemma MergePresent(lines: seq<Line>, line: Line, k: nat)
    requires k < |lines| && lines[k].id == line.id
    requires forall j :: 0 <= j < k ==> lines[j].id != line.id
    ensures var r := Merge(lines, line);
      && |r| == |lines|
      && r[k] == lines[k].(quantity := lines[k].quantity + line.quantity)
      && forall j :: 0 <= j < |lines| && j != k ==> r[j] == lines[j]
  {
    var f := FirstIndex(lines, line.id);
    assert f == Some(k);
  }

  /** Adding an id no line carries appends exactly that line and leaves the others alone. */
  lemma MergeAbsent(lines: seq<Line>, line: Line)
    requires Absent(lines, line.id)
    ensures Merge(lines, line) == lines + [line]
  {
  }

  /** Adding grows the cart by at most one line and never touches a line of another id. */
  lemma MergeFrame(lines: seq<Line>, line: Line)
    ensures var r := Merge(lines, line);
      && |lines| <= |r| <= |lines| + 1
      && (forall j :: 0 <= j < |lines| ==> r[j].id == lines[j].id)
      && (forall j :: 0 <= j < |lines| && lines[j].id != line.id ==> r[j] == lines[j])
      && (|r| == |lines| + 1 ==> r[|lines|] == line)
  {
  }

  /** Adding a line of quantity at least 1 keeps the cart well formed. */
  lemma MergeKeepsWellFormed(lines: seq<Line>, line: Line)
    requires WellFormed(lines) && line.quantity >= 1
    ensures WellFormed(Merge(lines, line))
  {
    var r := Merge(lines, line);
    MergeFrame(lines, line);
    if FirstIndex(lines, line.id).None? {
      assert r == lines + [line];
      forall i, j | 0 <= i < j < |r| ensures r[i].id != r[j].id {
        if j == |lines| {
          assert r[i] == lines[i];
        }
      }
    }
  }

  /** Adding the same product twice with quantities `q1` and `q2` leaves exactly one
      line for it, holding `q1 + q2`. */
  lemma MergeTwice(lines: seq<Line>, p: Product, q1: int, q2: int)
    requires Absent(lines, p.id)
    ensures Merge(Merge(lines, Snapshot(p, q1)), Snapshot(p, q2)) == lines + [Snapshot(p, q1 + q2)]
  {
    var once := lines + [Snapshot(p, q1)];
    MergeAbsent(lines, Snapshot(p, q1));
    MergePresent(once, Snapshot(p, q2), |lines|);
  }

  // ---------------------------------------------------------------------------
  // Without

  /** Filtering distributes over concatenation, so it keeps the surviving lines in order. */
  lemma {:induction false} WithoutAppend(a: seq<Line>, b: seq<Line>, id: string)
    ensures Without(a + b, id) == Without(a, id) + Without(b, id)
  {
    if a == [] {
      assert a + b == b;
    } else {
      assert (a + b)[1..] == a[1..] + b;
      WithoutAppend(a[1..], b, id);
    }
  }

  /** Filtering out an id that no line carries leaves the cart identical. */
  lemma {:induction false} WithoutAbsent(lines: seq<Line>, id: string)
    requires Absent(lines, id)
    ensures Without(lines, id) == lines
  {
    if lines != [] {
      WithoutAbsent(lines[1..], id);
    }
  }

  /** With one line per id, filtering removes exactly the line at `k`. */
  lemma WithoutAt(lines: seq<Line>, id: string, k: nat)
    requires UniqueIds(lines) && k < |lines| && lines[k].id == id
    ensures Without(lines, id) == lines[..k] + lines[k + 1..]
  {
    var before, after := lines[..k], lines[k + 1..];
    assert Absent(before, id) by {
      forall j | 0 <= j < |before| ensures before[j].id != id {
        assert before[j] == lines[j];
      }
    }
    assert Absent(after, id) by {
      forall j | 0 <= j < |after| ensures after[j].id != id {
        assert after[j] == lines[k + 1 + j];
      }
    }
    assert lines == before + ([lines[k]] + after);
    calc {
      Without(lines, id);
      { WithoutAppend(before, [lines[k]] + after, id); }
      Without(before, id) + Without([lines[k]] + after, id);
      { WithoutAbsent(before, id); WithoutHead(lines[k], after, id); }
      before + Without(after, id);
      { WithoutAbsent(after, id); }
      before + after;
    }
  }

  /** Filtering `id` out of a list that starts with a line of `id` drops that line. */
  lemma WithoutHead(head: Line, tail: seq<Line>, id: string)
    requires head.id == id
    ensures Without([head] + tail, id) == Without(tail, id)
  {
    assert ([head] + tail)[1..] == tail;
  }

  /** A line placed in front of lines of other ids keeps the ids unique. */
  lemma ConsUnique(head: Line, tail: seq<Line>)
    requires UniqueIds(tail)
    requires forall l :: l in tail ==> l.id != head.id
    ensures UniqueIds([head] + tail)
  {
    var s := [head] + tail;
    forall i, j | 0 <= i < j < |s| ensures s[i].id != s[j].id {
      assert s[j] == tail[j - 1];
      if i > 0 {
        assert s[i] == tail[i - 1];
      }
    }
  }

  /** Filtering keeps the cart well formed. */
  lemma {:induction false} WithoutKeepsWellFormed(lines: seq<Line>, id: string)
    requires WellFormed(lines)
    ensures WellFormed(Without(lines, id))
  {
    var r := Without(lines, id);
    forall i | 0 <= i < |r| ensures r[i].quantity >= 1 {
      assert r[i] in lines;
    }
    if lines != [] {
      var tail := lines[1..];
      assert WellFormed(tail) by {
        forall i, j | 0 <= i < j < |tail| ensures tail[i].id != tail[j].id {
          assert tail[i] == lines[i + 1] && tail[j] == lines[j + 1];
        }
      }
      WithoutKeepsWellFormed(tail, id);
      if lines[0].id != id {
        forall l | l in Without(tail, id) ensures l.id != lines[0].id {
          var j :| 0 <= j < |tail| && tail[j] == l;
          assert tail[j] == lines[j + 1];
        }
        ConsUnique(lines[0], Without(tail, id));
      }
    }
  }

  // ---------------------------------------------------------------------------
  // ChangeQuantity

  /** Stepping the quantity of an id that no line carries changes nothing. */
  lemma ChangeQuantityAbsent(lines: seq<Line>, id: string, change: int)
    requires Absent(lines, id)
    ensures ChangeQuantity(lines, id, change) == lines
  {
  }

  /** Whatever the ids, stepping an id whose first line is `k` moves that line alone by
      `change`, or, when that would leave it below 1, filters out every line of the id. */
  lemma ChangeQuantityFirst(lines: seq<Line>, id: string, change: int, k: nat)
    requires k < |lines| && lines[k].id == id
    requires forall j :: 0 <= j < k ==> lines[j].id != id
    ensures ChangeQuantity(lines, id, change)
              == if lines[k].quantity + change < 1 then Without(lines, id)
                 else lines[k := lines[k].(quantity := lines[k].quantity + change)]
  {
    var f := FirstIndex(lines, id);
    assert f == Some(k);
  }

  /** With one line per id, stepping line `k` either moves only its quantity, by
      `change`, or, when that would leave it below 1, removes exactly that line. */
  lemma ChangeQuantityAt(lines: seq<Line>, id: string, change: int, k: nat)
    requires UniqueIds(lines) && k < |lines| && lines[k].id == id
    ensures var q := lines[k].quantity + change;
      ChangeQuantity(lines, id, change)
        == if q < 1 then lines[..k] + lines[k + 1..] else lines[k := lines[k].(quantity := q)]
  {
    var f := FirstIndex(lines, id);
    assert f == Some(k) by {
      if f.Some? && f.value != k {
        assert lines[f.value].id == lines[k].id;
      }
    }
    if lines[k].quantity + change < 1 {
      WithoutAt(lines, id, k);
    }
  }

  /** Stepping keeps the cart well formed, whatever the step: a line that would drop
      below 1 is removed. */
  lemma ChangeQuantityKeepsWellFormed(lines: seq<Line>, id: string, change: int)
    requires WellFormed(lines)
    ensures WellFormed(ChangeQuantity(lines, id, change))
  {
    match FirstIndex(lines, id)
    case None =>
    case Some(k) =>
      if lines[k].quantity + change < 1 {
        WithoutKeepsWellFormed(lines, id);
      }
  }

  // ---------------------------------------------------------------------------
  // WithQuantity

  /** Setting the quantity of an id that no line carries yields an identical cart. */
  lemma WithQuantityAbsent(lines: seq<Line>, id: string, quantity: int)
    requires Absent(lines, id)
    ensures WithQuantity(lines, id, quantity) == lines
  {
  }

  /** Setting a quantity of at least 1 keeps the cart well formed. */
  lemma WithQuantityKeepsWellFormed(lines: seq<Line>, id: string, quantity: int)
    requires WellFormed(lines) && quantity >= 1
    ensures WellFormed(WithQuantity(lines, id, quantity))
  {
    var r := WithQuantity(lines, id, quantity);
    assert forall i :: 0 <= i < |r| ==> r[i].id == lines[i].id;
  }
}
