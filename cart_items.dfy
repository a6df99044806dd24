/**
 * Line items of the cart and the pure functions over a list of them:
 * the price of one line, the running subtotal and removal by reference.
 */
module CartItems {

  /** One product row of the cart. References are not required to be unique. */
  datatype LineItem = LineItem(reference: string, name: string, unitPrice: real, quantity: int)

  /** The cart the page starts with when nothing is stored. */
  const SampleProducts: seq<LineItem> := [
    LineItem("5K96", "Savon", 6.0, 4),
    LineItem("98Y3", "Coquillette", 3.0, 8),
    LineItem("365D", "Yaourt nature", 8.0, 2)
  ]

  /** The price shown in a row's price column. */
  function LinePrice(item: LineItem): real
  {
    item.unitPrice * item.quantity as real
  }

  /** The sum of the line prices, accumulated from the first item to the last. */
  function Subtotal(s: seq<LineItem>): real
  {
    if s == [] then 0.0 else Subtotal(s[..|s| - 1]) + LinePrice(s[|s| - 1])
  }

  /** Whether some item of `s` carries reference `r`. */
  predicate HasReference(s: seq<LineItem>, r: string)
  {
    exists i :: 0 <= i < |s| && s[i].reference == r
  }

  /** The items of `s` whose reference differs from `r`, in their original order. */
  function Without(s: seq<LineItem>, r: string): (t: seq<LineItem>)
    ensures |t| <= |s|
    ensures forall x :: x in t <==> x in s && x.reference != r
  {
    if s == [] then []
    else (if s[0].reference != r then [s[0]] else []) + Without(s[1..], r)
  }

  /** Adding up two consecutive parts of the cart gives the subtotal of the whole. */
  lemma {:induction false} SubtotalAppend(a: seq<LineItem>, b: seq<LineItem>)
    ensures Subtotal(a + b) == Subtotal(a) + Subtotal(b)
  {
    if b == [] {
      assert a + b == a;
    } else {
      assert (a + b)[..|a + b| - 1] == a + b[..|b| - 1];
      SubtotalAppend(a, b[..|b| - 1]);
    }
  }

  /** Appending an item raises the subtotal by exactly that item's line price. */
  lemma SubtotalPush(s: seq<LineItem>, x: LineItem)
    ensures Subtotal(s + [x]) == Subtotal(s) + LinePrice(x)
  {
    SubtotalAppend(s, [x]);
    assert [x][..0] == [];
  }

  /** Replacing one row changes the subtotal by the difference of the two line prices. */
  lemma {:induction false} SubtotalReplace(s: seq<LineItem>, i: nat, x: LineItem)
    requires i < |s|
    ensures Subtotal(s[i := x]) == Subtotal(s) - LinePrice(s[i]) + LinePrice(x)
  {
    var t := s[i := x];
    var n := |s| - 1;
    if i == n {
      assert t[..n] == s[..n];
    } else {
      assert t[..n] == s[..n][i := x];
      SubtotalReplace(s[..n], i, x);
    }
  }

  /** The change of one line's price when its quantity becomes `q`. */
  lemma LinePriceDelta(x: LineItem, q: int)
    ensures LinePrice(x.(quantity := q)) - LinePrice(x) == x.unitPrice * (q - x.quantity) as real
  {
    var p, a, b := x.unitPrice, q as real, x.quantity as real;
    assert (q - x.quantity) as real == a - b;
    assert p * (a - b) == p * a - p * b;
  }

  /** A quantity edit moves the subtotal by the unit price times the change in quantity. */
  lemma SubtotalAfterQuantityEdit(s: seq<LineItem>, i: nat, q: int)
    requires i < |s|
    ensures Subtotal(s[i := s[i].(quantity := q)])
         == Subtotal(s) + s[i].unitPrice * (q - s[i].quantity) as real
  {
    SubtotalReplace(s, i, s[i].(quantity := q));
    LinePriceDelta(s[i], q);
  }

  /** When every unit price and quantity is non-negative, so is the subtotal. */
  lemma {:induction false} SubtotalNonNegative(s: seq<LineItem>)
    requires forall i :: 0 <= i < |s| ==> s[i].unitPrice >= 0.0 && s[i].quantity >= 0
    ensures Subtotal(s) >= 0.0
  {
    if s != [] {
      SubtotalNonNegative(s[..|s| - 1]);
    }
  }

  /** Removal never leaves an item with the removed reference. */
  lemma WithoutRemovesAll(s: seq<LineItem>, r: string)
    ensures forall i :: 0 <= i < |Without(s, r)| ==> Without(s, r)[i].reference != r
  {
    var t := Without(s, r);
    forall i | 0 <= i < |t| ensures t[i].reference != r {
      assert t[i] in t;
    }
  }

  /** Removing a reference that no item carries leaves the cart as it was. */
  lemma {:induction false} WithoutAbsent(s: seq<LineItem>, r: string)
    requires !HasReference(s, r)
    ensures Without(s, r) == s
  {
    if s != [] {
      assert s[0].reference != r;
      assert !HasReference(s[1..], r) by {
        forall i | 0 <= i < |s[1..]| ensures s[1..][i].reference != r {
          assert s[1..][i] == s[i + 1];
        }
      }
      WithoutAbsent(s[1..], r);
      assert s == [s[0]] + s[1..];
    }
  }

  /**
   * Removal distributes over concatenation: what is kept from an earlier part
   * of the cart comes before what is kept from a later part, so the relative
   * order of the kept items is the original one.
   */
  lemma {:induction false} WithoutConcat(a: seq<LineItem>, b: seq<LineItem>, r: string)
    ensures Without(a + b, r) == Without(a, r) + Without(b, r)
  {
    if a == [] {
      assert a + b == b;
    } else {
      assert (a + b)[0] == a[0];
      assert (a + b)[1..] == a[1..] + b;
      WithoutConcat(a[1..], b, r);
    }
  }

  /** Removal shortens the cart exactly when the reference is present. */
  lemma {:induction false} WithoutShrinksIffPresent(s: seq<LineItem>, r: string)
    ensures |Without(s, r)| < |s| <==> HasReference(s, r)
  {
    if HasReference(s, r) {
      var i :| 0 <= i < |s| && s[i].reference == r;
      assert s == s[..i] + [s[i]] + s[i + 1..];
      WithoutConcat(s[..i] + [s[i]], s[i + 1..], r);
      WithoutConcat(s[..i], [s[i]], r);
      assert Without([s[i]], r) == [] by {
        assert [s[i]][1..] == [];
      }
    } else {
      WithoutAbsent(s, r);
    }
  }

  /** Removing the same reference twice is the same as removing it once. */
  lemma WithoutIdempotent(s: seq<LineItem>, r: string)
    ensures Without(Without(s, r), r) == Without(s, r)
  {
    var t := Without(s, r);
    WithoutRemovesAll(s, r);
    assert !HasReference(t, r);
    WithoutAbsent(t, r);
  }

  /**
   * Deleting the reference of an item just appended, when no earlier item
   * carried it, gives back the cart as it was before the append.
   */
  lemma DeleteUndoesPush(s: seq<LineItem>, x: LineItem)
    requires !HasReference(s, x.reference)
    ensures Without(s + [x], x.reference) == s
  {
    WithoutConcat(s, [x], x.reference);
    WithoutAbsent(s, x.reference);
    assert Without([x], x.reference) == [] by {
      assert [x][1..] == [];
    }
  }
}
