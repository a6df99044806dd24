/**
 * The cart state of the page and the operations that change it: deletion by
 * reference, validated append, a row's quantity edit and loading the stored
 * cart. Every change ends, as on the page, with the totals recomputed and the
 * cart written back to storage.
 */
module ShoppingCart {
  import opened Wrappers
  import opened CartItems
  import opened CartTotals

  /**
   * The browser's key-value store, reduced to its "cart" entry. The entry
   * holds the serialised product list; serialising and parsing are taken to
   * give back the same list.
   */
  class Storage {
    var cart: Option<seq<LineItem>>

    constructor (stored: Option<seq<LineItem>>)
      ensures cart == stored
    {
      cart := stored;
    }
  }

  class Cart {
    /** The line items in display order. */
    var products: seq<LineItem>

    /** The page starts with the three sample items. */
    constructor ()
      ensures products == SampleProducts
    {
      products := SampleProducts;
    }

    /**
     * One pass over the items, accumulating the line prices into the running
     * total and collecting them for the price column; then VAT on that
     * subtotal, the delivery fee, and the final total.
     */
    method ComputeTotals(mode: DeliveryMode) returns (t: Totals, linePrices: seq<real>)
      ensures t == TotalsOf(products, mode)
      ensures t.subtotal == Subtotal(products)
      ensures |linePrices| == |products|
      ensures forall i :: 0 <= i < |products| ==> linePrices[i] == LinePrice(products[i])
    {
      var totalPrice := 0.0;
      linePrices := [];
      for i := 0 to |products|
        invariant totalPrice == Subtotal(products[..i])
        invariant |linePrices| == i
        invariant forall k :: 0 <= k < i ==> linePrices[k] == LinePrice(products[k])
      {
        var productPrice := LinePrice(products[i]);
        assert products[..i + 1][..i] == products[..i];
        totalPrice := totalPrice + productPrice;
        linePrices := linePrices + [productPrice];
      }
      assert products[..|products|] == products;
      var subtotal := totalPrice;
      var totalVat := totalPrice * VatRate;
      var deliveryCost := DeliveryFee(mode);
      totalPrice := totalPrice + deliveryCost;
      var totalFinal := totalPrice + totalVat;
      t := Totals(subtotal, totalVat, deliveryCost, totalPrice, totalFinal);
    }

    /** Writes the current items to the "cart" entry. */
    method Save(storage: Storage)
      modifies storage
      ensures storage.cart == Some(products)
    {
      storage.cart := Some(products);
    }

    /** Recomputes the totals shown in the footer and saves the cart. */
    method UpdateTotals(mode: DeliveryMode, storage: Storage) returns (t: Totals, linePrices: seq<real>)
      modifies storage
      ensures t == TotalsOf(products, mode)
      ensures |linePrices| == |products|
      ensures forall i :: 0 <= i < |products| ==> linePrices[i] == LinePrice(products[i])
      ensures storage.cart == Some(products)
    {
      t, linePrices := ComputeTotals(mode);
      Save(storage);
    }

    /**
     * Drops every item whose reference is `reference`, keeping the others in
     * order, then rebuilds the table, which recomputes and saves.
     */
    method Delete(reference: string, mode: DeliveryMode, storage: Storage) returns (t: Totals)
      modifies this, storage
      ensures products == Without(old(products), reference)
      ensures !HasReference(products, reference)
      ensures !HasReference(old(products), reference) ==> products == old(products)
      ensures |products| < |old(products)| <==> HasReference(old(products), reference)
      ensures t == TotalsOf(products, mode)
      ensures storage.cart == Some(products)
    {
      ghost var before := products;
      products := Without(products, reference);
      WithoutRemovesAll(before, reference);
      WithoutShrinksIffPresent(before, reference);
      if !HasReference(before, reference) {
        WithoutAbsent(before, reference);
      }
      var prices;
      t, prices := UpdateTotals(mode, storage);
    }

    /**
     * Appends a new item when the parsed unit price and quantity are both
     * numbers (`None` stands for a value that did not parse), then rebuilds
     * the table and saves. Otherwise the user is alerted and nothing changes;
     * `shown` is `None` exactly on that path.
     */
    method Add(reference: string, name: string, unitPrice: Option<real>, quantity: Option<int>,
               mode: DeliveryMode, storage: Storage) returns (shown: Option<Totals>)
      modifies this, storage
      ensures shown.Some? <==> unitPrice.Some? && quantity.Some?
      ensures shown.Some? ==>
        products == old(products) + [LineItem(reference, name, unitPrice.value, quantity.value)]
      ensures shown.Some? ==> shown.value == TotalsOf(products, mode)
      ensures shown.Some? ==> storage.cart == Some(products)
      ensures shown.None? ==> products == old(products) && storage.cart == old(storage.cart)
    {
      if unitPrice.Some? && quantity.Some? {
        products := products + [LineItem(reference, name, unitPrice.value, quantity.value)];
        var t, _ := UpdateTotals(mode, storage);
        Save(storage);
        shown := Some(t);
      } else {
        shown := None;
      }
    }

    /**
     * The quantity input of row `i`: sets that item's quantity, shows the
     * row's new price and recomputes and saves the totals.
     */
    method SetQuantity(i: nat, q: int, mode: DeliveryMode, storage: Storage)
      returns (linePrice: real, t: Totals)
      requires i < |products|
      modifies this, storage
      ensures products == old(products)[i := old(products)[i].(quantity := q)]
      ensures |products| == |old(products)|
      ensures forall j :: 0 <= j < |products| && j != i ==> products[j] == old(products)[j]
      ensures products[i].reference == old(products)[i].reference
      ensures products[i].name == old(products)[i].name
      ensures products[i].unitPrice == old(products)[i].unitPrice
      ensures products[i].quantity == q
      ensures linePrice == old(products)[i].unitPrice * q as real
      ensures t == TotalsOf(products, mode)
      ensures t.subtotal
           == old(Subtotal(products)) + old(products)[i].unitPrice * (q - old(products)[i].quantity) as real
      ensures storage.cart == Some(products)
    {
      SubtotalAfterQuantityEdit(products, i, q);
      products := products[i := products[i].(quantity := q)];
      linePrice := LinePrice(products[i]);
      var prices;
      t, prices := UpdateTotals(mode, storage);
    }

    /**
     * Replaces the items by the stored cart when one is stored, and then
     * rebuilds the table (which writes the same cart back). With nothing
     * stored the items are kept and nothing is shown.
     */
    method Load(mode: DeliveryMode, storage: Storage) returns (shown: Option<Totals>)
      modifies this, storage
      ensures products == if old(storage.cart).Some? then old(storage.cart).value else old(products)
      ensures storage.cart == old(storage.cart)
      ensures shown.Some? <==> old(storage.cart).Some?
      ensures shown.Some? ==> shown.value == TotalsOf(products, mode)
    {
      var stored := storage.cart;
      if stored.Some? {
        products := stored.value;
        var t, _ := UpdateTotals(mode, storage);
        shown := Some(t);
      } else {
        shown := None;
      }
    }

    /**
     * Saving and then loading: the stored entry gives back the same items,
     * so a reload after any change finds the cart as it was left.
     */
    method SaveThenLoad(mode: DeliveryMode, storage: Storage) returns (shown: Option<Totals>)
      modifies this, storage
      ensures products == old(products)
      ensures storage.cart == Some(products)
      ensures shown == Some(TotalsOf(products, mode))
    {
      Save(storage);
      shown := Load(mode, storage);
    }

    /** Page start: load the stored cart if any, then build the table. */
    method Start(mode: DeliveryMode, storage: Storage) returns (t: Totals)
      modifies this, storage
      ensures products == if old(storage.cart).Some? then old(storage.cart).value else old(products)
      ensures storage.cart == Some(products)
      ensures t == TotalsOf(products, mode)
    {
      var _ := Load(mode, storage);
      var prices;
      t, prices := UpdateTotals(mode, storage);
    }
  }
}
