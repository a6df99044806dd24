/**
 * The footer of the cart: subtotal, 20% VAT on the subtotal, the delivery fee
 * of the selected mode, the total price with delivery and the final total.
 */
module CartTotals {
  import opened CartItems

  /** The two options of the delivery selector. */
  datatype DeliveryMode = Relay | Home

  /** The delivery fee table: relay point 5, home delivery 12. */
  function DeliveryFee(mode: DeliveryMode): real
  {
    match mode
    case Relay => 5.0
    case Home => 12.0
  }

  /** The VAT rate, applied to the subtotal before delivery. */
  const VatRate: real := 0.2

  /** The derived totals: the three footer values and the two they come from. */
  datatype Totals = Totals(
    subtotal: real,      // sum of the line prices
    vat: real,           // VAT on the subtotal
    deliveryCost: real,  // fee of the selected delivery mode
    totalPrice: real,    // "total price": subtotal plus delivery
    totalFinal: real)    // total price plus VAT

  /** The totals of a cart under a delivery mode, in the order the page computes them. */
  function TotalsOf(products: seq<LineItem>, mode: DeliveryMode): Totals
  {
    var subtotal := Subtotal(products);
    var vat := subtotal * VatRate;
    var totalPrice := subtotal + DeliveryFee(mode);
    Totals(subtotal, vat, DeliveryFee(mode), totalPrice, totalPrice + vat)
  }

  /**
   * The final total is the subtotal, plus the delivery fee, plus 20% of the
   * subtotal. The second clause only records how `TotalsOf` composes it.
   */
  lemma FinalTotalClosedForm(products: seq<LineItem>, mode: DeliveryMode)
    ensures TotalsOf(products, mode).totalFinal
         == Subtotal(products) + DeliveryFee(mode) + Subtotal(products) / 5.0
    ensures TotalsOf(products, mode).totalFinal
         == TotalsOf(products, mode).totalPrice + TotalsOf(products, mode).vat
  {
  }

  /** VAT depends on the items only: changing the delivery mode does not change it. */
  lemma VatIgnoresDelivery(products: seq<LineItem>, m1: DeliveryMode, m2: DeliveryMode)
    ensures TotalsOf(products, m1).vat == TotalsOf(products, m2).vat
    ensures TotalsOf(products, m1).vat == Subtotal(products) / 5.0
  {
  }

  /**
   * The displayed total price is the subtotal plus the fee of the selected
   * mode. These clauses only record the definitions of `TotalsOf` and of the
   * fee table, for readers of the footer.
   */
  lemma TotalPriceAddsFee(products: seq<LineItem>, mode: DeliveryMode)
    ensures TotalsOf(products, mode).totalPrice == Subtotal(products) + DeliveryFee(mode)
    ensures mode == Relay ==> TotalsOf(products, mode).deliveryCost == 5.0
    ensures mode == Home ==> TotalsOf(products, mode).deliveryCost == 12.0
  {
  }

  /** An empty cart costs exactly the delivery fee, with no VAT. */
  lemma EmptyCartTotals(mode: DeliveryMode)
    ensures TotalsOf([], mode).vat == 0.0
    ensures TotalsOf([], mode).totalPrice == DeliveryFee(mode)
    ensures TotalsOf([], mode).totalFinal == DeliveryFee(mode)
  {
  }

  /** Appending an item raises the final total by 1.2 times its line price. */
  lemma PushRaisesFinalTotal(products: seq<LineItem>, x: LineItem, mode: DeliveryMode)
    ensures TotalsOf(products + [x], mode).totalFinal
         == TotalsOf(products, mode).totalFinal + LinePrice(x) * 6.0 / 5.0
  {
    SubtotalPush(products, x);
  }

  /** A quantity edit moves the final total by 1.2 times the change of that line's price. */
  lemma QuantityEditMovesFinalTotal(products: seq<LineItem>, i: nat, q: int, mode: DeliveryMode)
    requires i < |products|
    ensures TotalsOf(products[i := products[i].(quantity := q)], mode).totalFinal
         == TotalsOf(products, mode).totalFinal
            + (products[i].unitPrice * q as real - LinePrice(products[i])) * 6.0 / 5.0
  {
    SubtotalAfterQuantityEdit(products, i, q);
  }

  /** One line of 4 soaps at 6 with relay delivery: 24 + 5 + 4.8 = 33.8. */
  lemma SoapRelayScenario()
    ensures TotalsOf([LineItem("5K96", "Savon", 6.0, 4)], Relay)
         == Totals(24.0, 4.8, 5.0, 29.0, 33.8)
  {
  }

  /** The same line with home delivery: 24 + 12 + 4.8 = 40.8. */
  lemma SoapHomeScenario()
    ensures TotalsOf([LineItem("5K96", "Savon", 6.0, 4)], Home).totalFinal == 40.8
  {
  }

  /** The starting cart: 24 + 24 + 16 = 64, VAT 12.8, with relay 69 and 81.8. */
  lemma SampleCartScenario()
    ensures Subtotal(SampleProducts) == 64.0
    ensures TotalsOf(SampleProducts, Relay) == Totals(64.0, 12.8, 5.0, 69.0, 81.8)
  {
    var s := SampleProducts;
    assert s[..2][..1] == s[..1] && s[..2][..1][..0] == [];
    assert Subtotal(s[..1]) == 24.0;
    assert Subtotal(s[..2]) == 48.0;
    assert s[..3] == s;
  }

  /** Setting the soap line of the starting cart to 10 makes that line 60 and the subtotal 100. */
  lemma SampleQuantityTenScenario()
    ensures LinePrice(SampleProducts[0].(quantity := 10)) == 60.0
    ensures TotalsOf(SampleProducts[0 := SampleProducts[0].(quantity := 10)], Relay).totalFinal == 125.0
  {
    SampleCartScenario();
    SubtotalAfterQuantityEdit(SampleProducts, 0, 10);
  }
}
