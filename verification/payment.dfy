/**
 * The payment page's order summary. It recomputes the cart's total from the
 * items on its own, as a sum of base prices, 5% service fees and shipping
 * costs, converts it to the cart's currency and estimates delivery from the
 * first item's shipping option. It never reads an item's quality-control
 * choice or its stored rupee total.
 */
module Payment {
  import opened Wrappers
  import Js
  import Catalog
  import Cart
  import OrderForm

  // ------------------------------------------------------ per-item terms

  function BasePrice(item: Cart.CartItem): real
  {
    item.productData.basePrice
  }

  /** The page's service fee on one item: 5% of its price, with no positivity guard. */
  function ItemServiceFee(item: Cart.CartItem): real
  {
    item.productData.basePrice * 0.05
  }

  /** `option?.cost || 0` for the item's shipping method. */
  function ItemShipping(item: Cart.CartItem): real
  {
    Catalog.ShippingCost(item.shippingMethod)
  }

  /** What one item contributes to the page's total. */
  function ItemCheckout(item: Cart.CartItem): real
  {
    BasePrice(item) + ItemServiceFee(item) + ItemShipping(item)
  }

  /** The fee of the item's quality-control choice, as the order form charged it. */
  function ItemQcFee(item: Cart.CartItem): real
  {
    OrderForm.QcFee(item.selectedQC)
  }

  // ------------------------------------------------------------- summary

  function Subtotal(items: seq<Cart.CartItem>): real
  {
    Js.Sum(items, BasePrice)
  }

  function ServiceFee(items: seq<Cart.CartItem>): real
  {
    Js.Sum(items, ItemServiceFee)
  }

  function ShippingTotal(items: seq<Cart.CartItem>): real
  {
    Js.Sum(items, ItemShipping)
  }

  /** `finalTotal`, as written: price, service fee and shipping, with no quality-control fee. */
  function FinalTotal(items: seq<Cart.CartItem>): real
  {
    Subtotal(items) + ServiceFee(items) + ShippingTotal(items)
  }

  /** `finalTotalInCurrency`. */
  function FinalTotalInCurrency(state: Cart.CartState): real
  {
    Catalog.Convert(FinalTotal(state.items), Catalog.PageRate(state.selectedCurrency))
  }

  /** The delivery estimate: `'-'` for an empty cart, else the first item's option's `days`, `undefined` when none matches. */
  datatype Delivery = NoItems | Days(days: string) | Undefined

  function EstimatedDelivery(items: seq<Cart.CartItem>): (r: Delivery)
    ensures r.NoItems? <==> |items| == 0
    ensures r.Days? ==> exists o | o in Catalog.ShippingOptions :: o.id == items[0].shippingMethod && o.days == r.days
    ensures r.Undefined? <==> |items| > 0 && items[0].shippingMethod !in {"standard", "express", "premium"}
  {
    if |items| > 0 then
      match Catalog.FindShipping(Catalog.ShippingOptions, items[0].shippingMethod)
      case Some(o) => Days(o.days)
      case None => Undefined
    else NoItems
  }

  // ---------------------------------------------------------- properties

  /** An empty cart shows zero everywhere and `'-'` for delivery. */
  lemma EmptyCartSummary(state: Cart.CartState)
    requires state.items == []
    ensures Subtotal(state.items) == 0.0 && ServiceFee(state.items) == 0.0 && ShippingTotal(state.items) == 0.0
    ensures FinalTotal(state.items) == 0.0 && FinalTotalInCurrency(state) == 0.0
    ensures EstimatedDelivery(state.items) == NoItems
  {
  }

  /** The page's service fee is one twentieth of its subtotal, whatever the signs of the prices. */
  lemma ServiceFeeIsFivePercent(items: seq<Cart.CartItem>)
    ensures 20.0 * ServiceFee(items) == Subtotal(items)
  {
    Js.SumScale(items, BasePrice, 0.05, ItemServiceFee);
  }

  /** Every item adds its listed shipping cost, and nothing for a method that names no option. */
  lemma ShippingTotalPerItem(items: seq<Cart.CartItem>, item: Cart.CartItem)
    ensures ShippingTotal(items + [item]) == ShippingTotal(items) + Catalog.ShippingCost(item.shippingMethod)
    ensures item.shippingMethod !in {"standard", "express", "premium"} ==> ShippingTotal(items + [item]) == ShippingTotal(items)
    ensures ShippingTotal(items) >= 0.0
  {
    Js.SumAppend(items, [item], ItemShipping);
    assert [item][..0] == [];
    Catalog.ShippingCostTable(item.shippingMethod);
    ShippingTotalNonNegative(items);
  }

  /** No listed shipping cost is negative, so neither is their sum. */
  lemma {:induction false} ShippingTotalNonNegative(items: seq<Cart.CartItem>)
    ensures ShippingTotal(items) >= 0.0
    decreases |items|
  {
    if |items| > 0 {
      ShippingTotalNonNegative(items[..|items| - 1]);
      Catalog.ShippingCostTable(items[|items| - 1].shippingMethod);
    }
  }

  /** The page's total is the sum, over the items, of price, 5% fee and shipping. */
  lemma FinalTotalPerItem(items: seq<Cart.CartItem>)
    ensures FinalTotal(items) == Js.Sum(items, ItemCheckout)
  {
    Js.SumPointwise(items, BasePrice, ItemServiceFee, PriceAndFee);
    Js.SumPointwise(items, PriceAndFee, ItemShipping, ItemCheckout);
  }

  function PriceAndFee(item: Cart.CartItem): real
  {
    BasePrice(item) + ItemServiceFee(item)
  }

  /** The converted total uses the same rate the cart uses, 1 for an unlisted code. */
  lemma FinalTotalInCurrencyRate(state: Cart.CartState)
    ensures FinalTotalInCurrency(state) == Catalog.Convert(FinalTotal(state.items), Catalog.CartRate(state.selectedCurrency))
    ensures state.selectedCurrency !in Catalog.CurrencyCodes ==> FinalTotalInCurrency(state) == FinalTotal(state.items)
  {
    Catalog.RatesAgree(state.selectedCurrency);
    Catalog.RateTable(state.selectedCurrency);
  }

  // ------------------------------------------------- the missing QC fee

  /** An item as the order form prices it: positive price, and a rupee total of price, fee, QC fee and shipping. */
  predicate PricedByForm(item: Cart.CartItem)
  {
    && item.productData.basePrice > 0.0
    && item.totalInPKR == item.productData.basePrice + OrderForm.ServiceFee(item.productData.basePrice)
                          + OrderForm.QcFee(item.selectedQC) + Catalog.ShippingCost(item.shippingMethod)
  }

  /** Every item the order form adds is priced that way. */
  lemma SubmittedItemsArePriced(form: OrderForm.Form, id: string, addedAt: int)
    requires OrderForm.Submit(form, id, addedAt).Added?
    ensures PricedByForm(OrderForm.Submit(form, id, addedAt).item)
  {
  }

  /** For a form-priced item, its stored total is the page's contribution plus its QC fee. */
  lemma ItemTotalSplits(item: Cart.CartItem)
    requires PricedByForm(item)
    ensures Cart.ItemTotal(item) == ItemCheckout(item) + ItemQcFee(item)
  {
  }

  /**
   * As written, the page's total falls short of the cart's subtotal by exactly
   * the items' quality-control fees.
   */
  lemma {:induction false} FinalTotalOmitsQcFees(items: seq<Cart.CartItem>)
    requires forall k | 0 <= k < |items| :: PricedByForm(items[k])
    ensures FinalTotal(items) + Js.Sum(items, ItemQcFee) == Cart.SubtotalPKR(items)
  {
    FinalTotalPerItem(items);
    Js.SumCongruent(items, Cart.ItemTotal, CheckoutWithQc);
    Js.SumPointwise(items, ItemCheckout, ItemQcFee, CheckoutWithQc);
  }

  function CheckoutWithQc(item: Cart.CartItem): real
  {
    ItemCheckout(item) + ItemQcFee(item)
  }

  /** A 5000-rupee order with premium quality control and standard shipping, priced as the order form prices it. */
  function PremiumOrder(): Cart.CartItem
  {
    Cart.CartItem("premium-order", Cart.ProductData("", "", "https://shop.example", 5000.0, "PKR"),
                  Cart.OrderDetails("", 1, "", "", None), Some(Catalog.QcOptions[2]), "standard",
                  0, 7750.0, 27.9)
  }

  /** With that one order in the cart, the cart shows 7750 rupees but the page asks for 6750: the premium fee is lost. */
  lemma QcFeeMissingAtCheckout()
    ensures PricedByForm(PremiumOrder())
    ensures Cart.SubtotalPKR([PremiumOrder()]) == 7750.0
    ensures FinalTotal([PremiumOrder()]) == 6750.0
  {
    var item := PremiumOrder();
    Catalog.ShippingCostTable("standard");
    Js.SumSingle(item, Cart.ItemTotal);
    FinalTotalPerItem([item]);
    Js.SumSingle(item, ItemCheckout);
  }

  /** The total the page evidently means to charge: the same sums plus the items' quality-control fees. */
  function CorrectedFinalTotal(items: seq<Cart.CartItem>): real
  {
    FinalTotal(items) + Js.Sum(items, ItemQcFee)
  }

  function CorrectedFinalTotalInCurrency(state: Cart.CartState): real
  {
    Catalog.Convert(CorrectedFinalTotal(state.items), Catalog.PageRate(state.selectedCurrency))
  }

  /** With the QC fees added back, checkout charges exactly what a consistent cart shows, in rupees and converted. */
  lemma CorrectedTotalMatchesCart(state: Cart.CartState)
    requires Cart.Consistent(state)
    requires forall k | 0 <= k < |state.items| :: PricedByForm(state.items[k])
    ensures CorrectedFinalTotal(state.items) == state.subtotalPKR
    ensures CorrectedFinalTotalInCurrency(state) == state.subtotalSelectedCurrency
  {
    FinalTotalOmitsQcFees(state.items);
    Catalog.RatesAgree(state.selectedCurrency);
  }
}
