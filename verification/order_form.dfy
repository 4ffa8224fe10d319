/**
 * The order form: the customer describes a product, picks a quality-control
 * tier, a shipping method and a display currency, and the form prices the
 * order from the fixed option tables. Submitting a priced order with a product
 * URL adds one line item to the cart.
 */
module OrderForm {
  import opened Wrappers
  import Js
  import Catalog
  import Cart

  /** The form's state (the product's never-filled `image` field is not modelled). */
  datatype Form = Form(
    product: Cart.ProductData,
    details: Cart.OrderDetails,
    selectedCurrency: string,
    selectedQC: Option<Catalog.QualityControl>,
    shippingMethod: string)

  /** The form as first shown, with the product URL taken from the `url` query parameter when there is one. */
  function InitialForm(urlParam: Option<string>): Form
  {
    Form(Cart.ProductData("", "", urlParam.GetOr(""), 0.0, "PKR"),
         Cart.OrderDetails("", 1, "", "", None),
         "USD", None, "standard")
  }

  /** The quality-control choice is empty or one of the offered options, as the tier picker allows. */
  predicate OfferedQc(qc: Option<Catalog.QualityControl>)
  {
    qc.None? || qc.value in Catalog.QcOptions
  }

  /** The price breakdown the form shows, in rupees, plus the converted total. */
  datatype Costs = Costs(
    serviceFee: real,
    qcFee: real,
    shippingCost: real,
    totalInPKR: real,
    totalInSelectedCurrency: real)

  /** The 5% service fee, charged only on a positive price. */
  function ServiceFee(basePrice: real): (r: real)
    ensures r >= 0.0
    ensures basePrice > 0.0 ==> 20.0 * r == basePrice
    ensures basePrice <= 0.0 ==> r == 0.0
  {
    if basePrice > 0.0 then basePrice * 0.05 else 0.0
  }

  /** `selectedQC?.fee`: the fee of the chosen option, `undefined` when there is none. */
  function FeeOf(qc: Option<Catalog.QualityControl>): Option<real>
  {
    if qc.Some? then Some(qc.value.fee) else None
  }

  /** `selectedQC?.fee || 0`. */
  function QcFee(qc: Option<Catalog.QualityControl>): real
  {
    Js.NumberOr(FeeOf(qc), 0.0)
  }

  /** An offered tier costs its listed fee (0, 500 or 1000); no choice costs nothing. */
  lemma QcFeeTable(qc: Option<Catalog.QualityControl>)
    requires OfferedQc(qc)
    ensures qc.None? ==> QcFee(qc) == 0.0
    ensures qc.Some? && qc.value.tier == Catalog.Standard ==> QcFee(qc) == 0.0
    ensures qc.Some? && qc.value.tier == Catalog.Detailed ==> QcFee(qc) == 500.0
    ensures qc.Some? && qc.value.tier == Catalog.Premium ==> QcFee(qc) == 1000.0
    ensures QcFee(qc) >= 0.0
  {
    Catalog.QcOptionsTable();
  }

  /** The form's cost derivation. */
  function ComputeCosts(form: Form): (c: Costs)
    ensures c.serviceFee == ServiceFee(form.product.basePrice)
    ensures c.qcFee == QcFee(form.selectedQC) && c.shippingCost == Catalog.ShippingCost(form.shippingMethod)
    ensures c.totalInPKR == form.product.basePrice + c.serviceFee + c.qcFee + c.shippingCost
    ensures c.totalInSelectedCurrency == Catalog.Convert(c.totalInPKR, Catalog.PageRate(form.selectedCurrency))
  {
    var serviceFee := ServiceFee(form.product.basePrice);
    var qcFee := QcFee(form.selectedQC);
    var shippingCost := Catalog.ShippingCost(form.shippingMethod);
    var totalInPKR := form.product.basePrice + serviceFee + qcFee + shippingCost;
    Costs(serviceFee, qcFee, shippingCost, totalInPKR, Catalog.Convert(totalInPKR, Catalog.PageRate(form.selectedCurrency)))
  }

  /** No fee is negative, so an order never costs less than the product's non-negative price. */
  lemma TotalCoversPrice(form: Form)
    requires OfferedQc(form.selectedQC)
    requires form.product.basePrice >= 0.0
    ensures ComputeCosts(form).totalInPKR >= form.product.basePrice
    ensures ComputeCosts(form).totalInPKR == 1.05 * form.product.basePrice
                                            + QcFee(form.selectedQC) + Catalog.ShippingCost(form.shippingMethod)
  {
    QcFeeTable(form.selectedQC);
    Catalog.ShippingCostTable(form.shippingMethod);
  }

  /** The converted total is the rupee total at the selected currency's rate, which is 1 for an unlisted code. */
  lemma ConvertedTotal(form: Form)
    ensures ComputeCosts(form).totalInSelectedCurrency
            == Catalog.Convert(ComputeCosts(form).totalInPKR, Catalog.CartRate(form.selectedCurrency))
    ensures form.selectedCurrency !in Catalog.CurrencyCodes ==>
            ComputeCosts(form).totalInSelectedCurrency == ComputeCosts(form).totalInPKR
  {
    Catalog.RatesAgree(form.selectedCurrency);
    Catalog.RateTable(form.selectedCurrency);
  }

  /** A 5000-rupee product with standard or no quality control and standard shipping costs 6750 rupees. */
  lemma WorkedExample(form: Form)
    requires form.product.basePrice == 5000.0 && form.shippingMethod == "standard"
    requires form.selectedQC.None? || form.selectedQC == Some(Catalog.QcOptions[0])
    ensures ComputeCosts(form).serviceFee == 250.0
    ensures ComputeCosts(form).totalInPKR == 6750.0
  {
    Catalog.ShippingCostTable(form.shippingMethod);
  }

  // ------------------------------------------------------------ submission

  /** What submitting the form does: one of two alerts, or one call adding the item to the cart. */
  datatype SubmitOutcome = InvalidPrice | MissingUrl | Added(item: Cart.CartItem)

  /**
   * `handleSubmit` followed by the cart's `addItem`, which stamps the item with
   * the generated `id` and the current time `addedAt`, both given here.
   */
  function Submit(form: Form, id: string, addedAt: int): (r: SubmitOutcome)
    ensures r.InvalidPrice? <==> form.product.basePrice <= 0.0
    ensures r.MissingUrl? <==> form.product.basePrice > 0.0 && form.product.url == ""
    ensures r.Added? <==> form.product.basePrice > 0.0 && form.product.url != ""
    ensures r.Added? ==>
      && r.item.id == id && r.item.addedAt == addedAt
      && r.item.productData == form.product && r.item.orderDetails == form.details
      && r.item.selectedQC == form.selectedQC && r.item.shippingMethod == form.shippingMethod
      && r.item.totalInPKR == ComputeCosts(form).totalInPKR
      && r.item.totalInSelectedCurrency == ComputeCosts(form).totalInSelectedCurrency
  {
    if form.product.basePrice == 0.0 || form.product.basePrice <= 0.0 then InvalidPrice
    else if form.product.url == "" then MissingUrl
    else
      var costs := ComputeCosts(form);
      Added(Cart.CartItem(id, form.product, form.details, form.selectedQC, form.shippingMethod,
                          addedAt, costs.totalInPKR, costs.totalInSelectedCurrency))
  }

  /** The cart after a submission: unchanged when it is rejected, one item longer when it is accepted. */
  function PlaceOrder(cart: Cart.CartState, form: Form, id: string, addedAt: int): (r: Cart.CartState)
    ensures Submit(form, id, addedAt).Added? ==> r.items == cart.items + [Submit(form, id, addedAt).item]
    ensures !Submit(form, id, addedAt).Added? ==> r == cart
  {
    match Submit(form, id, addedAt)
    case Added(item) =>
      Cart.AddAppends(cart, item);
      Cart.Reduce(cart, Cart.AddItem(item))
    case _ => cart
  }

  /** An accepted order raises a consistent cart's subtotal by exactly the form's rupee total. */
  lemma PlaceOrderAddsTotal(cart: Cart.CartState, form: Form, id: string, addedAt: int)
    requires Cart.Consistent(cart)
    requires form.product.basePrice > 0.0 && form.product.url != ""
    ensures var r := PlaceOrder(cart, form, id, addedAt);
      && r.totalItems == cart.totalItems + 1
      && r.subtotalPKR == cart.subtotalPKR + ComputeCosts(form).totalInPKR
      && Cart.Consistent(r)
  {
    var item := Submit(form, id, addedAt).item;
    Cart.AddAppends(cart, item);
  }

  /** The untouched form cannot be submitted: its price is still zero. */
  lemma InitialFormRejected(urlParam: Option<string>, id: string, addedAt: int)
    ensures Submit(InitialForm(urlParam), id, addedAt) == InvalidPrice
  {
  }
}
