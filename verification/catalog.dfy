/**
 * The fixed option tables the storefront pages share: quality-control tiers,
 * shipping options and display currencies with their conversion rates from
 * Pakistani rupees (PKR). The order form declares all three tables, the
 * payment page repeats the shipping and currency tables, the cart page repeats
 * the currency table, and the cart reducer holds the rates as an object keyed
 * by code. The copies are identical, so each table is defined once here.
 */
module Catalog {
  import opened Wrappers
  import Js

  // ------------------------------------------------------ quality control

  datatype QcTier = Standard | Detailed | Premium

  datatype QualityControl = QualityControl(tier: QcTier, fee: real, description: string)

  /** The three quality-control options offered on the order form, in display order. */
  const QcOptions: seq<QualityControl> := [
    QualityControl(Standard, 0.0, "Basic quality check with 2-3 photos"),
    QualityControl(Detailed, 500.0, "Comprehensive check with 5-8 detailed photos"),
    QualityControl(Premium, 1000.0, "Premium service with 10+ photos and video inspection")
  ]

  /** The listed fee of a tier. */
  function TierFee(tier: QcTier): real
  {
    match tier
    case Standard => 0.0
    case Detailed => 500.0
    case Premium => 1000.0
  }

  /** One option per tier, in the order standard, detailed, premium, each carrying its tier's non-negative fee. */
  lemma QcOptionsTable()
    ensures |QcOptions| == 3
    ensures QcOptions[0].tier == Standard && QcOptions[1].tier == Detailed && QcOptions[2].tier == Premium
    ensures forall o | o in QcOptions :: o.fee == TierFee(o.tier) && o.fee >= 0.0
  {
  }

  // -------------------------------------------------------------- shipping

  datatype ShippingOption = ShippingOption(id: string, name: string, cost: real, days: string)

  const ShippingOptions: seq<ShippingOption> := [
    ShippingOption("standard", "Standard Shipping", 1500.0, "7-14"),
    ShippingOption("express", "Express Shipping", 2500.0, "3-7"),
    ShippingOption("premium", "Premium Shipping", 3500.0, "2-5")
  ]

  /** `options.find(s => s.id === shippingId)`: the first option carrying that id. */
  function FindShipping(options: seq<ShippingOption>, shippingId: string): (r: Option<ShippingOption>)
    ensures r.Some? ==> r.value in options && r.value.id == shippingId
    ensures r.None? <==> forall k | 0 <= k < |options| :: options[k].id != shippingId
    ensures r.Some? ==> exists i | 0 <= i < |options| ::
      options[i] == r.value && forall j | 0 <= j < i :: options[j].id != shippingId
    decreases |options|
  {
    if |options| == 0 then None
    else if options[0].id == shippingId then Some(options[0])
    else FindShipping(options[1..], shippingId)
  }

  /** `option?.cost`: the cost of an option that was found, `undefined` when none was. */
  function CostOf(found: Option<ShippingOption>): Option<real>
  {
    if found.Some? then Some(found.value.cost) else None
  }

  /** `shippingOptions.find(s => s.id === shippingId)?.cost || 0`. */
  function ShippingCost(shippingId: string): real
  {
    Js.NumberOr(CostOf(FindShipping(ShippingOptions, shippingId)), 0.0)
  }

  /** The cost of each shipping method; a method that names no option costs nothing. */
  lemma ShippingCostTable(shippingId: string)
    ensures shippingId == "standard" ==> ShippingCost(shippingId) == 1500.0
    ensures shippingId == "express" ==> ShippingCost(shippingId) == 2500.0
    ensures shippingId == "premium" ==> ShippingCost(shippingId) == 3500.0
    ensures shippingId !in {"standard", "express", "premium"} ==> ShippingCost(shippingId) == 0.0
    ensures ShippingCost(shippingId) >= 0.0
  {
  }

  // ------------------------------------------------------------ currencies

  datatype Currency = Currency(code: string, symbol: string, rate: real)

  /** An amount in rupees expressed in a currency worth `rate` per rupee. */
  function Convert(amount: real, rate: real): real
  {
    amount * rate
  }

  /** The display currencies offered by the pages, with their rate per rupee. */
  const Currencies: seq<Currency> := [
    Currency("USD", "$", 0.0036),
    Currency("EUR", "€", 0.0033),
    Currency("GBP", "£", 0.0028),
    Currency("CAD", "C$", 0.0049),
    Currency("AUD", "A$", 0.0055)
  ]

  /** The codes of the enumerated display currencies. */
  const CurrencyCodes: set<string> := {"USD", "EUR", "GBP", "CAD", "AUD"}

  /** `currencies.find(c => c.code === code)`: the first currency carrying that code. */
  function FindCurrency(currencies: seq<Currency>, code: string): (r: Option<Currency>)
    ensures r.Some? ==> r.value in currencies && r.value.code == code
    ensures r.None? <==> forall k | 0 <= k < |currencies| :: currencies[k].code != code
    ensures r.Some? ==> exists i | 0 <= i < |currencies| ::
      currencies[i] == r.value && forall j | 0 <= j < i :: currencies[j].code != code
    decreases |currencies|
  {
    if |currencies| == 0 then None
    else if currencies[0].code == code then Some(currencies[0])
    else FindCurrency(currencies[1..], code)
  }

  /** `currencyData?.rate`: the rate of a currency that was found, `undefined` when none was. */
  function RateOf(found: Option<Currency>): Option<real>
  {
    if found.Some? then Some(found.value.rate) else None
  }

  /** `currencies.find(c => c.code === code)?.rate || 1`, as the order form and payment page compute it. */
  function PageRate(code: string): real
  {
    Js.NumberOr(RateOf(FindCurrency(Currencies, code)), 1.0)
  }

  /**
   * The rate table as the cart reducer holds it: an object keyed by code,
   * read as `currencyRates[code] || 1`.
   */
  const CartRates: map<string, real> :=
    map["USD" := 0.0036, "EUR" := 0.0033, "GBP" := 0.0028, "CAD" := 0.0049, "AUD" := 0.0055]

  function CartRate(code: string): real
  {
    Js.NumberOr(if code in CartRates then Some(CartRates[code]) else None, 1.0)
  }

  /** The conversion rate of each enumerated currency; any other code converts at 1. */
  lemma RateTable(code: string)
    ensures code == "USD" ==> CartRate(code) == 0.0036
    ensures code == "EUR" ==> CartRate(code) == 0.0033
    ensures code == "GBP" ==> CartRate(code) == 0.0028
    ensures code == "CAD" ==> CartRate(code) == 0.0049
    ensures code == "AUD" ==> CartRate(code) == 0.0055
    ensures code !in CurrencyCodes ==> CartRate(code) == 1.0
    ensures CartRate(code) > 0.0
  {
  }

  /** The pages' list lookup finds each enumerated currency and nothing for any other code. */
  lemma PageRateTable(code: string)
    ensures code == "USD" ==> PageRate(code) == 0.0036
    ensures code == "EUR" ==> PageRate(code) == 0.0033
    ensures code == "GBP" ==> PageRate(code) == 0.0028
    ensures code == "CAD" ==> PageRate(code) == 0.0049
    ensures code == "AUD" ==> PageRate(code) == 0.0055
    ensures code !in CurrencyCodes ==> PageRate(code) == 1.0
  {
    var cs := Currencies;
    assert cs[0].code == "USD" && cs[1].code == "EUR" && cs[2].code == "GBP";
    assert cs[3].code == "CAD" && cs[4].code == "AUD";
    if code in CurrencyCodes {
      assert FindCurrency(cs, code).Some?;
    } else {
      assert FindCurrency(cs, code).None?;
    }
  }

  /** The pages' list lookup and the reducer's keyed lookup give the same rate for every code. */
  lemma RatesAgree(code: string)
    ensures PageRate(code) == CartRate(code)
  {
    PageRateTable(code);
    RateTable(code);
  }
}
