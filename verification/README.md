# PakShopper storefront logic in Dafny

PakShopper is a storefront for ordering Pakistani fashion from abroad. A
customer describes a product on the **order form**, picks a quality-control
(QC) tier, a shipping method and a display currency, and the form prices the
order in Pakistani rupees (PKR). Submitting the form adds a line item to the
**cart**. The cart is a reducer over a state that holds the items, the
selected currency and three derived totals. The **payment page** recomputes
an order summary from the cart's items. The **sign-up page** validates a
registration form.

This project models that logic as pure Dafny functions over immutable
datatypes and proves properties about them:

- `wrappers.dfy`: the `Option` type.
- `js.dfy` (module `Js`): the ECMAScript built-ins the code relies on. These
  are array `reduce` as a sum, `||` as a fallback on numbers, `startsWith`,
  `slice`, `trim`, digit stripping and the regular-expression classes `\s`
  and `\d`.
- `catalog.dfy` (module `Catalog`): the fixed QC, shipping and currency
  tables. The order form declares all three; the payment page repeats the
  shipping and currency tables, and the cart page the currency table. The
  copies are identical, so each is defined once here. The cart's keyed rate
  lookup and the pages' list lookup are both modelled and proved to agree.
- `cart.dfy` (module `Cart`): the cart state, its six actions plus
  `Unrecognised` for any other tag, the reducer and `calculateCartTotals`.
- `order_form.dfy` (module `OrderForm`): cost derivation and the submit
  guard.
- `payment.dfy` (module `Payment`): the checkout summary and the delivery
  estimate.
- `signup.dfy` (module `Signup`): phone entry, password rule and strength
  meter, the e-mail pattern, and form validity.

Money is `real`. JavaScript numbers are IEEE doubles; the model works with
the exact values of their decimal literals, so `0.0036 * 6750` is exactly
`24.3`. An action type the reducer does not know is the `Unrecognised`
action. Random ids and
clock readings are inputs: `Submit` takes the generated `id` and `addedAt`
as parameters.

## Model

| member | source | states |
|---|---|---|
| Catalog.QcOptionsTable | frontend/app/order-form/page.tsx:68-84 | Three QC options, ordered standard, detailed, premium, with fees 0, 500 and 1000, none negative |
| Catalog.FindShipping | frontend/app/order-form/page.tsx:105 | `find` returns a listed option with the id that no earlier option shares, and returns nothing exactly when no option has it |
| Catalog.ShippingCost | frontend/app/order-form/page.tsx:105 | The body is the definition, `find(...)?.cost \|\| 0`; `ShippingCostTable` gives its value for every method |
| Catalog.ShippingCostTable | frontend/app/order-form/page.tsx:86-90 | Standard costs 1500, express 2500, premium 3500; any other method costs 0; no cost is negative |
| Catalog.FindCurrency | frontend/app/order-form/page.tsx:100 | `find` returns a listed currency with that code that no earlier currency shares, and returns nothing exactly when none is listed |
| Catalog.PageRate | frontend/app/order-form/page.tsx:100-108 | The body is the definition, `find(...)?.rate \|\| 1`; `PageRateTable` gives its value for every code |
| Catalog.CartRate | frontend/contexts/CartContext.tsx:125 | The body is the definition, `currencyRates[code] \|\| 1`; `RateTable` gives its value for every code |
| Catalog.RateTable | frontend/contexts/CartContext.tsx:117-125 | The reducer's rate is 0.0036, 0.0033, 0.0028, 0.0049 or 0.0055 for USD, EUR, GBP, CAD, AUD; 1 for any other code; always positive |
| Catalog.PageRateTable | frontend/app/order-form/page.tsx:92-100 | The pages' list lookup gives the same five rates, and 1 for an unlisted code |
| Catalog.RatesAgree | frontend/app/payment/page.tsx:36-37 | The pages' list lookup and the reducer's keyed lookup agree on every code |
| Js.Sum | frontend/contexts/CartContext.tsx:114 | The body is the definition, `reduce((sum, x) => sum + f(x), 0)` as a left fold; `SumAppend`, `SumPointwise`, `SumScale` and `SumCongruent` are its partner lemmas |
| Js.SumAppend | frontend/app/payment/page.tsx:28-33 | The sum over a concatenation is the sum of the two sums |
| Js.SumSingle | frontend/contexts/CartContext.tsx:114 | A one-element sum is that element's term |
| Js.SumPointwise | frontend/app/payment/page.tsx:28-34 | Summing a pointwise sum of terms gives the sum of the two sums |
| Js.SumScale | frontend/app/payment/page.tsx:29 | Scaling every term by a constant scales the sum by it |
| Js.SumCongruent | frontend/contexts/CartContext.tsx:114 | Terms that agree on every element give the same sum |
| Js.NumberOr | frontend/contexts/CartContext.tsx:125 | `x \|\| fallback` keeps a nonzero number; `undefined` or 0 gives the fallback |
| Js.IsWhitespace | frontend/app/signup/page.tsx:23 | The body is the definition of `\s`, ECMAScript's WhiteSpace plus LineTerminator by code point, which is also the set `trim` removes (:75, :79, :80) |
| Js.StartsWith | frontend/app/signup/page.tsx:45 | The body is the definition of `startsWith`, the input's prefix of the code's length is the code |
| Js.Slice | frontend/app/signup/page.tsx:48 | `slice(n)` keeps what follows the first `n` characters, and gives `''` past the end |
| Js.Contains | frontend/app/signup/page.tsx:58-60 | The body is the definition of `/[...]/.test` for a one-character class (`\d`, `[A-Z]`, `[^A-Za-z0-9]`), some character is in the class |
| Js.DigitsOnly | frontend/app/signup/page.tsx:50 | The result is all digits and no longer than the input; with the next three lemmas this pins `replace(/[^0-9]/g, '')` |
| Js.DigitsOnlyOfNonDigits | frontend/app/signup/page.tsx:50 | A string with no digit is removed entirely |
| Js.DigitsOnlyAppend | frontend/app/signup/page.tsx:50 | Stripping non-digits distributes over concatenation |
| Js.DigitsOnlyOfDigits | frontend/app/signup/page.tsx:50 | A string of digits is left as it is |
| Js.TrimStart | frontend/app/signup/page.tsx:75 | Removes exactly the leading whitespace: the result is a suffix, every removed character is whitespace, and the result does not start with whitespace |
| Js.TrimEnd | frontend/app/signup/page.tsx:75 | Removes exactly the trailing whitespace, the mirror image of `TrimStart` |
| Js.Trim | frontend/app/signup/page.tsx:75 | The body is the definition, `trimEnd` after `trimStart`, as `trim()` at :75, :79 and :80 |
| Js.TrimNonEmpty | frontend/app/signup/page.tsx:75 | `trim().length > 0` holds exactly when the string has a non-whitespace character |
| Cart.Consistent | frontend/contexts/CartContext.tsx:112-134 | The body is the definition of the invariant `calculateCartTotals` establishes: the count, the rupee sum and its conversion at the keyed rate match the items |
| Cart.CalculateTotals | frontend/contexts/CartContext.tsx:112-134 | The result is consistent: count, rupee sum and converted sum match the items. Items and currency are kept |
| Cart.CalculateTotalsFixesConsistent | frontend/contexts/CartContext.tsx:112-134 | Recomputing leaves a state unchanged exactly when it is already consistent |
| Cart.UpdateItems | frontend/contexts/CartContext.tsx:72-76 | Same length; each item with the id has the patch merged in, and every other item is unchanged |
| Cart.RemoveItems | frontend/contexts/CartContext.tsx:83 | Survivors do not carry the id, are drawn from the input, and include every item with another id |
| Cart.Reduce | frontend/contexts/CartContext.tsx:62-110 | Load returns its payload and an unknown action returns the state. Every other action yields a consistent state. Only set-currency and load change the currency |
| Cart.InitialConsistent | frontend/contexts/CartContext.tsx:54-60 | The initial cart is empty, in USD and consistent |
| Cart.ReducePreservesConsistent | frontend/contexts/CartContext.tsx:62-110 | Consistency is kept by every action but load; after a load the state is consistent exactly when the payload is |
| Cart.RecomputedTotals | frontend/contexts/CartContext.tsx:112-134 | After add, update, remove or set-currency, the subtotal is the sum of item totals, converted at the table rate; an unlisted currency leaves it unconverted |
| Cart.AddAppends | frontend/contexts/CartContext.tsx:64-69 | Adding appends the item at the end; count and rupee subtotal each grow by that item |
| Cart.UpdateTouchesOnlyMatching | frontend/contexts/CartContext.tsx:71-80 | Update merges the patch into exactly the items with the id; an absent id changes no item |
| Cart.Merge | frontend/contexts/CartContext.tsx:74 | The body is the definition of `{ ...item, ...updates }` field by field; `MergeOverridesPresentFields` states its meaning |
| Cart.MergeOverridesPresentFields | frontend/contexts/CartContext.tsx:74 | `{ ...item, ...updates }`: for each of the eight fields, a present field overrides and an absent field keeps the item's value; an empty patch is the identity |
| Cart.RemoveItemsAppend | frontend/contexts/CartContext.tsx:83 | Filtering distributes over concatenation, so survivors keep their order |
| Cart.RemoveItemsSingle | frontend/contexts/CartContext.tsx:83 | A single item is dropped when it carries the id and kept otherwise |
| Cart.RemoveItemsAbsent | frontend/contexts/CartContext.tsx:83 | Removing an id that no item carries leaves the items unchanged |
| Cart.RemoveDropsMatching | frontend/contexts/CartContext.tsx:82-87 | Remove drops every item with the id, keeps every other item, adds none, and keeps the currency |
| Cart.RemoveIdempotent | frontend/contexts/CartContext.tsx:82-87 | Removing the same id twice gives the same state as removing it once |
| Cart.ClearEmpties | frontend/contexts/CartContext.tsx:89-96 | Clear empties the items, zeroes all three totals, keeps the currency, and leaves the state consistent |
| Cart.SetCurrencyChangesOnlyCurrency | frontend/contexts/CartContext.tsx:98-102 | Set-currency keeps the items and reconverts at the new rate. From a consistent state, only the currency and the converted subtotal change |
| Cart.RunAdds | frontend/contexts/CartContext.tsx:64-69 | A run of adds appends all the items in order; count and subtotal grow by their number and their totals, and the state stays consistent |
| Cart.ReducePreservesUniqueIds | frontend/contexts/CartContext.tsx:176-183 | Ids stay distinct under every action, provided an added id is fresh, an update does not rewrite ids, and a loaded cart has distinct ids |
| Cart.RemoveItemsUnique | frontend/contexts/CartContext.tsx:83 | Filtering keeps ids distinct |
| Cart.SessionScenario | frontend/contexts/CartContext.tsx:62-134 | Add 6750, view in USD (24.3), add 1000 (7750 total, 27.9 USD), remove the first (1000), clear (zeros, still USD) |
| OrderForm.InitialForm | frontend/app/order-form/page.tsx:40-59 | The body is the definition of the initial `useState` values; `InitialFormRejected` shows it cannot be submitted |
| OrderForm.ServiceFee | frontend/app/order-form/page.tsx:103 | The fee is never negative; it is one twentieth of a positive price, and 0 otherwise |
| OrderForm.QcFee | frontend/app/order-form/page.tsx:104 | The body is the definition, `selectedQC?.fee \|\| 0`; `QcFeeTable` gives its value for each offered choice |
| OrderForm.QcFeeTable | frontend/app/order-form/page.tsx:104 | An offered tier's fee is 0, 500 or 1000; no QC choice costs 0 |
| OrderForm.ComputeCosts | frontend/app/order-form/page.tsx:102-108 | The rupee total is price plus service, QC and shipping fees; the converted total applies the selected currency's rate |
| OrderForm.TotalCoversPrice | frontend/app/order-form/page.tsx:102-108 | For a non-negative price the total is 1.05 × price plus QC and shipping, so never below the price |
| OrderForm.ConvertedTotal | frontend/app/order-form/page.tsx:108 | The converted total uses the cart's rate; an unlisted currency leaves the total unconverted |
| OrderForm.WorkedExample | frontend/components/Pricing.tsx:25-30 | The advertised example: a 5000 product with standard shipping and no paid QC has a fee of 250 and a total of 6750 |
| OrderForm.Submit | frontend/app/order-form/page.tsx:117-139 | Rejects a non-positive price, then a missing URL, and otherwise adds one item that carries the form's data, its totals, and the given id and time |
| OrderForm.PlaceOrder | frontend/app/order-form/page.tsx:131-139 | An accepted submission appends exactly the submitted item to the cart; a rejected one leaves the cart unchanged |
| OrderForm.PlaceOrderAddsTotal | frontend/app/order-form/page.tsx:131-139 | An accepted order adds one item and raises a consistent cart's subtotal by the form's rupee total |
| OrderForm.InitialFormRejected | frontend/app/order-form/page.tsx:40-59 | The untouched form is rejected for its zero price, whatever the URL parameter |
| Payment.Subtotal | frontend/app/payment/page.tsx:28 | The body is the definition, the sum of the items' base prices |
| Payment.ServiceFee | frontend/app/payment/page.tsx:29 | The body is the definition, the sum of 5% of each price; `ServiceFeeIsFivePercent` relates it to the subtotal |
| Payment.ShippingTotal | frontend/app/payment/page.tsx:30-33 | The body is the definition, the sum of each item's `?.cost \|\| 0`; `ShippingTotalPerItem` states it item by item |
| Payment.FinalTotal | frontend/app/payment/page.tsx:34 | The body is the definition, subtotal plus service fee plus shipping; `FinalTotalOmitsQcFees` relates it to the cart's subtotal |
| Payment.FinalTotalInCurrency | frontend/app/payment/page.tsx:36-37 | The body is the definition, the final total at the list rate; `FinalTotalInCurrencyRate` relates it to the cart's rate |
| Payment.EstimatedDelivery | frontend/app/payment/page.tsx:39-41 | `'-'` exactly when the cart is empty. Otherwise the days of the first item's shipping option, or `undefined` exactly when its method names no option |
| Payment.EmptyCartSummary | frontend/app/payment/page.tsx:28-41 | An empty cart shows zeros everywhere and `'-'` for delivery |
| Payment.ServiceFeeIsFivePercent | frontend/app/payment/page.tsx:29 | The page's service fee is one twentieth of its subtotal |
| Payment.ShippingTotalPerItem | frontend/app/payment/page.tsx:30-33 | Each item adds its method's listed cost, or nothing for an unknown method; the total is never negative |
| Payment.ShippingTotalNonNegative | frontend/app/payment/page.tsx:30-33 | The shipping total is never negative |
| Payment.FinalTotalPerItem | frontend/app/payment/page.tsx:34 | The final total is the per-item sum of price, 5% fee and shipping |
| Payment.FinalTotalInCurrencyRate | frontend/app/payment/page.tsx:36-37 | The converted total uses the cart's rate; an unlisted currency leaves it unconverted |
| Payment.SubmittedItemsArePriced | frontend/app/order-form/page.tsx:102-139 | Every item the order form adds has a positive price and a rupee total made of price, fee, QC fee and shipping |
| Payment.ItemTotalSplits | frontend/app/payment/page.tsx:34 | For a form-priced item, the stored total is the page's contribution plus the QC fee |
| Payment.FinalTotalOmitsQcFees | frontend/app/payment/page.tsx:34 | For form-priced items, the page's total plus the QC fees equals the cart's rupee subtotal |
| Payment.QcFeeMissingAtCheckout | frontend/app/payment/page.tsx:34 | One premium-QC order: the cart shows 7750 but checkout asks for 6750 |
| Payment.CorrectedTotalMatchesCart | frontend/app/payment/page.tsx:34-37 | With QC fees added back, checkout equals a consistent cart's subtotal, in rupees and converted |
| Signup.FindDialCode | frontend/app/signup/page.tsx:45 | Returns a listed country whose dial code prefixes the input and whose predecessors' codes do not, and nothing exactly when none does |
| Signup.HandlePhoneChange | frontend/app/signup/page.tsx:43-51 | A matched dial code is selected and stripped, and the rest is reduced to its digits. With no match, the code is kept and the whole input is reduced to digits |
| Signup.DialCodesStartWithPlus | frontend/app/signup/page.tsx:15-21 | Every listed dial code starts with `+` |
| Signup.PhoneKeepsAllDigits | frontend/app/signup/page.tsx:43-51 | The input's digits are exactly the matched code's digits followed by the stored number |
| Signup.PhoneIdempotent | frontend/app/signup/page.tsx:43-51 | Re-entering the stored number changes nothing |
| Signup.PhoneExampleBritish | frontend/app/signup/page.tsx:43-51 | `"+44 20"` selects `+44` and stores `"20"` |
| Signup.PhoneExampleNorthAmerican | frontend/app/signup/page.tsx:15-21 | `"+1-55"` selects `+1`, the first listed country with that code, and stores `"55"` |
| Signup.PhoneExampleLocal | frontend/app/signup/page.tsx:43-51 | `"03 1"` keeps the selected code and stores `"031"` |
| Signup.IsPasswordValid | frontend/app/signup/page.tsx:53 | The body is the definition, at least eight characters and a digit; `ValidPasswordNotWeak` and `StrengthMonotone` relate it to the meter |
| Signup.Score | frontend/app/signup/page.tsx:55-60 | The strength score is at most 4 |
| Signup.PasswordStrength | frontend/app/signup/page.tsx:55-64 | Weak exactly when the score is at most 1, Medium exactly when it is 2, Strong exactly when it is 3 or more |
| Signup.ValidPasswordNotWeak | frontend/app/signup/page.tsx:53-64 | A password that passes the validity rule is never rated Weak |
| Signup.StrengthMonotone | frontend/app/signup/page.tsx:53-64 | Appending characters never lowers the score or the rating, and keeps a valid password valid |
| Signup.StrengthExamples | frontend/app/signup/page.tsx:55-64 | `password` is Weak, `password1` Medium, `Password1!` Strong |
| Signup.IsEmail | frontend/app/signup/page.tsx:23 | The body is the executable test (no whitespace, one `@` after the start, a later `.` with a character on each side); `EmailTestMatchesPattern` proves it equivalent to the pattern |
| Signup.EmailTestMatchesPattern | frontend/app/signup/page.tsx:23 | The executable e-mail test accepts exactly the strings that `^[^\s@]+@[^\s@]+\.[^\s@]+$` matches |
| Signup.PatternGivesShape | frontend/app/signup/page.tsx:23 | A string built as `a@b.c` from three `[^\s@]+` words passes the test |
| Signup.AcceptedEmailShape | frontend/app/signup/page.tsx:23 | An accepted address has no whitespace, exactly one `@` not at the start, and a later `.` between two ordinary characters |
| Signup.EmailExamples | frontend/app/signup/page.tsx:23 | `ali@shop.pk` is accepted; `ali@shop` and `a@b@c.d` are rejected |
| Signup.IsFormValid | frontend/app/signup/page.tsx:74-81 | The body is the definition, the seven conjuncts; `FormValidIff` restates them without `trim` |
| Signup.FormValidIff | frontend/app/signup/page.tsx:74-81 | The form is valid exactly when all seven requirements hold. They are: a filled name, an e-mail that matches the pattern, a valid password, a matching confirmation, a filled phone, a filled country, and accepted terms |
| Signup.HandleSubmit | frontend/app/signup/page.tsx:83-87 | Submission is ignored exactly when the form is invalid. An accepted submission has a pattern-matching e-mail, a confirmed password, and a password rated above Weak |

## Left out

- Persisting the cart to `localStorage` and reloading it as JSON (`frontend/contexts/CartContext.tsx:151-174`). This is browser I/O. The reload reaches the reducer as the `LoadCart` action, whose payload is any state.
- Generating ids and timestamps (`frontend/contexts/CartContext.tsx:176-183`). These depend on the clock and randomness, so they are inputs to `Submit`. `addedAt` is an integer time stamp.
- React rendering, routing, the `alert` calls and event objects. Each outcome of the two submit handlers is named instead: `InvalidPrice` and `MissingUrl` for the order form's alerts, `AccountCreated` for the sign-up alert, and `Ignored` for the sign-up form's silent return.
- IEEE-754 rounding, `NaN`, `toFixed` and `toLocaleString`. Money is an exact `real`. The price guard `!basePrice || basePrice <= 0` is read as `basePrice == 0 || basePrice <= 0`, because the model has no `NaN`.
- Inherited keys of the reducer's rate object (`frontend/contexts/CartContext.tsx:117-125`). A code such as `"toString"` would find a prototype member there. The model treats every code outside the five as unlisted.
- UTF-16 code units. Strings are sequences of code points, so `length` and `slice` on astral characters are not modelled.
- An update whose `Partial<CartItem>` spells a field as explicitly `undefined`. `ItemPatch` models a field only as present or absent.
- The order form's `image` field, which no computation reads. A measurements `File` is an opaque handle (`FileRef`).
- The cart page, log-in, the back end and the marketing components, except the pricing example they advertise. These are outside the modelled logic.
- Cart.SetCurrencyChangesOnlyCurrency: from an inconsistent state, the source's set-currency also rewrites the count and the rupee subtotal. So "only the currency changes" is stated for consistent states, and the items-kept part is stated for all states.
- Cart.ReducePreservesUniqueIds: uniqueness rests on the generated id being fresh and on updates not rewriting `id`. The source assumes both and guarantees neither, so the lemma takes them as preconditions.

## Findings

| source | as written | input that shows it | evidently intended | confidence | as-written member | corrected member |
|---|---|---|---|---|---|---|
| frontend/app/payment/page.tsx:34 | `finalTotal` adds price, 5% fee and shipping, but not the quality-control fee the order form charged | One 5000-rupee item with premium QC (1000) and standard shipping: the cart shows 7750, checkout asks for 6750 | Checkout charges the cart's subtotal, including each item's QC fee | medium, not executed | Payment.QcFeeMissingAtCheckout | Payment.CorrectedTotalMatchesCart |
