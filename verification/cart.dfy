/**
 * The cart store: line items, the selected display currency and three derived
 * totals, changed only through a pure reducer over six actions, plus
 * `Unrecognised` for any other tag. Every action that edits the items or the
 * currency recomputes the derived totals; clearing zeroes them; loading
 * replaces the whole state with a stored one.
 */
module Cart {
  import opened Wrappers
  import Js
  import Catalog

  // ------------------------------------------------------------ data model

  datatype ProductData = ProductData(name: string, brand: string, url: string, basePrice: real, currency: string)

  /** An attached measurements file, kept as an opaque handle. */
  datatype FileRef = FileRef(handle: nat)

  datatype OrderDetails = OrderDetails(
    size: string,
    quantity: int,
    color: string,
    specialInstructions: string,
    customMeasurements: Option<FileRef>)

  /**
   * One line of the cart. `addedAt` is a timestamp in milliseconds; the two
   * totals are computed by whoever creates the item and never by the cart.
   */
  datatype CartItem = CartItem(
    id: string,
    productData: ProductData,
    orderDetails: OrderDetails,
    selectedQC: Option<Catalog.QualityControl>,
    shippingMethod: string,
    addedAt: int,
    totalInPKR: real,
    totalInSelectedCurrency: real)

  datatype CartState = CartState(
    items: seq<CartItem>,
    selectedCurrency: string,
    totalItems: int,
    subtotalPKR: real,
    subtotalSelectedCurrency: real)

  /** A `Partial<CartItem>`: the fields present in an update, each replacing the item's own. */
  datatype ItemPatch = ItemPatch(
    id: Option<string>,
    productData: Option<ProductData>,
    orderDetails: Option<OrderDetails>,
    selectedQC: Option<Option<Catalog.QualityControl>>,
    shippingMethod: Option<string>,
    addedAt: Option<int>,
    totalInPKR: Option<real>,
    totalInSelectedCurrency: Option<real>)

  /** The reducer's actions; `Unrecognised` stands for any other `type` tag reaching it. */
  datatype CartAction =
    | AddItem(item: CartItem)
    | UpdateItem(id: string, updates: ItemPatch)
    | RemoveItem(id: string)
    | ClearCart
    | SetCurrency(code: string)
    | LoadCart(state: CartState)
    | Unrecognised(tag: string)

  /** The empty cart the store starts from. */
  const Initial: CartState := CartState([], "USD", 0, 0.0, 0.0)

  // --------------------------------------------------------- derived totals

  /** An item's rupee total, as a function value to sum. */
  function ItemTotal(item: CartItem): real
  {
    item.totalInPKR
  }

  /** The sum of the items' rupee totals. */
  function SubtotalPKR(items: seq<CartItem>): real
  {
    Js.Sum(items, ItemTotal)
  }

  /** The derived fields agree with the items and the selected currency. */
  predicate Consistent(s: CartState)
  {
    && s.totalItems == |s.items|
    && s.subtotalPKR == SubtotalPKR(s.items)
    && s.subtotalSelectedCurrency == Catalog.Convert(s.subtotalPKR, Catalog.CartRate(s.selectedCurrency))
  }

  /** `calculateCartTotals`: recompute the three derived fields from the items and currency. */
  function CalculateTotals(s: CartState): (r: CartState)
    ensures Consistent(r)
    ensures r.items == s.items && r.selectedCurrency == s.selectedCurrency
  {
    var subtotal := SubtotalPKR(s.items);
    s.(totalItems := |s.items|,
       subtotalPKR := subtotal,
       subtotalSelectedCurrency := Catalog.Convert(subtotal, Catalog.CartRate(s.selectedCurrency)))
  }

  /** Recomputing leaves a consistent state exactly as it was. */
  lemma CalculateTotalsFixesConsistent(s: CartState)
    ensures CalculateTotals(s) == s <==> Consistent(s)
  {
  }

  // ------------------------------------------------------- item operations

  /** `{ ...item, ...updates }`. */
  function Merge(item: CartItem, patch: ItemPatch): CartItem
  {
    CartItem(
      patch.id.GetOr(item.id),
      patch.productData.GetOr(item.productData),
      patch.orderDetails.GetOr(item.orderDetails),
      patch.selectedQC.GetOr(item.selectedQC),
      patch.shippingMethod.GetOr(item.shippingMethod),
      patch.addedAt.GetOr(item.addedAt),
      patch.totalInPKR.GetOr(item.totalInPKR),
      patch.totalInSelectedCurrency.GetOr(item.totalInSelectedCurrency))
  }

  /** `items.map(item => item.id === id ? { ...item, ...updates } : item)`. */
  function UpdateItems(items: seq<CartItem>, id: string, patch: ItemPatch): (r: seq<CartItem>)
    ensures |r| == |items|
    ensures forall k | 0 <= k < |items| :: r[k] == if items[k].id == id then Merge(items[k], patch) else items[k]
  {
    seq(|items|, k requires 0 <= k < |items| => if items[k].id == id then Merge(items[k], patch) else items[k])
  }

  /** `items.filter(item => item.id !== id)`. */
  function RemoveItems(items: seq<CartItem>, id: string): (r: seq<CartItem>)
    ensures forall k | 0 <= k < |r| :: r[k].id != id
    ensures forall k | 0 <= k < |r| :: r[k] in items
    ensures forall k | 0 <= k < |items| :: items[k].id != id ==> items[k] in r
    decreases |items|
  {
    if |items| == 0 then []
    else if items[0].id != id then [items[0]] + RemoveItems(items[1..], id)
    else RemoveItems(items[1..], id)
  }

  /** No id is carried by more than one item. */
  predicate UniqueIds(items: seq<CartItem>)
  {
    forall i, j | 0 <= i < j < |items| :: items[i].id != items[j].id
  }

  /** No item carries `id`. */
  predicate Absent(items: seq<CartItem>, id: string)
  {
    forall k | 0 <= k < |items| :: items[k].id != id
  }

  // --------------------------------------------------------------- reducer

  /** `cartReducer`. */
  function Reduce(s: CartState, a: CartAction): (r: CartState)
    ensures a.LoadCart? ==> r == a.state
    ensures a.Unrecognised? ==> r == s
    ensures !a.LoadCart? && !a.Unrecognised? ==> Consistent(r)
    ensures !a.SetCurrency? && !a.LoadCart? ==> r.selectedCurrency == s.selectedCurrency
  {
    match a
    case AddItem(item) => CalculateTotals(s.(items := s.items + [item]))
    case UpdateItem(id, patch) => CalculateTotals(s.(items := UpdateItems(s.items, id, patch)))
    case RemoveItem(id) => CalculateTotals(s.(items := RemoveItems(s.items, id)))
    case ClearCart => s.(items := [], totalItems := 0, subtotalPKR := 0.0, subtotalSelectedCurrency := 0.0)
    case SetCurrency(code) => CalculateTotals(s.(selectedCurrency := code))
    case LoadCart(payload) => payload
    case Unrecognised(_) => s
  }

  /** The state after dispatching `actions` in order. */
  function Run(s: CartState, actions: seq<CartAction>): CartState
    decreases |actions|
  {
    if |actions| == 0 then s else Run(Reduce(s, actions[0]), actions[1..])
  }

  // ------------------------------------------------------------ properties

  /** The empty cart is consistent. */
  lemma InitialConsistent()
    ensures Consistent(Initial) && Initial.items == [] && Initial.selectedCurrency == "USD"
  {
  }

  /**
   * Consistency is an invariant of every action but a load, and a load yields
   * a consistent state exactly when its payload is one.
   */
  lemma ReducePreservesConsistent(s: CartState, a: CartAction)
    requires Consistent(s)
    ensures !a.LoadCart? ==> Consistent(Reduce(s, a))
    ensures a.LoadCart? ==> (Consistent(Reduce(s, a)) <==> Consistent(a.state))
  {
  }

  /** After any recomputing action the subtotals are the item sum and its conversion at the table rate. */
  lemma RecomputedTotals(s: CartState, a: CartAction)
    requires a.AddItem? || a.UpdateItem? || a.RemoveItem? || a.SetCurrency?
    ensures var r := Reduce(s, a);
      && r.totalItems == |r.items|
      && r.subtotalPKR == SubtotalPKR(r.items)
      && r.subtotalSelectedCurrency == Catalog.Convert(r.subtotalPKR, Catalog.CartRate(r.selectedCurrency))
      && (r.selectedCurrency !in Catalog.CurrencyCodes ==> r.subtotalSelectedCurrency == r.subtotalPKR)
  {
    var r := Reduce(s, a);
    var rate := Catalog.CartRate(r.selectedCurrency);
    assert r.subtotalSelectedCurrency == Catalog.Convert(r.subtotalPKR, rate);
    if r.selectedCurrency !in Catalog.CurrencyCodes {
      Catalog.RateTable(r.selectedCurrency);
      assert rate == 1.0;
    }
  }

  /** Adding appends the item behind the existing ones and raises the count and subtotal by the item. */
  lemma AddAppends(s: CartState, item: CartItem)
    ensures var r := Reduce(s, AddItem(item));
      && r.items == s.items + [item]
      && r.totalItems == |s.items| + 1
      && r.selectedCurrency == s.selectedCurrency
      && r.subtotalPKR == SubtotalPKR(s.items) + item.totalInPKR
      && (Consistent(s) ==> r.totalItems == s.totalItems + 1 && r.subtotalPKR == s.subtotalPKR + item.totalInPKR)
  {
    Js.SumAppend(s.items, [item], ItemTotal);
    assert Js.Sum([item], ItemTotal) == item.totalInPKR by {
      assert [item][..0] == [];
    }
  }

  /** Updating merges the patch into exactly the items carrying the id and leaves the others as they were. */
  lemma UpdateTouchesOnlyMatching(s: CartState, id: string, patch: ItemPatch)
    ensures var r := Reduce(s, UpdateItem(id, patch));
      && |r.items| == |s.items|
      && r.selectedCurrency == s.selectedCurrency
      && (forall k | 0 <= k < |s.items| && s.items[k].id != id :: r.items[k] == s.items[k])
      && (forall k | 0 <= k < |s.items| && s.items[k].id == id :: r.items[k] == Merge(s.items[k], patch))
      && (Absent(s.items, id) ==> r.items == s.items)
  {
  }

  /** A patch overrides the fields it carries and no others. */
  lemma MergeOverridesPresentFields(item: CartItem, patch: ItemPatch)
    ensures var m := Merge(item, patch);
      && (patch.id.None? ==> m.id == item.id)
      && (patch.id.Some? ==> m.id == patch.id.value)
      && (patch.productData.None? ==> m.productData == item.productData)
      && (patch.productData.Some? ==> m.productData == patch.productData.value)
      && (patch.orderDetails.None? ==> m.orderDetails == item.orderDetails)
      && (patch.orderDetails.Some? ==> m.orderDetails == patch.orderDetails.value)
      && (patch.selectedQC.None? ==> m.selectedQC == item.selectedQC)
      && (patch.selectedQC.Some? ==> m.selectedQC == patch.selectedQC.value)
      && (patch.shippingMethod.None? ==> m.shippingMethod == item.shippingMethod)
      && (patch.shippingMethod.Some? ==> m.shippingMethod == patch.shippingMethod.value)
      && (patch.addedAt.None? ==> m.addedAt == item.addedAt)
      && (patch.addedAt.Some? ==> m.addedAt == patch.addedAt.value)
      && (patch.totalInPKR.None? ==> m.totalInPKR == item.totalInPKR)
      && (patch.totalInPKR.Some? ==> m.totalInPKR == patch.totalInPKR.value)
      && (patch.totalInSelectedCurrency.None? ==> m.totalInSelectedCurrency == item.totalInSelectedCurrency)
      && (patch.totalInSelectedCurrency.Some? ==> m.totalInSelectedCurrency == patch.totalInSelectedCurrency.value)
      && (patch == ItemPatch(None, None, None, None, None, None, None, None) ==> m == item)
  {
  }

  /** Filtering distributes over concatenation, so the kept items stay in their original order. */
  lemma {:induction false} RemoveItemsAppend(a: seq<CartItem>, b: seq<CartItem>, id: string)
    ensures RemoveItems(a + b, id) == RemoveItems(a, id) + RemoveItems(b, id)
    decreases |a|
  {
    if |a| == 0 {
      assert a + b == b;
    } else {
      assert (a + b)[1..] == a[1..] + b;
      RemoveItemsAppend(a[1..], b, id);
    }
  }

  /** A single item is dropped when it carries the id and kept otherwise. */
  lemma RemoveItemsSingle(x: CartItem, id: string)
    ensures RemoveItems([x], id) == if x.id == id then [] else [x]
  {
    assert [x][1..] == [];
  }

  /** Removing an id no item carries leaves the items as they are. */
  lemma {:induction false} RemoveItemsAbsent(items: seq<CartItem>, id: string)
    requires Absent(items, id)
    ensures RemoveItems(items, id) == items
    decreases |items|
  {
    if |items| > 0 {
      RemoveItemsAbsent(items[1..], id);
      assert items == [items[0]] + items[1..];
    }
  }

  /** Removing keeps exactly the items with another id, in order, and drops every match. */
  lemma RemoveDropsMatching(s: CartState, id: string)
    ensures var r := Reduce(s, RemoveItem(id));
      && r.items == RemoveItems(s.items, id)
      && Absent(r.items, id)
      && (forall k | 0 <= k < |s.items| && s.items[k].id != id :: s.items[k] in r.items)
      && (forall x | x in r.items :: x in s.items)
      && r.selectedCurrency == s.selectedCurrency
      && (Absent(s.items, id) ==> r.items == s.items)
  {
    if Absent(s.items, id) {
      RemoveItemsAbsent(s.items, id);
    }
  }

  /** Removing the same id twice gives the state the first removal gave. */
  lemma RemoveIdempotent(s: CartState, id: string)
    ensures Reduce(Reduce(s, RemoveItem(id)), RemoveItem(id)) == Reduce(s, RemoveItem(id))
  {
    var once := Reduce(s, RemoveItem(id));
    RemoveItemsAbsent(once.items, id);
    assert once.(items := RemoveItems(once.items, id)) == once;
    CalculateTotalsFixesConsistent(once);
  }

  /** Clearing empties the items and zeroes the totals, keeping the currency. */
  lemma ClearEmpties(s: CartState)
    ensures var r := Reduce(s, ClearCart);
      && r.items == [] && r.totalItems == 0 && r.subtotalPKR == 0.0 && r.subtotalSelectedCurrency == 0.0
      && r.selectedCurrency == s.selectedCurrency
      && Consistent(r)
  {
  }

  /**
   * Changing currency changes only the currency and the converted subtotal,
   * provided the state was consistent; in any state it leaves the items alone.
   */
  lemma SetCurrencyChangesOnlyCurrency(s: CartState, code: string)
    ensures var r := Reduce(s, SetCurrency(code));
      && r.items == s.items
      && r.selectedCurrency == code
      && r.subtotalSelectedCurrency == Catalog.Convert(r.subtotalPKR, Catalog.CartRate(code))
      && (Consistent(s) ==> r.totalItems == s.totalItems && r.subtotalPKR == s.subtotalPKR)
      && (Consistent(s) ==> r == s.(selectedCurrency := code, subtotalSelectedCurrency := Catalog.Convert(s.subtotalPKR, Catalog.CartRate(code))))
  {
  }

  /** The actions dispatched when each item of `items` is added, in order. */
  function Adds(items: seq<CartItem>): (r: seq<CartAction>)
    ensures |r| == |items| && forall k | 0 <= k < |items| :: r[k] == AddItem(items[k])
  {
    seq(|items|, k requires 0 <= k < |items| => AddItem(items[k]))
  }

  /**
   * Adding a run of items appends them all and adds their count and their
   * totals; from the empty cart, `n` additions give `n` items whose rupee
   * totals make up the subtotal.
   */
  lemma {:induction false} RunAdds(s: CartState, items: seq<CartItem>)
    requires Consistent(s)
    ensures var r := Run(s, Adds(items));
      && r.items == s.items + items
      && r.totalItems == s.totalItems + |items|
      && r.subtotalPKR == s.subtotalPKR + SubtotalPKR(items)
      && r.selectedCurrency == s.selectedCurrency
      && Consistent(r)
    decreases |items|
  {
    if |items| == 0 {
      assert s.items + items == s.items;
    } else {
      var s1 := Reduce(s, AddItem(items[0]));
      AddAppends(s, items[0]);
      assert Adds(items)[1..] == Adds(items[1..]);
      RunAdds(s1, items[1..]);
      assert s1.items + items[1..] == s.items + items;
      assert items == [items[0]] + items[1..];
      Js.SumAppend([items[0]], items[1..], ItemTotal);
      assert SubtotalPKR([items[0]]) == items[0].totalInPKR by {
        assert [items[0]][..0] == [];
      }
    }
  }

  /** Dispatching keeps ids distinct when an added item's id is fresh and updates do not rewrite ids. */
  lemma ReducePreservesUniqueIds(s: CartState, a: CartAction)
    requires UniqueIds(s.items)
    requires a.AddItem? ==> Absent(s.items, a.item.id)
    requires a.UpdateItem? ==> a.updates.id.None?
    requires a.LoadCart? ==> UniqueIds(a.state.items)
    ensures UniqueIds(Reduce(s, a).items)
  {
    match a
    case RemoveItem(id) => RemoveItemsUnique(s.items, id);
    case _ =>
  }

  /** Filtering keeps ids distinct. */
  lemma {:induction false} RemoveItemsUnique(items: seq<CartItem>, id: string)
    requires UniqueIds(items)
    ensures UniqueIds(RemoveItems(items, id))
    decreases |items|
  {
    if |items| > 0 {
      RemoveItemsUnique(items[1..], id);
      var rest := RemoveItems(items[1..], id);
      if items[0].id != id {
        forall k | 0 <= k < |rest|
          ensures rest[k].id != items[0].id
        {
          var j :| 0 <= j < |items[1..]| && items[1..][j] == rest[k];
          assert items[j + 1] == rest[k];
        }
      }
    }
  }

  /** An item with the given id and rupee total and otherwise blank fields. */
  function SampleItem(id: string, totalInPKR: real): CartItem
  {
    CartItem(id, ProductData("", "", "", 0.0, "PKR"), OrderDetails("", 1, "", "", None),
             None, "standard", 0, totalInPKR, 0.0)
  }

  const First: CartItem := SampleItem("first", 6750.0)
  const Second: CartItem := SampleItem("second", 1000.0)

  /**
   * A session from the empty cart: add a 6750-rupee item, switch to US dollars,
   * add a 1000-rupee item, remove the first, clear.
   */
  lemma SessionScenario()
    ensures var s1 := Reduce(Initial, AddItem(First));
      var s2 := Reduce(s1, SetCurrency("USD"));
      var s3 := Reduce(s2, AddItem(Second));
      var s4 := Reduce(s3, RemoveItem("first"));
      var s5 := Reduce(s4, ClearCart);
      && s1.totalItems == 1 && s1.subtotalPKR == 6750.0
      && s2.subtotalSelectedCurrency == 24.3
      && s3.totalItems == 2 && s3.subtotalPKR == 7750.0 && s3.subtotalSelectedCurrency == 27.9
      && s4.items == [Second] && s4.subtotalPKR == 1000.0
      && s5.totalItems == 0 && s5.subtotalPKR == 0.0 && s5.subtotalSelectedCurrency == 0.0
      && s5.selectedCurrency == "USD"
  {
    ScenarioFirstAdd();
    ScenarioSecondAdd();
    ScenarioRemove();
  }

  /** First step of `SessionScenario`: the first add, then switching to the currency already selected. */
  lemma ScenarioFirstAdd()
    ensures Reduce(Initial, AddItem(First)) == CartState([First], "USD", 1, 6750.0, 24.3)
    ensures Reduce(Reduce(Initial, AddItem(First)), SetCurrency("USD")) == Reduce(Initial, AddItem(First))
  {
    AddAppends(Initial, First);
  }

  /** Second step of `SessionScenario`: the second add. */
  lemma ScenarioSecondAdd()
    ensures Reduce(CartState([First], "USD", 1, 6750.0, 24.3), AddItem(Second))
            == CartState([First, Second], "USD", 2, 7750.0, 27.9)
  {
    Js.SumSingle(First, ItemTotal);
    AddAppends(CartState([First], "USD", 1, 6750.0, 24.3), Second);
  }

  /** Third step of `SessionScenario`: removing the first item. */
  lemma ScenarioRemove()
    ensures Reduce(CartState([First, Second], "USD", 2, 7750.0, 27.9), RemoveItem("first"))
            == CartState([Second], "USD", 1, 1000.0, 3.6)
  {
    assert First.id == "first" && Second.id != "first";
    RemoveItemsAppend([First], [Second], "first");
    RemoveItemsSingle(First, "first");
    RemoveItemsSingle(Second, "first");
    assert [First, Second] == [First] + [Second];
    AddAppends(CartState([], "USD", 0, 0.0, 0.0), Second);
  }
}
