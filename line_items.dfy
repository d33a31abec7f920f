/**
 * The commercetools cart as the Klarna make-payment handler reads it, the
 * provider (Adyen) line item it produces, and the mapping between the two
 * (`createLineItems` and its three item builders).
 */
module LineItems {
  import opened Wrappers
  import opened Localization

  /** Adyen expresses tax percentages in minor units: 19% is 1900. */
  const AdyenPercentageMinorUnit: real := 10000.0
  const DefaultLineItemName: string := "item"
  const DefaultShippingMethodDescription: string := "shipping"

  /** A tax rate's `amount` is a fraction, such as 0.19. */
  datatype TaxRate = TaxRate(amount: real)
  datatype Money = Money(centAmount: int)
  datatype Price = Price(value: Money)
  datatype ProductVariant = ProductVariant(sku: string)

  datatype LineItem = LineItem(
    variant: ProductVariant,
    quantity: int,
    name: LocalizedString,
    price: Price,
    taxRate: Option<TaxRate>)

  datatype CustomLineItem = CustomLineItem(
    id: string,
    quantity: int,
    name: LocalizedString,
    money: Money,
    taxRate: Option<TaxRate>)

  /** An expanded shipping method; an absent `localizedDescription` is the empty localized string. */
  datatype ShippingMethod = ShippingMethod(localizedDescription: LocalizedString, description: Option<string>)

  /** A reference to a shipping method; `obj` is present only when the reference was expanded. */
  datatype ShippingMethodReference = ShippingMethodReference(obj: Option<ShippingMethod>)

  datatype ShippingInfo = ShippingInfo(
    shippingMethodName: string,
    price: Money,
    taxRate: Option<TaxRate>,
    shippingMethod: Option<ShippingMethodReference>)

  datatype Cart = Cart(
    locale: Option<string>,
    lineItems: seq<LineItem>,
    customLineItems: seq<CustomLineItem>,
    shippingInfo: Option<ShippingInfo>)

  /** A line item of the provider's payment request. */
  datatype ProviderLineItem = ProviderLineItem(
    id: string,
    quantity: int,
    description: string,
    amountIncludingTax: int,
    taxPercentage: real)

  /** A localized name's description: one of its texts, or the default name when it has none. */
  predicate DescribesName(name: LocalizedString, description: string) {
    if |name| == 0 then description == DefaultLineItemName
    else exists i :: 0 <= i < |name| && name[i].1 == description
  }

  /** `_createAdyenLineItemFromLineItem`. */
  function FromLineItem(item: LineItem, locales: seq<string>): (r: ProviderLineItem)
    requires item.taxRate.Some?
    ensures r.id == item.variant.sku && r.quantity == item.quantity
    ensures r.amountIncludingTax == item.price.value.centAmount
    ensures r.taxPercentage / AdyenPercentageMinorUnit == item.taxRate.value.amount
    ensures DescribesName(item.name, r.description)
  {
    ProviderLineItem(
      item.variant.sku,
      item.quantity,
      LocalizeOrFallback(item.name, locales, Some(DefaultLineItemName)).value,
      item.price.value.centAmount,
      item.taxRate.value.amount * AdyenPercentageMinorUnit)
  }

  /** `_createAdyenLineItemFromCustomLineItem`. */
  function FromCustomLineItem(item: CustomLineItem, locales: seq<string>): (r: ProviderLineItem)
    requires item.taxRate.Some?
    ensures r.id == item.id && r.quantity == item.quantity
    ensures r.amountIncludingTax == item.money.centAmount
    ensures r.taxPercentage / AdyenPercentageMinorUnit == item.taxRate.value.amount
    ensures DescribesName(item.name, r.description)
  {
    ProviderLineItem(
      item.id,
      item.quantity,
      LocalizeOrFallback(item.name, locales, Some(DefaultLineItemName)).value,
      item.money.centAmount,
      item.taxRate.value.amount * AdyenPercentageMinorUnit)
  }

  /**
   * `_getShippingMethodDescription`: for an expanded shipping method its
   * localized description, falling back to its plain description; for an
   * unexpanded one the shipping method name.
   */
  function ShippingMethodDescription(info: ShippingInfo, locales: seq<string>): (r: Option<string>)
    ensures info.shippingMethod.None? || info.shippingMethod.value.obj.None? ==> r == Some(info.shippingMethodName)
    ensures info.shippingMethod.Some? && info.shippingMethod.value.obj.Some? ==>
      var m := info.shippingMethod.value.obj.value;
      if |m.localizedDescription| == 0 then r == m.description
      else r.Some? && exists i :: 0 <= i < |m.localizedDescription| && m.localizedDescription[i].1 == r.value
  {
    if info.shippingMethod.Some? && info.shippingMethod.value.obj.Some? then
      var shippingMethod := info.shippingMethod.value.obj.value;
      LocalizeOrFallback(shippingMethod.localizedDescription, locales, shippingMethod.description)
    else Some(info.shippingMethodName)
  }

  /** `_createShippingInfoAdyenLineItem`: one shipment, described by the shipping method or "shipping". */
  function ShippingItem(info: ShippingInfo, locales: seq<string>): (r: ProviderLineItem)
    requires info.taxRate.Some?
    ensures r.id == info.shippingMethodName && r.quantity == 1
    ensures r.amountIncludingTax == info.price.centAmount
    ensures r.taxPercentage / AdyenPercentageMinorUnit == info.taxRate.value.amount
    ensures r.description != ""
  {
    var description := ShippingMethodDescription(info, locales);
    ProviderLineItem(
      info.shippingMethodName,
      1,
      if NonEmpty(description) then description.value else DefaultShippingMethodDescription,
      info.price.centAmount,
      info.taxRate.value.amount * AdyenPercentageMinorUnit)
  }

  /** Which of the three sources a shipping item's description comes from. */
  lemma ShippingItemDescription(info: ShippingInfo, locales: seq<string>)
    requires info.taxRate.Some?
    ensures var d := ShippingItem(info, locales).description;
      && (info.shippingMethod.None? || info.shippingMethod.value.obj.None? ==>
            d == if info.shippingMethodName != "" then info.shippingMethodName else DefaultShippingMethodDescription)
      && (info.shippingMethod.Some? && info.shippingMethod.value.obj.Some? ==>
            var m := info.shippingMethod.value.obj.value;
            if |m.localizedDescription| == 0 then
              d == if NonEmpty(m.description) then m.description.value else DefaultShippingMethodDescription
            else
              d == DefaultShippingMethodDescription
              || exists i :: 0 <= i < |m.localizedDescription| && m.localizedDescription[i].1 == d)
  {
  }

  /** The "shipping" default is used only when the chosen description is empty or absent. */
  lemma ShippingDefaultOnlyWhenUndescribed(info: ShippingInfo, locales: seq<string>)
    requires info.taxRate.Some?
    ensures ShippingItem(info, locales).description == DefaultShippingMethodDescription <==>
      (!NonEmpty(ShippingMethodDescription(info, locales))
       || ShippingMethodDescription(info, locales) == Some(DefaultShippingMethodDescription))
  {
  }

  /**
   * `entries` filtered by `keep`, in order: the reference definition of
   * "the entries that pass, in their original order", written from the
   * front, independently of the loop-shaped `Taxed` below.
   */
  function Filter<T>(entries: seq<T>, keep: T -> bool): (r: seq<T>)
    ensures |r| <= |entries|
    ensures forall k :: 0 <= k < |r| ==> keep(r[k])
    ensures multiset(r) <= multiset(entries)
  {
    if |entries| == 0 then []
    else
      assert entries == [entries[0]] + entries[1..];
      (if keep(entries[0]) then [entries[0]] else []) + Filter(entries[1..], keep)
  }

  /** No entry that passes is dropped: each occurs in the filtered sequence as often as in the input. */
  lemma {:induction false} FilterComplete<T>(entries: seq<T>, keep: T -> bool, x: T)
    requires keep(x)
    ensures multiset(Filter(entries, keep))[x] == multiset(entries)[x]
  {
    if |entries| > 0 {
      assert entries == [entries[0]] + entries[1..];
      FilterComplete(entries[1..], keep, x);
    }
  }

  /** Filtering distributes over concatenation. */
  lemma {:induction false} FilterAppend<T>(a: seq<T>, b: seq<T>, keep: T -> bool)
    ensures Filter(a + b, keep) == Filter(a, keep) + Filter(b, keep)
  {
    if |a| > 0 {
      assert (a + b)[1..] == a[1..] + b;
      FilterAppend(a[1..], b, keep);
    } else {
      assert a + b == b;
    }
  }

  /**
   * One `forEach` loop of `createLineItems`: every entry that `taxed`
   * accepts, built into a provider line item, in order; the others are
   * skipped. Defined from the last entry back, as the loop appends.
   */
  function Taxed<T(!new)>(entries: seq<T>, taxed: T -> bool, build: T --> ProviderLineItem): (r: seq<ProviderLineItem>)
    requires forall x :: taxed(x) ==> build.requires(x)
    ensures |r| <= |entries|
  {
    if |entries| == 0 then []
    else
      var last := entries[|entries| - 1];
      Taxed(entries[..|entries| - 1], taxed, build) + (if taxed(last) then [build(last)] else [])
  }

  lemma {:induction false} TaxedAppend<T(!new)>(a: seq<T>, b: seq<T>, taxed: T -> bool, build: T --> ProviderLineItem)
    requires forall x :: taxed(x) ==> build.requires(x)
    ensures Taxed(a + b, taxed, build) == Taxed(a, taxed, build) + Taxed(b, taxed, build)
  {
    if |b| > 0 {
      assert (a + b)[..|a + b| - 1] == a + b[..|b| - 1];
      TaxedAppend(a, b[..|b| - 1], taxed, build);
    } else {
      assert a + b == a;
    }
  }

  /** The loop's output is exactly the taxed entries, filtered then built, position by position. */
  lemma {:induction false} TaxedIsBuiltFilter<T(!new)>(entries: seq<T>, taxed: T -> bool, build: T --> ProviderLineItem)
    requires forall x :: taxed(x) ==> build.requires(x)
    ensures |Taxed(entries, taxed, build)| == |Filter(entries, taxed)|
    ensures forall k :: 0 <= k < |Filter(entries, taxed)| ==>
      Taxed(entries, taxed, build)[k] == build(Filter(entries, taxed)[k])
  {
    if |entries| > 0 {
      var init, last := entries[..|entries| - 1], entries[|entries| - 1];
      assert entries == init + [last];
      FilterAppend(init, [last], taxed);
      TaxedIsBuiltFilter(init, taxed, build);
    }
  }

  /** Dropping an untaxed entry does not change the loop's output. */
  lemma UntaxedEntryIgnored<T(!new)>(a: seq<T>, x: T, b: seq<T>, taxed: T -> bool, build: T --> ProviderLineItem)
    requires forall y :: taxed(y) ==> build.requires(y)
    requires !taxed(x)
    ensures Taxed(a + [x] + b, taxed, build) == Taxed(a + b, taxed, build)
  {
    TaxedAppend(a + [x], b, taxed, build);
    TaxedAppend(a, [x], taxed, build);
    TaxedAppend(a, b, taxed, build);
    assert Taxed([x], taxed, build) == [] by {
      assert [x][..0] == [];
    }
  }

  predicate IsTaxedLineItem(item: LineItem) { item.taxRate.Some? }
  predicate IsTaxedCustomLineItem(item: CustomLineItem) { item.taxRate.Some? }

  /** The builder the standard line-item loop applies to each taxed entry. */
  function LineItemBuilder(locales: seq<string>): (r: LineItem --> ProviderLineItem) {
    (item: LineItem) requires item.taxRate.Some? => FromLineItem(item, locales)
  }

  /** The builder the custom line-item loop applies to each taxed entry. */
  function CustomLineItemBuilder(locales: seq<string>): (r: CustomLineItem --> ProviderLineItem) {
    (item: CustomLineItem) requires item.taxRate.Some? => FromCustomLineItem(item, locales)
  }

  /** The provider line items of the standard line items of `cart`. */
  function StandardItems(cart: Cart, locales: seq<string>): (r: seq<ProviderLineItem>) {
    Taxed(cart.lineItems, IsTaxedLineItem, LineItemBuilder(locales))
  }

  /** The provider line items of the custom line items of `cart`. */
  function CustomItems(cart: Cart, locales: seq<string>): (r: seq<ProviderLineItem>) {
    Taxed(cart.customLineItems, IsTaxedCustomLineItem, CustomLineItemBuilder(locales))
  }

  predicate HasTaxedShipping(cart: Cart) {
    cart.shippingInfo.Some? && cart.shippingInfo.value.taxRate.Some?
  }

  /** The shipping item, present only for taxed shipping info. */
  function ShippingItems(cart: Cart, locales: seq<string>): (r: seq<ProviderLineItem>) {
    if HasTaxedShipping(cart) then [ShippingItem(cart.shippingInfo.value, locales)] else []
  }

  /** `createLineItems` for a given locale preference: standard, then custom, then shipping items. */
  function CartLineItems(cart: Cart, locales: seq<string>): (r: seq<ProviderLineItem>)
    ensures |r| <= |cart.lineItems| + |cart.customLineItems| + (if HasTaxedShipping(cart) then 1 else 0)
    ensures HasTaxedShipping(cart) ==> |r| > 0 && r[|r| - 1] == ShippingItem(cart.shippingInfo.value, locales)
  {
    StandardItems(cart, locales) + CustomItems(cart, locales) + ShippingItems(cart, locales)
  }

  /**
   * The layout of the mapped cart: one item per taxed standard line item in
   * cart order, then one per taxed custom line item in cart order, then the
   * shipping item last when shipping is present and taxed.
   */
  lemma CartLineItemsLayout(cart: Cart, locales: seq<string>)
    ensures var r := CartLineItems(cart, locales);
      var standard := Filter(cart.lineItems, IsTaxedLineItem);
      var custom := Filter(cart.customLineItems, IsTaxedCustomLineItem);
      && |r| == |standard| + |custom| + (if HasTaxedShipping(cart) then 1 else 0)
      && (forall k :: 0 <= k < |standard| ==> r[k] == FromLineItem(standard[k], locales))
      && (forall k :: 0 <= k < |custom| ==> r[|standard| + k] == FromCustomLineItem(custom[k], locales))
      && (HasTaxedShipping(cart) ==> r[|r| - 1] == ShippingItem(cart.shippingInfo.value, locales))
  {
    TaxedIsBuiltFilter(cart.lineItems, IsTaxedLineItem, LineItemBuilder(locales));
    TaxedIsBuiltFilter(cart.customLineItems, IsTaxedCustomLineItem, CustomLineItemBuilder(locales));
  }

  /** A standard line item without a tax rate never contributes to the mapped cart. */
  lemma UntaxedLineItemIgnored(cart: Cart, locales: seq<string>, a: seq<LineItem>, x: LineItem, b: seq<LineItem>)
    requires cart.lineItems == a + [x] + b
    requires x.taxRate.None?
    ensures CartLineItems(cart, locales) == CartLineItems(cart.(lineItems := a + b), locales)
  {
    UntaxedEntryIgnored(a, x, b, IsTaxedLineItem, LineItemBuilder(locales));
  }

  /** A custom line item without a tax rate never contributes to the mapped cart. */
  lemma UntaxedCustomLineItemIgnored(cart: Cart, locales: seq<string>, a: seq<CustomLineItem>, x: CustomLineItem, b: seq<CustomLineItem>)
    requires cart.customLineItems == a + [x] + b
    requires x.taxRate.None?
    ensures CartLineItems(cart, locales) == CartLineItems(cart.(customLineItems := a + b), locales)
  {
    UntaxedEntryIgnored(a, x, b, IsTaxedCustomLineItem, CustomLineItemBuilder(locales));
  }

  /** Shipping info without a tax rate never contributes to the mapped cart. */
  lemma UntaxedShippingIgnored(cart: Cart, locales: seq<string>)
    requires cart.shippingInfo.Some? && cart.shippingInfo.value.taxRate.None?
    ensures CartLineItems(cart, locales) == CartLineItems(cart.(shippingInfo := None), locales)
  {
  }
}
