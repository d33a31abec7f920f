/**
 * The Klarna make-payment handler's `execute`: before the payment is handed
 * to the generic make-payment handler, a request without line items gets the
 * line items of the cart that references the payment.
 *
 * The request is held already parsed; the cart is the result of the cart
 * query (None when no cart references the payment).
 */
module KlarnaMakePayment {
  import opened Wrappers
  import opened Localization
  import opened LineItems

  /**
   * The parsed `makePaymentRequest`: its optional `lineItems` and the rest of
   * its top-level fields, which the handler carries through untouched.
   */
  datatype PaymentRequest = PaymentRequest(
    lineItems: Option<seq<ProviderLineItem>>,
    otherFields: map<string, string>)

  /** The custom fields of a commercetools payment that the handler reads and writes. */
  class Payment {
    var languageCode: Option<string>
    var makePaymentRequest: PaymentRequest

    constructor (languageCode: Option<string>, makePaymentRequest: PaymentRequest)
      ensures this.languageCode == languageCode
      ensures this.makePaymentRequest == makePaymentRequest
    {
      this.languageCode := languageCode;
      this.makePaymentRequest := makePaymentRequest;
    }
  }

  /** `_getLocales`: the payment's language code, else the cart's locale, as a list of at most one. */
  method GetLocales(cart: Cart, payment: Payment) returns (locales: seq<string>)
    ensures locales == PreferredLocales(payment.languageCode, cart.locale)
  {
    locales := [];
    var paymentLanguage := payment.languageCode;
    if !NonEmpty(paymentLanguage) {
      paymentLanguage := cart.locale;
    }
    if NonEmpty(paymentLanguage) {
      locales := locales + [paymentLanguage.value];
    }
  }

  /** `createLineItems`: the taxed standard items, then the taxed custom items, then taxed shipping. */
  method CreateLineItems(payment: Payment, cart: Cart) returns (lineItems: seq<ProviderLineItem>)
    ensures lineItems == CartLineItems(cart, PreferredLocales(payment.languageCode, cart.locale))
  {
    lineItems := [];
    var locales := GetLocales(cart, payment);

    for i := 0 to |cart.lineItems|
      invariant lineItems == Taxed(cart.lineItems[..i], IsTaxedLineItem, LineItemBuilder(locales))
    {
      var item := cart.lineItems[i];
      assert cart.lineItems[..i + 1][..i] == cart.lineItems[..i];
      if item.taxRate.Some? {
        lineItems := lineItems + [FromLineItem(item, locales)];
      }
    }
    assert cart.lineItems[..|cart.lineItems|] == cart.lineItems;
    ghost var standard := lineItems;

    for i := 0 to |cart.customLineItems|
      invariant lineItems == standard + Taxed(cart.customLineItems[..i], IsTaxedCustomLineItem, CustomLineItemBuilder(locales))
    {
      var item := cart.customLineItems[i];
      assert cart.customLineItems[..i + 1][..i] == cart.customLineItems[..i];
      if item.taxRate.Some? {
        lineItems := lineItems + [FromCustomLineItem(item, locales)];
      }
    }
    assert cart.customLineItems[..|cart.customLineItems|] == cart.customLineItems;

    var shippingInfo := cart.shippingInfo;
    if shippingInfo.Some? && shippingInfo.value.taxRate.Some? {
      lineItems := lineItems + [ShippingItem(shippingInfo.value, locales)];
    }
  }

  /**
   * The request `execute` passes on: unchanged when it already has a
   * `lineItems` field (even an empty one) or when no cart matches; otherwise
   * with the cart's line items filled in.
   */
  function Augment(request: PaymentRequest, languageCode: Option<string>, matchingCart: Option<Cart>): (r: PaymentRequest)
    ensures r.otherFields == request.otherFields
    ensures request.lineItems.Some? || matchingCart.None? ==> r == request
    ensures r.lineItems.Some? <==> request.lineItems.Some? || matchingCart.Some?
    ensures request.lineItems.None? && matchingCart.Some? ==>
      r.lineItems == Some(CartLineItems(matchingCart.value, PreferredLocales(languageCode, matchingCart.value.locale)))
  {
    if request.lineItems.None? && matchingCart.Some? then
      var cart := matchingCart.value;
      request.(lineItems := Some(CartLineItems(cart, PreferredLocales(languageCode, cart.locale))))
    else request
  }

  /** A request that already has line items does not depend on the cart lookup at all. */
  lemma AugmentIgnoresCart(request: PaymentRequest, languageCode: Option<string>, cart1: Option<Cart>, cart2: Option<Cart>)
    requires request.lineItems.Some?
    ensures Augment(request, languageCode, cart1) == Augment(request, languageCode, cart2)
  {
  }

  /**
   * Augmenting twice with the same lookup result is augmenting once; once
   * line items are present, no later lookup changes the request.
   */
  lemma AugmentIdempotent(request: PaymentRequest, languageCode: Option<string>, cart1: Option<Cart>, cart2: Option<Cart>)
    ensures var once := Augment(request, languageCode, cart1);
      && Augment(once, languageCode, cart1) == once
      && (once.lineItems.Some? ==> Augment(once, languageCode, cart2) == once)
  {
  }

  /**
   * A cart with one taxed standard line item, one taxed custom line item and
   * taxed shipping yields exactly three line items, in that order.
   */
  lemma AugmentOneOfEach(request: PaymentRequest, languageCode: Option<string>, cart: Cart)
    requires request.lineItems.None?
    requires |cart.lineItems| == 1 && cart.lineItems[0].taxRate.Some?
    requires |cart.customLineItems| == 1 && cart.customLineItems[0].taxRate.Some?
    requires HasTaxedShipping(cart)
    ensures var locales := PreferredLocales(languageCode, cart.locale);
      Augment(request, languageCode, Some(cart)).lineItems == Some([
        FromLineItem(cart.lineItems[0], locales),
        FromCustomLineItem(cart.customLineItems[0], locales),
        ShippingItem(cart.shippingInfo.value, locales)])
  {
    var locales := PreferredLocales(languageCode, cart.locale);
    assert cart.lineItems[..0] == [];
    assert cart.customLineItems[..0] == [];
    assert LineItemBuilder(locales)(cart.lineItems[0]) == FromLineItem(cart.lineItems[0], locales);
    assert CustomLineItemBuilder(locales)(cart.customLineItems[0]) == FromCustomLineItem(cart.customLineItems[0], locales);
    assert StandardItems(cart, locales) == [FromLineItem(cart.lineItems[0], locales)];
    assert CustomItems(cart, locales) == [FromCustomLineItem(cart.customLineItems[0], locales)];
    assert ShippingItems(cart, locales) == [ShippingItem(cart.shippingInfo.value, locales)];
    assert CartLineItems(cart, locales) == [
      FromLineItem(cart.lineItems[0], locales),
      FromCustomLineItem(cart.customLineItems[0], locales),
      ShippingItem(cart.shippingInfo.value, locales)];
  }

  /**
   * `execute` up to the hand-over to the generic make-payment handler: the
   * payment's request is replaced by its augmented form when, and only when,
   * it lacked line items and a cart was found.
   */
  method Execute(payment: Payment, matchingCart: Option<Cart>)
    modifies payment`makePaymentRequest
    ensures payment.makePaymentRequest == Augment(old(payment.makePaymentRequest), payment.languageCode, matchingCart)
  {
    var request := payment.makePaymentRequest;
    if request.lineItems.None? {
      if matchingCart.Some? {
        var lineItems := CreateLineItems(payment, matchingCart.value);
        request := request.(lineItems := Some(lineItems));
        payment.makePaymentRequest := request;
      }
    }
  }

  /**
   * Locale precedence for a line item named in four languages: the payment's
   * language code, then the cart's locale, then the first translation.
   */
  lemma LocalePrecedence(item: LineItem)
    requires item.taxRate.Some?
    requires item.name == [("de", "test-de"), ("fr", "test-fr"), ("at", "test-at"), ("en", "test-en")]
    ensures FromLineItem(item, PreferredLocales(Some("de"), Some("fr"))).description == "test-de"
    ensures FromLineItem(item, PreferredLocales(None, Some("fr"))).description == "test-fr"
    ensures FromLineItem(item, PreferredLocales(Some(""), Some("fr"))).description == "test-fr"
    ensures FromLineItem(item, PreferredLocales(None, None)).description == "test-de"
    ensures FromLineItem(item, PreferredLocales(Some("nonExistingLanguageCode"), None)).description == "test-de"
  {
    LookupAt(item.name, 1);
  }
}
