# Klarna make-payment line items, in Dafny

A model of the Klarna variant of the commercetools–Adyen payment extension's
make-payment handler (`extension/src/paymentHandler/klarna-make-payment.handler.js`).
Before a Klarna payment request is handed to the generic make-payment handler,
`execute` checks whether the parsed request already has a `lineItems` field. If it
has none and a cart references the payment, the cart's contents become Adyen line
items:

- one item per taxed standard line item, in cart order;
- then one per taxed custom line item, in cart order;
- then one shipping item, when the cart has taxed shipping info.

Descriptions come from localized strings. The locale preference is the payment's
`languageCode`, else the cart's `locale`. Failing that, the first translation in
insertion order is used, and for an empty localized string a literal fallback.

Modules, one file each:

- `wrappers.dfy` — `Wrappers`: `Option`, for JavaScript properties that may be absent.
- `localization.dfy` — `Localization`: localized strings as ordered (locale, text)
  pairs with unique keys, `localizedString[key]`, `locales.find`, `_localizeOrFallback`
  and the locale preference of `_getLocales`.
- `line_items.dfy` — `LineItems`: the cart and provider line-item records, the three
  item builders, the shipping description and the specification of `createLineItems`.
- `make_payment.dfy` — `KlarnaMakePayment`: the payment whose request `execute`
  rewrites (a class), the methods `GetLocales` and `CreateLineItems` (the source's
  array-pushing code, proved against the functions above) and `Execute`.

JavaScript truthiness is explicit. For `languageCode`, `locale` and translations, an
empty string counts as absent (`NonEmpty`). For `taxRate` and `lineItems`, only
presence is tested, so a request with `lineItems: []` is left alone. Tax rates are
exact reals, and `taxPercentage` is `taxRate.amount × 10000`.

## Model

| member | source | states |
|---|---|---|
| `Localization.Lookup` | extension/src/paymentHandler/klarna-make-payment.handler.js:128 | `localizedString[key]` is absent exactly when no entry has that key; otherwise it is the text of an entry with that key |
| `Localization.LookupAt` | extension/src/paymentHandler/klarna-make-payment.handler.js:128 | with unique keys, looking up an entry's locale yields that entry's text |
| `Localization.FindLocale` | extension/src/paymentHandler/klarna-make-payment.handler.js:127 | `locales.find` yields the first locale with a non-empty translation, and nothing exactly when no locale has one |
| `Localization.LocalizeOrFallback` | extension/src/paymentHandler/klarna-make-payment.handler.js:124-131 | on an empty localized string the result is the fallback; on a non-empty one it is always one of its texts, never the fallback |
| `Localization.LocalizeTakesFirstTranslated` | extension/src/paymentHandler/klarna-make-payment.handler.js:127-128 | when some preferred locale has a non-empty translation, the first such translation is the result |
| `Localization.LocalizeWithoutTranslation` | extension/src/paymentHandler/klarna-make-payment.handler.js:128 | when no preferred locale has a non-empty translation, the first text in insertion order is the result |
| `Localization.LocalizeOrFallbackAsWritten` | extension/src/paymentHandler/klarna-make-payment.handler.js:124-131 | the code as written, which reads the key "undefined" when no locale matches; it still returns the fallback on empty input and a text of the string otherwise |
| `Localization.AsWrittenAgreesWithoutUndefinedKey` | extension/src/paymentHandler/klarna-make-payment.handler.js:127-128 | the code as written and the corrected selection agree whenever there is no non-empty text under the key "undefined" or some preferred locale has a non-empty translation |
| `Localization.AsWrittenPicksUndefinedKey` | extension/src/paymentHandler/klarna-make-payment.handler.js:127-128 | for a name with an "undefined" entry and no matching locale, the code as written returns that entry's text instead of the first one |
| `Localization.PreferredLocales` | extension/src/paymentHandler/klarna-make-payment.handler.js:64-70 | at most one locale, never empty: the payment's language code if non-empty, else the cart's locale if non-empty, else none |
| `LineItems.FromLineItem` | extension/src/paymentHandler/klarna-make-payment.handler.js:72-84 | id is the variant SKU, quantity and unit cent amount are copied, tax percentage over 10000 is the tax rate, and the description is a text of the name, or "item" only for an empty name |
| `LineItems.FromCustomLineItem` | extension/src/paymentHandler/klarna-make-payment.handler.js:86-98 | id is the custom item's id, quantity and money cent amount are copied, tax percentage over 10000 is the tax rate, and the description is a text of the name, or "item" only for an empty name |
| `LineItems.ShippingItem` | extension/src/paymentHandler/klarna-make-payment.handler.js:100-110 | quantity is always 1, id is the shipping method name, the amount is the shipping price, tax percentage over 10000 is the tax rate, and the description is never empty |
| `LineItems.ShippingMethodDescription` | extension/src/paymentHandler/klarna-make-payment.handler.js:112-122 | an unexpanded method (no reference, or no `obj`) gives the shipping method name; an expanded one with an empty localized description gives its plain description, possibly absent; otherwise one of its localized texts (which one: `LocalizeTakesFirstTranslated`, `LocalizeWithoutTranslation`) |
| `LineItems.ShippingItemDescription` | extension/src/paymentHandler/klarna-make-payment.handler.js:100-122 | an unexpanded method is described by its name; an expanded one by a localized description text, else its plain description; "shipping" otherwise |
| `LineItems.ShippingDefaultOnlyWhenUndescribed` | extension/src/paymentHandler/klarna-make-payment.handler.js:104-106 | the description is "shipping" exactly when the chosen description is empty or absent, or is itself "shipping" |
| `LineItems.Filter` | extension/src/paymentHandler/klarna-make-payment.handler.js:47-55 | the reference definition of the `if (item.taxRate)` selection: only passing entries, taken from the input, in their order |
| `LineItems.FilterComplete` | extension/src/paymentHandler/klarna-make-payment.handler.js:47-55 | no passing entry is dropped: it occurs in the output as often as in the input |
| `LineItems.Taxed` | extension/src/paymentHandler/klarna-make-payment.handler.js:47-55 | one `forEach`/`if (item.taxRate)`/`push` loop as a value: never more items than entries; its full meaning is stated by `TaxedIsBuiltFilter`, `TaxedAppend` and `UntaxedEntryIgnored` |
| `LineItems.TaxedAppend` | extension/src/paymentHandler/klarna-make-payment.handler.js:47-55 | the output of one item loop over a concatenation is the concatenation of the outputs |
| `LineItems.TaxedIsBuiltFilter` | extension/src/paymentHandler/klarna-make-payment.handler.js:47-55 | one item loop yields exactly the taxed entries, in order, each built into a provider item at the same position |
| `LineItems.UntaxedEntryIgnored` | extension/src/paymentHandler/klarna-make-payment.handler.js:48-54 | removing an untaxed entry from the input of an item loop does not change its output |
| `LineItems.CartLineItems` | extension/src/paymentHandler/klarna-make-payment.handler.js:43-62 | `createLineItems` as a value: at most one item per entry plus one for taxed shipping, with the shipping item last when shipping is taxed; its layout is stated by `CartLineItemsLayout` and the `Untaxed*Ignored` lemmas |
| `LineItems.CartLineItemsLayout` | extension/src/paymentHandler/klarna-make-payment.handler.js:43-62 | length is taxed items + taxed custom items + 1 for taxed shipping; the standard items come first in cart order, then the custom items, and the shipping item is last |
| `LineItems.UntaxedLineItemIgnored` | extension/src/paymentHandler/klarna-make-payment.handler.js:47-50 | a standard line item without a tax rate never yields an output item |
| `LineItems.UntaxedCustomLineItemIgnored` | extension/src/paymentHandler/klarna-make-payment.handler.js:52-55 | a custom line item without a tax rate never yields an output item |
| `LineItems.UntaxedShippingIgnored` | extension/src/paymentHandler/klarna-make-payment.handler.js:57-59 | shipping info without a tax rate never yields an output item |
| `KlarnaMakePayment.GetLocales` | extension/src/paymentHandler/klarna-make-payment.handler.js:64-70 | the locale list built by pushing is the payment-then-cart preference of `PreferredLocales` |
| `KlarnaMakePayment.CreateLineItems` | extension/src/paymentHandler/klarna-make-payment.handler.js:43-62 | the array built by the two loops and the shipping push is the mapped cart described by `CartLineItemsLayout` |
| `KlarnaMakePayment.Augment` | extension/src/paymentHandler/klarna-make-payment.handler.js:16-27 | the request is unchanged when it has a `lineItems` field or no cart was found; otherwise its line items are exactly the mapped cart (`CartLineItems`) under the payment-then-cart locale preference; it ends up with line items exactly when it had them or a cart was found; other fields never change |
| `KlarnaMakePayment.AugmentIgnoresCart` | extension/src/paymentHandler/klarna-make-payment.handler.js:16 | a request that has line items, even empty ones, does not depend on the cart lookup |
| `KlarnaMakePayment.AugmentIdempotent` | extension/src/paymentHandler/klarna-make-payment.handler.js:16-27 | augmenting again with the same lookup result changes nothing; once line items are present, no lookup changes the request |
| `KlarnaMakePayment.AugmentOneOfEach` | extension/src/paymentHandler/klarna-make-payment.handler.js:16-62 | a cart with one taxed standard item, one taxed custom item and taxed shipping yields exactly those three line items, in that order |
| `KlarnaMakePayment.Execute` | extension/src/paymentHandler/klarna-make-payment.handler.js:10-27 | the payment's request becomes its augmented form for the cart found, and nothing else changes |
| `KlarnaMakePayment.LocalePrecedence` | extension/test/unit/klarna-make-payment.handler.spec.js:236-331 | for a name in de/fr/at/en: language code "de" gives "test-de"; cart locale "fr" gives "test-fr"; neither, or an unknown code, gives the first text "test-de" |

## Left out

- `_fetchMatchingCart` (the cart query through the commercetools client) is a network call. The cart it returns is the `matchingCart: Option<Cart>` parameter of `Execute` and `Augment`.
- The call to the generic make-payment handler, and the update actions it returns, are not modelled. That code is not part of this model. `Execute` stops at the hand-over.
- `JSON.parse` and `JSON.stringify` of `makePaymentRequest` are not modelled. The request is held parsed, and its other top-level fields are opaque text. A parse error propagates in the source; the model has no such error.
- The payment id and `commercetoolsProjectKey` are used only by the cart query, so they are not fields of `Payment`.
- `taxRate.amount * 10000` is an exact real product. IEEE double rounding is not modelled.
- `lineItems` values that are falsy but not absent (`null`, `false`, `0`, `""`) count as absent in the source. The model has only absent (`None`) and an array.
- JavaScript enumerates integer-like object keys first, in numeric order. The model uses insertion order for all keys; locale tags are never integer-like.
- Properties inherited from `Object.prototype` (a locale named `constructor`, say) are not modelled. Lookups see only the localized string's own entries.
- A variant without a SKU, and shipping info without `shippingMethodName`, are not modelled. The source would send an undefined id or the text "undefined". Both are strings in the model.
- A payment without `custom` is not modelled. `_getLocales` tolerates one, but `execute` has already read `custom.fields`.
- Texts in localized strings are strings. The source would accept other JSON values.
- `extension/src/config/init/ensure-resources.js` is not modelled. It only starts concurrent provisioning requests and has no local logic.
- LineItems.FromLineItem, LineItems.FromCustomLineItem and LineItems.ShippingMethodDescription use the corrected `LocalizeOrFallback` (see Findings), not the selection as written. So `ShippingItem`, `CartLineItems`, `CreateLineItems`, `Augment` and `Execute` describe the intended program. They differ from the code only for a localized string with a non-empty text under the key "undefined" when no preferred locale matches; `AsWrittenAgreesWithoutUndefinedKey` proves they agree everywhere else: with no non-empty "undefined" text, or with a matching preferred locale.
- ShippingItemDescription: for an expanded method with a non-empty localized description, it states only that the text is one of those texts or "shipping". `LocalizeTakesFirstTranslated` and `LocalizeWithoutTranslation` say which text.

## Findings

| source | as written | input that shows it | evidently intended | confidence | as-written member | corrected member |
|---|---|---|---|---|---|---|
| extension/src/paymentHandler/klarna-make-payment.handler.js:127-128 | When no preferred locale has a translation, `locale` is undefined. `localizedString[locale]` then reads the property "undefined". | name `{de: 'test-de', undefined: 'x'}` with locales `['fr']` gives "x" (`Localization.AsWrittenPicksUndefinedKey`) | the first text in insertion order, "test-de" | high (JavaScript coerces an undefined property key to "undefined"); not executed | `Localization.LocalizeOrFallbackAsWritten` | `Localization.LocalizeOrFallback` |
