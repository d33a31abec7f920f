/**
 * Localized strings and locale preference, as used by the Klarna make-payment
 * handler to pick a human-readable description for each provider line item.
 *
 * A commercetools LocalizedString is a JSON object from locale tags to texts.
 * Its keys are unique and `Object.values` lists its texts in insertion order,
 * so it is modelled as a sequence of (locale, text) pairs with unique keys.
 */
module Localization {
  import opened Wrappers

  /** JavaScript truthiness of an optional string: present and not "". */
  predicate NonEmpty(s: Option<string>) {
    s.Some? && s.value != ""
  }

  /** No locale tag occurs twice, as in a JSON object. */
  predicate UniqueKeys(entries: seq<(string, string)>) {
    forall i, j :: 0 <= i < j < |entries| ==> entries[i].0 != entries[j].0
  }

  type LocalizedString = entries: seq<(string, string)> | UniqueKeys(entries)

  /** `localizedString[key]`: the text stored under `key`, if any. */
  function Lookup(entries: seq<(string, string)>, key: string): (r: Option<string>)
    ensures r.None? <==> forall i :: 0 <= i < |entries| ==> entries[i].0 != key
    ensures r.Some? ==> exists i :: 0 <= i < |entries| && entries[i] == (key, r.value)
  {
    if |entries| == 0 then None
    else if entries[0].0 == key then Some(entries[0].1)
    else
      var r := Lookup(entries[1..], key);
      assert forall i :: 1 <= i < |entries| ==> entries[i] == entries[1..][i - 1];
      r
  }

  /** With unique keys, looking up the key of an entry yields that entry's text. */
  lemma LookupAt(entries: seq<(string, string)>, i: nat)
    requires UniqueKeys(entries)
    requires i < |entries|
    ensures Lookup(entries, entries[i].0) == Some(entries[i].1)
  {
  }

  /** `locales[j]` is the first locale with a non-empty translation. */
  predicate FirstTranslated(entries: seq<(string, string)>, locales: seq<string>, j: int) {
    0 <= j < |locales| && NonEmpty(Lookup(entries, locales[j]))
    && forall k :: 0 <= k < j ==> !NonEmpty(Lookup(entries, locales[k]))
  }

  /**
   * `locales.find((l) => localizedString[l])`: the first locale whose
   * translation is a non-empty text, or None (JavaScript's undefined).
   */
  function FindLocale(entries: seq<(string, string)>, locales: seq<string>): (r: Option<string>)
    ensures r.None? <==> forall j :: 0 <= j < |locales| ==> !NonEmpty(Lookup(entries, locales[j]))
    ensures r.Some? ==> exists j :: FirstTranslated(entries, locales, j) && locales[j] == r.value
  {
    if |locales| == 0 then None
    else if NonEmpty(Lookup(entries, locales[0])) then Some(locales[0])
    else
      var r := FindLocale(entries, locales[1..]);
      assert forall j :: 1 <= j < |locales| ==> locales[j] == locales[1..][j - 1];
      assert r.Some? ==> exists j :: FirstTranslated(entries, locales, j) && locales[j] == r.value by {
        if r.Some? {
          var j :| FirstTranslated(entries, locales[1..], j) && locales[1..][j] == r.value;
          assert FirstTranslated(entries, locales, j + 1);
        }
      }
      r
  }

  /**
   * `_localizeOrFallback`: on an empty localized string, `fallback`;
   * otherwise the translation for the first preferred locale that has a
   * non-empty one, else the first text in insertion order.
   */
  function LocalizeOrFallback(localized: LocalizedString, locales: seq<string>, fallback: Option<string>): (r: Option<string>)
    ensures |localized| == 0 ==> r == fallback
    ensures |localized| > 0 ==> r.Some? && exists i :: 0 <= i < |localized| && localized[i].1 == r.value
  {
    if |localized| > 0 then
      var locale := FindLocale(localized, locales);
      var translated := if locale.Some? then Lookup(localized, locale.value) else None;
      if NonEmpty(translated) then translated else Some(localized[0].1)
    else fallback
  }

  /** The first preferred locale with a non-empty translation decides the text. */
  lemma LocalizeTakesFirstTranslated(localized: LocalizedString, locales: seq<string>, fallback: Option<string>, j: nat)
    requires FirstTranslated(localized, locales, j)
    ensures LocalizeOrFallback(localized, locales, fallback) == Lookup(localized, locales[j])
  {
  }

  /** With no usable translation, the first text in insertion order is taken, never the fallback. */
  lemma LocalizeWithoutTranslation(localized: LocalizedString, locales: seq<string>, fallback: Option<string>)
    requires |localized| > 0
    requires forall j :: 0 <= j < |locales| ==> !NonEmpty(Lookup(localized, locales[j]))
    ensures LocalizeOrFallback(localized, locales, fallback) == Some(localized[0].1)
  {
  }

  /** The property key JavaScript reads for `obj[undefined]`. */
  const UndefinedKey: string := "undefined"

  /**
   * `_localizeOrFallback` exactly as written: when no locale matches,
   * `localizedString[locale]` is evaluated with `locale` undefined, which
   * JavaScript coerces to the key "undefined".
   */
  function LocalizeOrFallbackAsWritten(localized: LocalizedString, locales: seq<string>, fallback: Option<string>): (r: Option<string>)
    ensures |localized| == 0 ==> r == fallback
    ensures |localized| > 0 ==> r.Some? && exists i :: 0 <= i < |localized| && localized[i].1 == r.value
  {
    if |localized| > 0 then
      var locale := FindLocale(localized, locales);
      var translated := Lookup(localized, if locale.Some? then locale.value else UndefinedKey);
      if NonEmpty(translated) then translated else Some(localized[0].1)
    else fallback
  }

  /**
   * The two agree unless the localized string holds a non-empty text under
   * the key "undefined" and no preferred locale has a translation.
   */
  lemma AsWrittenAgreesWithoutUndefinedKey(localized: LocalizedString, locales: seq<string>, fallback: Option<string>)
    requires !NonEmpty(Lookup(localized, UndefinedKey)) || FindLocale(localized, locales).Some?
    ensures LocalizeOrFallbackAsWritten(localized, locales, fallback) == LocalizeOrFallback(localized, locales, fallback)
  {
  }

  /** A name with an "undefined" entry and no matching locale: the code picks that entry, not the first. */
  lemma AsWrittenPicksUndefinedKey()
    ensures LocalizeOrFallbackAsWritten([("de", "test-de"), ("undefined", "x")], ["fr"], Some("item")) == Some("x")
    ensures LocalizeOrFallback([("de", "test-de"), ("undefined", "x")], ["fr"], Some("item")) == Some("test-de")
  {
  }

  /**
   * `_getLocales`: the locale preference list. The payment's language code
   * wins, then the cart's locale; an empty string counts as absent.
   */
  function PreferredLocales(languageCode: Option<string>, cartLocale: Option<string>): (r: seq<string>)
    ensures |r| <= 1
    ensures forall j :: 0 <= j < |r| ==> r[j] != ""
    ensures NonEmpty(languageCode) ==> r == [languageCode.value]
    ensures !NonEmpty(languageCode) && NonEmpty(cartLocale) ==> r == [cartLocale.value]
    ensures r == [] <==> !NonEmpty(languageCode) && !NonEmpty(cartLocale)
  {
    var language := if NonEmpty(languageCode) then languageCode else cartLocale;
    if NonEmpty(language) then [language.value] else []
  }
}
