/**
 * The locale tables of the site (src/i18n/routing.ts): the supported
 * locales, the default locale, and the display name and flag code of each.
 */
module Routing {
  import opened Wrappers

  /** A supported locale. The source's `Locale` type is the union of the array's literals. */
  datatype Locale = TR | EN | FR

  /** The `locales` array, in its declared order. */
  const Locales: seq<Locale> := [TR, EN, FR]

  /** The `defaultLocale` given to the router. */
  const DefaultLocale: Locale := TR

  /** The string a locale stands for in URLs and in the array literal. */
  function LocaleCode(l: Locale): (code: string)
    ensures |code| == 2
  {
    match l
    case TR => "tr"
    case EN => "en"
    case FR => "fr"
  }

  /** Inverse of LocaleCode: the locale a string names, if any. */
  function ParseLocale(s: string): (r: Option<Locale>)
    ensures r.Some? ==> LocaleCode(r.value) == s
  {
    if s == "tr" then Some(TR)
    else if s == "en" then Some(EN)
    else if s == "fr" then Some(FR)
    else None
  }

  /** The `localeNames` record. */
  function LocaleName(l: Locale): string
  {
    match l
    case TR => "Türkçe"
    case EN => "English"
    case FR => "Français"
  }

  /** The `localeFlags` record: flag-icon country codes. */
  function LocaleFlag(l: Locale): string
  {
    match l
    case TR => "tr"
    case EN => "gb"
    case FR => "fr"
  }

  /** `locales` lists every locale exactly once, and nothing else. */
  lemma LocalesExact()
    ensures |Locales| == 3
    ensures forall l: Locale :: l in Locales
    ensures forall i, j :: 0 <= i < j < |Locales| ==> Locales[i] != Locales[j]
  {
    forall l: Locale ensures l in Locales {
      match l
      case TR => assert Locales[0] == l;
      case EN => assert Locales[1] == l;
      case FR => assert Locales[2] == l;
    }
  }

  /** The default locale is one of the supported locales. */
  lemma DefaultLocaleSupported()
    ensures DefaultLocale in Locales
    ensures LocaleCode(DefaultLocale) == "tr"
  {
  }

  /** Parsing and printing a locale code are inverse to each other, in both directions. */
  lemma ParseLocaleRoundTrip(l: Locale, s: string)
    ensures ParseLocale(LocaleCode(l)) == Some(l)
    ensures ParseLocale(s) == Some(l) <==> s == LocaleCode(l)
  {
  }

  /** Distinct locales have distinct codes and distinct display names. */
  lemma LocaleTablesInjective(a: Locale, b: Locale)
    requires a != b
    ensures LocaleCode(a) != LocaleCode(b)
    ensures LocaleName(a) != LocaleName(b)
  {
  }

  /** The flag table: tr shows the Turkish flag, en the British one, fr the French one. */
  lemma LocaleFlagTable(l: Locale)
    ensures LocaleFlag(l) == (if l == EN then "gb" else LocaleCode(l))
  {
  }
}
