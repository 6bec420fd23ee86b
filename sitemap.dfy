/**
 * Sitemap generation (src/app/sitemap.ts): one entry per locale, built by
 * pushing onto an array inside a loop over the sitemap's own locale list.
 */
module Sitemap {
  import opened Wrappers
  import Routing

  /** The `changeFrequency` values a sitemap entry may carry. */
  datatype ChangeFrequency = Always | Hourly | Daily | Weekly | Monthly | Yearly | Never

  /**
   * One sitemap entry. `lastModified` is the generation time, which the
   * source takes from the clock; here it is an input, as milliseconds.
   */
  datatype Entry = Entry(url: string, lastModified: int, changeFrequency: ChangeFrequency, priority: real)

  /** `baseUrl`. */
  const BaseUrl: string := "https://maars.tr"

  /** The sitemap's own `locales` list (note the order: en first). */
  const SitemapLocales: seq<string> := ["en", "tr", "fr"]

  /** The URL scheme of an entry. */
  function LocaleUrl(locale: string): string
  {
    BaseUrl + "/" + locale
  }

  /** Inverse of LocaleUrl: the locale a sitemap URL is for, if it follows the scheme. */
  function UrlLocale(url: string): (r: Option<string>)
    ensures r.Some? ==> LocaleUrl(r.value) == url
  {
    var prefix := BaseUrl + "/";
    if |prefix| <= |url| && url[..|prefix|] == prefix then Some(url[|prefix|..]) else None
  }

  /** Every URL of the scheme is recognised, and gives back its locale. */
  lemma UrlRoundTrip(locale: string)
    ensures UrlLocale(LocaleUrl(locale)) == Some(locale)
  {
    var prefix := BaseUrl + "/";
    assert LocaleUrl(locale) == prefix + locale;
    assert (prefix + locale)[..|prefix|] == prefix;
    assert (prefix + locale)[|prefix|..] == locale;
  }

  /** `sitemap()`: the loop pushes one entry per locale, in list order. */
  method BuildSitemap(lastModified: int) returns (entries: seq<Entry>)
    ensures |entries| == |SitemapLocales|
    ensures forall i :: 0 <= i < |entries| ==>
      UrlLocale(entries[i].url) == Some(SitemapLocales[i]) &&
      entries[i].lastModified == lastModified &&
      entries[i].changeFrequency == Weekly &&
      entries[i].priority == 1.0
  {
    entries := [];
    var i := 0;
    while i < |SitemapLocales|
      invariant 0 <= i <= |SitemapLocales|
      invariant |entries| == i
      invariant forall k :: 0 <= k < i ==>
        UrlLocale(entries[k].url) == Some(SitemapLocales[k]) &&
        entries[k].lastModified == lastModified &&
        entries[k].changeFrequency == Weekly &&
        entries[k].priority == 1.0
    {
      var locale := SitemapLocales[i];
      UrlRoundTrip(locale);
      entries := entries + [Entry(LocaleUrl(locale), lastModified, Weekly, 1.0)];
      i := i + 1;
    }
  }

  /**
   * The sitemap has one entry per routing locale and no other: its URLs name
   * exactly the routing locales, each once, in the order en, tr, fr.
   */
  lemma SitemapCoversRoutingLocales()
    ensures |SitemapLocales| == |Routing.Locales| == 3
    ensures forall i, j :: 0 <= i < j < |SitemapLocales| ==> SitemapLocales[i] != SitemapLocales[j]
    ensures (set s | s in SitemapLocales) == (set l | l in Routing.Locales :: Routing.LocaleCode(l))
    ensures SitemapLocales == [Routing.LocaleCode(Routing.EN), Routing.LocaleCode(Routing.TR), Routing.LocaleCode(Routing.FR)]
  {
    Routing.LocalesExact();
    var codes := set l | l in Routing.Locales :: Routing.LocaleCode(l);
    assert Routing.LocaleCode(Routing.TR) in codes;
    assert Routing.LocaleCode(Routing.EN) in codes;
    assert Routing.LocaleCode(Routing.FR) in codes;
    assert codes <= {"tr", "en", "fr"};
  }

  /** Entries for different locales have different URLs: one entry per locale. */
  lemma DistinctUrls(a: string, b: string)
    requires a != b
    ensures LocaleUrl(a) != LocaleUrl(b)
  {
    UrlRoundTrip(a);
    UrlRoundTrip(b);
  }
}
