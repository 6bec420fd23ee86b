/**
 * The site header (src/components/Header.tsx): the locale switch, which
 * rewrites the leading locale of the current path; section navigation with
 * a fallback URL; the language dropdown and mobile menu flags; and the
 * scroll handler that samples the scroll position at most once per frame.
 */
module Header {
  import opened Wrappers
  import opened Routing

  /** The alternatives of the path pattern `^\/(tr|en|fr)`. */
  const PathLocales: seq<string> := ["tr", "en", "fr"]

  /** The scroll offset, in CSS pixels, past which the header shows a shadow. */
  const ScrollThreshold: real := 10.0

  /** The pattern `^\/(tr|en|fr)` matches: a slash and one of the alternatives, as the first three characters. */
  predicate HasLocalePrefix(path: string)
  {
    |path| >= 3 && path[0] == '/' && path[1..3] in PathLocales
  }

  /**
   * The locale switch's path rewrite, for a routing locale `newLocale` (the
   * only values the dropdown passes): a match of the pattern is replaced by
   * `/` and the new code, everything after it is kept; a path without a
   * match is returned as it is. Since every code has two letters, the
   * rewrite keeps the path's length and a rewritten path matches again.
   */
  function RewriteLocale(path: string, newLocale: Locale): (r: string)
    ensures HasLocalePrefix(path) ==>
      |r| == |path| && r[..3] == "/" + LocaleCode(newLocale) && r[3..] == path[3..] && HasLocalePrefix(r)
    ensures !HasLocalePrefix(path) ==> r == path
  {
    if HasLocalePrefix(path) then
      var r := "/" + LocaleCode(newLocale) + path[3..];
      assert r[1..3] == LocaleCode(newLocale) && LocaleCode(newLocale) in PathLocales;
      r
    else path
  }

  /**
   * The fallback target `'/' + locale + '/' + href` used when the section is
   * not on the page: it carries the locale prefix, followed by `/` and `href`.
   */
  function FallbackUrl(locale: Locale, href: string): (r: string)
    ensures HasLocalePrefix(r) && r[1..3] == LocaleCode(locale)
    ensures r[3..] == "/" + href
  {
    var r := "/" + LocaleCode(locale) + "/" + href;
    assert r[1..3] == LocaleCode(locale) && LocaleCode(locale) in PathLocales;
    r
  }

  /** The pattern's alternatives are exactly the codes of the routing locales. */
  lemma PathLocalesAreRoutingLocales()
    ensures (set s | s in PathLocales) == (set l | l in Locales :: LocaleCode(l))
  {
    LocalesExact();
    var codes := set l | l in Locales :: LocaleCode(l);
    assert LocaleCode(TR) in codes && LocaleCode(EN) in codes && LocaleCode(FR) in codes;
    assert codes <= {"tr", "en", "fr"};
  }

  /** A path has the prefix exactly when it starts with `/` and the code of some locale. */
  lemma HasLocalePrefixIff(path: string)
    ensures HasLocalePrefix(path) <==>
      exists l: Locale :: |path| >= 3 && path[..3] == "/" + LocaleCode(l)
  {
    if HasLocalePrefix(path) {
      var l := ParseLocale(path[1..3]).value;
      assert path[..3] == [path[0]] + path[1..3];
    }
    if exists l: Locale :: |path| >= 3 && path[..3] == "/" + LocaleCode(l) {
      var l: Locale :| |path| >= 3 && path[..3] == "/" + LocaleCode(l);
      assert path[0] == path[..3][0];
      assert path[1..3] == path[..3][1..];
      assert path[1..3] == LocaleCode(l);
    }
  }

  /** Switching to a routing locale twice is the same as switching once. */
  lemma RewriteIdempotent(path: string, l: Locale)
    ensures RewriteLocale(RewriteLocale(path, l), l) == RewriteLocale(path, l)
  {
    var once := RewriteLocale(path, l);
    if HasLocalePrefix(path) {
      assert once == once[..3] + once[3..];
    }
  }

  /** Switching locale on a fallback URL yields the fallback URL of the new locale. */
  lemma RewriteFallback(from: Locale, to: Locale, href: string)
    ensures RewriteLocale(FallbackUrl(from, href), to) == FallbackUrl(to, href)
  {
    var url := FallbackUrl(from, href);
    var target := FallbackUrl(to, href);
    assert target == target[..3] + target[3..];
  }

  /**
   * The match is on characters, not on path segments: a path whose first
   * segment merely starts with a locale code is rewritten too.
   */
  lemma RewriteMatchesCharacters()
    ensures RewriteLocale("/travel", EN) == "/enavel"
  {
    assert "/travel"[1..3] == "tr";
    assert "tr" in PathLocales;
  }

  /** The component's state and the browser effects it causes. */
  class HeaderState {
    /** The active locale (`useLocale()`). */
    const locale: Locale
    var isLangOpen: bool
    var isMobileMenuOpen: bool
    var scrolled: bool
    /** The scroll handler's closure variable. */
    var ticking: bool
    /** Animation-frame callbacks requested and not yet run. */
    var pendingFrames: nat
    /** The last value assigned to `window.location.href`, if any. */
    var navigation: Option<string>
    /** The section last scrolled into view, if any. */
    var scrolledTo: Option<string>

    /** At most one frame callback is pending, exactly while `ticking` is set. */
    ghost predicate Valid()
      reads this
    {
      pendingFrames == (if ticking then 1 else 0)
    }

    constructor (locale: Locale)
      ensures Valid()
      ensures this.locale == locale
      ensures !isLangOpen && !isMobileMenuOpen && !scrolled && !ticking
      ensures navigation == None && scrolledTo == None
    {
      this.locale := locale;
      isLangOpen, isMobileMenuOpen, scrolled := false, false, false;
      ticking, pendingFrames := false, 0;
      navigation, scrolledTo := None, None;
    }

    /** The language dropdown is rendered. */
    function LangMenuRendered(): bool
      reads this
    {
      isLangOpen
    }

    /** The mobile navigation is rendered. */
    function MobileNavRendered(): bool
      reads this
    {
      isMobileMenuOpen
    }

    /** A scroll event: request a frame only when none is pending. */
    method OnScroll()
      requires Valid()
      modifies this
      ensures Valid() && ticking
      ensures pendingFrames == 1
      ensures old(ticking) ==> pendingFrames == old(pendingFrames)
      ensures scrolled == old(scrolled) && isLangOpen == old(isLangOpen) && isMobileMenuOpen == old(isMobileMenuOpen)
      ensures navigation == old(navigation) && scrolledTo == old(scrolledTo)
    {
      if !ticking {
        pendingFrames := pendingFrames + 1;
        ticking := true;
      }
    }

    /** The requested frame runs, reading the scroll position `scrollY`. */
    method OnAnimationFrame(scrollY: real)
      requires Valid() && pendingFrames > 0
      modifies this
      ensures Valid() && !ticking && pendingFrames == 0
      ensures scrolled == (scrollY > ScrollThreshold)
      ensures isLangOpen == old(isLangOpen) && isMobileMenuOpen == old(isMobileMenuOpen)
      ensures navigation == old(navigation) && scrolledTo == old(scrolledTo)
    {
      scrolled := scrollY > ScrollThreshold;
      ticking := false;
      pendingFrames := pendingFrames - 1;
    }

    /**
     * A mousedown anywhere; `insideLangSwitcher` says whether it hit the
     * element the dropdown's ref is attached to, which is the whole
     * language switcher, the language button included (so pressing that
     * button does not close the dropdown before its click toggles it).
     */
    method OnMouseDown(insideLangSwitcher: bool)
      modifies this
      ensures isLangOpen == (old(isLangOpen) && insideLangSwitcher)
      ensures isMobileMenuOpen == old(isMobileMenuOpen) && scrolled == old(scrolled)
      ensures ticking == old(ticking) && pendingFrames == old(pendingFrames)
      ensures navigation == old(navigation) && scrolledTo == old(scrolledTo)
    {
      if !insideLangSwitcher {
        isLangOpen := false;
      }
    }

    /** The language button. */
    method ToggleLangMenu()
      modifies this
      ensures isLangOpen == !old(isLangOpen)
      ensures isMobileMenuOpen == old(isMobileMenuOpen) && scrolled == old(scrolled)
      ensures ticking == old(ticking) && pendingFrames == old(pendingFrames)
      ensures navigation == old(navigation) && scrolledTo == old(scrolledTo)
    {
      isLangOpen := !isLangOpen;
    }

    /**
     * Choosing a locale in the dropdown, while the browser is at
     * `currentPath`; the locale buttons exist only while the dropdown is open.
     */
    method ChooseLocale(newLocale: Locale, currentPath: string)
      requires LangMenuRendered()
      modifies this
      ensures navigation == Some(RewriteLocale(currentPath, newLocale))
      ensures !isLangOpen
      ensures isMobileMenuOpen == old(isMobileMenuOpen) && scrolled == old(scrolled)
      ensures ticking == old(ticking) && pendingFrames == old(pendingFrames)
      ensures scrolledTo == old(scrolledTo)
    {
      navigation := Some(RewriteLocale(currentPath, newLocale));
      isLangOpen := false;
    }

    /** The mobile menu button. */
    method ToggleMobileMenu()
      modifies this
      ensures isMobileMenuOpen == !old(isMobileMenuOpen)
      ensures isLangOpen == old(isLangOpen) && scrolled == old(scrolled)
      ensures ticking == old(ticking) && pendingFrames == old(pendingFrames)
      ensures navigation == old(navigation) && scrolledTo == old(scrolledTo)
    {
      isMobileMenuOpen := !isMobileMenuOpen;
    }

    /**
     * A navigation link to `href`; `found` says whether the page has the
     * element `href` selects. Returns whether the default action is prevented.
     */
    method NavClick(href: string, found: bool) returns (preventDefault: bool)
      modifies this
      ensures preventDefault == found
      ensures found ==> !isMobileMenuOpen && scrolledTo == Some(href) && navigation == old(navigation)
      ensures !found ==>
        isMobileMenuOpen == old(isMobileMenuOpen) && scrolledTo == old(scrolledTo) &&
        navigation == Some(FallbackUrl(locale, href))
      ensures isLangOpen == old(isLangOpen) && scrolled == old(scrolled)
      ensures ticking == old(ticking) && pendingFrames == old(pendingFrames)
    {
      if found {
        preventDefault := true;
        scrolledTo := Some(href);
        isMobileMenuOpen := false;
      } else {
        preventDefault := false;
        navigation := Some(FallbackUrl(locale, href));
      }
    }
  }
}
