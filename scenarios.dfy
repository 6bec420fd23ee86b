/**
 * Sequences of events on the components, proved from the handlers'
 * contracts alone, the way a caller of the components sees them.
 */
module Scenarios {
  import opened Accessibility
  import HeroSlider

  /** Alt+A twice in a row leaves the panel as it was. */
  method AltATwice(w: Widget)
    requires w.Valid()
    modifies w`isOpen
    ensures w.isOpen == old(w.isOpen)
  {
    var first := w.KeyDown(true, "a");
    var second := w.KeyDown(true, "a");
  }

  /** Two clicks on the floating button leave the panel as it was. */
  method ToggleTwice(w: Widget)
    requires w.Valid() && w.Rendered()
    modifies w`isOpen
    ensures w.isOpen == old(w.isOpen)
  {
    w.ToggleOpen();
    w.ToggleOpen();
  }

  /**
   * The mobile menu opens and closes again, with any keys pressed in
   * between: nothing is rendered meanwhile, and afterwards the panel shows
   * exactly when it is requested open, without a new click.
   */
  method OverlayRoundTrip(w: Widget, keys: seq<(bool, string)>)
    requires w.Valid()
    modifies w`isOpen, w`mobileMenuOpen
    ensures w.Valid()
    ensures !w.mobileMenuOpen
    ensures w.PanelRendered() == w.isOpen
    ensures (forall k :: k in keys ==> !(k.0 && k.1 == "a")) ==> w.PanelRendered() == old(w.isOpen)
  {
    w.MobileMenuChange(true);
    var i := 0;
    while i < |keys|
      invariant 0 <= i <= |keys|
      invariant w.Valid()
      invariant w.mobileMenuOpen && !w.Rendered() && !w.PanelRendered()
      invariant (forall k :: k in keys[..i] ==> !(k.0 && k.1 == "a")) ==> w.isOpen == old(w.isOpen)
    {
      var prevented := w.KeyDown(keys[i].0, keys[i].1);
      assert keys[..i + 1] == keys[..i] + [keys[i]];
      i := i + 1;
    }
    assert keys[..i] == keys;
    w.MobileMenuChange(false);
  }

  /** A second reset changes neither the preferences nor the page, and speaks nothing. */
  method ResetTwice(w: Widget)
    requires w.Valid() && w.PanelRendered()
    modifies w`voiceGuide, w`fontSize, w`highContrast, w`highlightLinks, w`lineHeight
    modifies w`rootFontPx, w`bodyClasses, w`queue, w`engineCalls
    ensures w.Valid()
    ensures w.Prefs() == Defaults
    ensures w.rootFontPx == FontSizePx(Normal)
    ensures w.bodyClasses == old(w.bodyClasses) - ManagedClasses
    ensures w.queue == []
  {
    w.ResetAll();
    ghost var classes, px := w.bodyClasses, w.rootFontPx;
    w.ResetAll();
    assert w.bodyClasses == classes && w.rootFontPx == px;
  }

  /**
   * From the defaults, choosing the large font gives the tuple with only
   * the size changed and the 20px root size, and speaks one confirmation,
   * naming the large size, exactly when voice guidance is on and an engine
   * exists; otherwise the engine is not called and its queue is unchanged.
   */
  method LargeFontScenario(w: Widget)
    requires w.Valid() && w.PanelRendered() && w.Prefs() == Defaults.(voiceGuide := w.voiceGuide)
    modifies w`fontSize, w`rootFontPx, w`queue, w`engineCalls
    ensures w.Valid()
    ensures w.Prefs() == Defaults.(voiceGuide := w.voiceGuide, fontSize := Large)
    ensures w.rootFontPx == 20
    ensures w.queue == if w.voiceGuide && w.speechAvailable then
      [Utterance(FontSizeMessage(Large, w.locale), LangTag(w.locale), SpeechRate)] else old(w.queue)
    ensures !(w.voiceGuide && w.speechAvailable) ==> w.engineCalls == old(w.engineCalls)
  {
    w.SelectFontSize(Large);
  }

  /** The previous arrow undoes the next arrow. */
  method NextThenPrev(c: HeroSlider.Carousel)
    modifies c
    ensures c.current == old(c.current)
  {
    c.NextSlide();
    c.PrevSlide();
    HeroSlider.NextPrevInverse(old(c.current));
  }

  /** Eight timer ticks bring the carousel back to the slide it showed. */
  method EightTicks(c: HeroSlider.Carousel)
    modifies c
    ensures c.current == old(c.current)
  {
    var k := 0;
    while k < HeroSlider.SlideCount
      invariant 0 <= k <= HeroSlider.SlideCount
      invariant c.current == HeroSlider.Advance(old(c.current), k)
    {
      HeroSlider.AdvanceStep(old(c.current), k);
      c.Tick();
      k := k + 1;
    }
    HeroSlider.FullCycle(old(c.current));
  }
}
