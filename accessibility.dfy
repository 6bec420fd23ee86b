/**
 * The accessibility widget (src/components/AccessibilityWidget.tsx).
 *
 * The widget keeps five presentation preferences, applies them to the page
 * (the root font size and three body classes), announces some changes
 * through the browser's speech engine, and shows a panel that the user
 * opens and closes and that the mobile navigation overlay suppresses.
 *
 * The pure part of this module gives the meaning of each piece: the
 * font-size scale, the class effects, the speech engine's queue and the
 * spoken texts. The class `Widget` holds the component's state and the
 * parts of the page and of the speech engine that it changes, and its
 * methods are the event handlers, each followed by the effects React runs
 * for the state it changed.
 */
module Accessibility {
  import opened Wrappers
  import Routing

  // ---------------------------------------------------------------------
  // Preferences
  // ---------------------------------------------------------------------

  datatype FontSize = Small | Normal | Large

  datatype LineHeight = NormalLineHeight | LargeLineHeight

  /** The five preferences, in the order the component declares them. */
  datatype Preferences = Preferences(
    voiceGuide: bool,
    fontSize: FontSize,
    highContrast: bool,
    highlightLinks: bool,
    lineHeight: LineHeight)

  /** The initial value of every preference, which `resetAll` restores. */
  const Defaults: Preferences := Preferences(false, Normal, false, false, NormalLineHeight)

  // ---------------------------------------------------------------------
  // Presentation: root font size and body classes
  // ---------------------------------------------------------------------

  const HighContrastClass: string := "high-contrast"
  const HighlightLinksClass: string := "highlight-links"
  const LargeLineHeightClass: string := "large-line-height"

  /** The body classes the widget adds and removes; it never touches any other. */
  const ManagedClasses: set<string> := {HighContrastClass, HighlightLinksClass, LargeLineHeightClass}

  /** The root font size, in pixels, that the font-size effect sets. */
  function FontSizePx(size: FontSize): int
  {
    if size == Small then 14 else if size == Large then 20 else 16
  }

  /** Small, normal and large are 14, 16 and 20 pixels: strictly increasing and distinct. */
  lemma FontSizeScale()
    ensures FontSizePx(Small) == 14 && FontSizePx(Normal) == 16 && FontSizePx(Large) == 20
    ensures FontSizePx(Small) < FontSizePx(Normal) < FontSizePx(Large)
    ensures forall a: FontSize, b: FontSize :: FontSizePx(a) == FontSizePx(b) ==> a == b
  {
  }

  /** `classList.add(name)` when `on`, `classList.remove(name)` otherwise. */
  function ToggleClass(classes: set<string>, name: string, on: bool): (r: set<string>)
    ensures name in r <==> on
    ensures forall c :: c != name ==> (c in r <==> c in classes)
  {
    if on then classes + {name} else classes - {name}
  }

  /** The managed classes a preference tuple turns on. */
  function ClassesOn(p: Preferences): (r: set<string>)
    ensures r <= ManagedClasses
  {
    (if p.highContrast then {HighContrastClass} else {})
    + (if p.highlightLinks then {HighlightLinksClass} else {})
    + (if p.lineHeight == LargeLineHeight then {LargeLineHeightClass} else {})
  }

  /** The body classes agree with the preferences. */
  predicate Reflects(classes: set<string>, p: Preferences)
  {
    (HighContrastClass in classes <==> p.highContrast) &&
    (HighlightLinksClass in classes <==> p.highlightLinks) &&
    (LargeLineHeightClass in classes <==> p.lineHeight == LargeLineHeight)
  }

  /** The three class effects, one after the other. */
  function ApplyClasses(classes: set<string>, p: Preferences): (r: set<string>)
    ensures Reflects(r, p)
    ensures forall c :: c !in ManagedClasses ==> (c in r <==> c in classes)
  {
    var withContrast := ToggleClass(classes, HighContrastClass, p.highContrast);
    var withLinks := ToggleClass(withContrast, HighlightLinksClass, p.highlightLinks);
    ToggleClass(withLinks, LargeLineHeightClass, p.lineHeight == LargeLineHeight)
  }

  /**
   * The class effects keep the page's own classes and replace the managed
   * ones by exactly those the preferences turn on.
   */
  lemma ApplyClassesClosedForm(classes: set<string>, p: Preferences)
    ensures ApplyClasses(classes, p) == (classes - ManagedClasses) + ClassesOn(p)
  {
    var r := ApplyClasses(classes, p);
    forall c ensures c in r <==> c in (classes - ManagedClasses) + ClassesOn(p) {
      if c in ManagedClasses {
        assert c == HighContrastClass || c == HighlightLinksClass || c == LargeLineHeightClass;
      }
    }
  }

  /** Applying the same preferences twice leaves the page as applying them once. */
  lemma ApplyClassesIdempotent(classes: set<string>, p: Preferences)
    ensures ApplyClasses(ApplyClasses(classes, p), p) == ApplyClasses(classes, p)
  {
    ApplyClassesClosedForm(classes, p);
    ApplyClassesClosedForm(ApplyClasses(classes, p), p);
  }

  /** The classes agree with the preferences exactly when applying them changes nothing. */
  lemma ReflectsIsFixpoint(classes: set<string>, p: Preferences)
    ensures Reflects(classes, p) <==> ApplyClasses(classes, p) == classes
  {
    ApplyClassesClosedForm(classes, p);
    if Reflects(classes, p) {
      forall c ensures c in classes <==> c in (classes - ManagedClasses) + ClassesOn(p) {
        if c in ManagedClasses {
          assert c == HighContrastClass || c == HighlightLinksClass || c == LargeLineHeightClass;
        }
      }
    }
  }

  /** Under the default preferences none of the managed classes is on. */
  lemma NoManagedClassByDefault(classes: set<string>)
    requires Reflects(classes, Defaults)
    ensures classes - ManagedClasses == classes
  {
    forall c | c in classes
      ensures c !in ManagedClasses
    {
    }
  }

  // ---------------------------------------------------------------------
  // Speech engine
  // ---------------------------------------------------------------------

  /** `utterance.rate`; only ever compared, never computed with. */
  const SpeechRate: real := 0.9

  datatype Utterance = Utterance(text: string, lang: string, rate: real)

  /** A call the widget makes on `window.speechSynthesis`. */
  datatype EngineCall = Cancel | Submit(utterance: Utterance)

  /**
   * How the engine's queue of pending utterances changes on one call:
   * `cancel()` empties it, `speak(u)` appends `u`.
   */
  function Step(queue: seq<Utterance>, call: EngineCall): seq<Utterance>
  {
    match call
    case Cancel => []
    case Submit(u) => queue + [u]
  }

  /** The queue after a sequence of calls, one at a time from the first. */
  function Run(queue: seq<Utterance>, calls: seq<EngineCall>): seq<Utterance>
    decreases |calls|
  {
    if calls == [] then queue else Run(Step(queue, calls[0]), calls[1..])
  }

  /** Running two call sequences one after the other is running their concatenation. */
  lemma {:induction false} RunAppend(queue: seq<Utterance>, xs: seq<EngineCall>, ys: seq<EngineCall>)
    ensures Run(queue, xs + ys) == Run(Run(queue, xs), ys)
    decreases |xs|
  {
    if xs == [] {
      assert xs + ys == ys;
    } else {
      assert (xs + ys)[0] == xs[0];
      assert (xs + ys)[1..] == xs[1..] + ys;
      RunAppend(Step(queue, xs[0]), xs[1..], ys);
    }
  }

  /**
   * The widget's discipline: the calls are a succession of blocks, each a
   * lone cancel or a cancel followed by one submission.
   */
  predicate CancelBeforeSubmit(calls: seq<EngineCall>)
    decreases |calls|
  {
    if calls == [] then true
    else match calls[|calls| - 1]
      case Cancel => CancelBeforeSubmit(calls[..|calls| - 1])
      case Submit(_) => |calls| >= 2 && calls[|calls| - 2] == Cancel && CancelBeforeSubmit(calls[..|calls| - 2])
  }

  /** Under the discipline every submission comes right after a cancel. */
  lemma {:induction false} CancelBeforeSubmitMeans(calls: seq<EngineCall>, i: int)
    requires CancelBeforeSubmit(calls)
    requires 0 <= i < |calls| && calls[i].Submit?
    ensures 0 < i && calls[i - 1] == Cancel
    decreases |calls|
  {
    var n := |calls|;
    if i < n - 1 {
      match calls[n - 1]
      case Cancel =>
        CancelBeforeSubmitMeans(calls[..n - 1], i);
      case Submit(_) =>
        if i < n - 2 {
          CancelBeforeSubmitMeans(calls[..n - 2], i);
        }
    }
  }

  /** A cancel followed by a submission leaves exactly that utterance pending, whatever came before. */
  lemma RunPreempts(queue: seq<Utterance>, calls: seq<EngineCall>, u: Utterance)
    ensures Run(queue, calls + [Cancel, Submit(u)]) == [u]
  {
    RunAppend(queue, calls, [Cancel, Submit(u)]);
    assert [Cancel, Submit(u)][1..] == [Submit(u)];
    assert Run([], [Submit(u)]) == Run([u], []);
  }

  /** A cancel leaves nothing pending, whatever came before. */
  lemma RunCancels(queue: seq<Utterance>, calls: seq<EngineCall>)
    ensures Run(queue, calls + [Cancel]) == []
  {
    RunAppend(queue, calls, [Cancel]);
  }

  /** Under the discipline, at most one utterance is ever pending. */
  lemma AtMostOnePending(queue: seq<Utterance>, calls: seq<EngineCall>)
    requires CancelBeforeSubmit(calls)
    requires calls != [] || |queue| <= 1
    ensures |Run(queue, calls)| <= 1
  {
    if calls != [] {
      var n := |calls|;
      match calls[n - 1]
      case Cancel =>
        assert calls == calls[..n - 1] + [Cancel];
        RunCancels(queue, calls[..n - 1]);
      case Submit(u) =>
        assert calls == calls[..n - 2] + [Cancel, Submit(u)];
        RunPreempts(queue, calls[..n - 2], u);
    }
  }

  /** Appending a cancel keeps the discipline. */
  lemma CancelKeepsDiscipline(calls: seq<EngineCall>)
    requires CancelBeforeSubmit(calls)
    ensures CancelBeforeSubmit(calls + [Cancel])
  {
    assert (calls + [Cancel])[..|calls|] == calls;
  }

  /** Appending a cancel followed by one submission keeps the discipline. */
  lemma CancelSubmitKeepsDiscipline(calls: seq<EngineCall>, u: Utterance)
    requires CancelBeforeSubmit(calls)
    ensures CancelBeforeSubmit(calls + [Cancel, Submit(u)])
  {
    assert (calls + [Cancel, Submit(u)])[..|calls|] == calls;
  }

  // ---------------------------------------------------------------------
  // Spoken texts and language tags
  // ---------------------------------------------------------------------

  /** The source's `locale === 'tr' ? tr : locale === 'fr' ? fr : en` choice. */
  function PickByLocale(locale: string, tr: string, fr: string, en: string): string
  {
    if locale == "tr" then tr else if locale == "fr" then fr else en
  }

  /** `utterance.lang`: the language tag the engine speaks in. */
  function LangTag(locale: string): (tag: string)
    ensures tag == "tr-TR" <==> locale == "tr"
    ensures tag == "fr-FR" <==> locale == "fr"
    ensures tag == "en-US" <==> locale != "tr" && locale != "fr"
  {
    PickByLocale(locale, "tr-TR", "fr-FR", "en-US")
  }

  /** For each routing locale the language tag names that locale's language. */
  lemma LangTagOfRoutingLocale(l: Routing.Locale)
    ensures LangTag(Routing.LocaleCode(l))[..2] == Routing.LocaleCode(l)
  {
  }

  /** The `messages` record of the welcome effect. */
  function WelcomeTable(locale: string): (r: Option<string>)
    ensures r.Some? <==> locale in {"tr", "en", "fr"}
    ensures r.Some? ==> r.value != ""
  {
    if locale == "tr" then Some("Sesli rehber açıldı. Size yardımcı olmaktan mutluluk duyarım.")
    else if locale == "en" then Some("Voice guide enabled. Happy to help you.")
    else if locale == "fr" then Some("Guide vocal activé. Heureux de vous aider.")
    else None
  }

  /** `messages[currentLocale] || messages.tr`: a missing (or empty) entry falls back to Turkish. */
  function WelcomeMessage(locale: string): (m: string)
    ensures m != ""
  {
    var m := WelcomeTable(locale);
    if m.Some? && m.value != "" then m.value else WelcomeTable("tr").value
  }

  /**
   * Every routing locale has its own welcome text; any other locale gets
   * the Turkish one, although it is then spoken with the en-US voice.
   */
  lemma WelcomeFallback(locale: string)
    ensures locale in {"tr", "en", "fr"} ==> WelcomeMessage(locale) == WelcomeTable(locale).value
    ensures locale !in {"tr", "en", "fr"} ==>
      WelcomeMessage(locale) == WelcomeMessage("tr") && LangTag(locale) == "en-US" && LangTag("tr") == "tr-TR"
    ensures WelcomeMessage("tr") != WelcomeMessage("en")
    ensures WelcomeMessage("en") != WelcomeMessage("fr")
    ensures WelcomeMessage("fr") != WelcomeMessage("tr")
  {
    var tr, en, fr := WelcomeMessage("tr"), WelcomeMessage("en"), WelcomeMessage("fr");
    assert |tr| != |en| && |en| != |fr| && |fr| != |tr|;
    if locale !in {"tr", "en", "fr"} {
      assert WelcomeTable(locale) == None;
    }
  }

  /** The confirmation spoken by the font-size buttons. */
  function FontSizeMessage(size: FontSize, locale: string): (m: string)
    ensures m != ""
  {
    match size
    case Small => PickByLocale(locale, "Küçük yazı", "Petit texte", "Small text")
    case Normal => PickByLocale(locale, "Normal yazı", "Texte normal", "Normal text")
    case Large => PickByLocale(locale, "Büyük yazı", "Grand texte", "Large text")
  }

  /** The confirmation spoken by `resetAll`; it differs from every font-size confirmation. */
  function ResetMessage(locale: string): (m: string)
    ensures m != ""
    ensures forall size :: m != FontSizeMessage(size, locale)
  {
    PickByLocale(locale, "Tüm ayarlar sıfırlandı", "Tous les paramètres réinitialisés", "All settings reset")
  }

  /** Different font sizes are announced with different texts, in every locale. */
  lemma FontSizeMessagesDistinct(a: FontSize, b: FontSize, locale: string)
    requires a != b
    ensures FontSizeMessage(a, locale) != FontSizeMessage(b, locale)
  {
  }

  /** The engine calls of `window.speechSynthesis?.cancel()`. */
  function CancelCalls(speechAvailable: bool): (calls: seq<EngineCall>)
    ensures calls != [] <==> speechAvailable
    ensures forall queue :: Run(queue, calls) == (if speechAvailable then [] else queue)
  {
    if speechAvailable then [Cancel] else []
  }

  /**
   * The engine calls of `speak(text)`, where `guideOn` is the `voiceGuide`
   * value that the `speak` closure captured.
   */
  function SpeakCalls(guideOn: bool, speechAvailable: bool, locale: string, text: string): (calls: seq<EngineCall>)
    ensures calls != [] <==> guideOn && speechAvailable
    ensures |calls| <= 2
  {
    if guideOn && speechAvailable then [Cancel, Submit(Utterance(text, LangTag(locale), SpeechRate))] else []
  }

  /** `speak` submits at most one utterance, always right after a cancel, and nothing when voice guidance is off. Without an engine it makes no call either. */
  lemma SpeakCallsShape(guideOn: bool, speechAvailable: bool, locale: string, text: string)
    ensures CancelBeforeSubmit(SpeakCalls(guideOn, speechAvailable, locale, text))
    ensures !(guideOn && speechAvailable) ==> SpeakCalls(guideOn, speechAvailable, locale, text) == []
    ensures forall calls :: calls != [] && calls == SpeakCalls(guideOn, speechAvailable, locale, text) ==>
      Run([], calls) == [Utterance(text, LangTag(locale), SpeechRate)]
  {
    forall calls | calls != [] && calls == SpeakCalls(guideOn, speechAvailable, locale, text)
      ensures Run([], calls) == [Utterance(text, LangTag(locale), SpeechRate)]
    {
      var u := Utterance(text, LangTag(locale), SpeechRate);
      assert calls == [] + [Cancel, Submit(u)];
      RunPreempts([], [], u);
    }
  }

  // ---------------------------------------------------------------------
  // The component
  // ---------------------------------------------------------------------

  class Widget {
    /** `params.locale`. */
    const locale: string
    /** Whether the browser offers `window.speechSynthesis`. */
    const speechAvailable: bool

    /** The panel is requested open. */
    var isOpen: bool
    /** The last value the mobile menu overlay broadcast. */
    var mobileMenuOpen: bool

    var voiceGuide: bool
    var fontSize: FontSize
    var highContrast: bool
    var highlightLinks: bool
    var lineHeight: LineHeight

    /** The page's root font size, in pixels. */
    var rootFontPx: int
    /** The class list of the page body. */
    var bodyClasses: set<string>

    /** Utterances the speech engine has pending. */
    var queue: seq<Utterance>
    /** Every call made on the speech engine, oldest first. */
    var engineCalls: seq<EngineCall>

    function Prefs(): Preferences
      reads this`voiceGuide, this`fontSize, this`highContrast, this`highlightLinks, this`lineHeight
    {
      Preferences(voiceGuide, fontSize, highContrast, highlightLinks, lineHeight)
    }

    /** The page reflects the preferences. */
    ghost predicate SinkValid()
      reads this`voiceGuide, this`fontSize, this`highContrast, this`highlightLinks, this`lineHeight
      reads this`rootFontPx, this`bodyClasses
    {
      rootFontPx == FontSizePx(fontSize) &&
      Reflects(bodyClasses, Prefs())
    }

    /**
     * The engine's queue is what the calls made on it leave, every
     * submission came right after a cancel, and so at most one utterance is
     * pending; without an engine no call is ever made.
     */
    ghost predicate SpeechValid()
      reads this`queue, this`engineCalls
    {
      queue == Run([], engineCalls) &&
      CancelBeforeSubmit(engineCalls) &&
      |queue| <= 1 &&
      (!speechAvailable ==> engineCalls == [])
    }

    /** The invariant that holds between events. */
    ghost predicate Valid()
      reads this
    {
      SinkValid() && SpeechValid()
    }

    /** Anything is rendered: the whole widget is hidden while the mobile menu is open. */
    function Rendered(): bool
      reads this
    {
      !mobileMenuOpen
    }

    /** The panel (and its backdrop) is rendered. */
    function PanelRendered(): (r: bool)
      reads this
      ensures r ==> Rendered()
      ensures mobileMenuOpen ==> !r
    {
      Rendered() && isOpen
    }

    /**
     * Mounting into a page whose body has `pageClasses`: the state starts
     * at its defaults and the mount-time effects run once.
     */
    constructor (locale: string, speechAvailable: bool, pageClasses: set<string>)
      ensures Valid()
      ensures this.locale == locale && this.speechAvailable == speechAvailable
      ensures Prefs() == Defaults && !isOpen && !mobileMenuOpen
      ensures rootFontPx == FontSizePx(Normal)
      ensures bodyClasses == pageClasses - ManagedClasses
      ensures engineCalls == [] && queue == []
    {
      this.locale := locale;
      this.speechAvailable := speechAvailable;
      isOpen, mobileMenuOpen := false, false;
      voiceGuide, fontSize, highContrast, highlightLinks, lineHeight := false, Normal, false, false, NormalLineHeight;
      rootFontPx := FontSizePx(Normal);
      bodyClasses := ApplyClasses(pageClasses, Defaults);
      queue, engineCalls := [], [];
      ApplyClassesClosedForm(pageClasses, Defaults);
    }

    // ----- effects -----

    /** The font-size effect. */
    method ApplyFontSize()
      modifies this`rootFontPx
      ensures rootFontPx == FontSizePx(fontSize)
    {
      if fontSize == Small {
        rootFontPx := 14;
      } else if fontSize == Large {
        rootFontPx := 20;
      } else {
        rootFontPx := 16;
      }
    }

    /** The high-contrast effect. */
    method ApplyHighContrast()
      modifies this`bodyClasses
      ensures bodyClasses == ToggleClass(old(bodyClasses), HighContrastClass, highContrast)
    {
      if highContrast {
        bodyClasses := bodyClasses + {HighContrastClass};
      } else {
        bodyClasses := bodyClasses - {HighContrastClass};
      }
    }

    /** The highlight-links effect. */
    method ApplyHighlightLinks()
      modifies this`bodyClasses
      ensures bodyClasses == ToggleClass(old(bodyClasses), HighlightLinksClass, highlightLinks)
    {
      if highlightLinks {
        bodyClasses := bodyClasses + {HighlightLinksClass};
      } else {
        bodyClasses := bodyClasses - {HighlightLinksClass};
      }
    }

    /** The line-height effect. */
    method ApplyLineHeight()
      modifies this`bodyClasses
      ensures bodyClasses == ToggleClass(old(bodyClasses), LargeLineHeightClass, lineHeight == LargeLineHeight)
    {
      if lineHeight == LargeLineHeight {
        bodyClasses := bodyClasses + {LargeLineHeightClass};
      } else {
        bodyClasses := bodyClasses - {LargeLineHeightClass};
      }
    }

    /** The three class effects, as they run when all three preferences change. */
    method ApplyClassEffects()
      modifies this`bodyClasses
      ensures bodyClasses == ApplyClasses(old(bodyClasses), Prefs())
    {
      ApplyHighContrast();
      ApplyHighlightLinks();
      ApplyLineHeight();
    }

    // ----- speech -----

    /** `window.speechSynthesis?.cancel()`: empties the engine's queue when there is an engine. */
    method CancelSpeech()
      requires SpeechValid()
      modifies this`queue, this`engineCalls
      ensures SpeechValid()
      ensures engineCalls == old(engineCalls) + CancelCalls(speechAvailable)
      ensures queue == []
    {
      if speechAvailable {
        RunCancels([], engineCalls);
        CancelKeepsDiscipline(engineCalls);
        engineCalls := engineCalls + [Cancel];
        queue := [];
      }
    }

    /**
     * `speak(text)` with the closure that captured `guideOn` as the value
     * of `voiceGuide`: nothing without voice guidance or without an engine;
     * otherwise cancel whatever is pending and submit one utterance.
     */
    method Speak(guideOn: bool, text: string)
      requires SpeechValid()
      modifies this`queue, this`engineCalls
      ensures SpeechValid()
      ensures engineCalls == old(engineCalls) + SpeakCalls(guideOn, speechAvailable, locale, text)
      ensures queue == if guideOn && speechAvailable then [Utterance(text, LangTag(locale), SpeechRate)] else old(queue)
    {
      if !guideOn || !speechAvailable {
        return;
      }
      var u := Utterance(text, LangTag(locale), SpeechRate);
      ghost var before := engineCalls;
      CancelSpeech();
      engineCalls := engineCalls + [Submit(u)];
      queue := queue + [u];
      assert engineCalls == before + [Cancel, Submit(u)];
      RunPreempts([], before, u);
      CancelSubmitKeepsDiscipline(before, u);
    }

    // ----- panel buttons -----

    /** The voice guide's "off" button. */
    method VoiceOff()
      requires Valid() && PanelRendered()
      modifies this`voiceGuide, this`queue, this`engineCalls
      ensures Valid()
      ensures Prefs() == old(Prefs()).(voiceGuide := false)
      ensures engineCalls == old(engineCalls) + CancelCalls(speechAvailable)
      ensures queue == []
    {
      voiceGuide := false;
      CancelSpeech();
    }

    /**
     * The voice guide's "on" button. The welcome effect runs only when
     * `voiceGuide` actually changes, and then speaks the welcome text.
     */
    method VoiceOn()
      requires Valid() && PanelRendered()
      modifies this`voiceGuide, this`queue, this`engineCalls
      ensures Valid()
      ensures Prefs() == old(Prefs()).(voiceGuide := true)
      ensures engineCalls == old(engineCalls) + SpeakCalls(!old(voiceGuide), speechAvailable, locale, WelcomeMessage(locale))
      ensures queue == if !old(voiceGuide) && speechAvailable then [Utterance(WelcomeMessage(locale), LangTag(locale), SpeechRate)] else old(queue)
    {
      var wasOn := voiceGuide;
      voiceGuide := true;
      if !wasOn {
        Speak(voiceGuide, WelcomeMessage(locale));
      }
    }

    /** A font-size button: set the size, announce it, apply the size to the page. */
    method SelectFontSize(size: FontSize)
      requires Valid() && PanelRendered()
      modifies this`fontSize, this`rootFontPx, this`queue, this`engineCalls
      ensures Valid()
      ensures Prefs() == old(Prefs()).(fontSize := size)
      ensures rootFontPx == FontSizePx(size)
      ensures engineCalls == old(engineCalls) + SpeakCalls(voiceGuide, speechAvailable, locale, FontSizeMessage(size, locale))
      ensures queue == if voiceGuide && speechAvailable then [Utterance(FontSizeMessage(size, locale), LangTag(locale), SpeechRate)] else old(queue)
    {
      fontSize := size;
      Speak(voiceGuide, FontSizeMessage(size, locale));
      ApplyFontSize();
    }

    /** A line-height button (it speaks nothing). */
    method SelectLineHeight(h: LineHeight)
      requires Valid() && PanelRendered()
      modifies this`lineHeight, this`bodyClasses
      ensures Valid()
      ensures Prefs() == old(Prefs()).(lineHeight := h)
      ensures bodyClasses == ToggleClass(old(bodyClasses), LargeLineHeightClass, h == LargeLineHeight)
    {
      lineHeight := h;
      ApplyLineHeight();
    }

    /** A contrast button (it speaks nothing). */
    method SelectHighContrast(on: bool)
      requires Valid() && PanelRendered()
      modifies this`highContrast, this`bodyClasses
      ensures Valid()
      ensures Prefs() == old(Prefs()).(highContrast := on)
      ensures bodyClasses == ToggleClass(old(bodyClasses), HighContrastClass, on)
    {
      highContrast := on;
      ApplyHighContrast();
    }

    /** A link-highlighting button (it speaks nothing). */
    method SelectHighlightLinks(on: bool)
      requires Valid() && PanelRendered()
      modifies this`highlightLinks, this`bodyClasses
      ensures Valid()
      ensures Prefs() == old(Prefs()).(highlightLinks := on)
      ensures bodyClasses == ToggleClass(old(bodyClasses), HighlightLinksClass, on)
    {
      highlightLinks := on;
      ApplyHighlightLinks();
    }

    /**
     * `resetAll`: every preference back to its default, a cancel, and the
     * reset announcement through the `speak` closure of the render before
     * the reset, so it is spoken exactly when voice guidance was on before
     * and an engine exists.
     * Then the effects of the changed preferences run.
     */
    method ResetAll()
      requires Valid() && PanelRendered()
      modifies this`voiceGuide, this`fontSize, this`highContrast, this`highlightLinks, this`lineHeight
      modifies this`rootFontPx, this`bodyClasses, this`queue, this`engineCalls
      ensures Valid()
      ensures Prefs() == Defaults
      ensures isOpen == old(isOpen) && mobileMenuOpen == old(mobileMenuOpen)
      ensures rootFontPx == FontSizePx(Normal)
      ensures bodyClasses == old(bodyClasses) - ManagedClasses
      ensures old(Prefs()) == Defaults ==> rootFontPx == old(rootFontPx) && bodyClasses == old(bodyClasses)
      ensures engineCalls == old(engineCalls) + CancelCalls(speechAvailable)
        + SpeakCalls(old(voiceGuide), speechAvailable, locale, ResetMessage(locale))
      ensures queue == if old(voiceGuide) && speechAvailable then [Utterance(ResetMessage(locale), LangTag(locale), SpeechRate)] else []
    {
      var speakWith := voiceGuide;
      SetDefaults();
      AnnounceReset(speakWith);
      ApplyFontSize();
      ApplyClassEffects();
      ApplyClassesClosedForm(old(bodyClasses), Defaults);
      if old(Prefs()) == Defaults {
        NoManagedClassByDefault(old(bodyClasses));
      }
    }

    /** The five setters `resetAll` issues, batched by React into one update. */
    method SetDefaults()
      modifies this`voiceGuide, this`fontSize, this`highContrast, this`highlightLinks, this`lineHeight
      ensures Prefs() == Defaults
    {
      voiceGuide := false;
      fontSize := Normal;
      highContrast := false;
      highlightLinks := false;
      lineHeight := NormalLineHeight;
    }

    /**
     * The speech part of `resetAll`: an unconditional cancel, then the
     * reset announcement through a `speak` closure that captured `guideOn`.
     */
    method AnnounceReset(guideOn: bool)
      requires SpeechValid()
      modifies this`queue, this`engineCalls
      ensures SpeechValid()
      ensures engineCalls == old(engineCalls) + CancelCalls(speechAvailable)
        + SpeakCalls(guideOn, speechAvailable, locale, ResetMessage(locale))
      ensures queue == if guideOn && speechAvailable then [Utterance(ResetMessage(locale), LangTag(locale), SpeechRate)] else []
    {
      CancelSpeech();
      Speak(guideOn, ResetMessage(locale));
    }

    // ----- visibility -----

    /** The floating button, which exists only while the widget is rendered. */
    method ToggleOpen()
      requires Valid() && Rendered()
      modifies this`isOpen
      ensures Valid()
      ensures isOpen == !old(isOpen)
    {
      isOpen := !isOpen;
    }

    /**
     * A keydown anywhere on the page. Only Alt with the key value `a`
     * toggles the panel (and prevents the browser's default action); the
     * listener stays registered while the widget is hidden.
     */
    method KeyDown(altKey: bool, key: string) returns (preventDefault: bool)
      requires Valid()
      modifies this`isOpen
      ensures Valid()
      ensures preventDefault == (altKey && key == "a")
      ensures isOpen == (if preventDefault then !old(isOpen) else old(isOpen))
    {
      preventDefault := false;
      if altKey && key == "a" {
        preventDefault := true;
        isOpen := !isOpen;
      }
    }

    /** The panel's close button and the backdrop, which exist only with the panel. */
    method Close()
      requires Valid() && PanelRendered()
      modifies this`isOpen
      ensures Valid()
      ensures !isOpen
    {
      isOpen := false;
    }

    /** A `mobileMenuChange` event carrying `detail.isOpen`. */
    method MobileMenuChange(detailIsOpen: bool)
      requires Valid()
      modifies this`mobileMenuOpen
      ensures Valid()
      ensures mobileMenuOpen == detailIsOpen
      ensures PanelRendered() == (isOpen && !detailIsOpen)
    {
      mobileMenuOpen := detailIsOpen;
    }
  }
}
