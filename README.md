# MAARS website: accessibility widget, header, carousel, locales and sitemap

This project is a Dafny model of the parts of the MAARS marketing site that carry state or logic. It covers five source files.

- **The accessibility widget** (`AccessibilityWidget.tsx`) holds five preferences: voice guide, font size, high contrast, link highlighting and line height. It applies them to the page as a root font size and three body classes. It announces some changes through the browser's speech engine. It shows a panel that the floating button and Alt+A toggle, and the mobile menu's `mobileMenuChange` event hides the whole widget.
- **The header** (`Header.tsx`) rewrites the leading locale of the current path when the user picks a language. It scrolls to a section or falls back to a URL. It has the language dropdown and mobile menu flags, and a scroll handler that samples the scroll position at most once per animation frame.
- **The hero carousel** (`HeroSlider.tsx`) moves one index over eight slides with the arrows, the dots and a timer.
- **The locale tables** (`routing.ts`) list the supported locales, the default locale, and each locale's name and flag.
- **The sitemap** (`sitemap.ts`) builds one entry per locale.

Files: `wrappers.dfy` (Option), `routing.dfy`, `accessibility.dfy`, `header.dfy`, `hero_slider.dfy`, `sitemap.dfy`, and `scenarios.dfy` (event sequences proved from the handlers' contracts).

## How the widget is modelled

`Accessibility.Widget` is a class whose fields are the component's state, the page state it writes and the speech engine's state:

- `isOpen` and `mobileMenuOpen`.
- The five preferences.
- The presentation sink: `rootFontPx` and `bodyClasses`.
- The speech engine: `queue` (pending utterances) and `engineCalls` (every `cancel`/`speak` call made).

Each handler method can only be called while its control is on screen. The floating button needs `Rendered()`, and the panel's buttons need `PanelRendered()`. Each method does what the click handler does, then runs the effects React runs for the state it changed. Its contract says the whole new state. `Valid()` is kept by every handler. It states that the page reflects the preferences, that the queue is what the calls leave, and that every submission came right after a cancel, so at most one utterance is pending.

`Speak(guideOn, text)` takes the `voiceGuide` value that the `speak` closure captured. In `ResetAll` that is the value from before the reset. So the reset announcement is spoken exactly when voice guidance was on before the reset and the browser has a speech engine, and afterwards `voiceGuide` is false. Without an engine, `speak` returns at once and nothing is ever spoken.

Some behaviour of the code worth knowing:

- Only the font-size buttons, `resetAll` and the welcome effect speak. The line-height, contrast and link buttons are silent.
- The reset announcement is gated by `voiceGuide`'s value before the reset.
- The welcome text falls back to Turkish for a locale outside tr/en/fr, while the language tag falls back to `en-US`. `layout.tsx` rejects such locales, so this is not reachable on the site.
- The Alt+A listener stays registered while the widget is hidden, so Alt+A still flips `isOpen` under the mobile menu. The panel then appears in its new state when the menu closes.

## Model

| member | source | states |
|---|---|---|
| `Routing.LocaleCode` | src/i18n/routing.ts:4 | every locale code is a two-letter string |
| `Routing.ParseLocale` | src/i18n/routing.ts:4-5 | a string recognised as a locale is that locale's code |
| `Routing.LocalesExact` | src/i18n/routing.ts:4 | `locales` has three pairwise distinct entries and contains every locale |
| `Routing.DefaultLocaleSupported` | src/i18n/routing.ts:9 | the default locale `tr` is a member of `locales` |
| `Routing.ParseLocaleRoundTrip` | src/i18n/routing.ts:4-5 | parsing a locale's code gives the locale, and parsing gives `l` exactly for `l`'s code |
| `Routing.LocaleTablesInjective` | src/i18n/routing.ts:17-21 | `localeNames` is total, and distinct locales have distinct names and codes |
| `Routing.LocaleFlagTable` | src/i18n/routing.ts:24-28 | `localeFlags` is total: tr→tr, en→gb, fr→fr |
| `Routing.LocaleName` | src/i18n/routing.ts:17-21 | the `localeNames` record: Türkçe, English, Français; its totality and distinctness are stated by LocaleTablesInjective |
| `Routing.LocaleFlag` | src/i18n/routing.ts:24-28 | the `localeFlags` record; its entries are stated by LocaleFlagTable |
| `Accessibility.FontSizeScale` | src/components/AccessibilityWidget.tsx:59-70 | small, normal and large are 14, 16 and 20 px, strictly increasing and distinct |
| `Accessibility.FontSizePx` | src/components/AccessibilityWidget.tsx:62-68 | the pixel size the font-size effect sets for each size; its values are stated by FontSizeScale |
| `Accessibility.ToggleClass` | src/components/AccessibilityWidget.tsx:75-79 | `classList.add`/`remove` makes the class present iff the flag is on and touches no other class |
| `Accessibility.ApplyClasses` | src/components/AccessibilityWidget.tsx:73-103 | after the class effects, high-contrast, highlight-links and large-line-height are present iff their preferences say so, and all other classes are untouched |
| `Accessibility.ApplyClassesClosedForm` | src/components/AccessibilityWidget.tsx:73-103 | the effects keep the page's own classes and set the managed ones to exactly those the preferences turn on |
| `Accessibility.ApplyClassesIdempotent` | src/components/AccessibilityWidget.tsx:73-103 | applying the same preferences twice equals applying them once |
| `Accessibility.ReflectsIsFixpoint` | src/components/AccessibilityWidget.tsx:73-103 | the classes agree with the preferences iff re-applying them changes nothing |
| `Accessibility.RunAppend` | src/components/AccessibilityWidget.tsx:39-43 | running engine calls in two batches equals running them in one |
| `Accessibility.RunPreempts` | src/components/AccessibilityWidget.tsx:39-43 | a cancel followed by one submission leaves exactly that utterance pending, whatever was pending before |
| `Accessibility.RunCancels` | src/components/AccessibilityWidget.tsx:113 | `speechSynthesis.cancel()` leaves nothing pending |
| `Accessibility.CancelBeforeSubmitMeans` | src/components/AccessibilityWidget.tsx:39-43 | in a log kept under the widget's discipline, every submission comes right after a cancel |
| `Accessibility.AtMostOnePending` | src/components/AccessibilityWidget.tsx:37-44 | under that discipline at most one utterance is ever pending |
| `Accessibility.LangTag` | src/components/AccessibilityWidget.tsx:41 | the tag is tr-TR iff the locale is tr, fr-FR iff it is fr, and en-US for every other locale |
| `Accessibility.LangTagOfRoutingLocale` | src/components/AccessibilityWidget.tsx:41 | for each routing locale the language tag starts with that locale's code |
| `Accessibility.WelcomeTable` | src/components/AccessibilityWidget.tsx:49-53 | the `messages` record has an entry exactly for tr, en and fr, and no entry is empty |
| `Accessibility.WelcomeMessage` | src/components/AccessibilityWidget.tsx:54 | the locale's welcome text, or the Turkish one when the entry is missing or empty, is never empty |
| `Accessibility.WelcomeFallback` | src/components/AccessibilityWidget.tsx:47-56 | each routing locale has its own, distinct welcome text; any other locale gets the Turkish text but the en-US voice |
| `Accessibility.FontSizeMessagesDistinct` | src/components/AccessibilityWidget.tsx:241-285 | the three font-size buttons announce three different texts in every locale |
| `Accessibility.FontSizeMessage` | src/components/AccessibilityWidget.tsx:245-275 | each font-size button's confirmation, chosen by locale, is non-empty |
| `Accessibility.ResetMessage` | src/components/AccessibilityWidget.tsx:114 | the reset confirmation is non-empty and differs from every font-size confirmation in the same locale |
| `Accessibility.CancelCalls` | src/components/AccessibilityWidget.tsx:113 | `speechSynthesis?.cancel()` calls the engine iff it exists, and then empties any queue |
| `Accessibility.SpeakCalls` | src/components/AccessibilityWidget.tsx:37-44 | `speak` calls the engine iff the captured flag is on and the engine exists, with at most two calls |
| `Accessibility.SpeakCallsShape` | src/components/AccessibilityWidget.tsx:37-44 | `speak` makes no call when voice guidance is off or there is no engine; otherwise it makes a cancel and then one submission in the locale's tag at rate 0.9, which leaves that utterance alone pending |
| `Accessibility.Widget.constructor` | src/components/AccessibilityWidget.tsx:19-34 | on mount every preference is at its default, the panel is closed and not suppressed, the root size is 16 px, the managed classes are removed and nothing is spoken |
| `Accessibility.Widget.Rendered` | src/components/AccessibilityWidget.tsx:130 | the widget renders nothing while the mobile menu is open; the floating button requires it |
| `Accessibility.Widget.PanelRendered` | src/components/AccessibilityWidget.tsx:130-156 | the panel renders only when the widget renders, and never while the mobile menu is open |
| `Accessibility.Widget.ApplyFontSize` | src/components/AccessibilityWidget.tsx:59-70 | the font-size effect sets the root size to the size's pixel value |
| `Accessibility.Widget.ApplyHighContrast` | src/components/AccessibilityWidget.tsx:73-81 | the contrast effect adds or removes `high-contrast` only |
| `Accessibility.Widget.ApplyHighlightLinks` | src/components/AccessibilityWidget.tsx:84-92 | the link effect adds or removes `highlight-links` only |
| `Accessibility.Widget.ApplyLineHeight` | src/components/AccessibilityWidget.tsx:95-103 | the line-height effect adds or removes `large-line-height` only |
| `Accessibility.Widget.ApplyClassEffects` | src/components/AccessibilityWidget.tsx:73-103 | the three class effects together compute ApplyClasses on the body's classes |
| `Accessibility.Widget.CancelSpeech` | src/components/AccessibilityWidget.tsx:113 | `speechSynthesis?.cancel()` records one cancel when there is an engine, empties the queue and keeps the speech invariant |
| `Accessibility.Widget.Speak` | src/components/AccessibilityWidget.tsx:37-44 | speak does nothing unless the captured flag is on and an engine exists; otherwise it cancels, then submits one utterance, which is then the only one pending |
| `Accessibility.Widget.VoiceOff` | src/components/AccessibilityWidget.tsx:196-201 | the off button clears only voiceGuide and cancels any pending utterance |
| `Accessibility.Widget.VoiceOn` | src/components/AccessibilityWidget.tsx:216-219 | the on button sets only voiceGuide, and the welcome is spoken exactly when the flag was off before and an engine exists |
| `Accessibility.Widget.SelectFontSize` | src/components/AccessibilityWidget.tsx:241-285 | a font-size button replaces only fontSize, sets the root size, and announces the size exactly when voice guidance is on and an engine exists |
| `Accessibility.Widget.SelectLineHeight` | src/components/AccessibilityWidget.tsx:295-322 | a line-height button replaces only lineHeight and toggles only `large-line-height` |
| `Accessibility.Widget.SelectHighContrast` | src/components/AccessibilityWidget.tsx:332-359 | a contrast button replaces only highContrast and toggles only `high-contrast` |
| `Accessibility.Widget.SelectHighlightLinks` | src/components/AccessibilityWidget.tsx:369-396 | a link button replaces only highlightLinks and toggles only `highlight-links` |
| `Accessibility.Widget.SetDefaults` | src/components/AccessibilityWidget.tsx:108-112 | the five setters of resetAll give exactly the default tuple |
| `Accessibility.Widget.AnnounceReset` | src/components/AccessibilityWidget.tsx:113-114 | reset cancels, then announces the reset exactly when the captured flag is on and an engine exists, leaving at most that announcement pending |
| `Accessibility.Widget.ResetAll` | src/components/AccessibilityWidget.tsx:106-115 | reset yields the default tuple from any state, leaves isOpen and mobileMenuOpen unchanged, sets 16 px, removes only the managed classes, changes nothing on the page when already at the defaults, and speaks the reset message iff voiceGuide was on before the reset and an engine exists |
| `Accessibility.Widget.ToggleOpen` | src/components/AccessibilityWidget.tsx:136-139 | the floating button, present only while the widget renders, flips isOpen and changes nothing else |
| `Accessibility.Widget.KeyDown` | src/components/AccessibilityWidget.tsx:118-127 | Alt with key `a` flips isOpen and prevents the default; any other key changes nothing |
| `Accessibility.Widget.Close` | src/components/AccessibilityWidget.tsx:177-178 | the close button (and the backdrop at line 161), present only with the panel, set isOpen to false and change nothing else |
| `Accessibility.Widget.MobileMenuChange` | src/components/AccessibilityWidget.tsx:22-29 | the event sets mobileMenuOpen to the event's flag, keeps isOpen, and the panel then renders iff isOpen and the menu is closed |
| `Header.RewriteLocale` | src/components/Header.tsx:62-66 | for a routing locale, a leading `/tr`, `/en` or `/fr` is replaced by `/` and its code, keeping the rest and the length, so the result matches again; a path without one is returned unchanged |
| `Header.HasLocalePrefix` | src/components/Header.tsx:64 | the anchored pattern matches on the first three characters; characterised by HasLocalePrefixIff |
| `Header.FallbackUrl` | src/components/Header.tsx:58 | the fallback URL carries the locale prefix of `locale`, followed by `/` and `href` |
| `Header.PathLocalesAreRoutingLocales` | src/components/Header.tsx:64 | the pattern's alternatives are exactly the routing locales' codes |
| `Header.HasLocalePrefixIff` | src/components/Header.tsx:64 | the pattern matches iff the path starts with `/` and some locale's code |
| `Header.RewriteIdempotent` | src/components/Header.tsx:64 | switching twice to the same routing locale equals switching once |
| `Header.RewriteFallback` | src/components/Header.tsx:51-66 | switching locale on a fallback URL gives the fallback URL of the new locale |
| `Header.RewriteMatchesCharacters` | src/components/Header.tsx:64 | the match is on characters, not segments: `/travel` becomes `/enavel` |
| `Header.HeaderState.constructor` | src/components/Header.tsx:18-27 | dropdown, mobile menu, shadow and throttle all start off, with nothing navigated |
| `Header.HeaderState.LangMenuRendered` | src/components/Header.tsx:107 | the dropdown renders while isLangOpen; ChooseLocale requires it |
| `Header.HeaderState.MobileNavRendered` | src/components/Header.tsx:147 | the mobile navigation renders while isMobileMenuOpen |
| `Header.HeaderState.OnScroll` | src/components/Header.tsx:27-36 | a scroll requests a frame only when none is pending, so at most one is pending |
| `Header.HeaderState.OnAnimationFrame` | src/components/Header.tsx:30-33 | the frame sets scrolled to scrollY > 10 (scrollY a real, as `window.scrollY` is fractional) and clears the throttle |
| `Header.HeaderState.OnMouseDown` | src/components/Header.tsx:42-46 | a mousedown outside the language switcher (the ref's element, button included) closes the dropdown; one inside leaves it as it is |
| `Header.HeaderState.ToggleLangMenu` | src/components/Header.tsx:100 | the language button flips isLangOpen only |
| `Header.HeaderState.ChooseLocale` | src/components/Header.tsx:112-115 | choosing a locale, possible only while the dropdown is open, navigates to the rewritten current path and closes it |
| `Header.HeaderState.ToggleMobileMenu` | src/components/Header.tsx:130 | the mobile menu button flips isMobileMenuOpen only |
| `Header.HeaderState.NavClick` | src/components/Header.tsx:51-60 | with the section found: scroll to it, close the mobile menu, prevent the default; otherwise navigate to `/locale/href` and leave the menu as it is |
| `HeroSlider.SlideCountIsEight` | src/components/HeroSlider.tsx:6-39 | there are eight slides |
| `HeroSlider.Next` | src/components/HeroSlider.tsx:61 | `(prev + 1) % slides.length` on a valid index; its steps are stated by NextSteps |
| `HeroSlider.Prev` | src/components/HeroSlider.tsx:57 | `(prev - 1 + slides.length) % slides.length` on a valid index; its steps are stated by NextSteps |
| `HeroSlider.Advance` | src/components/HeroSlider.tsx:45-48 | the index after k steps of Next; stated in closed form by AdvanceModular |
| `HeroSlider.NextSteps` | src/components/HeroSlider.tsx:56-62 | next moves one forward and wraps from 7 to 0; prev moves one back and wraps from 0 to 7 |
| `HeroSlider.NextPrevInverse` | src/components/HeroSlider.tsx:56-62 | prev after next, and next after prev, restore the index |
| `HeroSlider.AdvanceStep` | src/components/HeroSlider.tsx:45-48 | one more timer tick after k ticks is one more Next |
| `HeroSlider.AdvanceModular` | src/components/HeroSlider.tsx:45-48 | k steps forward land on (i + k) mod 8 |
| `HeroSlider.FullCycle` | src/components/HeroSlider.tsx:45-48 | eight steps return to the start, and no fewer do |
| `HeroSlider.Highlights` | src/components/HeroSlider.tsx:70-71 | a slide is shown (and its dot highlighted, line 119) iff its index is current |
| `HeroSlider.ExactlyOneActive` | src/components/HeroSlider.tsx:67-72 | exactly one slide is shown and exactly one dot is highlighted |
| `HeroSlider.Carousel.constructor` | src/components/HeroSlider.tsx:43 | current starts at 0 |
| `HeroSlider.Carousel.NextSlide` | src/components/HeroSlider.tsx:60-62 | the right arrow moves to the successor |
| `HeroSlider.Carousel.PrevSlide` | src/components/HeroSlider.tsx:56-58 | the left arrow moves to the predecessor |
| `HeroSlider.Carousel.Tick` | src/components/HeroSlider.tsx:45-50 | a timer tick has the same effect as the right arrow |
| `HeroSlider.Carousel.GoToSlide` | src/components/HeroSlider.tsx:52-54 | a dot sets current to its index, which is always in 0..7 |
| `Sitemap.UrlLocale` | src/app/sitemap.ts:13 | a URL recognised by the scheme is `https://maars.tr/` followed by the locale it yields |
| `Sitemap.LocaleUrl` | src/app/sitemap.ts:13 | the URL `${baseUrl}/${locale}`; inverted by UrlLocale (UrlRoundTrip) |
| `Sitemap.UrlRoundTrip` | src/app/sitemap.ts:4-13 | every URL built by the scheme is recognised and gives back its locale |
| `Sitemap.BuildSitemap` | src/app/sitemap.ts:3-21 | one entry per sitemap locale, in order, each with URL `https://maars.tr/<locale>`, the same lastModified, weekly frequency and priority 1 |
| `Sitemap.SitemapCoversRoutingLocales` | src/app/sitemap.ts:5 | the sitemap's locales are three distinct codes in the order en, tr, fr, and they are exactly the routing locales |
| `Sitemap.DistinctUrls` | src/app/sitemap.ts:11-18 | entries for different locales have different URLs |
| `Scenarios.AltATwice` | src/components/AccessibilityWidget.tsx:118-127 | pressing Alt+A twice restores isOpen |
| `Scenarios.ToggleTwice` | src/components/AccessibilityWidget.tsx:136-139 | two clicks on the floating button restore isOpen |
| `Scenarios.OverlayRoundTrip` | src/components/AccessibilityWidget.tsx:22-29 | nothing renders while the mobile menu is open; when it closes, the panel reappears iff it was requested open, with no new click unless Alt+A was pressed meanwhile |
| `Scenarios.ResetTwice` | src/components/AccessibilityWidget.tsx:106-115 | a second reset changes neither the preferences nor the page, and leaves nothing pending |
| `Scenarios.LargeFontScenario` | src/components/AccessibilityWidget.tsx:271-285 | from the defaults, large keeps Valid() and gives the tuple with only the size changed and 20 px; if voice guidance is on and an engine exists, exactly one confirmation naming the large size is pending; otherwise the engine is not called and its queue is unchanged |
| `Scenarios.NextThenPrev` | src/components/HeroSlider.tsx:56-62 | the previous arrow undoes the next arrow on the component |
| `Scenarios.EightTicks` | src/components/HeroSlider.tsx:45-50 | eight timer ticks bring the carousel back to its slide |

## Left out

- Rendering is not modelled: JSX markup, SVG icons, inline colours and Tailwind classes. Only the conditions that decide what renders are kept, in `Widget.Rendered`, `Widget.PanelRendered`, `HeaderState.LangMenuRendered`, `HeaderState.MobileNavRendered` and `HeroSlider.Highlights`.
- Translated labels (`useTranslations`, `t`) are left out. They only feed rendered text. The spoken texts are literals in the source and are modelled as such.
- `haptic` / `navigator.vibrate` is left out. It has no effect on any state.
- Listener registration and removal (`addEventListener` and its cleanups) are not modelled. Events are method calls on the component for its whole lifetime.
- Timing is not modelled: the 5-second interval and `requestAnimationFrame` scheduling. Ticks and frames are method calls, and a frame can run only while one is pending.
- Browser I/O is not performed. `document.querySelector` is the `found` argument. `scrollIntoView` and assignments to `window.location.href` are recorded in `scrolledTo` and `navigation`. `window.location.pathname` and `window.scrollY` are arguments.
- The `typeof document` / `typeof window` guards are not modelled, because effects and handlers only run in the browser. Whether `window.speechSynthesis` exists is the constant `speechAvailable`.
- The speech engine finishing an utterance on its own is not modelled. `queue` holds what was submitted and not cancelled.
- The 0.9 rate is a `real` constant and is never computed with.
- React's scheduling is simplified. React runs an effect only when its dependency changed. The model runs the effect of every field a handler sets. The two agree because re-applying a value the page already reflects changes nothing (`ReflectsIsFixpoint`). The component's re-renders are not modelled.
- Header's mobile menu and the widget's `mobileMenuChange` event are not connected. `Header.tsx` never dispatches that event, so it is an independent input to `Widget.MobileMenuChange`.
- `Header.HeaderState.NavClick` accepts any `href`. The header only passes the six `navItems` anchors.
- `Accessibility.WelcomeMessage` looks up only the three keys of `messages`. JavaScript's inherited object properties are not modelled.
- `defineRouting` and `createNavigation` from next-intl are not modelled: they are library calls.
- `new Date()` in the sitemap is not modelled. `lastModified` is an argument, given in milliseconds.
- `src/components/Footer.tsx`, `tailwind.config.ts`, `next.config.ts`, `src/app/[locale]/page.tsx` and `src/app/[locale]/layout.tsx` are not part of this model.
