/**
 * The hero carousel (src/components/HeroSlider.tsx): a fixed list of
 * slides, one `current` index moved by the arrow buttons, the dots and a
 * periodic timer.
 */
module HeroSlider {

  datatype Slide = Slide(image: string, titleKey: string)

  /** The `slides` array. */
  const Slides: seq<Slide> := [
    Slide("/images/slider/maars-mars-colony.jpg", "mars"),
    Slide("/images/slider/ishe-ayse-seaside.jpg", "ishe"),
    Slide("/images/slider/ai-brain-nlp.jpg", "ai"),
    Slide("/images/slider/terakki-wearables.jpg", "terakki"),
    Slide("/images/slider/muasir-health-kiosk.jpg", "muasir"),
    Slide("/images/slider/academic-research-lab.jpg", "research"),
    Slide("/images/slider/team-mars-station.jpg", "team"),
    Slide("/images/slider/team-ataturk-monument.jpg", "ataturk")
  ]

  /** `slides.length`. */
  const SlideCount: nat := |Slides|

  /** A valid value of `current`. */
  type SlideIndex = i: int | 0 <= i < SlideCount witness 0

  /**
   * The successor `(prev + 1) % slides.length`, used by the next button and
   * the timer. The dividend is never negative, so JavaScript's truncating
   * `%` and Dafny's Euclidean `%` agree.
   */
  function Next(i: SlideIndex): SlideIndex
  {
    (i + 1) % SlideCount
  }

  /** The predecessor `(prev - 1 + slides.length) % slides.length`; again the dividend is non-negative. */
  function Prev(i: SlideIndex): SlideIndex
  {
    (i - 1 + SlideCount) % SlideCount
  }

  /** The index after `k` successive steps of Next (button presses or timer ticks). */
  function Advance(i: SlideIndex, k: nat): SlideIndex
    decreases k
  {
    if k == 0 then i else Advance(Next(i), k - 1)
  }

  /** There are eight slides. */
  lemma SlideCountIsEight()
    ensures SlideCount == 8
  {
  }

  /** Next wraps from the last slide to the first and otherwise moves one forward. */
  lemma NextSteps(i: SlideIndex)
    ensures Next(i) == if i == SlideCount - 1 then 0 else i + 1
    ensures Prev(i) == if i == 0 then SlideCount - 1 else i - 1
  {
  }

  /** Prev undoes Next and Next undoes Prev. */
  lemma NextPrevInverse(i: SlideIndex)
    ensures Prev(Next(i)) == i
    ensures Next(Prev(i)) == i
  {
    NextSteps(i);
    NextSteps(Next(i));
    NextSteps(Prev(i));
  }

  /** One more step after k steps is one more Next. */
  lemma {:induction false} AdvanceStep(i: SlideIndex, k: nat)
    ensures Advance(i, k + 1) == Next(Advance(i, k))
    decreases k
  {
    if k > 0 {
      AdvanceStep(Next(i), k - 1);
    }
  }

  /** k steps forward land on `(i + k) mod 8`. */
  lemma {:induction false} AdvanceModular(i: SlideIndex, k: nat)
    ensures Advance(i, k) == (i + k) % SlideCount
    decreases k
  {
    if k > 0 {
      AdvanceModular(Next(i), k - 1);
      NextSteps(i);
      if i == SlideCount - 1 {
        assert (0 + (k - 1)) % 8 == (i + k) % 8 by {
          assert i + k == (k - 1) + 8;
        }
      }
    }
  }

  /** Eight steps forward return to the starting slide. */
  lemma FullCycle(i: SlideIndex)
    ensures Advance(i, SlideCount) == i
    ensures forall k :: 0 < k < SlideCount ==> Advance(i, k) != i
  {
    AdvanceModular(i, SlideCount);
    forall k | 0 < k < SlideCount
      ensures Advance(i, k) != i
    {
      AdvanceModular(i, k);
    }
  }

  /**
   * The `index === current` flag of each slide (which one is shown) and of
   * each dot (which one is highlighted); both use the same comparison.
   */
  function Highlights(current: SlideIndex): (flags: seq<bool>)
    ensures |flags| == SlideCount
    ensures forall j :: 0 <= j < SlideCount ==> (flags[j] <==> j == current)
  {
    seq(SlideCount, j => j == current)
  }

  /** The number of true flags. */
  function CountTrue(flags: seq<bool>): nat
  {
    if flags == [] then 0 else (if flags[0] then 1 else 0) + CountTrue(flags[1..])
  }

  /** A flag list true at exactly position `c` (and nowhere else) has exactly one true flag. */
  lemma {:induction false} CountSingleTrue(flags: seq<bool>, c: int)
    requires 0 <= c < |flags|
    requires forall j :: 0 <= j < |flags| ==> (flags[j] <==> j == c)
    ensures CountTrue(flags) == 1
  {
    if c == 0 {
      NoneTrue(flags[1..]);
    } else {
      CountSingleTrue(flags[1..], c - 1);
    }
  }

  /** A flag list with no true flag counts zero. */
  lemma {:induction false} NoneTrue(flags: seq<bool>)
    requires forall j :: 0 <= j < |flags| ==> !flags[j]
    ensures CountTrue(flags) == 0
  {
    if flags != [] {
      NoneTrue(flags[1..]);
    }
  }

  /** Exactly one slide is shown and exactly one dot is highlighted. */
  lemma ExactlyOneActive(current: SlideIndex)
    ensures CountTrue(Highlights(current)) == 1
  {
    CountSingleTrue(Highlights(current), current);
  }

  /** The component's state: the `current` index. */
  class Carousel {
    var current: SlideIndex

    /** `useState(0)`. */
    constructor ()
      ensures current == 0
    {
      current := 0;
    }

    /** The right arrow. */
    method NextSlide()
      modifies this
      ensures current == Next(old(current))
    {
      current := (current + 1) % SlideCount;
    }

    /** The left arrow. */
    method PrevSlide()
      modifies this
      ensures current == Prev(old(current))
    {
      current := (current - 1 + SlideCount) % SlideCount;
    }

    /** The 5-second interval callback: the same update as the right arrow. */
    method Tick()
      modifies this
      ensures current == Next(old(current))
    {
      current := (current + 1) % SlideCount;
    }

    /** A dot: each dot passes its own position, one of 0..7. */
    method GoToSlide(index: SlideIndex)
      modifies this
      ensures current == index
    {
      current := index;
    }
  }
}
