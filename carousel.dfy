/**
 * The slide carousel: which slide and which navigation dot are highlighted,
 * stepping forward and back with wrap-around, and the autoplay timer that
 * hovering pauses. Slides and dots are reduced to the state the script
 * changes on them (the `active` class, a dot's `data-i`); the interval timer
 * is reduced to whether it is set.
 */
module Carousel {
  import opened JsNumbers

  /** A navigation dot: whether it carries the `active` class, and the slide number stored in its `data-i`. */
  datatype Dot = Dot(active: bool, target: int)

  /** A key the page's keydown listener can receive. */
  datatype Key = ArrowLeft | ArrowRight | OtherKey

  class Slider {
    /** The `active` class of each slide, in document order; the set of slides never changes. */
    const slides: array<bool>
    /** Whether the page has a dots container (`#slider-dots`). */
    const hasDots: bool
    /** The buttons inside the dots container, in document order. */
    var dots: array<Dot>
    /** The current slide; NaN once it has been folded by a zero slide count. */
    var index: JsNum
    var autoplay: bool
    /** Whether an autoplay interval is currently set (`timer` is not null). */
    var armed: bool

    /** Exactly the slide and the dot numbered `k` are highlighted. */
    ghost predicate Shows(k: JsNum)
      reads this, slides, dots
    {
      (forall s :: 0 <= s < slides.Length ==> slides[s] == (k == Int(s))) &&
      (hasDots ==> forall d :: 0 <= d < dots.Length ==> dots[d].active == (k == Int(d)))
    }

    ghost predicate Valid()
      reads this, slides, dots
    {
      (slides.Length > 0 ==> index.Int? && 0 <= index.v < slides.Length) &&
      (slides.Length == 0 ==> index == NaN) &&
      (hasDots ==> dots.Length == slides.Length && forall d :: 0 <= d < dots.Length ==> dots[d].target == d) &&
      (!hasDots ==> dots.Length == 0) &&
      Shows(index) &&
      armed == autoplay
    }

    /**
     * Page load: build the dots, show slide 0 and start autoplay.
     * `initial` gives the slides' classes as authored in the page.
     */
    constructor (initial: seq<bool>, hasDotsContainer: bool)
      ensures Valid()
      ensures slides.Length == |initial| && hasDots == hasDotsContainer
      ensures index == Wrap(Int(0), |initial|)
      ensures autoplay && armed
    {
      slides := new bool[|initial|](k requires 0 <= k < |initial| => initial[k]);
      hasDots := hasDotsContainer;
      dots := new Dot[0];
      index := Int(0);
      autoplay := true;
      armed := false;
      new;
      BuildDots();
      SetActive(Int(0));
      RestartAutoplay();
    }

    /** Replace the dots container's children by one dot per slide, dot 0 highlighted. */
    method BuildDots()
      modifies this`dots
      ensures !hasDots ==> dots == old(dots)
      ensures hasDots ==> fresh(dots) && dots.Length == slides.Length
      ensures hasDots ==> forall d :: 0 <= d < dots.Length ==> dots[d] == Dot(d == 0, d)
    {
      if !hasDots {
        return;
      }
      var built := new Dot[slides.Length];
      for i := 0 to slides.Length
        invariant forall d :: 0 <= d < i ==> built[d] == Dot(d == 0, d)
      {
        built[i] := Dot(i == 0, i);
      }
      dots := built;
    }

    /** Fold `i` into the slide range and highlight exactly that slide and that dot. */
    method SetActive(i: JsNum)
      modifies this`index, slides, dots
      ensures index == Wrap(i, slides.Length)
      ensures Shows(index)
      ensures hasDots ==> forall d :: 0 <= d < dots.Length ==> dots[d] == old(dots[d]).(active := index == Int(d))
      ensures !hasDots ==> dots[..] == old(dots[..])
      ensures old(Valid()) && i == old(index) ==> index == old(index) && slides[..] == old(slides[..]) && dots[..] == old(dots[..])
      ensures dots == old(dots) && autoplay == old(autoplay) && armed == old(armed)
    {
      WrapIsEuclideanMod(i, slides.Length);
      if i.Int? && 0 <= i.v < slides.Length {
        WrapInRange(i.v, slides.Length);
      }
      index := Wrap(i, slides.Length);
      for s := 0 to slides.Length
        modifies slides
        invariant forall t :: 0 <= t < s ==> slides[t] == (index == Int(t))
        invariant forall t :: s <= t < slides.Length ==> slides[t] == old(slides[t])
      {
        slides[s] := index == Int(s);
      }
      if hasDots {
        for d := 0 to dots.Length
          modifies dots
          invariant forall t :: 0 <= t < d ==> dots[t] == old(dots[t]).(active := index == Int(t))
          invariant forall t :: d <= t < dots.Length ==> dots[t] == old(dots[t])
        {
          dots[d] := dots[d].(active := index == Int(d));
        }
      }
    }

    /** (Re)start the autoplay interval, unless hovering has paused autoplay. */
    method RestartAutoplay()
      modifies this`armed
      ensures autoplay ==> armed
      ensures !autoplay ==> armed == old(armed)
    {
      if !autoplay {
        return;
      }
      armed := true;
    }

    /** The "next" button and the right arrow key. */
    method Next()
      requires Valid()
      modifies this, slides, dots
      ensures Valid()
      ensures index == Wrap(Add(old(index), 1), slides.Length)
      ensures dots == old(dots) && autoplay == old(autoplay)
    {
      SetActive(Add(index, 1));
      RestartAutoplay();
    }

    /** The "prev" button and the left arrow key. */
    method Prev()
      requires Valid()
      modifies this, slides, dots
      ensures Valid()
      ensures index == Wrap(Add(old(index), -1), slides.Length)
      ensures dots == old(dots) && autoplay == old(autoplay)
    {
      SetActive(Add(index, -1));
      RestartAutoplay();
    }

    /** A click on dot `d` shows the slide named by its `data-i`. */
    method ClickDot(d: nat)
      requires Valid() && d < dots.Length
      modifies this, slides, dots
      ensures Valid()
      ensures index == Int(d)
      ensures dots == old(dots) && autoplay == old(autoplay)
    {
      WrapInRange(dots[d].target, slides.Length);
      SetActive(Int(dots[d].target));
      RestartAutoplay();
    }

    /** The autoplay interval elapses: it advances the slide without re-arming itself. */
    method TimerFires()
      requires Valid() && armed
      modifies this`index, slides, dots
      ensures Valid()
      ensures index == Wrap(Add(old(index), 1), slides.Length)
      ensures dots == old(dots) && autoplay == old(autoplay) && armed
    {
      SetActive(Add(index, 1));
    }

    /** The pointer enters the slider: autoplay pauses and the interval is cleared. */
    method MouseEnter()
      requires Valid()
      modifies this`autoplay, this`armed
      ensures Valid()
      ensures !autoplay && !armed
    {
      autoplay := false;
      if armed {
        armed := false;
      }
    }

    /** The pointer leaves the slider: autoplay resumes and the interval is set again. */
    method MouseLeave()
      requires Valid()
      modifies this`autoplay, this`armed
      ensures Valid()
      ensures autoplay && armed
    {
      autoplay := true;
      RestartAutoplay();
    }

    /** The window's keydown listener: the left and right arrows step the carousel. */
    method KeyDown(key: Key)
      requires Valid()
      modifies this, slides, dots
      ensures Valid()
      ensures key == ArrowLeft ==> index == Wrap(Add(old(index), -1), slides.Length)
      ensures key == ArrowRight ==> index == Wrap(Add(old(index), 1), slides.Length)
      ensures key == OtherKey ==> index == old(index) && slides[..] == old(slides[..]) && dots[..] == old(dots[..])
      ensures dots == old(dots) && autoplay == old(autoplay)
    {
      if key == ArrowLeft {
        Prev();
      }
      if key == ArrowRight {
        Next();
      }
    }
  }
}
