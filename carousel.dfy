/** The testimonial carousel of TestimonialsSection: the index of the slide
    shown, whether it auto-advances, the timer tick and the four kinds of
    button (previous, play/pause, next, and one dot per slide). */
module Carousel {

  /** testimonials.length in the source; the model works for any count >= 1. */
  const TestimonialCount: nat := 3

  /** The index after i, wrapping at n: `(prev + 1) % testimonials.length`. */
  function NextIndex(i: nat, n: nat): (r: nat)
    requires i < n
    ensures r < n
    ensures r == if i == n - 1 then 0 else i + 1
  {
    (i + 1) % n
  }

  /** The index before i, wrapping at 0:
      `(prev - 1 + testimonials.length) % testimonials.length`. The dividend is
      never negative, so JavaScript's `%` and Dafny's agree here. */
  function PrevIndex(i: nat, n: nat): (r: nat)
    requires i < n
    ensures r < n
    ensures r == if i == 0 then n - 1 else i - 1
  {
    (i - 1 + n) % n
  }

  /** Going back one slide undoes going forward one, and the other way round. */
  lemma PrevUndoesNext(i: nat, n: nat)
    requires i < n
    ensures PrevIndex(NextIndex(i, n), n) == i
    ensures NextIndex(PrevIndex(i, n), n) == i
  {
  }

  /** The carousel's state: currentSlide and isAutoPlaying. */
  datatype CarouselState = CarouselState(slide: nat, autoPlaying: bool)

  /** useState(0) and useState(true). */
  const Initial: CarouselState := CarouselState(0, true)

  /** The events that change the carousel: a tick of the interval timer, a
      click on the previous, play/pause or next button, or on the dot of a
      slide. */
  datatype Control = Tick | PrevClick | PlayPauseClick | NextClick | DotClick(index: nat)

  /** A control the rendered carousel of n slides can produce: there is one dot
      per testimonial. */
  predicate Available(c: Control, n: nat)
  {
    c.DotClick? ==> c.index < n
  }

  /** One event, handled atomically. A tick advances only while auto-playing
      (the interval is armed only then); the previous and next buttons flip
      the mode and move one slide; play/pause flips the mode only; a dot jumps
      to its slide and pauses. */
  function Step(s: CarouselState, c: Control, n: nat): (r: CarouselState)
    requires s.slide < n && Available(c, n)
    ensures r.slide < n
    ensures c.Tick? ==> r.autoPlaying == s.autoPlaying && (r.slide != s.slide ==> s.autoPlaying)
  {
    match c
    case Tick => if s.autoPlaying then CarouselState(NextIndex(s.slide, n), true) else s
    case PrevClick => CarouselState(PrevIndex(s.slide, n), !s.autoPlaying)
    case PlayPauseClick => CarouselState(s.slide, !s.autoPlaying)
    case NextClick => CarouselState(NextIndex(s.slide, n), !s.autoPlaying)
    case DotClick(i) => CarouselState(i, false)
  }

  /** The state after handling the events of cs in order; every state on the
      way keeps the slide index within [0, n). */
  function Run(s: CarouselState, cs: seq<Control>, n: nat): (r: CarouselState)
    requires s.slide < n
    requires forall k :: 0 <= k < |cs| ==> Available(cs[k], n)
    ensures r.slide < n
    decreases |cs|
  {
    if cs == [] then s else Run(Step(s, cs[0], n), cs[1..], n)
  }

  /** k ticks of the timer, with no click in between. */
  function Ticks(k: nat): (cs: seq<Control>)
    ensures |cs| == k && forall j :: 0 <= j < k ==> cs[j] == Tick
  {
    seq(k, _ => Tick)
  }

  /** A positive multiple of n is at least n. */
  lemma MultipleAtLeast(d: int, n: nat)
    requires d >= 1
    ensures d * n >= n
  {
  }

  /** A multiple of n by a number at most 0 is at most 0. */
  lemma NonPositiveMultiple(d: int, n: nat)
    requires d <= 0
    ensures d * n <= 0
  {
  }

  /** An index below n is its own remainder. */
  lemma SmallRemainder(i: nat, n: nat)
    requires i < n
    ensures i % n == i
  {
  }

  /** Adding the modulus does not change a remainder. */
  lemma AddModulus(x: nat, n: nat)
    requires 0 < n
    ensures (x + n) % n == x % n
  {
    var q, r := x / n, x % n;
    var q', r' := (x + n) / n, (x + n) % n;
    assert x == q * n + r;
    assert x + n == q' * n + r';
    assert (q + 1) * n == q * n + n;
    var d := q + 1 - q';
    assert d * n == (q + 1) * n - q' * n;
    if d >= 1 {
      MultipleAtLeast(d, n);
    } else if d <= -1 {
      MultipleAtLeast(-d, n);
    }
  }

  /** Adding one to an index modulo n, then k - 1 more, is adding k. */
  lemma NextIndexThenAdd(i: nat, k: nat, n: nat)
    requires i < n && 0 < k
    ensures (NextIndex(i, n) + (k - 1)) % n == (i + k) % n
  {
    if i == n - 1 {
      AddModulus(k - 1, n);
    }
  }

  /** The first of k ticks in auto-play moves to the next slide and leaves
      k - 1 ticks to run. */
  lemma FirstTick(s: CarouselState, k: nat, n: nat)
    requires s.slide < n && s.autoPlaying && k > 0
    ensures Run(s, Ticks(k), n) == Run(CarouselState(NextIndex(s.slide, n), true), Ticks(k - 1), n)
  {
    assert Ticks(k)[1..] == Ticks(k - 1);
  }

  /** While auto-playing and left alone, k ticks advance the slide by exactly
      k, modulo n, and the carousel keeps auto-playing. */
  lemma {:induction false} TicksAdvance(s: CarouselState, k: nat, n: nat)
    requires s.slide < n && s.autoPlaying
    ensures Run(s, Ticks(k), n) == CarouselState((s.slide + k) % n, true)
    decreases k
  {
    if k == 0 {
      assert Ticks(0) == [];
      SmallRemainder(s.slide, n);
    } else {
      var t := CarouselState(NextIndex(s.slide, n), true);
      calc {
        Run(s, Ticks(k), n);
        { FirstTick(s, k, n); }
        Run(t, Ticks(k - 1), n);
        { TicksAdvance(t, k - 1, n); }
        CarouselState((t.slide + (k - 1)) % n, true);
        { NextIndexThenAdd(s.slide, k, n); }
        CarouselState((s.slide + k) % n, true);
      }
    }
  }

  /** While paused, ticks change nothing. */
  lemma {:induction false} TicksWhilePaused(s: CarouselState, k: nat, n: nat)
    requires s.slide < n && !s.autoPlaying
    ensures Run(s, Ticks(k), n) == s
    decreases k
  {
    if k > 0 {
      assert Ticks(k)[1..] == Ticks(k - 1);
      TicksWhilePaused(s, k - 1, n);
    }
  }

  /** n ticks in auto-play return to the slide they started from. */
  lemma FullCycle(s: CarouselState, n: nat)
    requires s.slide < n && s.autoPlaying
    ensures Run(s, Ticks(n), n) == s
  {
    TicksAdvance(s, n, n);
    AddModulus(s.slide, n);
    SmallRemainder(s.slide, n);
  }

  /** Two numbers with the same remainder modulo n are equal or at least n
      apart. */
  lemma SameRemainderApart(x: nat, y: nat, n: nat)
    requires 0 < n && x < y && x % n == y % n
    ensures y - x >= n
  {
    var qx, qy := x / n, y / n;
    assert x == qx * n + x % n;
    assert y == qy * n + y % n;
    var d := qy - qx;
    assert y - x == d * n;
    if d <= 0 {
      NonPositiveMultiple(d, n);
      assert false;
    }
    MultipleAtLeast(d, n);
  }

  /** Within one cycle of auto-play, no slide is shown twice: the slides after
      j and after k ticks differ for j < k < n, so n ticks show every
      testimonial exactly once. */
  lemma CycleShowsEachOnce(s: CarouselState, j: nat, k: nat, n: nat)
    requires s.slide < n && s.autoPlaying && j < k < n
    ensures Run(s, Ticks(j), n).slide != Run(s, Ticks(k), n).slide
  {
    TicksAdvance(s, j, n);
    TicksAdvance(s, k, n);
    if (s.slide + j) % n == (s.slide + k) % n {
      SameRemainderApart(s.slide + j, s.slide + k, n);
    }
  }

  /** The scenario with three testimonials: next from the initial state shows
      slide 1 and pauses, next again shows slide 2 and resumes, and the next
      tick wraps round to slide 0. */
  lemma ThreeSlideScenario()
    ensures Run(Initial, [NextClick], TestimonialCount) == CarouselState(1, false)
    ensures Run(Initial, [NextClick, NextClick], TestimonialCount) == CarouselState(2, true)
    ensures Run(Initial, [NextClick, NextClick, Tick], TestimonialCount) == CarouselState(0, true)
  {
  }

  /** The carousel component's state, updated in place by its handlers. */
  class Slides {
    /** testimonials.length */
    const count: nat
    /** currentSlide */
    var slide: nat
    /** isAutoPlaying */
    var autoPlaying: bool

    ghost predicate Valid()
      reads this
    {
      1 <= count && slide < count
    }

    function State(): CarouselState
      reads this
    {
      CarouselState(slide, autoPlaying)
    }

    /** Mounting: slide 0, auto-playing. */
    constructor (n: nat)
      requires 1 <= n
      ensures Valid() && count == n
      ensures State() == Initial
    {
      count := n;
      slide := 0;
      autoPlaying := true;
    }

    /** The interval callback: advance one slide, wrapping, while auto-playing;
        otherwise no timer is armed and nothing changes. */
    method TimerTick()
      requires Valid()
      modifies this
      ensures Valid() && State() == Step(old(State()), Tick, count)
      ensures autoPlaying == old(autoPlaying)
      ensures slide == if old(autoPlaying) then NextIndex(old(slide), count) else old(slide)
    {
      if autoPlaying {
        slide := NextIndex(slide, count);
      }
    }

    /** The previous button: flip the mode, then prevSlide. */
    method PrevButton()
      requires Valid()
      modifies this
      ensures Valid() && State() == Step(old(State()), PrevClick, count)
      ensures autoPlaying == !old(autoPlaying)
      ensures slide == PrevIndex(old(slide), count)
    {
      autoPlaying := !autoPlaying;
      slide := PrevIndex(slide, count);
    }

    /** The play/pause button: flip the mode only. */
    method PlayPauseButton()
      requires Valid()
      modifies this
      ensures Valid() && State() == Step(old(State()), PlayPauseClick, count)
      ensures autoPlaying == !old(autoPlaying) && slide == old(slide)
    {
      autoPlaying := !autoPlaying;
    }

    /** The next button: flip the mode, then nextSlide. */
    method NextButton()
      requires Valid()
      modifies this
      ensures Valid() && State() == Step(old(State()), NextClick, count)
      ensures autoPlaying == !old(autoPlaying)
      ensures slide == NextIndex(old(slide), count)
    {
      autoPlaying := !autoPlaying;
      slide := NextIndex(slide, count);
    }

    /** The dot of slide i: show slide i and pause. */
    method DotButton(i: nat)
      requires Valid() && i < count
      modifies this
      ensures Valid() && State() == Step(old(State()), DotClick(i), count)
      ensures slide == i && !autoPlaying
    {
      slide := i;
      autoPlaying := false;
    }
  }
}
