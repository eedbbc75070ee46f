/**
 * HybridScrollRenderer: every slide is drawn in one scrolling container and the
 * current slide follows the scroll position.
 */
module HybridScrollRenderer {
  import opened Wrappers
  import opened JsMath
  import opened SlideData
  import opened RendererCommon
  import Navigation
  import SlideStore

  /** How far the container can scroll: `scrollHeight - clientHeight`. */
  function ScrollRange(c: Container): real {
    c.scrollHeight - c.clientHeight
  }

  /** `progress` in `handleScroll`: the fraction of the scroll range travelled, 0 when nothing can scroll. */
  function ScrollProgress(c: Container): (p: real)
    ensures ScrollRange(c) > 0.0 ==> p * ScrollRange(c) == c.scrollTop
    ensures ScrollRange(c) <= 0.0 ==> p == 0.0
    ensures 0.0 <= c.scrollTop <= ScrollRange(c) ==> 0.0 <= p <= 1.0
  {
    if ScrollRange(c) > 0.0 then c.scrollTop / ScrollRange(c) else 0.0
  }

  /** `newIndex` in `handleScroll`: the slide nearest to `progress` along n slides. */
  function IndexAt(progress: real, n: int): (i: int)
    ensures (i as real) - 0.5 <= progress * ((n - 1) as real) < (i as real) + 0.5
  {
    Round(progress * ((n - 1) as real))
  }

  /** A progress in [0, 1] always names one of the n slides, so the range guard only matters for n = 0. */
  lemma IndexAtStaysInDeck(progress: real, n: int)
    requires 0.0 <= progress <= 1.0 && n >= 1
    ensures 0 <= IndexAt(progress, n) < n
  {
    FractionBounds(progress, (n - 1) as real);
  }

  /** The top of the container maps to the first slide and the bottom to the last. */
  lemma ScrollEnds(c: Container, n: int)
    requires ScrollRange(c) > 0.0 && n >= 1
    ensures IndexAt(ScrollProgress(c.(scrollTop := 0.0)), n) == 0
    ensures IndexAt(ScrollProgress(c.(scrollTop := ScrollRange(c))), n) == n - 1
  {
    assert ScrollProgress(c.(scrollTop := 0.0)) == 0.0;
    RoundInteger(0);
    assert ScrollProgress(c.(scrollTop := ScrollRange(c))) == 1.0;
    RoundInteger(n - 1);
  }

  /** With no scroll range every offset reads as the first slide. */
  lemma NoScrollRangeMeansFirstSlide(c: Container, n: int)
    requires ScrollRange(c) <= 0.0
    ensures IndexAt(ScrollProgress(c), n) == 0
  {
    RoundInteger(0);
  }

  /**
   * `navigateToSlide(target)`: scroll to the target's share of
   * `scrollHeight - innerHeight`. With one slide the share is 0 / 0, which is NaN.
   */
  function NavigateTarget(container: Option<Container>, innerHeight: real, n: int, target: int): (cmd: ScrollCommand)
    ensures cmd.ScrollTo? <==> container.Some? && 0 <= target < n
    ensures cmd.ScrollTo? && n >= 2 ==> cmd.top.Finite?
    ensures cmd.ScrollTo? && n >= 2 ==>
      cmd.top.value == (target as real) / ((n - 1) as real) * (container.value.scrollHeight - innerHeight)
    ensures cmd.ScrollTo? && n == 1 ==> cmd.top == NaN
  {
    if container.Some? && 0 <= target < n then
      ScrollTo(Scale(Divide(target as real, (n - 1) as real), container.value.scrollHeight - innerHeight))
    else NoScroll
  }

  /**
   * When the window's height equals the container's client height, scrolling to
   * the offset `navigateToSlide(i)` computes makes `handleScroll` derive i again,
   * and that offset lies within the scroll range.
   */
  lemma NavigateThenScrollRoundTrip(c: Container, innerHeight: real, n: int, i: int)
    requires n >= 2 && 0 <= i < n
    requires c.clientHeight == innerHeight && ScrollRange(c) > 0.0
    ensures NavigateTarget(Some(c), innerHeight, n, i).top.Finite?
    ensures var y := NavigateTarget(Some(c), innerHeight, n, i).top.value;
      0.0 <= y <= ScrollRange(c) && IndexAt(ScrollProgress(c.(scrollTop := y)), n) == i
  {
    var d := ScrollRange(c);
    var m := (n - 1) as real;
    var q := (i as real) / m;
    QuotientBounds(i as real, m);
    assert c.scrollHeight - innerHeight == d;
    assert Divide(i as real, m) == Finite(q);
    var y := q * d;
    assert NavigateTarget(Some(c), innerHeight, n, i) == ScrollTo(Finite(y));
    FractionBounds(q, d);
    Cancel(q, d);
    assert ScrollProgress(c.(scrollTop := y)) == q;
    Cancel(i as real, m);
    assert q * m == i as real;
    RoundInteger(i);
  }

  /** The swipe handlers: up moves to the next slide, down to the previous one, each only inside the deck. */
  function Swipe(dir: SwipeDirection, container: Option<Container>, innerHeight: real, current: int, n: int): (cmd: ScrollCommand)
    ensures dir == SwipeUp && current < n - 1 ==> cmd == NavigateTarget(container, innerHeight, n, current + 1)
    ensures dir == SwipeDown && current > 0 ==> cmd == NavigateTarget(container, innerHeight, n, current - 1)
    ensures cmd.ScrollTo? ==> (dir == SwipeUp && current < n - 1) || (dir == SwipeDown && current > 0)
  {
    match dir
    case SwipeUp => if current < n - 1 then NavigateTarget(container, innerHeight, n, current + 1) else NoScroll
    case SwipeDown => if current > 0 then NavigateTarget(container, innerHeight, n, current - 1) else NoScroll
    case _ => NoScroll
  }

  /**
   * A swipe followed by the scroll event its `scrollTo` produces moves the store
   * exactly as `nextSlide` (up) or `prevSlide` (down) would.
   */
  lemma SwipeThenScroll(s: Navigation.Nav, dir: SwipeDirection, c: Container, innerHeight: real)
    requires Navigation.InRange(s) && |s.slides| >= 2
    requires c.clientHeight == innerHeight && ScrollRange(c) > 0.0
    requires dir == SwipeUp || dir == SwipeDown
    ensures var cmd := Swipe(dir, Some(c), innerHeight, s.current, |s.slides|);
      if cmd == NoScroll then
        (if dir == SwipeUp then Navigation.NextSlide(s) else Navigation.PrevSlide(s)) == s
      else
        cmd.top.Finite? &&
        SyncToIndex(s, IndexAt(ScrollProgress(c.(scrollTop := cmd.top.value)), |s.slides|))
          == (if dir == SwipeUp then Navigation.NextSlide(s) else Navigation.PrevSlide(s))
  {
    var n := |s.slides|;
    if dir == SwipeUp && s.current < n - 1 {
      NavigateThenScrollRoundTrip(c, innerHeight, n, s.current + 1);
    } else if dir == SwipeDown && s.current > 0 {
      NavigateThenScrollRoundTrip(c, innerHeight, n, s.current - 1);
    }
  }

  /** This renderer's `switch (slide.id)`: ids 1 to 5 and "final"; 6, "secret" and all others get the welcome slide. */
  const Table: map<SlideId, Variant> :=
    map[Num(1) := Welcome, Num(2) := Reason, Num(3) := WhyYou, Num(4) := FunFacts,
        Num(5) := Questions, Tag("final") := Final]

  function SlideVariant(id: SlideId): (v: Variant)
    ensures id in Table ==> v == Table[id]
    ensures id !in Table ==> v == Welcome
    ensures v != CallToAction
  {
    match id
    case Num(n) =>
      if n == 1 then Welcome
      else if n == 2 then Reason
      else if n == 3 then WhyYou
      else if n == 4 then FunFacts
      else if n == 5 then Questions
      else Welcome
    case Tag(t) => if t == "final" then Final else Welcome
  }

  /** The slide components: one per slide, in order, the current one active. */
  function Panels(s: Navigation.Nav): (ps: seq<Panel>)
    ensures |ps| == |s.slides|
    ensures forall k :: 0 <= k < |ps| ==> ps[k] == Panel(SlideVariant(s.slides[k].id), k == s.current)
  {
    seq(|s.slides|, k requires 0 <= k < |s.slides| => Panel(SlideVariant(s.slides[k].id), k == s.current))
  }

  /** What the component renders for a store state. */
  function Render(s: Navigation.Nav): (v: View)
    ensures v.DeckView? ==> |v.panels| == |s.slides| > 0
    ensures v.DeckView? ==> forall k :: 0 <= k < |v.panels| ==> (v.panels[k].active <==> k == s.current)
  {
    Gate(s, Panels(s))
  }

  /** The renderer's own state, `scrollProgress`, and the store it drives. */
  class Renderer {
    const store: SlideStore.Store
    var scrollProgress: real

    constructor (store: SlideStore.Store)
      ensures this.store == store && scrollProgress == 0.0
    {
      this.store := store;
      scrollProgress := 0.0;
    }

    /** `handleScroll`: nothing without a container; otherwise record the progress and follow it. */
    method HandleScroll(container: Option<Container>)
      modifies this, store
      ensures container.None? ==> scrollProgress == old(scrollProgress) && store.State() == old(store.State())
      ensures container.Some? ==> scrollProgress == ScrollProgress(container.value)
      ensures container.Some? ==>
        store.State() == SyncToIndex(old(store.State()), IndexAt(scrollProgress, |old(store.slides)|))
    {
      if container.None? {
        return;
      }
      var progress := ScrollProgress(container.value);
      scrollProgress := progress;
      var newIndex := IndexAt(progress, |store.slides|);
      if newIndex != store.currentSlideIndex && newIndex >= 0 && newIndex < |store.slides| {
        store.GoToSlide(newIndex);
      }
    }
  }
}
