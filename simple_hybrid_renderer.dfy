/**
 * SimpleHybridRenderer: every slide is one window high, so the current slide is
 * the scroll offset divided by the window height.
 */
module SimpleHybridRenderer {
  import opened Wrappers
  import opened JsMath
  import opened RendererCommon
  import Navigation
  import SlideStore

  /**
   * The value stored in `scrollProgress`: the offset over `totalHeight -
   * slideHeight`, clamped to [0, 1], and 0 when the total height is 0. With a
   * single slide the divisor is 0, so the offset 0 gives NaN.
   */
  function DisplayedProgress(scrollTop: real, slideHeight: real, n: nat): (p: Num)
    ensures p.Finite? ==> 0.0 <= p.value <= 1.0
    ensures slideHeight * (n as real) <= 0.0 ==> p == Finite(0.0)
    ensures n >= 2 && slideHeight > 0.0 && 0.0 <= scrollTop <= ((n - 1) as real) * slideHeight ==>
      p == Finite(scrollTop / (((n - 1) as real) * slideHeight))
    ensures p == NaN <==> n == 1 && slideHeight > 0.0 && scrollTop == 0.0
    ensures p != NaN ==> p.Finite?
    ensures n >= 2 && slideHeight > 0.0 && scrollTop > ((n - 1) as real) * slideHeight ==> p == Finite(1.0)
    ensures n == 1 && slideHeight > 0.0 && scrollTop > 0.0 ==> p == Finite(1.0)
    ensures n >= 1 && slideHeight > 0.0 && scrollTop < 0.0 ==> p == Finite(0.0)
  {
    var totalHeight := slideHeight * (n as real);
    assert totalHeight - slideHeight == ((n - 1) as real) * slideHeight;
    assert slideHeight > 0.0 && n >= 1 ==> totalHeight > 0.0;
    assert totalHeight > 0.0 ==> slideHeight > 0.0 && n >= 1;
    QuotientBounds(scrollTop, ((n - 1) as real) * slideHeight);
    QuotientOutside(scrollTop, ((n - 1) as real) * slideHeight);
    ClampUnit(if totalHeight > 0.0 then Divide(scrollTop, totalHeight - slideHeight) else Finite(0.0))
  }

  /** `newIndex` in `handleScroll`: the nearest slide boundary; not a finite number when the height is 0. */
  function IndexAt(scrollTop: real, slideHeight: real): (i: Option<int>)
    ensures i.Some? <==> slideHeight != 0.0
    ensures i.Some? ==> (i.value as real) - 0.5 <= scrollTop / slideHeight < (i.value as real) + 0.5
  {
    match Divide(scrollTop, slideHeight)
    case Finite(q) => Some(Round(q))
    case _ => None
  }

  /** The store update of `handleScroll`: only a finite index other than the current slide moves it. */
  function ScrollSync(s: Navigation.Nav, index: Option<int>): (r: Navigation.Nav)
    ensures Navigation.OnlyIndicesChange(s, r)
    ensures index.Some? && 0 <= index.value < |s.slides| ==> r.current == index.value
    ensures index.None? || !(0 <= index.value < |s.slides|) || index.value == s.current ==> r == s
    ensures r != s ==> r.horizontal == 0
  {
    if index.Some? then SyncToIndex(s, index.value) else s
  }

  /** `navigateToSlide(target)`: scroll to `target` window heights, for an existing slide only. */
  function NavigateTarget(mounted: bool, slideHeight: real, n: int, target: int): (cmd: ScrollCommand)
    ensures cmd.ScrollTo? <==> mounted && 0 <= target < n
    ensures cmd.ScrollTo? ==> cmd.top.Finite? && cmd.top.value == (target as real) * slideHeight
  {
    if mounted && 0 <= target < n then ScrollTo(Finite((target as real) * slideHeight)) else NoScroll
  }

  /** Scrolling to slide i's offset makes `handleScroll` derive slide i again. */
  lemma NavigateThenScrollRoundTrip(slideHeight: real, n: int, i: int)
    requires slideHeight > 0.0 && 0 <= i < n
    ensures NavigateTarget(true, slideHeight, n, i).ScrollTo?
    ensures IndexAt(NavigateTarget(true, slideHeight, n, i).top.value, slideHeight) == Some(i)
  {
    assert (i as real) * slideHeight / slideHeight == i as real;
    RoundInteger(i);
  }

  /** At slide i's offset the progress bar shows i / (n - 1). */
  lemma NavigateThenProgress(slideHeight: real, n: int, i: int)
    requires slideHeight > 0.0 && n >= 2 && 0 <= i < n
    ensures DisplayedProgress((i as real) * slideHeight, slideHeight, n) == Finite((i as real) / ((n - 1) as real))
  {
    var m := (n - 1) as real;
    ScaleMonotone(0.0, i as real, slideHeight);
    ScaleMonotone(i as real, m, slideHeight);
    CancelFactor(i as real, m, slideHeight);
  }

  /** The keydown handler: ArrowDown and space advance, ArrowUp retreats, each only inside the deck. */
  function KeyDown(key: string, mounted: bool, slideHeight: real, current: int, n: int): (cmd: ScrollCommand)
    ensures (key == "ArrowDown" || key == " ") && current < n - 1 ==>
      cmd == NavigateTarget(mounted, slideHeight, n, current + 1)
    ensures key == "ArrowUp" && current > 0 ==> cmd == NavigateTarget(mounted, slideHeight, n, current - 1)
    ensures cmd.ScrollTo? ==> ((key == "ArrowDown" || key == " ") && current < n - 1) || (key == "ArrowUp" && current > 0)
  {
    if key == "ArrowDown" || key == " " then
      (if current < n - 1 then NavigateTarget(mounted, slideHeight, n, current + 1) else NoScroll)
    else if key == "ArrowUp" then
      (if current > 0 then NavigateTarget(mounted, slideHeight, n, current - 1) else NoScroll)
    else NoScroll
  }

  /**
   * A key press followed by the scroll event its `scrollTo` produces moves the
   * store exactly as `nextSlide` (ArrowDown, space) or `prevSlide` (ArrowUp)
   * would; any other key scrolls nowhere.
   */
  lemma KeyDownThenScroll(s: Navigation.Nav, key: string, slideHeight: real)
    requires Navigation.InRange(s) && slideHeight > 0.0
    ensures var cmd := KeyDown(key, true, slideHeight, s.current, |s.slides|);
      if key == "ArrowDown" || key == " " then
        (cmd == NoScroll ==> Navigation.NextSlide(s) == s) &&
        (cmd != NoScroll ==> ScrollSync(s, IndexAt(cmd.top.value, slideHeight)) == Navigation.NextSlide(s))
      else if key == "ArrowUp" then
        (cmd == NoScroll ==> Navigation.PrevSlide(s) == s) &&
        (cmd != NoScroll ==> ScrollSync(s, IndexAt(cmd.top.value, slideHeight)) == Navigation.PrevSlide(s))
      else cmd == NoScroll
  {
    var n := |s.slides|;
    if (key == "ArrowDown" || key == " ") && s.current < n - 1 {
      NavigateThenScrollRoundTrip(slideHeight, n, s.current + 1);
    } else if key == "ArrowUp" && s.current > 0 {
      NavigateThenScrollRoundTrip(slideHeight, n, s.current - 1);
    }
  }

  /** The slide components: one per slide, in order, the current one active. */
  function Panels(s: Navigation.Nav): (ps: seq<Panel>)
    ensures |ps| == |s.slides|
    ensures forall k :: 0 <= k < |ps| ==> ps[k] == Panel(FullVariant(s.slides[k].id), k == s.current)
  {
    seq(|s.slides|, k requires 0 <= k < |s.slides| => Panel(FullVariant(s.slides[k].id), k == s.current))
  }

  /** What the component renders for a store state. */
  function Render(s: Navigation.Nav): (v: View)
    ensures v.DeckView? ==> |v.panels| == |s.slides| > 0
    ensures v.DeckView? ==> forall k :: 0 <= k < |v.panels| ==> (v.panels[k].active <==> k == s.current)
  {
    Gate(s, Panels(s))
  }

  /** The renderer's own state, `scrollProgress`, and the store it drives. */
  class Renderer {
    const store: SlideStore.Store
    var scrollProgress: Num

    constructor (store: SlideStore.Store)
      ensures this.store == store && scrollProgress == Finite(0.0)
    {
      this.store := store;
      scrollProgress := Finite(0.0);
    }

    /** `handleScroll` with the window height as the slide height. */
    method HandleScroll(container: Option<Container>, slideHeight: real)
      modifies this, store
      ensures container.None? ==> scrollProgress == old(scrollProgress) && store.State() == old(store.State())
      ensures container.Some? ==>
        scrollProgress == DisplayedProgress(container.value.scrollTop, slideHeight, |old(store.slides)|)
      ensures container.Some? ==>
        store.State() == ScrollSync(old(store.State()), IndexAt(container.value.scrollTop, slideHeight))
    {
      if container.None? {
        return;
      }
      var scrollTop := container.value.scrollTop;
      scrollProgress := DisplayedProgress(scrollTop, slideHeight, |store.slides|);
      var newIndex := IndexAt(scrollTop, slideHeight);
      if newIndex.Some? && newIndex.value != store.currentSlideIndex && newIndex.value >= 0 && newIndex.value < |store.slides| {
        store.GoToSlide(newIndex.value);
      }
    }
  }
}
