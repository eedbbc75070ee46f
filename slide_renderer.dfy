/**
 * SlideRenderer: one slide at a time, moved by keys, swipes and two buttons
 * that call the store's `nextSlide` and `prevSlide` directly.
 */
module SlideRenderer {
  import opened Wrappers
  import opened JsMath
  import opened RendererCommon
  import Navigation
  import SlideStore

  /** The keydown handler: ArrowRight and space go forward, ArrowLeft back, other keys do nothing. */
  function KeyStep(key: string): (step: Option<Navigation.Step>)
    ensures step == Some(Navigation.Forward) <==> key == "ArrowRight" || key == " "
    ensures step == Some(Navigation.Backward) <==> key == "ArrowLeft"
    ensures step.None? <==> key != "ArrowRight" && key != " " && key != "ArrowLeft"
  {
    if key == "ArrowRight" || key == " " then Some(Navigation.Forward)
    else if key == "ArrowLeft" then Some(Navigation.Backward)
    else None
  }

  /** The swipe handlers: left goes forward, right back; vertical swipes have no handler. */
  function SwipeStep(dir: SwipeDirection): (step: Option<Navigation.Step>)
    ensures step == Some(Navigation.Forward) <==> dir == SwipeLeft
    ensures step == Some(Navigation.Backward) <==> dir == SwipeRight
    ensures step.None? <==> dir == SwipeUp || dir == SwipeDown
  {
    match dir
    case SwipeLeft => Some(Navigation.Forward)
    case SwipeRight => Some(Navigation.Backward)
    case _ => None
  }

  /** The store's state after an input mapped to `step`. */
  function AfterInput(s: Navigation.Nav, step: Option<Navigation.Step>): Navigation.Nav {
    if step.Some? then Navigation.Apply(s, step.value) else s
  }

  method HandleKeyDown(store: SlideStore.Store, key: string)
    modifies store
    ensures store.State() == AfterInput(old(store.State()), KeyStep(key))
  {
    if key == "ArrowRight" || key == " " {
      store.NextSlide();
    } else if key == "ArrowLeft" {
      store.PrevSlide();
    }
  }

  method HandleSwipe(store: SlideStore.Store, dir: SwipeDirection)
    modifies store
    ensures store.State() == AfterInput(old(store.State()), SwipeStep(dir))
  {
    match dir
    case SwipeLeft => store.NextSlide();
    case SwipeRight => store.PrevSlide();
    case _ =>
  }

  /** The `disabled` condition of the previous button. */
  function PrevDisabled(current: int): bool {
    current == 0
  }

  /** The `disabled` condition of the next button. */
  function NextDisabled(current: int, n: int): bool {
    current == n - 1
  }

  /** On a valid index a button is disabled exactly when its action would change nothing. */
  lemma DisabledExactlyWhenNoOp(s: Navigation.Nav)
    requires Navigation.InRange(s)
    ensures PrevDisabled(s.current) <==> Navigation.PrevSlide(s) == s
    ensures NextDisabled(s.current, |s.slides|) <==> Navigation.NextSlide(s) == s
  {
  }

  /** The progress bar's width in percent: `(current + 1) / n * 100`. */
  function ProgressWidth(current: int, n: int): (w: real)
    requires n > 0
    ensures 0 <= current < n ==> 0.0 < w <= 100.0
    ensures 0 <= current < n ==> (w == 100.0 <==> current == n - 1)
  {
    ShareOfWhole(current + 1, n);
    ((current + 1) as real) / (n as real) * 100.0
  }

  /** `currentSlide && getSlideComponent(currentSlide, true)`: the current slide only, nothing for an index off the list. */
  function Shown(s: Navigation.Nav): (ps: seq<Panel>)
    ensures Navigation.InRange(s) ==> ps == [Panel(FullVariant(s.slides[s.current].id), true)]
    ensures !Navigation.InRange(s) ==> ps == []
  {
    if Navigation.InRange(s) then [Panel(FullVariant(s.slides[s.current].id), true)] else []
  }

  /** What the component renders for a store state. */
  function Render(s: Navigation.Nav): (v: View)
    ensures v.DeckView? ==> |v.panels| <= 1
    ensures v.DeckView? && Navigation.InRange(s) ==> v.panels == [Panel(FullVariant(s.slides[s.current].id), true)]
  {
    Gate(s, Shown(s))
  }
}
