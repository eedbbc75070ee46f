/**
 * What the three slide renderers share: the views they return, the scroll
 * command a navigation issues, and the store update a scroll event makes.
 */
module RendererCommon {
  import opened Wrappers
  import opened JsMath
  import opened SlideData
  import Navigation

  /** The slide component a renderer picks for a slide. */
  datatype Variant = Welcome | Reason | WhyYou | FunFacts | Questions | CallToAction | Final

  /** One rendered slide component and its `isActive` prop. */
  datatype Panel = Panel(variant: Variant, active: bool)

  /** What a renderer returns: one of three status screens, or the slide components. */
  datatype View = LoadingView | ErrorView(message: string) | EmptyView | DeckView(panels: seq<Panel>)

  /** The `scrollTo` a navigation issues on the scroll container, if any. */
  datatype ScrollCommand = NoScroll | ScrollTo(top: Num)

  /** The scroll container's geometry when a handler reads it. */
  datatype Container = Container(scrollTop: real, scrollHeight: real, clientHeight: real)

  /** The gestures a swipe detector reports. */
  datatype SwipeDirection = SwipeLeft | SwipeRight | SwipeUp | SwipeDown

  /** JavaScript truthiness of `error: string | null`: the empty string is falsy. */
  predicate Truthy(e: Option<string>) {
    e.Some? && e.value != ""
  }

  /**
   * The status checks every renderer makes before drawing slides: loading wins
   * over an error, an error over an empty list, and only then are the slides drawn.
   */
  function Gate(s: Navigation.Nav, deck: seq<Panel>): (v: View)
    ensures v == LoadingView <==> s.isLoading
    ensures v.ErrorView? <==> !s.isLoading && Truthy(s.error)
    ensures v.ErrorView? ==> v.message == s.error.value
    ensures v == EmptyView <==> !s.isLoading && !Truthy(s.error) && |s.slides| == 0
    ensures v.DeckView? <==> !s.isLoading && !Truthy(s.error) && |s.slides| > 0
    ensures v.DeckView? ==> v.panels == deck
  {
    if s.isLoading then LoadingView
    else if Truthy(s.error) then ErrorView(s.error.value)
    else if |s.slides| == 0 then EmptyView
    else DeckView(deck)
  }

  /**
   * The store update of a scroll handler that derived `index`: `goToSlide` is
   * called only when the index is a slide other than the current one, so
   * scrolling within the current slide keeps its horizontal index.
   */
  function SyncToIndex(s: Navigation.Nav, index: int): (r: Navigation.Nav)
    ensures Navigation.OnlyIndicesChange(s, r)
    ensures 0 <= index < |s.slides| ==> r.current == index
    ensures !(0 <= index < |s.slides|) || index == s.current ==> r == s
    ensures r != s ==> r.horizontal == 0
  {
    if index != s.current && 0 <= index < |s.slides| then Navigation.GoToSlide(s, index) else s
  }

  /**
   * The `switch (slide.id)` shared by SimpleHybridRenderer and SlideRenderer:
   * ids 1 to 6, "secret" and "final" have their own component, anything else
   * gets the welcome slide.
   */
  const FullTable: map<SlideId, Variant> :=
    map[Num(1) := Welcome, Num(2) := Reason, Num(3) := WhyYou, Num(4) := FunFacts,
        Num(5) := Questions, Num(6) := CallToAction, Tag("secret") := CallToAction,
        Tag("final") := Final]

  function FullVariant(id: SlideId): (v: Variant)
    ensures id in FullTable ==> v == FullTable[id]
    ensures id !in FullTable ==> v == Welcome
  {
    match id
    case Num(n) =>
      if n == 1 then Welcome
      else if n == 2 then Reason
      else if n == 3 then WhyYou
      else if n == 4 then FunFacts
      else if n == 5 then Questions
      else if n == 6 then CallToAction
      else Welcome
    case Tag(t) =>
      if t == "secret" then CallToAction
      else if t == "final" then Final
      else Welcome
  }
}
