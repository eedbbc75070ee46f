/**
 * `useSlideStore`: the global store whose actions overwrite its fields after
 * reading them. Each method performs the transition of module Navigation.
 */
module SlideStore {
  import opened Wrappers
  import opened SlideData
  import Navigation

  class Store {
    var slides: seq<Slide>
    var currentSlideIndex: int
    var horizontalSlideIndex: int
    var isLoading: bool
    var error: Option<string>
    var scrollMode: Navigation.ScrollMode

    /** The fields as one value. */
    function State(): Navigation.Nav
      reads this
    {
      Navigation.Nav(slides, currentSlideIndex, horizontalSlideIndex, isLoading, error, scrollMode)
    }

    constructor ()
      ensures State() == Navigation.Initial
    {
      slides := [];
      currentSlideIndex := 0;
      horizontalSlideIndex := 0;
      isLoading := false;
      error := None;
      scrollMode := Navigation.Vertical;
    }

    /** `setSlides`: replace the list; neither index is touched. */
    method SetSlides(newSlides: seq<Slide>)
      modifies this
      ensures State() == old(State()).(slides := newSlides)
    {
      slides := newSlides;
    }

    method NextSlide()
      modifies this
      ensures State() == Navigation.NextSlide(old(State()))
    {
      if currentSlideIndex < |slides| - 1 {
        currentSlideIndex, horizontalSlideIndex := currentSlideIndex + 1, 0;
      }
    }

    method PrevSlide()
      modifies this
      ensures State() == Navigation.PrevSlide(old(State()))
    {
      if currentSlideIndex > 0 {
        currentSlideIndex, horizontalSlideIndex := currentSlideIndex - 1, 0;
      }
    }

    method GoToSlide(index: int)
      modifies this
      ensures State() == Navigation.GoToSlide(old(State()), index)
    {
      if index >= 0 && index < |slides| {
        currentSlideIndex, horizontalSlideIndex := index, 0;
      }
    }

    method SetLoading(loading: bool)
      modifies this
      ensures State() == old(State()).(isLoading := loading)
    {
      isLoading := loading;
    }

    method SetError(e: Option<string>)
      modifies this
      ensures State() == old(State()).(error := e)
    {
      error := e;
    }

    method SetScrollMode(mode: Navigation.ScrollMode)
      modifies this
      ensures State() == old(State()).(scrollMode := mode)
    {
      scrollMode := mode;
    }

    method NextHorizontalSlide()
      modifies this
      ensures State() == Navigation.NextHorizontalSlide(old(State()))
    {
      if horizontalSlideIndex < Navigation.LastHorizontal {
        horizontalSlideIndex := horizontalSlideIndex + 1;
      }
    }

    method PrevHorizontalSlide()
      modifies this
      ensures State() == Navigation.PrevHorizontalSlide(old(State()))
    {
      if horizontalSlideIndex > 0 {
        horizontalSlideIndex := horizontalSlideIndex - 1;
      }
    }

    /** `setHorizontalSlideIndex`: stores its argument without any bounds check. */
    method SetHorizontalSlideIndex(index: int)
      modifies this
      ensures State() == old(State()).(horizontal := index)
    {
      horizontalSlideIndex := index;
    }

    /** The write `loadData` makes before awaiting the fetch. */
    method BeginLoad()
      modifies this
      ensures State() == Navigation.LoadStarted(old(State()))
    {
      isLoading, error := true, None;
    }

    /** The write `loadData` makes once the fetch has settled. */
    method SettleLoad(outcome: Navigation.FetchOutcome)
      modifies this
      ensures State() == Navigation.LoadSettled(old(State()), outcome)
    {
      match outcome
      case Fetched(payload) =>
        slides, isLoading := payload, false;
      case _ =>
        error, isLoading := Some(Navigation.FailureMessage(outcome)), false;
    }

    /** `loadData` with its fetch outcome handed in. */
    method LoadData(outcome: Navigation.FetchOutcome)
      modifies this
      ensures State() == Navigation.LoadData(old(State()), outcome)
    {
      BeginLoad();
      SettleLoad(outcome);
    }
  }
}
