/**
 * The navigation store of the presentation as a value: the state it holds and
 * the transitions its actions perform. The store class in module SlideStore
 * performs exactly these transitions on its fields.
 */
module Navigation {
  import opened Wrappers
  import opened SlideData

  datatype ScrollMode = Vertical | Horizontal

  /** The store's fields: slides, the two indices, the load flags and the scroll mode. */
  datatype Nav = Nav(slides: seq<Slide>, current: int, horizontal: int,
                     isLoading: bool, error: Option<string>, scrollMode: ScrollMode)

  /** The store as created: no slides, both indices 0, not loading, no error. */
  const Initial: Nav := Nav([], 0, 0, false, None, Vertical)

  /** The largest `horizontalSlideIndex` that `nextHorizontalSlide` reaches. */
  const LastHorizontal: int := 7

  /** The message `loadData` records when the response is not ok. */
  const FetchFailedMessage: string := "Failed to fetch data"

  /** The message `loadData` records when something that is not an Error is thrown. */
  const UnknownErrorMessage: string := "Unknown error"

  /** The primary index names a slide. */
  predicate InRange(s: Nav) {
    0 <= s.current < |s.slides|
  }

  /** The secondary index lies in the range the horizontal actions keep. */
  predicate HorizontalInRange(s: Nav) {
    0 <= s.horizontal <= LastHorizontal
  }

  /** `r` differs from `s` in the two indices at most. */
  predicate OnlyIndicesChange(s: Nav, r: Nav) {
    r == s.(current := r.current, horizontal := r.horizontal)
  }

  /** `nextSlide`: move one slide forward unless already at the last one. */
  function NextSlide(s: Nav): (r: Nav)
    ensures OnlyIndicesChange(s, r)
    ensures r != s <==> s.current < |s.slides| - 1
    ensures r != s ==> r.current == s.current + 1 && r.horizontal == 0
    ensures InRange(s) ==> InRange(r)
  {
    if s.current < |s.slides| - 1 then s.(current := s.current + 1, horizontal := 0) else s
  }

  /** `prevSlide`: move one slide back unless already at the first one. */
  function PrevSlide(s: Nav): (r: Nav)
    ensures OnlyIndicesChange(s, r)
    ensures r != s <==> s.current > 0
    ensures r != s ==> r.current == s.current - 1 && r.horizontal == 0
    ensures InRange(s) ==> InRange(r)
  {
    if s.current > 0 then s.(current := s.current - 1, horizontal := 0) else s
  }

  /** `goToSlide(i)`: jump to slide `i` if it exists; any other request is ignored. */
  function GoToSlide(s: Nav, i: int): (r: Nav)
    ensures OnlyIndicesChange(s, r)
    ensures 0 <= i < |s.slides| ==> r.current == i && r.horizontal == 0 && InRange(r)
    ensures !(0 <= i < |s.slides|) ==> r == s
    ensures InRange(s) ==> InRange(r)
  {
    if 0 <= i < |s.slides| then s.(current := i, horizontal := 0) else s
  }

  /** `nextHorizontalSlide`: step the secondary index up, stopping at 7. */
  function NextHorizontalSlide(s: Nav): (r: Nav)
    ensures r == s.(horizontal := r.horizontal)
    ensures s.horizontal < LastHorizontal ==> r.horizontal == s.horizontal + 1
    ensures s.horizontal >= LastHorizontal ==> r == s
    ensures HorizontalInRange(s) ==> HorizontalInRange(r)
  {
    if s.horizontal < LastHorizontal then s.(horizontal := s.horizontal + 1) else s
  }

  /** `prevHorizontalSlide`: step the secondary index down, stopping at 0. */
  function PrevHorizontalSlide(s: Nav): (r: Nav)
    ensures r == s.(horizontal := r.horizontal)
    ensures s.horizontal > 0 ==> r.horizontal == s.horizontal - 1
    ensures s.horizontal <= 0 ==> r == s
    ensures HorizontalInRange(s) ==> HorizontalInRange(r)
  {
    if s.horizontal > 0 then s.(horizontal := s.horizontal - 1) else s
  }

  /** What the fetch in `loadData` ends with: a payload, a non-ok response, or a thrown value. */
  datatype FetchOutcome = Fetched(payload: seq<Slide>) | NotOk | Threw(message: string) | ThrewNonError

  /** The error message `loadData` records for a failed fetch. */
  function FailureMessage(o: FetchOutcome): (m: string)
    requires !o.Fetched?
    ensures o.Threw? ==> m == o.message
    ensures o.NotOk? ==> m == FetchFailedMessage
    ensures o.ThrewNonError? ==> m == UnknownErrorMessage
  {
    match o
    case NotOk => FetchFailedMessage
    case Threw(message) => message
    case ThrewNonError => UnknownErrorMessage
  }

  /** The first write of `loadData`, before the fetch is awaited. */
  function LoadStarted(s: Nav): (r: Nav)
    ensures r.isLoading && r.error == None
    ensures r == s.(isLoading := r.isLoading, error := r.error)
  {
    s.(isLoading := true, error := None)
  }

  /** The second write of `loadData`, once the fetch has succeeded or failed. */
  function LoadSettled(s: Nav, o: FetchOutcome): (r: Nav)
    ensures !r.isLoading
    ensures r.current == s.current && r.horizontal == s.horizontal && r.scrollMode == s.scrollMode
    ensures o.Fetched? ==> r.slides == o.payload && r.error == s.error
    ensures !o.Fetched? ==> r.slides == s.slides && r.error == Some(FailureMessage(o))
  {
    match o
    case Fetched(payload) => s.(slides := payload, isLoading := false)
    case _ => s.(error := Some(FailureMessage(o)), isLoading := false)
  }

  /**
   * `loadData` as a whole: on success the payload replaces the slides and no
   * error remains; on failure the slides are kept and the message is recorded.
   * The indices are never written, so a reload can leave the index past the end
   * of a shorter list.
   */
  function LoadData(s: Nav, o: FetchOutcome): (r: Nav)
    ensures o.Fetched? ==> r == s.(slides := o.payload, isLoading := false, error := None)
    ensures !o.Fetched? ==> r == s.(isLoading := false, error := Some(FailureMessage(o)))
  {
    LoadSettled(LoadStarted(s), o)
  }

  /** The navigation actions, each of which keeps both indices in range. */
  datatype Step = Forward | Backward | Jump(index: int) | SubForward | SubBackward

  function Apply(s: Nav, step: Step): (r: Nav)
    ensures r.slides == s.slides
    ensures InRange(s) ==> InRange(r)
    ensures HorizontalInRange(s) ==> HorizontalInRange(r)
  {
    match step
    case Forward => NextSlide(s)
    case Backward => PrevSlide(s)
    case Jump(i) => GoToSlide(s, i)
    case SubForward => NextHorizontalSlide(s)
    case SubBackward => PrevHorizontalSlide(s)
  }

  /** The state after performing `steps` in order. */
  function Run(s: Nav, steps: seq<Step>): Nav
    decreases |steps|
  {
    if steps == [] then s else Run(Apply(s, steps[0]), steps[1..])
  }

  /** No sequence of navigation actions takes either index out of its range. */
  lemma {:induction false} RunKeepsIndicesInRange(s: Nav, steps: seq<Step>)
    requires InRange(s) && HorizontalInRange(s)
    ensures InRange(Run(s, steps)) && HorizontalInRange(Run(s, steps))
    ensures Run(s, steps).slides == s.slides
    decreases |steps|
  {
    if steps != [] {
      RunKeepsIndicesInRange(Apply(s, steps[0]), steps[1..]);
    }
  }

  /** The state after performing the same action `k` times. */
  function Repeat(s: Nav, step: Step, k: nat): Nav
    decreases k
  {
    if k == 0 then s else Repeat(Apply(s, step), step, k - 1)
  }

  function Min(a: int, b: int): int { if a <= b then a else b }
  function Max(a: int, b: int): int { if a >= b then a else b }

  /** `nextSlide` repeated saturates at the last slide: it never wraps around. */
  lemma {:induction false} RepeatForward(s: Nav, k: nat)
    requires InRange(s)
    ensures Repeat(s, Forward, k).current == Min(s.current + k, |s.slides| - 1)
    ensures Repeat(s, Forward, k).slides == s.slides
    decreases k
  {
    if k > 0 {
      RepeatForward(NextSlide(s), k - 1);
    }
  }

  /** `prevSlide` repeated saturates at the first slide. */
  lemma {:induction false} RepeatBackward(s: Nav, k: nat)
    requires InRange(s)
    ensures Repeat(s, Backward, k).current == Max(s.current - k, 0)
    decreases k
  {
    if k > 0 {
      RepeatBackward(PrevSlide(s), k - 1);
    }
  }

  /**
   * From the first of n slides, n - 1 calls of `nextSlide` reach the last slide
   * and one more call changes nothing.
   */
  lemma AdvanceToLast(s: Nav)
    requires |s.slides| > 0 && s.current == 0
    ensures Repeat(s, Forward, |s.slides| - 1).current == |s.slides| - 1
    ensures NextSlide(Repeat(s, Forward, |s.slides| - 1)) == Repeat(s, Forward, |s.slides| - 1)
  {
    RepeatForward(s, |s.slides| - 1);
  }

  /** `nextHorizontalSlide` repeated stops at 7 instead of wrapping to 0. */
  lemma {:induction false} RepeatSubForward(s: Nav, k: nat)
    requires HorizontalInRange(s)
    ensures Repeat(s, SubForward, k).horizontal == Min(s.horizontal + k, LastHorizontal)
    ensures Repeat(s, SubForward, k).current == s.current
    decreases k
  {
    if k > 0 {
      RepeatSubForward(NextHorizontalSlide(s), k - 1);
    }
  }

  /** `prevHorizontalSlide` repeated stops at 0 instead of wrapping to 7. */
  lemma {:induction false} RepeatSubBackward(s: Nav, k: nat)
    requires HorizontalInRange(s)
    ensures Repeat(s, SubBackward, k).horizontal == Max(s.horizontal - k, 0)
    ensures Repeat(s, SubBackward, k).current == s.current
    decreases k
  {
    if k > 0 {
      RepeatSubBackward(PrevHorizontalSlide(s), k - 1);
    }
  }
}
