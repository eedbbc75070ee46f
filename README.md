# Slide presentation core: navigation store, renderers and audio players

This project models the core of a single-page slide presentation. Slides come
from a JSON document and are shown one by one or in one scrolling column, with
per-slide background music that repeats one loop window. Four parts are
modelled.

- **The navigation store** (`useSlideStore`). It holds the slide list, the
  primary and secondary ("horizontal") indices, the loading flag, the error
  message and the scroll mode.
  - Module `Navigation` gives its state as a value and each action as a pure
    transition.
  - Class `SlideStore.Store` performs the same transitions on its fields.
- **The three renderers.**
  - `HybridScrollRenderer` and `SimpleHybridRenderer` draw every slide in one
    scrolling container. They derive the current slide from the scroll offset
    and navigate by issuing a `scrollTo`.
  - `SlideRenderer` draws one slide and calls the store directly.
  - Module `RendererCommon` holds what they share: the status screens and
    their priority, and the guard of the scroll handlers.
- **The two audio hooks.**
  - `AudioPlayer.Player` models the basic player: one element per
    configuration, a loop check on a 100 ms interval, and playback gated on a
    user interaction.
  - `AdvancedAudioPlayer.Player` models the crossfading player: twenty-step
    fades, a transition that prepares a new element and swaps it in, and
    controls blocked while a transition runs.
- **The `AudioProvider` context.** It holds the session-wide flags
  `isAudioEnabled` and `hasUserInteracted`.

## How things are represented

**Numbers.** JavaScript numbers are exact reals. Where the code divides by a
quantity that can be zero, the IEEE outcome (an infinity or NaN) is kept as
`JsMath.Num`. `Math.round` is `floor(x + 1/2)`.

**Audio elements.** An audio element is a value (`Media.Element`) held in a
player field.

**Hook calls.** In the basic player, each of these is one method call:
- an effect firing;
- a timer or interval tick;
- a media event.

The advanced player works the same way, with one exception.
`TransitionToNewAudio` runs a whole transition as one call: the wait for the
new element, the awaited fade-out and the awaited fade-in. The twenty ticks of
one fade are the iterations of the `Fade` loop, not separate calls. The
browser advancing playback is a method of each player (`Playback`).

The hooks' arguments (`audioConfig`, `isEnabled`, `shouldAutoPlay`) are
parameters of the methods that read them. So are the outcomes the browser
decides:
- whether `play()` resolves (`playResolves`);
- how the new element's load ends (`LoadOutcome`);
- what `fetch` returns (`FetchOutcome`);
- the container's geometry and the window height.

**Places where the code does something other than a reader might expect.**
The model follows the code in each of them.

*Store and renderers:*
- The horizontal index stops at 0 and 7; it never wraps around.
- A failed `loadData` keeps the old slides. No branch of `loadData` writes
  either index, so a reload can leave the index past the end.
- In every renderer, the empty-string error is falsy and shows no error
  screen.
- `HybridScrollRenderer` renders slide id 6 and `"secret"` with the welcome
  component.
- With a single slide, `HybridScrollRenderer`'s navigation target is
  `0 / 0 = NaN`.

*Audio players:*
- A configuration that disappears does not stop the advanced player. The
  basic player's effect cleanup pauses its element, but `isPlaying` stays
  true.
- In the advanced player, `isPlaying` is not cleared when a transition stops
  the old element.
- A failed or timed-out load leaves `isLoading` and `isTransitioning` raised.
  The advanced player's controls then stay blocked until a later transition
  succeeds.

## Model

| member | source | states |
|---|---|---|
| JsMath.Divide | src/containers/slides/SimpleHybridRenderer.tsx:35 | a quotient is finite exactly when the divisor is non-zero and then multiplies back to the dividend; 0/0 is NaN, a positive over 0 is +Infinity |
| JsMath.Scale | src/containers/slides/HybridScrollRenderer.tsx:22 | multiplying a number by a finite factor keeps finiteness both ways, multiplies the value and keeps NaN |
| JsMath.Round | src/containers/slides/HybridScrollRenderer.tsx:38 | `Math.round` gives the integer within half a unit below-inclusive of its argument |
| JsMath.RoundInteger | src/containers/slides/SimpleHybridRenderer.tsx:40 | rounding an integer returns it |
| JsMath.ClampUnit | src/containers/slides/SimpleHybridRenderer.tsx:37 | `Math.min(Math.max(x, 0), 1)`: NaN exactly for NaN, every other input gives a finite value: itself on [0, 1], 1 above, 0 below, and the infinities to the matching end |
| Media.NewElement | src/hooks/useAudioPlayer.ts:31-51 | a new element carries the given source and volume, is paused and at position 0 |
| Media.CheckTime | src/hooks/useAudioPlayer.ts:68-73 | a position before the loop end is kept, one at or past it jumps to the loop start, so for a proper window the result is before the end |
| Navigation.NextSlide | src/store/useSlideStore.ts:66-71 | only the indices change; the state changes exactly when not on the last slide, and then the index grows by one and the secondary index resets; a valid index stays valid |
| Navigation.PrevSlide | src/store/useSlideStore.ts:73-78 | only the indices change; the state changes exactly when past the first slide, and then the index drops by one and the secondary index resets; a valid index stays valid |
| Navigation.GoToSlide | src/store/useSlideStore.ts:80-85 | an existing slide becomes current with the secondary index reset; any other request leaves the state unchanged |
| Navigation.NextHorizontalSlide | src/store/useSlideStore.ts:93-98 | only the secondary index changes; it grows by one below 7 and stays put otherwise, so it remains in [0, 7] |
| Navigation.PrevHorizontalSlide | src/store/useSlideStore.ts:100-105 | only the secondary index changes; it drops by one above 0 and stays put otherwise, so it remains in [0, 7] |
| Navigation.FailureMessage | src/store/useSlideStore.ts:114-116 | the recorded message is the thrown error's message, "Failed to fetch data" for a non-ok response, "Unknown error" for a non-Error throw |
| Navigation.LoadStarted | src/store/useSlideStore.ts:111 | loading is raised and the error cleared; nothing else changes |
| Navigation.LoadSettled | src/store/useSlideStore.ts:119-128 | loading ends and the indices are untouched; a payload replaces the slides, a failure keeps them and records its message |
| Navigation.LoadData | src/store/useSlideStore.ts:109-129 | success: the payload replaces the slides with no error left; failure: the slides stay and the message is recorded; the indices are never written |
| Navigation.Apply | src/store/useSlideStore.ts:66-105 | every navigation action keeps the slides and keeps both indices in range |
| Navigation.RunKeepsIndicesInRange | src/store/useSlideStore.ts:66-105 | no sequence of navigation actions takes either index out of range or changes the slides |
| Navigation.RepeatForward | src/store/useSlideStore.ts:66-71 | k calls of `nextSlide` reach min(index + k, last): the index saturates and never wraps |
| Navigation.RepeatBackward | src/store/useSlideStore.ts:73-78 | k calls of `prevSlide` reach max(index - k, 0) |
| Navigation.AdvanceToLast | src/store/useSlideStore.ts:66-71 | from the first of n slides, n - 1 forward steps reach the last slide and one more changes nothing |
| Navigation.RepeatSubForward | src/store/useSlideStore.ts:93-98 | k calls of `nextHorizontalSlide` reach min(index + k, 7) and leave the primary index alone |
| Navigation.RepeatSubBackward | src/store/useSlideStore.ts:100-105 | k calls of `prevHorizontalSlide` reach max(index - k, 0) and leave the primary index alone |
| SlideStore.Store.constructor | src/store/useSlideStore.ts:56-62 | the store starts with no slides, both indices 0, not loading, no error, vertical mode |
| SlideStore.Store.SetSlides | src/store/useSlideStore.ts:64 | only the slide list is replaced |
| SlideStore.Store.NextSlide | src/store/useSlideStore.ts:66-71 | the fields become `Navigation.NextSlide` of the old fields |
| SlideStore.Store.PrevSlide | src/store/useSlideStore.ts:73-78 | the fields become `Navigation.PrevSlide` of the old fields |
| SlideStore.Store.GoToSlide | src/store/useSlideStore.ts:80-85 | the fields become `Navigation.GoToSlide` of the old fields |
| SlideStore.Store.SetLoading | src/store/useSlideStore.ts:87 | only the loading flag is written |
| SlideStore.Store.SetError | src/store/useSlideStore.ts:89 | only the error is written |
| SlideStore.Store.SetScrollMode | src/store/useSlideStore.ts:91 | only the scroll mode is written |
| SlideStore.Store.NextHorizontalSlide | src/store/useSlideStore.ts:93-98 | the fields become `Navigation.NextHorizontalSlide` of the old fields |
| SlideStore.Store.PrevHorizontalSlide | src/store/useSlideStore.ts:100-105 | the fields become `Navigation.PrevHorizontalSlide` of the old fields |
| SlideStore.Store.SetHorizontalSlideIndex | src/store/useSlideStore.ts:107 | only the secondary index is written, with no range check |
| SlideStore.Store.BeginLoad | src/store/useSlideStore.ts:111 | the fields become `Navigation.LoadStarted` of the old fields |
| SlideStore.Store.SettleLoad | src/store/useSlideStore.ts:113-128 | the fields become `Navigation.LoadSettled` of the old fields and the outcome |
| SlideStore.Store.LoadData | src/store/useSlideStore.ts:109-129 | the fields become `Navigation.LoadData` of the old fields and the outcome |
| RendererCommon.Gate | src/containers/slides/SlideRenderer.tsx:72-103 | loading shows the loading screen; otherwise a truthy error shows its message; otherwise an empty list shows the empty screen; only otherwise are the slides drawn (each case as an if-and-only-if) |
| RendererCommon.SyncToIndex | src/containers/slides/HybridScrollRenderer.tsx:39-41 | a derived index that names a slide becomes current; one off the list or equal to the current index leaves the store unchanged; only the indices move |
| RendererCommon.FullVariant | src/containers/slides/SimpleHybridRenderer.tsx:85-104 | ids 1 to 6, "secret" and "final" pick their table entry (6 and "secret" the call-to-action), every other id the welcome component |
| HybridScrollRenderer.ScrollProgress | src/containers/slides/HybridScrollRenderer.tsx:31-33 | with a positive scroll range the progress times the range is the offset, otherwise 0; an in-range offset gives a progress in [0, 1] |
| HybridScrollRenderer.IndexAt | src/containers/slides/HybridScrollRenderer.tsx:38 | the derived index is the nearest integer to progress times (n - 1) |
| HybridScrollRenderer.IndexAtStaysInDeck | src/containers/slides/HybridScrollRenderer.tsx:38-39 | a progress in [0, 1] always yields an index of an existing slide |
| HybridScrollRenderer.ScrollEnds | src/containers/slides/HybridScrollRenderer.tsx:31-38 | the top of the container is the first slide and the bottom of the scroll range is the last |
| HybridScrollRenderer.NoScrollRangeMeansFirstSlide | src/containers/slides/HybridScrollRenderer.tsx:33-38 | when nothing can scroll every offset reads as the first slide |
| HybridScrollRenderer.NavigateTarget | src/containers/slides/HybridScrollRenderer.tsx:20-25 | a scroll is issued exactly when the container is mounted and the target exists; for two or more slides it goes to target / (n - 1) of `scrollHeight - innerHeight`, for a single slide to NaN |
| HybridScrollRenderer.NavigateThenScrollRoundTrip | src/containers/slides/HybridScrollRenderer.tsx:20-42 | when the window height equals the container's client height, the offset navigation scrolls to lies in the scroll range and is read back as the same slide |
| HybridScrollRenderer.Swipe | src/containers/slides/HybridScrollRenderer.tsx:45-56 | swiping up navigates to the next slide and down to the previous one, each only inside the deck; no other swipe scrolls |
| HybridScrollRenderer.SwipeThenScroll | src/containers/slides/HybridScrollRenderer.tsx:20-56 | a swipe followed by the scroll it causes moves the store exactly as `nextSlide` (up) or `prevSlide` (down) |
| HybridScrollRenderer.SlideVariant | src/containers/slides/HybridScrollRenderer.tsx:77-92 | ids 1 to 5 and "final" pick their table entry, every other id the welcome component; this renderer never shows the call-to-action |
| HybridScrollRenderer.Panels | src/containers/slides/HybridScrollRenderer.tsx:71-75 | one component per slide in order, and only the current one is active |
| HybridScrollRenderer.Render | src/containers/slides/HybridScrollRenderer.tsx:95-171 | a drawn deck has one component per slide, active exactly at the current index |
| HybridScrollRenderer.Renderer.constructor | src/containers/slides/HybridScrollRenderer.tsx:15-17 | the renderer starts with progress 0 over the given store |
| HybridScrollRenderer.Renderer.HandleScroll | src/containers/slides/HybridScrollRenderer.tsx:28-42 | without a container nothing changes; otherwise the progress is recorded and the store moves to the slide it names by the shared guard |
| SimpleHybridRenderer.DisplayedProgress | src/containers/slides/SimpleHybridRenderer.tsx:32-37 | NaN exactly for one slide at offset 0, otherwise a finite value in [0, 1]: 0 for a zero total height, the exact fraction for an in-range offset over two or more slides, 1 past the last slide (or at any positive offset with one slide), 0 above the first |
| SimpleHybridRenderer.IndexAt | src/containers/slides/SimpleHybridRenderer.tsx:40 | an index is derived exactly when the window height is non-zero, as the nearest integer to offset over height |
| SimpleHybridRenderer.ScrollSync | src/containers/slides/SimpleHybridRenderer.tsx:40-43 | only the indices change; a finite index naming a slide becomes current; a non-finite index, one off the list or the current one leaves the store unchanged; a move resets the secondary index |
| SimpleHybridRenderer.NavigateTarget | src/containers/slides/SimpleHybridRenderer.tsx:20-26 | a scroll is issued exactly when mounted and the target exists, to target times the window height |
| SimpleHybridRenderer.NavigateThenScrollRoundTrip | src/containers/slides/SimpleHybridRenderer.tsx:20-43 | the offset navigation scrolls to is read back as the same slide |
| SimpleHybridRenderer.NavigateThenProgress | src/containers/slides/SimpleHybridRenderer.tsx:23-37 | at slide i's offset the progress bar shows i / (n - 1) |
| SimpleHybridRenderer.KeyDown | src/containers/slides/SimpleHybridRenderer.tsx:61-73 | ArrowDown and space navigate to the next slide, ArrowUp to the previous one, each only inside the deck; nothing else scrolls |
| SimpleHybridRenderer.KeyDownThenScroll | src/containers/slides/SimpleHybridRenderer.tsx:20-73 | a key press followed by the scroll it causes moves the store exactly as `nextSlide` or `prevSlide`; other keys scroll nowhere |
| SimpleHybridRenderer.Panels | src/containers/slides/SimpleHybridRenderer.tsx:79-83 | one component per slide in order, only the current one active |
| SimpleHybridRenderer.Render | src/containers/slides/SimpleHybridRenderer.tsx:107-181 | a drawn deck has one component per slide, active exactly at the current index |
| SimpleHybridRenderer.Renderer.constructor | src/containers/slides/SimpleHybridRenderer.tsx:15-17 | the renderer starts with progress 0 over the given store |
| SimpleHybridRenderer.Renderer.HandleScroll | src/containers/slides/SimpleHybridRenderer.tsx:29-44 | without a container nothing changes; otherwise the clamped progress is recorded and the store follows the derived index |
| SlideRenderer.KeyStep | src/containers/slides/SlideRenderer.tsx:29-37 | ArrowRight and space mean forward, ArrowLeft back, and only those keys do anything (each as an if-and-only-if) |
| SlideRenderer.SwipeStep | src/containers/slides/SlideRenderer.tsx:19-22 | a left swipe means forward, a right swipe back, vertical swipes nothing |
| SlideRenderer.HandleKeyDown | src/containers/slides/SlideRenderer.tsx:29-37 | the store afterwards is the key's navigation step applied to it |
| SlideRenderer.HandleSwipe | src/containers/slides/SlideRenderer.tsx:19-22 | the store afterwards is the swipe's navigation step applied to it |
| SlideRenderer.DisabledExactlyWhenNoOp | src/containers/slides/SlideRenderer.tsx:117-146 | on a valid index each button is disabled exactly when its action would change nothing |
| SlideRenderer.ProgressWidth | src/containers/slides/SlideRenderer.tsx:155 | for a valid index the bar's width lies in (0, 100] and is 100 exactly on the last slide |
| SlideRenderer.Shown | src/containers/slides/SlideRenderer.tsx:43-46 | the current slide is shown, active, when the index names one; nothing otherwise |
| SlideRenderer.Render | src/containers/slides/SlideRenderer.tsx:72-112 | a drawn deck holds at most the one current slide |
| AudioPlayer.Started | src/hooks/useAudioPlayer.ts:89-99 | after the seek and `play()`, the element sits at the loop start and plays exactly if it was playing or `play()` resolved |
| AudioPlayer.Released | src/hooks/useAudioPlayer.ts:53-58 | the effect cleanup leaves the element paused with an empty source |
| AudioPlayer.Player.constructor | src/hooks/useAudioPlayer.ts:12-17 | no element, every flag false, time 0 |
| AudioPlayer.Player.BindConfig | src/hooks/useAudioPlayer.ts:21-60 | the pending cleanup releases the last element; for a non-empty source while enabled a new 60 % element replaces it and loading is raised; `isPlaying` is never touched |
| AudioPlayer.Player.OnMediaEvent | src/hooks/useAudioPlayer.ts:36-47 | each of the three media events only ends loading |
| AudioPlayer.Player.LoopTick | src/hooks/useAudioPlayer.ts:63-83 | while armed, a tick applies the loop check to the element and records its position; otherwise nothing changes |
| AudioPlayer.Player.Playback | src/hooks/useAudioPlayer.ts:69 | the browser moves a playing element's position forward, and nothing else changes |
| AudioPlayer.LoopRewinds | src/hooks/useAudioPlayer.ts:63-83 | bind, load, interact, play, reach the loop end, tick: the element is back at the loop start |
| AudioPlayer.Player.EnableAudio | src/hooks/useAudioPlayer.ts:85-87 | only the interaction latch is set |
| AudioPlayer.Player.Play | src/hooks/useAudioPlayer.ts:89-100 | with an element, a config, no load and an interaction, the element is started and `isPlaying` follows the outcome; otherwise nothing changes |
| AudioPlayer.Player.Pause | src/hooks/useAudioPlayer.ts:102-110 | with an element it is paused and `isPlaying` cleared, which disarms the loop; otherwise nothing changes |
| AudioPlayer.Player.Toggle | src/hooks/useAudioPlayer.ts:112-123 | the first call only latches the interaction; later calls pause a playing player and play a stopped one |
| AudioPlayer.Player.AutoPlay | src/hooks/useAudioPlayer.ts:133-156 | when due it latches both flags and starts the element if any; once triggered it never fires again |
| AudioPlayer.Player.AutoPlayNextSlide | src/hooks/useAudioPlayer.ts:159-167 | once autoplay has fired, a stopped, loaded, enabled player with an element is started; otherwise nothing changes |
| AudioPlayer.Player.PlayableMeansCanPlay | src/hooks/useAudioPlayer.ts:178 | whenever `play` would act and audio is enabled, `canPlay` is true |
| AdvancedAudioPlayer.ClampVolume | src/hooks/useAdvancedAudioPlayer.ts:43 | a fade step's volume lies in [0, 0.6]: unchanged when already there, 0.6 above it, 0 below it |
| AdvancedAudioPlayer.Fade | src/hooks/useAdvancedAudioPlayer.ts:27-52 | twenty steps, each the clamped linear ramp value in [0, 0.6], the last equal to the end volume, and the element left at the end volume |
| AdvancedAudioPlayer.FadeInSteps | src/hooks/useAdvancedAudioPlayer.ts:29-43 | a fade-in rises by 0.03 per step |
| AdvancedAudioPlayer.FadeOutDescends | src/hooks/useAdvancedAudioPlayer.ts:29-43 | a fade-out from an in-range volume never rises from one step to the next |
| AdvancedAudioPlayer.Started | src/hooks/useAdvancedAudioPlayer.ts:65-75 | after `startAudio` the element is at the loop start; if `play()` resolved it plays at 0.6, otherwise pause flag and volume are kept |
| AdvancedAudioPlayer.Stopped | src/hooks/useAdvancedAudioPlayer.ts:78-82 | after `stopAudio` the element is silent, paused and rewound |
| AdvancedAudioPlayer.StartAudio | src/hooks/useAdvancedAudioPlayer.ts:65-75 | the element becomes `Started` of the input and `isPlaying` is set to whether `play()` resolved |
| AdvancedAudioPlayer.StopAudio | src/hooks/useAdvancedAudioPlayer.ts:78-82 | the element becomes `Stopped` of the input |
| AdvancedAudioPlayer.Transition | src/hooks/useAdvancedAudioPlayer.ts:90-134 | the invariant is kept; the same source is a no-op; a failed load leaves both flags raised and the old element in place; a successful one makes the new element active with flags lowered, started from the loop start when the user has interacted and autoplay is requested (then `isPlaying` follows `play()`, otherwise it is kept), keeps `currentTime`, and drops the old element (stopped if it was playing) |
| AdvancedAudioPlayer.TransitionTwice | src/hooks/useAdvancedAudioPlayer.ts:91-93 | after a transition that succeeded or was a no-op, binding the same source again changes nothing |
| AdvancedAudioPlayer.Player.constructor | src/hooks/useAdvancedAudioPlayer.ts:12-20 | no element, no source, every flag false |
| AdvancedAudioPlayer.Player.TransitionToNewAudio | src/hooks/useAdvancedAudioPlayer.ts:90-134 | the new state and dropped element are `Transition` of the old state |
| AdvancedAudioPlayer.Player.BindConfig | src/hooks/useAdvancedAudioPlayer.ts:137-141 | a non-empty source while enabled starts `Transition`; any other configuration changes nothing |
| AdvancedAudioPlayer.Player.LoopTick | src/hooks/useAdvancedAudioPlayer.ts:144-163 | while armed (playing, not transitioning) a tick applies the loop check and records the position; otherwise nothing changes |
| AdvancedAudioPlayer.Player.Playback | src/hooks/useAdvancedAudioPlayer.ts:149 | the browser moves a playing element's position forward, and nothing else changes |
| AdvancedAudioPlayer.LoopRewinds | src/hooks/useAdvancedAudioPlayer.ts:144-163 | bind a source that loads, interact, play, reach the loop end, tick: the element is back at the loop start |
| AdvancedAudioPlayer.Player.AutoPlay | src/hooks/useAdvancedAudioPlayer.ts:166-179 | when due it latches both flags and starts the active element if any; it never fires once triggered, while loading or while transitioning |
| AdvancedAudioPlayer.Player.Play | src/hooks/useAdvancedAudioPlayer.ts:182-186 | when permitted and not transitioning the active element is started and `isPlaying` follows the outcome; otherwise nothing changes |
| AdvancedAudioPlayer.Player.Pause | src/hooks/useAdvancedAudioPlayer.ts:189-194 | outside a transition the active element is stopped and `isPlaying` cleared; otherwise nothing changes |
| AdvancedAudioPlayer.Player.Toggle | src/hooks/useAdvancedAudioPlayer.ts:197-208 | the first call only latches the interaction; during a transition nothing happens; otherwise it pauses a playing player and plays a stopped one |
| AdvancedAudioPlayer.Player.PlayableMeansCanPlay | src/hooks/useAdvancedAudioPlayer.ts:246 | whenever `play` would act and audio is enabled, `canPlay` is true |
| AudioProvider.Provider.constructor | src/context/AudioContext.tsx:11-12 | audio starts enabled, before any interaction |
| AudioProvider.Provider.EnableAudio | src/context/AudioContext.tsx:14-17 | both flags end up true, so a repeated call changes nothing |
| AudioProvider.Provider.DisableAudio | src/context/AudioContext.tsx:19-21 | audio is off and the interaction latch is kept |

## Left out

- `fetch` and JSON parsing are not modelled: the outcome of the request is an input. The payload's shape is not validated, because the code only casts it.
- Timing is left out:
  - the 100 ms and 150 ms autoplay timers;
  - the 100 ms loop interval;
  - the 800 ms and 600 ms fade durations;
  - the 10 s load timeout.
  Each timer firing in the basic player is one method call. The fade ticks are `Fade` loop iterations, and the timeout is one `LoadOutcome`.
- React's effect scheduling is left out:
  - an effect re-running when its dependencies change;
  - stale closures;
  - an effect cleanup cancelling a timer that has not fired yet;
  - one transition interleaving with another.
  They are scheduling properties, not state.
- AudioPlayer.Player.AutoPlay and AdvancedAudioPlayer.Player.AutoPlay: each runs the effect and its 100 ms timer as one step. In the hooks, latching `hasAutoPlayTriggered` changes that effect's own dependencies, so the re-render's cleanup clears the timer before it fires. The basic player then reaches the same state through its 150 ms follow-up effect (`AutoPlayNextSlide`). The advanced player has no follow-up effect, so as the code reads its element would not be started by autoplay at all. The model states the state the timer would produce had it fired.
- AdvancedAudioPlayer.Player.TransitionToNewAudio: the transition and its three awaits (the load, the fade-out and the fade-in) are one step. As a result, `isTransitioning` is observed raised only after a failed load, never halfway through a fade. The transition guards of `Play`, `Pause`, `Toggle`, `LoopTick` and `AutoPlay` are therefore only exercised in that state.
- The unmount cleanups of both hooks are left out. The advanced one captures refs that are still empty at mount.
- `nextAudioRef` is not modelled. It only aliases the new element, and its one reader is that unmount cleanup.
- The `catch` branch of `stopAudio` is not modelled. `fadeAudio` never rejects, so it cannot run.
- The element created by a failed transition is left out. It is never stored in the player.
- Floating-point rounding is not modelled, so fade volumes and scroll fractions are exact.
- Swipe detection thresholds are not modelled: `src/hooks/useSwipe.ts` is not part of this model, and a swipe is a `SwipeDirection` input.
- The DOM's own behaviour is left out:
  - browser scrolling and its clamping of a `scrollTo` target;
  - smooth-scroll animation;
  - `preventDefault`;
  - `preload` and `crossOrigin`.
  A navigation yields only the `scrollTo` command.
- The slide components, their animations and call-to-action handlers are left out. So are `MinimalAudioPlayer`, `AudioPermissionModal` and the `App` glue that computes `shouldAutoPlay`. They are presentation, and `shouldAutoPlay` is a parameter.
- Slide content fields other than `id`, `title` and `audio` are left out. No core logic reads them.
- Numeric slide ids are integers in the model. A fractional id falls into the default case either way.
- `setScrollMode` is modelled, but nothing in the core reads `scrollMode`.
