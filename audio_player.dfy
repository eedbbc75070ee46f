/**
 * `useAudioPlayer`: one audio element per slide configuration, a loop window
 * enforced by a periodic check, and playback gated on a user interaction.
 * Every effect firing, timer tick and media callback is a method call; the
 * hook's arguments (`audioConfig`, `isEnabled`, `shouldAutoPlay`) are passed
 * to the methods that read them, and `play()` resolving or rejecting is the
 * input `playResolves`.
 */
module AudioPlayer {
  import opened Wrappers
  import opened Media

  /** The volume every element of this hook is created with. */
  const Volume: real := 0.6

  /** The hook's state as one value: the element in `audioRef` and the five state variables. */
  datatype PlayerState = PlayerState(element: Option<Element>, isPlaying: bool, isLoading: bool,
                                     currentTime: real, hasUserInteracted: bool, hasAutoPlayTriggered: bool)

  /** An element after the seek to the loop start and a `play()` that resolved or rejected. */
  function Started(e: Element, loop: LoopWindow, playResolves: bool): (r: Element)
    ensures r.position == loop.start && r.src == e.src && r.volume == e.volume
    ensures r.paused == (e.paused && !playResolves)
  {
    if playResolves then e.(position := loop.start, paused := false) else e.(position := loop.start)
  }

  /** An element whose effect cleanup has run: paused and its source cleared. */
  function Released(e: Element): (r: Element)
    ensures r.paused && r.src == "" && r.position == e.position && r.volume == e.volume
  {
    e.(paused := true, src := "")
  }

  class Player {
    var element: Option<Element>
    var isPlaying: bool
    var isLoading: bool
    var currentTime: real
    var hasUserInteracted: bool
    var hasAutoPlayTriggered: bool

    function State(): PlayerState
      reads this
    {
      PlayerState(element, isPlaying, isLoading, currentTime, hasUserInteracted, hasAutoPlayTriggered)
    }

    /**
     * Autoplay only ever fires together with the interaction latch, loading
     * always refers to an element, and every element plays at 60 % volume.
     */
    ghost predicate Valid()
      reads this
    {
      && (hasAutoPlayTriggered ==> hasUserInteracted)
      && (isLoading ==> element.Some?)
      && (element.Some? ==> element.value.volume == Volume)
    }

    /** Both latches are only ever written `true`. */
    twostate predicate LatchesKept()
      reads this
    {
      && (old(hasUserInteracted) ==> hasUserInteracted)
      && (old(hasAutoPlayTriggered) ==> hasAutoPlayTriggered)
    }

    constructor ()
      ensures Valid()
      ensures State() == PlayerState(None, false, false, 0.0, false, false)
    {
      element := None;
      isPlaying := false;
      isLoading := false;
      currentTime := 0.0;
      hasUserInteracted := false;
      hasAutoPlayTriggered := false;
    }

    /** The element-creating effect has a cleanup pending: the element it made still has its source. */
    predicate CleanupPending()
      reads this
    {
      element.Some? && element.value.src != ""
    }

    /**
     * One firing of the load effect after `audioConfig?.src` or `isEnabled`
     * changed: the previous firing's cleanup pauses its element and clears
     * its source; then, for a non-empty source while enabled, the flag
     * `isLoading` is raised and a new element replaces the old one, which is
     * paused and dropped and returned as `dropped`. `isPlaying` is not touched.
     */
    method BindConfig(config: Option<AudioConfig>, isEnabled: bool) returns (dropped: Option<Element>)
      requires Valid()
      modifies this
      ensures Valid() && LatchesKept()
      ensures var kept := if old(CleanupPending()) then Some(Released(old(element).value)) else old(element);
        if config.Some? && config.value.src != "" && isEnabled then
          && State() == old(State()).(element := Some(NewElement(config.value.src, Volume)), isLoading := true)
          && dropped == (if kept.Some? then Some(kept.value.(paused := true)) else None)
        else
          State() == old(State()).(element := kept) && dropped == None
    {
      if CleanupPending() {
        element := Some(Released(element.value));
      }
      dropped := None;
      if config.Some? && config.value.src != "" && isEnabled {
        isLoading := true;
        if element.Some? {
          dropped := Some(element.value.(paused := true));
          element := None;
        }
        element := Some(NewElement(config.value.src, Volume));
      }
    }

    /** The `loadeddata`, `canplaythrough` and `error` listeners each end loading. */
    method OnMediaEvent(event: MediaEvent)
      requires Valid()
      modifies this
      ensures Valid() && LatchesKept()
      ensures State() == old(State()).(isLoading := false)
    {
      isLoading := false;
    }

    /** The loop interval exists while an element and a config are present, it plays, and the user has interacted. */
    predicate LoopArmed(config: Option<AudioConfig>)
      reads this
    {
      element.Some? && config.Some? && isPlaying && hasUserInteracted
    }

    /** One tick of the 100 ms loop interval; ticks happen only while it is armed. */
    method LoopTick(config: Option<AudioConfig>)
      requires Valid()
      modifies this
      ensures Valid() && LatchesKept()
      ensures !old(LoopArmed(config)) ==> State() == old(State())
      ensures old(LoopArmed(config)) ==>
        var p := CheckTime(old(element).value.position, config.value.loop);
        State() == old(State()).(element := Some(old(element).value.(position := p)), currentTime := p)
    {
      if LoopArmed(config) {
        var p := CheckTime(element.value.position, config.value.loop);
        element := Some(element.value.(position := p));
        currentTime := p;
      }
    }

    /**
     * The browser advancing the playing element's `currentTime`; the hook never
     * writes it itself, it only reads it on a loop tick.
     */
    method Playback(newPosition: real)
      requires Valid() && element.Some? && !element.value.paused
      requires element.value.position <= newPosition
      modifies this
      ensures Valid() && LatchesKept()
      ensures State() == old(State()).(element := Some(old(element).value.(position := newPosition)))
    {
      element := Some(element.value.(position := newPosition));
    }

    /** `enableAudio`: latch the interaction. */
    method EnableAudio()
      requires Valid()
      modifies this
      ensures Valid() && LatchesKept()
      ensures State() == old(State()).(hasUserInteracted := true)
    {
      hasUserInteracted := true;
    }

    /** The guard of `play`. */
    predicate MayPlay(config: Option<AudioConfig>)
      reads this
    {
      element.Some? && config.Some? && !isLoading && hasUserInteracted
    }

    /** `play`: seek to the loop start and play; `isPlaying` follows the outcome. */
    method Play(config: Option<AudioConfig>, playResolves: bool)
      requires Valid()
      modifies this
      ensures Valid() && LatchesKept()
      ensures !old(MayPlay(config)) ==> State() == old(State())
      ensures old(MayPlay(config)) ==>
        State() == old(State()).(element := Some(Started(old(element).value, config.value.loop, playResolves)),
                                 isPlaying := playResolves)
    {
      if MayPlay(config) {
        element := Some(Started(element.value, config.value.loop, playResolves));
        isPlaying := playResolves;
      }
    }

    /** `pause`: pause the element and stop playing, which also disarms the loop interval. */
    method Pause()
      requires Valid()
      modifies this
      ensures Valid() && LatchesKept()
      ensures old(element).None? ==> State() == old(State())
      ensures old(element).Some? ==>
        State() == old(State()).(element := Some(old(element).value.(paused := true)), isPlaying := false)
      ensures old(element).Some? ==> forall c :: !LoopArmed(c)
    {
      if element.Some? {
        element := Some(element.value.(paused := true));
        isPlaying := false;
      }
    }

    /** `toggle`: the first call only latches the interaction; later calls pause or play. */
    method Toggle(config: Option<AudioConfig>, playResolves: bool)
      requires Valid()
      modifies this
      ensures Valid() && LatchesKept()
      ensures !old(hasUserInteracted) ==> State() == old(State()).(hasUserInteracted := true)
      ensures old(hasUserInteracted) && old(isPlaying) && old(element).Some? ==>
        State() == old(State()).(element := Some(old(element).value.(paused := true)), isPlaying := false)
      ensures old(hasUserInteracted) && !old(isPlaying) && old(MayPlay(config)) ==>
        State() == old(State()).(element := Some(Started(old(element).value, config.value.loop, playResolves)),
                                 isPlaying := playResolves)
      ensures old(hasUserInteracted) && (if old(isPlaying) then old(element).None? else !old(MayPlay(config))) ==>
        State() == old(State())
    {
      if !hasUserInteracted {
        EnableAudio();
        return;
      }
      if isPlaying {
        Pause();
      } else {
        Play(config, playResolves);
      }
    }

    /** The guard of the first autoplay effect. */
    predicate AutoPlayDue(config: Option<AudioConfig>, isEnabled: bool, shouldAutoPlay: bool)
      reads this
    {
      shouldAutoPlay && config.Some? && !isLoading && isEnabled && !hasAutoPlayTriggered
    }

    /**
     * The first autoplay effect and its 100 ms timer: latch both flags, then
     * seek and play the element if there is one. It fires at most once.
     */
    method AutoPlay(config: Option<AudioConfig>, isEnabled: bool, shouldAutoPlay: bool, playResolves: bool)
      requires Valid()
      modifies this
      ensures Valid() && LatchesKept()
      ensures !old(AutoPlayDue(config, isEnabled, shouldAutoPlay)) ==> State() == old(State())
      ensures old(hasAutoPlayTriggered) ==> State() == old(State())
      ensures old(AutoPlayDue(config, isEnabled, shouldAutoPlay)) && old(element).None? ==>
        State() == old(State()).(hasAutoPlayTriggered := true, hasUserInteracted := true)
      ensures old(AutoPlayDue(config, isEnabled, shouldAutoPlay)) && old(element).Some? ==>
        State() == old(State()).(hasAutoPlayTriggered := true, hasUserInteracted := true,
                                 element := Some(Started(old(element).value, config.value.loop, playResolves)),
                                 isPlaying := playResolves)
    {
      if AutoPlayDue(config, isEnabled, shouldAutoPlay) {
        hasAutoPlayTriggered := true;
        hasUserInteracted := true;
        if element.Some? {
          element := Some(Started(element.value, config.value.loop, playResolves));
          isPlaying := playResolves;
        }
      }
    }

    /** The guard of the autoplay effect for later slides. */
    predicate ResumeDue(config: Option<AudioConfig>, isEnabled: bool, shouldAutoPlay: bool)
      reads this
    {
      hasUserInteracted && config.Some? && !isLoading && isEnabled && shouldAutoPlay && hasAutoPlayTriggered && !isPlaying
    }

    /** The autoplay effect for later slides and its 150 ms timer: once autoplay has fired, a stopped player calls `play`. */
    method AutoPlayNextSlide(config: Option<AudioConfig>, isEnabled: bool, shouldAutoPlay: bool, playResolves: bool)
      requires Valid()
      modifies this
      ensures Valid() && LatchesKept()
      ensures !(old(ResumeDue(config, isEnabled, shouldAutoPlay)) && old(element).Some?) ==> State() == old(State())
      ensures old(ResumeDue(config, isEnabled, shouldAutoPlay)) && old(element).Some? ==>
        State() == old(State()).(element := Some(Started(old(element).value, config.value.loop, playResolves)),
                                 isPlaying := playResolves)
    {
      if ResumeDue(config, isEnabled, shouldAutoPlay) {
        Play(config, playResolves);
      }
    }

    /** `canPlay`: a config is present, nothing is loading, and audio is enabled. */
    function CanPlay(config: Option<AudioConfig>, isEnabled: bool): bool
      reads this
    {
      config.Some? && !isLoading && isEnabled
    }

    /**
     * `canPlay` never hides a usable control: whenever `play` would act and
     * audio is enabled, it reports true. The converse does not hold, since
     * `canPlay` ignores the interaction latch.
     */
    lemma PlayableMeansCanPlay(config: Option<AudioConfig>)
      requires MayPlay(config)
      ensures CanPlay(config, true)
    {
    }
  }

  /**
   * The loop window at work: bind a source, finish loading, interact, play,
   * let playback reach the loop's end, and the next tick rewinds to its start.
   */
  method LoopRewinds(config: AudioConfig) returns (position: real)
    requires config.src != "" && config.loop.start < config.loop.end
    ensures position == config.loop.start
  {
    var player := new Player();
    var dropped := player.BindConfig(Some(config), true);
    player.OnMediaEvent(CanPlayThrough);
    player.EnableAudio();
    player.Play(Some(config), true);
    player.Playback(config.loop.end);
    player.LoopTick(Some(config));
    position := player.element.value.position;
  }
}
