/**
 * `useAdvancedAudioPlayer`: a crossfading player that prepares a new element
 * for each source, fades the old one out and the new one in, and blocks its
 * controls while a transition is under way. Every effect firing, timer tick
 * and awaited promise is a method call; `play()` resolving or rejecting and
 * the way the new element's load ends are inputs.
 */
module AdvancedAudioPlayer {
  import opened Wrappers
  import opened Media

  /** The volume a fade-in ends at and the ceiling of every fade step. */
  const MaxVolume: real := 0.6

  /** The number of interval ticks a fade takes. */
  const FadeSteps: int := 20

  datatype Direction = FadeIn | FadeOut

  /** `Math.max(0, Math.min(0.6, v))`. */
  function ClampVolume(v: real): (r: real)
    ensures 0.0 <= r <= MaxVolume
    ensures 0.0 <= v <= MaxVolume ==> r == v
    ensures v > MaxVolume ==> r == MaxVolume
    ensures v < 0.0 ==> r == 0.0
  {
    if v < 0.0 then 0.0 else if v > MaxVolume then MaxVolume else v
  }

  function FadeStart(audio: Element, dir: Direction): real {
    if dir == FadeIn then 0.0 else audio.volume
  }

  function FadeEnd(dir: Direction): real {
    if dir == FadeIn then MaxVolume else 0.0
  }

  /** The volume after tick k of a fade from `startVolume` to `endVolume`. */
  function FadeLevel(startVolume: real, endVolume: real, k: int): real {
    ClampVolume(startVolume + (endVolume - startVolume) / (FadeSteps as real) * (k as real))
  }

  /** The ramp's last tick lands on the end volume, so setting it explicitly changes nothing. */
  lemma FadeReachesEnd(startVolume: real, endVolume: real)
    requires 0.0 <= endVolume <= MaxVolume
    ensures FadeLevel(startVolume, endVolume, FadeSteps) == endVolume
  {
    assert (endVolume - startVolume) / (FadeSteps as real) * (FadeSteps as real) == endVolume - startVolume;
  }

  /**
   * `fadeAudio`: twenty interval ticks, each setting the clamped volume of the
   * linear ramp; the last tick sets the end volume itself. `volumes` is the
   * volume after each tick.
   */
  method Fade(audio: Element, dir: Direction) returns (faded: Element, volumes: seq<real>)
    ensures faded == audio.(volume := FadeEnd(dir))
    ensures |volumes| == FadeSteps
    ensures forall k :: 0 <= k < FadeSteps ==> 0.0 <= volumes[k] <= MaxVolume
    ensures forall k :: 0 <= k < FadeSteps ==> volumes[k] == FadeLevel(FadeStart(audio, dir), FadeEnd(dir), k + 1)
    ensures volumes[FadeSteps - 1] == FadeEnd(dir)
  {
    var startVolume := FadeStart(audio, dir);
    var endVolume := FadeEnd(dir);
    var volumeStep := (endVolume - startVolume) / (FadeSteps as real);
    var currentStep := 0;
    faded := audio;
    if dir == FadeIn {
      faded := faded.(volume := 0.0);
    }
    volumes := [];
    while currentStep < FadeSteps
      invariant 0 <= currentStep <= FadeSteps
      invariant |volumes| == currentStep
      invariant forall k :: 0 <= k < currentStep ==> volumes[k] == FadeLevel(startVolume, endVolume, k + 1)
      invariant faded == audio.(volume := faded.volume)
      invariant currentStep == FadeSteps ==> faded.volume == endVolume
      decreases FadeSteps - currentStep
    {
      currentStep := currentStep + 1;
      var level := ClampVolume(startVolume + volumeStep * (currentStep as real));
      assert level == FadeLevel(startVolume, endVolume, currentStep);
      faded := faded.(volume := level);
      if currentStep >= FadeSteps {
        FadeReachesEnd(startVolume, endVolume);
        faded := faded.(volume := endVolume);
      }
      volumes := volumes + [faded.volume];
    }
  }

  /** A fade-in ramps up in twenty equal steps of 0.03. */
  lemma FadeInSteps(k: int)
    requires 0 <= k <= FadeSteps
    ensures FadeLevel(0.0, MaxVolume, k) == 0.03 * (k as real)
  {
  }

  /** A fade-out from a volume in range never rises between ticks. */
  lemma FadeOutDescends(v: real, k: int)
    requires 0.0 <= v <= MaxVolume && 0 <= k < FadeSteps
    ensures FadeLevel(v, 0.0, k + 1) <= FadeLevel(v, 0.0, k)
  {
    var d := v / (FadeSteps as real);
    assert 0.0 <= d;
    assert (0.0 - v) / (FadeSteps as real) == -d;
    assert d * (k as real) <= d * (FadeSteps as real) by {
      assert (k as real) <= FadeSteps as real;
    }
    assert d * (FadeSteps as real) == v;
    assert d * ((k + 1) as real) == d * (k as real) + d;
    assert d * ((k + 1) as real) <= v by {
      assert ((k + 1) as real) <= FadeSteps as real;
      assert d * ((k + 1) as real) <= d * (FadeSteps as real);
    }
    assert FadeLevel(v, 0.0, k) == v - d * (k as real);
    assert FadeLevel(v, 0.0, k + 1) == v - d * ((k + 1) as real);
  }

  /** An element after `startAudio`: seeked to the loop start, and if `play()` resolved, playing at full fade-in volume. */
  function Started(e: Element, loop: LoopWindow, playResolves: bool): (r: Element)
    ensures r.position == loop.start && r.src == e.src
    ensures playResolves ==> !r.paused && r.volume == MaxVolume
    ensures !playResolves ==> r.paused == e.paused && r.volume == e.volume
  {
    if playResolves then e.(position := loop.start, paused := false, volume := MaxVolume)
    else e.(position := loop.start)
  }

  /** An element after `stopAudio`: faded to silence, paused and rewound to 0. */
  function Stopped(e: Element): (r: Element)
    ensures r.paused && r.volume == 0.0 && r.position == 0.0 && r.src == e.src
  {
    e.(volume := 0.0, paused := true, position := 0.0)
  }

  /** `startAudio`: seek, play, and fade in once playing; `playing` is the value `isPlaying` is set to. */
  method StartAudio(audio: Element, config: AudioConfig, playResolves: bool) returns (started: Element, playing: bool)
    ensures started == Started(audio, config.loop, playResolves)
    ensures playing == playResolves
  {
    started := audio.(position := config.loop.start);
    if playResolves {
      started := started.(paused := false);
      var ramp;
      started, ramp := Fade(started, FadeIn);
      playing := true;
    } else {
      playing := false;
    }
  }

  /** `stopAudio`: fade out, then pause and rewind. */
  method StopAudio(audio: Element) returns (stopped: Element)
    ensures stopped == Stopped(audio)
  {
    var ramp;
    stopped, ramp := Fade(audio, FadeOut);
    stopped := stopped.(paused := true, position := 0.0);
  }

  /** How waiting for the new element ends: `canplaythrough`, `error`, or the 10 s timeout. */
  datatype LoadOutcome = Ready | LoadFailed | LoadTimedOut

  /** The hook's state as one value. */
  datatype PlayerState = PlayerState(current: Option<Element>, currentSrc: Option<string>,
                                     isPlaying: bool, isLoading: bool, currentTime: real,
                                     isTransitioning: bool, hasUserInteracted: bool,
                                     hasAutoPlayTriggered: bool)

  /**
   * The invariant the player keeps: autoplay only fires with the interaction
   * latch; loading and transitioning are raised and lowered together;
   * `currentAudioSrc` names the active element's source; its volume stays
   * within the fade range.
   */
  ghost predicate Consistent(s: PlayerState) {
    && (s.hasAutoPlayTriggered ==> s.hasUserInteracted)
    && s.isLoading == s.isTransitioning
    && (s.current.Some? <==> s.currentSrc.Some?)
    && (s.current.Some? ==> s.current.value.src == s.currentSrc.value)
    && (s.current.Some? ==> 0.0 <= s.current.value.volume <= MaxVolume)
  }

  /** The guard that makes `transitionToNewAudio` return at once: the active element already plays this source. */
  predicate SameSource(s: PlayerState, config: AudioConfig) {
    s.current.Some? && s.currentSrc == Some(config.src)
  }

  /**
   * `transitionToNewAudio` from state `s`, with the old element that leaves
   * the player. The same source is a no-op. Otherwise both flags are raised
   * and a new silent element is prepared; if it fails to load the promise
   * rejects there and the flags stay raised. Once it can play through, the old
   * element is faded out, paused and rewound if the player was playing, the
   * new element becomes active and loading ends; it is started when the user
   * has interacted and autoplay is requested, and only then is `isPlaying`
   * written.
   */
  function Transition(s: PlayerState, config: AudioConfig, shouldAutoPlay: bool, load: LoadOutcome, playResolves: bool)
    : (r: (PlayerState, Option<Element>))
    ensures Consistent(s) ==> Consistent(r.0)
    ensures SameSource(s, config) ==> r == (s, None)
    ensures !SameSource(s, config) && load != Ready ==>
      r == (s.(isTransitioning := true, isLoading := true), None)
    ensures !SameSource(s, config) && load == Ready ==>
      && SameSource(r.0, config) && !r.0.isLoading && !r.0.isTransitioning
      && r.0.current.value.volume == (if s.hasUserInteracted && shouldAutoPlay && playResolves then MaxVolume else 0.0)
      && r.1 == (if s.current.Some? && s.isPlaying then Some(Stopped(s.current.value)) else s.current)
    ensures !SameSource(s, config) && load == Ready ==>
      var prepared := NewElement(config.src, 0.0);
      var starts := s.hasUserInteracted && shouldAutoPlay;
      && r.0.current == Some(if starts then Started(prepared, config.loop, playResolves) else prepared)
      && r.0.isPlaying == (if starts then playResolves else s.isPlaying)
      && r.0.currentTime == s.currentTime
    ensures r.0.isPlaying != s.isPlaying ==> load == Ready && s.hasUserInteracted && shouldAutoPlay
    ensures r.0.hasUserInteracted == s.hasUserInteracted && r.0.hasAutoPlayTriggered == s.hasAutoPlayTriggered
  {
    if SameSource(s, config) then (s, None)
    else if load != Ready then (s.(isTransitioning := true, isLoading := true), None)
    else
      var prepared := NewElement(config.src, 0.0);
      var starts := s.hasUserInteracted && shouldAutoPlay;
      (s.(current := Some(if starts then Started(prepared, config.loop, playResolves) else prepared),
          currentSrc := Some(config.src),
          isPlaying := if starts then playResolves else s.isPlaying,
          isLoading := false, isTransitioning := false),
       if s.current.Some? && s.isPlaying then Some(Stopped(s.current.value)) else s.current)
  }

  /**
   * Binding the same source twice in a row: whatever way the first transition
   * ended, a second one with the same source either changes nothing (it
   * succeeded) or is a retry of the load (it failed), so playback is never
   * restarted by a repeated bind after success.
   */
  lemma TransitionTwice(s: PlayerState, config: AudioConfig, shouldAutoPlay: bool, load: LoadOutcome,
                        playResolves: bool, load2: LoadOutcome, playResolves2: bool)
    requires load == Ready || SameSource(s, config)
    ensures var t := Transition(s, config, shouldAutoPlay, load, playResolves).0;
      Transition(t, config, shouldAutoPlay, load2, playResolves2) == (t, None)
  {
  }

  class Player {
    var current: Option<Element>
    var currentSrc: Option<string>
    var isPlaying: bool
    var isLoading: bool
    var currentTime: real
    var isTransitioning: bool
    var hasUserInteracted: bool
    var hasAutoPlayTriggered: bool

    function State(): PlayerState
      reads this
    {
      PlayerState(current, currentSrc, isPlaying, isLoading, currentTime,
                  isTransitioning, hasUserInteracted, hasAutoPlayTriggered)
    }

    ghost predicate Valid()
      reads this
    {
      Consistent(State())
    }

    /** Both latches are only ever written `true`. */
    twostate predicate LatchesKept()
      reads this
    {
      && (old(hasUserInteracted) ==> hasUserInteracted)
      && (old(hasAutoPlayTriggered) ==> hasAutoPlayTriggered)
    }

    constructor ()
      ensures Valid()
      ensures State() == PlayerState(None, None, false, false, 0.0, false, false, false)
    {
      current := None;
      currentSrc := None;
      isPlaying := false;
      isLoading := false;
      currentTime := 0.0;
      isTransitioning := false;
      hasUserInteracted := false;
      hasAutoPlayTriggered := false;
    }

    /** `transitionToNewAudio`; the old element leaves the player as `dropped`. */
    method TransitionToNewAudio(config: AudioConfig, shouldAutoPlay: bool, load: LoadOutcome, playResolves: bool)
      returns (dropped: Option<Element>)
      requires Valid()
      modifies this
      ensures Valid() && LatchesKept()
      ensures (State(), dropped) == Transition(old(State()), config, shouldAutoPlay, load, playResolves)
    {
      dropped := None;
      if current.Some? && currentSrc == Some(config.src) {
        return;
      }
      isTransitioning, isLoading := true, true;
      var newAudio := NewElement(config.src, 0.0);
      if load != Ready {
        return;
      }
      var previous := current;
      if current.Some? && isPlaying {
        var stopped := StopAudio(current.value);
        previous := Some(stopped);
      }
      dropped := previous;
      current := Some(newAudio);
      currentSrc := Some(config.src);
      isLoading := false;
      if hasUserInteracted && shouldAutoPlay {
        var started, playing := StartAudio(newAudio, config, playResolves);
        current := Some(started);
        isPlaying := playing;
      }
      isTransitioning := false;
    }

    /** The effect that starts a transition whenever a non-empty source is configured and audio is enabled. */
    method BindConfig(config: Option<AudioConfig>, isEnabled: bool, shouldAutoPlay: bool, load: LoadOutcome, playResolves: bool)
      returns (dropped: Option<Element>)
      requires Valid()
      modifies this
      ensures Valid() && LatchesKept()
      ensures !(config.Some? && config.value.src != "" && isEnabled) ==> State() == old(State()) && dropped == None
      ensures config.Some? && config.value.src != "" && isEnabled ==>
        (State(), dropped) == Transition(old(State()), config.value, shouldAutoPlay, load, playResolves)
    {
      dropped := None;
      if config.Some? && config.value.src != "" && isEnabled {
        dropped := TransitionToNewAudio(config.value, shouldAutoPlay, load, playResolves);
      }
    }

    /** The loop interval exists while there is an active element and a config, it plays, and no transition runs. */
    predicate LoopArmed(config: Option<AudioConfig>)
      reads this
    {
      current.Some? && config.Some? && isPlaying && !isTransitioning
    }

    /** One tick of the 100 ms loop interval; ticks happen only while it is armed. */
    method LoopTick(config: Option<AudioConfig>)
      requires Valid()
      modifies this
      ensures Valid() && LatchesKept()
      ensures !old(LoopArmed(config)) ==> State() == old(State())
      ensures old(LoopArmed(config)) ==>
        var p := CheckTime(old(current).value.position, config.value.loop);
        State() == old(State()).(current := Some(old(current).value.(position := p)), currentTime := p)
    {
      if LoopArmed(config) {
        var p := CheckTime(current.value.position, config.value.loop);
        current := Some(current.value.(position := p));
        currentTime := p;
      }
    }

    /**
     * The browser advancing the playing element's `currentTime`; the hook never
     * writes it itself, it only reads it on a loop tick.
     */
    method Playback(newPosition: real)
      requires Valid() && current.Some? && !current.value.paused
      requires current.value.position <= newPosition
      modifies this
      ensures Valid() && LatchesKept()
      ensures State() == old(State()).(current := Some(old(current).value.(position := newPosition)))
    {
      current := Some(current.value.(position := newPosition));
    }

    /** The guard of the first autoplay effect. */
    predicate AutoPlayDue(config: Option<AudioConfig>, isEnabled: bool, shouldAutoPlay: bool)
      reads this
    {
      shouldAutoPlay && config.Some? && !isLoading && isEnabled && !hasAutoPlayTriggered && !isTransitioning
    }

    /**
     * The autoplay effect and its 100 ms timer: latch both flags, then start
     * the active element if there is one. It fires at most once, and never
     * while loading or transitioning.
     */
    method AutoPlay(config: Option<AudioConfig>, isEnabled: bool, shouldAutoPlay: bool, playResolves: bool)
      requires Valid()
      modifies this
      ensures Valid() && LatchesKept()
      ensures !old(AutoPlayDue(config, isEnabled, shouldAutoPlay)) ==> State() == old(State())
      ensures old(hasAutoPlayTriggered || isTransitioning || isLoading) ==> State() == old(State())
      ensures old(AutoPlayDue(config, isEnabled, shouldAutoPlay)) && old(current).None? ==>
        State() == old(State()).(hasAutoPlayTriggered := true, hasUserInteracted := true)
      ensures old(AutoPlayDue(config, isEnabled, shouldAutoPlay)) && old(current).Some? ==>
        State() == old(State()).(hasAutoPlayTriggered := true, hasUserInteracted := true,
                                 current := Some(Started(old(current).value, config.value.loop, playResolves)),
                                 isPlaying := playResolves)
    {
      if AutoPlayDue(config, isEnabled, shouldAutoPlay) {
        hasAutoPlayTriggered := true;
        hasUserInteracted := true;
        if current.Some? {
          var started, playing := StartAudio(current.value, config.value, playResolves);
          current := Some(started);
          isPlaying := playing;
        }
      }
    }

    /** The guard of `play`. */
    predicate MayPlay(config: Option<AudioConfig>)
      reads this
    {
      current.Some? && config.Some? && !isLoading && hasUserInteracted && !isTransitioning
    }

    /** `play`: start the active element when permitted and no transition runs. */
    method Play(config: Option<AudioConfig>, playResolves: bool)
      requires Valid()
      modifies this
      ensures Valid() && LatchesKept()
      ensures !old(MayPlay(config)) ==> State() == old(State())
      ensures old(MayPlay(config)) ==>
        State() == old(State()).(current := Some(Started(old(current).value, config.value.loop, playResolves)),
                                 isPlaying := playResolves)
    {
      if MayPlay(config) {
        var started, playing := StartAudio(current.value, config.value, playResolves);
        current := Some(started);
        isPlaying := playing;
      }
    }

    /** `pause`: fade out, pause and rewind the active element unless a transition runs. */
    method Pause()
      requires Valid()
      modifies this
      ensures Valid() && LatchesKept()
      ensures !(old(current).Some? && !old(isTransitioning)) ==> State() == old(State())
      ensures old(current).Some? && !old(isTransitioning) ==>
        State() == old(State()).(current := Some(Stopped(old(current).value)), isPlaying := false)
    {
      if current.Some? && !isTransitioning {
        var stopped := StopAudio(current.value);
        current := Some(stopped);
        isPlaying := false;
      }
    }

    /**
     * `toggle`: the first call only latches the interaction; during a
     * transition nothing happens; otherwise it pauses a playing player and
     * plays a stopped one.
     */
    method Toggle(config: Option<AudioConfig>, playResolves: bool)
      requires Valid()
      modifies this
      ensures Valid() && LatchesKept()
      ensures !old(hasUserInteracted) ==> State() == old(State()).(hasUserInteracted := true)
      ensures old(hasUserInteracted) && old(isTransitioning) ==> State() == old(State())
      ensures old(hasUserInteracted) && !old(isTransitioning) && old(isPlaying) && old(current).Some? ==>
        State() == old(State()).(current := Some(Stopped(old(current).value)), isPlaying := false)
      ensures old(hasUserInteracted) && !old(isPlaying) && old(MayPlay(config)) ==>
        State() == old(State()).(current := Some(Started(old(current).value, config.value.loop, playResolves)),
                                 isPlaying := playResolves)
      ensures old(hasUserInteracted) && (if old(isPlaying) then old(current).None? else !old(MayPlay(config))) ==>
        State() == old(State())
    {
      if !hasUserInteracted {
        hasUserInteracted := true;
        return;
      }
      if isPlaying && !isTransitioning {
        Pause();
      } else if !isTransitioning {
        Play(config, playResolves);
      }
    }

    /** `canPlay`: a config is present, nothing is loading, and audio is enabled. */
    function CanPlay(config: Option<AudioConfig>, isEnabled: bool): bool
      reads this
    {
      config.Some? && !isLoading && isEnabled
    }

    /**
     * `canPlay` never hides a usable control: whenever `play` would act and
     * audio is enabled, it reports true. The converse does not hold, since
     * `canPlay` ignores the interaction latch.
     */
    lemma PlayableMeansCanPlay(config: Option<AudioConfig>)
      requires MayPlay(config)
      ensures CanPlay(config, true)
    {
    }
  }

  /**
   * The loop window at work: bind a source that loads, interact, play, let
   * playback reach the loop's end, and the next tick rewinds to its start.
   */
  method LoopRewinds(config: AudioConfig) returns (position: real)
    requires config.src != "" && config.loop.start < config.loop.end
    ensures position == config.loop.start
  {
    var player := new Player();
    var dropped := player.BindConfig(Some(config), true, false, Ready, true);
    player.Toggle(Some(config), true);
    player.Play(Some(config), true);
    player.Playback(config.loop.end);
    player.LoopTick(Some(config));
    position := player.current.value.position;
  }
}
