/** `AudioProvider`: the two session-wide audio permission flags. */
module AudioProvider {

  class Provider {
    var isAudioEnabled: bool
    var hasUserInteracted: bool

    /** Audio starts enabled, before any interaction. */
    constructor ()
      ensures isAudioEnabled && !hasUserInteracted
    {
      isAudioEnabled := true;
      hasUserInteracted := false;
    }

    /** `enableAudio`: both flags end up true, whatever they were, so a second call changes nothing. */
    method EnableAudio()
      modifies this
      ensures isAudioEnabled && hasUserInteracted
    {
      hasUserInteracted := true;
      isAudioEnabled := true;
    }

    /** `disableAudio`: audio is turned off and the interaction latch is kept as it was. */
    method DisableAudio()
      modifies this
      ensures !isAudioEnabled && hasUserInteracted == old(hasUserInteracted)
    {
      isAudioEnabled := false;
    }
  }
}
