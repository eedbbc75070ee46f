/**
 * The audio configuration a slide carries and an abstraction of the browser's
 * audio element as an owned record.
 */
module Media {

  /** The playback interval, in seconds, that a slide's audio repeats. */
  datatype LoopWindow = LoopWindow(start: real, end: real)

  /** `AudioConfig` of both audio hooks: a source URI and its loop window. */
  datatype AudioConfig = AudioConfig(src: string, loop: LoopWindow)

  /** An audio element: its source, play position (`currentTime`), volume and pause flag. */
  datatype Element = Element(src: string, position: real, volume: real, paused: bool)

  /** A newly constructed element with its source set: at position 0, paused. */
  function NewElement(src: string, volume: real): (e: Element)
    ensures e.src == src && e.volume == volume && e.paused && e.position == 0.0
  {
    Element(src, 0.0, volume, true)
  }

  /** The media events the basic player listens to while an element loads. */
  datatype MediaEvent = LoadedData | CanPlayThrough | LoadError

  /**
   * The loop check run on every interval tick: a position at or past the loop's
   * end jumps back to its start; any other position is left alone.
   */
  function CheckTime(position: real, loop: LoopWindow): (p: real)
    ensures position < loop.end ==> p == position
    ensures position >= loop.end ==> p == loop.start
    ensures loop.start < loop.end ==> p < loop.end
  {
    if position >= loop.end then loop.start else position
  }
}
