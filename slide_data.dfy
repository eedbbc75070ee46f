/** The slide record of the store and its identifier. */
module SlideData {
  import opened Wrappers
  import opened Media

  /**
   * A slide `id` is a number or a string; the renderers compare it with `===`,
   * so `Num(1)` and `Tag("1")` are different identifiers.
   */
  datatype SlideId = Num(n: int) | Tag(s: string)

  /**
   * A slide. Only the fields the modelled logic reads are kept: the `id` the
   * renderers dispatch on and the optional audio configuration.
   */
  datatype Slide = Slide(id: SlideId, title: string, audio: Option<AudioConfig>)
}
