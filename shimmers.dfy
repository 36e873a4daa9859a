/** The Facebook Shimmer configuration, kept opaque: the model records only
    which highlight builder produced it and the settings it was given. */
module Shimmers {

  /** `Shimmer.ColorHighlightBuilder` (with its base and highlight colours) or
      `Shimmer.AlphaHighlightBuilder`. */
  datatype Highlight = ColorHighlight(baseColor: int, highlightColor: int) | AlphaHighlight

  /** The settings a skeleton builder hands to a shimmer builder. */
  datatype ShimmerParams = ShimmerParams(
    highlight: Highlight,
    autoStart: bool,
    shape: int,
    duration: int,
    direction: int)

  /** A built, immutable shimmer; its identity matters, since a builder caches
      the one it built and hands out that same object again. */
  class Shimmer {
    const params: ShimmerParams

    constructor (params: ShimmerParams)
      ensures this.params == params
    {
      this.params := params;
    }
  }
}
