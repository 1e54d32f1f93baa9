/** Pixel sizes. The script passes every size around as a two-element list
    `[width, height]`; here that list is a pair. */
module Sizes {

  datatype Size = Size(w: int, h: int)

  /** Both dimensions are strictly positive, as a decoded video frame's are. */
  predicate Positive(s: Size) {
    s.w > 0 && s.h > 0
  }

  /** `outer` covers `inner`: at least as wide and at least as tall. */
  predicate Covers(outer: Size, inner: Size) {
    outer.w >= inner.w && outer.h >= inner.h
  }
}
