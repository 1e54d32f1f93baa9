/** The offset arithmetic of `generate`: where the `crop` filter cuts the content
    area out of the scaled recording, and where the `pad` filter places that
    content on a canvas the size of the device frame. */
module Placement {
  import opened PythonOps
  import opened Sizes

  /** A crop: the rectangle of `size` whose top-left corner is at (`x`, `y`). */
  datatype Window = Window(x: int, y: int, size: Size)

  /** A pad: a canvas of size `canvas`, the content's top-left corner at (`x`, `y`).
      The offsets come from Python's true division, so they may be halves. */
  datatype Padding = Padding(canvas: Size, x: real, y: real)

  /** `crop(CONTENT_SIZE[0], CONTENT_SIZE[1], (width - CONTENT_SIZE[0]) // 2,
      (height - CONTENT_SIZE[1]) // 2)`: a centre crop to the content size. The
      leftover on the far side is the leftover on the near side or one more. */
  function CropWindow(scaled: Size, content: Size): (win: Window)
    ensures win.size == content
    ensures win.x <= scaled.w - content.w - win.x <= win.x + 1
    ensures win.y <= scaled.h - content.h - win.y <= win.y + 1
  {
    Window(HalfFloor(scaled.w - content.w), HalfFloor(scaled.h - content.h), content)
  }

  /** The crop lies inside the image it is cut from. */
  predicate Inside(win: Window, image: Size) {
    0 <= win.x && win.x + win.size.w <= image.w && 0 <= win.y && win.y + win.size.h <= image.h
  }

  /** When the scaled image covers the content area, the crop window fits in it. */
  lemma CropWindowFits(scaled: Size, content: Size)
    requires Covers(scaled, content)
    ensures Inside(CropWindow(scaled, content), scaled)
  {
  }

  /** If the scaled image is narrower or shorter than the content area, the crop
      offset on that axis goes negative: the cover property is what keeps it inside. */
  lemma CropWindowNeedsCover(scaled: Size, content: Size)
    ensures Inside(CropWindow(scaled, content), scaled) <==> Covers(scaled, content)
  {
  }

  /** `pad(frame_size[0], frame_size[1], (frame_size[0] - CONTENT_SIZE[0]) / 2,
      (frame_size[1] - CONTENT_SIZE[1]) / 2)`: the content centred on the frame's
      canvas, with equal margins on both sides of each axis. */
  function PadPlacement(frame: Size, content: Size): (p: Padding)
    ensures p.canvas == frame
    ensures p.x + content.w as real + p.x == frame.w as real
    ensures p.y + content.h as real + p.y == frame.h as real
  {
    Padding(frame, (frame.w - content.w) as real / 2.0, (frame.h - content.h) as real / 2.0)
  }

  /** A frame at least as large as the content gives non-negative pad offsets,
      and the content then lies within the canvas. */
  lemma PadPlacementFits(frame: Size, content: Size)
    requires Covers(frame, content)
    ensures var p := PadPlacement(frame, content);
            0.0 <= p.x && p.x + content.w as real <= frame.w as real
            && 0.0 <= p.y && p.y + content.h as real <= frame.h as real
  {
  }
}
