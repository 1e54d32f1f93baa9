/** `calculate_size(current, target)`: scale a source resolution by one factor so
    that it covers the content area on both axes. */
module CoverScale {
  import opened PythonOps
  import opened Sizes

  /** `max(target[0] / current[0], target[1] / current[1])`, computed exactly.
      Python's `max(a, b)` keeps `a` unless `b` is strictly greater. */
  function CoverFactor(current: Size, target: Size): (f: real)
    requires current.w != 0 && current.h != 0
    ensures f >= target.w as real / current.w as real
    ensures f >= target.h as real / current.h as real
    ensures f == target.w as real / current.w as real || f == target.h as real / current.h as real
  {
    var horizontal := target.w as real / current.w as real;
    var vertical := target.h as real / current.h as real;
    if vertical > horizontal then vertical else horizontal
  }

  /** Each dimension of `current` times the cover factor, rounded half to even.
      A zero dimension makes the first or second division raise. */
  function CalculateSize(current: Size, target: Size): (r: Result<Size>)
    ensures r.Err? <==> current.w == 0 || current.h == 0
    ensures r.Err? ==> r.error == ZeroDivisionError
  {
    if current.w == 0 || current.h == 0 then Err(ZeroDivisionError)
    else
      Ok(Scaled(current, CoverFactor(current, target)))
  }

  /** `[round(dim * factor) for dim in current]`. */
  function Scaled(current: Size, factor: real): (r: Size)
    ensures current.w as real * factor - 0.5 <= r.w as real <= current.w as real * factor + 0.5
    ensures current.h as real * factor - 0.5 <= r.h as real <= current.h as real * factor + 0.5
  {
    Size(RoundHalfEven(current.w as real * factor), RoundHalfEven(current.h as real * factor))
  }

  /** A positive dimension `c` scaled by `t / c` is exactly `t`. */
  lemma ScaleBack(c: int, t: int)
    requires c != 0
    ensures c as real * (t as real / c as real) == t as real
  {
  }

  /** Scaling a positive dimension by at least `t / c` reaches at least `t`. */
  lemma ScaleReaches(c: int, t: int, f: real)
    requires c > 0 && f >= t as real / c as real
    ensures c as real * f >= t as real
  {
    ScaleBack(c, t);
    assert c as real * (f - t as real / c as real) >= 0.0;
  }

  /** The cover factor makes both scaled dimensions reach the target. */
  lemma CoverFactorCovers(current: Size, target: Size)
    requires Positive(current)
    ensures current.w as real * CoverFactor(current, target) >= target.w as real
    ensures current.h as real * CoverFactor(current, target) >= target.h as real
  {
    var f := CoverFactor(current, target);
    ScaleReaches(current.w, target.w, f);
    ScaleReaches(current.h, target.h, f);
  }

  /** The cover factor is the least uniform factor that covers the target:
      any factor that covers both axes is at least as large. */
  lemma CoverFactorIsLeast(current: Size, target: Size, g: real)
    requires Positive(current)
    requires current.w as real * g >= target.w as real
    requires current.h as real * g >= target.h as real
    ensures CoverFactor(current, target) <= g
  {
    var f := CoverFactor(current, target);
    if f == target.w as real / current.w as real {
      ScaleBack(current.w, target.w);
      assert current.w as real * (g - f) >= 0.0;
    } else {
      ScaleBack(current.h, target.h);
      assert current.h as real * (g - f) >= 0.0;
    }
  }

  /** With positive source dimensions the result covers the target on both axes:
      the content area is filled without letterboxing. */
  lemma CalculateSizeCovers(current: Size, target: Size)
    requires Positive(current)
    ensures CalculateSize(current, target).Ok?
    ensures Covers(CalculateSize(current, target).value, target)
  {
    var f := CoverFactor(current, target);
    CoverFactorCovers(current, target);
    RoundAtLeast(current.w as real * f, target.w);
    RoundAtLeast(current.h as real * f, target.h);
  }

  /** A dimension scaled by exactly its own ratio rounds to the target. */
  lemma ScaledExactly(c: int, t: int, f: real)
    requires c != 0 && f == t as real / c as real
    ensures RoundHalfEven(c as real * f) == t
  {
    ScaleBack(c, t);
    RoundWhole(t);
  }

  /** The axis with the larger ratio is scaled exactly onto its target. */
  lemma CalculateSizeDominantAxisExact(current: Size, target: Size)
    requires current.w != 0 && current.h != 0
    ensures target.w as real / current.w as real >= target.h as real / current.h as real
            ==> CalculateSize(current, target).value.w == target.w
    ensures target.h as real / current.h as real >= target.w as real / current.w as real
            ==> CalculateSize(current, target).value.h == target.h
  {
    var horizontal := target.w as real / current.w as real;
    var vertical := target.h as real / current.h as real;
    var f := CoverFactor(current, target);
    var r := Scaled(current, f);
    assert CalculateSize(current, target) == Ok(r);
    if horizontal >= vertical {
      assert f == horizontal;
      ScaledExactly(current.w, target.w, f);
    }
    if vertical >= horizontal {
      assert f == vertical;
      ScaledExactly(current.h, target.h, f);
    }
  }

  /** One factor scales both dimensions: each result is within half a pixel of
      its source dimension times the same factor, which is at least both ratios. */
  lemma CalculateSizeUniformScale(current: Size, target: Size)
    requires current.w != 0 && current.h != 0
    ensures var f := CoverFactor(current, target);
            var r := CalculateSize(current, target).value;
            && current.w as real * f - 0.5 <= r.w as real <= current.w as real * f + 0.5
            && current.h as real * f - 0.5 <= r.h as real <= current.h as real * f + 0.5
  {
  }

  /** A source that already has the target size is left unchanged. */
  lemma CalculateSizeIdentity(s: Size)
    requires s.w != 0 && s.h != 0
    ensures CalculateSize(s, s) == Ok(s)
  {
    assert s.w as real / s.w as real == 1.0 == s.h as real / s.h as real;
    CalculateSizeDominantAxisExact(s, s);
  }

  /** A landscape 1920x1080 recording on the iPhone content area: the factor is
      1918/1080, so the height lands on 1918 and the width on 3410 (3409.77...). */
  lemma LandscapeOntoIPhone()
    ensures CalculateSize(Size(1920, 1080), Size(884, 1918)) == Ok(Size(3410, 1918))
  {
    var f := CoverFactor(Size(1920, 1080), Size(884, 1918));
    assert f == 1918.0 / 1080.0;
    RoundNearest(1920.0 * f, 3410);
    RoundNearest(1080.0 * f, 1918);
  }
}
