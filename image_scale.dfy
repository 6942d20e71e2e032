/** The dimension rule of compressImage (app/components/Camera.js): before
    upload the picture is redrawn so that neither edge exceeds 800 pixels. */
module ImageScale {

  const MaxWidth: real := 800.0
  const MaxHeight: real := 800.0

  function Max(a: real, b: real): real {
    if a >= b then a else b
  }

  lemma MulLe(a: real, b: real, c: real)
    requires a >= 0.0 && b <= c
    ensures a * b <= a * c
  {
    assert a * c - a * b == a * (c - b);
  }

  lemma CancelLe(x: real, y: real, l: real)
    requires l > 0.0 && x * l <= y * l
    ensures x <= y
  {
    assert (y - x) * l >= 0.0;
  }

  /** Scaling the longer edge l down to m scales the shorter edge o by the
      same factor: o shrinks, stays within m, and keeps the ratio o : l. */
  lemma ScaleOther(o: real, l: real, m: real)
    requires 0.0 <= o <= l && 0.0 < m < l
    ensures o * (m / l) <= o && o * (m / l) <= m
    ensures m * o == o * (m / l) * l
  {
    var f := m / l;
    assert f * l == m;
    assert o * f * l == o * m;
    MulLe(o, m, l);
    CancelLe(o * f, o, l);
    MulLe(m, o, l);
    CancelLe(o * f, m, l);
  }

  /** The target width and height for an image of w by h pixels, computed the
      way the source does: reassigning width and height in place. */
  method CompressDimensions(w: nat, h: nat) returns (width: real, height: real)
    ensures width <= MaxWidth && height <= MaxHeight
    ensures width <= w as real && height <= h as real
    ensures width * (h as real) == height * (w as real)
    ensures Max(w as real, h as real) <= 800.0 ==> width == w as real && height == h as real
    ensures Max(w as real, h as real) > 800.0 ==> Max(width, height) == 800.0
    ensures w > h && w as real > MaxWidth ==> width == MaxWidth
    ensures w <= h && h as real > MaxHeight ==> height == MaxHeight
  {
    width := w as real;
    height := h as real;
    if width > height {
      if width > MaxWidth {
        ScaleOther(height, width, MaxWidth);
        height := height * (MaxWidth / width);
        width := MaxWidth;
      }
    } else {
      if height > MaxHeight {
        ScaleOther(width, height, MaxHeight);
        width := width * (MaxHeight / height);
        height := MaxHeight;
      }
    }
  }
}
