/** `CGSize.aspecFit(_:)` of `DocumentScannerDemo`: the size scaled by one
    common ratio so that it fits inside a target size, as used to size the
    scanned-page thumbnails. */
module AspectFit {
  import opened RealMath

  datatype Size = Size(width: real, height: real)

  predicate Positive(s: Size)
  {
    s.width > 0.0 && s.height > 0.0
  }

  /** The largest ratio by which `s` can be scaled and still fit in `to`:
      `min(to.width / width, to.height / height)`. */
  function FitRatio(s: Size, to: Size): real
    requires Positive(s)
  {
    Min(to.width / s.width, to.height / s.height)
  }

  /** `aspecFit`: both sides scaled by the fit ratio. A zero side in `s` would
      divide by zero, so `s` must have positive sides. */
  function Fit(s: Size, to: Size): (r: Size)
    requires Positive(s)
    ensures r.width * s.height == r.height * s.width
    ensures r.width == s.width * FitRatio(s, to) && r.height == s.height * FitRatio(s, to)
  {
    var widthRatio := to.width / s.width;
    var heightRatio := to.height / s.height;
    var ratio := Min(widthRatio, heightRatio);
    Size(s.width * ratio, s.height * ratio)
  }

  /** Scaling by a ratio no larger than `to.width / s.width` stays within the
      target width (and likewise for the height). */
  lemma ScaledWithin(side: real, target: real, ratio: real)
    requires side > 0.0 && ratio <= target / side
    ensures side * ratio <= target
  {
    assert side * (target / side) == target;
  }

  /** For a positive target, the fitted size lies inside the target, one of
      its sides touches the target exactly, and its shape is that of `s`. */
  lemma FitInside(s: Size, to: Size)
    requires Positive(s) && Positive(to)
    ensures Fit(s, to).width <= to.width && Fit(s, to).height <= to.height
    ensures Fit(s, to).width == to.width || Fit(s, to).height == to.height
    ensures Positive(Fit(s, to))
  {
    var ratio := FitRatio(s, to);
    ScaledWithin(s.width, to.width, ratio);
    ScaledWithin(s.height, to.height, ratio);
    assert s.width * (to.width / s.width) == to.width;
    assert s.height * (to.height / s.height) == to.height;
    assert ratio > 0.0;
  }

  /** Fitting an already fitted size into the same target changes nothing. */
  lemma FitIdempotent(s: Size, to: Size)
    requires Positive(s) && Positive(to)
    ensures Positive(Fit(s, to)) && Fit(Fit(s, to), to) == Fit(s, to)
  {
    FitInside(s, to);
    var r := Fit(s, to);
    var wr, hr := to.width / r.width, to.height / r.height;
    QuotientAtLeastOne(to.width, r.width);
    QuotientAtLeastOne(to.height, r.height);
    if r.width == to.width {
      assert wr == 1.0;
    } else {
      assert hr == 1.0;
    }
    assert FitRatio(r, to) == 1.0;
  }

  lemma QuotientAtLeastOne(a: real, b: real)
    requires b > 0.0 && b <= a
    ensures a / b >= 1.0
  {
    assert a == (a / b) * b;
  }

  /** The thumbnails of the document list: pages fitted into 150 by 150. */
  lemma ThumbnailFits(s: Size)
    requires Positive(s)
    ensures Fit(s, Size(150.0, 150.0)).width <= 150.0 && Fit(s, Size(150.0, 150.0)).height <= 150.0
  {
    FitInside(s, Size(150.0, 150.0));
  }
}
