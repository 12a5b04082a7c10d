/**
 * The aspect-preserving fit decision: given an image's pixel size and a bounding
 * box in centimetres, fix either the width or the height to the box and leave the
 * other to be derived from the image's proportions.
 */
module ImageProcessor {
  import opened Wrappers

  /** A `(width, height)` pair in centimetres; `None` means "derive from the aspect ratio". */
  datatype Dimensions = Dimensions(width: Option<real>, height: Option<real>)

  const Unsized: Dimensions := Dimensions(None, None)

  /**
   * `calculate_smart_dimensions` after the image has been read: a zero image height
   * or a zero box height gives `(None, None)` without dividing; otherwise the width
   * is fixed when the image is relatively wider than the box, and the height in
   * every other case, ties included.
   */
  function SmartDimensions(pixelWidth: nat, pixelHeight: nat, maxWidth: real, maxHeight: real): (d: Dimensions)
    ensures d == Unsized <==> pixelHeight == 0 || maxHeight == 0.0
    ensures d != Unsized ==> (d.width.Some? <==> d.height.None?)
    ensures d.width.Some? ==> d.width.value == maxWidth
    ensures d.height.Some? ==> d.height.value == maxHeight
  {
    if pixelHeight == 0 || maxHeight == 0.0 then Unsized
    else
      var imageRatio := pixelWidth as real / pixelHeight as real;
      var boxRatio := maxWidth / maxHeight;
      if imageRatio > boxRatio then Dimensions(Some(maxWidth), None)
      else Dimensions(None, Some(maxHeight))
  }

  /**
   * For a box of positive height the branch is decided without division: the width
   * is fixed exactly when `pixelWidth * maxHeight > maxWidth * pixelHeight`.
   */
  lemma WidthFixedIffWider(pixelWidth: nat, pixelHeight: nat, maxWidth: real, maxHeight: real)
    requires pixelHeight > 0 && maxHeight > 0.0
    ensures SmartDimensions(pixelWidth, pixelHeight, maxWidth, maxHeight).width.Some?
            <==> pixelWidth as real * maxHeight > maxWidth * pixelHeight as real
    ensures SmartDimensions(pixelWidth, pixelHeight, maxWidth, maxHeight).height.Some?
            <==> pixelWidth as real * maxHeight <= maxWidth * pixelHeight as real
  {
    var w, h := pixelWidth as real, pixelHeight as real;
    RatioOrder(w, h, maxWidth, maxHeight);
  }

  /** `a/b > c/d` exactly when `a*d > c*b`, for positive `b` and `d`. */
  lemma RatioOrder(a: real, b: real, c: real, d: real)
    requires b > 0.0 && d > 0.0
    ensures a / b > c / d <==> a * d > c * b
  {
    assert a / b * (b * d) == a * d;
    assert c / d * (b * d) == c * b;
    if a / b > c / d {
      MultiplyPositive(a / b, c / d, b * d);
    } else {
      MultiplyPositive(c / d, a / b, b * d);
    }
  }

  lemma MultiplyPositive(x: real, y: real, k: real)
    requires k > 0.0 && x >= y
    ensures x * k >= y * k
    ensures x > y ==> x * k > y * k
  {
  }

  /**
   * The size the picture is rendered at when one dimension is left to be derived:
   * the missing one follows the image's proportions, and with neither given the
   * image keeps its own size (`nativeCm` per pixel).
   */
  function RenderedSize(pixelWidth: nat, pixelHeight: nat, d: Dimensions, nativeCm: real): (size: (real, real))
    requires pixelWidth > 0 && pixelHeight > 0
    ensures size.0 * pixelHeight as real == size.1 * pixelWidth as real || (d.width.Some? && d.height.Some?)
  {
    var w, h := pixelWidth as real, pixelHeight as real;
    match (d.width, d.height)
    case (Some(cw), Some(ch)) => (cw, ch)
    case (Some(cw), None) => (cw, cw * h / w)
    case (None, Some(ch)) => (ch * w / h, ch)
    case (None, None) => (w * nativeCm, h * nativeCm)
  }

  /**
   * The fit is contained in the box: with the width fixed the derived height stays
   * strictly below the box height, with the height fixed the derived width does not
   * exceed the box width; either way the image keeps its proportions.
   */
  lemma {:induction false} FitsInsideBox(pixelWidth: nat, pixelHeight: nat, maxWidth: real, maxHeight: real, nativeCm: real)
    requires pixelWidth > 0 && pixelHeight > 0 && maxWidth > 0.0 && maxHeight > 0.0
    ensures var size := RenderedSize(pixelWidth, pixelHeight, SmartDimensions(pixelWidth, pixelHeight, maxWidth, maxHeight), nativeCm);
            && size.0 <= maxWidth && size.1 <= maxHeight
            && (size.0 == maxWidth || size.1 == maxHeight)
            && (SmartDimensions(pixelWidth, pixelHeight, maxWidth, maxHeight).width.Some? ==> size.1 < maxHeight)
            && size.0 * pixelHeight as real == size.1 * pixelWidth as real
  {
    var w, h := pixelWidth as real, pixelHeight as real;
    var d := SmartDimensions(pixelWidth, pixelHeight, maxWidth, maxHeight);
    WidthFixedIffWider(pixelWidth, pixelHeight, maxWidth, maxHeight);
    if d.width.Some? {
      // maxWidth * h < w * maxHeight, so maxWidth * h / w < maxHeight
      assert maxWidth * h / w * w == maxWidth * h;
      if maxWidth * h / w >= maxHeight {
        MultiplyPositive(maxWidth * h / w, maxHeight, w);
        assert false;
      }
    } else {
      assert maxHeight * w / h * h == maxHeight * w;
      if maxHeight * w / h > maxWidth {
        MultiplyPositive(maxHeight * w / h, maxWidth, h);
        assert false;
      }
    }
  }

  /** A 1080x1920 portrait image in a 10x15 box is fixed by height. */
  lemma TallImageExample()
    ensures SmartDimensions(1080, 1920, 10.0, 15.0) == Dimensions(None, Some(15.0))
  {
    WidthFixedIffWider(1080, 1920, 10.0, 15.0);
  }

  /** A 1920x1080 landscape image in a 20x10 box is also fixed by height: 16/9 is below 2. */
  lemma WideImageExample()
    ensures SmartDimensions(1920, 1080, 20.0, 10.0) == Dimensions(None, Some(10.0))
  {
    WidthFixedIffWider(1920, 1080, 20.0, 10.0);
  }

  /** Equal ratios go to the height branch. */
  lemma TieFixesHeight(pixelWidth: nat, pixelHeight: nat, maxWidth: real, maxHeight: real)
    requires pixelHeight > 0 && maxHeight > 0.0
    requires pixelWidth as real * maxHeight == maxWidth * pixelHeight as real
    ensures SmartDimensions(pixelWidth, pixelHeight, maxWidth, maxHeight) == Dimensions(None, Some(maxHeight))
  {
    WidthFixedIffWider(pixelWidth, pixelHeight, maxWidth, maxHeight);
  }
}
