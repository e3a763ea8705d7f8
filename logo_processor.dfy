/**
 * The badge compositor of src/logo_processor.py (`process_logo_for_qr`):
 * the logo is fitted into an oversampled square, masked to a circle, laid on
 * a circular background inside a ring, and scaled down to the target size.
 * Canvases carry their side, their mode and the list of drawing operations
 * applied to them; pixels, resampling and filters are the library's.
 */
module LogoProcessor {

  import opened Wrappers
  import opened Images

  /** A fill given to a drawing call: a grey level for the `L` mask, or a colour argument the library interprets. */
  datatype Paint = Gray(level: int) | Color(name: string) | Transparent

  /** An ellipse's bounding box `(x0, y0, x1, y1)`. */
  datatype Box = Box(x0: int, y0: int, x1: int, y1: int)

  /** One operation applied to a canvas, in order. */
  datatype Layer =
    | Ellipse(box: Box, paint: Paint)
    | Paste(x: int, y: int, width: int, height: int)
    | GaussianBlur(radiusTimesTwo: int)
    | AlphaComposite(side: int)
    | SmoothMore

  /** A square canvas from `Image.new`, with what was drawn on it. */
  datatype Canvas = Canvas(side: int, mode: Mode, background: Paint, layers: seq<Layer>)

  /** Every canvas and offset the pipeline builds on its way to the badge. */
  datatype Stages = Stages(
    internalSize: int,
    internalBorder: int,
    logoPosition: (int, int),
    baseImg: Canvas,
    mask: Canvas,
    logoCircular: Canvas,
    background: Canvas,
    logoWithBackground: Canvas,
    finalImage: Canvas)

  /**
   * Line 20: the oversampled working diameter. It is positive exactly when
   * the two factors have the same sign, and oversampling never shrinks it.
   */
  function InternalSize(outputSize: int, qualityFactor: int): (i: int)
    ensures i > 0 <==> (outputSize > 0 && qualityFactor > 0) || (outputSize < 0 && qualityFactor < 0)
    ensures outputSize >= 0 && qualityFactor >= 1 ==> i >= outputSize
  {
    outputSize * qualityFactor
  }

  /**
   * Line 21: the ring's thickness on the oversampled canvas. With a positive
   * quality factor it keeps the border's sign.
   */
  function InternalBorder(borderThickness: int, qualityFactor: int): (b: int)
    ensures qualityFactor > 0 ==> (b < 0 <==> borderThickness < 0) && (b == 0 <==> borderThickness == 0)
  {
    borderThickness * qualityFactor
  }

  /** Line 85: the side of the badge the caller receives. */
  function TargetSize(outputSize: int, borderThickness: int): int
  {
    outputSize + 2 * borderThickness
  }

  /** Line 65: the side of the working canvas that holds the ring. */
  function FinalSize(outputSize: int, borderThickness: int, qualityFactor: int): (f: int)
    ensures f == qualityFactor * TargetSize(outputSize, borderThickness)
  {
    InternalSize(outputSize, qualityFactor) + 2 * InternalBorder(borderThickness, qualityFactor)
  }

  /**
   * Lines 73-75: the background disc drawn inside the ring. Its box is inset
   * by the internal border on every side of the `finalSize` canvas and is
   * exactly `internalSize` across.
   */
  function InnerBox(internalSize: int, internalBorder: int): (b: Box)
    ensures b.x0 == b.y0 == internalBorder
    ensures b.x1 - b.x0 == b.y1 - b.y0 == internalSize
    ensures (internalSize + 2 * internalBorder) - b.x1 == internalBorder
  {
    var finalSize := internalSize + 2 * internalBorder;
    Box(internalBorder, internalBorder, finalSize - internalBorder, finalSize - internalBorder)
  }

  /** Lines 23-26: `logo_file` when given, otherwise whatever `Image.open(logo_path)` yields (None when it raises). */
  function LoadLogo(logoPath: string, logoFile: Option<Image>, openable: map<string, Image>): (logo: Option<Image>)
    ensures logo.Some? <==> logoFile.Some? || logoPath in openable
    ensures logoFile.None? && logoPath in openable ==> logo == Some(openable[logoPath])
  {
    if logoFile.Some? then logoFile
    else if logoPath in openable then Some(openable[logoPath])
    else None
  }

  /**
   * The conditions under which some step raises, so that the whole call
   * returns None (lines 91-93): the logo does not load; it has an empty side
   * (`ImageOps.contain` divides by its height, or resizes to zero); the
   * internal size is not positive (`contain` divides by it, or `Image.new`
   * rejects it); the contained logo has an empty side (`resize` rejects it);
   * the final canvas would have a negative side (`Image.new`); the target
   * side is negative (`resize`); or the library refuses something this model
   * leaves abstract (`libraryAccepts`: colour names, blur radius, modes).
   * A target side of 0 does not fail: the canvas is then 0 wide as well, and
   * `resize` returns a copy of an image that already has the requested size.
   */
  predicate Fails(source: Option<Image>, outputSize: int, borderThickness: int, qualityFactor: int,
                  containedWidth: int, containedHeight: int, libraryAccepts: bool)
  {
    || source.None?
    || source.value.width < 1 || source.value.height < 1
    || InternalSize(outputSize, qualityFactor) <= 0
    || containedWidth < 1 || containedHeight < 1
    || FinalSize(outputSize, borderThickness, qualityFactor) < 0
    || TargetSize(outputSize, borderThickness) < 0
    || !libraryAccepts
  }

  /**
   * `process_logo_for_qr`. `openable` maps the paths `Image.open` can read to
   * their images; `containedWidth` and `containedHeight` are the size
   * `ImageOps.contain` gives the logo for the internal square, never larger
   * than it; `libraryAccepts` stands for the library's remaining checks.
   * Besides the badge, the method returns the stages it built.
   */
  method ProcessLogoForQr(logoPath: string, outputSize: int, borderThickness: int, borderColor: string,
                          backgroundColor: string, logoFile: Option<Image>, qualityFactor: int,
                          openable: map<string, Image>, containedWidth: int, containedHeight: int,
                          libraryAccepts: bool)
    returns (badge: Option<Image>, stages: Option<Stages>)
    requires InternalSize(outputSize, qualityFactor) > 0 ==>
      containedWidth <= InternalSize(outputSize, qualityFactor) && containedHeight <= InternalSize(outputSize, qualityFactor)
    ensures badge.None? <==> Fails(LoadLogo(logoPath, logoFile, openable), outputSize, borderThickness, qualityFactor,
                                   containedWidth, containedHeight, libraryAccepts)
    ensures stages.Some? <==> badge.Some?
    ensures badge.Some? ==>
      var target := TargetSize(outputSize, borderThickness);
      badge.value == Image(target, target, RGBA)
    ensures stages.Some? ==>
      var s := stages.value;
      var i, b := s.internalSize, s.internalBorder;
      var f := FinalSize(outputSize, borderThickness, qualityFactor);
      && i == InternalSize(outputSize, qualityFactor) && b == InternalBorder(borderThickness, qualityFactor)
      // the contained logo sits centred and wholly inside the internal square
      && s.logoPosition == (CenterOffset(i, containedWidth), CenterOffset(i, containedHeight))
      && 0 <= s.logoPosition.0 && s.logoPosition.0 + containedWidth <= i
      && 0 <= s.logoPosition.1 && s.logoPosition.1 + containedHeight <= i
      && s.baseImg.layers == [Paste(s.logoPosition.0, s.logoPosition.1, containedWidth, containedHeight)]
      // every intermediate canvas is internal-size
      && s.baseImg.side == s.mask.side == s.logoCircular.side == s.background.side == s.logoWithBackground.side == i
      // the working canvas is the badge oversampled by the quality factor
      && s.finalImage.side == f == qualityFactor * badge.value.width
      // ring, inner disc, and the disc-backed logo pasted exactly over the inner disc
      && s.finalImage.layers == [Ellipse(Box(0, 0, f, f), Color(borderColor)),
                                 Ellipse(InnerBox(i, b), Color(backgroundColor)),
                                 Paste(b, b, i, i),
                                 SmoothMore]
  {
    var internalSize := outputSize * qualityFactor;
    var internalBorder := borderThickness * qualityFactor;
    var logo := LoadLogo(logoPath, logoFile, openable);
    if logo.None? || logo.value.width < 1 || logo.value.height < 1 || internalSize <= 0
       || containedWidth < 1 || containedHeight < 1 {
      return None, None;
    }
    // convert('RGBA') and ImageOps.contain
    var fitted := Image(containedWidth, containedHeight, RGBA);
    var logoPosition := (CenterOffset(internalSize, fitted.width), CenterOffset(internalSize, fitted.height));

    var baseImg := Canvas(internalSize, RGBA, Transparent, []);
    baseImg := baseImg.(layers := baseImg.layers + [Paste(logoPosition.0, logoPosition.1, fitted.width, fitted.height)]);

    var mask := Canvas(internalSize, L, Gray(0), []);
    mask := mask.(layers := mask.layers + [Ellipse(Box(0, 0, internalSize, internalSize), Gray(255))]);
    mask := mask.(layers := mask.layers + [GaussianBlur(qualityFactor)]);

    var logoCircular := Canvas(internalSize, RGBA, Transparent, []);
    logoCircular := logoCircular.(layers := logoCircular.layers + [Paste(0, 0, internalSize, internalSize)]);

    var background := Canvas(internalSize, RGBA, Transparent, []);
    background := background.(layers := background.layers + [Ellipse(Box(0, 0, internalSize, internalSize), Color(backgroundColor))]);

    var logoWithBackground := background.(layers := background.layers + [AlphaComposite(internalSize)]);

    var finalSize := internalSize + 2 * internalBorder;
    if finalSize < 0 {
      return None, None;
    }
    var finalImage := Canvas(finalSize, RGBA, Transparent, []);
    finalImage := finalImage.(layers := finalImage.layers + [Ellipse(Box(0, 0, finalSize, finalSize), Color(borderColor))]);
    finalImage := finalImage.(layers := finalImage.layers + [Ellipse(Box(internalBorder, internalBorder,
                                                                          finalSize - internalBorder, finalSize - internalBorder),
                                                                      Color(backgroundColor))]);
    finalImage := finalImage.(layers := finalImage.layers + [Paste(internalBorder, internalBorder, internalSize, internalSize)]);
    finalImage := finalImage.(layers := finalImage.layers + [SmoothMore]);

    var targetSize := outputSize + 2 * borderThickness;
    if targetSize < 0 || !libraryAccepts {
      return None, None;
    }
    badge := Some(Image(targetSize, targetSize, RGBA));
    stages := Some(Stages(internalSize, internalBorder, logoPosition, baseImg, mask, logoCircular,
                          background, logoWithBackground, finalImage));
  }

  // ---------------------------------------------------------------------
  // Properties
  // ---------------------------------------------------------------------

  /** `logo_file`, when given, is used and `logo_path` is never opened. */
  lemma LogoFileWins(img: Image, path1: string, path2: string, openable1: map<string, Image>, openable2: map<string, Image>)
    ensures LoadLogo(path1, Some(img), openable1) == LoadLogo(path2, Some(img), openable2) == Some(img)
  {
  }

  /**
   * A quality factor of zero always ends in None. A negative one ends in None
   * too, except when the target side is exactly 0: a positive target gives a
   * negative canvas, and a negative target is refused by `resize`.
   */
  lemma NonPositiveQualityFails(source: Option<Image>, outputSize: int, borderThickness: int, qualityFactor: int,
                                containedWidth: int, containedHeight: int, libraryAccepts: bool)
    requires qualityFactor <= 0
    ensures qualityFactor == 0 || TargetSize(outputSize, borderThickness) != 0 ==>
      Fails(source, outputSize, borderThickness, qualityFactor, containedWidth, containedHeight, libraryAccepts)
  {
    if InternalSize(outputSize, qualityFactor) > 0 && qualityFactor < 0 {
      assert outputSize < 0;
      if TargetSize(outputSize, borderThickness) >= 1 {
        assert qualityFactor * TargetSize(outputSize, borderThickness) < 0;
      }
    }
  }

  /**
   * A target side of 0 never fails on its own account, whatever the sign of
   * the quality factor: the working canvas is then 0 pixels wide, and the
   * badge is a 0×0 image.
   */
  lemma ZeroTargetSucceeds(source: Option<Image>, outputSize: int, borderThickness: int, qualityFactor: int,
                           containedWidth: int, containedHeight: int, libraryAccepts: bool)
    requires TargetSize(outputSize, borderThickness) == 0 && InternalSize(outputSize, qualityFactor) > 0
    requires source.Some? && source.value.width >= 1 && source.value.height >= 1
    requires containedWidth >= 1 && containedHeight >= 1 && libraryAccepts
    ensures !Fails(source, outputSize, borderThickness, qualityFactor, containedWidth, containedHeight, libraryAccepts)
    ensures FinalSize(outputSize, borderThickness, qualityFactor) == 0
  {
  }

  /**
   * With positive output size and quality factor, sizes alone never make the
   * call fail unless the target is negative: a negative border is accepted as
   * long as `output_size + 2*border_thickness` is not below 0.
   */
  lemma PositiveSizesSucceed(source: Option<Image>, outputSize: int, borderThickness: int, qualityFactor: int,
                             containedWidth: int, containedHeight: int, libraryAccepts: bool)
    requires outputSize >= 1 && qualityFactor >= 1
    requires source.Some? && source.value.width >= 1 && source.value.height >= 1
    requires containedWidth >= 1 && containedHeight >= 1 && libraryAccepts
    ensures !Fails(source, outputSize, borderThickness, qualityFactor, containedWidth, containedHeight, libraryAccepts)
            <==> TargetSize(outputSize, borderThickness) >= 0
  {
    var q := qualityFactor;
    var t := TargetSize(outputSize, borderThickness);
    assert InternalSize(outputSize, q) >= 1 by {
      assert outputSize * q >= 1 * q;
    }
    if t >= 0 {
      assert q * t >= 0;
    }
  }

  /** The declared defaults: a 600-pixel working square, an 8-pixel working border, a 616-pixel canvas, a 154-pixel badge. */
  lemma DefaultSizes()
    ensures InternalSize(150, 4) == 600 && InternalBorder(2, 4) == 8
    ensures FinalSize(150, 2, 4) == 616 && TargetSize(150, 2) == 154
    ensures InnerBox(600, 8) == Box(8, 8, 608, 608)
  {
  }
}
