/**
 * The styled QR builder of src/utils/custom_qr.py (`crear_qr_personalizado`):
 * colours are normalised, the data is added to the caller's QR object, a
 * module drawer and a colour mask are chosen from their option strings, and
 * an optional logo is pasted in the centre of the finished raster.
 */
module StyledQr {

  import opened Wrappers
  import opened ColorNormalizer
  import opened Images
  import opened QrCodes

  /** The module shapes of the styled image factory. */
  datatype ModuleDrawer =
    | SquareModule
    | RoundedModule
    | CircleModule
    | GappedSquareModule
    | VerticalBars
    | HorizontalBars

  /** The `estilo` strings that select a drawer other than the square one. */
  const DrawerNames: map<string, ModuleDrawer> := map[
    "redondeado" := RoundedModule,
    "circular" := CircleModule,
    "espaciado" := GappedSquareModule,
    "barras_v" := VerticalBars,
    "barras_h" := HorizontalBars
  ]

  /** The `estilo` chain: the five named shapes, anything else (`'cuadrado'` included) the square drawer. */
  function SelectDrawer(estilo: string): (d: ModuleDrawer)
    ensures estilo in DrawerNames ==> d == DrawerNames[estilo]
    ensures estilo !in DrawerNames ==> d == SquareModule
  {
    if estilo == "redondeado" then RoundedModule
    else if estilo == "circular" then CircleModule
    else if estilo == "espaciado" then GappedSquareModule
    else if estilo == "barras_v" then VerticalBars
    else if estilo == "barras_h" then HorizontalBars
    else SquareModule
  }

  /** The colour masks the styled factory can apply; each carries the background colour. */
  datatype ColorMask =
    | RadialGradient(center: Rgb, edge: Rgb, back: Rgb)
    | HorizontalGradient(left: Rgb, right: Rgb, back: Rgb)
    | VerticalGradient(top: Rgb, bottom: Rgb, back: Rgb)
    | ImageMask(back: Rgb, maskPath: string)

  const GradientStyles: set<string> := {"radial", "horizontal", "vertical"}

  /**
   * The `color_estilo` chain. `maskPath` is `imagen_mascara`, with the empty
   * string standing for every falsy value (None, ''); `maskOpens` says whether
   * lines 94-95 succeed: `Image.open` accepts the path and `ImageColorMask`
   * accepts the call made with the opened image. A failure of either is
   * caught and gives no mask.
   */
  function SelectColorMask(colorEstilo: string, front: Rgb, gradient: Rgb, back: Rgb, maskPath: string, maskOpens: bool)
    : (m: Option<ColorMask>)
    ensures m.None? <==> colorEstilo !in GradientStyles && !(colorEstilo == "imagen" && maskPath != "" && maskOpens)
    ensures m.Some? ==> m.value.back == back
    ensures colorEstilo == "radial" ==> m == Some(RadialGradient(front, gradient, back))
    ensures colorEstilo == "horizontal" ==> m == Some(HorizontalGradient(front, gradient, back))
    ensures colorEstilo == "vertical" ==> m == Some(VerticalGradient(front, gradient, back))
    ensures m.Some? && m.value.ImageMask? ==> m.value.maskPath == maskPath
  {
    if colorEstilo == "radial" then Some(RadialGradient(front, gradient, back))
    else if colorEstilo == "horizontal" then Some(HorizontalGradient(front, gradient, back))
    else if colorEstilo == "vertical" then Some(VerticalGradient(front, gradient, back))
    else if colorEstilo == "imagen" && maskPath != "" then
      if maskOpens then Some(ImageMask(back, maskPath)) else None
    else None
  }

  /**
   * What lines 103-111 hand to `make_image`: the chosen colour mask, or, when
   * there is none, `color_qr` and `color_fondo` passed as `fill_color` and
   * `back_color`. Which colours the library then draws is not modelled.
   */
  datatype Fill = SolidFill(front: Rgb, back: Rgb) | MaskFill(mask: ColorMask)

  function ChooseFill(mask: Option<ColorMask>, front: Rgb, back: Rgb): (f: Fill)
    ensures f.SolidFill? <==> mask.None?
    ensures f.SolidFill? ==> f.front == front && f.back == back
    ensures f.MaskFill? ==> f.mask == mask.value
  {
    if mask.Some? then MaskFill(mask.value) else SolidFill(front, back)
  }

  /** The three normalised colours, or the `ValueError` of the first that fails. */
  datatype Colors = ColorsOk(front: Rgb, back: Rgb, gradient: Rgb) | ColorsRaised(group: string)

  /**
   * Lines 49-55: `color_qr`, then `color_fondo`, then `color_gradiente` are
   * normalised; a missing gradient colour is the normalised `color_qr`.
   */
  function ResolveColors(colorQr: ColorSpec, colorFondo: ColorSpec, colorGradiente: Option<ColorSpec>): (c: Colors)
    ensures c.ColorsOk? ==> ConvertColor(colorQr) == Converted(c.front) && ConvertColor(colorFondo) == Converted(c.back)
    ensures c.ColorsOk? && colorGradiente.None? ==> c.gradient == c.front
    ensures c.ColorsOk? && colorGradiente.Some? ==> ConvertColor(colorGradiente.value) == Converted(c.gradient)
    ensures c.ColorsRaised? <==>
      || ConvertColor(colorQr).HexValueError?
      || ConvertColor(colorFondo).HexValueError?
      || (colorGradiente.Some? && ConvertColor(colorGradiente.value).HexValueError?)
    ensures ConvertColor(colorQr).HexValueError? ==> c == ColorsRaised(ConvertColor(colorQr).group)
  {
    match (ConvertColor(colorQr), ConvertColor(colorFondo))
    case (HexValueError(g), _) => ColorsRaised(g)
    case (_, HexValueError(g)) => ColorsRaised(g)
    case (Converted(front), Converted(back)) =>
      if colorGradiente.None? then ColorsOk(front, back, front)
      else match ConvertColor(colorGradiente.value)
        case HexValueError(g) => ColorsRaised(g)
        case Converted(gradient) => ColorsOk(front, back, gradient)
  }

  /** The keyword arguments of `crear_qr_personalizado` that shape the picture. */
  datatype StyleOptions = StyleOptions(
    estilo: string,
    colorEstilo: string,
    colorQr: ColorSpec,
    colorFondo: ColorSpec,
    colorGradiente: Option<ColorSpec>,
    tamanoModulo: int,
    logo: Option<Image>,
    imagenMascara: string)

  /** The declared defaults (lines 22-29). `tamano_modulo` is never read by the body. */
  const DefaultOptions := StyleOptions("redondeado", "solido", Tuple([0, 0, 0]), Tuple([255, 255, 255]), None, 10, None, "")

  /** A pasted logo: its top-left corner, its side, and whether its alpha channel was the paste mask. */
  datatype Overlay = Overlay(x: int, y: int, side: int, alphaMasked: bool)

  /**
   * Lines 121-132: the logo, resized to `logoSide` square, goes where it is
   * centred on the `qrSide` raster; an RGBA logo is its own paste mask.
   */
  function LogoOverlay(qrSide: int, logoSide: int, logoMode: Mode): (o: Overlay)
    requires 0 <= logoSide <= qrSide
    ensures o.x == o.y && o.side == logoSide
    ensures 0 <= o.x && o.x + o.side <= qrSide
    ensures 0 <= (qrSide - (o.x + o.side)) - o.x <= 1
    ensures o.alphaMasked <==> logoMode == RGBA
  {
    var pos := CenterOffset(qrSide, logoSide);
    Overlay(pos, pos, logoSide, logoMode == RGBA)
  }

  /** What the raster looks like: styled, or the black-on-white fallback of lines 141-146. */
  datatype Look = Styled(drawer: ModuleDrawer, fill: Fill) | PlainBlackOnWhite

  datatype QrPicture = QrPicture(side: int, look: Look, overlay: Option<Overlay>)

  /** The three ways the call ends: a picture, a `ValueError` from a hex colour, or `DataOverflowError` from `make`. */
  datatype BuildOutcome = Built(picture: QrPicture) | ColorRaised(group: string) | DataOverflow

  /**
   * `crear_qr_personalizado`. Oracles for what the libraries decide:
   * `fittedVersion` is the version `make(fit=True)` settles on for the whole
   * accumulated data (above 40 it raises), `styledRenders` whether the styled
   * `make_image` succeeds, `maskOpens` whether lines 94-95 (opening the mask
   * image and building `ImageColorMask` from it) succeed, and
   * `logoSideFor(n)` stands for `int(n * 0.3)`, never more than `n`.
   */
  method CreateStyledQr(datos: string, qr: QrCode, opts: StyleOptions, fittedVersion: int,
                        maskOpens: bool, styledRenders: bool, logoSideFor: nat -> nat)
    returns (out: BuildOutcome)
    requires qr.boxSize >= 1 && qr.border >= 0 && fittedVersion >= 1
    requires forall n: nat :: logoSideFor(n) <= n
    modifies qr
    ensures var colors := ResolveColors(opts.colorQr, opts.colorFondo, opts.colorGradiente);
      && (colors.ColorsRaised? ==> out == ColorRaised(colors.group) && qr.chunks == old(qr.chunks))
      && (colors.ColorsOk? ==> qr.chunks == old(qr.chunks) + [datos])
      && (colors.ColorsOk? && fittedVersion > MaxVersion ==> out == DataOverflow)
      && (colors.ColorsOk? && fittedVersion <= MaxVersion ==>
            var side := qr.PixelSide(fittedVersion);
            && out.Built? && out.picture.side == side
            && (!styledRenders ==> out.picture == QrPicture(side, PlainBlackOnWhite, None))
            && (styledRenders ==>
                  var mask := SelectColorMask(opts.colorEstilo, colors.front, colors.gradient, colors.back,
                                              opts.imagenMascara, maskOpens);
                  && out.picture.look == Styled(SelectDrawer(opts.estilo), ChooseFill(mask, colors.front, colors.back))
                  && (opts.logo.None? ==> out.picture.overlay.None?)
                  && (opts.logo.Some? ==>
                        out.picture.overlay == Some(LogoOverlay(side, logoSideFor(side), opts.logo.value.mode)))))
  {
    var colors := ResolveColors(opts.colorQr, opts.colorFondo, opts.colorGradiente);
    if colors.ColorsRaised? {
      return ColorRaised(colors.group);
    }
    qr.AddData(datos);
    if fittedVersion > MaxVersion {
      return DataOverflow;
    }
    var side := qr.PixelSide(fittedVersion);
    var drawer := SelectDrawer(opts.estilo);
    if !styledRenders {
      return Built(QrPicture(side, PlainBlackOnWhite, None));
    }
    var mask := SelectColorMask(opts.colorEstilo, colors.front, colors.gradient, colors.back, opts.imagenMascara, maskOpens);
    var fill := ChooseFill(mask, colors.front, colors.back);
    var overlay: Option<Overlay> := None;
    if opts.logo.Some? {
      overlay := Some(LogoOverlay(side, logoSideFor(side), opts.logo.value.mode));
    }
    out := Built(QrPicture(side, Styled(drawer, fill), overlay));
  }

  // ---------------------------------------------------------------------
  // Properties
  // ---------------------------------------------------------------------

  /** With every default, the picture has rounded modules and no mask, with black and white passed as the plain colours. */
  lemma DefaultsAreRoundedBlackOnWhite()
    ensures ResolveColors(DefaultOptions.colorQr, DefaultOptions.colorFondo, DefaultOptions.colorGradiente)
      == ColorsOk(Black, Rgb(255, 255, 255), Black)
    ensures SelectDrawer(DefaultOptions.estilo) == RoundedModule
    ensures SelectColorMask(DefaultOptions.colorEstilo, Black, Black, Rgb(255, 255, 255), DefaultOptions.imagenMascara, true).None?
  {
    TupleDropsAlpha(0, 0, 0, 0);
    TupleDropsAlpha(255, 255, 255, 0);
  }

  /** Without a gradient colour, every gradient mask runs from `color_qr` to `color_qr`. */
  lemma GradientWithoutSecondColorIsFlat(colorEstilo: string, colorQr: ColorSpec, colorFondo: ColorSpec, maskPath: string, maskOpens: bool)
    requires colorEstilo in GradientStyles
    requires ResolveColors(colorQr, colorFondo, None).ColorsOk?
    ensures var c := ResolveColors(colorQr, colorFondo, None);
      var m := SelectColorMask(colorEstilo, c.front, c.gradient, c.back, maskPath, maskOpens);
      m.Some? && !m.value.ImageMask? &&
      match m.value
      case RadialGradient(center, edge, _) => center == edge == c.front
      case HorizontalGradient(left, right, _) => left == right == c.front
      case VerticalGradient(top, bottom, _) => top == bottom == c.front
  {
  }

  /** `'imagen'` gives an image mask only with a truthy path for which lines 94-95 succeed; otherwise the fill is solid. */
  lemma ImageStyleNeedsOpenableMask(front: Rgb, gradient: Rgb, back: Rgb, maskPath: string, maskOpens: bool)
    ensures ChooseFill(SelectColorMask("imagen", front, gradient, back, maskPath, maskOpens), front, back)
      == if maskPath != "" && maskOpens then MaskFill(ImageMask(back, maskPath)) else SolidFill(front, back)
  {
  }

  /** An unrecognised `color_estilo` (`'solido'` included) chooses no mask, so the two plain colours are passed as `fill_color` and `back_color`. */
  lemma UnknownColorStyleIsSolid(colorEstilo: string, front: Rgb, gradient: Rgb, back: Rgb, maskPath: string, maskOpens: bool)
    requires colorEstilo !in GradientStyles && colorEstilo != "imagen"
    ensures ChooseFill(SelectColorMask(colorEstilo, front, gradient, back, maskPath, maskOpens), front, back)
      == SolidFill(front, back)
  {
  }
}
