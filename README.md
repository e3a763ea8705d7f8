# QrGenerator in Dafny

A Dafny model of the logic in QrGenerator, a small Python tool. The tool
writes a QR code for a piece of text as a PNG file and can place a logo in
its centre. The model covers four parts:

- **Colour normalisation** (`ColorNormalizer`, color.dfy).
  `convert_color_to_rgb` turns a colour argument into an RGB triple. The
  argument can be a tuple, a `#RRGGBB` string, one of nine colour names, or
  anything else. A `#` string whose groups are not base-16 numerals raises.
- **The styled builder** (`StyledQr`, styled_qr.dfy). `crear_qr_personalizado`:
  - normalises the colours;
  - adds the data to the caller's QR object;
  - picks a module drawer and a colour mask from their option strings;
  - pastes an optional logo in the centre;
  - falls back to a plain black-on-white image when the styled rendering
    raises.
- **The logo badge** (`LogoProcessor`, logo_processor.dfy). `process_logo_for_qr`:
  - fits the logo into an oversampled square;
  - masks it to a circle;
  - lays it on a disc inside a ring;
  - scales the result down to `output_size + 2*border_thickness`;
  - returns None whenever any step raises.
- **The generator class** (`Generator`, qr_generator.dfy). `QrGenerator`
  holds one QR object, reused by every call, and an optional logo.
  `setLogoByPath` loads the logo or raises one of two errors.
  `getImageQr` names the file after the current second, shrinks the logo to
  70×70 and pastes it in the centre.

Images are records of their size and pixel mode (`Images`, images.dfy).
The QR object of the `qrcode` library is a class that keeps the data it was
given and its fixed configuration (`QrCodes`, qr_code.dfy). Whatever a
library decides is a parameter of the operation that needs it:

- the version the encoder fits the data into;
- whether an image opens, and whether the mask image opens and `ImageColorMask` accepts it;
- the size `ImageOps.contain` produces;
- the logo side `int(qr_size*0.3)`;
- the clock;
- the file system.

## Model

| member | source | states |
|---|---|---|
| `Images.CenterOffset` | src/logo_processor.py:37-38 | `(outer-inner)//2` is the floor of half the slack. When the inner span fits, the offset is non-negative and the inner span lies inside the outer one. The two margins differ by at most one pixel. When the inner span does not fit, the offset is negative. |
| `Images.IsTransparencyMask` | src/qr_generator.py:64 | The modes `paste` accepts as a transparency mask: `1`, `L`, `LA` and `RGBA`. Any other mode raises "bad transparency mask". |
| `ColorNormalizer.ConvertColor` | src/utils/custom_qr.py:148-181 | Only a string starting with `#` can raise. Every non-string argument yields a triple. |
| `ColorNormalizer.LookupName` | src/utils/custom_qr.py:162-181 | Looking up a name never raises. An unknown name gives black. |
| `ColorNormalizer.ParseHexColor` | src/utils/custom_qr.py:159-160 | The call raises exactly when one of the groups at 0, 2 and 4 is not a base-16 numeral, and it reports the first such group in that order. Otherwise the triple is the three groups' values, each in -15..255. |
| `ColorNormalizer.ParseBase16` | src/utils/custom_qr.py:160 | `int(g, 16)` on a group of at most two characters. Accepted: two hex digits; or one hex digit alone, beside whitespace, or after a sign. Anything else raises, the empty group included. The value lies in -15..255. |
| `ColorNormalizer.LStripHash` | src/utils/custom_qr.py:159 | `lstrip('#')` returns a suffix that does not start with `#`. Everything it removed was `#`. |
| `ColorNormalizer.Group` | src/utils/custom_qr.py:160 | `s[i:i+2]` is the slice from `i` clamped to the end of `s`, empty when `i` is past the end, and at most two characters. |
| `ColorNormalizer.Lower` | src/utils/custom_qr.py:176 | `lower()` keeps the length and leaves no ASCII capital. Each ASCII capital becomes its lower-case letter, and every other ASCII character is kept. |
| `ColorNormalizer.TupleDropsAlpha` | src/utils/custom_qr.py:153-155 | A 3-tuple is returned unchanged. A 4-tuple loses its alpha component. |
| `ColorNormalizer.FallbackIsBlack` | src/utils/custom_qr.py:176-181 | These all yield (0,0,0): a tuple of another length; a value that is neither a tuple nor a string; a string that starts without `#` and whose lower-case form is not a palette name. |
| `ColorNormalizer.HexBranch` | src/utils/custom_qr.py:158-160 | A string starting with `#` takes the hex branch, whatever follows. |
| `ColorNormalizer.FormatThenConvert` | src/utils/custom_qr.py:158-160 | Take any triple in 0..255 and format it as `#RRGGBB` in upper- or lower-case digits. Converting that string gives the triple back. |
| `ColorNormalizer.ConvertThenFormat` | src/utils/custom_qr.py:158-160 | Six hex digits after `#` convert to a triple in byte range. Formatting that triple gives back the digits in lower case. |
| `ColorNormalizer.StripHashesPrefix` | src/utils/custom_qr.py:159 | `lstrip('#')` removes any number of leading `#` characters. |
| `ColorNormalizer.LeadingHashesStripped` | src/utils/custom_qr.py:158-160 | Converting after many leading `#` characters gives the same result as after one. |
| `ColorNormalizer.TrailingCharactersIgnored` | src/utils/custom_qr.py:159-160 | Only the first six characters after the `#` are read. Anything after them is ignored. |
| `ColorNormalizer.ShortHexRaises` | src/utils/custom_qr.py:158-160 | With four characters or fewer after the `#`, the third group is empty and the call raises. It never reaches the black fallback. |
| `ColorNormalizer.NonNumeralGroupRaises` | src/utils/custom_qr.py:158-160 | A `#` string raises when any of its three groups after the `#`s is not a base-16 numeral, whatever its length. |
| `ColorNormalizer.MiddleGroupRaises` | src/utils/custom_qr.py:158-160 | `#12zz56` raises on its middle group `zz`, not falling back to black. |
| `ColorNormalizer.FiveHexDigits` | src/utils/custom_qr.py:160 | Five hex digits do not raise. The blue component is the fifth digit alone. |
| `ColorNormalizer.PaletteSize` | src/utils/custom_qr.py:163-173 | The palette has exactly the nine listed names. |
| `ColorNormalizer.PaletteNamesLowerCase` | src/utils/custom_qr.py:163-173 | Every palette name is lower-case ASCII with at least three letters. |
| `ColorNormalizer.NameLookupIgnoresCase` | src/utils/custom_qr.py:176-177 | A string whose lower-case form is a palette name yields that name's triple, in any case. |
| `ColorNormalizer.NameLookupAnyAsciiCase` | src/utils/custom_qr.py:176-177 | A palette name written in any mix of ASCII capitals and lower-case letters yields that name's triple. |
| `ColorNormalizer.HashNameNeverLooksUp` | src/utils/custom_qr.py:158-177 | `#` followed by a palette name raises. The hex branch is tested before the palette. |
| `StyledQr.SelectDrawer` | src/utils/custom_qr.py:71-82 | The five named styles select their drawers. Every other string, `'cuadrado'` included, selects the square drawer. |
| `StyledQr.SelectColorMask` | src/utils/custom_qr.py:85-100 | There is no mask exactly when the style is not a gradient and is not `'imagen'` with a truthy path for which lines 94-95 succeed: the image opens and `ImageColorMask` accepts the call. Each gradient runs from `color_qr` to the gradient colour over `color_fondo`. The image mask keeps its path. |
| `StyledQr.ChooseFill` | src/utils/custom_qr.py:103-111 | A mask is passed when one was chosen. Otherwise `color_qr` and `color_fondo` are passed as `fill_color` and `back_color`. |
| `StyledQr.ResolveColors` | src/utils/custom_qr.py:49-55 | The three colours are the normalised arguments. A missing gradient colour is the normalised `color_qr`. The call raises exactly when one of the conversions raises, and `color_qr`'s error comes first. |
| `StyledQr.LogoOverlay` | src/utils/custom_qr.py:121-132 | The logo is centred and lies wholly inside the raster, with margins that differ by at most one pixel. An RGBA logo is its own paste mask. |
| `StyledQr.CreateStyledQr` | src/utils/custom_qr.py:20-146 | A colour error raises before the data is added. Otherwise the data is appended to the caller's QR object. More than version 40 raises. The result is either the styled image with the chosen drawer, fill and centred logo, or, when styled rendering fails, the plain black-on-white fallback. |
| `StyledQr.DefaultsAreRoundedBlackOnWhite` | src/utils/custom_qr.py:20-29 | With every default, the modules are rounded, no mask is chosen, and black and white are passed as `fill_color` and `back_color`. |
| `StyledQr.GradientWithoutSecondColorIsFlat` | src/utils/custom_qr.py:52-91 | Without `color_gradiente`, every gradient runs from `color_qr` to `color_qr`. |
| `StyledQr.ImageStyleNeedsOpenableMask` | src/utils/custom_qr.py:92-100 | `'imagen'` gives an image mask only with a truthy path for which lines 94-95 (`Image.open` and `ImageColorMask`) succeed. Otherwise the fill is solid. |
| `StyledQr.UnknownColorStyleIsSolid` | src/utils/custom_qr.py:99-100 | An unrecognised `color_estilo` chooses no mask, so `color_qr` and `color_fondo` are passed as `fill_color` and `back_color`. |
| `QrCodes.QrCode.constructor` | src/qr_generator.py:13-18 | A new QR object holds no data and keeps the version, error correction, box size and border it was given. |
| `QrCodes.QrCode.AddData` | src/qr_generator.py:55 | `add_data` appends to the data already held and never replaces it. |
| `QrCodes.QrCode.PixelSide` | src/qr_generator.py:57 | The raster is never smaller than a version-1 symbol with its quiet zone: `(21+2*border)*box_size` pixels. |
| `LogoProcessor.InternalSize` | src/logo_processor.py:20 | `output_size * quality_factor` is positive exactly when the two factors have the same sign. A quality factor of at least 1 never shrinks a non-negative output size. |
| `LogoProcessor.InternalBorder` | src/logo_processor.py:21 | `border_thickness * quality_factor`. With a positive quality factor it is negative, zero or positive exactly as the border is. |
| `LogoProcessor.TargetSize` | src/logo_processor.py:85 | The badge side `output_size + 2*border_thickness`. |
| `LogoProcessor.LoadLogo` | src/logo_processor.py:23-26 | A logo is loaded exactly when `logo_file` is given or `Image.open` accepts `logo_path`. Without `logo_file`, the loaded logo is the opened image. |
| `LogoProcessor.Fails` | src/logo_processor.py:18-93 | The steps that raise, caught at lines 91-93: the logo does not load; the logo has an empty side; `internal_size` is not positive; the contained logo has an empty side; the working canvas side is negative (`Image.new`, line 66); the target side is negative (`resize`, line 86); or another library refusal. A target side of 0 does not fail. |
| `LogoProcessor.FinalSize` | src/logo_processor.py:65-85 | The working canvas side is exactly `quality_factor` times the badge side. |
| `LogoProcessor.InnerBox` | src/logo_processor.py:73-79 | The inner disc's box is inset by the internal border on every side and is exactly `internal_size` across. So the paste at `(b, b)` covers it exactly. |
| `LogoProcessor.ProcessLogoForQr` | src/logo_processor.py:18-93 | The result is None exactly when some step raises. Otherwise it is an RGBA square of side `output_size + 2*border_thickness`. Also on success: the contained logo is centred inside the internal square; the four intermediate canvases are `internal_size` square; the working canvas is the badge times `quality_factor`, drawn as ring, inner disc, logo over the disc, then smoothing. |
| `LogoProcessor.LogoFileWins` | src/logo_processor.py:23-26 | When `logo_file` is given it is used, and `logo_path` is never opened. |
| `LogoProcessor.NonPositiveQualityFails` | src/logo_processor.py:20-93 | A `quality_factor` of zero always ends in None. A negative one ends in None unless `output_size + 2*border_thickness` is exactly 0: a positive target gives a negative working canvas, and a negative target is refused by `resize`. |
| `LogoProcessor.ZeroTargetSucceeds` | src/logo_processor.py:65-86 | A target side of 0 never fails on its own account, whatever the sign of the quality factor: the working canvas is then 0 wide too, and the badge is a 0×0 image. |
| `LogoProcessor.PositiveSizesSucceed` | src/logo_processor.py:20-93 | Assume a positive output size and quality factor, a loaded logo and a non-empty contained size. The sizes then make the call fail exactly when `output_size + 2*border_thickness < 0`. A negative border is accepted otherwise, and a target of 0 gives a 0×0 badge. |
| `LogoProcessor.DefaultSizes` | src/logo_processor.py:3-4 | The defaults give a 600-pixel internal square, a 616-pixel canvas and a 154-pixel badge. |
| `Generator.Digits` | src/qr_generator.py:53 | A numeric `strftime` field has exactly its width and contains only decimal digits. |
| `Generator.Stamp` | src/qr_generator.py:53 | `%Y%m%d_%H%M%S` is 15 characters, with `_` at position 8. |
| `Generator.Filename` | src/qr_generator.py:54 | The file name is 33 characters: `out/codigo_qr_`, the stamp, then `.png`. |
| `Generator.DigitsRoundTrip` | src/qr_generator.py:53 | Reading a zero-padded field back gives the number. |
| `Generator.FilenameRoundTrip` | src/qr_generator.py:52-54 | The time stamp, to the second, can be read back from the file name. |
| `Generator.SameFileIffSameSecond` | src/qr_generator.py:52-54 | Two calls get the same file name exactly when they fall in the same second. |
| `Generator.QrGenerator.constructor` | src/qr_generator.py:11-19 | After construction there is no logo. The QR object is fresh, holds no data, and has version 1, error correction H, box size 10 and border 4. The output directory is `out`. |
| `Generator.QrGenerator.SetLogoByPath` | src/qr_generator.py:24-42 | A missing path raises `LogoError` before any open. An existing path that does not open or verify raises `ArchivoInvalidoError`. Either way the logo is unchanged. Otherwise the logo becomes the opened image itself, not a processed badge. |
| `Generator.QrGenerator.GetImageQr` | src/qr_generator.py:45-68 | The data is appended to the reused QR object before fitting. Past version 40 the call raises and the logo is unchanged. Without a logo, nothing is pasted. With a logo, the logo becomes its 70×70 resize and is pasted at `((w-70)//2, (h-70)//2)`, which lies inside the raster. A logo whose mode cannot mask raises. The file is named after the stamp. |
| `Generator.TwoImages` | src/qr_generator.py:55-64 | Two calls on one generator: the second picture encodes both data strings. Both pictures carry the same 70×70 logo, which stays 70×70. |

## Left out

- Pixels are not modelled: resampling, `ImageOps.contain`'s rounding, Gaussian blur, `SMOOTH_MORE`, alpha compositing, ellipse rasterisation and the compositing done by `paste`. Images are only their size and mode, and canvases are the list of operations applied to them.
- QR encoding, error correction and `make_image` are not modelled. The version the encoder settles on is a parameter, and the styled drawers and masks are only the variant chosen.
- CreateStyledQr: the logo side `int(qr_size*0.3)` is a floating-point product. It is the parameter `logoSideFor`, which is required never to exceed its argument. It is not claimed to equal `3*qr_size/10`.
- CreateStyledQr: failures of `resize` or `paste` caught at lines 134-135 are not modelled. Such a failure would leave the picture without the logo, and the model always records the overlay.
- ProcessLogoForQr: the size `ImageOps.contain` produces is a parameter, never larger than the internal square. The library's remaining refusals are the single flag `libraryAccepts`: an unknown colour name, an unsupported mode.
- ProcessLogoForQr: a logo 0 pixels wide always fails in the model. In the source, `ImageOps.contain` can hand such a logo on unchanged when it is exactly `internal_size` tall, because `resize` returns a copy of an image that already has the requested size; that case is not modelled.
- SelectColorMask: the signature of the qrcode library's `ImageColorMask` is not modelled. Line 95 passes the keyword `mask_image`, while the library's constructor is declared with `color_mask_path` and `color_mask_image`. With such a library the call raises, line 96 catches it, and `maskOpens` is false for every path, so `'imagen'` never yields a mask.
- NonPositiveQualityFails: a negative quality factor with a target side of exactly 0 is not claimed to fail, because the source then returns a 0×0 badge (`ZeroTargetSucceeds`).
- ChooseFill: the model records the arguments lines 108-111 pass to `make_image`, not the colours the library draws. The qrcode library's `StyledPilImage` takes its colours from `color_mask`, which defaults to a black-on-white solid mask, so `fill_color` and `back_color` may have no effect on the picture.
- Colours given to the drawing calls of `process_logo_for_qr` are modelled as strings only. Tuple colours are interpreted by the imaging library and are not modelled.
- ParseBase16: `int()` also accepts non-ASCII decimal digits (Arabic-Indic, full-width and others). They are not modelled. Only ASCII hex digits, whitespace and a sign are.
- Lower: only ASCII capitals and the Kelvin sign are lower-cased. These are the only mappings that can produce a palette name. Every other mapping yields a non-ASCII character, which no name contains.
- GetImageQr: `fitVersion` stands for the encoder's fit over all the data the object holds. The library's own error when the data exceeds version 40 is shown only as the outcome `DataOverflow`.
- Generator.Stamp: `%Y` is modelled as four zero-padded digits. Some C libraries print years below 1000 with fewer digits.
- Filename joins with `/`, as `os.path.join` does on POSIX systems.
- Side effects are not modelled: creating the `out` directory, saving the PNG, the SQLite repository (src/repository.py), the console entry point (main.py) and every `print`.
- The two exception classes of src/exceptions/logo_error.py are the constructors of `LogoFailure`.
- The file name is `out/codigo_qr_<YYYYMMDD_HHMMSS>.png`, built from the time stamp alone (line 54), so two images made in the same second share one file.
- `setLogoByPath` stores the raw opened image (line 39); the badge processor of src/logo_processor.py is never applied to it.
