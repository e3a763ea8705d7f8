/**
 * The `QrGenerator` class of src/qr_generator.py: one `qrcode.QRCode`
 * object, reused for every image, and an optional logo that
 * `setLogoByPath` loads and `getImageQr` shrinks and pastes in the centre.
 * The clock and the file system are parameters; saving the file is
 * represented by the outcome that names it.
 */
module Generator {

  import opened Wrappers
  import opened Images
  import opened QrCodes

  // ---------------------------------------------------------------------
  // Time stamps and file names
  // ---------------------------------------------------------------------

  /** A `datetime` value as `datetime.now()` returns it. */
  datatype DateTime = DateTime(year: int, month: int, day: int, hour: int, minute: int, second: int, microsecond: int)

  predicate IsLeapYear(y: int)
  {
    y % 4 == 0 && (y % 100 != 0 || y % 400 == 0)
  }

  function DaysInMonth(y: int, m: int): int
    requires 1 <= m <= 12
  {
    if m == 2 then (if IsLeapYear(y) then 29 else 28)
    else if m == 4 || m == 6 || m == 9 || m == 11 then 30
    else 31
  }

  /** The ranges `datetime` enforces on its fields. */
  predicate ValidDateTime(t: DateTime)
  {
    && 1 <= t.year <= 9999
    && 1 <= t.month <= 12
    && 1 <= t.day <= DaysInMonth(t.year, t.month)
    && 0 <= t.hour < 24
    && 0 <= t.minute < 60
    && 0 <= t.second < 60
    && 0 <= t.microsecond < 1000000
  }

  /** `t` with the part `strftime("%Y%m%d_%H%M%S")` does not show cleared. */
  function ToSecond(t: DateTime): DateTime
  {
    t.(microsecond := 0)
  }

  function Pow10(w: nat): (p: nat)
    ensures p >= 1
  {
    if w == 0 then 1 else 10 * Pow10(w - 1)
  }

  predicate IsDecimal(c: char)
  {
    '0' <= c <= '9'
  }

  predicate AllDecimal(s: string)
  {
    forall i | 0 <= i < |s| :: IsDecimal(s[i])
  }

  function DigitChar(d: int): (c: char)
    requires 0 <= d < 10
    ensures IsDecimal(c) && c as int - '0' as int == d
  {
    ('0' as int + d) as char
  }

  /** A `strftime` numeric field: the low `w` decimal digits of `n`, zero-padded to exactly `w` characters. */
  function Digits(n: nat, w: nat): (s: string)
    ensures |s| == w && AllDecimal(s)
  {
    if w == 0 then "" else Digits(n / 10, w - 1) + [DigitChar(n % 10)]
  }

  /** The number a string of decimal digits denotes; the reading side of `Digits`. */
  function DecimalValue(s: string): (v: nat)
    requires AllDecimal(s)
    ensures v < Pow10(|s|)
  {
    if s == [] then 0
    else
      10 * DecimalValue(s[..|s| - 1]) + (s[|s| - 1] as int - '0' as int)
  }

  /** Line 53: `strftime("%Y%m%d_%H%M%S")`. */
  function Stamp(t: DateTime): (s: string)
    requires ValidDateTime(t)
    ensures |s| == 15 && s[8] == '_'
  {
    Digits(t.year, 4) + Digits(t.month, 2) + Digits(t.day, 2) + "_"
      + Digits(t.hour, 2) + Digits(t.minute, 2) + Digits(t.second, 2)
  }

  const OutputDir := "out"
  const FilePrefix := "codigo_qr_"
  const FileSuffix := ".png"

  /** Line 54: `os.path.join("out", f"codigo_qr_{timestamp}.png")` with the POSIX separator. */
  function Filename(t: DateTime): (f: string)
    requires ValidDateTime(t)
    ensures |f| == 33
    ensures f[..14] == OutputDir + "/" + FilePrefix && f[29..] == FileSuffix
  {
    OutputDir + "/" + FilePrefix + Stamp(t) + FileSuffix
  }

  /** The number in the `w` characters from `start`, when they are all digits. */
  function Field(name: string, start: nat, w: nat): Option<nat>
    requires start + w <= |name|
  {
    if AllDecimal(name[start..start + w]) then Some(DecimalValue(name[start..start + w])) else None
  }

  /** Reads the time stamp back out of a generated file name, to the second. */
  function ParseFilename(name: string): Option<DateTime>
  {
    if |name| != 33 || name[..14] != OutputDir + "/" + FilePrefix || name[22] != '_' || name[29..] != FileSuffix then None
    else
      match (Field(name, 14, 4), Field(name, 18, 2), Field(name, 20, 2), Field(name, 23, 2), Field(name, 25, 2), Field(name, 27, 2))
      case (Some(y), Some(mo), Some(d), Some(h), Some(mi), Some(s)) => Some(DateTime(y, mo, d, h, mi, s, 0))
      case _ => None
  }

  // ---------------------------------------------------------------------
  // The file system, the logo errors and the saved picture
  // ---------------------------------------------------------------------

  /**
   * What the class asks of the disk: the paths `os.path.exists` accepts, and
   * the paths that `Image.open` opens and `verify` passes, with the image the
   * second `Image.open` yields.
   */
  datatype Disk = Disk(paths: set<string>, images: map<string, Image>)

  /** The two exception classes of src/exceptions/logo_error.py, with their messages. */
  datatype LogoFailure = LogoError(message: string) | ArchivoInvalidoError(message: string)

  function MissingMessage(path: string): string
  {
    "El archivo '" + path + "' no existe o la ruta es incorrecta"
  }

  function InvalidMessage(path: string): string
  {
    "El archivo '" + path + "' no es una imagen válida."
  }

  /** The logo pasted on the raster, with its top-left corner. */
  datatype Placement = Placement(x: int, y: int, logo: Image)

  /**
   * The raster `make_image(fill_color="blue", back_color="white").convert("RGB")`
   * draws, with the data chunks it encodes and the logo pasted on it.
   */
  datatype Raster = Raster(image: Image, fillColor: string, backColor: string, encoded: seq<string>, pasted: Option<Placement>)

  /**
   * How `getImageQr` ends: the picture saved under a file name, the library
   * raising because the accumulated data needs more than version 40, or
   * `paste` raising "bad transparency mask" for a logo whose mode cannot mask.
   */
  datatype SaveOutcome = Saved(filename: string, picture: Raster) | DataOverflow | BadTransparencyMask

  const LogoSize := 70

  class QrGenerator {
    var logo: Option<Image>
    const qr: QrCode
    const outputDir: string

    /** The configuration lines 13-18 give the QR object; it never changes. */
    ghost predicate Valid()
    {
      qr.startVersion == 1 && qr.errorCorrection == High && qr.boxSize == 10 && qr.border == 4
    }

    /** `__init__`: no logo, a fresh QR object with no data. Creating the output directory is left to the file system. */
    constructor ()
      ensures Valid()
      ensures logo == None && fresh(qr) && qr.chunks == [] && outputDir == OutputDir
    {
      logo := None;
      qr := new QrCode(1, High, 10, 4);
      outputDir := OutputDir;
    }

    /**
     * `setLogoByPath`: a missing path raises `LogoError` before anything is
     * opened; an existing path that does not open or verify raises
     * `ArchivoInvalidoError`; either way `logo` keeps its value. Otherwise
     * `logo` becomes the opened image itself.
     */
    method SetLogoByPath(path: string, disk: Disk) returns (err: Option<LogoFailure>)
      modifies this`logo
      ensures path !in disk.paths ==> err == Some(LogoError(MissingMessage(path))) && logo == old(logo)
      ensures path in disk.paths && path !in disk.images ==>
        err == Some(ArchivoInvalidoError(InvalidMessage(path))) && logo == old(logo)
      ensures path in disk.paths && path in disk.images ==> err == None && logo == Some(disk.images[path])
    {
      if path !in disk.paths {
        return Some(LogoError(MissingMessage(path)));
      }
      if path !in disk.images {
        return Some(ArchivoInvalidoError(InvalidMessage(path)));
      }
      logo := Some(disk.images[path]);
      err := None;
    }

    /**
     * `getImageQr`. `now` is the clock; `fitVersion(chunks)` is the version
     * `make(fit=True)` settles on for all the data the QR object holds. The
     * data is added before fitting, so it stays in the object even when the
     * call then raises. When a logo is set it is replaced by its 70x70 resize
     * before the paste, so the resize survives a failing paste too.
     */
    method GetImageQr(data: string, now: DateTime, fitVersion: seq<string> -> int) returns (out: SaveOutcome)
      requires Valid() && ValidDateTime(now)
      requires forall chunks :: fitVersion(chunks) >= 1
      modifies this`logo, qr
      ensures qr.chunks == old(qr.chunks) + [data]
      ensures fitVersion(qr.chunks) > MaxVersion ==> out == DataOverflow && logo == old(logo)
      ensures fitVersion(qr.chunks) <= MaxVersion ==>
        var side := qr.PixelSide(fitVersion(qr.chunks));
        var plain := Raster(Image(side, side, RGB), "blue", "white", qr.chunks, None);
        var at := CenterOffset(side, LogoSize);
        && (old(logo).None? ==> logo == None && out == Saved(Filename(now), plain))
        && (old(logo).Some? ==> logo == Some(Image(LogoSize, LogoSize, old(logo).value.mode)))
        && (old(logo).Some? && !IsTransparencyMask(old(logo).value.mode) ==> out == BadTransparencyMask)
        && (old(logo).Some? && IsTransparencyMask(old(logo).value.mode) ==>
              out == Saved(Filename(now), plain.(pasted := Some(Placement(at, at, logo.value)))))
        // the pasted logo lies wholly inside the raster
        && 0 <= at && at + LogoSize <= side
    {
      var filename := Filename(now);
      qr.AddData(data);
      var version := fitVersion(qr.chunks);
      if version > MaxVersion {
        return DataOverflow;
      }
      var side := qr.PixelSide(version);
      var img := Raster(Image(side, side, RGB), "blue", "white", qr.chunks, None);
      if logo.Some? {
        logo := Some(Image(LogoSize, LogoSize, logo.value.mode));
        var at := CenterOffset(side, LogoSize);
        if !IsTransparencyMask(logo.value.mode) {
          return BadTransparencyMask;
        }
        img := img.(pasted := Some(Placement(at, at, logo.value)));
      }
      out := Saved(filename, img);
    }
  }

  // ---------------------------------------------------------------------
  // Properties
  // ---------------------------------------------------------------------

  lemma {:induction false} DigitsRoundTrip(n: nat, w: nat)
    requires n < Pow10(w)
    ensures DecimalValue(Digits(n, w)) == n
  {
    if w > 0 {
      DigitsRoundTrip(n / 10, w - 1);
      var s := Digits(n, w);
      assert s[..|s| - 1] == Digits(n / 10, w - 1);
    }
  }

  lemma StampFields(t: DateTime)
    requires ValidDateTime(t)
    ensures var f := Filename(t);
      && f[14..18] == Digits(t.year, 4) && f[18..20] == Digits(t.month, 2) && f[20..22] == Digits(t.day, 2)
      && f[23..25] == Digits(t.hour, 2) && f[25..27] == Digits(t.minute, 2) && f[27..29] == Digits(t.second, 2)
  {
    var f := Filename(t);
    var ys, ms, ds := Digits(t.year, 4), Digits(t.month, 2), Digits(t.day, 2);
    var hs, mis, ss := Digits(t.hour, 2), Digits(t.minute, 2), Digits(t.second, 2);
    assert f == "out/codigo_qr_" + ys + ms + ds + "_" + hs + mis + ss + ".png";
  }

  /** The file name determines the time stamp it was made from, to the second. */
  lemma FilenameRoundTrip(t: DateTime)
    requires ValidDateTime(t)
    ensures ParseFilename(Filename(t)) == Some(ToSecond(t))
  {
    StampFields(t);
    DigitsRoundTrip(t.year, 4);
    DigitsRoundTrip(t.month, 2);
    DigitsRoundTrip(t.day, 2);
    DigitsRoundTrip(t.hour, 2);
    DigitsRoundTrip(t.minute, 2);
    DigitsRoundTrip(t.second, 2);
  }

  /**
   * Two calls share a file name exactly when they fall in the same second,
   * so a second image made within the same second overwrites the first.
   */
  lemma SameFileIffSameSecond(t1: DateTime, t2: DateTime)
    requires ValidDateTime(t1) && ValidDateTime(t2)
    ensures Filename(t1) == Filename(t2) <==> ToSecond(t1) == ToSecond(t2)
  {
    FilenameRoundTrip(t1);
    FilenameRoundTrip(t2);
    if ToSecond(t1) == ToSecond(t2) {
      assert t1.year == t2.year && t1.month == t2.month && t1.day == t2.day;
      assert t1.hour == t2.hour && t1.minute == t2.minute && t1.second == t2.second;
    }
  }

  /**
   * A caller that makes two images with one generator: after a logo loads, both calls
   * share one QR object, so the second picture encodes both data strings,
   * and the logo stays 70x70.
   */
  method TwoImages(path: string, disk: Disk, d1: string, d2: string, t1: DateTime, t2: DateTime,
                   fitVersion: seq<string> -> int)
    returns (first: SaveOutcome, second: SaveOutcome, logo: Option<Image>)
    requires ValidDateTime(t1) && ValidDateTime(t2)
    requires forall chunks :: 1 <= fitVersion(chunks) <= MaxVersion
    requires path in disk.paths && path in disk.images && disk.images[path].mode == RGBA
    ensures first.Saved? && first.picture.encoded == [d1] && first.filename == Filename(t1)
    ensures second.Saved? && second.picture.encoded == [d1, d2] && second.filename == Filename(t2)
    ensures logo == Some(Image(LogoSize, LogoSize, RGBA))
    ensures first.picture.pasted.Some? && second.picture.pasted.Some?
    ensures first.picture.pasted.value.logo == second.picture.pasted.value.logo == logo.value
  {
    var g := new QrGenerator();
    var err := g.SetLogoByPath(path, disk);
    first := g.GetImageQr(d1, t1, fitVersion);
    second := g.GetImageQr(d2, t2, fitVersion);
    logo := g.logo;
  }
}
