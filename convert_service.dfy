/**
 * The convert service of the Python PDF service: the target format picks
 * a converter (DOCX, XLSX or an image), the JSON options tune it, and
 * any failure gives a placeholder in the requested format.  For images,
 * one page is saved as it is, and several pages are either stacked on one
 * canvas or reduced to the first.  Rendering, decoding the options and
 * building DOCX/XLSX files are library calls whose results are
 * parameters.
 */
module ConvertService {
  import opened Wrappers
  import opened Strings
  import PathLib

  const ImageFormats: set<string> := {"img", "png", "jpg", "jpeg"}

  // ---------------------------------------------------------------------
  // Options

  /** The options the converters read; absent keys take their defaults. */
  datatype ConvertOptions = ConvertOptions(dpi: Option<int>, firstPage: Option<int>, lastPage: Option<int>,
                                           quality: Option<int>, combinePages: bool)

  const NoOptions: ConvertOptions := ConvertOptions(None, None, None, None, false)

  /** What `json.loads` makes of the options text: an error, a value that is not an object, or an object. */
  datatype Decoded = Malformed | NotObject | Object(opts: ConvertOptions)

  /**
   * The options in force: none when the text is missing or empty or does
   * not decode, the decoded ones when it decodes to an object, and None
   * when it decodes to something else (a list, a number, `null`), on which
   * the converters' `.get` raises.
   */
  function ParseOptions(options: Option<string>, decoded: Decoded): (r: Option<ConvertOptions>)
    ensures options.None? || options.value == "" ==> r == Some(NoOptions)
    ensures options.Some? && options.value != "" ==>
      && (r.None? <==> decoded.NotObject?)
      && (decoded.Malformed? ==> r == Some(NoOptions))
      && (decoded.Object? ==> r == Some(decoded.opts))
  {
    if options.None? || options.value == "" then Some(NoOptions)
    else match decoded
      case Malformed => Some(NoOptions)
      case NotObject => None
      case Object(opts) => Some(opts)
  }

  // ---------------------------------------------------------------------
  // _convert_to_image

  /** A rendered page, by its size in pixels. */
  datatype Page = Page(width: nat, height: nat)

  /** The widest page's width. */
  function MaxWidth(pages: seq<Page>): (w: nat)
    ensures forall i :: 0 <= i < |pages| ==> pages[i].width <= w
    ensures pages != [] ==> exists i :: 0 <= i < |pages| && pages[i].width == w
  {
    if pages == [] then 0
    else
      var w := MaxWidth(pages[..|pages| - 1]);
      var last := pages[|pages| - 1].width;
      if last > w then last else w
  }

  /** The pages' heights added up. */
  function TotalHeight(pages: seq<Page>): nat
  {
    if pages == [] then 0 else TotalHeight(pages[..|pages| - 1]) + pages[|pages| - 1].height
  }

  /** One page pasted at a vertical offset, at the left edge. */
  datatype Paste = Paste(page: Page, y: nat)

  /** Where the stacking puts each page: page `k` at the heights of the pages before it. */
  function Stacked(pages: seq<Page>): (r: seq<Paste>)
    ensures |r| == |pages|
  {
    seq(|pages|, k requires 0 <= k < |pages| => Paste(pages[k], TotalHeight(pages[..k])))
  }

  /** The combined image, white, and the pages pasted on it so far. */
  class Canvas {
    const width: nat
    const height: nat
    var pastes: seq<Paste>

    constructor(width: nat, height: nat)
      ensures this.width == width && this.height == height && pastes == []
    {
      this.width := width;
      this.height := height;
      pastes := [];
    }

    /** `combined.paste(img, (0, y))`. */
    method PasteAt(page: Page, y: nat)
      modifies this
      ensures pastes == old(pastes) + [Paste(page, y)]
    {
      pastes := pastes + [Paste(page, y)];
    }
  }

  /**
   * The combining loop: a canvas as wide as the widest page and as tall as
   * all pages together, each page pasted below the previous one; the final
   * offset is the total height.
   */
  method CombinePages(pages: seq<Page>) returns (canvas: Canvas, yOffset: nat)
    requires pages != []
    ensures canvas.width == MaxWidth(pages) && canvas.height == TotalHeight(pages)
    ensures canvas.pastes == Stacked(pages)
    ensures yOffset == TotalHeight(pages)
  {
    canvas := new Canvas(MaxWidth(pages), TotalHeight(pages));
    yOffset := 0;
    for k := 0 to |pages|
      invariant canvas.pastes == Stacked(pages[..k])
      invariant yOffset == TotalHeight(pages[..k])
    {
      canvas.PasteAt(pages[k], yOffset);
      assert pages[..k + 1][..k] == pages[..k];
      assert Stacked(pages[..k + 1]) == Stacked(pages[..k]) + [Paste(pages[k], yOffset)] by {
        forall j | 0 <= j < k ensures pages[..k + 1][..j] == pages[..k][..j] {
        }
      }
      yOffset := yOffset + pages[k].height;
    }
    assert pages[..|pages|] == pages;
  }

  /** The heights of the first pages never exceed those of more pages. */
  lemma {:induction false} TotalHeightMonotone(pages: seq<Page>, k: int)
    requires 0 <= k <= |pages|
    ensures TotalHeight(pages[..k]) <= TotalHeight(pages)
    decreases |pages|
  {
    if k < |pages| {
      assert pages[..|pages| - 1][..k] == pages[..k];
      TotalHeightMonotone(pages[..|pages| - 1], k);
    } else {
      assert pages[..k] == pages;
    }
  }

  /**
   * The stacked pages tile the canvas: each lies inside it, the first at
   * the top, and each starts exactly where the one before it ends, so no
   * two overlap and no gap is left.
   */
  lemma StackedTiles(pages: seq<Page>)
    ensures forall k :: 0 <= k < |pages| ==>
      Stacked(pages)[k].page == pages[k]
      && Stacked(pages)[k].y + pages[k].height <= TotalHeight(pages)
      && pages[k].width <= MaxWidth(pages)
    ensures pages != [] ==> Stacked(pages)[0].y == 0
    ensures forall k :: 0 < k < |pages| ==> Stacked(pages)[k].y == Stacked(pages)[k - 1].y + pages[k - 1].height
  {
    forall k | 0 <= k < |pages| ensures Stacked(pages)[k].y + pages[k].height <= TotalHeight(pages) {
      assert pages[..k + 1][..k] == pages[..k];
      TotalHeightMonotone(pages, k + 1);
    }
    forall k | 0 < k < |pages| ensures Stacked(pages)[k].y == Stacked(pages)[k - 1].y + pages[k - 1].height {
      assert pages[..k][..k - 1] == pages[..k - 1];
    }
  }

  /** The encoder an image is saved with: JPEG for `jpg`/`jpeg`, PNG for anything else. */
  function ImageEncoding(format: string): (e: string)
    ensures e == "JPEG" <==> format in {"jpg", "jpeg"}
    ensures e == "JPEG" || e == "PNG"
  {
    if format in {"jpg", "jpeg"} then "JPEG" else "PNG"
  }

  /** What the image converter saves: one page, or the stacked canvas. */
  datatype Raster = Single(page: Page) | Combined(width: nat, height: nat, pastes: seq<Paste>)

  /** An image file: its suffix (the requested format), encoder, quality and picture. */
  datatype ImageFile = ImageFile(suffix: string, encoding: string, quality: int, raster: Raster)

  /** `_convert_to_image` on the rendered pages: no page raises; otherwise the page or pages saved. */
  function ConvertToImage(pages: seq<Page>, format: string, opts: ConvertOptions): (r: Result<ImageFile, string>)
    ensures r.Err? <==> pages == []
    ensures r.Ok? ==> r.value.suffix == format && r.value.encoding == ImageEncoding(format)
    ensures r.Ok? ==> r.value.quality == opts.quality.GetOr(95)
    ensures r.Ok? && (|pages| == 1 || !opts.combinePages) ==> r.value.raster == Single(pages[0])
    ensures r.Ok? && |pages| > 1 && opts.combinePages ==>
      r.value.raster == Combined(MaxWidth(pages), TotalHeight(pages), Stacked(pages))
  {
    if pages == [] then Err("No images generated from PDF")
    else
      var raster := if |pages| == 1 || !opts.combinePages then Single(pages[0])
                    else Combined(MaxWidth(pages), TotalHeight(pages), Stacked(pages));
      Ok(ImageFile(format, ImageEncoding(format), opts.quality.GetOr(95), raster))
  }

  /** Several pages without `combine_pages` keep only the first page: the others are dropped. */
  lemma FirstPageOnly(pages: seq<Page>, format: string, opts: ConvertOptions)
    requires |pages| > 1 && !opts.combinePages
    ensures ConvertToImage(pages, format, opts) == Ok(ImageFile(format, ImageEncoding(format), opts.quality.GetOr(95), Single(pages[0])))
  {
  }

  /** `_convert_to_image`: the same decisions, with the stacking done by the canvas loop. */
  method ConvertImage(pages: seq<Page>, format: string, opts: ConvertOptions) returns (r: Result<ImageFile, string>)
    ensures r == ConvertToImage(pages, format, opts)
  {
    if pages == [] {
      return Err("No images generated from PDF");
    }
    var encoding := ImageEncoding(format);
    var quality := opts.quality.GetOr(95);
    if |pages| == 1 {
      return Ok(ImageFile(format, encoding, quality, Single(pages[0])));
    }
    if opts.combinePages {
      var canvas, yOffset := CombinePages(pages);
      r := Ok(ImageFile(format, encoding, quality, Combined(canvas.width, canvas.height, canvas.pastes)));
    } else {
      r := Ok(ImageFile(format, encoding, quality, Single(pages[0])));
    }
  }

  // ---------------------------------------------------------------------
  // convert

  /** The placeholder for a format. */
  datatype Placeholder =
    | DocxPlaceholder(sourceName: string)
    | XlsxPlaceholder(sourceName: string)
    | BlankImage(suffix: string, encoding: string, width: nat, height: nat)
    | TextPlaceholder(content: string)

  /** `_create_placeholder_result`: DOCX, XLSX, an 800 by 600 white image, or a text naming the format. */
  function PlaceholderFor(inputPath: string, format: string): (p: Placeholder)
    ensures format == "docx" <==> p.DocxPlaceholder?
    ensures format == "xlsx" <==> p.XlsxPlaceholder?
    ensures format in ImageFormats <==> p.BlankImage?
    ensures p.BlankImage? ==> p.suffix == format && (p.encoding == "PNG" <==> format in {"img", "png"})
  {
    if format == "docx" then DocxPlaceholder(PathLib.Name(inputPath))
    else if format == "xlsx" then XlsxPlaceholder(PathLib.Name(inputPath))
    else if format in ImageFormats then BlankImage(format, if format in {"img", "png"} then "PNG" else "JPEG", 800, 600)
    else TextPlaceholder("Conversion placeholder for format: " + format + "\nSource: " + PathLib.Name(inputPath))
  }

  /** The file `convert` returns. */
  datatype ConvertOutcome =
    | DocxFile(pageCount: nat)
    | XlsxFile(sourceName: string)
    | Image(file: ImageFile)
    | ConvertPlaceholder(placeholder: Placeholder)

  /**
   * `convert` as a function of the outside results: `decoded` is the JSON
   * decoder's reading of `options`, `pages` the rendered pages (None when
   * rendering raised) and `builds` whether the DOCX or XLSX file is built
   * and saved.  The DOCX and image converters read the options before
   * rendering; the XLSX one never reads them.
   */
  function ConvertResult(inputPath: string, format: string, options: Option<string>, decoded: Decoded,
                         pages: Option<seq<Page>>, builds: bool): (r: ConvertOutcome)
    ensures r.ConvertPlaceholder? ==> r.placeholder == PlaceholderFor(inputPath, format)
    ensures format !in ImageFormats + {"docx", "xlsx"} ==> r.ConvertPlaceholder?
    ensures format != "xlsx" && ParseOptions(options, decoded).None? ==> r.ConvertPlaceholder?
    ensures r.Image? ==> format in ImageFormats && pages.Some? && pages.value != []
    ensures format in ImageFormats && ParseOptions(options, decoded).Some? && pages.Some? && pages.value != [] ==> r.Image?
  {
    var opts := ParseOptions(options, decoded);
    if format == "docx" then
      if opts.Some? && pages.Some? && builds then DocxFile(|pages.value|) else ConvertPlaceholder(PlaceholderFor(inputPath, format))
    else if format == "xlsx" then
      if builds then XlsxFile(PathLib.Name(inputPath)) else ConvertPlaceholder(PlaceholderFor(inputPath, format))
    else if format in ImageFormats && opts.Some? && pages.Some? then
      var img := ConvertToImage(pages.value, format, opts.value);
      if img.Ok? then Image(img.value) else ConvertPlaceholder(PlaceholderFor(inputPath, format))
    else ConvertPlaceholder(PlaceholderFor(inputPath, format))
  }

  /**
   * Options that decode to something other than an object: the DOCX and
   * image conversions fall back to the placeholder, and the XLSX one goes
   * ahead as if no options had been sent.
   */
  lemma NonObjectOptions(inputPath: string, format: string, text: string, pages: Option<seq<Page>>, builds: bool)
    requires text != ""
    ensures format != "xlsx" ==>
      ConvertResult(inputPath, format, Some(text), NotObject, pages, builds) == ConvertPlaceholder(PlaceholderFor(inputPath, format))
    ensures format == "xlsx" ==>
      ConvertResult(inputPath, format, Some(text), NotObject, pages, builds) == ConvertResult(inputPath, format, None, Malformed, pages, builds)
  {
  }

  /** `convert`: decodes the options, dispatches on the format and answers every failure with the placeholder. */
  method Convert(inputPath: string, format: string, options: Option<string>, decoded: Decoded,
                 pages: Option<seq<Page>>, builds: bool) returns (r: ConvertOutcome)
    ensures r == ConvertResult(inputPath, format, options, decoded, pages, builds)
  {
    var opts := ParseOptions(options, decoded);
    if format == "docx" {
      r := if opts.Some? && pages.Some? && builds then DocxFile(|pages.value|) else ConvertPlaceholder(PlaceholderFor(inputPath, format));
    } else if format == "xlsx" {
      r := if builds then XlsxFile(PathLib.Name(inputPath)) else ConvertPlaceholder(PlaceholderFor(inputPath, format));
    } else if format in ImageFormats && opts.Some? && pages.Some? {
      var img := ConvertImage(pages.value, format, opts.value);
      r := if img.Ok? then Image(img.value) else ConvertPlaceholder(PlaceholderFor(inputPath, format));
    } else {
      r := ConvertPlaceholder(PlaceholderFor(inputPath, format));
    }
  }
}
