/**
 * The compress service of the Python PDF service: the mode picks a set of
 * settings, the quality level scales the JPEG quality, which is clamped;
 * the metadata is cleared when the settings ask for it and the document is
 * saved with compression.  Any failure gives back an unchanged copy of the
 * input.  Opening and saving are library calls whose success is a
 * parameter.
 */
module CompressService {
  import opened Wrappers
  import opened Bytes
  import PikePdf

  /** One mode's settings. */
  datatype Settings = Settings(jpegQuality: nat, imageCompression: bool, removeMetadata: bool, optimizeImages: bool)

  const CompressionSettings: map<string, Settings> := map[
    "whatsapp" := Settings(60, true, true, true),
    "print" := Settings(85, false, false, false),
    "balanced" := Settings(75, true, true, true)]

  /** `compression_settings.get(mode, compression_settings["balanced"])`. */
  function ModeSettings(mode: string): Settings
  {
    if mode in CompressionSettings then CompressionSettings[mode] else CompressionSettings["balanced"]
  }

  /** Any mode other than the three keys, the French `impression` and `équilibré` among them, is compressed as `balanced`. */
  lemma UnknownModeIsBalanced(mode: string)
    requires mode !in {"whatsapp", "print", "balanced"}
    ensures ModeSettings(mode) == ModeSettings("balanced")
  {
  }

  /** The quality multiplier in tenths: low 0.7, medium 1.0, high 1.3, anything else 1.0. */
  function MultiplierTenths(quality: string): nat
  {
    if quality == "low" then 7 else if quality == "high" then 13 else 10
  }

  /** `max(10, min(100, q))`. */
  function Clamp(q: int): (r: int)
    ensures 10 <= r <= 100
    ensures 10 <= q <= 100 ==> r == q
    ensures q < 10 ==> r == 10
    ensures q > 100 ==> r == 100
  {
    if q < 10 then 10 else if q > 100 then 100 else q
  }

  /** The JPEG quality: the mode's quality scaled by the multiplier, truncated, then clamped. */
  function JpegQuality(mode: string, quality: string): int
  {
    Clamp(ModeSettings(mode).jpegQuality * MultiplierTenths(quality) / 10)
  }

  /**
   * The nine combinations of the known modes and qualities; only `print`
   * at `high` (110) is cut down by the clamp, and an unknown quality
   * leaves the mode's own quality unchanged.
   */
  lemma JpegQualityTable(mode: string, quality: string)
    ensures JpegQuality("whatsapp", "low") == 42 && JpegQuality("whatsapp", "medium") == 60 && JpegQuality("whatsapp", "high") == 78
    ensures JpegQuality("print", "low") == 59 && JpegQuality("print", "medium") == 85 && JpegQuality("print", "high") == 100
    ensures JpegQuality("balanced", "low") == 52 && JpegQuality("balanced", "medium") == 75 && JpegQuality("balanced", "high") == 97
    ensures quality !in {"low", "high"} ==> JpegQuality(mode, quality) == ModeSettings(mode).jpegQuality
    ensures 10 <= JpegQuality(mode, quality) <= 100
  {
  }

  /** How `pdf.save` is asked to write the file. */
  datatype SaveOptions = SaveOptions(
    compressStreams: bool, generalizedDecode: bool, generateObjectStreams: bool, normalizeContent: bool, linearize: bool)

  /** The file `compress` returns: the saved document, or a byte-for-byte copy of the input. */
  datatype CompressOutcome =
    | Compressed(metadata: map<string, string>, options: SaveOptions)
    | CompressCopy(content: Bytes)

  /** The save options for a mode: streams are decoded for recompression exactly when the mode compresses images. */
  function SaveFor(settings: Settings): SaveOptions
  {
    SaveOptions(true, settings.imageCompression, true, true, true)
  }

  /**
   * `compress` as a function of the outside results: `input` is the
   * file's bytes, `canOpen` whether the library opens it, `metadata` and
   * `locked` the opened document's metadata and whether it can be edited,
   * `saves` whether the output is created and saved.
   */
  function CompressResult(input: Bytes, mode: string, quality: string, canOpen: bool,
                          metadata: map<string, string>, locked: bool, saves: bool): (r: CompressOutcome)
    ensures r.CompressCopy? <==> !canOpen || !saves
    ensures r.CompressCopy? ==> r.content == input
    ensures r.Compressed? ==> r.options.generalizedDecode == ModeSettings(mode).imageCompression
    ensures r.Compressed? ==>
      r.metadata == if ModeSettings(mode).removeMetadata && !locked then map[] else metadata
  {
    var settings := ModeSettings(mode);
    if !canOpen || !saves then CompressCopy(input)
    else Compressed(if settings.removeMetadata && !locked then map[] else metadata, SaveFor(settings))
  }

  /** `_remove_metadata`: clears the metadata; a failure to open it is swallowed. */
  method RemoveMetadata(pdf: PikePdf.Document)
    modifies pdf
    ensures pdf.metadata == if pdf.metadataLocked then old(pdf.metadata) else map[]
  {
    var raised := pdf.EditMetadata(m => map[]);
  }

  /**
   * `compress`.  `pdf` is the opened document (null when opening raised).
   * The image optimisation step is gated by the settings, but its loop
   * body does nothing, so it changes nothing here.
   */
  method Compress(input: Bytes, pdf: PikePdf.Document?, mode: string, quality: string, saves: bool) returns (r: CompressOutcome)
    modifies pdf
    ensures pdf != null ==> r == CompressResult(input, mode, quality, true, old(pdf.metadata), pdf.metadataLocked, saves)
    ensures pdf == null ==> r == CompressCopy(input)
  {
    var settings := ModeSettings(mode);
    var jpegQuality := JpegQuality(mode, quality);
    if pdf == null {
      return CompressCopy(input);
    }
    if settings.removeMetadata {
      RemoveMetadata(pdf);
    }
    if !saves {
      return CompressCopy(input);
    }
    r := Compressed(pdf.metadata, SaveFor(settings));
  }

  /** The quality level changes the computed JPEG quality but never the file produced. */
  lemma QualityDoesNotMatter(input: Bytes, mode: string, q1: string, q2: string, canOpen: bool,
                             metadata: map<string, string>, locked: bool, saves: bool)
    ensures CompressResult(input, mode, q1, canOpen, metadata, locked, saves)
         == CompressResult(input, mode, q2, canOpen, metadata, locked, saves)
  {
  }

  /** `print` keeps the metadata and does not recompress images; the other modes strip editable metadata. */
  lemma PrintKeepsMetadata(input: Bytes, mode: string, quality: string, metadata: map<string, string>)
    ensures CompressResult(input, "print", quality, true, metadata, false, true) == Compressed(metadata, SaveOptions(true, false, true, true, true))
    ensures mode != "print" ==> CompressResult(input, mode, quality, true, metadata, false, true).metadata == map[]
  {
  }
}
