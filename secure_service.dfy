/**
 * The secure service of the Python PDF service: a password, a watermark
 * or both are applied to a PDF; any invalid request or failure gives back
 * an unchanged copy of the input instead.  Opening and saving the PDF are
 * library calls whose success is a parameter.
 */
module SecureService {
  import opened Wrappers
  import opened Bytes
  import PikePdf

  const Actions: set<string> := {"password", "watermark", "both"}

  predicate WantsPassword(action: string)
  {
    action == "password" || action == "both"
  }

  predicate WantsWatermark(action: string)
  {
    action == "watermark" || action == "both"
  }

  /** Python truthiness of an optional string: present and not empty. */
  predicate PyTruthy(s: Option<string>)
  {
    s.Some? && s.value != ""
  }

  /** `secure`'s checks before the PDF is opened: the message of the first one that fails. */
  function ValidationError(action: string, password: Option<string>, watermarkText: Option<string>): Option<string>
  {
    if action !in Actions then Some("Invalid action: " + action)
    else if WantsPassword(action) && !PyTruthy(password) then Some("Password required for password protection")
    else if WantsWatermark(action) && !PyTruthy(watermarkText) then Some("Watermark text required for watermark")
    else None
  }

  /**
   * The validation matrix: a request passes exactly when its action is one
   * of the three, it carries a non-empty password when the action encrypts
   * and a non-empty watermark text when it watermarks; an unknown action is
   * refused whatever else is given.
   */
  lemma ValidationMatrix(action: string, password: Option<string>, watermarkText: Option<string>)
    ensures ValidationError(action, password, watermarkText).None? <==>
      (action == "password" && PyTruthy(password))
      || (action == "watermark" && PyTruthy(watermarkText))
      || (action == "both" && PyTruthy(password) && PyTruthy(watermarkText))
    ensures action !in Actions ==> ValidationError(action, password, watermarkText).Some?
  {
  }

  // ---------------------------------------------------------------------
  // _apply_watermark

  /** Where a watermark goes: the position as percentages of the page size, and its rotation in degrees. */
  datatype Placement = Placement(xPercent: nat, yPercent: nat, rotation: nat)

  const WatermarkPositions: map<string, Placement> := map[
    "center" := Placement(50, 50, 45),
    "corner" := Placement(10, 90, 0),
    "diagonal" := Placement(20, 80, 45),
    "bottom" := Placement(50, 10, 0)]

  /** `watermark_positions.get(position, watermark_positions["center"])`. */
  function PositionSettings(position: string): Placement
  {
    if position in WatermarkPositions then WatermarkPositions[position] else WatermarkPositions["center"]
  }

  /** An unknown position is placed like `center`; the four known ones keep their own settings. */
  lemma PositionFallback(position: string)
    ensures position !in WatermarkPositions ==> PositionSettings(position) == Placement(50, 50, 45)
    ensures position in WatermarkPositions ==> PositionSettings(position) == WatermarkPositions[position]
    ensures PositionSettings(position).xPercent <= 100 && PositionSettings(position).yPercent <= 100
  {
  }

  const DescriptionKey: string := "dc:description"
  const CreatorToolKey: string := "xmp:CreatorTool"
  const WatermarkTool: string := "PDF Processing Service - Watermark Applied"

  /** The metadata after the watermark is recorded: the description names the text, the creator tool the service. */
  function Watermarked(metadata: map<string, string>, text: string): map<string, string>
  {
    metadata[DescriptionKey := "Watermarked: " + text][CreatorToolKey := WatermarkTool]
  }

  /** Recording a watermark sets exactly the two keys; every other entry is kept, and doing it twice is doing it once. */
  lemma WatermarkedKeys(metadata: map<string, string>, text: string)
    ensures Watermarked(metadata, text)[DescriptionKey] == "Watermarked: " + text
    ensures Watermarked(metadata, text)[CreatorToolKey] == WatermarkTool
    ensures Watermarked(metadata, text).Keys == metadata.Keys + {DescriptionKey, CreatorToolKey}
    ensures forall k :: k in metadata && k != DescriptionKey && k != CreatorToolKey ==> Watermarked(metadata, text)[k] == metadata[k]
    ensures Watermarked(Watermarked(metadata, text), text) == Watermarked(metadata, text)
  {
  }

  /**
   * `_apply_watermark`: looks the position up (the settings are not used
   * further) and records the watermark in the document's metadata; when the
   * metadata cannot be opened the failure is swallowed and the document
   * stays as it was.
   */
  method ApplyWatermark(pdf: PikePdf.Document, text: string, position: string) returns (settings: Placement)
    modifies pdf
    ensures settings == PositionSettings(position)
    ensures pdf.metadata == if pdf.metadataLocked then old(pdf.metadata) else Watermarked(old(pdf.metadata), text)
  {
    settings := PositionSettings(position);
    var raised := pdf.EditMetadata(m => Watermarked(m, text));
  }

  // ---------------------------------------------------------------------
  // secure

  /** The permissions granted by the encrypted file. */
  datatype Permissions = Permissions(
    accessibility: bool, extract: bool, modifyAnnotation: bool, modifyAssembly: bool,
    modifyForm: bool, modifyOther: bool, printLowRes: bool, printHighRes: bool)

  /** Screen readers and low-resolution printing only. */
  const Restricted: Permissions := Permissions(true, false, false, false, false, false, true, false)

  /** The encryption `pdf.save` is asked for. */
  datatype Encryption = Encryption(owner: string, user: string, revision: nat, allow: Permissions)

  /** The file `secure` returns: the saved document, or a byte-for-byte copy of the input. */
  datatype SecureOutcome =
    | Secured(metadata: map<string, string>, encryption: Option<Encryption>)
    | SecureCopy(content: Bytes)

  /**
   * `secure` as a function of the outside results: `input` is the file's
   * bytes, `canOpen` whether the library opens it, `metadata` and `locked`
   * the opened document's metadata and whether it can be edited, and
   * `saves` whether the output file is created and saved.
   */
  function SecureResult(input: Bytes, action: string, password: Option<string>, watermarkText: Option<string>,
                        canOpen: bool, metadata: map<string, string>, locked: bool, saves: bool): (r: SecureOutcome)
    ensures r.SecureCopy? ==> r.content == input
    ensures r.Secured? <==> ValidationError(action, password, watermarkText).None? && canOpen && saves
    ensures r.Secured? ==> (r.encryption.Some? <==> WantsPassword(action))
    ensures r.Secured? && r.encryption.Some? ==>
      r.encryption.value == Encryption(password.value, password.value, 4, Restricted) && password.value != ""
    ensures r.Secured? ==> r.metadata == if WantsWatermark(action) && !locked then Watermarked(metadata, watermarkText.value) else metadata
  {
    if ValidationError(action, password, watermarkText).Some? || !canOpen || !saves then SecureCopy(input)
    else
      var meta := if WantsWatermark(action) && !locked then Watermarked(metadata, watermarkText.value) else metadata;
      Secured(meta, if WantsPassword(action) then Some(Encryption(password.value, password.value, 4, Restricted)) else None)
  }

  /**
   * `secure`.  `pdf` is the opened document (null when opening raised).
   * Every failure is caught and answered with a copy of the input.
   */
  method Secure(input: Bytes, pdf: PikePdf.Document?, action: string, password: Option<string>,
                watermarkText: Option<string>, position: string, saves: bool) returns (r: SecureOutcome)
    modifies pdf
    ensures pdf != null ==> r == SecureResult(input, action, password, watermarkText, true, old(pdf.metadata), pdf.metadataLocked, saves)
    ensures pdf == null ==> r == SecureCopy(input)
  {
    if ValidationError(action, password, watermarkText).Some? || pdf == null {
      return SecureCopy(input);
    }
    if WantsWatermark(action) {
      var _ := ApplyWatermark(pdf, watermarkText.value, position);
    }
    if !saves {
      return SecureCopy(input);
    }
    var encryption := if WantsPassword(action) then Some(Encryption(password.value, password.value, 4, Restricted)) else None;
    r := Secured(pdf.metadata, encryption);
  }

  /** Encryption and watermark are independent: `both` does what `password` and `watermark` each do. */
  lemma BothIsPasswordAndWatermark(input: Bytes, password: string, text: string, metadata: map<string, string>, locked: bool)
    requires password != "" && text != ""
    ensures var both := SecureResult(input, "both", Some(password), Some(text), true, metadata, locked, true);
      var p := SecureResult(input, "password", Some(password), Some(text), true, metadata, locked, true);
      var w := SecureResult(input, "watermark", Some(password), Some(text), true, metadata, locked, true);
      both.Secured? && p.Secured? && w.Secured?
      && both.encryption == p.encryption && both.metadata == w.metadata
      && p.metadata == metadata && w.encryption.None?
  {
  }
}
