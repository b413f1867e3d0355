/**
 * The four hooks by which the six job classes specialise the shared job
 * engine: the microservice call, the placeholder text, the placeholder
 * extension and the chat caption.  Every hook is an expression over the
 * task job's parameter map (with PHP `??` defaults), the document's
 * original name and, for the caption, the TaskJob's recorded duration.
 */
module JobHooks {
  import opened Wrappers
  import opened Strings
  import opened PdfOps
  import CommandParser

  type Params = CommandParser.Params

  /** `$parameters[key] ?? default`. */
  function Param(params: Params, key: string, default: string): string
  {
    if key in params then params[key] else default
  }

  /** `$parameters[key] ?? null`. */
  function OptParam(params: Params, key: string): Option<string>
  {
    if key in params then Some(params[key]) else None
  }

  // ---------------------------------------------------------------------
  // Microservice call

  /** The client operation a job invokes, with the arguments it passes. */
  datatype RemoteCall =
    | CompressCall(s3Path: string, options: Params)
    | ConvertCall(s3Path: string, format: string, options: Params)
    | OcrCall(s3Path: string, options: Params)
    | SummarizeCall(s3Path: string, options: Params)
    | TranslateCall(s3Path: string, targetLanguage: string)
    | SecureCall(s3Path: string, securityType: string, password: Option<string>, watermarkText: Option<string>)

  /** The operation a call belongs to. */
  function CallOp(c: RemoteCall): OpType
  {
    match c
    case CompressCall(_, _) => Compress
    case ConvertCall(_, _, _) => Convert
    case OcrCall(_, _) => Ocr
    case SummarizeCall(_, _) => Summarize
    case TranslateCall(_, _) => Translate
    case SecureCall(_, _, _, _) => Secure
  }

  /**
   * `callMicroservice` as the summarize job writes it: it reads
   * `parameters.length`, a key the command parser never writes.
   */
  function RemoteCallAsWritten(op: OpType, params: Params, s3Path: string): (c: RemoteCall)
    ensures CallOp(c) == op && c.s3Path == s3Path
  {
    if op == Summarize then
      SummarizeCall(s3Path, map["length" := Param(params, "length", "medium"), "language" := Param(params, "language", "en")])
    else RemoteCallFor(op, params, s3Path)
  }

  /**
   * `callMicroservice` of each job class, with the summarize job reading
   * the `size` the parser stores.  Convert's `options` parameter is always
   * the empty array here: parameter values are strings in this model.
   */
  function RemoteCallFor(op: OpType, params: Params, s3Path: string): (c: RemoteCall)
    ensures CallOp(c) == op && c.s3Path == s3Path
  {
    match op
    case Compress =>
      CompressCall(s3Path, map["mode" := Param(params, "mode", "whatsapp"), "quality" := Param(params, "quality", "medium")])
    case Convert => ConvertCall(s3Path, Param(params, "format", "docx"), map[])
    case Ocr =>
      OcrCall(s3Path, map["language" := Param(params, "language", "eng"), "output_format" := Param(params, "output_format", "txt")])
    case Summarize =>
      SummarizeCall(s3Path, map["length" := Param(params, "size", "medium"), "language" := Param(params, "language", "en")])
    case Translate => TranslateCall(s3Path, Param(params, "target_language", "en"))
    case Secure =>
      SecureCall(s3Path, Param(params, "security_type", "password"), OptParam(params, "password"), OptParam(params, "watermark_text"))
  }

  // ---------------------------------------------------------------------
  // What the placeholder and the caption show

  const LanguageCodes: set<string> := {"fr", "en", "es", "de", "it", "pt"}

  /** The translate job's language-name table; other codes are shown as they are. */
  function LanguageName(code: string): (name: string)
    ensures name == code <==> code !in LanguageCodes
  {
    if code == "fr" then "Français"
    else if code == "en" then "English"
    else if code == "es" then "Español"
    else if code == "de" then "Deutsch"
    else if code == "it" then "Italiano"
    else if code == "pt" then "Português"
    else code
  }

  /** The operation's setting, as the placeholder and the caption both display it. */
  function Shown(op: OpType, params: Params): string
  {
    match op
    case Compress => Param(params, "mode", "whatsapp")
    case Convert => Param(params, "format", "docx")
    case Ocr => Param(params, "output_format", "text")
    case Summarize => Param(params, "size", "short")
    case Translate => LanguageName(Param(params, "target_language", "en"))
    case Secure => Param(params, "security_type", "password")
  }

  // ---------------------------------------------------------------------
  // Placeholder text

  /**
   * The placeholder is six pieces in a row: a title, the original-name
   * line, the setting line, fixed text, an operation-specific middle and
   * closing text.
   */
  lemma ChainContains(t: string, o: string, st: string, p: string, m: string, q: string)
    ensures Contains(t + o + st + p + m + q, o)
    ensures Contains(t + o + st + p + m + q, st)
    ensures Contains(t + o + st + p + m + q, m)
  {
    var s := t + o + st + p + m + q;
    assert s[|t|..|t| + |o|] == o;
    assert OccursAt(s, o, |t|);
    assert s[|t| + |o|..|t| + |o| + |st|] == st;
    assert OccursAt(s, st, |t| + |o|);
    assert s[|t| + |o| + |st| + |p|..|t| + |o| + |st| + |p| + |m|] == m;
    assert OccursAt(s, m, |t| + |o| + |st| + |p|);
  }

  function PlaceholderTitle(op: OpType): string
  {
    match op
    case Compress => "📄 PDF Compression Result (Placeholder)\n\n"
    case Convert => "🔄 PDF Conversion Result (Placeholder)\n\n"
    case Ocr => "👁️ PDF OCR Result (Placeholder)\n\n"
    case Summarize => "📝 PDF Summary Result (Placeholder)\n\n"
    case Translate => "🌍 PDF Translation Result (Placeholder)\n\n"
    case Secure => "🔒 PDF Security Result (Placeholder)\n\n"
  }

  function SettingLabel(op: OpType): string
  {
    match op
    case Compress => "Mode: "
    case Convert => "Target Format: "
    case Ocr => "Output Format: "
    case Summarize => "Summary Size: "
    case Translate => "Target Language: "
    case Secure => "Security Type: "
  }

  /** The setting as written on the placeholder's setting line: a language also shows its code. */
  function SettingText(op: OpType, params: Params): string
  {
    if op == Translate then Shown(op, params) + " (" + Param(params, "target_language", "en") + ")"
    else Shown(op, params)
  }

  /** The setting line: lead, setting text, newline. */
  function SettingLine(op: OpType, params: Params): string
  {
    SettingLabel(op) + SettingText(op, params) + "\n"
  }

  /** The setting line starts with the lead and the setting as shown. */
  lemma SettingLineStarts(op: OpType, params: Params)
    ensures StartsWith(SettingLine(op, params), SettingLabel(op) + Shown(op, params))
  {
    var lead, text, shown := SettingLabel(op), SettingText(op, params), Shown(op, params);
    if op == Translate {
      assert text[..|shown|] == shown;
    }
    assert StartsWith(text, shown);
    assert (lead + text + "\n")[..|lead| + |shown|] == lead + text[..|shown|];
  }

  /** The four summary texts the summarize placeholder chooses from. */
  datatype SummaryKind = ShortSummary | MediumSummary | LongSummary | GenericSummary

  /** The summarize placeholder's `match` on the size: the generic text for any other size. */
  function SummaryKindOf(size: string): (k: SummaryKind)
    ensures k == GenericSummary <==> size !in {"short", "medium", "long"}
    ensures k == ShortSummary <==> size == "short"
  {
    if size == "short" then ShortSummary
    else if size == "medium" then MediumSummary
    else if size == "long" then LongSummary
    else GenericSummary
  }

  function SummaryText(k: SummaryKind): string
  {
    match k
    case ShortSummary =>
      "Résumé court du document PDF. Les points clés sont présentés de manière concise."
    case MediumSummary =>
      "Résumé moyen du document PDF avec plus de détails. Les sections principales sont analysées et les idées importantes sont développées avec des explications supplémentaires."
    case LongSummary =>
      "Résumé détaillé du document PDF avec une analyse approfondie. Chaque section est examinée en profondeur, les arguments sont développés, les exemples sont expliqués, et les conclusions sont présentées avec leur contexte complet."
    case GenericSummary => "Résumé du document PDF."
  }

  /** The security types for which the placeholder and the caption speak of a password. */
  predicate IsPasswordType(securityType: string)
  {
    securityType == "password" || securityType == "both"
  }

  /** The first sentence of the secure placeholder's security text. */
  function SecurityHead(securityType: string): string
  {
    if securityType == "password" then "Protection par mot de passe appliquée."
    else if securityType == "watermark" then "Filigrane (watermark) appliqué au document."
    else if securityType == "both" then "Protection par mot de passe " + "ET filigrane appliqués."
    else "Sécurisation appliquée."
  }

  lemma PasswordHeadOneLine() ensures '\n' !in SecurityHead("password") {}
  lemma WatermarkHeadOneLine() ensures '\n' !in SecurityHead("watermark") {
    assert |"watermark"| != |"password"|;
    var h := "Filigrane (watermark) appliqué au document.";
    assert SecurityHead("watermark") == h;
    assert '\n' !in h;
  }
  lemma BothHeadOneLine() ensures '\n' !in SecurityHead("both") {
    assert |"both"| != |"password"| && |"both"| != |"watermark"|;
    var h1, h2 := "Protection par mot de passe ", "ET filigrane appliqués.";
    assert SecurityHead("both") == h1 + h2;
    assert '\n' !in h1 && '\n' !in h2;
  }
  lemma OtherHeadOneLine(t: string)
    requires t !in {"password", "watermark", "both"}
    ensures '\n' !in SecurityHead(t)
  {}

  /** Each head sentence is a single line. */
  lemma SecurityHeadOneLine(securityType: string)
    ensures '\n' !in SecurityHead(securityType)
  {
    if securityType == "password" { PasswordHeadOneLine(); }
    else if securityType == "watermark" { WatermarkHeadOneLine(); }
    else if securityType == "both" { BothHeadOneLine(); }
    else { OtherHeadOneLine(securityType); }
  }

  /**
   * The secure placeholder's security text: the head sentence, followed by
   * the password line for the password-setting types.  A null password
   * interpolates as the empty string.
   */
  function SecurityInfo(securityType: string, password: Option<string>): string
  {
    var head := SecurityHead(securityType);
    if IsPasswordType(securityType) then head + "\nMot de passe: " + password.GetOr("") else head
  }

  /** The security text holds the password line for the password-setting types and is one line otherwise. */
  lemma SecurityInfoLines(securityType: string, password: Option<string>)
    ensures var info := SecurityInfo(securityType, password);
      && (IsPasswordType(securityType) ==> Contains(info, "\nMot de passe: " + password.GetOr("")))
      && (!IsPasswordType(securityType) ==> '\n' !in info)
  {
    var head := SecurityHead(securityType);
    SecurityHeadOneLine(securityType);
    if IsPasswordType(securityType) {
      var line := "\nMot de passe: " + password.GetOr("");
      assert head + "\nMot de passe: " + password.GetOr("") == head + line;
      assert (head + line)[|head|..|head| + |line|] == line;
      assert OccursAt(head + line, line, |head|);
    }
  }

  function PlaceholderFixed(op: OpType): string
  {
    match op
    case Compress => "Status: ✅ Compressed successfully\n" + "Reduction: ~30% (estimated)\n\n"
    case Convert => "Status: ✅ Converted successfully\n" + "Pages: ~5 (estimated)\n\n"
    case Ocr =>
      "Status: ✅ Text extracted successfully\n" + "Characters: ~2,500 (estimated)\n" +
      "Languages detected: French, English\n\n" + "Sample extracted text:\n" +
      "Lorem ipsum dolor sit amet, consectetur adipiscing elit...\n\n"
    case Summarize => "Status: ✅ Summarized successfully\n\n" + "RÉSUMÉ:\n"
    case Translate =>
      "Status: ✅ Translated successfully\n" + "Words translated: ~1,200 (estimated)\n\n" +
      "Sample translated content:\n" + "Lorem ipsum has been translated to the target language...\n\n"
    case Secure => "Status: ✅ Secured successfully\n\n" + "SÉCURITÉ APPLIQUÉE:\n"
  }

  /** The summary text or the security text, where the operation has one. */
  function PlaceholderMiddle(op: OpType, params: Params): string
  {
    match op
    case Summarize => SummaryText(SummaryKindOf(Param(params, "size", "short"))) + "\n\n"
    case Secure =>
      SecurityInfo(Param(params, "security_type", "password"), OptParam(params, "password")) + "\n\n" +
      "⚠️ IMPORTANT: Conservez ces informations en sécurité!\n\n"
    case _ => ""
  }

  function PlaceholderNote(op: OpType): string
  {
    "Note: This is a placeholder result. " +
    match op
    case Compress => "Actual compression will be implemented with Python microservice."
    case Convert => "Actual conversion will be implemented with Python microservice."
    case Ocr => "Actual OCR will be implemented with Python microservice."
    case Summarize => "Actual summarization will be implemented with Python microservice + LLM."
    case Translate => "Actual translation will be implemented with Python microservice + Translation API in Step 6-7."
    case Secure => "Actual security features will be implemented with Python microservice in Step 6-7."
  }

  /** A text holding the placeholder's middle piece holds the summary or security text it starts with. */
  lemma MiddleShows(text: string, op: OpType, params: Params)
    requires Contains(text, PlaceholderMiddle(op, params))
    ensures op == Summarize ==> Contains(text, SummaryText(SummaryKindOf(Param(params, "size", "short"))))
    ensures op == Secure ==>
      Contains(text, SecurityInfo(Param(params, "security_type", "password"), OptParam(params, "password")))
  {
    var middle := PlaceholderMiddle(op, params);
    if op == Summarize {
      var b := SummaryText(SummaryKindOf(Param(params, "size", "short")));
      assert middle[..|b|] == b;
      ContainsPrefixOf(text, middle, b);
    } else if op == Secure {
      var info := SecurityInfo(Param(params, "security_type", "password"), OptParam(params, "password"));
      assert middle[..|info|] == info;
      ContainsPrefixOf(text, middle, info);
    }
  }

  /** `createPlaceholderContent`: a title, the original name, the setting, and operation-specific text. */
  function PlaceholderContent(op: OpType, params: Params, originalName: string): string
  {
    var original := "Original: " + originalName + "\n";
    PlaceholderTitle(op) + original + SettingLine(op, params) + PlaceholderFixed(op) + PlaceholderMiddle(op, params)
      + PlaceholderNote(op)
  }

  /**
   * The placeholder names the original file and shows the operation's
   * setting; a summary placeholder holds the text of its size, a secure
   * one its security description.
   */
  lemma PlaceholderContentShows(op: OpType, params: Params, originalName: string)
    ensures var text := PlaceholderContent(op, params, originalName);
      && Contains(text, "Original: " + originalName + "\n")
      && Contains(text, SettingLabel(op) + Shown(op, params))
      && (op == Summarize ==> Contains(text, SummaryText(SummaryKindOf(Param(params, "size", "short")))))
      && (op == Secure ==>
            Contains(text, SecurityInfo(Param(params, "security_type", "password"), OptParam(params, "password"))))
  {
    var original := "Original: " + originalName + "\n";
    var middle := PlaceholderMiddle(op, params);
    ChainContains(PlaceholderTitle(op), original, SettingLine(op, params), PlaceholderFixed(op), middle, PlaceholderNote(op));
    var text := PlaceholderTitle(op) + original + SettingLine(op, params) + PlaceholderFixed(op) + middle + PlaceholderNote(op);
    assert text == PlaceholderContent(op, params, originalName);
    SettingLineStarts(op, params);
    ContainsPrefixOf(text, SettingLine(op, params), SettingLabel(op) + Shown(op, params));
    MiddleShows(text, op, params);
  }

  // ---------------------------------------------------------------------
  // Placeholder extension

  /**
   * `getPlaceholderFileExtension`: `.txt` for compress, convert and
   * summarize; `.docx` or `.txt` for OCR by output format; the dotless
   * `pdf` for translate and secure.
   */
  function PlaceholderExtension(op: OpType, params: Params): (ext: string)
    ensures ext in {".txt", ".docx", "pdf"}
    ensures ext == ".docx" <==> op == Ocr && Param(params, "output_format", "txt") == "docx"
    ensures ext == "pdf" <==> op in {Translate, Secure}
  {
    match op
    case Ocr => if Param(params, "output_format", "txt") == "docx" then ".docx" else ".txt"
    case Translate => "pdf"
    case Secure => "pdf"
    case _ => ".txt"
  }

  // ---------------------------------------------------------------------
  // Caption

  /** The caption is five pieces in a row: title, setting, password line, download line, timing. */
  lemma CaptionChain(t: string, st: string, pw: string, d: string, e: string)
    ensures Contains(t + st + pw + d + e, st)
    ensures Contains(t + st + pw + d + e, pw)
    ensures EndsWith(t + st + pw + d + e, e)
  {
    var s := t + st + pw + d + e;
    assert s[|t|..|t| + |st|] == st;
    assert OccursAt(s, st, |t|);
    assert s[|t| + |st|..|t| + |st| + |pw|] == pw;
    assert OccursAt(s, pw, |t| + |st|);
  }

  function CaptionTitle(op: OpType): string
  {
    match op
    case Compress => "✅ *PDF Compressé*\n\n"
    case Convert => "✅ *PDF Converti*\n\n"
    case Ocr => "✅ *Texte Extrait (OCR)*\n\n"
    case Summarize => "✅ *PDF Résumé*\n\n"
    case Translate => "✅ *PDF Traduit*\n\n"
    case Secure => "✅ *PDF Sécurisé*\n\n"
  }

  function CaptionLabel(op: OpType): string
  {
    match op
    case Compress => "Mode: "
    case Convert => "Format: "
    case Ocr => "Format: "
    case Summarize => "Taille: "
    case Translate => "Langue: "
    case Secure => "Type: "
  }

  /** The secure caption's password condition: a truthy password and a type that sets one. */
  predicate ShowsPassword(params: Params)
  {
    "password" in params && !PhpEmpty(params["password"])
    && IsPasswordType(Param(params, "security_type", "password"))
  }

  function PasswordLine(op: OpType, params: Params): string
  {
    if op == Secure && ShowsPassword(params) then "🔑 Mot de passe: `" + params["password"] + "`\n" else ""
  }

  function DownloadLine(op: OpType): string
  {
    if op == Summarize then "Télécharger le résumé ci-dessus\n\n" else "Télécharger le fichier ci-dessus\n\n"
  }

  /** The closing line: the recorded duration, or 0 when none is recorded. */
  function TimingLine(seconds: Option<int>): string
  {
    "⏱️ Temps de traitement: " + IntToString(seconds.GetOr(0)) + "s"
  }

  /** `getResultCaption`: a title, the setting, the password when shown, a download line and the timing. */
  function Caption(op: OpType, params: Params, seconds: Option<int>): string
  {
    var setting := CaptionLabel(op) + Shown(op, params) + "\n";
    CaptionTitle(op) + setting + PasswordLine(op, params) + DownloadLine(op) + TimingLine(seconds)
  }

  /** The caption shows the setting, shows the password when a secure job sets one, and ends with the recorded duration. */
  lemma CaptionShows(op: OpType, params: Params, seconds: Option<int>)
    ensures var c := Caption(op, params, seconds);
      && Contains(c, CaptionLabel(op) + Shown(op, params) + "\n")
      && EndsWith(c, TimingLine(seconds))
      && (op == Secure && ShowsPassword(params) ==> Contains(c, "🔑 Mot de passe: `" + params["password"] + "`\n"))
  {
    var setting := CaptionLabel(op) + Shown(op, params) + "\n";
    CaptionChain(CaptionTitle(op), setting, PasswordLine(op, params), DownloadLine(op), TimingLine(seconds));
    assert CaptionTitle(op) + setting + PasswordLine(op, params) + DownloadLine(op) + TimingLine(seconds)
      == Caption(op, params, seconds);
  }
}

module JobHookProperties {
  import opened Wrappers
  import opened Strings
  import opened PdfOps
  import opened CommandParser
  import opened JobHooks

  /** No character of a rendered number is the key emoji. */
  lemma NoKeyInTiming(seconds: Option<int>)
    ensures '🔑' !in TimingLine(seconds)
  {
    var n := seconds.GetOr(0);
    var digits := if n < 0 then NatToString(-n) else NatToString(n);
    assert '🔑' !in digits by {
      forall i | 0 <= i < |digits| ensures digits[i] != '🔑' {
        assert '0' <= digits[i] <= '9';
      }
    }
  }

  lemma NoKeyInSecureTitle() ensures '🔑' !in CaptionTitle(Secure) {}
  lemma NoKeyInSecureLabel() ensures '🔑' !in CaptionLabel(Secure) {}
  lemma NoKeyInSecureDownload() ensures '🔑' !in DownloadLine(Secure) {}

  /**
   * The secure caption carries the password line exactly when the password
   * is truthy and the type is `password` or `both` (for a security type
   * without the key emoji in it, as every parsed type is).
   */
  lemma SecureCaptionShowsPassword(params: Params, seconds: Option<int>)
    requires '🔑' !in Param(params, "security_type", "password")
    ensures '🔑' in Caption(Secure, params, seconds) <==> ShowsPassword(params)
  {
    var c := Caption(Secure, params, seconds);
    if ShowsPassword(params) {
      var line := "🔑 Mot de passe: `" + params["password"] + "`\n";
      CaptionShows(Secure, params, seconds);
      ContainsFirstChar(c, line);
    } else {
      NoKeyInTiming(seconds);
      NoKeyInSecureTitle();
      NoKeyInSecureLabel();
      NoKeyInSecureDownload();
      assert PasswordLine(Secure, params) == "";
    }
  }

  /** The secure placeholder lists the password exactly for the `password` and `both` types. */
  lemma SecurityInfoShowsPassword(securityType: string, password: Option<string>)
    ensures Contains(SecurityInfo(securityType, password), "\nMot de passe: " + password.GetOr(""))
        <==> IsPasswordType(securityType)
  {
    var info := SecurityInfo(securityType, password);
    SecurityInfoLines(securityType, password);
    if Contains(info, "\nMot de passe: " + password.GetOr("")) {
      ContainsFirstChar(info, "\nMot de passe: " + password.GetOr(""));
    }
  }

  /** The remote call of a job made from parsed parameters carries the parsed setting. */
  predicate CarriesSetting(op: OpType, params: Params, s3Path: string)
    requires ParamKey(op) in params
  {
    var v := params[ParamKey(op)];
    match RemoteCallFor(op, params, s3Path)
    case CompressCall(_, o) => o["mode"] == v
    case ConvertCall(_, f, _) => f == v
    case OcrCall(_, o) => o["output_format"] == v
    case SummarizeCall(_, o) => o["length"] == v
    case TranslateCall(_, t) => t == v
    case SecureCall(_, t, pw, _) => t == v && (pw.Some? <==> NeedsPassword(v))
  }

  lemma ParametersReachService(op: OpType, action: string, parameter: string, perm: seq<int>, s3Path: string)
    requires IsShuffle(perm, 62)
    ensures CarriesSetting(op, ParseParameters(op, action, parameter, perm), s3Path)
  {
    var params := ParseParameters(op, action, parameter, perm);
    assert ParamKey(op) in params;
  }

  /**
   * For a parsed command the remote call carries the parsed setting: the
   * compress mode, the convert format, the OCR output format, the
   * summary size, the target language and the security type, with a
   * password exactly for the types that need one.
   */
  lemma ParsedSettingReachesService(command: string, perm: seq<int>, s3Path: string)
    requires IsShuffle(perm, 62) && Parse(command, perm).Some?
    ensures var pc := Parse(command, perm).value; CarriesSetting(pc.op, pc.parameters, s3Path)
  {
    var parts := ActionAndParameter(command);
    var pc := Parse(command, perm).value;
    ParametersReachService(pc.op, parts.value.0, parts.value.1, perm, s3Path);
  }

  /** As written, the summarize job always asks for a `medium` summary whatever size was parsed. */
  lemma SummarizeSizeIgnoredAsWritten(command: string, perm: seq<int>, s3Path: string)
    requires IsShuffle(perm, 62) && Parse(command, perm).Some? && Parse(command, perm).value.op == Summarize
    ensures AsksLength(RemoteCallAsWritten(Summarize, Parse(command, perm).value.parameters, s3Path), "medium")
  {
    ParsedKeys(command, perm);
    LengthDefaultsAsWritten(Parse(command, perm).value.parameters, s3Path);
  }

  /** The parser stores the original command, the operation's setting and, for some security types, a password, and nothing else. */
  lemma ParsedKeys(command: string, perm: seq<int>)
    requires IsShuffle(perm, 62) && Parse(command, perm).Some?
    ensures Parse(command, perm).value.parameters.Keys <= {"original_command", ParamKey(Parse(command, perm).value.op), "password"}
  {
    var parts := ActionAndParameter(command);
    assert Parse(command, perm) == ParseParts(parts, perm);
  }

  /** As written, a summarize request whose parameters are those the parser stores asks for `medium`. */
  lemma LengthDefaultsAsWritten(params: Params, s3Path: string)
    requires params.Keys <= {"original_command", "size", "password"}
    ensures AsksLength(RemoteCallAsWritten(Summarize, params, s3Path), "medium")
  {
    assert "length" !in params;
  }

  /** The call is a summary request for length `v`. */
  predicate AsksLength(c: RemoteCall, v: string)
  {
    c.SummarizeCall? && "length" in c.options && c.options["length"] == v
  }

  /** For example, "SUMMARIZE long" reaches the service as a `medium` request. */
  lemma SummarizeLongExample(perm: seq<int>, s3Path: string)
    requires IsShuffle(perm, 62)
    ensures var params := ParseParameters(Summarize, "SUMMARIZE", "LONG", perm);
      params["size"] == "long"
      && RemoteCallAsWritten(Summarize, params, s3Path).options["length"] == "medium"
      && RemoteCallFor(Summarize, params, s3Path).options["length"] == "long"
  {
    var params := ParseParameters(Summarize, "SUMMARIZE", "LONG", perm);
    assert Lower("LONG") == "long";
    assert "long" in Allowed(Summarize);
  }
}
