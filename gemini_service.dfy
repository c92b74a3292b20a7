/**
 * The three request/response wrappers around the generative-AI service
 * (services/geminiService.ts): image analysis, caption generation and
 * composition of a caption onto the image.
 *
 * The remote call itself is not modelled: each operation receives the
 * service's reply (or the message of the error the SDK threw) as a parameter.
 */
module GeminiService {
  import opened Js
  import opened Types

  // ---------------------------------------------------------------------------
  // Fixed messages
  // ---------------------------------------------------------------------------

  const AnalyzeFailedMsg: string := "Failed to analyze image with Gemini API."
  const QuotesFailedMsg: string := "Gagal menghasilkan kutipan. Silakan coba lagi."
  const ComposeFailedMsg: string := "Gagal membuat visual dengan kutipan. Silakan coba lagi."
  const InvalidStructureMsg: string := "Invalid JSON structure received from API."
  const NoImageMsgPrefix: string := "API did not return an image. It might have returned text instead: "
  /**
   * A placeholder for the TypeError the engine throws when `candidates[0]` is
   * undefined; its wording is irrelevant because the catch discards it.
   */
  const NoCandidateMsg: string := "no candidate in the response"
  /**
   * A placeholder for the TypeError the engine throws when an inline reply part
   * has no MIME type to call `startsWith` on; the catch discards it as well.
   */
  const MissingMimeTypeMsg: string := "inline part without a MIME type"
  /** The sentinel written into the caption prompt for an empty theme or instructions. */
  const NoneProvided: string := "Tidak ada"

  // ---------------------------------------------------------------------------
  // Request and response shapes
  // ---------------------------------------------------------------------------

  /** An `inlineData` payload: base64 data with its MIME type. */
  datatype Blob = Blob(data: string, mimeType: string)

  /** One part of a request: inline binary data or a text prompt. */
  datatype RequestPart = InlineDataPart(inlineData: Blob) | TextPart(text: string)

  /** An `inlineData` payload of a reply: the service may leave its MIME type out. */
  datatype ReplyBlob = ReplyBlob(data: string, mimeType: Option<string>)

  /** One part of a response candidate; either field may be absent. */
  datatype ResponsePart = ResponsePart(inlineData: Option<ReplyBlob>, text: Option<string>)

  datatype Candidate = Candidate(parts: seq<ResponsePart>)

  /** A composition response: its candidates and the concatenated text (`response.text`). */
  datatype Response = Response(candidates: seq<Candidate>, text: string)

  /**
   * What the caption call and `JSON.parse` produced: the call threw, the
   * parse threw, or a parsed value whose `opsi_kutipan` is either a list of
   * quotes or falsy/absent (`None` also stands for a parsed `null`).
   */
  datatype QuotesReply =
    | CallFailed(message: string)
    | ParseFailed(message: string)
    | Parsed(opsiKutipan: Option<seq<QuoteOption>>)

  // ---------------------------------------------------------------------------
  // analyzeImage
  // ---------------------------------------------------------------------------

  /** The description the service returned, or the fixed analysis error whatever the SDK threw. */
  function AnalyzeImage(reply: Result<string, string>): (r: Result<string, string>)
    ensures reply.Ok? ==> r == Ok(reply.value)
    ensures reply.Err? ==> r == Err(AnalyzeFailedMsg)
  {
    match reply
    case Ok(text) => Ok(text)
    case Err(_) => Err(AnalyzeFailedMsg)
  }

  // ---------------------------------------------------------------------------
  // generateQuotes
  // ---------------------------------------------------------------------------

  // The fixed pieces of the DATA INPUT lines of the caption prompt.
  const MediaTypeLine: string := "- Tipe Media: [FOTO / VIDEO]\n"
  const DescriptionLead: string := "- Deskripsi Hasil Analisis Visual AI: ["
  const ThemeLead: string := "]\n- Tema yang Dipilih Pengguna (jika ada): ["
  const InstructionsLead: string := "]\n- Instruksi Tambahan (jika ada): ["
  const InputsTail: string := "]"

  /**
   * The DATA INPUT lines of the caption prompt, the only part of it that
   * depends on the inputs: an empty theme or empty instructions read as the
   * sentinel.
   */
  function QuotesPromptInputs(imageDescription: string, theme: string, instructions: string): string
  {
    MediaTypeLine + DescriptionLead + imageDescription
    + ThemeLead + Or(theme, NoneProvided)
    + InstructionsLead + Or(instructions, NoneProvided) + InputsTail
  }

  /**
   * The theme and the instructions each fall back to the sentinel on their own
   * when empty, and are embedded verbatim otherwise; the description is embedded as given.
   */
  lemma QuotesPromptDefaults(imageDescription: string, theme: string, instructions: string)
    ensures QuotesPromptInputs(imageDescription, theme, instructions) ==
      "- Tipe Media: [FOTO / VIDEO]\n" + "- Deskripsi Hasil Analisis Visual AI: [" + imageDescription
      + "]\n- Tema yang Dipilih Pengguna (jika ada): [" + (if theme == "" then "Tidak ada" else theme)
      + "]\n- Instruksi Tambahan (jika ada): [" + (if instructions == "" then "Tidak ada" else instructions) + "]"
  {
  }

  /** A non-empty theme and non-empty instructions are embedded verbatim, never replaced by the sentinel. */
  lemma QuotesPromptKeepsInputs(imageDescription: string, theme: string, instructions: string)
    requires theme != "" && instructions != ""
    ensures QuotesPromptInputs(imageDescription, theme, instructions) ==
      MediaTypeLine + DescriptionLead + imageDescription + ThemeLead + theme + InstructionsLead + instructions + InputsTail
  {
  }

  /**
   * The caption list when the parsed reply holds `opsi_kutipan`; every
   * other reply (call error, parse error, missing key) gives the one fixed message.
   */
  function GenerateQuotes(reply: QuotesReply): (r: Result<seq<QuoteOption>, string>)
    ensures r.Ok? <==> reply.Parsed? && reply.opsiKutipan.Some?
    ensures r.Ok? ==> r.value == reply.opsiKutipan.value
    ensures r.Err? ==> r.error == QuotesFailedMsg
  {
    // the try block: a missing key throws InvalidStructureMsg ...
    var attempt: Result<seq<QuoteOption>, string> :=
      match reply
      case CallFailed(m) => Err(m)
      case ParseFailed(m) => Err(m)
      case Parsed(None) => Err(InvalidStructureMsg)
      case Parsed(Some(quotes)) => Ok(quotes);
    // ... and the catch replaces every thrown message by the fixed one
    if attempt.Err? then Err(QuotesFailedMsg) else attempt
  }

  // ---------------------------------------------------------------------------
  // createVisualWithQuote: phrase tables
  // ---------------------------------------------------------------------------

  function PlacementPhrase(p: PlacementOption): (phrase: string)
    ensures phrase != ""
  {
    match p
    case Atas => "at the top"
    case Bawah => "at the bottom"
  }

  /** The frame table has no entry for 'tidak ada'; every entry it has is non-empty. */
  function FramePhrase(f: FrameOption): (phrase: Option<string>)
    ensures phrase.None? <==> f == TidakAda
    ensures phrase.Some? ==> phrase.value != ""
  {
    match f
    case TidakAda => None
    case Sederhana => Some("a simple and thin black border")
    case Elegan => Some("an elegant, ornate silver frame")
    case Modern => Some("a clean, minimalist white frame")
    case Vintage => Some("a rustic, distressed wooden frame")
  }

  /** Every branding position names a corner of the image. */
  function LogoCorner(p: LogoPlacementOption): (phrase: string)
    ensures |phrase| > |" corner"| && phrase[|phrase| - |" corner"|..] == " corner"
  {
    match p
    case AtasKiri => "top-left corner"
    case AtasKanan => "top-right corner"
    case BawahKiri => "bottom-left corner"
    case BawahKanan => "bottom-right corner"
  }

  /** Distinct options always give distinct phrases, so each prompt names its option unambiguously. */
  lemma PhraseTablesInjective(p: PlacementOption, p': PlacementOption, f: FrameOption, f': FrameOption,
                              c: LogoPlacementOption, c': LogoPlacementOption)
    ensures PlacementPhrase(p) == PlacementPhrase(p') ==> p == p'
    ensures FramePhrase(f) == FramePhrase(f') ==> f == f'
    ensures LogoCorner(c) == LogoCorner(c') ==> c == c'
  {
  }

  // ---------------------------------------------------------------------------
  // createVisualWithQuote: sentence templates
  // ---------------------------------------------------------------------------

  // The fixed pieces of the composition prompt, around the phrases that are filled in.
  const OverlayLead: string := "Artistically and beautifully overlay the following text onto the main image. Place the text **"
  const OverlayTail: string := "** of the image. The text should be legible, well-placed, and complement the image's mood and composition."
  const FrameLead: string := " Also, add "
  const FrameTail: string := " around the entire image."
  const LogoLead: string := "Also, place the provided logo image at the **"
  const LogoAndTextMiddle: string := "** and write the brand name \""
  const LogoAndTextTail: string := "\" next to or under it. The branding should be subtle, clear, and well-integrated."
  const LogoOnlyTail: string := "**. The logo should be integrated naturally but remain clear and not too large."
  const WatermarkLead: string := "Also, write the following brand name as a watermark at the **"
  const WatermarkMiddle: string := "**: \""
  const WatermarkTail: string := "\". Make it subtle but legible."
  const QuoteLead: string := " Text: \""
  const QuoteTail: string := "\""

  /** The opening overlay sentence, with the placement phrase between `**` markers. */
  function OverlaySentence(placementInstruction: string): string
  {
    OverlayLead + placementInstruction + OverlayTail
  }

  function FrameSentence(frameInstruction: string): string
  {
    FrameLead + frameInstruction + FrameTail
  }

  function LogoAndTextSentence(corner: string, brandText: string): string
  {
    LogoLead + corner + LogoAndTextMiddle + brandText + LogoAndTextTail
  }

  function LogoOnlySentence(corner: string): string
  {
    LogoLead + corner + LogoOnlyTail
  }

  function WatermarkSentence(corner: string, brandText: string): string
  {
    WatermarkLead + corner + WatermarkMiddle + brandText + WatermarkTail
  }

  function QuoteSegment(quoteText: string): string
  {
    QuoteLead + quoteText + QuoteTail
  }

  // ---------------------------------------------------------------------------
  // createVisualWithQuote: the specification of the request
  // ---------------------------------------------------------------------------

  /** A logo takes part only when both its base64 data and its MIME type are truthy. */
  predicate HasLogo(logoBase64: Option<string>, logoMimeType: Option<string>)
  {
    Truthy(logoBase64) && Truthy(logoMimeType)
  }

  /** The four mutually exclusive branding cases. */
  datatype BrandingCase = LogoAndText(brand: string) | LogoOnly | TextOnly(brand: string) | NoBranding

  function Branding(logoBase64: Option<string>, logoMimeType: Option<string>, brandText: Option<string>): (c: BrandingCase)
    ensures c.LogoAndText? <==> HasLogo(logoBase64, logoMimeType) && Truthy(brandText)
    ensures c.LogoOnly? <==> HasLogo(logoBase64, logoMimeType) && !Truthy(brandText)
    ensures c.TextOnly? <==> !HasLogo(logoBase64, logoMimeType) && Truthy(brandText)
    ensures c.NoBranding? <==> !HasLogo(logoBase64, logoMimeType) && !Truthy(brandText)
    ensures (c.LogoAndText? || c.TextOnly?) ==> c.brand == brandText.value
  {
    if HasLogo(logoBase64, logoMimeType) then
      if Truthy(brandText) then LogoAndText(brandText.value) else LogoOnly
    else if Truthy(brandText) then TextOnly(brandText.value)
    else NoBranding
  }

  /** An empty brand text is the same as none, and a logo missing either half is the same as no logo. */
  lemma EmptyBrandingIsAbsent(logoBase64: Option<string>, logoMimeType: Option<string>, brandText: Option<string>)
    ensures Branding(logoBase64, logoMimeType, Some("")) == Branding(logoBase64, logoMimeType, None)
    ensures Branding(Some(""), logoMimeType, brandText) == Branding(None, None, brandText)
    ensures Branding(logoBase64, Some(""), brandText) == Branding(None, None, brandText)
  {
  }

  function FrameSegment(frame: FrameOption): string
  {
    match FramePhrase(frame)
    case None => ""
    case Some(phrase) => FrameSentence(phrase)
  }

  function BrandingSegment(c: BrandingCase, corner: string): string
  {
    match c
    case LogoAndText(brand) => " " + LogoAndTextSentence(corner, brand)
    case LogoOnly => " " + LogoOnlySentence(corner)
    case TextOnly(brand) => " " + WatermarkSentence(corner, brand)
    case NoBranding => ""
  }

  /** The composition prompt: overlay sentence, frame sentence, branding sentence, quoted text, in that order. */
  function CompositionPrompt(quoteText: string, placement: PlacementOption, frame: FrameOption,
                             logoBase64: Option<string>, logoMimeType: Option<string>,
                             logoPlacement: LogoPlacementOption, brandText: Option<string>): string
  {
    OverlaySentence(PlacementPhrase(placement))
    + FrameSegment(frame)
    + BrandingSegment(Branding(logoBase64, logoMimeType, brandText), LogoCorner(logoPlacement))
    + QuoteSegment(quoteText)
  }

  /**
   * The request parts: the main image under its own MIME type first, the
   * logo second only when there is one, and the prompt last.
   */
  function CompositionRequest(base64ImageData: string, mimeType: string, quoteText: string,
                              placement: PlacementOption, frame: FrameOption,
                              logoBase64: Option<string>, logoMimeType: Option<string>,
                              logoPlacement: LogoPlacementOption, brandText: Option<string>): (parts: seq<RequestPart>)
    ensures |parts| == if HasLogo(logoBase64, logoMimeType) then 3 else 2
    ensures parts[0] == InlineDataPart(Blob(base64ImageData, mimeType))
    ensures HasLogo(logoBase64, logoMimeType) ==> parts[1] == InlineDataPart(Blob(logoBase64.value, logoMimeType.value))
    ensures parts[|parts| - 1] == TextPart(CompositionPrompt(quoteText, placement, frame, logoBase64, logoMimeType, logoPlacement, brandText))
  {
    [InlineDataPart(Blob(base64ImageData, mimeType))]
    + (if HasLogo(logoBase64, logoMimeType) then [InlineDataPart(Blob(logoBase64.value, logoMimeType.value))] else [])
    + [TextPart(CompositionPrompt(quoteText, placement, frame, logoBase64, logoMimeType, logoPlacement, brandText))]
  }

  /** Every prompt opens with the overlay sentence naming the placement and closes with the quoted caption. */
  lemma PromptFraming(quoteText: string, placement: PlacementOption, frame: FrameOption,
                      logoBase64: Option<string>, logoMimeType: Option<string>,
                      logoPlacement: LogoPlacementOption, brandText: Option<string>)
    ensures var prompt := CompositionPrompt(quoteText, placement, frame, logoBase64, logoMimeType, logoPlacement, brandText);
      && OverlaySentence(PlacementPhrase(placement)) <= prompt
      && |QuoteSegment(quoteText)| <= |prompt|
      && prompt[|prompt| - |QuoteSegment(quoteText)|..] == QuoteSegment(quoteText)
  {
    var head := OverlaySentence(PlacementPhrase(placement));
    var frameSegment := FrameSegment(frame);
    var brandingSegment := BrandingSegment(Branding(logoBase64, logoMimeType, brandText), LogoCorner(logoPlacement));
    var quote := QuoteSegment(quoteText);
    AppendAssoc(head, frameSegment, brandingSegment);
    AppendAssoc(head, frameSegment + brandingSegment, quote);
    AppendParts(head, frameSegment + brandingSegment + quote);
    AppendParts(head + frameSegment + brandingSegment, quote);
  }

  // ---------------------------------------------------------------------------
  // createVisualWithQuote: golden prompts for the frame, placement and branding cases
  // ---------------------------------------------------------------------------

  /** Bottom placement, elegant frame, no branding (an empty brand text counts as none). */
  lemma GoldenElegantBottomNoBranding(quoteText: string, logoPlacement: LogoPlacementOption)
    ensures CompositionPrompt(quoteText, Bawah, Elegan, None, None, logoPlacement, Some("")) ==
      ("Artistically and beautifully overlay the following text onto the main image. Place the text **"
       + "at the bottom"
       + "** of the image. The text should be legible, well-placed, and complement the image's mood and composition.")
      + (" Also, add " + "an elegant, ornate silver frame" + " around the entire image.")
      + ""
      + (" Text: \"" + quoteText + "\"")
  {
    assert Branding(None, None, Some("")) == NoBranding;
  }

  /** Logo and brand text, no frame: nothing between the overlay sentence and the branding sentence. */
  lemma GoldenNoFrameLogoAndText(quoteText: string)
    ensures CompositionPrompt(quoteText, Atas, TidakAda, Some("TE9HTw=="), Some("image/png"), AtasKiri, Some("Merek")) ==
      ("Artistically and beautifully overlay the following text onto the main image. Place the text **"
       + "at the top"
       + "** of the image. The text should be legible, well-placed, and complement the image's mood and composition.")
      + ""
      + (" " + ("Also, place the provided logo image at the **" + "top-left corner" + "** and write the brand name \"" + "Merek"
               + "\" next to or under it. The branding should be subtle, clear, and well-integrated."))
      + (" Text: \"" + quoteText + "\"")
  {
    assert Branding(Some("TE9HTw=="), Some("image/png"), Some("Merek")) == LogoAndText("Merek");
  }

  /** Logo without brand text. */
  lemma GoldenLogoOnly(quoteText: string)
    ensures CompositionPrompt(quoteText, Bawah, Sederhana, Some("TE9HTw=="), Some("image/png"), BawahKanan, Some("")) ==
      ("Artistically and beautifully overlay the following text onto the main image. Place the text **"
       + "at the bottom"
       + "** of the image. The text should be legible, well-placed, and complement the image's mood and composition.")
      + (" Also, add " + "a simple and thin black border" + " around the entire image.")
      + (" " + ("Also, place the provided logo image at the **" + "bottom-right corner"
               + "**. The logo should be integrated naturally but remain clear and not too large."))
      + (" Text: \"" + quoteText + "\"")
  {
    assert Branding(Some("TE9HTw=="), Some("image/png"), Some("")) == LogoOnly;
  }

  /** Brand text with a logo that has no MIME type: the text-only watermark case. */
  lemma GoldenWatermark(quoteText: string)
    ensures CompositionPrompt(quoteText, Atas, Vintage, Some("TE9HTw=="), None, AtasKanan, Some("Merek")) ==
      ("Artistically and beautifully overlay the following text onto the main image. Place the text **"
       + "at the top"
       + "** of the image. The text should be legible, well-placed, and complement the image's mood and composition.")
      + (" Also, add " + "a rustic, distressed wooden frame" + " around the entire image.")
      + (" " + ("Also, write the following brand name as a watermark at the **" + "top-right corner" + "**: \"" + "Merek"
               + "\". Make it subtle but legible."))
      + (" Text: \"" + quoteText + "\"")
  {
    assert Branding(Some("TE9HTw=="), None, Some("Merek")) == TextOnly("Merek");
  }

  /** Brand text and no logo. */
  lemma GoldenModernBottomLeftWatermark(quoteText: string)
    ensures CompositionPrompt(quoteText, Bawah, Modern, None, None, BawahKiri, Some("Merek")) ==
      ("Artistically and beautifully overlay the following text onto the main image. Place the text **"
       + "at the bottom"
       + "** of the image. The text should be legible, well-placed, and complement the image's mood and composition.")
      + (" Also, add " + "a clean, minimalist white frame" + " around the entire image.")
      + (" " + ("Also, write the following brand name as a watermark at the **" + "bottom-left corner" + "**: \"" + "Merek"
               + "\". Make it subtle but legible."))
      + (" Text: \"" + quoteText + "\"")
  {
    assert Branding(None, None, Some("Merek")) == TextOnly("Merek");
  }

  // ---------------------------------------------------------------------------
  // createVisualWithQuote: building the request step by step
  // ---------------------------------------------------------------------------

  /** The prompt built with `+=` appends and the parts list built with pushes. */
  method BuildCompositionRequest(base64ImageData: string, mimeType: string, quoteText: string,
                                 placement: PlacementOption, frame: FrameOption,
                                 logoBase64: Option<string>, logoMimeType: Option<string>,
                                 logoPlacement: LogoPlacementOption, brandText: Option<string>)
    returns (parts: seq<RequestPart>)
    ensures parts == CompositionRequest(base64ImageData, mimeType, quoteText, placement, frame,
                                        logoBase64, logoMimeType, logoPlacement, brandText)
  {
    var prompt := OpeningInstructions(placement, frame);
    var brandingInstruction;
    parts, brandingInstruction := BrandingInstruction(base64ImageData, mimeType, logoBase64, logoMimeType, logoPlacement, brandText);
    ghost var opening := prompt;
    ghost var brandingSegment := BrandingSegment(Branding(logoBase64, logoMimeType, brandText), LogoCorner(logoPlacement));
    if brandingInstruction != "" {
      AppendAssoc(prompt, " ", brandingInstruction);
      prompt := prompt + " " + brandingInstruction;
    }
    assert prompt == opening + brandingSegment;
    prompt := prompt + QuoteSegment(quoteText);
    parts := parts + [TextPart(prompt)];
  }

  /** The overlay sentence with the placement phrase, followed by the frame sentence when the frame has a phrase. */
  method OpeningInstructions(placement: PlacementOption, frame: FrameOption) returns (prompt: string)
    ensures prompt == OverlaySentence(PlacementPhrase(placement)) + FrameSegment(frame)
  {
    var placementInstruction := Or(PlacementPhrase(placement), "at the bottom");
    var frameInstruction := OrElse(FramePhrase(frame), "");
    prompt := OverlaySentence(placementInstruction);
    if frameInstruction != "" {
      prompt := prompt + FrameSentence(frameInstruction);
    }
  }

  /**
   * The image parts (the logo pushed after the main image only when there is
   * a logo) and the branding sentence of the case at hand, empty when there
   * is no branding.
   */
  method BrandingInstruction(base64ImageData: string, mimeType: string,
                             logoBase64: Option<string>, logoMimeType: Option<string>,
                             logoPlacement: LogoPlacementOption, brandText: Option<string>)
    returns (parts: seq<RequestPart>, brandingInstruction: string)
    ensures parts == [InlineDataPart(Blob(base64ImageData, mimeType))]
      + (if HasLogo(logoBase64, logoMimeType) then [InlineDataPart(Blob(logoBase64.value, logoMimeType.value))] else [])
    ensures brandingInstruction == "" <==> Branding(logoBase64, logoMimeType, brandText).NoBranding?
    ensures brandingInstruction != "" ==>
      " " + brandingInstruction == BrandingSegment(Branding(logoBase64, logoMimeType, brandText), LogoCorner(logoPlacement))
  {
    parts := [InlineDataPart(Blob(base64ImageData, mimeType))];
    var logoPlacementInstruction := LogoCorner(logoPlacement);
    brandingInstruction := "";
    if Truthy(logoBase64) && Truthy(logoMimeType) {
      parts := parts + [InlineDataPart(Blob(logoBase64.value, logoMimeType.value))];
      if Truthy(brandText) {
        brandingInstruction := LogoAndTextSentence(logoPlacementInstruction, brandText.value);
      } else {
        brandingInstruction := LogoOnlySentence(logoPlacementInstruction);
      }
    } else if Truthy(brandText) {
      brandingInstruction := WatermarkSentence(logoPlacementInstruction, brandText.value);
    }
  }

  // ---------------------------------------------------------------------------
  // createVisualWithQuote: scanning the response
  // ---------------------------------------------------------------------------

  /** An inline part whose MIME type starts with "image/": the scan returns its data. */
  predicate IsImagePart(part: ResponsePart)
  {
    part.inlineData.Some? && part.inlineData.value.mimeType.Some?
    && StartsWith(part.inlineData.value.mimeType.value, "image/")
  }

  /** An inline part without a MIME type: reading `mimeType.startsWith` on it throws. */
  predicate IsUntypedInlinePart(part: ResponsePart)
  {
    part.inlineData.Some? && part.inlineData.value.mimeType.None?
  }

  /** A part the scan steps over: text only, or inline data of a non-image type. */
  predicate IsSkipped(part: ResponsePart)
  {
    !IsImagePart(part) && !IsUntypedInlinePart(part)
  }

  /** How the scan over the parts ends: an image's data, no image at all, or a throw on an untyped part. */
  datatype Scan = Found(data: string) | NoImage | UntypedPart

  /** What the scan makes of a part it does not step over. */
  function StopAt(part: ResponsePart): Scan
  {
    if IsImagePart(part) then Found(part.inlineData.value.data) else UntypedPart
  }

  /** The scan: the first part that is not stepped over decides, and running out of parts finds no image. */
  function FirstImageData(parts: seq<ResponsePart>): Scan
  {
    if parts == [] then NoImage
    else if IsSkipped(parts[0]) then FirstImageData(parts[1..])
    else StopAt(parts[0])
  }

  /**
   * The scan finds no image exactly when every part is stepped over; otherwise
   * it ends at the earliest part that is not, with that part's data when it is
   * an image and with the throw when it is an untyped inline part.
   */
  lemma {:induction false} FirstImageDataIsFirst(parts: seq<ResponsePart>)
    ensures FirstImageData(parts).NoImage? <==> forall i :: 0 <= i < |parts| ==> IsSkipped(parts[i])
    ensures !FirstImageData(parts).NoImage? ==>
      exists i :: 0 <= i < |parts| && !IsSkipped(parts[i])
        && FirstImageData(parts) == StopAt(parts[i])
        && forall j :: 0 <= j < i ==> IsSkipped(parts[j])
  {
    if parts != [] && IsSkipped(parts[0]) {
      var rest := parts[1..];
      FirstImageDataIsFirst(rest);
      assert forall i :: 1 <= i < |parts| ==> parts[i] == rest[i - 1];
      if !FirstImageData(rest).NoImage? {
        var i :| 0 <= i < |rest| && !IsSkipped(rest[i])
          && FirstImageData(rest) == StopAt(rest[i])
          && forall j :: 0 <= j < i ==> IsSkipped(rest[j]);
        assert parts[i + 1] == rest[i];
        assert forall j :: 0 <= j < i + 1 ==> IsSkipped(parts[j]) by {
          forall j | 0 <= j < i + 1 ensures IsSkipped(parts[j]) {
            if j > 0 { assert parts[j] == rest[j - 1]; }
          }
        }
      }
    } else if parts != [] {
      assert !IsSkipped(parts[0]);
      assert !FirstImageData(parts).NoImage? by {
        if IsImagePart(parts[0]) { assert StopAt(parts[0]).Found?; }
      }
    }
  }

  /** Parts after the one that decides the scan are never looked at; parts stepped over before it change nothing. */
  lemma {:induction false} FirstImageDataIgnoresLater(ps: seq<ResponsePart>, qs: seq<ResponsePart>)
    ensures !FirstImageData(ps).NoImage? ==> FirstImageData(ps + qs) == FirstImageData(ps)
    ensures FirstImageData(ps).NoImage? ==> FirstImageData(ps + qs) == FirstImageData(qs)
    decreases |ps|
  {
    if ps == [] {
      assert ps + qs == qs;
    } else {
      assert (ps + qs)[0] == ps[0];
      assert (ps + qs)[1..] == ps[1..] + qs;
      FirstImageDataIgnoresLater(ps[1..], qs);
    }
  }

  /** The `for ... of` loop over the response parts with its early return, and the throw on an untyped part. */
  method FindImageData(parts: seq<ResponsePart>) returns (scan: Scan)
    ensures scan == FirstImageData(parts)
  {
    var i := 0;
    while i < |parts|
      invariant 0 <= i <= |parts|
      invariant FirstImageData(parts[i..]) == FirstImageData(parts)
    {
      assert parts[i..][0] == parts[i];
      assert parts[i..][1..] == parts[i + 1..];
      var part := parts[i];
      if part.inlineData.Some? {
        if part.inlineData.value.mimeType.None? {
          return UntypedPart;
        }
        if StartsWith(part.inlineData.value.mimeType.value, "image/") {
          return Found(part.inlineData.value.data);
        }
      }
      i := i + 1;
    }
    assert parts[i..] == [];
    return NoImage;
  }

  /**
   * What createVisualWithQuote returns: the first image part of the first
   * candidate, and otherwise the one fixed composition message.
   */
  function ComposeOutcome(reply: Result<Response, string>): (r: Result<string, string>)
    ensures r.Ok? <==> reply.Ok? && |reply.value.candidates| > 0 && FirstImageData(reply.value.candidates[0].parts).Found?
    ensures r.Ok? ==> Found(r.value) == FirstImageData(reply.value.candidates[0].parts)
    ensures r.Err? ==> r.error == ComposeFailedMsg
  {
    if reply.Ok? && |reply.value.candidates| > 0 && FirstImageData(reply.value.candidates[0].parts).Found?
    then Ok(FirstImageData(reply.value.candidates[0].parts).data)
    else Err(ComposeFailedMsg)
  }

  /** A response whose only part is text fails with the fixed message: the returned text is not passed on. */
  lemma TextOnlyResponseDiscardsText(commentary: string)
    ensures ComposeOutcome(Ok(Response([Candidate([ResponsePart(None, Some(commentary))])], commentary)))
            == Err(ComposeFailedMsg)
  {
    var parts := [ResponsePart(None, Some(commentary))];
    assert parts[1..] == [];
    assert FirstImageData(parts) == NoImage;
  }

  /** An inline part without a MIME type ahead of an image makes the composition fail rather than skip to the image. */
  lemma UntypedInlinePartFails(data: string, image: string)
    ensures ComposeOutcome(Ok(Response([Candidate([ResponsePart(Some(ReplyBlob(data, None)), None),
                                                   ResponsePart(Some(ReplyBlob(image, Some("image/png"))), None)])], "")))
            == Err(ComposeFailedMsg)
  {
    var parts := [ResponsePart(Some(ReplyBlob(data, None)), None),
                  ResponsePart(Some(ReplyBlob(image, Some("image/png"))), None)];
    assert IsUntypedInlinePart(parts[0]);
    assert FirstImageData(parts) == UntypedPart;
  }

  /**
   * createVisualWithQuote: build the request, then interpret the reply.
   * The request handed to the service is returned beside the result.
   */
  method CreateVisualWithQuote(base64ImageData: string, mimeType: string, quoteText: string,
                               placement: PlacementOption, frame: FrameOption,
                               logoBase64: Option<string>, logoMimeType: Option<string>,
                               logoPlacement: LogoPlacementOption, brandText: Option<string>,
                               reply: Result<Response, string>)
    returns (request: seq<RequestPart>, r: Result<string, string>)
    ensures request == CompositionRequest(base64ImageData, mimeType, quoteText, placement, frame,
                                          logoBase64, logoMimeType, logoPlacement, brandText)
    ensures r == ComposeOutcome(reply)
  {
    request := BuildCompositionRequest(base64ImageData, mimeType, quoteText, placement, frame,
                                       logoBase64, logoMimeType, logoPlacement, brandText);
    // the try block
    var attempt: Result<string, string>;
    if reply.Err? {
      attempt := Err(reply.error);
    } else if |reply.value.candidates| == 0 {
      attempt := Err(NoCandidateMsg);
    } else {
      var found := FindImageData(reply.value.candidates[0].parts);
      match found {
        case Found(data) =>
          attempt := Ok(data);
        case UntypedPart =>
          attempt := Err(MissingMimeTypeMsg);
        case NoImage =>
          attempt := Err(NoImageMsgPrefix + reply.value.text);
      }
    }
    // the catch: every thrown message is replaced by the fixed one
    if attempt.Err? {
      r := Err(ComposeFailedMsg);
    } else {
      r := attempt;
    }
  }
}
