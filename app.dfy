/**
 * The session state of the front-end (App.tsx): its state slots, the
 * handlers that change them, and the data-URL split used when a file is read.
 *
 * Each handler runs to completion; what the browser's file reader and the
 * service produce is passed in as a parameter.
 */
module App {
  import opened Js
  import opened Types
  import GeminiService

  // ---------------------------------------------------------------------------
  // Fixed messages
  // ---------------------------------------------------------------------------

  const FileDecodeMsg: string := "Gagal memproses file. Silakan coba file lain."
  const LogoDecodeMsg: string := "Gagal memproses file logo. Silakan coba file lain."
  const UploadFirstMsg: string := "Silakan unggah gambar atau video terlebih dahulu."
  const ImageOnlyMsg: string := "Fitur ini hanya tersedia untuk gambar."
  const AnalyzingMsg: string := "Menganalisis visual..."
  const GeneratingMsg: string := "Menciptakan kutipan inspiratif..."
  const PngDataUrlPrefix: string := "data:image/png;base64,"

  // ---------------------------------------------------------------------------
  // fileToData
  // ---------------------------------------------------------------------------

  /**
   * The decoded file: the base64 payload is the second comma-separated field
   * of the data URL (empty when there is none), the preview is the whole data
   * URL, and the MIME type is the one the file declares.
   */
  function FileToData(dataUrl: string, fileType: string): (f: UploadedFile)
    ensures f.previewUrl == dataUrl && f.mimeType == fileType
    ensures ',' !in f.base64
    ensures ',' !in dataUrl ==> f.base64 == ""
  {
    var fields := Split(dataUrl, ',');
    assert ',' !in dataUrl ==> |fields| == 1 by {
      if ',' !in dataUrl { SplitJoin([dataUrl], ','); }
    }
    UploadedFile(if |fields| > 1 then fields[1] else "", fileType, dataUrl)
  }

  /**
   * For a data URL `header,payload` (possibly followed by more comma-separated
   * fields), the base64 payload is exactly the text between the first comma and the next.
   */
  lemma FileToDataPayload(header: string, payload: string, rest: string, fileType: string)
    requires ',' !in header && ',' !in payload
    requires rest == [] || rest[0] == ','
    ensures FileToData(header + [','] + payload + rest, fileType).base64 == payload
  {
    var tail := payload + rest;
    assert header + [','] + payload + rest == header + ([','] + tail);
    SplitPrefix(header, [','] + tail, ',');
    assert ([','] + tail)[1..] == tail;
    SplitPrefix(payload, rest, ',');
    if rest == [] {
      assert Split(rest, ',')[0] == "";
    } else {
      assert rest == [','] + rest[1..];
    }
    assert Split(tail, ',')[0] == payload;
  }

  /** For the usual `data:<type>;base64,<payload>` the payload is everything after the comma. */
  lemma FileToDataAfterComma(header: string, payload: string, fileType: string)
    requires ',' !in header && ',' !in payload
    ensures FileToData(header + [','] + payload, fileType).base64 == payload
  {
    FileToDataPayload(header, payload, [], fileType);
    assert header + [','] + payload + [] == header + [','] + payload;
  }

  predicate IsVideo(mimeType: string)
  {
    StartsWith(mimeType, "video/")
  }

  // ---------------------------------------------------------------------------
  // The session
  // ---------------------------------------------------------------------------

  /** The value of every state slot at one moment. */
  datatype Snapshot = Snapshot(
    uploadedFile: Option<UploadedFile>,
    theme: string,
    instructions: string,
    quotes: Option<seq<QuoteOption>>,
    isLoading: bool,
    loadingMessage: string,
    error: Option<string>,
    isCreatingVisual: Option<int>,
    generatedVisual: Option<string>,
    errorVisual: Option<string>,
    placement: PlacementOption,
    frame: FrameOption,
    activeQuote: Option<QuoteOption>,
    logoFile: Option<UploadedFile>,
    logoPlacement: LogoPlacementOption,
    brandText: string)

  /** The initial value of every slot. */
  const Initial: Snapshot :=
    Snapshot(None, "", "", None, false, "", None, None, None, None, Bawah, TidakAda, None, None, BawahKanan, "")

  /** handleClearMedia: media, captions, composite, both errors and branding back to their initial values. */
  function ClearedMedia(s: Snapshot): (c: Snapshot)
    ensures c.uploadedFile.None? && c.quotes.None? && c.generatedVisual.None? && c.activeQuote.None?
      && c.error.None? && c.errorVisual.None? && c.frame == TidakAda && c.logoFile.None? && c.brandText == ""
    ensures c.theme == s.theme && c.instructions == s.instructions && c.placement == s.placement
      && c.logoPlacement == s.logoPlacement && c.isLoading == s.isLoading
      && c.loadingMessage == s.loadingMessage && c.isCreatingVisual == s.isCreatingVisual
  {
    s.(uploadedFile := None, quotes := None, generatedVisual := None, activeQuote := None,
       error := None, errorVisual := None, frame := TidakAda, logoFile := None, brandText := "")
  }

  /** What the try block of handleGenerate ends with: the caption list, or the message of the step that threw. */
  function CaptionOutcome(analysisReply: Result<string, string>, quotesReply: GeminiService.QuotesReply)
    : (r: Result<seq<QuoteOption>, string>)
    ensures GeminiService.AnalyzeImage(analysisReply).Err? ==> r == Err(GeminiService.AnalyzeFailedMsg)
    ensures GeminiService.AnalyzeImage(analysisReply).Ok? ==> r == GeminiService.GenerateQuotes(quotesReply)
    ensures r.Err? ==> r.error in {GeminiService.AnalyzeFailedMsg, GeminiService.QuotesFailedMsg}
  {
    match GeminiService.AnalyzeImage(analysisReply)
    case Err(m) => Err(m)
    case Ok(_) => GeminiService.GenerateQuotes(quotesReply)
  }

  /** A request handed to the service. */
  datatype GatewayCall =
    | AnalyzeCall(base64Data: string, mimeType: string)
    | QuotesCall(promptInputs: string)
    | ComposeCall(parts: seq<GeminiService.RequestPart>)

  /** A request together with the state the page shows while it is in flight. */
  datatype PendingCall = PendingCall(call: GatewayCall, during: Snapshot)

  class Session {
    var uploadedFile: Option<UploadedFile>
    var theme: string
    var instructions: string
    var quotes: Option<seq<QuoteOption>>
    var isLoading: bool
    var loadingMessage: string
    var error: Option<string>
    var isCreatingVisual: Option<int>
    var generatedVisual: Option<string>
    var errorVisual: Option<string>
    var placement: PlacementOption
    var frame: FrameOption
    var activeQuote: Option<QuoteOption>
    var logoFile: Option<UploadedFile>
    var logoPlacement: LogoPlacementOption
    var brandText: string

    /** Every request this session has handed to the service, in order. */
    ghost var calls: seq<PendingCall>

    function State(): Snapshot
      reads this
    {
      Snapshot(uploadedFile, theme, instructions, quotes, isLoading, loadingMessage, error,
               isCreatingVisual, generatedVisual, errorVisual, placement, frame, activeQuote,
               logoFile, logoPlacement, brandText)
    }

    /**
     * What holds between handlers: nothing is in flight, the active caption
     * belongs to the current list, captions exist only for a current upload,
     * and a composite exists only for a current image upload, as a PNG data
     * URL and never beside a composition error.
     */
    ghost predicate Valid()
      reads this
    {
      && !isLoading && loadingMessage == "" && isCreatingVisual.None?
      && (activeQuote.Some? ==> quotes.Some? && activeQuote.value in quotes.value)
      && (quotes.Some? ==> uploadedFile.Some?)
      && (generatedVisual.Some? ==>
            && uploadedFile.Some? && !IsVideo(uploadedFile.value.mimeType)
            && StartsWith(generatedVisual.value, PngDataUrlPrefix)
            && errorVisual.None?)
    }

    constructor ()
      ensures State() == Initial && calls == [] && Valid()
    {
      uploadedFile, theme, instructions, quotes := None, "", "", None;
      isLoading, loadingMessage, error := false, "", None;
      isCreatingVisual, generatedVisual, errorVisual := None, None, None;
      placement, frame, activeQuote := Bawah, TidakAda, None;
      logoFile, logoPlacement, brandText := None, BawahKanan, "";
      calls := [];
    }

    // The state setters: each replaces one slot and leaves every other slot alone.
    // Those whose slot the invariant does not constrain also keep it.

    method SetUploadedFile(value: Option<UploadedFile>)
      modifies this
      ensures State() == old(State()).(uploadedFile := value) && calls == old(calls)
    {
      uploadedFile := value;
    }

    method SetTheme(value: string)
      modifies this
      ensures State() == old(State()).(theme := value) && calls == old(calls)
      ensures old(Valid()) ==> Valid()
    {
      theme := value;
    }

    method SetInstructions(value: string)
      modifies this
      ensures State() == old(State()).(instructions := value) && calls == old(calls)
      ensures old(Valid()) ==> Valid()
    {
      instructions := value;
    }

    method SetQuotes(value: Option<seq<QuoteOption>>)
      modifies this
      ensures State() == old(State()).(quotes := value) && calls == old(calls)
    {
      quotes := value;
    }

    method SetIsLoading(value: bool)
      modifies this
      ensures State() == old(State()).(isLoading := value) && calls == old(calls)
    {
      isLoading := value;
    }

    method SetLoadingMessage(value: string)
      modifies this
      ensures State() == old(State()).(loadingMessage := value) && calls == old(calls)
    {
      loadingMessage := value;
    }

    method SetError(value: Option<string>)
      modifies this
      ensures State() == old(State()).(error := value) && calls == old(calls)
      ensures old(Valid()) ==> Valid()
    {
      error := value;
    }

    method SetIsCreatingVisual(value: Option<int>)
      modifies this
      ensures State() == old(State()).(isCreatingVisual := value) && calls == old(calls)
    {
      isCreatingVisual := value;
    }

    method SetGeneratedVisual(value: Option<string>)
      modifies this
      ensures State() == old(State()).(generatedVisual := value) && calls == old(calls)
    {
      generatedVisual := value;
    }

    method SetErrorVisual(value: Option<string>)
      modifies this
      ensures State() == old(State()).(errorVisual := value) && calls == old(calls)
    {
      errorVisual := value;
    }

    method SetPlacement(value: PlacementOption)
      modifies this
      ensures State() == old(State()).(placement := value) && calls == old(calls)
      ensures old(Valid()) ==> Valid()
    {
      placement := value;
    }

    method SetFrame(value: FrameOption)
      modifies this
      ensures State() == old(State()).(frame := value) && calls == old(calls)
      ensures old(Valid()) ==> Valid()
    {
      frame := value;
    }

    method SetActiveQuote(value: Option<QuoteOption>)
      modifies this
      ensures State() == old(State()).(activeQuote := value) && calls == old(calls)
    {
      activeQuote := value;
    }

    method SetLogoFile(value: Option<UploadedFile>)
      modifies this
      ensures State() == old(State()).(logoFile := value) && calls == old(calls)
      ensures old(Valid()) ==> Valid()
    {
      logoFile := value;
    }

    method SetLogoPlacement(value: LogoPlacementOption)
      modifies this
      ensures State() == old(State()).(logoPlacement := value) && calls == old(calls)
      ensures old(Valid()) ==> Valid()
    {
      logoPlacement := value;
    }

    method SetBrandText(value: string)
      modifies this
      ensures State() == old(State()).(brandText := value) && calls == old(calls)
      ensures old(Valid()) ==> Valid()
    {
      brandText := value;
    }

    /** Hands a request to the service; the page keeps showing the current state meanwhile. */
    ghost method Send(call: GatewayCall)
      modifies this
      ensures State() == old(State()) && calls == old(calls) + [PendingCall(call, old(State()))]
    {
      calls := calls + [PendingCall(call, State())];
    }

    method HandleClearMedia()
      requires Valid()
      modifies this
      ensures Valid()
      ensures State() == ClearedMedia(old(State()))
      ensures calls == old(calls)
    {
      SetUploadedFile(None);
      SetQuotes(None);
      SetGeneratedVisual(None);
      SetActiveQuote(None);
      SetError(None);
      SetErrorVisual(None);
      SetFrame(TidakAda);
      SetLogoFile(None);
      SetBrandText("");
    }

    method HandleClearLogo()
      requires Valid()
      modifies this
      ensures Valid()
      ensures State() == old(State()).(logoFile := None)
      ensures calls == old(calls)
    {
      SetLogoFile(None);
    }

    /**
     * handleFileSelect: the full clear first, then the decoded file, or the
     * decode error with no upload. `dataUrl` is what the file reader produced,
     * `None` when it failed.
     */
    method HandleFileSelect(fileType: string, dataUrl: Option<string>)
      requires Valid()
      modifies this
      ensures Valid()
      ensures dataUrl.Some? ==>
        State() == ClearedMedia(old(State())).(uploadedFile := Some(FileToData(dataUrl.value, fileType)))
      ensures dataUrl.None? ==>
        State() == ClearedMedia(old(State())).(error := Some(FileDecodeMsg))
      ensures calls == old(calls)
    {
      HandleClearMedia();
      match dataUrl {
        case Some(url) =>
          SetUploadedFile(Some(FileToData(url, fileType)));
        case None =>
          SetError(Some(FileDecodeMsg));
      }
    }

    /** handleLogoSelect: only the logo slot changes, or only the error slot when the reader failed. */
    method HandleLogoSelect(fileType: string, dataUrl: Option<string>)
      requires Valid()
      modifies this
      ensures Valid()
      ensures dataUrl.Some? ==> State() == old(State()).(logoFile := Some(FileToData(dataUrl.value, fileType)))
      ensures dataUrl.None? ==> State() == old(State()).(error := Some(LogoDecodeMsg))
      ensures calls == old(calls)
    {
      match dataUrl {
        case Some(url) =>
          SetLogoFile(Some(FileToData(url, fileType)));
        case None =>
          SetError(Some(LogoDecodeMsg));
      }
    }

    /**
     * handleGenerate. Without an upload only the error slot changes and
     * nothing is sent. Otherwise the caption pipeline is reset and marked
     * busy, the analysis request is sent, the caption request is sent only if
     * the analysis returned, and the outcome is installed; whatever the
     * outcome, the busy marker and the loading message end cleared, and the
     * composite and its error stay cleared.
     */
    method HandleGenerate(analysisReply: Result<string, string>, quotesReply: GeminiService.QuotesReply)
      requires Valid()
      modifies this
      ensures Valid()
      ensures old(uploadedFile).None? ==>
        State() == old(State()).(error := Some(UploadFirstMsg)) && calls == old(calls)
      ensures old(uploadedFile).Some? ==>
        var media := old(uploadedFile).value;
        var busy := old(State()).(isLoading := true, error := None, quotes := None, generatedVisual := None,
                                  errorVisual := None, activeQuote := None);
        var analysis := GeminiService.AnalyzeImage(analysisReply);
        var outcome := CaptionOutcome(analysisReply, quotesReply);
        && calls == old(calls)
             + [PendingCall(AnalyzeCall(media.base64, media.mimeType), busy.(loadingMessage := AnalyzingMsg))]
             + (if analysis.Ok?
                then [PendingCall(QuotesCall(GeminiService.QuotesPromptInputs(analysis.value, old(theme), old(instructions))),
                                  busy.(loadingMessage := GeneratingMsg))]
                else [])
        && State() == busy.(
             isLoading := false, loadingMessage := "",
             quotes := if outcome.Ok? then Some(outcome.value) else None,
             activeQuote := if outcome.Ok? && |outcome.value| > 0 then Some(outcome.value[0]) else None,
             error := if outcome.Err? then Some(outcome.error) else None)
    {
      if uploadedFile.None? {
        SetError(Some(UploadFirstMsg));
        return;
      }
      var media := uploadedFile.value;
      BeginCaptions();
      // try
      FetchCaptions(media, analysisReply, quotesReply);
      // finally
      SetIsLoading(false);
      SetLoadingMessage("");
    }

    /** The resets handleGenerate makes before its first request: busy, and no error, captions or composite. */
    method BeginCaptions()
      modifies this
      ensures State() == old(State()).(isLoading := true, error := None, quotes := None, generatedVisual := None,
                                       errorVisual := None, activeQuote := None)
      ensures calls == old(calls)
    {
      SetIsLoading(true);
      SetError(None);
      SetQuotes(None);
      SetGeneratedVisual(None);
      SetErrorVisual(None);
      SetActiveQuote(None);
    }

    /**
     * The try block of handleGenerate: the analysis request, then the caption
     * request only if the analysis returned, and the captions and first
     * caption, or the message of the step that threw.
     */
    method FetchCaptions(media: UploadedFile, analysisReply: Result<string, string>, quotesReply: GeminiService.QuotesReply)
      modifies this
      ensures
        var analysis := GeminiService.AnalyzeImage(analysisReply);
        var outcome := CaptionOutcome(analysisReply, quotesReply);
        && calls == old(calls)
             + [PendingCall(AnalyzeCall(media.base64, media.mimeType), old(State()).(loadingMessage := AnalyzingMsg))]
             + (if analysis.Ok?
                then [PendingCall(QuotesCall(GeminiService.QuotesPromptInputs(analysis.value, old(theme), old(instructions))),
                                  old(State()).(loadingMessage := GeneratingMsg))]
                else [])
        && State() == old(State()).(
             loadingMessage := if analysis.Ok? then GeneratingMsg else AnalyzingMsg,
             quotes := if outcome.Ok? then Some(outcome.value) else old(quotes),
             activeQuote := if outcome.Ok? && |outcome.value| > 0 then Some(outcome.value[0]) else old(activeQuote),
             error := if outcome.Err? then Some(outcome.error) else old(error))
    {
      SetLoadingMessage(AnalyzingMsg);
      Send(AnalyzeCall(media.base64, media.mimeType));
      var description := GeminiService.AnalyzeImage(analysisReply);
      match description {
        case Err(message) =>
          SetError(Some(message));
        case Ok(text) =>
          SetLoadingMessage(GeneratingMsg);
          Send(QuotesCall(GeminiService.QuotesPromptInputs(text, theme, instructions)));
          var generatedQuotes := GeminiService.GenerateQuotes(quotesReply);
          match generatedQuotes {
            case Err(message) =>
              SetError(Some(message));
            case Ok(list) =>
              SetQuotes(Some(list));
              if |list| > 0 {
                SetActiveQuote(Some(list[0]));
              }
          }
      }
    }

    /**
     * handleCreateVisual. Without an upload, or for a video, only the
     * composition error slot changes and nothing is sent. Otherwise the
     * composition is marked busy with the caption's id, the request is sent,
     * and the PNG data URL of the returned image or the fixed message is
     * installed; the busy marker always ends cleared and the caption slots are
     * never touched.
     */
    method HandleCreateVisual(quote: QuoteOption, reply: Result<GeminiService.Response, string>)
      requires Valid()
      modifies this
      ensures Valid()
      ensures old(uploadedFile).None? || IsVideo(old(uploadedFile).value.mimeType) ==>
        State() == old(State()).(errorVisual := Some(ImageOnlyMsg)) && calls == old(calls)
      ensures old(uploadedFile).Some? && !IsVideo(old(uploadedFile).value.mimeType) ==>
        var media := old(uploadedFile).value;
        var request := GeminiService.CompositionRequest(
          media.base64, media.mimeType, quote.teks, old(placement), old(frame),
          if old(logoFile).Some? then Some(old(logoFile).value.base64) else None,
          if old(logoFile).Some? then Some(old(logoFile).value.mimeType) else None,
          old(logoPlacement), Some(old(brandText)));
        var outcome := GeminiService.ComposeOutcome(reply);
        && calls == old(calls)
             + [PendingCall(ComposeCall(request),
                            old(State()).(isCreatingVisual := Some(quote.id), generatedVisual := None, errorVisual := None))]
        && State() == old(State()).(
             isCreatingVisual := None,
             generatedVisual := if outcome.Ok? then Some(PngDataUrlPrefix + outcome.value) else None,
             errorVisual := if outcome.Err? then Some(outcome.error) else None)
    {
      if uploadedFile.None? || IsVideo(uploadedFile.value.mimeType) {
        SetErrorVisual(Some(ImageOnlyMsg));
        return;
      }
      var media := uploadedFile.value;
      SetIsCreatingVisual(Some(quote.id));
      SetGeneratedVisual(None);
      SetErrorVisual(None);
      // try
      ComposeVisual(media, quote, reply);
      // finally
      SetIsCreatingVisual(None);
    }

    /**
     * The try block of handleCreateVisual: the composition request built from
     * the current options and logo, then the PNG data URL of the returned
     * image, or the message the service threw.
     */
    method ComposeVisual(media: UploadedFile, quote: QuoteOption, reply: Result<GeminiService.Response, string>)
      modifies this
      ensures
        var request := GeminiService.CompositionRequest(
          media.base64, media.mimeType, quote.teks, old(placement), old(frame),
          if old(logoFile).Some? then Some(old(logoFile).value.base64) else None,
          if old(logoFile).Some? then Some(old(logoFile).value.mimeType) else None,
          old(logoPlacement), Some(old(brandText)));
        var outcome := GeminiService.ComposeOutcome(reply);
        && calls == old(calls) + [PendingCall(ComposeCall(request), old(State()))]
        && State() == old(State()).(
             generatedVisual := if outcome.Ok? then Some(PngDataUrlPrefix + outcome.value) else old(generatedVisual),
             errorVisual := if outcome.Err? then Some(outcome.error) else old(errorVisual))
    {
      var logoBase64 := if logoFile.Some? then Some(logoFile.value.base64) else None;
      var logoMimeType := if logoFile.Some? then Some(logoFile.value.mimeType) else None;
      var request, newImageData := GeminiService.CreateVisualWithQuote(
        media.base64, media.mimeType, quote.teks, placement, frame,
        logoBase64, logoMimeType, logoPlacement, Some(brandText), reply);
      Send(ComposeCall(request));
      match newImageData {
        case Ok(data) =>
          SetGeneratedVisual(Some(PngDataUrlPrefix + data));
        case Err(message) =>
          SetErrorVisual(Some(message));
      }
    }

    /** Choosing a caption from the current list only changes the active caption. */
    method SelectQuote(quote: QuoteOption)
      requires Valid()
      requires quotes.Some? && quote in quotes.value
      modifies this
      ensures Valid()
      ensures State() == old(State()).(activeQuote := Some(quote))
      ensures calls == old(calls)
    {
      SetActiveQuote(Some(quote));
    }
  }
}
