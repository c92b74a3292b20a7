# Motivational-caption studio: service wrappers and session state in Dafny

This project models the core of a browser front-end. The page sends an uploaded picture or video to a
generative-AI service, which writes three Indonesian motivational captions. It then asks the service to
paint one caption onto the picture. Branding options are a logo, a brand name, a frame and the text position.

The model has four modules:

- `Js` (js.dfy) models the JavaScript behaviour the core relies on. This covers `null`, thrown-or-returned
  outcomes, truthiness of strings, `||`, `startsWith`, and `split` on a one-character separator.
  The source never calls `join`; `Join` is only the reference inverse that the round-trip lemmas
  `JoinSplit` and `SplitJoin` use.
- `Types` (types.dfy) holds the closed option sets and records of types.ts.
- `GeminiService` (gemini_service.dfy) models services/geminiService.ts:
  - `analyzeImage` and `generateQuotes`, each with its fixed error message;
  - the three phrase tables;
  - the composition prompt and its ordered request parts, as a specification function and as the
    imperative `+=`/`push` construction proved equal to it;
  - the `for` loop that picks the first image part of the reply;
  - the catch that replaces every failure with one fixed message.
- `App` (app.dfy) models App.tsx:
  - `fileToData`, which splits a data URL at its commas;
  - a `Session` class with one field per `useState` slot and one setter method per slot;
  - the handlers built from those setters, with the same guards, resets, try/catch branches and `finally` cleanup.

Every handler states the whole new state as a change to the old snapshot (`State()`), which is also its
frame condition. It keeps the invariant `Valid()`:

- nothing is in flight between handlers;
- the active caption belongs to the current list;
- captions exist only beside an upload;
- a composite exists only for a current image upload, as a PNG data URL, and never beside a composition error.

A ghost log `calls` records each request handed to the service and the snapshot the page shows while it
is pending. The handler contracts use it to say when a request is and is not made, and in which order.

Remote replies are parameters. `Result<T, string>` is either the value the service returned or the
message of the error the SDK threw. The caption reply is a `QuotesReply`: the call threw, `JSON.parse`
threw, or a parsed value with or without `opsi_kutipan`. The file reader's output is `Option<string>`,
which is `None` when the reader failed.

## Model

| member | source | states |
|---|---|---|
| Js.Split | App.tsx:21 | `split(',')` always yields at least one field, and no field contains the separator |
| Js.JoinSplit | App.tsx:21 | joining the fields of a split with the separator gives back the original string |
| Js.SplitJoin | App.tsx:21 | splitting a join of separator-free fields gives back exactly those fields |
| Js.SplitPrefix | App.tsx:21 | a separator-free prefix is glued onto the first field of what follows it |
| App.FileToData | App.tsx:15-25 | the upload's preview is the whole data URL and its MIME type is the file's declared type; the payload never contains a comma, and it is empty when the URL has no comma |
| App.FileToDataPayload | App.tsx:21 | for `header,payload[,more…]`, the base64 payload is exactly the second comma-separated field |
| App.FileToDataAfterComma | App.tsx:19-22 | for the usual `data:<type>;base64,<payload>`, the payload is everything after the comma |
| GeminiService.AnalyzeImage | services/geminiService.ts:41-50 | the returned description is passed through; any SDK error becomes "Failed to analyze image with Gemini API." |
| GeminiService.QuotesPromptDefaults | services/geminiService.ts:63-67 | for every theme and instructions, each field on its own is written into the prompt as "Tidak ada" when it is empty and verbatim otherwise, and the description is embedded as given |
| GeminiService.QuotesPromptKeepsInputs | services/geminiService.ts:65-67 | a non-empty theme and non-empty instructions are written into the prompt verbatim |
| GeminiService.QuotesPromptInputs | services/geminiService.ts:63-67 | the DATA INPUT lines of the caption prompt; `QuotesPromptDefaults` gives its exact text for all four combinations of empty and non-empty theme and instructions, and the session sends it as the caption request |
| GeminiService.GenerateQuotes | services/geminiService.ts:82-104 | succeeds exactly when the parsed reply has `opsi_kutipan`, and then returns that list unchanged; a call failure, a parse failure or a missing key all give "Gagal menghasilkan kutipan. Silakan coba lagi." |
| GeminiService.PlacementPhrase | services/geminiService.ts:120-123 | every placement has a non-empty phrase ('at the top' / 'at the bottom'), so the fallback to 'at the bottom' never fires |
| GeminiService.FramePhrase | services/geminiService.ts:125-130 | the frame table has no entry exactly for 'tidak ada', and each of its entries is non-empty |
| GeminiService.LogoCorner | services/geminiService.ts:132-137 | every branding position names a corner; the golden prompts pin the phrases for all four positions, and `PhraseTablesInjective` shows they are distinct |
| GeminiService.PhraseTablesInjective | services/geminiService.ts:120-137 | distinct placements, frames and logo corners get distinct phrases |
| GeminiService.Branding | services/geminiService.ts:156-176 | exactly one of the four branding cases holds: logo and text, logo only, text only, or none; a logo counts only when both its data and its MIME type are non-empty, and the brand carried is the given text |
| GeminiService.EmptyBrandingIsAbsent | services/geminiService.ts:158-173 | empty brand text selects the same case as no brand text, and a logo missing either half selects the same case as no logo |
| GeminiService.CompositionPrompt | services/geminiService.ts:139-182 | the prompt as overlay sentence, frame segment, branding segment and quoted caption; `PromptFraming` proves how it opens and closes, the golden lemmas give its exact text, and `BuildCompositionRequest` proves the `+=` construction equals it |
| GeminiService.CompositionRequest | services/geminiService.ts:148-183 | the parts are the main image under its own MIME type, then the logo only in the logo cases, then the text prompt last; there are 3 parts with a logo and 2 without |
| GeminiService.PromptFraming | services/geminiService.ts:142-182 | every prompt starts with the overlay sentence naming the placement and ends with ` Text: "<caption>"` |
| GeminiService.GoldenElegantBottomNoBranding | services/geminiService.ts:139-182 | exact prompt for bottom placement, the elegant frame and empty brand text: no branding sentence |
| GeminiService.GoldenNoFrameLogoAndText | services/geminiService.ts:142-182 | exact prompt for top placement, no frame, and both a logo and a brand name |
| GeminiService.GoldenLogoOnly | services/geminiService.ts:142-182 | exact prompt for a logo with an empty brand name: the logo-only sentence |
| GeminiService.GoldenWatermark | services/geminiService.ts:142-182 | exact prompt for brand text with half a logo: the watermark sentence, and no logo |
| GeminiService.GoldenModernBottomLeftWatermark | services/geminiService.ts:142-182 | exact prompt for brand text with no logo, the modern frame and the bottom-left corner |
| GeminiService.BuildCompositionRequest | services/geminiService.ts:139-183 | the prompt built with `+=` and the parts built with `push` are exactly the specified request |
| GeminiService.OpeningInstructions | services/geminiService.ts:139-146 | the prompt so far is the overlay sentence, followed by the frame sentence only if the frame has a phrase |
| GeminiService.BrandingInstruction | services/geminiService.ts:148-176 | the logo is pushed after the main image only when there is a logo; the branding instruction is empty exactly in the no-branding case, and otherwise it is the sentence of the case at hand |
| GeminiService.FirstImageData | services/geminiService.ts:197-201 | the scan over the reply parts: the first part not stepped over decides, as an image or as a throw; `FirstImageDataIsFirst` and `FirstImageDataIgnoresLater` characterise it, and `FindImageData` is proved to compute it |
| GeminiService.FirstImageDataIsFirst | services/geminiService.ts:197-201 | the scan finds no image exactly when every part is text or a non-image inline type. Otherwise it ends at the earliest other part: that part's data if its inline MIME type starts with "image/", or the throw if the part has no MIME type |
| GeminiService.FirstImageDataIgnoresLater | services/geminiService.ts:197-201 | parts after the one that decides the scan are never looked at, and parts stepped over before it change nothing |
| GeminiService.FindImageData | services/geminiService.ts:197-201 | the `for … of` loop, with its early return and its throw on an untyped inline part, computes the scan |
| GeminiService.ComposeOutcome | services/geminiService.ts:186-208 | succeeds exactly when the call returned a first candidate whose scan finds an image, and then yields that part's data. Any failure yields "Gagal membuat visual dengan kutipan. Silakan coba lagi.", including an untyped inline part before the image |
| GeminiService.TextOnlyResponseDiscardsText | services/geminiService.ts:203-207 | a reply with only a text part fails with the fixed message; the returned text is not passed on |
| GeminiService.UntypedInlinePartFails | services/geminiService.ts:197-207 | an inline part without a MIME type ahead of an image part makes the composition fail with the fixed message; it does not skip to the image |
| GeminiService.CreateVisualWithQuote | services/geminiService.ts:107-209 | the request sent is the specified request, and the result is the outcome of the reply, with the try/catch replacing every thrown message |
| App.IsVideo | App.tsx:120 | a media type counts as video exactly when it starts with "video/"; this is the guard of `HandleCreateVisual` |
| App.ClearedMedia | App.tsx:49-59 | media, captions, active caption, composite, both errors, logo and brand text are cleared and the frame returns to 'tidak ada'; theme, instructions, placement, logo corner, loading state and composing marker are kept |
| App.CaptionOutcome | App.tsx:99-112 | an analysis failure ends with the analysis message and the caption result is never consulted; after a successful analysis the outcome is that of caption generation; every error is one of the two fixed service messages |
| App.Session.constructor | App.tsx:29-46 | every slot starts at its initial value, no request has been sent, and the invariant holds |
| App.Session.SetUploadedFile | App.tsx:29 | replaces only the upload slot |
| App.Session.SetTheme | App.tsx:30 | replaces only the theme, and keeps the invariant |
| App.Session.SetInstructions | App.tsx:31 | replaces only the instructions, and keeps the invariant |
| App.Session.SetQuotes | App.tsx:32 | replaces only the caption list |
| App.Session.SetIsLoading | App.tsx:33 | replaces only the loading flag |
| App.Session.SetLoadingMessage | App.tsx:34 | replaces only the loading message |
| App.Session.SetError | App.tsx:35 | replaces only the caption error, and keeps the invariant |
| App.Session.SetIsCreatingVisual | App.tsx:37 | replaces only the composing marker |
| App.Session.SetGeneratedVisual | App.tsx:38 | replaces only the composite |
| App.Session.SetErrorVisual | App.tsx:39 | replaces only the composition error |
| App.Session.SetPlacement | App.tsx:40 | replaces only the placement, and keeps the invariant |
| App.Session.SetFrame | App.tsx:41 | replaces only the frame, and keeps the invariant |
| App.Session.SetActiveQuote | App.tsx:42 | replaces only the active caption |
| App.Session.SetLogoFile | App.tsx:44 | replaces only the logo, and keeps the invariant |
| App.Session.SetLogoPlacement | App.tsx:45 | replaces only the logo corner, and keeps the invariant |
| App.Session.SetBrandText | App.tsx:46 | replaces only the brand text, and keeps the invariant |
| App.Session.Send | App.tsx:98-102 | appends the request, with the state shown while it is pending, to the request log, and changes no slot |
| App.Session.HandleClearMedia | App.tsx:49-59 | the new state is the cleared state; no request is made; the invariant is kept |
| App.Session.HandleClearLogo | App.tsx:61-63 | only the logo is cleared |
| App.Session.HandleFileSelect | App.tsx:65-74 | always the full clear first, then either the decoded file installed, or the fixed decode error with no upload |
| App.Session.HandleLogoSelect | App.tsx:76-84 | only the logo changes, or only the error changes when the reader failed |
| App.Session.HandleGenerate | App.tsx:86-117 | with no upload, only the error becomes "Silakan unggah gambar atau video terlebih dahulu." and no request is made. Otherwise the caption pipeline is reset and marked busy, and the analysis request is sent with the upload's data. The caption request follows only if the analysis returned, built from the description, the theme and the instructions. Then the captions and first caption, or the error, are installed. Loading ends false with an empty message. The composite and its error stay cleared; the options, upload and branding are untouched |
| App.Session.BeginCaptions | App.tsx:92-97 | busy, with no error, captions, composite, composition error or active caption; nothing else changes |
| App.Session.FetchCaptions | App.tsx:99-112 | the analysis request, then the caption request only after a successful analysis, and the list with its first element or the error message installed |
| App.Session.HandleCreateVisual | App.tsx:119-148 | with no upload, or with a video, only the composition error becomes "Fitur ini hanya tersedia untuk gambar." and no request is made. Otherwise exactly one request is sent, built from the current caption, options and logo, while the caption's id marks it busy. Afterwards the composite is `data:image/png;base64,` plus the image data, or the composition error is the message. The marker ends cleared, and the captions, the active caption and the caption error are untouched |
| App.Session.ComposeVisual | App.tsx:126-144 | the request built from the current options and logo is sent, and the PNG data URL or the error message is installed; nothing else changes |
| App.Session.SelectQuote | App.tsx:258 | choosing a caption from the current list changes only the active caption |

## Left out

- The SDK calls and the `API_KEY` check at module load are foreign network code. Their outcomes are the reply parameters.
- `JSON.parse`, `trim()` and the response schema are not modelled. The parse result is the abstract `QuotesReply`.
  A parsed `opsi_kutipan` is taken as a list of quotes, so a truthy non-list value is not represented.
- The constant prompt bodies are not modelled:
  - the analysis prompt;
  - the role, context, task and output-format paragraphs of the caption prompt.
  Only the caption prompt's DATA INPUT lines depend on the inputs, and `QuotesPromptInputs` models those.
- `FileReader` decoding is browser I/O. The reader's output (a data URL, or a failure) is a parameter.
- The `File` handle kept inside `UploadedFile` is not modelled, because nothing in the core reads it back.
- `split(',')[1]` is `undefined` when the URL has no comma; the model uses `""` instead. The only place the
  payload is tested is the truthiness of the logo data, and there `undefined` and `""` behave alike. The same
  value is also sent on: the source would send `data: undefined` to the analysis call (App.tsx:101) and in the
  main image part (services/geminiService.ts:148-153), where the model sends `""`. A data URL produced by
  `readAsDataURL` always contains a comma, so this case does not arise from the file reader.
- Overlapping handlers are not modelled; each handler runs to completion with its given outcomes. This
  includes a stale reply arriving after a new upload, and React's batching of renders: the intermediate
  states the page shows are captured only as the snapshots in the request log.
- Rendering, JSX and the presentational components are not modelled, apart from the handlers wired to the
  selectors and the caption cards.
- `console.error` logging is left out.
- The reply is assumed to have the shape `candidates[i].content.parts`, with every inline part carrying its
  `data`. An inline part can lack its MIME type, and the model covers that throw (`UntypedInlinePartFails`).
  A missing `content` or `parts`, or a missing `data` on an image part, is not represented.
- Thrown values that are not `Error` objects cannot occur. The model therefore has no
  'Terjadi kesalahan tidak dikenal.' or 'Gagal membuat visual.' fallback: every failure carries a message.
- A reply with no image part makes the inner `throw` at services/geminiService.ts:203 build a message that
  quotes the returned text. The catch at 205-207 replaces it with the fixed message, so the caller never
  sees that text (`TextOnlyResponseDiscardsText`).
- A new caption run clears an earlier composite and its composition error (App.tsx:95-96), so the two
  halves of the page are not independent (`App.Session.HandleGenerate`).
- App.Session.SelectQuote: requires the caption to be in the current list. On the page, only the cards of
  the current list can call it.
