# Bike-scene generator: controller and scene service, modelled in Dafny

The application lets a user upload a photo of a person (optionally a
separate photo of a bicycle), describe a scene in words or upload a scene
photo, and get back an AI-composited image with a caption watermark. This
project models its two files with decision logic:

- **The scene service** (`services/geminiService.ts`, `generateScene`),
  module `GeminiService` in `gemini_service.dfy`. It rejects an empty key.
  It builds the ordered request parts: character image, optional bike
  image, optional scene image, prompt. It picks one of three prompt
  templates by a fixed precedence. It scans the first candidate of the
  response for the first inline image. It maps any SDK failure to one of
  two errors. The SDK call `ai.models.generateContent` is a parameter of
  type `Request -> SdkOutcome`: it either responds or throws. A prompt is
  its template tag, its subject phrase and the quoted scene text, not the
  Vietnamese prose.
- **The application controller** (`App.tsx`), module `App` in `app.dfy`.
  The class `AppState` holds the component state (`apiKey`, the three
  image selections, `scenePrompt`, `isLoading`, `error`, `generatedImage`)
  and the stored key. `Generate` is `handleGenerate`: three ordered guards,
  the reset, one run of the pipeline, and one of two outcomes.
  `IsGenerateDisabled` is the button predicate, and `FileToImageData` is
  the data-URL payload split. The watermark step of `App.tsx`
  (`addWatermark`) is module `Watermark` in `watermark.dfy`; only its
  integer geometry is kept.
- `types.dfy` holds the shared value shapes (`ImageData` of `types.ts`,
  `Option`, `Result`). `js_string.dfy` models the JavaScript string
  operations the core relies on: `trim` (with ECMAScript's whitespace set),
  `split` on one character, and `includes`.

Browser services are parameters. `FileReader.readAsDataURL`, image
decoding, the 2D canvas context and `toDataURL` are fields of `Browser` and
`Graphics`. Browser storage is the field `storedKey`.

Each method that the source writes step by step (`GenerateScene`,
`FirstInlineImage`, `AddWatermark`, `RunPipeline`, `AppState.Generate`) is
proved against a specification function (`SceneOutcome`, `FirstInlineData`,
`WatermarkOutcome`, `PipelineOutcome`, `ErrorShown`). The lemmas state the
promised properties of those functions.

## Model

| member | source | states |
|---|---|---|
| `JsString.TrimStart` | App.tsx:101 | the result is the suffix of the input left after removing leading whitespace: it does not start with whitespace, and everything removed is whitespace |
| `JsString.TrimEnd` | App.tsx:101 | the result is the prefix left after removing trailing whitespace: it does not end with whitespace, and everything removed is whitespace |
| `JsString.BlankIffAllWhitespace` | App.tsx:101 | `!s.trim()` holds exactly when every character of `s` is whitespace, so a whitespace-only prompt counts as missing |
| `JsString.Split` | App.tsx:72 | `split(',')` yields at least one field, and no field contains the separator |
| `JsString.JoinSplit` | App.tsx:72 | joining the fields of a split with the separator gives back the original string |
| `JsString.SplitJoin` | App.tsx:72 | splitting a join of separator-free fields gives back those fields, so split and join are inverse |
| `JsString.SplitPrefix` | App.tsx:72 | a separator-free prefix becomes the start of the first field of what follows it |
| `GeminiService.TemplatePrecedence` | services/geminiService.ts:35-82 | template choice is total and exclusive. A scene image gives the compositing template. Otherwise a bike image gives the two-image template, and otherwise the single-image template. The compositing subject is "person and bicycle" from "first and second" images exactly when a bike image is present, else "person" from "first". The scene text is embedded unchanged in every template |
| `GeminiService.SceneImageOverridesText` | services/geminiService.ts:35-56 | with a scene image present, changing the scene text never changes the chosen template |
| `GeminiService.RequestPartsLayout` | services/geminiService.ts:19-84 | the parts number 2 + (bike ? 1 : 0) + (scene ? 1 : 0). The character image is first, then the bike image if present, then the scene image just before the prompt. Every part but the last is an image, and the last is the selected prompt |
| `GeminiService.FirstInlineDataFinds` | services/geminiService.ts:95-101 | if part k is the first part with inline data, the scan returns k's payload, skipping earlier text parts |
| `GeminiService.FirstInlineDataNone` | services/geminiService.ts:95-101 | the scan returns null exactly when no part has inline data |
| `GeminiService.FirstInlineImage` | services/geminiService.ts:95-101 | the loop with its early return computes the first-inline-payload scan |
| `GeminiService.ServiceError.Message` | services/geminiService.ts:103-110 | every error the service throws has a non-empty message |
| `GeminiService.TranslateError` | services/geminiService.ts:103-110 | a failure becomes the invalid-key error exactly when it is an `Error` whose message contains "API key not valid"; every other failure becomes the generic error; the missing-key error never comes out of this stage |
| `GeminiService.GenerateScene` | services/geminiService.ts:4-111 | with an empty key it fails with the missing-key error and sends nothing. Otherwise it sends exactly one request (the key, the model, the ordered parts, image and text modalities), and its result is the translated failure or the first-candidate scan |
| `GeminiService.EmptyKeyRejectedBeforeRequest` | services/geminiService.ts:11-14 | with an empty key the outcome is the missing-key error whatever the SDK would do |
| `GeminiService.FailuresAreTranslated` | services/geminiService.ts:86-110 | with a key, the service fails exactly when the SDK call throws, and then only with the invalid-key or the generic error |
| `Watermark.FontSize` | App.tsx:27 | the font size is `max(16, floor(width / 45))`: at least 16 and at least width / 45, and equal to one of them |
| `Watermark.WatermarkGeometry` | App.tsx:14-36 | the canvas has the image's width and height. The image is drawn at the origin first. The caption is drawn once, at font size at least 16 (width / 45 from width 720 on, 16 below 765), anchored at (width - padding, height - padding) with padding equal to the font size |
| `Watermark.AddWatermark` | App.tsx:10-43 | decode failure rejects with the load message, a missing 2D context with the context message; otherwise the result is the PNG encoding of the watermarked canvas |
| `App.FileToImageData` | App.tsx:68-82 | a read error always fails, with no message; a loaded data URL fails only with the conversion message; on success the payload is non-empty, contains no comma and carries the file's MIME type |
| `App.DataUrlPayload` | App.tsx:72-77 | for a data URL `header,payload…` the payload is the second comma-separated field, and an empty one is refused with the conversion message |
| `App.DataUrlWithoutComma` | App.tsx:72-77 | a data URL without a comma has no second field and is refused with the conversion message |
| `App.GuardOrder` | App.tsx:93-104 | the key error comes first, then the character-image error, then the scene error (a whitespace-only prompt and no scene image); all guards pass exactly when there is a key, a character image, and a scene image or a non-whitespace prompt |
| `App.RunPipeline` | App.tsx:110-122 | the reads, the service call and the watermark run in order, and the first failure ends the run with its message. An empty or missing payload ends in the empty result. The request sent to the SDK is the one built from the encoded inputs, and none is sent when a read fails |
| `App.ErrorShown` | App.tsx:117-124 | exactly the runs that produced no image show an error, and it is never empty: the empty result shows the "AI could not create an image" message, a thrown message is shown as is, and a thrown error without a message shows the fallback |
| `App.GuardedRunHasKey` | App.tsx:93-115 | a run that passed the key guard never ends in the service's missing-key error, and once the reads succeed it always sends a request |
| `App.InvalidKeyIsReported` | App.tsx:115-124 | an SDK error mentioning "API key not valid" reaches the user as the invalid-key message |
| `App.NoInlineImageIsReported` | App.tsx:117-122 | a response whose first candidate has no inline part ends in the empty result, shown as the "AI could not create an image" message |
| `App.InlineImageIsWatermarked` | App.tsx:117-119 | a first inline part with a non-empty payload that the compositor can draw ends in the watermarked image |
| `App.AppState.constructor` | App.tsx:47-61 | the initial state is empty, not loading, with no error and no image; a stored key is adopted only if non-empty |
| `App.AppState.LoadStoredKey` | App.tsx:56-61 | a stored key is adopted only if it is present and non-empty; otherwise the key is unchanged |
| `App.AppState.SaveApiKey` | App.tsx:63-66 | saving stores the key and sets `apiKey` to that same value |
| `App.AppState.BeginRun` | App.tsx:106-108 | once the guards pass and before any pipeline step, `isLoading` is true and `error` and `generatedImage` are null |
| `App.AppState.Settle` | App.tsx:117-127 | `isLoading` ends false; a generated image is stored with `error` left as it was; any other outcome sets the shown error with `generatedImage` left as it was |
| `App.AppState.Generate` | App.tsx:92-128 | if a guard fails, only `error` changes, to that guard's message: loading and image stay as they were, and no request is sent. Otherwise `isLoading` ends false, and exactly one of `error` and `generatedImage` is set, as the run's outcome dictates |
| `App.DisabledIffGuardFails` | App.tsx:130 | the button is disabled exactly when a run is in flight or some guard would fail; so when it is enabled, all three guards pass |

## Left out

- React rendering and the presentational components, including the drag-and-drop `image/` check and the key mask; they hold no core logic.
- `handleFileSelect` and the text-area handler: they only assign the selection fields (and create a preview URL through `URL.createObjectURL`); the fields of `AppState` are plain mutable fields a caller assigns.
- The race between overlapping runs: `handleGenerate` is one atomic sequential run, and the state between its awaits is visible only as `BeginRun`'s postcondition.
- The `@google/genai` network call and the client construction: the SDK is the parameter `generateContent`. `console.error` logging is left out.
- Canvas pixels, fill colour, shadow, font family and the PNG encoding: only the canvas size and the drawing operations with their integer geometry are modelled, and `toDataURL` is a parameter.
- `FileReader` and browser storage internals: the reader is a parameter returning the data URL or an error, and storage is the single field `storedKey`. The `onloadend` callback's failure after a read error is left out; the promise is already rejected by then.
- The Vietnamese prompt prose: a prompt is its template tag, subject phrase, source images and quoted scene text.
- `GeminiService.ResponsePart`: an inline part whose `data` field is missing is represented with empty data. Both are falsy in `App.tsx`, so the controller treats them alike.

## Notes on behaviour

- The guards run before the reset (App.tsx:93-108). A failing guard only
  sets `error` and keeps any previous `generatedImage`; the reset of
  `isLoading`, `error` and `generatedImage` happens only once all three
  guards pass (`AppState.Generate`). Through the interface this path is
  unreachable: the button is disabled whenever a guard would fail
  (`DisabledIffGuardFails`).
- A file read error carries no message (App.tsx:79). The reader rejects
  with its error event, whose `message` is undefined, so the controller
  shows the generic fallback (App.tsx:124; `FileToImageData`,
  `ErrorShown`), not the conversion message of App.tsx:76.
- A compositing failure shows its own message (App.tsx:19, 40): the
  load-failure or missing-context message reaches `error` as is, since it
  is non-empty (App.tsx:124; `RunPipeline`, `ErrorShown`).
