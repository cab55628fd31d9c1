/** The application controller (App.tsx): the form state, the three
    ordered guards of `handleGenerate`, the reset before a run, the run
    itself (encode the selected files, call the scene service, watermark
    the result) and the single outcome it settles in, the
    `isGenerateDisabled` predicate, the payload split of `fileToImageData`,
    and the persisted API key.

    `handleGenerate` is taken as one sequential run. The browser's
    `FileReader` and graphics are parameters (`Browser`), and so is the
    SDK call the scene service makes. */
module App {
  import opened Types
  import opened JsString
  import GeminiService
  import Watermark

  const MissingApiKeyMessage := "Vui lòng nhập Google AI API Key của bạn để tiếp tục."
  const MissingCharacterMessage := "Vui lòng tải lên ảnh nhân vật."
  const MissingSceneMessage := "Vui lòng mô tả bối cảnh hoặc tải lên ảnh nền."
  const NoImageMessage := "AI không thể tạo hình ảnh. Vui lòng thử lại với một lời nhắc hoặc hình ảnh khác."
  const UnknownErrorMessage := "Đã xảy ra lỗi không xác định trong quá trình tạo ảnh."
  const ConversionFailedMessage := "Không thể chuyển đổi tệp thành base64."

  /** The message of a rejection that carries none: `FileReader` rejects
      with its error event, whose `message` is undefined. */
  const NoMessage := ""

  // ---------------------------------------------------------------------
  // fileToImageData

  /** What `FileReader.readAsDataURL` ends with: the data URL, or an error. */
  datatype ReadResult = Loaded(dataUrl: string) | ReadFailed

  /** The browser facilities the controller uses. */
  datatype Browser = Browser(readAsDataUrl: File -> ReadResult, graphics: Watermark.Graphics)

  /** `fileToImageData` once the read has ended: the second comma-separated
      field of the data URL is the payload, and it must be non-empty. */
  function FileToImageData(read: ReadResult, mimeType: string): (r: Result<ImageData, string>)
    ensures r.Success? ==> r.value.mimeType == mimeType && r.value.base64 != "" && ',' !in r.value.base64
    ensures read.ReadFailed? ==> r == Failure(NoMessage)
    ensures read.Loaded? && r.Failure? ==> r.error == ConversionFailedMessage
  {
    match read
    case ReadFailed => Failure(NoMessage)
    case Loaded(dataUrl) =>
      var fields := Split(dataUrl, ',');
      if |fields| > 1 && fields[1] != "" then Success(ImageData(fields[1], mimeType))
      else Failure(ConversionFailedMessage)
  }

  /** For a data URL `header,payload…` the payload is what follows the first
      comma up to the next one (or the end); an empty payload is refused. */
  lemma {:induction false} DataUrlPayload(header: string, payload: string, rest: string, mimeType: string)
    requires ',' !in header && ',' !in payload
    requires rest == [] || rest[0] == ','
    ensures FileToImageData(Loaded(header + [','] + payload + rest), mimeType)
            == if payload != "" then Success(ImageData(payload, mimeType))
               else Failure(ConversionFailedMessage)
  {
    var tail := [','] + payload + rest;
    assert header + [','] + payload + rest == header + tail;
    SplitPrefix(header, tail, ',');
    assert tail[1..] == payload + rest;
    SplitPrefix(payload, rest, ',');
    assert Split(rest, ',')[0] == [];
    assert payload + [] == payload;
  }

  /** A data URL without a comma has no payload. */
  lemma DataUrlWithoutComma(dataUrl: string, mimeType: string)
    requires ',' !in dataUrl
    ensures FileToImageData(Loaded(dataUrl), mimeType) == Failure(ConversionFailedMessage)
  {
    SplitJoin([dataUrl], ',');
  }

  /** `fileToImageData(file)` with the browser's reader. */
  function EncodeImage(file: File, browser: Browser): Result<ImageData, string> {
    FileToImageData(browser.readAsDataUrl(file), file.mimeType)
  }

  /** `file ? await fileToImageData(file) : undefined` */
  function EncodeOptional(file: Option<File>, browser: Browser): Result<Option<ImageData>, string> {
    match file
    case None => Success(None)
    case Some(f) =>
      match EncodeImage(f, browser)
      case Failure(m) => Failure(m)
      case Success(d) => Success(Some(d))
  }

  // ---------------------------------------------------------------------
  // The guards and the button

  /** The three guards of `handleGenerate`, in order: the first that fails
      gives its message. */
  function ValidationError(apiKey: string, hasCharacterImage: bool, scenePrompt: string,
                           hasSceneImage: bool): Option<string>
  {
    if apiKey == "" then Some(MissingApiKeyMessage)
    else if !hasCharacterImage then Some(MissingCharacterMessage)
    else if IsBlank(scenePrompt) && !hasSceneImage then Some(MissingSceneMessage)
    else None
  }

  /** The guards by case: the key error has priority over the image error,
      which has priority over the scene error, and a prompt of whitespace
      only counts as missing. */
  lemma GuardOrder(apiKey: string, hasCharacterImage: bool, scenePrompt: string, hasSceneImage: bool)
    ensures var g := ValidationError(apiKey, hasCharacterImage, scenePrompt, hasSceneImage);
      && (g == Some(MissingApiKeyMessage) <==> apiKey == "")
      && (g == Some(MissingCharacterMessage) <==> apiKey != "" && !hasCharacterImage)
      && (g == Some(MissingSceneMessage) <==>
            && apiKey != "" && hasCharacterImage && !hasSceneImage
            && forall i :: 0 <= i < |scenePrompt| ==> IsJsWhitespace(scenePrompt[i]))
      && (g == None <==>
            && apiKey != "" && hasCharacterImage
            && (hasSceneImage || exists i :: 0 <= i < |scenePrompt| && !IsJsWhitespace(scenePrompt[i])))
  {
    BlankIffAllWhitespace(scenePrompt);
  }

  // ---------------------------------------------------------------------
  // One run of the pipeline

  /** The encoded inputs of a run. */
  datatype EncodedInputs = EncodedInputs(character: ImageData, bike: Option<ImageData>,
                                         scene: Option<ImageData>)

  /** The three reads, in order; the first failure stops the run. */
  function EncodeInputs(character: File, bike: Option<File>, scene: Option<File>,
                        browser: Browser): Result<EncodedInputs, string>
  {
    match EncodeImage(character, browser)
    case Failure(m) => Failure(m)
    case Success(c) =>
      match EncodeOptional(bike, browser)
      case Failure(m) => Failure(m)
      case Success(b) =>
        match EncodeOptional(scene, browser)
        case Failure(m) => Failure(m)
        case Success(s) => Success(EncodedInputs(c, b, s))
  }

  /** How the body of the `try` ends: a watermarked image, the empty
      result, or a thrown error's message. */
  datatype RunOutcome = Generated(image: string) | NoImage | Threw(message: string)

  /** The outcome of the `try` body. An empty payload is falsy, so it is
      treated like a missing one. */
  function PipelineOutcome(apiKey: string, character: File, bike: Option<File>, scene: Option<File>,
                           scenePrompt: string, browser: Browser,
                           generateContent: GeminiService.Request -> GeminiService.SdkOutcome): RunOutcome
  {
    match EncodeInputs(character, bike, scene, browser)
    case Failure(m) => Threw(m)
    case Success(enc) =>
      match GeminiService.SceneOutcome(apiKey, enc.character, scenePrompt, enc.bike, enc.scene, generateContent)
      case Failure(e) => Threw(e.Message())
      case Success(result) =>
        if result.None? || result.value == "" then NoImage
        else
          match Watermark.WatermarkOutcome(result.value, browser.graphics)
          case Failure(m) => Threw(m)
          case Success(image) => Generated(image)
  }

  /** The request a run hands to the SDK: none when a read fails first. */
  function PipelineRequest(apiKey: string, character: File, bike: Option<File>, scene: Option<File>,
                           scenePrompt: string, browser: Browser): Option<GeminiService.Request>
  {
    match EncodeInputs(character, bike, scene, browser)
    case Failure(_) => None
    case Success(enc) =>
      if apiKey == "" then None
      else Some(GeminiService.SceneRequest(apiKey, enc.character, scenePrompt, enc.bike, enc.scene))
  }

  /** The body of the `try` in `handleGenerate`, await by await. */
  method RunPipeline(apiKey: string, character: File, bike: Option<File>, scene: Option<File>,
                     scenePrompt: string, browser: Browser,
                     generateContent: GeminiService.Request -> GeminiService.SdkOutcome)
    returns (outcome: RunOutcome, sent: Option<GeminiService.Request>)
    ensures outcome == PipelineOutcome(apiKey, character, bike, scene, scenePrompt, browser, generateContent)
    ensures sent == PipelineRequest(apiKey, character, bike, scene, scenePrompt, browser)
  {
    var characterData := EncodeImage(character, browser);
    if characterData.Failure? {
      return Threw(characterData.error), None;
    }
    var bikeData: Option<ImageData> := None;
    if bike.Some? {
      var d := EncodeImage(bike.value, browser);
      if d.Failure? {
        return Threw(d.error), None;
      }
      bikeData := Some(d.value);
    }
    var sceneData: Option<ImageData> := None;
    if scene.Some? {
      var d := EncodeImage(scene.value, browser);
      if d.Failure? {
        return Threw(d.error), None;
      }
      sceneData := Some(d.value);
    }
    var result;
    result, sent := GeminiService.GenerateScene(apiKey, characterData.value, scenePrompt, bikeData, sceneData,
                                                generateContent);
    if result.Failure? {
      return Threw(result.error.Message()), sent;
    }
    if result.value.Some? && result.value.value != "" {
      var watermarked := Watermark.AddWatermark(result.value.value, browser.graphics);
      if watermarked.Failure? {
        return Threw(watermarked.error), sent;
      }
      outcome := Generated(watermarked.value);
    } else {
      outcome := NoImage;
    }
  }

  /** The error the `catch` and the empty-result branch show: exactly the
      runs that produced no image show one, and it is never empty (a thrown
      error without a message shows the fallback). */
  function ErrorShown(outcome: RunOutcome): (shown: Option<string>)
    ensures shown.Some? <==> !outcome.Generated?
    ensures shown.Some? ==> shown.value != ""
    ensures outcome == NoImage ==> shown == Some(NoImageMessage)
    ensures outcome.Threw? && outcome.message != "" ==> shown == Some(outcome.message)
    ensures outcome.Threw? && outcome.message == "" ==> shown == Some(UnknownErrorMessage)
  {
    match outcome
    case Generated(_) => None
    case NoImage => Some(NoImageMessage)
    case Threw(message) => Some(if message != "" then message else UnknownErrorMessage)
  }

  /** A run that passed the guards never reports the service's missing-key
      error: the controller's own key guard has already caught it. */
  lemma GuardedRunHasKey(apiKey: string, character: File, bike: Option<File>, scene: Option<File>,
                         scenePrompt: string, browser: Browser,
                         generateContent: GeminiService.Request -> GeminiService.SdkOutcome)
    requires apiKey != ""
    ensures PipelineOutcome(apiKey, character, bike, scene, scenePrompt, browser, generateContent)
            != Threw(GeminiService.ServiceError.MissingKey.Message())
    ensures EncodeInputs(character, bike, scene, browser).Success? ==>
              PipelineRequest(apiKey, character, bike, scene, scenePrompt, browser).Some?
  {
  }

  /** A key the service rejects reaches the user as the invalid-key message. */
  lemma InvalidKeyIsReported(apiKey: string, character: File, bike: Option<File>, scene: Option<File>,
                             scenePrompt: string, browser: Browser,
                             generateContent: GeminiService.Request -> GeminiService.SdkOutcome,
                             message: string)
    requires EncodeInputs(character, bike, scene, browser).Success?
    requires PipelineRequest(apiKey, character, bike, scene, scenePrompt, browser).Some?
    requires generateContent(PipelineRequest(apiKey, character, bike, scene, scenePrompt, browser).value)
             == GeminiService.Threw(GeminiService.ErrorInstance(message))
    requires Contains(message, GeminiService.InvalidKeyMarker)
    ensures ErrorShown(PipelineOutcome(apiKey, character, bike, scene, scenePrompt, browser, generateContent))
            == Some(GeminiService.ServiceError.InvalidKey.Message())
  {
  }

  /** A response without an inline image in its first candidate reaches the
      user as the no-image message, and no image is shown. */
  lemma NoInlineImageIsReported(apiKey: string, character: File, bike: Option<File>, scene: Option<File>,
                                scenePrompt: string, browser: Browser,
                                generateContent: GeminiService.Request -> GeminiService.SdkOutcome,
                                response: GeminiService.Response)
    requires EncodeInputs(character, bike, scene, browser).Success?
    requires PipelineRequest(apiKey, character, bike, scene, scenePrompt, browser).Some?
    requires generateContent(PipelineRequest(apiKey, character, bike, scene, scenePrompt, browser).value)
             == GeminiService.Responded(response)
    requires forall j :: 0 <= j < |GeminiService.FirstCandidateParts(response)| ==>
               GeminiService.FirstCandidateParts(response)[j].inlineData.None?
    ensures PipelineOutcome(apiKey, character, bike, scene, scenePrompt, browser, generateContent) == NoImage
    ensures ErrorShown(NoImage) == Some(NoImageMessage)
  {
    GeminiService.FirstInlineDataNone(GeminiService.FirstCandidateParts(response));
  }

  /** A response whose first inline part has a non-empty payload, which the
      compositor can draw, ends in the watermarked image and no error. */
  lemma InlineImageIsWatermarked(apiKey: string, character: File, bike: Option<File>, scene: Option<File>,
                                 scenePrompt: string, browser: Browser,
                                 generateContent: GeminiService.Request -> GeminiService.SdkOutcome,
                                 response: GeminiService.Response, k: nat)
    requires EncodeInputs(character, bike, scene, browser).Success?
    requires PipelineRequest(apiKey, character, bike, scene, scenePrompt, browser).Some?
    requires generateContent(PipelineRequest(apiKey, character, bike, scene, scenePrompt, browser).value)
             == GeminiService.Responded(response)
    requires k < |GeminiService.FirstCandidateParts(response)|
    requires forall j :: 0 <= j < k ==> GeminiService.FirstCandidateParts(response)[j].inlineData.None?
    requires GeminiService.FirstCandidateParts(response)[k].inlineData.Some?
    requires GeminiService.FirstCandidateParts(response)[k].inlineData.value.data != ""
    requires Watermark.WatermarkOutcome(GeminiService.FirstCandidateParts(response)[k].inlineData.value.data,
                                        browser.graphics).Success?
    ensures PipelineOutcome(apiKey, character, bike, scene, scenePrompt, browser, generateContent)
            == Generated(Watermark.WatermarkOutcome(
                 GeminiService.FirstCandidateParts(response)[k].inlineData.value.data, browser.graphics).value)
  {
    GeminiService.FirstInlineDataFinds(GeminiService.FirstCandidateParts(response), k);
  }

  function FileOf(image: Option<ImageFile>): Option<File> {
    match image
    case None => None
    case Some(f) => Some(f.file)
  }

  // ---------------------------------------------------------------------
  // The component state

  class AppState {
    var apiKey: string
    var characterImage: Option<ImageFile>
    var bikeImage: Option<ImageFile>
    var sceneImage: Option<ImageFile>
    var scenePrompt: string
    var isLoading: bool
    var error: Option<string>
    var generatedImage: Option<string>
    /** The browser-storage entry that holds the saved API key. */
    var storedKey: Option<string>

    /** The first render, followed by the mount effect that adopts a
        stored key when it is non-empty. */
    constructor (stored: Option<string>)
      ensures storedKey == stored
      ensures apiKey == if stored.Some? && stored.value != "" then stored.value else ""
      ensures characterImage == None && bikeImage == None && sceneImage == None && scenePrompt == ""
      ensures !isLoading && error == None && generatedImage == None
    {
      apiKey := "";
      characterImage, bikeImage, sceneImage := None, None, None;
      scenePrompt := "";
      isLoading := false;
      error, generatedImage := None, None;
      storedKey := stored;
      new;
      LoadStoredKey();
    }

    /** The mount effect: a stored key is adopted only if it is non-empty. */
    method LoadStoredKey()
      modifies this`apiKey
      ensures apiKey == if storedKey.Some? && storedKey.value != "" then storedKey.value else old(apiKey)
    {
      var stored := storedKey;
      if stored.Some? && stored.value != "" {
        apiKey := stored.value;
      }
    }

    /** `handleApiKeySave`: store the key, then use it. */
    method SaveApiKey(key: string)
      modifies this`storedKey, this`apiKey
      ensures storedKey == Some(key) && apiKey == key
    {
      storedKey := Some(key);
      apiKey := key;
    }

    /** The guard verdict on the current form. */
    function Guard(): Option<string>
      reads this
    {
      ValidationError(apiKey, characterImage.Some?, scenePrompt, sceneImage.Some?)
    }

    /** `isGenerateDisabled` */
    predicate IsGenerateDisabled()
      reads this
    {
      characterImage.None? || (IsBlank(scenePrompt) && sceneImage.None?) || isLoading || apiKey == ""
    }

    /** The state once the guards have passed and before the first await. */
    method BeginRun()
      modifies this`isLoading, this`error, this`generatedImage
      ensures isLoading && error == None && generatedImage == None
    {
      isLoading := true;
      error := None;
      generatedImage := None;
    }

    /** The end of the `try`, the `catch` and the `finally`. */
    method Settle(outcome: RunOutcome)
      modifies this`isLoading, this`error, this`generatedImage
      ensures !isLoading
      ensures outcome.Generated? ==> generatedImage == Some(outcome.image) && error == old(error)
      ensures !outcome.Generated? ==> error == ErrorShown(outcome) && generatedImage == old(generatedImage)
    {
      match outcome {
        case Generated(image) =>
          generatedImage := Some(image);
        case NoImage =>
          error := Some(NoImageMessage);
        case Threw(message) =>
          error := Some(if message != "" then message else UnknownErrorMessage);
      }
      isLoading := false;
    }

    /** `handleGenerate`. `sent` is the request handed to the SDK, if any. */
    method Generate(browser: Browser, generateContent: GeminiService.Request -> GeminiService.SdkOutcome)
      returns (sent: Option<GeminiService.Request>)
      modifies this`isLoading, this`error, this`generatedImage
      ensures Guard().Some? ==>
        && error == Guard() && isLoading == old(isLoading) && generatedImage == old(generatedImage)
        && sent == None
      ensures Guard().None? ==>
        var outcome := PipelineOutcome(apiKey, characterImage.value.file, FileOf(bikeImage), FileOf(sceneImage),
                                       scenePrompt, browser, generateContent);
        && !isLoading
        && error == ErrorShown(outcome)
        && generatedImage == (if outcome.Generated? then Some(outcome.image) else None)
        && (error.Some? <==> generatedImage.None?)
        && sent == PipelineRequest(apiKey, characterImage.value.file, FileOf(bikeImage), FileOf(sceneImage),
                                   scenePrompt, browser)
    {
      if apiKey == "" {
        error := Some(MissingApiKeyMessage);
        return None;
      }
      if characterImage.None? {
        error := Some(MissingCharacterMessage);
        return None;
      }
      if IsBlank(scenePrompt) && sceneImage.None? {
        error := Some(MissingSceneMessage);
        return None;
      }
      BeginRun();
      var outcome;
      outcome, sent := RunPipeline(apiKey, characterImage.value.file, FileOf(bikeImage), FileOf(sceneImage),
                                   scenePrompt, browser, generateContent);
      Settle(outcome);
      assert error == ErrorShown(outcome);
      assert generatedImage == if outcome.Generated? then Some(outcome.image) else None;
    }
  }

  /** The button is disabled exactly when some guard would fail or a run is
      in flight; so a click on the enabled button always passes the guards. */
  lemma DisabledIffGuardFails(app: AppState)
    ensures app.IsGenerateDisabled() <==> app.isLoading || app.Guard().Some?
    ensures !app.IsGenerateDisabled() ==> app.Guard() == None && app.apiKey != ""
  {
  }
}
