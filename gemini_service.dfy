/** The scene generation client (services/geminiService.ts, `generateScene`):
    it checks the key, assembles the ordered request parts, picks one of
    three prompt templates, sends one request through the SDK and returns
    the payload of the first inline image of the first candidate, or maps
    the SDK's failure to one of two errors.

    The SDK call `ai.models.generateContent` is a parameter of type
    `Request -> SdkOutcome`: for a given request it either responds or
    throws. The prompt prose is represented by its template tag, the
    subject phrase and the user's scene text embedded in it. */
module GeminiService {
  import opened Types
  import opened JsString

  /** The model the request names. */
  const ModelName := "gemini-2.5-flash-image-preview"

  /** The substring of the SDK's error message that marks a rejected key. */
  const InvalidKeyMarker := "API key not valid"

  // ---------------------------------------------------------------------
  // Prompt templates

  /** Who is lifted out of the uploaded photos: `người` or `người và xe đạp`. */
  datatype Subject = Person | PersonAndBicycle

  /** Which images the subject comes from: `hình ảnh đầu tiên` or
      `hình ảnh đầu tiên và thứ hai`. */
  datatype SubjectImages = FirstImage | FirstAndSecondImages

  /** The three templates: composite into the supplied scene image (it
      names the subject and where it comes from), two photos into a scene
      described in words, or one photo into a scene described in words. */
  datatype Template =
    | Compositing(subject: Subject, subjectImages: SubjectImages)
    | TwoImages
    | SingleImage

  /** A prompt: its template and the user's scene text, which every
      template quotes verbatim. */
  datatype Prompt = Prompt(template: Template, scenePrompt: string)

  /** The template precedence: a scene image wins over everything;
      otherwise the bike image decides. */
  function SelectPrompt(hasBike: bool, hasScene: bool, scenePrompt: string): Prompt {
    if hasScene then
      Prompt(Compositing(if hasBike then PersonAndBicycle else Person,
                         if hasBike then FirstAndSecondImages else FirstImage),
             scenePrompt)
    else if hasBike then Prompt(TwoImages, scenePrompt)
    else Prompt(SingleImage, scenePrompt)
  }

  /** Selection is total and exclusive, follows the precedence, names the
      bicycle in the compositing subject exactly when a bike image is
      given, and always embeds the scene text unchanged. */
  lemma TemplatePrecedence(hasBike: bool, hasScene: bool, scenePrompt: string)
    ensures SelectPrompt(hasBike, hasScene, scenePrompt).scenePrompt == scenePrompt
    ensures SelectPrompt(hasBike, hasScene, scenePrompt).template.Compositing? <==> hasScene
    ensures SelectPrompt(hasBike, hasScene, scenePrompt).template == TwoImages <==> !hasScene && hasBike
    ensures SelectPrompt(hasBike, hasScene, scenePrompt).template == SingleImage <==> !hasScene && !hasBike
    ensures hasScene ==>
      SelectPrompt(hasBike, hasScene, scenePrompt).template ==
        (if hasBike then Compositing(PersonAndBicycle, FirstAndSecondImages)
         else Compositing(Person, FirstImage))
  {
  }

  /** With a scene image the scene text is only auxiliary: it changes the
      quoted text but never the template. */
  lemma SceneImageOverridesText(hasBike: bool, text1: string, text2: string)
    ensures SelectPrompt(hasBike, true, text1).template == SelectPrompt(hasBike, true, text2).template
  {
  }

  // ---------------------------------------------------------------------
  // The request

  datatype Modality = ImageModality | TextModality

  /** A content part of the request: an inline image or the prompt text. */
  datatype RequestPart = InlineImage(image: ImageData) | PromptText(prompt: Prompt)

  /** What one `generateContent` call carries: the key the client was built
      with, the model, the ordered parts and the response modalities. */
  datatype Request = Request(apiKey: string, model: string, parts: seq<RequestPart>,
                             modalities: seq<Modality>)

  /** The ordered parts: the character image, the bike image if given, the
      scene image if given, and the prompt last. */
  function RequestParts(characterImage: ImageData, bikeImage: Option<ImageData>,
                        sceneImage: Option<ImageData>, scenePrompt: string): seq<RequestPart>
  {
    [InlineImage(characterImage)]
    + (if bikeImage.Some? then [InlineImage(bikeImage.value)] else [])
    + (if sceneImage.Some? then [InlineImage(sceneImage.value)] else [])
    + [PromptText(SelectPrompt(bikeImage.Some?, sceneImage.Some?, scenePrompt))]
  }

  /** The request `generateScene` sends for a key and its inputs. */
  function SceneRequest(apiKey: string, characterImage: ImageData, scenePrompt: string,
                        bikeImage: Option<ImageData>, sceneImage: Option<ImageData>): Request
  {
    Request(apiKey, ModelName, RequestParts(characterImage, bikeImage, sceneImage, scenePrompt),
            [ImageModality, TextModality])
  }

  /** The layout of the parts: 2 + (bike ? 1 : 0) + (scene ? 1 : 0) of
      them, the character image first, the bike image next, the scene image
      right before the prompt, every part but the last an image, and the
      last the prompt. */
  lemma RequestPartsLayout(characterImage: ImageData, bikeImage: Option<ImageData>,
                           sceneImage: Option<ImageData>, scenePrompt: string)
    ensures var parts := RequestParts(characterImage, bikeImage, sceneImage, scenePrompt);
      && |parts| == 2 + (if bikeImage.Some? then 1 else 0) + (if sceneImage.Some? then 1 else 0)
      && parts[0] == InlineImage(characterImage)
      && (bikeImage.Some? ==> parts[1] == InlineImage(bikeImage.value))
      && (sceneImage.Some? ==> parts[|parts| - 2] == InlineImage(sceneImage.value))
      && (forall i :: 0 <= i < |parts| - 1 ==> parts[i].InlineImage?)
      && parts[|parts| - 1] == PromptText(SelectPrompt(bikeImage.Some?, sceneImage.Some?, scenePrompt))
  {
  }

  // ---------------------------------------------------------------------
  // The response

  /** An inline blob of a response part. */
  datatype Blob = Blob(data: string, mimeType: string)

  /** A response part may carry text, an inline blob, or both. A blob whose
      `data` is missing is represented with empty data. */
  datatype ResponsePart = ResponsePart(text: Option<string>, inlineData: Option<Blob>)

  datatype Content = Content(parts: Option<seq<ResponsePart>>)
  datatype Candidate = Candidate(content: Option<Content>)
  datatype Response = Response(candidates: Option<seq<Candidate>>)

  /** `response.candidates?.[0]?.content?.parts || []`: the parts of the
      first candidate, or none when any link of the chain is missing. */
  function FirstCandidateParts(response: Response): seq<ResponsePart> {
    match response.candidates
    case None => []
    case Some(candidates) =>
      if |candidates| == 0 then []
      else match candidates[0].content
        case None => []
        case Some(content) =>
          match content.parts
          case None => []
          case Some(parts) => parts
  }

  /** The payload of the first part that has inline data, if any. */
  function FirstInlineData(parts: seq<ResponsePart>): Option<string> {
    if parts == [] then None
    else if parts[0].inlineData.Some? then Some(parts[0].inlineData.value.data)
    else FirstInlineData(parts[1..])
  }

  /** The scan finds a payload exactly when some part is inline, and then
      it is the payload of the first such part: text parts before it are
      skipped and later parts are never looked at. */
  lemma {:induction false} FirstInlineDataFinds(parts: seq<ResponsePart>, k: nat)
    requires k < |parts| && parts[k].inlineData.Some?
    requires forall j :: 0 <= j < k ==> parts[j].inlineData.None?
    ensures FirstInlineData(parts) == Some(parts[k].inlineData.value.data)
  {
    if k > 0 {
      FirstInlineDataFinds(parts[1..], k - 1);
    }
  }

  /** No inline part, no payload; and the converse. */
  lemma {:induction false} FirstInlineDataNone(parts: seq<ResponsePart>)
    ensures FirstInlineData(parts).None? <==> forall j :: 0 <= j < |parts| ==> parts[j].inlineData.None?
  {
    if parts != [] {
      FirstInlineDataNone(parts[1..]);
      if parts[0].inlineData.None? {
        assert forall j :: 1 <= j < |parts| ==> parts[j].inlineData == parts[1..][j - 1].inlineData;
      }
    }
  }

  /** The `for … of` loop with its early return. */
  method FirstInlineImage(parts: seq<ResponsePart>) returns (data: Option<string>)
    ensures data == FirstInlineData(parts)
  {
    for i := 0 to |parts|
      invariant FirstInlineData(parts[i..]) == FirstInlineData(parts)
    {
      assert parts[i..][1..] == parts[i + 1..];
      if parts[i].inlineData.Some? {
        return Some(parts[i].inlineData.value.data);
      }
    }
    return None;
  }

  // ---------------------------------------------------------------------
  // Errors

  /** What the SDK call may throw: an `Error` with a message, or some other
      value. */
  datatype Thrown = ErrorInstance(message: string) | NonErrorValue

  /** The two behaviours of the SDK call. */
  datatype SdkOutcome = Responded(response: Response) | Threw(thrown: Thrown)

  /** The errors `generateScene` itself throws, with their messages. */
  datatype ServiceError = MissingKey | InvalidKey | GenerationFailed {
    function Message(): (m: string)
      ensures m != ""
    {
      match this
      case MissingKey => "API Key là bắt buộc."
      case InvalidKey => "API Key không hợp lệ. Vui lòng kiểm tra lại."
      case GenerationFailed => "Không thể tạo bối cảnh. API đã trả về lỗi."
    }
  }

  /** The catch block: an `Error` whose message mentions an invalid key
      becomes the invalid-key error, anything else the generic one. */
  function TranslateError(thrown: Thrown): (e: ServiceError)
    ensures e != MissingKey
    ensures e == InvalidKey <==> thrown.ErrorInstance? && Contains(thrown.message, InvalidKeyMarker)
  {
    if thrown.ErrorInstance? && Contains(thrown.message, InvalidKeyMarker) then InvalidKey
    else GenerationFailed
  }

  // ---------------------------------------------------------------------
  // generateScene

  /** What `generateScene` resolves to (`Success`, holding the payload or
      null) or throws (`Failure`). */
  function SceneOutcome(apiKey: string, characterImage: ImageData, scenePrompt: string,
                        bikeImage: Option<ImageData>, sceneImage: Option<ImageData>,
                        generateContent: Request -> SdkOutcome): Result<Option<string>, ServiceError>
  {
    if apiKey == "" then Failure(MissingKey)
    else
      match generateContent(SceneRequest(apiKey, characterImage, scenePrompt, bikeImage, sceneImage))
      case Threw(thrown) => Failure(TranslateError(thrown))
      case Responded(response) => Success(FirstInlineData(FirstCandidateParts(response)))
  }

  /** `generateScene`. `sent` is the request handed to the SDK, if any. */
  method GenerateScene(apiKey: string, characterImage: ImageData, scenePrompt: string,
                       bikeImage: Option<ImageData>, sceneImage: Option<ImageData>,
                       generateContent: Request -> SdkOutcome)
    returns (result: Result<Option<string>, ServiceError>, sent: Option<Request>)
    ensures sent == if apiKey == "" then None
                    else Some(SceneRequest(apiKey, characterImage, scenePrompt, bikeImage, sceneImage))
    ensures result == SceneOutcome(apiKey, characterImage, scenePrompt, bikeImage, sceneImage, generateContent)
  {
    if apiKey == "" {
      return Failure(MissingKey), None;
    }
    var prompt: Prompt;
    var parts := [InlineImage(characterImage)];
    if bikeImage.Some? {
      parts := parts + [InlineImage(bikeImage.value)];
    }
    if sceneImage.Some? {
      parts := parts + [InlineImage(sceneImage.value)];
      var subject := if bikeImage.Some? then PersonAndBicycle else Person;
      var subjectImages := if bikeImage.Some? then FirstAndSecondImages else FirstImage;
      prompt := Prompt(Compositing(subject, subjectImages), scenePrompt);
    } else if bikeImage.Some? {
      prompt := Prompt(TwoImages, scenePrompt);
    } else {
      prompt := Prompt(SingleImage, scenePrompt);
    }
    assert prompt == SelectPrompt(bikeImage.Some?, sceneImage.Some?, scenePrompt);
    parts := parts + [PromptText(prompt)];
    assert parts == RequestParts(characterImage, bikeImage, sceneImage, scenePrompt);
    var request := Request(apiKey, ModelName, parts, [ImageModality, TextModality]);
    sent := Some(request);
    match generateContent(request) {
      case Threw(thrown) =>
        result := Failure(TranslateError(thrown));
      case Responded(response) =>
        var data := FirstInlineImage(FirstCandidateParts(response));
        result := Success(data);
    }
  }

  /** An empty key fails with the missing-key error whatever the SDK would
      do: no request is made. */
  lemma EmptyKeyRejectedBeforeRequest(characterImage: ImageData, scenePrompt: string,
                                      bikeImage: Option<ImageData>, sceneImage: Option<ImageData>,
                                      generateContent: Request -> SdkOutcome)
    ensures SceneOutcome("", characterImage, scenePrompt, bikeImage, sceneImage, generateContent)
            == Failure(MissingKey)
  {
  }

  /** With a key, `generateScene` fails exactly when the SDK throws, and
      then only with one of the two translated errors. */
  lemma FailuresAreTranslated(apiKey: string, characterImage: ImageData, scenePrompt: string,
                              bikeImage: Option<ImageData>, sceneImage: Option<ImageData>,
                              generateContent: Request -> SdkOutcome)
    requires apiKey != ""
    ensures var r := SceneOutcome(apiKey, characterImage, scenePrompt, bikeImage, sceneImage, generateContent);
      && (r.Failure? <==> generateContent(SceneRequest(apiKey, characterImage, scenePrompt, bikeImage, sceneImage)).Threw?)
      && (r.Failure? ==> r.error == InvalidKey || r.error == GenerationFailed)
  {
  }
}
