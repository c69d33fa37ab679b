/** The service layer between the forms and the hosted generative-AI SDK. Each exported
    operation first checks that an API key is configured, then shapes one request; the SDK's
    answer (or what it throws) is an input, and the operation says what it passes on.

    An operation's outcome is a `Call`: `request` is the request handed to the SDK (`None` when
    no SDK call was made) and `result` is what the operation returns or throws. */
module GeminiService {
  import opened Common
  import Text
  import Constants

  datatype Call<+Req, +T> = Call(request: Option<Req>, result: Result<T, Thrown>)

  /** One part of a multimodal message. */
  datatype Part = InlineData(mimeType: string, data: string) | TextPart(text: string)

  /** One conversation turn, `{ role, parts }`. */
  datatype Turn = Turn(role: Role, parts: seq<Part>)

  datatype GeneratedImage = GeneratedImage(imageBytes: string)

  /** The part of an image-generation response that is read: `generatedImages`, possibly absent. */
  datatype ImagesResponse = ImagesResponse(generatedImages: Option<seq<GeneratedImage>>)

  datatype ImageRequest = ImageRequest(model: string, prompt: string, numberOfImages: int, outputMimeType: string)

  /** A single-turn request whose contents are one list of parts. */
  datatype MediaRequest = MediaRequest(model: string, parts: seq<Part>)

  /** `ai.chats.create({ model, config })`. */
  datatype ChatRequest = ChatRequest(model: string, systemInstruction: Option<string>)

  /** A multi-turn request; `systemInstruction` is `None` when the config is left out. */
  datatype TurnsRequest = TurnsRequest(model: string, contents: seq<Turn>, systemInstruction: Option<string>)

  /** A prompt sent with the Google Search tool enabled. */
  datatype SearchRequest = SearchRequest(model: string, contents: string, googleSearch: bool)

  const API_KEY_MISSING := "API Key for Gemini is not configured. Please set the API_KEY environment variable."
  const API_KEY_INVALID := "API Key is invalid or missing. Please check your configuration."
  const GROUNDING_FAILED :=
    "Failed to use Google Search grounding. The model may not support it or the query was problematic."
  const JPEG := "image/jpeg"

  /** `ensureApiKey`: throws exactly when the key is undefined or empty. */
  function EnsureApiKey(apiKey: Option<string>): (r: Option<Thrown>)
    ensures r.Some? <==> apiKey.None? || apiKey.value == ""
    ensures r.Some? ==> r.value == Error(API_KEY_MISSING)
  {
    if Truthy(apiKey) then None else Some(Error(API_KEY_MISSING))
  }

  /** `Math.max(1, Math.min(n, 4))`. */
  function ClampImageCount(n: int): (c: int)
    ensures 1 <= c <= 4
    ensures 1 <= n <= 4 ==> c == n
    ensures n < 1 ==> c == 1
    ensures n > 4 ==> c == 4
  {
    var m := if n < 4 then n else 4;
    if 1 < m then m else 1
  }

  /** The image bytes of each generated image, in order. */
  function ImageBytes(images: seq<GeneratedImage>): (r: seq<string>)
    ensures |r| == |images|
    ensures forall i :: 0 <= i < |r| ==> r[i] == images[i].imageBytes
  {
    if images == [] then [] else [images[0].imageBytes] + ImageBytes(images[1..])
  }

  /** What `generateImageFromText` returns for a response: `[]` when there are no generated
      images, otherwise one result per image. */
  function ImagesOf(response: ImagesResponse): (r: seq<string>)
    ensures response.generatedImages.None? ==> r == []
    ensures response.generatedImages.Some? ==> r == ImageBytes(response.generatedImages.value)
  {
    match response.generatedImages
    case Some(images) => if |images| > 0 then ImageBytes(images) else []
    case None => []
  }

  /** An error that mentions `API_KEY` is replaced by a fixed message; anything else is
      rethrown as it is. */
  function RewriteImageError(e: Thrown): (r: Thrown)
    ensures e.Error? && Text.Contains(e.message, "API_KEY") ==> r == Error(API_KEY_INVALID)
    ensures !(e.Error? && Text.Contains(e.message, "API_KEY")) ==> r == e
  {
    if e.Error? && Text.Contains(e.message, "API_KEY") then Error(API_KEY_INVALID) else e
  }

  /** A search error that mentions `grounding` is replaced by a fixed message; anything else is
      rethrown as it is. */
  function RewriteSearchError(e: Thrown): (r: Thrown)
    ensures e.Error? && Text.Contains(e.message, "grounding") ==> r == Error(GROUNDING_FAILED)
    ensures !(e.Error? && Text.Contains(e.message, "grounding")) ==> r == e
  {
    if e.Error? && Text.Contains(e.message, "grounding") then Error(GROUNDING_FAILED) else e
  }

  /** Any error whose message has `API_KEY` somewhere in it gets the fixed message. */
  lemma ApiKeyErrorsRewritten(before: string, after: string)
    ensures RewriteImageError(Error(before + "API_KEY" + after)) == Error(API_KEY_INVALID)
  {
    Text.ContainsInfix(before, "API_KEY", after);
  }

  /** Any search error whose message has `grounding` somewhere in it gets the fixed message. */
  lemma GroundingErrorsRewritten(before: string, after: string)
    ensures RewriteSearchError(Error(before + "grounding" + after)) == Error(GROUNDING_FAILED)
  {
    Text.ContainsInfix(before, "grounding", after);
  }

  /** `generateImageFromText`. */
  function GenerateImageFromText(apiKey: Option<string>, prompt: string, numberOfImages: int,
                                 reply: Reply<ImagesResponse>): (c: Call<ImageRequest, seq<string>>)
    ensures c.request.None? <==> EnsureApiKey(apiKey).Some?
    ensures c.request.None? ==> c.result == Failure(Error(API_KEY_MISSING))
    ensures c.request.Some? ==>
              c.request.value == ImageRequest(Constants.GEMINI_IMAGE_GEN_MODEL, prompt,
                                              ClampImageCount(numberOfImages), JPEG)
    ensures c.request.Some? && reply.Replied? ==> c.result == Success(ImagesOf(reply.value))
    ensures c.request.Some? && reply.Threw? ==> c.result == Failure(RewriteImageError(reply.thrown))
  {
    match EnsureApiKey(apiKey)
    case Some(e) => Call(None, Failure(e))
    case None =>
      var request := ImageRequest(Constants.GEMINI_IMAGE_GEN_MODEL, prompt, ClampImageCount(numberOfImages), JPEG);
      match reply
      case Replied(response) => Call(Some(request), Success(ImagesOf(response)))
      case Threw(e) => Call(Some(request), Failure(RewriteImageError(e)))
  }

  /** The shared body of `getTextFromImage` and `getTextFromVideo`: the inline media part then
      the prompt go to the text model, the response text is passed on and errors are rethrown
      unchanged. */
  function DescribeMedia(apiKey: Option<string>, data: string, mimeType: string, prompt: string,
                         reply: Reply<string>): (c: Call<MediaRequest, string>)
    ensures c.request.None? <==> EnsureApiKey(apiKey).Some?
    ensures c.request.None? ==> c.result == Failure(Error(API_KEY_MISSING))
    ensures c.request.Some? ==>
              c.request.value == MediaRequest(Constants.GEMINI_TEXT_MODEL, [InlineData(mimeType, data), TextPart(prompt)])
    ensures c.request.Some? ==> c.result == match reply
                                            case Replied(text) => Success(text)
                                            case Threw(e) => Failure(e)
  {
    match EnsureApiKey(apiKey)
    case Some(e) => Call(None, Failure(e))
    case None =>
      var request := MediaRequest(Constants.GEMINI_TEXT_MODEL, [InlineData(mimeType, data), TextPart(prompt)]);
      match reply
      case Replied(text) => Call(Some(request), Success(text))
      case Threw(e) => Call(Some(request), Failure(e))
  }

  /** `getTextFromImage`: the image inline, then the prompt. */
  function GetTextFromImage(apiKey: Option<string>, imageBase64: string, mimeType: string, prompt: string,
                            reply: Reply<string>): (c: Call<MediaRequest, string>)
    ensures c == DescribeMedia(apiKey, imageBase64, mimeType, prompt, reply)
  {
    DescribeMedia(apiKey, imageBase64, mimeType, prompt, reply)
  }

  /** `getTextFromVideo`, which builds the same request as `getTextFromImage` around the
      video's data. */
  function GetTextFromVideo(apiKey: Option<string>, videoBase64: string, mimeType: string, prompt: string,
                            reply: Reply<string>): (c: Call<MediaRequest, string>)
    ensures c == DescribeMedia(apiKey, videoBase64, mimeType, prompt, reply)
  {
    DescribeMedia(apiKey, videoBase64, mimeType, prompt, reply)
  }

  /** The system instruction as it reaches the config: only when it is non-empty. */
  function InstructionConfig(systemInstruction: Option<string>): (r: Option<string>)
    ensures r.Some? <==> Truthy(systemInstruction)
    ensures r.Some? ==> r == systemInstruction
  {
    if Truthy(systemInstruction) then systemInstruction else None
  }

  /** `createChat`. */
  function CreateChat(apiKey: Option<string>, systemInstruction: Option<string>): (r: Result<ChatRequest, Thrown>)
    ensures r.Failure? <==> EnsureApiKey(apiKey).Some?
    ensures r.Failure? ==> r.error == Error(API_KEY_MISSING)
    ensures r.Success? ==> r.value.model == Constants.GEMINI_TEXT_MODEL
    ensures r.Success? ==> (r.value.systemInstruction.Some? <==> Truthy(systemInstruction))
    ensures r.Success? && r.value.systemInstruction.Some? ==> r.value.systemInstruction == systemInstruction
  {
    match EnsureApiKey(apiKey)
    case Some(e) => Failure(e)
    case None => Success(ChatRequest(Constants.GEMINI_TEXT_MODEL, InstructionConfig(systemInstruction)))
  }

  /** The contents of a chat request: the history as it is, then one user turn. */
  function ChatContents(history: seq<Turn>, newMessage: string): (contents: seq<Turn>)
    ensures |contents| == |history| + 1
    ensures contents[..|history|] == history
    ensures contents[|history|] == Turn(User, [TextPart(newMessage)])
  {
    history + [Turn(User, [TextPart(newMessage)])]
  }

  /** `generateChatMessage`; the response is passed on as it is. */
  function GenerateChatMessage<R>(apiKey: Option<string>, history: seq<Turn>, newMessage: string,
                                  systemInstruction: Option<string>, reply: Reply<R>): (c: Call<TurnsRequest, R>)
    ensures c.request.None? <==> EnsureApiKey(apiKey).Some?
    ensures c.request.None? ==> c.result == Failure(Error(API_KEY_MISSING))
    ensures c.request.Some? ==> c.request.value.model == Constants.GEMINI_TEXT_MODEL
    ensures c.request.Some? ==> c.request.value.contents == ChatContents(history, newMessage)
    ensures c.request.Some? ==> (c.request.value.systemInstruction.Some? <==> Truthy(systemInstruction))
    ensures c.request.Some? && c.request.value.systemInstruction.Some? ==>
              c.request.value.systemInstruction == systemInstruction
    ensures c.request.Some? ==> c.result == match reply
                                            case Replied(response) => Success(response)
                                            case Threw(e) => Failure(e)
  {
    match EnsureApiKey(apiKey)
    case Some(e) => Call(None, Failure(e))
    case None =>
      var request := TurnsRequest(Constants.GEMINI_TEXT_MODEL, ChatContents(history, newMessage),
                                  InstructionConfig(systemInstruction));
      match reply
      case Replied(response) => Call(Some(request), Success(response))
      case Threw(e) => Call(Some(request), Failure(e))
  }

  /** `generateContentWithGoogleSearch`; the response is passed on as it is. */
  function GenerateContentWithGoogleSearch<R>(apiKey: Option<string>, prompt: string,
                                              reply: Reply<R>): (c: Call<SearchRequest, R>)
    ensures c.request.None? <==> EnsureApiKey(apiKey).Some?
    ensures c.request.None? ==> c.result == Failure(Error(API_KEY_MISSING))
    ensures c.request.Some? ==> c.request.value == SearchRequest(Constants.GEMINI_TEXT_MODEL, prompt, true)
    ensures c.request.Some? && reply.Replied? ==> c.result == Success(reply.value)
    ensures c.request.Some? && reply.Threw? ==> c.result == Failure(RewriteSearchError(reply.thrown))
  {
    match EnsureApiKey(apiKey)
    case Some(e) => Call(None, Failure(e))
    case None =>
      var request := SearchRequest(Constants.GEMINI_TEXT_MODEL, prompt, true);
      match reply
      case Replied(response) => Call(Some(request), Success(response))
      case Threw(e) => Call(Some(request), Failure(RewriteSearchError(e)))
  }

  /** Whatever the SDK would answer and whatever the inputs, an operation without an API key
      (absent or empty) makes no request and fails with the configuration message; `createChat`
      fails with it too. */
  lemma NoKeyNoCall<R>(apiKey: Option<string>, prompt: string, n: int, data: string, mimeType: string,
                       history: seq<Turn>, instruction: Option<string>,
                       images: Reply<ImagesResponse>, text: Reply<string>, response: Reply<R>)
    requires !Truthy(apiKey)
    ensures GenerateImageFromText(apiKey, prompt, n, images) == Call(None, Failure(Error(API_KEY_MISSING)))
    ensures GetTextFromImage(apiKey, data, mimeType, prompt, text) == Call(None, Failure(Error(API_KEY_MISSING)))
    ensures GetTextFromVideo(apiKey, data, mimeType, prompt, text) == Call(None, Failure(Error(API_KEY_MISSING)))
    ensures CreateChat(apiKey, instruction) == Failure(Error(API_KEY_MISSING))
    ensures GenerateChatMessage(apiKey, history, prompt, instruction, response)
            == Call(None, Failure(Error(API_KEY_MISSING)))
    ensures GenerateContentWithGoogleSearch(apiKey, prompt, response) == Call(None, Failure(Error(API_KEY_MISSING)))
  {
  }
}
