/** The image-to-text form: an image is picked and vetted, then described by the model from a
    prompt. */
module ImageToText {
  import opened Common
  import Text
  import Constants
  import FileUtils
  import GeminiService

  const DEFAULT_PROMPT := "Describe this image in detail."

  /** `Invalid file type. Allowed: ${ALLOWED_IMAGE_TYPES.join(', ')}.`, written out. */
  const INVALID_TYPE := "Invalid file type. Allowed: image/jpeg, image/png, image/webp, image/gif."
  /** `File is too large. Max size: ${MAX_FILE_SIZE_MB}MB.`, written out. */
  const TOO_LARGE := "File is too large. Max size: 10MB."
  const NO_FILE := "Please upload an image file first."
  const NO_PROMPT := "Please enter a prompt for the AI."
  const BAD_MIME := "Invalid image MIME type. This should not happen if validation passed."
  const ANALYSIS_FAILED := "An unknown error occurred while analyzing the image."

  /** How a picked image is received: refused for its type, refused for its size, or taken. */
  datatype Verdict = BadType | TooLarge | Accepted

  /** The checks of `handleFileChange`, type first, then the 10 MB limit. An image is taken
      exactly when the browser reports one of the four allowed types and it is at most 10 MB; a
      disallowed type is reported even when the file is also too large. */
  function Classify(file: FileUtils.File): (v: Verdict)
    ensures v == Accepted <==>
              file.mimeType in Constants.ALLOWED_IMAGE_TYPES && file.size <= 10 * Constants.MIB
    ensures v == BadType <==> file.mimeType !in Constants.ALLOWED_IMAGE_TYPES
  {
    FileUtils.ImagesNeedBrowserType(file);
    if FileUtils.GetMimeType(file, Constants.ALLOWED_IMAGE_TYPES).None? then BadType
    else if file.size > Constants.MAX_FILE_SIZE_MB * Constants.MIB then TooLarge
    else Accepted
  }

  /** The `try` block of `handleGenerateText`: the type is looked up again, the file is read,
      and only then is the model called. */
  function Analyse(apiKey: Option<string>, file: FileUtils.File, prompt: string,
                   read: FileUtils.ReadOutcome, reply: Reply<string>): (c: GeminiService.Call<GeminiService.MediaRequest, string>)
    ensures c.request.Some? ==> Classify(file) == Accepted
    ensures c.result.Success? ==> c.request.Some?
    ensures Classify(file) == BadType ==> c == GeminiService.Call(None, Failure(Error(BAD_MIME)))
  {
    match FileUtils.GetMimeType(file, Constants.ALLOWED_IMAGE_TYPES)
    case None => GeminiService.Call(None, Failure(Error(BAD_MIME)))
    case Some(mimeType) =>
      match FileUtils.FileToBase64(file, read)
      case Failure(e) => GeminiService.Call(None, Failure(e))
      case Success(data) => GeminiService.GetTextFromImage(apiKey, data, mimeType, prompt, reply)
  }

  /** An accepted image, read and sent with a key, reaches the model with its own type and the
      prompt, and the model's answer or error comes back unchanged. */
  lemma AcceptedImagesAreSent(apiKey: Option<string>, file: FileUtils.File, prompt: string,
                              dataUrl: string, reply: Reply<string>)
    requires Classify(file) == Accepted
    requires GeminiService.EnsureApiKey(apiKey).None?
    requires FileUtils.ExtractPayload(dataUrl).Success?
    ensures var c := Analyse(apiKey, file, prompt, FileUtils.Loaded(dataUrl), reply);
            && c.request == Some(GeminiService.MediaRequest(Constants.GEMINI_TEXT_MODEL,
                 [GeminiService.InlineData(file.mimeType, FileUtils.ExtractPayload(dataUrl).value),
                  GeminiService.TextPart(prompt)]))
            && c.result == match reply
                           case Replied(text) => Success(text)
                           case Threw(e) => Failure(e)
  {
  }

  /** The image form's state. The preview is filled in by the browser's file reader, which is
      not part of this model. */
  class ImageToTextGenerator {
    const apiKey: Option<string>
    var imageFile: Option<FileUtils.File>
    var imagePreview: Option<string>
    var prompt: string
    var generatedText: string
    var isLoading: bool
    var error: Option<string>
    var copySuccess: string

    constructor (apiKey: Option<string>)
      ensures this.apiKey == apiKey && prompt == DEFAULT_PROMPT
      ensures imageFile.None? && imagePreview.None? && generatedText == "" && copySuccess == ""
      ensures !isLoading && error.None?
    {
      this.apiKey := apiKey;
      imageFile, imagePreview, prompt, generatedText := None, None, DEFAULT_PROMPT, "";
      isLoading, error, copySuccess := false, None, "";
    }

    /** The prompt field's `onChange`. */
    method SetPrompt(p: string)
      modifies this`prompt
      ensures prompt == p
    {
      prompt := p;
    }

    /** `handleFileChange` with the first picked file, if any. */
    method HandleFileChange(picked: Option<FileUtils.File>)
      modifies this
      ensures prompt == old(prompt) && isLoading == old(isLoading)
      ensures picked.None? ==>
                && imageFile == old(imageFile) && imagePreview == old(imagePreview) && error == old(error)
                && generatedText == old(generatedText) && copySuccess == old(copySuccess)
      ensures picked.Some? && Classify(picked.value) == BadType ==>
                && error == Some(INVALID_TYPE) && imageFile.None? && imagePreview.None?
                && generatedText == old(generatedText) && copySuccess == old(copySuccess)
      ensures picked.Some? && Classify(picked.value) == TooLarge ==>
                && error == Some(TOO_LARGE) && imageFile.None? && imagePreview.None?
                && generatedText == old(generatedText) && copySuccess == old(copySuccess)
      ensures picked.Some? && Classify(picked.value) == Accepted ==>
                && imageFile == picked && error.None? && generatedText == "" && copySuccess == ""
                && imagePreview == old(imagePreview)
    {
      if picked.None? {
        return;
      }
      var file := picked.value;
      var mime := FileUtils.GetMimeType(file, Constants.ALLOWED_IMAGE_TYPES);
      if mime.None? {
        error := Some(INVALID_TYPE);
        imageFile := None;
        imagePreview := None;
        return;
      }
      if file.size > Constants.MAX_FILE_SIZE_MB * Constants.MIB {
        error := Some(TOO_LARGE);
        imageFile := None;
        imagePreview := None;
        return;
      }
      imageFile := Some(file);
      error := None;
      generatedText := "";
      copySuccess := "";
    }

    /** `handleGenerateText`; `read` is how reading the file ends and `reply` what the model
        answers, and `request` is the request sent, if any. The button is disabled while an
        analysis runs. */
    method HandleGenerateText(read: FileUtils.ReadOutcome, reply: Reply<string>)
      returns (request: Option<GeminiService.MediaRequest>)
      requires !isLoading
      modifies this
      ensures !isLoading && prompt == old(prompt) && imageFile == old(imageFile)
      ensures imagePreview == old(imagePreview)
      ensures old(imageFile).None? ==>
                && request.None? && error == Some(NO_FILE)
                && generatedText == old(generatedText) && copySuccess == old(copySuccess)
      ensures old(imageFile).Some? && Text.IsBlank(old(prompt)) ==>
                && request.None? && error == Some(NO_PROMPT)
                && generatedText == old(generatedText) && copySuccess == old(copySuccess)
      ensures old(imageFile).Some? && !Text.IsBlank(old(prompt)) ==>
                var c := Analyse(apiKey, old(imageFile).value, old(prompt), read, reply);
                && request == c.request && copySuccess == ""
                && (c.result.Success? ==> generatedText == c.result.value && error.None?)
                && (c.result.Failure? ==>
                      generatedText == "" && error == Some(Describe(c.result.error, ANALYSIS_FAILED)))
    {
      if imageFile.None? {
        error := Some(NO_FILE);
        return None;
      }
      if Text.IsBlank(prompt) {
        error := Some(NO_PROMPT);
        return None;
      }
      request := RunAnalysis(imageFile.value, prompt, read, reply);
    }

    /** The analysis itself, for a picked file and a prompt that is not blank: the error and
        the previous output are cleared, then the outcome fills one of them. */
    method RunAnalysis(file: FileUtils.File, p: string, read: FileUtils.ReadOutcome, reply: Reply<string>)
      returns (request: Option<GeminiService.MediaRequest>)
      modifies this`isLoading, this`generatedText, this`copySuccess, this`error
      ensures !isLoading && copySuccess == ""
      ensures var c := Analyse(apiKey, file, p, read, reply);
              && request == c.request
              && (c.result.Success? ==> generatedText == c.result.value && error.None?)
              && (c.result.Failure? ==>
                    generatedText == "" && error == Some(Describe(c.result.error, ANALYSIS_FAILED)))
    {
      isLoading := true;
      error := None;
      generatedText := "";
      copySuccess := "";
      var c := Analyse(apiKey, file, p, read, reply);
      request := c.request;
      match c.result {
        case Success(description) =>
          generatedText := description;
        case Failure(e) =>
          error := Some(Describe(e, ANALYSIS_FAILED));
      }
      isLoading := false;
    }
  }
}
