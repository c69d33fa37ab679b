/** The video-to-text form: a video is picked and vetted, then described by the model from a
    prompt. */
module VideoToText {
  import opened Common
  import Text
  import Constants
  import FileUtils
  import GeminiService

  const DEFAULT_PROMPT := "Describe this video. If there is speech, provide a transcript."
  // The three messages below interpolate the allowed types and the 50 MB and 10 MB limits;
  // they are written out with those values.

  /** `Invalid file type. Allowed: ${ALLOWED_VIDEO_TYPES.join(', ')}.` */
  const INVALID_TYPE :=
    "Invalid file type. Allowed: video/mp4, video/mpeg, video/webm, video/quicktime, video/x-msvideo,"
    + " video/x-flv, video/3gpp, video/x-matroska."
  const LARGE_FILE_WARNING :=
    "Warning: File size is large (>50MB). Processing might be slow or fail due to browser/API limits,"
    + " though the theoretical API limit is much higher. Max recommended for this interface: 10MB."
  const TOO_LARGE :=
    "Error: File exceeds maximum recommended size of 10MB for this interface. Please choose a smaller file."
  const NO_FILE := "Please upload a video file first."
  const NO_PROMPT := "Please enter a prompt for the AI."
  const BAD_MIME := "Invalid video MIME type. This should not happen if validation passed."
  const ANALYSIS_FAILED := "An unknown error occurred during video processing."

  /** How a picked video is received: refused for its type, refused for its size, or taken,
      with or without the large-file warning. */
  datatype Verdict = BadType | TooLarge | Accepted(warned: bool)

  /** The checks of `handleFileChange`, in their order: the type first; then the warning
      threshold, and only below it the size limit. */
  function Classify(file: FileUtils.File): (v: Verdict)
    ensures v == BadType <==>
              file.mimeType !in Constants.ALLOWED_VIDEO_TYPES && FileUtils.Extension(file.name) != FileUtils.MOV
  {
    FileUtils.QuickTimeIsVideoType();
    if FileUtils.GetMimeType(file, Constants.ALLOWED_VIDEO_TYPES).None? then BadType
    else if file.size > Constants.MAX_VIDEO_FILE_SIZE_MB_FOR_WARNING * Constants.MIB then Accepted(true)
    else if file.size > Constants.MAX_FILE_SIZE_MB * Constants.MIB then TooLarge
    else Accepted(false)
  }

  /** The size rule for a video of an allowed type: up to 10 MB it is taken silently, from
      10 MB up to 50 MB it is refused, and above 50 MB it is taken with a warning. */
  lemma SizeRule(file: FileUtils.File)
    requires FileUtils.GetMimeType(file, Constants.ALLOWED_VIDEO_TYPES).Some?
    ensures Classify(file) == Accepted(false) <==> file.size <= 10 * Constants.MIB
    ensures Classify(file) == TooLarge <==> 10 * Constants.MIB < file.size <= 50 * Constants.MIB
    ensures Classify(file) == Accepted(true) <==> file.size > 50 * Constants.MIB
  {
  }

  /** The `try` block of `handleGenerateText`: the type is looked up again, the file is read,
      and only then is the model called. */
  function Analyse(apiKey: Option<string>, file: FileUtils.File, prompt: string,
                   read: FileUtils.ReadOutcome, reply: Reply<string>): (c: GeminiService.Call<GeminiService.MediaRequest, string>)
    ensures c.request.Some? ==> file.size <= Constants.MAX_FILE_SIZE_BYTES
    ensures c.result.Success? ==> c.request.Some?
    ensures FileUtils.GetMimeType(file, Constants.ALLOWED_VIDEO_TYPES).None? ==>
              c == GeminiService.Call(None, Failure(Error(BAD_MIME)))
  {
    match FileUtils.GetMimeType(file, Constants.ALLOWED_VIDEO_TYPES)
    case None => GeminiService.Call(None, Failure(Error(BAD_MIME)))
    case Some(mimeType) =>
      match FileUtils.FileToBase64(file, read)
      case Failure(e) => GeminiService.Call(None, Failure(e))
      case Success(data) => GeminiService.GetTextFromVideo(apiKey, data, mimeType, prompt, reply)
  }

  /** A video taken with the large-file warning can never be analysed: the upload helper
      refuses anything over 10 MB before reading it, so no request is made and the error is
      the helper's size message. */
  lemma WarnedVideosAreNeverSent(apiKey: Option<string>, file: FileUtils.File, prompt: string,
                                 read: FileUtils.ReadOutcome, reply: Reply<string>)
    requires Classify(file) == Accepted(true)
    ensures Analyse(apiKey, file, prompt, read, reply) == GeminiService.Call(None, Failure(Error(FileUtils.TOO_LARGE)))
  {
  }

  /** Only a video taken without a warning can ever reach the model. */
  lemma OnlyQuietVideosAreSent(apiKey: Option<string>, file: FileUtils.File, prompt: string,
                               read: FileUtils.ReadOutcome, reply: Reply<string>)
    requires Analyse(apiKey, file, prompt, read, reply).request.Some?
    ensures Classify(file) == Accepted(false)
  {
  }

  /** A video taken without a warning, read and sent with a key, reaches the model with the
      type found for it and the prompt, and the model's answer or error comes back unchanged. */
  lemma AcceptedVideosAreSent(apiKey: Option<string>, file: FileUtils.File, prompt: string,
                              dataUrl: string, reply: Reply<string>)
    requires Classify(file) == Accepted(false)
    requires GeminiService.EnsureApiKey(apiKey).None?
    requires FileUtils.ExtractPayload(dataUrl).Success?
    ensures var c := Analyse(apiKey, file, prompt, FileUtils.Loaded(dataUrl), reply);
            && c.request == Some(GeminiService.MediaRequest(Constants.GEMINI_TEXT_MODEL,
                 [GeminiService.InlineData(FileUtils.GetMimeType(file, Constants.ALLOWED_VIDEO_TYPES).value,
                                           FileUtils.ExtractPayload(dataUrl).value),
                  GeminiService.TextPart(prompt)]))
            && c.result == match reply
                           case Replied(text) => Success(text)
                           case Threw(e) => Failure(e)
  {
  }

  /** The video form's state. The preview is filled in by the browser's file reader, which is
      not part of this model. */
  class VideoToTextGenerator {
    const apiKey: Option<string>
    var videoFile: Option<FileUtils.File>
    var videoPreview: Option<string>
    var prompt: string
    var generatedText: string
    var isLoading: bool
    var error: Option<string>
    var fileWarning: Option<string>
    var copySuccess: string

    constructor (apiKey: Option<string>)
      ensures this.apiKey == apiKey && prompt == DEFAULT_PROMPT
      ensures videoFile.None? && videoPreview.None? && generatedText == "" && copySuccess == ""
      ensures !isLoading && error.None? && fileWarning.None?
    {
      this.apiKey := apiKey;
      videoFile, videoPreview, prompt, generatedText := None, None, DEFAULT_PROMPT, "";
      isLoading, error, fileWarning, copySuccess := false, None, None, "";
    }

    /** The prompt field's `onChange`. */
    method SetPrompt(p: string)
      modifies this`prompt
      ensures prompt == p
    {
      prompt := p;
    }

    /** `handleFileChange` with the first picked file, if any. */
    method HandleFileChange(picked: Option<FileUtils.File>)
      modifies this
      ensures prompt == old(prompt) && isLoading == old(isLoading)
      ensures picked.None? ==>
                && videoFile == old(videoFile) && videoPreview == old(videoPreview) && error == old(error)
                && fileWarning == old(fileWarning) && generatedText == old(generatedText)
                && copySuccess == old(copySuccess)
      ensures picked.Some? && Classify(picked.value) == BadType ==>
                && error == Some(INVALID_TYPE) && fileWarning.None? && videoFile.None? && videoPreview.None?
                && generatedText == old(generatedText) && copySuccess == old(copySuccess)
      ensures picked.Some? && Classify(picked.value) == TooLarge ==>
                && error == Some(TOO_LARGE) && fileWarning.None? && videoFile.None? && videoPreview.None?
                && generatedText == old(generatedText) && copySuccess == old(copySuccess)
      ensures picked.Some? && Classify(picked.value).Accepted? ==>
                && videoFile == picked && error.None? && generatedText == "" && copySuccess == ""
                && videoPreview == old(videoPreview)
                && fileWarning == (if Classify(picked.value).warned then Some(LARGE_FILE_WARNING) else None)
    {
      if picked.None? {
        return;
      }
      var file := picked.value;
      fileWarning := None;
      error := None;
      var mime := FileUtils.GetMimeType(file, Constants.ALLOWED_VIDEO_TYPES);
      if mime.None? {
        error := Some(INVALID_TYPE);
        videoFile := None;
        videoPreview := None;
        return;
      }
      if file.size > Constants.MAX_VIDEO_FILE_SIZE_MB_FOR_WARNING * Constants.MIB {
        fileWarning := Some(LARGE_FILE_WARNING);
      } else if file.size > Constants.MAX_FILE_SIZE_MB * Constants.MIB {
        error := Some(TOO_LARGE);
        videoFile := None;
        videoPreview := None;
        return;
      }
      videoFile := Some(file);
      generatedText := "";
      copySuccess := "";
    }

    /** `handleGenerateText`; `read` is how reading the file ends and `reply` what the model
        answers, and `request` is the request sent, if any. The button is disabled while an
        analysis runs. A failure keeps the large-file warning; a success clears it. */
    method HandleGenerateText(read: FileUtils.ReadOutcome, reply: Reply<string>)
      returns (request: Option<GeminiService.MediaRequest>)
      requires !isLoading
      modifies this
      ensures !isLoading && prompt == old(prompt) && videoFile == old(videoFile)
      ensures videoPreview == old(videoPreview)
      ensures old(videoFile).None? ==>
                && request.None? && error == Some(NO_FILE) && generatedText == old(generatedText)
                && fileWarning == old(fileWarning) && copySuccess == old(copySuccess)
      ensures old(videoFile).Some? && Text.IsBlank(old(prompt)) ==>
                && request.None? && error == Some(NO_PROMPT) && generatedText == old(generatedText)
                && fileWarning == old(fileWarning) && copySuccess == old(copySuccess)
      ensures old(videoFile).Some? && !Text.IsBlank(old(prompt)) ==>
                var c := Analyse(apiKey, old(videoFile).value, old(prompt), read, reply);
                && request == c.request && copySuccess == ""
                && (c.result.Success? ==> generatedText == c.result.value && error.None? && fileWarning.None?)
                && (c.result.Failure? ==>
                      && generatedText == "" && error == Some(Describe(c.result.error, ANALYSIS_FAILED))
                      && fileWarning == old(fileWarning))
    {
      if videoFile.None? {
        error := Some(NO_FILE);
        return None;
      }
      if Text.IsBlank(prompt) {
        error := Some(NO_PROMPT);
        return None;
      }
      request := RunAnalysis(videoFile.value, prompt, read, reply);
    }

    /** The analysis itself, for a picked file and a prompt that is not blank. */
    method RunAnalysis(file: FileUtils.File, p: string, read: FileUtils.ReadOutcome, reply: Reply<string>)
      returns (request: Option<GeminiService.MediaRequest>)
      modifies this`isLoading, this`generatedText, this`copySuccess, this`error, this`fileWarning
      ensures !isLoading && copySuccess == ""
      ensures var c := Analyse(apiKey, file, p, read, reply);
              && request == c.request
              && (c.result.Success? ==> generatedText == c.result.value && error.None? && fileWarning.None?)
              && (c.result.Failure? ==>
                    && generatedText == "" && error == Some(Describe(c.result.error, ANALYSIS_FAILED))
                    && fileWarning == old(fileWarning))
    {
      isLoading := true;
      generatedText := "";
      copySuccess := "";
      var c := Analyse(apiKey, file, p, read, reply);
      request := c.request;
      match c.result {
        case Success(description) =>
          generatedText := description;
          error := None;
          fileWarning := None;
        case Failure(e) =>
          error := Some(Describe(e, ANALYSIS_FAILED));
      }
      isLoading := false;
    }
  }
}
