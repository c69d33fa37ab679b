# AI-MultiMedia in Dafny

A model of the logic inside AI-MultiMedia, a React application with five features built on a
hosted generative-AI SDK: text to image, image to text, video to text, chat, and search with
grounded sources. The application's logic lives in event handlers and one service module.
The model keeps each handler's state as the fields of a class, and each pure step as a
function:

- **Chat** (`chat.dfy`). The conversation log, the chat session and the send handler. A
  send appends the user's message. The answer then streams into a `...` placeholder by
  id-matched replacement. A failure appends an `Error: …` message. The ghost field
  `renders` records every value the log takes during a send, so the per-chunk property is
  stated on the whole sequence of rendered logs.
- **Search** (`search_grounding.dfy`). The query guard, and the pipeline that turns
  grounding chunks into the sources shown under an answer. The pipeline drops entries
  without a URI, falls back to the URI as title, and keeps the first source per URI.
- **Uploads** (`file_utils.dfy`, `image_to_text.dfy`, `video_to_text.dfy`). MIME lookup
  with the `.mov` fallback, the 10 MB limit, and the payload taken from a data URL. The
  image and video forms add their accept, reject and warn decisions and their analysis
  handlers.
- **Text to image** (`text_to_image.dfy`). The prompt guard, the outcome handling, the
  count selector and the download filename.
- **Service layer** (`gemini_service.dfy`). The API-key check, request shaping (count
  clamp, chat contents, system instruction only when non-empty) and error rewriting.
- **Section heading ids** (`section_container.dfy`).

Shared pieces: `common.dfy` holds option and result types, a caught value (`Error(message)`
or anything else) and an SDK reply. `text.dfy` holds the string operations over ASCII.
`constants.dfy` holds the limits, type lists and model names.

The SDK and the browser are inputs. An SDK call is given as a `Reply`: the value it
resolves to, or what it throws. A chat stream is given as its chunk texts plus an optional
failure after them. A `FileReader` read is given as its data URL or a read failure. Each
service function that calls the SDK returns a `Call`: the request it would send (none when
the API key is missing) together with its outcome. `createChat` sends no network
request: it returns the settings it hands to `ai.chats.create` (the model and the optional
system instruction), or the key error. `Date.now()` ids become stamps drawn from a counter (`clock`);
the `-model` suffix is a flag of the id.

The chat handler, as written, behaves as follows, and so does the model:

- A send that fails does not block further sends; the next send goes out as usual.
- Chunks of a stream are applied until the stream ends; nothing discards the chunks of a
  stream that a restart abandoned.
- The placeholder text is `...`.
- A restart clears `error` even when re-initialising the session failed.
- Changing the system instruction re-initialises the session.

In the video form, a file over 50 MB is accepted with a warning. The upload helper,
however, refuses anything over 10 MB before reading it, so such a file can never be
analysed. `VideoToText.WarnedVideosAreNeverSent` states this.

## Model

| member | source | states |
|---|---|---|
| Text.Lower | components/common/SectionContainer.tsx:13 | a capital becomes the letter 32 code points above it, its lowercase form; non-capitals are unchanged; the result is never a capital and white space is preserved |
| Text.ToLowerCons | components/common/SectionContainer.tsx:13 | lowercasing works from the front, one character at a time |
| Text.ToLower | components/common/SectionContainer.tsx:13 | same length, each character lowercased, no capitals left, white-space freedom preserved |
| Text.TrimStart | components/features/ChatComponent.tsx:53 | the result is a suffix not starting with white space, and everything dropped is white space |
| Text.TrimEnd | components/features/ChatComponent.tsx:53 | the result is a prefix not ending with white space, and everything dropped is white space |
| Text.Trim | components/features/ChatComponent.tsx:53 | the trimmed string is empty exactly when the input is blank, which justifies the `!s.trim()` guards as `IsBlank` |
| Text.ReplaceSpaceRuns | components/common/SectionContainer.tsx:13 | with a non-space separator the result holds no white space; it is no longer than the input; input without white space is unchanged |
| Text.TrimStartBlank | components/common/SectionContainer.tsx:13 | trimming a run of white space off the front leaves exactly what follows it |
| Text.ReplaceSpaceRunsCons | components/common/SectionContainer.tsx:13 | a character that is not white space is copied to the result |
| Text.ReplaceSpaceRunsRun | components/common/SectionContainer.tsx:13 | a whole maximal run of white space, however long, becomes one separator; with the previous row and `""` for `""` this determines the result |
| Text.Take | components/features/TextToImageGenerator.tsx:43 | `substring(0, n)` is the first `n` characters of a longer string and the whole of a shorter one |
| Text.Split | utils/fileUtils.ts:17 | at least one field, no field holds the separator, and there are two or more fields exactly when the separator occurs |
| Text.SplitThenJoin | utils/fileUtils.ts:17 | joining the fields with the separator gives the string back |
| Text.SplitSingle | utils/fileUtils.ts:17 | a string without the separator splits into itself |
| Text.SplitAfterField | utils/fileUtils.ts:17 | a separator-free prefix followed by the separator is the first field |
| Text.JoinThenSplit | utils/fileUtils.ts:17 | splitting a join of separator-free fields gives the fields back |
| Text.LastField | utils/fileUtils.ts:33 | the field `pop()` returns holds no separator |
| Text.LastFieldAfter | utils/fileUtils.ts:33 | text before the last separator does not affect the last field |
| Text.ContainsSpec | services/geminiService.ts:31 | `includes` holds exactly when the substring stands at some position of the string |
| Text.ContainsInfix | services/geminiService.ts:31 | a string `includes` anything written inside it |
| Text.DigitChar | components/features/TextToImageGenerator.tsx:43 | a digit below ten renders as a decimal digit character |
| Text.NatToString | components/features/TextToImageGenerator.tsx:43 | the rendering of a number is non-empty and all digits |
| Text.NatToStringNoLeadingZero | components/features/TextToImageGenerator.tsx:43 | the rendering starts with `0` only for the number 0, so no leading zero is written |
| Text.NatToStringRoundTrip | components/features/TextToImageGenerator.tsx:71 | reading the decimal rendering back gives the number |
| FileUtils.Extension | utils/fileUtils.ts:33 | the extension holds no dot and no capital |
| FileUtils.ExtensionOfDotted | utils/fileUtils.ts:33 | for `stem.ext` the extension is `ext` lowercased, whatever the stem holds |
| FileUtils.ExtensionOfUndotted | utils/fileUtils.ts:33 | a name without a dot is its own extension, lowercased |
| FileUtils.GetMimeType | utils/fileUtils.ts:28-38 | an allowed browser type is returned; any result is allowed; a result other than the browser type is `video/quicktime` for a `mov` extension; the fallback applies whenever its conditions hold; otherwise none |
| FileUtils.MovFallbackForVideos | utils/fileUtils.ts:32-34 | a `.mov`/`.MOV` video with an unknown browser type is recognised as `video/quicktime` |
| FileUtils.QuickTimeIsVideoType | constants.ts:56 | `video/quicktime` is an allowed video type |
| FileUtils.ImagesNeedBrowserType | utils/fileUtils.ts:28-38 | for images the lookup succeeds exactly when the browser type is allowed, since no image type is inferred from a name |
| FileUtils.ExtractPayload | utils/fileUtils.ts:17-21 | a success is non-empty and comma-free; a failure is the extraction error; a URL without a comma fails |
| FileUtils.PayloadIsSecondField | utils/fileUtils.ts:17-21 | the payload is the second comma-separated field if present and non-empty, else the extraction fails |
| FileUtils.PayloadRoundTrip | utils/fileUtils.ts:15-17 | `header,payload` gives back `payload` |
| FileUtils.PayloadOfDataUrl | utils/fileUtils.ts:15-17 | `data:m;base64,XYZ` gives `XYZ` |
| FileUtils.FileToBase64 | utils/fileUtils.ts:4-26 | over the byte limit it fails with the size error before reading; a size equal to the limit passes; a read error rejects with a non-Error; otherwise the payload is extracted |
| GeminiService.EnsureApiKey | services/geminiService.ts:7-13 | fails exactly when the key is missing or empty, with the configuration message |
| GeminiService.ClampImageCount | services/geminiService.ts:21 | the count lies in 1..4, is the identity on 1..4, 1 below and 4 above |
| GeminiService.ImageBytes | services/geminiService.ts:25 | one result per image, in order, each the image's bytes |
| GeminiService.ImagesOf | services/geminiService.ts:24-27 | no image list gives `[]`; otherwise the images' bytes in order |
| GeminiService.RewriteImageError | services/geminiService.ts:31-34 | an Error whose message contains `API_KEY` becomes the fixed message; anything else is rethrown unchanged |
| GeminiService.RewriteSearchError | services/geminiService.ts:125-128 | an Error whose message contains `grounding` becomes the fixed message; anything else is rethrown unchanged |
| GeminiService.ApiKeyErrorsRewritten | services/geminiService.ts:31-34 | every message with `API_KEY` anywhere in it is rewritten |
| GeminiService.GroundingErrorsRewritten | services/geminiService.ts:125-128 | every message with `grounding` anywhere in it is rewritten |
| GeminiService.GenerateImageFromText | services/geminiService.ts:15-36 | no request without a key; the request has the image model, the prompt, the clamped count and JPEG output; a reply gives its images, a throw its rewritten error |
| GeminiService.DescribeMedia | services/geminiService.ts:38-74 | no request without a key; the request goes to the text model and is the media inline with its type, then the prompt; the reply's text is returned and a throw is rethrown unchanged |
| GeminiService.GetTextFromImage | services/geminiService.ts:38-54 | the image call is the shared media request and outcome, around the image's data |
| GeminiService.GetTextFromVideo | services/geminiService.ts:56-74 | the video call is the same shared media request and outcome, around the video's data |
| GeminiService.InstructionConfig | services/geminiService.ts:81 | the system instruction is included exactly when it is non-empty, and then unchanged |
| GeminiService.CreateChat | services/geminiService.ts:76-85 | fails without a key; otherwise the text model, with the system instruction only when non-empty |
| GeminiService.ChatContents | services/geminiService.ts:95 | the history unchanged, followed by exactly one user turn with the new message |
| GeminiService.GenerateChatMessage | services/geminiService.ts:88-106 | no request without a key; the request goes to the text model with contents `ChatContents`; the instruction is included exactly when non-empty, and then as given; the outcome is passed on |
| GeminiService.GenerateContentWithGoogleSearch | services/geminiService.ts:109-130 | no request without a key; the request is the prompt to the text model with the search tool; a throw is rewritten |
| GeminiService.NoKeyNoCall | services/geminiService.ts:7-13 | for any inputs and whatever the SDK would answer, without a key (absent or empty) none of the five SDK calls sends a request, each fails with the configuration message, and `createChat` fails with it too |
| SectionContainer.Slug | components/common/SectionContainer.tsx:13 | the slug has no white space and no capitals and is no longer than the title |
| SectionContainer.TitleId | components/common/SectionContainer.tsx:13 | the id is `section-title-` followed by the slug |
| SectionContainer.Render | components/common/SectionContainer.tsx:13-16 | the section's `aria-labelledby` and the heading's `id` are the same string |
| SectionContainer.SlugOfSingleWord | components/common/SectionContainer.tsx:13 | a title without white space is only lowercased |
| SectionContainer.SlugOfNonSpace | components/common/SectionContainer.tsx:13 | each character of the title that is not white space is kept, lowercased |
| SectionContainer.SlugOfSpaceRun | components/common/SectionContainer.tsx:13 | each whole run of white space in the title becomes a single `-` |
| SearchGrounding.ToSource | components/features/SearchGroundingComponent.tsx:37-41 | a chunk yields a source exactly when it has a web entry with a non-empty URI; the title is the chunk's when non-empty, else the URI |
| SearchGrounding.WithUri | components/features/SearchGroundingComponent.tsx:36-42 | at most one source per chunk |
| SearchGrounding.WithUriAppend | components/features/SearchGroundingComponent.tsx:36-42 | the map and filter steps work chunk by chunk: they distribute over concatenation of chunk lists |
| SearchGrounding.WithUriSpec | components/features/SearchGroundingComponent.tsx:36-42 | every mapped source has a URI and a title and comes from some chunk; every chunk that yields a source is kept |
| SearchGrounding.FindIndex | components/features/SearchGroundingComponent.tsx:45 | the first position with the URI, or -1 when none has it |
| SearchGrounding.KeepFirstSound | components/features/SearchGroundingComponent.tsx:44-46 | each kept element is the first with its URI |
| SearchGrounding.KeepFirstOrdered | components/features/SearchGroundingComponent.tsx:44-46 | kept elements appear in the order of their first positions |
| SearchGrounding.KeepFirstComplete | components/features/SearchGroundingComponent.tsx:44-46 | every URI whose first position is in range is kept |
| SearchGrounding.Dedupe | components/features/SearchGroundingComponent.tsx:44-46 | the kept URIs are pairwise distinct |
| SearchGrounding.DedupeFirstOccurrence | components/features/SearchGroundingComponent.tsx:44-46 | each kept source is the first with its URI, and the kept sources keep their input order |
| SearchGrounding.DedupeComplete | components/features/SearchGroundingComponent.tsx:44-46 | no URI of the input is lost |
| SearchGrounding.NormalizeSources | components/features/SearchGroundingComponent.tsx:34-47 | missing or non-array chunks give `[]`; every source has a non-empty URI and title; URIs are distinct |
| SearchGrounding.NormalizeSourcesSpec | components/features/SearchGroundingComponent.tsx:36-46 | every source shown comes from a chunk, and every chunk with a URI has it shown |
| SearchGrounding.NormalizedOrder | components/features/SearchGroundingComponent.tsx:36-46 | sources follow the order of their URIs' first appearance, each being the first such chunk's source |
| SearchGrounding.SearchGroundingComponent.constructor | components/features/SearchGroundingComponent.tsx:16-19 | empty query, no result, not loading, no error |
| SearchGrounding.SearchGroundingComponent.SetQuery | components/features/SearchGroundingComponent.tsx:70 | sets the query and nothing else |
| SearchGrounding.SearchGroundingComponent.HandleSearch | components/features/SearchGroundingComponent.tsx:21-58 | a blank query sets the error, sends nothing and keeps the result; otherwise the call's success shows its answer and normalised sources and its failure clears the result and shows the error; loading ends false |
| SearchGrounding.SearchGroundingComponent.Search | components/features/SearchGroundingComponent.tsx:26-57 | earlier result and error are cleared, then replaced by the call's outcome |
| Chat.Concat | components/features/ChatComponent.tsx:79 | the accumulated answer begins with the first chunk's text |
| Chat.ConcatSnoc | components/features/ChatComponent.tsx:79 | one more chunk appends its text to the answer |
| Chat.ConcatAppend | components/features/ChatComponent.tsx:79 | the concatenation of two chunk runs is the concatenation of their concatenations |
| Chat.ConcatGrows | components/features/ChatComponent.tsx:78-84 | the accumulated answer only grows: each prefix is a prefix of the final answer |
| Chat.WithText | components/features/ChatComponent.tsx:81-83 | replacement by id keeps the log's length |
| Chat.WithTextChangesOnlyTarget | components/features/ChatComponent.tsx:81-83 | with unique ids only the message with that id changes, and only its text |
| Chat.WithTextAbsent | components/features/ChatComponent.tsx:81-83 | replacing an id no message has changes nothing |
| Chat.WithTextConcat | components/features/ChatComponent.tsx:81-83 | replacement by id distributes over concatenation of logs |
| Chat.ReplaceAnswer | components/features/ChatComponent.tsx:81-83 | replacing the placeholder's text leaves every earlier message as it was |
| Chat.AppendFresh | components/features/ChatComponent.tsx:59-73 | messages with fresh stamps keep all ids distinct |
| Chat.Exchange | components/features/ChatComponent.tsx:58-97 | an accepted send appends the untrimmed user message first and at least one more; ids are unique and fresh |
| Chat.ExchangeOutcomes | components/features/ChatComponent.tsx:86-94 | a completed stream leaves one model message with the whole answer (the placeholder is replaced by the whole answer; `''` for no chunks); a failure appends one error message after the partial answer; a failure at open leaves no model message |
| Chat.ExchangeAppends | components/features/ChatComponent.tsx:64-94 | the log after a send is the old log followed by the successive appends the handler makes |
| Chat.Frames | components/features/ChatComponent.tsx:76-84 | a stream renders one log more than it has chunks |
| Chat.FramesShowPrefixes | components/features/ChatComponent.tsx:76-84 | the first rendered log ends with the `...` placeholder; after chunk k the answer is the first k chunks concatenated, earlier messages unchanged |
| Chat.ChatComponent.constructor | components/features/ChatComponent.tsx:13-46 | empty state, then the mount-time initialisation: no key sets the error; a creation failure sets its message; otherwise the first session without an instruction |
| Chat.ChatComponent.InitializeChat | components/features/ChatComponent.tsx:21-42 | without a key only `error` is set and the session is kept; a creation failure sets its message; otherwise a new session with the instruction only when non-empty, and no error; the log is untouched |
| Chat.ChatComponent.SetInput | components/features/ChatComponent.tsx:164 | sets the input |
| Chat.ChatComponent.HandleSystemInstructionChange | components/features/ChatComponent.tsx:100-102 | stores the instruction; an unchanged one changes nothing else; a changed one re-runs the initialisation (the effect of lines 44-46): without a key the error is set and the session kept, a creation failure sets its message and keeps the session, otherwise a new session with the new instruction and no error; log, input and rendered logs untouched; the field is only editable before the conversation starts |
| Chat.ChatComponent.HandleRestartChat | components/features/ChatComponent.tsx:104-109 | empty log, empty input, no error, the clock unchanged; a new session when one can be opened, the old one kept otherwise |
| Chat.ChatComponent.HandleSendMessage | components/features/ChatComponent.tsx:52-98 | the untrimmed input is sent to the current session exactly when the guard passes; blank input or no session sends nothing and keeps the log (no session also sets the error); an accepted send clears the input and appends the exchange; the rendered logs are the user's message, each stream frame and the final log; loading ends false; ids stay unique |
| Chat.ChatComponent.SendAccepted | components/features/ChatComponent.tsx:58-97 | sends the untrimmed input to the session, appends the untrimmed user message, clears the input and the error, then consumes the reply; loading ends false |
| Chat.ChatComponent.Answer | components/features/ChatComponent.tsx:70-89 | streams the answer into the placeholder, then sets the full text, or appends the error after the partial answer |
| Chat.ChatComponent.AppendError | components/features/ChatComponent.tsx:90-94 | sets `error` and appends `Error: ` plus the message |
| Chat.ChatComponent.StreamAnswer | components/features/ChatComponent.tsx:72-84 | returns the concatenated chunks; the log ends with the placeholder showing the streamed text; the rendered logs are exactly the stream frames |
| VideoToText.Classify | components/features/VideoToTextGenerator.tsx:26-39 | a video is refused for its type exactly when its browser type is not allowed and its lower-cased extension (the text after the last dot, or the whole name when it has none) is not `mov` |
| VideoToText.SizeRule | components/features/VideoToTextGenerator.tsx:33-39 | an allowed video up to 10 MB is taken silently, from 10 up to 50 MB is refused, and above 50 MB is taken with a warning |
| VideoToText.Analyse | components/features/VideoToTextGenerator.tsx:69-79 | a request is sent only for a file within the byte limit; success implies a request; an unknown type fails with the MIME message |
| VideoToText.WarnedVideosAreNeverSent | components/features/VideoToTextGenerator.tsx:33-34 | a video taken with the large-file warning always fails with the upload helper's size error, and no request is sent |
| VideoToText.OnlyQuietVideosAreSent | components/features/VideoToTextGenerator.tsx:69-79 | only a video taken without warning ever reaches the model |
| VideoToText.AcceptedVideosAreSent | components/features/VideoToTextGenerator.tsx:69-79 | with a key and a readable file, a video taken without warning is sent to the text model as its looked-up type and payload followed by the prompt, and the model's answer or error comes back unchanged |
| VideoToText.VideoToTextGenerator.constructor | components/features/VideoToTextGenerator.tsx:11-18 | the default prompt and otherwise empty state |
| VideoToText.VideoToTextGenerator.SetPrompt | components/features/VideoToTextGenerator.tsx:159 | sets the prompt |
| VideoToText.VideoToTextGenerator.HandleFileChange | components/features/VideoToTextGenerator.tsx:21-52 | no file changes nothing; a bad type or a 10-50 MB file sets its error and clears file and preview; an accepted file is stored with the warning exactly when over 50 MB, no error, output cleared |
| VideoToText.VideoToTextGenerator.HandleGenerateText | components/features/VideoToTextGenerator.tsx:54-88 | no file or a blank prompt sets the error and sends nothing, keeping text, warning and copy status; success stores the text and clears error and warning; failure sets the error and keeps the warning; loading ends false |
| VideoToText.VideoToTextGenerator.RunAnalysis | components/features/VideoToTextGenerator.tsx:64-87 | clears the output, then stores the outcome of the analysis |
| ImageToText.Classify | components/features/ImageToTextGenerator.tsx:23-35 | an image is taken exactly when its browser type is allowed and it is at most 10 MB; a bad type is reported even for an oversized file |
| ImageToText.Analyse | components/features/ImageToTextGenerator.tsx:63-69 | a request is sent only for an accepted image; success implies a request; a bad type fails with the MIME message |
| ImageToText.AcceptedImagesAreSent | components/features/ImageToTextGenerator.tsx:63-68 | with a key and a readable file, an accepted image is sent to the text model as its own type and payload followed by the prompt, and the model's answer or error comes back unchanged |
| ImageToText.ImageToTextGenerator.constructor | components/features/ImageToTextGenerator.tsx:11-17 | the default prompt and otherwise empty state |
| ImageToText.ImageToTextGenerator.SetPrompt | components/features/ImageToTextGenerator.tsx:143 | sets the prompt |
| ImageToText.ImageToTextGenerator.HandleFileChange | components/features/ImageToTextGenerator.tsx:20-46 | no file changes nothing; a bad type (checked first) or an oversized file sets its error and clears file and preview; an accepted file is stored, with error, text and copy status cleared |
| ImageToText.ImageToTextGenerator.HandleGenerateText | components/features/ImageToTextGenerator.tsx:48-76 | no file or a blank prompt sets the error and sends nothing; otherwise error and output are cleared, then the outcome fills one of them; loading ends false |
| ImageToText.ImageToTextGenerator.RunAnalysis | components/features/ImageToTextGenerator.tsx:58-75 | clears error and output, then stores the outcome of the analysis |
| TextToImage.PromptPart | components/features/TextToImageGenerator.tsx:43 | the prompt part has no white space and at most 20 characters; a short prompt without white space is kept as is |
| TextToImage.PromptPartReadsTwenty | components/features/TextToImageGenerator.tsx:43 | only the first 20 characters of the prompt matter |
| TextToImage.PromptPartOfNonSpace | components/features/TextToImageGenerator.tsx:43 | within them, a character that is not white space is kept |
| TextToImage.PromptPartOfSpaceRun | components/features/TextToImageGenerator.tsx:43 | within them, each whole run of white space becomes a single `_` |
| TextToImage.DownloadFilename | components/features/TextToImageGenerator.tsx:43 | the name begins with `generated_image_` followed by the prompt part |
| TextToImage.DownloadFilenameLength | components/features/TextToImageGenerator.tsx:43 | the name is exactly as long as the prefix, the prompt part, one `_`, the number and `.jpeg`; with the prefix and the last `_` field this fixes the whole name |
| TextToImage.FilenameNumbersImage | components/features/TextToImageGenerator.tsx:43 | the name ends in `.jpeg`, and after its last `_` stands the image's 1-based position, whatever the prompt |
| TextToImage.DistinctImagesDistinctNames | components/features/TextToImageGenerator.tsx:43 | two images of one generation never share a name |
| TextToImage.ImageCountOptions | components/features/TextToImageGenerator.tsx:76 | `MAX_IMAGES_GENERATION` options, the i-th being i+1 |
| TextToImage.ImageCountOptionsRange | components/features/TextToImageGenerator.tsx:76 | the selector offers exactly 1..`MAX_IMAGES_GENERATION` |
| TextToImage.OfferedCountsAreSentAsIs | components/features/TextToImageGenerator.tsx:76 | every offered count reaches the image model unclamped |
| TextToImage.TextToImageGenerator.constructor | components/features/TextToImageGenerator.tsx:10-14 | empty prompt, one image, no images, no error; the count is an offered one |
| TextToImage.TextToImageGenerator.SetPrompt | components/features/TextToImageGenerator.tsx:57 | sets the prompt |
| TextToImage.TextToImageGenerator.SelectNumberOfImages | components/features/TextToImageGenerator.tsx:71 | choosing an option stores its count, read back from its decimal value, so the count stays an offered one |
| TextToImage.TextToImageGenerator.HandleGenerateImage | components/features/TextToImageGenerator.tsx:16-38 | a blank prompt sets the error and sends nothing; otherwise error and images are cleared; a non-empty result is stored as is, an empty one sets the no-images error, a failure its message; an offered count is requested as is; loading ends false |

## Left out

- Presentation: JSX, the spinner and error components, styling, icons and the app shell (theme persistence, feature routing) are not modelled.
- The SDK's wire format and the network: responses, streams and thrown values are inputs.
- FileReader previews (the `imagePreview`/`videoPreview` fill-in) and the read inside `fileToBase64`: the read's outcome is an input and previews are only cleared, never filled.
- Clipboard copy with its timer, the anchor-click download and `scrollIntoView`: browser effects with no state the model tracks (only the download name is modelled).
- `console` logging.
- Async interleavings: each handler of the image, video, text-to-image and search forms runs to its end in one step, so the loading render in between is not recorded. Only the chat records its intermediate logs. Overlapping runs are excluded by `requires !isLoading`, which stands for the disabled buttons.
- Stale chunks of a stream that was abandoned by a restart: the chat handler runs a stream to its end.
- `Date.now()`: ids use stamps from a counter, so two ids never collide. The real clock can repeat a millisecond; that is not modelled.
- Unicode: `\s`, `trim` and `toLowerCase` are modelled on ASCII only.
- `chunk.text` being `undefined` (which JavaScript would append as the text `undefined`): chunks are strings.
- `parseInt` of anything other than an offered option, and its `NaN` result.
- The effect that re-initialises the chat when the system instruction changes is folded into the instruction's change handler; the restart on leaving the field is the restart handler.
- The image and video description calls of the service differ only in their log messages, which are not modelled.
- The `generateChatMessage` response is passed on as it is; nothing about it is modelled.
