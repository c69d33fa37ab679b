/** The text-to-image form: a prompt and a number of images are sent to the image model, and
    each image received can be downloaded under a name derived from the prompt. */
module TextToImage {
  import opened Common
  import Text
  import Constants
  import GeminiService

  const NO_PROMPT := "Please enter a prompt to inspire the AI."
  const NO_IMAGES := "No images were generated. Try a different prompt or settings."
  const GENERATION_FAILED := "An unknown error occurred during image generation."
  const FILENAME_PREFIX := "generated_image_"
  const FILENAME_SUFFIX := ".jpeg"

  /** `prompt.substring(0, 20).replace(/\s+/g, '_')`: the part of a download name taken from
      the prompt. */
  function PromptPart(prompt: string): (r: string)
    ensures Text.NoSpace(r) && |r| <= 20
    ensures |prompt| <= 20 && Text.NoSpace(prompt) ==> r == prompt
  {
    Text.ReplaceSpaceRuns(Text.Take(prompt, 20), '_')
  }

  /** Only the first 20 characters of the prompt take part. */
  lemma PromptPartReadsTwenty(prompt: string)
    requires |prompt| > 20
    ensures PromptPart(prompt) == PromptPart(prompt[..20])
  {
  }

  /** Within those 20 characters, a character that is not white space is kept... */
  lemma PromptPartOfNonSpace(c: char, rest: string)
    requires !Text.IsSpace(c) && |rest| < 20
    ensures PromptPart([c] + rest) == [c] + PromptPart(rest)
  {
    Text.ReplaceSpaceRunsCons(c, rest, '_');
  }

  /** ...and a whole run of white space becomes a single `_`. */
  lemma PromptPartOfSpaceRun(w: string, rest: string)
    requires w != [] && Text.IsBlank(w) && |w| + |rest| <= 20
    requires rest == [] || !Text.IsSpace(rest[0])
    ensures PromptPart(w + rest) == "_" + PromptPart(rest)
  {
    Text.ReplaceSpaceRunsRun(w, rest, '_');
  }

  /** `generated_image_${promptPart}_${index + 1}.jpeg`: the download name of the image at
      position `index` (counted from 0). */
  function DownloadFilename(prompt: string, index: nat): (name: string)
    ensures FILENAME_PREFIX + PromptPart(prompt) <= name
  {
    FILENAME_PREFIX + PromptPart(prompt) + "_" + Text.NatToString(index + 1) + FILENAME_SUFFIX
  }

  /** A download name ends in `.jpeg`, and what stands after its last `_` is the image's
      1-based position, whatever the prompt holds. */
  lemma {:induction false} FilenameNumbersImage(prompt: string, index: nat)
    ensures var name := DownloadFilename(prompt, index);
            && |name| > |FILENAME_SUFFIX|
            && name[|name| - |FILENAME_SUFFIX|..] == FILENAME_SUFFIX
            && Text.LastField(name[..|name| - |FILENAME_SUFFIX|], '_') == Text.NatToString(index + 1)
  {
    var name := DownloadFilename(prompt, index);
    var number := Text.NatToString(index + 1);
    var head := FILENAME_PREFIX + PromptPart(prompt);
    assert name == (head + ['_'] + number) + FILENAME_SUFFIX;
    assert name[..|name| - |FILENAME_SUFFIX|] == head + ['_'] + number;
    Text.LastFieldAfter(head, '_', number);
    assert '_' !in number by {
      forall i | 0 <= i < |number| ensures number[i] != '_' {
        assert Text.IsDigit(number[i]);
      }
    }
    Text.SplitSingle(number, '_');
  }

  /** The name holds nothing besides the prefix, the prompt part, one `_`, the number and
      `.jpeg`: with the prefix and the last field fixed above, this pins the whole name. */
  lemma DownloadFilenameLength(prompt: string, index: nat)
    ensures |DownloadFilename(prompt, index)|
            == |FILENAME_PREFIX| + |PromptPart(prompt)| + 1 + |Text.NatToString(index + 1)| + |FILENAME_SUFFIX|
  {
  }

  /** Two images of one generation never share a download name. */
  lemma DistinctImagesDistinctNames(prompt: string, i: nat, j: nat)
    requires i != j
    ensures DownloadFilename(prompt, i) != DownloadFilename(prompt, j)
  {
    FilenameNumbersImage(prompt, i);
    FilenameNumbersImage(prompt, j);
    Text.NatToStringRoundTrip(i + 1);
    Text.NatToStringRoundTrip(j + 1);
  }

  /** `Array.from({ length: MAX_IMAGES_GENERATION }, (_, i) => i + 1)`: the counts the
      selector offers. */
  function ImageCountOptions(): (options: seq<nat>)
    ensures |options| == Constants.MAX_IMAGES_GENERATION
    ensures forall i :: 0 <= i < |options| ==> options[i] == i + 1
  {
    seq(Constants.MAX_IMAGES_GENERATION, i => i + 1)
  }

  /** The selector offers exactly the counts from 1 to `MAX_IMAGES_GENERATION`. */
  lemma ImageCountOptionsRange(n: int)
    ensures n in ImageCountOptions() <==> 1 <= n <= Constants.MAX_IMAGES_GENERATION
  {
    var options := ImageCountOptions();
    if 1 <= n <= Constants.MAX_IMAGES_GENERATION {
      assert options[n - 1] == n;
    }
  }

  /** Every count the selector offers reaches the image model unclamped. */
  lemma OfferedCountsAreSentAsIs(apiKey: Option<string>, prompt: string, n: int, reply: Reply<GeminiService.ImagesResponse>)
    requires n in ImageCountOptions()
    ensures var c := GeminiService.GenerateImageFromText(apiKey, prompt, n, reply);
            c.request.Some? ==> c.request.value.numberOfImages == n
  {
    ImageCountOptionsRange(n);
  }

  /** The text-to-image form's state. */
  class TextToImageGenerator {
    const apiKey: Option<string>
    var prompt: string
    var numberOfImages: int
    var generatedImages: seq<string>
    var isLoading: bool
    var error: Option<string>

    /** The count is always one the selector offers. */
    predicate Valid()
      reads this
    {
      numberOfImages in ImageCountOptions()
    }

    constructor (apiKey: Option<string>)
      ensures Valid()
      ensures this.apiKey == apiKey && prompt == "" && numberOfImages == 1
      ensures generatedImages == [] && !isLoading && error.None?
    {
      this.apiKey := apiKey;
      prompt, numberOfImages, generatedImages := "", 1, [];
      isLoading, error := false, None;
      ImageCountOptionsRange(1);
    }

    /** The prompt field's `onChange`. */
    method SetPrompt(p: string)
      modifies this`prompt
      ensures prompt == p
    {
      prompt := p;
    }

    /** The selector's `onChange` for the option at position `choice`: the option's value is
        its count written in decimal, which `parseInt` reads back. */
    method SelectNumberOfImages(choice: nat)
      requires choice < |ImageCountOptions()|
      modifies this`numberOfImages
      ensures Valid()
      ensures numberOfImages == choice + 1
    {
      var value := Text.NatToString(ImageCountOptions()[choice]);
      Text.NatToStringRoundTrip(ImageCountOptions()[choice]);
      numberOfImages := Text.ParseDecimal(value);
    }

    /** `handleGenerateImage`; `reply` is what the image model answers and `request` is the
        request sent, if any. The button is disabled while a generation runs. */
    method HandleGenerateImage(reply: Reply<GeminiService.ImagesResponse>)
      returns (request: Option<GeminiService.ImageRequest>)
      requires !isLoading
      modifies this`isLoading, this`error, this`generatedImages
      ensures !isLoading
      ensures Valid() && request.Some? ==> request.value.numberOfImages == numberOfImages
      ensures Text.IsBlank(old(prompt)) ==>
                request.None? && error == Some(NO_PROMPT) && generatedImages == old(generatedImages)
      ensures !Text.IsBlank(old(prompt)) ==>
                var c := GeminiService.GenerateImageFromText(apiKey, prompt, numberOfImages, reply);
                && request == c.request
                && (c.result.Success? && c.result.value != [] ==>
                      generatedImages == c.result.value && error.None?)
                && (c.result.Success? && c.result.value == [] ==>
                      generatedImages == [] && error == Some(NO_IMAGES))
                && (c.result.Failure? ==>
                      generatedImages == [] && error == Some(Describe(c.result.error, GENERATION_FAILED)))
    {
      if Text.IsBlank(prompt) {
        error := Some(NO_PROMPT);
        return None;
      }
      if Valid() {
        OfferedCountsAreSentAsIs(apiKey, prompt, numberOfImages, reply);
      }
      isLoading := true;
      error := None;
      generatedImages := [];
      var c := GeminiService.GenerateImageFromText(apiKey, prompt, numberOfImages, reply);
      request := c.request;
      match c.result {
        case Success(images) =>
          if |images| > 0 {
            generatedImages := images;
          } else {
            error := Some(NO_IMAGES);
          }
        case Failure(e) =>
          error := Some(Describe(e, GENERATION_FAILED));
      }
      isLoading := false;
    }
  }
}
