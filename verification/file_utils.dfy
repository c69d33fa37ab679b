/** Upload helpers: the MIME type accepted for a picked file, and the base64 payload of a
    file read as a data URL. */
module FileUtils {
  import opened Common
  import Text
  import Constants

  /** The parts of a browser `File` the application looks at. */
  datatype File = File(name: string, mimeType: string, size: nat)

  /** How `FileReader.readAsDataURL` ends: `onload` with the data URL, or `onerror`, whose
      argument is an event and not an `Error`. */
  datatype ReadOutcome = Loaded(dataUrl: string) | ReadFailed

  const QUICKTIME := "video/quicktime"
  const MOV := "mov"
  const EXTRACT_FAILED := "Failed to extract base64 string from file."

  /** `File is too large. Max size is ${MAX_FILE_SIZE_BYTES / (1024*1024)}MB.` */
  const TOO_LARGE := "File is too large. Max size is "
                     + Text.NatToString(Constants.MAX_FILE_SIZE_BYTES / Constants.MIB) + "MB."

  /** `file.name.split('.').pop()?.toLowerCase()`: the lowercased text after the last dot, or
      the whole lowercased name when it has no dot. */
  function Extension(name: string): (e: string)
    ensures '.' !in e
    ensures forall i :: 0 <= i < |e| ==> !Text.IsUpper(e[i])
  {
    var last := Text.LastField(name, '.');
    var e := Text.ToLower(last);
    assert forall i :: 0 <= i < |e| ==> e[i] == Text.Lower(last[i]);
    e
  }

  /** A dotted name's extension is its lowercased last segment. */
  lemma ExtensionOfDotted(stem: string, ext: string)
    requires '.' !in ext
    ensures Extension(stem + "." + ext) == Text.ToLower(ext)
  {
    Text.LastFieldAfter(stem, '.', ext);
    Text.SplitSingle(ext, '.');
  }

  /** A name without a dot is its own extension, lowercased. */
  lemma ExtensionOfUndotted(name: string)
    requires '.' !in name
    ensures Extension(name) == Text.ToLower(name)
  {
    Text.SplitSingle(name, '.');
  }

  /** `getMimeType`: the browser's type when it is allowed; otherwise `video/quicktime` for a
      `.mov` name when that type is allowed; otherwise no type. */
  function GetMimeType(file: File, allowedTypes: seq<string>): (r: Option<string>)
    ensures file.mimeType in allowedTypes ==> r == Some(file.mimeType)
    ensures r.Some? ==> r.value in allowedTypes
    ensures file.mimeType !in allowedTypes && r.Some? ==>
              r.value == QUICKTIME && Extension(file.name) == MOV
    ensures file.mimeType !in allowedTypes && Extension(file.name) == MOV && QUICKTIME in allowedTypes ==>
              r == Some(QUICKTIME)
  {
    if file.mimeType in allowedTypes then Some(file.mimeType)
    else if Extension(file.name) == MOV && QUICKTIME in allowedTypes then Some(QUICKTIME)
    else None
  }

  /** A QuickTime clip whose browser type is unknown is still recognised as a video by its
      extension, whatever the case of the extension. */
  lemma MovFallbackForVideos(stem: string, ext: string, browserType: string)
    requires '.' !in ext && Text.ToLower(ext) == MOV
    requires browserType !in Constants.ALLOWED_VIDEO_TYPES
    ensures GetMimeType(File(stem + "." + ext, browserType, 0), Constants.ALLOWED_VIDEO_TYPES) == Some(QUICKTIME)
  {
    ExtensionOfDotted(stem, ext);
    QuickTimeIsVideoType();
  }

  lemma QuickTimeIsVideoType()
    ensures QUICKTIME in Constants.ALLOWED_VIDEO_TYPES
  {
    assert Constants.ALLOWED_VIDEO_TYPES[3] == QUICKTIME;
  }

  /** No image type is ever inferred from a name: image uploads need an allowed browser type. */
  lemma ImagesNeedBrowserType(file: File)
    ensures GetMimeType(file, Constants.ALLOWED_IMAGE_TYPES).Some? <==>
              file.mimeType in Constants.ALLOWED_IMAGE_TYPES
  {
    assert QUICKTIME !in Constants.ALLOWED_IMAGE_TYPES;
  }

  /** `result.split(',')[1]`, failing when that field is missing or empty. */
  function ExtractPayload(dataUrl: string): (r: Result<string, Thrown>)
    ensures r.Success? ==> r.value != "" && ',' !in r.value
    ensures r.Failure? ==> r.error == Error(EXTRACT_FAILED)
    ensures ',' !in dataUrl ==> r.Failure?
  {
    var fields := Text.Split(dataUrl, ',');
    if |fields| >= 2 && fields[1] != "" then Success(fields[1])
    else Failure(Error(EXTRACT_FAILED))
  }

  /** The payload is the second comma-separated field of the URL, whatever follows it. */
  lemma PayloadIsSecondField(fields: seq<string>)
    requires |fields| >= 1
    requires forall k :: 0 <= k < |fields| ==> ',' !in fields[k]
    ensures ExtractPayload(Text.Join(fields, ",")) ==
              if |fields| >= 2 && fields[1] != "" then Success(fields[1])
              else Failure(Error(EXTRACT_FAILED))
  {
    Text.JoinThenSplit(fields, ',');
  }

  /** A data URL `header,payload` gives back its payload. */
  lemma PayloadRoundTrip(header: string, payload: string)
    requires ',' !in header && ',' !in payload && payload != ""
    ensures ExtractPayload(header + "," + payload) == Success(payload)
  {
    PayloadIsSecondField([header, payload]);
    assert Text.Join([header, payload], ",") == header + "," + payload;
  }

  lemma PayloadOfDataUrl()
    ensures ExtractPayload("data:m;base64,XYZ") == Success("XYZ")
  {
    var header, payload := "data:m;base64", "XYZ";
    assert ',' !in header;
    PayloadRoundTrip(header, payload);
    assert header + "," + payload == "data:m;base64,XYZ";
  }

  /** `fileToBase64`: the size check comes before any read; a file of exactly the limit
      passes; the read's data URL then has its payload extracted. */
  function FileToBase64(file: File, read: ReadOutcome): (r: Result<string, Thrown>)
    ensures file.size > Constants.MAX_FILE_SIZE_BYTES ==> r == Failure(Error(TOO_LARGE))
    ensures file.size <= Constants.MAX_FILE_SIZE_BYTES && read.ReadFailed? ==> r == Failure(NonError)
    ensures file.size <= Constants.MAX_FILE_SIZE_BYTES && read.Loaded? ==> r == ExtractPayload(read.dataUrl)
    ensures r.Success? ==> file.size <= Constants.MAX_FILE_SIZE_BYTES && r.value != "" && ',' !in r.value
  {
    if file.size > Constants.MAX_FILE_SIZE_BYTES then Failure(Error(TOO_LARGE))
    else match read
      case ReadFailed => Failure(NonError)
      case Loaded(url) => ExtractPayload(url)
  }
}
