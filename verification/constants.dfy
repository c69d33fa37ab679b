/** The application's fixed settings: model names, upload limits, accepted media types and
    the feature titles. */
module Constants {

  const GEMINI_TEXT_MODEL := "gemini-2.5-flash-preview-04-17"
  const GEMINI_IMAGE_GEN_MODEL := "imagen-3.0-generate-002"

  /** One mebibyte; every "MB" in the application is `1024 * 1024` bytes. */
  const MIB: nat := 1024 * 1024

  const MAX_FILE_SIZE_MB: nat := 10
  const MAX_VIDEO_FILE_SIZE_MB_FOR_WARNING: nat := 50
  const MAX_FILE_SIZE_BYTES: nat := MAX_FILE_SIZE_MB * MIB

  const ALLOWED_IMAGE_TYPES: seq<string> := ["image/jpeg", "image/png", "image/webp", "image/gif"]
  const ALLOWED_VIDEO_TYPES: seq<string> :=
    ["video/mp4", "video/mpeg", "video/webm", "video/quicktime", "video/x-msvideo",
     "video/x-flv", "video/3gpp", "video/x-matroska"]

  const MAX_IMAGES_GENERATION: nat := 4

  const TEXT_TO_IMAGE := "Text to Image"
  const IMAGE_TO_TEXT := "Image to Text"
  const VIDEO_TO_TEXT := "Video to Text"
  const CHAT_WITH_AI := "Chat with AI"
  const SEARCH_GROUNDING := "Search & Answer"
}
