/** The add-bookmark form (components/AddBookmark.tsx): its four pieces of
    state, the platform effect that follows the address field, the file
    picker and the submit handler. */
module AddBookmarkForm {
  import opened Wrappers
  import opened Strings
  import opened Types
  import opened PlatformDetection

  /** What a submit hands to the add handler: `onAdd(url, platform, file, mediaType)`. */
  datatype AddRequest = AddRequest(url: string, platform: Platform, file: Option<FileInfo>, mediaType: MediaType)

  /** A picked file's declared type decides the media type: `video/...` is
      video, `image/...` an image, and any other type keeps the current one. */
  function MediaTypeOfFile(mimeType: string, current: MediaType): (m: MediaType)
    ensures m == Video <==> StartsWith(mimeType, "video/") || (!StartsWith(mimeType, "image/") && current == Video)
    ensures m == Image <==> StartsWith(mimeType, "image/") || (!StartsWith(mimeType, "video/") && current == Image)
    ensures m == Text ==> current == Text
  {
    VideoOrImage(mimeType);
    if StartsWith(mimeType, "video/") then Video
    else if StartsWith(mimeType, "image/") then Image
    else current
  }

  /** No type starts with both `video/` and `image/`. */
  lemma VideoOrImage(mimeType: string)
    ensures !(StartsWith(mimeType, "video/") && StartsWith(mimeType, "image/"))
  {
    if StartsWith(mimeType, "video/") {
      assert mimeType[..6][0] == 'v';
      assert mimeType[0] == 'v';
    }
  }

  class Form {
    var url: string
    var platform: Platform
    var file: Option<FileInfo>
    var mediaType: MediaType
    /** How `url` parses; the form itself keeps only the text. */
    ghost var parsed: Option<ParsedUrl>

    /** A non-empty address carries its detected platform, and with no file
        picked the media type is text. */
    ghost predicate Valid()
      reads this
    {
      && (url != "" ==> platform == DetectPlatform(parsed))
      && (file.None? ==> mediaType == Text)
    }

    /** The empty form: no address, web, no file, text. */
    constructor()
      ensures Valid()
      ensures url == "" && platform == Web && file.None? && mediaType == Text
    {
      url := "";
      platform := Web;
      file := None;
      mediaType := Text;
      parsed := None;
    }

    /** `setUrl` followed by the effect on `[url]`: a non-empty address has
        its platform detected again; clearing the field keeps the last
        platform. */
    method ChangeUrl(newUrl: string, newParsed: Option<ParsedUrl>)
      requires Valid()
      modifies this`url, this`platform, this`parsed
      ensures Valid()
      ensures url == newUrl && parsed == newParsed
      ensures platform == if newUrl != "" then DetectPlatform(newParsed) else old(platform)
    {
      url := newUrl;
      parsed := newParsed;
      if newUrl != "" {
        platform := DetectPlatform(newParsed);
      }
    }

    /** `handleFileChange`: an empty selection does nothing; otherwise the
        first file is kept and its type may change the media type. */
    method ChangeFile(files: seq<FileInfo>)
      requires Valid()
      modifies this`file, this`mediaType
      ensures Valid()
      ensures |files| == 0 ==> file == old(file) && mediaType == old(mediaType)
      ensures |files| > 0 ==> file == Some(files[0]) && mediaType == MediaTypeOfFile(files[0].mimeType, old(mediaType))
    {
      if |files| > 0 {
        file := Some(files[0]);
        mediaType := MediaTypeOfFile(files[0].mimeType, mediaType);
      }
    }

    /** `handleSubmit`: with an empty address nothing happens; otherwise the
        current state goes to the add handler and the form is reset. The
        request's platform is always the one detected for its address, and a
        request without a file is always text. */
    method Submit() returns (request: Option<AddRequest>)
      requires Valid()
      modifies this`url, this`platform, this`file, this`mediaType, this`parsed
      ensures Valid()
      ensures old(url) == "" ==>
        && request.None?
        && url == old(url) && platform == old(platform) && file == old(file) && mediaType == old(mediaType)
      ensures old(url) != "" ==>
        && request == Some(AddRequest(old(url), old(platform), old(file), old(mediaType)))
        && url == "" && platform == Web && file.None? && mediaType == Text
      ensures request.Some? ==> request.value.platform == DetectPlatform(old(parsed))
      ensures request.Some? && request.value.file.None? ==> request.value.mediaType == Text
    {
      if url == "" {
        request := None;
      } else {
        request := Some(AddRequest(url, platform, file, mediaType));
        url := "";
        file := None;
        mediaType := Text;
        platform := Web;
        parsed := None;
      }
    }
  }
}
