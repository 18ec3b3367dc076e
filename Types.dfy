/** The records shared by every part of the app (types.ts), plus the parsed
    form of a URL that the heuristics take as input. */
module Types {
  import opened Wrappers

  /** The content source a URL belongs to. */
  datatype Platform = Twitter | Instagram | TikTok | Web | YouTube | Facebook | LinkedIn | Reddit

  datatype MediaType = Image | Video | Text

  /** Where a bookmark is in its analysis lifecycle. */
  datatype AnalysisStatus = Pending | Analyzing | Completed | Failed

  /** One saved item. `title` and `summary` are optional in the source, as are
      the preview payload and the remote thumbnail. */
  datatype Bookmark = Bookmark(
    id: string,
    url: string,
    platform: Platform,
    mediaType: MediaType,
    title: Option<string>,
    summary: Option<string>,
    tags: seq<string>,
    createdAt: int,
    mediaData: Option<string>,
    thumbnailUrl: Option<string>,
    analysisStatus: AnalysisStatus)

  /** A thematic link between bookmarks, naming them by id. */
  datatype ConnectionInsight = ConnectionInsight(title: string, description: string, relatedBookmarkIds: seq<string>)

  /** A file the user picked: its name and declared MIME type (`file.type`);
      its bytes are never looked at by the modelled logic. */
  datatype FileInfo = FileInfo(name: string, mimeType: string)

  /** What `new URL(url)` yields when it succeeds: the host name, the path and
      the query parameters (one value per name, the one `searchParams.get`
      returns). A URL the parser rejects is `None` wherever `Option<ParsedUrl>`
      is taken. */
  datatype ParsedUrl = ParsedUrl(hostname: string, pathname: string, query: map<string, string>)

  /** The string each platform is spelled as in the source (`'twitter'`, ...). */
  function PlatformTag(p: Platform): string {
    match p
    case Twitter => "twitter"
    case Instagram => "instagram"
    case TikTok => "tiktok"
    case Web => "web"
    case YouTube => "youtube"
    case Facebook => "facebook"
    case LinkedIn => "linkedin"
    case Reddit => "reddit"
  }
}
