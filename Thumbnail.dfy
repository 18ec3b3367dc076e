/** YouTube thumbnail extraction (utils/thumbnail.ts). */
module Thumbnail {
  import opened Wrappers
  import opened Strings
  import opened Types

  const ThumbnailPrefix := "https://img.youtube.com/vi/"
  const ThumbnailSuffix := "/maxresdefault.jpg"

  /** The maximum-resolution thumbnail address of a video id. */
  function ThumbnailUrl(videoId: string): string {
    ThumbnailPrefix + videoId + ThumbnailSuffix
  }

  /** Reads the video id back out of a thumbnail address. */
  function VideoIdOfThumbnail(url: string): Option<string> {
    if |url| >= |ThumbnailPrefix| + |ThumbnailSuffix|
       && url[..|ThumbnailPrefix|] == ThumbnailPrefix
       && url[|url| - |ThumbnailSuffix|..] == ThumbnailSuffix
    then Some(url[|ThumbnailPrefix|..|url| - |ThumbnailSuffix|])
    else None
  }

  /** The thumbnail address determines its video id. */
  lemma ThumbnailRoundTrip(videoId: string)
    ensures VideoIdOfThumbnail(ThumbnailUrl(videoId)) == Some(videoId)
  {
    var url := ThumbnailUrl(videoId);
    assert url[..|ThumbnailPrefix|] == ThumbnailPrefix;
    assert url[|url| - |ThumbnailSuffix|..] == ThumbnailSuffix;
    assert url[|ThumbnailPrefix|..|url| - |ThumbnailSuffix|] == videoId;
  }

  /** `s.split(sep)[1]` when `s` holds `sep`: the text after the first
      occurrence of `sep`, up to the next occurrence or the end. */
  function SecondPiece(s: string, sep: string): (r: string)
    requires |sep| > 0 && Contains(s, sep)
    ensures var start := IndexOf(s, sep).value + |sep|;
      && start + |r| <= |s|
      && s[start..start + |r|] == r
      && !Contains(r, sep)
      && (start + |r| == |s| || OccursAt(s, sep, start + |r|))
  {
    var i := IndexOf(s, sep).value;
    var after := s[i + |sep|..];
    match IndexOf(after, sep)
    case None => after
    case Some(j) =>
      var r := after[..j];
      SliceOfSuffix(s, i + |sep|, j, j + |sep|);
      forall k: nat ensures !OccursAt(r, sep, k) {
        OccursInPrefix(after, sep, j, k);
      }
      r
  }

  /** The host names that make a URL a YouTube URL. */
  predicate IsYouTubeHost(host: string) {
    Contains(host, "youtube.com") || Contains(host, "youtu.be")
  }

  /** The candidate video id of a YouTube URL, `""` when there is none: a
      `youtu.be` path, else the `v` parameter when it is present (even
      empty), else the piece after `/embed/`, else the piece after `/v/`. */
  function VideoId(u: ParsedUrl): string {
    var host := ToLower(u.hostname);
    if Contains(host, "youtu.be") then
      (if |u.pathname| == 0 then "" else u.pathname[1..])
    else if "v" in u.query then u.query["v"]
    else if Contains(u.pathname, "/embed/") then SecondPiece(u.pathname, "/embed/")
    else if Contains(u.pathname, "/v/") then SecondPiece(u.pathname, "/v/")
    else ""
  }

  /** `getThumbnailFromUrl`: a thumbnail address only for a YouTube host with
      a non-empty video id; `None` otherwise and when the URL does not parse. */
  function GetThumbnail(url: Option<ParsedUrl>): (r: Option<string>)
    ensures url.None? ==> r.None?
    ensures r.Some? ==> IsYouTubeHost(ToLower(url.value.hostname))
    ensures r.Some? ==> exists videoId :: videoId != "" && r.value == ThumbnailUrl(videoId)
    ensures url.Some? && IsYouTubeHost(ToLower(url.value.hostname)) && VideoId(url.value) != "" ==> r.Some?
  {
    match url
    case None => None
    case Some(u) =>
      if IsYouTubeHost(ToLower(u.hostname)) && VideoId(u) != "" then Some(ThumbnailUrl(VideoId(u)))
      else None
  }

  /** A thumbnail, when there is one, names a non-empty video id that can be
      read back out of it. */
  lemma ThumbnailNamesVideo(u: ParsedUrl)
    requires GetThumbnail(Some(u)).Some?
    ensures VideoIdOfThumbnail(GetThumbnail(Some(u)).value) == Some(VideoId(u))
    ensures VideoId(u) != ""
  {
    ThumbnailRoundTrip(VideoId(u));
  }

  /** For a `youtu.be` host the path (minus its first character) is the id,
      whatever the query says. */
  lemma ShortLinkIgnoresQuery(u: ParsedUrl, query: map<string, string>)
    requires Contains(ToLower(u.hostname), "youtu.be")
    ensures GetThumbnail(Some(u)) == GetThumbnail(Some(u.(query := query)))
    ensures GetThumbnail(Some(u)) == if |u.pathname| <= 1 then None else Some(ThumbnailUrl(u.pathname[1..]))
  {
  }

  /** The `v` branch is taken on presence alone: an empty `v` gives no
      thumbnail even when the path has an `/embed/` piece. */
  lemma EmptyVParameterHidesEmbed(host: string, id: string)
    requires Contains(ToLower(host), "youtube.com") && !Contains(ToLower(host), "youtu.be")
    ensures GetThumbnail(Some(ParsedUrl(host, "/embed/" + id, map["v" := ""]))) == None
  {
  }

  /** Without a `v` parameter, `/embed/<id>` yields the thumbnail of `<id>`. */
  lemma EmbedPathGivesId(host: string, id: string, query: map<string, string>)
    requires Contains(ToLower(host), "youtube.com") && !Contains(ToLower(host), "youtu.be")
    requires "v" !in query
    requires id != "" && !Contains(id, "/embed/")
    ensures GetThumbnail(Some(ParsedUrl(host, "/embed/" + id, query))) == Some(ThumbnailUrl(id))
  {
    var path := "/embed/" + id;
    assert OccursAt(path, "/embed/", 0);
    assert IndexOf(path, "/embed/") == Some(0);
    assert path[7..] == id;
  }

  /** A `v` parameter that is present and non-empty is the id. */
  lemma VParameterGivesId(host: string, path: string, query: map<string, string>, id: string)
    requires Contains(ToLower(host), "youtube.com") && !Contains(ToLower(host), "youtu.be")
    requires "v" in query && query["v"] == id && id != ""
    ensures GetThumbnail(Some(ParsedUrl(host, path, query))) == Some(ThumbnailUrl(id))
  {
  }

  /** Without a `v` parameter, `/v/<id>` yields the thumbnail of `<id>`
      when `<id>` is one path segment. */
  lemma VPathGivesId(host: string, id: string, query: map<string, string>)
    requires Contains(ToLower(host), "youtube.com") && !Contains(ToLower(host), "youtu.be")
    requires "v" !in query
    requires id != "" && '/' !in id
    ensures GetThumbnail(Some(ParsedUrl(host, "/v/" + id, query))) == Some(ThumbnailUrl(id))
  {
    var path := "/v/" + id;
    NoEmbedInVPath(id);
    assert OccursAt(path, "/v/", 0);
    assert IndexOf(path, "/v/") == Some(0);
    assert path[3..] == id;
    NotContainsMissingChar(id, "/v/", 0);
  }

  /** `/v/<id>` with one segment `<id>` holds no `/embed/`: its only
      slashes are its first and third characters. */
  lemma NoEmbedInVPath(id: string)
    requires '/' !in id
    ensures !Contains("/v/" + id, "/embed/")
  {
    var path := "/v/" + id;
    forall j: nat ensures !OccursAt(path, "/embed/", j) {
      if j + 7 <= |path| {
        assert path[j + 6] == id[j + 3];
        assert path[j..j + 7][6] != '/';
      }
    }
  }
}
