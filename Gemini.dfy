/** The pure parts of the analysis client (services/gemini.ts): the data-URL
    payload split, the check on the model's reply text, the serialisation of
    bookmarks into prompt lines, and the short-circuit on an empty list. The
    network call and `JSON.parse` are parameters: the call's outcome is a
    `Reply`, and decoding the reply text is a function passed in. */
module Gemini {
  import opened Wrappers
  import opened Strings
  import opened Types

  datatype Error = FileReadFailed | CallFailed | NoResponseText | MalformedReply

  /** What one media analysis yields. */
  datatype Analysis = Analysis(title: string, summary: string, tags: seq<string>)

  /** What a recap yields. */
  datatype Digest = Digest(summary: string, insights: seq<ConnectionInsight>)

  /** `inlineData`: the base64 payload (absent when the data URL has no
      comma) and the declared MIME type. */
  datatype InlineData = InlineData(data: Option<string>, mimeType: string)

  /** The outcome of one call to the model: the call failed, or it returned
      a response whose text field may be absent. */
  type Reply = Result<Option<string>, Error>

  /** The reply to an empty recap request, made without calling the model. */
  const EmptyDigest := Digest("No bookmarks to analyze yet.", [])

  /** `fileToGenerativePart`: a failed read fails; otherwise the data URL's
      text between its first and second comma, and the file's own type. */
  function FileToGenerativePart(read: Result<string, Error>, mimeType: string): (r: Result<InlineData, Error>)
    ensures r.Failure? <==> read.Failure?
    ensures r.Success? ==> r.value.mimeType == mimeType
  {
    match read
    case Failure(e) => Failure(e)
    case Success(dataUrl) =>
      var fields := Split(dataUrl, ',');
      Success(InlineData(if |fields| >= 2 then Some(fields[1]) else None, mimeType))
  }

  /** The data URL `readAsDataURL` produces for a base64 payload. */
  function DataUrl(mimeType: string, payload: string): string {
    "data:" + mimeType + ";base64," + payload
  }

  /** The payload of a data URL comes back out unchanged, provided neither
      the type nor the payload holds a comma (base64 never does). */
  lemma InlineDataRoundTrip(mimeType: string, payload: string)
    requires ',' !in mimeType && ',' !in payload
    ensures FileToGenerativePart(Success(DataUrl(mimeType, payload)), mimeType) == Success(InlineData(Some(payload), mimeType))
  {
    var header := "data:" + mimeType + ";base64";
    assert ',' !in header;
    assert DataUrl(mimeType, payload) == header + [','] + payload;
    SplitAfterPiece(header, payload, ',');
    SplitWithoutSep(payload, ',');
  }

  /** `response.text` with the `if (!text) throw` check: an absent or empty
      text is an error, as is a failed call. */
  function ResponseText(reply: Reply): (r: Result<string, Error>)
    ensures r.Success? <==> reply.Success? && reply.value.Some? && reply.value.value != ""
    ensures r.Success? ==> r.value == reply.value.value
    ensures reply.Success? && r.Failure? ==> r.error == NoResponseText
  {
    match reply
    case Failure(e) => Failure(e)
    case Success(None) => Failure(NoResponseText)
    case Success(Some(text)) => if text == "" then Failure(NoResponseText) else Success(text)
  }

  /** `analyzeBookmarkMedia`: read the file, call the model, decode its text.
      Any failure on the way is the result. */
  function AnalyzeBookmarkMedia(read: Result<string, Error>, mimeType: string, reply: Reply,
                                decode: string -> Result<Analysis, Error>): (r: Result<Analysis, Error>)
    ensures read.Failure? ==> r.Failure?
    ensures ResponseText(reply).Failure? ==> r.Failure?
    ensures r.Success? ==> read.Success? && decode(ResponseText(reply).value).Success?
    ensures read.Success? && ResponseText(reply).Success? ==> r == decode(ResponseText(reply).value)
  {
    match FileToGenerativePart(read, mimeType)
    case Failure(e) => Failure(e)
    case Success(_) =>
      match ResponseText(reply)
      case Failure(e) => Failure(e)
      case Success(text) => decode(text)
  }

  /** `b.title || 'Untitled'` and the like: an absent or empty value gives
      way to the fallback. */
  function OrFallback(value: Option<string>, fallback: string): (r: string)
    ensures value.Some? && value.value != "" ==> r == value.value
    ensures (value.None? || value.value == "") ==> r == fallback
  {
    if value.Some? && value.value != "" then value.value else fallback
  }

  /** The one prompt line that describes a bookmark. */
  function BookmarkLine(b: Bookmark): string {
    "ID: " + b.id + " | Type: " + PlatformTag(b.platform)
      + " | Title: " + OrFallback(b.title, "Untitled")
      + " | Summary: " + OrFallback(b.summary, "No summary")
  }

  /** The prompt lines, one per bookmark, in order. */
  function BookmarkLines(bookmarks: seq<Bookmark>): (lines: seq<string>)
    ensures |lines| == |bookmarks|
    ensures forall i :: 0 <= i < |bookmarks| ==> lines[i] == BookmarkLine(bookmarks[i])
  {
    seq(|bookmarks|, i requires 0 <= i < |bookmarks| => BookmarkLine(bookmarks[i]))
  }

  /** `bookmarks.map(...).join('\n')`. */
  function BookmarksText(bookmarks: seq<Bookmark>): string {
    Join(BookmarkLines(bookmarks), '\n')
  }

  /** A bookmark whose own text fields hold no line break. */
  predicate SingleLine(b: Bookmark) {
    && '\n' !in b.id
    && (b.title.Some? ==> '\n' !in b.title.value)
    && (b.summary.Some? ==> '\n' !in b.summary.value)
  }

  /** Such a bookmark's prompt line holds no line break either. */
  lemma BookmarkLineIsOneLine(b: Bookmark)
    requires SingleLine(b)
    ensures '\n' !in BookmarkLine(b)
  {
    var tag := PlatformTag(b.platform);
    assert '\n' !in tag;
    var title := OrFallback(b.title, "Untitled");
    var summary := OrFallback(b.summary, "No summary");
    assert '\n' !in title && '\n' !in summary;
    assert BookmarkLine(b) == "ID: " + b.id + " | Type: " + tag + " | Title: " + title + " | Summary: " + summary;
  }

  /** n single-line bookmarks give exactly n lines, the i-th describing the
      i-th bookmark. (A title or summary with its own line break would add
      lines.) */
  lemma BookmarksTextSplitsIntoLines(bookmarks: seq<Bookmark>)
    requires |bookmarks| > 0
    requires forall i :: 0 <= i < |bookmarks| ==> SingleLine(bookmarks[i])
    ensures Split(BookmarksText(bookmarks), '\n') == BookmarkLines(bookmarks)
    ensures |Split(BookmarksText(bookmarks), '\n')| == |bookmarks|
  {
    var lines := BookmarkLines(bookmarks);
    forall k | 0 <= k < |lines| ensures '\n' !in lines[k] {
      BookmarkLineIsOneLine(bookmarks[k]);
    }
    SplitJoin(lines, '\n');
  }

  /** The bookmark text the recap request carries, or `None` when no request
      is made at all. */
  function ConnectionsRequest(bookmarks: seq<Bookmark>): (r: Option<string>)
    ensures r.None? <==> |bookmarks| == 0
    ensures r.Some? ==> r.value == BookmarksText(bookmarks)
  {
    if |bookmarks| == 0 then None else Some(BookmarksText(bookmarks))
  }

  /** `findConnections`: an empty list short-circuits to `EmptyDigest`
      without calling the model; otherwise the model is called with the
      bookmark text (`call` stands for the request built around it) and its
      reply's text is checked and decoded. */
  function FindConnections(bookmarks: seq<Bookmark>, call: string -> Reply,
                           decode: string -> Result<Digest, Error>): (r: Result<Digest, Error>)
    ensures |bookmarks| == 0 ==> r == Success(EmptyDigest)
    ensures |bookmarks| > 0 && ResponseText(call(BookmarksText(bookmarks))).Failure? ==> r.Failure?
    ensures |bookmarks| > 0 && ResponseText(call(BookmarksText(bookmarks))).Success? ==>
      r == decode(ResponseText(call(BookmarksText(bookmarks))).value)
  {
    match ConnectionsRequest(bookmarks)
    case None => Success(EmptyDigest)
    case Some(text) =>
      match ResponseText(call(text))
      case Failure(e) => Failure(e)
      case Success(reply) => decode(reply)
  }

  /** The recap depends on the model only through its answer about these
      bookmarks' text: two models that answer that text alike give the same
      recap, and for an empty list any two models do. */
  lemma FindConnectionsAsksAboutBookmarks(bookmarks: seq<Bookmark>, call: string -> Reply, other: string -> Reply,
                                          decode: string -> Result<Digest, Error>)
    requires |bookmarks| > 0 ==> call(BookmarksText(bookmarks)) == other(BookmarksText(bookmarks))
    ensures FindConnections(bookmarks, call, decode) == FindConnections(bookmarks, other, decode)
  {
  }
}
