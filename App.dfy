/** The bookmark list and the add-bookmark flow of the root component
    (App.tsx). The list is the field `bookmarks` of a `BookmarkStore`; each
    `setBookmarks(prev => ...)` of the source is one method that reassigns
    it, and `handleAddBookmark` is the driver that runs those steps in the
    source's order, the awaited results (file reads, the model's reply) being
    its parameters. */
module App {
  import opened Wrappers
  import opened Strings
  import opened Types
  import opened PlatformDetection
  import opened Thumbnail
  import opened TitleGenerator
  import opened Gemini

  /** `finalMediaType`: with no file and a thumbnail found, YouTube and TikTok
      are video and anything else an image; otherwise the form's choice
      stands. */
  function FinalMediaType(hasFile: bool, thumbnail: Option<string>, platform: Platform, chosen: MediaType): MediaType {
    if !hasFile && thumbnail.Some? then (if platform == YouTube || platform == TikTok then Video else Image)
    else chosen
  }

  /** A URL that yields a thumbnail is detected as YouTube unless an earlier
      fragment of the detection order also occurs in its host: so with no
      file and the detected platform, the record is a video, or an image
      exactly when the host also names X / Twitter or Instagram. */
  lemma ThumbnailedLinkMediaType(u: ParsedUrl, chosen: MediaType)
    requires GetThumbnail(Some(u)).Some?
    ensures DetectPlatform(Some(u)) in {Twitter, Instagram, TikTok, YouTube}
    ensures FinalMediaType(false, GetThumbnail(Some(u)), DetectPlatform(Some(u)), chosen) ==
      if DetectPlatform(Some(u)) in {Twitter, Instagram} then Image else Video
  {
    assert IsYouTubeHost(ToLower(u.hostname));
  }

  /** A file always keeps the form's media type. */
  lemma FileKeepsChosenMediaType(thumbnail: Option<string>, platform: Platform, chosen: MediaType)
    ensures FinalMediaType(true, thumbnail, platform, chosen) == chosen
  {
  }

  /** The record `handleAddBookmark` builds before its first await: heuristic
      title and description, the thumbnail if any, no tags, pending. */
  function NewBookmark(id: string, url: string, parsed: Option<ParsedUrl>, platform: Platform,
                       hasFile: bool, chosen: MediaType, now: int): (b: Bookmark)
    ensures b.id == id && b.url == url && b.platform == platform && b.createdAt == now
    ensures b.analysisStatus == Pending && b.tags == [] && b.mediaData.None?
    ensures b.title == Some(GenerateTitle(url, parsed, platform))
    ensures b.summary == Some(GenerateDescription(parsed, platform))
    ensures b.thumbnailUrl == GetThumbnail(parsed)
    ensures b.mediaType == FinalMediaType(hasFile, b.thumbnailUrl, platform, chosen)
  {
    var thumbnail := GetThumbnail(parsed);
    Bookmark(id, url, platform, FinalMediaType(hasFile, thumbnail, platform, chosen),
             Some(GenerateTitle(url, parsed, platform)), Some(GenerateDescription(parsed, platform)),
             [], now, None, thumbnail, Pending)
  }

  /** The preview payload is stored when the file was read; a failed read is
      swallowed and leaves the record as it was. */
  function AttachPreview(b: Bookmark, part: Result<InlineData, Error>): (r: Bookmark)
    ensures part.Failure? ==> r == b
    ensures part.Success? ==> r.mediaData == part.value.data && r.(mediaData := b.mediaData) == b
  {
    match part
    case Failure(_) => b
    case Success(inline) => b.(mediaData := inline.data)
  }

  /** The updates applied to a listed record by id. */
  datatype Patch = SetStatus(status: AnalysisStatus) | Merge(analysis: Analysis)

  /** `{ ...b, ... }`: a status change, or the analysis merged in with the
      record completed. Identity, address, platform, media type, time stamp
      and media payloads are never touched. */
  function ApplyPatch(b: Bookmark, p: Patch): (r: Bookmark)
    ensures r.id == b.id && r.url == b.url && r.platform == b.platform && r.mediaType == b.mediaType
    ensures r.createdAt == b.createdAt && r.mediaData == b.mediaData && r.thumbnailUrl == b.thumbnailUrl
    ensures r.analysisStatus == PatchedStatus(p)
    ensures p.SetStatus? ==> r.title == b.title && r.summary == b.summary && r.tags == b.tags
  {
    match p
    case SetStatus(s) => b.(analysisStatus := s)
    case Merge(a) => b.(title := Some(a.title), summary := Some(a.summary), tags := a.tags, analysisStatus := Completed)
  }

  /** The status a patch leaves. */
  function PatchedStatus(p: Patch): AnalysisStatus {
    match p
    case SetStatus(s) => s
    case Merge(_) => Completed
  }

  /** The final update of an analysed record: merged results, or failed. */
  function OutcomePatch(outcome: Result<Analysis, Error>): (p: Patch)
    ensures outcome.Success? <==> PatchedStatus(p) == Completed
    ensures outcome.Failure? <==> PatchedStatus(p) == Failed
  {
    match outcome
    case Success(a) => Merge(a)
    case Failure(_) => SetStatus(Failed)
  }

  /** `prev.map(b => b.id === id ? patch(b) : b)`: every record carrying the
      id is patched, every other record is kept, the order is kept. */
  function ReplaceById(s: seq<Bookmark>, id: string, p: Patch): (r: seq<Bookmark>)
    ensures |r| == |s|
    ensures forall i :: 0 <= i < |s| ==> r[i] == if s[i].id == id then ApplyPatch(s[i], p) else s[i]
    decreases |s|
  {
    if |s| == 0 then []
    else [if s[0].id == id then ApplyPatch(s[0], p) else s[0]] + ReplaceById(s[1..], id, p)
  }

  /** No listed record carries `id`. */
  predicate Fresh(s: seq<Bookmark>, id: string) {
    forall i :: 0 <= i < |s| ==> s[i].id != id
  }

  /** Patching an id nobody carries changes nothing. */
  lemma ReplaceAbsentId(s: seq<Bookmark>, id: string, p: Patch)
    requires Fresh(s, id)
    ensures ReplaceById(s, id, p) == s
  {
  }

  /** A non-empty list is its head before its tail, also inside a
      concatenation. */
  lemma UnconsAppend<T>(s: seq<T>, t: seq<T>)
    requires |s| > 0
    ensures s == [s[0]] + s[1..] && s + t == [s[0]] + (s[1..] + t)
  {
  }

  /** Patching a list patches its head, then the rest. */
  lemma ReplaceCons(b: Bookmark, s: seq<Bookmark>, id: string, p: Patch)
    ensures ReplaceById([b] + s, id, p) == [if b.id == id then ApplyPatch(b, p) else b] + ReplaceById(s, id, p)
  {
    assert ([b] + s)[1..] == s;
  }

  /** Patching a list distributes over its concatenation. */
  lemma {:induction false} ReplaceByIdAppend(s: seq<Bookmark>, t: seq<Bookmark>, id: string, p: Patch)
    ensures ReplaceById(s + t, id, p) == ReplaceById(s, id, p) + ReplaceById(t, id, p)
    decreases |s|
  {
    if |s| == 0 {
      assert s + t == t;
    } else {
      ReplaceByIdAppend(s[1..], t, id, p);
      UnconsAppend(s, t);
      ReplaceCons(s[0], s[1..] + t, id, p);
      ReplaceCons(s[0], s[1..], id, p);
    }
  }

  /** Records other adds prepended meanwhile, none with this id, do not
      disturb a patch aimed at this one: the patch reaches exactly the
      records below them. */
  lemma ReplaceByIdPastOthers(others: seq<Bookmark>, s: seq<Bookmark>, id: string, p: Patch)
    requires Fresh(others, id)
    ensures ReplaceById(others + s, id, p) == others + ReplaceById(s, id, p)
  {
    ReplaceByIdAppend(others, s, id, p);
    ReplaceAbsentId(others, id, p);
  }

  /** With a fresh id, a patch after the prepend touches the new record alone. */
  lemma ReplaceFreshHead(b: Bookmark, s: seq<Bookmark>, p: Patch)
    requires Fresh(s, b.id)
    ensures ReplaceById([b] + s, b.id, p) == [ApplyPatch(b, p)] + s
  {
    ReplaceByIdAppend([b], s, b.id, p);
    ReplaceAbsentId(s, b.id, p);
  }

  /** Ids come from the clock and are not checked for uniqueness: a second
      add in the same millisecond patches the earlier record too, and can
      send a completed record back to analyzing. */
  lemma IdCollisionRevertsCompleted(added: Bookmark, earlier: Bookmark)
    requires added.id == earlier.id && earlier.analysisStatus == Completed
    ensures ReplaceById([added, earlier], added.id, SetStatus(Analyzing))[1].analysisStatus == Analyzing
  {
  }

  /** The forward moves of the analysis lifecycle. */
  predicate Advances(from: AnalysisStatus, to: AnalysisStatus) {
    || (from == Pending && (to == Analyzing || to == Completed))
    || (from == Analyzing && (to == Completed || to == Failed))
  }

  /** The statuses a new record passes through, given the analysis outcome
      (`None` when there is no file): pending, then completed without a
      file; pending, analyzing, then completed or failed with one. */
  function Lifecycle(outcome: Option<Result<Analysis, Error>>): seq<AnalysisStatus> {
    match outcome
    case None => [Pending, Completed]
    case Some(o) => [Pending, Analyzing, PatchedStatus(OutcomePatch(o))]
  }

  /** Every step of a new record's life moves forward and ends in a final
      status, completed exactly when there was no file or the analysis
      succeeded. */
  lemma LifecycleAdvances(outcome: Option<Result<Analysis, Error>>)
    ensures var trace := Lifecycle(outcome);
      && trace[0] == Pending
      && (forall k :: 0 < k < |trace| ==> Advances(trace[k - 1], trace[k]))
      && (trace[|trace| - 1] == Completed <==> outcome.None? || outcome.value.Success?)
      && (trace[|trace| - 1] == Failed <==> outcome.Some? && outcome.value.Failure?)
  {
  }

  /** The new record once its analysis has settled: completed as it was
      without a file; with one, first analyzing, then merged or failed. */
  function Settled(b: Bookmark, outcome: Option<Result<Analysis, Error>>): (r: Bookmark)
    ensures r.id == b.id && r.url == b.url && r.platform == b.platform && r.mediaType == b.mediaType
    ensures r.createdAt == b.createdAt && r.mediaData == b.mediaData && r.thumbnailUrl == b.thumbnailUrl
    ensures r.analysisStatus == Lifecycle(outcome)[|Lifecycle(outcome)| - 1]
    ensures (outcome.None? || outcome.value.Failure?) ==> r.title == b.title && r.summary == b.summary && r.tags == b.tags
    ensures outcome.Some? && outcome.value.Success? ==>
      && r.title == Some(outcome.value.value.title) && r.summary == Some(outcome.value.value.summary)
      && r.tags == outcome.value.value.tags
  {
    match outcome
    case None => ApplyPatch(b, SetStatus(Completed))
    case Some(o) => ApplyPatch(ApplyPatch(b, SetStatus(Analyzing)), OutcomePatch(o))
  }

  class BookmarkStore {
    var bookmarks: seq<Bookmark>
    var isProcessing: bool

    /** The list starts as the given records, nothing in progress. */
    constructor(initial: seq<Bookmark>)
      ensures bookmarks == initial && !isProcessing
    {
      bookmarks := initial;
      isProcessing := false;
    }

    /** Up to the first await: raise the flag and build the record. */
    method BeginAdd(id: string, url: string, parsed: Option<ParsedUrl>, platform: Platform,
                    hasFile: bool, chosen: MediaType, now: int) returns (draft: Bookmark)
      modifies this`isProcessing
      ensures isProcessing
      ensures draft == NewBookmark(id, url, parsed, platform, hasFile, chosen, now)
    {
      isProcessing := true;
      draft := NewBookmark(id, url, parsed, platform, hasFile, chosen, now);
    }

    /** `setBookmarks(prev => [b, ...prev])`. */
    method Prepend(b: Bookmark)
      modifies this`bookmarks
      ensures bookmarks == [b] + old(bookmarks)
    {
      bookmarks := [b] + bookmarks;
    }

    /** `setBookmarks(prev => prev.map(...))` for one patch. */
    method PatchById(id: string, p: Patch)
      modifies this`bookmarks
      ensures bookmarks == ReplaceById(old(bookmarks), id, p)
    {
      bookmarks := ReplaceById(bookmarks, id, p);
    }

    /** `setIsProcessing(false)`. */
    method EndAdd()
      modifies this`isProcessing
      ensures !isProcessing
    {
      isProcessing := false;
    }

    /** The `setBookmarks` calls after the prepend, for the record `draft`
        at the head of the list: completed at once without a file; with one,
        marked analyzing, then patched with the analysis outcome. `trace`
        records the head's status after the prepend and after each call. */
    method Settle(draft: Bookmark, outcome: Option<Result<Analysis, Error>>) returns (ghost trace: seq<AnalysisStatus>)
      requires |bookmarks| > 0 && bookmarks[0] == draft && draft.analysisStatus == Pending
      modifies this`bookmarks
      ensures |bookmarks| == |old(bookmarks)|
      ensures bookmarks[0] == Settled(draft, outcome)
      ensures Fresh(old(bookmarks)[1..], draft.id) ==> bookmarks[1..] == old(bookmarks)[1..]
      ensures trace == Lifecycle(outcome)
    {
      ghost var rest := bookmarks[1..];
      assert bookmarks == [draft] + rest;
      trace := [draft.analysisStatus];
      match outcome {
        case None =>
          ReplaceCons(draft, rest, draft.id, SetStatus(Completed));
          PatchById(draft.id, SetStatus(Completed));
          assert bookmarks[0].analysisStatus == Completed;
          trace := trace + [bookmarks[0].analysisStatus];
          assert trace == [Pending, Completed];
          if Fresh(rest, draft.id) {
            ReplaceAbsentId(rest, draft.id, SetStatus(Completed));
          }
        case Some(o) =>
          ReplaceCons(draft, rest, draft.id, SetStatus(Analyzing));
          PatchById(draft.id, SetStatus(Analyzing));
          assert bookmarks[0].analysisStatus == Analyzing;
          trace := trace + [bookmarks[0].analysisStatus];
          ghost var analyzing := ApplyPatch(draft, SetStatus(Analyzing));
          ghost var rest2 := ReplaceById(rest, draft.id, SetStatus(Analyzing));
          ReplaceCons(analyzing, rest2, draft.id, OutcomePatch(o));
          PatchById(draft.id, OutcomePatch(o));
          assert bookmarks[0].analysisStatus == PatchedStatus(OutcomePatch(o));
          trace := trace + [bookmarks[0].analysisStatus];
          assert trace == [Pending, Analyzing, PatchedStatus(OutcomePatch(o))];
          if Fresh(rest, draft.id) {
            ReplaceAbsentId(rest, draft.id, SetStatus(Analyzing));
            ReplaceAbsentId(rest, draft.id, OutcomePatch(o));
          }
      }
    }

    /** `handleAddBookmark`, its steps run in order with nothing interleaved.
        `preview` is the read done for the local preview, `analysisRead` the
        second read done inside the analysis; `reply` and `decode` stand for
        the model call and `JSON.parse`, so the analysis outcome is a value
        of the inputs. The new record heads the list; with a fresh id the
        rest of the list is untouched. `trace` records the new record's
        status after each `setBookmarks`. */
    method AddBookmark(id: string, url: string, parsed: Option<ParsedUrl>, platform: Platform,
                       file: Option<FileInfo>, chosen: MediaType, now: int,
                       preview: Result<string, Error>, analysisRead: Result<string, Error>,
                       reply: Reply, decode: string -> Result<Analysis, Error>)
      returns (ghost trace: seq<AnalysisStatus>)
      modifies this
      ensures !isProcessing
      ensures |bookmarks| == |old(bookmarks)| + 1
      ensures Fresh(old(bookmarks), id) ==> bookmarks[1..] == old(bookmarks)
      ensures var b := bookmarks[0];
        && b.id == id && b.url == url && b.platform == platform && b.createdAt == now
        && b.thumbnailUrl == GetThumbnail(parsed)
        && b.mediaType == FinalMediaType(file.Some?, GetThumbnail(parsed), platform, chosen)
      ensures file.None? ==> var b := bookmarks[0];
        && b.analysisStatus == Completed && b.tags == [] && b.mediaData.None?
        && b.title == Some(GenerateTitle(url, parsed, platform))
        && b.summary == Some(GenerateDescription(parsed, platform))
      ensures file.Some? ==> var b := bookmarks[0];
        var part := FileToGenerativePart(preview, file.value.mimeType);
        var outcome := AnalyzeBookmarkMedia(analysisRead, file.value.mimeType, reply, decode);
        && b.mediaData == (if part.Success? then part.value.data else None)
        && (outcome.Success? ==>
              && b.analysisStatus == Completed && b.title == Some(outcome.value.title)
              && b.summary == Some(outcome.value.summary) && b.tags == outcome.value.tags)
        && (outcome.Failure? ==>
              && b.analysisStatus == Failed && b.tags == []
              && b.title == Some(GenerateTitle(url, parsed, platform))
              && b.summary == Some(GenerateDescription(parsed, platform)))
      ensures trace == Lifecycle(if file.Some? then Some(AnalyzeBookmarkMedia(analysisRead, file.value.mimeType, reply, decode)) else None)
      ensures trace[|trace| - 1] == bookmarks[0].analysisStatus
    {
      var draft := BeginAdd(id, url, parsed, platform, file.Some?, chosen, now);
      if file.Some? {
        draft := AttachPreview(draft, FileToGenerativePart(preview, file.value.mimeType));
      }
      Prepend(draft);
      assert bookmarks[1..] == old(bookmarks);
      var outcome := if file.Some? then Some(AnalyzeBookmarkMedia(analysisRead, file.value.mimeType, reply, decode)) else None;
      trace := Settle(draft, outcome);
      EndAdd();
    }
  }

  /** A YouTube watch link added without a file: detected as YouTube, given
      the video's thumbnail, typed as a video and completed at once. */
  lemma WatchLinkScenario(parsedHost: string, query: map<string, string>)
    requires parsedHost == "www.youtube.com" && query == map["v" := "dQw4w9WgXcQ"]
    ensures var u := ParsedUrl(parsedHost, "/watch", query);
      && DetectPlatform(Some(u)) == YouTube
      && GetThumbnail(Some(u)) == Some(ThumbnailUrl("dQw4w9WgXcQ"))
      && FinalMediaType(false, GetThumbnail(Some(u)), YouTube, Text) == Video
  {
    var u := ParsedUrl(parsedHost, "/watch", query);
    WatchHostFragments();
    assert GetThumbnail(Some(u)) == Some(ThumbnailUrl("dQw4w9WgXcQ"));
  }

  /** Which fragments `www.youtube.com` holds. */
  lemma WatchHostFragments()
    ensures ToLower("www.youtube.com") == "www.youtube.com"
    ensures !Contains("www.youtube.com", "twitter.com") && !Contains("www.youtube.com", "x.com")
    ensures !Contains("www.youtube.com", "instagram.com") && !Contains("www.youtube.com", "tiktok.com")
    ensures Contains("www.youtube.com", "youtube.com") && !Contains("www.youtube.com", "youtu.be")
  {
    WatchHostLower("www.youtube.com");
    WatchHostMissing("www.youtube.com");
    WatchHostHolds("www.youtube.com");
    ShortHostAbsent("www.youtube.com");
  }

  lemma WatchHostLower(host: string)
    requires host == "www.youtube.com"
    ensures ToLower(host) == host
  {
    ToLowerNoUpper(host);
  }

  lemma WatchHostMissing(host: string)
    requires host == "www.youtube.com"
    ensures !Contains(host, "twitter.com") && !Contains(host, "x.com")
    ensures !Contains(host, "instagram.com") && !Contains(host, "tiktok.com")
  {
    NotContainsMissingChar(host, "x.com", 0);
    NotContainsMissingChar(host, "instagram.com", 0);
    NotContainsMissingChar(host, "twitter.com", 2);
    NotContainsMissingChar(host, "tiktok.com", 1);
  }

  lemma WatchHostHolds(host: string)
    requires host == "www.youtube.com"
    ensures Contains(host, "youtube.com")
  {
    assert host == "www." + "youtube.com";
    assert host[4..15] == "youtube.com";
    ContainsAt(host, "youtube.com", 4);
  }

  /** `youtu.be` does not occur in `www.youtube.com`. */
  lemma ShortHostAbsent(host: string)
    requires host == "www.youtube.com"
    ensures !Contains(host, "youtu.be")
  {
    forall j: nat ensures !OccursAt(host, "youtu.be", j) {
      if j + 8 <= |host| {
        var w := host[j..j + 8];
        assert w[0] == host[j] && w[5] == host[j + 5];
        assert j == 0 || j == 1 || j == 2 || j == 3 || j == 4 || j == 5 || j == 6 || j == 7;
      }
    }
  }
}
