# Recall: bookmark ingestion, heuristics and recap, in Dafny

Recall is a personal bookmarking app. The user pastes a URL, optionally picks
an image or video file, and the app detects the source platform from the host
name, builds a placeholder title and description from the URL, finds a YouTube
thumbnail, and lists the bookmark at once. When a file was picked, the file is
sent to a generative model for a title, summary and tags, and the bookmark
moves from `pending` through `analyzing` to `completed` or `failed`. On demand,
the recap panel sends every bookmark to the model and shows a summary and a
list of thematic connections; free users see only the first connection.

This project models that core and proves properties of it:

- `Strings.dfy`: the JavaScript string operations the heuristics use
  (`includes`, `startsWith`, `split`, `join`, `filter`, `replace`, case
  mapping), with `split`/`join` round trips.
- `Types.dfy`: the shared records (`Bookmark`, `ConnectionInsight`), the
  platform, media-type and status enumerations, and the parsed form of a URL.
- `PlatformDetection.dfy`: platform detection and display names.
- `Thumbnail.dfy`: the YouTube thumbnail extraction.
- `TitleGenerator.dfy`: heuristic titles and descriptions.
- `Gemini.dfy`: the pure parts of the model client: the data-URL payload,
  the reply-text check, the prompt serialisation of bookmarks, and the
  empty-list short-circuit of the recap request.
- `App.dfy`: the bookmark list as a class whose methods are the list
  updates of the add handler, and the add handler itself as a method that
  runs them in order.
- `AddBookmarkForm.dfy`: the add form as a class (address, platform, file,
  media type) with its platform effect, file picker and submit handler.
- `DailyRecapPanel.dfy`: the recap panel as a class (insights, summary,
  loading, run and pro flags), the lookup of related bookmarks, and the
  free-tier blurring rule.

Everything outside the app's own logic is an input. A URL arrives already
parsed, as `Option<ParsedUrl>`, where `None` means the URL constructor
rejected it. A file read arrives as a `Result`. A call to the model arrives as
a `Reply`, the call's outcome with the response text absent or present. The
decoding of the reply text (`JSON.parse`) is a function parameter. The clock
reading used for ids and time stamps is a parameter.

Some behaviours of the program are easy to misread; the model keeps them as
the code has them:

- The add handler awaits the preview read of the file before it prepends the
  new record (App.tsx:85-96). A record with a file is therefore not listed
  synchronously with the call.
- Thumbnail extraction takes the `v` branch when the parameter is present,
  even if it is empty (thumbnail.ts:12-13). An empty `v` then yields no
  thumbnail even when the path has an `/embed/` piece
  (`Thumbnail.EmptyVParameterHidesEmbed`).
- Ids are clock readings and nothing checks that they are unique (App.tsx:56).
  Two adds in the same millisecond would patch each other's records
  (`App.IdCollisionRevertsCompleted`).
- A failed recap replaces the summary with a fixed message but keeps the
  earlier insights and the "has run" flag (DailyRecap.tsx:26-28).
- Nothing limits the number of connections a recap shows: "up to 3" is only
  text in the prompt (services/gemini.ts:91), and the decoded reply is used
  as it comes (services/gemini.ts:115).

## Model

| member | source | states |
|---|---|---|
| Strings.IndexOf | utils/platformDetection.ts:14 | `indexOf`/`includes`: the result is a position where the fragment occurs and no earlier position holds it; `None` when it occurs nowhere |
| Strings.ContainsIff | utils/platformDetection.ts:14-44 | `includes` holds exactly when the fragment occurs at some position |
| Strings.ToLowerIdempotent | utils/platformDetection.ts:11 | lower-casing twice is lower-casing once |
| Strings.Split | utils/titleGenerator.ts:8 | `split` on one character: never an empty list, and no piece holds the separator |
| Strings.JoinSplit | services/gemini.ts:84-86 | joining the pieces of a split with the separator gives back the string |
| Strings.SplitJoin | services/gemini.ts:84-86 | splitting a join gives back the parts when no part holds the separator |
| Strings.DropEmpty | utils/titleGenerator.ts:8 | `filter(s => s.length > 0)`: every kept piece is non-empty and from the input, and every non-empty input piece is kept |
| Strings.DropEmptyAppend | utils/titleGenerator.ts:8 | filtering a concatenation is the concatenation of the filtered parts: order and multiplicity are kept |
| Strings.DropEmptyLast | utils/titleGenerator.ts:8 | a non-empty last piece, even before a trailing empty one, is the last piece kept |
| Strings.ReplaceFirst | utils/titleGenerator.ts:64 | `replace` with a string pattern: unchanged when the pattern is absent; otherwise the first occurrence, and only it, is swapped for the replacement |
| Strings.ReplaceAllChar | utils/titleGenerator.ts:68 | a global one-character replace keeps the length, turns every replaced character into the new one and keeps every other character |
| PlatformDetection.DetectPlatform | utils/platformDetection.ts:8-54 | a URL that does not parse is `web` |
| PlatformDetection.FirstMatchIsFirst | utils/platformDetection.ts:13-49 | the priority-order reference is `web` exactly when no platform's fragment occurs, and otherwise the earliest platform whose fragment occurs |
| PlatformDetection.DetectIsFirstMatch | utils/platformDetection.ts:10-49 | the if-chain over the lower-cased host name is exactly "first match in priority order" |
| PlatformDetection.HitSpelled | utils/platformDetection.ts:14-46 | the host-name fragments of each platform, as the source tests them |
| PlatformDetection.DetectIgnoresCaseAndPath | utils/platformDetection.ts:10-11 | only the lower-cased host name matters: case, path and query never change the platform |
| PlatformDetection.DropboxIsTwitter | utils/platformDetection.ts:14-16 | matching is by containment: `dropbox.com` holds `x.com` and is detected as X / Twitter |
| PlatformDetection.NotFbIsFacebook | utils/platformDetection.ts:34-36 | `notfb.com` holds `fb.com` and is detected as Facebook |
| PlatformDetection.DisplayName | utils/platformDetection.ts:61-74 | every platform has a non-empty label other than the unreachable `'Web'` fallback |
| PlatformDetection.DisplayNameInjective | utils/platformDetection.ts:62-71 | distinct platforms get distinct labels |
| Thumbnail.ThumbnailRoundTrip | utils/thumbnail.ts:20-23 | the thumbnail address determines its video id |
| Thumbnail.SecondPiece | utils/thumbnail.ts:14-17 | `split(sep)[1]`: the text right after the first occurrence, without the separator, reaching the end or the next occurrence |
| Thumbnail.GetThumbnail | utils/thumbnail.ts:1-34 | a thumbnail exactly for a parsed URL with a YouTube host and a non-empty video id, and it names a non-empty id |
| Thumbnail.ThumbnailNamesVideo | utils/thumbnail.ts:7-23 | a thumbnail's video id reads back as the id extracted from the URL, and it is non-empty |
| Thumbnail.ShortLinkIgnoresQuery | utils/thumbnail.ts:10-11 | for a `youtu.be` host the id is the path minus its first character, whatever the query |
| Thumbnail.EmptyVParameterHidesEmbed | utils/thumbnail.ts:12-15 | an empty `v` parameter yields no thumbnail even with an `/embed/<id>` path |
| Thumbnail.EmbedPathGivesId | utils/thumbnail.ts:14-15 | without `v`, `/embed/<id>` yields the thumbnail of `<id>` |
| Thumbnail.VParameterGivesId | utils/thumbnail.ts:12-13 | on a youtube.com host a non-empty `v` parameter is the id, whatever the path |
| Thumbnail.VPathGivesId | utils/thumbnail.ts:16-17 | without `v`, `/v/<id>` with a one-segment id yields the thumbnail of `<id>` |
| Thumbnail.NoEmbedInVPath | utils/thumbnail.ts:14-16 | a `/v/<id>` path with a one-segment id holds no `/embed/`, so the `/v/` branch is reached |
| TitleGenerator.CapitalizeOnlyFirst | utils/titleGenerator.ts:3 | capitalizing keeps the length and every character but the first, and is idempotent |
| TitleGenerator.PathSegments | utils/titleGenerator.ts:8 | path segments are non-empty and hold no slash |
| TitleGenerator.PathSegmentsOfPath | utils/titleGenerator.ts:8 | the segments of `/a/b/c` are `[a, b, c]` |
| TitleGenerator.Spaced | utils/titleGenerator.ts:68 | the readable segment has the same length, each `-` or `_` becomes a space and every other character is kept |
| TitleGenerator.GenerateTitle | utils/titleGenerator.ts:73-75 | a URL that does not parse is its own title |
| TitleGenerator.TitleOfPath | utils/titleGenerator.ts:7-10 | the title of `/seg0/seg1/...` is decided by the platform, the `v` parameter, the domain and exactly those segments |
| TitleGenerator.TitleNamesSource | utils/titleGenerator.ts:10-71 | every title starts with the platform's brand word, and a web title with the domain |
| TitleGenerator.InstagramTitles | utils/titleGenerator.ts:11-18 | Instagram: `/p/...` is a post, `/reel/...` a reel, another first segment an account, no segment a link |
| TitleGenerator.TwitterTitles | utils/titleGenerator.ts:20-25 | X / Twitter: the first segment names the account; no segment gives the generic link title |
| TitleGenerator.YouTubeTitles | utils/titleGenerator.ts:27-38 | YouTube: any `v` parameter is a video, `/shorts/...` a short, a first segment other than `watch`, `embed`, `v` a channel, anything else a video |
| TitleGenerator.TikTokTitles | utils/titleGenerator.ts:40-45 | TikTok: an `@handle` first segment names the account without the `@`; otherwise a video |
| TitleGenerator.LinkedInTitles | utils/titleGenerator.ts:47-51 | LinkedIn: `/in/<name>` names the person; otherwise a post |
| TitleGenerator.RedditTitles | utils/titleGenerator.ts:53-57 | Reddit: `/r/<name>` names the subreddit; otherwise a post |
| TitleGenerator.FacebookTitles | utils/titleGenerator.ts:59-60 | every parsed Facebook URL gets the same post title |
| TitleGenerator.WebTitleUsesLastSegment | utils/titleGenerator.ts:62-71 | a web title is the domain, a dash and the last segment with `-`/`_` as spaces, capitalized |
| TitleGenerator.DomainDropsLeadingWww | utils/titleGenerator.ts:64 | a host name beginning with `www.` loses exactly that prefix |
| TitleGenerator.GenerateDescription | utils/titleGenerator.ts:78-104 | a URL that does not parse gets the generic description |
| TitleGenerator.DescriptionDependsOnHostOnly | utils/titleGenerator.ts:80-100 | descriptions depend on the host name alone, and only for the web |
| Gemini.FileToGenerativePart | services/gemini.ts:16-31 | a failed read fails; otherwise the part carries the file's own type |
| Gemini.InlineDataRoundTrip | services/gemini.ts:19-26 | the payload of a base64 data URL comes back unchanged |
| Gemini.ResponseText | services/gemini.ts:63-64 | the text is used exactly when the call succeeded with a non-empty text; otherwise the call's error or "no response" |
| Gemini.AnalyzeBookmarkMedia | services/gemini.ts:36-71 | a failed read or a missing text fails the analysis; when the read worked and the text is there, the result is the decoded text |
| Gemini.OrFallback | services/gemini.ts:85 | the or-fallback: an absent or empty value gives way to the fallback text |
| Gemini.BookmarkLines | services/gemini.ts:84-85 | one prompt line per bookmark, in order |
| Gemini.BookmarkLineIsOneLine | services/gemini.ts:85 | the line of a bookmark without line breaks in its fields holds none |
| Gemini.BookmarksTextSplitsIntoLines | services/gemini.ts:84-86 | n such bookmarks serialise to exactly n lines, the i-th describing the i-th bookmark |
| Gemini.ConnectionsRequest | services/gemini.ts:79-86 | no request is made exactly when the list is empty; otherwise it carries the bookmark lines |
| Gemini.FindConnections | services/gemini.ts:76-121 | an empty list gives the fixed empty digest without asking the model; otherwise the model is asked about the bookmark text, a missing text fails, and a present one gives its decoding |
| Gemini.FindConnectionsAsksAboutBookmarks | services/gemini.ts:84-115 | the recap depends on the model only through its answer about the bookmark text |
| App.ThumbnailedLinkMediaType | App.tsx:59-69 | with no file, a URL with a thumbnail is detected as X / Twitter, Instagram, TikTok or YouTube, and is an image exactly for the first two, else a video |
| App.FileKeepsChosenMediaType | App.tsx:62-63 | with a file the form's media type stands |
| App.NewBookmark | App.tsx:72-83 | the new record: heuristic title and description, thumbnail if any, no tags, no payload, pending |
| App.AttachPreview | App.tsx:85-93 | a successful read stores the payload and changes nothing else; a failed read leaves the record |
| App.ApplyPatch | App.tsx:101-121 | a patch never changes id, address, platform, media type, time stamp or payloads; a status patch keeps title, summary and tags |
| App.OutcomePatch | App.tsx:103-118 | the final status is completed exactly for a successful analysis and failed exactly for a failed one |
| App.ReplaceById | App.tsx:101 | `map` by id: same length, records with the id patched, all others kept in place |
| App.ReplaceAbsentId | App.tsx:101 | a patch for an id nobody carries changes nothing |
| App.ReplaceByIdAppend | App.tsx:101 | a patch distributes over concatenated lists |
| App.ReplaceByIdPastOthers | App.tsx:96-121 | records prepended meanwhile by other adds, with other ids, are untouched by this add's patches |
| App.ReplaceFreshHead | App.tsx:96-101 | with a fresh id a patch after the prepend touches the new record alone |
| App.IdCollisionRevertsCompleted | App.tsx:56 | with clashing ids a later add sends a completed record back to analyzing |
| App.LifecycleAdvances | App.tsx:82-122 | a new record's statuses start pending, only move forward, and end completed (no file, or analysis succeeded) or failed |
| App.Settled | App.tsx:99-122 | after its patches the new record keeps its identity fields, ends in the last status of its lifecycle, carries the analysis on success and keeps the heuristic fields otherwise |
| App.BookmarkStore.constructor | App.tsx:51-52 | the list starts as given, nothing in progress |
| App.BookmarkStore.BeginAdd | App.tsx:55-83 | the flag is raised and the draft record built; the list is untouched |
| App.BookmarkStore.Prepend | App.tsx:96 | the record is put in front of the list |
| App.BookmarkStore.PatchById | App.tsx:101 | the list is patched by id |
| App.BookmarkStore.EndAdd | App.tsx:124 | the flag is lowered |
| App.BookmarkStore.Settle | App.tsx:99-122 | the head record goes through the patches of its lifecycle, its recorded statuses are exactly that lifecycle, and with a fresh id the rest of the list is untouched |
| App.BookmarkStore.AddBookmark | App.tsx:54-125 | the list grows by one record in front, the rest unchanged for a fresh id; the record is completed with heuristic fields without a file, and with a file carries the preview payload and is completed with the analysis or failed with the heuristic title and description; its statuses over the handler are exactly the lifecycle of its outcome |
| App.WatchLinkScenario | App.tsx:36-47 | `www.youtube.com/watch?v=dQw4w9WgXcQ` without a file is YouTube, gets that video's thumbnail and is a video, as in the sample record |
| AddBookmarkForm.MediaTypeOfFile | components/AddBookmark.tsx:42-46 | video exactly for a `video/` type (or when already video and the type is neither), image likewise, and never text unless it was |
| AddBookmarkForm.Form.constructor | components/AddBookmark.tsx:12-15 | the empty form: no address, web, no file, text |
| AddBookmarkForm.Form.ChangeUrl | components/AddBookmark.tsx:19-24 | a non-empty address has its platform detected; an empty one keeps the last platform |
| AddBookmarkForm.Form.ChangeFile | components/AddBookmark.tsx:37-48 | an empty selection changes nothing; otherwise the first file is kept and its type may set the media type |
| AddBookmarkForm.Form.Submit | components/AddBookmark.tsx:26-35 | nothing happens for an empty address; otherwise the request carries the form's state, its platform is the one detected for the address, a request without a file is text, and the form is reset |
| DailyRecapPanel.Recap.constructor | components/DailyRecap.tsx:11-15 | nothing generated, nothing loading, free tier |
| DailyRecapPanel.Recap.StartRecap | components/DailyRecap.tsx:18-20 | an empty list returns with nothing changed; otherwise loading starts |
| DailyRecapPanel.Recap.FinishRecap | components/DailyRecap.tsx:21-31 | a digest replaces summary and insights and marks the run; a failure shows the fixed message and keeps insights and run flag; loading ends |
| DailyRecapPanel.Recap.GenerateRecap | components/DailyRecap.tsx:18-32 | the whole handler: nothing for an empty list, otherwise the outcome of the connection request shown as above |
| DailyRecapPanel.Recap.UnlockPro | components/DailyRecap.tsx:34-36 | the pro flag is set |
| DailyRecapPanel.FindById | components/DailyRecap.tsx:177 | `find`: `None` exactly when no record carries the id, otherwise the first record that does |
| DailyRecapPanel.RelatedBookmarks | components/DailyRecap.tsx:176-178 | at most one avatar per id, each a listed bookmark named by one of the ids |
| DailyRecapPanel.RelatedAppend | components/DailyRecap.tsx:176-178 | resolving concatenated id lists resolves each part in turn |
| DailyRecapPanel.RelatedSkipsUnknown | components/DailyRecap.tsx:177-178 | an id no bookmark carries adds no avatar |
| DailyRecapPanel.RelatedAllListed | components/DailyRecap.tsx:176-178 | when every id is listed, one avatar per id in the ids' order |
| DailyRecapPanel.BlurredCount | components/DailyRecap.tsx:166 | a free user has every card but the first blurred; a pro user none |
| DailyRecapPanel.OverlayCountsBlurredCards | components/DailyRecap.tsx:199-206 | the upgrade overlay shows exactly when a card is blurred, and the number it announces is the number of blurred cards |
| DailyRecapPanel.ProSeesEverything | components/DailyRecap.tsx:166-199 | a pro user has no blurred card and no overlay |

## Left out

- URL parsing: the URL constructor, its host-name normalisation and its
  percent-decoding are not modelled; every operation takes the parse result.
  A query holds one value per name, the one `searchParams.get` returns.
- Case mapping is ASCII only. `toLowerCase` on host names the parser has
  already normalised is unaffected. `toUpperCase` in `capitalize` on a
  non-ASCII first character (for example one that expands to two characters)
  is not modelled.
- The `FileReader` and base64 encoding: a read is an input, either a data URL
  or a failure.
- The model calls: client set-up, model names, prompts, the system
  instruction and the media kind passed into the prompt text. The JSON
  decoding of a reply is a function parameter and its shape is not checked,
  as in the source.
- Logging (`console.error`) and every piece of rendering: markup, styles,
  animation, the period selector and its fixed percentages, the "created
  yesterday" count (the list length), and the disabling of buttons while
  busy.
- Interleaving of asynchronous handlers. `App.BookmarkStore.AddBookmark` runs
  one add's steps back to back; the step methods and
  `App.ReplaceByIdPastOthers` cover other adds prepending in between.
- The clock: ids and time stamps are parameters.
- The three sample bookmarks the list starts with: the store's constructor
  takes any initial list.
- The `DailyDigest` type of types.ts, which nothing uses; the recap result is
  `Gemini.Digest`.
- The bookmark list component (components/BookmarkList.tsx) is not part of
  this model.
- Thumbnail.SecondPiece: requires a non-empty separator that occurs in the
  path, which both call sites check before splitting.
- Gemini.BookmarksTextSplitsIntoLines: requires that no id, title or summary
  holds a line break; a field with one adds lines to the prompt.
- AddBookmarkForm.Form.ChangeUrl: takes the address and its parse as two
  inputs; that the second is the parse of the first is the caller's promise.
