/** Placeholder titles and descriptions built from a URL without any network
    call (utils/titleGenerator.ts). */
module TitleGenerator {
  import opened Wrappers
  import opened Strings
  import opened Types

  /** `capitalize`: the first character upper-cased, the rest as it was. */
  function Capitalize(s: string): string {
    if |s| == 0 then "" else [UpperChar(s[0])] + s[1..]
  }

  /** Capitalizing keeps the length and every character but the first, and a
      second capitalization changes nothing. */
  lemma CapitalizeOnlyFirst(s: string)
    ensures |Capitalize(s)| == |s|
    ensures |s| > 0 ==> Capitalize(s)[0] == UpperChar(s[0]) && Capitalize(s)[1..] == s[1..]
    ensures Capitalize(Capitalize(s)) == Capitalize(s)
  {
  }

  /** `pathname.split('/').filter(s => s.length > 0)`. */
  function PathSegments(pathname: string): (segs: seq<string>)
    ensures forall k :: 0 <= k < |segs| ==> segs[k] != "" && '/' !in segs[k]
  {
    DropEmpty(Split(pathname, '/'))
  }

  /** Segments that can stand between slashes of a path. */
  predicate WellFormedSegments(segs: seq<string>) {
    forall k :: 0 <= k < |segs| ==> segs[k] != "" && '/' !in segs[k]
  }

  /** Dropping empty pieces from pieces that are all non-empty keeps them all. */
  lemma {:induction false} DropEmptyKeepsNonEmpty(parts: seq<string>)
    requires forall k :: 0 <= k < |parts| ==> parts[k] != ""
    ensures DropEmpty(parts) == parts
    decreases |parts|
  {
    if |parts| > 0 {
      DropEmptyKeepsNonEmpty(parts[1..]);
      assert parts == [parts[0]] + parts[1..];
    }
  }

  /** The path `/a/b/c` has segments `[a, b, c]`: segment extraction undoes
      writing the segments out as a path. */
  lemma PathSegmentsOfPath(segs: seq<string>)
    requires WellFormedSegments(segs)
    ensures PathSegments("/" + Join(segs, '/')) == segs
  {
    var body := Join(segs, '/');
    SplitAfterPiece("", body, '/');
    assert "/" + body == "" + ['/'] + body;
    if |segs| == 0 {
      assert Split(body, '/') == [""];
      assert DropEmpty([""] + [""]) == [];
    } else {
      SplitJoin(segs, '/');
      DropEmptyKeepsNonEmpty(segs);
      assert ([""] + segs)[1..] == segs;
    }
  }

  /** The host name with its first `www.` removed. */
  function Domain(hostname: string): string {
    ReplaceFirst(hostname, "www.", "")
  }

  /** A path segment with every `-` and `_` turned into a space. */
  function Spaced(segment: string): (r: string)
    ensures |r| == |segment|
    ensures '-' !in r && '_' !in r
    ensures forall i :: 0 <= i < |segment| && segment[i] in "-_" ==> r[i] == ' '
    ensures forall i :: 0 <= i < |segment| && segment[i] !in "-_" ==> r[i] == segment[i]
  {
    ReplaceAllChar(ReplaceAllChar(segment, '-', ' '), '_', ' ')
  }

  /** The word every non-web title of a platform begins with. */
  function Brand(p: Platform): string {
    match p
    case Instagram => "Instagram"
    case Twitter => "X"
    case YouTube => "YouTube"
    case TikTok => "TikTok"
    case LinkedIn => "LinkedIn"
    case Reddit => "Reddit"
    case Facebook => "Facebook"
    case Web => ""
  }

  /** `generateTitleFromUrl`: the raw URL when it does not parse, otherwise a
      title from the path segments by per-platform rules, and for the web
      the domain followed by the last segment made readable. */
  function GenerateTitle(url: string, parsed: Option<ParsedUrl>, platform: Platform): (title: string)
    ensures parsed.None? ==> title == url
  {
    match parsed
    case None => url
    case Some(u) => PlatformTitle(platform, "v" in u.query, Domain(u.hostname), PathSegments(u.pathname))
  }

  /** The title of a parsed URL from what the rules look at: the platform,
      whether there is a `v` parameter, the domain and the path segments. */
  function PlatformTitle(platform: Platform, hasV: bool, domain: string, segs: seq<string>): string {
    match platform
    case Instagram => InstagramTitle(segs)
    case Twitter => TwitterTitle(segs)
    case YouTube => YouTubeTitle(hasV, segs)
    case TikTok => TikTokTitle(segs)
    case LinkedIn => LinkedInTitle(segs)
    case Reddit => RedditTitle(segs)
    case Facebook => "Facebook" + " Post"
    case Web => WebTitle(domain, segs)
  }

  /* Each platform's title is written as its brand word followed by the
     rest, which spells the same string as the source's literals. */

  /** `/p/...` is a post, `/reel/...` a reel, `/<name>` an account. */
  function InstagramTitle(segs: seq<string>): string {
    "Instagram" + (
      if |segs| > 0 && segs[0] == "p" then " Post"
      else if |segs| > 0 && segs[0] == "reel" then " Reel"
      else if |segs| > 0 then " - " + Capitalize(segs[0])
      else " Link")
  }

  /** `/<handle>/...` names the account. */
  function TwitterTitle(segs: seq<string>): string {
    "X" + (if |segs| > 0 then " - " + Capitalize(segs[0]) else " / Twitter Link")
  }

  /** A `v` parameter is a video, `/shorts/...` a short, any first segment
      other than `watch`, `embed` and `v` a channel. */
  function YouTubeTitle(hasV: bool, segs: seq<string>): string {
    "YouTube" + (
      if hasV then " Video"
      else if |segs| > 0 && segs[0] == "shorts" then " Short"
      else if |segs| > 0 && segs[0] !in ["watch", "embed", "v"] then " - " + Capitalize(segs[0])
      else " Video")
  }

  /** `/@<handle>/...` names the account. */
  function TikTokTitle(segs: seq<string>): string {
    "TikTok" + (if |segs| > 0 && StartsWith(segs[0], "@") then " - " + Capitalize(segs[0][1..]) else " Video")
  }

  /** `/in/<name>` names the person. */
  function LinkedInTitle(segs: seq<string>): string {
    "LinkedIn" + (if |segs| > 1 && segs[0] == "in" then " - " + Capitalize(segs[1]) else " Post")
  }

  /** `/r/<name>` names the subreddit. */
  function RedditTitle(segs: seq<string>): string {
    "Reddit" + (if |segs| > 1 && segs[0] == "r" then " - r/" + Capitalize(segs[1]) else " Post")
  }

  /** The domain, then the last segment made readable when there is one. */
  function WebTitle(domain: string, segs: seq<string>): string {
    if |segs| > 0 then domain + " - " + Capitalize(Spaced(segs[|segs| - 1])) else domain
  }

  /** A string starts with any prefix it was built from. */
  lemma StartsWithAppend(p: string, rest: string)
    ensures StartsWith(p + rest, p)
  {
    assert (p + rest)[..|p|] == p;
  }

  /** Every title of a parsed URL names where it comes from: the platform's
      brand word, or for the web the domain. */
  lemma TitleNamesSource(url: string, u: ParsedUrl, platform: Platform)
    ensures platform != Web ==> StartsWith(GenerateTitle(url, Some(u), platform), Brand(platform))
    ensures platform == Web ==> StartsWith(GenerateTitle(url, Some(u), platform), Domain(u.hostname))
  {
    PlatformTitleNamesSource(platform, "v" in u.query, Domain(u.hostname), PathSegments(u.pathname));
  }

  /** `PlatformTitle` starts with the brand word, or with the domain. */
  lemma PlatformTitleNamesSource(platform: Platform, hasV: bool, domain: string, segs: seq<string>)
    ensures platform != Web ==> StartsWith(PlatformTitle(platform, hasV, domain, segs), Brand(platform))
    ensures platform == Web ==> StartsWith(PlatformTitle(platform, hasV, domain, segs), domain)
  {
    var t := PlatformTitle(platform, hasV, domain, segs);
    if platform != Web {
      StartsWithAppend(Brand(platform), t[|Brand(platform)|..]);
    } else if |segs| > 0 {
      var tail := " - " + Capitalize(Spaced(segs[|segs| - 1]));
      AppendAssoc(domain, " - ", Capitalize(Spaced(segs[|segs| - 1])));
      StartsWithAppend(domain, tail);
    } else {
      StartsWithAppend(domain, []);
      assert domain + [] == domain;
    }
  }

  /** Instagram titles read off the path `/seg0/...`: `p` is a post, `reel`
      a reel, any other first segment names an account. */
  lemma InstagramTitles(url: string, host: string, segs: seq<string>, query: map<string, string>)
    requires WellFormedSegments(segs)
    ensures GenerateTitle(url, Some(ParsedUrl(host, "/" + Join(segs, '/'), query)), Instagram) == InstagramTitle(segs)
    ensures InstagramTitle(segs) ==
      if |segs| == 0 then "Instagram Link"
      else if segs[0] == "p" then "Instagram Post"
      else if segs[0] == "reel" then "Instagram Reel"
      else "Instagram - " + Capitalize(segs[0])
  {
    var u := ParsedUrl(host, "/" + Join(segs, '/'), query);
    TitleOf(url, u, Instagram);
    PathSegmentsOfPath(segs);
    InstagramTitleSpelled(segs);
  }

  /** `InstagramTitle` spelled out. */
  lemma InstagramTitleSpelled(segs: seq<string>)
    ensures InstagramTitle(segs) ==
      if |segs| == 0 then "Instagram Link"
      else if segs[0] == "p" then "Instagram Post"
      else if segs[0] == "reel" then "Instagram Reel"
      else "Instagram - " + Capitalize(segs[0])
  {
    if |segs| > 0 && segs[0] != "p" && segs[0] != "reel" {
      AppendAssoc("Instagram", " - ", Capitalize(segs[0]));
      assert "Instagram" + " - " == "Instagram - ";
    }
  }

  /** The web title of `/.../last-seg_name` is the domain, a dash, and the
      last segment with separators turned to spaces and capitalized. */
  lemma WebTitleUsesLastSegment(url: string, host: string, segs: seq<string>, query: map<string, string>)
    requires WellFormedSegments(segs) && |segs| > 0
    ensures GenerateTitle(url, Some(ParsedUrl(host, "/" + Join(segs, '/'), query)), Web) ==
      Domain(host) + " - " + Capitalize(Spaced(segs[|segs| - 1]))
  {
    var u := ParsedUrl(host, "/" + Join(segs, '/'), query);
    TitleOf(url, u, Web);
    PathSegmentsOfPath(segs);
    WebPlatformTitle("v" in query, Domain(host), segs);
  }

  /** The web title of non-empty segments. */
  lemma WebPlatformTitle(hasV: bool, domain: string, segs: seq<string>)
    requires |segs| > 0
    ensures PlatformTitle(Web, hasV, domain, segs) == domain + " - " + Capitalize(Spaced(segs[|segs| - 1]))
  {
  }

  /** `GenerateTitle` of a parsed URL, by what its rules look at. */
  lemma TitleOf(url: string, u: ParsedUrl, platform: Platform)
    ensures GenerateTitle(url, Some(u), platform) == PlatformTitle(platform, "v" in u.query, Domain(u.hostname), PathSegments(u.pathname))
  {
  }

  /** `GenerateTitle` of the path `/seg0/seg1/...`, by what its rules look at. */
  lemma TitleOfPath(url: string, host: string, segs: seq<string>, query: map<string, string>, platform: Platform)
    requires WellFormedSegments(segs)
    ensures GenerateTitle(url, Some(ParsedUrl(host, "/" + Join(segs, '/'), query)), platform) ==
      PlatformTitle(platform, "v" in query, Domain(host), segs)
  {
    TitleOf(url, ParsedUrl(host, "/" + Join(segs, '/'), query), platform);
    PathSegmentsOfPath(segs);
  }

  /** Which rule `PlatformTitle` applies to each platform. */
  lemma PlatformTitleCases(platform: Platform, hasV: bool, domain: string, segs: seq<string>)
    ensures platform == Twitter ==> PlatformTitle(platform, hasV, domain, segs) == TwitterTitle(segs)
    ensures platform == YouTube ==> PlatformTitle(platform, hasV, domain, segs) == YouTubeTitle(hasV, segs)
    ensures platform == TikTok ==> PlatformTitle(platform, hasV, domain, segs) == TikTokTitle(segs)
    ensures platform == LinkedIn ==> PlatformTitle(platform, hasV, domain, segs) == LinkedInTitle(segs)
    ensures platform == Reddit ==> PlatformTitle(platform, hasV, domain, segs) == RedditTitle(segs)
  {
  }

  /** X / Twitter titles name the account in the first segment. */
  lemma TwitterTitles(url: string, host: string, segs: seq<string>, query: map<string, string>)
    requires WellFormedSegments(segs)
    ensures GenerateTitle(url, Some(ParsedUrl(host, "/" + Join(segs, '/'), query)), Twitter) ==
      if |segs| == 0 then "X / Twitter Link" else "X - " + Capitalize(segs[0])
  {
    TitleOfPath(url, host, segs, query, Twitter);
    PlatformTitleCases(Twitter, "v" in query, Domain(host), segs);
    TwitterTitleSpelled(segs);
  }

  /** `TwitterTitle` spelled out. */
  lemma TwitterTitleSpelled(segs: seq<string>)
    ensures TwitterTitle(segs) == if |segs| == 0 then "X / Twitter Link" else "X - " + Capitalize(segs[0])
  {
    if |segs| > 0 {
      AppendAssoc("X", " - ", Capitalize(segs[0]));
      assert "X" + " - " == "X - ";
    } else {
      assert "X" + " / Twitter Link" == "X / Twitter Link";
    }
  }

  /** YouTube titles: any `v` parameter makes a video, `/shorts/...` a
      short, another first segment than `watch`, `embed` or `v` a channel,
      and everything else a video. */
  lemma YouTubeTitles(url: string, host: string, segs: seq<string>, query: map<string, string>)
    requires WellFormedSegments(segs)
    ensures GenerateTitle(url, Some(ParsedUrl(host, "/" + Join(segs, '/'), query)), YouTube) ==
      if "v" in query then "YouTube Video"
      else if |segs| > 0 && segs[0] == "shorts" then "YouTube Short"
      else if |segs| > 0 && segs[0] != "watch" && segs[0] != "embed" && segs[0] != "v" then "YouTube - " + Capitalize(segs[0])
      else "YouTube Video"
  {
    TitleOfPath(url, host, segs, query, YouTube);
    PlatformTitleCases(YouTube, "v" in query, Domain(host), segs);
    YouTubeTitleSpelled("v" in query, segs);
  }

  /** `YouTubeTitle` spelled out. */
  lemma YouTubeTitleSpelled(hasV: bool, segs: seq<string>)
    ensures YouTubeTitle(hasV, segs) ==
      if hasV then "YouTube Video"
      else if |segs| > 0 && segs[0] == "shorts" then "YouTube Short"
      else if |segs| > 0 && segs[0] != "watch" && segs[0] != "embed" && segs[0] != "v" then "YouTube - " + Capitalize(segs[0])
      else "YouTube Video"
  {
    assert "YouTube" + " Video" == "YouTube Video";
    assert "YouTube" + " Short" == "YouTube Short";
    if |segs| > 0 {
      assert segs[0] in ["watch", "embed", "v"] <==> segs[0] == "watch" || segs[0] == "embed" || segs[0] == "v";
      AppendAssoc("YouTube", " - ", Capitalize(segs[0]));
      assert "YouTube" + " - " == "YouTube - ";
    }
  }

  /** TikTok titles name the `@handle` of the first segment, without the `@`. */
  lemma TikTokTitles(url: string, host: string, segs: seq<string>, query: map<string, string>)
    requires WellFormedSegments(segs)
    ensures GenerateTitle(url, Some(ParsedUrl(host, "/" + Join(segs, '/'), query)), TikTok) ==
      if |segs| > 0 && segs[0][0] == '@' then "TikTok - " + Capitalize(segs[0][1..]) else "TikTok Video"
  {
    TitleOfPath(url, host, segs, query, TikTok);
    PlatformTitleCases(TikTok, "v" in query, Domain(host), segs);
    TikTokTitleSpelled(segs);
  }

  /** `TikTokTitle` spelled out. */
  lemma TikTokTitleSpelled(segs: seq<string>)
    requires WellFormedSegments(segs)
    ensures TikTokTitle(segs) ==
      if |segs| > 0 && segs[0][0] == '@' then "TikTok - " + Capitalize(segs[0][1..]) else "TikTok Video"
  {
    if |segs| > 0 && segs[0][0] == '@' {
      assert StartsWith(segs[0], "@");
      AppendAssoc("TikTok", " - ", Capitalize(segs[0][1..]));
      assert "TikTok" + " - " == "TikTok - ";
    } else {
      assert |segs| > 0 ==> !StartsWith(segs[0], "@");
      assert "TikTok" + " Video" == "TikTok Video";
    }
  }

  /** LinkedIn titles name the person of `/in/<name>`. */
  lemma LinkedInTitles(url: string, host: string, segs: seq<string>, query: map<string, string>)
    requires WellFormedSegments(segs)
    ensures GenerateTitle(url, Some(ParsedUrl(host, "/" + Join(segs, '/'), query)), LinkedIn) ==
      if |segs| > 1 && segs[0] == "in" then "LinkedIn - " + Capitalize(segs[1]) else "LinkedIn Post"
  {
    TitleOfPath(url, host, segs, query, LinkedIn);
    PlatformTitleCases(LinkedIn, "v" in query, Domain(host), segs);
    LinkedInTitleSpelled(segs);
  }

  /** `LinkedInTitle` spelled out. */
  lemma LinkedInTitleSpelled(segs: seq<string>)
    ensures LinkedInTitle(segs) ==
      if |segs| > 1 && segs[0] == "in" then "LinkedIn - " + Capitalize(segs[1]) else "LinkedIn Post"
  {
    if |segs| > 1 && segs[0] == "in" {
      AppendAssoc("LinkedIn", " - ", Capitalize(segs[1]));
      assert "LinkedIn" + " - " == "LinkedIn - ";
    } else {
      assert "LinkedIn" + " Post" == "LinkedIn Post";
    }
  }

  /** Reddit titles name the subreddit of `/r/<name>`. */
  lemma RedditTitles(url: string, host: string, segs: seq<string>, query: map<string, string>)
    requires WellFormedSegments(segs)
    ensures GenerateTitle(url, Some(ParsedUrl(host, "/" + Join(segs, '/'), query)), Reddit) ==
      if |segs| > 1 && segs[0] == "r" then "Reddit - r/" + Capitalize(segs[1]) else "Reddit Post"
  {
    TitleOfPath(url, host, segs, query, Reddit);
    PlatformTitleCases(Reddit, "v" in query, Domain(host), segs);
    RedditTitleSpelled(segs);
  }

  /** `RedditTitle` spelled out. */
  lemma RedditTitleSpelled(segs: seq<string>)
    ensures RedditTitle(segs) ==
      if |segs| > 1 && segs[0] == "r" then "Reddit - r/" + Capitalize(segs[1]) else "Reddit Post"
  {
    if |segs| > 1 && segs[0] == "r" {
      AppendAssoc("Reddit", " - r/", Capitalize(segs[1]));
      assert "Reddit" + " - r/" == "Reddit - r/";
    } else {
      assert "Reddit" + " Post" == "Reddit Post";
    }
  }

  /** Every parsed Facebook URL gets the same title. */
  lemma FacebookTitles(url: string, u: ParsedUrl)
    ensures GenerateTitle(url, Some(u), Facebook) == "Facebook Post"
  {
    TitleOf(url, u, Facebook);
    assert "Facebook" + " Post" == "Facebook Post";
  }

  /** A host name starting with `www.` loses exactly that prefix. */
  lemma DomainDropsLeadingWww(rest: string)
    ensures Domain("www." + rest) == rest
  {
    assert ("www." + rest)[..4] == "www.";
    assert ("www." + rest)[4..] == rest;
  }

  /** `generateDescriptionFromUrl`: a fixed sentence per platform, a sentence
      naming the domain for the web, and a generic one when the URL does not
      parse. */
  function GenerateDescription(parsed: Option<ParsedUrl>, platform: Platform): (d: string)
    ensures parsed.None? ==> d == "Click to view content"
  {
    match parsed
    case None => "Click to view content"
    case Some(u) =>
      match platform
      case Instagram => "View this post on Instagram"
      case Twitter => "View this post on X / Twitter"
      case YouTube => "Watch this video on YouTube"
      case TikTok => "Watch this video on TikTok"
      case LinkedIn => "View this post on LinkedIn"
      case Reddit => "View this discussion on Reddit"
      case Facebook => "View this post on Facebook"
      case Web => "Visit " + Domain(u.hostname) + " to view this content"
  }

  /** Outside the web case the description does not depend on the URL's
      parts at all; for the web it depends on the host name alone. */
  lemma DescriptionDependsOnHostOnly(u: ParsedUrl, v: ParsedUrl, platform: Platform)
    requires platform == Web ==> u.hostname == v.hostname
    ensures GenerateDescription(Some(u), platform) == GenerateDescription(Some(v), platform)
  {
  }
}
