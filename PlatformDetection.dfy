/** Platform detection from a URL's host name (utils/platformDetection.ts). */
module PlatformDetection {
  import opened Wrappers
  import opened Strings
  import opened Types

  /** `detectPlatformFromUrl`: the lower-cased host name is tested for
      platform fragments in a fixed order, the first hit wins, and a host
      that matches nothing, or a URL that does not parse, is `Web`. */
  function DetectPlatform(url: Option<ParsedUrl>): (p: Platform)
    ensures url.None? ==> p == Web
  {
    match url
    case None => Web
    case Some(u) =>
      var host := ToLower(u.hostname);
      if Contains(host, "twitter.com") || Contains(host, "x.com") then Twitter
      else if Contains(host, "instagram.com") then Instagram
      else if Contains(host, "tiktok.com") then TikTok
      else if Contains(host, "youtube.com") || Contains(host, "youtu.be") then YouTube
      else if Contains(host, "facebook.com") || Contains(host, "fb.com") then Facebook
      else if Contains(host, "linkedin.com") then LinkedIn
      else if Contains(host, "reddit.com") then Reddit
      else Web
  }

  /** The host-name fragments that identify each platform; `Web` has none. */
  function HostPatterns(p: Platform): seq<string> {
    match p
    case Twitter => ["twitter.com", "x.com"]
    case Instagram => ["instagram.com"]
    case TikTok => ["tiktok.com"]
    case YouTube => ["youtube.com", "youtu.be"]
    case Facebook => ["facebook.com", "fb.com"]
    case LinkedIn => ["linkedin.com"]
    case Reddit => ["reddit.com"]
    case Web => []
  }

  /** The priority order in which platforms are tried. */
  const DetectionOrder: seq<Platform> := [Twitter, Instagram, TikTok, YouTube, Facebook, LinkedIn, Reddit]

  /** Some fragment of `patterns` occurs in `host`. */
  predicate MatchesAny(host: string, patterns: seq<string>)
    decreases |patterns|
  {
    |patterns| > 0 && (Contains(host, patterns[0]) || MatchesAny(host, patterns[1..]))
  }

  /** Some fragment of platform `p` occurs in `host`. */
  predicate Hit(host: string, p: Platform) {
    MatchesAny(host, HostPatterns(p))
  }

  /** Table-driven reference for detection: the first platform of `order`
      whose fragments occur in `host`, or `Web` when none does. */
  function FirstMatch(host: string, order: seq<Platform>): Platform
    decreases |order|
  {
    if |order| == 0 then Web
    else if Hit(host, order[0]) then order[0]
    else FirstMatch(host, order[1..])
  }

  /** `FirstMatch` is `Web` exactly when no platform of `order` is hit, and
      otherwise the platform at the earliest hit position. */
  lemma {:induction false} FirstMatchIsFirst(host: string, order: seq<Platform>)
    ensures FirstMatch(host, order) == Web <==> forall i :: 0 <= i < |order| ==> !Hit(host, order[i])
    ensures FirstMatch(host, order) != Web ==>
      exists i :: 0 <= i < |order| && order[i] == FirstMatch(host, order) && Hit(host, order[i]) &&
        forall j :: 0 <= j < i ==> !Hit(host, order[j])
    decreases |order|
  {
    assert !Hit(host, Web);
    if |order| > 0 && !Hit(host, order[0]) {
      var rest := order[1..];
      FirstMatchIsFirst(host, rest);
      forall i | 1 <= i < |order| ensures order[i] == rest[i - 1] { }
      if FirstMatch(host, rest) != Web {
        var k :| 0 <= k < |rest| && rest[k] == FirstMatch(host, rest) && Hit(host, rest[k]) &&
          forall j :: 0 <= j < k ==> !Hit(host, rest[j]);
        assert order[k + 1] == rest[k];
      }
    }
  }

  /** The if-chain of `detectPlatformFromUrl` is exactly "first match in
      priority order" over the lower-cased host name. */
  lemma DetectIsFirstMatch(u: ParsedUrl)
    ensures DetectPlatform(Some(u)) == FirstMatch(ToLower(u.hostname), DetectionOrder)
  {
    var host := ToLower(u.hostname);
    FirstMatchSpelled(host);
    HitSpelled(host);
  }

  /** `FirstMatch` over `DetectionOrder` unrolled into an if-chain. */
  lemma FirstMatchSpelled(host: string)
    ensures FirstMatch(host, DetectionOrder) ==
      if Hit(host, Twitter) then Twitter
      else if Hit(host, Instagram) then Instagram
      else if Hit(host, TikTok) then TikTok
      else if Hit(host, YouTube) then YouTube
      else if Hit(host, Facebook) then Facebook
      else if Hit(host, LinkedIn) then LinkedIn
      else if Hit(host, Reddit) then Reddit
      else Web
  {
    var o6 := [Reddit];
    var o5 := [LinkedIn] + o6;
    var o4 := [Facebook] + o5;
    var o3 := [YouTube] + o4;
    var o2 := [TikTok] + o3;
    var o1 := [Instagram] + o2;
    assert DetectionOrder == [Twitter] + o1;
    FirstMatchCons(host, Reddit, []);
    assert o6 == [Reddit] + [];
    FirstMatchCons(host, LinkedIn, o6);
    FirstMatchCons(host, Facebook, o5);
    FirstMatchCons(host, YouTube, o4);
    FirstMatchCons(host, TikTok, o3);
    FirstMatchCons(host, Instagram, o2);
    FirstMatchCons(host, Twitter, o1);
  }

  /** Each platform's `Hit` spelled out as the source's tests. */
  lemma HitSpelled(host: string)
    ensures Hit(host, Twitter) == (Contains(host, "twitter.com") || Contains(host, "x.com"))
    ensures Hit(host, Instagram) == Contains(host, "instagram.com")
    ensures Hit(host, TikTok) == Contains(host, "tiktok.com")
    ensures Hit(host, YouTube) == (Contains(host, "youtube.com") || Contains(host, "youtu.be"))
    ensures Hit(host, Facebook) == (Contains(host, "facebook.com") || Contains(host, "fb.com"))
    ensures Hit(host, LinkedIn) == Contains(host, "linkedin.com")
    ensures Hit(host, Reddit) == Contains(host, "reddit.com")
  {
    MatchesPair(host, "twitter.com", "x.com");
    MatchesPair(host, "youtube.com", "youtu.be");
    MatchesPair(host, "facebook.com", "fb.com");
    MatchesSingle(host, "instagram.com");
    MatchesSingle(host, "tiktok.com");
    MatchesSingle(host, "linkedin.com");
    MatchesSingle(host, "reddit.com");
  }

  /** One step of `FirstMatch`. */
  lemma FirstMatchCons(host: string, p: Platform, rest: seq<Platform>)
    ensures FirstMatch(host, [p] + rest) == if Hit(host, p) then p else FirstMatch(host, rest)
  {
    assert ([p] + rest)[1..] == rest;
  }

  /** `MatchesAny` over a two-fragment list is "either fragment occurs". */
  lemma MatchesPair(host: string, a: string, b: string)
    ensures MatchesAny(host, [a, b]) <==> Contains(host, a) || Contains(host, b)
  {
    assert [a, b][1..] == [b];
    MatchesSingle(host, b);
  }

  /** `MatchesAny` over a one-fragment list is "that fragment occurs". */
  lemma MatchesSingle(host: string, a: string)
    ensures MatchesAny(host, [a]) <==> Contains(host, a)
  {
    assert [a][1..] == [];
  }

  /** Only the host name is consulted, and only after lower-casing: changing
      its case, the path or the query never changes the platform. */
  lemma DetectIgnoresCaseAndPath(u: ParsedUrl, pathname: string, query: map<string, string>)
    ensures DetectPlatform(Some(u)) == DetectPlatform(Some(ParsedUrl(ToLower(u.hostname), pathname, query)))
  {
    ToLowerIdempotent(u.hostname);
  }

  /** Matching is by containment, not by suffix: `dropbox.com` holds `x.com`
      and so is detected as X / Twitter. */
  lemma DropboxIsTwitter(pathname: string, query: map<string, string>)
    ensures DetectPlatform(Some(ParsedUrl("dropbox.com", pathname, query))) == Twitter
  {
    var host := "dropbox.com";
    assert ToLower(host) == host;
    assert OccursAt(host, "x.com", 6);
    ContainsAt(host, "x.com", 6);
  }

  /** Likewise any host holding `fb.com` (and no earlier fragment) is
      Facebook, e.g. `notfb.com`. */
  lemma NotFbIsFacebook(pathname: string, query: map<string, string>)
    ensures DetectPlatform(Some(ParsedUrl("notfb.com", pathname, query))) == Facebook
  {
    NotFbFragments();
  }

  /** Which fragments `notfb.com` holds. */
  lemma NotFbFragments()
    ensures ToLower("notfb.com") == "notfb.com"
    ensures !Contains("notfb.com", "twitter.com") && !Contains("notfb.com", "x.com")
    ensures !Contains("notfb.com", "instagram.com") && !Contains("notfb.com", "tiktok.com")
    ensures !Contains("notfb.com", "youtube.com") && !Contains("notfb.com", "youtu.be")
    ensures Contains("notfb.com", "fb.com")
  {
    NotFbLower("notfb.com");
    NotFbMissing("notfb.com");
    NotFbHolds("notfb.com");
  }

  lemma NotFbLower(host: string)
    requires host == "notfb.com"
    ensures ToLower(host) == host
  {
    ToLowerNoUpper(host);
  }

  lemma NotFbMissing(host: string)
    requires host == "notfb.com"
    ensures !Contains(host, "twitter.com") && !Contains(host, "x.com")
    ensures !Contains(host, "instagram.com") && !Contains(host, "tiktok.com")
    ensures !Contains(host, "youtube.com") && !Contains(host, "youtu.be")
  {
    NotContainsMissingChar(host, "twitter.com", 1);
    NotContainsMissingChar(host, "x.com", 0);
    NotContainsMissingChar(host, "instagram.com", 0);
    NotContainsMissingChar(host, "tiktok.com", 1);
    NotContainsMissingChar(host, "youtube.com", 0);
    NotContainsMissingChar(host, "youtu.be", 0);
  }

  lemma NotFbHolds(host: string)
    requires host == "notfb.com"
    ensures Contains(host, "fb.com")
  {
    assert host == "not" + "fb.com";
    assert host[3..9] == "fb.com";
    ContainsAt(host, "fb.com", 3);
  }

  /** `getPlatformDisplayName`: a label for every platform. The source's
      `'Web'` fallback for unknown keys cannot arise: the lookup is total. */
  function DisplayName(p: Platform): (name: string)
    ensures name != "Web" && name != ""
  {
    match p
    case Web => "Web Article"
    case Twitter => "X / Twitter"
    case Instagram => "Instagram"
    case TikTok => "TikTok"
    case YouTube => "YouTube"
    case Facebook => "Facebook"
    case LinkedIn => "LinkedIn"
    case Reddit => "Reddit"
  }

  /** Distinct platforms get distinct labels. */
  lemma DisplayNameInjective(p: Platform, q: Platform)
    requires p != q
    ensures DisplayName(p) != DisplayName(q)
  {
  }
}
