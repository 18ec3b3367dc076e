/** The recap panel (components/DailyRecap.tsx): the recap request and its
    outcome, the related-bookmark lookup under each insight, and the rule
    that free users see the first insight only. */
module DailyRecapPanel {
  import opened Wrappers
  import opened Types
  import opened Gemini

  /** The summary shown when a recap request fails. */
  const RecapFailureSummary := "Could not generate recap at this time."

  class Recap {
    var insights: seq<ConnectionInsight>
    var summary: string
    var loading: bool
    var hasRun: bool
    var isPro: bool

    /** Nothing generated yet, nothing loading, free tier. */
    constructor()
      ensures insights == [] && summary == "" && !loading && !hasRun && !isPro
    {
      insights := [];
      summary := "";
      loading := false;
      hasRun := false;
      isPro := false;
    }

    /** Up to the await of `handleGenerateRecap`: an empty list returns at
        once with nothing changed; otherwise loading starts. */
    method StartRecap(bookmarks: seq<Bookmark>) returns (started: bool)
      modifies this`loading
      ensures started <==> |bookmarks| > 0
      ensures loading == (started || old(loading))
    {
      started := |bookmarks| > 0;
      if started {
        loading := true;
      }
    }

    /** After the await: a digest replaces summary and insights and marks
        the recap as run; a failure shows the fixed apology and keeps the
        earlier insights and run flag. Loading ends either way. */
    method FinishRecap(result: Result<Digest, Error>)
      modifies this`insights, this`summary, this`hasRun, this`loading
      ensures !loading
      ensures result.Success? ==> summary == result.value.summary && insights == result.value.insights && hasRun
      ensures result.Failure? ==> summary == RecapFailureSummary && insights == old(insights) && hasRun == old(hasRun)
    {
      match result {
        case Success(digest) =>
          summary := digest.summary;
          insights := digest.insights;
          hasRun := true;
        case Failure(_) =>
          summary := RecapFailureSummary;
      }
      loading := false;
    }

    /** `handleGenerateRecap` as a whole, `call` and `decode` standing for
        the model call and `JSON.parse`. The panel never asks for an empty
        list, so the canned empty digest is never what it shows. */
    method GenerateRecap(bookmarks: seq<Bookmark>, call: string -> Reply, decode: string -> Result<Digest, Error>)
      modifies this`insights, this`summary, this`hasRun, this`loading
      ensures |bookmarks| == 0 ==>
        insights == old(insights) && summary == old(summary) && hasRun == old(hasRun) && loading == old(loading)
      ensures |bookmarks| > 0 ==> !loading && var result := FindConnections(bookmarks, call, decode);
        && (result.Success? ==> summary == result.value.summary && insights == result.value.insights && hasRun)
        && (result.Failure? ==> summary == RecapFailureSummary && insights == old(insights) && hasRun == old(hasRun))
    {
      var started := StartRecap(bookmarks);
      if started {
        FinishRecap(FindConnections(bookmarks, call, decode));
      }
    }

    /** `handleUnlockPro`. */
    method UnlockPro()
      modifies this`isPro
      ensures isPro
    {
      isPro := true;
    }
  }

  /** `bookmarks.find(b => b.id === id)`: the first record carrying the id. */
  function FindById(bookmarks: seq<Bookmark>, id: string): (r: Option<Bookmark>)
    ensures r.None? <==> forall i :: 0 <= i < |bookmarks| ==> bookmarks[i].id != id
    ensures r.Some? ==> r.value.id == id
    ensures r.Some? ==>
      exists i :: 0 <= i < |bookmarks| && bookmarks[i] == r.value && (forall j :: 0 <= j < i ==> bookmarks[j].id != id)
    decreases |bookmarks|
  {
    if |bookmarks| == 0 then None
    else if bookmarks[0].id == id then Some(bookmarks[0])
    else FindById(bookmarks[1..], id)
  }

  /** The avatars under one insight: each id resolved in order, ids no
      listed bookmark carries skipped. */
  function RelatedBookmarks(bookmarks: seq<Bookmark>, ids: seq<string>): (r: seq<Bookmark>)
    ensures |r| <= |ids|
    ensures forall k :: 0 <= k < |r| ==> r[k] in bookmarks && r[k].id in ids
    decreases |ids|
  {
    if |ids| == 0 then []
    else
      var rest := RelatedBookmarks(bookmarks, ids[1..]);
      match FindById(bookmarks, ids[0])
      case None => rest
      case Some(b) => [b] + rest
  }

  /** Some listed bookmark carries `id`. */
  predicate Listed(bookmarks: seq<Bookmark>, id: string) {
    exists i :: 0 <= i < |bookmarks| && bookmarks[i].id == id
  }

  /** Every id carried by some listed bookmark. */
  predicate AllListed(bookmarks: seq<Bookmark>, ids: seq<string>) {
    forall k :: 0 <= k < |ids| ==> Listed(bookmarks, ids[k])
  }

  /** Resolving a concatenation of id lists resolves each part in turn. */
  lemma {:induction false} RelatedAppend(bookmarks: seq<Bookmark>, ids: seq<string>, more: seq<string>)
    ensures RelatedBookmarks(bookmarks, ids + more) == RelatedBookmarks(bookmarks, ids) + RelatedBookmarks(bookmarks, more)
    decreases |ids|
  {
    if |ids| > 0 {
      assert (ids + more)[1..] == ids[1..] + more;
      RelatedAppend(bookmarks, ids[1..], more);
    } else {
      assert ids + more == more;
    }
  }

  /** An id no listed bookmark carries adds no avatar. */
  lemma RelatedSkipsUnknown(bookmarks: seq<Bookmark>, ids: seq<string>, id: string)
    requires forall i :: 0 <= i < |bookmarks| ==> bookmarks[i].id != id
    ensures RelatedBookmarks(bookmarks, ids + [id]) == RelatedBookmarks(bookmarks, ids)
  {
    RelatedAppend(bookmarks, ids, [id]);
    assert [id][1..] == [];
  }

  /** When every id is listed there is one avatar per id, in the ids' order. */
  lemma {:induction false} RelatedAllListed(bookmarks: seq<Bookmark>, ids: seq<string>)
    requires AllListed(bookmarks, ids)
    ensures |RelatedBookmarks(bookmarks, ids)| == |ids|
    ensures forall k :: 0 <= k < |ids| ==> RelatedBookmarks(bookmarks, ids)[k].id == ids[k]
    decreases |ids|
  {
    if |ids| > 0 {
      forall k | 0 <= k < |ids[1..]| ensures Listed(bookmarks, ids[1..][k]) {
        assert ids[1..][k] == ids[k + 1];
      }
      RelatedAllListed(bookmarks, ids[1..]);
      assert Listed(bookmarks, ids[0]);
      var i :| 0 <= i < |bookmarks| && bookmarks[i].id == ids[0];
      assert FindById(bookmarks, ids[0]).Some?;
    }
  }

  /** Insight card `index` is blurred for free users except the first. */
  predicate IsBlurred(isPro: bool, index: nat) {
    !isPro && index > 0
  }

  /** The upgrade overlay shows for free users with more than one insight. */
  predicate ShowsUpgradeOverlay(isPro: bool, insights: seq<ConnectionInsight>) {
    !isPro && |insights| > 1
  }

  /** The number the overlay announces: `insights.length - 1`. */
  function HiddenConnectionCount(insights: seq<ConnectionInsight>): int {
    |insights| - 1
  }

  /** How many of the first `n` cards are blurred. */
  function BlurredCount(isPro: bool, n: nat): (c: nat)
    ensures c == if isPro || n == 0 then 0 else n - 1
  {
    if n == 0 then 0 else BlurredCount(isPro, n - 1) + (if IsBlurred(isPro, n - 1) then 1 else 0)
  }

  /** The overlay shows exactly when some card is blurred, and then the
      number it announces is the number of blurred cards. */
  lemma OverlayCountsBlurredCards(isPro: bool, insights: seq<ConnectionInsight>)
    ensures ShowsUpgradeOverlay(isPro, insights) <==> BlurredCount(isPro, |insights|) > 0
    ensures ShowsUpgradeOverlay(isPro, insights) ==> HiddenConnectionCount(insights) == BlurredCount(isPro, |insights|)
  {
  }

  /** Unlocking never hides anything: a pro user sees every card and no
      overlay. */
  lemma ProSeesEverything(insights: seq<ConnectionInsight>, index: nat)
    ensures !IsBlurred(true, index) && !ShowsUpgradeOverlay(true, insights)
  {
  }
}
