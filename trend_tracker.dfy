/**
 * The hot-post tracker (core/trend_tracker.py): posts over an interaction
 * threshold are stored as trends with a heat score, served while fresh, expired
 * after a time-to-live, marked used, and eventually deleted. The JSON file of
 * trends is the sequence `trends`; a write that raises (`writeOk` false) leaves
 * it as it was.
 */
module TrendTracker {
  import opened Wrappers
  import opened Strings
  import Sorting

  datatype TrendStatus = Active | Used | Expired

  datatype Interactions = Interactions(likes: int, collects: int, comments: int, views: int)

  /**
   * One stored trend. `stats` and `trendScore` are fixed when the trend is
   * first recorded; a later sighting of the same url writes `latest` instead.
   */
  datatype Trend = Trend(
    id: string,
    collectedAt: int,
    title: string,
    content: string,
    url: string,
    imageUrls: seq<string>,
    stats: Interactions,
    trendScore: real,
    topics: set<string>,
    status: TrendStatus,
    latest: Option<Interactions>,
    updatedAt: Option<int>,
    usedAt: Option<int>)

  const HotLikes: int := 500
  const HotCollects: int := 100
  const HotComments: int := 50
  const HotViews: int := 5000

  /** `trend_ttl`: 72 hours, in seconds. */
  const TtlSeconds: int := 72 * 3600
  /** Expired trends are deleted once collected more than 7 days ago. */
  const RetentionSeconds: int := 7 * 86400

  /** `is_hot_post`: any one threshold reached. */
  predicate IsHot(s: Interactions)
  {
    s.likes >= HotLikes || s.collects >= HotCollects || s.comments >= HotComments || s.views >= HotViews
  }

  /** `_calculate_trend_score`: collects weigh 3, comments 2, likes 1, views 0.01. */
  function TrendScore(s: Interactions): (r: real)
    ensures s.likes >= 0 && s.collects >= 0 && s.comments >= 0 && s.views >= 0 ==> r >= 0.0
  {
    (s.likes as real) + 3.0 * (s.collects as real) + 2.0 * (s.comments as real) + 0.01 * (s.views as real)
  }

  /** More of any interaction never lowers the score; a collect outweighs a like. */
  lemma {:induction false} TrendScoreMonotone(a: Interactions, b: Interactions)
    requires a.likes <= b.likes && a.collects <= b.collects && a.comments <= b.comments && a.views <= b.views
    ensures TrendScore(a) <= TrendScore(b)
    ensures TrendScore(a.(collects := a.collects + 1)) > TrendScore(a.(likes := a.likes + 1))
  {
  }

  /** The topic keywords of `_extract_topics` ("神器" is listed twice). */
  const TopicWords: seq<string> :=
    ["AI", "ChatGPT", "插件", "工具", "神器", "效率", "自动化", "办公", "浏览器", "免费", "神器", "推荐", "教程", "避坑", "合集", "测评"]

  /** `_extract_topics`: the distinct keywords in title and content joined by a space. */
  function ExtractTopics(title: string, content: string): (r: set<string>)
    ensures forall w :: w in r <==> w in TopicWords && Contains(title + " " + content, w)
  {
    set w | w in TopicWords && Contains(title + " " + content, w)
  }

  /** The record `record_hot_post` appends. */
  function NewTrend(title: string, content: string, url: string, s: Interactions, imageUrls: seq<string>, now: nat): (t: Trend)
    ensures t.status == Active && t.trendScore == TrendScore(s) && t.stats == s
    ensures t.id == NatToString(now) && t.collectedAt == now && t.url == url
    ensures t.latest.None? && t.updatedAt.None? && t.usedAt.None?
  {
    Trend(NatToString(now), now, title, content, url, imageUrls, s, TrendScore(s), ExtractTopics(title, content),
          Active, None, None, None)
  }

  function FindUrlFrom(data: seq<Trend>, url: string, from: nat): (r: Option<nat>)
    requires from <= |data|
    ensures r.Some? ==> (from <= r.value < |data| && data[r.value].url == url
      && forall j :: from <= j < r.value ==> data[j].url != url)
    ensures r.None? ==> forall j :: from <= j < |data| ==> data[j].url != url
    decreases |data| - from
  {
    if from == |data| then None
    else if data[from].url == url then Some(from)
    else FindUrlFrom(data, url, from + 1)
  }

  function FindIdFrom(data: seq<Trend>, id: string, from: nat): (r: Option<nat>)
    requires from <= |data|
    ensures r.Some? ==> (from <= r.value < |data| && data[r.value].id == id
      && forall j :: from <= j < r.value ==> data[j].id != id)
    ensures r.None? ==> forall j :: from <= j < |data| ==> data[j].id != id
    decreases |data| - from
  {
    if from == |data| then None
    else if data[from].id == id then Some(from)
    else FindIdFrom(data, id, from + 1)
  }

  /** `record_hot_post` on the stored trends, with its answer. */
  datatype Recorded = Recorded(ok: bool, data: seq<Trend>)

  function RecordHotPost(data: seq<Trend>, title: string, content: string, url: string, s: Interactions,
                         imageUrls: seq<string>, now: nat, writeOk: bool): (r: Recorded)
    ensures !IsHot(s) ==> r == Recorded(false, data)
    ensures IsHot(s) ==> r.ok == writeOk && (!writeOk ==> r.data == data)
    ensures IsHot(s) && writeOk && FindUrlFrom(data, url, 0).Some? ==>
      (var i := FindUrlFrom(data, url, 0).value;
       |r.data| == |data| && r.data[i].stats == data[i].stats && r.data[i].trendScore == data[i].trendScore
       && r.data[i].latest == Some(s) && forall k :: 0 <= k < |data| && k != i ==> r.data[k] == data[k])
    ensures IsHot(s) && writeOk && FindUrlFrom(data, url, 0).None? ==>
      r.data == data + [NewTrend(title, content, url, s, imageUrls, now)]
  {
    if !IsHot(s) then Recorded(false, data)
    else if !writeOk then Recorded(false, data)
    else match FindUrlFrom(data, url, 0)
      case Some(i) => Recorded(true, data[i := data[i].(latest := Some(s), updatedAt := Some(now))])
      case None => Recorded(true, data + [NewTrend(title, content, url, s, imageUrls, now)])
  }

  /** A second sighting of a known url adds no record. */
  lemma {:induction false} KnownUrlAddsNothing(data: seq<Trend>, title: string, content: string, url: string, s: Interactions,
                            imageUrls: seq<string>, now: nat, writeOk: bool)
    requires FindUrlFrom(data, url, 0).Some?
    ensures |RecordHotPost(data, title, content, url, s, imageUrls, now, writeOk).data| == |data|
  {
  }

  // ------------------------------------------------------------ freshness

  predicate Stale(t: Trend, now: int)
  {
    now - t.collectedAt > TtlSeconds
  }

  /** What `get_active_trends` writes back for one trend: a stale active trend expires. */
  function ExpireOne(t: Trend, now: int): (r: Trend)
  {
    if t.status == Active && Stale(t, now) then t.(status := Expired) else t
  }

  function Expire(data: seq<Trend>, now: int): (r: seq<Trend>)
    ensures |r| == |data|
    decreases |data|
  {
    if data == [] then [] else Expire(data[..|data| - 1], now) + [ExpireOne(data[|data| - 1], now)]
  }

  /** The active trends that are still fresh, in file order. */
  function FreshActive(data: seq<Trend>, now: int): (r: seq<Trend>)
    ensures |r| <= |data|
    ensures forall k :: 0 <= k < |r| ==> r[k].status == Active && !Stale(r[k], now) && r[k] in data
    decreases |data|
  {
    if data == [] then []
    else
      var rest := FreshActive(data[..|data| - 1], now);
      var t := data[|data| - 1];
      assert forall x :: x in data[..|data| - 1] ==> x in data;
      if t.status == Active && !Stale(t, now) then rest + [t] else rest
  }

  /** Every active trend of the data that is still fresh is listed. */
  lemma {:induction false} FreshActiveComplete(data: seq<Trend>, now: int)
    ensures forall t :: t in data && t.status == Active && !Stale(t, now) ==> t in FreshActive(data, now)
    decreases |data|
  {
    if data != [] {
      var init := data[..|data| - 1];
      FreshActiveComplete(init, now);
      assert data == init + [data[|data| - 1]];
    }
  }

  /**
   * Expiry changes only the status, only of stale active trends, and leaves
   * exactly the fresh ones active.
   */
  lemma {:induction false} ExpireShape(data: seq<Trend>, now: int)
    ensures forall k :: 0 <= k < |data| ==> Expire(data, now)[k] == ExpireOne(data[k], now)
    ensures |FreshActive(data, now)| == CountActive(Expire(data, now))
  {
    ExpireAt(data, now);
    ExpireCount(data, now);
  }

  lemma {:induction false} ExpireAt(data: seq<Trend>, now: int)
    ensures forall k :: 0 <= k < |data| ==> Expire(data, now)[k] == ExpireOne(data[k], now)
    decreases |data|
  {
    if data != [] {
      var init := data[..|data| - 1];
      ExpireAt(init, now);
      assert Expire(data, now) == Expire(init, now) + [ExpireOne(data[|data| - 1], now)];
      assert forall k :: 0 <= k < |init| ==> init[k] == data[k];
    }
  }

  lemma {:induction false} ExpireCount(data: seq<Trend>, now: int)
    ensures |FreshActive(data, now)| == CountActive(Expire(data, now))
    decreases |data|
  {
    if data != [] {
      var init := data[..|data| - 1];
      var t := data[|data| - 1];
      ExpireCount(init, now);
      var e := Expire(data, now);
      assert e == Expire(init, now) + [ExpireOne(t, now)];
      assert e[..|e| - 1] == Expire(init, now);
      assert ExpireOne(t, now).status == Active <==> t.status == Active && !Stale(t, now);
    }
  }

  function CountActive(data: seq<Trend>): (n: nat)
    ensures n <= |data|
    decreases |data|
  {
    if data == [] then 0 else CountActive(data[..|data| - 1]) + (if data[|data| - 1].status == Active then 1 else 0)
  }

  function ScoreKey(t: Trend): real
  {
    t.trendScore
  }

  /**
   * `get_active_trends(limit)`: the hottest fresh active trends, `min(limit, n)`
   * of the `n` fresh active ones for a non-negative limit, and none left out
   * hotter than one kept; nothing if the write fails.
   */
  function ActiveTrends(data: seq<Trend>, limit: int, now: int, writeOk: bool): (r: seq<Trend>)
    ensures forall k :: 0 <= k < |r| ==> r[k].status == Active && !Stale(r[k], now) && r[k] in data
    ensures Sorting.SortedDesc(r, ScoreKey)
    ensures limit >= 0 ==> |r| <= limit
    ensures !writeOk ==> r == []
    ensures writeOk && limit >= 0 ==> |r| == if limit < |FreshActive(data, now)| then limit else |FreshActive(data, now)|
    ensures writeOk ==> multiset(r) <= multiset(FreshActive(data, now))
    ensures writeOk ==> forall x, k :: x in multiset(FreshActive(data, now)) - multiset(r) && 0 <= k < |r| ==>
      x.trendScore <= r[k].trendScore
  {
    if !writeOk then []
    else
      var current := FreshActive(data, now);
      var ranked := Sorting.SortDesc(current, ScoreKey);
      Sorting.SlicePrefix(ranked, limit, ScoreKey, current);
      Sorting.TopOf(current, limit, ScoreKey);
      Sorting.SliceTo(ranked, limit)
  }

  // ------------------------------------------------------------ marking and clean-up

  /** `mark_trend_used`: the first trend with that id becomes used, whatever its status. */
  function MarkUsed(data: seq<Trend>, id: string, now: int): (r: seq<Trend>)
    ensures |r| == |data|
    ensures FindIdFrom(data, id, 0).Some? ==>
      (var i := FindIdFrom(data, id, 0).value;
       r[i] == data[i].(status := Used, usedAt := Some(now)) && forall k :: 0 <= k < |data| && k != i ==> r[k] == data[k])
    ensures FindIdFrom(data, id, 0).None? ==> r == data
  {
    match FindIdFrom(data, id, 0)
    case Some(i) => data[i := data[i].(status := Used, usedAt := Some(now))]
    case None => data
  }

  /** An expired trend collected more than 7 days ago. */
  predicate Removable(t: Trend, now: int)
  {
    t.status == Expired && now - t.collectedAt > RetentionSeconds
  }

  /** `cleanup_expired_trends`' filter. */
  function Cleanup(data: seq<Trend>, now: int): (r: seq<Trend>)
    ensures |r| <= |data|
    ensures forall k :: 0 <= k < |r| ==> !Removable(r[k], now) && r[k] in data
    decreases |data|
  {
    if data == [] then []
    else
      var rest := Cleanup(data[..|data| - 1], now);
      var t := data[|data| - 1];
      assert forall x :: x in data[..|data| - 1] ==> x in data;
      if Removable(t, now) then rest else rest + [t]
  }

  /** The filter works piece by piece, so the kept trends keep their order. */
  lemma {:induction false} CleanupConcat(a: seq<Trend>, b: seq<Trend>, now: int)
    ensures Cleanup(a + b, now) == Cleanup(a, now) + Cleanup(b, now)
    decreases |b|
  {
    if b == [] {
      assert a + b == a;
    } else {
      var init := b[..|b| - 1];
      CleanupConcat(a, init, now);
      assert (a + b)[..|a + b| - 1] == a + init;
    }
  }

  /** Nothing removable means nothing removed. */
  lemma {:induction false} CleanupKeepsAll(data: seq<Trend>, now: int)
    requires forall k :: 0 <= k < |data| ==> !Removable(data[k], now)
    ensures Cleanup(data, now) == data
    decreases |data|
  {
    if data != [] {
      var init := data[..|data| - 1];
      assert forall k :: 0 <= k < |init| ==> !Removable(init[k], now) by {
        forall k | 0 <= k < |init| ensures !Removable(init[k], now) {
          assert init[k] == data[k];
        }
      }
      CleanupKeepsAll(init, now);
      assert !Removable(data[|data| - 1], now);
      assert data == init + [data[|data| - 1]];
    }
  }

  // ------------------------------------------------------------ title patterns

  datatype TitlePatterns = TitlePatterns(numeric: nat, question: nat, emotional: nat, recommending: nat, guide: nat)

  const EmotionalTitleWords: seq<string> := ["绝了", "太香", "相见恨晚", "真香"]
  const RecommendingTitleWords: seq<string> := ["推荐", "神器", "必备"]
  const GuideTitleWords: seq<string> := ["教程", "攻略", "保姆级"]

  predicate HasDigit(title: string)
  {
    exists i :: 0 <= i < |title| && IsDigit(title[i])
  }

  /** The question test as written: both operands of the `or` are the full-width mark. */
  predicate QuestionAsWritten(title: string)
  {
    Contains(title, "？") || Contains(title, "？")
  }

  /** The question test as intended: either the full-width or the ASCII mark. */
  predicate IsQuestion(title: string)
  {
    Contains(title, "？") || Contains(title, "?")
  }

  function Tally(b: bool): nat
  {
    if b then 1 else 0
  }

  function Bump(p: TitlePatterns, title: string, question: bool): TitlePatterns
  {
    TitlePatterns(p.numeric + Tally(HasDigit(title)), p.question + Tally(question),
                  p.emotional + Tally(ContainsAny(title, EmotionalTitleWords)),
                  p.recommending + Tally(ContainsAny(title, RecommendingTitleWords)),
                  p.guide + Tally(ContainsAny(title, GuideTitleWords)))
  }

  predicate Bounded(p: TitlePatterns, n: nat)
  {
    p.numeric <= n && p.question <= n && p.emotional <= n && p.recommending <= n && p.guide <= n
  }

  /** `_analyze_title_patterns` exactly as written. */
  function TitlePatternsAsWritten(titles: seq<string>): (r: TitlePatterns)
    ensures Bounded(r, |titles|)
    decreases |titles|
  {
    if titles == [] then TitlePatterns(0, 0, 0, 0, 0)
    else
      var t := titles[|titles| - 1];
      Bump(TitlePatternsAsWritten(titles[..|titles| - 1]), t, QuestionAsWritten(t))
  }

  /** `_analyze_title_patterns` with the evident intent: each title counts once under every pattern it shows. */
  function AnalyzeTitlePatterns(titles: seq<string>): (r: TitlePatterns)
    ensures Bounded(r, |titles|)
    decreases |titles|
  {
    if titles == [] then TitlePatterns(0, 0, 0, 0, 0)
    else
      var t := titles[|titles| - 1];
      Bump(AnalyzeTitlePatterns(titles[..|titles| - 1]), t, IsQuestion(t))
  }

  function CountQuestions(titles: seq<string>): (n: nat)
    decreases |titles|
  {
    if titles == [] then 0 else CountQuestions(titles[..|titles| - 1]) + Tally(IsQuestion(titles[|titles| - 1]))
  }

  /** The intended count of question titles is the number of titles carrying either mark. */
  lemma {:induction false} QuestionCountIsTitlesWithMark(titles: seq<string>)
    ensures AnalyzeTitlePatterns(titles).question == CountQuestions(titles)
    ensures AnalyzeTitlePatterns(titles).question == |titles| <==> forall k :: 0 <= k < |titles| ==> IsQuestion(titles[k])
    decreases |titles|
  {
    if titles != [] {
      var init := titles[..|titles| - 1];
      QuestionCountIsTitlesWithMark(init);
      assert forall k :: 0 <= k < |init| ==> init[k] == titles[k];
      if AnalyzeTitlePatterns(titles).question == |titles| {
        assert AnalyzeTitlePatterns(init).question == |init|;
      }
    }
  }

  /** The two versions differ only in the question count: as written, an ASCII "?" is never seen. */
  lemma {:induction false} AsWrittenMissesAsciiQuestion()
    ensures TitlePatternsAsWritten(["好用吗?"]).question == 0
    ensures AnalyzeTitlePatterns(["好用吗?"]).question == 1
  {
    var t := "好用吗?";
    var one: seq<string> := [t];
    assert one[..0] == [];
    ContainsCharIff(t, '?');
    assert t[3] == '?';
    ContainsCharIff(t, '？');
  }

  class Tracker {
    /** The stored trends, in file order. */
    var trends: seq<Trend>

    /** `_ensure_file` / `_load_data`: a missing or unreadable file is an empty list. */
    constructor (stored: Option<seq<Trend>>)
      ensures trends == stored.GetOr([])
    {
      trends := stored.GetOr([]);
    }

    /** `record_hot_post`. */
    method RecordHotPostIn(title: string, content: string, url: string, s: Interactions, imageUrls: seq<string>,
                           now: nat, writeOk: bool) returns (ok: bool)
      modifies this
      ensures Recorded(ok, trends) == RecordHotPost(old(trends), title, content, url, s, imageUrls, now, writeOk)
    {
      if !IsHot(s) {
        return false;
      }
      var data := trends;
      var i := 0;
      while i < |data|
        invariant 0 <= i <= |data|
        invariant FindUrlFrom(data, url, i) == FindUrlFrom(data, url, 0)
      {
        if data[i].url == url {
          if !writeOk {
            return false;
          }
          trends := data[i := data[i].(latest := Some(s), updatedAt := Some(now))];
          return true;
        }
        i := i + 1;
      }
      if !writeOk {
        return false;
      }
      trends := data + [NewTrend(title, content, url, s, imageUrls, now)];
      return true;
    }

    /** `get_active_trends`: stale active trends are expired in the file, the fresh ones returned by heat. */
    method GetActiveTrends(limit: int, now: int, writeOk: bool) returns (r: seq<Trend>)
      modifies this
      ensures r == ActiveTrends(old(trends), limit, now, writeOk)
      ensures trends == if writeOk then Expire(old(trends), now) else old(trends)
    {
      var data := trends;
      var active: seq<Trend> := [];
      var updated: seq<Trend> := [];
      for k := 0 to |data|
        invariant active == FreshActive(data[..k], now) && updated == Expire(data[..k], now)
      {
        assert data[..k + 1][..k] == data[..k];
        var item := data[k];
        if item.status != Active {
          updated := updated + [item];
        } else if now - item.collectedAt > TtlSeconds {
          updated := updated + [item.(status := Expired)];
        } else {
          updated := updated + [item];
          active := active + [item];
        }
      }
      assert data[..|data|] == data;
      if !writeOk {
        return [];
      }
      trends := updated;
      r := Sorting.SliceTo(Sorting.SortDesc(active, ScoreKey), limit);
    }

    /** `mark_trend_used`. */
    method MarkTrendUsed(id: string, now: int, writeOk: bool)
      modifies this
      ensures trends == if writeOk then MarkUsed(old(trends), id, now) else old(trends)
    {
      var data := trends;
      var i := 0;
      while i < |data|
        invariant 0 <= i <= |data|
        invariant FindIdFrom(data, id, i) == FindIdFrom(data, id, 0)
      {
        if data[i].id == id {
          data := data[i := data[i].(status := Used, usedAt := Some(now))];
          break;
        }
        i := i + 1;
      }
      if writeOk {
        trends := data;
      }
    }

    /** `cleanup_expired_trends`: the file is rewritten only when something was removed. */
    method CleanupExpiredTrends(now: int, writeOk: bool)
      modifies this
      ensures trends == if writeOk then Cleanup(old(trends), now) else old(trends)
    {
      var data := trends;
      var kept: seq<Trend> := [];
      for k := 0 to |data|
        invariant kept == Cleanup(data[..k], now)
      {
        assert data[..k + 1][..k] == data[..k];
        if !Removable(data[k], now) {
          kept := kept + [data[k]];
        }
      }
      assert data[..|data|] == data;
      if |kept| < |data| && writeOk {
        trends := kept;
      } else if |kept| == |data| {
        CleanupSameLength(data, now);
      }
    }
  }

  /** A filter that keeps as many trends as it was given keeps them all. */
  lemma {:induction false} CleanupSameLength(data: seq<Trend>, now: int)
    requires |Cleanup(data, now)| == |data|
    ensures Cleanup(data, now) == data
    decreases |data|
  {
    if data != [] {
      var init := data[..|data| - 1];
      CleanupSameLength(init, now);
    }
  }
}
