/**
 * Scoring of published notes and pattern counting over the best ones
 * (core/analytics.py). Page scraping is an oracle: the text each selector
 * shows is passed in, and so are the stored statistics and the local hour of
 * a timestamp.
 */
module Analytics {
  import opened Wrappers
  import opened Strings
  import Sorting
  import Writer

  /** A statistics record as stored; a missing key is `None`. */
  datatype Stats = Stats(views: Option<int>, likes: Option<int>, collects: Option<int>, comments: Option<int>,
                         engagementRate: Option<real>, fetchedAt: Option<real>)

  /** `not stats`: the record has no key at all. */
  predicate IsEmpty(s: Stats)
  {
    s.views.None? && s.likes.None? && s.collects.None? && s.comments.None? && s.engagementRate.None? && s.fetchedAt.None?
  }

  // ------------------------------------------------------------ extract_number

  /** The last run of digits in `s` (empty when `s` has no digit). */
  function LastDigitRun(s: string): (r: string)
    ensures forall k :: 0 <= k < |r| ==> IsDigit(r[k])
    ensures Contains(s, r) || r == []
    decreases |s|
  {
    if s == [] then []
    else if !IsDigit(s[|s| - 1]) then
      var r := LastDigitRun(s[..|s| - 1]);
      assert r != [] ==> Contains(s, r) by {
        if r != [] {
          ContainsPrefix(s[..|s| - 1], [s[|s| - 1]], r);
          assert s[..|s| - 1] + [s[|s| - 1]] == s;
        }
      }
      r
    else
      var t := TrailingDigits(s);
      TrailingDigitsSuffix(s);
      assert s == s[..|s| - |t|] + t;
      ContainsSuffix(s[..|s| - |t|], t, t);
      t
  }

  /** The digits at the very end of `s`. */
  function TrailingDigits(s: string): (r: string)
    ensures |r| <= |s|
    ensures forall k :: 0 <= k < |r| ==> IsDigit(r[k])
    ensures |r| == |s| || !IsDigit(s[|s| - |r| - 1])
    decreases |s|
  {
    if s != [] && IsDigit(s[|s| - 1]) then TrailingDigits(s[..|s| - 1]) + [s[|s| - 1]] else []
  }

  /** The trailing digits are a suffix of the text. */
  lemma {:induction false} TrailingDigitsSuffix(s: string)
    ensures s == s[..|s| - |TrailingDigits(s)|] + TrailingDigits(s)
    decreases |s|
  {
    if s != [] && IsDigit(s[|s| - 1]) {
      var init := s[..|s| - 1];
      var c := s[|s| - 1];
      TrailingDigitsSuffix(init);
      var t := TrailingDigits(init);
      var p := init[..|init| - |t|];
      assert init == p + t;
      assert TrailingDigits(s) == t + [c];
      assert s == p + (t + [c]);
      assert s[..|p|] == p;
    }
  }

  /** `extract_number`: the value of the last digit run, or 0 when there is none. */
  function ExtractNumber(text: string): (n: nat)
    ensures (forall i :: 0 <= i < |text| ==> !IsDigit(text[i])) ==> n == 0
  {
    var run := LastDigitRun(text);
    assert (forall i :: 0 <= i < |text| ==> !IsDigit(text[i])) ==> run == [] by {
      if forall i :: 0 <= i < |text| ==> !IsDigit(text[i]) { NoDigitsNoRun(text); }
    }
    if run == [] then 0 else DigitsValue(run)
  }

  lemma {:induction false} NoDigitsNoRun(s: string)
    requires forall i :: 0 <= i < |s| ==> !IsDigit(s[i])
    ensures LastDigitRun(s) == []
    decreases |s|
  {
    if s != [] {
      NoDigitsNoRun(s[..|s| - 1]);
    }
  }

  /**
   * Digit-free text after a number does not hide it: the number written last
   * is the one extracted, whatever digits come before it.
   */
  lemma {:induction false} ExtractLastNumber(before: string, n: nat, after: string)
    requires before == [] || !IsDigit(before[|before| - 1])
    requires forall i :: 0 <= i < |after| ==> !IsDigit(after[i])
    ensures ExtractNumber(before + NatToString(n) + after) == n
  {
    LastRunBeforeNoDigits(before, NatToString(n), after);
    DigitsValueOfNatToString(n);
  }

  /** Digit-free text after a digit run leaves that run the last one. */
  lemma {:induction false} LastRunBeforeNoDigits(before: string, digits: string, after: string)
    requires before == [] || !IsDigit(before[|before| - 1])
    requires digits != [] && forall k :: 0 <= k < |digits| ==> IsDigit(digits[k])
    requires forall i :: 0 <= i < |after| ==> !IsDigit(after[i])
    ensures LastDigitRun(before + digits + after) == digits
    decreases |after|
  {
    if after == [] {
      assert before + digits + after == before + digits;
      TrailingOfNumber(before, digits);
    } else {
      var s := before + digits + after;
      var init := after[..|after| - 1];
      assert s[..|s| - 1] == before + digits + init;
      LastRunSkipsNonDigit(s);
      LastRunBeforeNoDigits(before, digits, init);
    }
  }

  lemma {:induction false} LastRunSkipsNonDigit(s: string)
    requires s != [] && !IsDigit(s[|s| - 1])
    ensures LastDigitRun(s) == LastDigitRun(s[..|s| - 1])
  {
  }

  lemma {:induction false} TrailingOfNumber(before: string, digits: string)
    requires before == [] || !IsDigit(before[|before| - 1])
    requires digits != [] && forall k :: 0 <= k < |digits| ==> IsDigit(digits[k])
    ensures LastDigitRun(before + digits) == digits
  {
    TrailingAppendDigits(before, digits);
    var s := before + digits;
    assert IsDigit(s[|s| - 1]);
  }

  lemma {:induction false} TrailingAppendDigits(a: string, digits: string)
    requires forall k :: 0 <= k < |digits| ==> IsDigit(digits[k])
    ensures TrailingDigits(a + digits) == TrailingDigits(a) + digits
    decreases |digits|
  {
    if digits == [] {
      assert a + digits == a;
    } else {
      var s := a + digits;
      var init := digits[..|digits| - 1];
      assert s[..|s| - 1] == a + init;
      assert s[|s| - 1] == digits[|digits| - 1];
      assert TrailingDigits(s) == TrailingDigits(a + init) + [digits[|digits| - 1]];
      TrailingAppendDigits(a, init);
      assert digits == init + [digits[|digits| - 1]];
    }
  }

  // ------------------------------------------------------------ fetch_note_stats

  /**
   * The per-metric selector loop: the first selector whose element exists
   * and shows a positive number. `texts[k]` is what selector `k` shows, or
   * `None` when it matched nothing or raised.
   */
  function FirstPositive(texts: seq<Option<string>>): (r: Option<nat>)
    ensures r.Some? ==> r.value > 0 && exists k :: 0 <= k < |texts| && texts[k].Some? && ExtractNumber(texts[k].value) == r.value
    ensures r.None? ==> forall k :: 0 <= k < |texts| && texts[k].Some? ==> ExtractNumber(texts[k].value) == 0
    decreases |texts|
  {
    if texts == [] then None
    else if texts[0].Some? && ExtractNumber(texts[0].value) > 0 then Some(ExtractNumber(texts[0].value))
    else
      var r := FirstPositive(texts[1..]);
      assert forall k :: 1 <= k < |texts| ==> texts[k] == texts[1..][k - 1];
      r
  }

  /** The engagement formula of `fetch_note_stats`: interactions per hundred views, 0 without views. */
  function EngagementRate(views: int, likes: int, collects: int, comments: int): (r: real)
    ensures views > 0 ==> r * (views as real) == ((likes + collects + comments) as real) * 100.0
    ensures views <= 0 ==> r == 0.0
    ensures views > 0 && likes >= 0 && collects >= 0 && comments >= 0 ==> r >= 0.0
  {
    if views > 0 then ((likes + collects + comments) as real) / (views as real) * 100.0 else 0.0
  }

  /** What `fetch_note_stats` scraped, one selector-text list per metric. */
  datatype Readings = Readings(views: seq<Option<string>>, likes: seq<Option<string>>,
                               collects: seq<Option<string>>, comments: seq<Option<string>>)

  /**
   * `fetch_note_stats`: a metric is recorded only when some selector shows a
   * positive number; nothing recorded gives `None`; otherwise the rate uses
   * 0 for each missing metric.
   */
  function FetchNoteStats(rd: Readings, now: real): (r: Option<Stats>)
    ensures r.None? <==> FirstPositive(rd.views).None? && FirstPositive(rd.likes).None?
                         && FirstPositive(rd.collects).None? && FirstPositive(rd.comments).None?
    ensures r.Some? ==> (r.value.views.Some? <==> FirstPositive(rd.views).Some?) && r.value.fetchedAt == Some(now)
    ensures r.Some? && r.value.views.Some? ==> r.value.views.value == FirstPositive(rd.views).value
    ensures r.Some? ==> (r.value.engagementRate ==
      Some(EngagementRate(FirstPositive(rd.views).GetOr(0), FirstPositive(rd.likes).GetOr(0),
                          FirstPositive(rd.collects).GetOr(0), FirstPositive(rd.comments).GetOr(0))))
  {
    var v, l, c, m := FirstPositive(rd.views), FirstPositive(rd.likes), FirstPositive(rd.collects), FirstPositive(rd.comments);
    if v.None? && l.None? && c.None? && m.None? then None
    else
      var vi: Option<int> := if v.Some? then Some(v.value as int) else None;
      var li: Option<int> := if l.Some? then Some(l.value as int) else None;
      var ci: Option<int> := if c.Some? then Some(c.value as int) else None;
      var mi: Option<int> := if m.Some? then Some(m.value as int) else None;
      Some(Stats(vi, li, ci, mi, Some(EngagementRate(v.GetOr(0), l.GetOr(0), c.GetOr(0), m.GetOr(0))), Some(now)))
  }

  // ------------------------------------------------------------ calculate_score

  function Min(a: real, b: real): real
  {
    if a <= b then a else b
  }

  /** The views tier: 40, 30, 20, 10 at 10000, 5000, 1000, 500 views, else 0. */
  function ViewsPoints(views: int): (p: real)
    ensures 0.0 <= p <= 40.0
    ensures views >= 10000 ==> p == 40.0
    ensures 5000 <= views < 10000 ==> p == 30.0
    ensures 1000 <= views < 5000 ==> p == 20.0
    ensures 500 <= views < 1000 ==> p == 10.0
    ensures views < 500 ==> p == 0.0
  {
    if views >= 10000 then 40.0 else if views >= 5000 then 30.0 else if views >= 1000 then 20.0
    else if views >= 500 then 10.0 else 0.0
  }

  /** The collect/like term, only with likes: ten points per collect per like, at most 20. */
  function RatioPoints(likes: int, collects: int): (p: real)
    ensures p <= 20.0
    ensures likes <= 0 ==> p == 0.0
    ensures likes > 0 && collects >= 0 ==> p >= 0.0
  {
    if likes > 0 then Min((collects as real) / (likes as real) * 10.0, 20.0) else 0.0
  }

  /** The engagement term: four points per percent, at most 40. */
  function EngagementPoints(rate: real): (p: real)
    ensures p <= 40.0 && (rate >= 0.0 ==> p >= 0.0)
  {
    Min(rate * 4.0, 40.0)
  }

  /** `calculate_score`. */
  function CalculateScore(s: Stats): (r: real)
    ensures IsEmpty(s) ==> r == 0.0
    ensures r <= 100.0
    ensures s.engagementRate.GetOr(0.0) >= 0.0 && s.collects.GetOr(0) >= 0 ==> r >= 0.0
  {
    if IsEmpty(s) then 0.0
    else
      Min(EngagementPoints(s.engagementRate.GetOr(0.0)) + ViewsPoints(s.views.GetOr(0))
          + RatioPoints(s.likes.GetOr(0), s.collects.GetOr(0)), 100.0)
  }

  /** More views never lower the score when nothing else changes. */
  lemma {:induction false} MoreViewsNeverLower(s: Stats, more: int)
    requires !IsEmpty(s) && more >= s.views.GetOr(0)
    ensures CalculateScore(s.(views := Some(more))) >= CalculateScore(s)
  {
  }

  /** A non-empty record reaches 100 only through every term being near its cap. */
  lemma {:induction false} FullScoreNeedsViews(s: Stats)
    requires CalculateScore(s) == 100.0
    ensures s.views.GetOr(0) >= 10000 || (s.views.GetOr(0) >= 5000 && s.likes.GetOr(0) > 0)
  {
  }

  // ------------------------------------------------------------ get_top_performing

  datatype Ranked = Ranked(draft: Writer.Draft, stats: Stats, score: real)

  function ScoreOf(r: Ranked): real
  {
    r.score
  }

  /** The published drafts with stored, non-empty statistics, in file order. */
  function RankedOf(drafts: seq<Writer.Draft>, statsOf: int -> Option<Stats>): (r: seq<Ranked>)
    ensures |r| <= |drafts|
    ensures forall k :: 0 <= k < |r| ==>
      r[k].draft in drafts && r[k].draft.status == Writer.Published
      && statsOf(r[k].draft.createdAt) == Some(r[k].stats) && !IsEmpty(r[k].stats)
      && r[k].score == CalculateScore(r[k].stats)
    decreases |drafts|
  {
    if drafts == [] then []
    else
      var rest := RankedOf(drafts[..|drafts| - 1], statsOf);
      var d := drafts[|drafts| - 1];
      var st := statsOf(d.createdAt);
      if d.status == Writer.Published && st.Some? && !IsEmpty(st.value) then rest + [Ranked(d, st.value, CalculateScore(st.value))]
      else rest
  }

  /** `get_top_performing`, as a value. */
  function TopPerforming(drafts: seq<Writer.Draft>, statsOf: int -> Option<Stats>, limit: int): seq<Ranked>
  {
    Sorting.SliceTo(Sorting.SortDesc(RankedOf(drafts, statsOf), ScoreOf), limit)
  }

  /** Every published draft with stored, non-empty statistics is ranked, with its score. */
  lemma {:induction false} RankedOfComplete(drafts: seq<Writer.Draft>, statsOf: int -> Option<Stats>)
    ensures forall i :: 0 <= i < |drafts| && drafts[i].status == Writer.Published
                        && statsOf(drafts[i].createdAt).Some? && !IsEmpty(statsOf(drafts[i].createdAt).value) ==>
      Ranked(drafts[i], statsOf(drafts[i].createdAt).value, CalculateScore(statsOf(drafts[i].createdAt).value))
        in RankedOf(drafts, statsOf)
    decreases |drafts|
  {
    if drafts != [] {
      var init := drafts[..|drafts| - 1];
      RankedOfComplete(init, statsOf);
      assert forall i :: 0 <= i < |init| ==> init[i] == drafts[i];
    }
  }

  /**
   * The best entries come first: `min(limit, n)` of the `n` ranked drafts for a
   * non-negative limit, drawn from the ranked drafts, and every ranked draft
   * left out scores no higher than every draft kept.
   */
  lemma {:induction false} TopPerformingShape(drafts: seq<Writer.Draft>, statsOf: int -> Option<Stats>, limit: int)
    ensures var r := TopPerforming(drafts, statsOf, limit);
      var all := RankedOf(drafts, statsOf);
      Sorting.SortedDesc(r, ScoreOf)
      && (limit >= 0 ==> |r| == if limit < |all| then limit else |all|)
      && |r| <= |drafts|
      && multiset(r) <= multiset(all)
      && forall x, k :: x in multiset(all) - multiset(r) && 0 <= k < |r| ==> x.score <= r[k].score
  {
    var all := RankedOf(drafts, statsOf);
    Sorting.SlicePrefix(Sorting.SortDesc(all, ScoreOf), limit, ScoreOf, all);
    Sorting.TopOf(all, limit, ScoreOf);
  }

  /** `get_top_performing`, with its loop and in-place sort. */
  method GetTopPerforming(drafts: seq<Writer.Draft>, statsOf: int -> Option<Stats>, limit: int) returns (r: seq<Ranked>)
    ensures r == TopPerforming(drafts, statsOf, limit)
  {
    var results: seq<Ranked> := [];
    for k := 0 to |drafts|
      invariant results == RankedOf(drafts[..k], statsOf)
    {
      assert drafts[..k + 1][..k] == drafts[..k];
      var d := drafts[k];
      var st := statsOf(d.createdAt);
      if d.status == Writer.Published && st.Some? && !IsEmpty(st.value) {
        results := results + [Ranked(d, st.value, CalculateScore(st.value))];
      }
    }
    assert drafts[..|drafts|] == drafts;
    r := Sorting.SliceTo(Sorting.SortDesc(results, ScoreOf), limit);
  }

  // ------------------------------------------------------------ analyze_patterns

  datatype Patterns = Patterns(short: nat, medium: nat, long: nat, tagFrequency: map<string, nat>,
                               postingTimes: map<nat, nat>)

  /** `tag.replace("#", "")`. */
  function TagKey(tag: string): (k: string)
    ensures forall i :: 0 <= i < |k| ==> k[i] != '#'
  {
    NoHashLeft(tag);
    ReplaceAll(tag, "#", "")
  }

  lemma {:induction false} NoHashLeft(s: string)
    ensures forall i :: 0 <= i < |ReplaceAll(s, "#", "")| ==> ReplaceAll(s, "#", "")[i] != '#'
    decreases |s|
  {
    if |s| >= 1 {
      NoHashLeft(s[1..]);
      if s[..1] != "#" {
        assert s[0] != '#';
      }
    }
  }

  function Bump<K>(m: map<K, nat>, k: K): (r: map<K, nat>)
    ensures r.Keys == m.Keys + {k}
  {
    m[k := (if k in m then m[k] else 0) + 1]
  }

  /** The keys the tags of one post count under. */
  function TagKeys(tags: seq<string>): set<string>
    decreases |tags|
  {
    if tags == [] then {} else TagKeys(tags[..|tags| - 1]) + {TagKey(tags[|tags| - 1])}
  }

  lemma {:induction false} InTagKeys(tags: seq<string>, key: string)
    requires key in TagKeys(tags)
    ensures exists k :: 0 <= k < |tags| && key == TagKey(tags[k])
    decreases |tags|
  {
    if key != TagKey(tags[|tags| - 1]) {
      InTagKeys(tags[..|tags| - 1], key);
      var k :| 0 <= k < |tags| - 1 && key == TagKey(tags[..|tags| - 1][k]);
      assert tags[..|tags| - 1][k] == tags[k];
    }
  }

  function CountTags(m: map<string, nat>, tags: seq<string>): (r: map<string, nat>)
    ensures r.Keys == m.Keys + TagKeys(tags)
    decreases |tags|
  {
    if tags == [] then m
    else Bump(CountTags(m, tags[..|tags| - 1]), TagKey(tags[|tags| - 1]))
  }

  /** One post counted into the patterns. */
  function PatternStep(p: Patterns, d: Writer.Draft, hourOf: int -> nat): (r: Patterns)
    ensures r.short + r.medium + r.long == p.short + p.medium + p.long + 1
  {
    var n := |d.article.title|;
    var p1 := if n < 15 then p.(short := p.short + 1) else if n < 25 then p.(medium := p.medium + 1) else p.(long := p.long + 1);
    var p2 := p1.(tagFrequency := CountTags(p1.tagFrequency, d.article.tags));
    if d.publishedAt.Some? then p2.(postingTimes := Bump(p2.postingTimes, hourOf(d.publishedAt.value))) else p2
  }

  function PatternsOf(posts: seq<Ranked>, hourOf: int -> nat): (r: Patterns)
    ensures r.short + r.medium + r.long == |posts|
    decreases |posts|
  {
    if posts == [] then Patterns(0, 0, 0, map[], map[])
    else PatternStep(PatternsOf(posts[..|posts| - 1], hourOf), posts[|posts| - 1].draft, hourOf)
  }

  /** `analyze_patterns`: `None` (the empty dict) for no posts. */
  function AnalyzePatternsSpec(posts: seq<Ranked>, hourOf: int -> nat): (r: Option<Patterns>)
    ensures r.None? <==> posts == []
    ensures r.Some? ==> r.value.short + r.value.medium + r.value.long == |posts|
  {
    if posts == [] then None else Some(PatternsOf(posts, hourOf))
  }

  /** Every tag frequency key is a tag of some post with its '#' removed. */
  lemma {:induction false} TagKeysFromPosts(posts: seq<Ranked>, hourOf: int -> nat, key: string)
    requires key in PatternsOf(posts, hourOf).tagFrequency
    ensures forall i :: 0 <= i < |key| ==> key[i] != '#'
    ensures exists j, k :: 0 <= j < |posts| && 0 <= k < |posts[j].draft.article.tags| && key == TagKey(posts[j].draft.article.tags[k])
    decreases |posts|
  {
    var prefix := posts[..|posts| - 1];
    var d := posts[|posts| - 1].draft;
    var prev := PatternsOf(prefix, hourOf);
    if key in prev.tagFrequency {
      TagKeysFromPosts(prefix, hourOf, key);
      var j, k :| 0 <= j < |prefix| && 0 <= k < |prefix[j].draft.article.tags| && key == TagKey(prefix[j].draft.article.tags[k]);
      assert posts[j] == prefix[j];
    } else {
      InTagKeys(d.article.tags, key);
      var k :| 0 <= k < |d.article.tags| && key == TagKey(d.article.tags[k]);
      assert posts[|posts| - 1].draft.article.tags[k] == d.article.tags[k];
    }
  }

  /** `analyze_patterns`, with its loop over the posts. */
  method AnalyzePatterns(posts: seq<Ranked>, hourOf: int -> nat) returns (r: Option<Patterns>)
    ensures r == AnalyzePatternsSpec(posts, hourOf)
  {
    if posts == [] {
      return None;
    }
    var p := Patterns(0, 0, 0, map[], map[]);
    for k := 0 to |posts|
      invariant p == PatternsOf(posts[..k], hourOf)
    {
      assert posts[..k + 1][..k] == posts[..k];
      p := PatternStep(p, posts[k].draft, hourOf);
    }
    assert posts[..|posts|] == posts;
    r := Some(p);
  }
}
