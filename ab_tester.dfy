/**
 * The A/B testing framework (core/ab_tester.py): tests with variants, counters
 * fed by impressions and later statistics, a composite variant score, and the
 * analysis that declares a winner or gives up. The JSON file of tests is the
 * sequence `tests`, loaded and rewritten wholesale by every operation.
 */
module AbTester {
  import opened Wrappers
  import opened Strings
  import Sorting

  datatype TestStatus = Pending | Running | Completed | Inconclusive

  /** The `stats` dictionary of one variant. */
  datatype VariantStats = VariantStats(impressions: int, views: int, likes: int, collects: int, comments: int,
                                       engagementRate: real, score: real)

  const ZeroStats: VariantStats := VariantStats(0, 0, 0, 0, 0, 0.0, 0.0)

  /** A variant as the caller describes it. */
  datatype VariantSpec = VariantSpec(id: string, content: string, isControl: bool)

  datatype Variant = Variant(id: string, content: string, isControl: bool, stats: VariantStats)

  /** The recommendation sentence of an analysis, by kind, with the numbers it quotes. */
  datatype Recommendation =
    | InsufficientSample(currentViews: int, needed: int)
    | InsufficientDuration(elapsedDays: real, neededDays: int)
    | UseVariant(id: string, score: real, lead: real)
    | NotSignificant(maxDifference: real)

  /** The insight sentences of `_generate_insights`, by kind. */
  datatype Insight =
    | TitleBest(content: string)
    | HighEngagement(rate: real)
    | ContentBest(id: string)
    | HighCollectShare
    | VisualBest(id: string)
    | Lift(percent: real)

  datatype TestAnalysis = TestAnalysis(testId: string, testName: string, status: TestStatus, canConclude: bool,
                                       recommendation: Option<Recommendation>, comparison: seq<Variant>,
                                       insights: seq<Insight>, winner: Option<string>)

  /** One stored test; times are whole seconds. */
  datatype AbTest = AbTest(testId: string, name: string, kind: string, status: TestStatus, createdAt: int,
                           startedAt: Option<int>, durationDays: int, minSampleSize: int, variants: seq<Variant>,
                           results: Option<TestAnalysis>, winner: Option<string>, insights: seq<Insight>)

  // ------------------------------------------------------------ lookup and storage

  function FindTestFrom(tests: seq<AbTest>, id: string, from: nat): (r: Option<nat>)
    requires from <= |tests|
    ensures r.Some? ==> (from <= r.value < |tests| && tests[r.value].testId == id
      && forall j :: from <= j < r.value ==> tests[j].testId != id)
    ensures r.None? ==> forall j :: from <= j < |tests| ==> tests[j].testId != id
    decreases |tests| - from
  {
    if from == |tests| then None
    else if tests[from].testId == id then Some(from)
    else FindTestFrom(tests, id, from + 1)
  }

  /** `_get_test`: the position of the first test with that id. */
  function FindTest(tests: seq<AbTest>, id: string): (r: Option<nat>)
    ensures r.Some? ==> (r.value < |tests| && tests[r.value].testId == id
      && forall j :: 0 <= j < r.value ==> tests[j].testId != id)
    ensures r.None? <==> forall j :: 0 <= j < |tests| ==> tests[j].testId != id
  {
    FindTestFrom(tests, id, 0)
  }

  /** No two stored tests share an id. */
  predicate UniqueIds(tests: seq<AbTest>)
  {
    forall i, j :: 0 <= i < j < |tests| ==> tests[i].testId != tests[j].testId
  }

  /** `_save_test`: replace the first test with the same id, or append. */
  function Upsert(tests: seq<AbTest>, t: AbTest): (r: seq<AbTest>)
  {
    match FindTest(tests, t.testId)
    case Some(i) => tests[i := t]
    case None => tests + [t]
  }

  /** After an upsert the test is found under its id, and distinct ids stay distinct. */
  lemma {:induction false} UpsertStores(tests: seq<AbTest>, t: AbTest)
    ensures var r := Upsert(tests, t);
      FindTest(r, t.testId).Some? && r[FindTest(r, t.testId).value] == t
      && |r| == |tests| + (if FindTest(tests, t.testId).Some? then 0 else 1)
      && (UniqueIds(tests) ==> UniqueIds(r))
  {
    match FindTest(tests, t.testId)
    case Some(i) =>
      FirstMatch(tests[i := t], t.testId, i);
    case None =>
      FirstMatch(tests + [t], t.testId, |tests|);
  }

  /** An upsert leaves what every other id finds as it was. */
  lemma {:induction false} UpsertKeepsOthers(tests: seq<AbTest>, t: AbTest, other: string)
    requires other != t.testId
    ensures var r := Upsert(tests, t);
      (FindTest(tests, other).Some? <==> FindTest(r, other).Some?)
      && (FindTest(tests, other).Some? ==> r[FindTest(r, other).value] == tests[FindTest(tests, other).value])
  {
    var r := Upsert(tests, t);
    if FindTest(tests, other).Some? {
      FirstMatch(r, other, FindTest(tests, other).value);
    } else {
      assert forall j :: 0 <= j < |r| ==> r[j].testId != other;
    }
  }

  /** A position holding the id with no earlier holder is what `FindTest` returns. */
  lemma {:induction false} FirstMatch(tests: seq<AbTest>, id: string, i: nat)
    requires i < |tests| && tests[i].testId == id && forall j :: 0 <= j < i ==> tests[j].testId != id
    ensures FindTest(tests, id) == Some(i)
  {
  }

  /** Saving a test back unchanged leaves the file as it was. */
  lemma {:induction false} UpsertSame(tests: seq<AbTest>, i: nat)
    requires i < |tests| && FindTest(tests, tests[i].testId) == Some(i)
    ensures Upsert(tests, tests[i]) == tests
  {
  }

  /** The test that `delete_test` keeps: one with another id. */
  function OtherId(id: string): AbTest -> bool
  {
    (t: AbTest) => t.testId != id
  }

  /** `delete_test`'s list comprehension: every test without that id, in order. */
  function Without(tests: seq<AbTest>, id: string): (r: seq<AbTest>)
    ensures |r| <= |tests|
    ensures forall k :: 0 <= k < |r| ==> r[k].testId != id && r[k] in tests
  {
    var r := Sorting.Filter(tests, OtherId(id));
    forall k | 0 <= k < |r| ensures r[k].testId != id && r[k] in tests {
      Sorting.FilterMembers(tests, OtherId(id), r[k]);
    }
    r
  }

  /** The filter shrinks the list exactly when some test had the id; a test with another id survives. */
  lemma {:induction false} WithoutShrinks(tests: seq<AbTest>, id: string)
    ensures |Without(tests, id)| < |tests| <==> FindTest(tests, id).Some?
    ensures forall x :: x in tests && x.testId != id ==> x in Without(tests, id)
    ensures FindTest(tests, id).None? ==> Without(tests, id) == tests
  {
    Sorting.FilterKeepsAll(tests, OtherId(id));
    forall x | x in tests && x.testId != id ensures x in Without(tests, id) {
      Sorting.FilterMembers(tests, OtherId(id), x);
    }
  }

  // ------------------------------------------------------------ the variant score

  function Min(a: real, b: real): real
  {
    if a <= b then a else b
  }

  /** The absolute-views term: 30/25/20/15/10 at 10000/5000/1000/500/100 views. */
  function ViewsPoints(views: int): (p: real)
    ensures 0.0 <= p <= 30.0
    ensures p == 0.0 <==> views < 100
    ensures p == 30.0 <==> views >= 10000
  {
    if views >= 10000 then 30.0
    else if views >= 5000 then 25.0
    else if views >= 1000 then 20.0
    else if views >= 500 then 15.0
    else if views >= 100 then 10.0
    else 0.0
  }

  lemma {:induction false} MoreViewsMorePoints(a: int, b: int)
    requires a <= b
    ensures ViewsPoints(a) <= ViewsPoints(b)
  {
  }

  /** The collect-to-like term, counted only when there are likes. */
  function CollectPoints(likes: int, collects: int): (p: real)
    ensures p <= 20.0
    ensures likes <= 0 ==> p == 0.0
    ensures likes > 0 && collects >= 0 ==> p >= 0.0
    ensures p == 20.0 ==> likes > 0 && collects >= 2 * likes
  {
    if likes > 0 then
      var ratio := (collects as real) / (likes as real);
      assert ratio * 10.0 >= 20.0 ==> collects >= 2 * likes by {
        if ratio * 10.0 >= 20.0 {
          assert (collects as real) == ratio * (likes as real);
          assert ratio >= 2.0;
          assert (collects as real) >= 2.0 * (likes as real);
        }
      }
      Min(ratio * 10.0, 20.0)
    else 0.0
  }

  /** `_calculate_variant_score`: engagement up to 50, views up to 30, collect ratio up to 20. */
  function VariantScore(s: VariantStats): (r: real)
    ensures r <= 100.0
    ensures s.engagementRate >= 0.0 && s.collects >= 0 ==> r >= 0.0
    ensures r == 100.0 ==> s.engagementRate >= 10.0 && s.views >= 10000 && s.likes > 0 && s.collects >= 2 * s.likes
  {
    Min(s.engagementRate * 5.0, 50.0) + ViewsPoints(s.views) + CollectPoints(s.likes, s.collects)
  }

  /**
   * The statistics after `record_performance` adds this call's deltas. The rate
   * is this call's interactions over the cumulative views, and is left as it
   * was while there are no views.
   */
  function Performed(s: VariantStats, views: int, likes: int, collects: int, comments: int): (r: VariantStats)
    ensures r.impressions == s.impressions && r.views == s.views + views && r.likes == s.likes + likes
    ensures r.collects == s.collects + collects && r.comments == s.comments + comments
    ensures r.views > 0 ==> r.engagementRate * (r.views as real) == ((likes + collects + comments) as real) * 100.0
    ensures r.views <= 0 ==> r.engagementRate == s.engagementRate
    ensures r.score == VariantScore(r) && r.score <= 100.0
  {
    var v := s.views + views;
    var rate := if v > 0 then ((likes + collects + comments) as real) / (v as real) * 100.0 else s.engagementRate;
    var t := s.(views := v, likes := s.likes + likes, collects := s.collects + collects,
                comments := s.comments + comments, engagementRate := rate);
    t.(score := VariantScore(t))
  }

  /** With non-negative deltas no counter goes down. */
  lemma {:induction false} PerformedGrows(s: VariantStats, views: int, likes: int, collects: int, comments: int)
    requires views >= 0 && likes >= 0 && collects >= 0 && comments >= 0
    ensures var r := Performed(s, views, likes, collects, comments);
      r.views >= s.views && r.likes >= s.likes && r.collects >= s.collects && r.comments >= s.comments
      && r.impressions == s.impressions
  {
  }

  // ------------------------------------------------------------ variants

  function FindVariantFrom(vs: seq<Variant>, id: string, from: nat): (r: Option<nat>)
    requires from <= |vs|
    ensures r.Some? ==> from <= r.value < |vs| && vs[r.value].id == id && forall j :: from <= j < r.value ==> vs[j].id != id
    ensures r.None? ==> forall j :: from <= j < |vs| ==> vs[j].id != id
    decreases |vs| - from
  {
    if from == |vs| then None
    else if vs[from].id == id then Some(from)
    else FindVariantFrom(vs, id, from + 1)
  }

  /** The first variant with that id, as the loops over `test["variants"]` find it. */
  function FindVariant(vs: seq<Variant>, id: string): (r: Option<nat>)
    ensures r.Some? ==> r.value < |vs| && vs[r.value].id == id && forall j :: 0 <= j < r.value ==> vs[j].id != id
    ensures r.None? ==> forall j :: 0 <= j < |vs| ==> vs[j].id != id
  {
    FindVariantFrom(vs, id, 0)
  }

  /** `record_impression` on the variants: one more impression for the first match only. */
  function Impressed(vs: seq<Variant>, id: string): (r: seq<Variant>)
    ensures |r| == |vs|
    ensures forall k :: 0 <= k < |vs| && FindVariant(vs, id) != Some(k) ==> r[k] == vs[k]
    ensures forall k :: 0 <= k < |vs| ==> r[k].id == vs[k].id && r[k].stats.impressions >= vs[k].stats.impressions
    ensures FindVariant(vs, id).Some? ==> var i := FindVariant(vs, id).value;
      r[i] == vs[i].(stats := vs[i].stats.(impressions := vs[i].stats.impressions + 1))
  {
    match FindVariant(vs, id)
    case Some(i) => vs[i := vs[i].(stats := vs[i].stats.(impressions := vs[i].stats.impressions + 1))]
    case None => vs
  }

  /** `record_performance` on the variants: only the first match changes. */
  function PerformedIn(vs: seq<Variant>, id: string, views: int, likes: int, collects: int, comments: int): (r: seq<Variant>)
    ensures |r| == |vs|
    ensures forall k :: 0 <= k < |vs| && FindVariant(vs, id) != Some(k) ==> r[k] == vs[k]
    ensures FindVariant(vs, id).Some? ==> var i := FindVariant(vs, id).value;
      r[i] == vs[i].(stats := Performed(vs[i].stats, views, likes, collects, comments))
  {
    match FindVariant(vs, id)
    case Some(i) => vs[i := vs[i].(stats := Performed(vs[i].stats, views, likes, collects, comments))]
    case None => vs
  }

  /** `create_test`'s loop: every variant starts with zeroed counters. */
  function Fresh(specs: seq<VariantSpec>): (r: seq<Variant>)
    ensures |r| == |specs|
    ensures forall k :: 0 <= k < |r| ==> (r[k].stats == ZeroStats && r[k].id == specs[k].id
      && r[k].content == specs[k].content && r[k].isControl == specs[k].isControl)
  {
    seq(|specs|, k requires 0 <= k < |specs| => Variant(specs[k].id, specs[k].content, specs[k].isControl, ZeroStats))
  }

  /** The test `create_test` stores: pending, no results, no winner, id from the creation second. */
  function NewTest(name: string, kind: string, specs: seq<VariantSpec>, durationDays: int, minSampleSize: int,
                   now: nat): (t: AbTest)
    ensures t.status == Pending && t.startedAt.None? && t.results.None? && t.winner.None? && t.insights == []
    ensures t.testId == "test_" + NatToString(now) && t.createdAt == now
    ensures |t.variants| == |specs| && forall k :: 0 <= k < |specs| ==> t.variants[k].stats == ZeroStats
  {
    AbTest("test_" + NatToString(now), name, kind, Pending, now, None, durationDays, minSampleSize, Fresh(specs),
           None, None, [])
  }

  // ------------------------------------------------------------ analysis

  function TotalViews(vs: seq<Variant>): int
    decreases |vs|
  {
    if vs == [] then 0 else TotalViews(vs[..|vs| - 1]) + vs[|vs| - 1].stats.views
  }

  function ScoreKey(v: Variant): real
  {
    v.stats.score
  }

  /** Days since the start, as a real number. */
  function ElapsedDays(startedAt: int, now: int): real
  {
    ((now - startedAt) as real) / 86400.0
  }

  /** `_generate_insights` for variants ranked best first. */
  function Insights(kind: string, ranked: seq<Variant>): (r: seq<Insight>)
    requires |ranked| >= 2
    ensures 1 <= |r| <= 3 && r[|r| - 1].Lift?
    ensures Sorting.SortedDesc(ranked, ScoreKey) ==> r[|r| - 1].percent >= 0.0
    ensures kind != "title" && kind != "content" && kind != "image" ==> |r| == 1
  {
    var w := ranked[0];
    var typed :=
      if kind == "title" then [TitleBest(w.content)] + (if w.stats.engagementRate > 5.0 then [HighEngagement(w.stats.engagementRate)] else [])
      else if kind == "content" then [ContentBest(w.id)] + (if (w.stats.collects as real) > (w.stats.likes as real) * 0.5 then [HighCollectShare] else [])
      else if kind == "image" then [VisualBest(w.id)]
      else [];
    var runner := ranked[1].stats.score;
    var diff := w.stats.score - runner;
    assert Sorting.SortedDesc(ranked, ScoreKey) ==> diff >= 0.0 by {
      if Sorting.SortedDesc(ranked, ScoreKey) {
        assert ScoreKey(ranked[0]) >= ScoreKey(ranked[1]);
      }
    }
    typed + [Lift(if runner > 0.0 then diff / runner * 100.0 else 0.0)]
  }

  /** What an analysis of a running test reports, and the test to save back, if any. */
  datatype Verdict = Verdict(analysis: TestAnalysis, saved: Option<AbTest>)

  /** The body of `analyze_test` once the test is known to be running. */
  function Analyze(t: AbTest, now: int): (r: Verdict)
  {
    var base := TestAnalysis(t.testId, t.name, t.status, false, None, [], [], None);
    var total := TotalViews(t.variants);
    if total < t.minSampleSize then
      Verdict(base.(recommendation := Some(InsufficientSample(total, t.minSampleSize))), None)
    else if t.startedAt.Some? && ElapsedDays(t.startedAt.value, now) < t.durationDays as real then
      Verdict(base.(recommendation := Some(InsufficientDuration(ElapsedDays(t.startedAt.value, now), t.durationDays))), None)
    else Conclude(t, Sorting.SortDesc(t.variants, ScoreKey))
  }

  /** The end of `analyze_test` on the ranked variants: compare the best with the runner-up. */
  function Conclude(t: AbTest, ranked: seq<Variant>): (r: Verdict)
    ensures r.analysis.comparison == ranked
    ensures |ranked| < 2 ==> r.saved.None? && !r.analysis.canConclude
    ensures |ranked| >= 2 ==>
      (r.saved.Some?
       && (r.analysis.canConclude <==> ranked[0].stats.score - ranked[1].stats.score >= 10.0)
       && (r.analysis.canConclude ==>
             r.saved.value.status == Completed && r.saved.value.winner == Some(ranked[0].id)
             && r.analysis.winner == Some(ranked[0].id))
       && (!r.analysis.canConclude ==> r.saved.value == t.(status := Inconclusive)))
  {
    var compared := TestAnalysis(t.testId, t.name, t.status, false, None, [], [], None).(comparison := ranked);
    if |ranked| < 2 then Verdict(compared, None)
    else
      var lead := ranked[0].stats.score - ranked[1].stats.score;
      if lead >= 10.0 then
        var insights := Insights(t.kind, ranked);
        var a := compared.(canConclude := true, winner := Some(ranked[0].id),
                           recommendation := Some(UseVariant(ranked[0].id, ranked[0].stats.score, lead)),
                           insights := insights);
        Verdict(a, Some(t.(status := Completed, winner := Some(ranked[0].id), results := Some(a), insights := insights)))
      else
        Verdict(compared.(recommendation := Some(NotSignificant(lead))), Some(t.(status := Inconclusive)))
  }

  /**
   * Too few views or too few days conclude nothing and save nothing; the
   * report keeps the status the test had.
   */
  lemma {:induction false} NotYetConclusive(t: AbTest, now: int)
    requires TotalViews(t.variants) < t.minSampleSize
      || (t.startedAt.Some? && ElapsedDays(t.startedAt.value, now) < t.durationDays as real)
    ensures var r := Analyze(t, now);
      !r.analysis.canConclude && r.saved.None? && r.analysis.status == t.status && r.analysis.winner.None?
  {
  }

  /**
   * Otherwise, with two or more variants, the lead of the best over the
   * runner-up decides: at least 10 completes the test with the best variant,
   * whose score then beats every other variant's by at least 10; less marks it
   * inconclusive. The comparison lists all variants, best first.
   */
  lemma {:induction false} LeadDecides(t: AbTest, now: int)
    requires TotalViews(t.variants) >= t.minSampleSize
    requires !(t.startedAt.Some? && ElapsedDays(t.startedAt.value, now) < t.durationDays as real)
    requires |t.variants| >= 2
    ensures var r := Analyze(t, now); var ranked := r.analysis.comparison;
      multiset(ranked) == multiset(t.variants) && Sorting.SortedDesc(ranked, ScoreKey) && |ranked| >= 2
      && r.saved.Some?
      && (r.analysis.canConclude <==> ranked[0].stats.score - ranked[1].stats.score >= 10.0)
      && (r.analysis.canConclude ==>
            r.saved.value.status == Completed && r.saved.value.winner == Some(ranked[0].id)
            && r.analysis.winner == Some(ranked[0].id) && ranked[0] in t.variants
            && forall k :: 1 <= k < |ranked| ==> ranked[k].stats.score + 10.0 <= ranked[0].stats.score)
      && (!r.analysis.canConclude ==> r.saved.value == t.(status := Inconclusive))
  {
    var ranked := Sorting.SortDesc(t.variants, ScoreKey);
    assert Analyze(t, now) == Conclude(t, ranked);
    assert ranked[0] in multiset(ranked);
    assert forall k :: 1 <= k < |ranked| ==> ScoreKey(ranked[1]) >= ScoreKey(ranked[k]);
  }

  /** The outcome of `analyze_test` on the stored tests: the report or error, and the tests afterwards. */
  datatype Outcome = Outcome(result: Result<TestAnalysis>, tests: seq<AbTest>)

  function AnalyzeIn(tests: seq<AbTest>, id: string, now: int): (r: Outcome)
    ensures FindTest(tests, id).None? ==> r == Outcome(Err("测试不存在"), tests)
    ensures FindTest(tests, id).Some? && tests[FindTest(tests, id).value].status != Running ==>
      r == Outcome(Err("测试未运行"), tests)
    ensures r.result.Ok? ==> r.result.value.testId == id && r.result.value.status == Running
  {
    match FindTest(tests, id)
    case None => Outcome(Err("测试不存在"), tests)
    case Some(i) =>
      if tests[i].status != Running then Outcome(Err("测试未运行"), tests)
      else
        var v := Analyze(tests[i], now);
        Outcome(Ok(v.analysis), if v.saved.Some? then Upsert(tests, v.saved.value) else tests)
  }

  // ------------------------------------------------------------ the file of tests

  /** `record_impression` on the stored tests; an unknown test id changes nothing. */
  function ImpressionIn(tests: seq<AbTest>, testId: string, variantId: string): seq<AbTest>
  {
    match FindTest(tests, testId)
    case None => tests
    case Some(i) => Upsert(tests, tests[i].(variants := Impressed(tests[i].variants, variantId)))
  }

  /** `record_performance` on the stored tests; an unknown test id changes nothing. */
  function PerformanceIn(tests: seq<AbTest>, testId: string, variantId: string, views: int, likes: int,
                         collects: int, comments: int): seq<AbTest>
  {
    match FindTest(tests, testId)
    case None => tests
    case Some(i) => Upsert(tests, tests[i].(variants := PerformedIn(tests[i].variants, variantId, views, likes, collects, comments)))
  }

  /** Recording touches only the test with that id, in its place, and keeps ids distinct. */
  lemma {:induction false} RecordingInPlace(tests: seq<AbTest>, testId: string, variantId: string)
    requires FindTest(tests, testId).Some?
    ensures var i := FindTest(tests, testId).value; var r := ImpressionIn(tests, testId, variantId);
      r == tests[i := tests[i].(variants := Impressed(tests[i].variants, variantId))]
      && (UniqueIds(tests) ==> UniqueIds(r))
  {
    var i := FindTest(tests, testId).value;
    var t := tests[i].(variants := Impressed(tests[i].variants, variantId));
    assert FindTest(tests, t.testId) == Some(i);
  }

  /** The variant search loop of `record_impression` and `record_performance`. */
  method LocateVariant(vs: seq<Variant>, id: string) returns (r: Option<nat>)
    ensures r == FindVariant(vs, id)
  {
    var i := 0;
    while i < |vs|
      invariant 0 <= i <= |vs|
      invariant FindVariantFrom(vs, id, i) == FindVariant(vs, id)
    {
      if vs[i].id == id {
        return Some(i);
      }
      i := i + 1;
    }
    return None;
  }

  /** Sums the views of all variants, as `analyze_test` does. */
  method SumViews(vs: seq<Variant>) returns (total: int)
    ensures total == TotalViews(vs)
  {
    total := 0;
    for k := 0 to |vs|
      invariant total == TotalViews(vs[..k])
    {
      assert vs[..k + 1][..k] == vs[..k];
      total := total + vs[k].stats.views;
    }
    assert vs[..|vs|] == vs;
  }

  class AbTestFramework {
    /** The stored tests, in file order. */
    var tests: seq<AbTest>

    /** `_ensure_data_file`: a missing file starts as an empty list. */
    constructor (stored: Option<seq<AbTest>>)
      ensures tests == stored.GetOr([])
    {
      tests := stored.GetOr([]);
    }

    /** `_get_test`'s loop. */
    method LocateTest(id: string) returns (r: Option<nat>)
      ensures r == FindTest(tests, id)
    {
      var i := 0;
      while i < |tests|
        invariant 0 <= i <= |tests|
        invariant FindTestFrom(tests, id, i) == FindTest(tests, id)
      {
        if tests[i].testId == id {
          return Some(i);
        }
        i := i + 1;
      }
      return None;
    }

    /** `_save_test` (and `_update_test`): replace by id or append. */
    method SaveTest(t: AbTest)
      modifies this
      ensures tests == Upsert(old(tests), t)
      ensures UniqueIds(old(tests)) ==> UniqueIds(tests)
    {
      UpsertStores(tests, t);
      var existing := LocateTest(t.testId);
      if existing.Some? {
        tests := tests[existing.value := t];
      } else {
        tests := tests + [t];
      }
    }

    /** `create_test`: a pending test with zeroed counters, saved under the creation second. */
    method CreateTest(name: string, kind: string, specs: seq<VariantSpec>, durationDays: int, minSampleSize: int,
                      now: nat) returns (t: AbTest)
      modifies this
      ensures t == NewTest(name, kind, specs, durationDays, minSampleSize, now)
      ensures tests == Upsert(old(tests), t)
      ensures UniqueIds(old(tests)) ==> UniqueIds(tests)
    {
      var vs: seq<Variant> := [];
      for k := 0 to |specs|
        invariant vs == Fresh(specs[..k])
      {
        vs := vs + [Variant(specs[k].id, specs[k].content, specs[k].isControl, ZeroStats)];
      }
      assert specs[..|specs|] == specs;
      t := AbTest("test_" + NatToString(now), name, kind, Pending, now, None, durationDays, minSampleSize, vs,
                  None, None, []);
      SaveTest(t);
    }

    /** `start_test`: false for an unknown id; otherwise the test runs from now, whatever its status was. */
    method StartTest(id: string, now: int) returns (ok: bool)
      modifies this
      ensures ok <==> FindTest(old(tests), id).Some?
      ensures ok ==> var i := FindTest(old(tests), id).value;
        tests == old(tests)[i := old(tests)[i].(status := Running, startedAt := Some(now))]
      ensures !ok ==> tests == old(tests)
    {
      var found := LocateTest(id);
      if found.None? {
        return false;
      }
      var t := tests[found.value].(status := Running, startedAt := Some(now));
      SaveTest(t);
      return true;
    }

    /** `record_impression`. */
    method RecordImpression(testId: string, variantId: string)
      modifies this
      ensures tests == ImpressionIn(old(tests), testId, variantId)
    {
      var found := LocateTest(testId);
      if found.None? {
        return;
      }
      var t := tests[found.value];
      var at := LocateVariant(t.variants, variantId);
      var vs := t.variants;
      if at.Some? {
        var v := vs[at.value];
        vs := vs[at.value := v.(stats := v.stats.(impressions := v.stats.impressions + 1))];
      }
      SaveTest(t.(variants := vs));
    }

    /** `record_performance`. */
    method RecordPerformance(testId: string, variantId: string, views: int, likes: int, collects: int, comments: int)
      modifies this
      ensures tests == PerformanceIn(old(tests), testId, variantId, views, likes, collects, comments)
    {
      var found := LocateTest(testId);
      if found.None? {
        return;
      }
      var t := tests[found.value];
      var at := LocateVariant(t.variants, variantId);
      var vs := t.variants;
      if at.Some? {
        var v := vs[at.value];
        vs := vs[at.value := v.(stats := Performed(v.stats, views, likes, collects, comments))];
      }
      SaveTest(t.(variants := vs));
    }

    /** `analyze_test`. */
    method AnalyzeTest(id: string, now: int) returns (r: Result<TestAnalysis>)
      modifies this
      ensures Outcome(r, tests) == AnalyzeIn(old(tests), id, now)
    {
      var found := LocateTest(id);
      if found.None? {
        return Err("测试不存在");
      }
      var t := tests[found.value];
      if t.status != Running {
        return Err("测试未运行");
      }
      var total := SumViews(t.variants);
      assert total == TotalViews(t.variants);
      var v := Analyze(t, now);
      if v.saved.Some? {
        SaveTest(v.saved.value);
      }
      r := Ok(v.analysis);
    }

    /** `delete_test`: true exactly when some test had the id, which is then gone. */
    method DeleteTest(id: string) returns (ok: bool)
      modifies this
      ensures ok <==> FindTest(old(tests), id).Some?
      ensures tests == Without(old(tests), id)
      ensures forall k :: 0 <= k < |tests| ==> tests[k].testId != id
    {
      var kept: seq<AbTest> := [];
      for k := 0 to |tests|
        invariant kept == Without(tests[..k], id)
      {
        assert tests[..k + 1][..k] == tests[..k];
        if tests[k].testId != id {
          kept := kept + [tests[k]];
        }
      }
      assert tests[..|tests|] == tests;
      WithoutShrinks(tests, id);
      if |kept| < |tests| {
        tests := kept;
        return true;
      }
      assert FindTest(tests, id).None?;
      return false;
    }
  }

  // ------------------------------------------------------------ quick title tests

  /** `create_title_test`'s variants: the base title as control "A", then "B", "C", ... in order. */
  function TitleVariants(base: string, alternatives: seq<string>): (r: seq<VariantSpec>)
    requires 65 + |alternatives| < 0xD800
    ensures |r| == |alternatives| + 1 && r[0] == VariantSpec("A", base, true)
    ensures forall i :: 1 <= i < |r| ==> r[i] == VariantSpec([(65 + i) as char], alternatives[i - 1], false)
  {
    [VariantSpec("A", base, true)]
      + seq(|alternatives|, k requires 0 <= k < |alternatives| => VariantSpec([(66 + k) as char], alternatives[k], false))
  }

  /** The variant ids are distinct single letters, so `FindVariant` tells the variants apart. */
  lemma {:induction false} TitleVariantIdsDistinct(base: string, alternatives: seq<string>)
    requires 65 + |alternatives| < 0xD800
    ensures var r := TitleVariants(base, alternatives);
      forall i, j :: 0 <= i < j < |r| ==> r[i].id != r[j].id
  {
    var r := TitleVariants(base, alternatives);
    forall i, j | 0 <= i < j < |r| ensures r[i].id != r[j].id {
      assert r[i].id[0] == (65 + i) as char;
      assert r[j].id[0] == (65 + j) as char;
    }
  }

  class QuickAbTest {
    const framework: AbTestFramework

    constructor (f: AbTestFramework)
      ensures framework == f
    {
      framework := f;
    }

    /** `create_title_test`: a title test with a sample size of 50, named after the first 20 characters. */
    method CreateTitleTest(base: string, alternatives: seq<string>, durationDays: int, now: nat) returns (id: string)
      requires 65 + |alternatives| < 0xD800
      modifies framework
      ensures var t := NewTest("标题测试 - " + Sorting.Take(base, 20), "title", TitleVariants(base, alternatives),
                               durationDays, 50, now);
        id == t.testId && framework.tests == Upsert(old(framework.tests), t)
    {
      var t := framework.CreateTest("标题测试 - " + Sorting.Take(base, 20), "title", TitleVariants(base, alternatives),
                                    durationDays, 50, now);
      id := t.testId;
    }
  }
}
