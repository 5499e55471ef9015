/**
 * Breakdown of well-performing notes into title, structure, emotion and tag
 * features, and aggregation of those features into recommendations
 * (core/viral_analyzer.py).
 */
module ViralAnalyzer {
  import opened Wrappers
  import opened Strings
  import Sorting
  import Writer
  import Analytics
  import TitleOptimizer

  // ------------------------------------------------------------ title

  /** `\d+[个款项]`: a digit directly followed by one of the three measure words. */
  predicate HasCountedNumber(title: string)
  {
    exists i :: 0 <= i < |title| - 1 && IsDigit(title[i]) && (title[i + 1] == '个' || title[i + 1] == '款' || title[i + 1] == '项')
  }

  const ComparisonWords: seq<string> := ["VS", "vs", "对比", "区别"]
  const PainTitleWords: seq<string> := ["避坑", "别再", "不要", "千万别"]
  const GuideTitleWords: seq<string> := ["保姆级", "手把手", "教程", "攻略"]
  const FeelingTitleWords: seq<string> := ["绝了", "太香", "相见恨晚", "真香"]

  predicate IsQuestionTitle(title: string)
  {
    Contains(title, "?") || Contains(title, "？")
  }

  /** `_classify_title_type`: the first pattern that matches, "普通型" when none does. */
  function ClassifyTitleType(title: string): (r: string)
    ensures r == "数字型" <==> HasCountedNumber(title)
    ensures r == "疑问型" <==> !HasCountedNumber(title) && IsQuestionTitle(title)
    ensures r == "对比型" <==> !HasCountedNumber(title) && !IsQuestionTitle(title) && ContainsAny(title, ComparisonWords)
    ensures r == "痛点型" <==>
      !HasCountedNumber(title) && !IsQuestionTitle(title) && !ContainsAny(title, ComparisonWords)
      && ContainsAny(title, PainTitleWords)
    ensures r == "干货型" <==>
      !HasCountedNumber(title) && !IsQuestionTitle(title) && !ContainsAny(title, ComparisonWords)
      && !ContainsAny(title, PainTitleWords) && ContainsAny(title, GuideTitleWords)
    ensures r == "情感型" <==>
      !HasCountedNumber(title) && !IsQuestionTitle(title) && !ContainsAny(title, ComparisonWords)
      && !ContainsAny(title, PainTitleWords) && !ContainsAny(title, GuideTitleWords) && ContainsAny(title, FeelingTitleWords)
    ensures r == "普通型" <==>
      !HasCountedNumber(title) && !IsQuestionTitle(title) && !ContainsAny(title, ComparisonWords)
      && !ContainsAny(title, PainTitleWords) && !ContainsAny(title, GuideTitleWords) && !ContainsAny(title, FeelingTitleWords)
    ensures r in ["数字型", "疑问型", "对比型", "痛点型", "干货型", "情感型", "普通型"]
  {
    if HasCountedNumber(title) then "数字型"
    else if IsQuestionTitle(title) then "疑问型"
    else if ContainsAny(title, ComparisonWords) then "对比型"
    else if ContainsAny(title, PainTitleWords) then "痛点型"
    else if ContainsAny(title, GuideTitleWords) then "干货型"
    else if ContainsAny(title, FeelingTitleWords) then "情感型"
    else "普通型"
  }

  /** The words `_extract_title_keywords` looks for. */
  const TitleEmotionWords: seq<string> :=
    ["神器", "必备", "绝了", "太香", "相见恨晚", "真香", "救命", "起飞", "翻倍", "轻松", "搞定", "解放"]

  /** The listed words present in `text`, in list order. */
  function WordsIn(text: string, words: seq<string>): (r: seq<string>)
    ensures |r| <= |words|
    ensures forall k :: 0 <= k < |r| ==> r[k] in words && Contains(text, r[k])
    decreases |words|
  {
    if words == [] then []
    else
      var rest := WordsIn(text, words[..|words| - 1]);
      if Contains(text, words[|words| - 1]) then rest + [words[|words| - 1]] else rest
  }

  /** A listed word is reported exactly when it occurs. */
  lemma {:induction false} WordsInIff(text: string, words: seq<string>, w: string)
    ensures w in WordsIn(text, words) <==> w in words && Contains(text, w)
    decreases |words|
  {
    if words != [] {
      WordsInIff(text, words[..|words| - 1], w);
      assert words == words[..|words| - 1] + [words[|words| - 1]];
    }
  }

  /** Putting a word in front adds one reported word exactly when it occurs. */
  lemma {:induction false} WordsInCons(text: string, w: string, words: seq<string>)
    ensures |WordsIn(text, [w] + words)| == (if Contains(text, w) then 1 else 0) + |WordsIn(text, words)|
    decreases |words|
  {
    if words == [] {
      assert [w] + words == [w];
      assert [w][..0] == [];
    } else {
      var n := |words| - 1;
      var all := [w] + words;
      assert all[..|all| - 1] == [w] + words[..n];
      assert all[|all| - 1] == words[n];
      WordsInCons(text, w, words[..n]);
    }
  }

  /** Counting the present words and listing them agree: the count is the length of the list. */
  lemma {:induction false} CountPresentIsWordsIn(text: string, words: seq<string>)
    ensures CountPresent(text, words) == |WordsIn(text, words)|
    decreases |words|
  {
    if words != [] {
      CountPresentIsWordsIn(text, words[1..]);
      assert words == [words[0]] + words[1..];
      WordsInCons(text, words[0], words[1..]);
    }
  }

  /** `[^\w\s]`: some character that is neither a word character nor whitespace. */
  predicate HasSymbol(title: string)
  {
    exists i :: 0 <= i < |title| && !IsWordChar(title[i]) && !IsSpace(title[i])
  }

  datatype TitleFeatures = TitleFeatures(length: nat, score: real, hasNumber: bool, hasEmoji: bool, kind: string,
                                         keywords: seq<string>)

  /** `_analyze_title`. */
  function AnalyzeTitle(title: string): (r: TitleFeatures)
    ensures r.length == |title| && 0.0 <= r.score <= 100.0
    ensures r.hasNumber <==> exists i :: 0 <= i < |title| && IsDigit(title[i])
    ensures r.kind == ClassifyTitleType(title) && r.keywords == WordsIn(title, TitleEmotionWords)
    ensures r.hasEmoji == HasSymbol(title) && r.score == TitleOptimizer.CalculateScore(title)
  {
    TitleFeatures(|title|, TitleOptimizer.CalculateScore(title), TitleOptimizer.HasDigit(title), HasSymbol(title),
                  ClassifyTitleType(title), WordsIn(title, TitleEmotionWords))
  }

  // ------------------------------------------------------------ structure

  const SceneOpeningWords: seq<string> := ["深夜", "加班", "赶稿", "面对堆积"]
  const TimeOpeningWords: seq<string> := ["被问爆", "最近", "终于"]
  const DirectOpeningWords: seq<string> := ["今天", "分享", "推荐"]
  const QuestionOpeningWords: seq<string> := ["你知道吗", "有没有", "是不是"]

  /** `_classify_opening`: the first pattern that matches, "其他" when none does. */
  function ClassifyOpening(opening: string): (r: string)
    ensures r == "场景切入" <==> ContainsAny(opening, SceneOpeningWords)
    ensures r == "时间引入" <==> !ContainsAny(opening, SceneOpeningWords) && ContainsAny(opening, TimeOpeningWords)
    ensures r == "直入主题" <==>
      !ContainsAny(opening, SceneOpeningWords) && !ContainsAny(opening, TimeOpeningWords)
      && ContainsAny(opening, DirectOpeningWords)
    ensures r == "疑问引入" <==>
      !ContainsAny(opening, SceneOpeningWords) && !ContainsAny(opening, TimeOpeningWords)
      && !ContainsAny(opening, DirectOpeningWords) && ContainsAny(opening, QuestionOpeningWords)
    ensures r == "其他" <==>
      !ContainsAny(opening, SceneOpeningWords) && !ContainsAny(opening, TimeOpeningWords)
      && !ContainsAny(opening, DirectOpeningWords) && !ContainsAny(opening, QuestionOpeningWords)
  {
    if ContainsAny(opening, SceneOpeningWords) then "场景切入"
    else if ContainsAny(opening, TimeOpeningWords) then "时间引入"
    else if ContainsAny(opening, DirectOpeningWords) then "直入主题"
    else if ContainsAny(opening, QuestionOpeningWords) then "疑问引入"
    else "其他"
  }

  const CallToActionWords: seq<string> := ["试试", "关注", "点赞", "收藏", "评论", "试试看", "记得", "别忘了"]
  const SceneWords: seq<string> := ["深夜", "加班", "赶稿", "月底", "总结", "同事", "老板", "任务", "项目"]

  /** The stripped non-blank lines, in order. */
  function NonBlank(lines: seq<string>): (r: seq<string>)
    ensures |r| <= |lines|
    ensures forall k :: 0 <= k < |r| ==> r[k] != "" && r[k] == Strip(r[k])
    decreases |lines|
  {
    if lines == [] then []
    else
      var rest := NonBlank(lines[..|lines| - 1]);
      var p := Strip(lines[|lines| - 1]);
      StripIdempotent(lines[|lines| - 1]);
      if p != "" then rest + [p] else rest
  }

  /** Blank lines are exactly the ones dropped. */
  lemma {:induction false} NonBlankCount(lines: seq<string>)
    ensures |NonBlank(lines)| == |lines| - |BlankLines(lines)|
    decreases |lines|
  {
    if lines != [] {
      NonBlankCount(lines[..|lines| - 1]);
    }
  }

  /** The lines that are empty once stripped. */
  function BlankLines(lines: seq<string>): (r: seq<string>)
    ensures |r| <= |lines|
    ensures forall k :: 0 <= k < |r| ==> Strip(r[k]) == ""
    decreases |lines|
  {
    if lines == [] then []
    else
      var rest := BlankLines(lines[..|lines| - 1]);
      if Strip(lines[|lines| - 1]) == "" then rest + [lines[|lines| - 1]] else rest
  }

  datatype Structure = Structure(paragraphCount: nat, totalLength: nat, avgParagraphLength: nat, openingType: string,
                                 hasCallToAction: bool, sceneBased: bool)

  /** `max(n, 1)`. */
  function AtLeastOne(n: nat): (r: nat)
    ensures r >= 1
  {
    if n > 0 then n else 1
  }

  /** `total // max(n, 1)`: the floor of the average, bracketed by the total. */
  function FloorAverage(total: nat, n: nat): (r: nat)
    ensures r * AtLeastOne(n) <= total < (r + 1) * AtLeastOne(n)
  {
    var d := AtLeastOne(n);
    assert total == d * (total / d) + total % d;
    total / d
  }

  /** `_analyze_content_structure`: the average is the floor of length over paragraph count. */
  function AnalyzeContentStructure(content: string): (r: Structure)
    ensures r.paragraphCount == |NonBlank(Split(content, '\n'))| && r.totalLength == |content|
    ensures r.avgParagraphLength == FloorAverage(|content|, r.paragraphCount)
    ensures r.openingType == ClassifyOpening(if r.paragraphCount > 0 then NonBlank(Split(content, '\n'))[0] else "")
    ensures r.hasCallToAction <==> ContainsAny(content, CallToActionWords)
    ensures r.sceneBased <==> ContainsAny(content, SceneWords)
  {
    var paras := NonBlank(Split(content, '\n'));
    var n := |paras|;
    Structure(n, |content|, FloorAverage(|content|, n), ClassifyOpening(if n > 0 then paras[0] else ""),
              ContainsAny(content, CallToActionWords), ContainsAny(content, SceneWords))
  }

  // ------------------------------------------------------------ emotion

  const PainWords: seq<string> := ["折磨", "崩溃", "头秃", "抓狂", "焦虑", "痛苦", "烦"]
  const SolutionWords: seq<string> := ["救命", "绝了", "太香", "相见恨晚", "真香", "好用到哭"]
  const EffectWords: seq<string> := ["起飞", "翻倍", "轻松", "搞定", "解放", "提升", "效率"]

  /** `_classify_emotion_type`: pain with a solution, then effect, then solution alone. */
  function ClassifyEmotionType(pain: int, solution: int, effect: int): (r: string)
    ensures r == "痛点-解决型" <==> pain > 0 && solution > 0
    ensures r == "效果强调型" <==> !(pain > 0 && solution > 0) && effect > 0
    ensures r == "推荐型" <==> pain <= 0 && solution > 0 && effect <= 0
    ensures r == "平实型" <==> solution <= 0 && effect <= 0
  {
    if pain > 0 && solution > 0 then "痛点-解决型"
    else if effect > 0 then "效果强调型"
    else if solution > 0 then "推荐型"
    else "平实型"
  }

  datatype Emotion = Emotion(pain: nat, solution: nat, effect: nat, total: nat, kind: string)

  /** `_analyze_emotion`: each count is the number of distinct listed words present. */
  function AnalyzeEmotion(content: string): (r: Emotion)
    ensures r.pain <= |PainWords| && r.solution <= |SolutionWords| && r.effect <= |EffectWords|
    ensures r.pain > 0 <==> ContainsAny(content, PainWords)
    ensures r.solution > 0 <==> ContainsAny(content, SolutionWords)
    ensures r.effect > 0 <==> ContainsAny(content, EffectWords)
    ensures r.total == r.pain + r.solution + r.effect && r.kind == ClassifyEmotionType(r.pain, r.solution, r.effect)
    ensures r.pain == |WordsIn(content, PainWords)| && r.solution == |WordsIn(content, SolutionWords)|
      && r.effect == |WordsIn(content, EffectWords)|
  {
    CountPresentIsWordsIn(content, PainWords);
    CountPresentIsWordsIn(content, SolutionWords);
    CountPresentIsWordsIn(content, EffectWords);
    var p, s, e := CountPresent(content, PainWords), CountPresent(content, SolutionWords), CountPresent(content, EffectWords);
    Emotion(p, s, e, p + s + e, ClassifyEmotionType(p, s, e))
  }

  // ------------------------------------------------------------ tags, visual

  datatype TagFeatures = TagFeatures(count: nat, tags: seq<string>, hasAi: bool, hasTool: bool, hasEfficiency: bool)

  predicate AnyTagHas(tags: seq<string>, word: string)
  {
    exists k :: 0 <= k < |tags| && Contains(tags[k], word)
  }

  /** `_analyze_tags`. */
  function AnalyzeTags(tags: seq<string>): (r: TagFeatures)
    ensures r.count == |tags| && r.tags == tags
    ensures r.hasAi == AnyTagHas(tags, "AI") && r.hasTool == AnyTagHas(tags, "工具") && r.hasEfficiency == AnyTagHas(tags, "效率")
  {
    TagFeatures(|tags|, tags, AnyTagHas(tags, "AI"), AnyTagHas(tags, "工具"), AnyTagHas(tags, "效率"))
  }

  /** The visual features and their keywords, in the dict's order. */
  const VisualFeatures: seq<(string, seq<string>)> := [
    ("科技感", ["tech", "modern", "digital", "futuristic"]),
    ("简洁", ["clean", "minimal", "simple", "clear"]),
    ("蓝色", ["blue", "cyan", "navy"]),
    ("工具界面", ["interface", "ui", "screen", "workspace"])
  ]

  /** The features with some keyword in the lower-cased prompt, in order. */
  function FeaturesIn(lowered: string, features: seq<(string, seq<string>)>): (r: seq<string>)
    ensures |r| <= |features|
    decreases |features|
  {
    if features == [] then []
    else
      var rest := FeaturesIn(lowered, features[..|features| - 1]);
      var f := features[|features| - 1];
      if ContainsAny(lowered, f.1) then rest + [f.0] else rest
  }

  /** The positions of the features with some keyword in the lower-cased prompt, increasing. */
  function FeaturePositions(lowered: string, features: seq<(string, seq<string>)>): (pos: seq<nat>)
    ensures forall k :: 0 <= k < |pos| ==> pos[k] < |features|
    ensures forall j :: j in pos <==> 0 <= j < |features| && ContainsAny(lowered, features[j].1)
    ensures forall i, j :: 0 <= i < j < |pos| ==> pos[i] < pos[j]
    decreases |features|
  {
    if features == [] then []
    else
      var n := |features| - 1;
      var rest := FeaturePositions(lowered, features[..n]);
      assert forall j :: 0 <= j < n ==> features[..n][j] == features[j];
      if ContainsAny(lowered, features[n].1) then rest + [n] else rest
  }

  /** The reported features are the names at those positions, in order. */
  lemma {:induction false} FeaturesInExact(lowered: string, features: seq<(string, seq<string>)>)
    ensures var r := FeaturesIn(lowered, features);
      var pos := FeaturePositions(lowered, features);
      |r| == |pos| && forall k :: 0 <= k < |r| ==> r[k] == features[pos[k]].0
    decreases |features|
  {
    if features != [] {
      var n := |features| - 1;
      var init := features[..n];
      FeaturesInExact(lowered, init);
      var r0, pos0 := FeaturesIn(lowered, init), FeaturePositions(lowered, init);
      assert forall k :: 0 <= k < |r0| ==> pos0[k] < n && init[pos0[k]] == features[pos0[k]];
      if ContainsAny(lowered, features[n].1) {
        assert FeaturesIn(lowered, features) == r0 + [features[n].0];
        assert FeaturePositions(lowered, features) == pos0 + [n];
      } else {
        assert FeaturesIn(lowered, features) == r0;
        assert FeaturePositions(lowered, features) == pos0;
      }
    }
  }

  datatype Visual = Visual(promptLength: nat, features: seq<string>, hasStyleKeywords: bool)

  /** `_analyze_visual`; the keywords are matched lower-cased ("UI" as "ui"). */
  function AnalyzeVisual(prompt: string): (r: Visual)
    ensures r.promptLength == |prompt| && |r.features| <= 4
    ensures r.hasStyleKeywords <==> r.features != []
    ensures var pos := FeaturePositions(Lower(prompt), VisualFeatures);
      |r.features| == |pos| && forall k :: 0 <= k < |pos| ==> r.features[k] == VisualFeatures[pos[k]].0
  {
    FeaturesInExact(Lower(prompt), VisualFeatures);
    var found := FeaturesIn(Lower(prompt), VisualFeatures);
    Visual(|prompt|, found, |found| > 0)
  }

  // ------------------------------------------------------------ one post

  datatype Analysis = Analysis(draftId: int, title: string, score: real, stats: Analytics.Stats, titleFeatures: TitleFeatures,
                               structure: Structure, emotion: Emotion, tags: TagFeatures, visual: Option<Visual>,
                               successFactors: seq<string>)

  const BasicContent: string := "📝 基础内容"

  /** The factors `_extract_success_factors` lists before its fallback. */
  /** `[line]` when the condition holds, nothing otherwise. */
  function When(b: bool, line: string): (r: seq<string>)
    ensures |r| == (if b then 1 else 0) && (b ==> r == [line])
  {
    if b then [line] else []
  }

  function FactorsFound(score: real, t: TitleFeatures, c: Structure, e: Emotion, g: TagFeatures): seq<string>
  {
    When(score >= 70.0, "📊 高互动率内容")
    + When(t.score >= 60.0, "🎯 高分标题 (" + t.kind + ")")
    + When(t.hasNumber, "🔢 数字化标题")
    + When(t.hasEmoji, "😊 表情符号标题")
    + When(c.sceneBased, "🎬 场景化内容")
    + When(c.hasCallToAction, "📢 包含行动召唤")
    + When(e.total >= 3, "💭 情感化内容 (" + e.kind + ")")
    + When(g.hasAi && g.hasTool, "🏷️ 标签组合完整")
  }

  function Flag(b: bool): nat
  {
    if b then 1 else 0
  }

  /** One factor per condition that holds, and none of them the basic-content line. */
  lemma {:induction false} FactorsFoundShape(score: real, t: TitleFeatures, c: Structure, e: Emotion, g: TagFeatures)
    ensures |FactorsFound(score, t, c, e, g)| ==
      Flag(score >= 70.0) + Flag(t.score >= 60.0) + Flag(t.hasNumber) + Flag(t.hasEmoji) + Flag(c.sceneBased)
      + Flag(c.hasCallToAction) + Flag(e.total >= 3) + Flag(g.hasAi && g.hasTool)
    ensures BasicContent !in FactorsFound(score, t, c, e, g)
  {
    var high := "🎯 高分标题 (" + t.kind + ")";
    var emo := "💭 情感化内容 (" + e.kind + ")";
    assert high[0] == '🎯' && emo[0] == '💭';
    assert high != BasicContent && emo != BasicContent;
  }

  /** `_extract_success_factors`: one factor per condition that holds, the basic-content line alone when none does. */
  function ExtractSuccessFactors(score: real, t: TitleFeatures, c: Structure, e: Emotion, g: TagFeatures): (r: seq<string>)
    ensures var n := Flag(score >= 70.0) + Flag(t.score >= 60.0) + Flag(t.hasNumber) + Flag(t.hasEmoji) + Flag(c.sceneBased)
      + Flag(c.hasCallToAction) + Flag(e.total >= 3) + Flag(g.hasAi && g.hasTool);
      |r| == (if n == 0 then 1 else n)
    ensures r == [BasicContent] <==>
      score < 70.0 && t.score < 60.0 && !t.hasNumber && !t.hasEmoji && !c.sceneBased && !c.hasCallToAction
      && e.total < 3 && !(g.hasAi && g.hasTool)
  {
    var f := FactorsFound(score, t, c, e, g);
    FactorsFoundShape(score, t, c, e, g);
    if f != [] then f else [BasicContent]
  }

  /** `analyze_viral_content` for one draft and its statistics. */
  function AnalyzeViralContent(d: Writer.Draft, stats: Analytics.Stats): (r: Analysis)
    ensures r.draftId == d.createdAt && r.title == d.article.title && r.score == Analytics.CalculateScore(stats)
    ensures r.visual.Some? <==> d.article.imagePrompt != ""
    ensures r.titleFeatures == AnalyzeTitle(d.article.title) && r.successFactors != []
    ensures r.stats == stats && r.structure == AnalyzeContentStructure(d.article.content)
      && r.emotion == AnalyzeEmotion(d.article.content) && r.tags == AnalyzeTags(d.article.tags)
    ensures r.visual.Some? ==> r.visual.value == AnalyzeVisual(d.article.imagePrompt)
    ensures r.successFactors == ExtractSuccessFactors(r.score, r.titleFeatures, r.structure, r.emotion, r.tags)
  {
    var a := d.article;
    var score := Analytics.CalculateScore(stats);
    var t := AnalyzeTitle(a.title);
    var c := AnalyzeContentStructure(a.content);
    var e := AnalyzeEmotion(a.content);
    var g := AnalyzeTags(a.tags);
    var v := if a.imagePrompt != "" then Some(AnalyzeVisual(a.imagePrompt)) else None;
    Analysis(d.createdAt, a.title, score, stats, t, c, e, g, v, ExtractSuccessFactors(score, t, c, e, g))
  }

  // ------------------------------------------------------------ aggregation

  function Occurrences<T(==)>(xs: seq<T>, x: T): nat
  {
    multiset(xs)[x]
  }

  /** The first element whose count is at least `c`. */
  function FirstWithCount<T(==)>(all: seq<T>, rest: seq<T>, c: nat): (r: Option<T>)
    ensures r.Some? ==> r.value in rest && Occurrences(all, r.value) >= c
    decreases |rest|
  {
    if rest == [] then None
    else if Occurrences(all, rest[0]) >= c then Some(rest[0])
    else FirstWithCount(all, rest[1..], c)
  }

  /** When some element reaches the count, one is found, and no later than that element. */
  lemma {:induction false} FirstWithCountEarliest<T>(all: seq<T>, rest: seq<T>, c: nat, j: nat)
    requires j < |rest| && Occurrences(all, rest[j]) >= c
    ensures FirstWithCount(all, rest, c).Some? && FirstWithCount(all, rest, c).value in rest[..j + 1]
    decreases |rest|
  {
    if Occurrences(all, rest[0]) < c {
      assert rest[1..][j - 1] == rest[j];
      FirstWithCountEarliest(all, rest[1..], c, j - 1);
      assert rest[..j + 1] == [rest[0]] + rest[1..][..j];
    } else {
      assert rest[..j + 1][0] == rest[0];
    }
  }

  function MaxCount<T(==)>(all: seq<T>, rest: seq<T>): (m: nat)
    ensures forall k :: 0 <= k < |rest| ==> Occurrences(all, rest[k]) <= m
    ensures rest != [] ==> exists k :: 0 <= k < |rest| && Occurrences(all, rest[k]) == m
    decreases |rest|
  {
    if rest == [] then 0
    else
      var m := MaxCount(all, rest[1..]);
      assert forall k :: 1 <= k < |rest| ==> rest[k] == rest[1..][k - 1];
      if Occurrences(all, rest[0]) >= m then Occurrences(all, rest[0]) else m
  }

  /** `Counter(xs).most_common(1)[0][0]`: a most frequent element, the earliest one among ties. */
  function MostCommon<T(==)>(xs: seq<T>): (r: T)
    requires xs != []
    ensures r in xs && forall y :: y in xs ==> Occurrences(xs, y) <= Occurrences(xs, r)
    ensures forall j :: 0 <= j < |xs| && Occurrences(xs, xs[j]) == Occurrences(xs, r) ==> r in xs[..j + 1]
  {
    var m := MaxCount(xs, xs);
    var k :| 0 <= k < |xs| && Occurrences(xs, xs[k]) == m;
    FirstWithCountEarliest(xs, xs, m, k);
    var r := FirstWithCount(xs, xs, m).value;
    assert forall j :: 0 <= j < |xs| && Occurrences(xs, xs[j]) == m ==> r in xs[..j + 1] by {
      forall j | 0 <= j < |xs| && Occurrences(xs, xs[j]) == m ensures r in xs[..j + 1] {
        FirstWithCountEarliest(xs, xs, m, j);
      }
    }
    assert forall y :: y in xs ==> Occurrences(xs, y) <= m by {
      forall y | y in xs ensures Occurrences(xs, y) <= m {
        var j :| 0 <= j < |xs| && xs[j] == y;
      }
    }
    r
  }

  /** The distinct elements in order of first occurrence. */
  function Distinct(xs: seq<string>): (r: seq<string>)
    ensures forall x :: x in r <==> x in xs
    ensures forall i, j :: 0 <= i < j < |r| ==> r[i] != r[j]
    decreases |xs|
  {
    if xs == [] then []
    else
      var rest := Distinct(xs[..|xs| - 1]);
      assert forall x :: x in xs <==> x in xs[..|xs| - 1] || x == xs[|xs| - 1] by {
        assert xs == xs[..|xs| - 1] + [xs[|xs| - 1]];
      }
      if xs[|xs| - 1] in rest then rest else rest + [xs[|xs| - 1]]
  }

  datatype Tally = Tally(factor: string, count: nat)

  function TallyCount(t: Tally): real
  {
    t.count as real
  }

  /** One tally per distinct element, in order of first occurrence. */
  function Tallies(xs: seq<string>): (r: seq<Tally>)
    ensures |r| == |Distinct(xs)|
    ensures forall k :: 0 <= k < |r| ==> r[k] == Tally(Distinct(xs)[k], Occurrences(xs, Distinct(xs)[k]))
  {
    var ds := Distinct(xs);
    seq(|ds|, k requires 0 <= k < |ds| => Tally(ds[k], Occurrences(xs, ds[k])))
  }

  /** `dict(Counter(xs).most_common(5))`: the five most frequent, by count. */
  function MostCommonFive(xs: seq<string>): (r: seq<Tally>)
    ensures |r| == if |Distinct(xs)| < 5 then |Distinct(xs)| else 5
    ensures Sorting.SortedDesc(r, TallyCount)
    ensures forall k :: 0 <= k < |r| ==> r[k].factor in xs && r[k].count == Occurrences(xs, r[k].factor)
  {
    var ds := Distinct(xs);
    var tallies := Tallies(xs);
    var sorted := Sorting.SortDesc(tallies, TallyCount);
    var top := Sorting.Take(sorted, 5);
    assert |sorted| == |ds|;
    assert forall k :: 0 <= k < |top| ==> top[k].factor in xs && top[k].count == Occurrences(xs, top[k].factor) by {
      forall k | 0 <= k < |top| ensures top[k].factor in xs && top[k].count == Occurrences(xs, top[k].factor) {
        assert top[k] == sorted[k];
        assert sorted[k] in multiset(sorted);
        var p :| 0 <= p < |tallies| && tallies[p] == top[k];
        assert ds[p] in ds;
      }
    }
    top
  }

  /** Distinct entries occur at most once in the multiset. */
  lemma {:induction false} DistinctOnce<T>(s: seq<T>, v: T)
    requires forall i, j :: 0 <= i < j < |s| ==> s[i] != s[j]
    ensures multiset(s)[v] <= 1
    decreases |s|
  {
    if s != [] {
      var n := |s| - 1;
      assert forall i :: 0 <= i < n ==> s[..n][i] == s[i];
      DistinctOnce(s[..n], v);
      assert s == s[..n] + [s[n]];
      if s[n] == v {
        assert v !in s[..n];
      }
    }
  }

  /** An entry that occurs at most once has no equal at another place. */
  lemma OnceDistinct<T>(s: seq<T>, i: nat, j: nat)
    requires i < j < |s| && multiset(s)[s[i]] <= 1
    ensures s[i] != s[j]
  {
    assert s == s[..j] + [s[j]] + s[j + 1..];
    assert s[i] in s[..j];
  }

  /**
   * The five factors are distinct, and a factor left out occurs no more often
   * than any that was kept.
   */
  lemma {:induction false} MostCommonFiveExact(xs: seq<string>)
    ensures var r := MostCommonFive(xs);
      forall i, j :: 0 <= i < j < |r| ==> r[i].factor != r[j].factor
    ensures var r := MostCommonFive(xs);
      forall x :: x in xs && (forall k :: 0 <= k < |r| ==> r[k].factor != x) ==>
        forall k :: 0 <= k < |r| ==> Occurrences(xs, x) <= r[k].count
  {
    MostCommonFiveDistinct(xs);
    MostCommonFiveComplete(xs);
  }

  lemma {:induction false} MostCommonFiveDistinct(xs: seq<string>)
    ensures var r := MostCommonFive(xs);
      forall i, j :: 0 <= i < j < |r| ==> r[i].factor != r[j].factor
  {
    var ts := Tallies(xs);
    var ds := Distinct(xs);
    var sorted := Sorting.SortDesc(ts, TallyCount);
    var r := MostCommonFive(xs);
    assert r == Sorting.Take(sorted, 5);
    assert forall k :: 0 <= k < |r| ==> r[k] == sorted[k];
    assert forall i, j :: 0 <= i < j < |ts| ==> ts[i] != ts[j] by {
      forall i, j | 0 <= i < j < |ts| ensures ts[i] != ts[j] {
        assert ts[i].factor == ds[i] && ts[j].factor == ds[j];
      }
    }
    forall i, j | 0 <= i < j < |r| ensures r[i].factor != r[j].factor {
      DistinctOnce(ts, sorted[i]);
      OnceDistinct(sorted, i, j);
    }
  }

  lemma {:induction false} MostCommonFiveComplete(xs: seq<string>)
    ensures var r := MostCommonFive(xs);
      forall x :: x in xs && (forall k :: 0 <= k < |r| ==> r[k].factor != x) ==>
        forall k :: 0 <= k < |r| ==> Occurrences(xs, x) <= r[k].count
  {
    var ts := Tallies(xs);
    var ds := Distinct(xs);
    var sorted := Sorting.SortDesc(ts, TallyCount);
    var r := MostCommonFive(xs);
    assert r == Sorting.Take(sorted, 5);
    assert forall k :: 0 <= k < |r| ==> r[k] == sorted[k];
    forall x | x in xs && (forall k :: 0 <= k < |r| ==> r[k].factor != x)
      ensures forall k :: 0 <= k < |r| ==> Occurrences(xs, x) <= r[k].count
    {
      assert x in ds;
      var p :| 0 <= p < |ds| && ds[p] == x;
      assert ts[p] in multiset(sorted);
      var q :| 0 <= q < |sorted| && sorted[q] == ts[p];
      assert q >= |r|;
      forall k | 0 <= k < |r| ensures Occurrences(xs, x) <= r[k].count {
        assert TallyCount(sorted[k]) >= TallyCount(sorted[q]);
      }
    }
  }

  datatype Aggregate = Aggregate(
    totalAnalyzed: nat,
    mostCommonTitleType: string,
    titleTypes: seq<string>,
    avgTitleScore: real,
    sceneBasedRatio: real,
    ctaRatio: real,
    mostCommonEmotion: string,
    emotionTypes: seq<string>,
    factorFrequency: seq<Tally>,
    recommendations: seq<string>)

  function TitleTypes(analyses: seq<Analysis>): (r: seq<string>)
    ensures |r| == |analyses|
    decreases |analyses|
  {
    if analyses == [] then [] else TitleTypes(analyses[..|analyses| - 1]) + [analyses[|analyses| - 1].titleFeatures.kind]
  }

  function EmotionTypes(analyses: seq<Analysis>): (r: seq<string>)
    ensures |r| == |analyses|
    decreases |analyses|
  {
    if analyses == [] then [] else EmotionTypes(analyses[..|analyses| - 1]) + [analyses[|analyses| - 1].emotion.kind]
  }

  function TitleScoreSum(analyses: seq<Analysis>): real
    decreases |analyses|
  {
    if analyses == [] then 0.0 else TitleScoreSum(analyses[..|analyses| - 1]) + analyses[|analyses| - 1].titleFeatures.score
  }

  /** Every title score lies in [0, 100], as `AnalyzeTitle` guarantees. */
  predicate ScoresInRange(analyses: seq<Analysis>)
  {
    forall k :: 0 <= k < |analyses| ==> 0.0 <= analyses[k].titleFeatures.score <= 100.0
  }

  lemma {:induction false} TitleScoreSumBounded(analyses: seq<Analysis>)
    requires ScoresInRange(analyses)
    ensures 0.0 <= TitleScoreSum(analyses) <= 100.0 * (|analyses| as real)
    decreases |analyses|
  {
    if analyses != [] {
      var init := analyses[..|analyses| - 1];
      assert forall k :: 0 <= k < |init| ==> init[k] == analyses[k];
      TitleScoreSumBounded(init);
    }
  }

  function SceneCount(analyses: seq<Analysis>): (r: nat)
    ensures r <= |analyses|
    decreases |analyses|
  {
    if analyses == [] then 0 else SceneCount(analyses[..|analyses| - 1]) + (if analyses[|analyses| - 1].structure.sceneBased then 1 else 0)
  }

  function CtaCount(analyses: seq<Analysis>): (r: nat)
    ensures r <= |analyses|
    decreases |analyses|
  {
    if analyses == [] then 0 else CtaCount(analyses[..|analyses| - 1]) + (if analyses[|analyses| - 1].structure.hasCallToAction then 1 else 0)
  }

  function AllFactors(analyses: seq<Analysis>): seq<string>
    decreases |analyses|
  {
    if analyses == [] then [] else AllFactors(analyses[..|analyses| - 1]) + analyses[|analyses| - 1].successFactors
  }

  /** `_generate_recommendations`. */
  function GenerateRecommendations(titleType: string, sceneRatio: real, emotionType: string, factors: seq<Tally>): (r: seq<string>)
    ensures |r| >= 2 && r[0] == "📌 标题建议：优先使用 " + titleType + " 标题"
    ensures ("📌 情感建议：采用 " + emotionType + " 情感策略") in r
    ensures ("📌 内容建议：使用场景化描述，让读者产生共鸣" in r) <==> sceneRatio > 0.6
    ensures |r| == 2 + (if sceneRatio > 0.6 then 1 else 0) + (if factors != [] then 1 else 0)
  {
    var top := Sorting.Take(factors, 3);
    var names := seq(|top|, k requires 0 <= k < |top| => top[k].factor);
    var titleLine := "📌 标题建议：优先使用 " + titleType + " 标题";
    var sceneLine := "📌 内容建议：使用场景化描述，让读者产生共鸣";
    var emotionLine := "📌 情感建议：采用 " + emotionType + " 情感策略";
    var factorLine := "📌 关键要素：" + Join(names, " · ");
    assert titleLine[2] == '标' && factorLine[2] == '关' && emotionLine[2] == '情' && sceneLine[2] == '内';
    assert titleLine != sceneLine && factorLine != sceneLine && emotionLine != sceneLine;
    ["📌 标题建议：优先使用 " + titleType + " 标题"]
    + (if sceneRatio > 0.6 then ["📌 内容建议：使用场景化描述，让读者产生共鸣"] else [])
    + ["📌 情感建议：采用 " + emotionType + " 情感策略"]
    + (if top != [] then ["📌 关键要素：" + Join(names, " · ")] else [])
  }

  /** `_aggregate_patterns`, as a value. */
  function AggregateSpec(analyses: seq<Analysis>): Aggregate
    requires analyses != []
  {
    var n := |analyses| as real;
    var titleTypes := TitleTypes(analyses);
    var emotionTypes := EmotionTypes(analyses);
    var scene := (SceneCount(analyses) as real) / n;
    var top := MostCommonFive(AllFactors(analyses));
    Aggregate(|analyses|, MostCommon(titleTypes), titleTypes, TitleScoreSum(analyses) / n, scene,
              (CtaCount(analyses) as real) / n, MostCommon(emotionTypes), emotionTypes, top,
              GenerateRecommendations(MostCommon(titleTypes), scene, MostCommon(emotionTypes), top))
  }

  /** The ratios are fractions, the average a score, and the recommendations follow the scene ratio. */
  lemma {:induction false} AggregateBounds(analyses: seq<Analysis>)
    requires analyses != [] && ScoresInRange(analyses)
    ensures var g := AggregateSpec(analyses);
      0.0 <= g.sceneBasedRatio <= 1.0 && 0.0 <= g.ctaRatio <= 1.0 && 0.0 <= g.avgTitleScore <= 100.0
      && |g.factorFrequency| <= 5 && g.mostCommonTitleType in g.titleTypes
  {
    var n := |analyses| as real;
    var s := SceneCount(analyses) as real;
    var c := CtaCount(analyses) as real;
    var t := TitleScoreSum(analyses);
    DivideBounded(s, n, 1.0);
    DivideBounded(c, n, 1.0);
    TitleScoreSumBounded(analyses);
    DivideBounded(t, n, 100.0);
  }

  lemma {:induction false} DivideBounded(x: real, n: real, bound: real)
    requires n > 0.0 && x >= 0.0 && bound >= 0.0 && x <= bound * n
    ensures 0.0 <= x / n <= bound
  {
  }

  /** `_aggregate_patterns`, with its loops over the analyses. */
  method AggregatePatterns(analyses: seq<Analysis>) returns (g: Aggregate)
    requires analyses != []
    ensures g == AggregateSpec(analyses)
  {
    var titleTypes: seq<string> := [];
    var scoreSum := 0.0;
    var sceneCount := 0;
    var ctaCount := 0;
    var emotionTypes: seq<string> := [];
    var allFactors: seq<string> := [];
    for k := 0 to |analyses|
      invariant titleTypes == TitleTypes(analyses[..k]) && scoreSum == TitleScoreSum(analyses[..k])
      invariant sceneCount == SceneCount(analyses[..k]) && ctaCount == CtaCount(analyses[..k])
      invariant emotionTypes == EmotionTypes(analyses[..k]) && allFactors == AllFactors(analyses[..k])
    {
      assert analyses[..k + 1][..k] == analyses[..k];
      var a := analyses[k];
      titleTypes := titleTypes + [a.titleFeatures.kind];
      scoreSum := scoreSum + a.titleFeatures.score;
      if a.structure.sceneBased { sceneCount := sceneCount + 1; }
      if a.structure.hasCallToAction { ctaCount := ctaCount + 1; }
      emotionTypes := emotionTypes + [a.emotion.kind];
      allFactors := allFactors + a.successFactors;
    }
    assert analyses[..|analyses|] == analyses;
    var n := |analyses| as real;
    var scene := (sceneCount as real) / n;
    var top := MostCommonFive(allFactors);
    g := Aggregate(|analyses|, MostCommon(titleTypes), titleTypes, scoreSum / n, scene, (ctaCount as real) / n,
                   MostCommon(emotionTypes), emotionTypes, top,
                   GenerateRecommendations(MostCommon(titleTypes), scene, MostCommon(emotionTypes), top));
  }

  /** `get_viral_patterns`: nothing without top posts, else the aggregate of their breakdowns. */
  function ViralPatterns(top: seq<Analytics.Ranked>): (r: Option<Aggregate>)
    ensures r.None? <==> top == []
    ensures r.Some? ==> r.value.totalAnalyzed == |top| && 0.0 <= r.value.sceneBasedRatio <= 1.0 && |r.value.factorFrequency| <= 5
  {
    if top == [] then None
    else
      var analyses := seq(|top|, k requires 0 <= k < |top| => AnalyzeViralContent(top[k].draft, top[k].stats));
      assert ScoresInRange(analyses);
      AggregateBounds(analyses);
      Some(AggregateSpec(analyses))
  }
}
