/**
 * Title scoring, keyword extraction, category guessing and template-based
 * title generation (core/title_optimizer.py). Every `random` call is an
 * explicit roll: `random.random()` is a real, `random.choice(xs)` picks
 * `xs[pick % |xs|]` and `random.randint(3, 10)` is `3 + roll % 8`.
 */
module TitleOptimizer {
  import opened Wrappers
  import opened Strings
  import Sorting

  /** `self.emotional_prefixes`. */
  const EmotionalPrefixes: seq<string> :=
    ["😭", "😍", "🤯", "🔥", "⚡", "✨", "💡", "🚀", "救命", "绝了", "太香了", "被问爆了", "相见恨晚"]

  /** `self.urgency_words`. */
  const UrgencyWords: seq<string> := ["必看", "必备", "赶紧", "马上", "立即", "速看", "建议收藏", "错过后悔", "手慢无"]

  /** The eight emoji the title is checked for. */
  const Emojis: seq<string> := ["😭", "😍", "🤯", "🔥", "⚡", "✨", "💡", "🚀"]

  /** The emoji appended when the title has none. */
  const AppendedEmojis: seq<string> := ["🔥", "⚡", "✨", "🚀"]

  /** The character class the score counts emoji with. */
  predicate IsScoredEmoji(c: char)
  {
    c == '😭' || c == '😍' || c == '🤯' || c == '🔥' || c == '⚡' || c == '✨' || c == '💡' || c == '🚀'
  }

  // ---------------------------------------------------------------- score

  function Min(a: real, b: real): real
  {
    if a <= b then a else b
  }

  /** The length term: 30 for 15..25 characters, 20 for 10..14 or 26..30, 10 below 10, 0 above 30. */
  function LengthPoints(n: nat): (p: real)
    ensures 15 <= n <= 25 ==> p == 30.0
    ensures (10 <= n < 15 || 25 < n <= 30) ==> p == 20.0
    ensures n < 10 ==> p == 10.0
    ensures n > 30 ==> p == 0.0
  {
    if 15 <= n <= 25 then 30.0
    else if 10 <= n < 15 || 25 < n <= 30 then 20.0
    else if n < 10 then 10.0
    else 0.0
  }

  predicate HasDigit(s: string)
  {
    exists i :: 0 <= i < |s| && IsDigit(s[i])
  }

  predicate IsQuestion(s: string)
  {
    Contains(s, "?") || Contains(s, "吗") || Contains(s, "怎么")
  }

  /** `len(re.findall('[😭😍🤯🔥⚡✨💡🚀]', s))`. */
  function EmojiCount(s: string): (n: nat)
    ensures n <= |s|
    decreases |s|
  {
    if s == [] then 0 else EmojiCount(s[..|s| - 1]) + (if IsScoredEmoji(s[|s| - 1]) then 1 else 0)
  }

  /** The sum of the six terms before the cap of 100. */
  function RawScore(title: string): (r: real)
    ensures 0.0 <= r <= 105.0
  {
    LengthPoints(|title|)
    + (if HasDigit(title) then 20.0 else 0.0)
    + Min(10.0 * (CountPresent(title, EmotionalPrefixes) as real), 20.0)
    + Min(5.0 * (CountPresent(title, UrgencyWords) as real), 15.0)
    + (if IsQuestion(title) then 10.0 else 0.0)
    + Min(5.0 * (EmojiCount(title) as real), 10.0)
  }

  /** `_calculate_score`. */
  function CalculateScore(title: string): (r: real)
    ensures 0.0 <= r <= 100.0
    ensures r <= RawScore(title) && (RawScore(title) <= 100.0 ==> r == RawScore(title))
  {
    Min(RawScore(title), 100.0)
  }

  /**
   * The cap of 100 only ever binds on a title that has a digit and a length
   * in the best band of 15..25 characters: without either, the other terms
   * cannot reach 100.
   */
  lemma {:induction false} CapBindsOnlyOnBestTitles(title: string)
    requires CalculateScore(title) < RawScore(title)
    ensures HasDigit(title) && 15 <= |title| <= 25
  {
  }

  /** A title with a digit, an emoji and a question mark scores at least 35 whatever its length or wording. */
  lemma {:induction false} ScoreLowerBound(title: string, i: nat)
    requires i < |title| && IsScoredEmoji(title[i]) && HasDigit(title) && Contains(title, "?")
    ensures CalculateScore(title) >= 35.0
  {
    EmojiCountPositive(title, i);
  }

  lemma {:induction false} EmojiCountPositive(s: string, i: nat)
    requires i < |s| && IsScoredEmoji(s[i])
    ensures EmojiCount(s) >= 1
    decreases |s|
  {
    if i < |s| - 1 {
      EmojiCountPositive(s[..|s| - 1], i);
    }
  }

  // ------------------------------------------------------------- keywords

  /** The common keywords `_extract_keywords` looks for, in order. */
  const CommonKeywords: seq<string> := ["AI工具", "AI", "插件", "浏览器", "效率", "写作", "绘图", "自动化", "神器", "推荐"]

  /** `keyword.lower() in title.lower()`. */
  predicate KeywordIn(title: string, keyword: string)
  {
    Contains(Lower(title), Lower(keyword))
  }

  /** The test `_extract_keywords` applies to each common keyword. */
  function KeywordTest(title: string): string -> bool
  {
    w => KeywordIn(title, w)
  }

  /** The keywords of `kws` that occur in the title, in list order. */
  function KeywordHits(title: string, kws: seq<string>): (r: seq<string>)
    ensures |r| <= |kws|
  {
    Sorting.Filter(kws, KeywordTest(title))
  }

  /** A keyword is a hit exactly when it is listed and occurs in the title. */
  lemma {:induction false} KeywordHitsIff(title: string, kws: seq<string>, w: string)
    ensures w in KeywordHits(title, kws) <==> w in kws && KeywordIn(title, w)
  {
    Sorting.FilterMembers(kws, KeywordTest(title), w);
  }

  /** Hits keep the order of the list: hit `j` comes from a later list position than hit `i < j`. */
  lemma {:induction false} KeywordHitsOrdered(title: string, kws: seq<string>)
    ensures var hits := KeywordHits(title, kws);
      exists pos: seq<nat> :: |pos| == |hits|
        && (forall k :: 0 <= k < |pos| ==> pos[k] < |kws| && kws[pos[k]] == hits[k])
        && (forall i, j :: 0 <= i < j < |pos| ==> pos[i] < pos[j])
  {
    Sorting.FilterOrdered(kws, KeywordTest(title));
    var pos: seq<nat> :| Sorting.Positions(kws, KeywordHits(title, kws), pos);
  }

  /** The CJK range `[一-龥]`. */
  predicate IsCjk(c: char)
  {
    '一' <= c <= '龥'
  }

  function CjkRun(s: string): (n: nat)
    ensures n <= |s| && forall k :: 0 <= k < n ==> IsCjk(s[k])
    ensures n == |s| || !IsCjk(s[n])
    decreases |s|
  {
    if s != [] && IsCjk(s[0]) then 1 + CjkRun(s[1..]) else 0
  }

  /** The first match of `[一-龥]{2,4}`: the first two adjacent CJK characters and up to two more. */
  function FirstCjkWord(s: string): (r: Option<string>)
    ensures r.Some? ==> 2 <= |r.value| <= 4 && Contains(s, r.value) && forall k :: 0 <= k < |r.value| ==> IsCjk(r.value[k])
    ensures r.None? ==> forall i :: 0 <= i < |s| - 1 ==> !(IsCjk(s[i]) && IsCjk(s[i + 1]))
    decreases |s|
  {
    if |s| < 2 then None
    else if IsCjk(s[0]) && IsCjk(s[1]) then
      var n := CjkRun(s);
      var w := s[..if n < 4 then n else 4];
      assert StartsWith(s, w);
      Some(w)
    else
      match FirstCjkWord(s[1..])
      case None =>
        assert forall i :: 1 <= i < |s| - 1 ==> s[i] == s[1..][i - 1] && s[i + 1] == s[1..][i];
        None
      case Some(w) =>
        ContainsSuffix([s[0]], s[1..], w);
        assert [s[0]] + s[1..] == s;
        Some(w)
  }

  /**
   * `w` matches `[一-龥]{2,4}` at position `i` and no match starts earlier:
   * no two adjacent CJK characters come before `i`, and the match runs on as
   * far as the CJK run goes, up to four characters.
   */
  predicate LeftmostCjkMatch(s: string, w: string, i: nat)
  {
    2 <= |w| <= 4 && i + |w| <= |s| && s[i..i + |w|] == w
    && (forall j :: 0 <= j < i ==> !(IsCjk(s[j]) && IsCjk(s[j + 1])))
    && (|w| == 4 || i + |w| == |s| || !IsCjk(s[i + |w|]))
  }

  /** The word is the leftmost match, the one `re.findall(...)[0]` takes. */
  lemma {:induction false} FirstCjkWordLeftmost(s: string)
    ensures FirstCjkWord(s).Some? ==> exists i :: LeftmostCjkMatch(s, FirstCjkWord(s).value, i)
    decreases |s|
  {
    if |s| >= 2 {
      var w := FirstCjkWord(s);
      if IsCjk(s[0]) && IsCjk(s[1]) {
        var n := CjkRun(s);
        var m := if n < 4 then n else 4;
        assert w.value == s[..m];
        assert s[0..m] == s[..m];
        assert LeftmostCjkMatch(s, w.value, 0);
      } else if w.Some? {
        var t := s[1..];
        FirstCjkWordLeftmost(t);
        var v := w.value;
        assert FirstCjkWord(t) == w;
        var i': nat :| LeftmostCjkMatch(t, v, i');
        var i := i' + 1;
        assert s[i..i + |v|] == t[i'..i' + |v|];
        assert forall j :: 1 <= j < i ==> s[j] == t[j - 1] && s[j + 1] == t[j];
        assert i + |v| < |s| ==> s[i + |v|] == t[i' + |v|];
        assert LeftmostCjkMatch(s, v, i);
      }
    }
  }

  /** `_extract_keywords`: the common keywords found, else the first CJK word, at most three. */
  function KeywordsOf(title: string): (r: seq<string>)
    ensures |r| <= 3
    ensures KeywordHits(title, CommonKeywords) != [] ==> r == Sorting.Take(KeywordHits(title, CommonKeywords), 3)
    ensures KeywordHits(title, CommonKeywords) == [] ==>
      (r == [] <==> FirstCjkWord(title).None?) && (r != [] ==> r == [FirstCjkWord(title).value])
  {
    var hits := KeywordHits(title, CommonKeywords);
    var all := if hits != [] then hits else match FirstCjkWord(title) case Some(w) => [w] case None => [];
    Sorting.Take(all, 3)
  }

  /** The keyword loop of `_extract_keywords`. */
  method CollectHits(title: string, kws: seq<string>) returns (found: seq<string>)
    ensures found == KeywordHits(title, kws)
  {
    found := [];
    for k := 0 to |kws|
      invariant found == KeywordHits(title, kws[..k])
    {
      assert kws[..k + 1][..k] == kws[..k];
      if KeywordIn(title, kws[k]) {
        found := found + [kws[k]];
      }
    }
    assert kws[..|kws|] == kws;
  }

  /** `_extract_keywords`, with its loop. */
  method ExtractKeywords(title: string) returns (keywords: seq<string>)
    ensures keywords == KeywordsOf(title)
  {
    var found := CollectHits(title, CommonKeywords);
    if found == [] {
      var w := FirstCjkWord(title);
      if w.Some? {
        found := [w.value];
      }
    }
    keywords := Sorting.Take(found, 3);
  }

  // ------------------------------------------------------------- category

  const ToolWords: seq<string> := ["工具", "插件", "软件", "APP"]
  const TutorialWords: seq<string> := ["教程", "方法", "技巧", "怎么"]
  const PitfallWords: seq<string> := ["避坑", "注意", "不要", "错误"]
  const CollectionWords: seq<string> := ["款", "个", "种", "系列"]

  /** `_guess_category`: first match of tool, tutorial, pitfall, collection; tool by default. */
  function GuessCategory(text: string): (r: string)
    ensures r in ["工具推荐", "使用教程", "避坑指南", "合集推荐"]
    ensures r == "使用教程" <==> !ContainsAny(text, ToolWords) && ContainsAny(text, TutorialWords)
    ensures r == "避坑指南" <==>
      !ContainsAny(text, ToolWords) && !ContainsAny(text, TutorialWords) && ContainsAny(text, PitfallWords)
    ensures r == "合集推荐" <==>
      !ContainsAny(text, ToolWords) && !ContainsAny(text, TutorialWords) && !ContainsAny(text, PitfallWords)
      && ContainsAny(text, CollectionWords)
    ensures r == "工具推荐" <==>
      ContainsAny(text, ToolWords)
      || (!ContainsAny(text, TutorialWords) && !ContainsAny(text, PitfallWords) && !ContainsAny(text, CollectionWords))
  {
    if ContainsAny(text, ToolWords) then "工具推荐"
    else if ContainsAny(text, TutorialWords) then "使用教程"
    else if ContainsAny(text, PitfallWords) then "避坑指南"
    else if ContainsAny(text, CollectionWords) then "合集推荐"
    else "工具推荐"
  }

  // ------------------------------------------------------------ templates

  /** A title template: literal text with `{关键词}` and `{数字}` holes. */
  datatype Piece = Lit(text: string) | Keyword | Number

  type Template = seq<Piece>

  function Fill(t: Template, keyword: string, number: nat): string
    decreases |t|
  {
    if t == [] then ""
    else
      Fill(t[..|t| - 1], keyword, number)
      + match t[|t| - 1]
        case Lit(s) => s
        case Keyword => keyword
        case Number => NatToString(number)
  }

  /** A template with a keyword hole mentions the keyword once filled. */
  lemma {:induction false} FillMentionsKeyword(t: Template, keyword: string, number: nat, k: nat)
    requires k < |t| && t[k] == Keyword
    ensures Contains(Fill(t, keyword, number), keyword)
    decreases |t|
  {
    var prefix := t[..|t| - 1];
    if k == |t| - 1 {
      ContainsSuffix(Fill(prefix, keyword, number), keyword, keyword);
    } else {
      FillMentionsKeyword(prefix, keyword, number, k);
      ContainsPrefix(Fill(prefix, keyword, number), Fill(t, keyword, number)[|Fill(prefix, keyword, number)|..], keyword);
    }
  }

  /** `self.templates`, in the dict's order: 数字型, 疑问型, 对比型, 痛点型, 干货型, 情感型. */
  const Templates: seq<seq<Template>> := [
    [ [Lit("5个"), Keyword, Lit("神器，打工人必看！")],
      [Lit("3款"), Keyword, Lit("工具，效率翻倍！")],
      [Lit("这"), Number, Lit("个"), Keyword, Lit("，相见恨晚！")],
      [Number, Lit("种"), Keyword, Lit("方法，第"), Number, Lit("个绝了！")],
      [Lit("亲测！这"), Number, Lit("款"), Keyword, Lit("太好用了！")] ],
    [ [Lit("为什么你的"), Keyword, Lit("总是不够快？")],
      [Lit("还在用传统"), Keyword, Lit("？试试这个！")],
      [Lit("你知道"), Keyword, Lit("的正确打开方式吗？")],
      [Keyword, Lit("真的有用吗？亲测告诉你！")],
      [Lit("怎么用"), Keyword, Lit("提高效率？看这篇就够了！")] ],
    [ [Lit("用了"), Keyword, Lit("后，再也回不去了！")],
      [Lit("没用"), Keyword, Lit("前 vs 用了之后")],
      [Lit("后悔没有早点用这个"), Keyword, Lit("！")],
      [Lit("这个"), Keyword, Lit("吊打其他工具！")],
      [Lit("同样是"), Keyword, Lit("，为什么我比你快？")] ],
    [ [Lit("加班到深夜？试试这个"), Keyword, Lit("！")],
      [Lit("效率低？这个"), Keyword, Lit("能救命！")],
      [Lit("任务太多？"), Keyword, Lit("帮你轻松搞定！")],
      [Lit("时间不够用？"), Keyword, Lit("让你效率起飞！")],
      [Lit("懒人必备！"), Keyword, Lit("让你躺赢！")] ],
    [ [Lit("保姆级教程！"), Keyword, Lit("从入门到精通")],
      [Lit("建议收藏！"), Keyword, Lit("使用全攻略")],
      [Lit("手把手教你用"), Keyword, Lit("提升效率")],
      [Keyword, Lit("避坑指南，新手必看！")],
      [Lit("吐血整理！"), Keyword, Lit("最全使用技巧")] ],
    [ [Lit("相见恨晚！这个"), Keyword, Lit("太香了！")],
      [Lit("被问爆了！都在用这个"), Keyword],
      [Lit("绝了！这个"), Keyword, Lit("改变了我")],
      [Lit("按头安利！这个"), Keyword, Lit("一定要试")],
      [Lit("真香！"), Keyword, Lit("让我效率起飞")] ]
  ]

  /** The position of the first keyword hole. */
  function KeywordSlot(t: Template): (r: Option<nat>)
    ensures r.Some? ==> r.value < |t| && t[r.value] == Keyword
    decreases |t|
  {
    if t == [] then None
    else if t[0] == Keyword then Some(0)
    else match KeywordSlot(t[1..]) case None => None case Some(k) => Some(k + 1)
  }

  /** A keyword hole among the first four pieces, where every template has one. */
  predicate KeywordNearFront(t: Template)
  {
    (|t| > 0 && t[0] == Keyword) || (|t| > 1 && t[1] == Keyword) || (|t| > 2 && t[2] == Keyword)
    || (|t| > 3 && t[3] == Keyword)
  }

  /** Every template has a keyword hole. */
  lemma {:induction false} TemplatesHaveKeyword(ty: nat, j: nat)
    requires ty < |Templates| && j < |Templates[ty]|
    ensures KeywordSlot(Templates[ty][j]).Some?
  {
    var group := Templates[ty];
    assert |group| == 5;
    if ty == 0 { assert forall i :: 0 <= i < 5 ==> KeywordNearFront(Templates[0][i]); }
    else if ty == 1 { assert forall i :: 0 <= i < 5 ==> KeywordNearFront(Templates[1][i]); }
    else if ty == 2 { assert forall i :: 0 <= i < 5 ==> KeywordNearFront(Templates[2][i]); }
    else if ty == 3 { assert forall i :: 0 <= i < 5 ==> KeywordNearFront(Templates[3][i]); }
    else if ty == 4 { assert forall i :: 0 <= i < 5 ==> KeywordNearFront(Templates[4][i]); }
    else { assert forall i :: 0 <= i < 5 ==> KeywordNearFront(Templates[5][i]); }
    var t := group[j];
    assert KeywordNearFront(t);
    var k := if t[0] == Keyword then 0 else if t[1] == Keyword then 1 else if t[2] == Keyword then 2 else 3;
    SlotFound(t, k);
  }

  lemma {:induction false} SlotFound(t: Template, k: nat)
    requires k < |t| && t[k] == Keyword
    ensures KeywordSlot(t).Some?
    decreases k
  {
    if k > 0 && t[0] != Keyword {
      SlotFound(t[1..], k - 1);
    }
  }

  // ------------------------------------------------------ emotion/urgency

  /** The rolls `_add_emotion_and_urgency` consumes. */
  datatype EmotionRolls = EmotionRolls(prefixRoll: real, prefixPick: nat, urgencyRoll: real, urgencyPick: nat, emojiPick: nat)

  function WithPrefix(title: string, e: EmotionRolls): string
  {
    if e.prefixRoll < 0.3 then EmotionalPrefixes[e.prefixPick % |EmotionalPrefixes|] + " " + title else title
  }

  function WithUrgency(title: string, e: EmotionRolls): string
  {
    if e.urgencyRoll < 0.2 then
      var u := UrgencyWords[e.urgencyPick % |UrgencyWords|];
      if EndsWith(title, u) then title else title + u + "！"
    else title
  }

  function WithEmoji(title: string, e: EmotionRolls): string
  {
    if ContainsAny(title, Emojis) then title else title + AppendedEmojis[e.emojiPick % |AppendedEmojis|]
  }

  /** `_add_emotion_and_urgency`: the title is kept whole and ends up with one of the eight emoji. */
  function AddEmotionAndUrgency(title: string, e: EmotionRolls): (r: string)
    ensures Contains(r, title)
    ensures ContainsAny(r, Emojis)
  {
    var t1 := WithPrefix(title, e);
    var t2 := WithUrgency(t1, e);
    var t3 := WithEmoji(t2, e);
    assert Contains(t1, title) by {
      if e.prefixRoll < 0.3 {
        ContainsSuffix(EmotionalPrefixes[e.prefixPick % |EmotionalPrefixes|] + " ", title, title);
      } else {
        ContainsHead(title, title);
      }
    }
    assert Contains(t2, t1) by {
      if t2 != t1 {
        ContainsHead(t1, t1);
        ContainsPrefix(t1, t2[|t1|..], t1);
        assert t2 == t1 + t2[|t1|..];
      } else {
        ContainsHead(t1, t1);
      }
    }
    ContainsTransitive(t2, t1, title);
    EmojiAppended(t2, e);
    assert Contains(t3, t2) by {
      if t3 != t2 {
        ContainsHead(t2, t2);
        ContainsPrefix(t2, t3[|t2|..], t2);
        assert t3 == t2 + t3[|t2|..];
      } else {
        ContainsHead(t2, t2);
      }
    }
    ContainsTransitive(t3, t2, title);
    t3
  }

  lemma {:induction false} EmojiAppended(t: string, e: EmotionRolls)
    ensures ContainsAny(WithEmoji(t, e), Emojis)
  {
    if !ContainsAny(t, Emojis) {
      var m := AppendedEmojis[e.emojiPick % |AppendedEmojis|];
      ContainsSuffix(t, m, m);
      ContainsHead(m, m);
      var k := if m == "🔥" then 3 else if m == "⚡" then 4 else if m == "✨" then 5 else 7;
      assert Emojis[k] == m;
    }
  }

  /** Containment is transitive. */
  lemma {:induction false} ContainsTransitive(a: string, b: string, c: string)
    requires Contains(a, b) && Contains(b, c)
    ensures Contains(a, c)
    decreases |a|
  {
    if StartsWith(a, b) {
      ContainsPrefix(b, a[|b|..], c);
      assert a == b + a[|b|..];
    } else {
      ContainsTransitive(a[1..], b, c);
    }
  }

  // ------------------------------------------------------ generated titles

  /** The rolls one generated title consumes. */
  datatype TitleRolls = TitleRolls(typePick: nat, templatePick: nat, numberRoll: nat, emotion: EmotionRolls)

  /** The template types `_generate_optimized_title` chooses among for a category. */
  function TypesFor(category: string): (r: seq<nat>)
    ensures |r| > 0 && forall k :: 0 <= k < |r| ==> r[k] < |Templates|
  {
    if category == "工具推荐" then [0, 5, 2]
    else if category == "使用教程" then [4, 1]
    else if category == "避坑指南" then [3, 4]
    else [0, 1, 2, 3, 4, 5]
  }

  /** One template of type `ty`, filled and decorated. */
  function TitleFromType(ty: nat, keyword: string, r: TitleRolls): (t: string)
    requires ty < |Templates|
    ensures Contains(t, keyword) && ContainsAny(t, Emojis)
  {
    var tmpl := Templates[ty][r.templatePick % |Templates[ty]|];
    TemplatesHaveKeyword(ty, r.templatePick % |Templates[ty]|);
    var filled := Fill(tmpl, keyword, 3 + r.numberRoll % 8);
    FillMentionsKeyword(tmpl, keyword, 3 + r.numberRoll % 8, KeywordSlot(tmpl).value);
    var t := AddEmotionAndUrgency(filled, r.emotion);
    ContainsTransitive(t, filled, keyword);
    t
  }

  /** `_generate_optimized_title`: it mentions the first keyword, or is built on "AI工具推荐" without one. */
  function GenerateOptimizedTitle(keywords: seq<string>, category: string, r: TitleRolls): (t: string)
    ensures keywords != [] ==> Contains(t, keywords[0])
    ensures keywords == [] ==> Contains(t, "AI工具推荐")
    ensures ContainsAny(t, Emojis)
  {
    if keywords == [] then AddEmotionAndUrgency("AI工具推荐", r.emotion)
    else
      var types := TypesFor(category);
      TitleFromType(types[r.typePick % |types|], keywords[0], r)
  }

  /** The keyword the alternatives are built on. */
  function AlternativeKeyword(keywords: seq<string>): string
  {
    if keywords == [] then "AI工具" else keywords[0]
  }

  /** One title from each of the first `n` template types, in type order. */
  function TitlesUpTo(keyword: string, rolls: nat -> TitleRolls, n: nat): (r: seq<string>)
    requires n <= |Templates|
    ensures |r| == n
    ensures forall k :: 0 <= k < n ==> Contains(r[k], keyword) && ContainsAny(r[k], Emojis)
    decreases n
  {
    if n == 0 then [] else TitlesUpTo(keyword, rolls, n - 1) + [TitleFromType(n - 1, keyword, rolls(n - 1))]
  }

  /** `_generate_alternatives`: one title from each of the first four template types. */
  function AlternativesOf(keywords: seq<string>, rolls: nat -> TitleRolls): (r: seq<string>)
    ensures |r| == 4
    ensures forall k :: 0 <= k < 4 ==> Contains(r[k], AlternativeKeyword(keywords)) && ContainsAny(r[k], Emojis)
  {
    TitlesUpTo(AlternativeKeyword(keywords), rolls, 4)
  }

  /** `_generate_alternatives`, with its loop. */
  method GenerateAlternatives(keywords: seq<string>, rolls: nat -> TitleRolls) returns (alternatives: seq<string>)
    ensures alternatives == AlternativesOf(keywords, rolls)
  {
    var kw := if keywords == [] then "AI工具" else keywords[0];
    alternatives := [];
    for ty := 0 to 4
      invariant alternatives == TitlesUpTo(kw, rolls, ty)
    {
      alternatives := alternatives + [TitleFromType(ty, kw, rolls(ty))];
    }
  }

  /** The result of `optimize_title`. */
  datatype Optimized = Optimized(original: string, optimized: string, alternatives: seq<string>, score: real, category: string)

  /** `optimize_title`: the category comes from the summary, or from the title when the summary is empty. */
  function OptimizeTitle(original: string, summary: string, first: TitleRolls, rolls: nat -> TitleRolls): (r: Optimized)
    ensures r.original == original && |r.alternatives| == 4
    ensures r.category == GuessCategory(if summary != "" then summary else original)
    ensures r.score == CalculateScore(r.optimized) && 0.0 <= r.score <= 100.0
    ensures KeywordsOf(original) != [] ==> Contains(r.optimized, KeywordsOf(original)[0])
  {
    var keywords := KeywordsOf(original);
    var category := GuessCategory(if summary != "" then summary else original);
    var optimized := GenerateOptimizedTitle(keywords, category, first);
    Optimized(original, optimized, AlternativesOf(keywords, rolls), CalculateScore(optimized), category)
  }

  datatype Scored = Scored(title: string, score: real)

  function ScoreOf(s: Scored): real
  {
    s.score
  }

  function ScoredAll(titles: seq<string>): (r: seq<Scored>)
    ensures |r| == |titles| && forall k :: 0 <= k < |r| ==> r[k] == Scored(titles[k], CalculateScore(titles[k]))
  {
    seq(|titles|, k requires 0 <= k < |titles| => Scored(titles[k], CalculateScore(titles[k])))
  }

  /**
   * `generate_ab_test_titles`: the optimized title and `alternatives[:count-1]`,
   * each with its score, sorted by score from best to worst.
   */
  function GenerateAbTestTitles(original: string, count: int, first: TitleRolls, rolls: nat -> TitleRolls): (r: seq<Scored>)
    ensures Sorting.SortedDesc(r, ScoreOf)
    ensures var o := OptimizeTitle(original, "", first, rolls);
      multiset(r) == multiset([Scored(o.optimized, o.score)] + ScoredAll(Sorting.SliceTo(o.alternatives, count - 1)))
    ensures 1 <= count <= 5 ==> |r| == count
    ensures count > 5 ==> |r| == 5
    ensures count <= 0 ==> |r| == (if count >= -2 then 4 + count else 1)
  {
    RankTitles(OptimizeTitle(original, "", first, rolls), count)
  }

  /** The optimized title and `alternatives[:count-1]`, scored and sorted from best to worst. */
  function RankTitles(o: Optimized, count: int): (r: seq<Scored>)
    requires |o.alternatives| == 4
    ensures Sorting.SortedDesc(r, ScoreOf)
    ensures multiset(r) == multiset([Scored(o.optimized, o.score)] + ScoredAll(Sorting.SliceTo(o.alternatives, count - 1)))
    ensures 1 <= count <= 5 ==> |r| == count
    ensures count > 5 ==> |r| == 5
    ensures count <= 0 ==> |r| == (if count >= -2 then 4 + count else 1)
  {
    Sorting.SortDesc([Scored(o.optimized, o.score)] + ScoredAll(Sorting.SliceTo(o.alternatives, count - 1)), ScoreOf)
  }
}
