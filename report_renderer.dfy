/**
 * The fence-aware pre-pass of the deep-research report renderer
 * (core/report_renderer.py): it lifts the first level-1 heading out as the
 * title, gives level 2-4 headings stable anchors, and collects the table of
 * contents. Markdown-to-HTML conversion, decoration and HTML escaping are
 * passed in as functions.
 */
module ReportRenderer {
  import opened Wrappers
  import opened Strings

  datatype TocItem = TocItem(level: nat, text: string, anchor: string)

  /** A line matched by `^(#{1,6})\s+(.+?)\s*$`. */
  datatype Heading = Heading(level: nat, hashes: string, text: string)

  /** The number of leading '#' characters. */
  function LeadingHashes(line: string): (n: nat)
    ensures n <= |line| && (n == |line| || line[n] != '#')
    ensures forall k :: 0 <= k < n ==> line[k] == '#'
    decreases |line|
  {
    if line != [] && line[0] == '#' then 1 + LeadingHashes(line[1..]) else 0
  }

  /**
   * The heading a line is, if any: one to six '#', then whitespace and at
   * least one more character; the text is the rest, stripped.
   */
  function HeadingOf(line: string): (r: Option<Heading>)
    ensures r.Some? ==> 1 <= r.value.level <= 6 && r.value.level < |line| && r.value.hashes == line[..r.value.level]
    ensures r.Some? ==> StartsWith(line, r.value.hashes) && IsSpace(line[r.value.level]) && r.value.text == Strip(line[r.value.level..])
    ensures r.Some? <==> 1 <= LeadingHashes(line) <= 6 && |line| - LeadingHashes(line) >= 2 && IsSpace(line[LeadingHashes(line)])
    ensures r.Some? ==> r.value.level == LeadingHashes(line)
  {
    var h := LeadingHashes(line);
    if 1 <= h <= 6 && |line| - h >= 2 && IsSpace(line[h]) then Some(Heading(h, line[..h], Strip(line[h..])))
    else None
  }

  predicate IsAnchorChar(c: char)
  {
    c == '-' || c == '_' || IsAsciiLetter(c) || IsDigit(c)
  }

  /** The longest run of anchor characters at the end of `s`. */
  function TrailingAnchorRun(s: string): (r: string)
    ensures |r| <= |s|
    ensures forall k :: 0 <= k < |r| ==> IsAnchorChar(r[k])
    ensures |r| < |s| ==> !IsAnchorChar(s[|s| - |r| - 1])
    decreases |s|
  {
    if s != [] && IsAnchorChar(s[|s| - 1]) then TrailingAnchorRun(s[..|s| - 1]) + [s[|s| - 1]] else []
  }

  /** The trailing run is a suffix of the text. */
  lemma {:induction false} TrailingAnchorRunSuffix(s: string)
    ensures s == s[..|s| - |TrailingAnchorRun(s)|] + TrailingAnchorRun(s)
    decreases |s|
  {
    if s != [] && IsAnchorChar(s[|s| - 1]) {
      var init := s[..|s| - 1];
      var c := s[|s| - 1];
      TrailingAnchorRunSuffix(init);
      var t := TrailingAnchorRun(init);
      var p := init[..|init| - |t|];
      assert init == p + t;
      assert TrailingAnchorRun(s) == t + [c];
      assert s == p + (t + [c]);
      assert s[..|p|] == p;
    }
  }

  /**
   * The id of an explicit `{#id}` at the end of the line (trailing whitespace
   * allowed), when a whitespace character precedes the brace.
   */
  function ExplicitAnchor(line: string): (r: Option<string>)
    ensures r.Some? ==> r.value != [] && EndsWith(StripRight(line), "{#" + r.value + "}")
    ensures r.Some? ==> forall k :: 0 <= k < |r.value| ==> IsAnchorChar(r.value[k])
  {
    var t := StripRight(line);
    if t == [] || t[|t| - 1] != '}' then None
    else
      var inner := t[..|t| - 1];
      var id := TrailingAnchorRun(inner);
      var before := inner[..|inner| - |id|];
      TrailingAnchorRunSuffix(inner);
      if id != [] && |before| >= 3 && before[|before| - 2..] == "{#" && IsSpace(before[|before| - 3])
      then
        var pre, tail := before[..|before| - 2], "{#" + id + "}";
        assert before == pre + "{#";
        assert t == pre + tail;
        assert t[|t| - |tail|..] == tail;
        Some(id)
      else None
  }

  /** The trailing anchor run stops at the `#` of `{#`. */
  lemma {:induction false} TrailingAnchorRunAfterHash(pre: string, id: string)
    requires forall k :: 0 <= k < |id| ==> IsAnchorChar(id[k])
    ensures TrailingAnchorRun(pre + "{#" + id) == id
    decreases |id|
  {
    if id == [] {
      assert pre + "{#" + id == pre + "{#";
    } else {
      var init := id[..|id| - 1];
      TrailingAnchorRunAfterHash(pre, init);
      assert (pre + "{#" + id)[..|pre + "{#" + id| - 1] == pre + "{#" + init;
      assert id == init + [id[|id| - 1]];
    }
  }

  /** Only whitespace trailing after the text is stripped off. */
  lemma {:induction false} StripRightSpaces(s: string, trail: string)
    requires s != [] && !IsSpace(s[|s| - 1])
    requires forall k :: 0 <= k < |trail| ==> IsSpace(trail[k])
    ensures StripRight(s + trail) == s
    decreases |trail|
  {
    if trail == [] {
      assert s + trail == s;
    } else {
      var init := trail[..|trail| - 1];
      StripRightSpaces(s, init);
      assert s + trail == (s + init) + [trail[|trail| - 1]];
      StripRightAppendSpace(s + init, trail[|trail| - 1]);
    }
  }

  /**
   * A line ending in whitespace, `{#`, a non-empty run of anchor characters
   * and `}`, with only whitespace after it, carries exactly that run as its
   * explicit anchor.
   */
  lemma {:induction false} ExplicitAnchorFound(pre: string, ws: char, id: string, trail: string)
    requires IsSpace(ws) && id != [] && forall k :: 0 <= k < |id| ==> IsAnchorChar(id[k])
    requires forall k :: 0 <= k < |trail| ==> IsSpace(trail[k])
    ensures ExplicitAnchor(pre + [ws] + "{#" + id + "}" + trail) == Some(id)
  {
    var s := pre + [ws] + "{#" + id + "}";
    StripRightSpaces(s, trail);
    assert StripRight(s + trail) == s;
    var inner := pre + [ws] + "{#" + id;
    assert s[..|s| - 1] == inner;
    TrailingAnchorRunAfterHash(pre + [ws], id);
    var before := inner[..|inner| - |id|];
    assert before == pre + [ws] + "{#";
    assert before[|before| - 2..] == "{#";
  }

  /** The anchor given to the `n`-th heading that had none. */
  function SecAnchor(n: nat): string
  {
    "sec-" + NatToString(n)
  }

  predicate IsFence(line: string)
  {
    StartsWith(Strip(line), "```")
  }

  /**
   * The state of the pre-pass between lines; `generated[j]` records whether
   * `toc[j]` received a generated anchor.
   */
  datatype Pass = Pass(inFence: bool, title: Option<string>, out: seq<string>, toc: seq<TocItem>,
                       generated: seq<bool>, sec: nat)

  const Start: Pass := Pass(false, None, [], [], [], 0)

  /** A heading line outside any fence. */
  function HeadingStep(st: Pass, line: string, h: Heading): Pass
  {
    if h.level == 1 && st.title.None? then st.(title := Some(h.text))
    else if 2 <= h.level <= 4 then
      match ExplicitAnchor(line)
      case Some(a) =>
        st.(toc := st.toc + [TocItem(h.level, h.text, a)], generated := st.generated + [false], out := st.out + [line])
      case None =>
        var anchor := SecAnchor(st.sec + 1);
        st.(sec := st.sec + 1, toc := st.toc + [TocItem(h.level, h.text, anchor)], generated := st.generated + [true],
            out := st.out + [h.hashes + " " + h.text + " {#" + anchor + "}"])
    else st.(out := st.out + [line])
  }

  function OutsideStep(st: Pass, line: string): Pass
  {
    match HeadingOf(line)
      case None => st.(out := st.out + [line])
      case Some(h) => HeadingStep(st, line, h)
  }

  function LineStep(st: Pass, line: string): Pass
  {
    if IsFence(line) then st.(inFence := !st.inFence, out := st.out + [line])
    else if st.inFence then st.(out := st.out + [line])
    else OutsideStep(st, line)
  }

  lemma {:induction false} HeadingKeepsFence(st: Pass, line: string, h: Heading)
    ensures HeadingStep(st, line, h).inFence == st.inFence
  {
    if !(h.level == 1 && st.title.None?) && 2 <= h.level <= 4 {
      match ExplicitAnchor(line)
      case Some(a) =>
      case None =>
    }
  }

  lemma {:induction false} OutsideKeepsFence(st: Pass, line: string)
    ensures OutsideStep(st, line).inFence == st.inFence
  {
    match HeadingOf(line)
    case None =>
    case Some(h) => HeadingKeepsFence(st, line, h);
  }

  /** One step flips the fence state exactly on a fence line. */
  lemma {:induction false} StepFence(st: Pass, line: string)
    ensures LineStep(st, line).inFence == (st.inFence != IsFence(line))
  {
    if !IsFence(line) && !st.inFence {
      assert LineStep(st, line) == OutsideStep(st, line);
      OutsideKeepsFence(st, line);
    }
  }

  lemma {:induction false} CountTrueAppend(bs: seq<bool>, b: bool)
    ensures CountTrue(bs + [b]) == CountTrue(bs) + (if b then 1 else 0)
  {
    assert (bs + [b])[..|bs|] == bs;
  }

  /** The TOC bookkeeping invariant of the pass. */
  predicate TocCounted(st: Pass)
  {
    |st.generated| == |st.toc| && st.sec == CountTrue(st.generated)
  }

  /** `st'` is `st` with one more TOC entry, a level 2-4 heading, numbered next when generated. */
  predicate TocGrew(st: Pass, st': Pass)
  {
    |st'.toc| == |st.toc| + 1 && |st'.generated| == |st.generated| + 1
    && st'.toc[..|st.toc|] == st.toc && st'.generated[..|st.generated|] == st.generated
    && 2 <= st'.toc[|st.toc|].level <= 4
    && (st'.generated[|st.generated|] ==> st'.toc[|st.toc|].anchor == SecAnchor(st.sec + 1))
  }

  lemma {:induction false} HeadingStepToc(st: Pass, line: string, h: Heading)
    requires TocCounted(st)
    ensures var st' := HeadingStep(st, line, h);
      TocCounted(st') && ((st'.toc == st.toc && st'.generated == st.generated) || TocGrew(st, st'))
  {
    var st' := HeadingStep(st, line, h);
    if 2 <= h.level <= 4 && !(h.level == 1 && st.title.None?) {
      var g := ExplicitAnchor(line).None?;
      assert st'.generated == st.generated + [g];
      CountTrueAppend(st.generated, g);
      assert st'.generated[..|st.generated|] == st.generated;
      assert st'.toc[..|st.toc|] == st.toc;
    }
  }

  /** One step adds at most one TOC entry and keeps the counter equal to the generated entries. */
  lemma {:induction false} StepToc(st: Pass, line: string)
    requires TocCounted(st)
    ensures var st' := LineStep(st, line);
      TocCounted(st') && ((st'.toc == st.toc && st'.generated == st.generated) || TocGrew(st, st'))
  {
    if !IsFence(line) && !st.inFence && HeadingOf(line).Some? {
      var h := HeadingOf(line).value;
      assert LineStep(st, line) == HeadingStep(st, line, h);
      HeadingStepToc(st, line, h);
    }
  }

  /** The state after a pass with the given step has read `lines`. */
  function Fold(lines: seq<string>, step: (Pass, string) -> Pass): Pass
    decreases |lines|
  {
    if lines == [] then Start else step(Fold(lines[..|lines| - 1], step), lines[|lines| - 1])
  }

  /** The state after the pass has read `lines`. */
  function PassOver(lines: seq<string>): Pass
  {
    Fold(lines, LineStep)
  }

  function CountTrue(bs: seq<bool>): (n: nat)
    ensures n <= |bs|
    decreases |bs|
  {
    if bs == [] then 0 else CountTrue(bs[..|bs| - 1]) + (if bs[|bs| - 1] then 1 else 0)
  }

  function FenceCount(lines: seq<string>): nat
    decreases |lines|
  {
    if lines == [] then 0 else FenceCount(lines[..|lines| - 1]) + (if IsFence(lines[|lines| - 1]) then 1 else 0)
  }

  /** Any pass whose step toggles the flag exactly on fence lines tracks the parity of the fences. */
  lemma {:induction false} FoldParity(lines: seq<string>, step: (Pass, string) -> Pass)
    requires forall st, line :: step(st, line).inFence == (st.inFence != IsFence(line))
    ensures Fold(lines, step).inFence <==> FenceCount(lines) % 2 == 1
    decreases |lines|
  {
    if lines != [] {
      var prefix, last := lines[..|lines| - 1], lines[|lines| - 1];
      FoldParity(prefix, step);
      ParityStep(FenceCount(prefix), Fold(prefix, step).inFence, Fold(lines, step).inFence, IsFence(last));
    }
  }

  /** A line is inside a fence exactly when an odd number of fence lines precede it. */
  lemma {:induction false} FenceParity(lines: seq<string>)
    ensures PassOver(lines).inFence <==> FenceCount(lines) % 2 == 1
  {
    forall st, line ensures LineStep(st, line).inFence == (st.inFence != IsFence(line)) {
      StepFence(st, line);
    }
    FoldParity(lines, LineStep);
  }

  lemma {:induction false} ParityStep(a: nat, b: bool, c: bool, d: bool)
    requires b <==> a % 2 == 1
    requires c == (b != d)
    ensures c <==> (a + (if d then 1 else 0)) % 2 == 1
  {
  }

  /** Any pass whose step grows the TOC as `StepToc` says keeps the TOC counted and numbered. */
  lemma {:induction false} FoldToc(lines: seq<string>, step: (Pass, string) -> Pass)
    requires forall st, line :: TocCounted(st) ==>
      TocCounted(step(st, line))
      && ((step(st, line).toc == st.toc && step(st, line).generated == st.generated) || TocGrew(st, step(st, line)))
    ensures TocCounted(Fold(lines, step)) && AnchorsNumbered(Fold(lines, step))
    decreases |lines|
  {
    if lines != [] {
      var prefix := lines[..|lines| - 1];
      FoldToc(prefix, step);
      GrowNumbered(Fold(prefix, step), Fold(lines, step));
    }
  }

  /**
   * Generated anchors are sec-1, sec-2, ... in document order: the j-th TOC
   * entry, when generated, is numbered one past the generated entries before
   * it, and the counter equals the number generated. Every entry is a level
   * 2-4 heading, and explicit anchors leave the counter alone.
   */
  lemma {:induction false} SecAnchorsConsecutive(lines: seq<string>)
    ensures TocCounted(PassOver(lines)) && AnchorsNumbered(PassOver(lines))
  {
    forall st, line | TocCounted(st)
      ensures TocCounted(LineStep(st, line))
        && ((LineStep(st, line).toc == st.toc && LineStep(st, line).generated == st.generated) || TocGrew(st, LineStep(st, line)))
    {
      StepToc(st, line);
    }
    FoldToc(lines, LineStep);
  }

  /** Every TOC entry is a level 2-4 heading, and the generated ones are numbered in order. */
  predicate AnchorsNumbered(st: Pass)
    requires |st.generated| == |st.toc|
  {
    (forall j :: 0 <= j < |st.toc| ==> 2 <= st.toc[j].level <= 4)
    && (forall j :: 0 <= j < |st.toc| && st.generated[j] ==> st.toc[j].anchor == SecAnchor(CountTrue(st.generated[..j]) + 1))
  }

  /** An old entry keeps its level, its anchor and the entries before it. */
  lemma {:induction false} GrowOld(prev: Pass, st: Pass, j: nat)
    requires TocCounted(prev) && AnchorsNumbered(prev) && TocGrew(prev, st) && j < |prev.toc|
    ensures 2 <= st.toc[j].level <= 4
    ensures st.generated[j] ==> st.toc[j].anchor == SecAnchor(CountTrue(st.generated[..j]) + 1)
  {
    var n := |prev.toc|;
    assert st.toc[j] == st.toc[..n][j];
    assert st.generated[j] == st.generated[..n][j];
    assert st.generated[..j] == st.generated[..n][..j];
  }

  /** The new entry is numbered one past the generated entries before it. */
  lemma {:induction false} GrowNew(prev: Pass, st: Pass)
    requires TocCounted(prev) && TocGrew(prev, st)
    ensures 2 <= st.toc[|prev.toc|].level <= 4
    ensures st.generated[|prev.toc|] ==> st.toc[|prev.toc|].anchor == SecAnchor(CountTrue(st.generated[..|prev.toc|]) + 1)
  {
    assert st.generated[..|prev.toc|] == prev.generated;
  }

  lemma {:induction false} GrowNumbered(prev: Pass, st: Pass)
    requires TocCounted(prev) && AnchorsNumbered(prev) && TocCounted(st)
    requires (st.toc == prev.toc && st.generated == prev.generated) || TocGrew(prev, st)
    ensures AnchorsNumbered(st)
  {
    if TocGrew(prev, st) {
      forall j | 0 <= j < |st.toc|
        ensures 2 <= st.toc[j].level <= 4
        ensures st.generated[j] ==> st.toc[j].anchor == SecAnchor(CountTrue(st.generated[..j]) + 1)
      {
        GrowAt(prev, st, j);
      }
    }
  }

  /** Entry `j` of a grown TOC is numbered as before, or is the new entry. */
  lemma {:induction false} GrowAt(prev: Pass, st: Pass, j: nat)
    requires TocCounted(prev) && AnchorsNumbered(prev) && TocGrew(prev, st) && j < |st.toc|
    ensures 2 <= st.toc[j].level <= 4
    ensures st.generated[j] ==> st.toc[j].anchor == SecAnchor(CountTrue(st.generated[..j]) + 1)
  {
    if j < |prev.toc| {
      GrowOld(prev, st, j);
    } else {
      GrowNew(prev, st);
    }
  }

  /** A line that belongs in the TOC, given the lines before it: a level 2-4 heading outside every fence. */
  predicate IsTocLine(before: seq<string>, line: string)
  {
    FenceCount(before) % 2 == 0 && !IsFence(line) && HeadingOf(line).Some? && 2 <= HeadingOf(line).value.level <= 4
  }

  /** The lines the TOC lists: the level 2-4 headings outside fences, in document order. */
  function TocLines(lines: seq<string>): (r: seq<string>)
    ensures |r| <= |lines|
    decreases |lines|
  {
    if lines == [] then []
    else
      var n := |lines| - 1;
      TocLines(lines[..n]) + (if IsTocLine(lines[..n], lines[n]) then [lines[n]] else [])
  }

  /**
   * A TOC entry describes its heading line: same level and text, and the
   * line's own `{#id}` as anchor when it has one, a generated anchor otherwise.
   */
  predicate EntryFor(item: TocItem, generated: bool, line: string)
  {
    HeadingOf(line).Some? && item.level == HeadingOf(line).value.level && item.text == HeadingOf(line).value.text
    && (generated <==> ExplicitAnchor(line).None?)
    && (!generated ==> ExplicitAnchor(line) == Some(item.anchor))
  }

  predicate TocMatches(toc: seq<TocItem>, generated: seq<bool>, src: seq<string>)
  {
    |toc| == |src| && |generated| == |src| && forall j :: 0 <= j < |src| ==> EntryFor(toc[j], generated[j], src[j])
  }

  /** One step adds an entry for the line exactly when it is a level 2-4 heading outside a fence. */
  lemma {:induction false} StepTocEntry(st: Pass, line: string)
    ensures var st' := LineStep(st, line);
      if !IsFence(line) && !st.inFence && HeadingOf(line).Some? && 2 <= HeadingOf(line).value.level <= 4
      then |st'.toc| == |st.toc| + 1 && |st'.generated| == |st.generated| + 1
        && st'.toc[..|st.toc|] == st.toc && st'.generated[..|st.generated|] == st.generated
        && EntryFor(st'.toc[|st.toc|], st'.generated[|st.generated|], line)
      else st'.toc == st.toc && st'.generated == st.generated
  {
    if !IsFence(line) && !st.inFence && HeadingOf(line).Some? {
      var h := HeadingOf(line).value;
      assert LineStep(st, line) == HeadingStep(st, line, h);
      if 2 <= h.level <= 4 {
        var st' := HeadingStep(st, line, h);
        assert st'.toc[..|st.toc|] == st.toc;
        assert st'.generated[..|st.generated|] == st.generated;
      }
    }
  }

  lemma {:induction false} MatchesGrow(toc: seq<TocItem>, gen: seq<bool>, src: seq<string>,
                                       toc': seq<TocItem>, gen': seq<bool>, line: string)
    requires TocMatches(toc, gen, src)
    requires |toc'| == |toc| + 1 && |gen'| == |gen| + 1 && toc'[..|toc|] == toc && gen'[..|gen|] == gen
    requires EntryFor(toc'[|toc|], gen'[|gen|], line)
    ensures TocMatches(toc', gen', src + [line])
  {
    forall j | 0 <= j < |src| + 1
      ensures EntryFor(toc'[j], gen'[j], (src + [line])[j])
    {
      if j < |src| {
        assert toc'[j] == toc'[..|toc|][j] && gen'[j] == gen'[..|gen|][j];
      }
    }
  }

  /**
   * The TOC lists exactly the level 2-4 headings outside fences, in order, each
   * with its level and text, and with the heading's explicit id where it has one.
   */
  lemma {:induction false} TocExact(lines: seq<string>)
    ensures TocMatches(PassOver(lines).toc, PassOver(lines).generated, TocLines(lines))
    decreases |lines|
  {
    if lines != [] {
      var n := |lines| - 1;
      var init, line := lines[..n], lines[n];
      TocExact(init);
      FenceParity(init);
      var st := PassOver(init);
      assert PassOver(lines) == LineStep(st, line);
      StepTocEntry(st, line);
      if IsTocLine(init, line) {
        MatchesGrow(st.toc, st.generated, TocLines(init), PassOver(lines).toc, PassOver(lines).generated, line);
      }
    }
  }

  /** Once a title is taken it is never replaced. */
  lemma {:induction false} TitleKept(st: Pass, line: string)
    requires st.title.Some?
    ensures LineStep(st, line).title == st.title
  {
  }

  /**
   * Only the first level-1 heading outside a fence sets the title, and that
   * line is dropped from the body; every other line produces exactly one body
   * line, which is the line itself unless it is a level 2-4 heading without an
   * explicit anchor.
   */
  lemma {:induction false} StepOutput(st: Pass, line: string)
    ensures var st' := LineStep(st, line);
      (st'.title != st.title <==> st.title.None? && !IsFence(line) && !st.inFence
                                  && HeadingOf(line).Some? && HeadingOf(line).value.level == 1)
      && (st'.title != st.title ==> st'.title == Some(HeadingOf(line).value.text) && st'.out == st.out)
      && (st'.title == st.title ==> |st'.out| == |st.out| + 1 && st'.out[..|st.out|] == st.out)
      && (IsFence(line) || st.inFence ==> st'.out == st.out + [line] && st'.toc == st.toc)
      && (st'.title == st.title && st'.out[|st.out|] != line ==>
            !IsFence(line) && !st.inFence && 2 <= HeadingOf(line).value.level <= 4 && ExplicitAnchor(line).None?
            && st'.sec == st.sec + 1)
  {
  }

  /** What `_split_title_and_inject_anchors` returns. */
  datatype Anchored = Anchored(title: Option<string>, body: string, toc: seq<TocItem>)

  function BodyOf(out: seq<string>): (r: string)
    ensures |r| >= 1 && r[|r| - 1] == '\n'
    ensures |r| == 1 || (!IsSpace(r[0]) && !IsSpace(r[|r| - 2]))
  {
    Strip(Join(out, "\n")) + "\n"
  }

  function SplitTitleSpec(markdown: string): Anchored
  {
    var st := PassOver(SplitLines(markdown));
    Anchored(st.title, BodyOf(st.out), st.toc)
  }

  /** `_split_title_and_inject_anchors`, line by line. */
  method SplitTitleAndInjectAnchors(markdown: string) returns (r: Anchored)
    ensures r == SplitTitleSpec(markdown)
  {
    var lines := SplitLines(markdown);
    var inFence := false;
    var title: Option<string> := None;
    var outLines: seq<string> := [];
    var toc: seq<TocItem> := [];
    var sec := 0;
    ghost var st := Start;
    for i := 0 to |lines|
      invariant st == PassOver(lines[..i])
      invariant inFence == st.inFence && title == st.title && outLines == st.out && toc == st.toc && sec == st.sec
    {
      var line := lines[i];
      PassOverSnoc(lines, i);
      inFence, title, outLines, toc, sec := HandleLine(inFence, title, outLines, toc, sec, line, st);
      st := LineStep(st, line);
    }
    assert lines[..|lines|] == lines;
    r := Anchored(title, BodyOf(outLines), toc);
  }

  lemma {:induction false} PassOverSnoc(lines: seq<string>, i: nat)
    requires i < |lines|
    ensures PassOver(lines[..i + 1]) == LineStep(PassOver(lines[..i]), lines[i])
  {
    assert lines[..i + 1][..i] == lines[..i];
  }

  /** The body of the loop. */
  method HandleLine(inFence: bool, title: Option<string>, outLines: seq<string>, toc: seq<TocItem>, sec: nat, line: string,
                    ghost st: Pass)
    returns (inFence': bool, title': Option<string>, outLines': seq<string>, toc': seq<TocItem>, sec': nat)
    requires inFence == st.inFence && title == st.title && outLines == st.out && toc == st.toc && sec == st.sec
    ensures var st' := LineStep(st, line);
      inFence' == st'.inFence && title' == st'.title && outLines' == st'.out && toc' == st'.toc && sec' == st'.sec
  {
    inFence', title', outLines', toc', sec' := inFence, title, outLines, toc, sec;
    if IsFence(line) {
      inFence' := !inFence;
      outLines' := outLines + [line];
    } else if inFence {
      outLines' := outLines + [line];
    } else {
      title', outLines', toc', sec' := OutsideFence(title, outLines, toc, sec, line, st);
    }
  }

  /** The body of the loop for a line outside any fence. */
  method OutsideFence(title: Option<string>, outLines: seq<string>, toc: seq<TocItem>, sec: nat, line: string,
                      ghost st: Pass)
    returns (title': Option<string>, outLines': seq<string>, toc': seq<TocItem>, sec': nat)
    requires title == st.title && outLines == st.out && toc == st.toc && sec == st.sec
    ensures var st' := OutsideStep(st, line);
      title' == st'.title && outLines' == st'.out && toc' == st'.toc && sec' == st'.sec
  {
    title', outLines', toc', sec' := title, outLines, toc, sec;
    var m := HeadingOf(line);
    if m.None? {
      outLines' := outLines + [line];
      return;
    }
    var level := m.value.level;
    var text := m.value.text;
    if level == 1 && title.None? {
      title' := Some(text);
    } else if 2 <= level <= 4 {
      var explicit := ExplicitAnchor(line);
      if explicit.Some? {
        toc' := toc + [TocItem(level, text, explicit.value)];
        outLines' := outLines + [line];
      } else {
        sec' := sec + 1;
        var anchor := SecAnchor(sec');
        toc' := toc + [TocItem(level, text, anchor)];
        outLines' := outLines + [m.value.hashes + " " + text + " {#" + anchor + "}"];
      }
    } else {
      outLines' := outLines + [line];
    }
  }

  /** The left margin of a TOC entry: 1rem for level 3, 2rem for level 4. */
  function TocIndent(level: nat): (r: string)
    ensures r == "" <==> level != 3 && level != 4
  {
    if level == 3 then " style=\"margin-left: 1rem;\""
    else if level == 4 then " style=\"margin-left: 2rem;\""
    else ""
  }

  function TocLink(it: TocItem, escape: string -> string): string
  {
    "<a href=\"#" + escape(it.anchor) + "\" class=\"toc-link\"" + TocIndent(it.level) + ">" + escape(it.text) + "</a>"
  }

  /** One link per entry, in order. */
  function TocLinks(toc: seq<TocItem>, escape: string -> string): (r: seq<string>)
    ensures |r| == |toc|
    ensures forall k :: 0 <= k < |toc| ==> r[k] == TocLink(toc[k], escape)
    decreases |toc|
  {
    if toc == [] then [] else TocLinks(toc[..|toc| - 1], escape) + [TocLink(toc[|toc| - 1], escape)]
  }

  /** `_build_toc_html`: the links joined one per line. */
  method BuildTocHtml(toc: seq<TocItem>, escape: string -> string) returns (html: string)
    ensures html == Join(TocLinks(toc, escape), "\n")
  {
    var items: seq<string> := [];
    for k := 0 to |toc|
      invariant items == TocLinks(toc[..k], escape)
    {
      assert toc[..k + 1][..k] == toc[..k];
      items := items + [TocLink(toc[k], escape)];
    }
    assert toc[..|toc|] == toc;
    html := Join(items, "\n");
  }

  /** `title or title_fallback`: an absent or empty title falls back. */
  function PageTitle(title: Option<string>, fallback: string): (r: string)
    ensures title.Some? && title.value != "" ==> r == title.value
    ensures title.None? || title.value == "" ==> r == fallback
  {
    if title.Some? && title.value != "" then title.value else fallback
  }

  /** The parts `render_deep_research_html` fills into its page template. */
  datatype Page = Page(title: string, tocItems: seq<TocItem>, contentHtml: string)

  /** `render_deep_research_html`, up to the template. */
  function RenderDeepResearch(markdown: string, fallback: string,
                              toHtml: string -> string, decorate: string -> string): (r: Page)
    ensures var t := SplitTitleSpec(markdown).title;
      r.title == (if t.Some? && t.value != "" then t.value else fallback)
    ensures r.tocItems == SplitTitleSpec(markdown).toc
    ensures r.contentHtml == decorate(toHtml(SplitTitleSpec(markdown).body))
  {
    var a := SplitTitleSpec(markdown);
    Page(PageTitle(a.title, fallback), a.toc, decorate(toHtml(a.body)))
  }

  /** A report without any level-1 heading outside fences takes the fallback title. */
  lemma {:induction false} NoH1MeansFallback(lines: seq<string>)
    requires forall k :: 0 <= k < |lines| && FenceCount(lines[..k]) % 2 == 0 && !IsFence(lines[k]) ==>
      HeadingOf(lines[k]).None? || HeadingOf(lines[k]).value.level != 1
    ensures PassOver(lines).title.None?
    decreases |lines|
  {
    if lines != [] {
      var prefix, last := lines[..|lines| - 1], lines[|lines| - 1];
      assert forall k :: 0 <= k < |prefix| ==> prefix[..k] == lines[..k] && prefix[k] == lines[k];
      NoH1MeansFallback(prefix);
      FenceParity(prefix);
      assert lines[..|prefix|] == prefix;
      StepOutput(PassOver(prefix), last);
    }
  }

  /**
   * The first level-1 heading outside any fence becomes the title, whatever
   * level-1 lines fenced code shows before it.
   */
  lemma {:induction false} TitleIsFirstH1(lines: seq<string>)
    requires lines != []
    requires forall k :: 0 <= k < |lines| - 1 && FenceCount(lines[..k]) % 2 == 0 && !IsFence(lines[k]) ==>
      HeadingOf(lines[k]).None? || HeadingOf(lines[k]).value.level != 1
    requires var last := lines[|lines| - 1]; !IsFence(last) && HeadingOf(last).Some? && HeadingOf(last).value.level == 1
    requires FenceCount(lines[..|lines| - 1]) % 2 == 0
    ensures PassOver(lines).title == Some(HeadingOf(lines[|lines| - 1]).value.text)
  {
    var prefix, last := lines[..|lines| - 1], lines[|lines| - 1];
    assert forall k :: 0 <= k < |prefix| ==> prefix[..k] == lines[..k] && prefix[k] == lines[k];
    NoH1MeansFallback(prefix);
    FenceParity(prefix);
    StepOutput(PassOver(prefix), last);
  }

  lemma {:induction false} TitleLine()
    ensures !IsFence("# Title") && HeadingOf("# Title") == Some(Heading(1, "#", "Title"))
  {
    var title := "# Title";
    assert StripLeft(title) == title && StripRight(title) == title;
    assert Strip(title)[0] != '`';
    var text := title[1..];
    assert LeadingHashes(text) == 0;
    assert LeadingHashes(title) == 1;
    assert StripLeft(text) == "Title" by { assert text[0] == ' ' && text[1..] == "Title"; }
    assert StripRight("Title") == "Title";
    assert title[..1] == "#";
  }

  lemma {:induction false} FenceLines()
    ensures IsFence("```sh") && IsFence("```")
  {
    assert StripLeft("```sh") == "```sh" && StripRight("```sh") == "```sh";
    assert StripLeft("```") == "```" && StripRight("```") == "```";
  }

  /** Whatever line a fenced block holds, the first top-level heading after the block is the title. */
  lemma {:induction false} FencedLineIsNoTitle(open: string, body: string, close: string, last: string)
    requires IsFence(open) && !IsFence(body) && IsFence(close)
    requires !IsFence(last) && HeadingOf(last).Some? && HeadingOf(last).value.level == 1
    ensures PassOver([open, body, close, last]).title == Some(HeadingOf(last).value.text)
  {
    var lines := [open, body, close, last];
    FencedBlockCounts(lines);
    TitleIsFirstH1(lines);
  }

  /** A fenced `# comment` before the real title does not become the title. */
  lemma {:induction false} FencedCommentIsNoTitle()
    ensures PassOver(["```sh", "# comment", "```", "# Title"]).title == Some("Title")
  {
    TitleLine();
    FenceLines();
    CommentLine();
    FencedLineIsNoTitle("```sh", "# comment", "```", "# Title");
  }

  lemma {:induction false} CommentLine()
    ensures !IsFence("# comment")
  {
    assert StripLeft("# comment") == "# comment" && StripRight("# comment") == "# comment";
  }

  lemma {:induction false} FencedBlockCounts(lines: seq<string>)
    requires |lines| == 4 && IsFence(lines[0]) && !IsFence(lines[1]) && IsFence(lines[2])
    ensures FenceCount(lines[..1]) == 1 && FenceCount(lines[..3]) == 2
  {
    assert FenceCount(lines[..1]) == 1 by { assert lines[..1][..0] == []; }
    assert FenceCount(lines[..3]) == 2 by {
      assert lines[..3][..2] == lines[..2] && lines[..2][..1] == lines[..1];
    }
  }
}
