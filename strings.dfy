/**
 * The handful of Python `str` operations the agent relies on, stated on
 * `seq<char>`. Whitespace, digits and case are the ASCII ones.
 */
module Strings {
  import opened Wrappers

  /** `str.isspace()` / regex `\s` on one character (ASCII whitespace). */
  predicate IsSpace(c: char)
  {
    c == ' ' || c == '\t' || c == '\n' || c == '\r' || c == '\U{000B}' || c == '\U{000C}'
  }

  /** Regex `\d` (ASCII digits). */
  predicate IsDigit(c: char)
  {
    '0' <= c <= '9'
  }

  predicate IsAsciiLetter(c: char)
  {
    'a' <= c <= 'z' || 'A' <= c <= 'Z'
  }

  /** Regex `\w` on the characters the program meets: ASCII letters, digits, '_' and CJK ideographs. */
  predicate IsWordChar(c: char)
  {
    IsAsciiLetter(c) || IsDigit(c) || c == '_' || '一' <= c <= '龥'
  }

  /** `str.lower()` on one character. */
  function LowerChar(c: char): char
  {
    if 'A' <= c <= 'Z' then (c as int + 32) as char else c
  }

  /** `str.lower()`. */
  function Lower(s: string): (r: string)
    ensures |r| == |s|
  {
    if s == [] then [] else [LowerChar(s[0])] + Lower(s[1..])
  }

  predicate StartsWith(s: string, p: string)
  {
    |p| <= |s| && s[..|p|] == p
  }

  predicate EndsWith(s: string, p: string)
  {
    |p| <= |s| && s[|s| - |p|..] == p
  }

  /** `sub in s`. */
  predicate Contains(s: string, sub: string)
    decreases |s|
  {
    StartsWith(s, sub) || (|s| > 0 && Contains(s[1..], sub))
  }

  /** `any(w in s for w in words)`. */
  predicate ContainsAny(s: string, words: seq<string>)
  {
    exists k :: 0 <= k < |words| && Contains(s, words[k])
  }

  /** `sum(1 for w in words if w in s)`. */
  function CountPresent(s: string, words: seq<string>): (n: nat)
    ensures n <= |words|
    ensures n > 0 <==> ContainsAny(s, words)
  {
    if words == [] then 0
    else
      var rest := CountPresent(s, words[1..]);
      assert ContainsAny(s, words) <==> Contains(s, words[0]) || ContainsAny(s, words[1..]) by {
        if ContainsAny(s, words) {
          var k :| 0 <= k < |words| && Contains(s, words[k]);
          if k > 0 { assert words[1..][k - 1] == words[k]; }
        }
        if ContainsAny(s, words[1..]) {
          var k :| 0 <= k < |words[1..]| && Contains(s, words[1..][k]);
          assert words[k + 1] == words[1..][k];
        }
      }
      (if Contains(s, words[0]) then 1 else 0) + rest
  }

  /** `s.lstrip()`. */
  function StripLeft(s: string): (r: string)
    ensures |r| <= |s|
    ensures r == [] || !IsSpace(r[0])
    decreases |s|
  {
    if |s| > 0 && IsSpace(s[0]) then StripLeft(s[1..]) else s
  }

  /** What `lstrip` keeps is a suffix of its input. */
  lemma {:induction false} StripLeftSuffix(s: string)
    ensures StripLeft(s) == s[|s| - |StripLeft(s)|..]
    decreases |s|
  {
    if |s| > 0 && IsSpace(s[0]) {
      StripLeftSuffix(s[1..]);
      assert s[1..][|s| - 1 - |StripLeft(s)|..] == s[|s| - |StripLeft(s)|..];
    }
  }

  /** `s.rstrip()`. */
  function StripRight(s: string): (r: string)
    ensures |r| <= |s| && r == s[..|r|]
    ensures r == [] || !IsSpace(r[|r| - 1])
    decreases |s|
  {
    if |s| > 0 && IsSpace(s[|s| - 1]) then StripRight(s[..|s| - 1]) else s
  }

  /** `s.strip()`. */
  function Strip(s: string): (r: string)
    ensures |r| <= |s|
    ensures r == [] || (!IsSpace(r[0]) && !IsSpace(r[|r| - 1]))
  {
    StripRight(StripLeft(s))
  }

  /** `s.split(c)` for a one-character separator: never empty. */
  function Split(s: string, c: char): (r: seq<string>)
    ensures |r| >= 1
    decreases |s|
  {
    if s == [] then [""]
    else if s[0] == c then [""] + Split(s[1..], c)
    else
      var t := Split(s[1..], c);
      [[s[0]] + t[0]] + t[1..]
  }

  /** `sep.join(parts)`. */
  function Join(parts: seq<string>, sep: string): string
  {
    if parts == [] then ""
    else if |parts| == 1 then parts[0]
    else parts[0] + sep + Join(parts[1..], sep)
  }

  /** Splitting on `c` and joining again with `c` gives the text back. */
  lemma {:induction false} JoinSplit(s: string, c: char)
    ensures Join(Split(s, c), [c]) == s
    decreases |s|
  {
    if s != [] {
      JoinSplit(s[1..], c);
      JoinSplitStep(s, c, Split(s[1..], c));
    }
  }

  /** One character in front of a text whose pieces join back to it. */
  lemma {:induction false} JoinSplitStep(s: string, c: char, t: seq<string>)
    requires s != [] && t == Split(s[1..], c) && Join(t, [c]) == s[1..]
    ensures Join(Split(s, c), [c]) == s
  {
    assert s == [s[0]] + s[1..];
    if s[0] == c {
      assert Split(s, c) == [""] + t;
      JoinCons("", t, [c]);
    } else if |t| == 1 {
      JoinSplitSingle(s, c, t);
    } else {
      JoinSplitGlue(s, c, t);
    }
  }

  lemma {:induction false} JoinSplitSingle(s: string, c: char, t: seq<string>)
    requires s != [] && s[0] != c && t == Split(s[1..], c) && |t| == 1 && t[0] == s[1..]
    ensures Join(Split(s, c), [c]) == s
  {
    assert Split(s, c) == [[s[0]] + t[0]];
    assert s == [s[0]] + s[1..];
  }

  lemma {:induction false} JoinSplitGlue(s: string, c: char, t: seq<string>)
    requires s != [] && s[0] != c && t == Split(s[1..], c) && |t| > 1 && Join(t, [c]) == s[1..]
    ensures Join(Split(s, c), [c]) == s
  {
    var rest := t[1..];
    assert t == [t[0]] + rest;
    assert Split(s, c) == [[s[0]] + t[0]] + rest;
    JoinCons([s[0]] + t[0], rest, [c]);
    JoinCons(t[0], rest, [c]);
    assert s == [s[0]] + s[1..];
  }

  lemma {:induction false} JoinCons(p: string, t: seq<string>, sep: string)
    requires |t| >= 1
    ensures Join([p] + t, sep) == p + sep + Join(t, sep)
  {
    assert ([p] + t)[1..] == t;
  }

  /** No piece of `s.split(c)` contains the separator. */
  lemma {:induction false} SplitPiecesFree(s: string, c: char)
    ensures forall k, j :: 0 <= k < |Split(s, c)| && 0 <= j < |Split(s, c)[k]| ==> Split(s, c)[k][j] != c
    decreases |s|
  {
    if s != [] {
      SplitPiecesFree(s[1..], c);
    }
  }

  /**
   * `s.splitlines()` for text whose only line boundary is `'\n'`: like `split`,
   * except that empty text has no lines and a final newline opens no extra line.
   */
  function SplitLines(s: string): (r: seq<string>)
  {
    if s == [] then []
    else
      var p := Split(s, '\n');
      if p[|p| - 1] == "" then p[..|p| - 1] else p
  }

  /** The index of the first occurrence of `sub` in `s`, if any (`s.find(sub)`). */
  function IndexOf(s: string, sub: string): (r: Option<nat>)
    ensures r.Some? ==> r.value + |sub| <= |s| && s[r.value..r.value + |sub|] == sub
    ensures r.Some? <==> Contains(s, sub)
    ensures r.Some? ==> forall i :: 0 <= i < r.value ==> !StartsWith(s[i..], sub)
  {
    var r := IndexFrom(s, sub, 0);
    if r.Some? then
      ContainsAt(s, sub, r.value);
      r
    else
      assert s[0..] == s;
      NotContains(s, sub);
      r
  }

  /** The first position from `i` on where `sub` starts. */
  function IndexFrom(s: string, sub: string, i: nat): (r: Option<nat>)
    requires i <= |s|
    ensures r.Some? ==> i <= r.value && r.value + |sub| <= |s| && StartsWith(s[r.value..], sub)
    ensures r.Some? ==> s[r.value..r.value + |sub|] == sub
    ensures r.Some? ==> forall j :: i <= j < r.value ==> !StartsWith(s[j..], sub)
    ensures r.None? ==> forall j :: i <= j <= |s| ==> !StartsWith(s[j..], sub)
    decreases |s| - i
  {
    if StartsWith(s[i..], sub) then
      assert s[i..][..|sub|] == s[i..i + |sub|];
      Some(i)
    else if i == |s| then None
    else IndexFrom(s, sub, i + 1)
  }

  lemma {:induction false} NotContains(s: string, sub: string)
    requires forall j :: 0 <= j <= |s| ==> !StartsWith(s[j..], sub)
    ensures !Contains(s, sub)
    decreases |s|
  {
    assert s[0..] == s;
    if |s| > 0 {
      forall j | 0 <= j <= |s| - 1 ensures !StartsWith(s[1..][j..], sub) {
        assert s[1..][j..] == s[j + 1..];
      }
      NotContains(s[1..], sub);
    }
  }

  /** `s.split(sep)[0]`: the text before the first `sep`, or all of `s`. */
  function BeforeFirst(s: string, sep: string): (r: string)
    ensures |r| <= |s| && r == s[..|r|]
  {
    match IndexOf(s, sep)
    case None => s
    case Some(k) => s[..k]
  }

  /** The text after the first `sep` (empty when `sep` is absent). */
  function AfterFirst(s: string, sep: string): (r: string)
    ensures |r| <= |s|
  {
    match IndexOf(s, sep)
    case None => ""
    case Some(k) => s[k + |sep|..]
  }

  /** `s.replace(pat, rep)`: every non-overlapping occurrence, left to right. */
  function ReplaceAll(s: string, pat: string, rep: string): (r: string)
    requires |pat| > 0
    decreases |s|
  {
    if |s| < |pat| then s
    else if s[..|pat|] == pat then rep + ReplaceAll(s[|pat|..], pat, rep)
    else [s[0]] + ReplaceAll(s[1..], pat, rep)
  }

  /** Replacing by text no longer than the pattern never lengthens the text. */
  lemma {:induction false} ReplaceAllShorter(s: string, pat: string, rep: string)
    requires |pat| > 0 && |rep| <= |pat|
    ensures |ReplaceAll(s, pat, rep)| <= |s|
    decreases |s|
  {
    if |s| >= |pat| {
      if s[..|pat|] == pat {
        ReplaceAllShorter(s[|pat|..], pat, rep);
      } else {
        ReplaceAllShorter(s[1..], pat, rep);
      }
    }
  }

  /** Text without the pattern's first character is left alone. */
  lemma {:induction false} ReplaceAllAbsent(s: string, pat: string, rep: string)
    requires |pat| > 0 && forall i :: 0 <= i < |s| ==> s[i] != pat[0]
    ensures ReplaceAll(s, pat, rep) == s
    decreases |s|
  {
    if |s| >= |pat| {
      assert s[..|pat|][0] == s[0];
      ReplaceAllAbsent(s[1..], pat, rep);
    }
  }

  lemma {:induction false} ContainsHead(s: string, sub: string)
    requires StartsWith(s, sub)
    ensures Contains(s, sub)
  {
  }

  /** A one-character needle occurs in `a + b` iff it occurs in `a` or in `b`. */
  lemma {:induction false} ContainsConcat(a: string, b: string, c: char)
    ensures Contains(a + b, [c]) <==> Contains(a, [c]) || Contains(b, [c])
    decreases |a|
  {
    if a == [] {
      assert a + b == b;
    } else {
      ContainsConcat(a[1..], b, c);
      assert (a + b)[1..] == a[1..] + b;
    }
  }

  /** A one-character needle occurs in `s` iff some position holds it. */
  lemma {:induction false} ContainsCharIff(s: string, c: char)
    ensures Contains(s, [c]) <==> exists i :: 0 <= i < |s| && s[i] == c
    decreases |s|
  {
    if s != [] {
      ContainsCharIff(s[1..], c);
      assert StartsWith(s, [c]) <==> s[0] == c;
      if exists i :: 0 <= i < |s[1..]| && s[1..][i] == c {
        var i :| 0 <= i < |s[1..]| && s[1..][i] == c;
        assert s[i + 1] == c;
      }
      if exists i :: 0 <= i < |s| && s[i] == c {
        var i :| 0 <= i < |s| && s[i] == c;
        if i > 0 { assert s[1..][i - 1] == c; }
      }
    }
  }

  /** A substring found at a known position is contained. */
  lemma {:induction false} ContainsAt(s: string, sub: string, i: nat)
    requires i + |sub| <= |s| && s[i..i + |sub|] == sub
    ensures Contains(s, sub)
    decreases i
  {
    if i > 0 {
      assert s[1..][i - 1..i - 1 + |sub|] == sub;
      ContainsAt(s[1..], sub, i - 1);
    }
  }

  /** Text contains itself after anything is glued around it. */
  lemma {:induction false} ContainsMiddle(a: string, sub: string, b: string)
    ensures Contains(a + sub + b, sub)
  {
    assert (a + sub + b)[|a|..|a| + |sub|] == sub;
    ContainsAt(a + sub + b, sub, |a|);
  }

  /** Text with no backtick, so no Markdown fence can start inside it. */
  predicate NoBacktick(s: string)
  {
    forall i :: 0 <= i < |s| ==> s[i] != '`'
  }

  /** A fence-like separator following backtick-free text is found right after it. */
  lemma {:induction false} IndexOfAfterNoBacktick(a: string, sep: string, b: string)
    requires |sep| > 0 && sep[0] == '`' && NoBacktick(a)
    ensures IndexOf(a + sep + b, sep) == Some(|a|)
  {
    var s := a + sep + b;
    assert s[|a|..|a| + |sep|] == sep;
    ContainsAt(s, sep, |a|);
    var k := IndexOf(s, sep).value;
    assert s[k] == sep[0];
    assert s[|a|..][..|sep|] == sep;
  }

  /** No separator of length `m` fits in backtick-free text followed by fewer than `m` characters. */
  lemma {:induction false} IndexOfNoneNoBacktick(a: string, sep: string, t: string)
    requires |sep| > 0 && sep[0] == '`' && NoBacktick(a) && |t| < |sep|
    ensures IndexOf(a + t, sep) == None
  {
    var s := a + t;
    forall k | 0 <= k < |s|
      ensures !StartsWith(s[k..], sep)
    {
      if k < |a| { assert s[k..][0] == a[k]; }
    }
  }

  /** Stripping is idempotent. */
  lemma {:induction false} StripIdempotent(s: string)
    ensures Strip(Strip(s)) == Strip(s)
  {
  }

  /** Stripping backtick-free text leaves it backtick-free. */
  lemma {:induction false} NoBacktickStrip(s: string)
    requires NoBacktick(s)
    ensures NoBacktick(Strip(s))
  {
    var l := StripLeft(s);
    StripLeftSuffix(s);
    NoBacktickSlice(s, |s| - |l|, |s|);
    NoBacktickSlice(l, 0, |StripRight(l)|);
  }

  lemma {:induction false} NoBacktickSlice(s: string, i: nat, j: nat)
    requires NoBacktick(s) && i <= j <= |s|
    ensures NoBacktick(s[i..j])
  {
    forall k | 0 <= k < j - i ensures s[i..j][k] != '`' {
      assert s[i..j][k] == s[i + k];
    }
  }

  /** Stripping ignores a surrounding newline pair. */
  lemma {:induction false} StripNewlines(s: string)
    ensures Strip("\n" + s + "\n") == Strip(s)
  {
    var t := "\n" + s + "\n";
    assert t[1..] == s + "\n";
    assert StripLeft(t) == StripLeft(s + "\n");
    StripLeftAppendSpace(s, '\n');
    StripRightAppendSpace(StripLeft(s), '\n');
  }

  lemma {:induction false} StripLeftAppendSpace(s: string, c: char)
    requires IsSpace(c)
    ensures StripLeft(s + [c]) == (if StripLeft(s) == [] then [] else StripLeft(s) + [c])
    decreases |s|
  {
    if s == [] {
    } else if IsSpace(s[0]) {
      assert (s + [c])[1..] == s[1..] + [c];
      StripLeftAppendSpace(s[1..], c);
    }
  }

  lemma {:induction false} StripRightAppendSpace(s: string, c: char)
    requires IsSpace(c)
    ensures StripRight(s + [c]) == StripRight(s)
  {
    assert (s + [c])[..|s + [c]| - 1] == s;
  }

  /** Text contained in one joined part is contained in the joined text. */
  lemma {:induction false} ContainsInJoin(parts: seq<string>, sep: string, k: nat, sub: string)
    requires k < |parts| && Contains(parts[k], sub)
    ensures Contains(Join(parts, sep), sub)
    decreases |parts|
  {
    if |parts| == 1 {
    } else if k == 0 {
      ContainsPrefix(parts[0], sep + Join(parts[1..], sep), sub);
      assert parts[0] + sep + Join(parts[1..], sep) == parts[0] + (sep + Join(parts[1..], sep));
    } else {
      ContainsInJoin(parts[1..], sep, k - 1, sub);
      ContainsSuffix(parts[0] + sep, Join(parts[1..], sep), sub);
    }
  }

  lemma {:induction false} ContainsPrefix(a: string, b: string, sub: string)
    requires Contains(a, sub)
    ensures Contains(a + b, sub)
    decreases |a|
  {
    if StartsWith(a, sub) {
      assert (a + b)[..|sub|] == a[..|sub|];
    } else {
      assert (a + b)[1..] == a[1..] + b;
      ContainsPrefix(a[1..], b, sub);
    }
  }

  lemma {:induction false} ContainsSuffix(a: string, b: string, sub: string)
    requires Contains(b, sub)
    ensures Contains(a + b, sub)
    decreases |a|
  {
    if a == [] {
      assert a + b == b;
    } else {
      assert (a + b)[1..] == a[1..] + b;
      ContainsSuffix(a[1..], b, sub);
    }
  }

  /** The decimal text of a natural number (`str(n)`). */
  function NatToString(n: nat): (r: string)
    ensures |r| >= 1
    ensures forall i :: 0 <= i < |r| ==> IsDigit(r[i])
    decreases n
  {
    var d := ['0' + (n % 10) as char];
    if n < 10 then d else NatToString(n / 10) + d
  }

  /** The value of a run of ASCII digits. */
  function DigitsValue(s: string): nat
    requires forall i :: 0 <= i < |s| ==> IsDigit(s[i])
    decreases |s|
  {
    if s == [] then 0
    else
      assert IsDigit(s[|s| - 1]);
      DigitsValue(s[..|s| - 1]) * 10 + (s[|s| - 1] as int - '0' as int)
  }

  /** Reading back the decimal text of `n` gives `n`. */
  lemma {:induction false} DigitsValueOfNatToString(n: nat)
    ensures DigitsValue(NatToString(n)) == n
    decreases n
  {
    var d := ['0' + (n % 10) as char];
    if n >= 10 {
      DigitsValueOfNatToString(n / 10);
      var r := NatToString(n / 10) + d;
      assert r[..|r| - 1] == NatToString(n / 10);
    }
  }
}
