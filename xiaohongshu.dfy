/**
 * The standalone page extractor (video_download/xiaohongshu.py): the small
 * value converters, the balanced-object scanner used to cut the embedded page
 * state out of the HTML, and the assembly of the result from that state.
 *
 * Decoded JSON is the `Json` datatype below; an object keeps its members in
 * document order.
 */
module XhsExtractor {
  import opened Wrappers
  import opened Strings
  import Sorting

  datatype Json =
    | JNull
    | JBool(b: bool)
    | JInt(i: int)
    | JFloat(f: real)
    | JStr(s: string)
    | JArr(items: seq<Json>)
    | JObj(members: seq<Member>)

  datatype Member = Member(key: string, value: Json)

  /** Python truthiness of a decoded value. */
  predicate Truthy(v: Json)
  {
    match v
    case JNull => false
    case JBool(b) => b
    case JInt(i) => i != 0
    case JFloat(f) => f != 0.0
    case JStr(s) => s != ""
    case JArr(items) => items != []
    case JObj(members) => members != []
  }

  /** The value stored under `key` (the last member with that key, as `json.loads` keeps). */
  function Lookup(members: seq<Member>, key: string): (r: Option<Json>)
    ensures r.Some? ==> Member(key, r.value) in members
    ensures r.None? ==> forall k :: 0 <= k < |members| ==> members[k].key != key
    decreases |members|
  {
    if members == [] then None
    else if members[|members| - 1].key == key then Some(members[|members| - 1].value)
    else
      var r := Lookup(members[..|members| - 1], key);
      assert forall k :: 0 <= k < |members| - 1 ==> members[..|members| - 1][k] == members[k];
      r
  }

  /** `d.get(key)` on a value already known to be a dict. */
  function Get(v: Json, key: string): Option<Json>
  {
    if v.JObj? then Lookup(v.members, key) else None
  }

  /** `d.get(key, default)`: raises AttributeError (an `Err`) when `d` is not a dict. */
  function GetOr(v: Json, key: string, default: Json): (r: Result<Json>)
    ensures r.Err? <==> !v.JObj?
  {
    if v.JObj? then Ok(Lookup(v.members, key).GetOr(default)) else Err("AttributeError: 'get'")
  }

  /** `int(x)` on a float: truncation toward zero. */
  function TruncToward0(f: real): (r: int)
    ensures r as real <= f < r as real + 1.0 || r as real - 1.0 < f <= r as real
    ensures f >= 0.0 ==> 0 <= r && r as real <= f
    ensures f < 0.0 ==> r <= 0 && f <= r as real
  {
    if f >= 0.0 then f.Floor else -((-f).Floor)
  }

  /**
   * Digits with single underscores between them, as `int()` accepts text
   * (PEP 515): `1_000`, but not `_1`, `1_` or `1__0`.
   */
  predicate IsDigitGroups(d: string)
  {
    d != [] && IsDigit(d[0]) && IsDigit(d[|d| - 1])
    && (forall i :: 0 <= i < |d| ==> IsDigit(d[i]) || d[i] == '_')
    && (forall i :: 0 <= i < |d| - 1 ==> d[i] == '_' ==> d[i + 1] != '_')
  }

  /** The digits of `d` with the underscores taken out. */
  function DropUnderscores(d: string): (r: string)
    ensures |r| <= |d|
    decreases |d|
  {
    if d == [] then []
    else DropUnderscores(d[..|d| - 1]) + (if d[|d| - 1] == '_' then [] else [d[|d| - 1]])
  }

  /** Without the underscores, digit groups are plain digits. */
  lemma {:induction false} DropUnderscoresDigits(d: string)
    requires forall i :: 0 <= i < |d| ==> IsDigit(d[i]) || d[i] == '_'
    ensures forall i :: 0 <= i < |DropUnderscores(d)| ==> IsDigit(DropUnderscores(d)[i])
    decreases |d|
  {
    if d != [] {
      DropUnderscoresDigits(d[..|d| - 1]);
    }
  }

  /** Plain digits have no underscore to drop. */
  lemma {:induction false} DropUnderscoresPlain(d: string)
    requires forall i :: 0 <= i < |d| ==> IsDigit(d[i])
    ensures DropUnderscores(d) == d
    decreases |d|
  {
    if d != [] {
      DropUnderscoresPlain(d[..|d| - 1]);
      assert d == d[..|d| - 1] + [d[|d| - 1]];
    }
  }

  /** An optional sign followed by digit groups. */
  function ParseInt(t: string): (r: Option<int>)
    ensures r.Some? ==> |t| > 0
  {
    if t == [] then None
    else
      var digits := if t[0] == '-' || t[0] == '+' then t[1..] else t;
      if IsDigitGroups(digits)
      then
        DropUnderscoresDigits(digits);
        var v := DigitsValue(DropUnderscores(digits)) as int;
        Some(if t[0] == '-' then -v else v)
      else None
  }

  /**
   * `int_or_none`: None for None and for values `int()` rejects (lists, dicts,
   * text that is not an integer); booleans are 0/1, floats are truncated.
   */
  function IntOrNone(v: Json): (r: Option<int>)
    ensures v.JNull? || v.JArr? || v.JObj? ==> r.None?
    ensures v.JInt? ==> r == Some(v.i)
    ensures v.JBool? ==> r == Some(if v.b then 1 else 0)
    ensures v.JFloat? ==> r.Some? && -1.0 < v.f - r.value as real < 1.0
  {
    match v
    case JNull => None
    case JBool(b) => Some(if b then 1 else 0)
    case JInt(i) => Some(i)
    case JFloat(f) => Some(TruncToward0(f))
    case JStr(s) => ParseInt(Strip(s))
    case _ => None
  }

  /** The decimal text of an integer. */
  function IntToString(n: int): string
  {
    if n < 0 then "-" + NatToString(-n) else NatToString(n)
  }

  /** The decimal text of an integer parses back to it. */
  lemma {:induction false} ParseIntOfText(n: int)
    ensures ParseInt(IntToString(n)) == Some(n)
  {
    if n < 0 {
      ParseNegativeText(n);
    } else {
      ParseNonNegativeText(n);
    }
  }

  lemma {:induction false} ParseNonNegativeText(n: nat)
    ensures ParseInt(IntToString(n)) == Some(n)
  {
    var t := NatToString(n);
    assert IntToString(n) == t;
    ParseBareDigits(t);
    DigitsValueOfNatToString(n);
  }

  lemma {:induction false} ParseNegativeText(n: int)
    requires n < 0
    ensures ParseInt(IntToString(n)) == Some(n)
  {
    var t := NatToString(-n);
    DigitsValueOfNatToString(-n);
    assert DigitsValue(t) as int == -n;
    ParseNegativeDigits(t);
    var s := "-" + t;
    assert ParseInt(s) == Some(n);
    assert IntToString(n) == s;
  }

  lemma {:induction false} ParseBareDigits(d: string)
    requires d != [] && forall i :: 0 <= i < |d| ==> IsDigit(d[i])
    ensures ParseInt(d) == Some(DigitsValue(d))
  {
    assert IsDigit(d[0]);
    assert IsDigitGroups(d);
    DropUnderscoresPlain(d);
  }

  lemma {:induction false} ParseNegativeDigits(d: string)
    requires d != [] && forall i :: 0 <= i < |d| ==> IsDigit(d[i])
    ensures ParseInt("-" + d) == Some(-(DigitsValue(d) as int))
  {
    var t := "-" + d;
    assert t[0] == '-' && t[1..] == d;
    assert IsDigitGroups(d);
    DropUnderscoresPlain(d);
  }

  lemma ThousandDigits()
    ensures DropUnderscores("1_000") == "1000" && DigitsValue("1000") == 1000
  {
    var t := "1_000";
    assert t[..4] == "1_00" && t[..3] == "1_0" && t[..2] == "1_" && t[..1] == "1";
    assert "1_00"[..3] == "1_0" && "1_0"[..2] == "1_" && "1_"[..1] == "1" && "1"[..0] == "";
    assert DropUnderscores("1") == "1";
    assert DropUnderscores("1_") == "1";
    assert DropUnderscores("1_0") == "10";
    assert DropUnderscores("1_00") == "100";
    assert "1000"[..3] == "100" && "100"[..2] == "10" && "10"[..1] == "1";
  }

  /** Underscores between digit groups are accepted, as `int("1_000")` is 1000. */
  lemma {:induction false} UnderscoredDigits()
    ensures IntOrNone(JStr("1_000")) == Some(1000)
    ensures IntOrNone(JStr("1__000")).None? && IntOrNone(JStr("_1")).None?
  {
    var t := "1_000";
    assert StripLeft(t) == t && StripRight(t) == t;
    assert IsDigitGroups(t);
    ThousandDigits();
    var u := "1__000";
    assert StripLeft(u) == u && StripRight(u) == u;
    assert u[1] == '_' && u[2] == '_';
    var v := "_1";
    assert StripLeft(v) == v && StripRight(v) == v;
  }

  /** The decimal text of an integer, bare or padded with whitespace, converts back to it. */
  lemma {:induction false} IntOrNoneOfText(n: int)
    ensures IntOrNone(JStr(IntToString(n))) == Some(n)
    ensures IntOrNone(JStr(" " + IntToString(n) + "\n")) == Some(n)
  {
    var t := IntToString(n);
    assert !IsSpace(t[0]) && !IsSpace(t[|t| - 1]) by {
      if n < 0 { assert t[1..] == NatToString(-n); assert t[|t| - 1] == NatToString(-n)[|t| - 2]; }
    }
    assert StripLeft(t) == t;
    assert StripRight(t) == t;
    StripNewlinesAround(t);
    ParseIntOfText(n);
  }

  /** Whitespace around text that starts and ends with a non-space is stripped off. */
  lemma {:induction false} StripNewlinesAround(t: string)
    requires |t| > 0 && !IsSpace(t[0]) && !IsSpace(t[|t| - 1])
    ensures Strip(" " + t + "\n") == t
  {
    var v := t + "\n";
    var u := " " + v;
    assert " " + t + "\n" == u;
    assert u[0] == ' ' && u[1..] == v;
    assert StripLeft(u) == StripLeft(v);
    assert v[0] == t[0];
    assert StripLeft(v) == v;
    assert v[|v| - 1] == '\n' && v[..|v| - 1] == t;
    assert StripRight(v) == StripRight(t);
    assert StripRight(t) == t;
    assert Strip(u) == StripRight(StripLeft(u));
  }

  function Pow10(n: nat): (r: nat)
    ensures r >= 1
  {
    if n == 0 then 1 else 10 * Pow10(n - 1)
  }

  /** One side of the point in `float()` text: nothing, or digit groups. */
  predicate IsDigitPart(d: string)
  {
    d == [] || IsDigitGroups(d)
  }

  /** The value of one side of the point, underscores dropped. */
  function DigitPartValue(d: string): (r: nat)
    requires IsDigitPart(d)
  {
    DropUnderscoresDigits(d);
    DigitsValue(DropUnderscores(d))
  }

  /**
   * `float(text)` for plain decimals: a sign, digit groups, and optionally a
   * point and more digit groups (PEP 515 underscores on either side).
   */
  function ParseDecimal(t: string): (r: Option<real>)
  {
    if t == [] then None
    else
      var sign := if t[0] == '-' then -1.0 else 1.0;
      var body := if t[0] == '-' || t[0] == '+' then t[1..] else t;
      var whole := BeforeFirst(body, ".");
      var frac := AfterFirst(body, ".");
      if (whole != [] || frac != []) && IsDigitPart(whole) && IsDigitPart(frac) && (Contains(body, ".") || frac == [])
      then
        DropUnderscoresDigits(frac);
        Some(sign * (DigitPartValue(whole) as real + DigitPartValue(frac) as real / Pow10(|DropUnderscores(frac)|) as real))
      else None
  }

  /** Underscores between digit groups are accepted, as `float("1_000")` is 1000.0. */
  lemma {:induction false} UnderscoredDecimal()
    ensures FloatOrNone(JStr("1_000"), 1.0) == Some(1000.0)
    ensures FloatOrNone(JStr("1__000"), 1.0).None?
  {
    UnderscoredThousand();
    DoubledUnderscore();
  }

  lemma {:induction false} UnderscoredThousand()
    ensures FloatOrNone(JStr("1_000"), 1.0) == Some(1000.0)
  {
    var t := "1_000";
    assert StripLeft(t) == t && StripRight(t) == t;
    assert IndexOf(t, ".").None?;
    assert IsDigitGroups(t);
    ThousandDigits();
  }

  lemma {:induction false} DoubledUnderscore()
    ensures FloatOrNone(JStr("1__000"), 1.0).None?
  {
    var u := "1__000";
    assert StripLeft(u) == u && StripRight(u) == u;
    assert IndexOf(u, ".").None?;
    assert u[1] == '_' && u[2] == '_';
  }

  /** `float_or_none(v, scale=...)`: the number divided by `scale`; None on None, errors and a zero scale. */
  function FloatOrNone(v: Json, scale: real): (r: Option<real>)
    ensures scale == 0.0 || v.JNull? || v.JArr? || v.JObj? ==> r.None?
    ensures scale != 0.0 && v.JInt? ==> r == Some(v.i as real / scale)
    ensures scale != 0.0 && v.JFloat? ==> r == Some(v.f / scale)
  {
    if scale == 0.0 then None
    else match v
      case JBool(b) => Some((if b then 1.0 else 0.0) / scale)
      case JInt(i) => Some(i as real / scale)
      case JFloat(f) => Some(f / scale)
      case JStr(s) =>
        (match ParseDecimal(Strip(s))
         case None => None
         case Some(x) => Some(x / scale))
      case _ => None
  }

  predicate IsHttpUrl(s: string)
  {
    StartsWith(s, "http://") || StartsWith(s, "https://")
  }

  /** `url_or_none`: the stripped text when it is an http(s) URL, else None. */
  function UrlOrNone(u: Json): (r: Option<string>)
    ensures r.Some? <==> u.JStr? && IsHttpUrl(Strip(u.s))
    ensures r.Some? ==> r.value == Strip(u.s) && r.value != ""
  {
    if !u.JStr? then None
    else
      var t := Strip(u.s);
      if t == "" then None
      else if IsHttpUrl(t) then Some(t)
      else None
  }

  /** An accepted URL is accepted again unchanged. */
  lemma {:induction false} UrlOrNoneIdempotent(u: Json)
    requires UrlOrNone(u).Some?
    ensures UrlOrNone(JStr(UrlOrNone(u).value)) == UrlOrNone(u)
  {
    StripIdempotent(u.s);
  }

  /** `_html_unescape`: the five entities, `&amp;` first. */
  function HtmlUnescape(s: string): (r: string)
  {
    ReplaceAll(ReplaceAll(ReplaceAll(ReplaceAll(ReplaceAll(s, "&amp;", "&"), "&quot;", "\""), "&#39;", "'"), "&lt;", "<"), "&gt;", ">")
  }

  /** Decoding never lengthens the text, and text without '&' is returned as is. */
  lemma {:induction false} HtmlUnescapeShape(s: string)
    ensures |HtmlUnescape(s)| <= |s|
    ensures (forall i :: 0 <= i < |s| ==> s[i] != '&') ==> HtmlUnescape(s) == s
  {
    var a := ReplaceAll(s, "&amp;", "&");
    var b := ReplaceAll(a, "&quot;", "\"");
    var c := ReplaceAll(b, "&#39;", "'");
    var d := ReplaceAll(c, "&lt;", "<");
    ReplaceAllShorter(s, "&amp;", "&");
    ReplaceAllShorter(a, "&quot;", "\"");
    ReplaceAllShorter(b, "&#39;", "'");
    ReplaceAllShorter(c, "&lt;", "<");
    ReplaceAllShorter(d, "&gt;", ">");
    if forall i :: 0 <= i < |s| ==> s[i] != '&' {
      ReplaceAllAbsent(s, "&amp;", "&");
      ReplaceAllAbsent(a, "&quot;", "\"");
      ReplaceAllAbsent(b, "&#39;", "'");
      ReplaceAllAbsent(c, "&lt;", "<");
      ReplaceAllAbsent(d, "&gt;", ">");
    }
  }

  /** Because `&amp;` goes first, a doubly escaped '<' decodes all the way. */
  lemma {:induction false} DoublyEscapedLessThan()
    ensures HtmlUnescape("&amp;lt;") == "<"
  {
    var s := "&amp;lt;";
    assert s[..5] == "&amp;";
    assert s[5..] == "lt;";
    assert ReplaceAll("lt;", "&amp;", "&") == "lt;" by {
      ReplaceAllAbsent("lt;", "&amp;", "&");
    }
    var a := "&lt;";
    assert ReplaceAll(s, "&amp;", "&") == a;
    assert ReplaceAll(a, "&quot;", "\"") == a;
    ReplaceAllAbsent(a[1..], "&#39;", "'");
    assert ReplaceAll(a, "&#39;", "'") == a;
    assert a[..4] == "&lt;";
    assert ReplaceAll(a, "&lt;", "<") == "<";
    assert ReplaceAll("<", "&gt;", ">") == "<";
  }

  // ---- The balanced-object scanner ----

  /** The first position at or after `i` that is not whitespace (or the end). */
  function SkipSpace(text: string, i: nat): (r: nat)
    ensures i <= r
    ensures i <= |text| ==> r <= |text| && (r == |text| || !IsSpace(text[r]))
    ensures forall k :: i <= k < r ==> k < |text| && IsSpace(text[k])
    decreases |text| - i
  {
    if i < |text| && IsSpace(text[i]) then SkipSpace(text, i + 1) else i
  }

  /** The scanner's state between two characters. */
  datatype ScanState = ScanState(depth: int, inStr: Option<char>, esc: bool)

  predicate IsQuote(c: char)
  {
    c == '\'' || c == '"'
  }

  function CloseOf(open: char): char
  {
    if open == '{' then '}' else ']'
  }

  /** The state after one character. Only the opening bracket's own kind is counted. */
  function Step(st: ScanState, ch: char, open: char): ScanState
  {
    if st.inStr.Some? then
      if st.esc then st.(esc := false)
      else if ch == '\\' then st.(esc := true)
      else if ch == st.inStr.value then st.(inStr := None)
      else st
    else if IsQuote(ch) then st.(inStr := Some(ch))
    else if ch == open then st.(depth := st.depth + 1)
    else if ch == CloseOf(open) then st.(depth := st.depth - 1)
    else st
  }

  /** Whether the character at `j` closes the object. */
  predicate Closes(st: ScanState, ch: char, open: char)
  {
    st.inStr.None? && !IsQuote(ch) && ch != open && ch == CloseOf(open) && st.depth - 1 == 0
  }

  /** The exclusive end of the object when scanning from `j` in state `st`; None when it never closes. */
  function ScanEnd(text: string, j: nat, open: char, st: ScanState): (r: Option<nat>)
    ensures r.Some? ==> j < r.value <= |text| && text[r.value - 1] == CloseOf(open)
    decreases |text| - j
  {
    if j >= |text| then None
    else if Closes(st, text[j], open) then Some(j + 1)
    else ScanEnd(text, j + 1, open, Step(st, text[j], open))
  }

  /** The object text and the index just past it. */
  datatype Span = Span(body: string, end: nat)

  const NotAnOpening: string := "Expected '{' or '[' at start_pos"
  const Unbalanced: string := "Unbalanced JSON/JS object"

  /** What `extract_balanced_json(text, start)` returns, or the ValueError it raises. */
  function BalancedJson(text: string, start: nat): (r: Result<Span>)
  {
    var i := SkipSpace(text, start);
    if i >= |text| || (text[i] != '{' && text[i] != '[') then Err(NotAnOpening)
    else match ScanEnd(text, i, text[i], ScanState(0, None, false))
      case None => Err(Unbalanced)
      case Some(e) => Ok(Span(text[i..e], e))
  }

  /** `extract_balanced_json`: skip whitespace, then scan with depth, quote and escape state. */
  method ExtractBalancedJson(text: string, start: nat) returns (r: Result<Span>)
    ensures r == BalancedJson(text, start)
  {
    var n := |text|;
    var i := start;
    while i < n && IsSpace(text[i])
      invariant start <= i
      invariant SkipSpace(text, start) == SkipSpace(text, i)
      decreases n - i
    {
      i := i + 1;
    }
    if i >= n || (text[i] != '{' && text[i] != '[') {
      return Err(NotAnOpening);
    }
    r := ScanObject(text, i);
  }

  /** The bracket scan of `extract_balanced_json` from the opening bracket at `i`. */
  method ScanObject(text: string, i: nat) returns (r: Result<Span>)
    requires i < |text| && (text[i] == '{' || text[i] == '[')
    ensures r == match ScanEnd(text, i, text[i], ScanState(0, None, false))
                 case None => Err(Unbalanced)
                 case Some(e) => Ok(Span(text[i..e], e))
  {
    var n := |text|;
    var open := text[i];
    var close := if open == '{' then '}' else ']';
    assert close == CloseOf(open);
    var depth := 0;
    var inStr: Option<char> := None;
    var esc := false;
    var j := i;
    while j < n
      invariant i <= j <= n
      invariant ScanEnd(text, i, open, ScanState(0, None, false)) == ScanEnd(text, j, open, ScanState(depth, inStr, esc))
      decreases n - j
    {
      var ch := text[j];
      ghost var st := ScanState(depth, inStr, esc);
      assert ScanEnd(text, j, open, st) ==
        if Closes(st, ch, open) then Some(j + 1) else ScanEnd(text, j + 1, open, Step(st, ch, open));
      if inStr.Some? {
        if esc {
          esc := false;
        } else if ch == '\\' {
          esc := true;
        } else if ch == inStr.value {
          inStr := None;
        }
      } else {
        if ch == '\'' || ch == '"' {
          inStr := Some(ch);
        } else if ch == open {
          depth := depth + 1;
        } else if ch == close {
          depth := depth - 1;
          if depth == 0 {
            return Ok(Span(text[i..j + 1], j + 1));
          }
        }
      }
      assert !Closes(st, ch, open) && ScanState(depth, inStr, esc) == Step(st, ch, open);
      j := j + 1;
    }
    return Err(Unbalanced);
  }

  /**
   * What comes back is cut from the text: it begins at the first non-space
   * character, which is an opening bracket, and ends with the matching
   * closing bracket at the returned index.
   */
  lemma {:induction false} BalancedJsonShape(text: string, start: nat)
    requires BalancedJson(text, start).Ok?
    ensures var sp := BalancedJson(text, start).value;
      var i := SkipSpace(text, start);
      i < sp.end <= |text| && sp.body == text[i..sp.end] && |sp.body| >= 2
      && (sp.body[0] == '{' || sp.body[0] == '[') && sp.body[|sp.body| - 1] == CloseOf(sp.body[0])
      && forall k :: start <= k < i ==> IsSpace(text[k])
  {
    var i := SkipSpace(text, start);
    var e := ScanEnd(text, i, text[i], ScanState(0, None, false)).value;
    assert !Closes(ScanState(0, None, false), text[i], text[i]);
    assert e != i + 1;
  }

  /** The change in depth over a stretch without quotes. */
  function Net(s: string, open: char): int
    decreases |s|
  {
    if s == [] then 0
    else (if s[0] == open then 1 else if s[0] == CloseOf(open) then -1 else 0) + Net(s[1..], open)
  }

  predicate NoQuotes(s: string)
  {
    forall k :: 0 <= k < |s| ==> !IsQuote(s[k])
  }

  /**
   * On quote-free text the scanner is plain bracket counting: it stops at the
   * first prefix whose net count brings the depth to zero, and finds nothing
   * when no prefix does.
   */
  lemma {:induction false} ScanCountsBrackets(text: string, j: nat, open: char, d: int)
    requires j <= |text| && NoQuotes(text[j..]) && d >= 1 && (open == '{' || open == '[')
    ensures var r := ScanEnd(text, j, open, ScanState(d, None, false));
      (r.Some? ==> d + Net(text[j..r.value], open) == 0
                   && forall k :: j <= k < r.value ==> d + Net(text[j..k], open) >= 1)
      && (r.None? ==> forall k :: j <= k <= |text| ==> d + Net(text[j..k], open) >= 1)
    decreases |text| - j
  {
    var st := ScanState(d, None, false);
    if j < |text| {
      var ch := text[j];
      assert !IsQuote(ch) by { assert text[j..][0] == ch; }
      var delta := if ch == open then 1 else if ch == CloseOf(open) then -1 else 0;
      forall k | j < k <= |text| ensures Net(text[j..k], open) == delta + Net(text[j + 1..k], open) {
        NetFirst(text, j, k, open);
      }
      if Closes(st, ch, open) {
        assert Net(text[j + 1..j + 1], open) == 0;
      } else {
        var st' := Step(st, ch, open);
        assert st' == ScanState(d + delta, None, false);
        assert text[j + 1..] == text[j..][1..];
        if st'.depth >= 1 {
          ScanCountsBrackets(text, j + 1, open, st'.depth);
        } else {
          assert false;
        }
      }
    }
  }

  lemma {:induction false} NetFirst(text: string, j: nat, k: nat, open: char)
    requires j < k <= |text|
    ensures Net(text[j..k], open) == (if text[j] == open then 1 else if text[j] == CloseOf(open) then -1 else 0) + Net(text[j + 1..k], open)
  {
    assert text[j..k][0] == text[j];
    assert text[j..k][1..] == text[j + 1..k];
  }

  /**
   * The body of a quoted literal: characters other than the quote and the
   * backslash, and backslash escapes, each a backslash followed by any one
   * character (the quote included).
   */
  predicate LiteralBody(body: string, q: char)
    decreases |body|
  {
    body == []
    || (body[0] != q && body[0] != '\\' && LiteralBody(body[1..], q))
    || (|body| >= 2 && body[0] == '\\' && LiteralBody(body[2..], q))
  }

  /**
   * A quoted literal leaves the scan exactly as if it were not there: brackets
   * inside strings do not count, and an escaped quote does not end the string.
   */
  lemma {:induction false} QuotedLiteralNeutral(text: string, j: nat, open: char, d: int, body: string, q: char)
    requires IsQuote(q) && (open == '{' || open == '[')
    requires LiteralBody(body, q)
    requires j + |body| + 2 <= |text| && text[j..j + |body| + 2] == [q] + body + [q]
    ensures ScanEnd(text, j, open, ScanState(d, None, false)) == ScanEnd(text, j + |body| + 2, open, ScanState(d, None, false))
  {
    assert text[j] == ([q] + body + [q])[0];
    assert text[j + 1..j + |body| + 2] == text[j..j + |body| + 2][1..];
    assert ([q] + body + [q])[1..] == body + [q];
    InsideLiteral(text, j + 1, open, d, body, q);
  }

  /** Inside a literal, the scan resumes outside it just after the closing quote, at the same depth. */
  lemma {:induction false} InsideLiteral(text: string, p: nat, open: char, d: int, rest: string, q: char)
    requires IsQuote(q) && (open == '{' || open == '[')
    requires LiteralBody(rest, q)
    requires p + |rest| + 1 <= |text| && text[p..p + |rest| + 1] == rest + [q]
    ensures ScanEnd(text, p, open, ScanState(d, Some(q), false)) == ScanEnd(text, p + |rest| + 1, open, ScanState(d, None, false))
    decreases |rest|
  {
    assert text[p] == (rest + [q])[0];
    if rest == [] {
      assert Step(ScanState(d, Some(q), false), text[p], open) == ScanState(d, None, false);
    } else if rest[0] != q && rest[0] != '\\' && LiteralBody(rest[1..], q) {
      assert text[p] == rest[0];
      assert text[p + 1..p + 1 + |rest[1..]| + 1] == text[p..p + |rest| + 1][1..];
      assert (rest + [q])[1..] == rest[1..] + [q];
      InsideLiteral(text, p + 1, open, d, rest[1..], q);
    } else {
      assert text[p] == '\\';
      assert Step(ScanState(d, Some(q), false), text[p], open) == ScanState(d, Some(q), true);
      assert Step(ScanState(d, Some(q), true), text[p + 1], open) == ScanState(d, Some(q), false);
      assert text[p + 2..p + 2 + |rest[2..]| + 1] == text[p..p + |rest| + 1][2..];
      assert (rest + [q])[2..] == rest[2..] + [q];
      InsideLiteral(text, p + 2, open, d, rest[2..], q);
    }
  }

  /** An escaped quote is part of a literal body: `\"` does not close a `"` string. */
  lemma {:induction false} EscapedQuoteInLiteral(q: char, body: string)
    requires LiteralBody(body, q)
    ensures LiteralBody(['\\', q] + body, q)
  {
    assert (['\\', q] + body)[2..] == body;
  }

  // ---- The note URL ----

  predicate IsHexCI(c: char)
  {
    IsDigit(c) || 'a' <= c <= 'f' || 'A' <= c <= 'F'
  }

  /** The longest leading run of hexadecimal digits, either case. */
  function HexRunCI(s: string): (r: string)
    ensures |r| <= |s| && r == s[..|r|]
    ensures forall k :: 0 <= k < |r| ==> IsHexCI(r[k])
    ensures |r| < |s| ==> !IsHexCI(s[|r|])
    decreases |s|
  {
    if s != [] && IsHexCI(s[0]) then [s[0]] + HexRunCI(s[1..]) else []
  }

  const NotePathHttp: string := "http://www.xiaohongshu.com/explore/"
  const NotePathHttps: string := "https://www.xiaohongshu.com/explore/"

  /** `s` starts with the lower-case text `p`, ignoring the case of `s`. */
  predicate PrefixCI(s: string, p: string)
  {
    |p| <= |s| && forall k :: 0 <= k < |p| ==> LowerChar(s[k]) == p[k]
  }

  /** The id captured when `_VALID_URL` matches at position `k` (case-insensitively). */
  function MatchAt(url: string, k: nat): (r: Option<string>)
    requires k <= |url|
    ensures r.Some? ==> r.value != [] && forall i :: 0 <= i < |r.value| ==> IsHexCI(r.value[i])
  {
    var rest := url[k..];
    var p := if PrefixCI(rest, NotePathHttps) then NotePathHttps
             else if PrefixCI(rest, NotePathHttp) then NotePathHttp
             else "";
    if p != "" && |p| < |rest| && IsHexCI(rest[|p|]) then Some(HexRunCI(rest[|p|..])) else None
  }

  /** `_VALID_URL.search(url)`: the id of the leftmost match at or after `k`. */
  function ValidUrlFrom(url: string, k: nat): (r: Option<string>)
    requires k <= |url|
    ensures r.Some? ==> r.value != [] && forall i :: 0 <= i < |r.value| ==> IsHexCI(r.value[i])
    decreases |url| - k
  {
    match MatchAt(url, k)
    case Some(id) => Some(id)
    case None => if k < |url| then ValidUrlFrom(url, k + 1) else None
  }

  function ValidUrlId(url: string): Option<string>
  {
    ValidUrlFrom(url, 0)
  }

  predicate NoUpper(s: string)
  {
    forall k :: 0 <= k < |s| ==> !('A' <= s[k] <= 'Z')
  }

  /** The canonical note link matches at its start. */
  lemma {:induction false} MatchAtCanonical(id: string, rest: string)
    requires id != [] && forall i :: 0 <= i < |id| ==> IsHexCI(id[i])
    requires rest == [] || !IsHexCI(rest[0])
    ensures MatchAt(NotePathHttps + id + rest, 0) == Some(id)
  {
    var url := NotePathHttps + id + rest;
    var p := NotePathHttps;
    assert url[0..] == url;
    assert url[..|p|] == p;
    assert NoUpper(p);
    assert PrefixCI(url, p);
    assert url[|p|] == id[0];
    assert url[|p|..] == id + rest;
    HexRunOfRun(id, rest);
  }

  /** The canonical note link yields its id, in the case it was written. */
  lemma {:induction false} CanonicalNoteUrl(id: string, rest: string)
    requires id != [] && forall i :: 0 <= i < |id| ==> IsHexCI(id[i])
    requires rest == [] || !IsHexCI(rest[0])
    ensures ValidUrlId(NotePathHttps + id + rest) == Some(id)
  {
    MatchAtCanonical(id, rest);
  }

  lemma {:induction false} HexRunOfRun(id: string, rest: string)
    requires forall i :: 0 <= i < |id| ==> IsHexCI(id[i])
    requires rest == [] || !IsHexCI(rest[0])
    ensures HexRunCI(id + rest) == id
    decreases |id|
  {
    if id != [] {
      assert (id + rest)[1..] == id[1..] + rest;
      HexRunOfRun(id[1..], rest);
    } else {
      assert id + rest == rest;
    }
  }

  // ---- Assembly of the result ----

  /** One downloadable rendition; an absent (None) field is left out of the dict. */
  datatype Format = Format(
    url: string,
    fps: Option<int>, width: Option<int>, height: Option<int>,
    vcodec: Option<PyText>, acodec: Option<PyText>,
    abr: Option<int>, vbr: Option<int>, audioChannels: Option<int>, tbr: Option<int>,
    format: Option<PyText>, filesize: Option<int>, duration: Option<real>)

  datatype Thumbnail = Thumbnail(url: string, height: Option<int>, width: Option<int>)

  datatype Info = Info(
    id: string,
    title: Option<string>,
    description: Option<string>,
    uploaderId: Option<string>,
    tags: Option<seq<string>>,
    formats: seq<Format>,
    thumbnails: seq<Thumbnail>)

  const UnsupportedUrl: string := "Unsupported URL. Expected: https://www.xiaohongshu.com/explore/<hexid>"
  const Codecs: seq<string> := ["h264", "av1", "h265"]
  const ThumbKeys: seq<string> := ["urlDefault", "urlPre"]

  predicate IsObject(v: Json)
  {
    v.JObj?
  }

  /**
   * The dict items of a list: exactly the dicts, in list order (each taken
   * from its own position, and every dict position taken).
   */
  function DictsOf(items: seq<Json>): (r: seq<Json>)
    ensures |r| <= |items|
    ensures forall v :: v in r <==> v in items && v.JObj?
    ensures forall k :: 0 <= k < |r| ==> r[k].JObj?
    ensures exists pos: seq<nat> :: Sorting.Positions(items, r, pos) && Sorting.Covers(items, pos, IsObject)
  {
    Sorting.FilterExact(items, IsObject);
    Sorting.FilterKept(items, IsObject);
    Sorting.FilterMembersAll(items, IsObject);
    Sorting.Filter(items, IsObject)
  }

  /** The keys of an object in first-occurrence order, each once: the key order of a Python dict. */
  function DictKeys(members: seq<Member>): (r: seq<string>)
    ensures forall i, j :: 0 <= i < j < |r| ==> r[i] != r[j]
    ensures forall key :: key in r <==> exists i :: 0 <= i < |members| && members[i].key == key
    decreases |members|
  {
    if members == [] then []
    else
      var n := |members| - 1;
      var init := DictKeys(members[..n]);
      assert forall i :: 0 <= i < n ==> members[..n][i] == members[i];
      if members[n].key in init then init else init + [members[n].key]
  }

  /**
   * `d.values()`: one value per key, in dict key order, each the value the key
   * ends up with (the last member with that key, as `json.loads` keeps).
   */
  function DictValues(members: seq<Member>): (r: seq<Json>)
    ensures |r| == |DictKeys(members)|
    ensures forall k :: 0 <= k < |r| ==> Lookup(members, DictKeys(members)[k]) == Some(r[k])
  {
    var keys := DictKeys(members);
    assert forall k :: 0 <= k < |keys| ==> Lookup(members, keys[k]).Some? by {
      forall k | 0 <= k < |keys| ensures Lookup(members, keys[k]).Some? {
        assert keys[k] in keys;
      }
    }
    seq(|keys|, k requires 0 <= k < |keys| => Lookup(members, keys[k]).value)
  }

  /** A repeated key keeps its first place in the order and takes its last value. */
  lemma RepeatedKeyValues()
    ensures DictValues([Member("a", JInt(1)), Member("b", JInt(2)), Member("a", JInt(3))]) == [JInt(3), JInt(2)]
  {
    var ms := [Member("a", JInt(1)), Member("b", JInt(2)), Member("a", JInt(3))];
    assert ms[..1] == [Member("a", JInt(1))];
    assert ms[..2] == [Member("a", JInt(1)), Member("b", JInt(2))];
    assert DictKeys(ms[..1]) == ["a"];
    assert DictKeys(ms[..2]) == ["a", "b"];
    assert DictKeys(ms) == ["a", "b"];
    assert Lookup(ms, "a") == Some(JInt(3));
    assert Lookup(ms[..2], "b") == Some(JInt(2));
    assert Lookup(ms, "b") == Some(JInt(2));
  }

  /** Whether `v` is a stream entry that the dict value `val` gives: a dict of a list, or the dict itself. */
  predicate EntryOf(val: Json, v: Json)
  {
    (val.JObj? && v == val) || (val.JArr? && v in val.items && v.JObj?)
  }

  /** The stream entries of a sequence of dict values: lists contribute their dicts, dicts themselves. */
  function EntriesOf(vals: seq<Json>): (r: seq<Json>)
    ensures forall k :: 0 <= k < |r| ==> r[k].JObj?
    decreases |vals|
  {
    if vals == [] then []
    else
      var v := vals[|vals| - 1];
      EntriesOf(vals[..|vals| - 1]) + (if v.JArr? then DictsOf(v.items) else if v.JObj? then [v] else [])
  }

  /** An entry is collected exactly when one of the values gives it. */
  lemma {:induction false} EntriesOfMembers(vals: seq<Json>, v: Json)
    ensures v in EntriesOf(vals) <==> exists i :: 0 <= i < |vals| && EntryOf(vals[i], v)
    decreases |vals|
  {
    if vals != [] {
      var n := |vals| - 1;
      EntriesOfMembers(vals[..n], v);
      assert forall i :: 0 <= i < n ==> vals[..n][i] == vals[i];
      if exists i :: 0 <= i < |vals| && EntryOf(vals[i], v) {
        var i :| 0 <= i < |vals| && EntryOf(vals[i], v);
        if i == n {
          assert v in (if vals[n].JArr? then DictsOf(vals[n].items) else if vals[n].JObj? then [vals[n]] else []);
        }
      }
    }
  }

  /** The entries of a quality-keyed dict, taken from its values in dict order. */
  function ValueEntries(members: seq<Member>): (r: seq<Json>)
    ensures forall k :: 0 <= k < |r| ==> r[k].JObj?
  {
    EntriesOf(DictValues(members))
  }

  /** The stream entries one codec key contributes: nothing for a falsy or scalar value. */
  function CodecEntries(v: Json): (r: seq<Json>)
    ensures forall k :: 0 <= k < |r| ==> r[k].JObj?
    ensures !Truthy(v) || !(v.JArr? || v.JObj?) ==> r == []
  {
    if !Truthy(v) then []
    else if v.JArr? then DictsOf(v.items)
    else if v.JObj? then ValueEntries(v.members)
    else []
  }

  /**
   * A codec value yields exactly the dicts of a list, or the entries its dict
   * values give.
   */
  lemma {:induction false} CodecEntriesMembers(v: Json, e: Json)
    ensures e in CodecEntries(v) <==>
      (v.JArr? && e in v.items && e.JObj?)
      || (v.JObj? && exists i :: 0 <= i < |DictValues(v.members)| && EntryOf(DictValues(v.members)[i], e))
  {
    if v.JObj? {
      EntriesOfMembers(DictValues(v.members), e);
      if v.members == [] {
        assert DictKeys(v.members) == [];
      }
    }
  }

  /** `video_info`: all entries of h264, then all of av1, then all of h265. */
  function VideoInfos(streams: Json): (r: seq<Json>)
    requires streams.JObj?
    ensures forall k :: 0 <= k < |r| ==> r[k].JObj?
  {
    CodecsUpTo(streams, |Codecs|)
  }

  /** The entries one codec key of the streams contributes. */
  function CodecEntriesOf(streams: Json, codec: string): (r: seq<Json>)
    ensures forall k :: 0 <= k < |r| ==> r[k].JObj?
  {
    CodecEntries(Field(streams, codec))
  }

  /** The entries of the first `c` codecs, in codec order. */
  function CodecsUpTo(streams: Json, c: nat): (r: seq<Json>)
    requires c <= |Codecs|
    ensures forall k :: 0 <= k < |r| ==> r[k].JObj?
  {
    if c == 0 then [] else CodecsUpTo(streams, c - 1) + CodecEntriesOf(streams, Codecs[c - 1])
  }

  /**
   * The entries come codec by codec, h264 then av1 then h265, each codec's
   * entries complete and in their own order.
   */
  lemma VideoInfosOrder(streams: Json)
    requires streams.JObj?
    ensures var r := VideoInfos(streams);
      var a := CodecEntriesOf(streams, "h264");
      var b := CodecEntriesOf(streams, "av1");
      var c := CodecEntriesOf(streams, "h265");
      |r| == |a| + |b| + |c| && r[..|a|] == a && r[|a|..|a| + |b|] == b && r[|a| + |b|..] == c
  {
    var a := CodecEntriesOf(streams, "h264");
    var b := CodecEntriesOf(streams, "av1");
    var c := CodecEntriesOf(streams, "h265");
    assert Codecs[0] == "h264" && Codecs[1] == "av1" && Codecs[2] == "h265";
    assert CodecsUpTo(streams, 1) == [] + a == a;
    assert CodecsUpTo(streams, 2) == a + b;
    assert |Codecs| == 3;
    assert VideoInfos(streams) == CodecsUpTo(streams, 2) + c == a + b + c;
    assert (a + b + c)[..|a|] == a;
    assert (a + b + c)[|a|..|a| + |b|] == b;
    assert (a + b + c)[|a| + |b|..] == c;
  }

  predicate IsUrlValue(v: Json)
  {
    UrlOrNone(v).Some?
  }

  /** The accepted URLs among a list of candidates: the cleaned URL of every accepted candidate, in order. */
  function ValidUrls(items: seq<Json>): (r: seq<string>)
    ensures |r| == |Sorting.Filter(items, IsUrlValue)|
    ensures forall k :: 0 <= k < |r| ==> UrlOrNone(Sorting.Filter(items, IsUrlValue)[k]) == Some(r[k])
    ensures forall k :: 0 <= k < |r| ==> IsHttpUrl(r[k])
    decreases |items|
  {
    if items == [] then []
    else
      var n := |items| - 1;
      var u := UrlOrNone(items[n]);
      var init := ValidUrls(items[..n]);
      var f := Sorting.Filter(items, IsUrlValue);
      assert f == Sorting.Filter(items[..n], IsUrlValue) + (if IsUrlValue(items[n]) then [items[n]] else []);
      init + (if u.Some? then [u.value] else [])
  }

  function Field(info: Json, key: string): Json
  {
    Get(info, key).GetOr(JNull)
  }

  /** `mediaUrl` first, when valid, then each valid entry of `backupUrls`. */
  function UrlsOf(info: Json): (r: seq<string>)
    ensures forall k :: 0 <= k < |r| ==> IsHttpUrl(r[k])
  {
    var u1 := UrlOrNone(Field(info, "mediaUrl"));
    var backups := Field(info, "backupUrls");
    var head := if u1.Some? then [u1.value] else [];
    var tail := if backups.JArr? then ValidUrls(backups.items) else [];
    assert forall k :: 0 <= k < |head| ==> IsHttpUrl(head[k]);
    assert forall k :: 0 <= k < |tail| ==> IsHttpUrl(tail[k]);
    head + tail
  }

  /** `mediaUrl` comes first when it is accepted; the accepted backups follow, all of them. */
  lemma UrlsOfShape(info: Json)
    ensures var r := UrlsOf(info);
      var u1 := UrlOrNone(Field(info, "mediaUrl"));
      var backups := Field(info, "backupUrls");
      var off := if u1.Some? then 1 else 0;
      |r| == off + (if backups.JArr? then |ValidUrls(backups.items)| else 0)
      && (u1.Some? ==> r[0] == u1.value)
      && r[off..] == (if backups.JArr? then ValidUrls(backups.items) else [])
  {
  }


  /**
   * What `str()` gives for a decoded value: the text itself, an integer's
   * decimal digits, "True" or "False"; for a float, list or dict it is
   * Python's repr of the value, kept here as the value.
   */
  datatype PyText = Text(s: string) | ReprOf(v: Json)

  function PyStr(v: Json): (r: PyText)
    ensures v.JStr? ==> r == Text(v.s)
    ensures v.JInt? ==> r == Text(IntToString(v.i))
    ensures v.JBool? ==> r == Text(if v.b then "True" else "False")
    ensures v.JNull? ==> r == Text("None")
    ensures v.JFloat? || v.JArr? || v.JObj? ==> r == ReprOf(v)
  {
    match v
    case JNull => Text("None")
    case JBool(b) => Text(if b then "True" else "False")
    case JInt(i) => Text(IntToString(i))
    case JStr(t) => Text(t)
    case _ => ReprOf(v)
  }

  /** An integer's `str()` text reads back as the integer. */
  lemma PyStrOfIntParses(i: int)
    ensures PyStr(JInt(i)).Text? && ParseInt(PyStr(JInt(i)).s) == Some(i)
  {
    ParseIntOfText(i);
  }

  /** `str(x) if x is not None else None`. */
  function StrOrNone(v: Json): (r: Option<PyText>)
    ensures r.None? <==> v.JNull?
  {
    if v.JNull? then None else Some(PyStr(v))
  }

  /** The rendition with every converted field of the entry; only the URL varies. */
  function FormatWith(info: Json, u: string): Format
  {
    Format(u,
      IntOrNone(Field(info, "fps")), IntOrNone(Field(info, "width")), IntOrNone(Field(info, "height")),
      StrOrNone(Field(info, "videoCodec")), StrOrNone(Field(info, "audioCodec")),
      IntOrNone(Field(info, "audioBitrate")), IntOrNone(Field(info, "videoBitrate")),
      IntOrNone(Field(info, "audioChannels")), IntOrNone(Field(info, "avgBitrate")),
      StrOrNone(Field(info, "qualityType")), IntOrNone(Field(info, "size")),
      FloatOrNone(Field(info, "duration"), 1000.0))
  }

  function FormatsFor(info: Json, urls: seq<string>): (r: seq<Format>)
    ensures |r| == |urls|
    decreases |urls|
  {
    if urls == [] then [] else FormatsFor(info, urls[..|urls| - 1]) + [FormatWith(info, urls[|urls| - 1])]
  }

  /** One rendition per URL, in URL order, each the entry's fields with that URL. */
  lemma {:induction false} FormatsForAt(info: Json, urls: seq<string>)
    ensures forall k :: 0 <= k < |urls| ==> FormatsFor(info, urls)[k] == FormatWith(info, urls[k])
    decreases |urls|
  {
    if urls != [] {
      var n := |urls| - 1;
      FormatsForAt(info, urls[..n]);
      assert FormatsFor(info, urls) == FormatsFor(info, urls[..n]) + [FormatWith(info, urls[n])];
    }
  }

  /** `formats`: one rendition per valid URL of each entry, entries in order. */
  function FormatsOf(infos: seq<Json>): seq<Format>
  {
    Sorting.FlatMap(infos, EntryFormats)
  }

  /** The renditions of one entry: one per valid URL. */
  function EntryFormats(info: Json): seq<Format>
  {
    FormatsFor(info, UrlsOf(info))
  }

  /** One thumbnail per key whose value is a valid URL, in key order, all with the image's size. */
  function ThumbsForKeys(keys: seq<string>, h: Option<int>, w: Option<int>, image: Json): (r: seq<Thumbnail>)
    ensures |r| <= |keys|
    ensures forall k :: 0 <= k < |r| ==> r[k].height == h && r[k].width == w && IsHttpUrl(r[k].url)
    decreases |keys|
  {
    if keys == [] then []
    else
      var tu := UrlOrNone(Field(image, keys[|keys| - 1]));
      ThumbsForKeys(keys[..|keys| - 1], h, w, image) + (if tu.Some? then [Thumbnail(tu.value, h, w)] else [])
  }

  /** The thumbnails of one image: `urlDefault`, then `urlPre`, each when valid. */
  function ThumbsFor(image: Json): (r: seq<Thumbnail>)
    ensures |r| <= 2
  {
    ThumbsForKeys(ThumbKeys, IntOrNone(Field(image, "height")), IntOrNone(Field(image, "width")), image)
  }

  function ThumbsOf(images: seq<Json>): seq<Thumbnail>
    decreases |images|
  {
    if images == [] then []
    else ThumbsOf(images[..|images| - 1]) + (if images[|images| - 1].JObj? then ThumbsFor(images[|images| - 1]) else [])
  }

  predicate HasStringName(t: Json)
  {
    t.JObj? && Field(t, "name").JStr?
  }

  /** The tags: the `name` of every dict entry whose name is a string, in list order. */
  function TagsOf(items: seq<Json>): (r: seq<string>)
    ensures |r| == |Sorting.Filter(items, HasStringName)|
    ensures forall k :: 0 <= k < |r| ==>
      var t := Sorting.Filter(items, HasStringName)[k]; HasStringName(t) && r[k] == Field(t, "name").s
    decreases |items|
  {
    if items == [] then []
    else
      var n := |items| - 1;
      var t := items[n];
      var name := Field(t, "name");
      var f := Sorting.Filter(items, HasStringName);
      assert f == Sorting.Filter(items[..n], HasStringName) + (if HasStringName(t) then [t] else []);
      Sorting.FilterKept(items, HasStringName);
      TagsOf(items[..n]) + (if t.JObj? && name.JStr? then [name.s] else [])
  }

  function StringField(v: Json, key: string): Option<string>
  {
    var f := Field(v, key);
    if f.JStr? then Some(f.s) else None
  }

  /** `note_info`: the note object under the id, or {} when absent or falsy. */
  function NoteInfo(state: Json, id: string): (r: Result<Json>)
  {
    var a :- GetOr(state, "note", JObj([]));
    var b :- GetOr(a, "noteDetailMap", JObj([]));
    var c :- GetOr(b, id, JObj([]));
    var d :- GetOr(c, "note", JNull);
    Ok(if Truthy(d) then d else JObj([]))
  }

  /** `streams`: `note_info.video.media.stream`, or {} when falsy; a non-dict is an AttributeError. */
  function Streams(note: Json): (r: Result<Json>)
    ensures r.Ok? ==> note.JObj? && r.value.JObj?
  {
    var v :- GetOr(note, "video", JObj([]));
    var m :- GetOr(v, "media", JObj([]));
    var s :- GetOr(m, "stream", JObj([]));
    var streams := if Truthy(s) then s else JObj([]);
    if streams.JObj? then Ok(streams) else Err("AttributeError: 'get'")
  }

  /** The title: the note's own when it is non-empty text, else the og:title meta value. */
  function TitleOf(note: Json, ogTitle: Option<string>): (r: Option<string>)
    ensures StringField(note, "title").Some? && StringField(note, "title").value != "" ==> r == StringField(note, "title")
    ensures !(StringField(note, "title").Some? && StringField(note, "title").value != "") ==> r == ogTitle
  {
    var t := StringField(note, "title");
    if t.Some? && t.value != "" then t else ogTitle
  }

  /**
   * `extract`, given the page state `search_json` found (or the error it or
   * the download raised) and the og:title meta value.
   */
  function ExtractSpec(url: string, state: Result<Json>, ogTitle: Option<string>): (r: Result<Info>)
    ensures ValidUrlId(url).None? ==> r == Err(UnsupportedUrl)
    ensures r.Ok? ==> Some(r.value.id) == ValidUrlId(url)
    ensures r.Ok? ==> r.value.tags.None? || r.value.tags.value != []
  {
    match ValidUrlId(url)
    case None => Err(UnsupportedUrl)
    case Some(id) =>
      var st :- state;
      var note :- NoteInfo(st, id);
      var streams :- Streams(note);
      var images := Field(note, "imageList");
      var tagList := Field(note, "tagList");
      var user := Field(note, "user");
      var tags := if tagList.JArr? then TagsOf(tagList.items) else [];
      Ok(Info(id,
        TitleOf(note, ogTitle),
        StringField(note, "desc"),
        if user.JObj? then StringField(user, "userId") else None,
        if tags == [] then None else Some(tags),
        FormatsOf(VideoInfos(streams)),
        if images.JArr? then ThumbsOf(images.items) else []))
  }

  /** Renditions of consecutive entry lists concatenate: each entry contributes on its own. */
  lemma {:induction false} FormatsOfConcat(a: seq<Json>, b: seq<Json>)
    ensures FormatsOf(a + b) == FormatsOf(a) + FormatsOf(b)
    decreases |b|
  {
    Sorting.FlatMapConcat(a, b, EntryFormats);
  }

  /** Every rendition points at an http(s) URL. */
  lemma {:induction false} FormatUrlsValid(infos: seq<Json>)
    ensures forall k :: 0 <= k < |FormatsOf(infos)| ==> IsHttpUrl(FormatsOf(infos)[k].url)
    decreases |infos|
  {
    if infos != [] {
      var init := infos[..|infos| - 1];
      var last := infos[|infos| - 1];
      FormatUrlsValid(init);
      var a := FormatsOf(init);
      var urls := UrlsOf(last);
      var b := FormatsFor(last, urls);
      FormatsForAt(last, urls);
      assert forall k :: 0 <= k < |b| ==> b[k].url == urls[k];
      assert FormatsOf(infos) == a + b;
    }
  }

  /** An entry with a valid `mediaUrl` contributes that URL first, then its backups. */
  lemma {:induction false} MediaUrlFirst(infos: seq<Json>, info: Json)
    requires UrlOrNone(Field(info, "mediaUrl")).Some?
    ensures var f := FormatsOf(infos + [info]);
      |f| > |FormatsOf(infos)| && f[|FormatsOf(infos)|] == FormatWith(info, UrlOrNone(Field(info, "mediaUrl")).value)
  {
    assert (infos + [info])[..|infos + [info]| - 1] == infos;
    FormatsForAt(info, UrlsOf(info));
  }

  // ---- The same assembly as `extract` runs it, loop by loop ----

  method CollectDicts(items: seq<Json>) returns (out: seq<Json>)
    ensures out == DictsOf(items)
  {
    out := [];
    for i := 0 to |items|
      invariant out == Sorting.Filter(items[..i], IsObject)
    {
      assert items[..i + 1][..i] == items[..i];
      if items[i].JObj? {
        out := out + [items[i]];
      }
    }
    assert items[..|items|] == items;
  }

  method CollectCodec(v: Json) returns (out: seq<Json>)
    ensures out == CodecEntries(v)
  {
    if !Truthy(v) {
      return [];
    }
    match v
    case JArr(items) =>
      out := CollectDicts(items);
    case JObj(members) =>
      var vals := DictValues(members);
      out := [];
      for i := 0 to |vals|
        invariant out == EntriesOf(vals[..i])
      {
        assert vals[..i + 1][..i] == vals[..i];
        var vv := vals[i];
        if vv.JArr? {
          var ds := CollectDicts(vv.items);
          out := out + ds;
        } else if vv.JObj? {
          out := out + [vv];
        }
      }
      assert vals[..|vals|] == vals;
    case _ =>
      out := [];
  }

  method CollectVideoInfos(streams: Json) returns (out: seq<Json>)
    requires streams.JObj?
    ensures out == VideoInfos(streams)
  {
    out := [];
    for c := 0 to |Codecs|
      invariant out == CodecsUpTo(streams, c)
    {
      var entries := CollectCodec(Field(streams, Codecs[c]));
      assert entries == CodecEntriesOf(streams, Codecs[c]);
      out := out + entries;
    }
  }

  method CollectBackups(items: seq<Json>) returns (urls: seq<string>)
    ensures urls == ValidUrls(items)
  {
    urls := [];
    for i := 0 to |items|
      invariant urls == ValidUrls(items[..i])
    {
      assert items[..i + 1][..i] == items[..i];
      var buu := UrlOrNone(items[i]);
      if buu.Some? {
        urls := urls + [buu.value];
      }
    }
    assert items[..|items|] == items;
  }

  method CollectUrls(info: Json) returns (urls: seq<string>)
    ensures urls == UrlsOf(info)
  {
    urls := [];
    var u1 := UrlOrNone(Field(info, "mediaUrl"));
    if u1.Some? {
      urls := urls + [u1.value];
    }
    var backups := Field(info, "backupUrls");
    if backups.JArr? {
      var more := CollectBackups(backups.items);
      urls := urls + more;
    }
  }

  method AppendFormats(info: Json, urls: seq<string>) returns (fs: seq<Format>)
    ensures fs == FormatsFor(info, urls)
  {
    fs := [];
    for k := 0 to |urls|
      invariant fs == FormatsFor(info, urls[..k])
    {
      assert urls[..k + 1][..k] == urls[..k];
      fs := fs + [FormatWith(info, urls[k])];
    }
    assert urls[..|urls|] == urls;
  }

  method BuildFormats(infos: seq<Json>) returns (formats: seq<Format>)
    ensures formats == FormatsOf(infos)
  {
    formats := [];
    for i := 0 to |infos|
      invariant formats == FormatsOf(infos[..i])
    {
      assert infos[..i + 1][..i] == infos[..i];
      assert FormatsOf(infos[..i + 1]) == FormatsOf(infos[..i]) + EntryFormats(infos[i]);
      var urls := CollectUrls(infos[i]);
      var fs := AppendFormats(infos[i], urls);
      formats := formats + fs;
    }
    assert infos[..|infos|] == infos;
  }

  method ThumbsOfImage(image: Json) returns (ts: seq<Thumbnail>)
    ensures ts == ThumbsFor(image)
  {
    var h := IntOrNone(Field(image, "height"));
    var w := IntOrNone(Field(image, "width"));
    ts := [];
    for k := 0 to |ThumbKeys|
      invariant ts == ThumbsForKeys(ThumbKeys[..k], h, w, image)
    {
      assert ThumbKeys[..k + 1][..k] == ThumbKeys[..k];
      var tu := UrlOrNone(Field(image, ThumbKeys[k]));
      if tu.Some? {
        ts := ts + [Thumbnail(tu.value, h, w)];
      }
    }
    assert ThumbKeys[..|ThumbKeys|] == ThumbKeys;
  }

  method BuildThumbnails(images: seq<Json>) returns (thumbs: seq<Thumbnail>)
    ensures thumbs == ThumbsOf(images)
  {
    thumbs := [];
    for i := 0 to |images|
      invariant thumbs == ThumbsOf(images[..i])
    {
      assert images[..i + 1][..i] == images[..i];
      if images[i].JObj? {
        var ts := ThumbsOfImage(images[i]);
        thumbs := thumbs + ts;
      }
    }
    assert images[..|images|] == images;
  }

  method CollectTags(items: seq<Json>) returns (tags: seq<string>)
    ensures tags == TagsOf(items)
  {
    tags := [];
    for i := 0 to |items|
      invariant tags == TagsOf(items[..i])
    {
      assert items[..i + 1][..i] == items[..i];
      var t := items[i];
      if t.JObj? && Field(t, "name").JStr? {
        tags := tags + [Field(t, "name").s];
      }
    }
    assert items[..|items|] == items;
  }

  /** `XiaoHongShuExtractor.extract` after the download. */
  method Extract(url: string, state: Result<Json>, ogTitle: Option<string>) returns (r: Result<Info>)
    ensures r == ExtractSpec(url, state, ogTitle)
  {
    var m := ValidUrlId(url);
    if m.None? {
      return Err(UnsupportedUrl);
    }
    var id := m.value;
    if state.Err? {
      return Err(state.error);
    }
    var note := NoteInfo(state.value, id);
    if note.Err? {
      return Err(note.error);
    }
    var streams := Streams(note.value);
    if streams.Err? {
      return Err(streams.error);
    }
    var infos := CollectVideoInfos(streams.value);
    var formats := BuildFormats(infos);
    var images := Field(note.value, "imageList");
    var thumbnails: seq<Thumbnail> := [];
    if images.JArr? {
      thumbnails := BuildThumbnails(images.items);
    }
    var tagList := Field(note.value, "tagList");
    var tags: seq<string> := [];
    if tagList.JArr? {
      tags := CollectTags(tagList.items);
    }
    var user := Field(note.value, "user");
    var uploader := if user.JObj? then StringField(user, "userId") else None;
    r := Ok(Info(id, TitleOf(note.value, ogTitle), StringField(note.value, "desc"), uploader,
                 if tags == [] then None else Some(tags), formats, thumbnails));
  }
}
