/**
 * The note id carried by a Xiaohongshu note link: the first capture of the
 * regex `/explore/([a-f0-9]+)` searched anywhere in the URL, or "" when the
 * pattern does not occur (core/knowledge_base.py, core/researcher.py).
 */
module NoteUrl {
  import opened Strings

  const ExplorePath: string := "/explore/"

  /** One character of the class `[a-f0-9]`. */
  predicate IsLowerHex(c: char)
  {
    '0' <= c <= '9' || 'a' <= c <= 'f'
  }

  predicate AllLowerHex(s: string)
  {
    forall i :: 0 <= i < |s| ==> IsLowerHex(s[i])
  }

  /** The greedy `[a-f0-9]+` run at the start of `s`. */
  function HexRun(s: string): (r: string)
    ensures |r| <= |s| && r == s[..|r|]
    ensures AllLowerHex(r)
    ensures |r| < |s| ==> !IsLowerHex(s[|r|])
    decreases |s|
  {
    if s == [] || !IsLowerHex(s[0]) then [] else [s[0]] + HexRun(s[1..])
  }

  /** `re.search(r'/explore/([a-f0-9]+)', url)`: group 1 of the leftmost match, or "". */
  function NoteId(url: string): (r: string)
    ensures AllLowerHex(r) && |r| <= |url|
    decreases |url|
  {
    if url == [] then ""
    else if StartsWith(url, ExplorePath) && |url| > 9 && IsLowerHex(url[9]) then HexRun(url[9..])
    else NoteId(url[1..])
  }

  /** A non-empty id is a lower-case hex run that follows `/explore/` somewhere in the URL. */
  lemma {:induction false} NoteIdOccurs(url: string)
    ensures NoteId(url) == "" || (AllLowerHex(NoteId(url)) && Contains(url, ExplorePath + NoteId(url)))
    decreases |url|
  {
    if url != [] {
      if StartsWith(url, ExplorePath) && |url| > 9 && IsLowerHex(url[9]) {
        var r := HexRun(url[9..]);
        assert url[..9] == ExplorePath;
        assert r == url[9..9 + |r|];
        assert url[..9 + |r|] == url[..9] + url[9..9 + |r|];
        assert StartsWith(url, ExplorePath + r);
      } else {
        NoteIdOccurs(url[1..]);
      }
    }
  }

  /** The regex matches at position `k`: `/explore/` starts there and a hex character follows it. */
  predicate MatchAt(url: string, k: nat)
  {
    k + 9 < |url| && StartsWith(url[k..], ExplorePath) && IsLowerHex(url[k + 9])
  }

  /** Dropping the first character moves every match one position to the left. */
  lemma {:induction false} MatchShift(url: string, j: nat)
    requires url != []
    ensures MatchAt(url[1..], j) <==> MatchAt(url, j + 1)
  {
    if j + 1 <= |url| {
      assert url[1..][j..] == url[j + 1..];
    }
    if j + 10 < |url| {
      assert url[1..][j + 9] == url[j + 10];
    }
  }

  /** With the leftmost match at `k`, the id is the hex run after its `/explore/`. */
  lemma {:induction false} NoteIdFirstMatch(url: string, k: nat)
    requires MatchAt(url, k) && forall j :: 0 <= j < k ==> !MatchAt(url, j)
    ensures NoteId(url) == HexRun(url[k + 9..]) && NoteId(url) != ""
    decreases k
  {
    assert url[0..] == url;
    if k > 0 {
      assert !MatchAt(url, 0);
      MatchShift(url, k - 1);
      forall j | 0 <= j < k - 1 ensures !MatchAt(url[1..], j) {
        MatchShift(url, j);
      }
      NoteIdFirstMatch(url[1..], k - 1);
      assert url[1..][k - 1 + 9..] == url[k + 9..];
    }
  }

  /** A URL where the regex matches nowhere has the empty id. */
  lemma {:induction false} NoMatchNoId(url: string)
    requires forall j :: 0 <= j < |url| ==> !MatchAt(url, j)
    ensures NoteId(url) == ""
    decreases |url|
  {
    if url != [] {
      assert url[0..] == url;
      assert !MatchAt(url, 0);
      forall j | 0 <= j < |url| - 1 ensures !MatchAt(url[1..], j) {
        MatchShift(url, j);
      }
      NoMatchNoId(url[1..]);
    }
  }

  /**
   * `re.search` finds an id exactly when the pattern occurs somewhere in the
   * URL, and then it is the hex run of the leftmost occurrence.
   */
  lemma {:induction false} NoteIdIff(url: string)
    ensures NoteId(url) != "" <==> exists k :: 0 <= k < |url| && MatchAt(url, k)
    ensures forall k :: 0 <= k < |url| && MatchAt(url, k) && (forall j :: 0 <= j < k ==> !MatchAt(url, j)) ==>
      NoteId(url) == HexRun(url[k + 9..])
  {
    if exists k :: 0 <= k < |url| && MatchAt(url, k) {
      var k :| 0 <= k < |url| && MatchAt(url, k);
      var first := LeftmostMatch(url, k);
      NoteIdFirstMatch(url, first);
    } else {
      NoMatchNoId(url);
    }
    forall k | 0 <= k < |url| && MatchAt(url, k) && (forall j :: 0 <= j < k ==> !MatchAt(url, j))
      ensures NoteId(url) == HexRun(url[k + 9..])
    {
      NoteIdFirstMatch(url, k);
    }
  }

  /** The leftmost of the matches at or before `k`. */
  ghost function LeftmostMatch(url: string, k: nat): (r: nat)
    requires MatchAt(url, k)
    ensures r <= k && MatchAt(url, r) && forall j :: 0 <= j < r ==> !MatchAt(url, j)
    decreases k
  {
    if k == 0 then 0
    else if exists j :: 0 <= j < k && MatchAt(url, j) then
      var j :| 0 <= j < k && MatchAt(url, j);
      LeftmostMatch(url, j)
    else k
  }

  /**
   * A full link `<prefix>/explore/<id><rest>` yields exactly `<id>` when the
   * regex does not match earlier in the prefix and `<rest>` does not continue
   * the hex run: `https://www.xiaohongshu.com/explore/<id>?...` included.
   */
  lemma {:induction false} ExploreLinkId(prefix: string, id: string, rest: string)
    requires id != [] && AllLowerHex(id)
    requires rest == [] || !IsLowerHex(rest[0])
    requires forall j :: 0 <= j < |prefix| ==> !MatchAt(prefix + ExplorePath + id + rest, j)
    ensures NoteId(prefix + ExplorePath + id + rest) == id
  {
    var url := prefix + ExplorePath + id + rest;
    var k := |prefix|;
    assert url[k..] == ExplorePath + id + rest;
    assert url[k + 9..] == id + rest;
    assert url[k + 9] == id[0];
    NoteIdFirstMatch(url, k);
    HexRunPrefix(id, rest);
  }

  lemma {:induction false} HexRunPrefix(id: string, rest: string)
    requires AllLowerHex(id)
    requires rest == [] || !IsLowerHex(rest[0])
    ensures HexRun(id + rest) == id
    decreases |id|
  {
    if id == [] {
      assert id + rest == rest;
    } else {
      assert (id + rest)[1..] == id[1..] + rest;
      HexRunPrefix(id[1..], rest);
    }
  }

  /** A URL without the `/explore/` path has no note id. */
  lemma {:induction false} NoExplorePathNoId(url: string)
    requires !Contains(url, ExplorePath)
    ensures NoteId(url) == ""
    decreases |url|
  {
    if url != [] {
      NoExplorePathNoId(url[1..]);
    }
  }
}
