/**
 * The deep-research agent (core/researcher.py): the crawl over search results
 * that opens unvisited notes one at a time, the detail record kept for each
 * note, and the per-post comment section of the report prompt. Every page
 * reading (the URL, the note cards, the detail page, the recovery attempt) is
 * an oracle value carried by one `Round` of a finite trace.
 */
module Research {
  import opened Wrappers
  import opened Strings
  import Sorting
  import Settings
  import NoteUrl

  /** The retry budget of rounds that find no unvisited note. */
  const MaxRetryWithoutNewPost: nat := 5

  /** Only the first six cards of a viewport are considered. */
  const CardsPerViewport: nat := 6

  datatype Reply = Reply(user: string, content: string)

  /** A top-level comment as the page script returns it (likes already parsed, 0 when unreadable). */
  datatype Comment = Comment(user: string, content: string, likes: nat, subComments: seq<Reply>)

  /** The record `_extract_content_from_page` builds for one note. */
  datatype Post = Post(
    url: string,
    title: string,
    content: string,
    publishDate: string,
    imageUrls: seq<string>,
    videoUrl: string,
    videoLocalPath: string,
    mediaType: string,
    comments: seq<Comment>,
    asrText: string)

  /**
   * `_extract_content_from_page` from what the page yielded: the media type
   * follows the video URL and at most the comment limit of comments is kept.
   */
  function ExtractDetail(url: string, title: string, content: string, publishDate: string, imageUrls: seq<string>,
                         videoUrl: string, videoLocalPath: string, allComments: seq<Comment>, asrText: string): (p: Post)
    ensures p.mediaType == "video" <==> videoUrl != ""
    ensures p.mediaType == "image" <==> videoUrl == ""
    ensures |p.comments| <= Settings.DeepResearchCommentLimit && |p.comments| <= |allComments| && p.comments == allComments[..|p.comments|]
    ensures |allComments| <= Settings.DeepResearchCommentLimit ==> p.comments == allComments
    ensures p.url == url && p.content == content && p.title == title && p.videoUrl == videoUrl
  {
    Post(url, title, content, publishDate, imageUrls, videoUrl, videoLocalPath,
         if videoUrl != "" then "video" else "image",
         Sorting.Take(allComments, Settings.DeepResearchCommentLimit), asrText)
  }

  /** The environment check: still on a Xiaohongshu search-result page. */
  predicate OnSearchResults(url: string)
  {
    Contains(url, "xiaohongshu.com") && Contains(url, "search_result")
  }

  /** `keyword if keyword else random.choice(SEARCH_KEYWORDS)`. */
  function SearchTerm(keyword: string, pick: nat): (r: string)
    ensures keyword != "" ==> r == keyword
    ensures keyword == "" ==> r in Settings.SearchKeywords
  {
    if keyword != "" then keyword else Settings.SearchKeywords[pick % |Settings.SearchKeywords|]
  }

  // ------------------------------------------------------------ unvisited notes

  /** The id of a card's link (a card without an `href` reads as ""). */
  function CardId(href: Option<string>): string
  {
    NoteUrl.NoteId(href.GetOr(""))
  }

  predicate IsNew(href: Option<string>, visited: set<string>)
  {
    CardId(href) != "" && CardId(href) !in visited
  }

  function FindUnvisitedFrom(cards: seq<Option<string>>, visited: set<string>, from: nat): (r: Option<(nat, string)>)
    requires from <= |cards|
    ensures r.Some? ==> (from <= r.value.0 < |cards| && IsNew(cards[r.value.0], visited)
      && r.value.1 == CardId(cards[r.value.0])
      && forall j :: from <= j < r.value.0 ==> !IsNew(cards[j], visited))
    ensures r.None? ==> forall j :: from <= j < |cards| ==> !IsNew(cards[j], visited)
    decreases |cards| - from
  {
    if from == |cards| then None
    else if IsNew(cards[from], visited) then Some((from, CardId(cards[from])))
    else FindUnvisitedFrom(cards, visited, from + 1)
  }

  /** `_find_unvisited_note`: the first card whose non-empty id has not been visited. */
  function FindUnvisited(cards: seq<Option<string>>, visited: set<string>): Option<(nat, string)>
  {
    FindUnvisitedFrom(cards, visited, 0)
  }

  /** `_find_unvisited_note`, with its loop over the cards. */
  method FindUnvisitedNote(cards: seq<Option<string>>, visited: set<string>) returns (r: Option<(nat, string)>)
    ensures r == FindUnvisited(cards, visited)
  {
    var i := 0;
    while i < |cards|
      invariant 0 <= i <= |cards|
      invariant FindUnvisitedFrom(cards, visited, i) == FindUnvisited(cards, visited)
    {
      var id := NoteUrl.NoteId(if cards[i].Some? then cards[i].value else "");
      if id != "" && id !in visited {
        return Some((i, id));
      }
      i := i + 1;
    }
    return None;
  }

  // ------------------------------------------------------------ the crawl

  /**
   * What one pass of the crawl loop observes: the page URL, whether a
   * recovery would succeed, the note cards before and after the fallback
   * scroll, whether the clicked note's detail page loaded, and the record
   * extracted from it.
   */
  datatype Round = Round(
    url: string,
    recovered: bool,
    cards: seq<Option<string>>,
    cardsAfterScroll: seq<Option<string>>,
    detailLoaded: bool,
    post: Post)

  datatype StopReason = RecoveryFailed | NoNotes | NoNewNotes | LimitReached | TraceEnded

  datatype Crawl = Crawl(data: seq<Post>, processed: nat, consecutive: nat, visited: set<string>, stop: Option<StopReason>)

  function Start(visited: set<string>): Crawl
  {
    Crawl([], 0, 0, visited, None)
  }

  /** The cards this round looks at: the viewport, or the viewport after one scroll when it was empty. */
  function CardsOf(r: Round): seq<Option<string>>
  {
    if r.cards != [] then r.cards else r.cardsAfterScroll
  }

  /** The note this round opens, if it gets that far. */
  function Target(r: Round, visited: set<string>): (t: Option<string>)
    ensures t.Some? ==> t.value != "" && t.value !in visited
  {
    if !OnSearchResults(r.url) || CardsOf(r) == [] then None
    else
      var f := FindUnvisited(Sorting.Take(CardsOf(r), CardsPerViewport), visited);
      if f.Some? then Some(f.value.1) else None
  }

  /** One pass of the `while posts_processed < DEEP_RESEARCH_POST_LIMIT` loop. */
  function Step(c: Crawl, r: Round): (n: Crawl)
    requires c.stop.None?
    ensures Target(r, c.visited).Some? ==>
      n.visited == c.visited + {Target(r, c.visited).value} && n.consecutive == 0 && n.stop.None?
    ensures Target(r, c.visited).None? ==> n.visited == c.visited && n.data == c.data && n.processed == c.processed
    ensures n.data == c.data || (n.data == c.data + [r.post] && r.post.content != "" && r.detailLoaded)
    ensures n.processed == c.processed + (if n.data == c.data then 0 else 1)
  {
    if !OnSearchResults(r.url) then
      if r.recovered then c else c.(stop := Some(RecoveryFailed))
    else if CardsOf(r) == [] then c.(stop := Some(NoNotes))
    else
      var t := Target(r, c.visited);
      if t.None? then
        var misses := c.consecutive + 1;
        if misses >= MaxRetryWithoutNewPost then c.(consecutive := misses, stop := Some(NoNewNotes))
        else c.(consecutive := misses)
      else
        var entered := c.(consecutive := 0, visited := c.visited + {t.value});
        if r.detailLoaded && r.post.content != "" then entered.(data := c.data + [r.post], processed := c.processed + 1)
        else entered
  }

  /** The loop from round `i` on: it stops at the post limit, on a stop reason, or when the trace runs out. */
  function Run(c: Crawl, rounds: seq<Round>, i: nat): Crawl
    requires i <= |rounds|
    decreases |rounds| - i, if c.stop.None? then 1 else 0
  {
    if c.stop.Some? then c
    else if c.processed >= Settings.DeepResearchPostLimit then c.(stop := Some(LimitReached))
    else if i == |rounds| then c.(stop := Some(TraceEnded))
    else Run(Step(c, rounds[i]), rounds, i + 1)
  }

  /** The crawl's bookkeeping: one count per collected post, each with content, and the retry counter. */
  predicate Sound(c: Crawl)
  {
    c.processed == |c.data| && c.processed <= Settings.DeepResearchPostLimit
    && (forall k :: 0 <= k < |c.data| ==> c.data[k].content != "")
    && (c.stop == Some(NoNewNotes) ==> c.consecutive == MaxRetryWithoutNewPost)
    && (c.stop != Some(NoNewNotes) ==> c.consecutive < MaxRetryWithoutNewPost)
  }

  lemma {:induction false} StepSound(c: Crawl, r: Round)
    requires Sound(c) && c.stop.None? && c.processed < Settings.DeepResearchPostLimit
    ensures Sound(Step(c, r))
  {
  }

  /**
   * Whatever the pages show, the crawl ends with a reason, never collects more
   * than the post limit, keeps only posts with content in the order they were
   * opened, and never forgets a visited note.
   */
  lemma {:induction false} RunSound(c: Crawl, rounds: seq<Round>, i: nat)
    requires i <= |rounds| && Sound(c)
    ensures Sound(Run(c, rounds, i))
    ensures Run(c, rounds, i).stop.Some?
    ensures c.visited <= Run(c, rounds, i).visited
    ensures c.data <= Run(c, rounds, i).data
    decreases |rounds| - i, if c.stop.None? then 1 else 0
  {
    if c.stop.Some? {
    } else if c.processed >= Settings.DeepResearchPostLimit {
    } else if i == |rounds| {
    } else {
      StepSound(c, rounds[i]);
      RunSound(Step(c, rounds[i]), rounds, i + 1);
    }
  }

  /** The ids of the notes the loop opens from round `i` on, in order. */
  function OpenedIds(c: Crawl, rounds: seq<Round>, i: nat): seq<string>
    requires i <= |rounds|
    decreases |rounds| - i
  {
    if c.stop.Some? || c.processed >= Settings.DeepResearchPostLimit || i == |rounds| then []
    else
      var t := Target(rounds[i], c.visited);
      (if t.Some? then [t.value] else []) + OpenedIds(Step(c, rounds[i]), rounds, i + 1)
  }

  /**
   * Each note is marked visited as it is opened, so one crawl opens no note
   * twice, none that an earlier crawl visited, and every opened one ends up visited.
   */
  lemma {:induction false} OpenedOnce(c: Crawl, rounds: seq<Round>, i: nat)
    requires i <= |rounds|
    ensures forall a, b :: 0 <= a < b < |OpenedIds(c, rounds, i)| ==> OpenedIds(c, rounds, i)[a] != OpenedIds(c, rounds, i)[b]
    ensures forall a :: 0 <= a < |OpenedIds(c, rounds, i)| ==> OpenedIds(c, rounds, i)[a] !in c.visited
    ensures forall a :: 0 <= a < |OpenedIds(c, rounds, i)| ==> OpenedIds(c, rounds, i)[a] in Run(c, rounds, i).visited
    decreases |rounds| - i
  {
    if c.stop.None? && c.processed < Settings.DeepResearchPostLimit && i < |rounds| {
      var t := Target(rounds[i], c.visited);
      var n := Step(c, rounds[i]);
      OpenedOnce(n, rounds, i + 1);
      var rest := OpenedIds(n, rounds, i + 1);
      RunVisitedGrows(n, rounds, i + 1);
      assert Run(c, rounds, i) == Run(n, rounds, i + 1);
      if t.Some? {
        assert OpenedIds(c, rounds, i) == [t.value] + rest;
        assert n.visited == c.visited + {t.value};
        FreshCons(t.value, rest, c.visited, Run(c, rounds, i).visited);
      } else {
        assert OpenedIds(c, rounds, i) == rest;
      }
    }
  }

  /** A fresh id in front of distinct ids that were fresh after it was visited. */
  lemma {:induction false} FreshCons(x: string, rest: seq<string>, before: set<string>, after: set<string>)
    requires x !in before && before + {x} <= after
    requires forall a, b :: 0 <= a < b < |rest| ==> rest[a] != rest[b]
    requires forall a :: 0 <= a < |rest| ==> rest[a] !in before + {x} && rest[a] in after
    ensures var ids := [x] + rest;
      (forall a, b :: 0 <= a < b < |ids| ==> ids[a] != ids[b])
      && (forall a :: 0 <= a < |ids| ==> ids[a] !in before && ids[a] in after)
  {
    var ids := [x] + rest;
    assert forall a :: 1 <= a < |ids| ==> ids[a] == rest[a - 1];
  }

  lemma {:induction false} RunVisitedGrows(c: Crawl, rounds: seq<Round>, i: nat)
    requires i <= |rounds|
    ensures c.visited <= Run(c, rounds, i).visited
    decreases |rounds| - i, if c.stop.None? then 1 else 0
  {
    if c.stop.None? && c.processed < Settings.DeepResearchPostLimit && i < |rounds| {
      RunVisitedGrows(Step(c, rounds[i]), rounds, i + 1);
    }
  }

  /** The research agent; `visited_note_ids` outlives a single crawl. */
  class ResearchAgent {
    var visited: set<string>

    constructor ()
      ensures visited == {}
    {
      visited := {};
    }

    /**
     * The crawl loop of `run_deep_research` over a finite trace of rounds:
     * it returns the collected posts and why it stopped.
     */
    method RunDeepResearch(rounds: seq<Round>) returns (data: seq<Post>, stop: StopReason)
      modifies this
      ensures var final := Run(Start(old(visited)), rounds, 0);
        data == final.data && Some(stop) == final.stop && visited == final.visited
      ensures |data| <= Settings.DeepResearchPostLimit
      ensures forall k :: 0 <= k < |data| ==> data[k].content != ""
      ensures old(visited) <= visited
    {
      var c := Start(visited);
      RunSound(c, rounds, 0);
      var i := 0;
      var postsProcessed := 0;
      var consecutiveNoNewPosts := 0;
      data := [];
      while postsProcessed < Settings.DeepResearchPostLimit && i < |rounds|
        invariant 0 <= i <= |rounds|
        invariant c.stop.None? && Sound(c)
        invariant c.data == data && c.processed == postsProcessed && c.consecutive == consecutiveNoNewPosts
        invariant c.visited == visited
        invariant Run(c, rounds, i) == Run(Start(old(visited)), rounds, 0)
        decreases |rounds| - i
      {
        var r := rounds[i];
        StepSound(c, r);
        var next := Step(c, r);
        i := i + 1;
        if !OnSearchResults(r.url) {
          if !r.recovered {
            return data, RecoveryFailed;
          }
          continue;
        }
        var cards := r.cards;
        if cards == [] {
          cards := r.cardsAfterScroll;
          if cards == [] {
            return data, NoNotes;
          }
        }
        var found := FindUnvisitedNote(Sorting.Take(cards, CardsPerViewport), visited);
        if found.None? {
          consecutiveNoNewPosts := consecutiveNoNewPosts + 1;
          if consecutiveNoNewPosts >= MaxRetryWithoutNewPost {
            return data, NoNewNotes;
          }
          c := next;
          continue;
        }
        consecutiveNoNewPosts := 0;
        visited := visited + {found.value.1};
        if r.detailLoaded && r.post.content != "" {
          data := data + [r.post];
          postsProcessed := postsProcessed + 1;
        }
        c := next;
      }
      if postsProcessed >= Settings.DeepResearchPostLimit {
        return data, LimitReached;
      }
      return data, TraceEnded;
    }
  }

  // ------------------------------------------------------------ the report prompt

  /** Replies shown under one comment. */
  const RepliesShown: nat := 3

  /** The prompt pieces for one comment: its number, author, likes when positive, text and up to three replies. */
  function CommentParts(index: nat, c: Comment): (r: seq<string>)
    ensures |r| == 2 + (if c.likes > 0 then 1 else 0) + |Sorting.Take(c.subComments, RepliesShown)|
    ensures r[0] == NatToString(index) + ". **" + c.user + "**"
    ensures c.likes > 0 ==> r[1] == " (👍 " + NatToString(c.likes) + ")"
    ensures var body := if c.likes > 0 then 2 else 1;
      r[body] == ": " + c.content + "\n"
      && forall k :: 0 <= k < |r| - body - 1 ==> r[body + 1 + k] == ReplyLine(c.subComments[k])
  {
    [NatToString(index) + ". **" + c.user + "**"]
    + (if c.likes > 0 then [" (👍 " + NatToString(c.likes) + ")"] else [])
    + [": " + c.content + "\n"]
    + ReplyLines(Sorting.Take(c.subComments, RepliesShown))
  }

  function ReplyLine(s: Reply): string
  {
    "   └─ **" + s.user + "**: " + s.content + "\n"
  }

  function ReplyLines(rs: seq<Reply>): (r: seq<string>)
    ensures |r| == |rs| && forall k :: 0 <= k < |rs| ==> r[k] == ReplyLine(rs[k])
    decreases |rs|
  {
    if rs == [] then [] else ReplyLines(rs[..|rs| - 1]) + [ReplyLine(rs[|rs| - 1])]
  }

  /** The per-comment blocks of a post's comment section, numbered from one, for the first `limit` comments. */
  function CommentBlocks(comments: seq<Comment>, n: nat): (r: seq<seq<string>>)
    requires n <= |comments|
    ensures |r| == n && forall k :: 0 <= k < n ==> r[k] == CommentParts(k + 1, comments[k])
    decreases n
  {
    if n == 0 then [] else CommentBlocks(comments, n - 1) + [CommentParts(n, comments[n - 1])]
  }

  function Flatten(blocks: seq<seq<string>>): seq<string>
    decreases |blocks|
  {
    if blocks == [] then [] else Flatten(blocks[..|blocks| - 1]) + blocks[|blocks| - 1]
  }

  /**
   * The comment section of one post in `_prepare_llm_prompt`: a heading that
   * counts every stored comment, then the blocks of at most the comment limit
   * of them, or a "no comments" line.
   */
  function CommentSection(comments: seq<Comment>): seq<string>
  {
    if comments == [] then ["**评论区**: 无评论\n\n"]
    else
      var shown := |Sorting.Take(comments, Settings.DeepResearchCommentLimit)|;
      ["**评论区 (" + NatToString(|comments|) + " 条)**：\n"] + Flatten(CommentBlocks(comments, shown)) + ["\n"]
  }

  /** The shown comments are exactly the first `min(|comments|, limit)` ones, in order and numbered from one. */
  lemma {:induction false} SectionShowsLeadingComments(comments: seq<Comment>)
    requires comments != []
    ensures var shown := |Sorting.Take(comments, Settings.DeepResearchCommentLimit)|;
      shown <= Settings.DeepResearchCommentLimit && shown <= |comments|
      && CommentSection(comments)
         == ["**评论区 (" + NatToString(|comments|) + " 条)**：\n"] + Flatten(CommentBlocks(comments, shown)) + ["\n"]
      && (|comments| > Settings.DeepResearchCommentLimit ==> shown == Settings.DeepResearchCommentLimit)
  {
  }

  lemma {:induction false} FlattenAppend(blocks: seq<seq<string>>, b: seq<string>)
    ensures Flatten(blocks + [b]) == Flatten(blocks) + b
  {
    assert (blocks + [b])[..|blocks|] == blocks;
  }

  /** The pieces one comment contributes, appended in the order of the source. */
  method CommentPiece(index: nat, c: Comment) returns (piece: seq<string>)
    ensures piece == CommentParts(index, c)
  {
    piece := [NatToString(index) + ". **" + c.user + "**"];
    if c.likes > 0 {
      piece := piece + [" (👍 " + NatToString(c.likes) + ")"];
    }
    piece := piece + [": " + c.content + "\n"];
    var subs := Sorting.Take(c.subComments, RepliesShown);
    var replies: seq<string> := [];
    for k := 0 to |subs|
      invariant replies == ReplyLines(subs[..k])
    {
      assert subs[..k + 1][..k] == subs[..k];
      replies := replies + [ReplyLine(subs[k])];
    }
    assert subs[..|subs|] == subs;
    piece := piece + replies;
  }

  /** The comment-section loop of `_prepare_llm_prompt`, appending piece by piece. */
  method BuildCommentSection(comments: seq<Comment>) returns (parts: seq<string>)
    ensures parts == CommentSection(comments)
  {
    if comments == [] {
      return ["**评论区**: 无评论\n\n"];
    }
    var shown := Sorting.Take(comments, Settings.DeepResearchCommentLimit);
    var body: seq<string> := [];
    for idx := 0 to |shown|
      invariant body == Flatten(CommentBlocks(comments, idx))
    {
      var piece := CommentPiece(idx + 1, shown[idx]);
      FlattenAppend(CommentBlocks(comments, idx), piece);
      body := body + piece;
    }
    parts := ["**评论区 (" + NatToString(|comments|) + " 条)**：\n"] + body + ["\n"];
  }
}
