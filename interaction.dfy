/**
 * One consumption cycle of the browsing agent (actions/interaction.py): search
 * rotation, locating and opening a note, then a lazy or a deep interaction. The
 * browser is an oracle (`CycleWorld`); the visible effects of a cycle are
 * returned as a list of `Effect`s in the order they happen.
 */
module Interaction {
  import opened Wrappers
  import opened Strings
  import opened Settings
  import LlmClient
  import KnowledgeStore
  import NoteUrl

  /** What the page, the model and the random draws of one cycle turn out to be. */
  datatype CycleWorld = CycleWorld(
    urlAtCheck: string,
    firstLocate: nat,
    secondLocate: nat,
    pick: nat,
    detailOpened: bool,
    title: string,
    content: string,
    thinkRoll: real,
    analysis: LlmClient.Analysis,
    detailUrl: string,
    likeRoll: real,
    collectRoll: real,
    commentRoll: real,
    loginMaskVisible: bool)

  datatype Effect =
    | Searched(keyword: string)
    | ScrolledForNotes
    | Opened(index: nat)
    | Escaped
    | Thought
    | Saved(title: string)
    | Liked
    | Collected
    | Commented(text: string)
    | Closed

  datatype CycleOutcome = Completed | DetailTimeout | Raised(message: string)

  predicate IsEngagement(e: Effect)
  {
    e.Liked? || e.Collected? || e.Commented?
  }

  /** `_lazy_mode_interact`: random like and collect at the lower rates, nothing else. */
  function LazyEffects(likeRoll: real, collectRoll: real): (r: seq<Effect>)
  {
    (if likeRoll < ProbLazyLike then [Liked] else []) + (if collectRoll < ProbLazyCollect then [Collected] else [])
  }

  /**
   * `_post_comment`'s guard behind the gates of `_deep_mode_interact`: the
   * model wants to comment, the roll passes, the login mask is not showing, and
   * the text is not empty.
   */
  function CommentPosted(analysis: LlmClient.Analysis, commentRoll: real, loginMaskVisible: bool): (r: Option<string>)
  {
    if analysis.shouldComment == Some(true) && commentRoll < ProbPostComment && !loginMaskVisible
       && analysis.commentText.Some? && analysis.commentText.value != ""
    then Some(analysis.commentText.value)
    else None
  }

  /** The engagement of a relevant post in deep mode, after it has been saved. */
  function DeepEngagement(w: CycleWorld): (r: seq<Effect>)
  {
    (if w.likeRoll < ProbLike then [Liked] else [])
    + (if w.collectRoll < ProbCollect then [Collected] else [])
    + (match CommentPosted(w.analysis, w.commentRoll, w.loginMaskVisible)
       case None => []
       case Some(t) => [Commented(t)])
  }

  /** The effects of `_deep_mode_interact`: thinking, then for a relevant post the save and the engagement. */
  function DeepEffects(w: CycleWorld): (r: seq<Effect>)
  {
    if LlmClient.IsRelevant(w.analysis) then [Thought, Saved(w.title)] + DeepEngagement(w) else [Thought]
  }

  /** The record deep mode saves for the opened post (an image note without media or comments). */
  function SavedRecord(w: CycleWorld, now: int): KnowledgeStore.Entry
  {
    KnowledgeStore.NewRecord(w.title, w.content, w.analysis, w.detailUrl, [], "", "", "image", [], now)
  }

  /** The knowledge base after deep mode: saved into exactly when the post is relevant. */
  function DeepStore(s: KnowledgeStore.StoreState, w: CycleWorld, maxSize: nat, interval: int, now: int, writeOk: bool)
    : (r: KnowledgeStore.StoreState)
    ensures !LlmClient.IsRelevant(w.analysis) ==> r == s
    ensures LlmClient.IsRelevant(w.analysis) && !KnowledgeStore.IsDuplicate(s.persisted, NoteUrl.NoteId(w.detailUrl), w.title) ==>
      r.persisted + r.buffer == s.persisted + s.buffer + [SavedRecord(w, now)]
  {
    if LlmClient.IsRelevant(w.analysis) then KnowledgeStore.AfterSave(s, SavedRecord(w, now), maxSize, interval, now, writeOk)
    else s
  }

  /** The effects of `_smart_interact`: lazy or deep, then closing the detail view. */
  function InteractEffects(w: CycleWorld): (r: seq<Effect>)
  {
    (if w.thinkRoll < ProbTriggerThinking then DeepEffects(w) else LazyEffects(w.likeRoll, w.collectRoll)) + [Closed]
  }

  /** The knowledge base after `_smart_interact`: only the thinking branch may save. */
  function InteractStore(s: KnowledgeStore.StoreState, w: CycleWorld, maxSize: nat, interval: int, now: int, writeOk: bool)
    : (r: KnowledgeStore.StoreState)
    ensures !(w.thinkRoll < ProbTriggerThinking) || !LlmClient.IsRelevant(w.analysis) ==> r == s
  {
    if w.thinkRoll < ProbTriggerThinking then DeepStore(s, w, maxSize, interval, now, writeOk) else s
  }

  /** Lazy mode never consults the model, never saves and never comments. */
  lemma {:induction false} LazyNeverThinks(likeRoll: real, collectRoll: real)
    ensures forall k :: 0 <= k < |LazyEffects(likeRoll, collectRoll)| ==>
      var e := LazyEffects(likeRoll, collectRoll)[k]; e.Liked? || e.Collected?
    ensures |LazyEffects(likeRoll, collectRoll)| <= 2
  {
  }

  /** A comment is posted only through all three gates, and never empty. */
  lemma {:induction false} CommentGates(w: CycleWorld, t: string)
    requires Commented(t) in DeepEngagement(w)
    ensures w.analysis.shouldComment == Some(true) && w.commentRoll < ProbPostComment && !w.loginMaskVisible
    ensures t != "" && w.analysis.commentText == Some(t)
  {
  }

  predicate NotesFound(w: CycleWorld)
  {
    w.firstLocate > 0 || w.secondLocate > 0
  }

  /** `random.choice(notes[:4])`: the card picked among the first four located. */
  function OpenedIndex(w: CycleWorld): nat
    requires NotesFound(w)
  {
    var found := if w.firstLocate > 0 then w.firstLocate else w.secondLocate;
    w.pick % (if found < 4 then found else 4)
  }

  /**
   * The effects of `execute_one_cycle` after the optional search (`search`):
   * nothing more when the page left the site, one scroll when the first look
   * finds no card, then the opened card and either the escape of a timed-out
   * detail view or the interaction.
   */
  function CycleEffects(w: CycleWorld, search: seq<Effect>): (r: seq<Effect>)
    ensures |search| <= |r| && r[..|search|] == search
  {
    if !Contains(w.urlAtCheck, "xiaohongshu.com") then search
    else
      var scrolled := if w.firstLocate == 0 then [ScrolledForNotes] else [];
      if !NotesFound(w) then search + scrolled
      else search + scrolled + [Opened(OpenedIndex(w))] + (if w.detailOpened then InteractEffects(w) else [Escaped])
  }

  /** The opened card is always one of the first four that were located. */
  lemma {:induction false} OpenedAmongFirstFour(w: CycleWorld)
    requires NotesFound(w)
    ensures OpenedIndex(w) < 4
    ensures w.firstLocate > 0 ==> OpenedIndex(w) < w.firstLocate
    ensures w.firstLocate == 0 ==> OpenedIndex(w) < w.secondLocate
  {
  }

  /** The RuntimeError message a cycle raises, if it raises. */
  function CycleError(w: CycleWorld): (r: Option<string>)
    ensures r.Some? <==> !Contains(w.urlAtCheck, "xiaohongshu.com") || !NotesFound(w)
  {
    if !Contains(w.urlAtCheck, "xiaohongshu.com") then Some("环境偏离: " + w.urlAtCheck)
    else if !NotesFound(w) then Some("视觉丢失: 未检测到笔记")
    else None
  }

  /** A new search before the first post and after every `searchInterval` posts. */
  predicate RotationDueAt(postsProcessed: nat, searchInterval: nat)
  {
    postsProcessed == 0 || (searchInterval > 0 && postsProcessed % searchInterval == 0)
  }

  class ActionExecutor {
    var postsProcessedCount: nat
    var currentKeywordIndex: nat
    const searchInterval: nat
    const kb: KnowledgeStore.KnowledgeBase

    ghost predicate Valid()
      reads this, kb
    {
      ValidSearchInterval(searchInterval) && kb.Valid()
    }

    constructor (store: KnowledgeStore.KnowledgeBase, interval: nat)
      requires ValidSearchInterval(interval) && store.Valid()
      ensures Valid() && kb == store && searchInterval == interval
      ensures postsProcessedCount == 0 && currentKeywordIndex == 0
    {
      kb := store;
      searchInterval := interval;
      postsProcessedCount := 0;
      currentKeywordIndex := 0;
    }

    /** Whether this cycle starts with a new search. */
    predicate RotationDue()
      reads this
    {
      RotationDueAt(postsProcessedCount, searchInterval)
    }

    /** `_rotate_search`: the next keyword round-robin. */
    method RotateSearch() returns (keyword: string)
      modifies this`currentKeywordIndex
      ensures keyword == SearchKeywords[old(currentKeywordIndex) % |SearchKeywords|]
      ensures currentKeywordIndex == old(currentKeywordIndex) + 1
    {
      keyword := SearchKeywords[currentKeywordIndex % |SearchKeywords|];
      currentKeywordIndex := currentKeywordIndex + 1;
    }

    /**
     * `_deep_mode_interact`: consult the model; stop on an irrelevant post;
     * otherwise save the post to the knowledge base before any engagement.
     */
    method DeepModeInteract(w: CycleWorld, now: int, writeOk: bool) returns (effects: seq<Effect>)
      requires Valid()
      modifies kb
      ensures Valid()
      ensures !LlmClient.IsRelevant(w.analysis) ==> effects == [Thought] && unchanged(kb)
      ensures LlmClient.IsRelevant(w.analysis) ==> effects == [Thought, Saved(w.title)] + DeepEngagement(w)
      ensures effects == DeepEffects(w)
      ensures kb.State() == DeepStore(old(kb.State()), w, kb.bufferMaxSize, kb.flushInterval, now, writeOk)
    {
      effects := [Thought];
      if !LlmClient.IsRelevant(w.analysis) {
        return;
      }
      kb.SaveInspiration(w.title, w.content, w.analysis, w.detailUrl, [], "", "", "image", [], now, writeOk);
      effects := effects + [Saved(w.title)] + DeepEngagement(w);
    }

    /** `_smart_interact`: lazy unless the think roll passes, then close the detail view. */
    method SmartInteract(w: CycleWorld, now: int, writeOk: bool) returns (effects: seq<Effect>)
      requires Valid()
      modifies kb
      ensures Valid()
      ensures !(w.thinkRoll < ProbTriggerThinking) ==>
        effects == LazyEffects(w.likeRoll, w.collectRoll) + [Closed] && unchanged(kb)
      ensures w.thinkRoll < ProbTriggerThinking ==> effects == DeepEffects(w) + [Closed]
      ensures effects == InteractEffects(w)
      ensures kb.State() == InteractStore(old(kb.State()), w, kb.bufferMaxSize, kb.flushInterval, now, writeOk)
    {
      if !(w.thinkRoll < ProbTriggerThinking) {
        effects := LazyEffects(w.likeRoll, w.collectRoll);
      } else {
        effects := DeepModeInteract(w, now, writeOk);
      }
      effects := effects + [Closed];
    }

    /**
     * `execute_one_cycle`. Raises (returns `Raised`) when the page has left the
     * site or no note card appears even after one scroll; a detail view that
     * does not open ends the cycle without counting it.
     */
    method ExecuteOneCycle(w: CycleWorld, now: int, writeOk: bool) returns (outcome: CycleOutcome, effects: seq<Effect>)
      requires Valid()
      modifies this, kb
      ensures Valid()
      ensures old(RotationDue()) ==>
        (|effects| > 0 && effects[0] == Searched(SearchKeywords[old(currentKeywordIndex) % |SearchKeywords|])
         && currentKeywordIndex == old(currentKeywordIndex) + 1)
      ensures !old(RotationDue()) ==> currentKeywordIndex == old(currentKeywordIndex)
      ensures outcome.Raised? <==> CycleError(w).Some?
      ensures outcome.Raised? ==> outcome.message == CycleError(w).value
      ensures outcome.Raised? || outcome == DetailTimeout ==> postsProcessedCount == old(postsProcessedCount) && unchanged(kb)
      ensures outcome == Completed ==> postsProcessedCount == old(postsProcessedCount) + 1
      ensures outcome == Completed <==> Contains(w.urlAtCheck, "xiaohongshu.com") && (w.firstLocate > 0 || w.secondLocate > 0) && w.detailOpened
      ensures outcome == Completed || outcome == DetailTimeout ==> NotesFound(w) && Opened(OpenedIndex(w)) in effects
      ensures outcome == DetailTimeout ==> |effects| > 0 && effects[|effects| - 1] == Escaped
      ensures effects == CycleEffects(w, if old(RotationDue())
                                         then [Searched(SearchKeywords[old(currentKeywordIndex) % |SearchKeywords|])]
                                         else [])
      ensures outcome == Completed ==>
        kb.State() == InteractStore(old(kb.State()), w, kb.bufferMaxSize, kb.flushInterval, now, writeOk)
    {
      effects := [];
      if RotationDue() {
        var keyword := RotateSearch();
        effects := [Searched(keyword)];
      }
      if !Contains(w.urlAtCheck, "xiaohongshu.com") {
        outcome := Raised("环境偏离: " + w.urlAtCheck);
      } else {
        var found := w.firstLocate;
        if found == 0 {
          effects := effects + [ScrolledForNotes];
          found := w.secondLocate;
        }
        if found == 0 {
          outcome := Raised("视觉丢失: 未检测到笔记");
        } else {
          ghost var at := |effects|;
          effects := effects + [Opened(OpenedIndex(w))];
          assert effects[at] == Opened(OpenedIndex(w));
          if !w.detailOpened {
            effects := effects + [Escaped];
            outcome := DetailTimeout;
          } else {
            var more := SmartInteract(w, now, writeOk);
            effects := effects + more;
            postsProcessedCount := postsProcessedCount + 1;
            outcome := Completed;
          }
          assert effects[at] == Opened(OpenedIndex(w));
        }
      }
    }
  }

  /** In deep mode a relevant post is saved before anything is liked, collected or commented. */
  lemma {:induction false} SavedBeforeEngagement(w: CycleWorld)
    requires LlmClient.IsRelevant(w.analysis)
    ensures var effects := [Thought, Saved(w.title)] + DeepEngagement(w);
      forall k :: 0 <= k < |effects| && IsEngagement(effects[k]) ==> k > 1 && effects[1] == Saved(w.title)
  {
  }
}
