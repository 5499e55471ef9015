/**
 * The writer agent (core/writer.py): choosing an inspiration, cleaning the
 * article answer, and the drafts queue with its
 * `ready_to_publish -> published` transition. The drafts file is the sequence
 * `drafts`, rewritten wholesale.
 */
module Writer {
  import opened Wrappers
  import opened Strings
  import KnowledgeStore

  /** The article dictionary the rewrite answer decodes to. */
  datatype Article = Article(
    title: string,
    content: string,
    imagePrompt: string,
    style: string,
    tags: seq<string>,
    sourceInspirationId: Option<int>)

  datatype DraftStatus = ReadyToPublish | Published

  /** A queued draft; `createdAt` is its save time and serves as its key. */
  datatype Draft = Draft(
    article: Article,
    imageLocalPath: string,
    createdAt: int,
    status: DraftStatus,
    publishedAt: Option<int>)

  /** Why `pick_inspiration` found nothing. */
  const NotEnoughMaterial: string := "素材不足"

  /** The unused records, in file order. */
  function UnusedOf(inspirations: seq<KnowledgeStore.Entry>): (r: seq<KnowledgeStore.Entry>)
    ensures forall k :: 0 <= k < |r| ==> r[k].status == KnowledgeStore.Unused && r[k] in inspirations
    ensures forall k :: 0 <= k < |inspirations| && inspirations[k].status == KnowledgeStore.Unused ==> inspirations[k] in r
    decreases |inspirations|
  {
    if inspirations == [] then []
    else
      var rest := UnusedOf(inspirations[1..]);
      assert forall k :: 1 <= k < |inspirations| ==> inspirations[k] == inspirations[1..][k - 1];
      if inspirations[0].status == KnowledgeStore.Unused then [inspirations[0]] + rest else rest
  }

  /**
   * `pick_inspiration`: `random.choice` (the roll, modulo the pool size) among
   * the unused records of the inspiration file, of any quality; the error text
   * when there are none.
   */
  function PickInspiration(inspirations: seq<KnowledgeStore.Entry>, roll: nat): (r: Result<KnowledgeStore.Entry>)
    ensures r.Ok? ==> r.value in inspirations && r.value.status == KnowledgeStore.Unused
    ensures r.Err? <==> forall k :: 0 <= k < |inspirations| ==> inspirations[k].status != KnowledgeStore.Unused
    ensures r.Err? ==> r.error == NotEnoughMaterial
  {
    var unused := UnusedOf(inspirations);
    if unused == [] then Err(NotEnoughMaterial) else Ok(unused[roll % |unused|])
  }

  /**
   * The fence cleaning of `write_from_inspiration`: the part after the first
   * ```json up to the next ``` (or, without a ```json, between the first two
   * ```), stripped.
   */
  function ArticleText(reply: string): string
  {
    var body :=
      if Contains(reply, "```json") then BeforeFirst(BeforeFirst(AfterFirst(reply, "```json"), "```json"), "```")
      else if Contains(reply, "```") then BeforeFirst(BeforeFirst(AfterFirst(reply, "```"), "```"), "```")
      else reply;
    Strip(body)
  }

  /** Whatever surrounds a ```json ... ``` block, the parser sees the block's stripped body. */
  lemma {:induction false} FencedArticle(pre: string, body: string, post: string)
    requires NoBacktick(pre) && NoBacktick(body) && NoBacktick(post)
    ensures ArticleText(pre + "```json" + body + "```" + post) == Strip(body)
  {
    var after := body + "```" + post;
    var reply := pre + "```json" + after;
    assert pre + "```json" + body + "```" + post == reply;
    IndexOfAfterNoBacktick(pre, "```json", after);
    assert Contains(reply, "```json");
    assert AfterFirst(reply, "```json") == after;
    FenceTail(body, post);
  }

  /** The text after the opening fence is cut at the closing one. */
  lemma {:induction false} FenceTail(body: string, post: string)
    requires NoBacktick(body) && NoBacktick(post)
    ensures BeforeFirst(BeforeFirst(body + "```" + post, "```json"), "```") == body
  {
    var after := body + "```" + post;
    IndexOfAfterNoBacktick(body, "```", post);
    OnlyFenceAfterBody(body, post);
    if IndexOf(after, "```json").Some? {
      assert BeforeFirst(after, "```json") == body;
      assert body == body + "";
      IndexOfNoneNoBacktick(body, "```", "");
    }
  }

  /** Between backtick-free texts, a ```json can only start at the three backticks. */
  lemma {:induction false} OnlyFenceAfterBody(body: string, post: string)
    requires NoBacktick(body) && NoBacktick(post)
    ensures IndexOf(body + "```" + post, "```json").Some? ==> IndexOf(body + "```" + post, "```json").value == |body|
  {
    var after := body + "```" + post;
    if IndexOf(after, "```json").Some? {
      var k := IndexOf(after, "```json").value;
      var w := after[k..k + 7];
      assert w == "```json";
      assert after[k] == w[0] == '`' && after[k + 2] == w[2] == '`';
      BacktickInFence(body, post, k);
      BacktickInFence(body, post, k + 2);
    }
  }

  /** The only backticks of `body + "```" + post` are the three of the fence. */
  lemma {:induction false} BacktickInFence(body: string, post: string, i: nat)
    requires NoBacktick(body) && NoBacktick(post)
    requires i < |body + "```" + post| && (body + "```" + post)[i] == '`'
    ensures |body| <= i < |body| + 3
  {
  }

  /**
   * `write_from_inspiration` after the oracle call: None when the request raised
   * or the cleaned text is not a JSON object; otherwise the article tagged with
   * the inspiration's id.
   */
  function WriteFromInspiration(inspiration: KnowledgeStore.Entry, reply: Option<string>,
                                parse: string -> Option<Article>): (r: Option<Article>)
    ensures reply.None? ==> r.None?
    ensures r.Some? ==> r.value.sourceInspirationId == Some(inspiration.id)
    ensures reply.Some? ==> (r.Some? <==> parse(ArticleText(reply.value)).Some?)
  {
    match reply
    case None => None
    case Some(text) =>
      match parse(ArticleText(text))
      case None => None
      case Some(a) => Some(a.(sourceInspirationId := Some(inspiration.id)))
  }

  /** The first draft still waiting to be published. */
  function FirstReady(drafts: seq<Draft>): (r: Option<nat>)
    ensures r.Some? ==> r.value < |drafts| && drafts[r.value].status == ReadyToPublish
    ensures r.Some? ==> forall i :: 0 <= i < r.value ==> drafts[i].status != ReadyToPublish
    ensures r.None? <==> forall i :: 0 <= i < |drafts| ==> drafts[i].status != ReadyToPublish
    decreases |drafts|
  {
    if drafts == [] then None
    else if drafts[0].status == ReadyToPublish then Some(0)
    else match FirstReady(drafts[1..])
      case None => None
      case Some(k) => Some(k + 1)
  }

  /** The first draft whose key matches. */
  function FirstCreatedAt(drafts: seq<Draft>, createdAt: int): (r: Option<nat>)
    ensures r.Some? ==> r.value < |drafts| && drafts[r.value].createdAt == createdAt
    ensures r.Some? ==> forall i :: 0 <= i < r.value ==> drafts[i].createdAt != createdAt
    ensures r.None? ==> forall i :: 0 <= i < |drafts| ==> drafts[i].createdAt != createdAt
    decreases |drafts|
  {
    if drafts == [] then None
    else if drafts[0].createdAt == createdAt then Some(0)
    else match FirstCreatedAt(drafts[1..], createdAt)
      case None => None
      case Some(k) => Some(k + 1)
  }

  /** A draft appended with a fresh key is the first one with that key. */
  lemma {:induction false} FirstCreatedAtAppend(drafts: seq<Draft>, d: Draft)
    requires forall i :: 0 <= i < |drafts| ==> drafts[i].createdAt != d.createdAt
    ensures FirstCreatedAt(drafts + [d], d.createdAt) == Some(|drafts|)
    decreases |drafts|
  {
    if drafts != [] {
      assert (drafts + [d])[1..] == drafts[1..] + [d];
      FirstCreatedAtAppend(drafts[1..], d);
    }
  }

  /** The drafts after `mark_draft_published(createdAt)` at time `now`. */
  function PublishFirst(drafts: seq<Draft>, createdAt: int, now: int): (r: seq<Draft>)
    ensures |r| == |drafts|
  {
    match FirstCreatedAt(drafts, createdAt)
    case None => drafts
    case Some(k) => drafts[k := drafts[k].(status := Published, publishedAt := Some(now))]
  }

  /** Publishing changes only the first draft with the key, to `published`. */
  lemma {:induction false} PublishFirstOnly(drafts: seq<Draft>, createdAt: int, now: int)
    ensures forall i :: 0 <= i < |drafts| && Some(i) != FirstCreatedAt(drafts, createdAt) ==>
      PublishFirst(drafts, createdAt, now)[i] == drafts[i]
    ensures FirstCreatedAt(drafts, createdAt).Some? ==>
      var k := FirstCreatedAt(drafts, createdAt).value;
      PublishFirst(drafts, createdAt, now)[k].status == Published
      && PublishFirst(drafts, createdAt, now)[k].article == drafts[k].article
  {
  }

  /** A draft never goes back from `published` to `ready_to_publish`. */
  lemma {:induction false} PublishMonotone(drafts: seq<Draft>, createdAt: int, now: int)
    ensures forall i :: 0 <= i < |drafts| && drafts[i].status == Published ==>
      PublishFirst(drafts, createdAt, now)[i].status == Published
  {
  }

  /** Once a draft is queued, a ready draft exists, and an earlier ready one still comes first. */
  lemma {:induction false} SavedDraftIsReady(drafts: seq<Draft>, d: Draft)
    requires d.status == ReadyToPublish
    ensures FirstReady(drafts + [d]).Some?
    ensures FirstReady(drafts).Some? ==> FirstReady(drafts + [d]) == FirstReady(drafts)
    ensures FirstReady(drafts).None? ==> FirstReady(drafts + [d]) == Some(|drafts|)
    decreases |drafts|
  {
    if drafts != [] {
      assert (drafts + [d])[1..] == drafts[1..] + [d];
      SavedDraftIsReady(drafts[1..], d);
    }
  }

  /** The drafts queue. */
  class WriterAgent {
    var drafts: seq<Draft>

    constructor (stored: seq<Draft>)
      ensures drafts == stored
    {
      drafts := stored;
    }

    /**
     * `save_draft`: appends the article as a `ready_to_publish` draft with its
     * image path and creation time; earlier drafts are untouched. Returns false
     * and changes nothing when the file cannot be written.
     */
    method SaveDraft(article: Article, imagePath: string, now: int, writeOk: bool) returns (ok: bool)
      modifies this
      ensures ok == writeOk
      ensures ok ==> drafts == old(drafts) + [Draft(article, imagePath, now, ReadyToPublish, None)]
      ensures !ok ==> drafts == old(drafts)
    {
      if !writeOk {
        return false;
      }
      drafts := drafts + [Draft(article, imagePath, now, ReadyToPublish, None)];
      return true;
    }

    /** `get_ready_draft`: the first `ready_to_publish` draft, or None. */
    function GetReadyDraft(): (r: Option<Draft>)
      reads this
      ensures r.Some? ==> r.value in drafts && r.value.status == ReadyToPublish
      ensures r.None? <==> forall i :: 0 <= i < |drafts| ==> drafts[i].status != ReadyToPublish
    {
      match FirstReady(drafts)
      case None => None
      case Some(k) => Some(drafts[k])
    }

    /** `mark_draft_published`: the first draft with the given creation time becomes `published`. */
    method MarkDraftPublished(createdAt: int, now: int)
      modifies this
      ensures drafts == PublishFirst(old(drafts), createdAt, now)
    {
      var data := drafts;
      var i := 0;
      while i < |data|
        invariant 0 <= i <= |data|
        invariant forall j :: 0 <= j < i ==> data[j].createdAt != createdAt
        invariant data == old(drafts)
      {
        if data[i].createdAt == createdAt {
          data := data[i := data[i].(status := Published, publishedAt := Some(now))];
          break;
        }
        i := i + 1;
      }
      drafts := data;
    }
  }
}
