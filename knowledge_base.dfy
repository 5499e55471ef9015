/**
 * The inspiration store (core/knowledge_base.py): an append-only list of
 * collected posts persisted as one JSON file, a write buffer in front of it,
 * de-duplication on save, flush thresholds, and `unused -> used` marking.
 * The file is the sequence `persisted`, rewritten wholesale; loading it is
 * reading that field.
 */
module KnowledgeStore {
  import opened Wrappers
  import opened Strings
  import NoteUrl
  import LlmClient
  import opened Settings

  datatype Status = Unused | Used

  datatype SubComment = SubComment(user: string, content: string)
  datatype Comment = Comment(user: string, content: string, likes: int, subComments: seq<SubComment>)

  /** The `ai_analysis` part of a record. */
  datatype AiAnalysis = AiAnalysis(
    isRelevant: Option<bool>,
    isHighQuality: bool,
    generatedComment: Option<string>,
    styleHint: string)

  /** One stored inspiration record; `id` is the save time in whole seconds. */
  datatype Entry = Entry(
    id: int,
    noteId: string,
    collectedAt: int,
    title: string,
    content: string,
    url: string,
    mediaType: string,
    imageUrls: seq<string>,
    videoUrl: string,
    videoLocalPath: string,
    comments: seq<Comment>,
    ai: AiAnalysis,
    status: Status,
    usedAt: Option<int>,
    usedInBatch: bool)

  /** The statistics dictionary of `get_stats`. */
  datatype Stats = Stats(
    total: nat,
    unused: nat,
    used: nat,
    highQualityUnused: nat,
    threshold: nat,
    readyToPublish: bool,
    readyToCreate: bool)

  /** The record `save_inspiration` builds: status `unused`, no tags, analysis defaults filled. */
  function NewRecord(title: string, content: string, analysis: LlmClient.Analysis, sourceUrl: string,
                     imageUrls: seq<string>, videoUrl: string, videoLocalPath: string, mediaType: string,
                     comments: seq<Comment>, now: int): (e: Entry)
    ensures e.status == Unused && e.usedAt.None? && !e.usedInBatch
    ensures e.noteId == NoteUrl.NoteId(sourceUrl) && e.title == title && e.url == sourceUrl && e.id == now
  {
    Entry(now, NoteUrl.NoteId(sourceUrl), now, title, content, sourceUrl, mediaType, imageUrls, videoUrl,
          videoLocalPath, comments,
          AiAnalysis(analysis.isRelevant, analysis.isHighQuality.GetOr(false), analysis.commentText,
                     analysis.styleHint.GetOr("")),
          Unused, None, false)
  }

  /** The de-duplication test: some stored record shares the non-empty note id, or the title. */
  predicate IsDuplicate(data: seq<Entry>, noteId: string, title: string)
  {
    exists i :: 0 <= i < |data| && ((noteId != "" && data[i].noteId == noteId) || data[i].title == title)
  }

  /** Whether an entry is in the pool of `unused` (and, if asked, high-quality) records. */
  predicate Eligible(e: Entry, highQualityOnly: bool)
  {
    e.status == Unused && (!highQualityOnly || e.ai.isHighQuality)
  }

  /** The positions of the eligible entries, in increasing order (the list comprehension filters). */
  function Positions(data: seq<Entry>, highQualityOnly: bool): (r: seq<nat>)
    ensures forall k :: 0 <= k < |r| ==> r[k] < |data| && Eligible(data[r[k]], highQualityOnly)
    ensures forall x :: x in r ==> x < |data| && Eligible(data[x], highQualityOnly)
    ensures forall k, l :: 0 <= k < l < |r| ==> r[k] < r[l]
    ensures forall i :: 0 <= i < |data| && Eligible(data[i], highQualityOnly) ==> i in r
    ensures |r| == CountEligible(data, highQualityOnly)
    decreases |data|
  {
    if data == [] then []
    else
      var p := Positions(data[..|data| - 1], highQualityOnly);
      if Eligible(data[|data| - 1], highQualityOnly) then p + [|data| - 1] else p
  }

  /** The number of eligible entries. */
  function CountEligible(data: seq<Entry>, highQualityOnly: bool): (n: nat)
    ensures n <= |data|
    decreases |data|
  {
    if data == [] then 0
    else CountEligible(data[..|data| - 1], highQualityOnly) + (if Eligible(data[|data| - 1], highQualityOnly) then 1 else 0)
  }

  /** The count is zero exactly when no entry is eligible. */
  lemma {:induction false} CountZeroIff(data: seq<Entry>, hq: bool)
    ensures CountEligible(data, hq) == 0 <==> forall i :: 0 <= i < |data| ==> !Eligible(data[i], hq)
    decreases |data|
  {
    if data != [] {
      var n := |data| - 1;
      CountZeroIff(data[..n], hq);
      assert forall i :: 0 <= i < n ==> data[..n][i] == data[i];
    }
  }

  /** Counting distributes over concatenation. */
  lemma {:induction false} CountEligibleAppend(a: seq<Entry>, b: seq<Entry>, hq: bool)
    ensures CountEligible(a + b, hq) == CountEligible(a, hq) + CountEligible(b, hq)
    decreases |b|
  {
    if b == [] {
      assert a + b == a;
    } else {
      var n := |b| - 1;
      var all := a + b;
      assert all[..|all| - 1] == a + b[..n];
      assert all[|all| - 1] == b[n];
      CountEligibleAppend(a, b[..n], hq);
      assert CountEligible(all, hq) == CountEligible(a + b[..n], hq) + (if Eligible(b[n], hq) then 1 else 0);
    }
  }

  /** A flush of records that are all unused raises the unused count by the number flushed. */
  lemma {:induction false} FlushAddsUnused(stored: seq<Entry>, flushed: seq<Entry>)
    requires forall i :: 0 <= i < |flushed| ==> flushed[i].status == Unused
    ensures CountEligible(stored + flushed, false) == CountEligible(stored, false) + |flushed|
    decreases |flushed|
  {
    if flushed == [] {
      assert stored + flushed == stored;
    } else {
      var n := |flushed| - 1;
      var all := stored + flushed;
      assert all[..|all| - 1] == stored + flushed[..n];
      assert all[|all| - 1] == flushed[n];
      assert Eligible(flushed[n], false);
      FlushAddsUnused(stored, flushed[..n]);
      assert CountEligible(all, false) == CountEligible(stored + flushed[..n], false) + 1;
    }
  }

  function CountUsed(data: seq<Entry>): (n: nat)
    decreases |data|
  {
    if data == [] then 0 else CountUsed(data[..|data| - 1]) + (if data[|data| - 1].status == Used then 1 else 0)
  }

  predicate Distinct(s: seq<nat>)
  {
    forall i, j :: 0 <= i < j < |s| ==> s[i] != s[j]
  }

  /** `pool` without its item at position `p`. */
  function RemoveAt(pool: seq<nat>, p: nat): (rest: seq<nat>)
    requires p < |pool|
    ensures |rest| == |pool| - 1
    ensures forall x :: x in rest ==> x in pool
    ensures Distinct(pool) ==> Distinct(rest) && pool[p] !in rest
  {
    var rest := pool[..p] + pool[p + 1..];
    assert forall i :: 0 <= i < |rest| ==> rest[i] == pool[if i < p then i else i + 1];
    rest
  }

  /**
   * `random.sample(pool, min(k, len(pool)))`: each roll picks one of the items
   * not yet drawn (a missing roll picks the first). Every sample the library can
   * return is reachable by some rolls.
   */
  function Sample(pool: seq<nat>, k: nat, rolls: seq<nat>): (r: seq<nat>)
    ensures |r| == if k < |pool| then k else |pool|
    ensures forall x :: x in r ==> x in pool
    ensures forall i :: 0 <= i < |r| ==> r[i] in pool
    ensures Distinct(pool) ==> Distinct(r)
    decreases k
  {
    if k == 0 || pool == [] then []
    else
      var p := (if rolls == [] then 0 else rolls[0]) % |pool|;
      var tail := Sample(RemoveAt(pool, p), k - 1, if rolls == [] then [] else rolls[1..]);
      ConsDistinct(pool[p], tail);
      [pool[p]] + tail
  }

  lemma {:induction false} ConsDistinct(x: nat, tail: seq<nat>)
    ensures Distinct(tail) && x !in tail ==> Distinct([x] + tail)
  {
    var r := [x] + tail;
    assert forall i :: 0 < i < |r| ==> r[i] == tail[i - 1];
  }

  /** The records at the given positions, in that order. */
  function RecordsAt(data: seq<Entry>, picked: seq<nat>): (r: seq<Entry>)
    requires forall k :: 0 <= k < |picked| ==> picked[k] < |data|
    ensures |r| == |picked| && forall k :: 0 <= k < |r| ==> r[k] == data[picked[k]]
  {
    seq(|picked|, k requires 0 <= k < |picked| => data[picked[k]])
  }

  /** A record after `used` marking at time `now`. */
  function MarkUsed(e: Entry, now: int, inBatch: bool): Entry
  {
    e.(status := Used, usedAt := Some(now), usedInBatch := inBatch || e.usedInBatch)
  }

  /** The first position whose record has the given id. */
  function FirstWithId(data: seq<Entry>, id: int): (r: Option<nat>)
    ensures r.Some? ==> r.value < |data| && data[r.value].id == id
    ensures r.Some? ==> forall i :: 0 <= i < r.value ==> data[i].id != id
    ensures r.None? ==> forall i :: 0 <= i < |data| ==> data[i].id != id
    decreases |data|
  {
    if data == [] then None
    else if data[0].id == id then Some(0)
    else match FirstWithId(data[1..], id)
      case None => None
      case Some(k) => Some(k + 1)
  }

  /** The stored list after `mark_as_used(id)`: only the first record with that id is marked. */
  function MarkFirst(data: seq<Entry>, id: int, now: int): (r: seq<Entry>)
    ensures |r| == |data|
  {
    match FirstWithId(data, id)
    case None => data
    case Some(k) => data[k := MarkUsed(data[k], now, false)]
  }

  /** The stored list after marking every position of `picked` as used in a batch. */
  function MarkBatch(data: seq<Entry>, picked: seq<nat>, now: int): (r: seq<Entry>)
    ensures |r| == |data|
  {
    seq(|data|, i requires 0 <= i < |data| => if i in picked then MarkUsed(data[i], now, true) else data[i])
  }

  /** Statistics over the stored list. */
  function StatsOf(data: seq<Entry>): Stats
  {
    var unused := CountEligible(data, false);
    var hq := CountEligible(data, true);
    Stats(|data|, unused, CountUsed(data), hq, InspirationThreshold,
          unused >= InspirationThreshold, hq >= InspirationThreshold)
  }

  /** Every record is either unused or used, and a high-quality unused record is an unused one. */
  lemma {:induction false} StatsConsistent(data: seq<Entry>)
    ensures StatsOf(data).unused + StatsOf(data).used == StatsOf(data).total
    ensures StatsOf(data).highQualityUnused <= StatsOf(data).unused
    ensures StatsOf(data).readyToCreate ==> StatsOf(data).readyToPublish
    decreases |data|
  {
    if data != [] {
      StatsConsistent(data[..|data| - 1]);
    }
  }

  /** No record goes back from `used` to `unused`: marking never touches unused-ness except to end it. */
  lemma {:induction false} MarkFirstMonotone(data: seq<Entry>, id: int, now: int)
    ensures forall i :: 0 <= i < |data| && data[i].status == Used ==> MarkFirst(data, id, now)[i].status == Used
    ensures forall i :: 0 <= i < |data| && i != FirstWithId(data, id).GetOr(|data|) ==> MarkFirst(data, id, now)[i] == data[i]
  {
  }

  /** `mark_as_used` lowers the unused count by one exactly when the first match was unused. */
  lemma {:induction false} MarkFirstCount(data: seq<Entry>, id: int, now: int)
    ensures CountEligible(MarkFirst(data, id, now), false) ==
      CountEligible(data, false) - (if FirstWithId(data, id).Some? && data[FirstWithId(data, id).value].status == Unused then 1 else 0)
  {
    match FirstWithId(data, id)
    case None =>
    case Some(k) =>
      CountAfterUpdate(data, k, MarkUsed(data[k], now, false), false);
  }

  /** Replacing one record by a non-eligible one changes the count of eligible ones accordingly. */
  lemma {:induction false} CountAfterUpdate(data: seq<Entry>, k: nat, e: Entry, hq: bool)
    requires k < |data| && !Eligible(e, hq)
    ensures CountEligible(data[k := e], hq) == CountEligible(data, hq) - (if Eligible(data[k], hq) then 1 else 0)
    decreases |data|
  {
    var n := |data| - 1;
    var d' := data[k := e];
    assert d'[..n] == if k < n then data[..n][k := e] else data[..n];
    if k < n {
      CountAfterUpdate(data[..n], k, e, hq);
    }
  }

  /** A batch marks exactly the picked records and leaves every other record as it was. */
  lemma {:induction false} MarkBatchExact(data: seq<Entry>, picked: seq<nat>, now: int)
    ensures forall i :: 0 <= i < |data| ==>
      (i in picked ==> MarkBatch(data, picked, now)[i].status == Used && MarkBatch(data, picked, now)[i].usedInBatch)
      && (i !in picked ==> MarkBatch(data, picked, now)[i] == data[i])
  {
  }

  /** A sample of the high-quality pool holds exactly min(count, #pool) distinct eligible positions. */
  lemma {:induction false} SampleEligible(data: seq<Entry>, count: nat, rolls: seq<nat>, hq: bool)
    ensures var picked := Sample(Positions(data, hq), count, rolls);
      Distinct(picked)
      && |picked| == (if count < |Positions(data, hq)| then count else |Positions(data, hq)|)
      && forall x :: x in picked ==> x < |data| && Eligible(data[x], hq)
  {
    var pool := Positions(data, hq);
    assert Distinct(pool);
  }

  /** The batch-marking loop's invariant, advanced by one picked position. */
  predicate BatchedUpTo(cur: seq<Entry>, data: seq<Entry>, picked: seq<nat>, j: nat, now: int)
    requires j <= |picked|
  {
    |cur| == |data| &&
    forall i :: 0 <= i < |data| ==> cur[i] == if i in picked[..j] then MarkUsed(data[i], now, true) else data[i]
  }

  lemma {:induction false} BatchStep(cur: seq<Entry>, data: seq<Entry>, picked: seq<nat>, j: nat, now: int)
    requires j < |picked| && picked[j] < |data|
    requires BatchedUpTo(cur, data, picked, j, now)
    ensures BatchedUpTo(cur[picked[j] := MarkUsed(cur[picked[j]], now, true)], data, picked, j + 1, now)
  {
    assert picked[..j + 1] == picked[..j] + [picked[j]];
  }

  /**
   * The marking loop of `mark_multiple_as_used` on the loaded list: each picked
   * record becomes used in a batch and its id is collected, in pick order.
   */
  method MarkPicked(data: seq<Entry>, picked: seq<nat>, now: int) returns (cur: seq<Entry>, ids: seq<int>)
    requires forall k :: 0 <= k < |picked| ==> picked[k] < |data|
    ensures cur == MarkBatch(data, picked, now)
    ensures |ids| == |picked| && forall k :: 0 <= k < |picked| ==> ids[k] == data[picked[k]].id
  {
    cur := data;
    ids := [];
    var j := 0;
    assert picked[..0] == [];
    while j < |picked|
      invariant 0 <= j <= |picked|
      invariant BatchedUpTo(cur, data, picked, j, now)
      invariant |ids| == j && forall k :: 0 <= k < j ==> ids[k] == data[picked[k]].id
    {
      var p := picked[j];
      ids := ids + [cur[p].id];
      BatchStep(cur, data, picked, j, now);
      cur := cur[p := MarkUsed(cur[p], now, true)];
      j := j + 1;
    }
    assert picked[..j] == picked;
  }

  /** The three fields of the store that saving and flushing change. */
  datatype StoreState = StoreState(persisted: seq<Entry>, buffer: seq<Entry>, lastFlushTime: int)

  /**
   * The store after `save_inspiration` of `rec`: a duplicate of a stored record
   * changes nothing; otherwise `rec` joins the end of the unflushed records, and
   * the whole buffer moves to the file when a flush is due and the write works.
   * No record is ever lost or reordered.
   */
  function AfterSave(s: StoreState, rec: Entry, maxSize: nat, interval: int, now: int, writeOk: bool): (r: StoreState)
    ensures IsDuplicate(s.persisted, rec.noteId, rec.title) ==> r == s
    ensures !IsDuplicate(s.persisted, rec.noteId, rec.title) ==>
      r.persisted + r.buffer == s.persisted + s.buffer + [rec]
      && (r.buffer == [] <==> (|s.buffer| + 1 >= maxSize || now - s.lastFlushTime > interval) && writeOk)
      && (r.buffer == [] ==> r.lastFlushTime == now)
      && (r.buffer != [] ==> r.persisted == s.persisted && r.lastFlushTime == s.lastFlushTime)
  {
    if IsDuplicate(s.persisted, rec.noteId, rec.title) then s
    else
      var buffered := s.buffer + [rec];
      if (|buffered| >= maxSize || now - s.lastFlushTime > interval) && writeOk
      then StoreState(s.persisted + buffered, [], now)
      else StoreState(s.persisted, buffered, s.lastFlushTime)
  }

  /** Saving never changes a stored record and keeps the stored list a prefix of the result. */
  lemma {:induction false} SaveKeepsStored(s: StoreState, rec: Entry, maxSize: nat, interval: int, now: int, writeOk: bool)
    ensures var r := AfterSave(s, rec, maxSize, interval, now, writeOk);
      |s.persisted| <= |r.persisted| && r.persisted[..|s.persisted|] == s.persisted
  {
    var r := AfterSave(s, rec, maxSize, interval, now, writeOk);
    if !IsDuplicate(s.persisted, rec.noteId, rec.title) && r.buffer == [] {
      assert r.persisted == s.persisted + (s.buffer + [rec]);
    }
  }

  /** The store object. */
  class KnowledgeBase {
    /** The JSON file's list of records. */
    var persisted: seq<Entry>
    /** `_buffer`: records saved since the last flush, not yet in the file. */
    var buffer: seq<Entry>
    var lastFlushTime: int
    const bufferMaxSize: nat
    const flushInterval: int

    /** Buffered records were all built by `save_inspiration`, so none is marked used yet. */
    ghost predicate Valid()
      reads this
    {
      forall i :: 0 <= i < |buffer| ==> buffer[i].status == Unused
    }

    /**
     * `stored` is the file found at start-up; a missing or unreadable file
     * (None) is replaced by an empty list.
     */
    constructor (stored: Option<seq<Entry>>, maxSize: nat, interval: int, now: int)
      ensures Valid()
      ensures persisted == stored.GetOr([]) && buffer == [] && lastFlushTime == now
      ensures bufferMaxSize == maxSize && flushInterval == interval
    {
      persisted := stored.GetOr([]);
      buffer := [];
      lastFlushTime := now;
      bufferMaxSize := maxSize;
      flushInterval := interval;
    }

    /** The fields saving and flushing change, as one value. */
    function State(): StoreState
      reads this
    {
      StoreState(persisted, buffer, lastFlushTime)
    }

    /** `_should_flush`: the buffer is full or the flush interval has elapsed. */
    predicate FlushDue(now: int)
      reads this
    {
      |buffer| >= bufferMaxSize || now - lastFlushTime > flushInterval
    }

    /**
     * `_flush_to_disk`: nothing on an empty buffer; otherwise the buffer is
     * appended in order to the file, emptied, and the flush time recorded. When
     * the write raises (`writeOk` false) everything is kept as it was.
     */
    method FlushToDisk(now: int, writeOk: bool)
      requires Valid()
      modifies this
      ensures Valid()
      ensures old(buffer) == [] || !writeOk ==>
        persisted == old(persisted) && buffer == old(buffer) && lastFlushTime == old(lastFlushTime)
      ensures old(buffer) != [] && writeOk ==>
        persisted == old(persisted) + old(buffer) && buffer == [] && lastFlushTime == now
      ensures writeOk ==> UnusedCount() == old(UnusedCount()) + |old(buffer)|
    {
      if buffer == [] {
        return;
      }
      if writeOk {
        FlushAddsUnused(persisted, buffer);
        persisted := persisted + buffer;
        buffer := [];
        lastFlushTime := now;
      }
    }

    /** `force_flush`: flush whatever is buffered. */
    method ForceFlush(now: int, writeOk: bool)
      requires Valid()
      modifies this
      ensures Valid()
      ensures old(buffer) == [] || !writeOk ==>
        persisted == old(persisted) && buffer == old(buffer) && lastFlushTime == old(lastFlushTime)
      ensures old(buffer) != [] && writeOk ==>
        persisted == old(persisted) + old(buffer) && buffer == [] && lastFlushTime == now
    {
      if buffer != [] {
        FlushToDisk(now, writeOk);
      }
    }

    /**
     * `save_inspiration`: skipped when a stored record (never a buffered one)
     * shares the note id or the title; otherwise a new unused record is appended
     * to the buffer and the buffer is flushed if a flush is due.
     */
    method SaveInspiration(title: string, content: string, analysis: LlmClient.Analysis, sourceUrl: string,
                           imageUrls: seq<string>, videoUrl: string, videoLocalPath: string,
                           mediaType: string, comments: seq<Comment>, now: int, writeOk: bool)
      requires Valid()
      modifies this
      ensures Valid()
      ensures State() == AfterSave(old(State()), NewRecord(title, content, analysis, sourceUrl, imageUrls, videoUrl,
                                                           videoLocalPath, mediaType, comments, now),
                                   bufferMaxSize, flushInterval, now, writeOk)
      ensures IsDuplicate(old(persisted), NoteUrl.NoteId(sourceUrl), title) ==>
        persisted == old(persisted) && buffer == old(buffer) && lastFlushTime == old(lastFlushTime)
      ensures !IsDuplicate(old(persisted), NoteUrl.NoteId(sourceUrl), title) ==>
        var buffered := old(buffer) + [NewRecord(title, content, analysis, sourceUrl, imageUrls, videoUrl,
                                                 videoLocalPath, mediaType, comments, now)];
        if (|buffered| >= bufferMaxSize || now - old(lastFlushTime) > flushInterval) && writeOk
        then persisted == old(persisted) + buffered && buffer == [] && lastFlushTime == now
        else persisted == old(persisted) && buffer == buffered && lastFlushTime == old(lastFlushTime)
    {
      var noteId := NoteUrl.NoteId(sourceUrl);
      var i := 0;
      while i < |persisted|
        invariant 0 <= i <= |persisted|
        invariant forall j :: 0 <= j < i ==> !((noteId != "" && persisted[j].noteId == noteId) || persisted[j].title == title)
      {
        var item := persisted[i];
        if (noteId != "" && item.noteId == noteId) || item.title == title {
          return;
        }
        i := i + 1;
      }
      var rec := NewRecord(title, content, analysis, sourceUrl, imageUrls, videoUrl, videoLocalPath,
                           mediaType, comments, now);
      buffer := buffer + [rec];
      if FlushDue(now) {
        FlushToDisk(now, writeOk);
      }
    }

    /** `get_unused_count`: the number of stored (not buffered) unused records. */
    function UnusedCount(): (n: nat)
      reads this
      ensures n <= |persisted|
      ensures n == |Positions(persisted, false)|
      ensures n == 0 <==> forall i :: 0 <= i < |persisted| ==> persisted[i].status != Unused
    {
      CountZeroIff(persisted, false);
      CountEligible(persisted, false)
    }

    /**
     * `should_create_content`: enough high-quality unused records in the file,
     * counted over the positions of exactly those records.
     */
    function ShouldCreateContent(): (r: bool)
      reads this
      ensures r <==> |Positions(persisted, true)| >= InspirationThreshold
    {
      CountEligible(persisted, true) >= InspirationThreshold
    }

    /** `get_random_unused(count)`: a random sample of the unused stored records. */
    function GetRandomUnused(count: nat, rolls: seq<nat>): (r: seq<Entry>)
      reads this
      ensures |r| == if count < UnusedCount() then count else UnusedCount()
      ensures forall k :: 0 <= k < |r| ==> r[k].status == Unused && r[k] in persisted
      ensures var picked := Sample(Positions(persisted, false), count, rolls);
        Distinct(picked) && |r| == |picked|
        && forall k :: 0 <= k < |r| ==> picked[k] < |persisted| && r[k] == persisted[picked[k]]
    {
      var picked := Sample(Positions(persisted, false), count, rolls);
      SampleEligible(persisted, count, rolls, false);
      RecordsAt(persisted, picked)
    }

    /** `mark_as_used(id)`: the first stored record with that id becomes used. */
    method MarkAsUsed(id: int, now: int)
      requires Valid()
      modifies this
      ensures Valid()
      ensures persisted == MarkFirst(old(persisted), id, now)
      ensures buffer == old(buffer) && lastFlushTime == old(lastFlushTime)
    {
      var data := persisted;
      var i := 0;
      while i < |data|
        invariant 0 <= i <= |data|
        invariant forall j :: 0 <= j < i ==> data[j].id != id
      {
        if data[i].id == id {
          data := data[i := MarkUsed(data[i], now, false)];
          break;
        }
        i := i + 1;
      }
      persisted := data;
    }

    /**
     * `mark_multiple_as_used(count)`: samples min(count, #high-quality unused)
     * distinct high-quality unused records, marks them used in a batch, and
     * returns their ids (in sample order); nothing when there are none.
     */
    method MarkMultipleAsUsed(count: nat, rolls: seq<nat>, now: int) returns (ids: seq<int>)
      requires Valid()
      modifies this
      ensures Valid()
      ensures var picked := Sample(Positions(old(persisted), true), count, rolls);
        persisted == MarkBatch(old(persisted), picked, now)
        && |ids| == |picked| && forall k :: 0 <= k < |picked| ==> ids[k] == old(persisted)[picked[k]].id
      ensures buffer == old(buffer) && lastFlushTime == old(lastFlushTime)
    {
      var pool := Positions(persisted, true);
      if pool == [] {
        return [];
      }
      var picked := Sample(pool, count, rolls);
      SampleEligible(persisted, count, rolls, true);
      var cur;
      cur, ids := MarkPicked(persisted, picked, now);
      persisted := cur;
    }

    /** `get_stats`. */
    function GetStats(): Stats
      reads this
    {
      StatsOf(persisted)
    }
  }

}
