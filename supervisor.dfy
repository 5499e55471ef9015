/**
 * The shift supervisor (core/supervisor.py): a time-bounded loop of
 * consumption cycles, a creation trigger with a cooldown, and exception
 * routing through a fatal check, the repair agent and a deep recovery.
 *
 * The clock, the browser, the model and every random draw are oracles: a
 * shift is driven by a finite list of `Pass` records, one per loop iteration,
 * each holding what the world turns out to be during that iteration.
 */
module Supervision {
  import opened Wrappers
  import opened Strings
  import opened Settings
  import Recovery
  import Writer
  import KnowledgeStore
  import Interaction
  import LlmClient

  /** `creation_cooldown`: one hour between two creation runs. */
  const CreationCooldown: int := 3600

  /** What the writer, the image generator and the publisher answer in one creation run. */
  datatype CreationWorld = CreationWorld(
    pickRoll: nat,
    reply: Option<string>,
    parse: string -> Option<Writer.Article>,
    imagePath: string,
    draftWriteOk: bool,
    hour: int,
    publishOk: bool)

  /** What the repair agent and the deep recovery meet. */
  datatype RepairWorld = RepairWorld(
    pageReadable: bool,
    reply: Option<string>,
    execPatch: string -> Option<seq<string>>,
    reloadOk: bool,
    deepReloadOk: bool,
    urlAfterReload: string)

  /**
   * One loop iteration: the clock at the loop test, a Ctrl-C during the cycle,
   * a browser exception raised inside the cycle (for instance once the browser
   * has gone away), the cycle's own world, and the time read for the creation
   * check.
   */
  datatype Pass = Pass(
    clock: int,
    interrupted: bool,
    crash: Option<string>,
    world: Interaction.CycleWorld,
    writeOk: bool,
    now: int,
    creation: CreationWorld,
    repair: RepairWorld)

  datatype Exit = TimeUp | Interrupted | BrowserGone(message: string) | TraceEnd

  /** Where `_create_and_publish_cycle` stopped. */
  datatype CreationReport = NoMaterial | DraftFailed | NoImage | Saved(published: bool)

  datatype PassReport =
    | Cycled(created: Option<CreationReport>)
    | Stopped(exit: Exit)
    | Repaired(how: Recovery.Diagnosis)
    | DeepRecovered(how: Recovery.Diagnosis, wentHome: bool)

  /** How a shift ended and how many loop bodies ran. */
  datatype ShiftEnd = ShiftEnd(exit: Exit, ran: nat)

  /** The message of the exception an iteration raises, if any. */
  function PassError(p: Pass): Option<string>
  {
    if p.crash.Some? then p.crash else Interaction.CycleError(p.world)
  }

  /** Whether an iteration leaves the loop: a Ctrl-C, or an exception naming a closed browser. */
  function PassStop(p: Pass): (r: Option<Exit>)
    ensures r.Some? ==> r.value.Interrupted? || r.value.BrowserGone?
    ensures r.Some? && r.value.BrowserGone? ==> PassError(p) == Some(r.value.message) && Recovery.IsFatal(r.value.message)
    ensures r.None? <==> !p.interrupted && (PassError(p).None? || !Recovery.IsFatal(PassError(p).value))
  {
    if p.interrupted then Some(Interrupted)
    else match PassError(p)
      case Some(m) => if Recovery.IsFatal(m) then Some(BrowserGone(m)) else None
      case None => None
  }

  /** The end of a shift that started at `start`, as decided by its passes. */
  function ShiftExit(passes: seq<Pass>, start: int, maxDuration: int): (r: ShiftEnd)
    decreases |passes|
  {
    if passes == [] then ShiftEnd(TraceEnd, 0)
    else if !(passes[0].clock - start < maxDuration) then ShiftEnd(TimeUp, 0)
    else match PassStop(passes[0])
      case Some(e) => ShiftEnd(e, 1)
      case None =>
        var rest := ShiftExit(passes[1..], start, maxDuration);
        ShiftEnd(rest.exit, rest.ran + 1)
  }

  /**
   * Every loop body that ran started inside the time budget, and all but the
   * last carried on; the exit names why the loop ended.
   */
  lemma {:induction false} ShiftExitSound(passes: seq<Pass>, start: int, maxDuration: int)
    ensures var r := ShiftExit(passes, start, maxDuration);
      r.ran <= |passes|
      && (forall k :: 0 <= k < r.ran ==> passes[k].clock - start < maxDuration)
      && (forall k :: 0 <= k < r.ran - 1 ==> PassStop(passes[k]).None?)
      && (r.exit == TimeUp ==> r.ran < |passes| && !(passes[r.ran].clock - start < maxDuration)
                                && forall k :: 0 <= k < r.ran ==> PassStop(passes[k]).None?)
      && (r.exit == TraceEnd ==> r.ran == |passes| && forall k :: 0 <= k < r.ran ==> PassStop(passes[k]).None?)
      && (r.exit == Interrupted ==> r.ran > 0 && passes[r.ran - 1].interrupted)
      && (r.exit.BrowserGone? ==>
            (r.ran > 0 && PassError(passes[r.ran - 1]) == Some(r.exit.message) && Recovery.IsFatal(r.exit.message)))
    decreases |passes|
  {
    if passes != [] && passes[0].clock - start < maxDuration && PassStop(passes[0]).None? {
      ShiftExitSound(passes[1..], start, maxDuration);
      var rest := ShiftExit(passes[1..], start, maxDuration);
      assert forall k :: 1 <= k < |passes| ==> passes[1..][k - 1] == passes[k];
    }
  }

  /**
   * There is no way out of the loop on an error that does not name a closed
   * browser: without Ctrl-C and fatal messages a shift runs until its time is up.
   */
  lemma {:induction false} NoExitOnRepairableErrors(passes: seq<Pass>, start: int, maxDuration: int)
    requires forall k :: 0 <= k < |passes| ==> PassStop(passes[k]).None?
    ensures ShiftExit(passes, start, maxDuration).exit == TimeUp || ShiftExit(passes, start, maxDuration).exit == TraceEnd
    decreases |passes|
  {
    if passes != [] && passes[0].clock - start < maxDuration {
      assert forall k :: 0 <= k < |passes| - 1 ==> passes[1..][k] == passes[k + 1];
      NoExitOnRepairableErrors(passes[1..], start, maxDuration);
    }
  }

  /** The rest of a shift after one iteration that carried on. */
  lemma {:induction false} ShiftStep(passes: seq<Pass>, i: nat, start: int, maxDuration: int)
    requires i < |passes| && passes[i].clock - start < maxDuration && PassStop(passes[i]).None?
    ensures ShiftExit(passes[i..], start, maxDuration)
      == ShiftEnd(ShiftExit(passes[i + 1..], start, maxDuration).exit, ShiftExit(passes[i + 1..], start, maxDuration).ran + 1)
  {
    assert passes[i..][1..] == passes[i + 1..];
  }

  /** `_deep_recovery`: reload, and go back to the home page when the reload left the site; never raises. */
  method DeepRecovery(r: RepairWorld) returns (wentHome: bool)
    ensures wentHome <==> r.deepReloadOk && !Contains(r.urlAfterReload, "xiaohongshu.com")
  {
    wentHome := false;
    if !r.deepReloadOk {
      return;
    }
    if !Contains(r.urlAfterReload, "xiaohongshu.com") {
      wentHome := true;
    }
  }

  /** What a creation run leaves in the drafts file once the draft has its image. */
  function DraftsAfterCreation(drafts: seq<Writer.Draft>, article: Writer.Article, c: CreationWorld, now: int): (r: seq<Writer.Draft>)
    ensures |r| == |drafts| + (if c.draftWriteOk then 1 else 0)
    ensures forall k :: 0 <= k < |drafts| && drafts[k].status == Writer.Published ==> r[k].status == Writer.Published
  {
    var saved := if c.draftWriteOk then drafts + [Writer.Draft(article, c.imagePath, now, Writer.ReadyToPublish, None)] else drafts;
    Writer.PublishMonotone(saved, now, now);
    if c.hour in PublishHours && c.publishOk then Writer.PublishFirst(saved, now, now) else saved
  }

  /** A freshly saved draft is published only at a publishing hour and when the publisher succeeded. */
  lemma {:induction false} NewDraftPublishedIff(drafts: seq<Writer.Draft>, article: Writer.Article, c: CreationWorld, now: int)
    requires c.draftWriteOk
    requires forall k :: 0 <= k < |drafts| ==> drafts[k].createdAt != now
    ensures DraftsAfterCreation(drafts, article, c, now)[|drafts|].status == Writer.Published
      <==> c.hour in PublishHours && c.publishOk
    ensures forall k :: 0 <= k < |drafts| ==> DraftsAfterCreation(drafts, article, c, now)[k] == drafts[k]
  {
    var saved := drafts + [Writer.Draft(article, c.imagePath, now, Writer.ReadyToPublish, None)];
    Writer.FirstCreatedAtAppend(drafts, Writer.Draft(article, c.imagePath, now, Writer.ReadyToPublish, None));
    Writer.PublishFirstOnly(saved, now, now);
  }

  /**
   * Everything a shift changes: the supervisor's failure counter and creation
   * stamp, the executor's post counter and keyword index, the knowledge base
   * and the drafts file.
   */
  datatype ShiftState = ShiftState(
    failures: nat,
    lastCreation: int,
    posts: nat,
    keyword: nat,
    store: KnowledgeStore.StoreState,
    drafts: seq<Writer.Draft>)

  /** The settings the executor and the knowledge base were built with. */
  datatype Setup = Setup(searchInterval: nat, bufferMaxSize: nat, flushInterval: int)

  /**
   * `_create_and_publish_cycle` on the stored data: it saves a draft exactly
   * when an unused inspiration, an article and an image all exist, and then
   * marks that inspiration used; every other run changes nothing.
   */
  function Creation(s: ShiftState, c: CreationWorld, now: int): (r: (CreationReport, ShiftState))
    ensures var pick := Writer.PickInspiration(s.store.persisted, c.pickRoll);
      && (r.0 == NoMaterial <==> pick.Err?)
      && (r.0 == DraftFailed <==> pick.Ok? && Writer.WriteFromInspiration(pick.value, c.reply, c.parse).None?)
      && (r.0 == NoImage <==> pick.Ok? && Writer.WriteFromInspiration(pick.value, c.reply, c.parse).Some? && c.imagePath == "")
      && (r.0.Saved? <==> pick.Ok? && Writer.WriteFromInspiration(pick.value, c.reply, c.parse).Some? && c.imagePath != "")
    ensures !r.0.Saved? ==> r.1 == s
    ensures r.0.Saved? ==> r.0.published == (c.hour in PublishHours && c.publishOk)
    ensures r.1.store.buffer == s.store.buffer && r.1.store.lastFlushTime == s.store.lastFlushTime
    ensures |r.1.store.persisted| == |s.store.persisted|
    ensures |r.1.drafts| == |s.drafts| + (if r.0.Saved? && c.draftWriteOk then 1 else 0)
    ensures forall k :: 0 <= k < |s.drafts| && s.drafts[k].status == Writer.Published ==> r.1.drafts[k].status == Writer.Published
    ensures (r.1.failures, r.1.lastCreation, r.1.posts, r.1.keyword) == (s.failures, s.lastCreation, s.posts, s.keyword)
  {
    var pick := Writer.PickInspiration(s.store.persisted, c.pickRoll);
    if pick.Err? then (NoMaterial, s)
    else
      var article := Writer.WriteFromInspiration(pick.value, c.reply, c.parse);
      if article.None? then (DraftFailed, s)
      else if c.imagePath == "" then (NoImage, s)
      else
        (Saved(c.hour in PublishHours && c.publishOk),
         s.(store := s.store.(persisted := KnowledgeStore.MarkFirst(s.store.persisted, pick.value.id, now)),
            drafts := DraftsAfterCreation(s.drafts, article.value, c, now)))
  }

  /** The creation trigger: enough high-quality unused inspirations, and the cooldown has passed. */
  predicate CreationDue(s: ShiftState, now: int)
  {
    KnowledgeStore.CountEligible(s.store.persisted, true) >= InspirationThreshold && now - s.lastCreation > CreationCooldown
  }

  /** The creation check after a clean cycle: a creation run, stamped, exactly when it is due. */
  function CreationAfter(s: ShiftState, now: int, c: CreationWorld): (r: (Option<CreationReport>, ShiftState))
    ensures r.0.Some? <==> CreationDue(s, now)
    ensures r.0.Some? ==> r.0.value == Creation(s, c, now).0 && r.1 == Creation(s, c, now).1.(lastCreation := now)
    ensures r.0.None? ==> r.1 == s
  {
    if CreationDue(s, now) then
      var run := Creation(s, c, now);
      (Some(run.0), run.1.(lastCreation := now))
    else (None, s)
  }

  /**
   * `execute_one_cycle` on the state: the keyword rotates when due; a cycle
   * that reaches the detail view counts one post and runs the interaction's
   * save; an error or a detail timeout changes nothing else.
   */
  function CycleAfter(s: ShiftState, w: Interaction.CycleWorld, now: int, writeOk: bool, setup: Setup)
    : (r: (Option<string>, ShiftState))
    ensures r.0 == Interaction.CycleError(w)
    ensures r.1.keyword == s.keyword + (if Interaction.RotationDueAt(s.posts, setup.searchInterval) then 1 else 0)
    ensures (r.1.failures, r.1.lastCreation, r.1.drafts) == (s.failures, s.lastCreation, s.drafts)
    ensures r.1.posts == s.posts + (if r.0.None? && w.detailOpened then 1 else 0)
  {
    var rotated := s.(keyword := if Interaction.RotationDueAt(s.posts, setup.searchInterval) then s.keyword + 1 else s.keyword);
    if Interaction.CycleError(w).Some? || !w.detailOpened then (Interaction.CycleError(w), rotated)
    else
      (None, rotated.(posts := s.posts + 1,
                      store := Interaction.InteractStore(s.store, w, setup.bufferMaxSize, setup.flushInterval, now, writeOk)))
  }

  /**
   * The `except Exception` branch on the state: a fatal message stops the
   * shift; otherwise the repair agent's verdict decides between a repair,
   * which resets the failure counter, and a deep recovery, which counts it.
   */
  function Handled(s: ShiftState, msg: string, r: RepairWorld): (res: (PassReport, ShiftState))
    ensures res.0.Stopped? <==> Recovery.IsFatal(msg)
    ensures !Recovery.IsFatal(msg) ==>
      (res.0.Repaired? <==> Recovery.Diagnosed(msg, r.pageReadable, r.reply, r.execPatch, r.reloadOk).0)
    ensures res.0.Repaired? || res.0.DeepRecovered? ==>
      res.0.how == Recovery.Diagnosed(msg, r.pageReadable, r.reply, r.execPatch, r.reloadOk).1
    ensures res.1 == s.(failures := if res.0.Repaired? then 0 else s.failures + 1)
  {
    if Recovery.IsFatal(msg) then (Stopped(BrowserGone(msg)), s.(failures := s.failures + 1))
    else
      var d := Recovery.Diagnosed(msg, r.pageReadable, r.reply, r.execPatch, r.reloadOk);
      if d.0 then (Repaired(d.1), s.(failures := 0))
      else (DeepRecovered(d.1, r.deepReloadOk && !Contains(r.urlAfterReload, "xiaohongshu.com")), s.(failures := s.failures + 1))
  }

  /** One body of the `start_shift` loop on the state. */
  function PassAfter(s: ShiftState, p: Pass, setup: Setup): (r: (PassReport, ShiftState))
  {
    if p.interrupted then (Stopped(Interrupted), s)
    else
      var cycle := if p.crash.Some? then (p.crash, s) else CycleAfter(s, p.world, p.now, p.writeOk, setup);
      if cycle.0.None? then
        var created := CreationAfter(cycle.1, p.now, p.creation);
        (Cycled(created.0), created.1.(failures := 0))
      else Handled(cycle.1, cycle.0.value, p.repair)
  }

  /** The reports of the loop bodies that run, and the state the shift ends in. */
  function ShiftRun(s: ShiftState, passes: seq<Pass>, start: int, maxDuration: int, setup: Setup)
    : (r: (seq<PassReport>, ShiftState))
    decreases |passes|
  {
    if passes == [] || !(passes[0].clock - start < maxDuration) then ([], s)
    else
      var pass := PassAfter(s, passes[0], setup);
      if pass.0.Stopped? then ([pass.0], pass.1)
      else
        var rest := ShiftRun(pass.1, passes[1..], start, maxDuration, setup);
        ([pass.0] + rest.0, rest.1)
  }

  /**
   * A pass stops exactly as PassStop says; an error that is not fatal is
   * repaired exactly when the repair agent says it is fixed, and every clean
   * or repaired pass resets the failure counter.
   */
  lemma {:induction false} PassOutcome(s: ShiftState, p: Pass, setup: Setup)
    ensures var r := PassAfter(s, p, setup);
      && (r.0.Stopped? <==> PassStop(p).Some?)
      && (r.0.Stopped? ==> r.0.exit == PassStop(p).value)
      && (r.0.Cycled? <==> !p.interrupted && PassError(p).None?)
      && (!p.interrupted && PassError(p).Some? && !Recovery.IsFatal(PassError(p).value) ==>
            (r.0.Repaired? <==> Recovery.Diagnosed(PassError(p).value, p.repair.pageReadable, p.repair.reply,
                                                   p.repair.execPatch, p.repair.reloadOk).0))
      && (r.0.Cycled? || r.0.Repaired? ==> r.1.failures == 0)
      && (r.0.DeepRecovered? || (r.0.Stopped? && r.0.exit.BrowserGone?) ==> r.1.failures > s.failures)
  {
    if !p.interrupted && p.crash.None? {
      var cycle := CycleAfter(s, p.world, p.now, p.writeOk, setup);
      assert cycle.0 == PassError(p);
    }
  }

  /** A pass never removes a stored inspiration or a draft, and never unpublishes a draft. */
  lemma {:induction false} PassKeepsRecords(s: ShiftState, p: Pass, setup: Setup)
    ensures var r := PassAfter(s, p, setup).1;
      |s.store.persisted| <= |r.store.persisted| && |s.drafts| <= |r.drafts|
      && forall k :: 0 <= k < |s.drafts| && s.drafts[k].status == Writer.Published ==> r.drafts[k].status == Writer.Published
  {
    if !p.interrupted {
      var cycle := if p.crash.Some? then (p.crash, s) else CycleAfter(s, p.world, p.now, p.writeOk, setup);
      if p.crash.None? && Interaction.CycleError(p.world).None? && p.world.detailOpened
        && p.world.thinkRoll < ProbTriggerThinking && LlmClient.IsRelevant(p.world.analysis) {
        KnowledgeStore.SaveKeepsStored(s.store, Interaction.SavedRecord(p.world, p.now), setup.bufferMaxSize,
                                       setup.flushInterval, p.now, p.writeOk);
      }
      assert |s.store.persisted| <= |cycle.1.store.persisted| && cycle.1.drafts == s.drafts;
    }
  }

  /**
   * The shift runs exactly the loop bodies ShiftExit counts, and over the whole
   * shift no inspiration or draft is lost and no draft is unpublished.
   */
  lemma {:induction false} ShiftRunShape(s: ShiftState, passes: seq<Pass>, start: int, maxDuration: int, setup: Setup)
    ensures var r := ShiftRun(s, passes, start, maxDuration, setup);
      |r.0| == ShiftExit(passes, start, maxDuration).ran
      && |s.store.persisted| <= |r.1.store.persisted| && |s.drafts| <= |r.1.drafts|
      && forall k :: 0 <= k < |s.drafts| && s.drafts[k].status == Writer.Published ==> r.1.drafts[k].status == Writer.Published
    decreases |passes|
  {
    if passes != [] && passes[0].clock - start < maxDuration {
      PassOutcome(s, passes[0], setup);
      PassKeepsRecords(s, passes[0], setup);
      var pass := PassAfter(s, passes[0], setup);
      if !pass.0.Stopped? {
        ShiftRunShape(pass.1, passes[1..], start, maxDuration, setup);
      }
    }
  }

  /**
   * The reports of a shift match its exit: one per loop body ShiftExit counts,
   * only the last one stopping, and exactly when the exit is a Ctrl-C or a
   * closed browser, which that report names.
   */
  lemma {:induction false} ShiftRunExit(s: ShiftState, passes: seq<Pass>, start: int, maxDuration: int, setup: Setup)
    ensures var r := ShiftRun(s, passes, start, maxDuration, setup).0;
      var e := ShiftExit(passes, start, maxDuration);
      && |r| == e.ran
      && (forall k :: 0 <= k < |r| ==> (r[k].Stopped? <==> k == |r| - 1 && !e.exit.TimeUp? && !e.exit.TraceEnd?))
      && (|r| > 0 && r[|r| - 1].Stopped? ==> e.exit == r[|r| - 1].exit)
      && (!(|r| > 0 && r[|r| - 1].Stopped?) ==> e.exit == if |r| < |passes| then TimeUp else TraceEnd)
    decreases |passes|
  {
    if passes != [] && passes[0].clock - start < maxDuration {
      PassOutcome(s, passes[0], setup);
      var pass := PassAfter(s, passes[0], setup);
      if !pass.0.Stopped? {
        ShiftRunExit(pass.1, passes[1..], start, maxDuration, setup);
        var rest := ShiftRun(pass.1, passes[1..], start, maxDuration, setup).0;
        var r := [pass.0] + rest;
        assert forall k :: 1 <= k < |r| ==> r[k] == rest[k - 1];
      }
    }
  }

  /** The exit of a shift, read off its reports: the stopping report's exit, or why the loop ran out. */
  lemma {:induction false} ShiftRunEnd(s: ShiftState, passes: seq<Pass>, start: int, maxDuration: int, setup: Setup,
                                      reports: seq<PassReport>, end: ShiftEnd)
    requires reports == ShiftRun(s, passes, start, maxDuration, setup).0
    requires end == if |reports| > 0 && reports[|reports| - 1].Stopped? then ShiftEnd(reports[|reports| - 1].exit, |reports|)
                    else ShiftEnd(if |reports| < |passes| then TimeUp else TraceEnd, |reports|)
    ensures end == ShiftExit(passes, start, maxDuration) && |reports| == end.ran
    ensures forall k :: 0 <= k < |reports| ==> (reports[k].Stopped? <==> k == |reports| - 1 && !end.exit.TimeUp? && !end.exit.TraceEnd?)
  {
    ShiftRunExit(s, passes, start, maxDuration, setup);
  }

  /** Once the loop condition fails at position `i`, the shift has run its last loop body. */
  lemma {:induction false} ShiftRunDone(s0: ShiftState, passes: seq<Pass>, i: nat, start: int, maxDuration: int, setup: Setup,
                                       reports: seq<PassReport>, s: ShiftState)
    requires i <= |passes| && !(i < |passes| && passes[i].clock - start < maxDuration)
    requires ShiftRun(s0, passes, start, maxDuration, setup)
      == (reports + ShiftRun(s, passes[i..], start, maxDuration, setup).0, ShiftRun(s, passes[i..], start, maxDuration, setup).1)
    ensures ShiftRun(s0, passes, start, maxDuration, setup) == (reports, s)
  {
    assert i < |passes| ==> passes[i..][0] == passes[i];
    assert reports + [] == reports;
  }

  /** One loop body of ShiftRun, from position `i` of the passes. */
  lemma {:induction false} ShiftRunStep(s: ShiftState, passes: seq<Pass>, i: nat, start: int, maxDuration: int, setup: Setup,
                                       report: PassReport, s': ShiftState)
    requires i < |passes| && passes[i].clock - start < maxDuration
    requires (report, s') == PassAfter(s, passes[i], setup)
    ensures var rest := ShiftRun(s', passes[i + 1..], start, maxDuration, setup);
      ShiftRun(s, passes[i..], start, maxDuration, setup)
        == if report.Stopped? then ([report], s') else ([report] + rest.0, rest.1)
  {
    assert passes[i..][0] == passes[i];
    assert passes[i..][1..] == passes[i + 1..];
  }

  class Supervisor {
    var consecutiveFailures: nat
    var lastCreationTime: int
    const maxDuration: int
    const executor: Interaction.ActionExecutor
    const writer: Writer.WriterAgent

    ghost predicate Valid()
      reads this, executor, executor.kb
    {
      executor.Valid()
    }

    /** The state a shift changes. */
    function State(): ShiftState
      reads this, executor, executor.kb, writer
    {
      ShiftState(consecutiveFailures, lastCreationTime, executor.postsProcessedCount, executor.currentKeywordIndex,
                 executor.kb.State(), writer.drafts)
    }

    function Config(): Setup
    {
      Setup(executor.searchInterval, executor.kb.bufferMaxSize, executor.kb.flushInterval)
    }

    constructor (exec: Interaction.ActionExecutor, drafts: Writer.WriterAgent, duration: int)
      requires exec.Valid()
      ensures Valid() && executor == exec && writer == drafts && maxDuration == duration
      ensures consecutiveFailures == 0 && lastCreationTime == 0
    {
      executor := exec;
      writer := drafts;
      maxDuration := duration;
      consecutiveFailures := 0;
      lastCreationTime := 0;
    }

    /**
     * `_create_and_publish_cycle`: pick any unused inspiration, write an article
     * from it, and stop (changing nothing) when either step fails or no image
     * was generated. Otherwise save the draft, mark exactly that inspiration
     * used, and publish the draft when the hour is a publishing hour and the
     * publisher succeeded.
     */
    method CreateAndPublishCycle(c: CreationWorld, now: int) returns (report: CreationReport)
      requires Valid()
      modifies executor.kb, writer
      ensures Valid()
      ensures var pick := Writer.PickInspiration(old(executor.kb.persisted), c.pickRoll);
        (pick.Err? ==> report == NoMaterial)
        && (pick.Ok? && Writer.WriteFromInspiration(pick.value, c.reply, c.parse).None? ==> report == DraftFailed)
        && (pick.Ok? && Writer.WriteFromInspiration(pick.value, c.reply, c.parse).Some? && c.imagePath == "" ==> report == NoImage)
        && (report.Saved? ==>
              pick.Ok? && Writer.WriteFromInspiration(pick.value, c.reply, c.parse).Some? && c.imagePath != ""
              && report.published == (c.hour in PublishHours && c.publishOk)
              && executor.kb.persisted == KnowledgeStore.MarkFirst(old(executor.kb.persisted), pick.value.id, now)
              && writer.drafts == DraftsAfterCreation(old(writer.drafts), Writer.WriteFromInspiration(pick.value, c.reply, c.parse).value, c, now))
      ensures !report.Saved? ==> unchanged(executor.kb) && unchanged(writer)
      ensures report.Saved? || report == NoMaterial || report == DraftFailed || report == NoImage
      ensures executor.kb.buffer == old(executor.kb.buffer) && executor.kb.lastFlushTime == old(executor.kb.lastFlushTime)
      ensures var pick := Writer.PickInspiration(old(executor.kb.persisted), c.pickRoll);
        report.Saved? <==> pick.Ok? && Writer.WriteFromInspiration(pick.value, c.reply, c.parse).Some? && c.imagePath != ""
      ensures (report, State()) == Creation(old(State()), c, now)
    {
      var kb := executor.kb;
      var pick := Writer.PickInspiration(kb.persisted, c.pickRoll);
      if pick.Err? {
        return NoMaterial;
      }
      var inspiration := pick.value;
      var article := Writer.WriteFromInspiration(inspiration, c.reply, c.parse);
      if article.None? {
        return DraftFailed;
      }
      if c.imagePath == "" {
        return NoImage;
      }
      var _ := writer.SaveDraft(article.value, c.imagePath, now, c.draftWriteOk);
      kb.MarkAsUsed(inspiration.id, now);
      var published := false;
      if c.hour in PublishHours && c.publishOk {
        writer.MarkDraftPublished(now, now);
        published := true;
      }
      report := Saved(published);
    }

    /**
     * The `except Exception` branch: count the failure, give up on a closed
     * browser, otherwise repair and, when that fails, run the deep recovery.
     */
    method HandleError(msg: string, r: RepairWorld) returns (report: PassReport)
      modifies this`consecutiveFailures
      ensures Recovery.IsFatal(msg) <==> report.Stopped?
      ensures report.Stopped? ==> report.exit == BrowserGone(msg)
      ensures report.Repaired? || report.DeepRecovered? || report.Stopped?
      ensures report.Repaired? ==> consecutiveFailures == 0 && (report.how.AiFixed? || report.how.Reloaded?)
      ensures report.DeepRecovered? || report.Stopped? ==> consecutiveFailures == old(consecutiveFailures) + 1
      ensures report.DeepRecovered? ==>
        (report.how.ReloadFailed? && (report.wentHome <==> r.deepReloadOk && !Contains(r.urlAfterReload, "xiaohongshu.com")))
      ensures !Recovery.IsFatal(msg) ==>
        (report.Repaired? <==> Recovery.Diagnosed(msg, r.pageReadable, r.reply, r.execPatch, r.reloadOk).0)
      ensures (report, State()) == Handled(old(State()), msg, r)
    {
      consecutiveFailures := consecutiveFailures + 1;
      if Recovery.IsFatal(msg) {
        return Stopped(BrowserGone(msg));
      }
      var fixed, how := Recovery.DiagnoseAndFix(msg, r.pageReadable, r.reply, r.execPatch, r.reloadOk);
      if fixed {
        consecutiveFailures := 0;
        return Repaired(how);
      }
      var home := DeepRecovery(r);
      return DeepRecovered(how, home);
    }

    /**
     * After a clean cycle: create when the file holds enough high-quality
     * unused inspirations and the cooldown has passed, recording the creation
     * time whatever the creation run achieved.
     */
    method CreationCheck(now: int, c: CreationWorld) returns (created: Option<CreationReport>)
      requires Valid()
      modifies this`lastCreationTime, executor.kb, writer
      ensures Valid()
      ensures created.Some? ==>
        (old(executor.kb.ShouldCreateContent()) && now - old(lastCreationTime) > CreationCooldown && lastCreationTime == now)
      ensures created.None? ==>
        (lastCreationTime == old(lastCreationTime) && unchanged(executor.kb) && unchanged(writer)
         && !(executor.kb.ShouldCreateContent() && now - lastCreationTime > CreationCooldown))
      ensures (created, State()) == CreationAfter(old(State()), now, c)
    {
      created := None;
      if executor.kb.ShouldCreateContent() && now - lastCreationTime > CreationCooldown {
        var r := CreateAndPublishCycle(c, now);
        created := Some(r);
        lastCreationTime := now;
      }
    }

    /**
     * One body of the `start_shift` loop. A clean cycle resets the failure
     * counter and may run a creation; a raised error goes to `HandleError`.
     */
    method RunPass(p: Pass) returns (report: PassReport)
      requires Valid()
      modifies this, executor, executor.kb, writer
      ensures Valid()
      ensures PassStop(p).Some? <==> report.Stopped?
      ensures report.Stopped? ==> report.exit == PassStop(p).value
      ensures report.Cycled? <==> !p.interrupted && PassError(p).None?
      ensures report.Cycled? || report.Repaired? ==> consecutiveFailures == 0
      ensures report.DeepRecovered? || (report.Stopped? && report.exit.BrowserGone?) ==>
        consecutiveFailures == old(consecutiveFailures) + 1
      ensures report == Stopped(Interrupted) ==> consecutiveFailures == old(consecutiveFailures)
      ensures report.Repaired? ==> report.how.AiFixed? || report.how.Reloaded?
      ensures report.DeepRecovered? ==>
        (report.how.ReloadFailed?
         && (report.wentHome <==> p.repair.deepReloadOk && !Contains(p.repair.urlAfterReload, "xiaohongshu.com")))
      ensures report.Cycled? && report.created.Some? ==>
        p.now - old(lastCreationTime) > CreationCooldown && lastCreationTime == p.now
      ensures report.Cycled? && report.created.None? ==>
        (lastCreationTime == old(lastCreationTime)
         && !(executor.kb.ShouldCreateContent() && p.now - lastCreationTime > CreationCooldown))
      ensures !report.Cycled? ==> lastCreationTime == old(lastCreationTime)
      ensures (report, State()) == PassAfter(old(State()), p, Config())
    {
      if p.interrupted {
        return Stopped(Interrupted);
      }
      var error: Option<string> := p.crash;
      if error.None? {
        error, report := TryCycle(p);
        if error.None? {
          return;
        }
      }
      report := HandleError(error.value, p.repair);
    }

    /** The `try` body of one pass without a crash: a cycle and, when it completes cleanly, the creation check. */
    method TryCycle(p: Pass) returns (error: Option<string>, report: PassReport)
      requires Valid() && p.crash.None?
      modifies this, executor, executor.kb, writer
      ensures Valid()
      ensures error == PassError(p)
      ensures error.None? ==> report.Cycled? && consecutiveFailures == 0
      ensures error.None? && report.created.Some? ==>
        p.now - old(lastCreationTime) > CreationCooldown && lastCreationTime == p.now
      ensures error.None? && report.created.None? ==>
        (lastCreationTime == old(lastCreationTime)
         && !(executor.kb.ShouldCreateContent() && p.now - lastCreationTime > CreationCooldown))
      ensures error.Some? ==> lastCreationTime == old(lastCreationTime) && consecutiveFailures == old(consecutiveFailures)
      ensures var cycle := CycleAfter(old(State()), p.world, p.now, p.writeOk, Config());
        error == cycle.0
        && (error.None? ==>
              report == Cycled(CreationAfter(cycle.1, p.now, p.creation).0)
              && State() == CreationAfter(cycle.1, p.now, p.creation).1.(failures := 0))
        && (error.Some? ==> State() == cycle.1)
    {
      ghost var cycle := CycleAfter(State(), p.world, p.now, p.writeOk, Config());
      var outcome, _ := executor.ExecuteOneCycle(p.world, p.now, p.writeOk);
      assert State() == cycle.1 by {
        assert outcome == Interaction.Completed <==> Interaction.CycleError(p.world).None? && p.world.detailOpened;
        assert executor.currentKeywordIndex == cycle.1.keyword;
        assert executor.postsProcessedCount == cycle.1.posts;
        assert executor.kb.State() == cycle.1.store;
      }
      if outcome.Raised? {
        return Some(outcome.message), Cycled(None);
      }
      var created := CreationCheck(p.now, p.creation);
      consecutiveFailures := 0;
      return None, Cycled(created);
    }

    /**
     * `start_shift`: run loop bodies while the clock says the shift is not
     * over, until a Ctrl-C or a closed browser; one report per body that ran.
     */
    /** One loop body of StartShift: the pass at position `i` runs as ShiftRun runs it. */
    method ShiftPass(ghost s0: ShiftState, passes: seq<Pass>, i: nat, start: int, ghost reports: seq<PassReport>)
      returns (report: PassReport)
      requires Valid() && i < |passes| && passes[i].clock - start < maxDuration
      requires ShiftRun(s0, passes, start, maxDuration, Config())
        == (reports + ShiftRun(State(), passes[i..], start, maxDuration, Config()).0,
            ShiftRun(State(), passes[i..], start, maxDuration, Config()).1)
      modifies this, executor, executor.kb, writer
      ensures Valid()
      ensures report.Stopped? ==> ShiftRun(s0, passes, start, maxDuration, Config()) == (reports + [report], State())
      ensures !report.Stopped? ==>
        ShiftRun(s0, passes, start, maxDuration, Config())
          == (reports + [report] + ShiftRun(State(), passes[i + 1..], start, maxDuration, Config()).0,
              ShiftRun(State(), passes[i + 1..], start, maxDuration, Config()).1)
    {
      ghost var before := State();
      report := RunPass(passes[i]);
      ShiftRunStep(before, passes, i, start, maxDuration, Config(), report, State());
      ghost var rest := ShiftRun(State(), passes[i + 1..], start, maxDuration, Config());
      assert reports + ([report] + rest.0) == reports + [report] + rest.0;
    }

    method StartShift(start: int, passes: seq<Pass>) returns (end: ShiftEnd, reports: seq<PassReport>)
      requires Valid()
      modifies this, executor, executor.kb, writer
      ensures Valid()
      ensures end == ShiftExit(passes, start, maxDuration)
      ensures |reports| == end.ran
      ensures forall k :: 0 <= k < |reports| ==> (reports[k].Stopped? <==> k == |reports| - 1 && !end.exit.TimeUp? && !end.exit.TraceEnd?)
      ensures (reports, State()) == ShiftRun(old(State()), passes, start, maxDuration, Config())
    {
      ghost var s0 := State();
      reports := [];
      var i := 0;
      var stopped := false;
      assert passes[0..] == passes;
      assert reports + ShiftRun(s0, passes, start, maxDuration, Config()).0 == ShiftRun(s0, passes, start, maxDuration, Config()).0;
      while !stopped && i < |passes| && passes[i].clock - start < maxDuration
        invariant 0 <= i <= |passes| && |reports| == i
        invariant Valid()
        invariant !stopped ==>
          ShiftRun(s0, passes, start, maxDuration, Config())
            == (reports + ShiftRun(State(), passes[i..], start, maxDuration, Config()).0,
                ShiftRun(State(), passes[i..], start, maxDuration, Config()).1)
        invariant stopped ==> i > 0 && reports[i - 1].Stopped? && ShiftRun(s0, passes, start, maxDuration, Config()) == (reports, State())
        invariant !stopped && i > 0 ==> !reports[i - 1].Stopped?
        decreases |passes| - i
      {
        var report := ShiftPass(s0, passes, i, start, reports);
        reports := reports + [report];
        stopped := report.Stopped?;
        i := i + 1;
      }
      if stopped {
        end := ShiftEnd(reports[i - 1].exit, i);
      } else {
        ShiftRunDone(s0, passes, i, start, maxDuration, Config(), reports, State());
        end := ShiftEnd(if i < |passes| then TimeUp else TraceEnd, i);
      }
      ShiftRunEnd(s0, passes, start, maxDuration, Config(), reports, end);
    }
  }
}
