/**
 * The self-healing agent (core/recovery.py). The page, the chat completion and
 * `exec` of the generated patch are oracles: the caller says whether the page
 * HTML could be read, what the model answered (None when the request raised),
 * what the executed patch printed (None when `exec` or awaiting the patch
 * raised outside the patch's own try), and whether the reload completed.
 */
module Recovery {
  import opened Wrappers
  import opened Strings
  import Sorting

  const FatalMarkers: seq<string> := ["Target closed", "Session closed"]
  const NetworkMarkers: seq<string> := ["Connection refused", "NS_ERROR", "net::ERR"]
  const Indent: string := "        "

  /** The browser is gone: no repair is attempted. */
  predicate IsFatal(msg: string)
  {
    Contains(msg, "Target closed") || Contains(msg, "Session closed")
  }

  /** `_is_network_error`: a pure network failure, for which no patch is synthesised. */
  predicate IsNetworkError(msg: string)
  {
    ContainsAny(msg, NetworkMarkers)
  }

  /** Markdown fences removed from the stripped answer: first ```python, then every ```. */
  function CleanSnippet(reply: string): string
  {
    ReplaceAll(ReplaceAll(Strip(reply), "```python", ""), "```", "")
  }

  /** A line that starts an event loop or a browser of its own, which the patch may not do. */
  predicate Forbidden(line: string)
  {
    Contains(line, "asyncio.run") || Contains(line, "async_playwright")
  }

  /** A line the patch filter drops: a forbidden call, or blank. */
  predicate Dropped(line: string)
  {
    Forbidden(line) || Strip(line) == ""
  }

  predicate Kept(line: string)
  {
    !Dropped(line)
  }

  /** The lines the patch filter keeps, unmodified and in order. */
  function KeptLines(lines: seq<string>): seq<string>
  {
    Sorting.Filter(lines, Kept)
  }

  /** Filtering distributes over concatenation, so the kept lines keep their relative order. */
  lemma {:induction false} KeptLinesAppend(a: seq<string>, b: seq<string>)
    ensures KeptLines(a + b) == KeptLines(a) + KeptLines(b)
  {
    Sorting.FilterAppend(a, b, Kept);
  }

  /** Exactly the lines that are neither blank nor forbidden survive the filter. */
  lemma {:induction false} KeptLinesExact(lines: seq<string>)
    ensures forall k :: 0 <= k < |KeptLines(lines)| ==> !Dropped(KeptLines(lines)[k]) && KeptLines(lines)[k] in lines
    ensures forall i :: 0 <= i < |lines| && !Dropped(lines[i]) ==> lines[i] in KeptLines(lines)
  {
    forall k | 0 <= k < |KeptLines(lines)|
      ensures !Dropped(KeptLines(lines)[k]) && KeptLines(lines)[k] in lines
    {
      Sorting.FilterMembers(lines, Kept, KeptLines(lines)[k]);
    }
    forall i | 0 <= i < |lines| && !Dropped(lines[i])
      ensures lines[i] in KeptLines(lines)
    {
      Sorting.FilterMembers(lines, Kept, lines[i]);
    }
  }

  /** The filter loop of `_ai_dynamic_fix` over the snippet's lines. */
  method FilterPatchLines(snippet: string) returns (lines: seq<string>)
    ensures lines == KeptLines(SplitLines(snippet))
  {
    var all := SplitLines(snippet);
    lines := [];
    var i := 0;
    while i < |all|
      invariant 0 <= i <= |all|
      invariant lines == KeptLines(all[..i])
    {
      var line := all[i];
      assert all[..i + 1][..i] == all[..i];
      if Forbidden(line) {
        i := i + 1;
        continue;
      }
      if Strip(line) != "" {
        lines := lines + [line];
      }
      i := i + 1;
    }
    assert all[..i] == all;
  }

  /** Each kept line behind eight spaces of indentation, joined by newlines. */
  function IndentBlock(lines: seq<string>): (r: string)
  {
    Join(seq(|lines|, k requires 0 <= k < |lines| => Indent + lines[k]), "\n")
  }

  /** The wrapper the patch is executed in: a try around it, returning True, printing PATCH_ERROR on failure. */
  function WrappedCode(block: string): (r: string)
    ensures Contains(r, block)
  {
    ContainsMiddle(PatchHead, block, PatchTail);
    PatchHead + block + PatchTail
  }

  const PatchHead: string := "\nasync def __ai_patch():\n    try:\n"
  const PatchTail: string := "\n        return True\n    except Exception as e:\n        print(f\"PATCH_ERROR: {e}\")\n        return False\n"

  /** The sentinel check on everything the patch printed, joined by " | ". */
  predicate PatchSucceeded(printed: seq<string>)
  {
    var logs := Join(printed, " | ");
    Contains(logs, "FIX_SUCCESS") && !Contains(logs, "PATCH_ERROR")
  }

  /** How a recovery attempt ended. */
  datatype Diagnosis =
    | Fatal
    | AiFixed(code: string)
    | Reloaded(aiTried: bool)
    | ReloadFailed(aiTried: bool)

  /** The code `_ai_dynamic_fix` executes for a reply: the cleaned snippet, filtered, indented and wrapped. */
  function PatchCode(reply: string): (r: string)
    ensures Contains(r, IndentBlock(KeptLines(SplitLines(CleanSnippet(reply)))))
  {
    WrappedCode(IndentBlock(KeptLines(SplitLines(CleanSnippet(reply)))))
  }

  /** Whether `_ai_dynamic_fix` validates its patch: the page was read, the model replied, and the patch reported success. */
  predicate AiFixes(pageReadable: bool, reply: Option<string>, execPatch: string -> Option<seq<string>>)
  {
    pageReadable && reply.Some? && execPatch(PatchCode(reply.value)).Some?
    && PatchSucceeded(execPatch(PatchCode(reply.value)).value)
  }

  /**
   * `_ai_dynamic_fix`: the executed code, when one was built, and whether the
   * patch validated. Every failure inside yields false.
   */
  method AiDynamicFix(pageReadable: bool, reply: Option<string>, execPatch: string -> Option<seq<string>>)
    returns (ok: bool, code: Option<string>)
    ensures code.Some? <==> pageReadable && reply.Some?
    ensures code.Some? ==> exists lines :: lines == KeptLines(SplitLines(CleanSnippet(reply.value)))
                                          && code.value == WrappedCode(IndentBlock(lines))
    ensures ok <==> code.Some? && execPatch(code.value).Some? && PatchSucceeded(execPatch(code.value).value)
    ensures code.Some? ==> code.value == PatchCode(reply.value)
    ensures ok <==> AiFixes(pageReadable, reply, execPatch)
  {
    if !pageReadable || reply.None? {
      return false, None;
    }
    var snippet := CleanSnippet(reply.value);
    var lines := FilterPatchLines(snippet);
    var wrapped := WrappedCode(IndentBlock(lines));
    code := Some(wrapped);
    match execPatch(wrapped)
    case None =>
      ok := false;
    case Some(printed) =>
      ok := PatchSucceeded(printed);
  }

  /**
   * What `diagnose_and_fix` decides: give up on a fatal message; a validated
   * patch fixes any other non-network error whatever the reload would do;
   * otherwise the reload decides, recording whether a patch was tried.
   */
  function Diagnosed(msg: string, pageReadable: bool, reply: Option<string>,
                     execPatch: string -> Option<seq<string>>, reloadOk: bool): (r: (bool, Diagnosis))
    ensures r.1 == Fatal <==> IsFatal(msg)
    ensures r.0 <==> !IsFatal(msg) && ((!IsNetworkError(msg) && AiFixes(pageReadable, reply, execPatch)) || reloadOk)
    ensures r.0 <==> r.1.AiFixed? || r.1.Reloaded?
    ensures r.1.AiFixed? <==> !IsFatal(msg) && !IsNetworkError(msg) && AiFixes(pageReadable, reply, execPatch)
    ensures r.1.AiFixed? ==>
      reply.Some? && r.1.code == PatchCode(reply.value) && execPatch(r.1.code).Some? && PatchSucceeded(execPatch(r.1.code).value)
    ensures r.1.Reloaded? || r.1.ReloadFailed? ==> r.1.aiTried == !IsNetworkError(msg)
    ensures r.1.Reloaded? <==> !r.1.AiFixed? && !IsFatal(msg) && reloadOk
  {
    if IsFatal(msg) then (false, Fatal)
    else if !IsNetworkError(msg) && AiFixes(pageReadable, reply, execPatch) then (true, AiFixed(PatchCode(reply.value)))
    else if reloadOk then (true, Reloaded(!IsNetworkError(msg)))
    else (false, ReloadFailed(!IsNetworkError(msg)))
  }

  /**
   * `diagnose_and_fix`: fatal markers give up at once; other non-network errors
   * get a synthesised patch first; when that does not validate the page is
   * reloaded, which fixes the error unless the reload raises.
   */
  method DiagnoseAndFix(msg: string, pageReadable: bool, reply: Option<string>,
                        execPatch: string -> Option<seq<string>>, reloadOk: bool)
    returns (fixed: bool, how: Diagnosis)
    ensures IsFatal(msg) ==> how == Fatal && !fixed
    ensures how.Fatal? ==> IsFatal(msg)
    ensures !IsFatal(msg) && IsNetworkError(msg) ==> how == (if reloadOk then Reloaded(false) else ReloadFailed(false))
    ensures how.AiFixed? ==> !IsFatal(msg) && !IsNetworkError(msg) && execPatch(how.code).Some?
                             && PatchSucceeded(execPatch(how.code).value)
    ensures !IsFatal(msg) && !how.AiFixed? ==> (fixed <==> reloadOk)
    ensures fixed <==> how.AiFixed? || how.Reloaded?
    ensures (fixed, how) == Diagnosed(msg, pageReadable, reply, execPatch, reloadOk)
  {
    if IsFatal(msg) {
      return false, Fatal;
    }
    var aiTried := false;
    if !IsNetworkError(msg) {
      aiTried := true;
      var ok, code := AiDynamicFix(pageReadable, reply, execPatch);
      if ok {
        return true, AiFixed(code.value);
      }
    }
    if reloadOk {
      return true, Reloaded(aiTried);
    }
    return false, ReloadFailed(aiTried);
  }

  /** A patch that reports success but also an error is not accepted. */
  lemma {:induction false} BothSentinelsFail(printed: seq<string>)
    requires exists k :: 0 <= k < |printed| && Contains(printed[k], "PATCH_ERROR")
    ensures !PatchSucceeded(printed)
  {
    var k :| 0 <= k < |printed| && Contains(printed[k], "PATCH_ERROR");
    ContainsInJoin(printed, " | ", k, "PATCH_ERROR");
  }
}
