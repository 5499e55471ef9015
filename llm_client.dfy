/**
 * Post-processing of the post-analysis answer (core/llm_client.py). The chat
 * completion itself and `json.loads` are oracles: the caller passes the raw
 * reply (None when the request raised) and a parser that yields the decoded
 * object, or None when the text is not a JSON object.
 */
module LlmClient {
  import opened Wrappers
  import opened Strings

  /** The analysis dictionary; a field is None when its key is absent. */
  datatype Analysis = Analysis(
    isRelevant: Option<bool>,
    isHighQuality: Option<bool>,
    shouldComment: Option<bool>,
    commentText: Option<string>,
    styleHint: Option<string>)

  /** The dictionary returned whenever anything in the pipeline raises. */
  const Failure: Analysis := Analysis(Some(false), Some(false), Some(false), Some(""), Some(""))

  /** `analysis.get("is_relevant")` read as a Python truth value. */
  predicate IsRelevant(a: Analysis)
  {
    a.isRelevant == Some(true)
  }

  /**
   * Cleans a reply before parsing: strip, cut a leading ```json fence up to the
   * next ```json (the piece `split("```json")[1]`), drop one trailing ``` (the
   * head of `rsplit("```", 1)`, which under the endswith guard is the text
   * before the final three characters), strip again.
   */
  function StripJsonFence(reply: string): (r: string)
  {
    var t := Strip(reply);
    var t1 := if StartsWith(t, "```json") then BeforeFirst(AfterFirst(t, "```json"), "```json") else t;
    var t2 := if EndsWith(t1, "```") then t1[..|t1| - 3] else t1;
    Strip(t2)
  }

  /** A reply without any backtick reaches the parser merely stripped. */
  lemma {:induction false} UnfencedReply(reply: string)
    requires NoBacktick(reply)
    ensures StripJsonFence(reply) == Strip(reply)
  {
    var t := Strip(reply);
    NoBacktickStrip(reply);
    assert !StartsWith(t, "```json") by {
      if |t| >= 7 { assert t[0] != '`'; }
    }
    assert !EndsWith(t, "```") by {
      if |t| >= 3 { assert t[|t| - 1] != '`'; }
    }
    StripIdempotent(reply);
  }

  /** A fenced reply ```json\n<body>\n``` reaches the parser as the stripped body. */
  lemma {:induction false} FencedReply(body: string)
    requires NoBacktick(body)
    ensures StripJsonFence("```json\n" + body + "\n```") == Strip(body)
  {
    var s := "```json\n" + body + "\n```";
    assert Strip(s) == s by {
      assert StripLeft(s) == s;
      assert StripRight(s) == s;
    }
    assert s == "" + "```json" + ("\n" + body + "\n```");
    IndexOfAfterNoBacktick("", "```json", "\n" + body + "\n```");
    var after := AfterFirst(s, "```json");
    assert after == "\n" + body + "\n```";
    assert NoBacktick("\n" + body + "\n");
    assert after == ("\n" + body + "\n") + "```";
    IndexOfNoneNoBacktick("\n" + body + "\n", "```json", "```");
    assert BeforeFirst(after, "```json") == after;
    assert EndsWith(after, "```");
    assert after[..|after| - 3] == "\n" + body + "\n";
    StripNewlines(body);
  }

  /**
   * `analyze_and_comment` after the oracle call: a missing `is_high_quality`
   * takes the value of `is_relevant` (False when that is missing too), a missing
   * `style_hint` becomes "", and any failure yields the constant failure dict.
   */
  function AnalyzeAndComment(reply: Option<string>, parse: string -> Option<Analysis>): (r: Analysis)
    ensures r.isHighQuality.Some? && r.styleHint.Some?
    ensures reply.None? ==> r == Failure
    ensures reply.Some? && parse(StripJsonFence(reply.value)).None? ==> r == Failure
    ensures reply.Some? && parse(StripJsonFence(reply.value)).Some? ==>
      var a := parse(StripJsonFence(reply.value)).value;
      r.isRelevant == a.isRelevant && r.shouldComment == a.shouldComment && r.commentText == a.commentText
      && r.isHighQuality == (if a.isHighQuality.Some? then a.isHighQuality else Some(a.isRelevant.GetOr(false)))
      && r.styleHint == (if a.styleHint.Some? then a.styleHint else Some(""))
  {
    match reply
    case None => Failure
    case Some(text) =>
      match parse(StripJsonFence(text))
      case None => Failure
      case Some(a) =>
        var hq := if a.isHighQuality.Some? then a.isHighQuality else Some(a.isRelevant.GetOr(false));
        var hint := if a.styleHint.Some? then a.styleHint else Some("");
        a.(isHighQuality := hq, styleHint := hint)
  }

  /** Every failure path reports the post as irrelevant, not worth commenting, with empty texts. */
  lemma {:induction false} FailureIsNegative()
    ensures !IsRelevant(Failure) && Failure.isHighQuality == Some(false) && Failure.shouldComment == Some(false)
    ensures Failure.commentText == Some("") && Failure.styleHint == Some("")
  {
  }

  /** An answer that already carries both defaulted keys is passed through unchanged. */
  lemma {:induction false} NormalisedFieldsKept(reply: string, parse: string -> Option<Analysis>)
    requires parse(StripJsonFence(reply)).Some?
    requires parse(StripJsonFence(reply)).value.isHighQuality.Some?
    requires parse(StripJsonFence(reply)).value.styleHint.Some?
    ensures AnalyzeAndComment(Some(reply), parse) == parse(StripJsonFence(reply)).value
  {
  }
}
