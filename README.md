# Siliconmomo, modelled in Dafny

Siliconmomo is an automation agent for the Xiaohongshu (RED) social network. It
browses posts on a schedule and asks a language model whether each one is relevant.
It likes, collects or comments on the relevant ones and keeps them as "inspirations"
in a knowledge base. From those it writes, illustrates and publishes its own notes,
and it repairs its browser session when something breaks. Around that loop sit
various services:
- a product library and a content strategy that decide when a note or a comment may
  mention a product;
- a title optimiser, analytics, a viral-content analyser, an A/B test framework and a
  trend tracker;
- a deep-research crawler with a report renderer;
- a Xiaohongshu video-page extractor;
- a whisper.cpp transcription server.

This project models the decision logic of each of those components:
- what is stored, and when it is flushed;
- which post or inspiration is chosen;
- how a language-model reply is cleaned and normalised;
- how scores, categories and titles are computed;
- when a product may be promoted, and what is recorded afterwards;
- which posts a crawl opens;
- how a transcription command is built and how its output is read.

It then proves what the program relies on. Everything the program learns from the
outside world is a parameter of the model: the browser, the language model, the
clock, random rolls, file-system writes and the transcription process.

One module per source file:
- `KnowledgeStore`, `Writer`, `Supervision`, `Recovery`, `Interaction` and
  `LlmClient` for the agent loop;
- `XhsExtractor` for the video extractor;
- `ReportRenderer`, `TitleOptimizer`, `Analytics`, `ViralAnalyzer`, `AbTester` and
  `TrendTracker` for the content services;
- `ProductManager`, `ContentPlanning` and `SmartInteraction` for product promotion;
- `Research` for the deep-research crawler;
- `Transcription` for the transcription server.

Shared modules hold the helpers these import:
- `Wrappers`: Option and Result;
- `Strings`: the Python string operations used;
- `Sorting`: a descending sort, filtering, and slicing;
- `Clock`: day and hour of a timestamp;
- `Settings`: configuration constants;
- `NoteUrl`: the note id of an explore link.

State that the source mutates in place is a class with `modifies` clauses. Each
method is proved equal to a pure function of the old state, and the properties are
proved about those functions. Pure computations are functions with contracts.

## Model

| member | source | states |
|---|---|---|
| KnowledgeStore.NewRecord | core/knowledge_base.py:72-96 | a new inspiration is unused, not in a batch, never used, and carries the note id taken from its source URL |
| KnowledgeStore.Positions | core/knowledge_base.py:147-160 | the candidate indices are exactly the eligible (unused, optionally high-quality) entries, in increasing order |
| KnowledgeStore.RemoveAt | core/knowledge_base.py:147-160 | removing a drawn index shortens the pool by one, keeps only pool elements and preserves distinctness |
| KnowledgeStore.Sample | core/knowledge_base.py:147-160 | random.sample: min(k, pool) picks, all from the pool, pairwise distinct |
| KnowledgeStore.FirstWithId | core/knowledge_base.py:163-175 | finds the first entry with the id, or reports that none has it |
| KnowledgeStore.MarkFirst | core/knowledge_base.py:163-175 | marking keeps the number of entries |
| KnowledgeStore.MarkBatch | core/knowledge_base.py:177-215 | batch marking keeps the number of entries |
| KnowledgeStore.StatsConsistent | core/knowledge_base.py:217-247 | unused + used = total, high-quality unused ≤ unused, ready-to-create implies ready-to-publish |
| KnowledgeStore.MarkFirstMonotone | core/knowledge_base.py:163-175 | marking never un-uses an entry and changes only the first entry with the id |
| KnowledgeStore.MarkFirstCount | core/knowledge_base.py:163-175 | the unused count drops by one exactly when the first matching entry was unused |
| KnowledgeStore.CountAfterUpdate | core/knowledge_base.py:115-121 | overwriting an entry with an ineligible one lowers the eligible count by that entry's eligibility |
| KnowledgeStore.CountZeroIff | core/knowledge_base.py:115-121 | the eligible count is zero exactly when no entry is eligible |
| KnowledgeStore.CountEligibleAppend | core/knowledge_base.py:115-121 | the eligible count of two lists joined is the sum of their counts |
| KnowledgeStore.FlushAddsUnused | core/knowledge_base.py:256-278 | flushing unused records raises the unused count by their number |
| KnowledgeStore.RecordsAt | core/knowledge_base.py:147-160 | one record per drawn position, the record stored there |
| KnowledgeStore.AfterSave | core/knowledge_base.py:43-113 | a duplicate leaves the store unchanged; otherwise stored and buffered records together gain exactly the new record at the end, and the buffer is emptied exactly when it is full or the interval is exceeded and the write succeeds |
| KnowledgeStore.SaveKeepsStored | core/knowledge_base.py:43-113 | saving never loses a stored record: the old stored list is a prefix of the new one |
| KnowledgeStore.MarkBatchExact | core/knowledge_base.py:177-215 | exactly the picked entries become used-in-batch; the others are unchanged |
| KnowledgeStore.SampleEligible | core/knowledge_base.py:177-215 | the batch picks min(count, eligible) distinct eligible entries |
| KnowledgeStore.BatchStep | core/knowledge_base.py:194-205 | one marking step extends the marked prefix of the batch |
| KnowledgeStore.MarkPicked | core/knowledge_base.py:194-205 | the marking loop yields the batch-marked data and the ids of the picked entries in order |
| KnowledgeStore.KnowledgeBase.constructor | core/knowledge_base.py:10-19 | starts from the stored entries with an empty buffer |
| KnowledgeStore.KnowledgeBase.FlushToDisk | core/knowledge_base.py:256-278 | a successful flush appends the buffer to the stored list, empties it and raises the unused count by the buffer size; an empty buffer or a failed write changes nothing |
| KnowledgeStore.KnowledgeBase.ForceFlush | core/knowledge_base.py:280-285 | same effect as a flush |
| KnowledgeStore.KnowledgeBase.SaveInspiration | core/knowledge_base.py:43-113 | the new store is AfterSave of the old one: a duplicate (same note id or title among stored entries) is ignored; otherwise the record is buffered and flushed when the buffer is full or the interval is exceeded |
| KnowledgeStore.KnowledgeBase.ShouldCreateContent | core/knowledge_base.py:127-145 | true exactly when the positions of the unused high-quality stored records number at least the inspiration threshold (3) |
| KnowledgeStore.KnowledgeBase.UnusedCount | core/knowledge_base.py:115-121 | the count is the number of unused stored entries, and zero exactly when no stored entry is unused |
| KnowledgeStore.KnowledgeBase.GetRandomUnused | core/knowledge_base.py:147-160 | returns the entries stored at min(count, unused) distinct positions drawn from the unused ones, each entry the one stored there |
| KnowledgeStore.KnowledgeBase.MarkAsUsed | core/knowledge_base.py:163-175 | the stored list becomes MarkFirst of the old one; the buffer is untouched |
| KnowledgeStore.KnowledgeBase.MarkMultipleAsUsed | core/knowledge_base.py:177-215 | marks the sampled high-quality unused entries as used in a batch and returns their ids |
| NoteUrl.NoteId | core/knowledge_base.py:60-64 | the id is a lower-case hex run, no longer than the URL |
| NoteUrl.NoteIdOccurs | core/knowledge_base.py:60-64 | the extracted note id is empty or a lower-hex run that follows `/explore/` in the URL |
| NoteUrl.NoteIdFirstMatch | core/knowledge_base.py:60-64 | with the leftmost match of `/explore/([a-f0-9]+)` at position k, the id is the non-empty hex run after it |
| NoteUrl.NoMatchNoId | core/knowledge_base.py:60-64 | where the pattern matches nowhere, the id is "" |
| NoteUrl.NoteIdIff | core/knowledge_base.py:60-64 | an id is found exactly when the pattern occurs somewhere in the URL, and it is the capture of the leftmost occurrence |
| NoteUrl.ExploreLinkId | core/knowledge_base.py:60-64 | from a full link `<prefix>/explore/<id><rest>`, with no earlier match in the prefix and a rest that does not continue the hex run, the id is read back exactly |
| NoteUrl.NoExplorePathNoId | core/knowledge_base.py:60-64 | a URL without `/explore/` has no note id |
| LlmClient.AnalyzeAndComment | core/llm_client.py:11-84 | no reply or an unparsable reply gives the negative default; otherwise the parsed fields are kept, and is_high_quality and style_hint are filled in |
| LlmClient.UnfencedReply | core/llm_client.py:63-68 | a reply without backticks is only stripped |
| LlmClient.FencedReply | core/llm_client.py:63-68 | a ```json fenced reply yields its stripped body |
| LlmClient.FailureIsNegative | core/llm_client.py:76-84 | the failure default is irrelevant, not high-quality and asks for no comment |
| LlmClient.NormalisedFieldsKept | core/llm_client.py:70-74 | a reply that already carries every field is returned unchanged |
| Writer.UnusedOf | core/writer.py:30-47 | exactly the unused inspirations are candidates |
| Writer.PickInspiration | core/writer.py:30-47 | picks an unused inspiration, or fails with "not enough material" exactly when none is unused |
| Writer.FencedArticle | core/writer.py:112-118 | the article JSON is the stripped body of the ```json fence |
| Writer.WriteFromInspiration | core/writer.py:49-126 | no reply means no article; an article exists exactly when the cleaned reply parses, and it records its inspiration id |
| Writer.FirstReady | core/writer.py:149-160 | the first ready-to-publish draft, or none exactly when no draft is ready |
| Writer.FirstCreatedAt | core/writer.py:162-178 | the first draft with the timestamp, or none |
| Writer.FirstCreatedAtAppend | core/writer.py:128-147 | a just-saved draft with a fresh timestamp is found at the end |
| Writer.PublishFirst | core/writer.py:162-178 | publishing keeps the number of drafts |
| Writer.PublishFirstOnly | core/writer.py:162-178 | only the first draft with the timestamp changes, and it becomes published with its article kept |
| Writer.PublishMonotone | core/writer.py:162-178 | published drafts stay published |
| Writer.SavedDraftIsReady | core/writer.py:128-160 | after saving, a ready draft exists, and an earlier ready draft still comes first |
| Writer.WriterAgent.constructor | core/writer.py:13-28 | starts from the stored drafts |
| Writer.WriterAgent.SaveDraft | core/writer.py:128-147 | a successful write appends a ready draft; a failed one changes nothing |
| Writer.WriterAgent.GetReadyDraft | core/writer.py:149-160 | returns a ready draft, or none exactly when none is ready |
| Writer.WriterAgent.MarkDraftPublished | core/writer.py:162-178 | drafts become PublishFirst of the old drafts |
| Recovery.KeptLinesAppend | core/recovery.py:101-109 | the dangerous-line filter distributes over concatenation |
| Recovery.KeptLinesExact | core/recovery.py:101-109 | kept lines are exactly the input lines that are not dropped |
| Recovery.FilterPatchLines | core/recovery.py:101-109 | the filter loop keeps exactly the non-dangerous lines of the snippet |
| Recovery.WrappedCode | core/recovery.py:111-130 | the wrapped patch contains the indented snippet |
| Recovery.PatchCode | core/recovery.py:101-130 | the patch built from a reply contains the reply's cleaned, filtered and indented snippet |
| Recovery.AiDynamicFix | core/recovery.py:54-147 | code is produced exactly when the page is readable and the model replied, and it is the patch built from that reply; the fix succeeds exactly when the patch ran and printed FIX_SUCCESS without PATCH_ERROR (AiFixes) |
| Recovery.Diagnosed | core/recovery.py:15-47 | fatal exactly for a closed target or session; otherwise fixed exactly when a non-network error gets a working AI patch, or the reload works; an AI fix names the patch built from the reply; the AI was tried exactly when the error is not a network error |
| Recovery.DiagnoseAndFix | core/recovery.py:15-47 | a closed target or session is fatal and unfixed; a network error is fixed by a reload; otherwise an AI patch is tried and then a reload; its verdict and diagnosis are exactly Diagnosed |
| Recovery.BothSentinelsFail | core/recovery.py:141 | output containing PATCH_ERROR never counts as success |
| Interaction.LazyNeverThinks | actions/interaction.py:115-134 | lazy mode only likes or collects, at most once each |
| Interaction.CommentGates | actions/interaction.py:173-190 | a comment is posted only when the model asks for one, the roll allows it and no login mask shows, and it is the model's text |
| Interaction.OpenedAmongFirstFour | actions/interaction.py:34-45 | the opened note is one of the first four cards found |
| Interaction.CycleError | actions/interaction.py:26-41 | a cycle raises exactly when the page left the site or no note cards were found |
| Interaction.DeepStore | actions/interaction.py:136-187 | an irrelevant post leaves the knowledge base unchanged; a relevant, non-duplicate one adds exactly its record after the stored and buffered ones |
| Interaction.InteractStore | actions/interaction.py:91-113 | the knowledge base changes only when the thinking roll fires and the post is relevant |
| Interaction.CycleEffects | actions/interaction.py:21-58 | the effects of a cycle begin with the search effects |
| Interaction.ActionExecutor.constructor | actions/interaction.py:11-19 | starts with no posts processed and the first keyword |
| Interaction.ActionExecutor.RotateSearch | actions/interaction.py:60-71 | searches the keywords round-robin and advances the index |
| Interaction.ActionExecutor.DeepModeInteract | actions/interaction.py:136-187 | the effects are DeepEffects (an irrelevant post is only thought about; a relevant one is saved first and then engaged), and the knowledge base becomes DeepStore of the old one |
| Interaction.ActionExecutor.SmartInteract | actions/interaction.py:91-113 | without the thinking roll the post gets lazy engagement only; with it, the deep-mode effects come first and closing last; the knowledge base changes only in the thinking branch |
| Interaction.ActionExecutor.ExecuteOneCycle | actions/interaction.py:21-58 | the effects are CycleEffects after the search when rotation is due (the next keyword); an error exactly as CycleError says; a completed cycle is counted once and leaves the knowledge base as InteractStore says |
| Interaction.SavedBeforeEngagement | actions/interaction.py:136-187 | every like, collect or comment comes after the inspiration is saved |
| Supervision.PassStop | core/supervisor.py:60-91 | a pass stops the shift exactly on an interrupt or a fatal browser error |
| Supervision.ShiftExitSound | core/supervisor.py:33-91 | the shift runs passes until time is up, the trace ends, or a stop; each exit reason is justified by the passes |
| Supervision.NoExitOnRepairableErrors | core/supervisor.py:33-91 | repairable errors never end the shift early |
| Supervision.ShiftStep | core/supervisor.py:33-91 | a non-stopping pass in time adds exactly one pass to the remaining shift |
| Supervision.DeepRecovery | core/supervisor.py:150-164 | goes home exactly when the reload worked and the page left the site |
| Supervision.DraftsAfterCreation | core/supervisor.py:93-148 | a saved draft adds one draft, and published drafts stay published |
| Supervision.NewDraftPublishedIff | core/supervisor.py:120-145 | the new draft is published exactly in a publish hour with a successful publish, and older drafts are untouched |
| Supervision.Creation | core/supervisor.py:93-148 | no material, a failed draft or a missing image leave the shift state as it was; a saved note marks the picked inspiration, adds the draft when the write succeeds, and is published exactly in a publish hour with a successful publish; the buffer and the counters are kept |
| Supervision.CreationAfter | core/supervisor.py:44-51 | the creation cycle runs exactly when enough eligible material is stored and the cooldown has passed, and then stamps the time; otherwise nothing changes |
| Supervision.CycleAfter | core/supervisor.py:41 | the cycle's error is exactly the browsing cycle's error; the keyword rotates when due, a completed cycle counts one post and saves what the interaction saves, and the failure count, creation stamp and drafts are kept |
| Supervision.Handled | core/supervisor.py:65-89 | a fatal error stops the shift with one more failure; otherwise the error is repaired exactly when Diagnosed says it is fixed, resetting the count, and else goes to deep recovery with one more failure |
| Supervision.PassOutcome | core/supervisor.py:38-89 | a pass stops exactly on an interrupt or a fatal error; a non-fatal error is repaired exactly when Diagnosed fixes it; clean and repaired passes reset the failure count, deep recoveries and fatal errors raise it |
| Supervision.PassKeepsRecords | core/supervisor.py:38-89 | a pass never removes a stored inspiration or a draft, and never unpublishes a draft |
| Supervision.ShiftRunShape | core/supervisor.py:33-91 | the shift runs exactly the passes ShiftExit counts and loses no inspiration, draft or publication |
| Supervision.ShiftRunExit | core/supervisor.py:33-91 | one report per pass that ran, only the last one stopping, and exactly when the exit is an interrupt or a closed browser, which that report names |
| Supervision.Supervisor.constructor | core/supervisor.py:12-31 | starts with no failures and no creation yet |
| Supervision.Supervisor.CreateAndPublishCycle | core/supervisor.py:93-148 | no material, failed draft and missing image change nothing; a note is saved exactly when an inspiration is picked, the draft is written and the image is generated; the new shift state is Creation's |
| Supervision.Supervisor.HandleError | core/supervisor.py:65-89 | fatal errors stop the shift; a non-fatal error is repaired exactly when Diagnosed fixes it, resetting the failure count; others count a failure and go to deep recovery; the report and new state are Handled's |
| Supervision.Supervisor.CreationCheck | core/supervisor.py:44-51 | creates only when the knowledge base has enough material and the cooldown has passed, and then stamps the time; the knowledge base, drafts and counters end as CreationAfter says |
| Supervision.Supervisor.RunPass | core/supervisor.py:38-89 | one pass: a cycle, a repair, a deep recovery or a stop, with the failure count and the creation stamp updated accordingly; the report and the whole new shift state (knowledge base, drafts, keyword, post count) are PassAfter's |
| Supervision.Supervisor.TryCycle | core/supervisor.py:40-54 | the error is exactly the cycle error; a clean cycle resets the failure counter and ends as CreationAfter after CycleAfter; an error leaves the state CycleAfter left, both counters included |
| Supervision.Supervisor.ShiftPass | core/supervisor.py:38-89 | one loop body runs its pass as ShiftRun does |
| Supervision.Supervisor.StartShift | core/supervisor.py:33-91 | the shift ends as ShiftExit says, with one report per pass and only the last one stopping; the reports and the final shift state (knowledge base, drafts, counters) are ShiftRun's |
| XhsExtractor.Lookup | video_download/xiaohongshu.py:277-290 | a dictionary lookup finds a member with the key, or there is none |
| XhsExtractor.GetOr | video_download/xiaohongshu.py:277-290 | `.get` fails exactly on a non-dictionary |
| XhsExtractor.TruncToward0 | video_download/xiaohongshu.py:45-52 | int() truncates toward zero |
| XhsExtractor.IntOrNone | video_download/xiaohongshu.py:45-52 | null and containers give none, integers and booleans convert, floats are truncated, and strings convert as `int()` reads them, underscores between digits included |
| XhsExtractor.ParseIntOfText | video_download/xiaohongshu.py:45-52 | the decimal text of an integer parses back to it |
| XhsExtractor.IntOrNoneOfText | video_download/xiaohongshu.py:45-52 | a numeric string, even surrounded by whitespace, converts to its value |
| XhsExtractor.DropUnderscoresDigits | video_download/xiaohongshu.py:45-52 | removing the underscores of a digit-and-underscore text leaves only digits |
| XhsExtractor.DropUnderscoresPlain | video_download/xiaohongshu.py:45-52 | a text of digits only is left as it is |
| XhsExtractor.UnderscoredDecimal | video_download/xiaohongshu.py:54-61 | "1_000" converts to 1000.0 and "1__000" gives none |
| XhsExtractor.UnderscoredDigits | video_download/xiaohongshu.py:45-52 | "1_000" converts to 1000, while "1__000" and "_1" give none |
| XhsExtractor.FloatOrNone | video_download/xiaohongshu.py:54-61 | numbers are divided by the scale; a zero scale or a non-number gives none |
| XhsExtractor.UrlOrNone | video_download/xiaohongshu.py:63-72 | a URL is kept, stripped, exactly when it is an http(s) string |
| XhsExtractor.UrlOrNoneIdempotent | video_download/xiaohongshu.py:63-72 | cleaning a cleaned URL changes nothing |
| XhsExtractor.HtmlUnescapeShape | video_download/xiaohongshu.py:74-83 | unescaping never lengthens a string and leaves ampersand-free text unchanged |
| XhsExtractor.DoublyEscapedLessThan | video_download/xiaohongshu.py:74-83 | the two-round unescape turns `&amp;lt;` into `<` |
| XhsExtractor.SkipSpace | video_download/xiaohongshu.py:157-162 | skips exactly the leading whitespace |
| XhsExtractor.ScanEnd | video_download/xiaohongshu.py:170-191 | a found end lies after the start and closes the opening bracket |
| XhsExtractor.ExtractBalancedJson | video_download/xiaohongshu.py:152-192 | the scanning loop computes the balanced-span function |
| XhsExtractor.ScanObject | video_download/xiaohongshu.py:164-192 | the bracket loop computes ScanEnd from the opening bracket |
| XhsExtractor.BalancedJsonShape | video_download/xiaohongshu.py:152-192 | a found span starts at the first non-space character, opens with a bracket and ends with its match |
| XhsExtractor.ScanCountsBrackets | video_download/xiaohongshu.py:160-192 | outside string literals the span is exactly where the bracket depth first returns to zero |
| XhsExtractor.QuotedLiteralNeutral | video_download/xiaohongshu.py:173-182 | a complete quoted literal, escapes included, leaves the scan exactly as if it were absent, so brackets inside it do not count |
| XhsExtractor.InsideLiteral | video_download/xiaohongshu.py:173-182 | scanning from inside a literal, with escaped characters skipped, resumes just after its closing quote |
| XhsExtractor.EscapedQuoteInLiteral | video_download/xiaohongshu.py:176-178 | a backslash-escaped quote stays inside the literal |
| XhsExtractor.ValidUrlFrom | video_download/xiaohongshu.py:252 | a matched id is a non-empty hex run |
| XhsExtractor.CanonicalNoteUrl | video_download/xiaohongshu.py:252-270 | a canonical explore URL yields its id |
| XhsExtractor.DictsOf | video_download/xiaohongshu.py:297-298 | exactly the dictionary entries, in list order: each taken from its own position and every dictionary position taken |
| XhsExtractor.DictKeys | video_download/xiaohongshu.py:301 | dict key order: each key once, in order of first occurrence, and every member key present |
| XhsExtractor.DictValues | video_download/xiaohongshu.py:301 | `d.values()`: one value per key in key order, each the value a lookup of that key finds (the last member with the key) |
| XhsExtractor.RepeatedKeyValues | video_download/xiaohongshu.py:301 | a repeated key keeps its first place and takes its last value |
| XhsExtractor.EntriesOf | video_download/xiaohongshu.py:301-305 | every collected entry is a dictionary |
| XhsExtractor.EntriesOfMembers | video_download/xiaohongshu.py:301-305 | an entry is collected exactly when some value is that dictionary or a list containing it |
| XhsExtractor.ValueEntries | video_download/xiaohongshu.py:299-305 | the entries of a quality-keyed dict are dictionaries taken from its values |
| XhsExtractor.CodecEntries | video_download/xiaohongshu.py:294-307 | a falsy or scalar codec value contributes nothing, and whatever is collected is a dictionary |
| XhsExtractor.CodecEntriesMembers | video_download/xiaohongshu.py:294-307 | a codec value yields exactly the dictionaries of a list, or the entries its dict values give |
| XhsExtractor.VideoInfos | video_download/xiaohongshu.py:292-307 | every collected stream entry is a dictionary |
| XhsExtractor.VideoInfosOrder | video_download/xiaohongshu.py:292-307 | all entries of h264, then all of av1, then all of h265, each codec's entries complete and in their own order |
| XhsExtractor.CollectCodec | video_download/xiaohongshu.py:294-307 | the per-codec branches compute the entries of that codec's value |
| XhsExtractor.CollectVideoInfos | video_download/xiaohongshu.py:292-307 | the codec loop collects exactly the video entries |
| XhsExtractor.ValidUrls | video_download/xiaohongshu.py:332-337 | one cleaned URL for every accepted backup URL, in order, and nothing for the rejected ones |
| XhsExtractor.UrlsOf | video_download/xiaohongshu.py:327-337 | every format URL is a valid http(s) URL |
| XhsExtractor.UrlsOfShape | video_download/xiaohongshu.py:327-337 | the accepted `mediaUrl` comes first, followed by all accepted backups |
| XhsExtractor.PyStr | video_download/xiaohongshu.py:316-322 | `str()` of a decoded value: text as is, an integer as its decimal text, booleans as "True"/"False" |
| XhsExtractor.PyStrOfIntParses | video_download/xiaohongshu.py:316-322 | the text `str()` gives an integer parses back to that integer |
| XhsExtractor.StrOrNone | video_download/xiaohongshu.py:316-322 | none exactly for null |
| XhsExtractor.FormatsFor | video_download/xiaohongshu.py:339-340 | one format per URL, built from the stream description |
| XhsExtractor.FormatsForAt | video_download/xiaohongshu.py:339-340 | the k-th format of a stream carries its k-th URL with the stream's shared fields |
| XhsExtractor.CollectUrls | video_download/xiaohongshu.py:327-337 | the URL loop collects exactly the stream's accepted URLs |
| XhsExtractor.BuildFormats | video_download/xiaohongshu.py:310-340 | the stream loop builds exactly the formats of every stream, stream by stream |
| XhsExtractor.ThumbsForKeys | video_download/xiaohongshu.py:343-356 | thumbnails carry the image size and a valid URL |
| XhsExtractor.CollectTags | video_download/xiaohongshu.py:366-371 | the tag loop collects exactly the string names |
| XhsExtractor.TagsOf | video_download/xiaohongshu.py:366-371 | exactly the names of the dictionary entries whose name is a string, in list order |
| XhsExtractor.TitleOf | video_download/xiaohongshu.py:358-362 | the note's own non-empty title wins over the page title |
| XhsExtractor.ExtractSpec | video_download/xiaohongshu.py:266-386 | unsupported URLs are rejected; a result carries the URL's id, and its tags are none or non-empty |
| XhsExtractor.FormatsOfConcat | video_download/xiaohongshu.py:310-340 | formats of concatenated stream lists concatenate |
| XhsExtractor.FormatUrlsValid | video_download/xiaohongshu.py:310-340 | every format URL is valid |
| XhsExtractor.MediaUrlFirst | video_download/xiaohongshu.py:327-337 | a stream's main URL comes before its backups |
| XhsExtractor.Extract | video_download/xiaohongshu.py:266-386 | the extractor's loops compute the extraction function |
| ReportRenderer.LeadingHashes | core/report_renderer.py:47-53 | counts the leading `#` characters |
| ReportRenderer.HeadingOf | core/report_renderer.py:47-53 | a line is a heading exactly when it starts with 1 to 6 hashes followed by whitespace and at least one more character; the level is the number of hashes and the text is the stripped rest |
| ReportRenderer.ExplicitAnchor | core/report_renderer.py:63-64 | an explicit anchor is a non-empty run of anchor characters in a trailing `{#…}` |
| ReportRenderer.ExplicitAnchorFound | core/report_renderer.py:63-64 | a line ending in whitespace, `{#`, a non-empty run of anchor characters, `}` and only whitespace after it has exactly that run as its anchor |
| ReportRenderer.StepFence | core/report_renderer.py:38-41 | a fence line toggles the in-fence flag |
| ReportRenderer.FenceParity | core/report_renderer.py:24-77 | after the pass, the flag is set exactly when an odd number of fences was seen |
| ReportRenderer.SecAnchorsConsecutive | core/report_renderer.py:61-72 | generated anchors are numbered sec-1, sec-2, … in document order |
| ReportRenderer.TocLines | core/report_renderer.py:37-73 | the TOC source lines are at most the lines of the document |
| ReportRenderer.StepTocEntry | core/report_renderer.py:61-73 | a line adds one TOC entry, with its level, text and explicit id when it has one, exactly when it is a level 2-4 heading outside a fence; otherwise the TOC is unchanged |
| ReportRenderer.TocExact | core/report_renderer.py:24-77 | the TOC lists exactly the level 2-4 headings outside fences, in order, each with its level and text, the explicit `{#id}` as anchor where present and a generated one otherwise |
| ReportRenderer.StepOutput | core/report_renderer.py:37-75 | a line is copied, rewritten with an anchor, or consumed as the title, each under its own condition |
| ReportRenderer.BodyOf | core/report_renderer.py:77 | the body is stripped and ends with a newline |
| ReportRenderer.SplitTitleAndInjectAnchors | core/report_renderer.py:24-77 | the line loop computes the title, body and table of contents of the pass |
| ReportRenderer.TocIndent | core/report_renderer.py:192-197 | only levels 3 and 4 are indented |
| ReportRenderer.TocLinks | core/report_renderer.py:188-201 | one link per entry, in order |
| ReportRenderer.BuildTocHtml | core/report_renderer.py:188-201 | one escaped link per item, joined by newlines |
| ReportRenderer.PageTitle | core/report_renderer.py:215-216 | a non-empty extracted title wins over the fallback |
| ReportRenderer.RenderDeepResearch | core/report_renderer.py:204-220 | the page title, TOC items and content come from the split |
| ReportRenderer.NoH1MeansFallback | core/report_renderer.py:24-77 | without a top-level heading outside fences, no title is extracted |
| ReportRenderer.TitleIsFirstH1 | core/report_renderer.py:56-58 | the title is the first top-level heading outside fences, whatever level-1 lines fenced code shows before it |
| ReportRenderer.FencedLineIsNoTitle | core/report_renderer.py:37-58 | whatever line a fenced block holds, a top-level heading after the block is the title |
| ReportRenderer.FencedCommentIsNoTitle | core/report_renderer.py:37-58 | a fenced `# comment` before `# Title` leaves "Title" as the title |
| TitleOptimizer.LengthPoints | core/title_optimizer.py:250-257 | 30 points for 15-25 characters, 20 for 10-14 or 26-30, 10 below 10, 0 above 30 |
| TitleOptimizer.RawScore | core/title_optimizer.py:237-279 | the uncapped score lies in 0..105 |
| TitleOptimizer.CalculateScore | core/title_optimizer.py:237-279 | the score is the raw score capped at 100 |
| TitleOptimizer.CapBindsOnlyOnBestTitles | core/title_optimizer.py:237-279 | the cap is reached only by titles with a number and of the ideal length |
| TitleOptimizer.ScoreLowerBound | core/title_optimizer.py:237-279 | a title with a scored emoji, a digit and a "?" scores at least 35 (20 + 10 + 5), whatever its length or wording |
| TitleOptimizer.KeywordHitsIff | core/title_optimizer.py:119-130 | a common keyword is a hit exactly when it occurs in the title |
| TitleOptimizer.KeywordHitsOrdered | core/title_optimizer.py:119-130 | hits keep the order of the keyword list |
| TitleOptimizer.CollectHits | core/title_optimizer.py:119-130 | the loop computes KeywordHits |
| TitleOptimizer.FirstCjkWord | core/title_optimizer.py:134-138 | the fallback keyword is a 2-4 character CJK run of the title, or none when there is no run of two |
| TitleOptimizer.FirstCjkWordLeftmost | core/title_optimizer.py:134-138 | the fallback keyword is the leftmost match of 2 to 4 CJK characters: no two adjacent CJK characters come before it, and it runs as far as its CJK run goes, up to four characters |
| TitleOptimizer.KeywordsOf | core/title_optimizer.py:119-141 | at most three common keywords in order, else the first CJK word |
| TitleOptimizer.ExtractKeywords | core/title_optimizer.py:119-141 | the loop computes KeywordsOf |
| TitleOptimizer.GuessCategory | core/title_optimizer.py:143-154 | each category exactly under its rule, with tool recommendation as the default |
| TitleOptimizer.FillMentionsKeyword | core/title_optimizer.py:177-182 | a filled template contains the keyword |
| TitleOptimizer.TemplatesHaveKeyword | core/title_optimizer.py:25-68 | every template has a keyword slot |
| TitleOptimizer.AddEmotionAndUrgency | core/title_optimizer.py:217-235 | the decorated title contains the original and an emoji |
| TitleOptimizer.TypesFor | core/title_optimizer.py:163-171 | every category maps to valid template types |
| TitleOptimizer.TitleFromType | core/title_optimizer.py:156-187 | a generated title contains the keyword and an emoji |
| TitleOptimizer.GenerateOptimizedTitle | core/title_optimizer.py:156-187 | the title mentions the first keyword, or the default one when there is none |
| TitleOptimizer.AlternativesOf | core/title_optimizer.py:189-215 | four alternatives, each with the keyword and an emoji |
| TitleOptimizer.TitlesUpTo | core/title_optimizer.py:189-215 | one title per template type up to n, each containing the keyword and an emoji |
| TitleOptimizer.GenerateAlternatives | core/title_optimizer.py:189-215 | the loop computes AlternativesOf |
| TitleOptimizer.OptimizeTitle | core/title_optimizer.py:83-117 | keeps the original, guesses the category from the summary or the title, scores the optimised title and mentions its first keyword |
| TitleOptimizer.GenerateAbTestTitles | core/title_optimizer.py:281-306 | the candidates sorted by score, a permutation of the optimised title plus the sliced alternatives, with Python's slice count |
| TitleOptimizer.RankTitles | core/title_optimizer.py:281-306 | the best titles first, a rearrangement of the candidates, cut to the count |
| Analytics.LastDigitRun | core/analytics.py:94-103 | the last digit run of the text |
| Analytics.ExtractNumber | core/analytics.py:94-103 | text without digits reads as 0 |
| Analytics.ExtractLastNumber | core/analytics.py:94-103 | the last number in the text is read back exactly |
| Analytics.FirstPositive | core/analytics.py:105-155 | the first selector reading a positive number, or none when all read 0 |
| Analytics.EngagementRate | core/analytics.py:157-168 | (likes+collects+comments)·100/views, 0 for no views |
| Analytics.FetchNoteStats | core/analytics.py:47-180 | no stats exactly when nothing was read; views and rate come from the selectors, stamped with the fetch time |
| Analytics.ViewsPoints | core/analytics.py:201-210 | the views bands 40/30/20/10/0 |
| Analytics.RatioPoints | core/analytics.py:212-217 | the collect-to-like points are at most 20 and zero without likes |
| Analytics.CalculateScore | core/analytics.py:182-219 | an empty stats record scores 0, scores are at most 100 and non-negative for sane inputs |
| Analytics.MoreViewsNeverLower | core/analytics.py:182-219 | more views never lower the score |
| Analytics.FullScoreNeedsViews | core/analytics.py:182-219 | a full score needs enough views |
| Analytics.RankedOf | core/analytics.py:246-266 | only published drafts with non-empty stats are ranked, with their score |
| Analytics.RankedOfComplete | core/analytics.py:250-262 | every published draft with non-empty stats is ranked, with its score |
| Analytics.TopPerformingShape | core/analytics.py:246-266 | the top list is sorted by score, holds min(limit, ranked) entries for a non-negative limit, is a sub-multiset of the ranked drafts, and no ranked draft left out scores above one kept |
| Analytics.GetTopPerforming | core/analytics.py:246-266 | the loop computes TopPerforming |
| Analytics.TagKey | core/analytics.py:306-310 | a tag key has no `#` |
| Analytics.CountTags | core/analytics.py:306-310 | the tag counter gains exactly the tags' keys |
| Analytics.PatternsOf | core/analytics.py:288-304 | every post falls in exactly one length bucket |
| Analytics.AnalyzePatternsSpec | core/analytics.py:268-323 | none exactly for no posts; buckets add up to the post count |
| Analytics.TagKeysFromPosts | core/analytics.py:306-310 | every counted key comes from a post's tag |
| Analytics.AnalyzePatterns | core/analytics.py:268-323 | the loop computes AnalyzePatternsSpec |
| ViralAnalyzer.ClassifyTitleType | core/viral_analyzer.py:134-149 | each title type exactly when its rule matches and no earlier rule does; "普通型" exactly when none matches |
| ViralAnalyzer.WordsInIff | core/viral_analyzer.py:151-162 | a word is reported exactly when it is in the list and in the text |
| ViralAnalyzer.AnalyzeTitle | core/viral_analyzer.py:117-132 | length, score in 0..100 as the title optimiser computes it, has-number exactly when a digit occurs, has-emoji exactly when a symbol occurs, type and keywords |
| ViralAnalyzer.ClassifyOpening | core/viral_analyzer.py:180-191 | each opening type exactly when its rule matches and no earlier rule does; "其他" exactly when none matches |
| ViralAnalyzer.NonBlankCount | core/viral_analyzer.py:166-167 | paragraphs are the lines minus the blank ones |
| ViralAnalyzer.FloorAverage | core/viral_analyzer.py:172 | floor division by max(1, n) |
| ViralAnalyzer.AnalyzeContentStructure | core/viral_analyzer.py:164-207 | paragraph count, average length, opening type and the CTA and scene flags, each as defined |
| ViralAnalyzer.ClassifyEmotionType | core/viral_analyzer.py:230-239 | each emotion type exactly under its rule |
| ViralAnalyzer.AnalyzeEmotion | core/viral_analyzer.py:209-228 | each count is the number of its listed words present, positive exactly when one occurs; the total is their sum and the type follows ClassifyEmotionType |
| ViralAnalyzer.CountPresentIsWordsIn | core/viral_analyzer.py:213-215 | counting the present words equals the length of the list of present words |
| ViralAnalyzer.AnalyzeTags | core/viral_analyzer.py:241-249 | the count and the AI, tool and efficiency flags |
| ViralAnalyzer.FeaturePositions | core/viral_analyzer.py:258-262 | the matching feature positions: exactly those with a keyword in the prompt, increasing |
| ViralAnalyzer.FeaturesInExact | core/viral_analyzer.py:258-262 | the reported features are the names at the matching positions, in order |
| ViralAnalyzer.AnalyzeVisual | core/viral_analyzer.py:251-269 | the features are the names of exactly the features with a keyword in the lower-cased prompt, in dict order; flagged exactly when some are found |
| ViralAnalyzer.FactorsFoundShape | core/viral_analyzer.py:271-305 | one factor per satisfied rule, never the fallback |
| ViralAnalyzer.ExtractSuccessFactors | core/viral_analyzer.py:271-305 | the satisfied factors, or just the fallback exactly when none is |
| ViralAnalyzer.AnalyzeViralContent | core/viral_analyzer.py:62-115 | each part of the analysis is its analyser applied to the draft: stats, score, title, structure, emotion, tags, visuals only for an image prompt, and the success factors of those parts |
| ViralAnalyzer.MostCommon | core/viral_analyzer.py:354-356 | Counter.most_common(1): an element of maximal count, and the earliest-occurring one among equally frequent elements |
| ViralAnalyzer.FirstWithCountEarliest | core/viral_analyzer.py:354-356 | when some element reaches the count, one is found no later than it |
| ViralAnalyzer.Distinct | core/viral_analyzer.py:377-378 | the distinct elements in first-seen order |
| ViralAnalyzer.MostCommonFive | core/viral_analyzer.py:377-378 | min(5, distinct factors) factors, sorted by count, each with its true count |
| ViralAnalyzer.Tallies | core/viral_analyzer.py:377-378 | one tally per distinct factor, with its count |
| ViralAnalyzer.MostCommonFiveExact | core/viral_analyzer.py:377-378 | the kept factors are distinct, and a factor left out occurs no more often than any kept one |
| ViralAnalyzer.TitleScoreSumBounded | core/viral_analyzer.py:346-358 | the summed title scores stay in range |
| ViralAnalyzer.GenerateRecommendations | core/viral_analyzer.py:385-406 | title and emotion advice always, scene advice exactly above a 0.6 ratio, factor advice when factors exist |
| ViralAnalyzer.AggregateBounds | core/viral_analyzer.py:335-383 | ratios in 0..1, average title score in 0..100, at most five factors, and the most common type is one of the types |
| ViralAnalyzer.AggregatePatterns | core/viral_analyzer.py:335-383 | the loop computes the aggregate |
| ViralAnalyzer.ViralPatterns | core/viral_analyzer.py:307-333 | none exactly when there are no top posts; otherwise counts all of them |
| AbTester.FindTest | core/ab_tester.py:335-341 | the first test with the id, or none exactly when no test has it |
| AbTester.UpsertStores | core/ab_tester.py:343-360 | after saving, the test is found with its new content, the list grows only for a new id, and unique ids stay unique |
| AbTester.UpsertKeepsOthers | core/ab_tester.py:343-360 | saving leaves every other test in place |
| AbTester.UpsertSame | core/ab_tester.py:343-360 | re-saving a stored test changes nothing |
| AbTester.Without | core/ab_tester.py:366-379 | deletion drops only tests with the id |
| AbTester.WithoutShrinks | core/ab_tester.py:366-379 | the list shrinks exactly when the id was present, and keeps all other tests |
| AbTester.ViewsPoints | core/ab_tester.py:174-185 | 0 exactly below 100 views, 30 exactly from 10000 |
| AbTester.MoreViewsMorePoints | core/ab_tester.py:174-185 | views points are monotone |
| AbTester.CollectPoints | core/ab_tester.py:187-192 | full collect points need collects of at least twice the likes |
| AbTester.VariantScore | core/ab_tester.py:166-194 | at most 100, and 100 needs full marks in every part |
| AbTester.Performed | core/ab_tester.py:147-162 | adds the deltas, recomputes the engagement rate from the deltas over the cumulative views, and rescores |
| AbTester.PerformedGrows | core/ab_tester.py:147-162 | non-negative deltas never decrease the counters |
| AbTester.FindVariant | core/ab_tester.py:116-119 | the first variant with the id, or none |
| AbTester.Impressed | core/ab_tester.py:116-119 | exactly the matched variant gains one impression |
| AbTester.PerformedIn | core/ab_tester.py:147-162 | exactly the matched variant records the performance |
| AbTester.Fresh | core/ab_tester.py:42-95 | every variant starts with zero stats |
| AbTester.NewTest | core/ab_tester.py:42-95 | a pending test with id "test_<now>" and zeroed variants |
| AbTester.Insights | core/ab_tester.py:281-320 | one to three insights, ending in a non-negative lift for ranked variants |
| AbTester.NotYetConclusive | core/ab_tester.py:221-234 | too few views or elapsed days: no conclusion and nothing saved |
| AbTester.LeadDecides | core/ab_tester.py:236-279 | the ranking is a sorted permutation; the test concludes exactly on a lead of 10 points, naming the leader winner |
| AbTester.Conclude | core/ab_tester.py:236-279 | with two or more ranked variants a report is always saved; the test concludes exactly when the best leads the runner-up by at least 10, naming the best as winner and completing; otherwise it is saved as inconclusive |
| AbTester.AnalyzeIn | core/ab_tester.py:196-208 | a missing test and a test not running are reported as errors |
| AbTester.RecordingInPlace | core/ab_tester.py:110-121 | recording updates the found test in place and keeps ids unique |
| AbTester.LocateVariant | core/ab_tester.py:116-119 | the search loop finds FindVariant |
| AbTester.SumViews | core/ab_tester.py:222 | the loop sums the variants' views |
| AbTester.AbTestFramework.constructor | core/ab_tester.py:31-40 | starts from the stored tests |
| AbTester.AbTestFramework.LocateTest | core/ab_tester.py:335-341 | the search loop finds FindTest |
| AbTester.AbTestFramework.SaveTest | core/ab_tester.py:343-360 | the tests become the upsert, and unique ids stay unique |
| AbTester.AbTestFramework.CreateTest | core/ab_tester.py:42-95 | stores a new test |
| AbTester.AbTestFramework.StartTest | core/ab_tester.py:97-108 | a found test starts running at now; a missing one changes nothing |
| AbTester.AbTestFramework.RecordImpression | core/ab_tester.py:110-121 | applies ImpressionIn |
| AbTester.AbTestFramework.RecordPerformance | core/ab_tester.py:123-164 | applies PerformanceIn |
| AbTester.AbTestFramework.AnalyzeTest | core/ab_tester.py:196-279 | result and saved state as AnalyzeIn |
| AbTester.AbTestFramework.DeleteTest | core/ab_tester.py:366-379 | reports whether the id was present and removes every test with it |
| AbTester.TitleVariants | core/ab_tester.py:431-473 | variant A is the control with the base title; the others are B, C, … in order |
| AbTester.TitleVariantIdsDistinct | core/ab_tester.py:431-473 | variant ids are pairwise distinct |
| AbTester.QuickAbTest.constructor | core/ab_tester.py:427-429 | wraps the framework |
| AbTester.QuickAbTest.CreateTitleTest | core/ab_tester.py:431-473 | stores a title test named from the first 20 characters, with a sample size of 50 |
| TrendTracker.TrendScore | core/trend_tracker.py:160-172 | non-negative for non-negative interactions |
| TrendTracker.TrendScoreMonotone | core/trend_tracker.py:160-172 | monotone in every interaction, and a collect weighs more than a like |
| TrendTracker.ExtractTopics | core/trend_tracker.py:174-191 | exactly the topic words occurring in the title or the content |
| TrendTracker.NewTrend | core/trend_tracker.py:129-146 | an active trend scored from its interactions |
| TrendTracker.RecordHotPost | core/trend_tracker.py:83-158 | non-hot posts are ignored; a known URL updates only the latest stats; a new one is appended; a failed write saves nothing |
| TrendTracker.KnownUrlAddsNothing | core/trend_tracker.py:115-127 | a known URL never adds a trend |
| TrendTracker.Expire | core/trend_tracker.py:198-213 | expiry keeps the number of trends |
| TrendTracker.FreshActive | core/trend_tracker.py:198-210 | only active, fresh trends from the data are listed |
| TrendTracker.ExpireShape | core/trend_tracker.py:193-222 | expiry acts trend by trend, and the listed ones are exactly those still active |
| TrendTracker.FreshActiveComplete | core/trend_tracker.py:198-210 | every active trend that is still fresh is listed |
| TrendTracker.ActiveTrends | core/trend_tracker.py:193-222 | active fresh trends sorted by score: min(limit, fresh) of them for a non-negative limit, a sub-multiset of the fresh ones, none left out hotter than one kept; nothing when the write fails |
| TrendTracker.MarkUsed | core/trend_tracker.py:348-363 | exactly the first trend with the id becomes used |
| TrendTracker.Cleanup | core/trend_tracker.py:365-386 | removes exactly the removable trends |
| TrendTracker.CleanupConcat | core/trend_tracker.py:365-386 | cleanup distributes over concatenation |
| TrendTracker.CleanupKeepsAll | core/trend_tracker.py:365-386 | nothing removable means nothing removed |
| TrendTracker.TitlePatternsAsWritten | core/trend_tracker.py:311-335 | the title tallies as written are bounded by the title count |
| TrendTracker.AnalyzeTitlePatterns | core/trend_tracker.py:311-335 | the corrected tallies are bounded by the title count |
| TrendTracker.QuestionCountIsTitlesWithMark | core/trend_tracker.py:326 | the question tally counts exactly the titles with either question mark |
| TrendTracker.AsWrittenMissesAsciiQuestion | core/trend_tracker.py:326 | as written, a title ending in an ASCII `?` is not counted |
| TrendTracker.Tracker.constructor | core/trend_tracker.py:23-51 | starts from the stored trends |
| TrendTracker.Tracker.RecordHotPostIn | core/trend_tracker.py:83-158 | applies RecordHotPost |
| TrendTracker.Tracker.GetActiveTrends | core/trend_tracker.py:193-222 | lists ActiveTrends and stores the expiry when the write succeeds |
| TrendTracker.Tracker.MarkTrendUsed | core/trend_tracker.py:348-363 | stores MarkUsed when the write succeeds |
| TrendTracker.Tracker.CleanupExpiredTrends | core/trend_tracker.py:365-386 | stores Cleanup when the write succeeds |
| ProductManager.FindFrom | core/product_manager.py:72-77 | the first product with the id from a position, or none |
| ProductManager.MatchScore | core/product_manager.py:128-133 | counts matching keywords, at most one per keyword |
| ProductManager.MatchScoreZero | core/product_manager.py:128-133 | a product scores 0 exactly when no lower-cased keyword occurs in the text |
| ProductManager.BestAmong | core/product_manager.py:126-143 | the earliest product with the maximal positive score, or none when all score 0 |
| ProductManager.BestBy | core/product_manager.py:126-143 | the chosen index has a positive score no lower than any other, and the earliest such wins ties; none exactly when every score is zero |
| ProductManager.MatchProduct | core/product_manager.py:111-146 | none for empty text; a match has a maximal positive score; none otherwise means no keyword matched |
| ProductManager.TodayCount | core/product_manager.py:209-219 | counts products promoted today |
| ProductManager.LastPromo | core/product_manager.py:221-235 | the latest promotion stamp, none exactly when no product was promoted |
| ProductManager.CanPromote | core/product_manager.py:183-207 | capped exactly at the daily limit; allowed exactly under the cap and after the interval; a refusal for being too soon has a positive wait |
| ProductManager.Promoted | core/product_manager.py:150-171 | one more mention, one more success when successful, stamped now |
| ProductManager.PromotionStartsInterval | core/product_manager.py:150-207 | right after a promotion no further promotion is allowed |
| ProductManager.PickStyle | core/product_manager.py:298-319 | the style is one of the weighted ones or the help-first fallback |
| ProductManager.PickStyleBand | core/product_manager.py:313-317 | for any weights, the roll picks the first style whose running total of weights reaches it |
| ProductManager.PickStyleFallback | core/product_manager.py:313-319 | for any weights, a roll above every running total gives "help_first" |
| ProductManager.DefaultBands | core/product_manager.py:298-319 | with the default weights: ≤0.6 help-first, ≤0.9 value-share, ≤1.0 direct-promo |
| ProductManager.Library.constructor | core/product_manager.py:20-56 | stored products and strategies, or the defaults when nothing is stored |
| ProductManager.Library.GetProductById | core/product_manager.py:72-77 | returns the product with the id exactly when one exists |
| ProductManager.Library.GetNextPromoProduct | core/product_manager.py:88-102 | round-robin over the products; none for an empty library |
| ProductManager.Library.MatchProductByContent | core/product_manager.py:111-146 | the scoring loop computes MatchProduct |
| ProductManager.Library.RecordPromo | core/product_manager.py:150-171 | updates the first product with the id; an unknown id changes nothing |
| ProductManager.Library.DecideInteractionType | core/product_manager.py:298-319 | the cumulative loop computes PickStyle |
| ProductManager.CountKeywords | core/product_manager.py:128-133 | the keyword loop computes MatchScore |
| ProductManager.RoundRobin | core/product_manager.py:88-102 | every product is served within one round of n calls |
| ProductManager.RoundRobinPeriod | core/product_manager.py:88-102 | the rotation repeats after n calls |
| ContentPlanning.Bump | core/content_strategy.py:152-171 | bumps exactly the counter of the kind |
| ContentPlanning.ResetDaily | core/content_strategy.py:48-65 | a new day starts with zero counters and an empty record, and the same day changes nothing |
| ContentPlanning.Recorded | core/content_strategy.py:152-171 | bumps today's record and counter for the kind, stamps promotions, and leaves other days alone |
| ContentPlanning.Decide | core/content_strategy.py:69-124 | value content at the cap or when promotion is refused; promotion only when allowed; promotion for a lagging ratio on the 0.7 roll |
| ContentPlanning.ResetMakesConsistent | core/content_strategy.py:48-65 | after a reset the counters agree with today's record, all zero |
| ContentPlanning.RecordKeepsConsistent | core/content_strategy.py:152-171 | recording keeps the counters consistent with today's record |
| ContentPlanning.PromoCapKept | core/content_strategy.py:69-124 | deciding and recording never exceed the daily promotion cap |
| ContentPlanning.PublishVerdict | core/content_strategy.py:209-240 | refused exactly at the daily limit; publish exactly under it and near a good hour |
| ContentPlanning.PublishWindow | core/content_strategy.py:226-232 | near a good hour exactly from 6 to 14 and from 19 to 23 |
| ContentPlanning.Planner.constructor | core/content_strategy.py:21-38 | stored stats or empty ones |
| ContentPlanning.Planner.CheckAndResetDaily | core/content_strategy.py:48-65 | applies ResetDaily for today |
| ContentPlanning.Planner.RecordContent | core/content_strategy.py:152-171 | applies Recorded |
| ContentPlanning.Planner.DecideContentType | core/content_strategy.py:69-134 | resets, decides, records; a promotion takes the next product or fails when there are none |
| ContentPlanning.Planner.ShouldPublishNow | core/content_strategy.py:209-240 | the hour loop computes PublishVerdict |
| ContentPlanning.Planner.GetTodayStats | core/content_strategy.py:244-257 | resets, then reports today's counters and their sum |
| SmartInteraction.EffectiveStyle | core/smart_interact.py:60-65 | direct promotion is downgraded to help-first exactly at the direct cap |
| SmartInteraction.DecidePromo | core/smart_interact.py:46-92 | a promotional comment exactly when promotion is allowed, with the effective style; otherwise a normal comment naming the refusal |
| SmartInteraction.DecideNormal | core/smart_interact.py:94-112 | a comment exactly when the model asks for one and the roll is under 0.7; otherwise a like |
| SmartInteraction.DecideInteraction | core/smart_interact.py:17-44 | skips exactly the irrelevant posts, then promotes a matched product or interacts normally |
| SmartInteraction.DirectPromoWithinCap | core/smart_interact.py:46-92 | a direct promotion happens only under the direct cap and when promotion is allowed |
| SmartInteraction.PromotesIff | core/smart_interact.py:17-92 | a post is promoted exactly when it is relevant, a product matches and promotion is allowed |
| SmartInteraction.RecordInteraction | core/smart_interact.py:150-163 | only a promotion with a product id is recorded, as a success when it had a comment |
| Research.ExtractDetail | core/researcher.py:229-290 | video exactly when there is a video URL; the comments are the leading ones, up to the limit |
| Research.SearchTerm | core/researcher.py:55 | the given keyword, or one of the configured keywords |
| Research.FindUnvisitedFrom | core/researcher.py:408-422 | the first card with an unvisited id, or none |
| Research.FindUnvisitedNote | core/researcher.py:408-422 | the card loop computes FindUnvisited |
| Research.Target | core/researcher.py:84-100 | an opened note has a non-empty unvisited id |
| Research.Step | core/researcher.py:66-138 | opening a note visits it and resets the retry count; a post is kept only when loaded with content |
| Research.StepSound | core/researcher.py:66-138 | one round keeps the crawl sound |
| Research.RunSound | core/researcher.py:66-138 | the crawl stays sound, always stops, visits more and keeps earlier posts |
| Research.OpenedOnce | core/researcher.py:84-100 | no note is opened twice or if it was visited before, and every opened note ends visited |
| Research.RunVisitedGrows | core/researcher.py:66-138 | the visited set only grows |
| Research.ResearchAgent.constructor | core/researcher.py:29-45 | starts with no visited notes |
| Research.ResearchAgent.RunDeepResearch | core/researcher.py:48-158 | the loop computes the crawl: at most 20 posts, all with content, and visits more |
| Research.CommentParts | core/researcher.py:647-671 | numbered author, likes only when positive, the content, and at most three replies |
| Research.ReplyLines | core/researcher.py:664-668 | one reply line per reply |
| Research.CommentBlocks | core/researcher.py:647-671 | one numbered block per shown comment |
| Research.SectionShowsLeadingComments | core/researcher.py:647-671 | the header counts all comments, and the leading ones (up to the limit) are shown in order |
| Research.CommentPiece | core/researcher.py:655-668 | the loop builds CommentParts |
| Research.BuildCommentSection | core/researcher.py:647-671 | the loop builds the comment section |
| Transcription.Command | server/transcriber.py:68-81 | the fixed head, then `-l` and the language when given, and `--translate` last when translating |
| Transcription.BuildCommand | server/transcriber.py:68-81 | the builder computes Command |
| Transcription.TextLines | server/transcriber.py:127-149 | keeps only text lines |
| Transcription.TextLinesSound | server/transcriber.py:127-149 | every kept line is a stripped input line |
| Transcription.TextLinesComplete | server/transcriber.py:127-149 | every stripped input line that is text is kept |
| Transcription.ParseOutput | server/transcriber.py:127-149 | the loop computes the joined text |
| Transcription.WordRun | server/transcriber.py:163 | the greedy word-character run |
| Transcription.MatchAt | server/transcriber.py:163 | a match has the marker, case-insensitively, and a non-empty word |
| Transcription.SearchFrom | server/transcriber.py:163 | a search result matches at some position, and none means no position matches |
| Transcription.SearchLeftmost | server/transcriber.py:163 | the result is the leftmost match |
| Transcription.LanguageCode | server/transcriber.py:164-176 | known names map to their codes; other names are returned lower-cased |
| Transcription.DetectLanguage | server/transcriber.py:151-178 | none exactly when nothing matches; otherwise the non-empty code of the leftmost match |
| Transcription.ResultLanguage | server/transcriber.py:116 | detected, else requested, else "unknown", never empty |
| Transcription.TranscribeResult | server/transcriber.py:45-125 | a missing file, a timeout and a non-zero exit are errors with their messages; success exactly on exit 0, with the stripped text and the language |
| Transcription.Transcribe | server/transcriber.py:45-125 | builds the command and returns TranscribeResult |
| Transcription.DetectedLanguageWins | server/transcriber.py:110-116 | a reported language overrides the requested one |

## Left out

- Browser automation is not modelled: Playwright pages, clicks, scrolling, sleeps, human-like mouse motion and DOM queries. Their outcomes are parameters ("world" records, oracle readings). Whether a like or collect click succeeded is not modelled; an effect records the attempt.
- Calls to the language model, the image generator and the publisher are not modelled. Their replies are parameters, and JSON parsing is a parameter function.
- Files are not modelled. The model keeps what a file stores as a field. A write failure is a boolean parameter, and the exceptions the source swallows around saves are not modelled.
- Clock time is not modelled. It is an integer number of seconds. Local dates and hours come from `Clock.DayOf` and `Clock.HourOf`.
- Random draws are passed in as rolls.
- Strings are simplified. Whitespace, digits and case folding are ASCII only. `splitlines` splits on '\n' only. Regex `\w` covers ASCII letters, digits, '_' and the CJK range 一 to 龥. Case-insensitive matching folds ASCII only.
- Numbers are simplified. Floats are reals without rounding, and `round()` is left out. A repeated JSON key keeps its first position and its last value, as a Python dict built by `json.loads` does.
- html.escape, the Markdown converter and the HTML decoration are parameters of the renderer. `html_search_meta`, `js_to_json`, `search_json` and the page download are not part of this model; the extractor receives the parsed state.
- Analytics: the posting hour is a parameter, and stats are keyed by a draft's creation time. `load_published_drafts`, `save_stats` and `get_stats` are storage only.
- KnowledgeStore.KnowledgeBase.SaveInspiration: deduplication and the creation threshold look at stored entries only, as the source does, and not at the unflushed buffer.
- Supervision.Supervisor.CreateAndPublishCycle: marks the one chosen inspiration. Exceptions inside the cycle are folded into the "no image" and "not published" outcomes, which have the same effect on state.
- XhsExtractor.FloatOrNone: text in exponent form ("1e3"), "inf", "infinity" and "nan" give none, where `float()` accepts them; reals have no infinities or NaN. Underscores between digits are accepted, as `float()` does.
- Recovery.FilterPatchLines: drops individual dangerous lines of the patch, as the source does. Executing the patch is a parameter.
- ViralAnalyzer: `save_analysis`, `get_content_template` and `apply_viral_patterns_to_content` are left out; they are storage and text templates.
- AbTester: recommendation and insight sentences are datatypes, not text. Two tests created within one second get the same id, and saving the second replaces the first, as in the source. `get_winning_variant`, the status filter of `get_all_tests`, `generate_summary_report` and `simulate_test_result` are left out as reporting and simulation helpers.
- AbTester.TitleVariants: requires fewer than 0xD800 − 65 alternatives, so that each variant letter is a valid character.
- TrendTracker: topics are a set. `get_trending_topics`, `get_trend_inspirations`, `_generate_rewrite_suggestion`, `analyze_trend_patterns`, `_analyze_content_themes` and `get_trend_summary` are left out as reporting text. `_generate_rewrite_suggestion` has the same duplicated "？" test as line 326.
- ProductManager: a stored strategy is taken whole; per-key defaults inside it are not modelled. A promotion stamp is an optional integer, and unparsable stamps are not modelled. `get_products_by_category`, `get_random_product`, `get_stats`, `get_product_content_template` and `get_trigger_keywords_map` are left out as lookups outside promotion decisions.
- ContentPlanning: `get_content_style`, `get_content_angle` and `get_summary` are left out as text selection. `_record_content` receives only the three content kinds.
- ContentPlanning.Planner.DecideContentType: a promotion with no products crashes in the source after the kind was recorded. It is modelled as an error result, with the record kept.
- ContentPlanning.Planner.ShouldPublishNow: does not reset the daily counters, as in the source.
- SmartInteraction: the model's product match and its promotional comment are parameters. An empty matched-product dictionary, which is falsy, is modelled as none. `get_comment_templates` and `get_daily_stats` are left out as reporting.
- Research: the model assumes `DEEP_RESEARCH_ENABLED` is on. When it is off, the constructor (core/researcher.py:37-39) and `run_deep_research` (core/researcher.py:49-51) return early, and run_research.py:16 refuses to start.
- Research: the crawl loop is modelled over a finite trace of rounds, because the real loop may never terminate; the extra stop reason `TraceEnded` marks the end of the trace. Scrolling, clicks, JavaScript extraction, video download, speech recognition, `_perform_search`, report generation and saving are left out. A partial detail after a swallowed exception arrives as a parameter. Of `_prepare_llm_prompt`, only the comment section is modelled, since the rest is fixed prompt text.
- Transcription: the process run is a parameter. `processing_time`, logging and the constructor's path checks are left out.
- Supervision.Supervisor.RunPass: an exception or Ctrl-C is taken before the cycle runs, so the pass report keeps only the error; effects a raising cycle had already caused are lost, among them the search, scroll and card effects, a keyword rotation, and an inspiration saved before a later click raised.
- XhsExtractor.IntOrNone: `int()` of a string accepts ASCII digits only here; Python also accepts other Unicode decimal digits.
- XhsExtractor.PyStr: `str()` of a float, a list or a dict is kept as the value itself (`ReprOf`), not as Python's repr text.
- ViralAnalyzer.MostCommonFive: the order among factors with equal counts (first occurrence first, in Python) is not stated; the sort is proved sorted and a permutation, not stable.
- Transcription.Command: the last argument is `--translate` when translating. The reverse is not stated, because a caller-supplied language could itself be "--translate".

## Findings

| source | as written | input that shows it | evidently intended | confidence | as-written member | corrected member |
|---|---|---|---|---|---|---|
| core/trend_tracker.py:326 | the question test checks for the full-width "？" twice | the titles ["好用吗?"] count no question | test for either "?" or "？" | not executed | TrendTracker.TitlePatternsAsWritten (shown by TrendTracker.AsWrittenMissesAsciiQuestion) | TrendTracker.AnalyzeTitlePatterns (proved by TrendTracker.QuestionCountIsTitlesWithMark) |
