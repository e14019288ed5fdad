# ContentLens AI workflow core, modelled in Dafny

ContentLens AI takes a marketing or media document through a LangGraph
workflow, and the pieces are modelled here as follows.

- **Extraction and refinement.** An extraction node turns the raw text into
  structured data. A refiner node rewrites the user's request.
- **Routing and planning.** A router agent picks what to do next. The router
  node stores that decision as `next_steps` and plans *batches* of agents:
  `translate` and `compliance` run alone, and the other agents are grouped
  together.
- **Execution.** Two executors run a batch. The batch executor runs the
  agents of the batch at `current_batch_index` and merges their outputs into
  the state fields. The parallel agents node runs every planned agent
  concurrently through its node function. It records one `AgentOutput` and
  one `AgentMetadata` per agent, per-agent errors, the legacy output fields
  and the `completed_agents` list.
- **Per-capability nodes.** Each node (analysis, summarisation, translation,
  recommendation, copywriting, ideation, compliance, extraction, refinement)
  calls its agent and asks the LLM judge for a score. It then appends the
  judge's record to the shared `evaluations` list and returns a partial
  state update. All of them except the refiner also validate the output.
  All of them except extraction and refinement also bump
  `current_step_index`.
- **Deterministic code.** Some code involves no language model:
  - the compliance checker (keyword lists and the ok/review/block status);
  - the output validators;
  - the brief validator;
  - the whitespace and truncation helpers;
  - the parsing of the judge's `SCORE:`/`REASONING:` answer;
  - the router agent's whitelist over the model's answer.

How the model is built:

- Python values are a `Value` datatype. Dicts are association lists in
  insertion order. An exception is `Raised(Exc(kind, message))` in an
  `Outcome`.
- Every language-model call is a function parameter (`Agents.Llm`,
  `Judge.JudgeLlm`, `RouterAgent.RouterLlm`). The model's claims therefore
  hold for every possible model answer.
- Agents are called through `Agents.Run`. It binds positional and keyword
  arguments the way CPython does, including CPython's `TypeError` messages.
  A call that does not match the agent's `run` signature therefore raises
  exactly as the Python code does.
- The state is `WorkflowState.StateDict` (an absent key is `None`). A key
  present with the value `None` is representable only in the fields typed
  `Value`. The typed fields (`next_steps`, the cursors, the batch and agent
  lists, `errors` and the per-agent maps) cannot hold it. No code of the core
  writes `None` to them. The
  shared `evaluations` list, which the nodes append to in place, lives in the
  class `WorkflowState.AgentState`.
- Every node is a pure step function `XStep(f, ...)`, which returns the
  update (or the exception) together with the state after the call. The node
  is also a method on an `AgentState` object that is proved to do the same.
- Loops in the Python code become methods with loop invariants, each proved
  against its function:
  - `RouterNode.GroupParallelAgents`;
  - `Compliance.ScanGroup`;
  - `Judge.ParseResponse`;
  - `ParallelBatch.ExecuteBatchParallel` and `ParallelBatch.ExecuteBatchAsync`;
  - `ParallelAgents.ParallelAgentsNode`.

Where the repository's own annotations and docstrings promise one thing and
the code does another, the model follows the code:

- **The router's decision.** `RouterAgent.decide` returns a single `str`
  taken from a four-word whitelist, and it falls back to `"summarize"`. The
  state's annotation `next_steps: Optional[List[str]]`
  (backend/app/models/state/state.py:46, "List of agent names to execute")
  and the docstring of `parallel_agents_node`
  (backend/app/nodes/parallel_agents_node.py:182) expect a list of agent
  names. `router_node` stores that string as `next_steps`, so the
  planner iterates over its characters. The result is one batch of
  one-character names that no executor recognises (see
  `RouterNode.RouterPlansCharacters`, `ParallelBatch.RouterPlanYieldsNothing`
  and `ParallelAgents.RouterDecisionAllFail`).
- **Batch failures.** The batch executor records no per-task error. An agent
  that raises or times out contributes nothing to the merged update. It does
  not write an "execution timed out" entry.
- **Plans and batches.** The plan is not deduplicated, and batches are lists,
  not sets.
- **Compliance reports.** A report is `{"status", "issues"}` with plain
  string issues. Its status is ok/review/block. It has no severity,
  `issue_count` or `risk_score`, so the compliance output validator (which
  requires those keys) rejects every report the checker produces.
- **Misplaced arguments.** The batch executor passes `user_request` to the
  recommender and the copywriter, whose `run` takes one argument. The
  recommendation and copywriter nodes pass two positional arguments. All
  four calls raise `TypeError`.

## Model

| member | source | states |
|---|---|---|
| TextUtils.CleanExtraWhitespace | backend/app/utils/text_utils.py:3-5 | the result has only single plain spaces and none at either end, and it splits into exactly the words of the input |
| TextUtils.CleanIsJoinOfWords | backend/app/utils/text_utils.py:3-5 | cleaning equals joining the input's whitespace-separated words with one space |
| TextUtils.CleanIdempotent | backend/app/utils/text_utils.py:3-5 | cleaning a cleaned text changes nothing |
| TextUtils.CleanKeepsVisible | backend/app/utils/text_utils.py:3-5 | the non-whitespace characters are kept, in order |
| TextUtils.TruncateText | backend/app/utils/text_utils.py:7-9 | a text of at most `max_chars` characters comes back unchanged; a longer one becomes its first `max_chars` characters plus "..." (length `max_chars + 3`), with Python's slice rule for a negative bound |
| TextUtils.TruncateDefault | backend/app/utils/text_utils.py:7-9 | without a bound the limit is 2000 characters: a text of at most 2000 characters is unchanged, a longer one becomes its first 2000 characters plus "..." |
| BriefValidator.IsValidBrief | backend/app/tools/validators.py:11-25 | the empty text is no brief; otherwise a text is a brief exactly when at least two required keywords occur in its lower-cased form |
| BriefValidator.TwoKeywordsIff | backend/app/tools/validators.py:17-21 | the keyword filter finds at least two keywords exactly when two distinct positions of the keyword list occur in the text |
| BriefValidator.OneKeywordIff | backend/app/tools/validators.py:17 | the filter finds a keyword exactly when some keyword occurs |
| BriefValidator.IsValidBriefMonotone | backend/app/tools/validators.py:11-25 | text around a brief keeps it a brief |
| BriefValidator.IsValidBriefIgnoresCase | backend/app/tools/validators.py:15 | validity does not depend on letter case |
| BriefValidator.OneKeywordIsNoBrief | backend/app/tools/validators.py:21-23 | "KPI" alone (one keyword) is rejected |
| BriefValidator.TwoKeywordsMakeBrief | backend/app/tools/validators.py:21-25 | "Target KPI" (two keywords) is accepted |
| BriefValidator.SanitizeText | backend/app/tools/validators.py:28-30 | the result is the whitespace-cleaned text: canonical spacing, same visible characters |
| BriefValidator.SanitizeIdempotent | backend/app/tools/validators.py:28-30 | sanitising twice equals sanitising once |
| Compliance.Lines | backend/app/agents/compliance.py:25-35 | one issue line per matched keyword, in keyword order, with the group's prefix |
| Compliance.ScanGroup | backend/app/agents/compliance.py:25-35 | the loop appends exactly the issue lines of the keywords found in the lowered text |
| Compliance.HasBlockIssue | backend/app/agents/compliance.py:38 | the scan finds an issue starting with "block" exactly when one exists |
| Compliance.Run | backend/app/agents/compliance.py:19-43 | the report built by the loops equals the checker function `Check` |
| Compliance.IssueLinePrefix | backend/app/agents/compliance.py:27-35 | every issue line starts with its group's prefix, and with "block" exactly for the block group |
| Compliance.LinesBlockIff | backend/app/agents/compliance.py:38 | a group's lines contain a block issue exactly when the group is the block group and matched something |
| Compliance.AnyBlockConcat | backend/app/agents/compliance.py:38 | a block issue occurs in a concatenation exactly when it occurs in one part |
| Compliance.LinesEmptyIff | backend/app/agents/compliance.py:25-35 | a group contributes no line exactly when none of its keywords occurs, ignoring case |
| Compliance.StatusBlockIff | backend/app/agents/compliance.py:37-41 | the status is "block" exactly when a block keyword occurs, ignoring case |
| Compliance.StatusOkIff | backend/app/agents/compliance.py:37-41 | the status is "ok" exactly when no keyword of any group occurs |
| Compliance.StatusReviewIff | backend/app/agents/compliance.py:37-41 | the status is "review" exactly when no block keyword but some privacy or review keyword occurs |
| Compliance.StatusIsKnown | backend/app/agents/compliance.py:37-41 | the status is one of ok, review, block |
| Compliance.IssueCountBound | backend/app/agents/compliance.py:12-14 | at most 16 issues (one per keyword) |
| Compliance.IssuePrefixes | backend/app/agents/compliance.py:25-35 | issues come in order: block lines, then privacy lines, then review lines |
| Compliance.CheckIgnoresCase | backend/app/agents/compliance.py:23 | the report of a lower-cased text equals the report of the text |
| Compliance.SellPersonalDataBlocked | backend/app/agents/compliance.py:12 | a text mentioning "sell personal data" is blocked |
| Compliance.ReportValue | backend/app/agents/compliance.py:43 | the report is a dict with keys status, issues in that order; `status` holds the status string and `issues` the list of the issue strings, in order |
| Compliance.RunOn | backend/app/agents/compliance.py:19-23 | a `str` content gives the report of `Check`; anything else raises (no `lower`) |
| Judge.Clamp | backend/app/agents/judge.py:69 | the clamped score is within 1..10 and unchanged inside that range |
| Judge.ParseResponse | backend/app/agents/judge.py:59-73 | the parsing loop over the stripped response's lines computes the fold `Fold` |
| Judge.ScoreInRange | backend/app/agents/judge.py:62-69 | the parsed score is always within 1..10 |
| Judge.LastScoreWins | backend/app/agents/judge.py:65-71 | the last line with a parseable score decides the score, clamped |
| Judge.NoScoreDefault | backend/app/agents/judge.py:62 | with no parseable score line the score is 5 |
| Judge.LastReasoningWins | backend/app/agents/judge.py:72-73 | the last reasoning line decides the reasoning |
| Judge.NoReasoningDefault | backend/app/agents/judge.py:63 | with no reasoning line the reasoning is "Evaluation failed to parse" |
| Judge.Evaluate | backend/app/agents/judge.py:42-88 | the record is the parsed answer, or score 1 with "Evaluation error: " and the message when the model call raises; the score is in 1..10 and the agent type is kept |
| Judge.VerdictInRange | backend/app/agents/judge.py:76-88 | every evaluation record has a score in 1..10 and the given agent type |
| Judge.WellFormedAnswer | backend/app/agents/judge.py:59-80 | "SCORE: 8\nREASONING: clear" gives score 8 and reasoning "clear" |
| Judge.SplitOnJoin | backend/app/agents/judge.py:60 | splitting on newline cuts at the first newline |
| RouterAgent.FirstValidStep | backend/app/agents/router.py:41-45 | a step is returned only if it occurs in the decision, and none is returned exactly when no step occurs |
| RouterAgent.Choose | backend/app/agents/router.py:38-48 | the choice is one of the four whitelisted steps, "summarize" when none occurs |
| RouterAgent.Decide | backend/app/agents/router.py:34-51 | the decision is always whitelisted, "summarize" when the model call raises |
| RouterAgent.WhitelistOrderWins | backend/app/agents/router.py:42-45 | the first whitelisted step in list order that occurs wins |
| RouterAgent.SummarizeBeforeRecommend | backend/app/agents/router.py:41 | an answer naming both "recommend" and "summarize" yields "summarize" |
| RouterAgent.DecideIgnoresCase | backend/app/agents/router.py:38 | the choice does not depend on the letter case of the answer |
| WorkflowState.Elements | backend/app/models/state/state.py:46 | a list of steps yields its names; a stored string yields its characters |
| WorkflowState.WithEvaluation | backend/app/models/state/state.py:68 | appending a judge record extends a present list and leaves every other key unchanged |
| WorkflowState.WithContent | backend/app/models/state/state.py:53-59 | writing one output field sets it and keeps the other output fields, evaluations, completed agents and errors |
| WorkflowState.AgentState.constructor | backend/app/models/state/state.py:33-69 | the object holds the given state |
| WorkflowState.AgentState.AppendEvaluation | backend/app/nodes/analysis_node.py:22-23 | returns the old list plus the record, and the state's list now holds it too |
| Agents.SignatureOf | backend/app/agents/translator.py:37 | every agent's `run` takes one or two parameters, of which at least one is required |
| Agents.Bind | backend/app/agents/translator.py:37 | a successful binding gives every parameter a value and takes no more positional arguments than parameters |
| Agents.Run | backend/app/agents/translator.py:37-48 | a call raises exactly when binding its arguments fails, and then with `TypeError` |
| Agents.BindErrorsAreTypeErrors | backend/app/agents/translator.py:37 | every binding failure is a `TypeError` |
| Agents.TwoPositionalRaises | backend/app/agents/recommender.py:51 | two positional arguments to a one-parameter `run` raise "takes 2 positional arguments but 3 were given" |
| Agents.UnexpectedKeywordRaises | backend/app/agents/copywriter.py:33 | a keyword that is not a parameter raises "got an unexpected keyword argument" |
| Agents.OnePositionalBinds | backend/app/agents/analyzer.py:33 | one positional argument binds for every agent whose `run` has one required parameter (all agents except the refiner, whose `run` also requires `user_request`) |
| Agents.TwoPositionalBinds | backend/app/agents/refiner.py:42 | two positional arguments bind for a two-parameter agent |
| Agents.FirstKeywordBinds | backend/app/agents/summarizer.py:34 | the first parameter passed by keyword binds |
| Agents.TranslatorKeywords | backend/app/agents/translator.py:37-48 | the translator called with content and source_lang keywords returns the translation or the failure text |
| Agents.TranslatorArabicShortcut | backend/app/agents/translator.py:38-39 | source language "ar" returns the note with the original content |
| Agents.TranslatorArabicPositional | backend/app/agents/translator.py:38-39 | the same shortcut with positional arguments |
| Agents.TranslatorDefaultsSourceLang | backend/app/agents/translator.py:37 | an omitted source language is `None` |
| Nodes.Lookup | backend/app/nodes/analysis_node.py:10 | `state[key]` yields the value or raises `KeyError` |
| Nodes.FirstTruthy | backend/app/nodes/compliance_node.py:12 | the first truthy candidate wins, else the last operand |
| Nodes.Finish | backend/app/nodes/analysis_node.py:12-31 | an agent or judge-context error propagates with the state untouched; otherwise the update holds the output, the bumped counter if any, and the evaluations list with the judge record appended, which the state now holds too |
| Nodes.FinishNode | backend/app/nodes/analysis_node.py:12-31 | the in-place step on the state object equals `Finish` |
| Nodes.AnalysisStep | backend/app/nodes/analysis_node.py:7-31 | a missing extraction raises `KeyError`; otherwise analysis, counter and evaluations are returned |
| Nodes.AnalysisNode | backend/app/nodes/analysis_node.py:7-31 | the node on the state object equals `AnalysisStep` |
| Nodes.SummarizationStep | backend/app/nodes/summarization_node.py:7-31 | a missing extraction raises `KeyError`; otherwise summary, counter and evaluations are returned |
| Nodes.SummarizationNode | backend/app/nodes/summarization_node.py:7-31 | the node on the state object equals `SummarizationStep` |
| Nodes.TranslationText | backend/app/nodes/translation_node.py:10 | a truthy summary is translated, otherwise `raw_text` (which must be present) |
| Nodes.TranslationStep | backend/app/nodes/translation_node.py:7-32 | a missing text raises `KeyError`; otherwise the translation, counter and evaluations are returned |
| Nodes.TranslationNode | backend/app/nodes/translation_node.py:7-32 | the node on the state object equals `TranslationStep` |
| Nodes.TranslationArabic | backend/app/nodes/translation_node.py:11 | with source language "ar" the stored translation is the "already in Arabic" note |
| Nodes.RecommendationStep | backend/app/nodes/recommendation_node.py:8-34 | an error leaves the state as it was; a success returns recommendation, counter and evaluations |
| Nodes.RecommendationNode | backend/app/nodes/recommendation_node.py:8-34 | the node on the state object equals `RecommendationStep` |
| Nodes.RecommendationNodeRaises | backend/app/nodes/recommendation_node.py:13 | the node always raises the two-arguments `TypeError`, leaving the state as it was |
| Nodes.CopywriterStep | backend/app/nodes/copywriter_node.py:7-33 | an error leaves the state as it was; a success returns copywriting, counter and evaluations |
| Nodes.CopywriterNode | backend/app/nodes/copywriter_node.py:7-33 | the node on the state object equals `CopywriterStep` |
| Nodes.CopywriterNodeRaises | backend/app/nodes/copywriter_node.py:13 | the node always raises the two-arguments `TypeError`, leaving the state as it was |
| Nodes.IdeationStep | backend/app/nodes/ideation_node.py:7-31 | the node always succeeds and returns the agent's ideas, the counter and evaluations |
| Nodes.IdeationNode | backend/app/nodes/ideation_node.py:7-31 | the node on the state object equals `IdeationStep` |
| Nodes.IdeationInputChain | backend/app/nodes/ideation_node.py:10 | the input is the extraction if truthy, else the raw text if truthy, else "" |
| Nodes.ComplianceStep | backend/app/nodes/compliance_node.py:8-33 | a non-`str` text raises `AttributeError`; otherwise the stored report is the checker's report |
| Nodes.ComplianceNode | backend/app/nodes/compliance_node.py:8-33 | the node on the state object equals `ComplianceStep` |
| Nodes.ComplianceReadsExtraction | backend/app/nodes/compliance_node.py:12 | with no copy and no summary, the text checked is `str` of the extraction |
| Nodes.ExtractionStep | backend/app/nodes/extraction_node.py:8-27 | a missing raw text raises `KeyError`; otherwise the extraction and evaluations are returned, without a counter |
| Nodes.ExtractionNode | backend/app/nodes/extraction_node.py:8-27 | the node on the state object equals `ExtractionStep` |
| Nodes.RefinerStep | backend/app/nodes/refiner_node.py:6-19 | a missing extraction or request raises `KeyError`; a `str` request is replaced by the refined one |
| Nodes.RefinerNode | backend/app/nodes/refiner_node.py:6-19 | the node on the state object equals `RefinerStep` |
| Nodes.RefinerNonStringRequest | backend/app/nodes/refiner_node.py:6-19 | a non-`str` request makes the judge context raise `TypeError`, leaving the state as it was |
| RouterNode.GroupParallelAgents | backend/app/nodes/router_node.py:33-73 | the grouping loop computes the plan function `Plan` |
| RouterNode.PlanEmpty | backend/app/nodes/router_node.py:43-44 | no tasks give no batches |
| RouterNode.PlanFlatten | backend/app/nodes/router_node.py:49-73 | the batches joined in order are exactly the tasks: nothing lost, added or reordered |
| RouterNode.PlanWellGrouped | backend/app/nodes/router_node.py:49-73 | no batch is empty, translate and compliance each sit alone, and no two neighbouring batches could be merged |
| RouterNode.FreeTasksOneBatch | backend/app/nodes/router_node.py:66-71 | tasks without translate or compliance form a single batch |
| RouterNode.Route | backend/app/nodes/router_node.py:7-28 | truthy steps leave the state unchanged; otherwise a missing request raises `KeyError`, and a present request stores the router's decision as `next_steps`, the plan of its elements and both cursors at zero |
| RouterNode.RouterPlansCharacters | backend/app/nodes/router_node.py:14-17 | the router's decision is planned as one batch of one-character names, none of them a task |
| RouterNode.ChannelIff | backend/app/nodes/router_node.py:90-97 | "to_" + task is a valid channel exactly when task is one of the seven tasks |
| RouterNode.RoutingLogic | backend/app/nodes/router_node.py:76-102 | every successful route is "end" or a valid channel |
| RouterNode.RoutingLogicCases | backend/app/nodes/router_node.py:82-102 | a cursor past the end or on an unknown name routes to "end", and a cursor on a task routes to its channel |
| ParallelBatch.StateKey | backend/app/nodes/parallel_batch_node.py:109-117 | every task's output key is one of the seven output fields |
| ParallelBatch.ExecuteAgent | backend/app/nodes/parallel_batch_node.py:71-124 | the result has at most one entry, and only for a known task, under its output field |
| ParallelBatch.RecommendAndCopywriteDropped | backend/app/nodes/parallel_batch_node.py:96-101 | recommend and copywrite raise `TypeError` and contribute nothing |
| ParallelBatch.KeywordAgentsContribute | backend/app/nodes/parallel_batch_node.py:90-99 | summarize, translate, analyze and ideate always contribute their output under their field |
| ParallelBatch.ComplianceContributesIff | backend/app/nodes/parallel_batch_node.py:102-103 | compliance contributes exactly when its input is a `str`, and then the checker's report |
| ParallelBatch.MergeAllKeys | backend/app/nodes/parallel_batch_node.py:151-160 | merging updates whose keys lie in a set keeps the keys in that set |
| ParallelBatch.MergeAllAbsent | backend/app/nodes/parallel_batch_node.py:151-160 | a key no update mentions is absent from the merge |
| ParallelBatch.MergeAllLastWins | backend/app/nodes/parallel_batch_node.py:151-160 | the last update writing a key decides its value |
| ParallelBatch.ExecuteBatchParallel | backend/app/nodes/parallel_batch_node.py:127-163 | an empty batch raises `ValueError` (zero workers); otherwise the merge of the contributions in batch order, timed-out agents contributing nothing |
| ParallelBatch.CollectedKeys | backend/app/nodes/parallel_batch_node.py:141-160 | the merged batch output writes only output fields |
| ParallelBatch.CollectedAbsent | backend/app/nodes/parallel_batch_node.py:151-160 | a field no agent of the batch stores is absent |
| ParallelBatch.CollectedLastWins | backend/app/nodes/parallel_batch_node.py:151-160 | the last agent storing a field decides its value |
| ParallelBatch.ExecuteBatchAsync | backend/app/nodes/parallel_batch_node.py:166-192 | the loop merges each agent's contribution, or an error record under `<name>_output` for an agent that raised |
| ParallelBatch.AsyncMatchesParallel | backend/app/nodes/parallel_batch_node.py:166-192 | with no raised agent the async variant equals the thread-pool variant |
| ParallelBatch.ErrorKeyIsNoField | backend/app/nodes/parallel_batch_node.py:188 | an error key `<name>_output` is never an output field |
| ParallelBatch.AsyncErrorKey | backend/app/nodes/parallel_batch_node.py:186-190 | an agent that raised leaves its error record under `<name>_output` unless a later one of the same name overwrites it |
| ParallelBatch.BatchStep | backend/app/nodes/parallel_batch_node.py:33-68 | past the last batch nothing changes; an error leaves the state as it was; a success advances the batch cursor by one and writes only output fields |
| ParallelBatch.BatchResults | backend/app/nodes/parallel_batch_node.py:50-62 | a batch's results write only output fields |
| ParallelBatch.RunBatch | backend/app/nodes/parallel_batch_node.py:45-65 | an empty batch raises the zero-workers error; any other batch succeeds, advances the cursor by one, and returns only content keys |
| ParallelBatch.ParallelBatchExecutor | backend/app/nodes/parallel_batch_node.py:33-68 | the executor on the state object equals `BatchStep` |
| ParallelBatch.BatchStepErrors | backend/app/nodes/parallel_batch_node.py:45 | a cursor too negative raises `IndexError`, and an empty batch raises the zero-workers `ValueError` |
| ParallelBatch.SingleAgentBatch | backend/app/nodes/parallel_batch_node.py:51-56 | a one-agent batch returns that agent's contribution |
| ParallelBatch.UnknownAgentsYieldNothing | backend/app/nodes/parallel_batch_node.py:76-79 | a batch of unknown names contributes nothing |
| ParallelBatch.PlannedBatchRuns | backend/app/nodes/parallel_batch_node.py:41-65 | every batch of a router plan runs and advances the cursor |
| ParallelBatch.UnknownBatchYieldsNothing | backend/app/nodes/parallel_batch_node.py:57-68 | a first batch of unknown names returns nothing and only moves the cursor to 1 |
| ParallelBatch.RouterPlanYieldsNothing | backend/app/nodes/parallel_batch_node.py:33-68 | after the router stores its decision, the first batch step returns an empty update |
| ParallelAgents.NamedStepShape | backend/app/nodes/parallel_agents_node.py:28-36 | a named node that raises leaves the state as it was; one that succeeds appends one judge record |
| ParallelAgents.RunNamedNode | backend/app/nodes/parallel_agents_node.py:93-97 | running a named node on the state object equals its step function |
| ParallelAgents.TraceAgent | backend/app/nodes/parallel_agents_node.py:39-174 | the record carries the agent's name; its status is completed or failed; it passes validation exactly when completed; a failed record has an error, output `None` and no evaluation; a known agent fails exactly when its node raised, and its error is "<exception type>: <message>" of that exception |
| ParallelAgents.ExecuteAgentWithTracing | backend/app/nodes/parallel_agents_node.py:39-174 | tracing an agent on the state object equals `TraceAgent` |
| ParallelAgents.UnknownAgentFails | backend/app/nodes/parallel_agents_node.py:86-88 | an unknown name fails with "ValueError: Unknown agent: <name>" and leaves the state as it was |
| ParallelAgents.TraceOfRaised | backend/app/nodes/parallel_agents_node.py:140-153 | a known agent whose node raises gets the failed record with the exception's text, and the state is kept |
| ParallelAgents.TwoArgumentAgentsFail | backend/app/nodes/parallel_agents_node.py:140-153 | `recommend` and `copywrite` always fail with "TypeError: <agent>.run() takes 2 positional arguments but 3 were given", and the state is kept |
| ParallelAgents.RunAllTwoArgumentFailures | backend/app/nodes/parallel_agents_node.py:226-238 | every gathered record of `recommend` or `copywrite` is that failure |
| ParallelAgents.TracedEvaluation | backend/app/nodes/parallel_agents_node.py:121-153 | a failure leaves the state as it was, and for a known agent it is the record `Failed` builds from the text of the exception the node raised; a completion is the record `Completed` builds from the node's returned update, and leaves the state with the record the node appended |
| ParallelAgents.RunAll | backend/app/nodes/parallel_agents_node.py:226-238 | one result per task, missing exactly for the crashed ones, each named after its task |
| ParallelAgents.RunAllAppends | backend/app/nodes/parallel_agents_node.py:93-97 | running the tasks changes only the shared evaluations list, which gains the completed agents' records in task order |
| ParallelAgents.MergeWellFormed | backend/app/nodes/parallel_agents_node.py:249-286 | the merged maps have the same keys, each record sits under its own name, and the names are distinct |
| ParallelAgents.MergedNames | backend/app/nodes/parallel_agents_node.py:249-260 | an agent has an output exactly when some gathered result is its record |
| ParallelAgents.MergedLastWins | backend/app/nodes/parallel_agents_node.py:255-270 | the last record of a name decides its output, metadata and error |
| ParallelAgents.MergedUniformRecord | backend/app/nodes/parallel_agents_node.py:249-268 | when all records of an agent are the same record, it is the agent's output, and a failed one gives its error text |
| ParallelAgents.MergedErrors | backend/app/nodes/parallel_agents_node.py:266-270 | an agent has an error exactly when some gathered record of it failed |
| ParallelAgents.MergedLegacy | backend/app/nodes/parallel_agents_node.py:271-286 | a legacy field is written only by a completed record of a task |
| ParallelAgents.MergedNoLegacy | backend/app/nodes/parallel_agents_node.py:271-286 | with no completed task record no legacy field is written |
| ParallelAgents.StateKeyInjective | backend/app/nodes/parallel_agents_node.py:271-284 | two different known agents write two different legacy fields |
| ParallelAgents.MergedLegacyLastWins | backend/app/nodes/parallel_agents_node.py:266-284 | the last non-failed record of a known agent puts its output in that agent's legacy field, and a later failure of the agent does not clear it |
| ParallelAgents.MergedEvaluations | backend/app/nodes/parallel_agents_node.py:261-263 | an agent has an evaluation entry exactly when some gathered record of it carries a truthy evaluation |
| ParallelAgents.MergedEvaluationLastWins | backend/app/nodes/parallel_agents_node.py:261-263 | the entry is the one-item list of the agent's last truthy evaluation |
| ParallelAgents.CompletedAmong | backend/app/nodes/parallel_agents_node.py:327-330 | exactly the names whose record completed are listed |
| ParallelAgents.Distinct | backend/app/nodes/parallel_agents_node.py:331 | the same members, without duplicates |
| ParallelAgents.WithLegacy | backend/app/nodes/parallel_agents_node.py:323 | the legacy values overwrite their fields and everything else stays |
| ParallelAgents.ParallelStep | backend/app/nodes/parallel_agents_node.py:177-354 | with no steps the state passes through; a gather failure appends "Parallel execution failed: " and the message to the errors; otherwise no agents are pending |
| ParallelAgents.ParallelAgentsNode | backend/app/nodes/parallel_agents_node.py:177-354 | the node on the state object equals `ParallelStep` |
| ParallelAgents.CombinedFields | backend/app/nodes/parallel_agents_node.py:315-323 | the copy of the state holds the four merged maps, and each capability field takes the legacy value when one was merged and keeps its old value otherwise |
| ParallelAgents.ParallelErrors | backend/app/nodes/parallel_agents_node.py:264-268 | without a gather failure, `agent_errors` in the node's result names exactly the agents with a failed record |
| ParallelAgents.ParallelEvaluations | backend/app/nodes/parallel_agents_node.py:261-263 | without a gather failure, `agent_evaluations` in the node's result names exactly the agents with a record carrying a truthy evaluation |
| ParallelAgents.ParallelLastRecord | backend/app/nodes/parallel_agents_node.py:255-268 | in the node's result an agent's output is its last record, and a failed last record gives its error text in `agent_errors` |
| ParallelAgents.ParallelLegacy | backend/app/nodes/parallel_agents_node.py:266-284 | in the node's result the legacy field of a known agent holds the output of its last non-failed record |
| ParallelAgents.ParallelEvaluation | backend/app/nodes/parallel_agents_node.py:261-263 | in the node's result an agent's `agent_evaluations` entry is the one-item list of its last truthy evaluation |
| ParallelAgents.ParallelTwoArgumentErrors | backend/app/nodes/parallel_agents_node.py:226-268 | a planned, non-crashed `recommend` or `copywrite` task leaves its two-arguments failure as its output and its text in `agent_errors` |
| ParallelAgents.GatherAgents | backend/app/nodes/parallel_agents_node.py:227-238 | running one task per agent name, in order, yields the records and final state that `RunAll` describes, a crashed task giving no record |
| ParallelAgents.MergeRecords | backend/app/nodes/parallel_agents_node.py:248-284 | the merge loop over the gathered records equals `MergeOutputs` |
| ParallelAgents.OutputsCoverTasks | backend/app/nodes/parallel_agents_node.py:249-260 | outputs and metadata have the same keys, and an agent has an output exactly when a task of that name did not crash |
| ParallelAgents.CompletedAgentsUnion | backend/app/nodes/parallel_agents_node.py:325-334 | the completed list has no duplicates and is the old list plus the newly completed agents; nothing stays pending |
| ParallelAgents.GatherFailureRecorded | backend/app/nodes/parallel_agents_node.py:338-354 | a failure appends its message to the errors and leaves outputs, agent errors and completed agents as they were |
| ParallelAgents.RunAllUnknown | backend/app/nodes/parallel_agents_node.py:86-88 | tasks with unknown names all fail with the unknown-agent error and leave the state as it was |
| ParallelAgents.MergeAllFailed | backend/app/nodes/parallel_agents_node.py:249-286 | when every record failed, no legacy field is written, nothing counts as completed and each agent has its error |
| ParallelAgents.UnknownTasksAllFail | backend/app/nodes/parallel_agents_node.py:194-336 | tasks with unknown names leave the output fields and evaluations as they were and record an unknown-agent error for each |
| ParallelAgents.RouterDecisionAllFail | backend/app/nodes/parallel_agents_node.py:226-336 | after the router stores its decision, every task the node runs is an unknown agent |
| OutputValidator.AnyKey | backend/app/utils/output_validator.py:24-26 | true exactly when one of the keys is present |
| OutputValidator.ValidateExtraction | backend/app/utils/output_validator.py:14-26 | a string passes exactly when it is longer than 50 after stripping; a dict passes exactly when it has one of the seven keys; anything else fails |
| OutputValidator.ValidateSummary | backend/app/utils/output_validator.py:29-34 | passes exactly for a string of 10 or more stripped characters and fewer than 1000 characters |
| OutputValidator.ValidateAnalysis | backend/app/utils/output_validator.py:37-53 | passes exactly for a string of 50 or more stripped characters containing an analysis keyword, ignoring case |
| OutputValidator.ValidateRecommendation | backend/app/utils/output_validator.py:56-70 | passes exactly for a string of 20 or more stripped characters with a number mark, a bullet or the word "recommendation" |
| OutputValidator.ValidateIdeation | backend/app/utils/output_validator.py:73-85 | passes exactly for a string of 50 or more stripped characters with two or more numbered items or two title lines |
| OutputValidator.CopyMarkers | backend/app/utils/output_validator.py:97-103 | at most four structure markers are counted |
| OutputValidator.ValidateCopywriter | backend/app/utils/output_validator.py:88-104 | passes exactly for a string of 30 or more stripped characters with two or more structure markers |
| OutputValidator.ValidateTranslation | backend/app/utils/output_validator.py:107-116 | passes exactly for a string of 10 or more stripped characters containing an Arabic code point |
| OutputValidator.InStringSet | backend/app/utils/output_validator.py:133-134 | membership in a set of strings raises for a list or dict and is true exactly for a member string |
| OutputValidator.CheckIssues | backend/app/utils/output_validator.py:141-155 | the issues pass exactly when each issue passes |
| OutputValidator.ValidateCompliance | backend/app/utils/output_validator.py:119-173 | acceptance needs issue_count, risk_score and a status among ok, review, block |
| OutputValidator.ValidateAgentOutput | backend/app/utils/output_validator.py:176-202 | names without a validator pass; compliance passes exactly when its validator accepts; summary uses the summary validator |
| OutputValidator.ComplianceReportRejected | backend/app/utils/output_validator.py:119-173 | every report the compliance checker produces is rejected by its validator |
| OutputValidator.ComplianceSchemaAccepted | backend/app/utils/output_validator.py:119-173 | a report with the validator's schema is accepted |
| OutputValidator.ComplianceFields | backend/app/utils/output_validator.py:136-173 | the field checks pass exactly when the status is ok, review or block, the issues are a list whose every issue checks, the count is an int equal to their number and the risk is a non-negative int; raising needs an unhashable status or a raising issue |
| OutputValidator.FourKeys | backend/app/utils/output_validator.py:123-134 | a dict opening with the four schema keys is judged on their four values |
| OutputValidator.ComplianceBoolCount | backend/app/utils/output_validator.py:119-173 | a boolean `issue_count` passes the integer check |
| OutputValidator.UnhashableStatusRaises | backend/app/utils/output_validator.py:119-173 | a list status raises `TypeError` from the set membership test |
| OutputValidator.NumberMarksIff | backend/app/utils/output_validator.py:66-82 | counting number marks finds one exactly when some number mark exists |
| OutputValidator.NumberedIdeasAreRecommendations | backend/app/utils/output_validator.py:56-85 | numbered ideas that pass the ideation check also pass the recommendation check |
| OutputValidator.AnalysisIgnoresCase | backend/app/utils/output_validator.py:37-53 | analysis validation does not depend on letter case |
| OutputValidator.SummaryIgnoresCase | backend/app/utils/output_validator.py:29-34 | summary validation does not depend on letter case |
| OutputValidator.CopywriterIgnoresCase | backend/app/utils/output_validator.py:88-105 | copywriter validation does not depend on letter case, the markers being looked up in the lower-cased text |
| OutputValidator.TranslationIgnoresCase | backend/app/utils/output_validator.py:107-116 | translation validation does not depend on letter case, lower-casing leaving every Arabic character in place |

## Left out

- Language-model calls are parameters of the model. Agent constructors, the
  prompts and the LangChain chains are left out, and constructing an agent is
  taken never to raise.
- `str.lower()` is modelled on ASCII letters only. The regular expression
  class `\d` is taken as ASCII digits.
- Strings.ParseInt: Python's `int()` accepts the decimal digits of every
  script, and the model accepts ASCII digits only. A judge line such as
  `SCORE: ` followed by an Arabic-Indic seven therefore reads as unparseable
  in the model (so `Judge.ParseResponse` keeps the earlier score, or 5),
  where Python reads 7. `repr` escaping is simplified to the
  quote choice. The multiline ideation pattern is modelled line by line.
- Clock readings, `agent_id`, durations, log output and Langfuse spans and
  trace ids are left out. The Langfuse helpers (`backend/app/core/langfuse.py`)
  are not part of this model, and the trace client is taken as absent. The
  `trace_agent_execution` decorator is left out.
- Concurrency is modelled as sequential execution in list order. Thread-pool
  timeouts, agents that raise in a worker, tasks that crash inside `gather`
  and a failure of `gather` itself are parameters. A crashed task is taken not
  to have run its node. A gather failure is taken to happen after the nodes
  ran.
- `list(set(...))` has no defined order in Python. `ParallelAgents.Distinct`
  keeps first occurrences in order.
- The shared `evaluations` list is taken as a snapshot inside the stored
  agent outputs. The model does not capture later appends to that list
  showing through an output that was recorded earlier (aliasing).
- ParallelAgents.LastEvaluation: an `evaluations` value that is not a list is
  taken as no evaluation.
- LangGraph's merging of the returned updates, the graph wiring in
  `backend/app/graphs/document_graph.py`, `process_document`, the HTTP API,
  the file loaders, language detection, configuration and logging are not
  part of this model.
- OutputValidator.ValidateCompliance: its own contract states only what an
  accepted report must hold. The exact condition on the four field values
  is stated by `ComplianceFields` and tied to the dict by `FourKeys`, for a
  dict that opens with the four keys.
- OutputValidator.ValidateAgentOutput: the contract states only the unknown,
  compliance and summary names. The other names dispatch to the validators
  whose own contracts are listed above.
- ParallelAgents.ParallelStep: the contract states the shape of the three
  cases. The per-agent maps, the completed list and the legacy fields of the
  result are stated by the lemmas beside it: `OutputsCoverTasks`,
  `ParallelLastRecord`, `ParallelErrors`, `ParallelEvaluations`,
  `ParallelEvaluation`, `ParallelLegacy`, `CompletedAgentsUnion`,
  `ParallelTwoArgumentErrors`, `GatherFailureRecorded` and
  `UnknownTasksAllFail`.
- A typed state key present with the value `None` is read as absent. For
  example, `routing_logic` on `next_steps: None` raises `TypeError` in Python
  (backend/app/nodes/router_node.py:85), while the model routes to "end". No
  code of the core writes such a value.
- Integers are unbounded; Python's are too, so no width is modelled.
