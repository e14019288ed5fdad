/** The batch executor (backend/app/nodes/parallel_batch_node.py): runs the
    batch under the batch cursor, calling each agent by keyword with the
    input it takes, merges the one-entry dicts the agents give back, and
    moves the cursor in place. The worker threads are modelled as the order
    their results are collected in; which of them time out or raise is a
    parameter. */
module ParallelBatch {
  import opened Strings
  import opened Values
  import opened WorkflowState
  import Agents
  import Compliance
  import Nodes
  import RouterNode
  import RouterAgent

  /** The state field an agent's output is stored under; an unknown name
      would get `<name>_output`. */
  function StateKey(name: string): (k: string)
    ensures name in RouterNode.TaskNames ==> k in ContentKeys
  {
    match name
    case "summarize" => "summary"
    case "translate" => "translation"
    case "analyze" => "analysis"
    case "recommend" => "recommendation"
    case "ideate" => "ideation"
    case "copywrite" => "copywriting"
    case "compliance" => "compliance"
    case _ => name + "_output"
  }

  /** `state.get("extraction", state.get("raw_text", ""))`: a present
      `extraction` key wins even when its value is empty. */
  function AgentInput(f: StateDict): Value {
    Nodes.GetOr(f.extraction, Nodes.GetOr(f.rawText, Str("")))
  }

  /** The `run` call `_execute_agent` makes for a known agent, every argument
      by keyword. */
  function Invoke(llm: Agents.Llm, name: string, f: StateDict): Outcome<Value>
    requires name in RouterNode.TaskNames
  {
    var x := AgentInput(f);
    var request := Nodes.GetOr(f.userRequest, Str(""));
    match name
    case "summarize" => Agents.Run(llm, Agents.Summarizer, [], [Agents.KwArg("extraction_data", x)])
    case "translate" =>
      Agents.Run(llm, Agents.Translator, [], [Agents.KwArg("content", x), Agents.KwArg("source_lang", Nodes.GetOr(f.sourceLang, Null))])
    case "analyze" => Agents.Run(llm, Agents.Analyzer, [], [Agents.KwArg("content", x)])
    case "recommend" => Agents.Run(llm, Agents.Recommender, [], [Agents.KwArg("content", x), Agents.KwArg("user_request", request)])
    case "ideate" => Agents.Run(llm, Agents.Ideation, [], [Agents.KwArg("content", x)])
    case "copywrite" => Agents.Run(llm, Agents.Copywriter, [], [Agents.KwArg("brief", x), Agents.KwArg("user_request", request)])
    case "compliance" => Compliance.RunOn(x)
  }

  /** `_execute_agent(name, state)`: `{state_key: output}`, or `{}` for an
      unknown name or a call that raised (the error is only logged). */
  function ExecuteAgent(llm: Agents.Llm, name: string, f: StateDict): (r: PyDict)
    ensures |r| <= 1
    ensures r != [] ==> name in RouterNode.TaskNames && r[0].key == StateKey(name) && r[0].key in ContentKeys
  {
    if name !in RouterNode.TaskNames then []
    else
      match Invoke(llm, name, f)
      case Raised(_) => []
      case Done(output) => [Entry(StateKey(name), output)]
  }

  /** `d.update(u)`: the entries of `u` stored one after the other. */
  function Update(d: PyDict, u: PyDict): PyDict
    decreases |u|
  {
    if u == [] then d else Update(Put(d, u[0].key, u[0].val), u[1..])
  }

  lemma {:induction false} UpdateKeysWithin(d: PyDict, u: PyDict, ks: set<string>)
    requires KeysWithin(d, ks) && KeysWithin(u, ks)
    ensures KeysWithin(Update(d, u), ks)
    decreases |u|
  {
    if u != [] {
      PutKeysWithin(d, u[0].key, u[0].val, ks);
      UpdateKeysWithin(Put(d, u[0].key, u[0].val), u[1..], ks);
    }
  }

  /** `update` with a dict that lacks `k` leaves `k` alone. */
  lemma {:induction false} GetUpdateOther(d: PyDict, u: PyDict, k: string)
    requires forall j | 0 <= j < |u| :: u[j].key != k
    ensures Get(Update(d, u), k) == Get(d, k)
    decreases |u|
  {
    if u != [] {
      GetPut(d, u[0].key, u[0].val, k);
      GetUpdateOther(Put(d, u[0].key, u[0].val), u[1..], k);
    }
  }

  /** `update` with a one-entry dict is one store. */
  lemma UpdateSingle(d: PyDict, e: Entry)
    ensures Update(d, [e]) == Put(d, e.key, e.val)
  {
    assert [e][1..] == [];
  }

  /** `update` with a one-entry dict. */
  lemma GetUpdateOne(d: PyDict, e: Entry, k: string)
    ensures Get(Update(d, [e]), k) == if e.key == k then Some(e.val) else Get(d, k)
  {
    assert [e][1..] == [];
    GetPut(d, e.key, e.val, k);
  }

  // The agents as the executor calls them

  /** The recommender and the copywriter are passed `user_request=`, which
      their `run` does not take: the call raises `TypeError` and the agent
      contributes nothing. */
  lemma RecommendAndCopywriteDropped(llm: Agents.Llm, f: StateDict)
    ensures Invoke(llm, "recommend", f).Raised? && Invoke(llm, "recommend", f).exc.kind == "TypeError"
    ensures Invoke(llm, "copywrite", f).Raised? && Invoke(llm, "copywrite", f).exc.kind == "TypeError"
    ensures ExecuteAgent(llm, "recommend", f) == [] && ExecuteAgent(llm, "copywrite", f) == []
  {
    var x := AgentInput(f);
    var request := Nodes.GetOr(f.userRequest, Str(""));
    Agents.UnexpectedKeywordRaises(llm, Agents.Recommender, Agents.KwArg("content", x), Agents.KwArg("user_request", request));
    Agents.UnexpectedKeywordRaises(llm, Agents.Copywriter, Agents.KwArg("brief", x), Agents.KwArg("user_request", request));
  }

  /** The summarizer, translator, analyzer and ideation agents bind their
      keywords and always contribute their output under their field. */
  lemma KeywordAgentsContribute(llm: Agents.Llm, name: string, f: StateDict)
    requires name in {"summarize", "translate", "analyze", "ideate"}
    ensures Invoke(llm, name, f).Done?
    ensures ExecuteAgent(llm, name, f) == [Entry(StateKey(name), Invoke(llm, name, f).value)]
  {
    var x := AgentInput(f);
    match name
    case "summarize" => Agents.FirstKeywordBinds(llm, Agents.Summarizer, x);
    case "translate" => Agents.TranslatorKeywords(llm, x, Nodes.GetOr(f.sourceLang, Null));
    case "analyze" => Agents.FirstKeywordBinds(llm, Agents.Analyzer, x);
    case "ideate" => Agents.FirstKeywordBinds(llm, Agents.Ideation, x);
  }

  /** The compliance agent contributes its report exactly when its input is
      a string; any other input makes `content.lower()` raise. */
  lemma ComplianceContributesIff(llm: Agents.Llm, f: StateDict)
    ensures ExecuteAgent(llm, "compliance", f) != [] <==> AgentInput(f).Str?
    ensures AgentInput(f).Str? ==>
      ExecuteAgent(llm, "compliance", f) == [Entry("compliance", Compliance.ReportValue(Compliance.Check(AgentInput(f).s)))]
  {
    assert Invoke(llm, "compliance", f) == Compliance.RunOn(AgentInput(f));
  }

  // Merging what the agents hand back

  /** The dicts merged into `{}` one after the other with `update`. */
  function MergeAll(us: seq<PyDict>): PyDict
    decreases |us|
  {
    if us == [] then [] else Update(MergeAll(us[..|us| - 1]), us[|us| - 1])
  }

  /** One more dict merged at the end. */
  lemma MergeAllSnoc(us: seq<PyDict>, i: int)
    requires 0 <= i < |us|
    ensures MergeAll(us[..i + 1]) == Update(MergeAll(us[..i]), us[i])
  {
    assert us[..i + 1][..i] == us[..i];
  }

  /** Keys drawn from `ks` stay within `ks`. */
  lemma {:induction false} MergeAllKeys(us: seq<PyDict>, ks: set<string>)
    requires forall i | 0 <= i < |us| :: KeysWithin(us[i], ks)
    ensures KeysWithin(MergeAll(us), ks)
    decreases |us|
  {
    if us != [] {
      MergeAllKeys(us[..|us| - 1], ks);
      UpdateKeysWithin(MergeAll(us[..|us| - 1]), us[|us| - 1], ks);
    }
  }

  /** `k` is in dict `u`. */
  predicate Mentions(u: PyDict, k: string) {
    exists j | 0 <= j < |u| :: u[j].key == k
  }

  /** A key none of the dicts has is absent from the merge. */
  lemma {:induction false} MergeAllAbsent(us: seq<PyDict>, k: string)
    requires forall i | 0 <= i < |us| :: !Mentions(us[i], k)
    ensures Get(MergeAll(us), k) == None
    decreases |us|
  {
    if us != [] {
      MergeAllAbsent(us[..|us| - 1], k);
      GetUpdateOther(MergeAll(us[..|us| - 1]), us[|us| - 1], k);
    }
  }

  /** The last dict that has a key decides its value. */
  lemma {:induction false} MergeAllLastWins(us: seq<PyDict>, i: int, k: string, v: Value)
    requires 0 <= i < |us| && us[i] == [Entry(k, v)]
    requires forall j | i < j < |us| :: !Mentions(us[j], k)
    ensures Get(MergeAll(us), k) == Some(v)
    decreases |us|
  {
    var n := |us| - 1;
    if i < n {
      MergeAllLastWins(us[..n], i, k, v);
      GetUpdateOther(MergeAll(us[..n]), us[n], k);
    } else {
      GetUpdateOne(MergeAll(us[..n]), Entry(k, v), k);
    }
  }

  // Collecting the results of a multi-agent batch

  /** The `ThreadPoolExecutor(max_workers=0)` error of an empty batch. */
  const MaxWorkersError := Exc("ValueError", "max_workers must be greater than 0")

  /** What each agent of a batch hands back in submission order; `{}` for
      one whose result timed out (its index is in `timedOut`). */
  function Contributions(batch: seq<string>, f: StateDict, llm: Agents.Llm, timedOut: set<nat>): seq<PyDict> {
    seq(|batch|, i requires 0 <= i < |batch| => if i in timedOut then [] else ExecuteAgent(llm, batch[i], f))
  }

  /** The merged results of a multi-agent batch. */
  function Collected(batch: seq<string>, f: StateDict, llm: Agents.Llm, timedOut: set<nat>): PyDict {
    MergeAll(Contributions(batch, f, llm, timedOut))
  }

  /** `_execute_batch_parallel(batch, state)`. */
  method ExecuteBatchParallel(batch: seq<string>, f: StateDict, llm: Agents.Llm, timedOut: set<nat>) returns (r: Outcome<PyDict>)
    ensures batch == [] ==> r == Raised(MaxWorkersError)
    ensures batch != [] ==> r == Done(Collected(batch, f, llm, timedOut))
  {
    if |batch| == 0 {
      return Raised(MaxWorkersError);
    }
    ghost var us := Contributions(batch, f, llm, timedOut);
    var results: PyDict := [];
    for i := 0 to |batch|
      invariant results == MergeAll(us[..i])
    {
      assert us[..i + 1][..i] == us[..i];
      if i !in timedOut {
        results := Update(results, ExecuteAgent(llm, batch[i], f));
      } else {
        assert Update(results, []) == results;
      }
    }
    assert us[..|batch|] == us;
    r := Done(results);
  }

  /** Agent `i` of the batch did not time out and stored under `k`. */
  predicate StoresAt(batch: seq<string>, f: StateDict, llm: Agents.Llm, timedOut: set<nat>, i: int, k: string)
    requires 0 <= i < |batch|
  {
    var u := ExecuteAgent(llm, batch[i], f);
    i !in timedOut && u != [] && u[0].key == k
  }

  lemma StoresAtMentions(batch: seq<string>, f: StateDict, llm: Agents.Llm, timedOut: set<nat>, k: string)
    ensures forall i | 0 <= i < |batch| ::
      StoresAt(batch, f, llm, timedOut, i, k) <==> Mentions(Contributions(batch, f, llm, timedOut)[i], k)
  {
  }

  /** Only the seven state fields can come out of a batch. */
  lemma CollectedKeys(batch: seq<string>, f: StateDict, llm: Agents.Llm, timedOut: set<nat>)
    ensures KeysWithin(Collected(batch, f, llm, timedOut), ContentKeys)
  {
    MergeAllKeys(Contributions(batch, f, llm, timedOut), ContentKeys);
  }

  /** A key no agent of the batch stored under is absent from the result. */
  lemma CollectedAbsent(batch: seq<string>, f: StateDict, llm: Agents.Llm, timedOut: set<nat>, k: string)
    requires forall i | 0 <= i < |batch| :: !StoresAt(batch, f, llm, timedOut, i, k)
    ensures Get(Collected(batch, f, llm, timedOut), k) == None
  {
    StoresAtMentions(batch, f, llm, timedOut, k);
    MergeAllAbsent(Contributions(batch, f, llm, timedOut), k);
  }

  /** The last agent of the batch to store under a key decides its value. */
  lemma CollectedLastWins(batch: seq<string>, f: StateDict, llm: Agents.Llm, timedOut: set<nat>, i: int, k: string)
    requires 0 <= i < |batch| && StoresAt(batch, f, llm, timedOut, i, k)
    requires forall j | i < j < |batch| :: !StoresAt(batch, f, llm, timedOut, j, k)
    ensures Get(Collected(batch, f, llm, timedOut), k) == Some(ExecuteAgent(llm, batch[i], f)[0].val)
  {
    StoresAtMentions(batch, f, llm, timedOut, k);
    var u := ExecuteAgent(llm, batch[i], f);
    assert u == [Entry(k, u[0].val)];
    MergeAllLastWins(Contributions(batch, f, llm, timedOut), i, k, u[0].val);
  }

  // The asyncio variant

  /** `{"error": str(e)}`. */
  function ErrorRecord(message: string): Value {
    Dict([Entry("error", Str(message))])
  }

  /** What each task of `_execute_batch_async` hands back: a task whose
      thread raised (its index maps to the message in `raised`) gives an
      error record under `<name>_output`. */
  function AsyncContributions(batch: seq<string>, f: StateDict, llm: Agents.Llm, raised: map<nat, string>): seq<PyDict> {
    seq(|batch|, i requires 0 <= i < |batch| =>
      if i in raised then [Entry(batch[i] + "_output", ErrorRecord(raised[i]))] else ExecuteAgent(llm, batch[i], f))
  }

  /** `_execute_batch_async(batch, state)` after `gather`. */
  method ExecuteBatchAsync(batch: seq<string>, f: StateDict, llm: Agents.Llm, raised: map<nat, string>) returns (output: PyDict)
    ensures output == MergeAll(AsyncContributions(batch, f, llm, raised))
  {
    ghost var us := AsyncContributions(batch, f, llm, raised);
    output := [];
    for i := 0 to |batch|
      invariant output == MergeAll(us[..i])
    {
      MergeAllSnoc(us, i);
      if i in raised {
        ghost var e := Entry(batch[i] + "_output", ErrorRecord(raised[i]));
        assert us[i] == [e];
        UpdateSingle(output, e);
        output := Put(output, batch[i] + "_output", ErrorRecord(raised[i]));
      } else {
        assert us[i] == ExecuteAgent(llm, batch[i], f);
        output := Update(output, ExecuteAgent(llm, batch[i], f));
      }
    }
    assert us[..|batch|] == us;
  }

  /** When no thread raises, both variants merge the same dict. */
  lemma AsyncMatchesParallel(batch: seq<string>, f: StateDict, llm: Agents.Llm, raised: map<nat, string>)
    requires forall i | 0 <= i < |batch| :: i !in raised
    ensures MergeAll(AsyncContributions(batch, f, llm, raised)) == Collected(batch, f, llm, {})
  {
    assert AsyncContributions(batch, f, llm, raised) == Contributions(batch, f, llm, {});
  }

  /** An error record's key is no state field: each field ends in a letter
      other than `t`. */
  lemma ErrorKeyIsNoField(name: string)
    ensures name + "_output" !in ContentKeys
  {
    var k := name + "_output";
    assert k[|k| - 1] == 't';
  }

  /** The last raised task of a name leaves its error record under
      `<name>_output`. */
  lemma AsyncErrorKey(batch: seq<string>, f: StateDict, llm: Agents.Llm, raised: map<nat, string>, i: int)
    requires 0 <= i < |batch| && i in raised
    requires forall j | i < j < |batch| :: !(j in raised && batch[j] == batch[i])
    ensures Get(MergeAll(AsyncContributions(batch, f, llm, raised)), batch[i] + "_output") == Some(ErrorRecord(raised[i]))
  {
    var us := AsyncContributions(batch, f, llm, raised);
    var k := batch[i] + "_output";
    ErrorKeyIsNoField(batch[i]);
    forall j | i < j < |batch|
      ensures !Mentions(us[j], k)
    {
      if j in raised {
        assert us[j] == [Entry(batch[j] + "_output", ErrorRecord(raised[j]))];
        assert batch[j] != batch[i];
        assert (batch[j] + "_output")[..|batch[j]|] == batch[j];
      } else {
        assert us[j] == ExecuteAgent(llm, batch[j], f);
      }
    }
    MergeAllLastWins(us, i, k, ErrorRecord(raised[i]));
  }

  // The node

  /** `state.get("parallel_batches", [])`. */
  function Batches(f: StateDict): seq<seq<string>> {
    if f.parallelBatches.Some? then f.parallelBatches.value else []
  }

  /** `state.get("current_batch_index", 0)`. */
  function BatchIndex(f: StateDict): int {
    if f.currentBatchIndex.Some? then f.currentBatchIndex.value else 0
  }

  /** What `parallel_batch_executor(state)` returns or raises, and the state
      after it: past the last batch nothing runs; otherwise the batch under
      the cursor runs (a single agent directly) and the cursor moves on in
      place, but is never part of the returned update. */
  function BatchStep(f: StateDict, llm: Agents.Llm, timedOut: set<nat>): (r: Nodes.NodeStep)
    ensures BatchIndex(f) >= |Batches(f)| ==> r == Nodes.NodeStep(Done([]), f)
    ensures r.result.Raised? ==> r.after == f
    ensures r.result.Done? && BatchIndex(f) < |Batches(f)| ==> r.after == f.(currentBatchIndex := Some(BatchIndex(f) + 1))
    ensures r.result.Done? ==> KeysWithin(r.result.value, ContentKeys)
  {
    var batches := Batches(f);
    var index := BatchIndex(f);
    if index >= |batches| then Nodes.NodeStep(Done([]), f)
    else if index < -|batches| then Nodes.NodeStep(Raised(Exc("IndexError", "list index out of range")), f)
    else RunBatch(PyIndex(batches, index), index, f, llm, timedOut)
  }

  /** The batch under the cursor `index` run on `f`: an empty batch raises
      before anything runs; otherwise the merged results are returned and
      the cursor moves past `index`. */
  function RunBatch(batch: seq<string>, index: int, f: StateDict, llm: Agents.Llm, timedOut: set<nat>): (r: Nodes.NodeStep)
    ensures batch == [] ==> r == Nodes.NodeStep(Raised(MaxWorkersError), f)
    ensures batch != [] ==> r.result.Done? && r.after == f.(currentBatchIndex := Some(index + 1))
    ensures r.result.Done? ==> KeysWithin(r.result.value, ContentKeys)
  {
    if |batch| == 0 then Nodes.NodeStep(Raised(MaxWorkersError), f)
    else
      var results := BatchResults(batch, f, llm, timedOut);
      UpdateKeysWithin([], results, ContentKeys);
      Nodes.NodeStep(Done(Update([], results)), f.(currentBatchIndex := Some(index + 1)))
  }

  /** What a non-empty batch hands back: a single agent's dict, or the
      merged dicts of several. */
  function BatchResults(batch: seq<string>, f: StateDict, llm: Agents.Llm, timedOut: set<nat>): (r: PyDict)
    requires batch != []
    ensures KeysWithin(r, ContentKeys)
  {
    CollectedKeys(batch, f, llm, timedOut);
    if |batch| == 1 then ExecuteAgent(llm, batch[0], f) else Collected(batch, f, llm, timedOut)
  }

  /** `parallel_batch_executor(state)`. */
  method ParallelBatchExecutor(state: AgentState, llm: Agents.Llm, timedOut: set<nat>) returns (r: Outcome<PyDict>)
    modifies state
    ensures Nodes.NodeStep(r, state.fields) == BatchStep(old(state.fields), llm, timedOut)
  {
    var batches := Batches(state.fields);
    var index := BatchIndex(state.fields);
    if index >= |batches| {
      return Done([]);
    }
    if index < -|batches| {
      return Raised(Exc("IndexError", "list index out of range"));
    }
    ghost var f := state.fields;
    var batch := PyIndex(batches, index);
    assert BatchStep(f, llm, timedOut) == RunBatch(batch, index, f, llm, timedOut);
    var allResults: PyDict := [];
    if |batch| == 1 {
      var result := ExecuteAgent(llm, batch[0], state.fields);
      assert result == BatchResults(batch, f, llm, timedOut);
      allResults := Update(allResults, result);
    } else {
      var results := ExecuteBatchParallel(batch, state.fields, llm, timedOut);
      if results.Raised? {
        assert batch == [];
        return Raised(results.exc);
      }
      assert results.value == BatchResults(batch, f, llm, timedOut);
      allResults := Update(allResults, results.value);
    }
    state.fields := state.fields.(currentBatchIndex := Some(index + 1));
    r := Done(allResults);
  }

  /** A cursor below `-len(batches)` raises `IndexError` and leaves the state
      alone; an empty batch under the cursor raises the thread pool's
      `ValueError`, also before the cursor moves. */
  lemma BatchStepErrors(f: StateDict, llm: Agents.Llm, timedOut: set<nat>)
    ensures BatchIndex(f) < -|Batches(f)| ==>
      BatchStep(f, llm, timedOut) == Nodes.NodeStep(Raised(Exc("IndexError", "list index out of range")), f)
    ensures -|Batches(f)| <= BatchIndex(f) < |Batches(f)| && PyIndex(Batches(f), BatchIndex(f)) == [] ==>
      BatchStep(f, llm, timedOut) == Nodes.NodeStep(Raised(MaxWorkersError), f)
  {
  }

  /** Merging a dict of at most one entry into `{}` gives that dict. */
  lemma UpdateEmpty(u: PyDict)
    requires |u| <= 1
    ensures Update([], u) == u
  {
    if u != [] {
      assert u == [u[0]] && u[1..] == [];
    }
  }

  /** A one-agent batch returns exactly what that agent handed back. */
  lemma SingleAgentBatch(f: StateDict, llm: Agents.Llm, timedOut: set<nat>)
    requires 0 <= BatchIndex(f) < |Batches(f)| && |Batches(f)[BatchIndex(f)]| == 1
    ensures BatchStep(f, llm, timedOut).result == Done(ExecuteAgent(llm, Batches(f)[BatchIndex(f)][0], f))
  {
    var batch := Batches(f)[BatchIndex(f)];
    assert BatchResults(batch, f, llm, timedOut) == ExecuteAgent(llm, batch[0], f);
    UpdateEmpty(ExecuteAgent(llm, batch[0], f));
  }

  /** Dicts that are all empty merge to `{}`. */
  lemma {:induction false} MergeAllEmpty(us: seq<PyDict>)
    requires forall i | 0 <= i < |us| :: us[i] == []
    ensures MergeAll(us) == []
    decreases |us|
  {
    if us != [] {
      MergeAllEmpty(us[..|us| - 1]);
    }
  }

  /** A batch of names the executor does not know yields `{}`. */
  lemma UnknownAgentsYieldNothing(batch: seq<string>, f: StateDict, llm: Agents.Llm, timedOut: set<nat>)
    requires forall i | 0 <= i < |batch| :: batch[i] !in RouterNode.TaskNames
    ensures Collected(batch, f, llm, timedOut) == []
  {
    MergeAllEmpty(Contributions(batch, f, llm, timedOut));
  }

  /** On a plan made by `group_parallel_agents`, every batch under a valid
      cursor runs: no batch is empty, so the thread pool never refuses it. */
  lemma PlannedBatchRuns(f: StateDict, llm: Agents.Llm, timedOut: set<nat>, tasks: seq<string>)
    requires f.parallelBatches == Some(RouterNode.Plan(tasks))
    requires 0 <= BatchIndex(f) < |RouterNode.Plan(tasks)|
    ensures BatchStep(f, llm, timedOut).result.Done?
    ensures BatchStep(f, llm, timedOut).after.currentBatchIndex == Some(BatchIndex(f) + 1)
  {
    RouterNode.PlanWellGrouped(tasks);
  }

  /** A first batch of unknown names runs, stores nothing, and moves the
      cursor to the next batch. */
  lemma UnknownBatchYieldsNothing(f: StateDict, llm: Agents.Llm, timedOut: set<nat>)
    requires BatchIndex(f) == 0 && |Batches(f)| >= 1 && Batches(f)[0] != []
    requires forall t | t in Batches(f)[0] :: t !in RouterNode.TaskNames
    ensures BatchStep(f, llm, timedOut) == Nodes.NodeStep(Done([]), f.(currentBatchIndex := Some(1)))
  {
    var batch := Batches(f)[0];
    assert forall i | 0 <= i < |batch| :: batch[i] !in RouterNode.TaskNames by {
      assert forall i | 0 <= i < |batch| :: batch[i] in batch;
    }
    if |batch| > 1 {
      UnknownAgentsYieldNothing(batch, f, llm, timedOut);
    }
    assert BatchResults(batch, f, llm, timedOut) == [];
  }

  /** The plan `router_node` stores from the router's `str` decision is one
      batch of characters, and running it stores nothing: the executor
      knows no one-character agent. */
  lemma RouterPlanYieldsNothing(f: StateDict, router: RouterAgent.RouterLlm, llm: Agents.Llm, timedOut: set<nat>)
    requires !RouterNode.StepsTruthy(f.nextSteps) && f.userRequest.Some?
    ensures Route(f, router).Done? && Route(f, router).value.Planned?
    ensures var g := Planned(f, Route(f, router).value);
      BatchStep(g, llm, timedOut) == Nodes.NodeStep(Done([]), g.(currentBatchIndex := Some(1)))
  {
    var g := PlannedCharacters(f, router);
    UnknownBatchYieldsNothing(g, llm, timedOut);
  }

  /** The state after the router's plan is merged: the cursor on a single
      non-empty batch of unknown names. */
  lemma PlannedCharacters(f: StateDict, router: RouterAgent.RouterLlm) returns (g: StateDict)
    requires !RouterNode.StepsTruthy(f.nextSteps) && f.userRequest.Some?
    ensures Route(f, router).Done? && Route(f, router).value.Planned?
    ensures g == Planned(f, Route(f, router).value)
    ensures BatchIndex(g) == 0 && |Batches(g)| == 1 && Batches(g)[0] != []
    ensures forall t | t in Batches(g)[0] :: t !in RouterNode.TaskNames
  {
    RouterNode.RouterPlansCharacters(f, router);
    var u := Route(f, router).value;
    g := Planned(f, u);
    assert RouterAgent.Decide(router, f.userRequest.value) != "";
    assert Batches(g) == u.parallelBatches;
  }

  /** `router_node` run on the state. */
  function Route(f: StateDict, router: RouterAgent.RouterLlm): Outcome<RouterNode.RouterUpdate> {
    RouterNode.Route(f, router)
  }

  /** The state once a plan update is merged into it. */
  function Planned(f: StateDict, u: RouterNode.RouterUpdate): StateDict
    requires u.Planned?
  {
    f.(nextSteps := Some(u.nextSteps), parallelBatches := Some(u.parallelBatches),
       currentBatchIndex := Some(u.currentBatchIndex), currentStepIndex := Some(u.currentStepIndex))
  }
}
