/** The fan-out node (backend/app/nodes/parallel_agents_node.py): runs the
    capability node of every task in `next_steps` against the shared state,
    wraps each result in an `AgentOutput` record, and merges the records
    into per-agent maps, the legacy capability fields and the
    `completed_agents` list. The concurrent tasks are modelled as running
    one after the other in list order; a task whose coroutine raised, and a
    failure of the whole gather, are parameters. */
module ParallelAgents {
  import opened Strings
  import opened Values
  import opened WorkflowState
  import Agents
  import Judge
  import Nodes
  import RouterNode
  import ParallelBatch
  import RouterAgent

  // One agent

  /** `AGENT_NODE_MAP[name](state)`: the capability node behind a task name. */
  function NamedStep(name: string, f: StateDict, llm: Agents.Llm, judge: Judge.JudgeLlm): Nodes.NodeStep
    requires name in RouterNode.TaskNames
  {
    match name
    case "analyze" => Nodes.AnalysisStep(f, llm, judge)
    case "recommend" => Nodes.RecommendationStep(f, llm, judge)
    case "ideate" => Nodes.IdeationStep(f, llm, judge)
    case "compliance" => Nodes.ComplianceStep(f, judge)
    case "summarize" => Nodes.SummarizationStep(f, llm, judge)
    case "translate" => Nodes.TranslationStep(f, llm, judge)
    case "copywrite" => Nodes.CopywriterStep(f, llm, judge)
  }

  /** Every node either raises with the state untouched, or returns an
      update whose `evaluations` list is the state's list with the one
      judge record it appended in place. */
  lemma NamedStepShape(name: string, f: StateDict, llm: Agents.Llm, judge: Judge.JudgeLlm)
    requires name in RouterNode.TaskNames
    ensures NamedStep(name, f, llm, judge).result.Raised? ==> NamedStep(name, f, llm, judge).after == f
    ensures NamedStep(name, f, llm, judge).result.Done? ==> Nodes.AppendsOne(f, NamedStep(name, f, llm, judge))
  {
  }

  /** Calls the node a task name stands for. */
  method RunNamedNode(name: string, state: AgentState, llm: Agents.Llm, judge: Judge.JudgeLlm) returns (r: Outcome<PyDict>)
    requires name in RouterNode.TaskNames
    modifies state
    ensures Nodes.NodeStep(r, state.fields) == NamedStep(name, old(state.fields), llm, judge)
  {
    match name
    case "analyze" => r := Nodes.AnalysisNode(state, llm, judge);
    case "recommend" => r := Nodes.RecommendationNode(state, llm, judge);
    case "ideate" => r := Nodes.IdeationNode(state, llm, judge);
    case "compliance" => r := Nodes.ComplianceNode(state, judge);
    case "summarize" => r := Nodes.SummarizationNode(state, llm, judge);
    case "translate" => r := Nodes.TranslationNode(state, llm, judge);
    case "copywrite" => r := Nodes.CopywriterNode(state, llm, judge);
  }

  /** The record of an agent whose node raised (or that has no node). */
  function Failed(name: string, error: string): AgentOutput {
    AgentOutput(name, Null, AgentMetadata(name, "failed", Some(error)), None, false)
  }

  /** `evaluations[-1]` when the update's `evaluations` list is non-empty. */
  function LastEvaluation(d: PyDict): Option<Value> {
    match Get(d, "evaluations")
    case Some(List(items)) => if items != [] then Some(items[|items| - 1]) else None
    case _ => None
  }

  /** The record of an agent whose node returned `d`: the value under the
      task's own name if `d` has one, else all of `d`. */
  function Completed(name: string, d: PyDict): AgentOutput {
    var output := match Get(d, name) case Some(v) => v case None => Dict(d);
    AgentOutput(name, output, AgentMetadata(name, "completed", None), LastEvaluation(d), true)
  }

  /** A record and the state after the node that produced it. */
  datatype Traced = Traced(output: AgentOutput, after: StateDict)

  /** `execute_agent_with_tracing(name, state)`: the node's exception is
      caught and becomes a failed record. */
  function TraceAgent(name: string, f: StateDict, llm: Agents.Llm, judge: Judge.JudgeLlm): (t: Traced)
    ensures t.output.agentName == name && t.output.metadata.agentName == name
    ensures t.output.metadata.status == "completed" || t.output.metadata.status == "failed"
    ensures t.output.validationPassed <==> t.output.metadata.status == "completed"
    ensures t.output.metadata.status == "failed" ==> t.output.metadata.error.Some? && t.output.output == Null && t.output.evaluation.None?
    ensures name in RouterNode.TaskNames ==>
      (t.output.metadata.status == "failed" <==> NamedStep(name, f, llm, judge).result.Raised?)
    ensures name in RouterNode.TaskNames && NamedStep(name, f, llm, judge).result.Raised? ==>
      t.output.metadata.error == Some(Describe(NamedStep(name, f, llm, judge).result.exc))
  {
    if name !in RouterNode.TaskNames then Traced(Failed(name, Describe(Exc("ValueError", "Unknown agent: " + name))), f)
    else
      var step := NamedStep(name, f, llm, judge);
      match step.result
      case Raised(e) => Traced(Failed(name, Describe(e)), step.after)
      case Done(d) => Traced(Completed(name, d), step.after)
  }

  /** `execute_agent_with_tracing(name, state)`. */
  method ExecuteAgentWithTracing(name: string, state: AgentState, llm: Agents.Llm, judge: Judge.JudgeLlm) returns (o: AgentOutput)
    modifies state
    ensures Traced(o, state.fields) == TraceAgent(name, old(state.fields), llm, judge)
  {
    if name !in RouterNode.TaskNames {
      return Failed(name, Describe(Exc("ValueError", "Unknown agent: " + name)));
    }
    var agentResult := RunNamedNode(name, state, llm, judge);
    match agentResult
    case Raised(error) =>
      o := Failed(name, Describe(error));
    case Done(d) =>
      o := Completed(name, d);
  }

  /** A name with no node fails with `ValueError: Unknown agent: <name>` and
      touches nothing. */
  lemma UnknownAgentFails(name: string, f: StateDict, llm: Agents.Llm, judge: Judge.JudgeLlm)
    requires name !in RouterNode.TaskNames
    ensures TraceAgent(name, f, llm, judge).after == f
    ensures TraceAgent(name, f, llm, judge).output.metadata.error == Some(UnknownAgentError(name))
  {
    assert "ValueError" + ": " + ("Unknown agent: " + name) == "ValueError: Unknown agent: " + name;
  }

  /** The error text of `recommend` and `copywrite`: their nodes pass two
      positional arguments to a `run` that takes one. */
  function TwoArgumentsError(name: string): string {
    var owner := if name == "recommend" then "RecommenderAgent.run" else "CopywriterAgent.run";
    Describe(Agents.TypeError(owner + "() takes 2 positional arguments but 3 were given"))
  }

  /** A known agent whose node raises `e` without touching the state gets
      the failed record with `e`'s text. */
  lemma TraceOfRaised(name: string, f: StateDict, llm: Agents.Llm, judge: Judge.JudgeLlm, e: Exc)
    requires name in RouterNode.TaskNames
    requires NamedStep(name, f, llm, judge) == Nodes.NodeStep(Raised(e), f)
    ensures TraceAgent(name, f, llm, judge) == Traced(Failed(name, Describe(e)), f)
  {
  }

  lemma RecommendFails(f: StateDict, llm: Agents.Llm, judge: Judge.JudgeLlm)
    ensures TraceAgent("recommend", f, llm, judge) == Traced(Failed("recommend", TwoArgumentsError("recommend")), f)
  {
    var e := Agents.TypeError("RecommenderAgent.run" + "() takes 2 positional arguments but 3 were given");
    Nodes.RecommendationNodeRaises(f, llm, judge);
    assert NamedStep("recommend", f, llm, judge) == Nodes.RecommendationStep(f, llm, judge);
    TraceOfRaised("recommend", f, llm, judge, e);
  }

  lemma NamedCopywrite(f: StateDict, llm: Agents.Llm, judge: Judge.JudgeLlm)
    ensures NamedStep("copywrite", f, llm, judge) == Nodes.CopywriterStep(f, llm, judge)
  {
  }

  lemma CopywriteFails(f: StateDict, llm: Agents.Llm, judge: Judge.JudgeLlm)
    ensures TraceAgent("copywrite", f, llm, judge) == Traced(Failed("copywrite", TwoArgumentsError("copywrite")), f)
  {
    var e := Agents.TypeError("CopywriterAgent.run" + "() takes 2 positional arguments but 3 were given");
    Nodes.CopywriterNodeRaises(f, llm, judge);
    NamedCopywrite(f, llm, judge);
    TraceOfRaised("copywrite", f, llm, judge, e);
  }

  /** `recommend` and `copywrite` always fail with the two-arguments
      `TypeError` and touch nothing. */
  lemma TwoArgumentAgentsFail(name: string, f: StateDict, llm: Agents.Llm, judge: Judge.JudgeLlm)
    requires name == "recommend" || name == "copywrite"
    ensures TraceAgent(name, f, llm, judge) == Traced(Failed(name, TwoArgumentsError(name)), f)
  {
    if name == "recommend" {
      RecommendFails(f, llm, judge);
    } else {
      CopywriteFails(f, llm, judge);
    }
  }

  /** A completed agent's record carries the judge record its node appended
      to the state; a failed one leaves the state as it was and, for a known
      agent, carries the text of the exception its node raised. */
  lemma TracedEvaluation(name: string, f: StateDict, llm: Agents.Llm, judge: Judge.JudgeLlm)
    ensures var t := TraceAgent(name, f, llm, judge);
      && (t.output.metadata.status == "failed" ==> t.after == f)
      && (t.output.metadata.status == "failed" && name in RouterNode.TaskNames ==>
            NamedStep(name, f, llm, judge).result.Raised?
            && t.output == Failed(name, Describe(NamedStep(name, f, llm, judge).result.exc)))
      && (t.output.metadata.status == "completed" ==>
            t.output.evaluation.Some? && t.after == WithEvaluation(f, t.output.evaluation.value))
      && (t.output.metadata.status == "completed" ==>
            name in RouterNode.TaskNames && NamedStep(name, f, llm, judge).result.Done?
            && t.output == Completed(name, NamedStep(name, f, llm, judge).result.value))
  {
    if name in RouterNode.TaskNames {
      NamedStepShape(name, f, llm, judge);
      var step := NamedStep(name, f, llm, judge);
      if step.result.Done? {
        var items := Get(step.result.value, "evaluations").value.items;
        assert items[|items| - 1] == items[|Evaluations(f)|];
      }
    }
  }

  // Running the tasks

  /** The records gathered so far (`None` for a task whose coroutine raised)
      and the shared state after the nodes ran. */
  datatype Runs = Runs(outs: seq<Option<AgentOutput>>, after: StateDict)

  /** The tasks run in list order against the shared state, skipping the
      indices in `crashed`. */
  function RunAll(names: seq<string>, f: StateDict, llm: Agents.Llm, judge: Judge.JudgeLlm, crashed: set<nat>): (r: Runs)
    ensures |r.outs| == |names|
    ensures forall i | 0 <= i < |names| :: r.outs[i].None? <==> i in crashed
    ensures forall i | 0 <= i < |names| && r.outs[i].Some? :: r.outs[i].value.agentName == names[i]
    decreases |names|
  {
    if names == [] then Runs([], f)
    else
      var n := |names| - 1;
      var prev := RunAll(names[..n], f, llm, judge, crashed);
      if n in crashed then
        RunsSnoc(names, crashed, prev.outs, None);
        Runs(prev.outs + [None], prev.after)
      else
        var t := TraceAgent(names[n], prev.after, llm, judge);
        RunsSnoc(names, crashed, prev.outs, Some(t.output));
        Runs(prev.outs + [Some(t.output)], t.after)
  }

  /** The shape `RunAll` promises carries over to one more record. */
  lemma RunsSnoc(names: seq<string>, crashed: set<nat>, outs: seq<Option<AgentOutput>>, last: Option<AgentOutput>)
    requires names != [] && |outs| == |names| - 1
    requires forall i | 0 <= i < |outs| :: outs[i].None? <==> i in crashed
    requires forall i | 0 <= i < |outs| && outs[i].Some? :: outs[i].value.agentName == names[i]
    requires last.None? <==> |outs| in crashed
    requires last.Some? ==> last.value.agentName == names[|outs|]
    ensures forall i | 0 <= i < |names| :: (outs + [last])[i].None? <==> i in crashed
    ensures forall i | 0 <= i < |names| && (outs + [last])[i].Some? :: (outs + [last])[i].value.agentName == names[i]
  {
  }

  /** Every record of `recommend` or `copywrite` among the gathered ones is
      the two-arguments failure. */
  lemma {:induction false} RunAllTwoArgumentFailures(names: seq<string>, f: StateDict, llm: Agents.Llm, judge: Judge.JudgeLlm, crashed: set<nat>, name: string)
    requires name == "recommend" || name == "copywrite"
    ensures AllRecordsAre(RunAll(names, f, llm, judge, crashed).outs, Failed(name, TwoArgumentsError(name)))
    decreases |names|
  {
    if names != [] {
      var n := |names| - 1;
      var o := Failed(name, TwoArgumentsError(name));
      var prev := RunAll(names[..n], f, llm, judge, crashed);
      RunAllTwoArgumentFailures(names[..n], f, llm, judge, crashed, name);
      if n in crashed {
        assert RunAll(names, f, llm, judge, crashed).outs == prev.outs + [None];
        AllRecordsSnoc(prev.outs, None, o);
      } else {
        var t := TraceAgent(names[n], prev.after, llm, judge);
        assert RunAll(names, f, llm, judge, crashed).outs == prev.outs + [Some(t.output)];
        if names[n] == name {
          TwoArgumentAgentsFail(name, prev.after, llm, judge);
        }
        AllRecordsSnoc(prev.outs, Some(t.output), o);
      }
    }
  }

  // Merging the records

  /** The maps the merge loop builds; `names` are the keys of
      `agent_outputs` in insertion order. */
  datatype Merged = Merged(
    names: seq<string>,
    outputs: map<string, AgentOutput>,
    metadata: map<string, AgentMetadata>,
    errors: map<string, string>,
    evaluations: map<string, seq<Value>>,
    legacy: map<string, Value>)

  const NothingMerged := Merged([], map[], map[], map[], map[], map[])

  /** `metadata.get("error", "Unknown error")`. */
  function ErrorText(m: AgentMetadata): string {
    if m.error.Some? then m.error.value else "Unknown error"
  }

  /** One iteration of the merge loop. */
  function MergeOne(m: Merged, o: AgentOutput): Merged {
    var name := o.agentName;
    var failed := o.metadata.status == "failed";
    Merged(
      if name in m.outputs then m.names else m.names + [name],
      m.outputs[name := o],
      m.metadata[name := o.metadata],
      if failed then m.errors[name := ErrorText(o.metadata)] else m.errors,
      if o.evaluation.Some? && Truthy(o.evaluation.value) then m.evaluations[name := [o.evaluation.value]] else m.evaluations,
      if !failed && name in RouterNode.TaskNames then m.legacy[ParallelBatch.StateKey(name) := o.output] else m.legacy)
  }

  /** The merge loop over the gathered records; exceptions are skipped. */
  function MergeOutputs(outs: seq<Option<AgentOutput>>): Merged
    decreases |outs|
  {
    if outs == [] then NothingMerged
    else
      var n := |outs| - 1;
      var prev := MergeOutputs(outs[..n]);
      if outs[n].Some? then MergeOne(prev, outs[n].value) else prev
  }

  /** Record `i` is for `name`. */
  predicate RecordFor(outs: seq<Option<AgentOutput>>, i: int, name: string)
    requires 0 <= i < |outs|
  {
    outs[i].Some? && outs[i].value.agentName == name
  }

  /** Every record of `o`'s agent is `o` itself. */
  predicate AllRecordsAre(outs: seq<Option<AgentOutput>>, o: AgentOutput) {
    forall i | 0 <= i < |outs| && RecordFor(outs, i, o.agentName) :: outs[i].value == o
  }

  lemma AllRecordsSnoc(outs: seq<Option<AgentOutput>>, last: Option<AgentOutput>, o: AgentOutput)
    requires AllRecordsAre(outs, o)
    requires last.Some? && last.value.agentName == o.agentName ==> last.value == o
    ensures AllRecordsAre(outs + [last], o)
  {
    assert forall i | 0 <= i < |outs| :: (outs + [last])[i] == outs[i];
  }

  /** `names` lists the keys of `agent_outputs` once each; `agent_metadata`
      has the same keys. */
  predicate WellMerged(m: Merged) {
    && (forall i, j | 0 <= i < j < |m.names| :: m.names[i] != m.names[j])
    && (forall n | n in m.outputs :: n in m.names)
    && (forall n | n in m.names :: n in m.outputs)
    && m.metadata.Keys == m.outputs.Keys
    && (forall n | n in m.outputs :: m.outputs[n].agentName == n && m.metadata[n] == m.outputs[n].metadata)
  }

  lemma {:induction false} MergeWellFormed(outs: seq<Option<AgentOutput>>)
    ensures WellMerged(MergeOutputs(outs))
    decreases |outs|
  {
    if outs != [] {
      MergeWellFormed(outs[..|outs| - 1]);
    }
  }

  /** `agent_outputs` has a record for exactly the names some gathered
      record is for. */
  lemma {:induction false} MergedNames(outs: seq<Option<AgentOutput>>, name: string)
    ensures name in MergeOutputs(outs).outputs <==> exists i | 0 <= i < |outs| :: RecordFor(outs, i, name)
    decreases |outs|
  {
    if outs != [] {
      var n := |outs| - 1;
      MergedNames(outs[..n], name);
      assert forall i | 0 <= i < n :: RecordFor(outs[..n], i, name) == RecordFor(outs, i, name);
      if name in MergeOutputs(outs).outputs && !RecordFor(outs, n, name) {
        var i :| 0 <= i < n && RecordFor(outs[..n], i, name);
        assert RecordFor(outs, i, name);
      }
      if exists i | 0 <= i < |outs| :: RecordFor(outs, i, name) {
        var i :| 0 <= i < |outs| && RecordFor(outs, i, name);
        if i < n {
          assert RecordFor(outs[..n], i, name);
        }
      }
    }
  }

  /** The last record for a name is the one kept, with its metadata. */
  lemma {:induction false} MergedLastWins(outs: seq<Option<AgentOutput>>, i: int)
    requires 0 <= i < |outs| && outs[i].Some?
    requires forall j | i < j < |outs| :: !RecordFor(outs, j, outs[i].value.agentName)
    ensures var m := MergeOutputs(outs); var name := outs[i].value.agentName;
      && name in m.outputs && m.outputs[name] == outs[i].value
      && name in m.metadata && m.metadata[name] == outs[i].value.metadata
      && (outs[i].value.metadata.status == "failed" ==> name in m.errors && m.errors[name] == ErrorText(outs[i].value.metadata))
    decreases |outs|
  {
    var n := |outs| - 1;
    var name := outs[i].value.agentName;
    if i < n {
      assert forall j | i < j < n :: RecordFor(outs[..n], j, name) == RecordFor(outs, j, name);
      MergedLastWins(outs[..n], i);
      assert !RecordFor(outs, n, name);
    }
  }

  /** When every record of an agent is the same record, that record is the
      one kept, with its error text when it failed. */
  lemma {:induction false} MergedUniformRecord(outs: seq<Option<AgentOutput>>, o: AgentOutput)
    requires AllRecordsAre(outs, o)
    requires exists i | 0 <= i < |outs| :: RecordFor(outs, i, o.agentName)
    ensures var m := MergeOutputs(outs);
      && o.agentName in m.outputs && m.outputs[o.agentName] == o
      && (o.metadata.status == "failed" ==> o.agentName in m.errors && m.errors[o.agentName] == ErrorText(o.metadata))
    decreases |outs|
  {
    var n := |outs| - 1;
    if !RecordFor(outs, n, o.agentName) {
      var i :| 0 <= i < |outs| && RecordFor(outs, i, o.agentName);
      assert RecordFor(outs[..n], i, o.agentName);
      assert forall j | 0 <= j < n :: RecordFor(outs[..n], j, o.agentName) == RecordFor(outs, j, o.agentName);
      MergedUniformRecord(outs[..n], o);
    }
  }

  /** Record `i` is a failure for `name`. */
  predicate FailureFor(outs: seq<Option<AgentOutput>>, i: int, name: string)
    requires 0 <= i < |outs|
  {
    RecordFor(outs, i, name) && outs[i].value.metadata.status == "failed"
  }

  /** `agent_errors` names exactly the agents with a failed record; a later
      success does not remove the entry. */
  lemma {:induction false} MergedErrors(outs: seq<Option<AgentOutput>>, name: string)
    ensures name in MergeOutputs(outs).errors <==> exists i | 0 <= i < |outs| :: FailureFor(outs, i, name)
    decreases |outs|
  {
    if outs != [] {
      var n := |outs| - 1;
      MergedErrors(outs[..n], name);
      assert forall i | 0 <= i < n :: FailureFor(outs[..n], i, name) == FailureFor(outs, i, name);
      if name in MergeOutputs(outs).errors && !FailureFor(outs, n, name) {
        var i :| 0 <= i < n && FailureFor(outs[..n], i, name);
        assert FailureFor(outs, i, name);
      }
      if exists i | 0 <= i < |outs| :: FailureFor(outs, i, name) {
        var i :| 0 <= i < |outs| && FailureFor(outs, i, name);
        if i < n {
          assert FailureFor(outs[..n], i, name);
        }
      }
    }
  }

  /** Record `i` is a success for `name`. */
  predicate SuccessFor(outs: seq<Option<AgentOutput>>, i: int, name: string)
    requires 0 <= i < |outs|
  {
    RecordFor(outs, i, name) && outs[i].value.metadata.status != "failed"
  }

  /** A legacy field is set only from a successful record of the agent that
      owns it. */
  lemma {:induction false} MergedLegacy(outs: seq<Option<AgentOutput>>, field: string)
    requires field in MergeOutputs(outs).legacy
    ensures exists i, name | 0 <= i < |outs| && name in RouterNode.TaskNames ::
      SuccessFor(outs, i, name) && ParallelBatch.StateKey(name) == field
    decreases |outs|
  {
    var n := |outs| - 1;
    var prev := MergeOutputs(outs[..n]);
    if field in prev.legacy {
      MergedLegacy(outs[..n], field);
      var i, name :| 0 <= i < n && name in RouterNode.TaskNames && SuccessFor(outs[..n], i, name) && ParallelBatch.StateKey(name) == field;
      assert SuccessFor(outs, i, name);
    } else {
      var name := outs[n].value.agentName;
      assert SuccessFor(outs, n, name);
    }
  }

  /** With no successful record the legacy fields stay untouched. */
  lemma MergedNoLegacy(outs: seq<Option<AgentOutput>>)
    requires forall i, name | 0 <= i < |outs| :: !SuccessFor(outs, i, name)
    ensures MergeOutputs(outs).legacy == map[]
  {
    var legacy := MergeOutputs(outs).legacy;
    forall field | field in legacy
      ensures false
    {
      MergedLegacy(outs, field);
    }
    assert legacy.Keys == {};
  }

  /** Each known agent owns its own legacy field. */
  lemma StateKeyInjective(a: string, b: string)
    requires a in RouterNode.TaskNames && b in RouterNode.TaskNames && a != b
    ensures ParallelBatch.StateKey(a) != ParallelBatch.StateKey(b)
  {
  }

  /** The last successful record of a known agent puts its output in that
      agent's legacy field; a later failure of the agent does not clear it. */
  lemma {:induction false} MergedLegacyLastWins(outs: seq<Option<AgentOutput>>, i: int)
    requires 0 <= i < |outs| && outs[i].Some? && outs[i].value.agentName in RouterNode.TaskNames
    requires SuccessFor(outs, i, outs[i].value.agentName)
    requires forall j | i < j < |outs| :: !SuccessFor(outs, j, outs[i].value.agentName)
    ensures var key := ParallelBatch.StateKey(outs[i].value.agentName);
      key in MergeOutputs(outs).legacy && MergeOutputs(outs).legacy[key] == outs[i].value.output
    decreases |outs|
  {
    var n := |outs| - 1;
    var name := outs[i].value.agentName;
    if i < n {
      assert forall j | i < j < n :: SuccessFor(outs[..n], j, name) == SuccessFor(outs, j, name);
      MergedLegacyLastWins(outs[..n], i);
      assert !SuccessFor(outs, n, name);
      if outs[n].Some? && outs[n].value.agentName != name && outs[n].value.agentName in RouterNode.TaskNames {
        StateKeyInjective(outs[n].value.agentName, name);
      }
    }
  }

  /** Record `i` is for `name` and carries a truthy evaluation. */
  predicate EvaluatedFor(outs: seq<Option<AgentOutput>>, i: int, name: string)
    requires 0 <= i < |outs|
  {
    RecordFor(outs, i, name) && outs[i].value.evaluation.Some? && Truthy(outs[i].value.evaluation.value)
  }

  /** `agent_evaluations` has an entry for exactly the agents with a record
      carrying a truthy evaluation. */
  lemma {:induction false} MergedEvaluations(outs: seq<Option<AgentOutput>>, name: string)
    ensures name in MergeOutputs(outs).evaluations <==> exists i | 0 <= i < |outs| :: EvaluatedFor(outs, i, name)
    decreases |outs|
  {
    if outs != [] {
      var n := |outs| - 1;
      MergedEvaluations(outs[..n], name);
      assert forall i | 0 <= i < n :: EvaluatedFor(outs[..n], i, name) == EvaluatedFor(outs, i, name);
      if name in MergeOutputs(outs).evaluations && !EvaluatedFor(outs, n, name) {
        var i :| 0 <= i < n && EvaluatedFor(outs[..n], i, name);
        assert EvaluatedFor(outs, i, name);
      }
      if exists i | 0 <= i < |outs| :: EvaluatedFor(outs, i, name) {
        var i :| 0 <= i < |outs| && EvaluatedFor(outs, i, name);
        if i < n {
          assert EvaluatedFor(outs[..n], i, name);
        }
      }
    }
  }

  /** The entry is the one-item list of the last truthy evaluation. */
  lemma {:induction false} MergedEvaluationLastWins(outs: seq<Option<AgentOutput>>, i: int)
    requires 0 <= i < |outs| && outs[i].Some? && EvaluatedFor(outs, i, outs[i].value.agentName)
    requires forall j | i < j < |outs| :: !EvaluatedFor(outs, j, outs[i].value.agentName)
    ensures var name := outs[i].value.agentName;
      name in MergeOutputs(outs).evaluations && MergeOutputs(outs).evaluations[name] == [outs[i].value.evaluation.value]
    decreases |outs|
  {
    var n := |outs| - 1;
    var name := outs[i].value.agentName;
    if i < n {
      assert forall j | i < j < n :: EvaluatedFor(outs[..n], j, name) == EvaluatedFor(outs, j, name);
      MergedEvaluationLastWins(outs[..n], i);
      assert !EvaluatedFor(outs, n, name);
    }
  }

  // The merged state

  /** `[name for name, output in agent_outputs.items() if completed]`. */
  function CompletedAmong(names: seq<string>, outputs: map<string, AgentOutput>): (r: seq<string>)
    requires forall n | n in names :: n in outputs
    ensures forall n :: n in r <==> n in names && outputs[n].metadata.status == "completed"
  {
    if names == [] then []
    else
      (if outputs[names[0]].metadata.status == "completed" then [names[0]] else [])
        + CompletedAmong(names[1..], outputs)
  }

  /** `list(set(xs))`: each item once (the model keeps first occurrences in
      order where Python uses the set's order). */
  function Distinct(xs: seq<string>): (r: seq<string>)
    ensures forall x :: x in r <==> x in xs
    ensures forall i, j | 0 <= i < j < |r| :: r[i] != r[j]
    decreases |xs|
  {
    if xs == [] then []
    else
      var rest := Distinct(xs[..|xs| - 1]);
      var last := xs[|xs| - 1];
      assert forall x | x in xs :: x in xs[..|xs| - 1] || x == last;
      if last in rest then rest else rest + [last]
  }

  /** `state.get("completed_agents", [])`. */
  function CompletedAgents(f: StateDict): seq<string> {
    if f.completedAgents.Some? then f.completedAgents.value else []
  }

  /** `state.get("errors", [])`. */
  function Errors(f: StateDict): seq<string> {
    if f.errors.Some? then f.errors.value else []
  }

  /** `updated_state.update(legacy_updates)`. */
  function WithLegacy(f: StateDict, legacy: map<string, Value>): (g: StateDict)
    ensures forall k | k in ContentKeys :: Content(g, k) == Override(legacy, k, Content(f, k))
    ensures g.evaluations == f.evaluations && g.errors == f.errors
    ensures g.agentOutputs == f.agentOutputs && g.agentMetadata == f.agentMetadata
    ensures g.agentErrors == f.agentErrors && g.agentEvaluations == f.agentEvaluations
  {
    f.(summary := Override(legacy, "summary", f.summary),
       translation := Override(legacy, "translation", f.translation),
       analysis := Override(legacy, "analysis", f.analysis),
       recommendation := Override(legacy, "recommendation", f.recommendation),
       ideation := Override(legacy, "ideation", f.ideation),
       copywriting := Override(legacy, "copywriting", f.copywriting),
       compliance := Override(legacy, "compliance", f.compliance))
  }

  /** The value under `k` after the update: the legacy one if there is one. */
  function Override(legacy: map<string, Value>, k: string, current: Option<Value>): Option<Value> {
    if k in legacy then Some(legacy[k]) else current
  }

  /** The state the node returns once the merge loop has run on the state
      `g` the nodes left behind. */
  function Combined(g: StateDict, m: Merged): StateDict
    requires WellMerged(m)
  {
    var updated := g.(agentOutputs := Some(m.outputs), agentMetadata := Some(m.metadata),
                      agentErrors := Some(m.errors), agentEvaluations := Some(m.evaluations));
    WithLegacy(updated, m.legacy).(
      completedAgents := Some(Distinct(CompletedAgents(g) + CompletedAmong(m.names, m.outputs))),
      pendingAgents := Some([]))
  }

  /** The shared state after `completed.extend(...)`: a present list grows in
      place; an absent key gets a fresh list that is not stored. */
  function Extended(g: StateDict, m: Merged): StateDict
    requires WellMerged(m)
  {
    if g.completedAgents.Some? then g.(completedAgents := Some(g.completedAgents.value + CompletedAmong(m.names, m.outputs)))
    else g
  }

  /** The state the node returns and the shared state object after it. */
  datatype Parallel = Parallel(result: StateDict, after: StateDict)

  /** The tasks the node runs: the items of `next_steps`. */
  function Tasks(f: StateDict): seq<string> {
    if f.nextSteps.Some? then Elements(f.nextSteps.value) else []
  }

  /** `parallel_agents_node(state)`; `failure` is the message of an
      exception that escapes the gather, after the nodes ran. */
  function ParallelStep(f: StateDict, llm: Agents.Llm, judge: Judge.JudgeLlm, crashed: set<nat>, failure: Option<string>): (p: Parallel)
    ensures !RouterNode.StepsTruthy(f.nextSteps) ==> p == Parallel(f, f)
    ensures RouterNode.StepsTruthy(f.nextSteps) && failure.Some? ==>
      p.result == p.after.(errors := Some(Errors(p.after) + ["Parallel execution failed: " + failure.value]))
    ensures RouterNode.StepsTruthy(f.nextSteps) && failure.None? ==>
      && p.result.pendingAgents == Some([])
      && p.result.evaluations == p.after.evaluations
  {
    if !RouterNode.StepsTruthy(f.nextSteps) then Parallel(f, f)
    else
      var run := RunAll(Tasks(f), f, llm, judge, crashed);
      var g := run.after;
      if failure.Some? then Parallel(g.(errors := Some(Errors(g) + ["Parallel execution failed: " + failure.value])), g)
      else
        var m := MergeOutputs(run.outs);
        MergeWellFormed(run.outs);
        Parallel(Combined(g, m), Extended(g, m))
  }

  /** `parallel_agents_node(state)`. */
  method ParallelAgentsNode(state: AgentState, llm: Agents.Llm, judge: Judge.JudgeLlm, crashed: set<nat>, failure: Option<string>)
    returns (result: StateDict)
    modifies state
    ensures Parallel(result, state.fields) == ParallelStep(old(state.fields), llm, judge, crashed, failure)
  {
    if !RouterNode.StepsTruthy(state.fields.nextSteps) {
      return state.fields;
    }
    var agentsToRun := Elements(state.fields.nextSteps.value);
    var outs := GatherAgents(agentsToRun, state, llm, judge, crashed);
    if failure.Some? {
      return state.fields.(errors := Some(Errors(state.fields) + ["Parallel execution failed: " + failure.value]));
    }
    var merged := MergeRecords(outs);
    MergeWellFormed(outs);
    var updated := state.fields.(agentOutputs := Some(merged.outputs), agentMetadata := Some(merged.metadata),
                                 agentErrors := Some(merged.errors), agentEvaluations := Some(merged.evaluations));
    updated := WithLegacy(updated, merged.legacy);
    var completed := CompletedAgents(state.fields) + CompletedAmong(merged.names, merged.outputs);
    if state.fields.completedAgents.Some? {
      state.fields := state.fields.(completedAgents := Some(completed));
    }
    result := updated.(completedAgents := Some(Distinct(completed)), pendingAgents := Some([]));
  }

  /** The tasks created for `agents_to_run` and awaited with
      `return_exceptions=True`, one after the other. */
  method GatherAgents(names: seq<string>, state: AgentState, llm: Agents.Llm, judge: Judge.JudgeLlm, crashed: set<nat>)
    returns (outs: seq<Option<AgentOutput>>)
    modifies state
    ensures Runs(outs, state.fields) == RunAll(names, old(state.fields), llm, judge, crashed)
  {
    ghost var f := state.fields;
    outs := [];
    for i := 0 to |names|
      invariant Runs(outs, state.fields) == RunAll(names[..i], f, llm, judge, crashed)
    {
      RunAllStep(names, i, f, llm, judge, crashed);
      if i in crashed {
        outs := outs + [None];
      } else {
        var agentOutput := ExecuteAgentWithTracing(names[i], state, llm, judge);
        outs := outs + [Some(agentOutput)];
      }
    }
    assert names[..|names|] == names;
  }

  /** The merge loop over the gathered results. */
  method MergeRecords(outs: seq<Option<AgentOutput>>) returns (merged: Merged)
    ensures merged == MergeOutputs(outs)
  {
    merged := NothingMerged;
    for i := 0 to |outs|
      invariant merged == MergeOutputs(outs[..i])
    {
      MergeOutputsStep(outs, i);
      if outs[i].Some? {
        merged := MergeOne(merged, outs[i].value);
      }
    }
    assert outs[..|outs|] == outs;
  }

  /** One more task run at the end. */
  lemma RunAllStep(names: seq<string>, i: int, f: StateDict, llm: Agents.Llm, judge: Judge.JudgeLlm, crashed: set<nat>)
    requires 0 <= i < |names|
    ensures var prev := RunAll(names[..i], f, llm, judge, crashed);
      RunAll(names[..i + 1], f, llm, judge, crashed)
      == if i in crashed then Runs(prev.outs + [None], prev.after)
         else Runs(prev.outs + [Some(TraceAgent(names[i], prev.after, llm, judge).output)],
                   TraceAgent(names[i], prev.after, llm, judge).after)
  {
    assert names[..i + 1][..i] == names[..i];
  }

  /** One more record merged at the end. */
  lemma MergeOutputsStep(outs: seq<Option<AgentOutput>>, i: int)
    requires 0 <= i < |outs|
    ensures MergeOutputs(outs[..i + 1])
            == if outs[i].Some? then MergeOne(MergeOutputs(outs[..i]), outs[i].value) else MergeOutputs(outs[..i])
  {
    assert outs[..i + 1][..i] == outs[..i];
  }

  // What the node promises

  /** The judge records of the completed records, in order. */
  function Recorded(outs: seq<Option<AgentOutput>>): seq<Value>
    decreases |outs|
  {
    if outs == [] then []
    else
      var n := |outs| - 1;
      var o := outs[n];
      Recorded(outs[..n])
        + (if o.Some? && o.value.metadata.status == "completed" && o.value.evaluation.Some? then [o.value.evaluation.value] else [])
  }

  /** Running the tasks changes nothing in the shared state but its
      `evaluations` list, which grows by the judge records of the agents
      that completed, in order. */
  lemma {:induction false} RunAllAppends(names: seq<string>, f: StateDict, llm: Agents.Llm, judge: Judge.JudgeLlm, crashed: set<nat>)
    ensures var r := RunAll(names, f, llm, judge, crashed);
      && r.after == f.(evaluations := r.after.evaluations)
      && (f.evaluations.None? ==> r.after.evaluations.None?)
      && (f.evaluations.Some? ==> r.after.evaluations == Some(f.evaluations.value + Recorded(r.outs)))
    decreases |names|
  {
    if names != [] {
      var n := |names| - 1;
      var prev := RunAll(names[..n], f, llm, judge, crashed);
      RunAllAppends(names[..n], f, llm, judge, crashed);
      if n in crashed {
        AppendOne(f, prev, None, prev.after);
      } else {
        var t := TraceAgent(names[n], prev.after, llm, judge);
        TracedEvaluation(names[n], prev.after, llm, judge);
        AppendOne(f, prev, Some(t.output), t.after);
      }
    } else if f.evaluations.Some? {
      assert f.evaluations.value + [] == f.evaluations.value;
    }
  }

  /** The step of `RunAllAppends`: one more record, and the state it leaves. */
  lemma AppendOne(f: StateDict, prev: Runs, o: Option<AgentOutput>, after: StateDict)
    requires prev.after == f.(evaluations := prev.after.evaluations)
    requires f.evaluations.None? ==> prev.after.evaluations.None?
    requires f.evaluations.Some? ==> prev.after.evaluations == Some(f.evaluations.value + Recorded(prev.outs))
    requires if o.Some? && o.value.metadata.status == "completed" && o.value.evaluation.Some?
             then after == WithEvaluation(prev.after, o.value.evaluation.value)
             else after == prev.after
    ensures after == f.(evaluations := after.evaluations)
    ensures f.evaluations.None? ==> after.evaluations.None?
    ensures f.evaluations.Some? ==> after.evaluations == Some(f.evaluations.value + Recorded(prev.outs + [o]))
  {
    RecordedSnoc(prev.outs, o);
    if f.evaluations.Some? && o.Some? && o.value.metadata.status == "completed" && o.value.evaluation.Some? {
      var e := o.value.evaluation.value;
      assert f.evaluations.value + Recorded(prev.outs) + [e] == f.evaluations.value + (Recorded(prev.outs) + [e]);
    } else {
      assert Recorded(prev.outs) + [] == Recorded(prev.outs);
    }
  }

  /** One more record at the end adds its evaluation, if any, at the end. */
  lemma RecordedSnoc(outs: seq<Option<AgentOutput>>, o: Option<AgentOutput>)
    ensures Recorded(outs + [o]) == Recorded(outs)
      + (if o.Some? && o.value.metadata.status == "completed" && o.value.evaluation.Some? then [o.value.evaluation.value] else [])
  {
    assert (outs + [o])[..|outs|] == outs;
  }

  /** Without a failure of the gather, `agent_outputs` and `agent_metadata`
      have a record for exactly the tasks whose coroutine returned. */
  lemma OutputsCoverTasks(f: StateDict, llm: Agents.Llm, judge: Judge.JudgeLlm, crashed: set<nat>, name: string)
    requires RouterNode.StepsTruthy(f.nextSteps)
    ensures var p := ParallelStep(f, llm, judge, crashed, None);
      && p.result.agentOutputs.Some? && p.result.agentMetadata.Some?
      && p.result.agentOutputs.value.Keys == p.result.agentMetadata.value.Keys
      && (name in p.result.agentOutputs.value <==>
            exists i | 0 <= i < |Tasks(f)| :: i !in crashed && Tasks(f)[i] == name)
  {
    var run := RunAll(Tasks(f), f, llm, judge, crashed);
    MergeWellFormed(run.outs);
    var m := MergeOutputs(run.outs);
    assert ParallelStep(f, llm, judge, crashed, None).result == Combined(run.after, m);
    RunNames(Tasks(f), f, llm, judge, crashed, name);
  }

  /** The merged records are for exactly the names whose task returned. */
  lemma RunNames(names: seq<string>, f: StateDict, llm: Agents.Llm, judge: Judge.JudgeLlm, crashed: set<nat>, name: string)
    ensures name in MergeOutputs(RunAll(names, f, llm, judge, crashed).outs).outputs <==>
      exists i | 0 <= i < |names| :: i !in crashed && names[i] == name
  {
    var run := RunAll(names, f, llm, judge, crashed);
    MergedNames(run.outs, name);
    assert forall i | 0 <= i < |names| :: RecordFor(run.outs, i, name) <==> i !in crashed && names[i] == name;
  }

  /** `completed_agents` ends up holding, once each, the names it held before
      and the agents whose kept record completed; `pending_agents` is
      cleared. */
  lemma CompletedAgentsUnion(f: StateDict, llm: Agents.Llm, judge: Judge.JudgeLlm, crashed: set<nat>)
    requires RouterNode.StepsTruthy(f.nextSteps)
    ensures var p := ParallelStep(f, llm, judge, crashed, None);
      var m := MergeOutputs(RunAll(Tasks(f), f, llm, judge, crashed).outs);
      && p.result.completedAgents.Some?
      && (forall i, j | 0 <= i < j < |p.result.completedAgents.value| ::
            p.result.completedAgents.value[i] != p.result.completedAgents.value[j])
      && (forall x :: x in p.result.completedAgents.value <==>
            x in CompletedAgents(f) || (x in m.outputs && m.outputs[x].metadata.status == "completed"))
      && p.result.pendingAgents == Some([])
  {
    RunAllAppends(Tasks(f), f, llm, judge, crashed);
    MergeWellFormed(RunAll(Tasks(f), f, llm, judge, crashed).outs);
  }

  /** The merged maps land in the state as they are; a legacy field
      overrides the capability field it names. */
  lemma CombinedFields(g: StateDict, m: Merged)
    requires WellMerged(m)
    ensures var c := Combined(g, m);
      && c.agentOutputs == Some(m.outputs) && c.agentMetadata == Some(m.metadata)
      && c.agentErrors == Some(m.errors) && c.agentEvaluations == Some(m.evaluations)
      && forall k | k in ContentKeys :: Content(c, k) == Override(m.legacy, k, Content(g, k))
  {
    var updated := g.(agentOutputs := Some(m.outputs), agentMetadata := Some(m.metadata),
                      agentErrors := Some(m.errors), agentEvaluations := Some(m.evaluations));
    var w := WithLegacy(updated, m.legacy);
    assert SameContent(updated, g);
    SameContentFields(updated, g);
    assert SameContent(Combined(g, m), w);
    SameContentFields(Combined(g, m), w);
  }

  /** Without a failure of the gather, `agent_errors` names exactly the
      agents with a failed record. */
  lemma ParallelErrors(f: StateDict, llm: Agents.Llm, judge: Judge.JudgeLlm, crashed: set<nat>, name: string)
    requires RouterNode.StepsTruthy(f.nextSteps)
    ensures ParallelStep(f, llm, judge, crashed, None).result.agentErrors.Some?
    ensures name in ParallelStep(f, llm, judge, crashed, None).result.agentErrors.value <==>
      exists i | 0 <= i < |Tasks(f)| :: FailureFor(RunAll(Tasks(f), f, llm, judge, crashed).outs, i, name)
  {
    var run := RunAll(Tasks(f), f, llm, judge, crashed);
    MergeWellFormed(run.outs);
    var m := MergeOutputs(run.outs);
    assert ParallelStep(f, llm, judge, crashed, None).result == Combined(run.after, m);
    CombinedFields(run.after, m);
    MergedErrors(run.outs, name);
    assert run.outs == RunAll(Tasks(f), f, llm, judge, crashed).outs;
  }

  /** Without a failure of the gather, `agent_evaluations` names exactly the
      agents with a record carrying a truthy evaluation. */
  lemma ParallelEvaluations(f: StateDict, llm: Agents.Llm, judge: Judge.JudgeLlm, crashed: set<nat>, name: string)
    requires RouterNode.StepsTruthy(f.nextSteps)
    ensures ParallelStep(f, llm, judge, crashed, None).result.agentEvaluations.Some?
    ensures name in ParallelStep(f, llm, judge, crashed, None).result.agentEvaluations.value <==>
      exists i | 0 <= i < |Tasks(f)| :: EvaluatedFor(RunAll(Tasks(f), f, llm, judge, crashed).outs, i, name)
  {
    var run := RunAll(Tasks(f), f, llm, judge, crashed);
    MergeWellFormed(run.outs);
    var m := MergeOutputs(run.outs);
    assert ParallelStep(f, llm, judge, crashed, None).result == Combined(run.after, m);
    CombinedFields(run.after, m);
    MergedEvaluations(run.outs, name);
    assert run.outs == RunAll(Tasks(f), f, llm, judge, crashed).outs;
  }

  /** The last record of an agent is the one the node keeps, with its error
      text when it failed. */
  lemma ParallelLastRecord(f: StateDict, llm: Agents.Llm, judge: Judge.JudgeLlm, crashed: set<nat>, i: int)
    requires RouterNode.StepsTruthy(f.nextSteps)
    requires var outs := RunAll(Tasks(f), f, llm, judge, crashed).outs;
      && 0 <= i < |outs| && outs[i].Some?
      && forall j | i < j < |outs| :: !RecordFor(outs, j, outs[i].value.agentName)
    ensures var p := ParallelStep(f, llm, judge, crashed, None);
      var o := RunAll(Tasks(f), f, llm, judge, crashed).outs[i].value;
      && p.result.agentOutputs.Some? && o.agentName in p.result.agentOutputs.value
      && p.result.agentOutputs.value[o.agentName] == o
      && (o.metadata.status == "failed" ==>
            p.result.agentErrors.Some? && o.agentName in p.result.agentErrors.value
            && p.result.agentErrors.value[o.agentName] == ErrorText(o.metadata))
  {
    var run := RunAll(Tasks(f), f, llm, judge, crashed);
    MergeWellFormed(run.outs);
    var m := MergeOutputs(run.outs);
    assert ParallelStep(f, llm, judge, crashed, None).result == Combined(run.after, m);
    CombinedFields(run.after, m);
    MergedLastWins(run.outs, i);
  }

  /** The last successful record of a known agent fills that agent's legacy
      capability field with its output. */
  lemma ParallelLegacy(f: StateDict, llm: Agents.Llm, judge: Judge.JudgeLlm, crashed: set<nat>, i: int)
    requires RouterNode.StepsTruthy(f.nextSteps)
    requires var outs := RunAll(Tasks(f), f, llm, judge, crashed).outs;
      && 0 <= i < |outs| && outs[i].Some? && outs[i].value.agentName in RouterNode.TaskNames
      && SuccessFor(outs, i, outs[i].value.agentName)
      && forall j | i < j < |outs| :: !SuccessFor(outs, j, outs[i].value.agentName)
    ensures var p := ParallelStep(f, llm, judge, crashed, None);
      var o := RunAll(Tasks(f), f, llm, judge, crashed).outs[i].value;
      Content(p.result, ParallelBatch.StateKey(o.agentName)) == Some(o.output)
  {
    var run := RunAll(Tasks(f), f, llm, judge, crashed);
    MergeWellFormed(run.outs);
    var m := MergeOutputs(run.outs);
    assert ParallelStep(f, llm, judge, crashed, None).result == Combined(run.after, m);
    CombinedFields(run.after, m);
    MergedLegacyLastWins(run.outs, i);
  }

  /** The last truthy evaluation of an agent is its `agent_evaluations`
      entry, as a one-item list. */
  lemma ParallelEvaluation(f: StateDict, llm: Agents.Llm, judge: Judge.JudgeLlm, crashed: set<nat>, i: int)
    requires RouterNode.StepsTruthy(f.nextSteps)
    requires var outs := RunAll(Tasks(f), f, llm, judge, crashed).outs;
      && 0 <= i < |outs| && outs[i].Some? && EvaluatedFor(outs, i, outs[i].value.agentName)
      && forall j | i < j < |outs| :: !EvaluatedFor(outs, j, outs[i].value.agentName)
    ensures var p := ParallelStep(f, llm, judge, crashed, None);
      var o := RunAll(Tasks(f), f, llm, judge, crashed).outs[i].value;
      && p.result.agentEvaluations.Some? && o.agentName in p.result.agentEvaluations.value
      && p.result.agentEvaluations.value[o.agentName] == [o.evaluation.value]
  {
    var run := RunAll(Tasks(f), f, llm, judge, crashed);
    MergeWellFormed(run.outs);
    var m := MergeOutputs(run.outs);
    assert ParallelStep(f, llm, judge, crashed, None).result == Combined(run.after, m);
    CombinedFields(run.after, m);
    MergedEvaluationLastWins(run.outs, i);
  }

  /** A planned `recommend` or `copywrite` task that did not crash leaves
      its two-arguments failure as the agent's output and its text in
      `agent_errors`. */
  lemma ParallelTwoArgumentErrors(f: StateDict, llm: Agents.Llm, judge: Judge.JudgeLlm, crashed: set<nat>, name: string)
    requires RouterNode.StepsTruthy(f.nextSteps)
    requires name == "recommend" || name == "copywrite"
    requires exists i | 0 <= i < |Tasks(f)| :: Tasks(f)[i] == name && i !in crashed
    ensures var p := ParallelStep(f, llm, judge, crashed, None);
      && p.result.agentOutputs.Some? && name in p.result.agentOutputs.value
      && p.result.agentOutputs.value[name] == Failed(name, TwoArgumentsError(name))
      && p.result.agentErrors.Some? && name in p.result.agentErrors.value
      && p.result.agentErrors.value[name] == TwoArgumentsError(name)
  {
    var run := RunAll(Tasks(f), f, llm, judge, crashed);
    var o := Failed(name, TwoArgumentsError(name));
    RunAllTwoArgumentFailures(Tasks(f), f, llm, judge, crashed, name);
    var i :| 0 <= i < |Tasks(f)| && Tasks(f)[i] == name && i !in crashed;
    assert RecordFor(run.outs, i, name);
    MergeWellFormed(run.outs);
    var m := MergeOutputs(run.outs);
    MergedUniformRecord(run.outs, o);
    assert ParallelStep(f, llm, judge, crashed, None).result == Combined(run.after, m);
    CombinedFields(run.after, m);
  }

  /** The gather failing records one error line on a copy of the state and
      sets none of the per-agent maps. */
  lemma GatherFailureRecorded(f: StateDict, llm: Agents.Llm, judge: Judge.JudgeLlm, crashed: set<nat>, message: string)
    requires RouterNode.StepsTruthy(f.nextSteps)
    ensures var p := ParallelStep(f, llm, judge, crashed, Some(message));
      && p.result.errors == Some(Errors(f) + ["Parallel execution failed: " + message])
      && p.result.agentOutputs == f.agentOutputs && p.result.agentErrors == f.agentErrors
      && p.result.completedAgents == f.completedAgents
  {
    RunAllAppends(Tasks(f), f, llm, judge, crashed);
  }

  /** Tasks with no node all fail, touch nothing, and set no legacy field. */
  lemma {:induction false} RunAllUnknown(names: seq<string>, f: StateDict, llm: Agents.Llm, judge: Judge.JudgeLlm, crashed: set<nat>)
    requires forall i | 0 <= i < |names| :: names[i] !in RouterNode.TaskNames
    ensures var r := RunAll(names, f, llm, judge, crashed);
      && r.after == f
      && forall i | 0 <= i < |names| && r.outs[i].Some? ::
           r.outs[i].value.metadata == AgentMetadata(names[i], "failed", Some(UnknownAgentError(names[i])))
    decreases |names|
  {
    if names != [] {
      var n := |names| - 1;
      var prev := RunAll(names[..n], f, llm, judge, crashed);
      RunAllUnknown(names[..n], f, llm, judge, crashed);
      var r := RunAll(names, f, llm, judge, crashed);
      assert r.outs[..n] == prev.outs;
      UnknownAgentFails(names[n], prev.after, llm, judge);
    }
  }

  /** The error text of a task with no node. */
  function UnknownAgentError(name: string): string {
    "ValueError: Unknown agent: " + name
  }

  /** Merging records that all failed: each name's error is its own error
      text, nobody completed, and no legacy field is set. */
  lemma MergeAllFailed(outs: seq<Option<AgentOutput>>)
    requires forall i | 0 <= i < |outs| && outs[i].Some? ::
      outs[i].value.metadata == AgentMetadata(outs[i].value.agentName, "failed", Some(UnknownAgentError(outs[i].value.agentName)))
    ensures var m := MergeOutputs(outs);
      && WellMerged(m)
      && m.legacy == map[]
      && CompletedAmong(m.names, m.outputs) == []
      && forall i | 0 <= i < |outs| && outs[i].Some? ::
           outs[i].value.agentName in m.errors && m.errors[outs[i].value.agentName] == UnknownAgentError(outs[i].value.agentName)
  {
    var m := MergeOutputs(outs);
    MergeWellFormed(outs);
    MergedNoLegacy(outs);
    forall i | 0 <= i < |outs| && outs[i].Some?
      ensures outs[i].value.agentName in m.errors && m.errors[outs[i].value.agentName] == UnknownAgentError(outs[i].value.agentName)
    {
      var j := LastRecord(outs, i);
      MergedLastWins(outs, j);
    }
    forall x | x in m.names
      ensures m.outputs[x].metadata.status != "completed"
    {
      MergedNames(outs, x);
      var i :| 0 <= i < |outs| && RecordFor(outs, i, x);
      var j := LastRecord(outs, i);
      MergedLastWins(outs, j);
    }
    NoneCompleted(m.names, m.outputs);
  }

  lemma NoneCompleted(names: seq<string>, outputs: map<string, AgentOutput>)
    requires forall n | n in names :: n in outputs && outputs[n].metadata.status != "completed"
    ensures CompletedAmong(names, outputs) == []
  {
  }

  /** A plan of names with no node, such as the characters of the router's
      `str` decision: every task that returned is reported under
      `agent_errors` as an unknown agent, and no capability field, no
      evaluation and no completed agent is added. */
  lemma UnknownTasksAllFail(f: StateDict, llm: Agents.Llm, judge: Judge.JudgeLlm, crashed: set<nat>)
    requires RouterNode.StepsTruthy(f.nextSteps)
    requires forall i | 0 <= i < |Tasks(f)| :: Tasks(f)[i] !in RouterNode.TaskNames
    ensures var p := ParallelStep(f, llm, judge, crashed, None);
      && p.after == f
      && p.result.evaluations == f.evaluations
      && (forall k | k in ContentKeys :: Content(p.result, k) == Content(f, k))
      && p.result.agentErrors.Some?
      && (forall i | 0 <= i < |Tasks(f)| && i !in crashed ::
            Tasks(f)[i] in p.result.agentErrors.value
            && p.result.agentErrors.value[Tasks(f)[i]] == UnknownAgentError(Tasks(f)[i]))
  {
    var tasks := Tasks(f);
    var run := RunAll(tasks, f, llm, judge, crashed);
    RunAllUnknown(tasks, f, llm, judge, crashed);
    MergeAllFailed(run.outs);
    var m := MergeOutputs(run.outs);
    assert ParallelStep(f, llm, judge, crashed, None) == Parallel(Combined(f, m), Extended(f, m));
    CombinedNothingCompleted(f, m);
    forall i | 0 <= i < |tasks| && i !in crashed
      ensures tasks[i] in m.errors && m.errors[tasks[i]] == UnknownAgentError(tasks[i])
    {
      assert run.outs[i].Some? && run.outs[i].value.agentName == tasks[i];
    }
  }

  /** A merge in which nobody completed adds no capability field, no
      evaluation and no completed agent. */
  lemma CombinedNothingCompleted(g: StateDict, m: Merged)
    requires WellMerged(m) && m.legacy == map[] && CompletedAmong(m.names, m.outputs) == []
    ensures Extended(g, m) == g
    ensures Combined(g, m).evaluations == g.evaluations
    ensures Combined(g, m).agentErrors == Some(m.errors)
    ensures forall k | k in ContentKeys :: Content(Combined(g, m), k) == Content(g, k)
  {
    assert g.completedAgents.Some? ==> g.completedAgents.value + [] == g.completedAgents.value;
  }

  /** The index of the last record for the name of record `i`. */
  lemma {:induction false} LastRecord(outs: seq<Option<AgentOutput>>, i: int) returns (j: int)
    requires 0 <= i < |outs| && outs[i].Some?
    ensures i <= j < |outs| && RecordFor(outs, j, outs[i].value.agentName)
    ensures forall k | j < k < |outs| :: !RecordFor(outs, k, outs[i].value.agentName)
    decreases |outs| - i
  {
    var name := outs[i].value.agentName;
    if exists k | i < k < |outs| :: RecordFor(outs, k, name) {
      var k :| i < k < |outs| && RecordFor(outs, k, name);
      j := LastRecord(outs, k);
    } else {
      j := i;
    }
  }

  /** The router's plan for a request, run by this node: every character of
      the decision fails as an unknown agent. */
  lemma RouterDecisionAllFail(f: StateDict, router: RouterAgent.RouterLlm, llm: Agents.Llm, judge: Judge.JudgeLlm, crashed: set<nat>)
    requires !RouterNode.StepsTruthy(f.nextSteps) && f.userRequest.Some?
    ensures RouterNode.Route(f, router).Done? && RouterNode.Route(f, router).value.Planned?
    ensures var g := ParallelBatch.Planned(f, RouterNode.Route(f, router).value);
      && RouterNode.StepsTruthy(g.nextSteps)
      && forall i | 0 <= i < |Tasks(g)| && i !in crashed ::
           var p := ParallelStep(g, llm, judge, crashed, None);
           p.result.agentErrors.Some? && Tasks(g)[i] in p.result.agentErrors.value
  {
    var g := DecisionTasks(f, router);
    UnknownTasksAllFail(g, llm, judge, crashed);
  }

  /** The tasks of the router's plan: the decision's characters, none of
      them a task name. */
  lemma DecisionTasks(f: StateDict, router: RouterAgent.RouterLlm) returns (g: StateDict)
    requires !RouterNode.StepsTruthy(f.nextSteps) && f.userRequest.Some?
    ensures RouterNode.Route(f, router).Done? && RouterNode.Route(f, router).value.Planned?
    ensures g == ParallelBatch.Planned(f, RouterNode.Route(f, router).value)
    ensures RouterNode.StepsTruthy(g.nextSteps)
    ensures forall i | 0 <= i < |Tasks(g)| :: Tasks(g)[i] !in RouterNode.TaskNames
  {
    var d := RouterAgent.Decide(router, f.userRequest.value);
    g := ParallelBatch.Planned(f, RouterNode.Route(f, router).value);
    assert d != "";
    assert g.nextSteps == Some(StepText(d));
    forall i | 0 <= i < |Tasks(g)|
      ensures Tasks(g)[i] !in RouterNode.TaskNames
    {
      RouterNode.CharIsNoTask(Tasks(g)[i]);
    }
  }
}
