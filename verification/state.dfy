/** The workflow state `AgentState` (backend/app/models/state/state.py): a
    dict with optional keys that the nodes read, return partial updates
    against, and in places update in place. */
module WorkflowState {
  import opened Strings
  import opened Values

  /** What `next_steps` holds: the router stores the `str` that
      `RouterAgent.decide` returns, although the field is declared as a list
      of names. Iterating, indexing and `len` then work on characters. */
  datatype Steps = StepList(names: seq<string>) | StepText(text: string)

  /** The items `for s in steps` visits: names, or one-character strings. */
  function Elements(steps: Steps): (r: seq<string>)
    ensures steps.StepList? ==> r == steps.names
    ensures steps.StepText? ==> |r| == |steps.text| && forall i | 0 <= i < |r| :: r[i] == [steps.text[i]]
  {
    match steps
    case StepList(names) => names
    case StepText(text) => seq(|text|, i requires 0 <= i < |text| => [text[i]])
  }

  /** `AgentMetadata`, without its clock readings and trace ids. */
  datatype AgentMetadata = AgentMetadata(agentName: string, status: string, error: Option<string>)

  /** `AgentOutput`, without its timestamp-derived id. */
  datatype AgentOutput = AgentOutput(
    agentName: string,
    output: Value,
    metadata: AgentMetadata,
    evaluation: Option<Value>,
    validationPassed: bool)

  /** The keys of `AgentState`; `None` is an absent key. */
  datatype StateDict = StateDict(
    rawText: Option<Value>,
    userRequest: Option<Value>,
    sourceLang: Option<Value>,
    extraction: Option<Value>,
    nextSteps: Option<Steps>,
    currentStepIndex: Option<int>,
    currentBatchIndex: Option<int>,
    parallelBatches: Option<seq<seq<string>>>,
    pendingAgents: Option<seq<string>>,
    completedAgents: Option<seq<string>>,
    summary: Option<Value>,
    translation: Option<Value>,
    analysis: Option<Value>,
    recommendation: Option<Value>,
    ideation: Option<Value>,
    copywriting: Option<Value>,
    compliance: Option<Value>,
    agentOutputs: Option<map<string, AgentOutput>>,
    agentMetadata: Option<map<string, AgentMetadata>>,
    errors: Option<seq<string>>,
    agentErrors: Option<map<string, string>>,
    evaluations: Option<seq<Value>>,
    agentEvaluations: Option<map<string, seq<Value>>>)

  /** The state with no keys. */
  function EmptyState(): StateDict {
    StateDict(None, None, None, None, None, None, None, None, None, None, None, None,
              None, None, None, None, None, None, None, None, None, None, None)
  }

  /** `state.get("evaluations", [])`. */
  function Evaluations(f: StateDict): seq<Value> {
    if f.evaluations.Some? then f.evaluations.value else []
  }

  /** `state.get("current_step_index", 0)`. */
  function StepIndex(f: StateDict): int {
    if f.currentStepIndex.Some? then f.currentStepIndex.value else 0
  }

  /** The state after `state.get("evaluations", []).append(e)`: a present list
      grows in place; an absent key gets a fresh list that is not stored. */
  function WithEvaluation(f: StateDict, e: Value): (g: StateDict)
    ensures f.evaluations.Some? ==> g.evaluations == Some(f.evaluations.value + [e])
    ensures f.evaluations.None? ==> g == f
    ensures g == f.(evaluations := g.evaluations)
  {
    if f.evaluations.Some? then f.(evaluations := Some(f.evaluations.value + [e])) else f
  }

  /** The seven capability fields, by their key. */
  const ContentKeys: set<string> := {"summary", "translation", "analysis", "recommendation", "ideation", "copywriting", "compliance"}

  /** `state.get(key)` for a capability field. */
  function Content(f: StateDict, key: string): Option<Value>
    requires key in ContentKeys
  {
    match key
    case "summary" => f.summary
    case "translation" => f.translation
    case "analysis" => f.analysis
    case "recommendation" => f.recommendation
    case "ideation" => f.ideation
    case "copywriting" => f.copywriting
    case "compliance" => f.compliance
  }

  /** The seven capability fields agree. */
  predicate SameContent(f: StateDict, g: StateDict) {
    && f.summary == g.summary && f.translation == g.translation && f.analysis == g.analysis
    && f.recommendation == g.recommendation && f.ideation == g.ideation
    && f.copywriting == g.copywriting && f.compliance == g.compliance
  }

  lemma SameContentFields(f: StateDict, g: StateDict)
    requires SameContent(f, g)
    ensures forall k | k in ContentKeys :: Content(f, k) == Content(g, k)
  {
  }

  /** `state[key] = v` for a capability field. */
  function WithContent(f: StateDict, key: string, v: Value): (g: StateDict)
    requires key in ContentKeys
    ensures Content(g, key) == Some(v)
    ensures forall k | k in ContentKeys && k != key :: Content(g, k) == Content(f, k)
    ensures g.evaluations == f.evaluations && g.completedAgents == f.completedAgents && g.errors == f.errors
  {
    match key
    case "summary" => f.(summary := Some(v))
    case "translation" => f.(translation := Some(v))
    case "analysis" => f.(analysis := Some(v))
    case "recommendation" => f.(recommendation := Some(v))
    case "ideation" => f.(ideation := Some(v))
    case "copywriting" => f.(copywriting := Some(v))
    case "compliance" => f.(compliance := Some(v))
  }

  /** The state dict object the nodes share. Nodes mostly return partial
      updates, but some lists and the batch cursor are changed in place. */
  class AgentState {
    var fields: StateDict

    constructor(f: StateDict)
      ensures fields == f
    {
      fields := f;
    }

    /** `evaluations = state.get("evaluations", []); evaluations.append(e)`:
        the list the node returns. */
    method AppendEvaluation(e: Value) returns (evaluations: seq<Value>)
      modifies this
      ensures evaluations == Evaluations(old(fields)) + [e]
      ensures fields == WithEvaluation(old(fields), e)
    {
      if fields.evaluations.Some? {
        fields := fields.(evaluations := Some(fields.evaluations.value + [e]));
        evaluations := fields.evaluations.value;
      } else {
        evaluations := [e];
      }
    }
  }
}
