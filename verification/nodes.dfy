/** The nine capability nodes (the `_node` files under backend/app/nodes). Each picks its
    input from the state, calls its agent, has the judge score the output,
    appends the judge record to the state's `evaluations` list in place and
    returns a partial update. The output validators are consulted only for
    a log line and never change what a node returns. */
module Nodes {
  import opened Strings
  import opened Values
  import opened WorkflowState
  import Agents
  import Judge
  import Compliance
  import OutputValidator

  /** What a node call returns (or raises) and the state object after it. */
  datatype NodeStep = NodeStep(result: Outcome<PyDict>, after: StateDict)

  /** `state[key]`. */
  function Lookup(v: Option<Value>, key: string): (o: Outcome<Value>)
    ensures v.Some? <==> o.Done?
    ensures v.Some? ==> o.value == v.value
    ensures v.None? ==> o == Raised(KeyError(key))
  {
    if v.Some? then Done(v.value) else Raised(KeyError(key))
  }

  /** `state.get(key, d)`. */
  function GetOr(v: Option<Value>, d: Value): Value {
    if v.Some? then v.value else d
  }

  /** `c0 or c1 or … or last`: the first truthy candidate, else `last`. */
  function FirstTruthy(candidates: seq<Value>, last: Value): (r: Value)
    ensures forall i | 0 <= i < |candidates| ::
      Truthy(candidates[i]) && (forall j | 0 <= j < i :: !Truthy(candidates[j])) ==> r == candidates[i]
    ensures (forall i | 0 <= i < |candidates| :: !Truthy(candidates[i])) ==> r == last
  {
    if candidates == [] then last
    else if Truthy(candidates[0]) then candidates[0]
    else FirstTruthy(candidates[1..], last)
  }

  /** `str(x)` of an argument expression that may have raised. */
  function StrOf(x: Outcome<Value>): Outcome<Value> {
    if x.Raised? then x else Done(Str(Repr(x.value)))
  }

  /** `a + b` of two argument expressions, evaluated left to right. */
  function Plus(a: Outcome<Value>, b: Outcome<Value>): Outcome<Value> {
    if a.Raised? then a else if b.Raised? then b else Add(a.value, b.value)
  }

  /** `Agent().run(a)`: the argument is evaluated first. */
  function Call1(llm: Agents.Llm, k: Agents.Kind, a: Outcome<Value>): Outcome<Value> {
    if a.Raised? then Raised(a.exc) else Agents.Run(llm, k, [a.value], [])
  }

  /** `Agent().run(a, b)`: the arguments are evaluated left to right first. */
  function Call2(llm: Agents.Llm, k: Agents.Kind, a: Outcome<Value>, b: Outcome<Value>): Outcome<Value> {
    if a.Raised? then Raised(a.exc)
    else if b.Raised? then Raised(b.exc)
    else Agents.Run(llm, k, [a.value, b.value], [])
  }

  /** The judge record for one output, as `judge.evaluate` builds it. */
  function Judged(judge: Judge.JudgeLlm, agentType: string, context: Value, output: Value): Value {
    Judge.VerdictValue(Judge.Evaluation(judge(agentType, Repr(context), Repr(output)), agentType))
  }

  /** The returned `evaluations` is the state's list with one record
      appended, and that record is also what the state object now holds. */
  predicate AppendsOne(f: StateDict, r: NodeStep) {
    && r.result.Done?
    && var ev := Get(r.result.value, "evaluations");
    && ev.Some? && ev.value.List?
    && |ev.value.items| == |Evaluations(f)| + 1
    && ev.value.items[..|Evaluations(f)|] == Evaluations(f)
    && r.after == WithEvaluation(f, ev.value.items[|Evaluations(f)|])
  }

  /** A returned update with exactly `key`, the bumped step counter when
      `bump`, and `evaluations`. */
  predicate Updates(f: StateDict, r: NodeStep, key: string, bump: bool) {
    && r.result.Done?
    && Keys(r.result.value) == (if bump then [key, "current_step_index", "evaluations"] else [key, "evaluations"])
    && (bump ==> Get(r.result.value, "current_step_index") == Some(Int(StepIndex(f) + 1)))
    && AppendsOne(f, r)
  }

  /** The part every node shares once its agent has been called: an agent
      error or a failing judge-context expression propagates with the state
      untouched; otherwise the judge record is appended and the update
      returned. */
  function Finish(f: StateDict, key: string, bump: bool, agentType: string,
                  outcome: Outcome<Value>, context: Outcome<Value>, judge: Judge.JudgeLlm): (r: NodeStep)
    requires key != "current_step_index" && key != "evaluations"
    ensures outcome.Raised? ==> r == NodeStep(Raised(outcome.exc), f)
    ensures outcome.Done? && context.Raised? ==> r == NodeStep(Raised(context.exc), f)
    ensures outcome.Done? && context.Done? ==>
      && Updates(f, r, key, bump)
      && Get(r.result.value, key) == Some(outcome.value)
      && r.after == WithEvaluation(f, Judged(judge, agentType, context.value, outcome.value))
  {
    if outcome.Raised? then NodeStep(Raised(outcome.exc), f)
    else if context.Raised? then NodeStep(Raised(context.exc), f)
    else
      var e := Judged(judge, agentType, context.value, outcome.value);
      var step := if bump then [Entry("current_step_index", Int(StepIndex(f) + 1))] else [];
      var update := [Entry(key, outcome.value)] + step + [Entry("evaluations", List(Evaluations(f) + [e]))];
      UpdateShape(f, key, bump, outcome.value, e);
      NodeStep(Done(update), WithEvaluation(f, e))
  }

  lemma UpdateShape(f: StateDict, key: string, bump: bool, output: Value, e: Value)
    requires key != "current_step_index" && key != "evaluations"
    ensures var step := if bump then [Entry("current_step_index", Int(StepIndex(f) + 1))] else [];
      var update := [Entry(key, output)] + step + [Entry("evaluations", List(Evaluations(f) + [e]))];
      && Updates(f, NodeStep(Done(update), WithEvaluation(f, e)), key, bump)
      && Get(update, key) == Some(output)
  {
    var evaluations := Entry("evaluations", List(Evaluations(f) + [e]));
    var first := Entry(key, output);
    assert (Evaluations(f) + [e])[..|Evaluations(f)|] == Evaluations(f);
    if bump {
      var counter := Entry("current_step_index", Int(StepIndex(f) + 1));
      var update := [first] + [counter] + [evaluations];
      assert update == [first, counter, evaluations];
      assert update[1..] == [counter, evaluations] && update[1..][1..] == [evaluations];
      assert Keys(update) == [key, "current_step_index", "evaluations"];
      assert Get(update[1..][1..], "evaluations") == Some(evaluations.val);
      assert Get(update[1..], "evaluations") == Some(evaluations.val);
      assert Get(update, "evaluations") == Some(evaluations.val);
      assert Get(update, "current_step_index") == Some(counter.val);
    } else {
      var update := [first] + [] + [evaluations];
      assert update == [first, evaluations];
      assert update[1..] == [evaluations];
      assert Keys(update) == [key, "evaluations"];
    }
  }

  /** The shared tail of every node, in the source's order: validate (only
      logged), judge, append the record in place, return the update. */
  method FinishNode(state: WorkflowState.AgentState, key: string, bump: bool, agentType: string,
                    validator: Option<string>, outcome: Outcome<Value>, context: Outcome<Value>,
                    judge: Judge.JudgeLlm) returns (r: Outcome<PyDict>)
    requires key != "current_step_index" && key != "evaluations"
    modifies state
    ensures NodeStep(r, state.fields) == Finish(old(state.fields), key, bump, agentType, outcome, context, judge)
  {
    if outcome.Raised? {
      return Raised(outcome.exc);
    }
    if validator.Some? {
      // A failed validation is only logged.
      var codeValid := OutputValidator.ValidateAgentOutput(validator.value, outcome.value);
    }
    if context.Raised? {
      return Raised(context.exc);
    }
    var verdict := Judge.Evaluate(judge, agentType, context.value, outcome.value);
    var evaluations := state.AppendEvaluation(Judge.VerdictValue(verdict));
    var update := [Entry(key, outcome.value)];
    if bump {
      update := update + [Entry("current_step_index", Int(StepIndex(state.fields) + 1))];
    } else {
      assert update == [Entry(key, outcome.value)] + [];
    }
    r := Done(update + [Entry("evaluations", List(evaluations))]);
  }

  // ---------------------------------------------------------------------
  // analysis_node

  /** `analysis_node(state)`. */
  function AnalysisStep(f: StateDict, llm: Agents.Llm, judge: Judge.JudgeLlm): (r: NodeStep)
    ensures f.extraction.None? ==> r == NodeStep(Raised(KeyError("extraction")), f)
    ensures f.extraction.Some? ==>
      && Updates(f, r, "analysis", true)
      && Agents.Run(llm, Agents.Analyzer, [f.extraction.value], []).Done?
      && Get(r.result.value, "analysis") == Some(Agents.Run(llm, Agents.Analyzer, [f.extraction.value], []).value)
  {
    Agents.OnePositionalBinds(llm, Agents.Analyzer, GetOr(f.extraction, Null));
    var extraction := Lookup(f.extraction, "extraction");
    Finish(f, "analysis", true, "analysis", Call1(llm, Agents.Analyzer, extraction), StrOf(extraction), judge)
  }

  method AnalysisNode(state: WorkflowState.AgentState, llm: Agents.Llm, judge: Judge.JudgeLlm) returns (r: Outcome<PyDict>)
    modifies state
    ensures NodeStep(r, state.fields) == AnalysisStep(old(state.fields), llm, judge)
  {
    var extraction := Lookup(state.fields.extraction, "extraction");
    var result := Call1(llm, Agents.Analyzer, extraction);
    r := FinishNode(state, "analysis", true, "analysis", Some("analysis"), result, StrOf(extraction), judge);
  }

  // ---------------------------------------------------------------------
  // summarization_node

  /** `summarization_node(state)`. */
  function SummarizationStep(f: StateDict, llm: Agents.Llm, judge: Judge.JudgeLlm): (r: NodeStep)
    ensures f.extraction.None? ==> r == NodeStep(Raised(KeyError("extraction")), f)
    ensures f.extraction.Some? ==>
      && Updates(f, r, "summary", true)
      && Agents.Run(llm, Agents.Summarizer, [f.extraction.value], []).Done?
      && Get(r.result.value, "summary") == Some(Agents.Run(llm, Agents.Summarizer, [f.extraction.value], []).value)
  {
    Agents.OnePositionalBinds(llm, Agents.Summarizer, GetOr(f.extraction, Null));
    var extraction := Lookup(f.extraction, "extraction");
    Finish(f, "summary", true, "summary", Call1(llm, Agents.Summarizer, extraction), StrOf(extraction), judge)
  }

  method SummarizationNode(state: WorkflowState.AgentState, llm: Agents.Llm, judge: Judge.JudgeLlm) returns (r: Outcome<PyDict>)
    modifies state
    ensures NodeStep(r, state.fields) == SummarizationStep(old(state.fields), llm, judge)
  {
    var extraction := Lookup(state.fields.extraction, "extraction");
    var result := Call1(llm, Agents.Summarizer, extraction);
    r := FinishNode(state, "summary", true, "summary", Some("summary"), result, StrOf(extraction), judge);
  }

  // ---------------------------------------------------------------------
  // translation_node

  /** `state["summary"] if state.get("summary") else state["raw_text"]`. */
  function TranslationText(f: StateDict): (o: Outcome<Value>)
    ensures f.summary.Some? && Truthy(f.summary.value) ==> o == Done(f.summary.value)
    ensures !(f.summary.Some? && Truthy(f.summary.value)) ==> o == Lookup(f.rawText, "raw_text")
  {
    if Truthy(GetOr(f.summary, Null)) then Done(f.summary.value) else Lookup(f.rawText, "raw_text")
  }

  /** `translation_node(state)`: the text and `state.get("source_lang")` go
      to the translator. */
  function TranslationStep(f: StateDict, llm: Agents.Llm, judge: Judge.JudgeLlm): (r: NodeStep)
    ensures TranslationText(f).Raised? ==> r == NodeStep(Raised(KeyError("raw_text")), f)
    ensures TranslationText(f).Done? ==>
      && Updates(f, r, "translation", true)
      && Agents.Run(llm, Agents.Translator, [TranslationText(f).value, GetOr(f.sourceLang, Null)], []).Done?
      && Get(r.result.value, "translation")
         == Some(Agents.Run(llm, Agents.Translator, [TranslationText(f).value, GetOr(f.sourceLang, Null)], []).value)
  {
    var text := TranslationText(f);
    var sourceLang := GetOr(f.sourceLang, Null);
    Agents.TwoPositionalBinds(llm, Agents.Translator, if text.Done? then text.value else Null, sourceLang);
    Finish(f, "translation", true, "translation", Call2(llm, Agents.Translator, text, Done(sourceLang)), text, judge)
  }

  method TranslationNode(state: WorkflowState.AgentState, llm: Agents.Llm, judge: Judge.JudgeLlm) returns (r: Outcome<PyDict>)
    modifies state
    ensures NodeStep(r, state.fields) == TranslationStep(old(state.fields), llm, judge)
  {
    var text := TranslationText(state.fields);
    var translation := Call2(llm, Agents.Translator, text, Done(GetOr(state.fields.sourceLang, Null)));
    r := FinishNode(state, "translation", true, "translation", Some("translation"), translation, text, judge);
  }

  /** A state whose `source_lang` is `"ar"` gets the text back with a note,
      whatever the LLM would say. */
  lemma TranslationArabic(f: StateDict, llm: Agents.Llm, judge: Judge.JudgeLlm)
    requires TranslationText(f).Done? && f.sourceLang == Some(Str("ar"))
    ensures Get(TranslationStep(f, llm, judge).result.value, "translation")
            == Some(Str("Note: Content is already in Arabic. Original: " + Repr(TranslationText(f).value)))
  {
    Agents.TranslatorArabicPositional(llm, TranslationText(f).value);
  }

  // ---------------------------------------------------------------------
  // recommendation_node

  /** `state.get("raw_text") or state.get("extraction") or state.get("analysis") or ""`. */
  function RecommendationInput(f: StateDict): Value {
    FirstTruthy([GetOr(f.rawText, Null), GetOr(f.extraction, Null), GetOr(f.analysis, Null)], Str(""))
  }

  /** `recommendation_node(state)`, as written: `run` is given the input and
      the user request. */
  function RecommendationStep(f: StateDict, llm: Agents.Llm, judge: Judge.JudgeLlm): (r: NodeStep)
    ensures r.result.Raised? ==> r.after == f
    ensures r.result.Done? ==> Updates(f, r, "recommendation", true)
  {
    var input := RecommendationInput(f);
    var userRequest := GetOr(f.userRequest, Str(""));
    Finish(f, "recommendation", true, "recommendation",
           Agents.Run(llm, Agents.Recommender, [input, userRequest], []),
           Plus(Plus(Done(input), Done(Str(" | "))), Done(userRequest)), judge)
  }

  method RecommendationNode(state: WorkflowState.AgentState, llm: Agents.Llm, judge: Judge.JudgeLlm) returns (r: Outcome<PyDict>)
    modifies state
    ensures NodeStep(r, state.fields) == RecommendationStep(old(state.fields), llm, judge)
  {
    var input := RecommendationInput(state.fields);
    var userRequest := GetOr(state.fields.userRequest, Str(""));
    var recommendations := Agents.Run(llm, Agents.Recommender, [input, userRequest], []);
    var context := Plus(Plus(Done(input), Done(Str(" | "))), Done(userRequest));
    r := FinishNode(state, "recommendation", true, "recommendation", Some("recommendation"), recommendations, context, judge);
  }

  /** `RecommenderAgent.run` takes one argument, so the node always raises
      `TypeError` before the judge runs, and the state is left as it was. */
  lemma RecommendationNodeRaises(f: StateDict, llm: Agents.Llm, judge: Judge.JudgeLlm)
    ensures RecommendationStep(f, llm, judge)
            == NodeStep(Raised(Agents.TypeError("RecommenderAgent.run" + "() takes 2 positional arguments but 3 were given")), f)
  {
    var args := [RecommendationInput(f), GetOr(f.userRequest, Str(""))];
    Agents.TwoPositionalRaises(llm, Agents.Recommender, args[0], args[1]);
    Agents.TooManyArgsOne(Agents.SignatureOf(Agents.Recommender));
    assert Agents.Run(llm, Agents.Recommender, args, [])
           == Raised(Agents.TypeError("RecommenderAgent.run" + "() takes 2 positional arguments but 3 were given"));
  }

  // ---------------------------------------------------------------------
  // copywriter_node

  /** `state.get("raw_text") or str(state.get("extraction", ""))`. */
  function CopywriterBrief(f: StateDict): Value {
    FirstTruthy([GetOr(f.rawText, Null)], Str(Repr(GetOr(f.extraction, Str("")))))
  }

  /** `copywriter_node(state)`, as written: `run` is given the brief and the
      user request. */
  function CopywriterStep(f: StateDict, llm: Agents.Llm, judge: Judge.JudgeLlm): (r: NodeStep)
    ensures r.result.Raised? ==> r.after == f
    ensures r.result.Done? ==> Updates(f, r, "copywriting", true)
  {
    var brief := CopywriterBrief(f);
    var userRequest := GetOr(f.userRequest, Str(""));
    Finish(f, "copywriting", true, "copywriter",
           Agents.Run(llm, Agents.Copywriter, [Str(Repr(brief)), userRequest], []),
           Plus(Plus(Done(brief), Done(Str(" | "))), Done(userRequest)), judge)
  }

  method CopywriterNode(state: WorkflowState.AgentState, llm: Agents.Llm, judge: Judge.JudgeLlm) returns (r: Outcome<PyDict>)
    modifies state
    ensures NodeStep(r, state.fields) == CopywriterStep(old(state.fields), llm, judge)
  {
    var brief := CopywriterBrief(state.fields);
    var userRequest := GetOr(state.fields.userRequest, Str(""));
    var copy := Agents.Run(llm, Agents.Copywriter, [Str(Repr(brief)), userRequest], []);
    var context := Plus(Plus(Done(brief), Done(Str(" | "))), Done(userRequest));
    r := FinishNode(state, "copywriting", true, "copywriter", Some("copywriter"), copy, context, judge);
  }

  /** `CopywriterAgent.run` takes one argument, so the node always raises
      `TypeError` and the state is left as it was. */
  lemma CopywriterNodeRaises(f: StateDict, llm: Agents.Llm, judge: Judge.JudgeLlm)
    ensures CopywriterStep(f, llm, judge)
            == NodeStep(Raised(Agents.TypeError("CopywriterAgent.run" + "() takes 2 positional arguments but 3 were given")), f)
  {
    var args := [Str(Repr(CopywriterBrief(f))), GetOr(f.userRequest, Str(""))];
    Agents.TwoPositionalRaises(llm, Agents.Copywriter, args[0], args[1]);
    Agents.TooManyArgsOne(Agents.SignatureOf(Agents.Copywriter));
    assert Agents.Run(llm, Agents.Copywriter, args, [])
           == Raised(Agents.TypeError("CopywriterAgent.run" + "() takes 2 positional arguments but 3 were given"));
  }

  // ---------------------------------------------------------------------
  // ideation_node

  /** `state.get("extraction") or state.get("raw_text") or ""`. */
  function IdeationInput(f: StateDict): Value {
    FirstTruthy([GetOr(f.extraction, Null), GetOr(f.rawText, Null)], Str(""))
  }

  /** `ideation_node(state)`: it never raises. */
  function IdeationStep(f: StateDict, llm: Agents.Llm, judge: Judge.JudgeLlm): (r: NodeStep)
    ensures Updates(f, r, "ideation", true)
    ensures Agents.Run(llm, Agents.Ideation, [IdeationInput(f)], []).Done?
    ensures Get(r.result.value, "ideation") == Some(Agents.Run(llm, Agents.Ideation, [IdeationInput(f)], []).value)
  {
    var input := IdeationInput(f);
    Agents.OnePositionalBinds(llm, Agents.Ideation, input);
    Finish(f, "ideation", true, "ideation", Agents.Run(llm, Agents.Ideation, [input], []), Done(input), judge)
  }

  method IdeationNode(state: WorkflowState.AgentState, llm: Agents.Llm, judge: Judge.JudgeLlm) returns (r: Outcome<PyDict>)
    modifies state
    ensures NodeStep(r, state.fields) == IdeationStep(old(state.fields), llm, judge)
  {
    var input := IdeationInput(state.fields);
    var ideas := Agents.Run(llm, Agents.Ideation, [input], []);
    r := FinishNode(state, "ideation", true, "ideation", Some("ideation"), ideas, Done(input), judge);
  }

  /** Which value the ideation agent reads: extraction first, then the raw
      text, then the empty string. */
  lemma IdeationInputChain(f: StateDict)
    ensures f.extraction.Some? && Truthy(f.extraction.value) ==> IdeationInput(f) == f.extraction.value
    ensures !(f.extraction.Some? && Truthy(f.extraction.value)) && f.rawText.Some? && Truthy(f.rawText.value)
            ==> IdeationInput(f) == f.rawText.value
    ensures !(f.extraction.Some? && Truthy(f.extraction.value)) && !(f.rawText.Some? && Truthy(f.rawText.value))
            ==> IdeationInput(f) == Str("")
  {
    var c := [GetOr(f.extraction, Null), GetOr(f.rawText, Null)];
    assert c[0] == GetOr(f.extraction, Null) && c[1] == GetOr(f.rawText, Null);
  }

  // ---------------------------------------------------------------------
  // compliance_node

  /** `state.get("copywriting") or state.get("summary") or str(state.get("extraction", ""))`. */
  function ComplianceInput(f: StateDict): Value {
    FirstTruthy([GetOr(f.copywriting, Null), GetOr(f.summary, Null)], Str(Repr(GetOr(f.extraction, Str("")))))
  }

  /** `compliance_node(state)`: the deterministic checker's report is the
      `compliance` field; a text that is not a `str` (a dict stored under
      `summary`, say) raises `AttributeError`. */
  function ComplianceStep(f: StateDict, judge: Judge.JudgeLlm): (r: NodeStep)
    ensures !ComplianceInput(f).Str? ==> r.result.Raised? && r.result.exc.kind == "AttributeError" && r.after == f
    ensures ComplianceInput(f).Str? ==>
      && Updates(f, r, "compliance", true)
      && Get(r.result.value, "compliance") == Some(Compliance.ReportValue(Compliance.Check(ComplianceInput(f).s)))
  {
    var toCheck := ComplianceInput(f);
    Finish(f, "compliance", true, "compliance", Compliance.RunOn(toCheck), Done(toCheck), judge)
  }

  method ComplianceNode(state: WorkflowState.AgentState, judge: Judge.JudgeLlm) returns (r: Outcome<PyDict>)
    modifies state
    ensures NodeStep(r, state.fields) == ComplianceStep(old(state.fields), judge)
  {
    var toCheck := ComplianceInput(state.fields);
    var report: Outcome<Value>;
    if toCheck.Str? {
      var checked := Compliance.Run(toCheck.s);
      report := Done(Compliance.ReportValue(checked));
    } else {
      report := Compliance.RunOn(toCheck);
    }
    // The judge is shown `str(report)`, which renders as the report itself.
    r := FinishNode(state, "compliance", true, "compliance", Some("compliance"), report, Done(toCheck), judge);
  }

  /** With no copy and no summary, the checker reads the extraction as
      `str()` renders it. */
  lemma ComplianceReadsExtraction(f: StateDict)
    requires f.copywriting.None? && f.summary.None?
    ensures ComplianceInput(f) == Str(Repr(GetOr(f.extraction, Str(""))))
  {
    var c := [GetOr(f.copywriting, Null), GetOr(f.summary, Null)];
    assert !Truthy(c[0]) && !Truthy(c[1]);
  }

  // ---------------------------------------------------------------------
  // extraction_node

  /** `extraction_node(state)`: no step counter in the update. */
  function ExtractionStep(f: StateDict, llm: Agents.Llm, judge: Judge.JudgeLlm): (r: NodeStep)
    ensures f.rawText.None? ==> r == NodeStep(Raised(KeyError("raw_text")), f)
    ensures f.rawText.Some? ==>
      && Updates(f, r, "extraction", false)
      && Agents.Run(llm, Agents.Extractor, [f.rawText.value], []).Done?
      && Get(r.result.value, "extraction") == Some(Agents.Run(llm, Agents.Extractor, [f.rawText.value], []).value)
  {
    Agents.OnePositionalBinds(llm, Agents.Extractor, GetOr(f.rawText, Null));
    var rawText := Lookup(f.rawText, "raw_text");
    Finish(f, "extraction", false, "extraction", Call1(llm, Agents.Extractor, rawText), rawText, judge)
  }

  method ExtractionNode(state: WorkflowState.AgentState, llm: Agents.Llm, judge: Judge.JudgeLlm) returns (r: Outcome<PyDict>)
    modifies state
    ensures NodeStep(r, state.fields) == ExtractionStep(old(state.fields), llm, judge)
  {
    var result := Call1(llm, Agents.Extractor, Lookup(state.fields.rawText, "raw_text"));
    r := FinishNode(state, "extraction", false, "extraction", Some("extraction"), result,
                    Lookup(state.fields.rawText, "raw_text"), judge);
  }

  // ---------------------------------------------------------------------
  // refiner_node

  /** `refiner_node(state)`: the refined request replaces `user_request`; no
      validator, no step counter. */
  function RefinerStep(f: StateDict, llm: Agents.Llm, judge: Judge.JudgeLlm): (r: NodeStep)
    ensures f.extraction.None? ==> r == NodeStep(Raised(KeyError("extraction")), f)
    ensures f.extraction.Some? && f.userRequest.None? ==> r == NodeStep(Raised(KeyError("user_request")), f)
    ensures f.extraction.Some? && f.userRequest.Some? && f.userRequest.value.Str? ==>
      && Updates(f, r, "user_request", false)
      && Agents.Run(llm, Agents.Refiner, [f.extraction.value, f.userRequest.value], []).Done?
      && Get(r.result.value, "user_request")
         == Some(Agents.Run(llm, Agents.Refiner, [f.extraction.value, f.userRequest.value], []).value)
  {
    Agents.TwoPositionalBinds(llm, Agents.Refiner, GetOr(f.extraction, Null), GetOr(f.userRequest, Null));
    var extraction := Lookup(f.extraction, "extraction");
    var userRequest := Lookup(f.userRequest, "user_request");
    Finish(f, "user_request", false, "refinement", Call2(llm, Agents.Refiner, extraction, userRequest),
           Plus(Plus(StrOf(extraction), Done(Str(" | "))), userRequest), judge)
  }

  method RefinerNode(state: WorkflowState.AgentState, llm: Agents.Llm, judge: Judge.JudgeLlm) returns (r: Outcome<PyDict>)
    modifies state
    ensures NodeStep(r, state.fields) == RefinerStep(old(state.fields), llm, judge)
  {
    var extraction := Lookup(state.fields.extraction, "extraction");
    var userRequest := Lookup(state.fields.userRequest, "user_request");
    var refined := Call2(llm, Agents.Refiner, extraction, userRequest);
    var context := Plus(Plus(StrOf(extraction), Done(Str(" | "))), userRequest);
    r := FinishNode(state, "user_request", false, "refinement", None, refined, context, judge);
  }

  /** A `user_request` that is not a `str` makes the judge context
      `str(extraction) + " | " + user_request` raise after the refiner ran;
      no record is appended. */
  lemma RefinerNonStringRequest(f: StateDict, llm: Agents.Llm, judge: Judge.JudgeLlm)
    requires f.extraction.Some? && f.userRequest.Some? && !f.userRequest.value.Str?
    ensures RefinerStep(f, llm, judge)
            == NodeStep(Raised(Exc("TypeError", "can only concatenate str (not \"" + TypeName(f.userRequest.value) + "\") to str")), f)
  {
    Agents.TwoPositionalBinds(llm, Agents.Refiner, f.extraction.value, f.userRequest.value);
  }
}
