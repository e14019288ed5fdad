/** `RouterAgent.decide` (backend/app/agents/router.py): the LLM is a
    parameter; what is modelled is how its answer is narrowed to one of four
    agent names. */
module RouterAgent {
  import opened Strings
  import opened Values

  /** The router's LLM: the rendered user request to an answer or an error. */
  type RouterLlm = string -> Outcome<string>

  const ValidSteps: seq<string> := ["summarize", "translate", "analyze", "recommend"]

  /** The first whitelist word, in whitelist order, found in `decision`. */
  function FirstValidStep(steps: seq<string>, decision: string): (r: Option<string>)
    ensures r.Some? ==> r.value in steps && Contains(decision, r.value)
    ensures r.None? <==> forall s | s in steps :: !Contains(decision, s)
  {
    if steps == [] then None
    else if Contains(decision, steps[0]) then Some(steps[0])
    else FirstValidStep(steps[1..], decision)
  }

  /** The whitelist search over the normalised answer, with `"summarize"` when
      nothing matches. */
  function Choose(decision: string): (r: string)
    ensures r in ValidSteps
    ensures (forall s | s in ValidSteps :: !Contains(decision, s)) ==> r == "summarize"
  {
    match FirstValidStep(ValidSteps, decision)
    case Some(s) => s
    case None => "summarize"
  }

  /** `RouterAgent().decide(user_request)`: an LLM error also yields
      `"summarize"`. */
  function Decide(llm: RouterLlm, userRequest: Value): (r: string)
    ensures r in ValidSteps
    ensures llm(Repr(userRequest)).Raised? ==> r == "summarize"
  {
    match llm(Repr(userRequest))
    case Raised(_) => "summarize"
    case Done(answer) => Choose(Lower(Strip(answer)))
  }

  /** Whitelist order wins: the chosen word is the first whitelist entry that
      occurs, wherever the others occur in the answer. */
  lemma {:induction false} WhitelistOrderWins(steps: seq<string>, decision: string, i: int)
    requires 0 <= i < |steps| && Contains(decision, steps[i])
    requires forall j | 0 <= j < i :: !Contains(decision, steps[j])
    ensures FirstValidStep(steps, decision) == Some(steps[i])
  {
    if i > 0 {
      assert forall j | 0 <= j < i - 1 :: steps[1..][j] == steps[j + 1];
      WhitelistOrderWins(steps[1..], decision, i - 1);
    }
  }

  /** An answer naming both "recommend" and "summarize" routes to
      "summarize", which comes first in the whitelist. */
  lemma SummarizeBeforeRecommend(decision: string)
    requires Contains(decision, "recommend") && Contains(decision, "summarize")
    ensures Choose(decision) == "summarize"
  {
    WhitelistOrderWins(ValidSteps, decision, 0);
  }

  /** The answer's case and surrounding whitespace do not matter. */
  lemma DecideIgnoresCase(answer: string)
    ensures Choose(Lower(Strip(Lower(answer)))) == Choose(Lower(Strip(answer)))
  {
    StripLower(answer);
    LowerIdempotent(Strip(answer));
  }
}
