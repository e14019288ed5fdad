/** `JudgeAgent.evaluate` (backend/app/agents/judge.py): the LLM call is a
    parameter; what is modelled is how its answer becomes a score record. */
module Judge {
  import opened Strings
  import opened Values

  /** The judge's LLM: the three prompt fields (agent type, input context,
      output, each already rendered with `str`) to a response or an error. */
  type JudgeLlm = (string, string, string) -> Outcome<string>

  const DefaultScore := 5
  const DefaultReasoning := "Evaluation failed to parse"

  /** The record `evaluate` returns. */
  datatype Verdict = Verdict(score: int, reasoning: string, agentType: string)

  /** The record as the dict `{"score", "reasoning", "agent_type"}`. */
  function VerdictValue(v: Verdict): (r: Value)
    ensures r.Dict? && r.entries != []
  {
    Dict([Entry("score", Int(v.score)), Entry("reasoning", Str(v.reasoning)), Entry("agent_type", Str(v.agentType))])
  }

  /** `max(1, min(10, n))`. */
  function Clamp(n: int): (r: int)
    ensures 1 <= r <= 10
    ensures 1 <= n <= 10 ==> r == n
  {
    if n < 1 then 1 else if n > 10 then 10 else n
  }

  /** The score a `SCORE:` line carries: the text after its first `:` (the
      sixth character), stripped and read with `int()`; `None` where `int()`
      raises and the bare `except` keeps the old score. */
  function ScoreOf(line: string): Option<int> {
    if StartsWith(line, "SCORE:") then ParseInt(Strip(line[6..])) else None
  }

  /** A `REASONING:` line (and not a `SCORE:` line, which is tested first):
      the stripped text after its first `:`, the tenth character. */
  function ReasoningOf(line: string): Option<string> {
    if !StartsWith(line, "SCORE:") && StartsWith(line, "REASONING:") then Some(Strip(line[10..])) else None
  }

  datatype Parse = Parse(score: int, reasoning: string)

  /** One pass of the loop body over `line`. */
  function Step(p: Parse, line: string): Parse {
    match ScoreOf(line)
    case Some(n) => Parse(Clamp(n), p.reasoning)
    case None =>
      match ReasoningOf(line)
      case Some(r) => Parse(p.score, r)
      case None => p
  }

  /** The loop over `lines` from the defaults. */
  function Fold(lines: seq<string>): Parse {
    if lines == [] then Parse(DefaultScore, DefaultReasoning)
    else Step(Fold(lines[..|lines| - 1]), lines[|lines| - 1])
  }

  /** The parse loop of `evaluate` over the stripped response's lines. */
  method ParseResponse(response: string) returns (score: int, reasoning: string)
    ensures Parse(score, reasoning) == Fold(SplitOn(Strip(response), '\n'))
  {
    var lines := SplitOn(Strip(response), '\n');
    score := DefaultScore;
    reasoning := DefaultReasoning;
    for i := 0 to |lines|
      invariant Parse(score, reasoning) == Fold(lines[..i])
    {
      assert lines[..i + 1][..i] == lines[..i];
      var line := lines[i];
      if StartsWith(line, "SCORE:") {
        var parsed := ParseInt(Strip(line[6..]));
        if parsed.Some? {
          score := parsed.value;
          score := if score < 1 then 1 else if score > 10 then 10 else score;
        }
      } else if StartsWith(line, "REASONING:") {
        reasoning := Strip(line[10..]);
      }
    }
    assert lines[..|lines|] == lines;
  }

  /** What `evaluate` returns for a given LLM answer. */
  function Evaluation(answer: Outcome<string>, agentType: string): Verdict {
    match answer
    case Raised(e) => Verdict(1, "Evaluation error: " + e.message, agentType)
    case Done(response) =>
      var p := Fold(SplitOn(Strip(response), '\n'));
      Verdict(p.score, p.reasoning, agentType)
  }

  /** `JudgeAgent().evaluate(agent_type, input_context, output)`: never raises. */
  method Evaluate(llm: JudgeLlm, agentType: string, inputContext: Value, output: Value) returns (v: Verdict)
    ensures v == Evaluation(llm(agentType, Repr(inputContext), Repr(output)), agentType)
    ensures 1 <= v.score <= 10 && v.agentType == agentType
  {
    var answer := llm(agentType, Repr(inputContext), Repr(output));
    if answer.Raised? {
      v := Verdict(1, "Evaluation error: " + answer.exc.message, agentType);
    } else {
      var score, reasoning := ParseResponse(answer.value);
      v := Verdict(score, reasoning, agentType);
      ScoreInRange(SplitOn(Strip(answer.value), '\n'));
    }
  }

  // ---------------------------------------------------------------------
  // Properties of the parse

  /** The score is always within 1..10. */
  lemma {:induction false} ScoreInRange(lines: seq<string>)
    ensures 1 <= Fold(lines).score <= 10
  {
    if lines != [] {
      ScoreInRange(lines[..|lines| - 1]);
    }
  }

  /** Every verdict has a score in 1..10 and the agent type it was asked for. */
  lemma VerdictInRange(answer: Outcome<string>, agentType: string)
    ensures 1 <= Evaluation(answer, agentType).score <= 10
    ensures Evaluation(answer, agentType).agentType == agentType
  {
    if answer.Done? {
      ScoreInRange(SplitOn(Strip(answer.value), '\n'));
    }
  }

  /** The score comes from the last line with a readable score; lines after it
      without one leave it alone. */
  lemma {:induction false} LastScoreWins(lines: seq<string>, i: int)
    requires 0 <= i < |lines| && ScoreOf(lines[i]).Some?
    requires forall j | i < j < |lines| :: ScoreOf(lines[j]).None?
    ensures Fold(lines).score == Clamp(ScoreOf(lines[i]).value)
  {
    if i < |lines| - 1 {
      var prefix := lines[..|lines| - 1];
      assert forall j | i < j < |prefix| :: prefix[j] == lines[j];
      LastScoreWins(prefix, i);
    }
  }

  /** With no readable score at all the score stays at its default of 5. */
  lemma {:induction false} NoScoreDefault(lines: seq<string>)
    requires forall j | 0 <= j < |lines| :: ScoreOf(lines[j]).None?
    ensures Fold(lines).score == DefaultScore
  {
    if lines != [] {
      var prefix := lines[..|lines| - 1];
      assert forall j | 0 <= j < |prefix| :: prefix[j] == lines[j];
      NoScoreDefault(prefix);
    }
  }

  /** The reasoning is the text of the last `REASONING:` line. */
  lemma {:induction false} LastReasoningWins(lines: seq<string>, i: int)
    requires 0 <= i < |lines| && ReasoningOf(lines[i]).Some?
    requires forall j | i < j < |lines| :: ReasoningOf(lines[j]).None?
    ensures Fold(lines).reasoning == ReasoningOf(lines[i]).value
  {
    if i < |lines| - 1 {
      var prefix := lines[..|lines| - 1];
      assert forall j | i < j < |prefix| :: prefix[j] == lines[j];
      LastReasoningWins(prefix, i);
    }
  }

  /** With no `REASONING:` line the reasoning is the parse-failure default. */
  lemma {:induction false} NoReasoningDefault(lines: seq<string>)
    requires forall j | 0 <= j < |lines| :: ReasoningOf(lines[j]).None?
    ensures Fold(lines).reasoning == DefaultReasoning
  {
    if lines != [] {
      var prefix := lines[..|lines| - 1];
      assert forall j | 0 <= j < |prefix| :: prefix[j] == lines[j];
      NoReasoningDefault(prefix);
    }
  }

  /** A well-formed two-line answer is read as given. */
  lemma WellFormedAnswer()
    ensures Evaluation(Done("SCORE: 8\nREASONING: clear"), "summary") == Verdict(8, "clear", "summary")
  {
    var l1 := "SCORE: 8";
    var l2 := "REASONING: clear";
    ExampleLines();
    ExampleScore();
    ExampleReasoning();
    assert [l1, l2][..1] == [l1];
    assert [l1][..0] == [];
  }

  lemma ExampleLines()
    ensures SplitOn(Strip("SCORE: 8\nREASONING: clear"), '\n') == ["SCORE: 8", "REASONING: clear"]
  {
    ExampleStrip();
    ExampleJoin();
    ExampleNoNewline();
    SplitOnNoSep("REASONING: clear", '\n');
    SplitOnJoin("SCORE: 8", "REASONING: clear", '\n');
  }

  lemma ExampleStrip()
    ensures Strip("SCORE: 8\nREASONING: clear") == "SCORE: 8\nREASONING: clear"
  {
    var r := "SCORE: 8\nREASONING: clear";
    assert r[0] == 'S' && r[|r| - 1] == 'r';
  }

  lemma ExampleJoin()
    ensures "SCORE: 8\nREASONING: clear" == "SCORE: 8" + ['\n'] + "REASONING: clear"
  {
  }

  lemma ExampleNoNewline()
    ensures '\n' !in "SCORE: 8" && '\n' !in "REASONING: clear"
  {
  }

  lemma ExampleScore()
    ensures ScoreOf("SCORE: 8") == Some(8)
  {
    var l1 := "SCORE: 8";
    assert l1[..6] == "SCORE:";
    assert l1[6..] == " 8";
    assert TrimLeft(" 8") == "8";
    assert TrimRight("8") == "8";
    assert DigitsValue("8") == 8 by {
      assert "8"[..0] == "";
    }
  }

  lemma ExampleReasoning()
    ensures ReasoningOf("REASONING: clear") == Some("clear")
  {
    var l2 := "REASONING: clear";
    assert l2[0] != "SCORE:"[0];
    assert l2[..10] == "REASONING:";
    assert l2[10..] == " clear";
    assert TrimLeft(" clear") == "clear";
    assert TrimRight("clear") == "clear";
  }

  lemma {:induction false} SplitOnNoSep(s: string, sep: char)
    requires sep !in s
    ensures SplitOn(s, sep) == [s]
  {
    if s != [] {
      assert s == [s[0]] + s[1..];
      SplitOnNoSep(s[1..], sep);
    }
  }

  lemma {:induction false} SplitOnJoin(a: string, b: string, sep: char)
    requires sep !in a
    ensures SplitOn(a + [sep] + b, sep) == [a] + SplitOn(b, sep)
  {
    if a == [] {
      assert a + [sep] + b == [sep] + b;
      assert ([sep] + b)[1..] == b;
    } else {
      var s := a + [sep] + b;
      assert s[0] == a[0] && s[1..] == a[1..] + [sep] + b;
      assert a == [a[0]] + a[1..];
      SplitOnJoin(a[1..], b, sep);
      assert [a[0]] + a[1..] == a;
    }
  }
}
