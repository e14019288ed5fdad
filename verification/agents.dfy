/** The LLM-backed agents (the classes under backend/app/agents) as the nodes see them:
    each `run` method has a fixed Python parameter list, binds its arguments
    the way Python does, and then asks an LLM, which is a parameter of the
    model. Every agent catches its own LLM errors and returns a fallback. */
module Agents {
  import opened Strings
  import opened Values

  datatype Kind = Extractor | Refiner | Summarizer | Translator | Analyzer | Recommender | Ideation | Copywriter

  /** The parameters of a bound `run` method (without `self`): the first
      `required` have no default, the rest default to `None`. */
  datatype Signature = Signature(owner: string, params: seq<string>, required: nat)

  /** A keyword argument `name=value`. */
  datatype KwArg = KwArg(name: string, value: Value)

  /** The `run` signatures of the agent classes. */
  function SignatureOf(k: Kind): (s: Signature)
    ensures 1 <= s.required <= |s.params| <= 2
  {
    match k
    case Extractor => Signature("ExtractorAgent.run", ["text"], 1)
    case Refiner => Signature("RefinerAgent.run", ["extraction", "user_request"], 2)
    case Summarizer => Signature("SummarizerAgent.run", ["extraction_data"], 1)
    case Translator => Signature("TranslatorAgent.run", ["content", "source_lang"], 1)
    case Analyzer => Signature("AnalyzerAgent.run", ["content"], 1)
    case Recommender => Signature("RecommenderAgent.run", ["content"], 1)
    case Ideation => Signature("IdeationAgent.run", ["content"], 1)
    case Copywriter => Signature("CopywriterAgent.run", ["brief"], 1)
  }

  /** The answer of an agent's LLM chain to the bound arguments. */
  type Llm = (Kind, map<string, Value>) -> Outcome<Value>

  function TypeError(msg: string): Exc {
    Exc("TypeError", msg)
  }

  /** The positional arguments bound to the leading parameters. */
  function BindPositional(params: seq<string>, positional: seq<Value>): (m: map<string, Value>)
    ensures forall p | p in m :: p in params
    ensures forall i | 0 <= i < |params| && i < |positional| :: params[i] in m
  {
    if params == [] || positional == [] then map[]
    else BindPositional(params[1..], positional[1..])[params[0] := positional[0]]
  }

  /** The keyword arguments, in order: an unknown name or a name already
      bound raises `TypeError`. */
  function BindKeywords(sig: Signature, bound: map<string, Value>, keywords: seq<KwArg>): (o: Outcome<map<string, Value>>)
    decreases |keywords|
    ensures o.Done? ==> bound.Keys <= o.value.Keys
    ensures o.Done? ==> forall kw | kw in keywords :: kw.name in o.value && kw.name in sig.params
  {
    if keywords == [] then Done(bound)
    else
      var kw := keywords[0];
      if kw.name !in sig.params then Raised(TypeError(sig.owner + "() got an unexpected keyword argument '" + kw.name + "'"))
      else if kw.name in bound then Raised(TypeError(sig.owner + "() got multiple values for argument '" + kw.name + "'"))
      else BindKeywords(sig, bound[kw.name := kw.value], keywords[1..])
  }

  /** The required parameters still unbound, in order. */
  function Missing(params: seq<string>, bound: map<string, Value>): seq<string> {
    if params == [] then []
    else (if params[0] in bound then [] else [params[0]]) + Missing(params[1..], bound)
  }

  /** CPython's list of missing names: `'a'`, `'a' and 'b'`, `'a', 'b', and 'c'`. */
  function NameList(names: seq<string>): string {
    if |names| == 0 then ""
    else if |names| == 1 then "'" + names[0] + "'"
    else if |names| == 2 then "'" + names[0] + "' and '" + names[1] + "'"
    else SerialList(names)
  }

  function SerialList(names: seq<string>): string
    requires |names| >= 1
  {
    if |names| == 1 then "and '" + names[0] + "'" else "'" + names[0] + "', " + SerialList(names[1..])
  }

  function PositionalCount(n: int): string {
    IntToString(n) + (if n == 1 then " positional argument" else " positional arguments")
  }

  /** CPython's message for `given` positional arguments to a method that
      takes fewer (the counts include `self`). */
  function TooManyArgs(sig: Signature, given: nat): string {
    var n := |sig.params|;
    var takes := if sig.required == n then PositionalCount(n + 1)
                 else "from " + IntToString(sig.required + 1) + " to " + PositionalCount(n + 1);
    sig.owner + "() takes " + takes + " but " + IntToString(given + 1) + " were given"
  }

  /** Python's argument binding for a call of `run` on an instance. Keyword
      problems are reported first, then too many positional arguments, then
      missing ones (the order CPython checks them in). Unbound optional
      parameters take `None`. */
  function Bind(sig: Signature, positional: seq<Value>, keywords: seq<KwArg>): (o: Outcome<map<string, Value>>)
    requires sig.required <= |sig.params|
    ensures o.Done? ==> |positional| <= |sig.params|
    ensures o.Done? ==> forall p | p in sig.params :: p in o.value
  {
    var n := |sig.params|;
    match BindKeywords(sig, BindPositional(sig.params, positional), keywords)
    case Raised(e) => Raised(e)
    case Done(bound) =>
      if |positional| > n then Raised(TypeError(TooManyArgs(sig, |positional|)))
      else
        var missing := Missing(sig.params[..sig.required], bound);
        if missing != [] then
          Raised(TypeError(sig.owner + "() missing " + IntToString(|missing|) + " required "
                           + (if |missing| == 1 then "positional argument: " else "positional arguments: ") + NameList(missing)))
        else
          MissingNone(sig.params[..sig.required], bound);
          Done(map p | p in sig.params :: if p in bound then bound[p] else Null)
  }

  lemma {:induction false} MissingNone(params: seq<string>, bound: map<string, Value>)
    requires Missing(params, bound) == []
    ensures forall p | p in params :: p in bound
  {
    if params != [] {
      MissingNone(params[1..], bound);
    }
  }

  /** What a bound `run` returns. The LLM answer is used as is, except that
      the translator answers Arabic input itself and the refiner strips the
      answer; an LLM error gives the agent's fallback value. */
  function Body(llm: Llm, k: Kind, args: map<string, Value>): Value
    requires forall p | p in SignatureOf(k).params :: p in args
  {
    match k
    case Translator =>
      if args["source_lang"] == Str("ar") then Str("Note: Content is already in Arabic. Original: " + Repr(args["content"]))
      else (match llm(k, args)
            case Done(v) => v
            case Raised(e) => Str("Translation failed: " + e.message))
    case Refiner =>
      (match llm(k, args)
       case Done(Str(s)) => Str(Strip(s))
       case _ => args["user_request"])
    case Extractor =>
      (match llm(k, args)
       case Done(v) => v
       case Raised(e) => Dict([Entry("title", Str("Error")), Entry("summary", Str("Extraction failed")),
                               Entry("key_points", List([])), Entry("error_details", Str(e.message))]))
    case _ =>
      (match llm(k, args)
       case Done(v) => v
       case Raised(_) => Str(Fallback(k)))
  }

  /** The fixed text returned when the LLM fails. */
  function Fallback(k: Kind): string {
    match k
    case Summarizer => "Summarization failed."
    case Analyzer => "Strategic analysis failed."
    case Recommender => "Recommendation generation failed."
    case Ideation => "Ideation failed."
    case Copywriter => "Copy generation failed."
    case _ => ""
  }

  /** `AgentClass().run(*positional, **keywords)`: only argument binding can
      raise. */
  function Run(llm: Llm, k: Kind, positional: seq<Value>, keywords: seq<KwArg>): (o: Outcome<Value>)
    ensures o.Raised? <==> Bind(SignatureOf(k), positional, keywords).Raised?
    ensures o.Raised? ==> o.exc.kind == "TypeError"
  {
    match Bind(SignatureOf(k), positional, keywords)
    case Raised(e) =>
      BindErrorsAreTypeErrors(SignatureOf(k), positional, keywords);
      Raised(e)
    case Done(args) => Done(Body(llm, k, args))
  }

  lemma {:induction false} BindKeywordErrorsAreTypeErrors(sig: Signature, bound: map<string, Value>, keywords: seq<KwArg>)
    ensures BindKeywords(sig, bound, keywords).Raised? ==> BindKeywords(sig, bound, keywords).exc.kind == "TypeError"
    decreases |keywords|
  {
    if keywords != [] && keywords[0].name in sig.params && keywords[0].name !in bound {
      BindKeywordErrorsAreTypeErrors(sig, bound[keywords[0].name := keywords[0].value], keywords[1..]);
    }
  }

  lemma BindErrorsAreTypeErrors(sig: Signature, positional: seq<Value>, keywords: seq<KwArg>)
    requires sig.required <= |sig.params|
    ensures Bind(sig, positional, keywords).Raised? ==> Bind(sig, positional, keywords).exc.kind == "TypeError"
  {
    BindKeywordErrorsAreTypeErrors(sig, BindPositional(sig.params, positional), keywords);
  }

  // ---------------------------------------------------------------------
  // Binding steps

  lemma BindPositionalNone(params: seq<string>)
    ensures BindPositional(params, []) == map[]
  {
  }

  lemma BindPositionalOne(params: seq<string>, a: Value)
    requires |params| >= 1
    ensures BindPositional(params, [a]) == map[params[0] := a]
  {
    assert [a][1..] == [];
    BindPositionalNone(params[1..]);
  }

  lemma BindPositionalTwo(params: seq<string>, a: Value, b: Value)
    requires |params| == 2
    ensures BindPositional(params, [a, b]) == map[params[1] := b][params[0] := a]
  {
    assert [a, b][1..] == [b];
    BindPositionalOne(params[1..], b);
  }

  /** A keyword naming a free parameter is bound, and binding goes on. */
  lemma BindKeywordStep(sig: Signature, bound: map<string, Value>, kw: KwArg, rest: seq<KwArg>)
    requires kw.name in sig.params && kw.name !in bound
    ensures BindKeywords(sig, bound, [kw] + rest) == BindKeywords(sig, bound[kw.name := kw.value], rest)
  {
    assert ([kw] + rest)[0] == kw && ([kw] + rest)[1..] == rest;
  }

  lemma {:induction false} MissingEmpty(params: seq<string>, bound: map<string, Value>)
    requires forall p | p in params :: p in bound
    ensures Missing(params, bound) == []
  {
    if params != [] {
      MissingEmpty(params[1..], bound);
    }
  }

  /** Binding succeeds once the keywords bind, the positional arguments fit
      and every required parameter is bound. */
  lemma BindSucceeds(sig: Signature, positional: seq<Value>, keywords: seq<KwArg>, bound: map<string, Value>)
    requires sig.required <= |sig.params| && |positional| <= |sig.params|
    requires BindKeywords(sig, BindPositional(sig.params, positional), keywords) == Done(bound)
    requires forall i | 0 <= i < sig.required :: sig.params[i] in bound
    ensures Bind(sig, positional, keywords) == Done(map p | p in sig.params :: if p in bound then bound[p] else Null)
  {
    MissingEmpty(sig.params[..sig.required], bound);
  }

  // ---------------------------------------------------------------------
  // The calls the nodes make

  /** A one-parameter `run` given two positional arguments raises before the
      LLM is asked. */
  lemma TwoPositionalRaises(llm: Llm, k: Kind, a: Value, b: Value)
    requires |SignatureOf(k).params| == 1
    ensures Run(llm, k, [a, b], []) == Raised(TypeError(TooManyArgs(SignatureOf(k), 2)))
  {
    var sig := SignatureOf(k);
    var bound := BindPositional(sig.params, [a, b]);
    assert BindKeywords(sig, bound, []) == Done(bound);
  }

  /** The text of that error for a one-parameter method (the recommender's
      and the copywriter's `run`). */
  lemma TooManyArgsOne(sig: Signature)
    requires |sig.params| == 1 && sig.required == 1
    ensures TooManyArgs(sig, 2) == sig.owner + "() takes 2 positional arguments but 3 were given"
  {
    SmallNumerals();
    assert "() takes " + "2 positional arguments" == "() takes 2 positional arguments";
    assert "() takes 2 positional arguments" + " but " == "() takes 2 positional arguments but ";
    assert "() takes 2 positional arguments but " + "3" == "() takes 2 positional arguments but 3";
    assert "() takes 2 positional arguments but 3" + " were given" == "() takes 2 positional arguments but 3 were given";
  }

  lemma SmallNumerals()
    ensures PositionalCount(2) == "2 positional arguments"
    ensures IntToString(3) == "3"
  {
    assert NatToString(2) == "2";
    assert "2" + " positional arguments" == "2 positional arguments";
    assert NatToString(3) == "3";
  }

  /** A keyword the signature lacks raises, naming that keyword, even after
      a keyword that binds. */
  lemma UnknownKeyword(sig: Signature, first: KwArg, extra: KwArg)
    requires sig.required <= |sig.params|
    requires first.name in sig.params && extra.name !in sig.params
    ensures Bind(sig, [], [first, extra]) == Raised(TypeError(sig.owner + "() got an unexpected keyword argument '" + extra.name + "'"))
  {
    BindPositionalNone(sig.params);
    BindKeywordStep(sig, map[], first, [extra]);
    assert [first] + [extra] == [first, extra];
  }

  lemma UnexpectedKeywordRaises(llm: Llm, k: Kind, first: KwArg, extra: KwArg)
    requires first.name in SignatureOf(k).params && extra.name !in SignatureOf(k).params
    ensures Run(llm, k, [], [first, extra]) == Raised(TypeError(SignatureOf(k).owner + "() got an unexpected keyword argument '" + extra.name + "'"))
  {
    UnknownKeyword(SignatureOf(k), first, extra);
  }

  /** One positional argument binds for every agent but the refiner. */
  lemma OnePositionalBinds(llm: Llm, k: Kind, a: Value)
    requires SignatureOf(k).required == 1
    ensures Run(llm, k, [a], []).Done?
  {
    var sig := SignatureOf(k);
    BindPositionalOne(sig.params, a);
    var bound := map[sig.params[0] := a];
    assert BindKeywords(sig, bound, []) == Done(bound);
    BindSucceeds(sig, [a], [], bound);
  }

  /** Two positional arguments bind for the two-parameter agents. */
  lemma TwoPositionalBinds(llm: Llm, k: Kind, a: Value, b: Value)
    requires |SignatureOf(k).params| == 2
    ensures Run(llm, k, [a, b], []).Done?
  {
    var sig := SignatureOf(k);
    BindPositionalTwo(sig.params, a, b);
    var bound := map[sig.params[1] := b][sig.params[0] := a];
    assert BindKeywords(sig, bound, []) == Done(bound);
    BindSucceeds(sig, [a, b], [], bound);
  }

  /** The first parameter passed by keyword binds for every agent but the
      refiner. */
  lemma FirstKeywordBinds(llm: Llm, k: Kind, a: Value)
    requires SignatureOf(k).required == 1
    ensures Run(llm, k, [], [KwArg(SignatureOf(k).params[0], a)]).Done?
  {
    var sig := SignatureOf(k);
    var kw := KwArg(sig.params[0], a);
    BindPositionalNone(sig.params);
    BindKeywordStep(sig, map[], kw, []);
    assert [kw] + [] == [kw];
    var bound := map[sig.params[0] := a];
    assert BindKeywords(sig, bound, []) == Done(bound);
    BindSucceeds(sig, [], [kw], bound);
  }

  /** `content=` and `source_lang=` bind for the translator; `"ar"` takes
      the shortcut and returns the content with a note. */
  lemma TranslatorKeywords(llm: Llm, content: Value, lang: Value)
    ensures Run(llm, Translator, [], [KwArg("content", content), KwArg("source_lang", lang)])
            == Done(Body(llm, Translator, map["content" := content, "source_lang" := lang]))
  {
    var sig := SignatureOf(Translator);
    var first := KwArg("content", content);
    var second := KwArg("source_lang", lang);
    BindPositionalNone(sig.params);
    BindKeywordStep(sig, map[], first, [second]);
    assert [first] + [second] == [first, second];
    var one := map["content" := content];
    BindKeywordStep(sig, one, second, []);
    assert [second] + [] == [second];
    var bound := map["content" := content, "source_lang" := lang];
    assert one["source_lang" := lang] == bound;
    assert BindKeywords(sig, bound, []) == Done(bound);
    BindSucceeds(sig, [], [first, second], bound);
    assert (map p | p in sig.params :: if p in bound then bound[p] else Null) == bound;
  }

  /** Text declared to be Arabic is returned with a note, without an LLM call. */
  lemma TranslatorArabicShortcut(llm: Llm, content: Value)
    ensures Run(llm, Translator, [], [KwArg("content", content), KwArg("source_lang", Str("ar"))])
            == Done(Str("Note: Content is already in Arabic. Original: " + Repr(content)))
  {
    TranslatorKeywords(llm, content, Str("ar"));
  }

  /** The translation node passes `source_lang` positionally; `"ar"` takes
      the shortcut there too. */
  lemma TranslatorArabicPositional(llm: Llm, content: Value)
    ensures Run(llm, Translator, [content, Str("ar")], [])
            == Done(Str("Note: Content is already in Arabic. Original: " + Repr(content)))
  {
    var sig := SignatureOf(Translator);
    BindPositionalTwo(sig.params, content, Str("ar"));
    var bound := map["source_lang" := Str("ar")]["content" := content];
    assert BindKeywords(sig, bound, []) == Done(bound);
    BindSucceeds(sig, [content, Str("ar")], [], bound);
    assert (map p | p in sig.params :: if p in bound then bound[p] else Null) == bound;
  }

  /** A single argument for the translator leaves `source_lang` at `None`,
      so the LLM is asked. */
  lemma TranslatorDefaultsSourceLang(content: Value)
    ensures Bind(SignatureOf(Translator), [content], []) == Done(map["content" := content, "source_lang" := Null])
  {
    var sig := SignatureOf(Translator);
    BindPositionalOne(sig.params, content);
    var bound := map["content" := content];
    assert BindKeywords(sig, bound, []) == Done(bound);
    BindSucceeds(sig, [content], [], bound);
    assert (map p | p in sig.params :: if p in bound then bound[p] else Null) == map["content" := content, "source_lang" := Null];
  }
}
