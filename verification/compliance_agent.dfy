/** `ComplianceAgent.run` (backend/app/agents/compliance.py): a deterministic
    keyword checker that reports issues in three groups and a three-way
    status. */
module Compliance {
  import opened Strings
  import opened Values

  const BlockKeywords: seq<string> := ["spam", "sell personal", "sell data", "harvest", "cookie stuffing"]
  const ReviewKeywords: seq<string> := ["guarantee", "risk-free", "no risk", "best ever", "unlimited"]
  const PrivacyKeywords: seq<string> := ["personal data", "ssn", "social security", "credit card", "dob", "date of birth"]

  datatype Group = Block | Privacy | Review

  /** The report `run` returns: `{"status": status, "issues": issues}`. */
  datatype Report = Report(status: string, issues: seq<string>)

  /** The issue text for keyword `kw` of group `g`. */
  function IssueLine(g: Group, kw: string): string {
    GroupPrefix(g) + (if g == Review then "contains marketing-claim '" else "contains '") + kw + "'"
  }

  function GroupPrefix(g: Group): string {
    match g
    case Block => "block: "
    case Privacy => "privacy: "
    case Review => "review: "
  }

  /** One issue per matched keyword, in keyword-list order. */
  function Lines(g: Group, matched: seq<string>): (r: seq<string>)
    ensures |r| == |matched|
    ensures forall i | 0 <= i < |r| :: r[i] == IssueLine(g, matched[i])
  {
    seq(|matched|, i requires 0 <= i < |matched| => IssueLine(g, matched[i]))
  }

  /** Some issue starts with "block". */
  predicate AnyBlock(issues: seq<string>) {
    exists i | 0 <= i < |issues| :: StartsWith(issues[i], "block")
  }

  /** The status rule: "block" when some issue starts with "block", "review"
      when there are other issues, "ok" otherwise. */
  function StatusOf(issues: seq<string>): string {
    if AnyBlock(issues) then "block"
    else if issues != [] then "review"
    else "ok"
  }

  /** What `run(content)` returns. */
  function Check(content: string): Report {
    var lower := Lower(content);
    var issues :=
      Lines(Block, KeywordsIn(BlockKeywords, lower))
      + Lines(Privacy, KeywordsIn(PrivacyKeywords, lower))
      + Lines(Review, KeywordsIn(ReviewKeywords, lower));
    Report(StatusOf(issues), issues)
  }

  /** One of the three scans of `run`: for each keyword of the group, in
      order, append an issue when it occurs in `lower`. */
  method ScanGroup(g: Group, kws: seq<string>, lower: string, issues: seq<string>) returns (out: seq<string>)
    ensures out == issues + Lines(g, KeywordsIn(kws, lower))
  {
    out := issues;
    for k := 0 to |kws|
      invariant out == issues + Lines(g, KeywordsIn(kws[..k], lower))
    {
      var step := KeywordsIn([kws[k]], lower);
      assert step == (if Contains(lower, kws[k]) then [kws[k]] else []) + KeywordsIn([], lower);
      assert kws[..k + 1] == kws[..k] + [kws[k]];
      KeywordsInConcat(kws[..k], [kws[k]], lower);
      LinesConcat(g, KeywordsIn(kws[..k], lower), step);
      if Contains(lower, kws[k]) {
        assert Lines(g, step) == [IssueLine(g, kws[k])];
        out := out + [IssueLine(g, kws[k])];
      } else {
        assert step == [];
      }
    }
    assert kws[..|kws|] == kws;
  }

  lemma LinesConcat(g: Group, a: seq<string>, b: seq<string>)
    ensures Lines(g, a + b) == Lines(g, a) + Lines(g, b)
  {
  }

  /** `any(i.startswith("block") for i in issues)`. */
  method HasBlockIssue(issues: seq<string>) returns (found: bool)
    ensures found <==> AnyBlock(issues)
  {
    found := false;
    for i := 0 to |issues|
      invariant found <==> AnyBlock(issues[..i])
    {
      AnyBlockConcat(issues[..i], [issues[i]]);
      assert issues[..i + 1] == issues[..i] + [issues[i]];
      assert AnyBlock([issues[i]]) <==> StartsWith(issues[i], "block") by {
        assert [issues[i]][0] == issues[i];
      }
      if StartsWith(issues[i], "block") {
        found := true;
      }
    }
    assert issues[..|issues|] == issues;
  }

  /** `ComplianceAgent().run(content)`: three scans append issues, then the
      status is chosen from them. */
  method Run(content: string) returns (report: Report)
    ensures report == Check(content)
  {
    var lower := Lower(content);
    var issues := ScanGroup(Block, BlockKeywords, lower, []);
    issues := ScanGroup(Privacy, PrivacyKeywords, lower, issues);
    issues := ScanGroup(Review, ReviewKeywords, lower, issues);
    assert issues == Check(content).issues by {
      var b := Lines(Block, KeywordsIn(BlockKeywords, lower));
      assert [] + b == b;
    }

    var status := "ok";
    var anyBlock := HasBlockIssue(issues);
    if anyBlock {
      status := "block";
    } else if issues != [] {
      status := "review";
    }
    report := Report(status, issues);
  }

  // ---------------------------------------------------------------------
  // Properties of the check

  lemma IssueLinePrefix(g: Group, kw: string)
    ensures StartsWith(IssueLine(g, kw), GroupPrefix(g))
    ensures StartsWith(IssueLine(g, kw), "block") <==> g == Block
  {
    var line := IssueLine(g, kw);
    var p := GroupPrefix(g);
    assert line == p + line[|p|..];
    assert line[0] == p[0];
  }

  /** A keyword of one of the lists occurs in the lower-cased text. */
  predicate Mentions(kws: seq<string>, content: string) {
    exists kw | kw in kws :: Contains(Lower(content), kw)
  }

  lemma LinesBlockIff(g: Group, matched: seq<string>)
    ensures AnyBlock(Lines(g, matched)) <==> g == Block && matched != []
  {
    var ls := Lines(g, matched);
    if matched != [] {
      IssueLinePrefix(g, matched[0]);
    }
    forall i | 0 <= i < |ls|
      ensures StartsWith(ls[i], "block") <==> g == Block
    {
      IssueLinePrefix(g, matched[i]);
    }
  }

  lemma AnyBlockConcat(x: seq<string>, y: seq<string>)
    ensures AnyBlock(x + y) <==> AnyBlock(x) || AnyBlock(y)
  {
    if AnyBlock(x + y) {
      var i :| 0 <= i < |x + y| && StartsWith((x + y)[i], "block");
      if i >= |x| {
        assert y[i - |x|] == (x + y)[i];
      }
    }
    if AnyBlock(y) {
      var i :| 0 <= i < |y| && StartsWith(y[i], "block");
      assert (x + y)[i + |x|] == y[i];
    }
    if AnyBlock(x) {
      var i :| 0 <= i < |x| && StartsWith(x[i], "block");
      assert (x + y)[i] == x[i];
    }
  }

  /** The status is "block" exactly when a block keyword occurs. */
  lemma StatusBlockIff(content: string)
    ensures Check(content).status == "block" <==> Mentions(BlockKeywords, content)
  {
    var lower := Lower(content);
    var b := Lines(Block, KeywordsIn(BlockKeywords, lower));
    var p := Lines(Privacy, KeywordsIn(PrivacyKeywords, lower));
    var r := Lines(Review, KeywordsIn(ReviewKeywords, lower));
    LinesBlockIff(Block, KeywordsIn(BlockKeywords, lower));
    LinesBlockIff(Privacy, KeywordsIn(PrivacyKeywords, lower));
    LinesBlockIff(Review, KeywordsIn(ReviewKeywords, lower));
    AnyBlockConcat(b, p);
    AnyBlockConcat(b + p, r);
    LinesEmptyIff(Block, BlockKeywords, content);
  }

  lemma LinesEmptyIff(g: Group, kws: seq<string>, content: string)
    ensures Lines(g, KeywordsIn(kws, Lower(content))) == [] <==> !Mentions(kws, content)
  {
    var m := KeywordsIn(kws, Lower(content));
    if m != [] {
      assert m[0] in m;
    }
    if Mentions(kws, content) {
      var kw :| kw in kws && Contains(Lower(content), kw);
      KeywordsInComplete(kws, Lower(content), kw);
    }
  }

  /** The status is "ok" exactly when no keyword of any list occurs. */
  lemma StatusOkIff(content: string)
    ensures Check(content).status == "ok" <==>
      !Mentions(BlockKeywords, content) && !Mentions(PrivacyKeywords, content) && !Mentions(ReviewKeywords, content)
  {
    StatusBlockIff(content);
    LinesEmptyIff(Block, BlockKeywords, content);
    LinesEmptyIff(Privacy, PrivacyKeywords, content);
    LinesEmptyIff(Review, ReviewKeywords, content);
  }

  /** The status is "review" exactly when no block keyword but some privacy
      or review keyword occurs. */
  lemma StatusReviewIff(content: string)
    ensures Check(content).status == "review" <==>
      !Mentions(BlockKeywords, content) && (Mentions(PrivacyKeywords, content) || Mentions(ReviewKeywords, content))
  {
    StatusBlockIff(content);
    StatusOkIff(content);
    LinesEmptyIff(Block, BlockKeywords, content);
  }

  /** The status is always one of the three values. */
  lemma StatusIsKnown(content: string)
    ensures Check(content).status in {"ok", "review", "block"}
  {
  }

  /** Each keyword contributes at most one issue: 5 + 6 + 5 at most. */
  lemma IssueCountBound(content: string)
    ensures |Check(content).issues| <= 16
  {
  }

  /** Every issue carries the prefix of its group, and the groups come in the
      order block, privacy, review. */
  lemma IssuePrefixes(content: string)
    ensures var lower := Lower(content);
      var nb := |KeywordsIn(BlockKeywords, lower)|;
      var np := |KeywordsIn(PrivacyKeywords, lower)|;
      var issues := Check(content).issues;
      && (forall i | 0 <= i < nb :: StartsWith(issues[i], "block: "))
      && (forall i | nb <= i < nb + np :: StartsWith(issues[i], "privacy: "))
      && (forall i | nb + np <= i < |issues| :: StartsWith(issues[i], "review: "))
  {
    var lower := Lower(content);
    var mb := KeywordsIn(BlockKeywords, lower);
    var mp := KeywordsIn(PrivacyKeywords, lower);
    var mr := KeywordsIn(ReviewKeywords, lower);
    var issues := Check(content).issues;
    forall i | 0 <= i < |issues|
      ensures i < |mb| ==> StartsWith(issues[i], "block: ")
      ensures |mb| <= i < |mb| + |mp| ==> StartsWith(issues[i], "privacy: ")
      ensures |mb| + |mp| <= i ==> StartsWith(issues[i], "review: ")
    {
      if i < |mb| {
        IssueLinePrefix(Block, mb[i]);
      } else if i < |mb| + |mp| {
        IssueLinePrefix(Privacy, mp[i - |mb|]);
      } else {
        IssueLinePrefix(Review, mr[i - |mb| - |mp|]);
      }
    }
  }

  /** The check ignores case. */
  lemma CheckIgnoresCase(content: string)
    ensures Check(Lower(content)) == Check(content)
  {
    LowerIdempotent(content);
  }

  /** Offering to sell personal data is blocked. */
  lemma SellPersonalDataBlocked(content: string)
    requires Contains(Lower(content), "sell personal data")
    ensures Check(content).status == "block"
  {
    var t := "sell personal data";
    assert t[0..13] == "sell personal" && OccursAt(t, "sell personal", 0);
    ContainsTrans(Lower(content), t, "sell personal");
    assert BlockKeywords[1] == "sell personal";
    StatusBlockIff(content);
  }

  /** The report as the dict `run` returns. */
  function ReportValue(r: Report): (v: Value)
    ensures v.Dict? && Keys(v.entries) == ["status", "issues"]
    ensures Get(v.entries, "status") == Some(Str(r.status))
    ensures Get(v.entries, "issues").Some? && Get(v.entries, "issues").value.List?
    ensures var items := Get(v.entries, "issues").value.items;
      |items| == |r.issues| && forall i | 0 <= i < |items| :: items[i] == Str(r.issues[i])
  {
    Dict([Entry("status", Str(r.status)),
          Entry("issues", List(seq(|r.issues|, i requires 0 <= i < |r.issues| => Str(r.issues[i]))))])
  }

  /** `run(v)` on an arbitrary value: `v.lower()` raises `AttributeError` unless
      `v` is a string. */
  function RunOn(v: Value): (o: Outcome<Value>)
    ensures v.Str? <==> o.Done?
    ensures v.Str? ==> o.value == ReportValue(Check(v.s))
  {
    if v.Str? then Done(ReportValue(Check(v.s)))
    else Raised(Exc("AttributeError", "'" + TypeName(v) + "' object has no attribute 'lower'"))
  }
}
