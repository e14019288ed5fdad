/** `OutputValidator` (backend/app/utils/output_validator.py): shape and
    keyword checks on agent outputs, one per agent, and the table that picks
    the check by agent name. */
module OutputValidator {
  import opened Strings
  import opened Values
  import Compliance

  const ExtractionKeys: seq<string> :=
    ["CampaignName", "Brand", "TargetAudience", "CoreMessage", "ActionableDataPoints", "CallToAction", "AdvertiserContact"]

  const AnalysisKeywords: seq<string> :=
    ["missing", "unclear", "recommendation", "risk", "opportunity", "strength", "weakness", "threat", "analysis", "insight"]

  /** The class `[-â€¢*]` as the file spells it: a bullet that was saved as the
      three characters U+00E2, U+20AC, U+00A2, plus `-` and `*`. */
  const BulletChars: set<char> := {'-', '\U{e2}', '\U{20ac}', '\U{a2}', '*'}

  /** The names `validate_agent_output` has a validator for. */
  const ValidatorNames: set<string> :=
    {"extraction", "summary", "analysis", "recommendation", "ideation", "copywriter", "translation", "compliance"}

  /** `any(key in d for key in keys)`. */
  function AnyKey(keys: seq<string>, d: PyDict): (r: bool)
    ensures r <==> exists k | k in keys :: HasKey(d, k)
  {
    if keys == [] then false
    else HasKey(d, keys[0]) || AnyKey(keys[1..], d)
  }

  /** `validate_extraction`: a string longer than 50 characters once stripped,
      or a dict with at least one of the seven brief fields. */
  function ValidateExtraction(v: Value): (r: bool)
    ensures v.Str? ==> (r <==> |Strip(v.s)| > 50)
    ensures v.Dict? ==> (r <==> exists k | k in ExtractionKeys :: HasKey(v.entries, k))
    ensures !v.Str? && !v.Dict? ==> !r
  {
    match v
    case Str(s) => |Strip(s)| > 50
    case Dict(d) => AnyKey(ExtractionKeys, d)
    case _ => false
  }

  /** `validate_summary`: a string of at least 10 characters once stripped and
      under 1000 characters as given. */
  function ValidateSummary(v: Value): (r: bool)
    ensures r <==> v.Str? && 10 <= |Strip(v.s)| && |v.s| < 1000
  {
    if !v.Str? || |Strip(v.s)| < 10 then false
    else |v.s| < 1000
  }

  /** `validate_analysis`: a string of at least 50 characters once stripped
      that mentions one of the ten analysis keywords in any case. */
  function ValidateAnalysis(v: Value): (r: bool)
    ensures r <==> v.Str? && |Strip(v.s)| >= 50 && exists kw | kw in AnalysisKeywords :: Contains(Lower(v.s), kw)
  {
    if !v.Str? then false
    else if |Strip(v.s)| < 50 then false
    else
      var found := KeywordsIn(AnalysisKeywords, Lower(v.s));
      if found != [] then
        assert found[0] in found;
        true
      else
        assert forall kw | kw in AnalysisKeywords :: !Contains(Lower(v.s), kw) by {
          forall kw | kw in AnalysisKeywords
            ensures !Contains(Lower(v.s), kw)
          {
            if Contains(Lower(v.s), kw) {
              KeywordsInComplete(AnalysisKeywords, Lower(v.s), kw);
            }
          }
        }
        false
  }

  /** A digit followed by `.` or `)` ends at position `j` of `s`: where
      `\d+[.)]` can match. */
  predicate NumberMarkAt(s: string, j: int) {
    1 <= j < |s| && IsDigit(s[j - 1]) && (s[j] == '.' || s[j] == ')')
  }

  /** `re.search(r'\d+[.)]\s*', s)` finds a match. */
  predicate HasNumberMark(s: string) {
    exists j | 1 <= j < |s| :: NumberMarkAt(s, j)
  }

  /** `len(re.findall(r'\d+[.)]\s*', s))`: every match is a run of digits
      directly followed by `.` or `)`, so there is one match per such ending. */
  function NumberMarks(s: string): nat {
    if |s| < 2 then 0
    else (if NumberMarkAt(s, 1) then 1 else 0) + NumberMarks(s[1..])
  }

  /** `re.search(r'[-â€¢*]\s+', s)` finds a match. */
  predicate HasBullet(s: string) {
    exists j | 0 <= j < |s| - 1 :: s[j] in BulletChars && IsSpace(s[j + 1])
  }

  /** `validate_recommendation`: a string of at least 20 characters once
      stripped with a numbered item, a bullet, or the word "recommendation". */
  function ValidateRecommendation(v: Value): (r: bool)
    ensures r ==> v.Str? && |Strip(v.s)| >= 20
    ensures r ==> HasNumberMark(v.s) || HasBullet(v.s) || Contains(Lower(v.s), "recommendation")
    ensures v.Str? && |Strip(v.s)| >= 20 && HasNumberMark(v.s) ==> r
    ensures v.Str? && |Strip(v.s)| >= 20 && Contains(Lower(v.s), "recommendation") ==> r
    ensures v.Str? && |Strip(v.s)| >= 20 && HasBullet(v.s) ==> r
  {
    if !v.Str? then false
    else if |Strip(v.s)| < 20 then false
    else HasNumberMark(v.s) || HasBullet(v.s) || Contains(Lower(v.s), "recommendation")
  }

  /** A line on which `\*\*.*\*\*` matches: two `**` that do not overlap. With
      `.` stopping at a newline, the greedy match takes the first and the last
      `**` of the line, so each line gives at most one match. */
  predicate TitleLine(l: string) {
    exists a, b | 0 <= a && a + 2 <= b <= |l| - 2 :: OccursAt(l, "**", a) && OccursAt(l, "**", b)
  }

  function CountTitleLines(lines: seq<string>): (n: nat)
    ensures n <= |lines|
  {
    if lines == [] then 0
    else (if TitleLine(lines[0]) then 1 else 0) + CountTitleLines(lines[1..])
  }

  /** `len(re.findall(r'\*\*.*\*\*', s))`. */
  function TitleMarks(s: string): nat {
    CountTitleLines(SplitOn(s, '\n'))
  }

  /** `validate_ideation`: a string of at least 50 characters once stripped
      with two numbered items or two bold titles. */
  function ValidateIdeation(v: Value): (r: bool)
    ensures r <==> v.Str? && |Strip(v.s)| >= 50 && (NumberMarks(v.s) >= 2 || TitleMarks(v.s) >= 2)
  {
    if !v.Str? then false
    else if |Strip(v.s)| < 50 then false
    else NumberMarks(v.s) >= 2 || TitleMarks(v.s) >= 2
  }

  /** `has_variants + has_subject + has_body + has_cta` on the lower-cased text. */
  function CopyMarkers(lower: string): (n: nat)
    ensures n <= 4
  {
    (if Contains(lower, "variant") then 1 else 0)
    + (if Contains(lower, "subject") then 1 else 0)
    + (if Contains(lower, "body") then 1 else 0)
    + (if Contains(lower, "cta") || Contains(lower, "call to action") then 1 else 0)
  }

  /** `validate_copywriter`: a string of at least 30 characters once stripped
      with at least two of the four copy markers. */
  function ValidateCopywriter(v: Value): (r: bool)
    ensures r <==> v.Str? && |Strip(v.s)| >= 30 && CopyMarkers(Lower(v.s)) >= 2
  {
    if !v.Str? then false
    else if |Strip(v.s)| < 30 then false
    else CopyMarkers(Lower(v.s)) >= 2
  }

  /** A character of the Arabic block U+0600..U+06FF. */
  predicate IsArabic(c: char) {
    '\U{600}' <= c <= '\U{6ff}'
  }

  /** `validate_translation`: a string of at least 10 characters once stripped
      holding an Arabic character. */
  function ValidateTranslation(v: Value): (r: bool)
    ensures r <==> v.Str? && |Strip(v.s)| >= 10 && exists i | 0 <= i < |v.s| :: IsArabic(v.s[i])
  {
    if !v.Str? then false
    else if |Strip(v.s)| < 10 then false
    else exists i | 0 <= i < |v.s| :: IsArabic(v.s[i])
  }

  /** `x in {...}` with a set of strings: unhashable values raise. */
  function InStringSet(x: Value, options: set<string>): (o: Outcome<bool>)
    ensures o.Raised? <==> x.List? || x.Dict?
    ensures o.Done? ==> (o.value <==> x.Str? && x.s in options)
  {
    match x
    case List(_) => Raised(Exc("TypeError", "unhashable type: 'list'"))
    case Dict(_) => Raised(Exc("TypeError", "unhashable type: 'dict'"))
    case Str(s) => Done(s in options)
    case _ => Done(false)
  }

  /** One entry of `issues` has the issue schema: a dict with a known
      `severity` and string `match` and `description`. */
  function CheckIssue(issue: Value): Outcome<bool> {
    if !issue.Dict? then Done(false)
    else if !(HasKey(issue.entries, "severity") && HasKey(issue.entries, "match") && HasKey(issue.entries, "description")) then Done(false)
    else
      HasKeyGet(issue.entries, "severity");
      HasKeyGet(issue.entries, "match");
      HasKeyGet(issue.entries, "description");
      var sev := InStringSet(Get(issue.entries, "severity").value, {"block", "review", "privacy"});
      if sev.Raised? then Raised(sev.exc)
      else if !sev.value then Done(false)
      else Done(Get(issue.entries, "match").value.Str? && Get(issue.entries, "description").value.Str?)
  }

  /** The `for issue in issues` scan: the first failing issue decides. */
  function CheckIssues(issues: seq<Value>): (o: Outcome<bool>)
    ensures o == Done(true) <==> forall i | 0 <= i < |issues| :: CheckIssue(issues[i]) == Done(true)
  {
    if issues == [] then Done(true)
    else
      var first := CheckIssue(issues[0]);
      if first != Done(true) then first
      else
        var rest := CheckIssues(issues[1..]);
        assert forall i | 1 <= i < |issues| :: issues[i] == issues[1..][i - 1];
        rest
  }

  /** `validate_compliance`: the full report schema with `status`, `issues`,
      `issue_count` equal to the number of issues and a non-negative
      `risk_score` (a bool passes as an int). Raises where Python's set
      membership meets an unhashable value. */
  function ValidateCompliance(v: Value): (o: Outcome<bool>)
    ensures o == Done(true) ==> v.Dict? && HasKey(v.entries, "issue_count") && HasKey(v.entries, "risk_score")
    ensures o == Done(true) ==>
              && Get(v.entries, "status").Some? && Get(v.entries, "status").value.Str?
              && Get(v.entries, "status").value.s in {"ok", "review", "block"}
  {
    if !v.Dict? then Done(false)
    else
      var d := v.entries;
      if !(HasKey(d, "status") && HasKey(d, "issues") && HasKey(d, "issue_count") && HasKey(d, "risk_score")) then Done(false)
      else
        HasKeyGet(d, "status");
        HasKeyGet(d, "issues");
        HasKeyGet(d, "issue_count");
        HasKeyGet(d, "risk_score");
        ComplianceFields(Get(d, "status").value, Get(d, "issues").value,
                         Get(d, "issue_count").value, Get(d, "risk_score").value)
  }

  /** The checks of `validate_compliance` on the four fields, in order. A
      `True`/`False` passes `isinstance(x, int)`. */
  function ComplianceFields(status: Value, issues: Value, count: Value, risk: Value): (o: Outcome<bool>)
    ensures o == Done(true) <==>
      && status.Str? && status.s in {"ok", "review", "block"}
      && issues.List? && (forall i | 0 <= i < |issues.items| :: CheckIssue(issues.items[i]) == Done(true))
      && IsNumber(count) && AsInt(count) == |issues.items|
      && IsNumber(risk) && AsInt(risk) >= 0
    ensures o.Raised? ==> status.List? || status.Dict? || (issues.List? && CheckIssues(issues.items).Raised?)
  {
    var inSet := InStringSet(status, {"ok", "review", "block"});
    if inSet.Raised? then Raised(inSet.exc)
    else if !inSet.value then Done(false)
    else if !issues.List? then Done(false)
    else
      var scan := CheckIssues(issues.items);
      if scan != Done(true) then scan
      else if !IsNumber(count) || AsInt(count) != |issues.items| then Done(false)
      else Done(IsNumber(risk) && AsInt(risk) >= 0)
  }

  /** `validate_agent_output(agent_name, output)`: names without a validator
      pass; a validator that raises counts as a failure. */
  function ValidateAgentOutput(name: string, v: Value): (r: bool)
    ensures name !in ValidatorNames ==> r
    ensures name == "compliance" ==> (r <==> ValidateCompliance(v) == Done(true))
    ensures name == "summary" ==> r == ValidateSummary(v)
  {
    match name
    case "extraction" => ValidateExtraction(v)
    case "summary" => ValidateSummary(v)
    case "analysis" => ValidateAnalysis(v)
    case "recommendation" => ValidateRecommendation(v)
    case "ideation" => ValidateIdeation(v)
    case "copywriter" => ValidateCopywriter(v)
    case "translation" => ValidateTranslation(v)
    case "compliance" =>
      var o := ValidateCompliance(v);
      o.Done? && o.value
    case _ => true
  }

  // ---------------------------------------------------------------------
  // Properties

  /** `validate_compliance` rejects every report `ComplianceAgent.run`
      produces: the report has neither `issue_count` nor `risk_score`. */
  lemma ComplianceReportRejected(content: string)
    ensures ValidateCompliance(Compliance.ReportValue(Compliance.Check(content))) == Done(false)
    ensures !ValidateAgentOutput("compliance", Compliance.ReportValue(Compliance.Check(content)))
  {
    var v := Compliance.ReportValue(Compliance.Check(content));
    assert Keys(v.entries)[0] == "status" && Keys(v.entries)[1] == "issues";
    assert !HasKey(v.entries, "issue_count") by {
      forall i | 0 <= i < |v.entries|
        ensures v.entries[i].key != "issue_count"
      {
        assert v.entries[i].key == Keys(v.entries)[i];
      }
    }
  }

  /** The schema is satisfiable: a clean report with both counters passes. */
  lemma ComplianceSchemaAccepted()
    ensures ValidateCompliance(Dict([Entry("status", Str("ok")), Entry("issues", List([])),
                                     Entry("issue_count", Int(0)), Entry("risk_score", Int(0))])) == Done(true)
  {
    var d := [Entry("status", Str("ok")), Entry("issues", List([])), Entry("issue_count", Int(0)), Entry("risk_score", Int(0))];
    assert d[0].key == "status" && d[1].key == "issues" && d[2].key == "issue_count" && d[3].key == "risk_score";
  }

  /** A dict that starts with the four schema keys is judged on their values. */
  lemma FourKeys(d: PyDict)
    requires |d| >= 4
    requires d[0].key == "status" && d[1].key == "issues" && d[2].key == "issue_count" && d[3].key == "risk_score"
    ensures ValidateCompliance(Dict(d)) == ComplianceFields(d[0].val, d[1].val, d[2].val, d[3].val)
  {
    GetFirstAt(d, 0);
    GetFirstAt(d, 1);
    GetFirstAt(d, 2);
    GetFirstAt(d, 3);
    assert HasKey(d, "status") && HasKey(d, "issues") && HasKey(d, "issue_count") && HasKey(d, "risk_score");
  }

  /** A bool passes as an int: `True` counts as an `issue_count` of 1. */
  lemma ComplianceBoolCount()
    ensures ValidateCompliance(Dict([Entry("status", Str("review")),
                                     Entry("issues", List([Dict([Entry("severity", Str("review")), Entry("match", Str("x")), Entry("description", Str("y"))])])),
                                     Entry("issue_count", Bool(true)), Entry("risk_score", Bool(false))])) == Done(true)
  {
    var issue := [Entry("severity", Str("review")), Entry("match", Str("x")), Entry("description", Str("y"))];
    var d := [Entry("status", Str("review")), Entry("issues", List([Dict(issue)])), Entry("issue_count", Bool(true)), Entry("risk_score", Bool(false))];
    FourKeys(d);
    BoolCountFields();
  }

  lemma BoolCountFields()
    ensures ComplianceFields(Str("review"), List([Dict([Entry("severity", Str("review")), Entry("match", Str("x")), Entry("description", Str("y"))])]),
                             Bool(true), Bool(false)) == Done(true)
  {
    var issue := [Entry("severity", Str("review")), Entry("match", Str("x")), Entry("description", Str("y"))];
    ReviewIssue();
    assert CheckIssues([Dict(issue)]) == Done(true);
  }

  lemma ReviewIssue()
    ensures CheckIssue(Dict([Entry("severity", Str("review")), Entry("match", Str("x")), Entry("description", Str("y"))])) == Done(true)
  {
    var issue := [Entry("severity", Str("review")), Entry("match", Str("x")), Entry("description", Str("y"))];
    assert issue[0].key == "severity" && issue[1].key == "match" && issue[2].key == "description";
    GetFirstAt(issue, 0);
    GetFirstAt(issue, 1);
    GetFirstAt(issue, 2);
  }

  /** A list-valued status makes the set test raise, so
      `validate_agent_output` reports a failure. */
  lemma UnhashableStatusRaises(rest: PyDict)
    ensures ValidateCompliance(Dict([Entry("status", List([])), Entry("issues", List([])),
                                     Entry("issue_count", Int(0)), Entry("risk_score", Int(0))] + rest)).Raised?
  {
    var d := [Entry("status", List([])), Entry("issues", List([])), Entry("issue_count", Int(0)), Entry("risk_score", Int(0))] + rest;
    assert d[0].key == "status" && d[1].key == "issues" && d[2].key == "issue_count" && d[3].key == "risk_score";
  }

  /** The findall count sees a match exactly when the search does. */
  lemma {:induction false} NumberMarksIff(s: string)
    ensures NumberMarks(s) >= 1 <==> HasNumberMark(s)
  {
    if |s| >= 2 {
      NumberMarksIff(s[1..]);
      if HasNumberMark(s[1..]) {
        var j :| 1 <= j < |s[1..]| && NumberMarkAt(s[1..], j);
        assert NumberMarkAt(s, j + 1);
      }
      if HasNumberMark(s) && !NumberMarkAt(s, 1) {
        var j :| 1 <= j < |s| && NumberMarkAt(s, j);
        assert NumberMarkAt(s[1..], j - 1);
      }
    }
  }

  /** Ideas numbered at least twice also pass as recommendations. */
  lemma NumberedIdeasAreRecommendations(v: Value)
    requires ValidateIdeation(v) && NumberMarks(v.s) >= 2
    ensures ValidateRecommendation(v)
  {
    NumberMarksIff(v.s);
  }

  /** `validate_analysis` ignores case. */
  lemma AnalysisIgnoresCase(s: string)
    ensures ValidateAnalysis(Str(Lower(s))) == ValidateAnalysis(Str(s))
  {
    StripLower(s);
    LowerIdempotent(s);
  }

  /** `validate_summary` ignores case. */
  lemma SummaryIgnoresCase(s: string)
    ensures ValidateSummary(Str(Lower(s))) == ValidateSummary(Str(s))
  {
    StripLower(s);
  }

  /** `validate_copywriter` ignores case. */
  lemma CopywriterIgnoresCase(s: string)
    ensures ValidateCopywriter(Str(Lower(s))) == ValidateCopywriter(Str(s))
  {
    StripLower(s);
    LowerIdempotent(s);
  }

  /** `validate_translation` ignores case: lower-casing touches no Arabic
      character. */
  lemma TranslationIgnoresCase(s: string)
    ensures ValidateTranslation(Str(Lower(s))) == ValidateTranslation(Str(s))
  {
    StripLower(s);
    assert forall i | 0 <= i < |s| :: IsArabic(Lower(s)[i]) == IsArabic(s[i]);
  }
}
