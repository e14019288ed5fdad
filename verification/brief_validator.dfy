/** `BriefValidator` (backend/app/tools/validators.py): a keyword test for
    "does this text look like a media brief", and whitespace sanitising. */
module BriefValidator {
  import opened Strings
  import opened TextUtils

  const RequiredKeywords: seq<string> := ["target", "audience", "budget", "objective", "kpi", "campaign"]

  /** `is_valid_brief(text)`: at least two of the required keywords occur in
      the lower-cased text; the empty text is rejected outright. */
  function IsValidBrief(text: string): (r: bool)
    ensures text == "" ==> !r
    ensures r <==> text != "" && TwoKeywordsOccur(RequiredKeywords, Lower(text))
  {
    TwoKeywordsIff(RequiredKeywords, Lower(text));
    text != "" && |KeywordsIn(RequiredKeywords, Lower(text))| >= 2
  }

  /** Two different positions of `kws` hold keywords occurring in `s`. */
  predicate TwoKeywordsOccur(kws: seq<string>, s: string) {
    exists i, j | 0 <= i < j < |kws| :: Contains(s, kws[i]) && Contains(s, kws[j])
  }

  /** Some position of `kws` holds a keyword occurring in `s`. */
  predicate SomeKeywordOccurs(kws: seq<string>, s: string) {
    exists i | 0 <= i < |kws| :: Contains(s, kws[i])
  }

  lemma {:induction false} OneKeywordIff(kws: seq<string>, s: string)
    ensures |KeywordsIn(kws, s)| >= 1 <==> SomeKeywordOccurs(kws, s)
  {
    if kws != [] {
      OneKeywordIff(kws[1..], s);
      if SomeKeywordOccurs(kws[1..], s) {
        var i :| 0 <= i < |kws[1..]| && Contains(s, kws[1..][i]);
        assert Contains(s, kws[i + 1]);
      }
      if SomeKeywordOccurs(kws, s) && !Contains(s, kws[0]) {
        var i :| 0 <= i < |kws| && Contains(s, kws[i]);
        assert Contains(s, kws[1..][i - 1]);
      }
    }
  }

  /** Counting the comprehension is the same as finding two matching
      positions. */
  lemma {:induction false} TwoKeywordsIff(kws: seq<string>, s: string)
    ensures |KeywordsIn(kws, s)| >= 2 <==> TwoKeywordsOccur(kws, s)
  {
    if kws != [] {
      TwoKeywordsIff(kws[1..], s);
      OneKeywordIff(kws[1..], s);
      TwoKeywordsCons(kws, s);
    }
  }

  /** Two keywords occur in `kws` when the first and one of the rest do, or
      two of the rest do. */
  lemma TwoKeywordsCons(kws: seq<string>, s: string)
    requires kws != []
    ensures TwoKeywordsOccur(kws, s) <==>
      (Contains(s, kws[0]) && SomeKeywordOccurs(kws[1..], s)) || TwoKeywordsOccur(kws[1..], s)
  {
    var tail := kws[1..];
    if TwoKeywordsOccur(kws, s) {
      var i, j :| 0 <= i < j < |kws| && Contains(s, kws[i]) && Contains(s, kws[j]);
      if i == 0 {
        assert Contains(s, tail[j - 1]);
      } else {
        assert Contains(s, tail[i - 1]) && Contains(s, tail[j - 1]);
      }
    }
    if Contains(s, kws[0]) && SomeKeywordOccurs(tail, s) {
      var j :| 0 <= j < |tail| && Contains(s, tail[j]);
      assert Contains(s, kws[j + 1]);
    }
    if TwoKeywordsOccur(tail, s) {
      var i, j :| 0 <= i < j < |tail| && Contains(s, tail[i]) && Contains(s, tail[j]);
      assert Contains(s, kws[i + 1]) && Contains(s, kws[j + 1]);
    }
  }


  /** A keyword found in the lower-cased `t` is found in the lower-cased
      `u + t + v`. */
  lemma LowerContainsInfix(u: string, t: string, v: string, w: string)
    requires Contains(Lower(t), w)
    ensures Contains(Lower(u + t + v), w)
  {
    LowerConcat(u + t, v);
    LowerConcat(u, t);
    ContainsInfix(Lower(u), Lower(t), Lower(v), w);
  }

  /** A brief stays a brief when more text is put around it. */
  lemma IsValidBriefMonotone(u: string, t: string, v: string)
    requires IsValidBrief(t)
    ensures IsValidBrief(u + t + v)
  {
    var i, j :| 0 <= i < j < |RequiredKeywords| && Contains(Lower(t), RequiredKeywords[i]) && Contains(Lower(t), RequiredKeywords[j]);
    LowerContainsInfix(u, t, v, RequiredKeywords[i]);
    LowerContainsInfix(u, t, v, RequiredKeywords[j]);
    assert |u + t + v| >= |t| > 0;
  }

  /** Upper case does not matter to the check. */
  lemma IsValidBriefIgnoresCase(text: string)
    ensures IsValidBrief(Lower(text)) == IsValidBrief(text)
  {
    LowerIdempotent(text);
  }

  /** One keyword alone is not enough. */
  lemma OneKeywordIsNoBrief()
    ensures !IsValidBrief("KPI")
  {
    var s := Lower("KPI");
    assert s == "kpi";
    assert !TwoKeywordsOccur(RequiredKeywords, s) by {
      forall i | 0 <= i < |RequiredKeywords| && i != 4
        ensures !Contains(s, RequiredKeywords[i])
      {
        assert |RequiredKeywords[i]| > |s|;
      }
    }
  }

  /** Two keywords, in any case, make a brief. */
  lemma TwoKeywordsMakeBrief()
    ensures IsValidBrief("Target KPI")
  {
    var s := "target" + " " + "kpi";
    assert Lower("Target KPI") == s by {
      assert forall i | 0 <= i < |s| :: Lower("Target KPI")[i] == s[i];
    }
    assert s[0..6] == "target" && OccursAt(s, "target", 0);
    assert s[7..10] == "kpi" && OccursAt(s, "kpi", 7);
    assert Contains(s, RequiredKeywords[0]) && Contains(s, RequiredKeywords[4]);
  }

  /** `sanitize_text(text)`: the words of `text` joined by single spaces;
      the same text `clean_extra_whitespace` produces. */
  function SanitizeText(text: string): (r: string)
    ensures r == CleanExtraWhitespace(text)
    ensures Canonical(r)
    ensures Visible(r) == Visible(text)
  {
    CleanIsJoinOfWords(text);
    CleanKeepsVisible(text);
    Join(" ", SplitWhitespace(text))
  }

  lemma SanitizeIdempotent(text: string)
    ensures SanitizeText(SanitizeText(text)) == SanitizeText(text)
  {
    CleanIdempotent(text);
  }
}
