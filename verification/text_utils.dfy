/** Text helpers: whitespace normalisation (`re.sub(r'\s+', ' ', text).strip()`)
    and truncation to a character budget. */
module TextUtils {
  import opened Strings

  /** `re.sub(r'\s+', ' ', s)`: every maximal run of whitespace becomes one
      space. `inRun` says that the character before `s` was whitespace (and
      has already produced its space). */
  function Collapse(s: string, inRun: bool): string {
    if s == [] then ""
    else if IsSpace(s[0]) then (if inRun then Collapse(s[1..], true) else " " + Collapse(s[1..], true))
    else [s[0]] + Collapse(s[1..], false)
  }

  /** The only whitespace in `r` is the plain space. */
  ghost predicate OnlyPlainSpaces(r: string) {
    forall i | 0 <= i < |r| :: IsSpace(r[i]) ==> r[i] == ' '
  }

  /** `r` never holds two spaces in a row. */
  ghost predicate NoDoubleSpace(r: string) {
    forall i | 0 <= i < |r| - 1 :: !(r[i] == ' ' && r[i + 1] == ' ')
  }

  /** The shape of normalised text: the only whitespace is `' '`, never two in
      a row, never at either end. */
  ghost predicate Canonical(r: string) {
    && OnlyPlainSpaces(r)
    && NoDoubleSpace(r)
    && (r != [] ==> r[0] != ' ' && r[|r| - 1] != ' ')
  }

  /** The non-whitespace characters of `s`, in order. */
  function Visible(s: string): string {
    if s == [] then "" else (if IsSpace(s[0]) then "" else [s[0]]) + Visible(s[1..])
  }

  /** `clean_extra_whitespace(text)`. */
  function CleanExtraWhitespace(text: string): (r: string)
    ensures Canonical(r)
    ensures SplitWhitespace(r) == SplitWhitespace(text)
  {
    CollapseShape(text, false);
    StripShape(Collapse(text, false));
    CollapseKeepsWords(text, "", false);
    StripKeepsWords(Collapse(text, false));
    Strip(Collapse(text, false))
  }

  /** `truncate_text(text, max_chars)`: `text[:max_chars] + "..."` when the text
      is longer than the budget, the text itself otherwise. */
  function TruncateText(text: string, maxChars: int): (r: string)
    ensures |text| <= maxChars ==> r == text
    ensures |text| > maxChars ==> r == SliceTo(text, maxChars) + "..." && r[|r| - 3..] == "..."
    ensures |text| > maxChars >= 0 ==> r[..maxChars] == text[..maxChars] && |r| == maxChars + 3
    ensures maxChars >= 0 ==> |r| <= maxChars + 3
  {
    if |text| > maxChars then SliceTo(text, maxChars) + "..." else text
  }

  /** The bound `truncate_text` uses when the caller gives none. */
  const DefaultMaxChars: nat := 2000

  /** `truncate_text(text)` with the default bound. */
  function TruncateDefault(text: string): (r: string)
    ensures |text| <= DefaultMaxChars ==> r == text
    ensures |text| > DefaultMaxChars ==> r == text[..DefaultMaxChars] + "..."
    ensures |r| <= DefaultMaxChars + 3
  {
    TruncateText(text, DefaultMaxChars)
  }

  // ---------------------------------------------------------------------
  // Shape of the collapsed and stripped text

  lemma {:induction false} CollapseShape(s: string, inRun: bool)
    ensures OnlyPlainSpaces(Collapse(s, inRun)) && NoDoubleSpace(Collapse(s, inRun))
    ensures inRun && Collapse(s, inRun) != [] ==> Collapse(s, inRun)[0] != ' '
  {
    if s != [] {
      CollapseShape(s[1..], IsSpace(s[0]));
      var c' := Collapse(s[1..], IsSpace(s[0]));
      var c := Collapse(s, inRun);
      if IsSpace(s[0]) && !inRun {
        assert c == " " + c';
        assert forall i | 1 <= i < |c| :: c[i] == c'[i - 1];
      } else if !IsSpace(s[0]) {
        assert c == [s[0]] + c';
        assert forall i | 1 <= i < |c| :: c[i] == c'[i - 1];
      }
    }
  }

  lemma {:induction false} TrimLeftShape(s: string)
    ensures |TrimLeft(s)| <= |s| && TrimLeft(s) == s[|s| - |TrimLeft(s)|..]
    ensures TrimLeft(s) != [] ==> !IsSpace(TrimLeft(s)[0])
  {
    if s != [] && IsSpace(s[0]) {
      TrimLeftShape(s[1..]);
    }
  }

  lemma {:induction false} TrimRightShape(s: string)
    ensures |TrimRight(s)| <= |s| && TrimRight(s) == s[..|TrimRight(s)|]
    ensures TrimRight(s) != [] ==> !IsSpace(TrimRight(s)[|TrimRight(s)| - 1])
  {
    if s != [] && IsSpace(s[|s| - 1]) {
      TrimRightShape(s[..|s| - 1]);
    }
  }

  lemma StripShape(c: string)
    requires OnlyPlainSpaces(c) && NoDoubleSpace(c)
    ensures Canonical(Strip(c))
  {
    var l := TrimLeft(c);
    TrimLeftShape(c);
    TrimRightShape(l);
    var k := |c| - |l|;
    var r := Strip(c);
    assert r == l[..|r|];
    assert forall i | 0 <= i < |r| :: r[i] == c[k + i];
  }

  // ---------------------------------------------------------------------
  // Normalising keeps the words

  lemma {:induction false} CollapseKeepsWords(s: string, cur: string, inRun: bool)
    requires inRun ==> cur == ""
    ensures SplitWords(Collapse(s, inRun), cur) == SplitWords(s, cur)
  {
    if s != [] {
      var rest := Collapse(s[1..], IsSpace(s[0]));
      if IsSpace(s[0]) {
        CollapseKeepsWords(s[1..], "", true);
        if !inRun {
          assert (" " + rest)[0] == ' ' && (" " + rest)[1..] == rest;
        }
      } else {
        CollapseKeepsWords(s[1..], cur + [s[0]], false);
        assert ([s[0]] + rest)[0] == s[0] && ([s[0]] + rest)[1..] == rest;
      }
    }
  }

  lemma {:induction false} TrailingSpaceKeepsWords(y: string, c: char, cur: string)
    requires IsSpace(c)
    ensures SplitWords(y + [c], cur) == SplitWords(y, cur)
  {
    if y == [] {
      assert [c][1..] == [];
    } else {
      assert (y + [c])[0] == y[0] && (y + [c])[1..] == y[1..] + [c];
      if IsSpace(y[0]) {
        TrailingSpaceKeepsWords(y[1..], c, "");
      } else {
        TrailingSpaceKeepsWords(y[1..], c, cur + [y[0]]);
      }
    }
  }

  lemma {:induction false} TrimRightKeepsWords(s: string, cur: string)
    ensures SplitWords(TrimRight(s), cur) == SplitWords(s, cur)
  {
    if s != [] && IsSpace(s[|s| - 1]) {
      TrimRightKeepsWords(s[..|s| - 1], cur);
      assert s == s[..|s| - 1] + [s[|s| - 1]];
      TrailingSpaceKeepsWords(s[..|s| - 1], s[|s| - 1], cur);
    }
  }

  lemma {:induction false} TrimLeftKeepsWords(s: string)
    ensures SplitWords(TrimLeft(s), "") == SplitWords(s, "")
  {
    if s != [] && IsSpace(s[0]) {
      TrimLeftKeepsWords(s[1..]);
    }
  }

  lemma StripKeepsWords(s: string)
    ensures SplitWhitespace(Strip(s)) == SplitWhitespace(s)
  {
    TrimRightKeepsWords(TrimLeft(s), "");
    TrimLeftKeepsWords(s);
  }

  // ---------------------------------------------------------------------
  // Canonical text is the space-join of its words

  lemma TailShape(r: string)
    requires r != [] && OnlyPlainSpaces(r) && NoDoubleSpace(r)
    ensures OnlyPlainSpaces(r[1..]) && NoDoubleSpace(r[1..])
  {
    var t := r[1..];
    assert forall i | 0 <= i < |t| :: t[i] == r[i + 1];
  }

  lemma JoinCons(a: string, w: seq<string>)
    requires w != []
    ensures Join(" ", [a] + w) == a + " " + Join(" ", w)
  {
    assert ([a] + w)[1..] == w;
  }

  lemma SplitWordsAtSpace(r: string, cur: string)
    requires r != [] && r[0] == ' ' && cur != ""
    ensures SplitWords(r, cur) == [cur] + SplitWords(r[1..], "")
  {
  }

  lemma SplitWordsAtLetter(r: string, cur: string)
    requires r != [] && !IsSpace(r[0])
    ensures SplitWords(r, cur) == SplitWords(r[1..], cur + [r[0]])
  {
  }

  lemma {:induction false} JoinWords(r: string, cur: string)
    requires OnlyPlainSpaces(r) && NoDoubleSpace(r)
    requires r != [] ==> r[|r| - 1] != ' '
    requires r != [] && r[0] == ' ' ==> cur != ""
    ensures cur + r == Join(" ", SplitWords(r, cur))
    decreases |r|
  {
    if r == [] {
      assert cur + r == cur;
    } else if r[0] == ' ' {
      JoinWordsAtSpace(r, cur);
    } else {
      var t := r[1..];
      TailShape(r);
      assert !IsSpace(r[0]);
      SplitWordsAtLetter(r, cur);
      JoinWords(t, cur + [r[0]]);
      assert cur + r == (cur + [r[0]]) + t;
    }
  }

  lemma {:induction false} JoinWordsAtSpace(r: string, cur: string)
    requires OnlyPlainSpaces(r) && NoDoubleSpace(r)
    requires r != [] && r[|r| - 1] != ' ' && r[0] == ' ' && cur != ""
    ensures cur + r == Join(" ", SplitWords(r, cur))
    decreases |r|, 0
  {
    var t := r[1..];
    assert t != [] && t[|t| - 1] != ' ' && t[0] != ' ' by {
      assert |r| >= 2 && t[0] == r[1];
    }
    TailShape(r);
    JoinWords(t, "");
    assert "" + t == t;
    SpaceThenWords(r, cur);
  }

  lemma SpaceThenWords(r: string, cur: string)
    requires r != [] && r[0] == ' ' && r[1..] != [] && cur != ""
    requires r[1..] == Join(" ", SplitWords(r[1..], ""))
    ensures cur + r == Join(" ", SplitWords(r, cur))
  {
    var w := SplitWords(r[1..], "");
    SplitWordsAtSpace(r, cur);
    JoinCons(cur, w);
    assert r == " " + r[1..];
  }

  /** Normalised text is the words of the input joined by single spaces. */
  lemma CleanIsJoinOfWords(text: string)
    ensures CleanExtraWhitespace(text) == Join(" ", SplitWhitespace(text))
  {
    var r := CleanExtraWhitespace(text);
    JoinWords(r, "");
    assert "" + r == r;
  }

  /** `clean_extra_whitespace` is idempotent. */
  lemma CleanIdempotent(text: string)
    ensures CleanExtraWhitespace(CleanExtraWhitespace(text)) == CleanExtraWhitespace(text)
  {
    CleanIsJoinOfWords(text);
    CleanIsJoinOfWords(CleanExtraWhitespace(text));
  }

  // ---------------------------------------------------------------------
  // Normalising keeps every non-whitespace character, in order

  lemma {:induction false} VisibleConcat(a: string, b: string)
    ensures Visible(a + b) == Visible(a) + Visible(b)
  {
    if a != [] {
      assert (a + b)[0] == a[0] && (a + b)[1..] == a[1..] + b;
      VisibleConcat(a[1..], b);
    } else {
      assert a + b == b;
    }
  }

  lemma {:induction false} CollapseKeepsVisible(s: string, inRun: bool)
    ensures Visible(Collapse(s, inRun)) == Visible(s)
  {
    if s != [] {
      var rest := Collapse(s[1..], IsSpace(s[0]));
      CollapseKeepsVisible(s[1..], IsSpace(s[0]));
      if IsSpace(s[0]) && !inRun {
        VisibleConcat(" ", rest);
      } else if !IsSpace(s[0]) {
        VisibleConcat([s[0]], rest);
      }
    }
  }

  lemma {:induction false} TrimLeftKeepsVisible(s: string)
    ensures Visible(TrimLeft(s)) == Visible(s)
  {
    if s != [] && IsSpace(s[0]) {
      TrimLeftKeepsVisible(s[1..]);
    }
  }

  lemma {:induction false} TrimRightKeepsVisible(s: string)
    ensures Visible(TrimRight(s)) == Visible(s)
  {
    if s != [] && IsSpace(s[|s| - 1]) {
      TrimRightKeepsVisible(s[..|s| - 1]);
      assert s == s[..|s| - 1] + [s[|s| - 1]];
      VisibleConcat(s[..|s| - 1], [s[|s| - 1]]);
    }
  }

  /** `clean_extra_whitespace` drops whitespace only. */
  lemma CleanKeepsVisible(text: string)
    ensures Visible(CleanExtraWhitespace(text)) == Visible(text)
  {
    CollapseKeepsVisible(text, false);
    TrimLeftKeepsVisible(Collapse(text, false));
    TrimRightKeepsVisible(TrimLeft(Collapse(text, false)));
  }
}
