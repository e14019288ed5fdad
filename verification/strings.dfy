/** Python string primitives the core relies on: whitespace classes, `strip`,
    ASCII `lower`, substring search, `split`, `int()` parsing and decimal
    rendering, each written out as Python 3 defines it. */
module Strings {

  datatype Option<+T> = None | Some(value: T)

  /** `str.isspace()` for a single code point: the 29 whitespace characters of
      Python 3 (these are also what `\s` matches in a `str` regular expression
      and what `str.split()` / `str.strip()` with no argument remove). */
  predicate IsSpace(c: char) {
    || c == ' '
    || ('\t' <= c <= '\r')
    || ('\U{1c}' <= c <= '\U{1f}')
    || c == '\U{85}' || c == '\U{a0}' || c == '\U{1680}'
    || ('\U{2000}' <= c <= '\U{200a}')
    || c == '\U{2028}' || c == '\U{2029}' || c == '\U{202f}' || c == '\U{205f}' || c == '\U{3000}'
  }

  predicate IsDigit(c: char) { '0' <= c <= '9' }

  function LowerChar(c: char): char {
    if 'A' <= c <= 'Z' then (c as int + 32) as char else c
  }

  /** `str.lower()` restricted to ASCII letters. */
  function Lower(s: string): string {
    seq(|s|, i requires 0 <= i < |s| => LowerChar(s[i]))
  }

  lemma LowerConcat(a: string, b: string)
    ensures Lower(a + b) == Lower(a) + Lower(b)
  {
    assert forall i :: 0 <= i < |a + b| ==> Lower(a + b)[i] == (Lower(a) + Lower(b))[i];
  }

  lemma LowerIdempotent(s: string)
    ensures Lower(Lower(s)) == Lower(s)
  {
    assert forall i :: 0 <= i < |s| ==> Lower(Lower(s))[i] == Lower(s)[i];
  }

  lemma {:induction false} TrimLeftLower(s: string)
    ensures TrimLeft(Lower(s)) == Lower(TrimLeft(s))
  {
    if s != [] {
      assert Lower(s)[0] == LowerChar(s[0]);
      assert Lower(s)[1..] == Lower(s[1..]);
      if IsSpace(s[0]) {
        TrimLeftLower(s[1..]);
      }
    }
  }

  lemma {:induction false} TrimRightLower(s: string)
    ensures TrimRight(Lower(s)) == Lower(TrimRight(s))
  {
    if s != [] {
      assert Lower(s)[|s| - 1] == LowerChar(s[|s| - 1]);
      assert Lower(s)[..|s| - 1] == Lower(s[..|s| - 1]);
      if IsSpace(s[|s| - 1]) {
        TrimRightLower(s[..|s| - 1]);
      }
    }
  }

  /** Lower-casing keeps whitespace, so it commutes with `strip`. */
  lemma StripLower(s: string)
    ensures Strip(Lower(s)) == Lower(Strip(s))
  {
    TrimLeftLower(s);
    TrimRightLower(TrimLeft(s));
  }

  /** `sub` starts at index `i` of `s`. */
  predicate OccursAt(s: string, sub: string, i: int) {
    0 <= i && i + |sub| <= |s| && s[i..i + |sub|] == sub
  }

  /** Python's `sub in s`. */
  predicate Contains(s: string, sub: string) {
    exists i | 0 <= i <= |s| - |sub| :: OccursAt(s, sub, i)
  }

  /** `s.startswith(p)`. */
  predicate StartsWith(s: string, p: string) {
    |p| <= |s| && s[..|p|] == p
  }

  /** A substring of `t` is a substring of every string that contains `t`. */
  lemma ContainsInfix(u: string, t: string, v: string, w: string)
    requires Contains(t, w)
    ensures Contains(u + t + v, w)
  {
    var i :| 0 <= i <= |t| - |w| && OccursAt(t, w, i);
    var s := u + t + v;
    assert s[i + |u|..i + |u| + |w|] == t[i..i + |w|];
    assert OccursAt(s, w, i + |u|);
  }

  /** The keywords of `kws` that occur in `s`, in list order (the list
      comprehension `[w for w in kws if w in s]`). */
  function KeywordsIn(kws: seq<string>, s: string): (r: seq<string>)
    ensures |r| <= |kws|
    ensures forall w | w in r :: w in kws && Contains(s, w)
  {
    if kws == [] then []
    else (if Contains(s, kws[0]) then [kws[0]] else []) + KeywordsIn(kws[1..], s)
  }

  lemma {:induction false} KeywordsInComplete(kws: seq<string>, s: string, w: string)
    requires w in kws && Contains(s, w)
    ensures w in KeywordsIn(kws, s)
  {
    if kws[0] != w {
      KeywordsInComplete(kws[1..], s, w);
    }
  }

  /** Filtering distributes over concatenation of the keyword list. */
  lemma {:induction false} KeywordsInConcat(a: seq<string>, b: seq<string>, s: string)
    ensures KeywordsIn(a + b, s) == KeywordsIn(a, s) + KeywordsIn(b, s)
  {
    if a != [] {
      assert (a + b)[0] == a[0] && (a + b)[1..] == a[1..] + b;
      KeywordsInConcat(a[1..], b, s);
    } else {
      assert a + b == b;
    }
  }

  /** A substring of a substring is a substring. */
  lemma ContainsTrans(s: string, t: string, w: string)
    requires Contains(s, t) && Contains(t, w)
    ensures Contains(s, w)
  {
    var i :| 0 <= i <= |s| - |t| && OccursAt(s, t, i);
    var j :| 0 <= j <= |t| - |w| && OccursAt(t, w, j);
    assert forall k | 0 <= k < |t| :: s[i + k] == t[k] by {
      assert s[i..i + |t|] == t;
    }
    assert forall k | 0 <= k < |w| :: t[j + k] == w[k] by {
      assert t[j..j + |w|] == w;
    }
    assert s[i + j..i + j + |w|] == w;
    assert OccursAt(s, w, i + j);
  }

  function TrimLeft(s: string): string {
    if s != [] && IsSpace(s[0]) then TrimLeft(s[1..]) else s
  }

  function TrimRight(s: string): string {
    if s != [] && IsSpace(s[|s| - 1]) then TrimRight(s[..|s| - 1]) else s
  }

  /** `str.strip()` with no argument. */
  function Strip(s: string): string {
    TrimRight(TrimLeft(s))
  }

  /** `s.split(sep)` for a one-character separator: always at least one piece. */
  function SplitOn(s: string, sep: char): (r: seq<string>)
    ensures |r| >= 1
  {
    if s == [] then [""]
    else
      var rest := SplitOn(s[1..], sep);
      if s[0] == sep then [""] + rest else [[s[0]] + rest[0]] + rest[1..]
  }

  /** `sep.join(parts)`. */
  function Join(sep: string, parts: seq<string>): string {
    if parts == [] then ""
    else if |parts| == 1 then parts[0]
    else parts[0] + sep + Join(sep, parts[1..])
  }

  /** `str.split()` with no argument, scanning `s` while `cur` holds the word
      read so far: maximal runs of non-whitespace characters, in order. */
  function SplitWords(s: string, cur: string): seq<string> {
    if s == [] then (if cur == "" then [] else [cur])
    else if IsSpace(s[0]) then (if cur == "" then SplitWords(s[1..], "") else [cur] + SplitWords(s[1..], ""))
    else SplitWords(s[1..], cur + [s[0]])
  }

  /** `s.split()`. */
  function SplitWhitespace(s: string): seq<string> {
    SplitWords(s, "")
  }

  /** `s[:n]` with Python's slice rules (a negative bound counts from the end). */
  function SliceTo(s: string, n: int): string {
    if n >= 0 then (if n <= |s| then s[..n] else s)
    else if |s| + n >= 0 then s[..|s| + n]
    else ""
  }

  /** The digit string `int()` accepts after an optional sign: ASCII digits,
      single underscores allowed between two digits. */
  predicate WellFormedDigits(s: string) {
    && |s| > 0
    && IsDigit(s[0])
    && forall i | 0 <= i < |s| :: IsDigit(s[i]) || (s[i] == '_' && i + 1 < |s| && IsDigit(s[i + 1]))
  }

  function DigitsValue(s: string): nat {
    if s == [] then 0
    else
      var v := DigitsValue(s[..|s| - 1]);
      var c := s[|s| - 1];
      if IsDigit(c) then v * 10 + (c as int - '0' as int) else v
  }

  /** `int(s)` on an already stripped string; `None` where Python raises
      `ValueError`. */
  function ParseInt(s: string): Option<int> {
    if |s| > 0 && (s[0] == '+' || s[0] == '-') then
      if WellFormedDigits(s[1..]) then
        var n: int := DigitsValue(s[1..]);
        Some(if s[0] == '-' then -n else n)
      else None
    else if WellFormedDigits(s) then Some(DigitsValue(s))
    else None
  }

  function NatToString(n: nat): string {
    var d := ['0' + (n % 10) as char];
    if n < 10 then d else NatToString(n / 10) + d
  }

  /** `str(i)` for an int. */
  function IntToString(i: int): string {
    if i < 0 then "-" + NatToString(-i) else NatToString(i)
  }
}
