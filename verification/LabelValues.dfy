/** pkg/apis/v1alpha1/labels.go, NormalizeLabelValue: any string becomes a Kubernetes label value. */
module LabelValues {

  const MAX_LENGTH := 63

  predicate IsLower(c: char) { 'a' <= c <= 'z' }

  predicate IsUpper(c: char) { 'A' <= c <= 'Z' }

  predicate IsDigit(c: char) { '0' <= c <= '9' }

  predicate IsSeparator(c: char) { c == '-' || c == '_' || c == '.' }

  predicate IsLabelValueChar(c: char) { IsLower(c) || IsDigit(c) || IsSeparator(c) }

  /** unicode.IsSpace */
  predicate IsSpace(c: char) {
    || '\t' <= c <= '\r' || c == ' ' || c == '\U{85}' || c == '\U{A0}' || c == '\U{1680}'
    || '\U{2000}' <= c <= '\U{200A}' || c == '\U{2028}' || c == '\U{2029}' || c == '\U{202F}'
    || c == '\U{205F}' || c == '\U{3000}'
  }

  // ----- the library functions

  function TrimLeft(s: string, cut: char -> bool): (r: string)
    ensures |r| <= |s| && (r != "" ==> !cut(r[0]))
    ensures forall c :: c in r ==> c in s
  {
    if s != "" && cut(s[0]) then TrimLeft(s[1..], cut) else s
  }

  function TrimRight(s: string, cut: char -> bool): (r: string)
    ensures r <= s && (r != "" ==> !cut(r[|r| - 1]))
  {
    if s != "" && cut(s[|s| - 1]) then TrimRight(s[..|s| - 1], cut) else s
  }

  /** strings.TrimSpace and strings.Trim */
  function Trim(s: string, cut: char -> bool): string {
    TrimRight(TrimLeft(s, cut), cut)
  }

  /** strings.ToLower maps rune by rune; `lower` is unicode.ToLower. */
  function ToLower(s: string, lower: char -> char): string {
    seq(|s|, i requires 0 <= i < |s| => lower(s[i]))
  }

  ghost predicate KeepsLabelChars(lower: char -> char) {
    forall c :: IsLabelValueChar(c) ==> lower(c) == c
  }

  // ----- NormalizeLabelValue

  /** Runs of other characters become one hyphen. */
  function Collapse(s: string, lastReplacement: bool): string {
    if s == "" then ""
    else
      var n := |s| - 1;
      Collapse(s[..n], lastReplacement) +
        if IsLabelValueChar(s[n]) then [s[n]]
        else if EndsReplaced(s[..n], lastReplacement) then ""
        else "-"
  }

  predicate EndsReplaced(s: string, lastReplacement: bool) {
    if s == "" then lastReplacement else !IsLabelValueChar(s[|s| - 1])
  }

  function Shorten(s: string): string {
    var trimmed := Trim(s, IsSeparator);
    if |trimmed| > MAX_LENGTH then Trim(trimmed[..MAX_LENGTH], IsSeparator) else trimmed
  }

  function Normalized(value: string, lower: char -> char): string {
    Shorten(Collapse(ToLower(Trim(value, IsSpace), lower), false))
  }

  /** What Kubernetes accepts, which is also what the bootstrap script check demands. */
  predicate ValidLabelValue(s: string) {
    s == "" ||
    (&& |s| <= 63
     && IsAlphanumeric(s[0]) && IsAlphanumeric(s[|s| - 1])
     && forall i :: 0 <= i < |s| ==> IsAlphanumeric(s[i]) || IsSeparator(s[i]))
  }

  predicate IsAlphanumeric(c: char) { IsLower(c) || IsUpper(c) || IsDigit(c) }

  predicate NoUpper(s: string) {
    forall i :: 0 <= i < |s| ==> !IsUpper(s[i])
  }

  method NormalizeLabelValue(value: string, lower: char -> char) returns (result: string)
    ensures ValidLabelValue(result) && NoUpper(result)
    ensures result == Normalized(value, lower)
  {
    var v := ToLower(Trim(value, IsSpace), lower);
    var normalized := "";
    var lastReplacement := false;
    for i := 0 to |v|
      invariant normalized == Collapse(v[..i], false)
      invariant lastReplacement == EndsReplaced(v[..i], false)
    {
      assert v[..i + 1][..i] == v[..i];
      if IsLabelValueChar(v[i]) {
        normalized := normalized + [v[i]];
        lastReplacement := false;
      } else if !lastReplacement {
        normalized := normalized + "-";
        lastReplacement := true;
      }
    }
    assert v[..|v|] == v;
    result := Trim(normalized, IsSeparator);
    if |result| > MAX_LENGTH {
      result := Trim(result[..MAX_LENGTH], IsSeparator);
    }
    NormalizedIsValid(value, lower);
  }

  // ----- properties

  predicate LabelChars(s: string) {
    forall c :: c in s ==> IsLabelValueChar(c)
  }

  lemma {:induction false} CollapseGivesLabelChars(s: string, last: bool)
    ensures LabelChars(Collapse(s, last))
    decreases |s|
  {
    if s != "" {
      CollapseGivesLabelChars(s[..|s| - 1], last);
    }
  }

  lemma TrimKeepsEndsClean(s: string, cut: char -> bool)
    ensures var r := Trim(s, cut);
            && (forall c :: c in r ==> c in s)
            && |r| <= |s|
            && (r != "" ==> !cut(r[0]) && !cut(r[|r| - 1]))
  {
    var l := TrimLeft(s, cut);
    var r := TrimRight(l, cut);
    assert r == l[..|r|];
  }

  predicate AllCut(s: string, cut: char -> bool) {
    forall c :: c in s ==> cut(c)
  }

  /** What remains of s between i and j: nothing else is cut off. */
  predicate IsMiddle(r: string, s: string, i: nat, j: nat, cut: char -> bool) {
    i <= j <= |s| && r == s[i..j] && AllCut(s[..i], cut) && AllCut(s[j..], cut)
  }

  lemma {:induction false} TrimLeftCuts(s: string, cut: char -> bool)
    ensures var r := TrimLeft(s, cut);
            r == s[|s| - |r|..] && AllCut(s[..|s| - |r|], cut)
    decreases |s|
  {
    if s != "" && cut(s[0]) {
      TrimLeftCuts(s[1..], cut);
      var n := |s| - |TrimLeft(s, cut)|;
      assert s[..n] == [s[0]] + s[1..][..n - 1];
    }
  }

  lemma {:induction false} TrimRightCuts(s: string, cut: char -> bool)
    ensures AllCut(s[|TrimRight(s, cut)|..], cut)
    decreases |s|
  {
    if s != "" && cut(s[|s| - 1]) {
      var n := |s| - 1;
      TrimRightCuts(s[..n], cut);
      var k := |TrimRight(s, cut)|;
      assert s[k..] == s[..n][k..] + [s[n]];
    }
  }

  /** Trim cuts characters of the cutset off both ends, all of them, and nothing else. */
  lemma TrimCutsEnds(s: string, cut: char -> bool) returns (i: nat, j: nat)
    ensures IsMiddle(Trim(s, cut), s, i, j, cut)
    ensures Trim(s, cut) != "" ==> !cut(s[i]) && !cut(s[j - 1])
  {
    var l := TrimLeft(s, cut);
    var r := TrimRight(l, cut);
    TrimLeftCuts(s, cut);
    TrimRightCuts(l, cut);
    i := |s| - |l|;
    j := i + |r|;
    assert l[|r|..] == s[j..];
    assert r == l[..|r|] == s[i..j];
    TrimKeepsEndsClean(s, cut);
  }

  /** A value of more than 63 characters loses only what comes after them and separators before that. */
  lemma LongValuesAreCut(s: string)
    ensures var t, r := Trim(s, IsSeparator), Shorten(s);
            if |t| <= 63 then r == t
            else r <= t && |r| <= 63 && AllCut(t[|r|..63], IsSeparator)
  {
    var t := Trim(s, IsSeparator);
    TrimKeepsEndsClean(s, IsSeparator);
    if |t| > 63 {
      var i, j := TrimCutsEnds(t[..63], IsSeparator);
      assert t[..63][..i] == t[..i];
      assert t[..63][j..] == t[j..63];
    }
  }

  lemma ShortenIsValid(s: string)
    requires LabelChars(s)
    ensures ValidLabelValue(Shorten(s)) && NoUpper(Shorten(s))
  {
    var t := Trim(s, IsSeparator);
    TrimKeepsEndsClean(s, IsSeparator);
    assert LabelChars(t);
    if |t| > MAX_LENGTH {
      TrimKeepsEndsClean(t[..MAX_LENGTH], IsSeparator);
      assert LabelChars(t[..MAX_LENGTH]);
    }
    CleanIsValid(Shorten(s));
  }

  lemma CleanIsValid(s: string)
    requires LabelChars(s) && |s| <= MAX_LENGTH
    requires s != "" ==> !IsSeparator(s[0]) && !IsSeparator(s[|s| - 1])
    ensures ValidLabelValue(s) && NoUpper(s)
  {
    forall i | 0 <= i < |s| ensures IsLabelValueChar(s[i]) {
      assert s[i] in s;
    }
  }

  /** Every string is turned into a valid lower-case label value, truncation included. */
  lemma NormalizedIsValid(value: string, lower: char -> char)
    ensures ValidLabelValue(Normalized(value, lower)) && NoUpper(Normalized(value, lower))
  {
    var v := ToLower(Trim(value, IsSpace), lower);
    CollapseGivesLabelChars(v, false);
    ShortenIsValid(Collapse(v, false));
  }

  lemma {:induction false} CollapseKeepsLabelChars(s: string, last: bool)
    requires LabelChars(s)
    ensures Collapse(s, last) == s
    decreases |s|
  {
    if s != "" {
      var n := |s| - 1;
      CollapseKeepsLabelChars(s[..n], last);
      assert s == s[..n] + [s[n]];
      assert s[n] in s;
    }
  }

  lemma {:induction false} CollapseConcat(a: string, b: string, last: bool)
    ensures Collapse(a + b, last) == Collapse(a, last) + Collapse(b, EndsReplaced(a, last))
    decreases |b|
  {
    if b == "" {
      assert a + b == a;
    } else {
      var n := |b| - 1;
      CollapseConcat(a, b[..n], last);
      assert (a + b)[..|a| + n] == a + b[..n];
      assert (a + b)[|a| + n] == b[n];
      assert EndsReplaced(a + b[..n], last) == EndsReplaced(b[..n], EndsReplaced(a, last)) by {
        if n == 0 {
          assert a + b[..n] == a;
        }
      }
    }
  }

  lemma {:induction false} CollapseRun(run: string, last: bool)
    requires forall c :: c in run ==> !IsLabelValueChar(c)
    ensures Collapse(run, last) == if run == "" || last then "" else "-"
    decreases |run|
  {
    if run != "" {
      var n := |run| - 1;
      CollapseRun(run[..n], last);
      assert run[n] in run;
      assert n > 0 ==> run[..n][n - 1] in run;
    }
  }

  lemma CollapseAfterRun(s: string)
    requires s != "" ==> IsLabelValueChar(s[0])
    ensures Collapse(s, true) == Collapse(s, false)
  {
    if s != "" {
      var first := s[..1];
      assert s == first + s[1..];
      CollapseConcat(first, s[1..], true);
      CollapseConcat(first, s[1..], false);
      CollapseKeepsLabelChars(first, true);
      CollapseKeepsLabelChars(first, false);
    }
  }

  /**
   Whatever stands around it, a whole run of other characters becomes one hyphen, and characters
   of label values are kept.
   */
  lemma RunsBecomeOneHyphen(a: string, run: string, b: string)
    requires run != "" && forall c :: c in run ==> !IsLabelValueChar(c)
    requires (a != "" ==> IsLabelValueChar(a[|a| - 1])) && (b != "" ==> IsLabelValueChar(b[0]))
    ensures Collapse(a + run + b, false) == Collapse(a, false) + "-" + Collapse(b, false)
    ensures forall s :: LabelChars(s) ==> Collapse(s, false) == s
  {
    CollapseConcat(a + run, b, false);
    CollapseConcat(a, run, false);
    CollapseRun(run, false);
    assert (a + run)[|a + run| - 1] == run[|run| - 1] && run[|run| - 1] in run;
    CollapseAfterRun(b);
    forall s | LabelChars(s) ensures Collapse(s, false) == s {
      CollapseKeepsLabelChars(s, false);
    }
  }

  /**
   The values NormalizeLabelValue leaves alone are exactly the valid label values without
   upper-case letters; hence it is idempotent.
   */
  lemma {:induction false} FixedPoints(s: string, lower: char -> char)
    requires KeepsLabelChars(lower)
    ensures Normalized(s, lower) == s <==> ValidLabelValue(s) && NoUpper(s)
  {
    NormalizedIsValid(s, lower);
    hide Collapse;
    if ValidLabelValue(s) && NoUpper(s) {
      assert LabelChars(s);
      assert Trim(s, IsSpace) == s;
      assert ToLower(s, lower) == s;
      CollapseKeepsLabelChars(s, false);
      assert Trim(s, IsSeparator) == s;
    }
  }

  lemma Idempotent(value: string, lower: char -> char)
    requires KeepsLabelChars(lower)
    ensures Normalized(Normalized(value, lower), lower) == Normalized(value, lower)
  {
    NormalizedIsValid(value, lower);
    FixedPoints(Normalized(value, lower), lower);
  }
}
