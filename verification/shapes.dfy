/**
 * What the capturing groups of the extractor's patterns can hold: the text a
 * group body reads, described without reference to the pattern.
 */
module Shapes {
  import opened Wrappers
  import opened Text
  import opened Numbers
  import opened Regex
  import opened RegexTheory
  import opened Patterns

  predicate IsSep(c: char) { c == '/' || c == '-' }

  /** Three non-empty runs of ASCII digits separated by `/` or `-` (not necessarily the same one). */
  predicate DateShape(t: string) {
    6 <= |t| <= 10 && exists i: nat, j: nat :: 0 < i && i + 1 < j && j + 1 < |t| && DateSeparators(t, i, j)
  }

  predicate DateSeparators(t: string, i: nat, j: nat)
    requires i < |t| && j < |t|
  {
    IsSep(t[i]) && IsSep(t[j]) && forall k :: 0 <= k < |t| && k != i && k != j ==> IsDigit(t[k])
  }

  /** Digits and commas (at least one), a point, then exactly two digits. */
  predicate AmountShape(t: string) {
    |t| >= 4 && t[|t| - 3] == '.' && IsDigit(t[|t| - 2]) && IsDigit(t[|t| - 1])
    && forall k :: 0 <= k < |t| - 3 ==> IsDigit(t[k]) || t[k] == ','
  }

  predicate TokenChar(c: char) { IsLetter(c) || IsDigit(c) || c == '-' }

  // ---------------------------------------------------------------------------
  // Class membership under IGNORECASE

  lemma ClassFacts(c: char)
    ensures InClass(Digit, c) <==> IsDigit(c)
    ensures InClass(DateSep, c) <==> IsSep(c)
    ensures InClass(Token, c) <==> TokenChar(c)
    ensures InClass(Grouped, c) <==> IsDigit(c) || c == ','
  {
  }

  // ---------------------------------------------------------------------------
  // Group bodies

  /** `[A-Z0-9\-]+` reads a non-empty run of letters, digits and hyphens. */
  lemma TokenBody(s: string, lo: nat, hi: nat)
    requires Accepts(NumberBody, s, lo, hi)
    ensures lo < hi <= |s| && forall k :: lo <= k < hi ==> TokenChar(s[k])
  {
    var p := NumberBody;
    var n: nat :| 1 <= n && lo + n <= |s| && AllInClass(Token, s, lo, lo + n) && Accepts(p[1..], s, lo + n, hi);
    forall k | lo <= k < hi
      ensures TokenChar(s[k])
    {
      ClassFacts(s[k]);
    }
  }

  /** A character of `[A-Za-z0-9\s,\.]`: an ASCII letter, a digit, whitespace, a comma or a point. */
  predicate NameChar(c: char) { IsLetter(c) || IsDigit(c) || IsSpace(c) || c == ',' || c == '.' }

  /** The company suffixes, as the suffix alternation lists them. */
  const SuffixWords: seq<string> := ["inc", "llc", "ltd", "corp", "corporation", "company", "co"]

  /**
   * The vendor group bodies, `[A-Za-z0-9\s,\.]+` followed by an optional or a
   * required company suffix, read only name characters: the class itself is
   * one, and every suffix is spelt in letters.
   */
  lemma NameBodyChars(body: seq<Node>, s: string, lo: nat, hi: nat)
    requires body == NameBody || body == [Plus(Name), Suffix]
    requires Accepts(body, s, lo, hi)
    ensures lo <= hi <= |s| && forall k :: lo <= k < hi ==> NameChar(s[k])
  {
    var n := RepParts(body, s, lo, hi);
    forall k | lo <= k < lo + n
      ensures NameChar(s[k])
    {
      assert InClass(Name, s[k]);
    }
    if body == NameBody {
      OptSuffixChars(s, lo + n, hi);
    } else {
      assert body[1..] == [Suffix];
      SuffixChars(s, lo + n, hi);
    }
  }

  /** `(?:Inc|...|Co)?` reads nothing or one suffix. */
  lemma OptSuffixChars(s: string, i: nat, j: nat)
    requires i <= |s| && Accepts([Opt(Suffix)], s, i, j)
    ensures i <= j <= |s| && forall k :: i <= k < j ==> NameChar(s[k])
  {
    var os := [Suffix, Cat([])];
    var m :| 0 <= m < |os| && Accepts([os[m]] + [], s, i, j);
    if m == 0 {
      assert [os[m]] + [] == [Suffix];
      SuffixChars(s, i, j);
    } else {
      assert [os[m]] + [] == [Cat([])];
      assert Accepts([] + [], s, i, j);
    }
  }

  /** `(?:Inc|...|Co)` reads one suffix, whose characters are letters in either case. */
  lemma SuffixChars(s: string, i: nat, j: nat)
    requires Accepts([Suffix], s, i, j)
    ensures i <= j <= |s| && forall k :: i <= k < j ==> IsLetter(s[k])
  {
    assert Suffix == Words(SuffixWords);
    var m :| 0 <= m < |SuffixWords| && Accepts([Suffix.options[m]] + [], s, i, j);
    var w := SuffixWords[m];
    assert Accepts([Lit(w)] + [], s, i, j);
    assert ([Lit(w)] + [])[1..] == [];
    assert StartsAt(s, i, w) && j == i + |w|;
    forall k | i <= k < j
      ensures IsLetter(s[k])
    {
      SuffixLetter(m, k - i);
      assert Lower(s[k]) == Lower(w[k - i]);
    }
  }

  lemma SuffixLetter(m: nat, k: nat)
    requires m < |SuffixWords| && k < |SuffixWords[m]|
    ensures IsLetter(SuffixWords[m][k])
  {
  }

  /** A run of one class character repeated `n` times, then the rest. */
  lemma RepParts(p: seq<Node>, s: string, i: nat, j: nat) returns (n: nat)
    requires p != [] && p[0].Rep? && Accepts(p, s, i, j)
    ensures p[0].min <= n && WithinBound(n, p[0].max) && i + n <= |s|
    ensures AllInClass(p[0].cls, s, i, i + n) && Accepts(p[1..], s, i + n, j)
  {
    n :| p[0].min <= n && WithinBound(n, p[0].max) && i + n <= |s| && AllInClass(p[0].cls, s, i, i + n) && Accepts(p[1..], s, i + n, j);
  }

  /** Every character of `s[i..j]` is an ASCII digit. */
  predicate DigitsIn(s: string, i: nat, j: nat)
    requires i <= j <= |s|
  {
    forall k :: i <= k < j ==> IsDigit(s[k])
  }

  /**
   * `p` reads `s[i..j]`.  The date lemmas hand this on from node to node
   * instead of `Accepts` itself, so each step opens the definition for one
   * node only.
   */
  ghost predicate Reads(p: seq<Node>, s: string, i: nat, j: nat) {
    Accepts(p, s, i, j)
  }

  /** `RepParts` for a reading handed on as `Reads`. */
  lemma RepReads(p: seq<Node>, s: string, i: nat, j: nat) returns (n: nat)
    requires p != [] && p[0].Rep? && Reads(p, s, i, j)
    ensures p[0].min <= n && WithinBound(n, p[0].max) && i + n <= |s|
    ensures AllInClass(p[0].cls, s, i, i + n) && Reads(p[1..], s, i + n, j)
  {
    n := RepParts(p, s, i, j);
  }

  /** `[0-9]{a,b}[/-]`: between `a` and `b` digits, then one separator. */
  lemma DigitsThenSep(p: seq<Node>, a: nat, b: nat, s: string, i: nat, j: nat) returns (n: nat)
    requires |p| >= 2 && p[0] == Between(Digit, a, b) && p[1] == One(DateSep) && Reads(p, s, i, j)
    ensures a <= n <= b && i + n + 1 <= |s| && DigitsIn(s, i, i + n) && IsSep(s[i + n])
    ensures Reads(p[2..], s, i + n + 1, j)
  {
    n := RepReads(p, s, i, j);
    DigitRun(s, i, i + n);
    SepThen(p[1..], s, i + n, j);
    assert p[1..][1..] == p[2..];
  }

  /** `[/-]` reads one separator, then the rest reads on from just after it. */
  lemma SepThen(q: seq<Node>, s: string, i: nat, j: nat)
    requires q != [] && q[0] == One(DateSep) && Reads(q, s, i, j)
    ensures i < |s| && IsSep(s[i]) && Reads(q[1..], s, i + 1, j)
  {
    var m := RepReads(q, s, i, j);
    assert m == 1;
    SepAt(s, i);
  }

  lemma DigitRun(s: string, i: nat, j: nat)
    requires i <= j <= |s| && AllInClass(Digit, s, i, j)
    ensures DigitsIn(s, i, j)
  {
    forall k | i <= k < j
      ensures IsDigit(s[k])
    {
      ClassFacts(s[k]);
    }
  }

  lemma SepAt(s: string, i: nat)
    requires i < |s| && AllInClass(DateSep, s, i, i + 1)
    ensures IsSep(s[i])
  {
    ClassFacts(s[i]);
  }

  /** `[0-9]{a,b}` at the end of the group: between `a` and `b` digits up to its end. */
  lemma LastDigits(p: seq<Node>, a: nat, b: nat, s: string, i: nat, j: nat) returns (n: nat)
    requires |p| == 1 && p[0] == Between(Digit, a, b) && Reads(p, s, i, j)
    ensures a <= n <= b && i + n == j <= |s| && DigitsIn(s, i, j)
  {
    n := RepReads(p, s, i, j);
    assert p[1..] == [];
    DigitRun(s, i, j);
  }

  /** Both date bodies read a date of the shape `DateShape` describes. */
  lemma DateBody(body: seq<Node>, s: string, lo: nat, hi: nat)
    requires body == DayFirst || body == YearFirst
    requires Accepts(body, s, lo, hi)
    ensures lo <= hi <= |s| && DateShape(s[lo..hi])
  {
    assert Reads(body, s, lo, hi);
    if body == DayFirst {
      DateRuns(body, 1, 2, 1, 2, 2, 4, s, lo, hi);
    } else {
      DateRuns(body, 2, 4, 1, 2, 1, 2, s, lo, hi);
    }
  }

  /** Digit runs of bounded lengths around two single separators, 6 to 10 characters in all. */
  lemma DateRuns(p: seq<Node>, a1: nat, b1: nat, a3: nat, b3: nat, a5: nat, b5: nat, s: string, lo: nat, hi: nat)
    requires |p| == 5 && p[0] == Between(Digit, a1, b1) && p[1] == One(DateSep) && p[2] == Between(Digit, a3, b3)
    requires p[3] == One(DateSep) && p[4] == Between(Digit, a5, b5)
    requires 1 <= a1 && 1 <= a3 && 1 <= a5 && 4 <= a1 + a3 + a5 && b1 + b3 + b5 <= 8
    requires Reads(p, s, lo, hi)
    ensures lo <= hi <= |s| && DateShape(s[lo..hi])
  {
    var n1 := DigitsThenSep(p, a1, b1, s, lo, hi);
    var q, i3 := p[2..], lo + n1 + 1;
    var n3 := DigitsThenSep(q, a3, b3, s, i3, hi);
    var i5 := i3 + n3 + 1;
    var n5 := LastDigits(q[2..], a5, b5, s, i5, hi);
    DateFromRuns(s, lo, n1, n3, n5, hi);
  }

  /** Digits, one separator, digits, one separator, digits: a date shape when 6 to 10 long. */
  lemma DateFromRuns(s: string, lo: nat, n1: nat, n3: nat, n5: nat, hi: nat)
    requires 1 <= n1 && 1 <= n3 && 1 <= n5 && 4 <= n1 + n3 + n5 <= 8
    requires hi == lo + n1 + n3 + n5 + 2 <= |s|
    requires DigitsIn(s, lo, lo + n1) && IsSep(s[lo + n1])
    requires DigitsIn(s, lo + n1 + 1, lo + n1 + 1 + n3) && IsSep(s[lo + n1 + 1 + n3])
    requires DigitsIn(s, lo + n1 + n3 + 2, lo + n1 + n3 + n5 + 2)
    ensures DateShape(s[lo..hi])
  {
    var t := s[lo..hi];
    var i, j := n1, n1 + 1 + n3;
    forall k | 0 <= k < |t|
      ensures k == i || k == j || IsDigit(t[k])
      ensures k == i || k == j ==> IsSep(t[k])
    {
      assert t[k] == s[lo + k];
    }
    assert DateSeparators(t, i, j);
  }

  /** `[0-9,]+\.[0-9]{2}` reads digits and commas, a point and two digits. */
  lemma AmountBodyShape(s: string, lo: nat, hi: nat)
    requires Accepts(AmountBody, s, lo, hi)
    ensures lo <= hi <= |s| && AmountShape(s[lo..hi])
  {
    var q1 := AmountBody[1..];
    var q2 := q1[1..];
    var n1 := RepParts(AmountBody, s, lo, hi);
    assert q1[0] == Lit(".");
    assert StartsAt(s, lo + n1, ".") && Accepts(q2, s, lo + n1 + 1, hi);
    assert Lower(s[lo + n1 + 0]) == Lower("."[0]);
    var n3 := RepParts(q2, s, lo + n1 + 1, hi);
    assert q2[1..] == [];
    var t := s[lo..hi];
    forall k | 0 <= k < |t|
      ensures t[k] == s[lo + k]
      ensures k < |t| - 3 ==> IsDigit(t[k]) || t[k] == ','
      ensures k >= |t| - 2 ==> IsDigit(t[k])
    {
      ClassFacts(s[lo + k]);
    }
  }

  /**
   * `float(t.replace(',', ''))` on an amount never raises: it is the digits
   * with the commas taken out, at a scale of two fraction digits.
   */
  lemma AmountValue(t: string)
    requires AmountShape(t)
    ensures AllDigits(Remove(t[..|t| - 3], ',') + t[|t| - 2..])
    ensures ParseFloat(Remove(t, ',')) == Some(Decimal(DigitsValue(Remove(t[..|t| - 3], ',') + t[|t| - 2..]), 2))
  {
    var whole := t[..|t| - 3];
    var fraction := t[|t| - 2..];
    var w := Remove(whole, ',');
    AmountParts(t, whole, fraction);
    DigitsAfterRemove(whole);
    ParseFloatPoint(w, fraction);
  }

  lemma AmountParts(t: string, whole: string, fraction: string)
    requires AmountShape(t) && whole == t[..|t| - 3] && fraction == t[|t| - 2..]
    ensures AllDigits(fraction) && |fraction| == 2
    ensures Remove(t, ',') == Remove(whole, ',') + ("." + fraction)
  {
    AmountSplit(t, whole, fraction);
    RemoveKeeps(t, whole, "." + fraction);
    assert forall k :: 0 <= k < 2 ==> fraction[k] == t[|t| - 2 + k];
  }

  /** Digits and commas with the commas taken out are digits. */
  lemma {:induction false} DigitsAfterRemove(whole: string)
    requires forall k :: 0 <= k < |whole| ==> IsDigit(whole[k]) || whole[k] == ','
    ensures AllDigits(Remove(whole, ','))
  {
    if whole != [] {
      DigitsAfterRemove(whole[1..]);
    }
  }

  lemma AmountSplit(t: string, whole: string, fraction: string)
    requires AmountShape(t) && whole == t[..|t| - 3] && fraction == t[|t| - 2..]
    ensures t == whole + ("." + fraction) && ',' !in "." + fraction
  {
    var tail := "." + fraction;
    assert tail[0] == '.' && tail[1] == t[|t| - 2] && tail[2] == t[|t| - 1];
  }

  lemma RemoveKeeps(t: string, whole: string, tail: string)
    requires t == whole + tail && ',' !in tail
    ensures Remove(t, ',') == Remove(whole, ',') + tail
  {
    RemoveAppend(whole, tail, ',');
  }
}
