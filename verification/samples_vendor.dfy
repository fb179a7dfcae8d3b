/**
 * Worked examples for `extract_vendor`, and what each of its three patterns
 * needs before it can match at all.
 */
module VendorSamples {
  import opened Wrappers
  import opened Text
  import opened Regex
  import opened RegexSteps
  import opened Groups
  import opened Patterns
  import opened OcrProcessor
  import opened Traces

  /** `from\s*:?\s*([A-Za-z0-9\s,\.]+(?:inc|llc|...)?)`, one node shorter each. */
  const V7: seq<Node> := [Close]
  const V6: seq<Node> := [Opt(Suffix)] + V7
  const V5: seq<Node> := [Plus(Name)] + V6
  const V4: seq<Node> := [Open] + V5
  const V3: seq<Node> := [Star(Space)] + V4
  const V2: seq<Node> := [Maybe(Colon)] + V3
  const V1: seq<Node> := [Star(Space)] + V2
  const V0: seq<Node> := [Lit("from")] + V1

  lemma VendorNodes()
    ensures Nodes(Vendor1) == V0
  {
  }

  /** A name that runs to the end of the text: the optional suffix finds nothing left to read. */
  lemma NameToEnd(s: string, b: nat)
    requires b < |s| && forall j :: b <= j < |s| ==> InClass(Name, s[j])
    ensures Run(V4, s, b, 0, None) == Some(Found(|s|, Some(Span(b, |s|))))
  {
    CloseThen([], s, |s|, b, None);
    assert forall m :: 0 <= m < |Suffix.options| ==> !StartsAt(s, |s|, ["inc", "llc", "ltd", "corp", "corporation", "company", "co"][m]);
    WordsNone(["inc", "llc", "ltd", "corp", "corporation", "company", "co"], V7, s, |s|, b, None);
    OptSkip(Suffix, V7, s, |s|, b, None);
    GreedyIs(Name, Unbounded, s, b, |s| - b);
    RepThen(Name, 1, Unbounded, |s| - b, |s| - b, V6, s, b, b, None);
    OpenThen(V5, s, b, 0, None);
  }

  /** The alternatives of `(?:vendor|supplier|biller)` and of the company suffix. */
  const LabelWords: seq<string> := ["vendor", "supplier", "biller"]
  const SuffixWords: seq<string> := ["inc", "llc", "ltd", "corp", "corporation", "company", "co"]

  /** The third pattern, `([A-Za-z0-9\s,\.]+(?:inc|...|co))`, one node shorter each. */
  const U3: seq<Node> := [Close]
  const U2: seq<Node> := [Suffix] + U3
  const U1: seq<Node> := [Plus(Name)] + U2
  const U0: seq<Node> := [Open] + U1

  lemma LabelNodes()
    ensures Nodes(Vendor2) == [Words(LabelWords)] + V1
    ensures Nodes(Vendor3) == U0 && Suffix == Words(SuffixWords)
  {
  }

  /** No word of `ws` starts at `e`. */
  predicate NoWordAt(ws: seq<string>, s: string, e: nat) {
    forall m :: 0 <= m < |ws| ==> !StartsAt(s, e, ws[m])
  }

  // ---------------------------------------------------------------------------
  // What each pattern needs

  /** The first pattern needs the word `from` somewhere in the text. */
  lemma NoFromNoFirst(s: string)
    requires forall e :: 0 <= e <= |s| ==> !StartsAt(s, e, "from")
    ensures Search(Nodes(Vendor1), s) == None
  {
    VendorNodes();
    forall e | 0 <= e <= |s|
      ensures Run(V0, s, e, 0, None).None?
    {
      LitThen("from", V1, s, e, 0, None);
    }
    SearchFindsNothing(V0, s);
  }

  /** The second pattern needs `vendor`, `supplier` or `biller` somewhere in the text. */
  lemma NoLabelNoSecond(s: string)
    requires forall e :: 0 <= e <= |s| ==> NoWordAt(LabelWords, s, e)
    ensures Search(Nodes(Vendor2), s) == None
  {
    LabelNodes();
    forall e | 0 <= e <= |s|
      ensures Run([Words(LabelWords)] + V1, s, e, 0, None).None?
    {
      assert NoWordAt(LabelWords, s, e);
      WordsNone(LabelWords, V1, s, e, 0, None);
    }
    SearchFindsNothing([Words(LabelWords)] + V1, s);
  }

  lemma SuffixMisses(s: string, e: nat, open: nat)
    requires open <= e <= |s| && NoWordAt(SuffixWords, s, e)
    ensures Run(U2, s, e, open, None).None?
  {
    LabelNodes();
    WordsNone(SuffixWords, U3, s, e, open, None);
  }

  /** The third pattern needs a company suffix somewhere in the text. */
  lemma NoSuffixNoThird(s: string)
    requires forall e :: 0 <= e <= |s| ==> NoWordAt(SuffixWords, s, e)
    ensures Search(Nodes(Vendor3), s) == None
  {
    LabelNodes();
    forall k | 0 <= k <= |s|
      ensures Run(U0, s, k, 0, None).None?
    {
      var n := Greedy(Name, Unbounded, s, k);
      forall e | k + 1 <= e <= k + n
        ensures Run(U2, s, e, k, None).None?
      {
        SuffixMisses(s, e, k);
      }
      RepFails(Name, 1, Unbounded, n, U2, s, k, k, None);
      OpenThen(U1, s, k, 0, None);
    }
    SearchFindsNothing(U0, s);
  }

  /** With none of the three words anywhere, the vendor is the stripped first
      line, or nothing when that line is blank. */
  lemma NoPatternFallsBack(s: string)
    requires forall e :: 0 <= e <= |s| ==> !StartsAt(s, e, "from")
    requires forall e :: 0 <= e <= |s| ==> NoWordAt(LabelWords, s, e)
    requires forall e :: 0 <= e <= |s| ==> NoWordAt(SuffixWords, s, e)
    ensures VendorName(s) == (if AllSpace(Split(s, '\n')[0]) then None else Some(Strip(Split(s, '\n')[0])))
  {
    NoFromNoFirst(s);
    NoLabelNoSecond(s);
    NoSuffixNoThird(s);
    NoHit(s);
    FirstLineWhenNoHit(s);
  }

  lemma FirstLineWhenNoHit(s: string)
    requires FirstHit(VendorPatterns, s) == |VendorPatterns|
    ensures VendorName(s) == (if AllSpace(Split(s, '\n')[0]) then None else Some(Strip(Split(s, '\n')[0])))
  {
  }

  lemma NoHit(s: string)
    requires Search(Nodes(Vendor1), s) == None && Search(Nodes(Vendor2), s) == None
    requires Search(Nodes(Vendor3), s) == None
    ensures FirstHit(VendorPatterns, s) == |VendorPatterns|
  {
    assert forall j :: 0 <= j < |VendorPatterns| ==> Search(Nodes(VendorPatterns[j]), s).None?;
  }

  /** No word of `ws` starts inside a stretch `y` that lacks all their first letters. */
  lemma NoWordIn(ws: seq<string>, s: string, a: nat, y: string)
    requires a + |y| <= |s| && s[a..a + |y|] == y
    requires forall m :: 0 <= m < |ws| ==> ws[m] != [] && LacksLetter(y, ws[m][0])
    ensures forall k :: a <= k < a + |y| ==> NoWordAt(ws, s, k)
  {
    forall k, m | a <= k < a + |y| && 0 <= m < |ws|
      ensures !StartsAt(s, k, ws[m])
    {
      NotStartedIn(ws[m], s, a, y, k);
    }
  }

  /** The vendor is the stripped group of the third pattern when the labelled ones find nothing. */
  lemma VendorFromThird(s: string, m: Match)
    requires Search(Nodes(Vendor1), s) == None && Search(Nodes(Vendor2), s) == None
    requires Search(Nodes(Vendor3), s) == Some(m)
    requires m.group.Some? && m.group.value.lo <= m.group.value.hi <= |s|
    ensures VendorName(s) == Some(Strip(s[m.group.value.lo..m.group.value.hi]))
  {
    TablesWellFormed();
    assert VendorPatterns[0] == Vendor1 && VendorPatterns[1] == Vendor2 && VendorPatterns[2] == Vendor3;
    CapturedAt(VendorPatterns, s, 2, m);
  }

  /** The vendor is the stripped group of the first vendor pattern when it matches. */
  lemma VendorFromFirst(s: string, m: Match)
    requires Search(Nodes(Vendor1), s) == Some(m)
    requires m.group.Some? && m.group.value.lo <= m.group.value.hi <= |s|
    ensures VendorName(s) == Some(Strip(s[m.group.value.lo..m.group.value.hi]))
  {
    TablesWellFormed();
    assert VendorPatterns[0] == Vendor1;
    CapturedAt(VendorPatterns, s, 0, m);
  }

  // ---------------------------------------------------------------------------
  // "Acme Corporation": no label, so the third pattern decides.  Its name part
  // first takes the whole text and then gives characters back until a suffix
  // word follows; the first it meets is `Corp`, tried before `Corporation`.

  /** The characters of the sample that its proofs use. */
  lemma AcmeText(s: string)
    requires s == "Acme Corporation"
    ensures |s| == 16 && s[0..|s|] == s && s[0..9] == "Acme Corp"
    ensures s[5..9] == "Corp" && s[6..13] == "orporat" && s[14..16] == "on" && s[13] == 'i' && s[14] == 'o'
    ensures forall j :: 0 <= j < |s| ==> InClass(Name, s[j])
  {
  }

  lemma AcmeLacksF()
    ensures LacksLetter("Acme Corporation", 'f')
  {
  }

  lemma AcmeLacksV()
    ensures LacksLetter("Acme Corporation", 'v')
  {
  }

  lemma AcmeLacksS()
    ensures LacksLetter("Acme Corporation", 's')
  {
  }

  lemma AcmeLacksB()
    ensures LacksLetter("Acme Corporation", 'b')
  {
  }

  lemma OrporatLetters()
    ensures LacksLetter("orporat", 'i') && LacksLetter("orporat", 'l') && LacksLetter("orporat", 'c')
    ensures LacksLetter("on", 'i') && LacksLetter("on", 'l') && LacksLetter("on", 'c')
  {
  }

  /** A text without the letters `f`, `v`, `s` and `b` has neither label. */
  lemma NoLabelsWithout(s: string)
    requires LacksLetter(s, 'f') && LacksLetter(s, 'v') && LacksLetter(s, 's') && LacksLetter(s, 'b')
    ensures Search(Nodes(Vendor1), s) == None && Search(Nodes(Vendor2), s) == None
  {
    assert s[0..|s|] == s;
    forall e | 0 <= e <= |s|
      ensures !StartsAt(s, e, "from")
    {
      if e < |s| {
        NotStartedIn("from", s, 0, s, e);
      }
    }
    NoFromNoFirst(s);
    NoWordIn(LabelWords, s, 0, s);
    assert NoWordAt(LabelWords, s, |s|);
    NoLabelNoSecond(s);
  }

  /** At the `C`, `inc`, `llc` and `ltd` fail and `corp` reads, closing the group. */
  lemma CorpReads(s: string, i: nat)
    requires i + 4 <= |s| && s[i..i + 4] == "Corp"
    ensures Run(U2, s, i, 0, None) == Some(Found(i + 4, Some(Span(0, i + 4))))
  {
    LabelNodes();
    CloseThen([], s, i + 4, 0, None);
    assert StartsAt(s, i, "corp") by { assert forall k :: 0 <= k < 4 ==> s[i + k] == "Corp"[k]; }
    assert SuffixWords == ["inc"] + (["llc"] + (["ltd"] + (["corp"] + ["corporation", "company", "co"])));
    assert [Close] + [] == U3;
    assert Run(U3, s, i + 4, 0, None).Some?;
    assert s[i] == 'C';
    assert !StartsAt(s, i, "inc") by { assert Lower(s[i + 0]) != Lower("inc"[0]); }
    assert !StartsAt(s, i, "llc") by { assert Lower(s[i + 0]) != Lower("llc"[0]); }
    assert !StartsAt(s, i, "ltd") by { assert Lower(s[i + 0]) != Lower("ltd"[0]); }
    WordsThen("corp", ["corporation", "company", "co"], U3, s, i, 0, None);
    WordsThen("ltd", ["corp"] + ["corporation", "company", "co"], U3, s, i, 0, None);
    WordsThen("llc", ["ltd"] + (["corp"] + ["corporation", "company", "co"]), U3, s, i, 0, None);
    WordsThen("inc", ["llc"] + (["ltd"] + (["corp"] + ["corporation", "company", "co"])), U3, s, i, 0, None);
  }

  /** No suffix word starts after the `C` of the sample. */
  lemma NoSuffixAfterCorp(s: string)
    requires |s| == 16 && s[6..13] == "orporat" && s[14..16] == "on" && s[13] == 'i' && s[14] == 'o'
    ensures forall e :: 6 <= e <= 16 ==> NoWordAt(SuffixWords, s, e)
  {
    OrporatLetters();
    NoWordIn(SuffixWords, s, 6, "orporat");
    NoWordIn(SuffixWords, s, 14, "on");
    assert !StartsAt(s, 13, "inc") by { assert Lower(s[13 + 1]) != Lower("inc"[1]); }
    assert NoWordAt(SuffixWords, s, 13);
    assert NoWordAt(SuffixWords, s, 16);
  }

  lemma AcmeThird(s: string)
    requires s == "Acme Corporation"
    ensures Run(U0, s, 0, 0, None) == Some(Found(9, Some(Span(0, 9))))
  {
    AcmeText(s);
    AcmeThirdRun(s);
  }

  lemma AcmeThirdRun(s: string)
    requires |s| == 16 && s[5..9] == "Corp" && s[6..13] == "orporat" && s[14..16] == "on" && s[13] == 'i' && s[14] == 'o'
    requires forall j :: 0 <= j < |s| ==> InClass(Name, s[j])
    ensures Run(U0, s, 0, 0, None) == Some(Found(9, Some(Span(0, 9))))
  {
    CorpReads(s, 5);
    NoSuffixAfterCorp(s);
    forall e | 6 <= e <= 16
      ensures Run(U2, s, e, 0, None).None?
    {
      SuffixMisses(s, e, 0);
    }
    GreedyIs(Name, Unbounded, s, 0, 16);
    RepThen(Name, 1, Unbounded, 16, 5, U2, s, 0, 0, None);
    OpenThen(U1, s, 0, 0, None);
  }

  /** The unlabelled "Acme Corporation" gives "Acme Corp". */
  lemma AcmeCorporation(s: string)
    requires s == "Acme Corporation"
    ensures ExtractVendor(s) == Some("Acme Corp")
  {
    AcmeText(s);
    AcmeLacksF();
    AcmeLacksV();
    AcmeLacksS();
    AcmeLacksB();
    NoLabelsWithout(s);
    AcmeThird(s);
    LabelNodes();
    SearchFindsAt(U0, s, 0, Found(9, Some(Span(0, 9))));
    VendorFromThird(s, Match(0, 9, Some(Span(0, 9))));
    assert Trimmed(s[0..9]);
  }

  // ---------------------------------------------------------------------------
  // "\nAcme Services": none of the three patterns matches, and the fallback
  // looks only at the first line, which is empty, so there is no vendor even
  // though the second line names one.

  lemma ServicesText(s: string)
    requires s == "\nAcme Services"
    ensures |s| == 14 && s[0..|s|] == s && s[0] == '\n'
    ensures s[0..6] == "\nAcme " && s[7..9] == "er" && s[10..13] == "ice"
    ensures s[0..2] == "\nA" && s[3..10] == "me Serv" && s[12..14] == "es"
    ensures s[2] == 'c' && s[3] == 'm' && s[6] == 'S' && s[7] == 'e' && s[9] == 'v'
    ensures s[10] == 'i' && s[11] == 'c' && s[12] == 'e' && s[13] == 's'
  {
  }

  lemma ServicesLacksF()
    ensures LacksLetter("\nAcme Services", 'f')
  {
  }

  lemma ServicesLabelLetters()
    ensures LacksLetter("\nAcme ", 'v') && LacksLetter("\nAcme ", 's') && LacksLetter("\nAcme ", 'b')
    ensures LacksLetter("er", 'v') && LacksLetter("er", 's') && LacksLetter("er", 'b')
    ensures LacksLetter("ice", 'v') && LacksLetter("ice", 's') && LacksLetter("ice", 'b')
  {
  }

  lemma ServicesEndLetters()
    ensures LacksLetter("\nA", 'i') && LacksLetter("\nA", 'l') && LacksLetter("\nA", 'c')
    ensures LacksLetter("es", 'i') && LacksLetter("es", 'l') && LacksLetter("es", 'c')
  {
  }

  lemma ServicesMiddleLetters()
    ensures LacksLetter("me Serv", 'i') && LacksLetter("me Serv", 'l') && LacksLetter("me Serv", 'c')
  {
  }

  /** A `c` not followed by `o` starts no suffix word. */
  lemma SuffixMissC(s: string, k: nat)
    requires k + 1 < |s| && Lower(s[k]) == 'c' && Lower(s[k + 1]) != 'o'
    ensures NoWordAt(SuffixWords, s, k)
  {
    assert !StartsAt(s, k, "inc") by { assert Lower(s[k + 0]) != Lower("inc"[0]); }
    assert !StartsAt(s, k, "llc") by { assert Lower(s[k + 0]) != Lower("llc"[0]); }
    assert !StartsAt(s, k, "ltd") by { assert Lower(s[k + 0]) != Lower("ltd"[0]); }
    assert !StartsAt(s, k, "corp") by { assert Lower(s[k + 1]) != Lower("corp"[1]); }
    assert !StartsAt(s, k, "corporation") by { assert Lower(s[k + 1]) != Lower("corporation"[1]); }
    assert !StartsAt(s, k, "company") by { assert Lower(s[k + 1]) != Lower("company"[1]); }
    assert !StartsAt(s, k, "co") by { assert Lower(s[k + 1]) != Lower("co"[1]); }
  }

  /** An `i` not followed by `n` starts no suffix word. */
  lemma SuffixMissI(s: string, k: nat)
    requires k + 1 < |s| && Lower(s[k]) == 'i' && Lower(s[k + 1]) != 'n'
    ensures NoWordAt(SuffixWords, s, k)
  {
    assert !StartsAt(s, k, "inc") by { assert Lower(s[k + 1]) != Lower("inc"[1]); }
    assert forall m :: 1 <= m < |SuffixWords| ==> Lower(s[k + 0]) != Lower(SuffixWords[m][0]);
  }

  /** An `s` not followed by `u`, or too near the end for `supplier`, starts no label word. */
  lemma LabelMissS(s: string, k: nat)
    requires k < |s| && Lower(s[k]) == 's' && (k + 8 > |s| || Lower(s[k + 1]) != 'u')
    ensures NoWordAt(LabelWords, s, k)
  {
    assert !StartsAt(s, k, "vendor") by { assert Lower(s[k + 0]) != Lower("vendor"[0]); }
    assert !StartsAt(s, k, "biller") by { assert Lower(s[k + 0]) != Lower("biller"[0]); }
    if k + 8 <= |s| {
      assert !StartsAt(s, k, "supplier") by { assert Lower(s[k + 1]) != Lower("supplier"[1]); }
    }
  }

  /** A `v` not followed by `e` starts no label word. */
  lemma LabelMissV(s: string, k: nat)
    requires k + 1 < |s| && Lower(s[k]) == 'v' && Lower(s[k + 1]) != 'e'
    ensures NoWordAt(LabelWords, s, k)
  {
    assert !StartsAt(s, k, "vendor") by { assert Lower(s[k + 1]) != Lower("vendor"[1]); }
    assert !StartsAt(s, k, "supplier") by { assert Lower(s[k + 0]) != Lower("supplier"[0]); }
    assert !StartsAt(s, k, "biller") by { assert Lower(s[k + 0]) != Lower("biller"[0]); }
  }

  lemma ServicesNoLabel(s: string)
    requires |s| == 14 && s[0..6] == "\nAcme " && s[7..9] == "er" && s[10..13] == "ice"
    requires s[6] == 'S' && s[7] == 'e' && s[9] == 'v' && s[10] == 'i' && s[13] == 's'
    ensures forall e :: 0 <= e <= |s| ==> NoWordAt(LabelWords, s, e)
  {
    ServicesLabelLetters();
    NoWordIn(LabelWords, s, 0, "\nAcme ");
    NoWordIn(LabelWords, s, 7, "er");
    NoWordIn(LabelWords, s, 10, "ice");
    forall e | 0 <= e <= |s|
      ensures NoWordAt(LabelWords, s, e)
    {
      if e == 6 || e == 13 {
        LabelMissS(s, e);
      } else if e == 9 {
        LabelMissV(s, e);
      }
    }
  }

  lemma ServicesNoSuffix(s: string)
    requires |s| == 14 && s[0..2] == "\nA" && s[3..10] == "me Serv" && s[12..14] == "es"
    requires s[2] == 'c' && s[3] == 'm' && s[10] == 'i' && s[11] == 'c' && s[12] == 'e'
    ensures forall e :: 0 <= e <= |s| ==> NoWordAt(SuffixWords, s, e)
  {
    ServicesEndLetters();
    ServicesMiddleLetters();
    NoWordIn(SuffixWords, s, 0, "\nA");
    NoWordIn(SuffixWords, s, 3, "me Serv");
    NoWordIn(SuffixWords, s, 12, "es");
    forall e | 0 <= e <= |s|
      ensures NoWordAt(SuffixWords, s, e)
    {
      if e == 2 || e == 11 {
        SuffixMissC(s, e);
      } else if e == 10 {
        SuffixMissI(s, e);
      }
    }
  }

  lemma ServicesNoFrom(s: string)
    requires s == "\nAcme Services"
    ensures forall e :: 0 <= e <= |s| ==> !StartsAt(s, e, "from")
  {
    ServicesLacksF();
    assert s[0..|s|] == s;
    forall e | 0 <= e <= |s|
      ensures !StartsAt(s, e, "from")
    {
      if e < |s| {
        NotStartedIn("from", s, 0, s, e);
      }
    }
  }

  /** "\nAcme Services" gives no vendor: the first line is blank. */
  lemma AcmeServicesOnSecondLine(s: string)
    requires s == "\nAcme Services"
    ensures ExtractVendor(s) == None
  {
    ServicesText(s);
    ServicesNoFrom(s);
    ServicesNoLabel(s);
    ServicesNoSuffix(s);
    NoPatternFallsBack(s);
    assert Split(s, '\n')[0] == [];
  }

  // ---------------------------------------------------------------------------
  // "From ": the label matches, and the name part takes the one space after
  // it, which strips to the empty vendor.

  /** Nothing is left for the name at the end of the text. */
  lemma NameAtEndFails(s: string)
    ensures Run(V4, s, |s|, 0, None).None?
  {
    OpenThen(V5, s, |s|, 0, None);
    GreedyIs(Name, Unbounded, s, |s|, 0);
    RepFails(Name, 1, Unbounded, 0, V6, s, |s|, |s|, None);
  }

  lemma LabelAtEndFails(s: string)
    ensures Run(V2, s, |s|, 0, None).None?
  {
    NameAtEndFails(s);
    GreedyIs(Space, Unbounded, s, |s|, 0);
    RepFails(Space, 0, Unbounded, 0, V4, s, |s|, 0, None);
    GreedyIs(Colon, Finite(1), s, |s|, 0);
    RepFails(Colon, 0, Finite(1), 0, V3, s, |s|, 0, None);
  }

  /** One last space: the spaces before the name give it back, and it becomes the name. */
  lemma LastSpaceIsName(s: string, i: nat)
    requires i + 1 == |s| && s[i] == ' '
    ensures Run(V2, s, i, 0, None) == Some(Found(|s|, Some(Span(i, |s|))))
  {
    NameToEnd(s, i);
    NameAtEndFails(s);
    GreedyIs(Space, Unbounded, s, i, 1);
    RepThen(Space, 0, Unbounded, 1, 0, V4, s, i, 0, None);
    GreedyIs(Colon, Finite(1), s, i, 0);
    RepThen(Colon, 0, Finite(1), 0, 0, V3, s, i, 0, None);
  }

  /** `from` and one space at the end of the text. */
  lemma FromSpaceRun(s: string)
    requires |s| == 5 && StartsAt(s, 0, "from") && s[4] == ' '
    ensures Run(V0, s, 0, 0, None) == Some(Found(5, Some(Span(4, 5))))
  {
    LastSpaceIsName(s, 4);
    LabelAtEndFails(s);
    GreedyIs(Space, Unbounded, s, 4, 1);
    RepThen(Space, 0, Unbounded, 1, 0, V2, s, 4, 0, None);
    LitThen("from", V1, s, 0, 0, None);
  }

  /** "From " gives the empty vendor, not none. */
  lemma FromAlone(s: string)
    requires s == "From "
    ensures ExtractVendor(s) == Some("")
  {
    assert StartsAt(s, 0, "from");
    FromSpaceRun(s);
    VendorNodes();
    SearchFindsAt(V0, s, 0, Found(5, Some(Span(4, 5))));
    VendorFromFirst(s, Match(0, 5, Some(Span(4, 5))));
    assert AllSpace(s[4..5]);
  }
}
