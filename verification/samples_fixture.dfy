/**
 * The sample invoice of the test suite: the lines "INVOICE #12345",
 * "Date: 01/01/2023", "Due Date: 01/31/2023", "Amount: $500.00" and
 * "From: Test Company Inc." joined by newlines, followed field by field
 * through the extractor.
 */
module FixtureSample {
  import opened Wrappers
  import opened Numbers
  import opened Text
  import opened Regex
  import opened RegexSteps
  import opened Groups
  import opened Patterns
  import opened Shapes
  import opened OcrProcessor
  import opened Traces
  import opened LineTexts
  import opened SampleTexts
  import opened LineLetters
  import opened NumberSamples
  import opened DateSamples
  import opened TotalSamples
  import opened VendorSamples

  const Fixture: string :=
    "INVOICE #12345\n" + "Date: 01/01/2023\n" + "Due Date: 01/31/2023\n" + "Amount: $500.00\n" + "From: Test Company Inc."

  // ---------------------------------------------------------------------------
  // Invoice date: the first date pattern wants `invoice date`, `bill date` or
  // `statement date` and finds none; the second reads "Date: 01/01/2023".

  /** After `INVOICE`, one space and then `#`: no `date` follows. */
  lemma NoDateAfterInvoice(s: string)
    requires HashLine(s, 0)
    ensures Run(Spaced(["is", "of"]), s, 7, 0, None) == None
  {
    var lab := Labelled(["is", "of"]);
    assert !StartsAt(s, 7, "date") by { assert Lower(s[7 + 0]) != Lower("date"[0]); }
    assert !StartsAt(s, 8, "date") by { assert Lower(s[8 + 0]) != Lower("date"[0]); }
    LitThen("date", Connector([":"] + ["is", "of"]) + DateTail, s, 7, 0, None);
    LitThen("date", Connector([":"] + ["is", "of"]) + DateTail, s, 8, 0, None);
    GreedyIs(Space, Unbounded, s, 7, 1);
    RepFails(Space, 0, Unbounded, 1, lab, s, 7, 0, None);
  }

  /** No `invoice`, `bill` or `statement` starts inside `y`. */
  lemma NoDateWordIn(s: string, a: nat, y: string)
    requires a + |y| <= |s| && s[a..a + |y|] == y
    requires LacksLetter(y, 'i') && LacksLetter(y, 'b') && LacksLetter(y, 's')
    ensures forall k :: a <= k < a + |y| ==> Run(Nodes(Date1), s, k, 0, None).None?
  {
    DateNodes();
    WordsAbsent(DateWords, Spaced(["is", "of"]), s, a, y);
  }

  /** `INVOICE` is read at 0 but no date label follows it, and the second `I` starts no word. */
  lemma Date1AtInvoice(s: string)
    requires HashLine(s, 0)
    ensures Run(Nodes(Date1), s, 0, 0, None).None? && Run(Nodes(Date1), s, 4, 0, None).None?
  {
    Date1AtZero(s);
    Date1AtFour(s);
  }

  /** `invoice` matches at the start, but no date follows it. */
  lemma Date1AtZero(s: string)
    requires HashLine(s, 0)
    ensures Run(Nodes(Date1), s, 0, 0, None).None?
  {
    var w := Spaced(["is", "of"]);
    DateNodes();
    NoDateAfterInvoice(s);
    assert DateWords == ["invoice"] + ["bill", "statement"];
    InvoiceUpper(s, 0);
    WordsThen("invoice", ["bill", "statement"], w, s, 0, 0, None);
    assert !StartsAt(s, 0, "bill") by { assert Lower(s[0 + 0]) != Lower("bill"[0]); }
    assert !StartsAt(s, 0, "statement") by { assert Lower(s[0 + 0]) != Lower("statement"[0]); }
    WordsNone(["bill", "statement"], w, s, 0, 0, None);
  }

  /** No date word starts at the second `I` of `INVOICE`. */
  lemma Date1AtFour(s: string)
    requires HashLine(s, 0)
    ensures Run(Nodes(Date1), s, 4, 0, None).None?
  {
    DateNodes();
    assert !StartsAt(s, 4, "invoice") by { assert Lower(s[4 + 1]) != Lower("invoice"[1]); }
    assert !StartsAt(s, 4, "bill") by { assert Lower(s[4 + 0]) != Lower("bill"[0]); }
    assert !StartsAt(s, 4, "statement") by { assert Lower(s[4 + 0]) != Lower("statement"[0]); }
    WordsNone(DateWords, Spaced(["is", "of"]), s, 4, 0, None);
  }

  lemma Date1NotOnFirstLine(s: string)
    requires FixtureChars(s) && s[1..4] == "NVO" && s[5..15] == "CE #12345\n"
    ensures forall k :: 0 <= k < 15 ==> Run(Nodes(Date1), s, k, 0, None).None?
  {
    Date1AtInvoice(s);
    HashLineRestLetters1();
    HashLineRestLetters2();
    NoDateWordIn(s, 1, "NVO");
    NoDateWordIn(s, 5, "CE #12345\n");
  }

  lemma Date1NotOnDateLines(s: string)
    requires 53 <= |s| && s[15..32] == "Date: 01/01/2023\n" && s[32..53] == "Due Date: 01/31/2023\n"
    ensures forall k :: 15 <= k < 53 ==> Run(Nodes(Date1), s, k, 0, None).None?
  {
    DateLineLetters1();
    DateLineLetters2();
    NoDateWordIn(s, 15, "Date: 01/01/2023\n");
    DueLineLetters1();
    DueLineLetters2();
    DueLineLetters3();
    NoDateWordIn(s, 32, "Due Date: 01/31/2023\n");
  }

  lemma Date1NotOnAmountLine(s: string)
    requires 77 <= |s| && s[53..69] == "Amount: $500.00\n" && s[69..77] == "From: Te"
    ensures forall k :: 53 <= k < 77 ==> Run(Nodes(Date1), s, k, 0, None).None?
  {
    AmountLineLetters1();
    AmountLineLetters2();
    NoDateWordIn(s, 53, "Amount: $500.00\n");
    FromLineRestLetters1();
    NoDateWordIn(s, 69, "From: Te");
  }

  /** The rest of the fifth line: `st C` is not `statement`, and `Inc.` is too short for `invoice`. */
  lemma Date1NotAtEnd(s: string)
    requires FixtureChars(s) && s[78..88] == "t Company " && s[89..92] == "nc."
    ensures forall k :: 77 <= k <= 92 ==> Run(Nodes(Date1), s, k, 0, None).None?
  {
    Date1AtCompanyAndInc(s);
    FromLineRestLetters1();
    FromLineRestLetters2();
    FromLineRestLetters3();
    NoDateWordIn(s, 78, "t Company ");
    NoDateWordIn(s, 89, "nc.");
  }

  lemma Date1AtCompanyAndInc(s: string)
    requires FixtureChars(s)
    ensures Run(Nodes(Date1), s, 77, 0, None).None? && Run(Nodes(Date1), s, 88, 0, None).None?
    ensures Run(Nodes(Date1), s, 92, 0, None).None?
  {
    var w := Spaced(["is", "of"]);
    DateNodes();
    assert !StartsAt(s, 77, "invoice") by { assert Lower(s[77 + 0]) != Lower("invoice"[0]); }
    assert !StartsAt(s, 77, "bill") by { assert Lower(s[77 + 0]) != Lower("bill"[0]); }
    assert !StartsAt(s, 77, "statement") by { assert Lower(s[77 + 2]) != Lower("statement"[2]); }
    WordsNone(DateWords, w, s, 77, 0, None);
    assert !StartsAt(s, 88, "bill") by { assert Lower(s[88 + 0]) != Lower("bill"[0]); }
    WordsNone(DateWords, w, s, 88, 0, None);
    WordsNone(DateWords, w, s, 92, 0, None);
  }

  lemma Date1Nowhere(s: string)
    requires FixtureChars(s) && s[1..4] == "NVO" && s[5..15] == "CE #12345\n"
    requires s[15..32] == "Date: 01/01/2023\n" && s[32..53] == "Due Date: 01/31/2023\n"
    requires s[53..69] == "Amount: $500.00\n" && s[69..77] == "From: Te"
    requires s[78..88] == "t Company " && s[89..92] == "nc."
    ensures Search(Nodes(Date1), s) == None
  {
    Date1NotOnFirstLine(s);
    Date1NotOnDateLines(s);
    Date1NotOnAmountLine(s);
    Date1NotAtEnd(s);
    SearchFindsNothing(Nodes(Date1), s);
  }

  lemma Date2OnSecondLine(s: string)
    requires FixtureChars(s) && s[0..15] == "INVOICE #12345\n"
    ensures Search(Nodes(Date2), s) == Some(Match(15, 31, Some(Span(21, 31))))
  {
    HashLineLetters1();
    NoDateLabelIn(s, 0, "INVOICE #12345\n");
    DateNodes();
    DateLineRun(s, 15);
    SearchFindsAt(Nodes(Date2), s, 15, Found(31, Some(Span(21, 31))));
  }

  // ---------------------------------------------------------------------------
  // Due date: `due date` on the third line, and no `due` or `payment` before it.

  /** No `due` or `payment` starts inside `y`. */
  lemma NoDueWordIn(s: string, a: nat, y: string)
    requires a + |y| <= |s| && s[a..a + |y|] == y && LacksLetter(y, 'd') && LacksLetter(y, 'p')
    ensures forall k :: a <= k < a + |y| ==> Run(Nodes(DueDate1), s, k, 0, None).None?
  {
    DateNodes();
    WordsAbsent(DueWords, Spaced(["is"]), s, a, y);
  }

  lemma NoDueWordInHeadLines(s: string)
    requires 32 <= |s| && s[0..15] == "INVOICE #12345\n" && s[16..32] == "ate: 01/01/2023\n"
    ensures forall k :: 0 <= k < 15 || 16 <= k < 32 ==> Run(Nodes(DueDate1), s, k, 0, None).None?
  {
    HashLineLetters1();
    NoDueWordIn(s, 0, "INVOICE #12345\n");
    DateLineRestLetters1();
    NoDueWordIn(s, 16, "ate: 01/01/2023\n");
  }

  lemma DueDateOnThirdLine(s: string)
    requires FixtureChars(s) && s[0..15] == "INVOICE #12345\n" && s[16..32] == "ate: 01/01/2023\n"
    ensures Search(Nodes(DueDate1), s) == Some(Match(32, 52, Some(Span(42, 52))))
  {
    NoDueWordInHeadLines(s);
    DateNodes();
    assert !StartsAt(s, 15, "due") by { assert Lower(s[15 + 1]) != Lower("due"[1]); }
    assert !StartsAt(s, 15, "payment") by { assert Lower(s[15 + 0]) != Lower("payment"[0]); }
    WordsNone(DueWords, Spaced(["is"]), s, 15, 0, None);
    DueDateLineRun(s, 32);
    SearchFindsAt(Nodes(DueDate1), s, 32, Found(52, Some(Span(42, 52))));
  }

  // ---------------------------------------------------------------------------
  // Vendor: `from` on the fifth line, and the name runs to the end of the text.

  /** "From: Test Company Inc." seen through the pattern. */
  lemma FromLineShape(s: string, a: nat)
    requires FromLine(s, a)
    ensures StartsAt(s, a, "from") && InClass(Colon, s[a + 4]) && !InClass(Space, s[a + 4])
    ensures InClass(Space, s[a + 5]) && !InClass(Space, s[a + 6])
    ensures forall j :: a + 6 <= j < a + 23 ==> InClass(Name, s[j])
  {
    forall j | a + 6 <= j < a + 23
      ensures InClass(Name, s[j])
    {
    }
  }

  /** A `from` line at the end of the text: the name runs to the end. */
  lemma FromLineRun(s: string, a: nat)
    requires FromLine(s, a) && a + 23 == |s|
    ensures Run(V0, s, a, 0, None) == Some(Found(a + 23, Some(Span(a + 6, a + 23))))
  {
    FromLineShape(s, a);
    NameToEnd(s, a + 6);
    FromLead(s, a);
  }

  /** `\s*:?\s*` over ": ", then the name. */
  lemma FromLead(s: string, a: nat)
    requires a + 6 < |s| && StartsAt(s, a, "from") && InClass(Colon, s[a + 4]) && !InClass(Space, s[a + 4])
    requires InClass(Space, s[a + 5]) && !InClass(Space, s[a + 6])
    requires Run(V4, s, a + 6, 0, None).Some?
    ensures Run(V0, s, a, 0, None) == Run(V4, s, a + 6, 0, None)
  {
    ColonThenName(s, a + 4);
    GreedyIs(Space, Unbounded, s, a + 4, 0);
    RepThen(Space, 0, Unbounded, 0, 0, V2, s, a + 4, 0, None);
    LitThen("from", V1, s, a, 0, None);
  }

  /** `:?\s*` over ": ", then the name. */
  lemma ColonThenName(s: string, i: nat)
    requires i + 2 < |s| && InClass(Colon, s[i]) && InClass(Space, s[i + 1]) && !InClass(Space, s[i + 2])
    requires Run(V4, s, i + 2, 0, None).Some?
    ensures Run(V2, s, i, 0, None) == Run(V4, s, i + 2, 0, None)
  {
    GreedyIs(Space, Unbounded, s, i + 1, 1);
    RepThen(Space, 0, Unbounded, 1, 1, V4, s, i + 1, 0, None);
    GreedyIs(Colon, Finite(1), s, i, 1);
    RepThen(Colon, 0, Finite(1), 1, 1, V3, s, i, 0, None);
  }

  /** No `from` on the first four lines. */
  lemma NoFromBefore(s: string)
    requires 69 <= |s| && s[0..15] == "INVOICE #12345\n" && s[15..32] == "Date: 01/01/2023\n"
    requires s[32..53] == "Due Date: 01/31/2023\n" && s[53..69] == "Amount: $500.00\n"
    ensures forall k :: 0 <= k < 69 ==> Run(V0, s, k, 0, None).None?
  {
    HashLineLetters2();
    LitAbsent("from", V1, s, 0, "INVOICE #12345\n");
    DateLineLetters2();
    LitAbsent("from", V1, s, 15, "Date: 01/01/2023\n");
    DueLineLetters4();
    LitAbsent("from", V1, s, 32, "Due Date: 01/31/2023\n");
    AmountLineLetters2();
    LitAbsent("from", V1, s, 53, "Amount: $500.00\n");
  }

  lemma VendorOnFifthLine(s: string)
    requires FixtureChars(s) && s[0..15] == "INVOICE #12345\n" && s[15..32] == "Date: 01/01/2023\n"
    requires s[32..53] == "Due Date: 01/31/2023\n" && s[53..69] == "Amount: $500.00\n"
    ensures Search(Nodes(Vendor1), s) == Some(Match(69, 92, Some(Span(75, 92))))
  {
    FromLineRun(s, 69);
    NoFromBefore(s);
    VendorNodes();
    SearchFindsAt(V0, s, 69, Found(92, Some(Span(75, 92))));
  }

  // ---------------------------------------------------------------------------
  // Total: no `total` anywhere, so the second pattern decides, with `Amount:`
  // on the fourth line.

  /** No `total` starts inside `y`. */
  lemma NoTotalIn(s: string, a: nat, y: string)
    requires a + |y| <= |s| && s[a..a + |y|] == y && LacksLetter(y, 't')
    ensures forall k :: a <= k < a + |y| ==> Run(T0, s, k, 0, None).None?
  {
    LitAbsent("total", T1, s, a, y);
  }

  /** A `t` followed by anything but `o` starts no `total`. */
  lemma TotalMissesAt(s: string, i: nat)
    requires i + 1 < |s| && Lower(s[i + 1]) != 'o'
    ensures Run(T0, s, i, 0, None).None?
  {
    assert !StartsAt(s, i, "total") by { assert Lower(s[i + 1]) != Lower("total"[1]); }
    LitThen("total", T1, s, i, 0, None);
  }

  lemma NoTotalInHeadLines(s: string)
    requires 53 <= |s| && s[0..15] == "INVOICE #12345\n" && s[15..17] == "Da" && s[18..32] == "e: 01/01/2023\n"
    requires s[32..38] == "Due Da" && s[39..53] == "e: 01/31/2023\n"
    ensures forall k :: 0 <= k < 17 || 18 <= k < 38 || 39 <= k < 53 ==> Run(T0, s, k, 0, None).None?
  {
    HashLineLetters2();
    NoTotalIn(s, 0, "INVOICE #12345\n");
    DateLineRestLetters3();
    NoTotalIn(s, 15, "Da");
    NoTotalIn(s, 18, "e: 01/01/2023\n");
    DueLineRestLetters1();
    NoTotalIn(s, 32, "Due Da");
    NoTotalIn(s, 39, "e: 01/31/2023\n");
  }

  lemma NoTotalHead(s: string)
    requires FixtureChars(s) && s[0..15] == "INVOICE #12345\n" && s[15..17] == "Da" && s[18..32] == "e: 01/01/2023\n"
    requires s[32..38] == "Due Da" && s[39..53] == "e: 01/31/2023\n"
    ensures forall k :: 0 <= k < 53 ==> Run(T0, s, k, 0, None).None?
  {
    NoTotalInHeadLines(s);
    forall k | 0 <= k < 53
      ensures Run(T0, s, k, 0, None).None?
    {
      if k == 17 || k == 38 {
        TotalMissesAt(s, k);
      }
    }
  }

  lemma NoTotalInLastLines(s: string)
    requires 92 <= |s| && s[53..58] == "Amoun" && s[59..69] == ": $500.00\n"
    requires s[69..75] == "From: " && s[76..78] == "es" && s[79..92] == " Company Inc."
    ensures forall k :: 53 <= k < 58 || 59 <= k < 75 || 76 <= k < 78 || 79 <= k < 92 ==> Run(T0, s, k, 0, None).None?
  {
    LastLinesLetters1();
    NoTotalIn(s, 53, "Amoun");
    NoTotalIn(s, 59, ": $500.00\n");
    NoTotalIn(s, 69, "From: ");
    NoTotalIn(s, 76, "es");
    LastLinesLetters2();
    NoTotalIn(s, 79, " Company Inc.");
  }

  lemma NoTotalTail(s: string)
    requires FixtureChars(s) && s[53..58] == "Amoun" && s[59..69] == ": $500.00\n"
    requires s[69..75] == "From: " && s[76..78] == "es" && s[79..92] == " Company Inc."
    ensures forall k :: 53 <= k <= 92 ==> Run(T0, s, k, 0, None).None?
  {
    NoTotalInLastLines(s);
    forall k | 53 <= k <= 92
      ensures Run(T0, s, k, 0, None).None?
    {
      if k == 58 || k == 75 || k == 78 {
        TotalMissesAt(s, k);
      } else if k == 92 {
        LitThen("total", T1, s, 92, 0, None);
      }
    }
  }

  lemma Total1Nowhere(s: string)
    requires FixtureChars(s) && s[0..15] == "INVOICE #12345\n" && s[15..17] == "Da" && s[18..32] == "e: 01/01/2023\n"
    requires s[32..38] == "Due Da" && s[39..53] == "e: 01/31/2023\n"
    requires s[53..58] == "Amoun" && s[59..69] == ": $500.00\n"
    requires s[69..75] == "From: " && s[76..78] == "es" && s[79..92] == " Company Inc."
    ensures Search(Nodes(Total1), s) == None
  {
    NoTotalHead(s);
    NoTotalTail(s);
    TotalNodes();
    SearchFindsNothing(T0, s);
  }

  /** "Amount: $500.00" seen through the pattern: `amount`, no connecting word, `: `, the sign and the amount. */
  lemma AmountLineShape(s: string, a: nat)
    requires AmountLine(s, a)
    ensures StartsAt(s, a, "amount") && Lower(s[a + 6]) != 'd' && Lower(s[a + 6]) != 't'
    ensures InClass(ColonSpace, s[a + 6]) && InClass(ColonSpace, s[a + 7]) && !InClass(Space, s[a + 6])
    ensures !InClass(ColonSpace, s[a + 8]) && InClass(Currency, s[a + 8]) && AmountAt(s, a + 9, 3)
  {
  }

  /** After `amount`: no connecting word, then the lead and the amount. */
  lemma AmountAfterWord(s: string, i: nat)
    requires i + 9 <= |s| && Lower(s[i]) != 'd' && Lower(s[i]) != 't' && !InClass(Space, s[i])
    requires InClass(ColonSpace, s[i]) && InClass(ColonSpace, s[i + 1])
    requires !InClass(ColonSpace, s[i + 2]) && InClass(Currency, s[i + 2]) && AmountAt(s, i + 3, 3)
    ensures Run(A1, s, i, 0, None) == Some(Found(i + 9, Some(Span(i + 3, i + 9))))
  {
    AmountLeadRun(s, i, i + 2, i + 3, 3);
    AmountSkipsWord(s, i);
    GreedyIs(Space, Unbounded, s, i, 0);
    RepThen(Space, 0, Unbounded, 0, 0, A2, s, i, 0, None);
  }

  /** Neither `due` nor `total` follows `amount`, so the optional word reads nothing. */
  lemma AmountSkipsWord(s: string, i: nat)
    requires i < |s| && Lower(s[i]) != 'd' && Lower(s[i]) != 't'
    requires Run(AmountTail0, s, i, 0, None).Some?
    ensures Run(A2, s, i, 0, None) == Run(AmountTail0, s, i, 0, None)
  {
    assert !StartsAt(s, i, "due") by { assert Lower(s[i + 0]) != Lower("due"[0]); }
    assert !StartsAt(s, i, "total") by { assert Lower(s[i + 0]) != Lower("total"[0]); }
    assert forall m :: 0 <= m < 2 ==> !StartsAt(s, i, ["due", "total"][m]);
    WordsNone(["due", "total"], AmountTail0, s, i, 0, None);
    OptSkip(Words(["due", "total"]), AmountTail0, s, i, 0, None);
  }

  /** "Amount: $500.00" reads as the second total pattern, with the amount as the group. */
  lemma AmountLineRun(s: string, a: nat)
    requires AmountLine(s, a)
    ensures Run(A0, s, a, 0, None) == Some(Found(a + 15, Some(Span(a + 9, a + 15))))
  {
    AmountLineShape(s, a);
    AmountAfterWord(s, a + 6);
    LitThen("amount", A1, s, a, 0, None);
  }

  lemma Total2OnFourthLine(s: string)
    requires FixtureChars(s) && s[0..15] == "INVOICE #12345\n" && s[17..32] == "te: 01/01/2023\n"
    requires s[32..37] == "Due D" && s[38..53] == "te: 01/31/2023\n"
    ensures Search(Nodes(Total2), s) == Some(Match(53, 68, Some(Span(62, 68))))
  {
    AmountLineRun(s, 53);
    NoAmountBefore(s);
    AmountNodes();
    SearchFindsAt(A0, s, 53, Found(68, Some(Span(62, 68))));
  }

  /** No `amount` starts inside `y`. */
  lemma NoAmountIn(s: string, a: nat, y: string)
    requires a + |y| <= |s| && s[a..a + |y|] == y && LacksLetter(y, 'a')
    ensures forall k :: a <= k < a + |y| ==> Run(A0, s, k, 0, None).None?
  {
    LitAbsent("amount", A1, s, a, y);
  }

  /** A letter that is not `a`, or an `a` followed by anything but `m`, starts no `amount`. */
  lemma AmountMissesAt(s: string, i: nat)
    requires i + 1 < |s| && (Lower(s[i]) != 'a' || Lower(s[i + 1]) != 'm')
    ensures Run(A0, s, i, 0, None).None?
  {
    assert !StartsAt(s, i, "amount") by {
      if Lower(s[i]) != 'a' {
        assert Lower(s[i + 0]) != Lower("amount"[0]);
      } else {
        assert Lower(s[i + 1]) != Lower("amount"[1]);
      }
    }
    LitThen("amount", A1, s, i, 0, None);
  }

  lemma NoAmountInHeadLines(s: string)
    requires 53 <= |s| && s[0..15] == "INVOICE #12345\n" && s[17..32] == "te: 01/01/2023\n"
    requires s[32..37] == "Due D" && s[38..53] == "te: 01/31/2023\n"
    ensures forall k :: 0 <= k < 15 || 17 <= k < 37 || 38 <= k < 53 ==> Run(A0, s, k, 0, None).None?
  {
    HashLineLetters3();
    NoAmountIn(s, 0, "INVOICE #12345\n");
    DateLineRestLetters2();
    NoAmountIn(s, 17, "te: 01/01/2023\n");
    DueLineRestLetters3();
    NoAmountIn(s, 32, "Due D");
    DueLineRestLetters2();
    NoAmountIn(s, 38, "te: 01/31/2023\n");
  }

  /** No `amount` on the first three lines. */
  lemma NoAmountBefore(s: string)
    requires 53 <= |s| && s[15] == 'D' && s[16] == 'a' && s[17] == 't' && s[37] == 'a' && s[38] == 't'
    requires s[0..15] == "INVOICE #12345\n" && s[17..32] == "te: 01/01/2023\n"
    requires s[32..37] == "Due D" && s[38..53] == "te: 01/31/2023\n"
    ensures forall k :: 0 <= k < 53 ==> Run(A0, s, k, 0, None).None?
  {
    NoAmountInHeadLines(s);
    forall k | 0 <= k < 53
      ensures Run(A0, s, k, 0, None).None?
    {
      if k == 15 || k == 16 || k == 37 {
        AmountMissesAt(s, k);
      }
    }
  }

  lemma FiveHundredDollars()
    ensures AmountShape("500.00") && AmountCents("500.00") == 50000
  {
    var g := "500.00";
    assert g[..|g| - 3] == "500" && g[|g| - 2..] == "00";
    assert Remove("500", ',') == "500";
    FiftyThousand();
    assert "500" + "00" == "50000";
    CentsOf(g, "50000", 50000);
  }

  lemma FiftyThousand()
    ensures AllDigits("50000") && DigitsValue("50000") == 50000
  {
    DigitsSnoc([], '5');
    assert [] + ['5'] == "5";
    DigitsSnoc("5", '0');
    assert "5" + ['0'] == "50";
    DigitsSnoc("50", '0');
    assert "50" + ['0'] == "500";
    DigitsSnoc("500", '0');
    assert "500" + ['0'] == "5000";
    DigitsSnoc("5000", '0');
    assert "5000" + ['0'] == "50000";
  }

  // ---------------------------------------------------------------------------
  // The record

  /** The invoice date is the second date pattern's group when the first finds nothing. */
  lemma DateFromSecond(s: string, m: Match)
    requires Search(Nodes(Date1), s) == None && Search(Nodes(Date2), s) == Some(m)
    requires m.group.Some? && m.group.value.lo <= m.group.value.hi <= |s|
    ensures ExtractDate(s) == Some(s[m.group.value.lo..m.group.value.hi])
  {
    TablesWellFormed();
    assert DatePatterns[0] == Date1 && DatePatterns[1] == Date2;
    CapturedAt(DatePatterns, s, 1, m);
  }

  /** The due date is the first due-date pattern's group when it matches. */
  lemma DueDateFromFirst(s: string, m: Match)
    requires Search(Nodes(DueDate1), s) == Some(m)
    requires m.group.Some? && m.group.value.lo <= m.group.value.hi <= |s|
    ensures ExtractDueDate(s) == Some(s[m.group.value.lo..m.group.value.hi])
  {
    TablesWellFormed();
    assert DueDatePatterns[0] == DueDate1;
    CapturedAt(DueDatePatterns, s, 0, m);
  }

  /** The total is read from the second total pattern's group when the first finds nothing. */
  lemma TotalFromSecond(s: string, m: Match)
    requires Search(Nodes(Total1), s) == None && Search(Nodes(Total2), s) == Some(m)
    requires m.group.Some? && m.group.value.lo <= m.group.value.hi <= |s|
    ensures var g := s[m.group.value.lo..m.group.value.hi];
            AmountShape(g) && ExtractTotalAmount(s) == Some(AmountCents(g))
  {
    TablesWellFormed();
    assert TotalPatterns[0] == Total1 && TotalPatterns[1] == Total2;
    CapturedAt(TotalPatterns, s, 1, m);
    assert Search(Nodes(TotalPatterns[1]), s).Some?;
    assert ExtractTotalAmount(s).Some?;
  }

  lemma FixtureDate(s: string)
    requires s == Fixture
    ensures ExtractDate(s) == Some("01/01/2023")
  {
    FixtureLines(s);
    FixtureCharsHold(s);
    FixtureHead(s);
    FixtureTail(s);
    DateOfLines(s);
  }

  lemma DateOfLines(s: string)
    requires FixtureChars(s) && s[0..15] == "INVOICE #12345\n" && s[1..4] == "NVO" && s[5..15] == "CE #12345\n"
    requires s[15..32] == "Date: 01/01/2023\n" && s[32..53] == "Due Date: 01/31/2023\n"
    requires s[53..69] == "Amount: $500.00\n" && s[69..77] == "From: Te"
    requires s[78..88] == "t Company " && s[89..92] == "nc." && s[21..31] == "01/01/2023"
    ensures ExtractDate(s) == Some("01/01/2023")
  {
    Date1Nowhere(s);
    Date2OnSecondLine(s);
    DateFromSecond(s, Match(15, 31, Some(Span(21, 31))));
  }

  lemma FixtureDueDate(s: string)
    requires s == Fixture
    ensures ExtractDueDate(s) == Some("01/31/2023")
  {
    FixtureLines(s);
    FixtureCharsHold(s);
    FixtureHead(s);
    DueDateOnThirdLine(s);
    DueDateFromFirst(s, Match(32, 52, Some(Span(42, 52))));
  }

  lemma FixtureVendor(s: string)
    requires s == Fixture
    ensures ExtractVendor(s) == Some("Test Company Inc.")
  {
    FixtureLines(s);
    FixtureCharsHold(s);
    FixtureTail(s);
    VendorOnFifthLine(s);
    VendorFromFirst(s, Match(69, 92, Some(Span(75, 92))));
    assert Trimmed(s[75..92]);
  }

  lemma FixtureTotal(s: string)
    requires s == Fixture
    ensures ExtractTotalAmount(s) == Some(50000)
  {
    FixtureLines(s);
    FixtureCharsHold(s);
    FixtureHead(s);
    FixtureTail(s);
    TotalOfLines(s);
  }

  lemma TotalOfLines(s: string)
    requires FixtureChars(s) && s[0..15] == "INVOICE #12345\n" && s[15..17] == "Da" && s[18..32] == "e: 01/01/2023\n"
    requires s[32..38] == "Due Da" && s[39..53] == "e: 01/31/2023\n"
    requires s[53..58] == "Amoun" && s[59..69] == ": $500.00\n"
    requires s[69..75] == "From: " && s[76..78] == "es" && s[79..92] == " Company Inc."
    requires s[17..32] == "te: 01/01/2023\n" && s[32..37] == "Due D" && s[38..53] == "te: 01/31/2023\n"
    requires s[62..68] == "500.00"
    ensures ExtractTotalAmount(s) == Some(50000)
  {
    Total1Nowhere(s);
    Total2OnFourthLine(s);
    TotalFromSecond(s, Match(53, 68, Some(Span(62, 68))));
    FiveHundredDollars();
  }

  /** The sample invoice gives its number, both dates, the vendor and 500 dollars,
      no line items, and itself as the raw text. */
  lemma FixtureRecord(s: string)
    requires s == Fixture
    ensures ExtractInvoiceData(s) ==
              InvoiceRecord(Some("12345"), Some("01/01/2023"), Some("01/31/2023"),
                            Some("Test Company Inc."), Some(50000), [], s)
  {
    FixtureLines(s);
    HashNumberGives(s);
    FixtureDate(s);
    FixtureDueDate(s);
    FixtureVendor(s);
    FixtureTotal(s);
  }
}
