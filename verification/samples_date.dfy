/**
 * Worked examples for `extract_date` and `extract_due_date`, followed match
 * by match, and the date traces the fixture example reuses.
 */
module DateSamples {
  import opened Wrappers
  import opened Text
  import opened Regex
  import opened RegexSteps
  import opened Groups
  import opened Patterns
  import opened Shapes
  import opened OcrProcessor
  import opened Traces
  import opened SampleTexts
  import opened LineTexts
  import opened LineLetters

  const DateWords: seq<string> := ["invoice", "bill", "statement"]
  const DueWords: seq<string> := ["due", "payment"]

  /** `date` with its connector and the date group. */
  function Labelled(ws: seq<string>): seq<Node> {
    [Lit("date")] + (Connector([":"] + ws) + DateTail)
  }

  /** Spaces before such a label. */
  function Spaced(ws: seq<string>): seq<Node> {
    [Star(Space)] + Labelled(ws)
  }

  /** The pattern's nodes, with the text before the group and the group regrouped. */
  lemma NodesRegrouped(b: seq<Node>)
    ensures b + [Open] + DayFirst + [Close] + [] == b + DateTail
  {
    DateTailIs();
    assert b + [Open] + DayFirst + [Close] + [] == b + ([Open] + DayFirst + [Close] + []);
  }

  lemma DateNodes()
    ensures Nodes(Date1) == [Words(DateWords)] + Spaced(["is", "of"])
    ensures Nodes(Date2) == Labelled(["of", "is"])
    ensures Nodes(DueDate1) == [Words(DueWords)] + Spaced(["is"])
  {
    var c1 := Connector([":", "is", "of"]);
    var c2 := Connector([":", "of", "is"]);
    var c3 := Connector([":", "is"]);
    NodesRegrouped([Words(DateWords), Star(Space), Lit("date")] + c1);
    NodesRegrouped([Lit("date")] + c2);
    NodesRegrouped([Words(DueWords), Star(Space), Lit("date")] + c3);
    assert [":"] + ["is", "of"] == [":", "is", "of"] && [":"] + ["of", "is"] == [":", "of", "is"] && [":"] + ["is"] == [":", "is"];
  }

  // ---------------------------------------------------------------------------
  // Labelled dates

  /** `date: ` and a full date give the date as the group. */
  lemma LabelledRun(ws: seq<string>, s: string, i: nat)
    requires StartsAt(s, i, "date") && i + 6 <= |s| && s[i + 4] == ':' && s[i + 5] == ' ' && FullDateAt(s, i + 6)
    ensures Run(Labelled(ws), s, i, 0, None) == Some(Found(i + 16, Some(Span(i + 6, i + 16))))
  {
    ColonThenDate(ws, s, i + 4);
    LitThen("date", Connector([":"] + ws) + DateTail, s, i, 0, None);
  }

  lemma SpacedRun(ws: seq<string>, s: string, i: nat)
    requires i + 2 <= |s| && s[i] == ' ' && !IsSpace(s[i + 1])
    requires StartsAt(s, i + 1, "date") && i + 7 <= |s| && s[i + 5] == ':' && s[i + 6] == ' ' && FullDateAt(s, i + 7)
    ensures Run(Spaced(ws), s, i, 0, None) == Some(Found(i + 17, Some(Span(i + 7, i + 17))))
  {
    LabelledRun(ws, s, i + 1);
    GreedyIs(Space, Unbounded, s, i, 1);
    RepThen(Space, 0, Unbounded, 1, 1, Labelled(ws), s, i, 0, None);
  }

  /** "Date: 01/01/2023" reads as the second date pattern, the date as the group. */
  lemma DateLineRun(s: string, a: nat)
    requires DateLine(s, a) && (a + 16 == |s| || !IsDigit(s[a + 16]))
    ensures Run(Nodes(Date2), s, a, 0, None) == Some(Found(a + 16, Some(Span(a + 6, a + 16))))
  {
    assert StartsAt(s, a, "date");
    assert FullDateAt(s, a + 6);
    DateNodes();
    LabelledRun(["of", "is"], s, a);
  }

  /** "Due Date: 01/31/2023" reads as the first due-date pattern. */
  lemma DueDateLineRun(s: string, a: nat)
    requires DueDateLine(s, a)
    ensures Run(Nodes(DueDate1), s, a, 0, None) == Some(Found(a + 20, Some(Span(a + 10, a + 20))))
  {
    DueDateLineShape(s, a);
    DueDateAfterDue(s, a);
    assert DueWords == ["due"] + ["payment"];
    WordsThen("due", ["payment"], Spaced(["is"]), s, a, 0, None);
    DateNodes();
  }

  /** "Due Date: 01/31/2023" seen through the pattern: `due`, a space, `date: ` and a full date. */
  lemma DueDateLineShape(s: string, a: nat)
    requires DueDateLine(s, a)
    ensures StartsAt(s, a, "due") && s[a + 3] == ' ' && !IsSpace(s[a + 4]) && StartsAt(s, a + 4, "date")
    ensures s[a + 8] == ':' && s[a + 9] == ' ' && FullDateAt(s, a + 10)
  {
  }

  /** After `Due`, the space, `Date: ` and the date. */
  lemma DueDateAfterDue(s: string, a: nat)
    requires a + 20 <= |s| && s[a + 3] == ' ' && !IsSpace(s[a + 4]) && StartsAt(s, a + 4, "date")
    requires s[a + 8] == ':' && s[a + 9] == ' ' && FullDateAt(s, a + 10)
    ensures Run(Spaced(["is"]), s, a + 3, 0, None) == Some(Found(a + 20, Some(Span(a + 10, a + 20))))
  {
    SpacedRun(["is"], s, a + 3);
  }

  // ---------------------------------------------------------------------------
  // "Due Date: 01/31/2023\nInvoice Date: 01/01/2023": the second date pattern
  // alone would read the due date, but the first pattern, tried first, reads
  // the invoice date.

  lemma InvoiceDateRun(s: string)
    requires |s| == 45 && StartsAt(s, 21, "invoice") && s[28] == ' ' && DateLine(s, 29)
    ensures Run(Nodes(Date1), s, 21, 0, None) == Some(Found(45, Some(Span(35, 45))))
  {
    assert StartsAt(s, 29, "date");
    assert FullDateAt(s, 35);
    SpacedRun(["is", "of"], s, 28);
    assert DateWords == ["invoice"] + ["bill", "statement"];
    WordsThen("invoice", ["bill", "statement"], Spaced(["is", "of"]), s, 21, 0, None);
    DateNodes();
  }

  /** No `invoice`, `bill` or `statement` starts on a "Due Date: 01/31/2023" line. */
  lemma NoDateWordOnDueLine(s: string, a: nat)
    requires a + 21 <= |s| && s[a..a + 21] == "Due Date: 01/31/2023\n"
    ensures forall k :: a <= k < a + 21 ==> Run(Nodes(Date1), s, k, 0, None).None?
  {
    DueLineLetters1();
    DueLineLetters2();
    DueLineLetters3();
    DateNodes();
    WordsAbsent(DateWords, Spaced(["is", "of"]), s, a, "Due Date: 01/31/2023\n");
  }

  lemma InvoiceDateMatch(s: string)
    requires |s| == 45 && StartsAt(s, 21, "invoice") && s[28] == ' ' && DateLine(s, 29)
    requires s[0..21] == "Due Date: 01/31/2023\n"
    ensures Search(Nodes(Date1), s) == Some(Match(21, 45, Some(Span(35, 45))))
  {
    InvoiceDateRun(s);
    NoDateWordOnDueLine(s, 0);
    DateNodes();
    SearchFindsAt(Nodes(Date1), s, 21, Found(45, Some(Span(35, 45))));
  }

  lemma DueDateFirstMatch(s: string)
    requires DueDateLine(s, 0) && s[1..4] == "ue "
    ensures Search(Nodes(Date2), s) == Some(Match(4, 20, Some(Span(10, 20))))
  {
    assert StartsAt(s, 4, "date");
    assert FullDateAt(s, 10);
    LabelledRun(["of", "is"], s, 4);
    NoDateLabelBeforeDate(s);
    DateNodes();
    SearchFindsAt(Nodes(Date2), s, 4, Found(20, Some(Span(10, 20))));
  }

  /** No `date` starts inside `y`. */
  lemma NoDateLabelIn(s: string, a: nat, y: string)
    requires a + |y| <= |s| && s[a..a + |y|] == y && LacksLetter(y, 'd')
    ensures forall k :: a <= k < a + |y| ==> Run(Nodes(Date2), s, k, 0, None).None?
  {
    DateNodes();
    LitAbsent("date", Connector([":"] + ["of", "is"]) + DateTail, s, a, y);
  }

  /** In "Due Date", the `D` of `Due` starts no `date`, and neither does `ue `. */
  lemma NoDateLabelBeforeDate(s: string)
    requires 4 <= |s| && s[1] == 'u' && s[1..4] == "ue "
    ensures forall k :: 0 <= k < 4 ==> Run(Nodes(Date2), s, k, 0, None).None?
  {
    NoDateLabelInUe(s, 1);
    DateLabelMisses(s, 0);
  }

  lemma NoDateLabelInUe(s: string, a: nat)
    requires a + 3 <= |s| && s[a..a + 3] == "ue "
    ensures forall k :: a <= k < a + 3 ==> Run(Nodes(Date2), s, k, 0, None).None?
  {
    DueLineRestLetters2();
    NoDateLabelIn(s, a, "ue ");
  }

  /** A character whose successor is not `a` starts no `date`. */
  lemma DateLabelMisses(s: string, i: nat)
    requires i + 1 < |s| && Lower(s[i + 1]) != 'a'
    ensures Run(Nodes(Date2), s, i, 0, None).None?
  {
    DateNodes();
    assert !StartsAt(s, i, "date") by { assert Lower(s[i + 1]) != Lower("date"[1]); }
    LitThen("date", Connector([":"] + ["of", "is"]) + DateTail, s, i, 0, None);
  }

  /** A date has no whitespace at either end. */
  lemma DateTextTrimmed(t: string)
    requires |t| == 10 && IsDigit(t[0]) && IsDigit(t[9])
    ensures Strip(t) == t
  {
    assert Trimmed(t);
  }

  /** What the traces use of the text "Due Date: 01/31/2023\nInvoice Date: 01/01/2023". */
  lemma DueThenInvoiceFacts(s: string)
    requires s == "Due Date: 01/31/2023\n" + "Invoice Date: 01/01/2023"
    ensures |s| == 45 && DueDateLine(s, 0) && s[1..4] == "ue " && s[0..21] == "Due Date: 01/31/2023\n"
    ensures StartsAt(s, 21, "invoice") && s[28] == ' ' && DateLine(s, 29)
    ensures s[10..20] == "01/31/2023" && s[35..45] == "01/01/2023"
  {
    DueThenInvoiceText(s);
    DueDateSlices(s, 0);
    DueDateLineChars(s, 0);
    InvoiceSlices(s, 21);
    InvoiceWord(s, 21);
    DateLineChars(s, 29);
  }

  lemma InvoiceDateBeatsDueDate(s: string)
    requires s == "Due Date: 01/31/2023\n" + "Invoice Date: 01/01/2023"
    ensures ExtractDate(s) == Some("01/01/2023")
    ensures Search(Nodes(Date2), s) == Some(Match(4, 20, Some(Span(10, 20)))) && s[10..20] == "01/31/2023"
  {
    DueThenInvoiceFacts(s);
    InvoiceDateMatch(s);
    DueDateFirstMatch(s);
    TablesWellFormed();
    CapturedAt(DatePatterns, s, 0, Match(21, 45, Some(Span(35, 45))));
    DateTextTrimmed(s[35..45]);
  }
}
