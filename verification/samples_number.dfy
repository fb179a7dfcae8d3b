/**
 * Worked examples for `extract_invoice_number`, followed match by match.
 */
module NumberSamples {
  import opened Wrappers
  import opened Text
  import opened Regex
  import opened RegexSteps
  import opened Groups
  import opened Patterns
  import opened Shapes
  import opened OcrProcessor
  import opened Traces
  import opened SampleTexts
  import opened LineTexts

  /** The first invoice-number pattern, one node at a time. */
  const NumberWords: seq<string> := ["#", "number", "num", "no"]
  const N6: seq<Node> := [Plus(Token)] + [Close]
  const N5: seq<Node> := [Open] + N6
  const N4: seq<Node> := [Star(ColonSpace)] + N5
  const N3: seq<Node> := [Opt(Words(NumberWords))] + N4
  const N2: seq<Node> := [Star(Space)] + N3
  const N1: seq<Node> := [Lit("invoice")] + N2

  lemma NumberNodes()
    ensures Nodes(InvoiceNumber1) == N1
  {
  }

  // ---------------------------------------------------------------------------
  // "Invoice No. 123": `no` is tried as the label first, but then nothing can
  // follow as the number (the `.` is not a token character), so the label is
  // skipped and `No` itself is read as the number.

  lemma NoNumberAt10(s: string)
    requires s == "Invoice No. 123"
    ensures Run(N4, s, 10, 0, None) == None
  {
    GreedyIs(Token, Unbounded, s, 10, 0);
    RepFails(Token, 1, Unbounded, 0, [Close], s, 10, 10, None);
    OpenThen(N6, s, 10, 0, None);
    GreedyIs(ColonSpace, Unbounded, s, 10, 0);
    RepFails(ColonSpace, 0, Unbounded, 0, N5, s, 10, 0, None);
  }

  lemma NumberAt8(s: string)
    requires s == "Invoice No. 123"
    ensures Run(N4, s, 8, 0, None) == Some(Found(10, Some(Span(8, 10))))
  {
    CloseThen([], s, 10, 8, None);
    GreedyIs(Token, Unbounded, s, 8, 2);
    RepThen(Token, 1, Unbounded, 2, 2, [Close], s, 8, 8, None);
    OpenThen(N6, s, 8, 0, None);
    GreedyIs(ColonSpace, Unbounded, s, 8, 0);
    RepThen(ColonSpace, 0, Unbounded, 0, 0, N5, s, 8, 0, None);
  }

  lemma LabelWordsFail(s: string)
    requires s == "Invoice No. 123"
    ensures Run([Words(NumberWords)] + N4, s, 8, 0, None) == None
  {
    NoNumberAt10(s);
    assert !StartsAt(s, 8, "#") by { assert Lower(s[8]) != Lower("#"[0]); }
    assert !StartsAt(s, 8, "number") by { assert Lower(s[10]) != Lower("number"[2]); }
    assert !StartsAt(s, 8, "num") by { assert Lower(s[10]) != Lower("num"[2]); }
    assert NumberWords == ["#"] + ["number", "num", "no"];
    assert ["number", "num", "no"] == ["number"] + ["num", "no"];
    assert ["num", "no"] == ["num"] + ["no"];
    WordsThen("#", ["number", "num", "no"], N4, s, 8, 0, None);
    WordsThen("number", ["num", "no"], N4, s, 8, 0, None);
    WordsThen("num", ["no"], N4, s, 8, 0, None);
    WordsLast("no", N4, s, 8, 0, None);
    LitThen("no", N4, s, 8, 0, None);
  }

  lemma InvoiceNoMatch(s: string)
    requires s == "Invoice No. 123"
    ensures Search(Nodes(InvoiceNumber1), s) == Some(Match(0, 10, Some(Span(8, 10))))
  {
    var f := Found(10, Some(Span(8, 10)));
    NumberAt8(s);
    LabelWordsFail(s);
    OptSkip(Words(NumberWords), N4, s, 8, 0, None);
    GreedyIs(Space, Unbounded, s, 7, 1);
    RepThen(Space, 0, Unbounded, 1, 1, N3, s, 7, 0, None);
    LitThen("invoice", N2, s, 0, 0, None);
    NumberNodes();
    SearchFindsAt(N1, s, 0, f);
  }

  /** "Invoice No. 123" yields the invoice number "No", not "123". */
  lemma InvoiceNoGivesNo(s: string)
    requires s == "Invoice No. 123"
    ensures ExtractInvoiceNumber(s) == Some("No")
  {
    InvoiceNoMatch(s);
    TablesWellFormed();
    CapturedAt(InvoiceNumberPatterns, s, 0, Match(0, 10, Some(Span(8, 10))));
    assert s[8..10] == "No";
  }

  // ---------------------------------------------------------------------------
  // A text whose first line is "INVOICE #12345": `#` is the label, and the
  // number is everything up to the end of the line.

  lemma HashNumberTail(s: string)
    requires HashLine(s, 0)
    ensures Run(N4, s, 9, 0, None) == Some(Found(14, Some(Span(9, 14))))
  {
    CloseThen([], s, 14, 9, None);
    ClassFacts(s[9]);
    ClassFacts(s[10]);
    ClassFacts(s[11]);
    ClassFacts(s[12]);
    ClassFacts(s[13]);
    GreedyIs(Token, Unbounded, s, 9, 5);
    RepThen(Token, 1, Unbounded, 5, 5, [Close], s, 9, 9, None);
    OpenThen(N6, s, 9, 0, None);
    GreedyIs(ColonSpace, Unbounded, s, 9, 0);
    RepThen(ColonSpace, 0, Unbounded, 0, 0, N5, s, 9, 0, None);
  }

  lemma HashLabel(s: string)
    requires HashLine(s, 0)
    ensures Run(N2, s, 7, 0, None) == Some(Found(14, Some(Span(9, 14))))
  {
    HashNumberTail(s);
    assert StartsAt(s, 8, "#");
    assert NumberWords == ["#"] + ["number", "num", "no"];
    WordsThen("#", ["number", "num", "no"], N4, s, 8, 0, None);
    OptTake(Words(NumberWords), N4, s, 8, 0, None);
    GreedyIs(Space, Unbounded, s, 7, 1);
    RepThen(Space, 0, Unbounded, 1, 1, N3, s, 7, 0, None);
  }

  lemma HashNumberMatch(s: string)
    requires 15 <= |s| && s[0..15] == "INVOICE #12345\n"
    ensures Search(Nodes(InvoiceNumber1), s) == Some(Match(0, 14, Some(Span(9, 14))))
  {
    HashLineChars(s, 0);
    HashLabel(s);
    assert StartsAt(s, 0, "invoice");
    LitThen("invoice", N2, s, 0, 0, None);
    NumberNodes();
    SearchFindsAt(N1, s, 0, Found(14, Some(Span(9, 14))));
  }

  /** The invoice number of such a text is "12345". */
  lemma HashNumberGives(s: string)
    requires 15 <= |s| && s[0..15] == "INVOICE #12345\n"
    ensures ExtractInvoiceNumber(s) == Some("12345")
  {
    HashNumberMatch(s);
    TablesWellFormed();
    CapturedAt(InvoiceNumberPatterns, s, 0, Match(0, 14, Some(Span(9, 14))));
    NumberFromGroup(s, s[9..14]);
    HashDigits(s);
  }

  lemma HashDigits(s: string)
    requires 15 <= |s| && s[0..15] == "INVOICE #12345\n"
    ensures s[9..14] == "12345"
  {
    assert s[9..14] == s[0..15][9..14];
  }
}
