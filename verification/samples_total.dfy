/**
 * Worked examples for `extract_total_amount`, followed match by match.
 */
module TotalSamples {
  import opened Wrappers
  import opened Text
  import opened Numbers
  import opened Regex
  import opened RegexSteps
  import opened Groups
  import opened Patterns
  import opened Shapes
  import opened OcrProcessor
  import opened Traces
  import opened SampleTexts
  import opened LineLetters

  const TotalWords: seq<string> := ["amount", "payment", "due"]

  /** The first total pattern, `total\s*(?:amount|payment|due)?[:\s]*[\$£€]?([0-9,]+\.[0-9]{2})`. */
  const T2: seq<Node> := [Opt(Words(TotalWords))] + AmountTail0
  const T1: seq<Node> := [Star(Space)] + T2
  const T0: seq<Node> := [Lit("total")] + T1

  lemma TotalNodes()
    ensures Nodes(Total1) == T0
  {
    AmountTailIs();
  }

  /** The value of a captured amount, from its characters. */
  lemma CentsOf(g: string, digits: string, v: nat)
    requires AmountShape(g) && Remove(g[..|g| - 3], ',') + g[|g| - 2..] == digits
    requires AllDigits(digits) && DigitsValue(digits) == v
    ensures AmountCents(g) == v
  {
  }

  // ---------------------------------------------------------------------------
  // "Total Amount: $1,234.56": the word `Amount` is taken, the sign is skipped
  // and the commas are dropped, giving 1234.56, that is 123456 cents.

  lemma AmountAfterLabel(s: string)
    requires TotalAmountChars(s)
    ensures Run(AmountTail0, s, 12, 0, None) == Some(Found(23, Some(Span(15, 23))))
  {
    assert InClass(Currency, s[14]) && !InClass(ColonSpace, s[14]);
    assert AmountAt(s, 15, 5);
    AmountLeadRun(s, 12, 14, 15, 5);
  }

  /** `\s*` takes the space, the word `amount` is taken, and the amount follows. */
  lemma AmountWordTaken(s: string, f: Found)
    requires 12 <= |s| && s[5] == ' ' && !IsSpace(s[6]) && StartsAt(s, 6, "amount")
    requires Run(AmountTail0, s, 12, 0, None) == Some(f)
    ensures Run(T1, s, 5, 0, None) == Some(f)
  {
    assert TotalWords == ["amount"] + ["payment", "due"];
    WordsThen("amount", ["payment", "due"], AmountTail0, s, 6, 0, None);
    OptTake(Words(TotalWords), AmountTail0, s, 6, 0, None);
    GreedyIs(Space, Unbounded, s, 5, 1);
    RepThen(Space, 0, Unbounded, 1, 1, T2, s, 5, 0, None);
  }

  /** A text starting with `total`: the first pattern matches at the start. */
  lemma TotalFirst(s: string, f: Found)
    requires StartsAt(s, 0, "total") && Run(T1, s, 5, 0, None) == Some(f)
    ensures Search(Nodes(Total1), s) == Some(Match(0, f.end, f.group))
  {
    LitThen("total", T1, s, 0, 0, None);
    TotalNodes();
    SearchFindsAt(T0, s, 0, f);
  }

  lemma TotalAmountMatch(s: string)
    requires TotalAmountChars(s) && StartsAt(s, 0, "total") && StartsAt(s, 6, "amount")
    ensures Search(Nodes(Total1), s) == Some(Match(0, 23, Some(Span(15, 23))))
  {
    var f := Found(23, Some(Span(15, 23)));
    AmountAfterLabel(s);
    AmountWordTaken(s, f);
    TotalFirst(s, f);
  }

  /** One more digit on the right: ten times the value, plus the digit. */
  lemma DigitsSnoc(t: string, c: char)
    requires AllDigits(t) && IsDigit(c)
    ensures AllDigits(t + [c]) && DigitsValue(t + [c]) == 10 * DigitsValue(t) + DigitValue(c)
  {
    assert (t + [c])[..|t|] == t;
  }

  lemma CommasDropped()
    ensures Remove("1,234", ',') == "1234"
  {
    assert "1,234"[1..] == ",234" && ",234"[1..] == "234";
  }

  lemma SixDigits()
    ensures AllDigits("123456") && DigitsValue("123456") == 123456
  {
    DigitsSnoc([], '1');
    assert [] + ['1'] == "1";
    DigitsSnoc("1", '2');
    assert "1" + ['2'] == "12";
    DigitsSnoc("12", '3');
    assert "12" + ['3'] == "123";
    DigitsSnoc("123", '4');
    assert "123" + ['4'] == "1234";
    DigitsSnoc("1234", '5');
    assert "1234" + ['5'] == "12345";
    DigitsSnoc("12345", '6');
    assert "12345" + ['6'] == "123456";
  }

  lemma GroupedCents()
    ensures AmountCents("1,234.56") == 123456
  {
    var g := "1,234.56";
    assert g[..|g| - 3] == "1,234" && g[|g| - 2..] == "56";
    CommasDropped();
    SixDigits();
    assert "1234" + "56" == "123456";
    CentsOf(g, "123456", 123456);
  }

  /** "Total Amount: $1,234.56" has the total 123456 cents. */
  lemma TotalAmountGives(s: string)
    requires s == "Total Amount: $1,234.56"
    ensures ExtractTotalAmount(s) == Some(123456)
  {
    TotalAmountText(s);
    TotalAmountMatch(s);
    TablesWellFormed();
    CapturedAt(TotalPatterns, s, 0, Match(0, 23, Some(Span(15, 23))));
    GroupedCents();
  }

  // ---------------------------------------------------------------------------
  // "Amount due: 10.00\nTotal: 20.00": the second pattern alone would read
  // 10.00 from the first line, but the first pattern is tried first and reads
  // 20.00 from the second.

  /** `total`, no word after it, and then an amount. */
  lemma TotalNoWord(s: string, i: nat, f: Found)
    requires i + 6 <= |s| && StartsAt(s, i, "total") && !IsSpace(s[i + 5])
    requires forall m :: 0 <= m < |TotalWords| ==> !StartsAt(s, i + 5, TotalWords[m])
    requires Run(AmountTail0, s, i + 5, 0, None) == Some(f)
    ensures Run(T0, s, i, 0, None) == Some(f)
  {
    WordsNone(TotalWords, AmountTail0, s, i + 5, 0, None);
    OptSkip(Words(TotalWords), AmountTail0, s, i + 5, 0, None);
    GreedyIs(Space, Unbounded, s, i + 5, 0);
    RepThen(Space, 0, Unbounded, 0, 0, T2, s, i + 5, 0, None);
    LitThen("total", T1, s, i, 0, None);
  }

  lemma SecondLineTotal(s: string)
    requires AmountDueChars(s) && StartsAt(s, 18, "total")
    ensures Run(T0, s, 18, 0, None) == Some(Found(30, Some(Span(25, 30))))
  {
    assert !InClass(Currency, s[25]) && !InClass(ColonSpace, s[25]);
    assert InClass(ColonSpace, s[23]) && InClass(ColonSpace, s[24]);
    assert AmountAt(s, 25, 2);
    AmountLeadRun(s, 23, 25, 25, 2);
    assert forall m :: 0 <= m < |TotalWords| ==> !StartsAt(s, 23, TotalWords[m]) by {
      assert forall m :: 0 <= m < |TotalWords| ==> Lower(s[23 + 0]) != Lower(TotalWords[m][0]);
    }
    TotalNoWord(s, 18, Found(30, Some(Span(25, 30))));
  }

  /** `total` is nowhere on the first line. */
  lemma NoTotalBefore18(s: string)
    requires AmountDueChars(s) && s[0..5] == "Amoun" && s[6..18] == " due: 10.00\n"
    ensures forall k :: 0 <= k < 18 ==> Run(T0, s, k, 0, None).None?
  {
    AmountDueLetters();
    NoTotalBefore6(s);
    LitAbsent("total", T1, s, 6, " due: 10.00\n");
  }

  lemma NoTotalBefore6(s: string)
    requires AmountDueChars(s) && s[0..5] == "Amoun"
    ensures forall k :: 0 <= k < 6 ==> Run(T0, s, k, 0, None).None?
  {
    LastLinesLetters1();
    LitAbsent("total", T1, s, 0, "Amoun");
    assert !StartsAt(s, 5, "total") by { assert Lower(s[5 + 1]) != Lower("total"[1]); }
    LitThen("total", T1, s, 5, 0, None);
  }

  lemma SecondLineMatch(s: string)
    requires AmountDueChars(s) && StartsAt(s, 18, "total")
    requires s[0..5] == "Amoun" && s[6..18] == " due: 10.00\n"
    ensures Search(Nodes(Total1), s) == Some(Match(18, 30, Some(Span(25, 30))))
  {
    SecondLineTotal(s);
    NoTotalBefore18(s);
    TotalNodes();
    SearchFindsAt(T0, s, 18, Found(30, Some(Span(25, 30))));
  }

  /** The second total pattern, `amount\s*(?:due|total)?[:\s]*[\$£€]?([0-9,]+\.[0-9]{2})`. */
  const A2: seq<Node> := [Opt(Words(["due", "total"]))] + AmountTail0
  const A1: seq<Node> := [Star(Space)] + A2
  const A0: seq<Node> := [Lit("amount")] + A1

  lemma AmountNodes()
    ensures Nodes(Total2) == A0
  {
    AmountTailIs();
  }

  /** On its own, the second pattern reads "10.00" from the first line. */
  lemma FirstLineAmountDue(s: string)
    requires AmountDueChars(s) && StartsAt(s, 0, "amount") && StartsAt(s, 7, "due")
    ensures Search(Nodes(Total2), s) == Some(Match(0, 17, Some(Span(12, 17))))
  {
    var f := Found(17, Some(Span(12, 17)));
    assert !InClass(Currency, s[12]) && !InClass(ColonSpace, s[12]);
    assert InClass(ColonSpace, s[10]) && InClass(ColonSpace, s[11]);
    assert AmountAt(s, 12, 2);
    AmountLeadRun(s, 10, 12, 12, 2);
    WordsThen("due", ["total"], AmountTail0, s, 7, 0, None);
    assert ["due", "total"] == ["due"] + ["total"];
    OptTake(Words(["due", "total"]), AmountTail0, s, 7, 0, None);
    GreedyIs(Space, Unbounded, s, 6, 1);
    RepThen(Space, 0, Unbounded, 1, 1, A2, s, 6, 0, None);
    LitThen("amount", A1, s, 0, 0, None);
    AmountNodes();
    SearchFindsAt(A0, s, 0, f);
  }

  lemma TwentyCents()
    ensures AmountCents("20.00") == 2000
  {
    var g := "20.00";
    assert g[..|g| - 3] == "20" && g[|g| - 2..] == "00";
    assert Remove("20", ',') == "20";
    DigitsSnoc([], '2');
    assert [] + ['2'] == "2";
    DigitsSnoc("2", '0');
    assert "2" + ['0'] == "20";
    DigitsSnoc("20", '0');
    assert "20" + ['0'] == "200";
    DigitsSnoc("200", '0');
    assert "200" + ['0'] == "2000" == "20" + "00";
    CentsOf(g, "2000", 2000);
  }

  /** The total of "Amount due: 10.00\nTotal: 20.00" is 2000 cents, read by the
      first pattern, although the second pattern matches earlier in the text
      (and would read 1000 cents). */
  lemma TotalBeatsAmountDue(s: string)
    requires s == "Amount due: 10.00\n" + "Total: 20.00"
    ensures ExtractTotalAmount(s) == Some(2000)
    ensures Search(Nodes(Total1), s) == Some(Match(18, 30, Some(Span(25, 30)))) && s[25..30] == "20.00"
    ensures Search(Nodes(Total2), s) == Some(Match(0, 17, Some(Span(12, 17)))) && s[12..17] == "10.00"
  {
    AmountDueText(s);
    SecondLineMatch(s);
    FirstLineAmountDue(s);
    TablesWellFormed();
    CapturedAt(TotalPatterns, s, 0, Match(18, 30, Some(Span(25, 30))));
    TwentyCents();
  }
}
