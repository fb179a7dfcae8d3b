/**
 * The invoice field extractor: each field has an ordered table of
 * case-insensitive patterns, the first pattern that `re.search` matches
 * anywhere in the text decides the field, and the field is that match's
 * group 1, cleaned up.  `ExtractInvoiceData` assembles the record.
 */
module OcrProcessor {
  import opened Wrappers
  import opened Text
  import opened Numbers
  import opened Regex
  import opened RegexTheory
  import opened Groups
  import opened Patterns
  import opened Shapes

  /** One line item of an invoice; the extractor never produces one. */
  datatype LineItem = LineItem(fields: map<string, string>)

  /** The dictionary `extract_invoice_data` returns; `None` stands for Python's `None`
      and the total is a number of cents. */
  datatype InvoiceRecord = InvoiceRecord(
    invoiceNumber: Option<string>,
    date: Option<string>,
    dueDate: Option<string>,
    vendor: Option<string>,
    totalAmount: Option<int>,
    items: seq<LineItem>,
    rawText: string)

  // ---------------------------------------------------------------------------
  // Pattern tables

  predicate AllWellFormed(ps: seq<Pattern>) {
    forall m :: 0 <= m < |ps| ==> WellFormed(ps[m])
  }

  /** Every table the extractor uses has one capturing group and no other group marker. */
  lemma TablesWellFormed()
    ensures AllWellFormed(InvoiceNumberPatterns) && AllWellFormed(DatePatterns)
    ensures AllWellFormed(DueDatePatterns) && AllWellFormed(VendorPatterns)
    ensures AllWellFormed(TotalPatterns)
  {
    NumberTableWellFormed();
    DateTablesWellFormed();
    VendorTableWellFormed();
    TotalTableWellFormed();
  }

  lemma NumberTableWellFormed()
    ensures AllWellFormed(InvoiceNumberPatterns)
  {
    WordsPlain(["#", "number", "num", "no"]);
    LeavesPlain(NumberBody);
    assert PlainSeq(NumberLabel) by {
      assert forall m :: 0 <= m < 3 ==> NumberLabel[m].Rep? || NumberLabel[m] == Opt(Words(["#", "number", "num", "no"]));
    }
    PlainAppend([Lit("invoice")], NumberLabel);
    PlainAppend([Lit("inv")], NumberLabel);
  }

  lemma DateTablesWellFormed()
    ensures AllWellFormed(DatePatterns) && AllWellFormed(DueDatePatterns)
  {
    ConnectorPlain([":", "is", "of"]);
    ConnectorPlain([":", "of", "is"]);
    ConnectorPlain([":", "is"]);
    ConnectorPlain([":", "by", "on"]);
    ConnectorPlain([":", "due", "on"]);
    WordsPlain(["invoice", "bill", "statement"]);
    WordsPlain(["due", "payment"]);
    PlainAppend([Words(["invoice", "bill", "statement"]), Star(Space), Lit("date")], Connector([":", "is", "of"]));
    PlainAppend([Lit("date")], Connector([":", "of", "is"]));
    PlainAppend([Words(["due", "payment"]), Star(Space), Lit("date")], Connector([":", "is"]));
    PlainAppend([Lit("due")], Connector([":", "by", "on"]));
    LeavesPlain([Lit("pay"), Plus(Space), Lit("by")]);
    PairPlain(Lit("payment"), Cat([Lit("pay"), Plus(Space), Lit("by")]));
    PlainAppend([Alt([Lit("payment"), Cat([Lit("pay"), Plus(Space), Lit("by")])])], Connector([":", "due", "on"]));
    assert PlainSeq(DayFirst) && PlainSeq(YearFirst);
  }

  lemma VendorTableWellFormed()
    ensures AllWellFormed(VendorPatterns)
  {
    WordsPlain(["inc", "llc", "ltd", "corp", "corporation", "company", "co"]);
    WordsPlain(["vendor", "supplier", "biller"]);
    LeavesPlain(NameLabel);
    OptPlain(Suffix);
    PairPlain(Plus(Name), Opt(Suffix));
    PairPlain(Plus(Name), Suffix);
    PlainAppend([Lit("from")], NameLabel);
    PlainAppend([Words(["vendor", "supplier", "biller"])], NameLabel);
  }

  lemma TotalTableWellFormed()
    ensures AllWellFormed(TotalPatterns)
  {
    WordsPlain(["amount", "payment", "due"]);
    WordsPlain(["due", "total"]);
    LeavesPlain(AmountLead);
    LeavesPlain(AmountBody);
    PlainAppend([Lit("total"), Star(Space), Opt(Words(["amount", "payment", "due"]))], AmountLead);
    PlainAppend([Lit("amount"), Star(Space), Opt(Words(["due", "total"]))], AmountLead);
    PlainAppend([Opt(Lit("sub")), Lit("total"), Star(Space), Opt(Lit("due"))], AmountLead);
    PlainAppend([Lit("balance"), Star(Space), Opt(Lit("due"))], AmountLead);
    LeavesPlain([Lit("please"), Plus(Space)]);
    LeavesPlain([Lit("this"), Plus(Space), Lit("amount")]);
    OptPlain(Cat([Lit("please"), Plus(Space)]));
    OptPlain(Cat([Lit("this"), Plus(Space), Lit("amount")]));
    OptPlain(Lit("sub"));
    OptPlain(Lit("due"));
    PlainAppend([Opt(Cat([Lit("please"), Plus(Space)])), Lit("pay"), Star(Space),
                 Opt(Cat([Lit("this"), Plus(Space), Lit("amount")]))], AmountLead);
  }

  /** A list of literals and repeats has no group marker. */
  lemma LeavesPlain(xs: seq<Node>)
    requires forall m :: 0 <= m < |xs| ==> xs[m].Lit? || xs[m].Rep?
    ensures PlainSeq(xs) && PlainNode(Cat(xs))
  {
  }

  lemma OptPlain(n: Node)
    requires PlainNode(n)
    ensures PlainNode(Opt(n))
  {
    PairPlain(n, Cat([]));
  }

  lemma PairPlain(a: Node, b: Node)
    requires PlainNode(a) && PlainNode(b)
    ensures PlainSeq([a, b]) && PlainNode(Alt([a, b]))
  {
    assert forall m :: 0 <= m < 2 ==> [a, b][m] == a || [a, b][m] == b;
  }

  lemma ConnectorPlain(ws: seq<string>)
    ensures PlainSeq(Connector(ws))
  {
    WordsPlain(ws);
  }

  lemma WordsPlain(ws: seq<string>)
    ensures PlainNode(Words(ws)) && PlainNode(Opt(Words(ws)))
  {
  }

  /** Which pattern of a table decides a field: the first one `re.search` matches,
      or `|ps|` when none does. */
  function FirstHit(ps: seq<Pattern>, s: string): (k: nat)
    ensures k <= |ps|
    ensures forall j :: 0 <= j < k ==> Search(Nodes(ps[j]), s).None?
    ensures k < |ps| ==> Search(Nodes(ps[k]), s).Some?
  {
    if ps == [] then 0
    else if Search(Nodes(ps[0]), s).Some? then 0
    else 1 + FirstHit(ps[1..], s)
  }

  /** The `for pattern in patterns: match = re.search(...); if match: ...` loop
      followed by `match.group(1)`. */
  function FirstCapture(ps: seq<Pattern>, s: string): (r: Option<string>)
    requires AllWellFormed(ps)
    ensures r.None? <==> FirstHit(ps, s) == |ps|
    ensures r.Some? ==> exists lo: nat, hi: nat :: lo <= hi <= |s| && r.value == s[lo..hi]
                          && Accepts(ps[FirstHit(ps, s)].body, s, lo, hi)
  {
    var k := FirstHit(ps, s);
    if k < |ps| then Capture(ps[k], s) else None
  }

  /** The text read by a pattern's body, when the table's first match comes from it. */
  lemma FirstCaptureReads(ps: seq<Pattern>, s: string) returns (lo: nat, hi: nat)
    requires AllWellFormed(ps) && FirstCapture(ps, s).Some?
    ensures lo <= hi <= |s| && FirstCapture(ps, s).value == s[lo..hi]
    ensures Accepts(ps[FirstHit(ps, s)].body, s, lo, hi)
  {
    lo, hi :| lo <= hi <= |s| && FirstCapture(ps, s).value == s[lo..hi] && Accepts(ps[FirstHit(ps, s)].body, s, lo, hi);
  }

  /** The group of the first matching invoice-number pattern is a non-empty token. */
  lemma NumberGroup(text: string)
    requires AllWellFormed(InvoiceNumberPatterns) && FirstCapture(InvoiceNumberPatterns, text).Some?
    ensures var g := FirstCapture(InvoiceNumberPatterns, text).value;
            |g| > 0 && (forall k :: 0 <= k < |g| ==> TokenChar(g[k])) && Strip(g) == g
  {
    var lo, hi := FirstCaptureReads(InvoiceNumberPatterns, text);
    TokenBody(text, lo, hi);
    TokenTrimmed(text[lo..hi]);
  }

  /** The group of the first matching date pattern has the shape of a date. */
  lemma DateGroup(ps: seq<Pattern>, text: string)
    requires AllWellFormed(ps) && FirstCapture(ps, text).Some?
    requires forall m :: 0 <= m < |ps| ==> ps[m].body == DayFirst || ps[m].body == YearFirst
    ensures DateShape(FirstCapture(ps, text).value) && Strip(FirstCapture(ps, text).value) == FirstCapture(ps, text).value
  {
    var lo, hi := FirstCaptureReads(ps, text);
    DateBody(ps[FirstHit(ps, text)].body, text, lo, hi);
    DateTrimmed(text[lo..hi]);
  }

  // ---------------------------------------------------------------------------
  // Invoice number

  /** `extract_invoice_number`: the stripped group of the first matching pattern. */
  function ExtractInvoiceNumber(text: string): (r: Option<string>)
    ensures r.None? <==> forall m :: 0 <= m < |InvoiceNumberPatterns| ==> Search(Nodes(InvoiceNumberPatterns[m]), text).None?
    ensures r.Some? ==> |r.value| > 0 && forall k :: 0 <= k < |r.value| ==> TokenChar(r.value[k])
  {
    TablesWellFormed();
    match FirstCapture(InvoiceNumberPatterns, text)
    case None => None
    case Some(g) =>
      NumberGroup(text);
      Some(Strip(g))
  }

  /** When the first matching pattern's group is already trimmed, it is the invoice number. */
  lemma NumberFromGroup(text: string, g: string)
    requires AllWellFormed(InvoiceNumberPatterns) && FirstCapture(InvoiceNumberPatterns, text) == Some(g)
    ensures ExtractInvoiceNumber(text) == Some(g)
  {
    NumberGroup(text);
  }

  /** A run of token characters has no whitespace to strip. */
  lemma TokenTrimmed(t: string)
    requires forall k :: 0 <= k < |t| ==> TokenChar(t[k])
    ensures Strip(t) == t
  {
    if t != [] {
      assert !IsSpace(t[0]) && !IsSpace(t[|t| - 1]);
    }
  }

  // ---------------------------------------------------------------------------
  // Dates

  /** `extract_date` and `extract_due_date` share this: the stripped group of the
      first matching pattern of a table whose bodies are date bodies. */
  function DateField(ps: seq<Pattern>, text: string): (r: Option<string>)
    requires AllWellFormed(ps)
    requires forall m :: 0 <= m < |ps| ==> ps[m].body == DayFirst || ps[m].body == YearFirst
    ensures r.None? <==> forall m :: 0 <= m < |ps| ==> Search(Nodes(ps[m]), text).None?
    ensures r.Some? ==> DateShape(r.value) && r == FirstCapture(ps, text)
  {
    match FirstCapture(ps, text)
    case None => None
    case Some(g) =>
      DateGroup(ps, text);
      Some(Strip(g))
  }

  /** A date has no whitespace to strip. */
  lemma DateTrimmed(t: string)
    requires DateShape(t)
    ensures Strip(t) == t
  {
    var i: nat, j: nat :| 0 < i && i + 1 < j && j + 1 < |t| && DateSeparators(t, i, j);
    assert IsDigit(t[0]) && IsDigit(t[|t| - 1]);
  }

  function ExtractDate(text: string): (r: Option<string>)
    ensures r.None? <==> forall m :: 0 <= m < |DatePatterns| ==> Search(Nodes(DatePatterns[m]), text).None?
    ensures r.Some? ==> DateShape(r.value)
  {
    TablesWellFormed();
    DateField(DatePatterns, text)
  }

  function ExtractDueDate(text: string): (r: Option<string>)
    ensures r.None? <==> forall m :: 0 <= m < |DueDatePatterns| ==> Search(Nodes(DueDatePatterns[m]), text).None?
    ensures r.Some? ==> DateShape(r.value)
  {
    TablesWellFormed();
    DateField(DueDatePatterns, text)
  }

  // ---------------------------------------------------------------------------
  // Vendor

  const MaxVendorLength: nat := 50

  /** The vendor before truncation: the stripped group of the first matching
      pattern, otherwise the stripped first line when it is not blank. */
  function VendorName(text: string): (r: Option<string>)
    ensures FirstHit(VendorPatterns, text) < |VendorPatterns| ==>
              AllWellFormed(VendorPatterns) && r == Some(Strip(FirstCapture(VendorPatterns, text).value))
    ensures FirstHit(VendorPatterns, text) < |VendorPatterns| ==>
              r.Some? && Trimmed(r.value) && forall k :: 0 <= k < |r.value| ==> NameChar(r.value[k])
    ensures FirstHit(VendorPatterns, text) == |VendorPatterns| ==>
              r == (if AllSpace(Split(text, '\n')[0]) then None else Some(Strip(Split(text, '\n')[0])))
  {
    TablesWellFormed();
    match FirstCapture(VendorPatterns, text)
    case Some(g) =>
      VendorGroup(text);
      Some(Strip(g))
    case None =>
      var first := Strip(Split(text, '\n')[0]);
      if first != [] then Some(first) else None
  }

  /** The group of the first matching vendor pattern holds only name characters,
      and so does what `strip` keeps of it. */
  lemma VendorGroup(text: string)
    requires AllWellFormed(VendorPatterns) && FirstCapture(VendorPatterns, text).Some?
    ensures var v := Strip(FirstCapture(VendorPatterns, text).value);
            forall k :: 0 <= k < |v| ==> NameChar(v[k])
  {
    var lo, hi := FirstCaptureReads(VendorPatterns, text);
    VendorBodies(FirstHit(VendorPatterns, text));
    NameBodyChars(VendorPatterns[FirstHit(VendorPatterns, text)].body, text, lo, hi);
    StripKeepsNameChars(text[lo..hi]);
  }

  lemma VendorBodies(m: nat)
    requires m < |VendorPatterns|
    ensures VendorPatterns[m].body == NameBody || VendorPatterns[m].body == [Plus(Name), Suffix]
  {
  }

  lemma StripKeepsNameChars(t: string)
    requires forall k :: 0 <= k < |t| ==> NameChar(t[k])
    ensures forall k :: 0 <= k < |Strip(t)| ==> NameChar(Strip(t)[k])
  {
    var v := Strip(t);
    forall k | 0 <= k < |v|
      ensures NameChar(v[k])
    {
      assert v[k] == t[StripStart(t) + k];
    }
  }

  /** `extract_vendor`: the vendor name cut to its first 50 characters. */
  function ExtractVendor(text: string): (r: Option<string>)
    ensures r.Some? <==> VendorName(text).Some?
    ensures r.Some? ==> |r.value| <= MaxVendorLength && r.value <= VendorName(text).value
    ensures r.Some? && |VendorName(text).value| <= MaxVendorLength ==> r == VendorName(text)
    ensures r.Some? && |VendorName(text).value| > MaxVendorLength ==> |r.value| == MaxVendorLength
  {
    match VendorName(text)
    case None => None
    case Some(v) => Some(Take(v, MaxVendorLength))
  }

  // ---------------------------------------------------------------------------
  // Total amount

  /** The value of an amount string in cents: its digits with the commas taken
      out, read as a whole number of hundredths. */
  function AmountCents(t: string): (c: nat)
    requires AmountShape(t)
  {
    AmountValue(t);
    DigitsValue(Remove(t[..|t| - 3], ',') + t[|t| - 2..])
  }

  /** A parsed decimal as cents; a finer scale is cut, which the extractor's
      two-digit amounts never need. */
  function Cents(d: Decimal): int {
    if d.scale <= 2 then d.units * Pow10(2 - d.scale) else d.units / Pow10(d.scale - 2)
  }

  /** The loop of `extract_total_amount`: the first matching pattern's group with
      the commas removed, given to `float`; a `ValueError` moves on to the next pattern. */
  function TotalFrom(ps: seq<Pattern>, s: string): (r: Option<Decimal>)
    requires AllWellFormed(ps)
  {
    if ps == [] then None
    else
      match Capture(ps[0], s)
      case None => TotalFrom(ps[1..], s)
      case Some(g) =>
        match ParseFloat(Remove(g, ','))
        case Some(d) => Some(d)
        case None => TotalFrom(ps[1..], s)
  }

  /** `extract_total_amount`, in cents. */
  function ExtractTotalAmount(text: string): (r: Option<int>)
    ensures r.None? <==> forall m :: 0 <= m < |TotalPatterns| ==> Search(Nodes(TotalPatterns[m]), text).None?
    ensures r.Some? ==> (TablesWellFormed();
                         var g := FirstCapture(TotalPatterns, text);
                         g.Some? && AmountShape(g.value) && r.value == AmountCents(g.value))
  {
    TablesWellFormed();
    TotalNeverRaises(TotalPatterns, text);
    match TotalFrom(TotalPatterns, text)
    case None => None
    case Some(d) =>
      var g := FirstCapture(TotalPatterns, text).value;
      AmountValue(g);
      Some(Cents(d))
  }

  /**
   * The `except ValueError` branch is never taken: every group an amount body
   * reads parses, so the loop returns the first match's value.
   */
  lemma {:induction false} TotalNeverRaises(ps: seq<Pattern>, s: string)
    requires AllWellFormed(ps) && forall m :: 0 <= m < |ps| ==> ps[m].body == AmountBody
    ensures TotalFrom(ps, s).None? <==> FirstCapture(ps, s).None?
    ensures FirstCapture(ps, s).Some? ==> AmountShape(FirstCapture(ps, s).value)
    ensures FirstCapture(ps, s).Some? ==>
              TotalFrom(ps, s) == ParseFloat(Remove(FirstCapture(ps, s).value, ','))
    ensures FirstCapture(ps, s).Some? ==>
              TotalFrom(ps, s) == Some(Decimal(AmountCents(FirstCapture(ps, s).value), 2))
  {
    if ps != [] {
      FirstCaptureStep(ps, s);
      match Capture(ps[0], s)
      case None =>
        assert forall m :: 0 <= m < |ps[1..]| ==> ps[1..][m].body == AmountBody by {
          assert forall m :: 0 <= m < |ps[1..]| ==> ps[1..][m] == ps[m + 1];
        }
        TotalNeverRaises(ps[1..], s);
      case Some(g) =>
        AmountCaptured(ps[0], s, g);
    }
  }

  /** The first pattern decides when it matches; otherwise the rest of the table does. */
  lemma FirstCaptureStep(ps: seq<Pattern>, s: string)
    requires AllWellFormed(ps) && ps != []
    ensures Capture(ps[0], s).Some? ==> FirstCapture(ps, s) == Capture(ps[0], s)
    ensures Capture(ps[0], s).None? ==> AllWellFormed(ps[1..]) && FirstCapture(ps, s) == FirstCapture(ps[1..], s)
  {
    assert forall m :: 0 <= m < |ps[1..]| ==> ps[1..][m] == ps[m + 1];
  }

  /** A group read by the amount body parses, to its value in cents at scale two. */
  lemma AmountCaptured(p: Pattern, s: string, g: string)
    requires WellFormed(p) && p.body == AmountBody && Capture(p, s) == Some(g)
    ensures AmountShape(g) && ParseFloat(Remove(g, ',')) == Some(Decimal(AmountCents(g), 2))
  {
    var lo: nat, hi: nat :| lo <= hi <= |s| && g == s[lo..hi] && Accepts(p.body, s, lo, hi);
    AmountBodyShape(s, lo, hi);
    AmountValue(g);
  }

  // ---------------------------------------------------------------------------
  // The record

  /** `extract_items`: line items are not extracted. */
  function ExtractItems(text: string): (r: seq<LineItem>)
    ensures |r| == 0
  {
    []
  }

  /** `extract_invoice_data`: every field from its own extractor, the text kept as it is. */
  function ExtractInvoiceData(text: string): (r: InvoiceRecord)
    ensures r.rawText == text && r.items == []
    ensures r.invoiceNumber.Some? ==> |r.invoiceNumber.value| > 0
    ensures r.date.Some? ==> DateShape(r.date.value)
    ensures r.dueDate.Some? ==> DateShape(r.dueDate.value)
    ensures r.vendor.Some? ==> |r.vendor.value| <= MaxVendorLength
  {
    InvoiceRecord(
      ExtractInvoiceNumber(text),
      ExtractDate(text),
      ExtractDueDate(text),
      ExtractVendor(text),
      ExtractTotalAmount(text),
      ExtractItems(text),
      text)
  }
}
