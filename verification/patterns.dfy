/**
 * The regular expressions of the invoice field extractor, written in the
 * node language of `Regex`.  Every pattern carries `(?i)`, so literals and
 * classes compare case-insensitively (see `Regex.StartsAt` and
 * `Regex.InClass`).  Each table lists its patterns in the order the
 * extractor tries them.
 */
module Patterns {
  import opened Text
  import opened Regex
  import opened Groups

  // ---------------------------------------------------------------------------
  // Quantifier shorthands

  /** `x?` over a whole sub-expression: the sub-expression first, then nothing. */
  function Opt(n: Node): Node { Alt([n, Cat([])]) }

  /** `[k]*`, `[k]+`, `[k]?` and `[k]{lo,hi}`. */
  function Star(k: CharClass): Node { Rep(k, 0, Unbounded) }
  function Plus(k: CharClass): Node { Rep(k, 1, Unbounded) }
  function Maybe(k: CharClass): Node { Rep(k, 0, Finite(1)) }
  function Between(k: CharClass, lo: nat, hi: nat): Node { Rep(k, lo, Finite(hi)) }
  function One(k: CharClass): Node { Rep(k, 1, Finite(1)) }

  /** Alternation of plain words, `(?:a|b|c)`. */
  function Words(ws: seq<string>): (r: Node)
    ensures r.Alt? && |r.options| == |ws|
    ensures forall m :: 0 <= m < |ws| ==> r.options[m] == Lit(ws[m])
  {
    Alt(seq(|ws|, m requires 0 <= m < |ws| => Lit(ws[m])))
  }

  // ---------------------------------------------------------------------------
  // Character classes

  /** `\s` */
  const Space := CharClass(false, false, false, true, "")
  /** `\d` */
  const Digit := CharClass(false, false, true, false, "")
  /** `[:\s]` */
  const ColonSpace := CharClass(false, false, false, true, ":")
  /** `:` as a class, for `:?` */
  const Colon := CharClass(false, false, false, false, ":")
  /** `[A-Z0-9\-]` */
  const Token := CharClass(true, false, true, false, "-")
  /** `[/-]` */
  const DateSep := CharClass(false, false, false, false, "/-")
  /** `[A-Za-z0-9\s,\.]` */
  const Name := CharClass(true, true, true, true, ",.")
  /** `[\$£€]` */
  const Currency := CharClass(false, false, false, false, "$£€")
  /** `[0-9,]` */
  const Grouped := CharClass(false, false, true, false, ",")

  // ---------------------------------------------------------------------------
  // Invoice number

  /** `\s*(?:#|number|num|no)?[:\s]*`, shared by both invoice-number patterns. */
  const NumberLabel: seq<Node> := [Star(Space), Opt(Words(["#", "number", "num", "no"])), Star(ColonSpace)]

  /** `([A-Z0-9\-]+)` */
  const NumberBody: seq<Node> := [Plus(Token)]

  const InvoiceNumber1 := Pattern([Lit("invoice")] + NumberLabel, NumberBody, [])
  const InvoiceNumber2 := Pattern([Lit("inv")] + NumberLabel, NumberBody, [])
  const InvoiceNumberPatterns: seq<Pattern> := [InvoiceNumber1, InvoiceNumber2]

  // ---------------------------------------------------------------------------
  // Dates

  /** `\d{1,2}[/-]\d{1,2}[/-]\d{2,4}`, month or day first. */
  const DayFirst: seq<Node> :=
    [Between(Digit, 1, 2), One(DateSep), Between(Digit, 1, 2), One(DateSep), Between(Digit, 2, 4)]
  /** `\d{2,4}[/-]\d{1,2}[/-]\d{1,2}`, year first. */
  const YearFirst: seq<Node> :=
    [Between(Digit, 2, 4), One(DateSep), Between(Digit, 1, 2), One(DateSep), Between(Digit, 1, 2)]

  /** `\s*(?::|is|of)?[:\s]*` and the like: spaces, an optional connecting word, colons or spaces. */
  function Connector(ws: seq<string>): seq<Node> {
    [Star(Space), Opt(Words(ws)), Star(ColonSpace)]
  }

  const Date1 :=
    Pattern([Words(["invoice", "bill", "statement"]), Star(Space), Lit("date")] + Connector([":", "is", "of"]), DayFirst, [])
  const Date2 := Pattern([Lit("date")] + Connector([":", "of", "is"]), DayFirst, [])
  const Date3 := Pattern([Lit("date")] + Connector([":", "of", "is"]), YearFirst, [])
  const DatePatterns: seq<Pattern> := [Date1, Date2, Date3]

  const DueDate1 :=
    Pattern([Words(["due", "payment"]), Star(Space), Lit("date")] + Connector([":", "is"]), DayFirst, [])
  const DueDate2 := Pattern([Lit("due")] + Connector([":", "by", "on"]), DayFirst, [])
  const DueDate3 :=
    Pattern([Alt([Lit("payment"), Cat([Lit("pay"), Plus(Space), Lit("by")])])] + Connector([":", "due", "on"]), DayFirst, [])
  const DueDatePatterns: seq<Pattern> := [DueDate1, DueDate2, DueDate3]

  // ---------------------------------------------------------------------------
  // Vendor

  /** `(?:Inc|LLC|Ltd|Corp|Corporation|Company|Co)` */
  const Suffix: Node := Words(["inc", "llc", "ltd", "corp", "corporation", "company", "co"])

  /** `\s*:?\s*` */
  const NameLabel: seq<Node> := [Star(Space), Maybe(Colon), Star(Space)]

  /** `[A-Za-z0-9\s,\.]+(?:Inc|...|Co)?` */
  const NameBody: seq<Node> := [Plus(Name), Opt(Suffix)]

  const Vendor1 := Pattern([Lit("from")] + NameLabel, NameBody, [])
  const Vendor2 := Pattern([Words(["vendor", "supplier", "biller"])] + NameLabel, NameBody, [])
  const Vendor3 := Pattern([], [Plus(Name), Suffix], [])
  const VendorPatterns: seq<Pattern> := [Vendor1, Vendor2, Vendor3]

  // ---------------------------------------------------------------------------
  // Total amount

  /** `[:\s]*[\$£€]?` */
  const AmountLead: seq<Node> := [Star(ColonSpace), Maybe(Currency)]
  /** `[0-9,]+\.[0-9]{2}` */
  const AmountBody: seq<Node> := [Plus(Grouped), Lit("."), Between(Digit, 2, 2)]

  const Total1 := Pattern([Lit("total"), Star(Space), Opt(Words(["amount", "payment", "due"]))] + AmountLead, AmountBody, [])
  const Total2 := Pattern([Lit("amount"), Star(Space), Opt(Words(["due", "total"]))] + AmountLead, AmountBody, [])
  const Total3 := Pattern([Opt(Lit("sub")), Lit("total"), Star(Space), Opt(Lit("due"))] + AmountLead, AmountBody, [])
  const Total4 := Pattern([Lit("balance"), Star(Space), Opt(Lit("due"))] + AmountLead, AmountBody, [])
  const Total5 :=
    Pattern([Opt(Cat([Lit("please"), Plus(Space)])), Lit("pay"), Star(Space),
             Opt(Cat([Lit("this"), Plus(Space), Lit("amount")]))] + AmountLead, AmountBody, [])
  const TotalPatterns: seq<Pattern> := [Total1, Total2, Total3, Total4, Total5]
}
