/**
 * Pieces of concrete matches shared by the worked examples: how the tail of
 * a pattern runs over text of a known shape (a date, an amount, a token),
 * stated for any text with that shape at that place.
 */
module Traces {
  import opened Wrappers
  import opened Text
  import opened Regex
  import opened Groups
  import opened Patterns
  import opened Shapes
  import opened RegexSteps
  import opened OcrProcessor

  // ---------------------------------------------------------------------------
  // Dates

  /** `(\d{1,2}[/-]\d{1,2}[/-]\d{2,4})` with nothing after the group, written node by node. */
  const DateTail: seq<Node> :=
    [Open] + ([Between(Digit, 1, 2)] + ([One(DateSep)] + ([Between(Digit, 1, 2)] + ([One(DateSep)] + ([Between(Digit, 2, 4)] + [Close])))))

  lemma DateTailIs()
    ensures [Open] + DayFirst + [Close] + [] == DateTail && DateTail == [Open] + DateTail0
  {
  }

  /** `s[i..i + 10]` is a date written `dd/dd/dddd`, and no digit follows it. */
  predicate FullDateAt(s: string, i: nat) {
    i + 10 <= |s| && IsDigit(s[i]) && IsDigit(s[i + 1]) && IsSep(s[i + 2]) && IsDigit(s[i + 3]) && IsDigit(s[i + 4])
    && IsSep(s[i + 5]) && IsDigit(s[i + 6]) && IsDigit(s[i + 7]) && IsDigit(s[i + 8]) && IsDigit(s[i + 9])
    && (i + 10 == |s| || !IsDigit(s[i + 10]))
  }

  /** The tails of `DateTail`, one node shorter each. */
  const DateTail5: seq<Node> := [Close]
  const DateTail4: seq<Node> := [Between(Digit, 2, 4)] + DateTail5
  const DateTail3: seq<Node> := [One(DateSep)] + DateTail4
  const DateTail2: seq<Node> := [Between(Digit, 1, 2)] + DateTail3
  const DateTail1: seq<Node> := [One(DateSep)] + DateTail2
  const DateTail0: seq<Node> := [Between(Digit, 1, 2)] + DateTail1

  /** `\d{lo,hi}` over exactly `n` digits that a non-digit, the end or the bound stops, then the rest. */
  lemma DigitsThen(lo: nat, hi: nat, n: nat, rest: seq<Node>, s: string, p: nat, open: nat, group: Option<Span>)
    requires open <= p && p + n <= |s| && SpanWithin(group, |s|) && lo <= n <= hi
    requires forall j :: p <= j < p + n ==> IsDigit(s[j])
    requires p + n == |s| || !IsDigit(s[p + n]) || n == hi
    requires Run(rest, s, p + n, open, group).Some?
    ensures Run([Between(Digit, lo, hi)] + rest, s, p, open, group) == Run(rest, s, p + n, open, group)
  {
    forall j | p <= j < p + n
      ensures InClass(Digit, s[j])
    {
      ClassFacts(s[j]);
    }
    if p + n < |s| {
      ClassFacts(s[p + n]);
    }
    GreedyIs(Digit, Finite(hi), s, p, n);
    RepThen(Digit, lo, Finite(hi), n, n, rest, s, p, open, group);
  }

  /** `[/-]` over one separator, then the rest. */
  lemma SepThen(rest: seq<Node>, s: string, p: nat, open: nat, group: Option<Span>)
    requires open <= p < |s| && SpanWithin(group, |s|) && IsSep(s[p])
    requires Run(rest, s, p + 1, open, group).Some?
    ensures Run([One(DateSep)] + rest, s, p, open, group) == Run(rest, s, p + 1, open, group)
  {
    ClassFacts(s[p]);
    GreedyIs(DateSep, Finite(1), s, p, 1);
    RepThen(DateSep, 1, Finite(1), 1, 1, rest, s, p, open, group);
  }

  /** Every repeat of the date body takes all it can, and the group is the ten characters. */
  lemma DateRun(s: string, i: nat, open: nat, group: Option<Span>)
    requires FullDateAt(s, i) && open <= i && SpanWithin(group, |s|)
    ensures Run(DateTail, s, i, open, group) == Some(Found(i + 10, Some(Span(i, i + 10))))
  {
    DateMonthRun(s, i, group);
    DigitsThen(1, 2, 2, DateTail1, s, i, i, group);
    OpenThen(DateTail0, s, i, open, group);
  }

  /** The four digits of the year close the group. */
  lemma YearRun(s: string, i: nat, group: Option<Span>)
    requires FullDateAt(s, i) && SpanWithin(group, |s|)
    ensures Run(DateTail4, s, i + 6, i, group) == Some(Found(i + 10, Some(Span(i, i + 10))))
  {
    CloseThen([], s, i + 10, i, group);
    DigitsThen(2, 4, 4, DateTail5, s, i + 6, i, group);
  }

  lemma DateYearRun(s: string, i: nat, group: Option<Span>)
    requires FullDateAt(s, i) && SpanWithin(group, |s|)
    ensures Run(DateTail3, s, i + 5, i, group) == Some(Found(i + 10, Some(Span(i, i + 10))))
  {
    YearRun(s, i, group);
    SepThen(DateTail4, s, i + 5, i, group);
  }

  lemma DateMonthRun(s: string, i: nat, group: Option<Span>)
    requires FullDateAt(s, i) && SpanWithin(group, |s|)
    ensures Run(DateTail1, s, i + 2, i, group) == Some(Found(i + 10, Some(Span(i, i + 10))))
  {
    DateYearRun(s, i, group);
    DigitsThen(1, 2, 2, DateTail3, s, i + 3, i, group);
    SepThen(DateTail2, s, i + 2, i, group);
  }

  /** `\s*(?::|...)?[:\s]*` over `": "` and then a date: the colon is the
      connecting word, the space is the `[:\s]*`, and the date is the group. */
  lemma ColonThenDate(ws: seq<string>, s: string, i: nat)
    requires i + 2 <= |s| && s[i] == ':' && s[i + 1] == ' ' && FullDateAt(s, i + 2)
    ensures Run(Connector([":"] + ws) + DateTail, s, i, 0, None) == Some(Found(i + 12, Some(Span(i + 2, i + 12))))
  {
    ColonWordThen(ws, s, i);
    GreedyIs(Space, Unbounded, s, i, 0);
    RepThen(Space, 0, Unbounded, 0, 0, [Opt(Words([":"] + ws))] + ([Star(ColonSpace)] + DateTail), s, i, 0, None);
    ConnectorCons([":"] + ws, DateTail);
  }

  /** The colon is read as the optional connecting word. */
  lemma ColonWordThen(ws: seq<string>, s: string, i: nat)
    requires i + 2 <= |s| && s[i] == ':' && s[i + 1] == ' ' && FullDateAt(s, i + 2)
    ensures Run([Opt(Words([":"] + ws))] + ([Star(ColonSpace)] + DateTail), s, i, 0, None)
            == Some(Found(i + 12, Some(Span(i + 2, i + 12))))
  {
    var rest := [Star(ColonSpace)] + DateTail;
    SpaceThenDate(s, i + 1);
    assert StartsAt(s, i, ":");
    WordsThen(":", ws, rest, s, i, 0, None);
    OptTake(Words([":"] + ws), rest, s, i, 0, None);
  }

  lemma ConnectorCons(ws: seq<string>, tail: seq<Node>)
    ensures Connector(ws) + tail == [Star(Space)] + ([Opt(Words(ws))] + ([Star(ColonSpace)] + tail))
  {
  }

  /** `[:\s]*` over one space, then a date. */
  lemma SpaceThenDate(s: string, i: nat)
    requires i + 1 <= |s| && s[i] == ' ' && FullDateAt(s, i + 1)
    ensures Run([Star(ColonSpace)] + DateTail, s, i, 0, None) == Some(Found(i + 11, Some(Span(i + 1, i + 11))))
  {
    DateRun(s, i + 1, 0, None);
    GreedyIs(ColonSpace, Unbounded, s, i, 1);
    RepThen(ColonSpace, 0, Unbounded, 1, 1, DateTail, s, i, 0, None);
  }

  // ---------------------------------------------------------------------------
  // Amounts

  /** `[:\s]*[\$£€]?([0-9,]+\.[0-9]{2})` with nothing after the group, one node shorter each. */
  const AmountTail6: seq<Node> := [Close]
  const AmountTail5: seq<Node> := [Between(Digit, 2, 2)] + AmountTail6
  const AmountTail4: seq<Node> := [Lit(".")] + AmountTail5
  const AmountTail3: seq<Node> := [Plus(Grouped)] + AmountTail4
  const AmountTail2: seq<Node> := [Open] + AmountTail3
  const AmountTail1: seq<Node> := [Maybe(Currency)] + AmountTail2
  const AmountTail0: seq<Node> := [Star(ColonSpace)] + AmountTail1

  lemma AmountTailIs()
    ensures AmountLead + [Open] + AmountBody + [Close] + [] == AmountTail0
  {
  }

  /** `s[b..b + n + 3]` is digits and commas, a point and two digits. */
  predicate AmountAt(s: string, b: nat, n: nat) {
    0 < n && b + n + 3 <= |s| && (forall j :: b <= j < b + n ==> IsDigit(s[j]) || s[j] == ',')
    && s[b + n] == '.' && IsDigit(s[b + n + 1]) && IsDigit(s[b + n + 2])
  }

  /** The point and the two digits after it close the group. */
  lemma FractionRun(s: string, b: nat, e: nat)
    requires b <= e && e + 3 <= |s| && s[e] == '.' && IsDigit(s[e + 1]) && IsDigit(s[e + 2])
    ensures Run(AmountTail4, s, e, b, None) == Some(Found(e + 3, Some(Span(b, e + 3))))
  {
    CloseThen([], s, e + 3, b, None);
    ClassFacts(s[e + 1]);
    ClassFacts(s[e + 2]);
    GreedyIs(Digit, Finite(2), s, e + 1, 2);
    RepThen(Digit, 2, Finite(2), 2, 2, AmountTail6, s, e + 1, b, None);
    assert StartsAt(s, e, ".");
    LitThen(".", AmountTail5, s, e, b, None);
  }

  /** The group is the whole amount: the grouped digits stop at the point. */
  lemma AmountRun(s: string, b: nat, n: nat, open: nat)
    requires AmountAt(s, b, n) && open <= b
    ensures Run(AmountTail2, s, b, open, None) == Some(Found(b + n + 3, Some(Span(b, b + n + 3))))
  {
    FractionRun(s, b, b + n);
    forall j | b <= j < b + n
      ensures InClass(Grouped, s[j])
    {
      ClassFacts(s[j]);
    }
    ClassFacts(s[b + n]);
    GreedyIs(Grouped, Unbounded, s, b, n);
    RepThen(Grouped, 1, Unbounded, n, n, AmountTail4, s, b, b, None);
    OpenThen(AmountTail3, s, b, open, None);
  }

  /** A currency sign or not at `c`, then an amount at `b`. */
  lemma CurrencyRun(s: string, c: nat, b: nat, n: nat)
    requires c < |s| && ((b == c + 1 && InClass(Currency, s[c])) || (b == c && !InClass(Currency, s[c])))
    requires AmountAt(s, b, n)
    ensures Run(AmountTail1, s, c, 0, None) == Some(Found(b + n + 3, Some(Span(b, b + n + 3))))
  {
    AmountRun(s, b, n, 0);
    CurrencyThen(AmountTail2, s, c, b);
  }

  /** `[\$£€]?` takes the sign when there is one, then the rest. */
  lemma CurrencyThen(rest: seq<Node>, s: string, c: nat, b: nat)
    requires c < |s| && ((b == c + 1 && InClass(Currency, s[c])) || (b == c && !InClass(Currency, s[c])))
    requires Run(rest, s, b, 0, None).Some?
    ensures Run([Maybe(Currency)] + rest, s, c, 0, None) == Run(rest, s, b, 0, None)
  {
    GreedyIs(Currency, Finite(1), s, c, b - c);
    RepThen(Currency, 0, Finite(1), b - c, b - c, rest, s, c, 0, None);
  }

  /** Colons and spaces from `i` to `c`, then a currency sign or not, then an amount at `b`. */
  lemma AmountLeadRun(s: string, i: nat, c: nat, b: nat, n: nat)
    requires i <= c < |s| && (forall j :: i <= j < c ==> InClass(ColonSpace, s[j])) && !InClass(ColonSpace, s[c])
    requires (b == c + 1 && InClass(Currency, s[c])) || (b == c && !InClass(Currency, s[c]))
    requires AmountAt(s, b, n)
    ensures Run(AmountTail0, s, i, 0, None) == Some(Found(b + n + 3, Some(Span(b, b + n + 3))))
  {
    CurrencyRun(s, c, b, n);
    ColonSpaceThen(AmountTail1, s, i, c);
  }

  /** `[:\s]*` takes every colon and space from `i` to `c`, then the rest. */
  lemma ColonSpaceThen(rest: seq<Node>, s: string, i: nat, c: nat)
    requires i <= c < |s| && (forall j :: i <= j < c ==> InClass(ColonSpace, s[j])) && !InClass(ColonSpace, s[c])
    requires Run(rest, s, c, 0, None).Some?
    ensures Run([Star(ColonSpace)] + rest, s, i, 0, None) == Run(rest, s, c, 0, None)
  {
    GreedyIs(ColonSpace, Unbounded, s, i, c - i);
    RepThen(ColonSpace, 0, Unbounded, c - i, c - i, rest, s, i, 0, None);
  }

  // ---------------------------------------------------------------------------
  // Which pattern of a table decides

  /** When the patterns before `k` find nothing and pattern `k` matches, the
      field is pattern `k`'s group. */
  lemma CapturedAt(ps: seq<Pattern>, s: string, k: nat, m: Match)
    requires AllWellFormed(ps) && k < |ps|
    requires forall j :: 0 <= j < k ==> Search(Nodes(ps[j]), s).None?
    requires Search(Nodes(ps[k]), s) == Some(m) && m.group.Some? && m.group.value.lo <= m.group.value.hi <= |s|
    ensures FirstHit(ps, s) == k && FirstCapture(ps, s) == Some(s[m.group.value.lo..m.group.value.hi])
  {
  }
}
