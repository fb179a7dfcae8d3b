/**
 * The fragment of Python's `re` that the extractor's patterns use, always under
 * `(?i)`: case-insensitive literals, character classes with a greedy repeat
 * count (`?`, `*`, `+`, `{m,n}`), alternation, non-capturing groups and one
 * capturing group.  `Run` is a backtracking matcher that explores paths in the
 * order Python's engine does and stops at the first success, so the group it
 * reports is the one from the first successful path.
 */
module Regex {
  import opened Wrappers
  import opened Text

  /** A character class as the patterns write it: the ranges `A-Z`, `a-z`,
      `0-9` (or `\d`), the escape `\s`, and single characters. */
  datatype CharClass = CharClass(upper: bool, lower: bool, digit: bool, space: bool, chars: string)

  predicate InClassExactly(k: CharClass, c: char) {
    (k.upper && 'A' <= c <= 'Z') || (k.lower && 'a' <= c <= 'z') || (k.digit && IsDigit(c))
    || (k.space && IsSpace(c)) || c in k.chars
  }

  /** Membership under IGNORECASE: `c` or one of its case variants is in the class. */
  predicate InClass(k: CharClass, c: char) {
    InClassExactly(k, c) || InClassExactly(k, Lower(c)) || InClassExactly(k, Upper(c))
  }

  datatype Bound = Finite(n: nat) | Unbounded

  predicate WithinBound(n: nat, b: Bound) {
    b.Unbounded? || n <= b.n
  }

  datatype Node =
    | Lit(word: string)                          // a case-insensitive literal
    | Rep(cls: CharClass, min: nat, max: Bound)  // `[...]{min,max}`, greedy
    | Alt(options: seq<Node>)                    // `(?:a|b|...)`, tried in written order
    | Cat(items: seq<Node>)                      // a sequence inside an alternative
    | Open                                       // `(` of the capturing group
    | Close                                      // `)` of the capturing group

  function NodeSize(n: Node): (r: nat)
    ensures r >= 1
  {
    match n
    case Alt(os) => 1 + SeqSize(os)
    case Cat(xs) => 1 + SeqSize(xs)
    case _ => 1
  }

  function SeqSize(p: seq<Node>): nat {
    if p == [] then 0 else NodeSize(p[0]) + SeqSize(p[1..])
  }

  lemma {:induction false} SeqSizeAppend(a: seq<Node>, b: seq<Node>)
    ensures SeqSize(a + b) == SeqSize(a) + SeqSize(b)
  {
    if a == [] {
      assert a + b == b;
    } else {
      assert (a + b)[0] == a[0];
      assert (a + b)[1..] == a[1..] + b;
      SeqSizeAppend(a[1..], b);
    }
  }

  /** The word occurs, ignoring case, at position `i` of `s`. */
  predicate StartsAt(s: string, i: nat, w: string) {
    i + |w| <= |s| && forall k :: 0 <= k < |w| ==> Lower(s[i + k]) == Lower(w[k])
  }

  /** The length of the longest run of class characters starting at `i`. */
  function MaxRun(k: CharClass, s: string, i: nat): (n: nat)
    requires i <= |s|
    ensures i + n <= |s|
    ensures forall j :: i <= j < i + n ==> InClass(k, s[j])
    ensures i + n == |s| || !InClass(k, s[i + n])
    decreases |s| - i
  {
    if i < |s| && InClass(k, s[i]) then 1 + MaxRun(k, s, i + 1) else 0
  }

  /** How many characters a greedy repeat takes first: the longest run, cut at the bound. */
  function Greedy(k: CharClass, b: Bound, s: string, i: nat): (n: nat)
    requires i <= |s|
    ensures i + n <= |s| && WithinBound(n, b)
    ensures forall j :: i <= j < i + n ==> InClass(k, s[j])
    ensures forall m :: n < m && WithinBound(m, b) ==> i + m > |s| || !InClass(k, s[i + n])
  {
    var r := MaxRun(k, s, i);
    if b.Finite? && b.n < r then b.n else r
  }

  datatype Span = Span(lo: nat, hi: nat)

  /** The end of a successful path and the group it captured, if any. */
  datatype Found = Found(end: nat, group: Option<Span>)

  predicate SpanWithin(g: Option<Span>, n: nat) {
    g.Some? ==> g.value.lo <= g.value.hi <= n
  }

  /**
   * The first successful path, in Python's backtracking order, for the work
   * list `p` starting at `i`; `open` is where the capturing group was last
   * opened and `group` the capture made so far.  Reaching the end of the work
   * list is success, wherever in `s` that happens (as `re.search` does).
   */
  function Run(p: seq<Node>, s: string, i: nat, open: nat, group: Option<Span>): (r: Option<Found>)
    requires open <= i <= |s| && SpanWithin(group, |s|)
    ensures r.Some? ==> i <= r.value.end <= |s| && SpanWithin(r.value.group, |s|)
    decreases SeqSize(p), 0, 0
  {
    if p == [] then Some(Found(i, group))
    else
      match p[0]
      case Lit(w) =>
        if StartsAt(s, i, w) then Run(p[1..], s, i + |w|, open, group) else None
      case Open => Run(p[1..], s, i, i, group)
      case Close => Run(p[1..], s, i, open, Some(Span(open, i)))
      case Alt(os) =>
        assert SeqSize(p) == 1 + SeqSize(os) + SeqSize(p[1..]);
        TryOptions(os, p[1..], s, i, open, group)
      case Cat(xs) =>
        assert SeqSize(p) == 1 + SeqSize(xs) + SeqSize(p[1..]);
        SeqSizeAppend(xs, p[1..]);
        Run(xs + p[1..], s, i, open, group)
      case Rep(k, lo, hi) =>
        var n := Greedy(k, hi, s, i);
        if n < lo then None else TryCounts(lo, n, p[1..], s, i, open, group)
  }

  /** The alternatives of an `Alt`, each followed by the rest of the work list, in order. */
  function TryOptions(os: seq<Node>, rest: seq<Node>, s: string, i: nat, open: nat, group: Option<Span>): (r: Option<Found>)
    requires open <= i <= |s| && SpanWithin(group, |s|)
    ensures r.Some? ==> i <= r.value.end <= |s| && SpanWithin(r.value.group, |s|)
    decreases SeqSize(os) + SeqSize(rest), 1, |os|
  {
    if os == [] then None
    else
      SeqSizeAppend([os[0]], rest);
      var r := Run([os[0]] + rest, s, i, open, group);
      if r.Some? then r else TryOptions(os[1..], rest, s, i, open, group)
  }

  /** A greedy repeat giving back one character at a time: `n`, `n - 1`, ..., `lo`. */
  function TryCounts(lo: nat, n: nat, rest: seq<Node>, s: string, i: nat, open: nat, group: Option<Span>): (r: Option<Found>)
    requires lo <= n && open <= i && i + n <= |s| && SpanWithin(group, |s|)
    ensures r.Some? ==> i <= r.value.end <= |s| && SpanWithin(r.value.group, |s|)
    decreases SeqSize(rest), 1, n
  {
    var r := Run(rest, s, i + n, open, group);
    if r.Some? || n <= lo then r else TryCounts(lo, n - 1, rest, s, i, open, group)
  }

  /** A match as `re.search` reports it. */
  datatype Match = Match(start: nat, end: nat, group: Option<Span>)

  /** `re.search` from position `i` on: the first start position with a successful path. */
  function SearchFrom(p: seq<Node>, s: string, i: nat): (r: Option<Match>)
    requires i <= |s|
    ensures r.Some? ==> i <= r.value.start <= r.value.end <= |s| && SpanWithin(r.value.group, |s|)
    ensures r.Some? ==> Run(p, s, r.value.start, 0, None) == Some(Found(r.value.end, r.value.group))
    ensures r.Some? ==> forall k :: i <= k < r.value.start ==> Run(p, s, k, 0, None).None?
    ensures r.None? ==> forall k :: i <= k <= |s| ==> Run(p, s, k, 0, None).None?
    decreases |s| - i
  {
    match Run(p, s, i, 0, None)
    case Some(f) => Some(Match(i, f.end, f.group))
    case None => if i == |s| then None else SearchFrom(p, s, i + 1)
  }

  function Search(p: seq<Node>, s: string): Option<Match> {
    SearchFrom(p, s, 0)
  }

  /** `match.group(1)`: the captured text, or `None` when the group took no part. */
  function GroupText(s: string, m: Match): Option<string>
    requires SpanWithin(m.group, |s|)
  {
    if m.group.Some? then Some(s[m.group.value.lo..m.group.value.hi]) else None
  }
}
