/**
 * One-step facts about `Regex.Run` and `Regex.Search`, for following a
 * concrete match by hand.  Each lemma is about a work list written as its
 * first node followed by the rest, `[node] + rest`, and says what running
 * it comes to in terms of running `rest`.
 */
module RegexSteps {
  import opened Wrappers
  import opened Text
  import opened Regex
  import opened Patterns

  /** A greedy repeat's length, from the characters around it. */
  lemma GreedyIs(k: CharClass, b: Bound, s: string, i: nat, n: nat)
    requires i + n <= |s| && WithinBound(n, b)
    requires forall j :: i <= j < i + n ==> InClass(k, s[j])
    requires i + n == |s| || !InClass(k, s[i + n]) || b == Finite(n)
    ensures Greedy(k, b, s, i) == n
  {
  }

  lemma LitThen(w: string, rest: seq<Node>, s: string, i: nat, open: nat, group: Option<Span>)
    requires open <= i <= |s| && SpanWithin(group, |s|)
    ensures Run([Lit(w)] + rest, s, i, open, group) == if StartsAt(s, i, w) then Run(rest, s, i + |w|, open, group) else None
  {
    assert ([Lit(w)] + rest)[1..] == rest;
  }

  lemma OpenThen(rest: seq<Node>, s: string, i: nat, open: nat, group: Option<Span>)
    requires open <= i <= |s| && SpanWithin(group, |s|)
    ensures Run([Open] + rest, s, i, open, group) == Run(rest, s, i, i, group)
  {
    assert ([Open] + rest)[1..] == rest;
  }

  lemma CloseThen(rest: seq<Node>, s: string, i: nat, open: nat, group: Option<Span>)
    requires open <= i <= |s| && SpanWithin(group, |s|)
    ensures Run([Close] + rest, s, i, open, group) == Run(rest, s, i, open, Some(Span(open, i)))
  {
    assert ([Close] + rest)[1..] == rest;
  }

  lemma CatThen(xs: seq<Node>, rest: seq<Node>, s: string, i: nat, open: nat, group: Option<Span>)
    requires open <= i <= |s| && SpanWithin(group, |s|)
    ensures Run([Cat(xs)] + rest, s, i, open, group) == Run(xs + rest, s, i, open, group)
  {
    assert ([Cat(xs)] + rest)[1..] == rest;
  }

  /** An alternation tries its first option with the rest, and only then the others. */
  lemma AltThen(x: Node, xs: seq<Node>, rest: seq<Node>, s: string, i: nat, open: nat, group: Option<Span>)
    requires open <= i <= |s| && SpanWithin(group, |s|)
    ensures Run([Alt([x] + xs)] + rest, s, i, open, group) ==
              if Run([x] + rest, s, i, open, group).Some? then Run([x] + rest, s, i, open, group)
              else Run([Alt(xs)] + rest, s, i, open, group)
  {
    assert ([Alt([x] + xs)] + rest)[1..] == rest && ([Alt(xs)] + rest)[1..] == rest;
    assert ([x] + xs)[0] == x && ([x] + xs)[1..] == xs;
  }

  lemma AltEnd(rest: seq<Node>, s: string, i: nat, open: nat, group: Option<Span>)
    requires open <= i <= |s| && SpanWithin(group, |s|)
    ensures Run([Alt([])] + rest, s, i, open, group) == None
  {
    assert ([Alt([])] + rest)[1..] == rest;
  }

  /** `x?` when `x` cannot lead to a match: the rest runs from the same place. */
  lemma OptSkip(x: Node, rest: seq<Node>, s: string, i: nat, open: nat, group: Option<Span>)
    requires open <= i <= |s| && SpanWithin(group, |s|)
    requires Run([x] + rest, s, i, open, group).None?
    ensures Run([Opt(x)] + rest, s, i, open, group) == Run(rest, s, i, open, group)
  {
    AltThen(x, [Cat([])], rest, s, i, open, group);
    AltThen(Cat([]), [], rest, s, i, open, group);
    AltEnd(rest, s, i, open, group);
    CatThen([], rest, s, i, open, group);
    assert [x] + [Cat([])] == [x, Cat([])] && [Cat([])] + [] == [Cat([])] && [] + rest == rest;
  }

  /** `x?` when `x` leads to a match: that match. */
  lemma OptTake(x: Node, rest: seq<Node>, s: string, i: nat, open: nat, group: Option<Span>)
    requires open <= i <= |s| && SpanWithin(group, |s|)
    requires Run([x] + rest, s, i, open, group).Some?
    ensures Run([Opt(x)] + rest, s, i, open, group) == Run([x] + rest, s, i, open, group)
  {
    AltThen(x, [Cat([])], rest, s, i, open, group);
    assert [x] + [Cat([])] == [x, Cat([])];
  }

  /** An alternation of words tries the first word, then the others. */
  lemma WordsThen(w: string, ws: seq<string>, rest: seq<Node>, s: string, i: nat, open: nat, group: Option<Span>)
    requires open <= i <= |s| && SpanWithin(group, |s|)
    ensures Run([Words([w] + ws)] + rest, s, i, open, group) ==
              if StartsAt(s, i, w) && Run(rest, s, i + |w|, open, group).Some? then Run(rest, s, i + |w|, open, group)
              else Run([Words(ws)] + rest, s, i, open, group)
  {
    assert Words([w] + ws).options == [Lit(w)] + Words(ws).options;
    AltThen(Lit(w), Words(ws).options, rest, s, i, open, group);
    LitThen(w, rest, s, i, open, group);
  }

  lemma WordsEnd(rest: seq<Node>, s: string, i: nat, open: nat, group: Option<Span>)
    requires open <= i <= |s| && SpanWithin(group, |s|)
    ensures Run([Words([])] + rest, s, i, open, group) == None
  {
    assert Words([]) == Alt([]);
    AltEnd(rest, s, i, open, group);
  }

  /** The last word of an alternation: it decides alone. */
  lemma WordsLast(w: string, rest: seq<Node>, s: string, i: nat, open: nat, group: Option<Span>)
    requires open <= i <= |s| && SpanWithin(group, |s|)
    ensures Run([Words([w])] + rest, s, i, open, group) == Run([Lit(w)] + rest, s, i, open, group)
  {
    WordsThen(w, [], rest, s, i, open, group);
    WordsEnd(rest, s, i, open, group);
    LitThen(w, rest, s, i, open, group);
    assert [w] + [] == [w];
  }

  // ---------------------------------------------------------------------------
  // Greedy repeats

  /** Giving back characters from `n` down to `m` finds nothing. */
  lemma {:induction false} CountDown(lo: nat, m: nat, n: nat, rest: seq<Node>, s: string, i: nat, open: nat, group: Option<Span>)
    requires lo <= m <= n && open <= i && i + n <= |s| && SpanWithin(group, |s|)
    requires forall e :: i + m < e <= i + n ==> Run(rest, s, e, open, group).None?
    ensures TryCounts(lo, n, rest, s, i, open, group) == TryCounts(lo, m, rest, s, i, open, group)
    decreases n
  {
    if m < n {
      assert Run(rest, s, i + n, open, group).None?;
      CountDown(lo, m, n - 1, rest, s, i, open, group);
    }
  }

  /** A repeat that takes `n` characters greedily and gives back down to `m`,
      where the rest first succeeds. */
  lemma RepThen(k: CharClass, lo: nat, hi: Bound, n: nat, m: nat, rest: seq<Node>, s: string, i: nat, open: nat, group: Option<Span>)
    requires open <= i <= |s| && SpanWithin(group, |s|)
    requires Greedy(k, hi, s, i) == n && lo <= m <= n
    requires forall e :: i + m < e <= i + n ==> Run(rest, s, e, open, group).None?
    requires Run(rest, s, i + m, open, group).Some?
    ensures Run([Rep(k, lo, hi)] + rest, s, i, open, group) == Run(rest, s, i + m, open, group)
  {
    assert ([Rep(k, lo, hi)] + rest)[1..] == rest;
    CountDown(lo, m, n, rest, s, i, open, group);
  }

  /** A repeat after which the rest succeeds for no count fails. */
  lemma RepFails(k: CharClass, lo: nat, hi: Bound, n: nat, rest: seq<Node>, s: string, i: nat, open: nat, group: Option<Span>)
    requires open <= i <= |s| && SpanWithin(group, |s|)
    requires Greedy(k, hi, s, i) == n
    requires forall e :: i + lo <= e <= i + n ==> Run(rest, s, e, open, group).None?
    ensures Run([Rep(k, lo, hi)] + rest, s, i, open, group) == None
  {
    assert ([Rep(k, lo, hi)] + rest)[1..] == rest;
    if lo <= n {
      CountDown(lo, lo, n, rest, s, i, open, group);
    }
  }

  // ---------------------------------------------------------------------------
  // Searching

  /** `re.search` reports the first start position with a successful path. */
  lemma SearchFindsAt(p: seq<Node>, s: string, a: nat, f: Found)
    requires a <= |s| && Run(p, s, a, 0, None) == Some(f)
    requires forall k :: 0 <= k < a ==> Run(p, s, k, 0, None).None?
    ensures Search(p, s) == Some(Match(a, f.end, f.group))
  {
    SearchFromFinds(p, s, 0, a, f);
  }

  lemma {:induction false} SearchFromFinds(p: seq<Node>, s: string, i: nat, a: nat, f: Found)
    requires i <= a <= |s| && Run(p, s, a, 0, None) == Some(f)
    requires forall k :: i <= k < a ==> Run(p, s, k, 0, None).None?
    ensures SearchFrom(p, s, i) == Some(Match(a, f.end, f.group))
    decreases a - i
  {
    if i < a {
      SearchFromFinds(p, s, i + 1, a, f);
    }
  }

  /** `re.search` finds nothing when no start position has a successful path. */
  lemma SearchFindsNothing(p: seq<Node>, s: string)
    requires forall k :: 0 <= k <= |s| ==> Run(p, s, k, 0, None).None?
    ensures Search(p, s) == None
  {
  }

  /** A work list that begins with a word cannot start where the word does not occur. */
  lemma LitMisses(w: string, rest: seq<Node>, s: string, a: nat, b: nat)
    requires forall k :: a <= k < b && k <= |s| ==> !StartsAt(s, k, w)
    ensures forall k :: a <= k < b && k <= |s| ==> Run([Lit(w)] + rest, s, k, 0, None).None?
  {
    forall k | a <= k < b && k <= |s|
      ensures Run([Lit(w)] + rest, s, k, 0, None).None?
    {
      LitThen(w, rest, s, k, 0, None);
    }
  }

  /** No word of the alternation starts at `i`, so it fails there. */
  lemma {:induction false} WordsNone(ws: seq<string>, rest: seq<Node>, s: string, i: nat, open: nat, group: Option<Span>)
    requires open <= i <= |s| && SpanWithin(group, |s|)
    requires forall m :: 0 <= m < |ws| ==> !StartsAt(s, i, ws[m])
    ensures Run([Words(ws)] + rest, s, i, open, group) == None
    decreases |ws|
  {
    if ws == [] {
      WordsEnd(rest, s, i, open, group);
    } else {
      assert ws == [ws[0]] + ws[1..];
      WordsThen(ws[0], ws[1..], rest, s, i, open, group);
      WordsNone(ws[1..], rest, s, i, open, group);
    }
  }

  /** A word whose first letter does not occur in `y` starts nowhere in `y`. */
  lemma NotStartedIn(w: string, s: string, a: nat, y: string, k: nat)
    requires w != [] && LacksLetter(y, w[0]) && a + |y| <= |s| && s[a..a + |y|] == y && a <= k < a + |y|
    ensures !StartsAt(s, k, w)
  {
    var d := y[k - a];
    assert s[k] == d && d in y;
    assert Lower(s[k + 0]) != Lower(w[0]);
  }

  /** A work list that begins with a word cannot start anywhere in a stretch
      `y` of `s` in which the word's first letter does not occur. */
  lemma LitAbsent(w: string, rest: seq<Node>, s: string, a: nat, y: string)
    requires w != [] && a + |y| <= |s| && s[a..a + |y|] == y && LacksLetter(y, w[0])
    ensures forall k :: a <= k < a + |y| ==> Run([Lit(w)] + rest, s, k, 0, None).None?
  {
    forall k | a <= k < a + |y|
      ensures Run([Lit(w)] + rest, s, k, 0, None).None?
    {
      NotStartedIn(w, s, a, y, k);
      LitThen(w, rest, s, k, 0, None);
    }
  }

  /** A work list that begins with an alternation of words cannot start
      anywhere in a stretch `y` of `s` in which no word's first letter occurs. */
  lemma WordsAbsent(ws: seq<string>, rest: seq<Node>, s: string, a: nat, y: string)
    requires a + |y| <= |s| && s[a..a + |y|] == y
    requires forall m :: 0 <= m < |ws| ==> ws[m] != [] && LacksLetter(y, ws[m][0])
    ensures forall k :: a <= k < a + |y| ==> Run([Words(ws)] + rest, s, k, 0, None).None?
  {
    forall k | a <= k < a + |y|
      ensures Run([Words(ws)] + rest, s, k, 0, None).None?
    {
      forall m | 0 <= m < |ws|
        ensures !StartsAt(s, k, ws[m])
      {
        NotStartedIn(ws[m], s, a, y, k);
      }
      WordsNone(ws, rest, s, k, 0, None);
    }
  }
}
