/**
 * What the backtracking matcher computes, stated against a declarative
 * reading of the same patterns: `Accepts(p, s, i, j)` holds when some way of
 * reading `p` consumes exactly `s[i..j]`.  `Run` succeeds exactly when such a
 * reading exists, `SearchFrom` finds a match exactly when one exists at some
 * start, and the capturing group of a successful run spans text that the
 * group's own sub-pattern accepts.
 */
module RegexTheory {
  import opened Wrappers
  import opened Text
  import opened Regex

  /** Every character of `s[i..j]` is in the class. */
  predicate AllInClass(k: CharClass, s: string, i: nat, j: nat)
    requires i <= j <= |s|
  {
    forall m :: i <= m < j ==> InClass(k, s[m])
  }

  lemma OptionSize(os: seq<Node>, m: nat, rest: seq<Node>)
    requires m < |os|
    ensures SeqSize([os[m]] + rest) <= SeqSize(os) + SeqSize(rest)
  {
    SeqSizeAppend([os[m]], rest);
    ElementSize(os, m);
  }

  lemma {:induction false} ElementSize(os: seq<Node>, m: nat)
    requires m < |os|
    ensures NodeSize(os[m]) <= SeqSize(os)
    decreases m
  {
    if m > 0 {
      assert os[1..][m - 1] == os[m];
      ElementSize(os[1..], m - 1);
    }
  }

  /** Some reading of the work list `p` consumes exactly `s[i..j]`. */
  ghost predicate Accepts(p: seq<Node>, s: string, i: nat, j: nat)
    decreases SeqSize(p)
  {
    if p == [] then i == j
    else
      match p[0]
      case Lit(w) => StartsAt(s, i, w) && Accepts(p[1..], s, i + |w|, j)
      case Open => Accepts(p[1..], s, i, j)
      case Close => Accepts(p[1..], s, i, j)
      case Alt(os) =>
        assert SeqSize(p) == 1 + SeqSize(os) + SeqSize(p[1..]);
        exists m :: 0 <= m < |os| && (OptionSize(os, m, p[1..]); Accepts([os[m]] + p[1..], s, i, j))
      case Cat(xs) =>
        assert SeqSize(p) == 1 + SeqSize(xs) + SeqSize(p[1..]);
        SeqSizeAppend(xs, p[1..]);
        Accepts(xs + p[1..], s, i, j)
      case Rep(k, lo, hi) =>
        exists n: nat :: lo <= n && WithinBound(n, hi) && i + n <= |s| && AllInClass(k, s, i, i + n)
                         && Accepts(p[1..], s, i + n, j)
  }

  // ---------------------------------------------------------------------------
  // How TryOptions and TryCounts pick their result

  lemma {:induction false} TryOptionsPicks(os: seq<Node>, rest: seq<Node>, s: string, i: nat, open: nat, group: Option<Span>)
    requires open <= i <= |s| && SpanWithin(group, |s|)
    requires TryOptions(os, rest, s, i, open, group).Some?
    ensures exists m :: 0 <= m < |os| && Run([os[m]] + rest, s, i, open, group) == TryOptions(os, rest, s, i, open, group)
    decreases |os|
  {
    if Run([os[0]] + rest, s, i, open, group).None? {
      TryOptionsPicks(os[1..], rest, s, i, open, group);
      var m :| 0 <= m < |os[1..]| && Run([os[1..][m]] + rest, s, i, open, group) == TryOptions(os[1..], rest, s, i, open, group);
      assert os[1..][m] == os[m + 1];
    }
  }

  lemma {:induction false} TryOptionsFinds(os: seq<Node>, rest: seq<Node>, s: string, i: nat, open: nat, group: Option<Span>, m: nat)
    requires open <= i <= |s| && SpanWithin(group, |s|)
    requires m < |os| && Run([os[m]] + rest, s, i, open, group).Some?
    ensures TryOptions(os, rest, s, i, open, group).Some?
    decreases m
  {
    if m > 0 && Run([os[0]] + rest, s, i, open, group).None? {
      assert os[1..][m - 1] == os[m];
      TryOptionsFinds(os[1..], rest, s, i, open, group, m - 1);
    }
  }

  lemma {:induction false} TryCountsPicks(lo: nat, n: nat, rest: seq<Node>, s: string, i: nat, open: nat, group: Option<Span>)
    requires lo <= n && open <= i && i + n <= |s| && SpanWithin(group, |s|)
    requires TryCounts(lo, n, rest, s, i, open, group).Some?
    ensures exists e: nat :: i + lo <= e <= i + n && Run(rest, s, e, open, group) == TryCounts(lo, n, rest, s, i, open, group)
    decreases n
  {
    if Run(rest, s, i + n, open, group).None? {
      TryCountsPicks(lo, n - 1, rest, s, i, open, group);
    } else {
      assert Run(rest, s, i + n, open, group) == TryCounts(lo, n, rest, s, i, open, group);
    }
  }

  lemma {:induction false} TryCountsFinds(lo: nat, n: nat, rest: seq<Node>, s: string, i: nat, open: nat, group: Option<Span>, c: nat)
    requires open <= i && i + n <= |s| && SpanWithin(group, |s|)
    requires lo <= c <= n && Run(rest, s, i + c, open, group).Some?
    ensures TryCounts(lo, n, rest, s, i, open, group).Some?
    decreases n
  {
    if c < n && Run(rest, s, i + n, open, group).None? {
      TryCountsFinds(lo, n - 1, rest, s, i, open, group, c);
    }
  }

  // ---------------------------------------------------------------------------
  // Soundness and completeness of the matcher

  /** Whatever path `Run` reports is a reading of `p`. */
  lemma {:induction false} RunSound(p: seq<Node>, s: string, i: nat, open: nat, group: Option<Span>)
    requires open <= i <= |s| && SpanWithin(group, |s|)
    requires Run(p, s, i, open, group).Some?
    ensures Accepts(p, s, i, Run(p, s, i, open, group).value.end)
    decreases SeqSize(p), 1
  {
    if p == [] {
      return;
    }
    match p[0]
    case Lit(w) => RunSound(p[1..], s, i + |w|, open, group);
    case Open => RunSound(p[1..], s, i, i, group);
    case Close => RunSound(p[1..], s, i, open, Some(Span(open, i)));
    case Alt(os) => RunSoundAlt(p, s, i, open, group);
    case Cat(xs) =>
      assert SeqSize(p) == 1 + SeqSize(xs) + SeqSize(p[1..]);
      SeqSizeAppend(xs, p[1..]);
      RunSound(xs + p[1..], s, i, open, group);
    case Rep(k, lo, hi) => RunSoundRep(p, s, i, open, group);
  }

  lemma {:induction false} RunSoundAlt(p: seq<Node>, s: string, i: nat, open: nat, group: Option<Span>)
    requires open <= i <= |s| && SpanWithin(group, |s|)
    requires p != [] && p[0].Alt? && Run(p, s, i, open, group).Some?
    ensures Accepts(p, s, i, Run(p, s, i, open, group).value.end)
    decreases SeqSize(p), 0
  {
    var os := p[0].options;
    assert SeqSize(p) == 1 + SeqSize(os) + SeqSize(p[1..]);
    TryOptionsPicks(os, p[1..], s, i, open, group);
    var m :| 0 <= m < |os| && Run([os[m]] + p[1..], s, i, open, group) == TryOptions(os, p[1..], s, i, open, group);
    OptionSize(os, m, p[1..]);
    RunSound([os[m]] + p[1..], s, i, open, group);
  }

  lemma {:induction false} RunSoundRep(p: seq<Node>, s: string, i: nat, open: nat, group: Option<Span>)
    requires open <= i <= |s| && SpanWithin(group, |s|)
    requires p != [] && p[0].Rep? && Run(p, s, i, open, group).Some?
    ensures Accepts(p, s, i, Run(p, s, i, open, group).value.end)
    decreases SeqSize(p), 0
  {
    var n, e := RepStep(p, s, i, open, group);
    RunSound(p[1..], s, e, open, group);
    RepAccepts(p, s, i, n, e - i, Run(p, s, i, open, group).value.end);
  }

  /** A successful run through a repeat continues, with the same result, after
      some count between the minimum and the greedy run length. */
  lemma RepStep(p: seq<Node>, s: string, i: nat, open: nat, group: Option<Span>) returns (n: nat, e: nat)
    requires open <= i <= |s| && SpanWithin(group, |s|)
    requires p != [] && p[0].Rep? && Run(p, s, i, open, group).Some?
    ensures n == Greedy(p[0].cls, p[0].max, s, i) && i + p[0].min <= e <= i + n
    ensures Run(p[1..], s, e, open, group) == Run(p, s, i, open, group)
  {
    var Rep(k, lo, hi) := p[0];
    n := Greedy(k, hi, s, i);
    assert Run(p, s, i, open, group) == TryCounts(lo, n, p[1..], s, i, open, group);
    TryCountsPicks(lo, n, p[1..], s, i, open, group);
    e :| i + lo <= e <= i + n && Run(p[1..], s, e, open, group) == TryCounts(lo, n, p[1..], s, i, open, group);
  }

  /** A repeat that takes `c` characters of a greedy run of `n`, then the rest. */
  lemma RepAccepts(p: seq<Node>, s: string, i: nat, n: nat, c: nat, j: nat)
    requires p != [] && p[0].Rep? && i <= |s| && n == Greedy(p[0].cls, p[0].max, s, i)
    requires p[0].min <= c <= n && Accepts(p[1..], s, i + c, j)
    ensures Accepts(p, s, i, j)
  {
    var Rep(k, lo, hi) := p[0];
    assert WithinBound(n, hi);
    assert WithinBound(c, hi);
    assert AllInClass(k, s, i, i + c);
  }

  /** If some reading of `p` exists from `i`, `Run` finds one (not necessarily that one). */
  lemma {:induction false} RunComplete(p: seq<Node>, s: string, i: nat, j: nat, open: nat, group: Option<Span>)
    requires open <= i <= |s| && SpanWithin(group, |s|)
    requires Accepts(p, s, i, j)
    ensures Run(p, s, i, open, group).Some?
    decreases SeqSize(p), 1
  {
    if p != [] {
      match p[0]
      case Lit(w) => RunComplete(p[1..], s, i + |w|, j, open, group);
      case Open => RunComplete(p[1..], s, i, j, i, group);
      case Close => RunComplete(p[1..], s, i, j, open, Some(Span(open, i)));
      case Alt(os) => RunCompleteAlt(p, s, i, j, open, group);
      case Cat(xs) =>
        assert SeqSize(p) == 1 + SeqSize(xs) + SeqSize(p[1..]);
        SeqSizeAppend(xs, p[1..]);
        RunComplete(xs + p[1..], s, i, j, open, group);
      case Rep(k, lo, hi) => RunCompleteRep(p, s, i, j, open, group);
    }
  }

  lemma {:induction false} RunCompleteAlt(p: seq<Node>, s: string, i: nat, j: nat, open: nat, group: Option<Span>)
    requires open <= i <= |s| && SpanWithin(group, |s|)
    requires p != [] && p[0].Alt? && Accepts(p, s, i, j)
    ensures Run(p, s, i, open, group).Some?
    decreases SeqSize(p), 0
  {
    var os := p[0].options;
    assert SeqSize(p) == 1 + SeqSize(os) + SeqSize(p[1..]);
    var m :| 0 <= m < |os| && Accepts([os[m]] + p[1..], s, i, j);
    OptionSize(os, m, p[1..]);
    RunComplete([os[m]] + p[1..], s, i, j, open, group);
    TryOptionsFinds(os, p[1..], s, i, open, group, m);
  }

  lemma {:induction false} RunCompleteRep(p: seq<Node>, s: string, i: nat, j: nat, open: nat, group: Option<Span>)
    requires open <= i <= |s| && SpanWithin(group, |s|)
    requires p != [] && p[0].Rep? && Accepts(p, s, i, j)
    ensures Run(p, s, i, open, group).Some?
    decreases SeqSize(p), 0
  {
    var Rep(k, lo, hi) := p[0];
    var c: nat :| lo <= c && WithinBound(c, hi) && i + c <= |s| && AllInClass(k, s, i, i + c)
                   && Accepts(p[1..], s, i + c, j);
    var n := Greedy(k, hi, s, i);
    RunComplete(p[1..], s, i + c, j, open, group);
    TryCountsFinds(lo, n, p[1..], s, i, open, group, c);
  }

  /** `Run` succeeds from `i` exactly when some reading of `p` starts at `i`. */
  lemma RunIffAccepts(p: seq<Node>, s: string, i: nat)
    requires i <= |s|
    ensures Run(p, s, i, 0, None).Some? <==> exists j :: Accepts(p, s, i, j)
  {
    if Run(p, s, i, 0, None).Some? {
      RunSound(p, s, i, 0, None);
      var e := Run(p, s, i, 0, None).value.end;
      assert Accepts(p, s, i, e);
    }
    if j :| Accepts(p, s, i, j) {
      RunComplete(p, s, i, j, 0, None);
    }
  }

  /** `re.search` finds a match exactly when the pattern reads some substring,
      and the match it reports starts at the leftmost such position. */
  lemma SearchIffAccepts(p: seq<Node>, s: string)
    ensures Search(p, s).Some? <==> exists i: nat, j: nat :: i <= |s| && Accepts(p, s, i, j)
    ensures Search(p, s).Some? ==> Accepts(p, s, Search(p, s).value.start, Search(p, s).value.end)
    ensures Search(p, s).Some? ==> forall i: nat, j: nat :: i < Search(p, s).value.start ==> !Accepts(p, s, i, j)
  {
    var r := Search(p, s);
    if r.Some? {
      RunSound(p, s, r.value.start, 0, None);
      assert Accepts(p, s, r.value.start, r.value.end);
      forall i: nat, j: nat | i < r.value.start
        ensures !Accepts(p, s, i, j)
      {
        if Accepts(p, s, i, j) {
          RunComplete(p, s, i, j, 0, None);
        }
      }
    } else {
      forall i: nat, j: nat | i <= |s|
        ensures !Accepts(p, s, i, j)
      {
        if Accepts(p, s, i, j) {
          RunComplete(p, s, i, j, 0, None);
        }
      }
    }
  }

  // ---------------------------------------------------------------------------
  // The capturing group

  /** No group marker anywhere in the node, nested alternatives included. */
  predicate PlainNode(n: Node) {
    match n
    case Open => false
    case Close => false
    case Alt(os) => PlainSeq(os)
    case Cat(xs) => PlainSeq(xs)
    case _ => true
  }

  predicate PlainSeq(p: seq<Node>) {
    forall m :: 0 <= m < |p| ==> PlainNode(p[m])
  }

  /** The group is `Some` and spans text that `body` reads exactly. */
  ghost predicate CapturedBy(body: seq<Node>, s: string, g: Option<Span>) {
    g.Some? && g.value.lo <= g.value.hi <= |s| && Accepts(body, s, g.value.lo, g.value.hi)
  }

  lemma PlainAppend(a: seq<Node>, b: seq<Node>)
    requires PlainSeq(a) && PlainSeq(b)
    ensures PlainSeq(a + b)
  {
    forall m | 0 <= m < |a + b|
      ensures PlainNode((a + b)[m])
    {
      if m < |a| {
        assert (a + b)[m] == a[m];
      } else {
        assert (a + b)[m] == b[m - |a|];
      }
    }
  }

  lemma PlainParts(p: seq<Node>)
    requires p != [] && PlainSeq(p)
    ensures PlainSeq(p[1..])
    ensures p[0].Alt? ==> forall m :: 0 <= m < |p[0].options| ==> PlainSeq([p[0].options[m]] + p[1..])
    ensures p[0].Cat? ==> PlainSeq(p[0].items + p[1..])
  {
    assert PlainNode(p[0]);
    assert forall m :: 0 <= m < |p[1..]| ==> p[1..][m] == p[m + 1];
    if p[0].Alt? {
      forall m | 0 <= m < |p[0].options|
        ensures PlainSeq([p[0].options[m]] + p[1..])
      {
        assert PlainSeq(p[0].options);
        assert PlainNode(p[0].options[m]);
        PlainAppend([p[0].options[m]], p[1..]);
      }
    }
    if p[0].Cat? {
      PlainAppend(p[0].items, p[1..]);
    }
  }

  /** A run over a work list without group markers hands back the capture it was given. */
  lemma {:induction false} PlainKeepsGroup(p: seq<Node>, s: string, i: nat, open: nat, group: Option<Span>)
    requires open <= i <= |s| && SpanWithin(group, |s|)
    requires PlainSeq(p) && Run(p, s, i, open, group).Some?
    ensures Run(p, s, i, open, group).value.group == group
    decreases SeqSize(p)
  {
    if p != [] {
      PlainParts(p);
      match p[0]
      case Lit(w) => PlainKeepsGroup(p[1..], s, i + |w|, open, group);
      case Alt(os) =>
        assert SeqSize(p) == 1 + SeqSize(os) + SeqSize(p[1..]);
        TryOptionsPicks(os, p[1..], s, i, open, group);
        var m :| 0 <= m < |os| && Run([os[m]] + p[1..], s, i, open, group) == TryOptions(os, p[1..], s, i, open, group);
        OptionSize(os, m, p[1..]);
        PlainKeepsGroup([os[m]] + p[1..], s, i, open, group);
      case Cat(xs) =>
        assert SeqSize(p) == 1 + SeqSize(xs) + SeqSize(p[1..]);
        SeqSizeAppend(xs, p[1..]);
        PlainKeepsGroup(xs + p[1..], s, i, open, group);
      case Rep(k, lo, hi) =>
        var n, e := RepStep(p, s, i, open, group);
        PlainKeepsGroup(p[1..], s, e, open, group);
    }
  }

  /** Inside the group: the capture closes over text that the rest of the group reads. */
  lemma {:induction false} CaptureInside(xs: seq<Node>, post: seq<Node>, s: string, i: nat, open: nat, group: Option<Span>)
    requires open <= i <= |s| && SpanWithin(group, |s|)
    requires PlainSeq(xs) && PlainSeq(post)
    requires Run(xs + [Close] + post, s, i, open, group).Some?
    ensures ClosedOver(xs, s, i, open, Run(xs + [Close] + post, s, i, open, group).value.group)
    decreases SeqSize(xs), 1
  {
    var p := xs + [Close] + post;
    if xs == [] {
      assert p == [Close] + post;
      PlainKeepsGroup(post, s, i, open, Some(Span(open, i)));
    } else {
      InsideTail(xs, post);
      PlainParts(xs);
      if xs[0].Alt? {
        CaptureInsideAlt(xs, post, s, i, open, group);
      } else if xs[0].Cat? {
        CaptureInsideCat(xs, post, s, i, open, group);
      } else if xs[0].Rep? {
        CaptureInsideRep(xs, post, s, i, open, group);
      } else {
        var w := xs[0].word;
        CaptureInside(xs[1..], post, s, i + |w|, open, group);
      }
    }
  }

  /** The group closed at `hi` over text that `xs` reads from `i`, having opened at `open`. */
  ghost predicate ClosedOver(xs: seq<Node>, s: string, i: nat, open: nat, g: Option<Span>) {
    g.Some? && g.value.lo == open && i <= g.value.hi <= |s| && Accepts(xs, s, i, g.value.hi)
  }

  lemma {:induction false} CaptureInsideAlt(xs: seq<Node>, post: seq<Node>, s: string, i: nat, open: nat, group: Option<Span>)
    requires open <= i <= |s| && SpanWithin(group, |s|)
    requires xs != [] && xs[0].Alt? && PlainSeq(xs) && PlainSeq(post)
    requires Run(xs + [Close] + post, s, i, open, group).Some?
    ensures ClosedOver(xs, s, i, open, Run(xs + [Close] + post, s, i, open, group).value.group)
    decreases SeqSize(xs), 0
  {
    var p := xs + [Close] + post;
    var os := xs[0].options;
    InsideTail(xs, post);
    PlainParts(xs);
    assert SeqSize(xs) == 1 + SeqSize(os) + SeqSize(xs[1..]);
    TryOptionsPicks(os, p[1..], s, i, open, group);
    var m :| 0 <= m < |os| && Run([os[m]] + p[1..], s, i, open, group) == TryOptions(os, p[1..], s, i, open, group);
    OptionSize(os, m, xs[1..]);
    var ys := [os[m]] + xs[1..];
    InsidePrefix([os[m]], xs[1..], post);
    CaptureInside(ys, post, s, i, open, group);
  }

  lemma {:induction false} CaptureInsideCat(xs: seq<Node>, post: seq<Node>, s: string, i: nat, open: nat, group: Option<Span>)
    requires open <= i <= |s| && SpanWithin(group, |s|)
    requires xs != [] && xs[0].Cat? && PlainSeq(xs) && PlainSeq(post)
    requires Run(xs + [Close] + post, s, i, open, group).Some?
    ensures ClosedOver(xs, s, i, open, Run(xs + [Close] + post, s, i, open, group).value.group)
    decreases SeqSize(xs), 0
  {
    var p := xs + [Close] + post;
    var zs := xs[0].items;
    InsideTail(xs, post);
    PlainParts(xs);
    assert SeqSize(xs) == 1 + SeqSize(zs) + SeqSize(xs[1..]);
    SeqSizeAppend(zs, xs[1..]);
    var ys := zs + xs[1..];
    InsidePrefix(zs, xs[1..], post);
    CaptureInside(ys, post, s, i, open, group);
  }

  lemma {:induction false} CaptureInsideRep(xs: seq<Node>, post: seq<Node>, s: string, i: nat, open: nat, group: Option<Span>)
    requires open <= i <= |s| && SpanWithin(group, |s|)
    requires xs != [] && xs[0].Rep? && PlainSeq(xs) && PlainSeq(post)
    requires Run(xs + [Close] + post, s, i, open, group).Some?
    ensures ClosedOver(xs, s, i, open, Run(xs + [Close] + post, s, i, open, group).value.group)
    decreases SeqSize(xs), 0
  {
    var p := xs + [Close] + post;
    InsideTail(xs, post);
    PlainParts(xs);
    var n, e := RepStep(p, s, i, open, group);
    CaptureInside(xs[1..], post, s, e, open, group);
    var g := Run(p, s, i, open, group).value.group;
    RepAccepts(xs, s, i, n, e - i, g.value.hi);
  }

  /** Before the group: a successful run captures text that `body` reads exactly. */
  lemma {:induction false} CaptureBefore(ys: seq<Node>, body: seq<Node>, post: seq<Node>, s: string, i: nat, open: nat, group: Option<Span>)
    requires open <= i <= |s| && SpanWithin(group, |s|)
    requires PlainSeq(ys) && PlainSeq(body) && PlainSeq(post)
    requires Run(ys + [Open] + body + [Close] + post, s, i, open, group).Some?
    ensures CapturedBy(body, s, Run(ys + [Open] + body + [Close] + post, s, i, open, group).value.group)
    decreases SeqSize(ys), 1
  {
    var p := ys + [Open] + body + [Close] + post;
    if ys == [] {
      assert p == [Open] + (body + [Close] + post);
      CaptureInside(body, post, s, i, i, group);
    } else {
      AroundTail(ys, body, post);
      PlainParts(ys);
      if ys[0].Alt? {
        CaptureBeforeAlt(ys, body, post, s, i, open, group);
      } else if ys[0].Cat? {
        CaptureBeforeCat(ys, body, post, s, i, open, group);
      } else if ys[0].Rep? {
        CaptureBeforeRep(ys, body, post, s, i, open, group);
      } else {
        var w := ys[0].word;
        CaptureBefore(ys[1..], body, post, s, i + |w|, open, group);
      }
    }
  }

  lemma {:induction false} CaptureBeforeAlt(ys: seq<Node>, body: seq<Node>, post: seq<Node>, s: string, i: nat, open: nat, group: Option<Span>)
    requires open <= i <= |s| && SpanWithin(group, |s|)
    requires ys != [] && ys[0].Alt? && PlainSeq(ys) && PlainSeq(body) && PlainSeq(post)
    requires Run(ys + [Open] + body + [Close] + post, s, i, open, group).Some?
    ensures CapturedBy(body, s, Run(ys + [Open] + body + [Close] + post, s, i, open, group).value.group)
    decreases SeqSize(ys), 0
  {
    var p := ys + [Open] + body + [Close] + post;
    var os := ys[0].options;
    AroundTail(ys, body, post);
    PlainParts(ys);
    assert SeqSize(ys) == 1 + SeqSize(os) + SeqSize(ys[1..]);
    TryOptionsPicks(os, p[1..], s, i, open, group);
    var m :| 0 <= m < |os| && Run([os[m]] + p[1..], s, i, open, group) == TryOptions(os, p[1..], s, i, open, group);
    OptionSize(os, m, ys[1..]);
    var zs := [os[m]] + ys[1..];
    AroundPrefix([os[m]], ys[1..], body, post);
    CaptureBefore(zs, body, post, s, i, open, group);
  }

  lemma {:induction false} CaptureBeforeCat(ys: seq<Node>, body: seq<Node>, post: seq<Node>, s: string, i: nat, open: nat, group: Option<Span>)
    requires open <= i <= |s| && SpanWithin(group, |s|)
    requires ys != [] && ys[0].Cat? && PlainSeq(ys) && PlainSeq(body) && PlainSeq(post)
    requires Run(ys + [Open] + body + [Close] + post, s, i, open, group).Some?
    ensures CapturedBy(body, s, Run(ys + [Open] + body + [Close] + post, s, i, open, group).value.group)
    decreases SeqSize(ys), 0
  {
    var p := ys + [Open] + body + [Close] + post;
    var xs := ys[0].items;
    AroundTail(ys, body, post);
    PlainParts(ys);
    assert SeqSize(ys) == 1 + SeqSize(xs) + SeqSize(ys[1..]);
    SeqSizeAppend(xs, ys[1..]);
    var zs := xs + ys[1..];
    AroundPrefix(xs, ys[1..], body, post);
    CaptureBefore(zs, body, post, s, i, open, group);
  }

  lemma {:induction false} CaptureBeforeRep(ys: seq<Node>, body: seq<Node>, post: seq<Node>, s: string, i: nat, open: nat, group: Option<Span>)
    requires open <= i <= |s| && SpanWithin(group, |s|)
    requires ys != [] && ys[0].Rep? && PlainSeq(ys) && PlainSeq(body) && PlainSeq(post)
    requires Run(ys + [Open] + body + [Close] + post, s, i, open, group).Some?
    ensures CapturedBy(body, s, Run(ys + [Open] + body + [Close] + post, s, i, open, group).value.group)
    decreases SeqSize(ys), 0
  {
    var p := ys + [Open] + body + [Close] + post;
    AroundTail(ys, body, post);
    PlainParts(ys);
    var n, e := RepStep(p, s, i, open, group);
    CaptureBefore(ys[1..], body, post, s, e, open, group);
  }

  // ---------------------------------------------------------------------------
  // Regrouping the work lists around the group markers

  lemma InsideTail(xs: seq<Node>, post: seq<Node>)
    requires xs != []
    ensures (xs + [Close] + post)[0] == xs[0]
    ensures (xs + [Close] + post)[1..] == xs[1..] + [Close] + post
  {
  }

  lemma InsidePrefix(a: seq<Node>, xs: seq<Node>, post: seq<Node>)
    ensures a + (xs + [Close] + post) == (a + xs) + [Close] + post
  {
  }

  lemma AroundTail(ys: seq<Node>, body: seq<Node>, post: seq<Node>)
    requires ys != []
    ensures (ys + [Open] + body + [Close] + post)[0] == ys[0]
    ensures (ys + [Open] + body + [Close] + post)[1..] == ys[1..] + [Open] + body + [Close] + post
  {
  }

  lemma AroundPrefix(a: seq<Node>, ys: seq<Node>, body: seq<Node>, post: seq<Node>)
    ensures a + (ys + [Open] + body + [Close] + post) == (a + ys) + [Open] + body + [Close] + post
  {
  }
}
