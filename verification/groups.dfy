/**
 * Patterns with exactly one capturing group, and `match.group(1)` for them.
 */
module Groups {
  import opened Wrappers
  import opened Regex
  import opened RegexTheory

  /** `before ( body ) after`, no part holding a group marker of its own. */
  datatype Pattern = Pattern(before: seq<Node>, body: seq<Node>, after: seq<Node>)

  function Nodes(pat: Pattern): seq<Node> {
    pat.before + [Open] + pat.body + [Close] + pat.after
  }

  predicate WellFormed(pat: Pattern) {
    PlainSeq(pat.before) && PlainSeq(pat.body) && PlainSeq(pat.after)
  }

  /**
   * `re.search(pattern, s)` followed by `.group(1)`: `None` when there is no
   * match; otherwise the group always took part, and its text is a stretch
   * of `s` that the body reads exactly.
   */
  function Capture(pat: Pattern, s: string): (r: Option<string>)
    requires WellFormed(pat)
    ensures r.None? <==> Search(Nodes(pat), s).None?
    ensures r.Some? ==> exists lo: nat, hi: nat :: lo <= hi <= |s| && r.value == s[lo..hi] && Accepts(pat.body, s, lo, hi)
  {
    match Search(Nodes(pat), s)
    case None => None
    case Some(m) =>
      CaptureBefore(pat.before, pat.body, pat.after, s, m.start, 0, None);
      var g := m.group.value;
      assert Accepts(pat.body, s, g.lo, g.hi);
      Some(s[g.lo..g.hi])
  }
}
