/**
 * The third total-amount pattern, `(?:sub)?total\s*(?:due)?...`, never
 * decides the total: wherever it reads something, the first pattern,
 * `total\s*(?:amount|payment|due)?...`, reads something too (from the
 * `total` on), and the first pattern is tried before it.
 */
module TotalOrder {
  import opened Wrappers
  import opened Text
  import opened Regex
  import opened RegexTheory
  import opened Groups
  import opened Patterns
  import opened OcrProcessor

  /** What the two patterns share after the optional word: the lead and the captured amount. */
  const AmountTail: seq<Node> := AmountLead + [Open] + AmountBody + [Close] + []

  /** `total\s*` followed by an optional word and a tail. */
  function AfterTotal(word: Node, tail: seq<Node>): seq<Node> {
    [Lit("total")] + ([Star(Space)] + ([Opt(word)] + tail))
  }

  lemma NodesAfterTotal()
    ensures Nodes(Total1) == AfterTotal(Words(["amount", "payment", "due"]), AmountTail)
    ensures Nodes(Total3) == [Opt(Lit("sub"))] + AfterTotal(Lit("due"), AmountTail)
  {
  }

  // ---------------------------------------------------------------------------
  // One node of a reading

  lemma AcceptsLit(w: string, rest: seq<Node>, s: string, i: nat, j: nat)
    ensures Accepts([Lit(w)] + rest, s, i, j) <==> StartsAt(s, i, w) && Accepts(rest, s, i + |w|, j)
  {
    assert ([Lit(w)] + rest)[1..] == rest;
  }

  /** `x?` reads either `x` and the rest, or the rest alone. */
  lemma AcceptsOpt(x: Node, rest: seq<Node>, s: string, i: nat, j: nat)
    ensures Accepts([Opt(x)] + rest, s, i, j) <==> Accepts([x] + rest, s, i, j) || Accepts(rest, s, i, j)
  {
    var p := [Opt(x)] + rest;
    assert p[1..] == rest;
    assert Accepts([Cat([])] + rest, s, i, j) == Accepts(rest, s, i, j) by {
      assert ([Cat([])] + rest)[1..] == rest;
      assert [] + rest == rest;
    }
    assert Accepts(p, s, i, j) <==> exists m :: 0 <= m < 2 && Accepts([[x, Cat([])][m]] + rest, s, i, j);
    if Accepts([x] + rest, s, i, j) {
      assert [x, Cat([])][0] == x;
    }
    if Accepts(rest, s, i, j) {
      assert [x, Cat([])][1] == Cat([]);
    }
  }

  /** A reading of `[k]*` and the rest takes some run of class characters first. */
  lemma StarOut(k: CharClass, rest: seq<Node>, s: string, i: nat, j: nat) returns (n: nat)
    requires Accepts([Star(k)] + rest, s, i, j)
    ensures i + n <= |s| && AllInClass(k, s, i, i + n) && Accepts(rest, s, i + n, j)
  {
    var p := [Star(k)] + rest;
    assert p[0] == Rep(k, 0, Unbounded) && p[1..] == rest;
    assert exists c: nat :: 0 <= c && WithinBound(c, Unbounded) && i + c <= |s| && AllInClass(k, s, i, i + c)
                            && Accepts(p[1..], s, i + c, j);
    var c: nat :| 0 <= c && WithinBound(c, Unbounded) && i + c <= |s| && AllInClass(k, s, i, i + c)
                   && Accepts(p[1..], s, i + c, j);
    n := c;
  }

  lemma StarIn(k: CharClass, rest: seq<Node>, s: string, i: nat, j: nat, n: nat)
    requires i + n <= |s| && AllInClass(k, s, i, i + n) && Accepts(rest, s, i + n, j)
    ensures Accepts([Star(k)] + rest, s, i, j)
  {
    assert ([Star(k)] + rest)[1..] == rest;
    assert WithinBound(n, Unbounded);
  }

  /** `due` is the third choice of the first pattern's word. */
  lemma DueIsAWord(rest: seq<Node>, s: string, i: nat, j: nat)
    requires Accepts([Lit("due")] + rest, s, i, j)
    ensures Accepts([Words(["amount", "payment", "due"])] + rest, s, i, j)
  {
    var ws := ["amount", "payment", "due"];
    var p := [Words(ws)] + rest;
    assert p[1..] == rest;
    assert Words(ws).options[2] == Lit("due");
  }

  // ---------------------------------------------------------------------------
  // From a reading of the third pattern to one of the first

  /** The third pattern's optional `due` is one of the first pattern's optional words. */
  lemma OptDueCovered(tail: seq<Node>, s: string, c: nat, j: nat)
    requires Accepts([Opt(Lit("due"))] + tail, s, c, j)
    ensures Accepts([Opt(Words(["amount", "payment", "due"]))] + tail, s, c, j)
  {
    var word := Words(["amount", "payment", "due"]);
    AcceptsOpt(Lit("due"), tail, s, c, j);
    AcceptsOpt(word, tail, s, c, j);
    if Accepts([Lit("due")] + tail, s, c, j) {
      DueIsAWord(tail, s, c, j);
    }
  }

  /** After `total`, the two patterns read alike. */
  lemma AfterTotalCovers(tail: seq<Node>, s: string, b: nat, j: nat)
    requires Accepts(AfterTotal(Lit("due"), tail), s, b, j)
    ensures Accepts(AfterTotal(Words(["amount", "payment", "due"]), tail), s, b, j)
  {
    var spaced3 := [Star(Space)] + ([Opt(Lit("due"))] + tail);
    var spaced1 := [Star(Space)] + ([Opt(Words(["amount", "payment", "due"]))] + tail);
    AcceptsLit("total", spaced3, s, b, j);
    SpacedCovers(tail, s, b + 5, j);
    AcceptsLit("total", spaced1, s, b, j);
  }

  lemma SpacedCovers(tail: seq<Node>, s: string, c: nat, j: nat)
    requires Accepts([Star(Space)] + ([Opt(Lit("due"))] + tail), s, c, j)
    ensures Accepts([Star(Space)] + ([Opt(Words(["amount", "payment", "due"]))] + tail), s, c, j)
  {
    var n := StarOut(Space, [Opt(Lit("due"))] + tail, s, c, j);
    OptDueCovered(tail, s, c + n, j);
    StarIn(Space, [Opt(Words(["amount", "payment", "due"]))] + tail, s, c, j, n);
  }

  /** A reading of the third pattern from `a` gives one of the first pattern from
      `a` or, when it began with `sub`, from `a + 3`. */
  lemma ThirdCovered(tail: seq<Node>, s: string, a: nat, j: nat) returns (b: nat)
    requires Accepts([Opt(Lit("sub"))] + AfterTotal(Lit("due"), tail), s, a, j)
    ensures b <= |s| && (b == a || b == a + 3) && Accepts(AfterTotal(Words(["amount", "payment", "due"]), tail), s, b, j)
  {
    var after := AfterTotal(Lit("due"), tail);
    AcceptsOpt(Lit("sub"), after, s, a, j);
    if Accepts([Lit("sub")] + after, s, a, j) {
      AcceptsLit("sub", after, s, a, j);
      b := a + 3;
    } else {
      b := a;
    }
    AfterTotalCovers(tail, s, b, j);
    AcceptsLit("total", [Star(Space)] + ([Opt(Words(["amount", "payment", "due"]))] + tail), s, b, j);
  }

  /** Whenever the third pattern matches somewhere, so does the first. */
  lemma ThirdNeedsFirst(s: string)
    ensures Search(Nodes(Total3), s).Some? ==> Search(Nodes(Total1), s).Some?
  {
    NodesAfterTotal();
    SearchIffAccepts(Nodes(Total3), s);
    SearchIffAccepts(Nodes(Total1), s);
    if Search(Nodes(Total3), s).Some? {
      var a: nat, j: nat :| a <= |s| && Accepts(Nodes(Total3), s, a, j);
      var b := ThirdCovered(AmountTail, s, a, j);
      assert b <= |s| && Accepts(Nodes(Total1), s, b, j);
    }
  }

  /** So the first matching pattern of the table is never the third, and the
      total comes from the third pattern on no text at all. */
  lemma Total3NeverDecides(s: string)
    ensures FirstHit(TotalPatterns, s) != 2
  {
    ThirdNeedsFirst(s);
    assert TotalPatterns[0] == Total1 && TotalPatterns[2] == Total3;
  }
}
