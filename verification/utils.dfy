/**
 * The text utilities of the basic service: `clean_text`, which normalises the
 * whitespace of OCR output, and `validate_invoice_data`, which lists the
 * required fields an extracted record lacks.
 */
module Utils {
  import opened Text

  // ---------------------------------------------------------------------------
  // clean_text

  /** The end of the run of characters satisfying `inRun` that starts at `i`. */
  function RunEnd(t: string, i: nat, inRun: char -> bool): (e: nat)
    requires i <= |t|
    ensures i <= e <= |t| && (e == |t| || !inRun(t[e]))
    ensures forall k :: i <= k < e ==> inRun(t[k])
    decreases |t| - i
  {
    if i < |t| && inRun(t[i]) then RunEnd(t, i + 1, inRun) else i
  }

  /**
   * `re.sub(pattern, rep, t)` for a pattern `[class]+`: every maximal run of
   * class characters becomes the single character `rep`, everything else is
   * kept in order.
   */
  function ReplaceRuns(t: string, inRun: char -> bool, rep: char): (r: string)
    ensures |r| <= |t|
    ensures forall k :: 0 <= k < |r| && inRun(r[k]) ==> r[k] == rep
    ensures (forall k :: 0 <= k < |t| ==> !inRun(t[k])) ==> r == t
    ensures inRun(rep) ==> forall k :: 0 <= k < |r| - 1 ==> !(inRun(r[k]) && inRun(r[k + 1]))
    ensures t != [] ==> r != [] && r[0] == (if inRun(t[0]) then rep else t[0])
    decreases |t|
  {
    if t == [] then []
    else if inRun(t[0]) then
      var e := RunEnd(t, 0, inRun);
      [rep] + ReplaceRuns(t[e..], inRun, rep)
    else
      [t[0]] + ReplaceRuns(t[1..], inRun, rep)
  }

  /** Every character outside the runs survives, in order, and nothing else does
      when the replacement is itself a run character. */
  lemma {:induction false} ReplaceRunsKeeps(t: string, inRun: char -> bool, rep: char)
    requires inRun(rep)
    ensures Keep(ReplaceRuns(t, inRun, rep), inRun) == Keep(t, inRun)
    decreases |t|
  {
    if t == [] {
    } else if inRun(t[0]) {
      var e := RunEnd(t, 0, inRun);
      KeepSkipsRun(t, e, inRun);
      ReplaceRunsKeeps(t[e..], inRun, rep);
      KeepCons(rep, ReplaceRuns(t[e..], inRun, rep), inRun);
    } else {
      ReplaceRunsKeeps(t[1..], inRun, rep);
      KeepCons(t[0], t[1..], inRun);
      KeepCons(t[0], ReplaceRuns(t[1..], inRun, rep), inRun);
    }
  }

  /** The characters of `t` outside every run, in order. */
  function Keep(t: string, inRun: char -> bool): (r: string)
    ensures |r| <= |t|
    ensures forall k :: 0 <= k < |r| ==> !inRun(r[k])
    decreases |t|
  {
    if t == [] then [] else (if inRun(t[0]) then [] else [t[0]]) + Keep(t[1..], inRun)
  }

  lemma KeepCons(c: char, t: string, inRun: char -> bool)
    ensures Keep([c] + t, inRun) == (if inRun(c) then [] else [c]) + Keep(t, inRun)
  {
    assert ([c] + t)[1..] == t;
  }

  /** A leading run leaves nothing to keep. */
  lemma {:induction false} KeepSkipsRun(t: string, e: nat, inRun: char -> bool)
    requires e <= |t| && forall k :: 0 <= k < e ==> inRun(t[k])
    ensures Keep(t, inRun) == Keep(t[e..], inRun)
    decreases e
  {
    if e > 0 {
      KeepSkipsRun(t[1..], e - 1, inRun);
      assert t[1..][e - 1..] == t[e..];
    }
  }

  /** Text split at a character outside the class is replaced piece by piece. */
  lemma {:induction false} ReplaceRunsSplit(a: string, c: char, b: string, inRun: char -> bool, rep: char)
    requires !inRun(c)
    ensures ReplaceRuns(a + [c] + b, inRun, rep) == ReplaceRuns(a, inRun, rep) + [c] + ReplaceRuns(b, inRun, rep)
    decreases |a|, 1
  {
    if a == [] {
      assert a + [c] + b == [c] + b;
      ReplaceRunsCons(c, b, inRun, rep);
    } else if inRun(a[0]) {
      SplitRunFirst(a, c, b, inRun, rep);
    } else {
      SplitCopyFirst(a, c, b, inRun, rep);
    }
  }

  lemma {:induction false} SplitRunFirst(a: string, c: char, b: string, inRun: char -> bool, rep: char)
    requires a != [] && inRun(a[0]) && !inRun(c)
    ensures ReplaceRuns(a + [c] + b, inRun, rep) == ReplaceRuns(a, inRun, rep) + [c] + ReplaceRuns(b, inRun, rep)
    decreases |a|, 0
  {
    var e := RunEnd(a, 0, inRun);
    ReplaceRunsSplit(a[e..], c, b, inRun, rep);
    SplitAfterRun(a, c, b, inRun, rep);
    Regroup(rep, ReplaceRuns(a[e..], inRun, rep), c, ReplaceRuns(b, inRun, rep));
  }

  lemma Regroup(x: char, p: string, c: char, q: string)
    ensures [x] + (p + [c] + q) == ([x] + p) + [c] + q
  {
  }

  lemma {:induction false} SplitCopyFirst(a: string, c: char, b: string, inRun: char -> bool, rep: char)
    requires a != [] && !inRun(a[0]) && !inRun(c)
    ensures ReplaceRuns(a + [c] + b, inRun, rep) == ReplaceRuns(a, inRun, rep) + [c] + ReplaceRuns(b, inRun, rep)
    decreases |a|, 0
  {
    assert [a[0]] + (a[1..] + [c] + b) == a + [c] + b;
    assert [a[0]] + a[1..] == a;
    ReplaceRunsCons(a[0], a[1..] + [c] + b, inRun, rep);
    ReplaceRunsCons(a[0], a[1..], inRun, rep);
    ReplaceRunsSplit(a[1..], c, b, inRun, rep);
  }

  /** A character outside the class is copied. */
  lemma ReplaceRunsCons(c: char, t: string, inRun: char -> bool, rep: char)
    requires !inRun(c)
    ensures ReplaceRuns([c] + t, inRun, rep) == [c] + ReplaceRuns(t, inRun, rep)
  {
    assert ([c] + t)[0] == c && ([c] + t)[1..] == t;
  }

  /** The leading run of `a` is also the leading run of `a + [c] + b`. */
  lemma SplitAfterRun(a: string, c: char, b: string, inRun: char -> bool, rep: char)
    requires a != [] && inRun(a[0]) && !inRun(c)
    ensures var e := RunEnd(a, 0, inRun);
            ReplaceRuns(a + [c] + b, inRun, rep) == [rep] + ReplaceRuns(a[e..] + [c] + b, inRun, rep)
            && ReplaceRuns(a, inRun, rep) == [rep] + ReplaceRuns(a[e..], inRun, rep)
  {
    var t := a + [c] + b;
    var e := RunEnd(a, 0, inRun);
    RunEndPrefix(a, c, b, 0, inRun);
    assert t[0] == a[0];
    assert t[e..] == a[e..] + [c] + b;
  }

  /** A run inside `a` ends where it ends in `a + [c] + b` when `c` is outside the class. */
  lemma {:induction false} RunEndPrefix(a: string, c: char, b: string, i: nat, inRun: char -> bool)
    requires i <= |a| && !inRun(c)
    ensures RunEnd(a + [c] + b, i, inRun) == RunEnd(a, i, inRun)
    decreases |a| - i
  {
    var t := a + [c] + b;
    if i < |a| {
      assert t[i] == a[i];
      if inRun(a[i]) {
        RunEndPrefix(a, c, b, i + 1, inRun);
      }
    } else {
      assert t[i] == c;
    }
  }

  /** A whole run becomes one replacement character. */
  lemma ReplaceWholeRun(t: string, inRun: char -> bool, rep: char)
    requires t != [] && forall k :: 0 <= k < |t| ==> inRun(t[k])
    ensures ReplaceRuns(t, inRun, rep) == [rep]
  {
    assert RunEnd(t, 0, inRun) == |t|;
    assert t[|t|..] == [];
  }

  predicate IsNewline(c: char) { c == '\n' }

  /** `[line.strip() for line in lines]` */
  function StripEach(lines: seq<string>): (r: seq<string>)
    ensures |r| == |lines|
    ensures forall k :: 0 <= k < |r| ==> r[k] == Strip(lines[k])
  {
    seq(|lines|, k requires 0 <= k < |lines| => Strip(lines[k]))
  }

  /** `clean_text`: whitespace runs to one space, newline runs to one newline,
      each line stripped, the lines joined again. */
  function CleanText(text: string): (r: string)
    ensures r == Join(Tokens(text), " ")
    ensures '\n' !in r && Trimmed(r)
    ensures forall k :: 0 <= k < |r| - 1 ==> !(IsSpace(r[k]) && IsSpace(r[k + 1]))
    ensures r == [] <==> AllSpace(text)
  {
    var spaced := ReplaceRuns(text, IsSpace, ' ');
    var lines := Split(ReplaceRuns(spaced, IsNewline, '\n'), '\n');
    SecondPassKeeps(text);
    CleanIsTokens(text);
    JoinTokensShape(Tokens(text));
    TokensEmpty(text);
    Join(StripEach(lines), "\n")
  }

  /** After the first substitution there is no newline left, so the second one
      changes nothing and the text is a single line. */
  lemma SecondPassKeeps(text: string)
    ensures '\n' !in ReplaceRuns(text, IsSpace, ' ')
    ensures ReplaceRuns(ReplaceRuns(text, IsSpace, ' '), IsNewline, '\n') == ReplaceRuns(text, IsSpace, ' ')
    ensures Split(ReplaceRuns(text, IsSpace, ' '), '\n') == [ReplaceRuns(text, IsSpace, ' ')]
  {
    var spaced := ReplaceRuns(text, IsSpace, ' ');
    assert forall k :: 0 <= k < |spaced| ==> spaced[k] != '\n' by {
      forall k | 0 <= k < |spaced| ensures spaced[k] != '\n' {
        if spaced[k] == '\n' {
          assert IsSpace(spaced[k]);
        }
      }
    }
  }

  // ---------------------------------------------------------------------------
  // The reference: whitespace-separated tokens

  /** The end of the token starting at `i`: the first whitespace at or after `i`. */
  function WordEnd(t: string, i: nat): (e: nat)
    requires i <= |t|
    ensures i <= e <= |t| && (e == |t| || IsSpace(t[e]))
    ensures forall k :: i <= k < e ==> !IsSpace(t[k])
    decreases |t| - i
  {
    if i < |t| && !IsSpace(t[i]) then WordEnd(t, i + 1) else i
  }

  /** `t.split()`: the maximal runs of non-whitespace characters, in order. */
  function Tokens(t: string): (r: seq<string>)
    ensures forall m :: 0 <= m < |r| ==> IsToken(r[m])
    decreases |t|
  {
    var a := SkipSpaces(t, 0);
    if a == |t| then []
    else
      var e := WordEnd(t, a);
      [t[a..e]] + Tokens(t[e..])
  }

  /** A non-empty stretch without whitespace. */
  predicate IsToken(w: string) {
    w != [] && forall k :: 0 <= k < |w| ==> !IsSpace(w[k])
  }

  lemma TokensEmpty(t: string)
    ensures Tokens(t) == [] <==> AllSpace(t)
  {
    var a := SkipSpaces(t, 0);
    if a < |t| {
      assert !IsSpace(t[a]);
    }
  }

  /** Tokens joined by single spaces: no newline, trimmed, never two whitespace
      characters in a row, empty only when there are no tokens. */
  lemma {:induction false} JoinTokensShape(ws: seq<string>)
    requires forall m :: 0 <= m < |ws| ==> IsToken(ws[m])
    ensures var j := Join(ws, " ");
            '\n' !in j && Trimmed(j) && (j == [] <==> ws == [])
            && forall k :: 0 <= k < |j| - 1 ==> !(IsSpace(j[k]) && IsSpace(j[k + 1]))
  {
    if |ws| > 1 {
      JoinTokensShape(ws[1..]);
      var tail := Join(ws[1..], " ");
      var j := ws[0] + " " + tail;
      assert Join(ws, " ") == j;
      assert tail != [] && !IsSpace(tail[0]);
      forall k | 0 <= k < |j| - 1
        ensures !(IsSpace(j[k]) && IsSpace(j[k + 1]))
      {
        if k < |ws[0]| - 1 {
          assert j[k + 1] == ws[0][k + 1];
        } else if k == |ws[0]| - 1 {
          assert j[k] == ws[0][k];
        } else if k == |ws[0]| {
          assert j[k + 1] == tail[0];
        } else {
          assert j[k] == tail[k - |ws[0]| - 1] && j[k + 1] == tail[k - |ws[0]|];
        }
      }
      assert '\n' !in j by {
        assert '\n' !in ws[0];
      }
      assert j[|j| - 1] == tail[|tail| - 1];
    } else if |ws| == 1 {
      assert forall k :: 0 <= k < |ws[0]| ==> ws[0][k] != '\n';
    }
  }

  /** What the substitutions and the strip leave is the tokens joined by single spaces. */
  lemma CleanIsTokens(text: string)
    ensures Strip(ReplaceRuns(text, IsSpace, ' ')) == Join(Tokens(text), " ")
  {
    if text != [] && IsSpace(text[0]) {
      CleanLeadingSpace(text);
    } else {
      var j, pad := Join(Tokens(text), " "), Pad(text);
      assert ReplaceRuns(text, IsSpace, ' ') == [] + (j + pad) by {
        CollapseUnled(text);
      }
      assert Strip([] + (j + pad)) == j by {
        JoinTokensShape(Tokens(text));
        StripPadded([], j, pad);
      }
    }
  }

  lemma CleanLeadingSpace(text: string)
    requires text != [] && IsSpace(text[0])
    ensures Strip(ReplaceRuns(text, IsSpace, ' ')) == Join(Tokens(text), " ")
  {
    var u := text[SkipSpaces(text, 0)..];
    var j, pad := Join(Tokens(u), " "), Pad(u);
    assert ReplaceRuns(text, IsSpace, ' ') == " " + (j + pad) by {
      SpaceRunCollapses(text);
      CollapseUnled(u);
    }
    assert Join(Tokens(text), " ") == j by {
      TokensSkip(text);
    }
    assert Strip(" " + (j + pad)) == j by {
      JoinTokensShape(Tokens(u));
      StripPadded(" ", j, pad);
    }
  }

  /** Text that does not start with whitespace collapses to its tokens joined by
      single spaces, plus one space when it ends in whitespace. */
  lemma {:induction false} CollapseUnled(u: string)
    requires u == [] || !IsSpace(u[0])
    ensures ReplaceRuns(u, IsSpace, ' ') == Join(Tokens(u), " ") + Pad(u)
    decreases |u|, 1
  {
    if u != [] {
      var w, rest := FirstWord(u);
      if rest == [] {
        assert Tokens(u) == [w] + [];
        assert Join([w], " ") == w;
      } else {
        CollapseAfterWord(u, w, rest);
      }
    }
  }

  /** The inductive step: a token, whitespace, and then either nothing or more text. */
  lemma {:induction false} CollapseAfterWord(u: string, w: string, rest: string)
    requires u == w + rest && IsToken(w) && rest != [] && IsSpace(rest[0])
    requires ReplaceRuns(u, IsSpace, ' ') == w + ReplaceRuns(rest, IsSpace, ' ')
    requires Tokens(u) == [w] + Tokens(rest)
    ensures ReplaceRuns(u, IsSpace, ' ') == Join(Tokens(u), " ") + Pad(u)
    decreases |u|, 0
  {
    var rest' := rest[SkipSpaces(rest, 0)..];
    var x := ReplaceRuns(rest', IsSpace, ' ');
    assert ReplaceRuns(u, IsSpace, ' ') == w + (" " + x) by {
      SpaceRunCollapses(rest);
    }
    assert Tokens(u) == [w] + Tokens(rest') by {
      TokensSkip(rest);
    }
    if rest' == [] {
      BlankTail(u, w, rest);
      OneWord(u, w, x);
    } else {
      CollapseUnled(rest');
      assert u[|u| - 1] == rest'[|rest'| - 1];
      MoreWords(u, w, rest', x);
    }
  }

  /** A token and trailing whitespace: the token and one space. */
  lemma OneWord(u: string, w: string, x: string)
    requires x == [] && Pad(u) == " "
    requires ReplaceRuns(u, IsSpace, ' ') == w + (" " + x) && Tokens(u) == [w] + Tokens([])
    ensures ReplaceRuns(u, IsSpace, ' ') == Join(Tokens(u), " ") + Pad(u)
  {
    assert Tokens(u) == [w];
    assert Join([w], " ") == w;
  }

  /** A token, whitespace, then text with further tokens that already collapses. */
  lemma MoreWords(u: string, w: string, rest: string, x: string)
    requires rest != [] && u != [] && u[|u| - 1] == rest[|rest| - 1]
    requires x == Join(Tokens(rest), " ") + Pad(rest) && (rest == [] || !IsSpace(rest[0]))
    requires ReplaceRuns(u, IsSpace, ' ') == w + (" " + x) && Tokens(u) == [w] + Tokens(rest)
    ensures ReplaceRuns(u, IsSpace, ' ') == Join(Tokens(u), " ") + Pad(u)
  {
    TokensEmpty(rest);
    assert Pad(u) == Pad(rest);
    Assemble(w, x, Tokens(rest), Pad(u));
  }

  /** A token in front of a collapsed rest that holds further tokens. */
  lemma Assemble(w: string, x: string, ts: seq<string>, pad: string)
    requires ts != [] && x == Join(ts, " ") + pad
    ensures w + (" " + x) == Join([w] + ts, " ") + pad
  {
    JoinCons(w, ts, " ");
    var j := Join(ts, " ");
    assert w + (" " + (j + pad)) == (w + (" " + j)) + pad;
  }

  /** One space when the text ends in whitespace, nothing otherwise. */
  function Pad(u: string): (r: string)
    ensures AllSpace(r)
  {
    if u != [] && IsSpace(u[|u| - 1]) then " " else ""
  }

  /** A text starting with a token: the token, then the rest. */
  lemma FirstWord(u: string) returns (w: string, rest: string)
    requires u != [] && !IsSpace(u[0])
    ensures u == w + rest && IsToken(w) && (rest == [] || IsSpace(rest[0]))
    ensures ReplaceRuns(u, IsSpace, ' ') == w + ReplaceRuns(rest, IsSpace, ' ')
    ensures Tokens(u) == [w] + Tokens(rest)
    ensures rest == [] ==> Pad(u) == ""
  {
    var e := WordEnd(u, 0);
    w, rest := u[..e], u[e..];
    assert u == w + rest;
    CopyWord(w, rest);
    assert rest == [] ==> u[|u| - 1] == w[e - 1];
  }

  /** A token followed only by whitespace. */
  lemma BlankTail(u: string, w: string, rest: string)
    requires u == w + rest && rest != [] && IsSpace(rest[0])
    requires rest[SkipSpaces(rest, 0)..] == []
    ensures Pad(u) == " "
  {
    assert u[|u| - 1] == rest[|rest| - 1];
  }

  /** Characters that are not whitespace are copied one by one. */
  lemma {:induction false} CopyWord(w: string, rest: string)
    requires forall k :: 0 <= k < |w| ==> !IsSpace(w[k])
    ensures ReplaceRuns(w + rest, IsSpace, ' ') == w + ReplaceRuns(rest, IsSpace, ' ')
  {
    if w == [] {
      assert w + rest == rest;
    } else {
      assert w + rest == [w[0]] + (w[1..] + rest);
      ReplaceRunsCons(w[0], w[1..] + rest, IsSpace, ' ');
      CopyWord(w[1..], rest);
      Unshift(w, ReplaceRuns(rest, IsSpace, ' '));
    }
  }

  lemma Unshift(w: string, x: string)
    requires w != []
    ensures [w[0]] + (w[1..] + x) == w + x
  {
  }

  /** A leading run of whitespace becomes one space. */
  lemma SpaceRunCollapses(t: string)
    requires t != [] && IsSpace(t[0])
    ensures ReplaceRuns(t, IsSpace, ' ') == " " + ReplaceRuns(t[SkipSpaces(t, 0)..], IsSpace, ' ')
  {
    SkipUnique(t, 0, RunEnd(t, 0, IsSpace));
  }

  /** The first non-whitespace position is determined by its defining properties. */
  lemma SkipUnique(t: string, i: nat, a: nat)
    requires i <= a <= |t| && (a == |t| || !IsSpace(t[a])) && forall k :: i <= k < a ==> IsSpace(t[k])
    ensures SkipSpaces(t, i) == a
  {
    var b := SkipSpaces(t, i);
  }

  lemma WordEndUnique(t: string, i: nat, e: nat)
    requires i <= e <= |t| && (e == |t| || IsSpace(t[e])) && forall k :: i <= k < e ==> !IsSpace(t[k])
    ensures WordEnd(t, i) == e
  {
    var b := WordEnd(t, i);
  }

  /** Leading whitespace does not change the tokens. */
  lemma TokensSkip(t: string)
    ensures Tokens(t) == Tokens(t[SkipSpaces(t, 0)..])
  {
    var a := SkipSpaces(t, 0);
    var u := t[a..];
    if a < |t| {
      SkipUnique(u, 0, 0);
      var e := WordEnd(t, a);
      WordEndUnique(u, 0, e - a);
      assert u[..e - a] == t[a..e];
      assert u[e - a..] == t[e..];
    }
  }

  /** Stripping whitespace padding off a trimmed text gives the text back. */
  lemma StripPadded(p: string, j: string, e: string)
    requires AllSpace(p) && AllSpace(e) && Trimmed(j)
    ensures Strip(p + (j + e)) == j
  {
    var x := p + (j + e);
    if j == [] {
      assert x == p + e;
      assert forall k :: 0 <= k < |x| ==> x[k] == (if k < |p| then p[k] else e[k - |p|]);
      assert AllSpace(x);
    } else {
      assert x[|p|] == j[0] && x[|p| + |j| - 1] == j[|j| - 1];
      var a, b := StripStart(x), StripEnd(x);
      var r := Strip(x);
      assert !AllSpace(x);
      assert r != [] && r[0] == x[a] && r[|r| - 1] == x[b - 1];
      assert x[|p|..|p| + |j|] == j;
    }
  }

  /** Reading back tokens joined by single spaces gives the same tokens. */
  lemma {:induction false} TokensOfJoin(ws: seq<string>)
    requires forall m :: 0 <= m < |ws| ==> IsToken(ws[m])
    ensures Tokens(Join(ws, " ")) == ws
  {
    if |ws| == 1 {
      TokensOne(ws[0]);
    } else if |ws| > 1 {
      var tail := Join(ws[1..], " ");
      assert Join(ws, " ") == ws[0] + (" " + tail);
      JoinTokensShape(ws[1..]);
      TokensCons(ws[0], tail);
      TokensOfJoin(ws[1..]);
    }
  }

  lemma TokensOne(w: string)
    requires IsToken(w)
    ensures Tokens(w) == [w]
  {
    SkipUnique(w, 0, 0);
    WordEndUnique(w, 0, |w|);
    assert w[0..|w|] == w;
    assert Tokens(w[|w|..]) == [];
  }

  lemma TokensCons(w: string, tail: string)
    requires IsToken(w) && tail != [] && !IsSpace(tail[0])
    ensures Tokens(w + (" " + tail)) == [w] + Tokens(tail)
  {
    var j := w + (" " + tail);
    SkipUnique(j, 0, 0);
    WordEndUnique(j, 0, |w|);
    assert j[..|w|] == w && j[|w|..] == " " + tail;
    SkipUnique(" " + tail, 0, 1);
    TokensSkip(" " + tail);
    assert (" " + tail)[1..] == tail;
  }

  /** Cleaning cleaned text changes nothing. */
  lemma CleanTextIdempotent(text: string)
    ensures CleanText(CleanText(text)) == CleanText(text)
  {
    TokensOfJoin(Tokens(text));
  }

  // ---------------------------------------------------------------------------
  // validate_invoice_data

  /** The values an extracted record can hold, with Python's truthiness. */
  datatype Value = NoneValue | Bool(b: bool) | Number(x: real) | Str(s: string) | List(items: seq<Value>)

  predicate Truthy(v: Value) {
    match v
    case NoneValue => false
    case Bool(b) => b
    case Number(x) => x != 0.0
    case Str(s) => s != ""
    case List(items) => items != []
  }

  /** `data.get(key)`: `None` for a missing key. */
  function Get(data: map<string, Value>, key: string): Value {
    if key in data then data[key] else NoneValue
  }

  const NumberMissing := "Invoice number not found"
  const DateMissing := "Invoice date not found"
  const TotalMissing := "Total amount not found"

  /** The error message list is a sub-list of this one, in this order. */
  const CheckOrder: seq<string> := [NumberMissing, DateMissing, TotalMissing]

  /** `validate_invoice_data`: one message per required field that is missing or falsy. */
  function ValidateInvoiceData(data: map<string, Value>): (errors: seq<string>)
    ensures |errors| <= 3
    ensures NumberMissing in errors <==> !Truthy(Get(data, "invoice_number"))
    ensures DateMissing in errors <==> !Truthy(Get(data, "date"))
    ensures TotalMissing in errors <==> !Truthy(Get(data, "total_amount"))
    ensures errors == [] <==> Truthy(Get(data, "invoice_number")) && Truthy(Get(data, "date")) && Truthy(Get(data, "total_amount"))
    ensures forall i, j :: 0 <= i < j < |errors| ==> Rank(errors[i]) < Rank(errors[j])
    ensures forall e :: e in errors ==> e in CheckOrder
  {
    (if Truthy(Get(data, "invoice_number")) then [] else [NumberMissing])
    + (if Truthy(Get(data, "date")) then [] else [DateMissing])
    + (if Truthy(Get(data, "total_amount")) then [] else [TotalMissing])
  }

  /** Where a message stands in the fixed order (3 for anything else). */
  function Rank(msg: string): (k: nat)
    ensures k <= 3 && (k < 3 ==> CheckOrder[k] == msg)
  {
    if msg == NumberMissing then 0 else if msg == DateMissing then 1 else if msg == TotalMissing then 2 else 3
  }

  /** Only three keys are looked at: changing any other entry, such as `vendor`
      or `due_date`, leaves the errors as they were. */
  lemma ValidateReadsThreeKeys(data: map<string, Value>, key: string, v: Value)
    requires key != "invoice_number" && key != "date" && key != "total_amount"
    ensures ValidateInvoiceData(data[key := v]) == ValidateInvoiceData(data)
  {
    assert Get(data[key := v], "invoice_number") == Get(data, "invoice_number");
    assert Get(data[key := v], "date") == Get(data, "date");
    assert Get(data[key := v], "total_amount") == Get(data, "total_amount");
  }

  /** A total of zero and empty strings count as missing. */
  lemma FalsyCountsAsMissing()
    ensures ValidateInvoiceData(map["invoice_number" := Str(""), "date" := Str(""), "total_amount" := Number(0.0)])
            == CheckOrder
  {
  }
}
