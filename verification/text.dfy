/**
 * Character and string helpers shared by the extractor, the text utilities and
 * the upload gate: Python's ASCII whitespace and case rules, `str.strip`,
 * `str.split(sep)`, `sep.join(...)` and slicing with `[:n]`.
 */
module Text {

  /** `str.isspace()` on one ASCII character, which is also what `\s` matches:
      space, `\t` `\n` `\v` `\f` `\r` and the separators `\x1c`..`\x1f`. */
  predicate IsSpace(c: char) {
    c == ' ' || '\t' <= c <= '\r' || 28 <= c as int <= 31
  }

  predicate IsDigit(c: char) {
    '0' <= c <= '9'
  }

  predicate IsLetter(c: char) {
    'A' <= c <= 'Z' || 'a' <= c <= 'z'
  }

  /** ASCII lower-casing, as `str.lower()` acts on ASCII text. */
  function Lower(c: char): (r: char)
    ensures IsLetter(c) <==> IsLetter(r)
    ensures !('A' <= r <= 'Z')
    ensures !IsLetter(c) ==> r == c
  {
    if 'A' <= c <= 'Z' then (c as int + 32) as char else c
  }

  /** ASCII upper-casing. */
  function Upper(c: char): (r: char)
    ensures IsLetter(c) <==> IsLetter(r)
    ensures !('a' <= r <= 'z')
    ensures !IsLetter(c) ==> r == c
  {
    if 'a' <= c <= 'z' then (c as int - 32) as char else c
  }

  /** No character of `y` is `c` in either case. */
  predicate LacksLetter(y: string, c: char) {
    forall d :: d in y ==> Lower(d) != Lower(c)
  }

  function LowerAll(t: string): (r: string)
    ensures |r| == |t|
    ensures forall k :: 0 <= k < |t| ==> r[k] == Lower(t[k])
  {
    if t == [] then [] else [Lower(t[0])] + LowerAll(t[1..])
  }

  predicate AllSpace(t: string) {
    forall k :: 0 <= k < |t| ==> IsSpace(t[k])
  }

  /** Neither end of `t` is whitespace. */
  predicate Trimmed(t: string) {
    t == [] || (!IsSpace(t[0]) && !IsSpace(t[|t| - 1]))
  }

  /** The first position at or after `i` that is not whitespace (or `|t|`). */
  function SkipSpaces(t: string, i: nat): (a: nat)
    requires i <= |t|
    ensures i <= a <= |t| && (a == |t| || !IsSpace(t[a]))
    ensures forall k :: i <= k < a ==> IsSpace(t[k])
    decreases |t| - i
  {
    if i < |t| && IsSpace(t[i]) then SkipSpaces(t, i + 1) else i
  }

  /** The position just after the last non-whitespace character before `j`, but not before `a`. */
  function BackSpaces(t: string, a: nat, j: nat): (b: nat)
    requires a <= j <= |t|
    ensures a <= b <= j && (b == a || !IsSpace(t[b - 1]))
    ensures forall k :: b <= k < j ==> IsSpace(t[k])
    decreases j
  {
    if a < j && IsSpace(t[j - 1]) then BackSpaces(t, a, j - 1) else j
  }

  /** Where `str.strip()` starts and stops keeping characters. */
  function StripStart(t: string): nat { SkipSpaces(t, 0) }
  function StripEnd(t: string): nat { BackSpaces(t, SkipSpaces(t, 0), |t|) }

  /**
   * `str.strip()`: the stretch of `t` between its leading and its trailing
   * whitespace; everything dropped is whitespace and both kept ends are not.
   */
  function Strip(t: string): (r: string)
    ensures StripStart(t) <= StripEnd(t) <= |t| && r == t[StripStart(t)..StripEnd(t)]
    ensures forall k :: 0 <= k < StripStart(t) ==> IsSpace(t[k])
    ensures forall k :: StripEnd(t) <= k < |t| ==> IsSpace(t[k])
    ensures Trimmed(r)
    ensures Trimmed(t) ==> r == t
    ensures r == [] <==> AllSpace(t)
  {
    var a := SkipSpaces(t, 0);
    var b := BackSpaces(t, a, |t|);
    t[a..b]
  }

  /** `t[:n]`: the first `n` characters, or all of `t` when it is shorter. */
  function Take(t: string, n: nat): (r: string)
    ensures |r| <= n && |r| <= |t| && r == t[..|r|]
    ensures |t| <= n ==> r == t
    ensures |t| > n ==> |r| == n
  {
    if |t| <= n then t else t[..n]
  }

  /** `sep.join(xs)`. */
  function Join(xs: seq<string>, sep: string): string {
    if xs == [] then "" else if |xs| == 1 then xs[0] else xs[0] + sep + Join(xs[1..], sep)
  }

  /** `t.split(sep)` for a one-character separator: every piece between
      separators, so there is always at least one piece. */
  function Split(t: string, sep: char): (r: seq<string>)
    ensures |r| >= 1
    ensures forall k :: 0 <= k < |r| ==> sep !in r[k]
    ensures sep !in t ==> r == [t]
    ensures sep in t ==> r[0] == t[..IndexOf(t, sep)]
  {
    if sep !in t then [t]
    else
      var k := IndexOf(t, sep);
      var rest := Split(t[k + 1..], sep);
      [t[..k]] + rest
  }

  /** Joining the pieces with the separator gives back the text. */
  lemma {:induction false} SplitJoin(t: string, sep: char)
    ensures Join(Split(t, sep), [sep]) == t
  {
    if sep in t {
      var k := IndexOf(t, sep);
      var rest := Split(t[k + 1..], sep);
      SplitJoin(t[k + 1..], sep);
      SplitFirst(t, sep);
      JoinStep(t, k, sep, rest);
    }
  }

  lemma JoinStep(t: string, k: nat, sep: char, rest: seq<string>)
    requires k < |t| && t[k] == sep && rest != [] && Join(rest, [sep]) == t[k + 1..]
    ensures Join([t[..k]] + rest, [sep]) == t
  {
    JoinCons(t[..k], rest, [sep]);
    assert t == t[..k] + ([sep] + t[k + 1..]);
  }

  /** The first piece, then the pieces of what follows the first separator. */
  lemma SplitFirst(t: string, sep: char)
    requires sep in t
    ensures Split(t, sep) == [t[..IndexOf(t, sep)]] + Split(t[IndexOf(t, sep) + 1..], sep)
  {
  }

  /** Joining a list with a first element: that element, the separator, the rest joined. */
  lemma JoinCons(w: string, ws: seq<string>, sep: string)
    requires ws != []
    ensures Join([w] + ws, sep) == w + (sep + Join(ws, sep))
  {
    assert ([w] + ws)[1..] == ws;
  }

  /** Position of the first `c` in `t`. */
  function IndexOf(t: string, c: char): (k: nat)
    requires c in t
    ensures k < |t| && t[k] == c && c !in t[..k]
  {
    if t[0] == c then 0 else 1 + IndexOf(t[1..], c)
  }

  /** `t.replace(c, "")`: `t` with every `c` taken out, the rest in order. */
  function Remove(t: string, c: char): (r: string)
    ensures |r| <= |t| && c !in r
    ensures forall x :: x != c ==> (x in r <==> x in t)
    ensures c !in t ==> r == t
  {
    if t == [] then []
    else if t[0] == c then Remove(t[1..], c)
    else
      assert t == [t[0]] + t[1..];
      [t[0]] + Remove(t[1..], c)
  }

  /** Removing a character piece by piece is removing it from the whole. */
  lemma {:induction false} RemoveAppend(a: string, b: string, c: char)
    ensures Remove(a + b, c) == Remove(a, c) + Remove(b, c)
  {
    if a == [] {
      assert a + b == b;
    } else {
      assert (a + b)[0] == a[0];
      assert (a + b)[1..] == a[1..] + b;
      RemoveAppend(a[1..], b, c);
    }
  }
}
