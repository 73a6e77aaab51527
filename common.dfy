/** Option/Result wrappers and the few string operations the extension performs
    (substring search, `split(c)[0]`, `join`, template-literal number formatting). */
module Common {

  datatype Option<+T> = None | Some(value: T)

  /** The outcome of a computation that may throw: `Failure` carries the error text. */
  datatype Result<+T> = Success(value: T) | Failure(error: string)

  /** `sub` occurs in `s` at position 0. */
  predicate IsPrefix(sub: string, s: string) {
    |sub| <= |s| && s[..|sub|] == sub
  }

  /** `sub` occurs somewhere in `s` (JavaScript `s.match(/sub/)` for a literal pattern). */
  predicate Contains(s: string, sub: string) {
    exists k :: 0 <= k <= |s| && IsPrefix(sub, s[k..])
  }

  /** Appending text keeps every occurrence. */
  lemma ContainsExtend(s: string, t: string, sub: string)
    requires Contains(s, sub)
    ensures Contains(s + t, sub)
  {
    var k :| 0 <= k <= |s| && IsPrefix(sub, s[k..]);
    assert (s + t)[k..][..|sub|] == s[k..][..|sub|];
  }

  /** JavaScript `s.split(c)[0]`: the text before the first `c`, or all of `s`. */
  function BeforeFirst(s: string, c: char): (r: string)
    ensures IsPrefix(r, s)
    ensures c !in r
    ensures |r| < |s| ==> s[|r|] == c
    decreases |s|
  {
    if s == [] then []
    else if s[0] == c then []
    else [s[0]] + BeforeFirst(s[1..], c)
  }

  /** Splitting `a + b` where `a` has no `c` and `b` starts with `c` gives back `a`. */
  lemma {:induction false} BeforeFirstOfJoin(a: string, b: string, c: char)
    requires c !in a
    requires b == [] || b[0] == c
    ensures BeforeFirst(a + b, c) == a
    decreases |a|
  {
    if a == [] {
      assert a + b == b;
    } else {
      assert (a + b)[1..] == a[1..] + b;
      BeforeFirstOfJoin(a[1..], b, c);
    }
  }

  /** JavaScript `xs.join(sep)`. */
  function Join(xs: seq<string>, sep: string): (r: string)
    ensures |xs| == 1 ==> r == xs[0]
    decreases |xs|
  {
    if xs == [] then ""
    else if |xs| == 1 then xs[0]
    else xs[0] + sep + Join(xs[1..], sep)
  }

  /** JavaScript `s.split(c)` for a one-character separator. */
  function Split(s: string, c: char): (r: seq<string>)
    ensures |r| >= 1
    ensures forall i :: 0 <= i < |r| ==> c !in r[i]
    decreases |s|
  {
    if s == [] then [""]
    else if s[0] == c then [""] + Split(s[1..], c)
    else var rest := Split(s[1..], c); [[s[0]] + rest[0]] + rest[1..]
  }

  /** `Split` undoes `Join` on a non-empty list of words that do not contain the separator. */
  lemma {:induction false} SplitJoin(xs: seq<string>, c: char)
    requires |xs| >= 1
    requires forall i :: 0 <= i < |xs| ==> c !in xs[i]
    ensures Split(Join(xs, [c]), c) == xs
    decreases |xs|
  {
    if |xs| == 1 {
      SplitWord(xs[0], [], c);
      assert xs[0] + [] == xs[0];
    } else {
      var rest := Join(xs[1..], [c]);
      SplitJoin(xs[1..], c);
      SplitWord(xs[0], [c] + rest, c);
      assert xs[0] + [c] + rest == xs[0] + ([c] + rest);
      assert ([c] + rest)[1..] == rest;
      var r := Split([c] + rest, c);
      assert r == [""] + xs[1..];
      assert xs[0] + r[0] == xs[0];
      assert [xs[0]] + xs[1..] == xs;
    }
  }

  /** Splitting a separator-free word followed by `t` glues the word onto the first piece of `t`. */
  lemma {:induction false} SplitWord(w: string, t: string, c: char)
    requires c !in w
    ensures var r := Split(t, c); Split(w + t, c) == [w + r[0]] + r[1..]
    decreases |w|
  {
    if w == [] {
      assert w + t == t;
      assert w + Split(t, c)[0] == Split(t, c)[0];
      assert Split(t, c) == [Split(t, c)[0]] + Split(t, c)[1..];
    } else {
      assert (w + t)[1..] == w[1..] + t;
      SplitWord(w[1..], t, c);
      assert [w[0]] + (w[1..] + Split(t, c)[0]) == w + Split(t, c)[0];
    }
  }

  /** The decimal digit for `d`. */
  function Digit(d: nat): (ch: char)
    requires d < 10
    ensures '0' <= ch <= '9'
  {
    "0123456789"[d]
  }

  /** Decimal text of a natural number, most significant digit first. */
  function NatToString(n: nat): (r: string)
    ensures |r| >= 1
    ensures forall i :: 0 <= i < |r| ==> '0' <= r[i] <= '9'
    decreases n
  {
    if n < 10 then [Digit(n)] else NatToString(n / 10) + [Digit(n % 10)]
  }

  /** Template-literal formatting of an integer (`${n}`). */
  function IntToString(n: int): (r: string)
    ensures r != ""
    ensures (r[0] == '-') <==> n < 0
  {
    if n < 0 then "-" + NatToString(-n) else NatToString(n)
  }
}
