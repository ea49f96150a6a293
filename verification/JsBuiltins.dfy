/**
 * The handful of JavaScript built-ins the application relies on, stated over
 * Dafny sequences: `String.prototype.indexOf`, `split` with a one-character
 * separator, `join`, `toUpperCase`, `Array.prototype.indexOf` and `slice`.
 */
module JsBuiltins {
  import opened Wrappers

  function Min(a: int, b: int): int { if a <= b then a else b }
  function Max(a: int, b: int): int { if a >= b then a else b }

  /** Position of the first `c` in `s`; `None` stands for JavaScript's -1. */
  function IndexOf(s: string, c: char): (r: Option<nat>)
    ensures r.None? <==> c !in s
    ensures r.Some? ==> r.value < |s| && s[r.value] == c && c !in s[..r.value]
  {
    if |s| == 0 then None
    else if s[0] == c then Some(0)
    else
      match IndexOf(s[1..], c)
      case None => None
      case Some(i) =>
        assert s[1..][..i] == s[1..i + 1];
        Some(i + 1)
  }

  /** The text of `s` before its first `c`, or all of `s` when there is no `c`. */
  function UpTo(s: string, c: char): (r: string)
    ensures c !in r
    ensures r <= s
    ensures c in s ==> |r| < |s| && s[|r|] == c
    ensures c !in s ==> r == s
  {
    match IndexOf(s, c)
    case None => s
    case Some(i) => s[..i]
  }

  /** The pieces `s.split(c)` produces: at least one, none containing `c`, joining back to `s`. */
  function Split(s: string, c: char): (parts: seq<string>)
    ensures |parts| >= 1
    ensures forall i :: 0 <= i < |parts| ==> c !in parts[i]
    ensures Join(parts, c) == s
    ensures parts[0] == UpTo(s, c)
    decreases |s|
  {
    match IndexOf(s, c)
    case None => [s]
    case Some(i) =>
      var rest := Split(s[i + 1..], c);
      assert s == s[..i] + [c] + s[i + 1..];
      [s[..i]] + rest
  }

  /** `parts.join(c)` for a non-empty list; `Split`'s inverse. */
  function Join(parts: seq<string>, c: char): string
    requires |parts| >= 1
  {
    if |parts| == 1 then parts[0] else parts[0] + [c] + Join(parts[1..], c)
  }

  /** If `a` holds no `c`, the first `c` of `a + [c] + b` is the one after `a`. */
  lemma IndexOfAfterFreePrefix(a: string, c: char, b: string)
    requires c !in a
    ensures IndexOf(a + [c] + b, c) == Some(|a|)
  {
    var s := a + [c] + b;
    assert s[|a|] == c;
    assert s[..|a|] == a;
  }

  /** Text without the separator is kept whole. */
  lemma UpToFree(s: string, c: char)
    requires c !in s
    ensures UpTo(s, c) == s
  {
    assert IndexOf(s, c).None?;
  }

  /** Before the first `c` of `a + [c] + b` lies `a`, and after it `b`. */
  lemma UpToAfterFreePrefix(a: string, c: char, b: string)
    requires c !in a
    ensures IndexOf(a + [c] + b, c) == Some(|a|)
    ensures UpTo(a + [c] + b, c) == a
    ensures (a + [c] + b)[|a| + 1..] == b
  {
    IndexOfAfterFreePrefix(a, c, b);
    assert (a + [c] + b)[..|a|] == a;
  }

  /** Splitting at a separator that ends a separator-free prefix peels that prefix off. */
  lemma SplitAfterFreePrefix(a: string, c: char, b: string)
    requires c !in a
    ensures Split(a + [c] + b, c) == [a] + Split(b, c)
  {
    var s := a + [c] + b;
    IndexOfAfterFreePrefix(a, c, b);
    assert s[..|a|] == a;
    assert s[|a| + 1..] == b;
  }

  /** `split` inverts `join` when no piece contains the separator. */
  lemma {:induction false} SplitJoin(parts: seq<string>, c: char)
    requires |parts| >= 1
    requires forall i :: 0 <= i < |parts| ==> c !in parts[i]
    ensures Split(Join(parts, c), c) == parts
    decreases |parts|
  {
    if |parts| == 1 {
      assert IndexOf(parts[0], c).None?;
    } else {
      assert c !in parts[0];
      SplitJoin(parts[1..], c);
      SplitAfterFreePrefix(parts[0], c, Join(parts[1..], c));
      assert parts == [parts[0]] + parts[1..];
    }
  }

  /** The second piece of a split is the text between the first and the second separator. */
  lemma SplitSecond(s: string, c: char)
    requires c in s
    ensures |Split(s, c)| >= 2
    ensures Split(s, c)[1] == UpTo(s[IndexOf(s, c).value + 1..], c)
  {
  }

  /** There is a second piece exactly when the separator occurs. */
  lemma SplitHasSecond(s: string, c: char)
    ensures |Split(s, c)| >= 2 <==> c in s
  {
    if c !in s {
      assert IndexOf(s, c).None?;
    }
  }

  /** `toUpperCase` restricted to the ASCII letters. */
  function UpperChar(ch: char): (r: char)
    ensures !('a' <= r <= 'z')
    ensures !('a' <= ch <= 'z') ==> r == ch
  {
    if 'a' <= ch <= 'z' then (ch as int - 32) as char else ch
  }

  /** `s.toUpperCase()` for ASCII text: same length, every lower-case letter raised, nothing else touched. */
  function ToUpperCase(s: string): (r: string)
    ensures |r| == |s|
    ensures forall i :: 0 <= i < |s| ==> r[i] == UpperChar(s[i])
    ensures forall i :: 0 <= i < |r| ==> !('a' <= r[i] <= 'z')
  {
    seq(|s|, i requires 0 <= i < |s| => UpperChar(s[i]))
  }

  /** Raising the case of already raised text changes nothing. */
  lemma ToUpperCaseIdempotent(s: string)
    ensures ToUpperCase(ToUpperCase(s)) == ToUpperCase(s)
  {
  }

  /** `xs.indexOf(x)`: the first position holding `x`, or -1. */
  function ArrayIndexOf<T(==)>(xs: seq<T>, x: T): (r: int)
    ensures -1 <= r < |xs|
    ensures r == -1 <==> x !in xs
    ensures r >= 0 ==> xs[r] == x && x !in xs[..r]
  {
    if |xs| == 0 then -1
    else if xs[0] == x then 0
    else
      var i := ArrayIndexOf(xs[1..], x);
      assert i >= 0 ==> xs[1..][..i] == xs[1..i + 1];
      if i == -1 then -1 else i + 1
  }

  /**
   * `xs.slice(start)`: a negative start counts back from the end and is
   * clamped at 0; a start past the end yields the empty sequence.
   */
  function Slice<T>(xs: seq<T>, start: int): (r: seq<T>)
    ensures start < 0 ==> |r| == Min(-start, |xs|)
    ensures start >= 0 ==> |r| == Max(|xs| - start, 0)
    ensures xs == xs[..|xs| - |r|] + r
  {
    var from := if start < 0 then Max(|xs| + start, 0) else Min(start, |xs|);
    xs[from..]
  }
}
