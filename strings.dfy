/** The parts of Go's `strings` package that the plugin uses, on ASCII text. */
module Strings {

  import opened Wrappers

  predicate IsDigit(c: char) { '0' <= c <= '9' }

  predicate AllDigits(s: string) { forall i :: 0 <= i < |s| ==> IsDigit(s[i]) }

  predicate IsUpperAscii(c: char) { 'A' <= c <= 'Z' }

  /** `unicode.ToLower` restricted to ASCII: upper-case letters move down, all else stays. */
  function LowerChar(c: char): (r: char)
    ensures IsUpperAscii(c) ==> r as int == c as int + 32
    ensures !IsUpperAscii(c) ==> r == c
  {
    if IsUpperAscii(c) then (c as int + 32) as char else c
  }

  /** `strings.ToLower`, with ASCII case mapping only. */
  function ToLower(s: string): (r: string)
    ensures |r| == |s|
    ensures forall i :: 0 <= i < |s| ==> r[i] == LowerChar(s[i])
  {
    if s == [] then [] else [LowerChar(s[0])] + ToLower(s[1..])
  }

  /** Lower-casing twice is lower-casing once. */
  lemma ToLowerIdempotent(s: string)
    ensures ToLower(ToLower(s)) == ToLower(s)
  {
  }

  /** Index of the first `c` in `s`, or `|s|` when `s` has none (`strings.IndexByte`, with -1 as `|s|`). */
  function FirstIndex(s: string, c: char): (i: nat)
    ensures i <= |s|
    ensures c !in s[..i]
    ensures i < |s| ==> s[i] == c
  {
    if s == [] then 0
    else if s[0] == c then 0
    else 1 + FirstIndex(s[1..], c)
  }

  /** The postcondition of FirstIndex determines its result. */
  lemma FirstIndexIs(s: string, c: char, i: nat)
    requires i <= |s| && c !in s[..i]
    requires i < |s| ==> s[i] == c
    ensures FirstIndex(s, c) == i
  {
  }

  /** The first `c` of `a + b` is the first of `b` when `a` has none. */
  lemma FirstIndexAfter(a: string, b: string, c: char)
    requires c !in a
    ensures FirstIndex(a + b, c) == |a| + FirstIndex(b, c)
  {
    var j := FirstIndex(b, c);
    assert (a + b)[..|a| + j] == a + b[..j];
    FirstIndexIs(a + b, c, |a| + j);
  }

  /** Index of the last `c` in `s` (`strings.LastIndexByte`), `None` when there is none. */
  function LastIndex(s: string, c: char): (r: Option<nat>)
    ensures r.None? ==> c !in s
    ensures r.Some? ==> r.value < |s| && s[r.value] == c && c !in s[r.value + 1..]
  {
    if s == [] then None
    else if s[|s| - 1] == c then Some(|s| - 1)
    else
      var r := LastIndex(s[..|s| - 1], c);
      assert s == s[..|s| - 1] + [s[|s| - 1]];
      assert r.Some? ==> s[r.value + 1..] == s[..|s| - 1][r.value + 1..] + [s[|s| - 1]];
      r
  }

  /** The postcondition of LastIndex determines its result. */
  lemma LastIndexIs(s: string, c: char, i: nat)
    requires i < |s| && s[i] == c && c !in s[i + 1..]
    ensures LastIndex(s, c) == Some(i)
  {
  }

  /** `strings.Count` for a one-character separator: the number of occurrences of `c`. */
  function Count(s: string, c: char): (n: nat)
    ensures n > 0 <==> c in s
    ensures n <= |s|
  {
    if s == [] then 0
    else (if s[0] == c then 1 else 0) + Count(s[1..], c)
  }

  /** `strings.Split` for a one-character separator: the pieces between the occurrences of `c`. */
  function Split(s: string, c: char): (r: seq<string>)
    ensures |r| == Count(s, c) + 1
    ensures forall k :: 0 <= k < |r| ==> c !in r[k]
    decreases |s|
  {
    var i := FirstIndex(s, c);
    if i == |s| then [s]
    else
      CountSplitAt(s, c, i);
      [s[..i]] + Split(s[i + 1..], c)
  }

  /** Splitting at the first separator removes exactly one occurrence. */
  lemma CountSplitAt(s: string, c: char, i: nat)
    requires i < |s| && s[i] == c && c !in s[..i]
    ensures Count(s, c) == 1 + Count(s[i + 1..], c)
    decreases i
  {
    if i > 0 {
      assert s[0] != c by { assert s[..i][0] == s[0]; }
      assert s[1..][..i - 1] == s[..i][1..];
      CountSplitAt(s[1..], c, i - 1);
      assert s[1..][i - 1 + 1..] == s[i + 1..];
    }
  }

  /** The first piece of a split is the text before the first separator. */
  lemma SplitHead(s: string, c: char)
    ensures Split(s, c)[0] == s[..FirstIndex(s, c)]
  {
  }

  /** `strings.Join`: the pieces with `sep` between each neighbouring pair. */
  function Join(xs: seq<string>, sep: string): (r: string)
    ensures |xs| == 0 ==> r == ""
    ensures |xs| > 0 ==> xs[0] <= r
  {
    if |xs| == 0 then ""
    else if |xs| == 1 then xs[0]
    else xs[0] + sep + Join(xs[1..], sep)
  }

  /** A split cuts at the first separator and goes on with the rest. */
  lemma SplitAt(s: string, c: char, i: nat)
    requires i < |s| && s[i] == c && c !in s[..i]
    ensures Split(s, c) == [s[..i]] + Split(s[i + 1..], c)
  {
  }

  /** Splitting a join at a separator that no piece contains gives the pieces back. */
  lemma {:induction false} SplitJoin(xs: seq<string>, c: char)
    requires |xs| >= 1
    requires forall k :: 0 <= k < |xs| ==> c !in xs[k]
    ensures Split(Join(xs, [c]), c) == xs
  {
    var x := xs[0];
    if |xs| == 1 {
      FirstIndexIs(x, c, |x|);
      assert x[..|x|] == x;
    } else {
      var rest := Join(xs[1..], [c]);
      var s := x + [c] + rest;
      assert s[..|x|] == x;
      assert s[|x| + 1..] == rest;
      SplitAt(s, c, |x|);
      SplitJoin(xs[1..], c);
      assert xs == [x] + xs[1..];
    }
  }

  /** Joining the pieces of a split with the separator gives the original text back. */
  lemma {:induction false} JoinSplit(s: string, c: char)
    ensures Join(Split(s, c), [c]) == s
    decreases |s|
  {
    var i := FirstIndex(s, c);
    if i == |s| {
      assert s[..|s|] == s;
    } else {
      SplitAt(s, c, i);
      var tail := Split(s[i + 1..], c);
      JoinSplit(s[i + 1..], c);
      var xs := [s[..i]] + tail;
      assert xs[0] == s[..i] && xs[1..] == tail;
      assert Join(xs, [c]) == s[..i] + [c] + Join(tail, [c]);
      assert s == s[..i] + [c] + s[i + 1..];
    }
  }
}
