/** Small shared value types and arithmetic. */
module Wrappers {
  datatype Option<+T> = None | Some(value: T) {
    /** JavaScript's `a ?? b`. */
    function GetOr(default: T): T {
      if Some? then value else default
    }
  }

  type Byte = x: nat | x < 256
  type Bytes = seq<Byte>

  /** JavaScript's largest exact integer. */
  const MAX_SAFE_INTEGER: nat := 0x1F_FFFF_FFFF_FFFF

  function LowerChar(c: char): char {
    if 'A' <= c <= 'Z' then c - 'A' + 'a' else c
  }

  function Lower(s: string): (r: string)
    ensures |r| == |s|
  {
    seq(|s|, i requires 0 <= i < |s| => LowerChar(s[i]))
  }

  function Min(a: nat, b: nat): nat {
    if a < b then a else b
  }

  function Max(a: nat, b: nat): nat {
    if a < b then b else a
  }

  function Sum(xs: seq<nat>): nat {
    if xs == [] then 0 else xs[0] + Sum(xs[1..])
  }

  lemma {:induction false} SumAppend(xs: seq<nat>, ys: seq<nat>)
    ensures Sum(xs + ys) == Sum(xs) + Sum(ys)
  {
    if xs == [] {
      assert xs + ys == ys;
    } else {
      assert (xs + ys)[1..] == xs[1..] + ys;
      SumAppend(xs[1..], ys);
    }
  }

  function Flatten<T>(xss: seq<seq<T>>): seq<T> {
    if xss == [] then [] else xss[0] + Flatten(xss[1..])
  }

  lemma {:induction false} FlattenAppend<T>(xss: seq<seq<T>>, yss: seq<seq<T>>)
    ensures Flatten(xss + yss) == Flatten(xss) + Flatten(yss)
  {
    if xss == [] {
      assert xss + yss == yss;
    } else {
      assert (xss + yss)[1..] == xss[1..] + yss;
      FlattenAppend(xss[1..], yss);
    }
  }

  lemma {:induction false} FlattenTwo<T>(a: seq<T>, b: seq<T>)
    ensures Flatten([a, b]) == a + b
  {
    var xs := [a, b];
    assert xs[1..] == [b] && xs[1..][1..] == [];
    assert Flatten([b]) == b + Flatten([b][1..]);
  }

  lemma {:induction false} AppendAssoc<T>(a: seq<T>, b: seq<T>, c: seq<T>)
    ensures (a + b) + c == a + (b + c)
  {
  }

  lemma {:induction false} AppendEmpty<T>(a: seq<T>)
    ensures a + [] == a && [] + a == a
  {
  }

  /** The head, or the first two, of an append. */
  lemma {:induction false} Uncons<T>(a: seq<T>, b: seq<T>)
    requires a != []
    ensures a == [a[0]] + a[1..]
    ensures a + b == [a[0]] + (a[1..] + b) && (a + b)[1..] == a[1..] + b
    ensures |a| >= 2 ==> a == [a[0], a[1]] + a[2..]
    ensures |a| >= 2 ==> a + b == [a[0], a[1]] + (a[2..] + b) && (a + b)[2..] == a[2..] + b
  {
  }

  /** Moving the head of one sequence to the end of another. */
  lemma {:induction false} MoveHead<T>(acc: seq<T>, xs: seq<T>)
    requires xs != []
    ensures (acc + [xs[0]]) + xs[1..] == acc + xs
  {
  }

  /** All but the last of one sequence appended to another. */
  lemma {:induction false} MoveLast<T>(acc: seq<T>, xs: seq<T>)
    requires xs != []
    ensures (acc + xs[..|xs| - 1]) + [xs[|xs| - 1]] == acc + xs
  {
  }

  /** Slices of an append that start at or after the seam. */
  lemma {:induction false} SliceAppend<T>(a: seq<T>, b: seq<T>, n: nat)
    requires |a| <= n <= |a| + |b|
    ensures (a + b)[|a|..] == b
    ensures (a + b)[n..] == b[n - |a|..]
    ensures (a + b)[|a|..n] == b[..n - |a|]
  {
  }

  /** Slices of a suffix. */
  lemma {:induction false} SliceDrop<T>(a: seq<T>, k: nat, lo: nat, hi: nat)
    requires k <= |a| && lo <= hi <= |a| - k
    ensures a[k..][lo..hi] == a[k + lo..k + hi]
    ensures a[k..][lo..] == a[k + lo..]
  {
  }

  /** The last of these that is not empty, or else the default. */
  function Last<T>(field: T -> string, xs: seq<T>, default: string): string {
    if xs == [] then default
    else if field(xs[|xs| - 1]) != "" then field(xs[|xs| - 1])
    else Last(field, xs[..|xs| - 1], default)
  }

  lemma {:induction false} SnocIs<T>(xs: seq<T>, x: T)
    ensures (xs + [x])[..|xs + [x]| - 1] == xs && (xs + [x])[|xs + [x]| - 1] == x
  {
  }

  lemma {:induction false} SplitLast<T>(xs: seq<T>)
    requires xs != []
    ensures xs[..|xs| - 1] + [xs[|xs| - 1]] == xs
  {
  }

  lemma {:induction false} LastSnoc<T>(field: T -> string, xs: seq<T>, x: T, default: string)
    ensures Last(field, xs + [x], default) == if field(x) != "" then field(x) else Last(field, xs, default)
  {
    SnocIs(xs, x);
  }
}
