/**
 UTF-8 as a JavaScript runtime writes a string: surrogate pairs are joined, and a
 surrogate without its partner is written as the replacement character.
 */
module Utf8 {
  import opened Wrappers

  type CodeUnit = n: nat | n < 0x1_0000
  type CodePoint = n: nat | n < 0x11_0000

  const REPLACEMENT: CodePoint := 0xFFFD

  predicate High(u: CodeUnit) {
    0xD800 <= u < 0xDC00
  }

  predicate Low(u: CodeUnit) {
    0xDC00 <= u < 0xE000
  }

  predicate StartsWithPair(s: seq<CodeUnit>) {
    |s| >= 2 && High(s[0]) && Low(s[1])
  }

  function Joined(high: CodeUnit, low: CodeUnit): CodePoint
    requires High(high) && Low(low)
  {
    0x1_0000 + 0x400 * (high - 0xD800) + (low - 0xDC00)
  }

  /** How many units the first code point takes, and which one it is. */
  function FirstUnits(s: seq<CodeUnit>): (n: nat)
    requires s != []
    ensures 1 <= n <= |s|
  {
    if StartsWithPair(s) then 2 else 1
  }

  function FirstPoint(s: seq<CodeUnit>): CodePoint
    requires s != []
  {
    if StartsWithPair(s) then Joined(s[0], s[1])
    else if High(s[0]) || Low(s[0]) then REPLACEMENT
    else s[0]
  }

  function CodePoints(s: seq<CodeUnit>): seq<CodePoint>
    decreases |s|
  {
    if s == [] then [] else [FirstPoint(s)] + CodePoints(s[FirstUnits(s)..])
  }

  /** The same, as plain numbers. */
  function Text(s: seq<CodeUnit>): seq<nat> {
    CodePoints(s)
  }

  /** No surrogate lacks its partner. */
  predicate WellFormed(s: seq<CodeUnit>)
    decreases |s|
  {
    s == [] || ((StartsWithPair(s) || !(High(s[0]) || Low(s[0]))) && WellFormed(s[FirstUnits(s)..]))
  }

  function Tail(n: nat): Byte {
    0x80 + n % 64
  }

  function EncodePoint(p: CodePoint): (b: Bytes)
    ensures 1 <= |b| <= 4
  {
    if p < 0x80 then [p]
    else if p < 0x800 then [0xC0 + p / 64, Tail(p)]
    else if p < 0x1_0000 then [0xE0 + p / 64 / 64, Tail(p / 64), Tail(p)]
    else [0xF0 + p / 64 / 64 / 64, Tail(p / 64 / 64), Tail(p / 64), Tail(p)]
  }

  function EncodePoints(ps: seq<CodePoint>): Bytes {
    if ps == [] then [] else EncodePoint(ps[0]) + EncodePoints(ps[1..])
  }

  function Encode(s: seq<CodeUnit>): Bytes {
    EncodePoints(CodePoints(s))
  }

  // ----- reading a code point back -----

  function Width(first: Byte): nat {
    if first < 0x80 then 1 else if first < 0xE0 then 2 else if first < 0xF0 then 3 else 4
  }

  function Six(b: Byte): int {
    b as int - 0x80
  }

  function ReadPoint(b: Bytes): int
    requires b != [] && Width(b[0]) <= |b|
  {
    var first := b[0] as int;
    if first < 0x80 then first
    else if first < 0xE0 then (first - 0xC0) * 64 + Six(b[1])
    else if first < 0xF0 then ((first - 0xE0) * 64 + Six(b[1])) * 64 + Six(b[2])
    else (((first - 0xF0) * 64 + Six(b[1])) * 64 + Six(b[2])) * 64 + Six(b[3])
  }

  /** A code point is written in the fewest bytes, and a first byte below 0x80 or from
      0xC0 on says how many more follow, each between 0x80 and 0xBF. */
  lemma {:induction false} PointReads(p: CodePoint)
    ensures var b := EncodePoint(p);
      && Width(b[0]) == |b| && ReadPoint(b) == p
      && |b| == (if p <= 0x7F then 1 else if p <= 0x7FF then 2 else if p <= 0xFFFF then 3 else 4)
      && (|b| > 1 ==> b[0] >= 0xC0) && forall i :: 1 <= i < |b| ==> 0x80 <= b[i] <= 0xBF
  {
  }

  lemma {:induction false} ReadPrefix(b: Bytes, rest: Bytes)
    requires b != [] && Width(b[0]) == |b|
    ensures Width((b + rest)[0]) == |b| && ReadPoint(b + rest) == ReadPoint(b)
    ensures (b + rest)[|b|..] == rest
  {
  }

  lemma {:induction false} PointUnambiguous(p: CodePoint, q: CodePoint, r: Bytes, s: Bytes)
    requires EncodePoint(p) + r == EncodePoint(q) + s
    ensures p == q && r == s
  {
    PointReads(p);
    PointReads(q);
    ReadPrefix(EncodePoint(p), r);
    ReadPrefix(EncodePoint(q), s);
  }

  lemma {:induction false} PointsUnambiguous(ps: seq<CodePoint>, qs: seq<CodePoint>)
    requires EncodePoints(ps) == EncodePoints(qs)
    ensures ps == qs
    decreases |ps|
  {
    if ps != [] && qs != [] {
      PointUnambiguous(ps[0], qs[0], EncodePoints(ps[1..]), EncodePoints(qs[1..]));
      PointsUnambiguous(ps[1..], qs[1..]);
      Uncons(ps, []);
      Uncons(qs, []);
    }
  }

  /** Two strings are written alike if and only if they have the same code points. */
  lemma {:induction false} EncodeUnambiguous(s: seq<CodeUnit>, t: seq<CodeUnit>)
    ensures Encode(s) == Encode(t) <==> CodePoints(s) == CodePoints(t)
  {
    if Encode(s) == Encode(t) {
      PointsUnambiguous(CodePoints(s), CodePoints(t));
    }
  }

  lemma {:induction false} SameFirstPoint(s: seq<CodeUnit>, t: seq<CodeUnit>)
    requires s != [] && t != [] && FirstPoint(s) == FirstPoint(t)
    requires WellFormed(s) && (WellFormed(t) || FirstPoint(s) != REPLACEMENT)
    ensures FirstUnits(s) == FirstUnits(t) && s[..FirstUnits(s)] == t[..FirstUnits(t)]
  {
    if StartsWithPair(s) && StartsWithPair(t) {
      assert s[0] == t[0] && s[1] == t[1];
    }
  }

  /** The code points of a well-formed string determine it: among well-formed
      strings, and among all strings if none of them is the replacement character. */
  lemma {:induction false} PointsDetermine(s: seq<CodeUnit>, t: seq<CodeUnit>)
    requires CodePoints(s) == CodePoints(t)
    requires WellFormed(s) && (WellFormed(t) || REPLACEMENT !in CodePoints(s))
    ensures s == t
    decreases |s|
  {
    if s != [] && t != [] {
      var n, m := FirstUnits(s), FirstUnits(t);
      assert CodePoints(s)[0] == FirstPoint(s) && CodePoints(t)[0] == FirstPoint(t);
      assert CodePoints(s)[1..] == CodePoints(s[n..]) && CodePoints(t)[1..] == CodePoints(t[m..]);
      SameFirstPoint(s, t);
      PointsDetermine(s[n..], t[m..]);
      assert s == s[..n] + s[n..] && t == t[..m] + t[m..];
    }
  }

  // ----- code points against code units -----

  /** UTF-16 of one code point (section 2.1 of RFC 2781). */
  function Units(p: CodePoint): seq<CodeUnit> {
    if p < 0x1_0000 then [p] else [0xD800 + (p - 0x1_0000) / 0x400, 0xDC00 + (p - 0x1_0000) % 0x400]
  }

  function AllUnits(ps: seq<CodePoint>): seq<CodeUnit> {
    if ps == [] then [] else Units(ps[0]) + AllUnits(ps[1..])
  }

  /** A surrogate without its partner beside it. */
  predicate Alone(s: seq<CodeUnit>, i: nat)
    requires i < |s|
  {
    || (High(s[i]) && !(i + 1 < |s| && Low(s[i + 1])))
    || (Low(s[i]) && !(i > 0 && High(s[i - 1])))
  }

  lemma {:induction false} FirstPointUnits(s: seq<CodeUnit>)
    requires s != []
    ensures Units(FirstPoint(s)) == if StartsWithPair(s) then s[..2] else [if Alone(s, 0) then 0xFFFD else s[0]]
  {
  }

  lemma {:induction false} AloneBehind(s: seq<CodeUnit>, i: nat)
    requires s != [] && FirstUnits(s) <= i < |s|
    ensures Alone(s, i) == Alone(s[FirstUnits(s)..], i - FirstUnits(s))
  {
  }

  /** The code points say every code unit of a string but the surrogates that stand
      alone, each of which is replaced. */
  lemma {:induction false} PointsAre(s: seq<CodeUnit>)
    ensures var u := AllUnits(CodePoints(s));
      |u| == |s| && forall i :: 0 <= i < |s| ==> u[i] == if Alone(s, i) then 0xFFFD else s[i]
    decreases |s|
  {
    if s != [] {
      var n := FirstUnits(s);
      FirstPointUnits(s);
      PointsAre(s[n..]);
      var u, ps := AllUnits(CodePoints(s)), CodePoints(s);
      assert ps[0] == FirstPoint(s) && ps[1..] == CodePoints(s[n..]);
      assert u == Units(FirstPoint(s)) + AllUnits(CodePoints(s[n..]));
      forall i | 0 <= i < |s| ensures u[i] == if Alone(s, i) then 0xFFFD else s[i] {
        if i >= n {
          AloneBehind(s, i);
        }
      }
    }
  }

  lemma {:induction false} EncodeOne(p: CodePoint)
    ensures EncodePoints([p]) == EncodePoint(p)
  {
    assert EncodePoints([p][1..]) == [];
    AppendEmpty(EncodePoint(p));
  }

  /** All surrogates standing alone are written alike. */
  lemma {:induction false} LoneSurrogates(u: CodeUnit)
    requires High(u) || Low(u)
    ensures !WellFormed([u]) && CodePoints([u]) == [REPLACEMENT]
    ensures Encode([u]) == EncodePoint(REPLACEMENT)
  {
    assert CodePoints([u][1..]) == [];
    EncodeOne(REPLACEMENT);
  }
}
