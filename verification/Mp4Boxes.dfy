/**
 The box structure of ISO/IEC 14496-12 (section 4.2, object structure, and
 section 8.2.2, movie header box) as a parser of a whole file, and a printer
 that it inverts.
 */
module Mp4Boxes {
  import opened Wrappers

  const MAX_MOOV_BYTES: nat := 16 * 1024 * 1024

  const FTYP: seq<Byte> := [0x66, 0x74, 0x79, 0x70]
  const MOOV: seq<Byte> := [0x6D, 0x6F, 0x6F, 0x76]
  const MVHD: seq<Byte> := [0x6D, 0x76, 0x68, 0x64]

  function U32(b: seq<Byte>, i: nat): nat
    requires i + 4 <= |b|
  {
    (b[i] as nat) * 0x100_0000 + (b[i + 1] as nat) * 0x1_0000 + (b[i + 2] as nat) * 0x100 + b[i + 3] as nat
  }

  function U64(b: seq<Byte>, i: nat): nat
    requires i + 8 <= |b|
  {
    U32(b, i) * 0x1_0000_0000 + U32(b, i + 4)
  }

  /** A box whose 32-bit size is 1 carries a 64-bit size after its type. */
  function HeaderSize(size32: nat): nat {
    if size32 == 1 then 16 else 8
  }

  /** The total size a complete header declares; 0 means to the end. */
  function DeclaredSize(b: seq<Byte>): nat
    requires 8 <= |b| && HeaderSize(U32(b, 0)) <= |b|
  {
    if U32(b, 0) == 1 then U64(b, 8) else U32(b, 0)
  }

  // ----- the movie header -----

  /** floor(duration * 1000 / timescale) */
  function Millis(duration: nat, timescale: nat): nat
    requires 0 < timescale
  {
    (duration * 1000) / timescale
  }

  /** Duration in milliseconds from the body of an mvhd box. */
  function MvhdDuration(body: seq<Byte>): Option<nat> {
    if body == [] then None
    else
      var v1 := body[0] == 1;
      var fields := 4 + if v1 then 16 else 8;
      if fields + (if v1 then 12 else 8) > |body| then None
      else
        var timescale := U32(body, fields);
        var duration := if v1 then U64(body, fields + 4) else U32(body, fields + 4);
        if timescale == 0 || duration > MAX_SAFE_INTEGER then None
        else Some(Millis(duration, timescale))
  }

  /** The answer for a duration in units of a timescale: as many milliseconds as fit,
      and not one more. There is none without a timescale, or for a duration that is
      no exact integer. */
  ghost predicate WholeMillis(answer: Option<nat>, duration: nat, timescale: nat) {
    if timescale == 0 || duration > MAX_SAFE_INTEGER then answer == None
    else answer.Some? && answer.value * timescale <= duration * 1000 < (answer.value + 1) * timescale
  }

  /** What one box decides: the answer, or where the next box starts and the
      duration found so far. */
  datatype Outcome = Answered(answer: Option<nat>) | BoxEnds(at: nat, last: Option<nat>)

  /** How the body of a box is read; the walks below hold for any way. */
  type Reader = seq<Byte> -> Option<nat>

  /** The first of these boxes, inside a moov. */
  function FirstMoovBox(mvhd: Reader, b: seq<Byte>): (r: Outcome)
    ensures r.BoxEnds? ==> 8 <= r.at <= |b|
  {
    if |b| < 8 || |b| < HeaderSize(U32(b, 0)) then Answered(None)
    else
      var hs := HeaderSize(U32(b, 0));
      var size := if U32(b, 0) == 0 then |b| else DeclaredSize(b);
      if size > MAX_SAFE_INTEGER || size < hs || size > |b| then Answered(None)
      else if b[4..8] == MVHD then Answered(mvhd(b[hs..size]))
      else BoxEnds(size, None)
  }

  /** What `mvhd` reads in the first mvhd box among these boxes. */
  function WalkMoov(mvhd: Reader, b: seq<Byte>): Option<nat>
    decreases |b|
  {
    match FirstMoovBox(mvhd, b)
    case Answered(answer) => answer
    case BoxEnds(at, _) => WalkMoov(mvhd, b[at..])
  }

  /** The duration of the first mvhd box among these boxes. */
  function MoovDuration(b: seq<Byte>): Option<nat> {
    WalkMoov(MvhdDuration, b)
  }

  // ----- the file -----

  /** The first of these boxes, in a file. */
  function FirstFileBox(read: Reader, b: seq<Byte>, first: bool, last: Option<nat>): (r: Outcome)
    ensures r.BoxEnds? ==> 8 <= r.at <= |b|
  {
    if b == [] then Answered(last)
    else if |b| < 8 || |b| < HeaderSize(U32(b, 0)) then Answered(None)
    else
      var hs := HeaderSize(U32(b, 0));
      var moov := b[4..8] == MOOV;
      if first && b[4..8] != FTYP then Answered(None)
      else if U32(b, 0) == 0 then
        if !moov then Answered(last)
        else if |b| - hs > MAX_MOOV_BYTES then Answered(None)
        else Answered(read(b[hs..]))
      else
        var size := DeclaredSize(b);
        if size > MAX_SAFE_INTEGER || size < hs || (moov && size - hs > MAX_MOOV_BYTES) || |b| < size then Answered(None)
        else BoxEnds(size, if moov then read(b[hs..size]) else last)
  }

  /** The same over a whole file; `read` reads a moov. */
  function WalkFile(read: Reader, b: seq<Byte>, first: bool, last: Option<nat>): Option<nat>
    decreases |b|
  {
    match FirstFileBox(read, b, first, last)
    case Answered(answer) => answer
    case BoxEnds(at, found) => WalkFile(read, b[at..], false, found)
  }

  /** The answer for a whole file: it must start with ftyp, every box must be
      complete, and the last moov box gives the duration. `first` is true before
      the first box and `last` is the duration found so far. */
  function ParseFile(b: seq<Byte>, first: bool, last: Option<nat>): Option<nat> {
    WalkFile(MoovDuration, b, first, last)
  }

  // ----- a printer -----

  datatype Box = Box(kind: seq<Byte>, large: bool, body: seq<Byte>)

  /** A box whose size fits its header. */
  ghost predicate Sized(x: Box) {
    && |x.kind| == 4
    && |x.body| + 16 <= MAX_SAFE_INTEGER
    && (!x.large ==> |x.body| + 8 < 0x1_0000_0000)
  }

  ghost predicate Printable(x: Box) {
    Sized(x) && (x.kind == MOOV ==> |x.body| <= MAX_MOOV_BYTES)
  }

  function PutU32(n: nat): seq<Byte>
    requires n < 0x1_0000_0000
  {
    [n / 0x100_0000, (n / 0x1_0000) % 0x100, (n / 0x100) % 0x100, n % 0x100]
  }

  function PutU64(n: nat): seq<Byte>
    requires n < 0x1_0000_0000_0000_0000
  {
    PutU32(n / 0x1_0000_0000) + PutU32(n % 0x1_0000_0000)
  }

  lemma {:induction false} U32Append(h: seq<Byte>, rest: seq<Byte>, i: nat)
    requires i + 4 <= |h|
    ensures U32(h + rest, i) == U32(h, i)
  {
  }

  lemma {:induction false} U32Drop(b: seq<Byte>, k: nat, i: nat)
    requires k + i + 4 <= |b|
    ensures U32(b[k..], i) == U32(b, k + i)
  {
  }

  lemma {:induction false} PutU32Reads(n: nat)
    requires n < 0x1_0000_0000
    ensures |PutU32(n)| == 4 && U32(PutU32(n), 0) == n
  {
    Digits(n);
  }

  /** A number is the sum of its base-256 digits. */
  lemma {:induction false} Digits(n: nat)
    ensures n == n / 0x100_0000 * 0x100_0000 + n / 0x1_0000 % 0x100 * 0x1_0000 + n / 0x100 % 0x100 * 0x100 + n % 0x100
  {
    var a := n / 0x100;
    var b := a / 0x100;
    assert n / 0x1_0000 == b && n / 0x100_0000 == b / 0x100;
    assert n == a * 0x100 + n % 0x100;
    assert a == b * 0x100 + a % 0x100;
    assert b == b / 0x100 * 0x100 + b % 0x100;
  }

  lemma {:induction false} U32At(b: seq<Byte>, i: nat, n: nat, tail: seq<Byte>)
    requires n < 0x1_0000_0000 && i <= |b| && b[i..] == PutU32(n) + tail
    ensures i + 4 <= |b| && U32(b, i) == n && b[i + 4..] == tail
  {
    PutU32Reads(n);
    U32Append(PutU32(n), tail, 0);
    U32Drop(b, i, 0);
    SliceAppend(PutU32(n), tail, 4);
    SliceDrop(b, i, 4, 4);
  }

  lemma {:induction false} U64At(b: seq<Byte>, i: nat, n: nat, tail: seq<Byte>)
    requires n < 0x1_0000_0000_0000_0000 && i <= |b| && b[i..] == PutU64(n) + tail
    ensures i + 8 <= |b| && U64(b, i) == n && b[i + 8..] == tail
  {
    var hi, lo := n / 0x1_0000_0000, n % 0x1_0000_0000;
    assert b[i..] == PutU32(hi) + (PutU32(lo) + tail);
    U32At(b, i, hi, PutU32(lo) + tail);
    U32At(b, i + 4, lo, tail);
  }

  function PrintBox(x: Box): seq<Byte>
    requires Sized(x)
  {
    (if x.large then PutU32(1) + x.kind + PutU64(16 + |x.body|) else PutU32(8 + |x.body|) + x.kind) + x.body
  }

  function PrintFile(xs: seq<Box>): seq<Byte>
    requires forall i :: 0 <= i < |xs| ==> Printable(xs[i])
  {
    if xs == [] then []
    else
      assert Printable(xs[0]);
      PrintBox(xs[0]) + PrintFile(xs[1..])
  }

  /** What `read` reads in the last moov box, if any, else `last`. */
  function LastMoov(read: Reader, xs: seq<Box>, last: Option<nat>): Option<nat> {
    if xs == [] then last
    else LastMoov(read, xs[1..], if xs[0].kind == MOOV then read(xs[0].body) else last)
  }

  /** The header fields of a box whose bytes are `b`, and where its body and its end are. */
  ghost predicate Reads(b: seq<Byte>, hs: nat, kind: seq<Byte>, body: seq<Byte>, tail: seq<Byte>) {
    && 8 <= hs && hs + |body| <= |b| && HeaderSize(U32(b, 0)) == hs
    && U32(b, 0) != 0
    && DeclaredSize(b) == hs + |body|
    && b[4..8] == kind
    && b[hs..hs + |body|] == body
    && b[hs + |body|..] == tail
  }

  lemma {:induction false} LargeHeader(x: Box, tail: seq<Byte>)
    requires Sized(x) && x.large
    ensures Reads(PrintBox(x) + tail, 16, x.kind, x.body, tail)
  {
    var b, n := PrintBox(x) + tail, 16 + |x.body|;
    assert b[0..] == PutU32(1) + (x.kind + PutU64(n) + x.body + tail);
    U32At(b, 0, 1, x.kind + PutU64(n) + x.body + tail);
    assert b[8..] == PutU64(n) + (x.body + tail);
    U64At(b, 8, n, x.body + tail);
  }

  lemma {:induction false} SmallHeader(x: Box, tail: seq<Byte>)
    requires Sized(x) && !x.large
    ensures Reads(PrintBox(x) + tail, 8, x.kind, x.body, tail)
  {
    var b, n := PrintBox(x) + tail, 8 + |x.body|;
    assert b[0..] == PutU32(n) + (x.kind + x.body + tail);
    U32At(b, 0, n, x.kind + x.body + tail);
  }

  /** What the parser reads off a printed box, whatever follows it. */
  lemma {:induction false} PrintedHeader(x: Box, tail: seq<Byte>)
    requires Sized(x)
    ensures Reads(PrintBox(x) + tail, if x.large then 16 else 8, x.kind, x.body, tail)
  {
    if x.large {
      LargeHeader(x, tail);
    } else {
      SmallHeader(x, tail);
    }
  }

  /** Complete boxes are passed over, whatever follows: the last moov box among them
      is read, and the parser goes on behind them. */
  lemma {:induction false} BoxesPass(read: Reader, xs: seq<Box>, tail: seq<Byte>, first: bool, last: Option<nat>)
    requires forall i :: 0 <= i < |xs| ==> Printable(xs[i])
    requires first && xs != [] ==> xs[0].kind == FTYP
    ensures WalkFile(read, PrintFile(xs) + tail, first, last) == WalkFile(read, tail, first && xs == [], LastMoov(read, xs, last))
    decreases |xs|
  {
    if xs == [] {
      assert PrintFile(xs) + tail == tail;
    } else {
      var x := xs[0];
      PrintFileCons(xs, tail);
      PrintedHeader(x, PrintFile(xs[1..]) + tail);
      BoxesPass(read, xs[1..], tail, false, if x.kind == MOOV then read(x.body) else last);
    }
  }

  /** Parsing inverts printing: any file of complete boxes that starts with ftyp
      answers with its last moov box. */
  lemma {:induction false} ParsePrinted(read: Reader, xs: seq<Box>, first: bool, last: Option<nat>)
    requires forall i :: 0 <= i < |xs| ==> Printable(xs[i])
    requires first && xs != [] ==> xs[0].kind == FTYP
    ensures WalkFile(read, PrintFile(xs), first, last) == LastMoov(read, xs, last)
  {
    BoxesPass(read, xs, [], first, last);
    assert PrintFile(xs) + [] == PrintFile(xs);
  }

  // ----- what has no answer -----

  /** A box cut short has no answer, wherever the cut falls. */
  lemma {:induction false} CutHasNoAnswer(read: Reader, x: Box, k: nat, first: bool, last: Option<nat>)
    requires Sized(x) && 0 < k < |PrintBox(x)|
    ensures WalkFile(read, PrintBox(x)[..k], first, last) == None
  {
    var b := PrintBox(x);
    PrintedHeader(x, []);
    assert b + [] == b;
    if 8 <= k {
      U32Append(b[..k], b[k..], 0);
      assert b[..k] + b[k..] == b;
      if 16 <= k {
        U32Append(b[..k], b[k..], 8);
        U32Append(b[..k], b[k..], 12);
      }
    }
  }

  /** Nor does a file that is cut inside a box, after any complete boxes. */
  lemma {:induction false} TruncatedHasNoAnswer(xs: seq<Box>, x: Box, k: nat)
    requires forall i :: 0 <= i < |xs| ==> Printable(xs[i])
    requires xs != [] && xs[0].kind == FTYP
    requires Sized(x) && 0 < k < |PrintBox(x)|
    ensures ParseFile(PrintFile(xs) + PrintBox(x)[..k], true, None) == None
  {
    BoxesPass(MoovDuration, xs, PrintBox(x)[..k], true, None);
    CutHasNoAnswer(MoovDuration, x, k, false, LastMoov(MoovDuration, xs, None));
  }

  /** Nor does a file that begins with any other box than ftyp. */
  lemma {:induction false} OtherStartHasNoAnswer(x: Box, tail: seq<Byte>)
    requires Sized(x) && x.kind != FTYP
    ensures ParseFile(PrintBox(x) + tail, true, None) == None
  {
    PrintedHeader(x, tail);
  }

  /** Nor does a moov box above the limit. */
  lemma {:induction false} LargeMoovHasNoAnswer(xs: seq<Box>, x: Box, tail: seq<Byte>)
    requires forall i :: 0 <= i < |xs| ==> Printable(xs[i])
    requires xs != [] && xs[0].kind == FTYP
    requires Sized(x) && x.kind == MOOV && |x.body| > MAX_MOOV_BYTES
    ensures ParseFile(PrintFile(xs) + (PrintBox(x) + tail), true, None) == None
  {
    BoxesPass(MoovDuration, xs, PrintBox(x) + tail, true, None);
    PrintedHeader(x, tail);
  }

  /** A box of size 0 runs to the end of the file. */
  function PrintOpenBox(kind: seq<Byte>, body: seq<Byte>): seq<Byte> {
    PutU32(0) + kind + body
  }

  lemma {:induction false} OpenHeader(kind: seq<Byte>, body: seq<Byte>)
    requires |kind| == 4
    ensures var b := PrintOpenBox(kind, body); |b| >= 8 && U32(b, 0) == 0 && b[4..8] == kind && b[8..] == body
  {
    var b := PrintOpenBox(kind, body);
    assert b[0..] == PutU32(0) + (kind + body);
    U32At(b, 0, 0, kind + body);
  }

  /** It ends the file: a moov box within the limit is read, any other leaves the answer. */
  lemma {:induction false} OpenEnded(xs: seq<Box>, kind: seq<Byte>, body: seq<Byte>)
    requires forall i :: 0 <= i < |xs| ==> Printable(xs[i])
    requires xs != [] && xs[0].kind == FTYP && |kind| == 4
    ensures ParseFile(PrintFile(xs) + PrintOpenBox(kind, body), true, None)
         == if kind != MOOV then LastMoov(MoovDuration, xs, None)
            else if |body| > MAX_MOOV_BYTES then None else MoovDuration(body)
  {
    BoxesPass(MoovDuration, xs, PrintOpenBox(kind, body), true, None);
    OpenHeader(kind, body);
  }

  /** A moov without a movie header has no answer. */
  lemma {:induction false} NoMvhdHasNoAnswer(read: Reader, xs: seq<Box>)
    requires forall i :: 0 <= i < |xs| ==> Printable(xs[i]) && xs[i].kind != MVHD
    ensures WalkMoov(read, PrintFile(xs)) == None
  {
    if xs != [] {
      MoovSkip(read, xs[0], PrintFile(xs[1..]));
      NoMvhdHasNoAnswer(read, xs[1..]);
    }
  }

  /** A movie header that is too short for its version has no answer. */
  lemma {:induction false} ShortMvhdHasNoAnswer(body: seq<Byte>)
    requires |body| < 20 || (body[0] == 1 && |body| < 32)
    ensures MvhdDuration(body) == None
  {
  }

  /** A movie: boxes around a moov box, whose movie header of version 0 or 1 lies
      behind other boxes; the time fields and what follows the duration are arbitrary. */
  datatype Movie = Movie(
    leading: seq<Box>, before: seq<Box>, large: bool,
    wide: bool, times: seq<Byte>, timescale: nat, duration: nat, rest: seq<Byte>,
    after: seq<Byte>, trailing: seq<Box>)

  function PrintMvhd(wide: bool, times: seq<Byte>, timescale: nat, duration: nat, rest: seq<Byte>): seq<Byte>
    requires timescale < 0x1_0000_0000 && duration < if wide then 0x1_0000_0000_0000_0000 else 0x1_0000_0000
  {
    [if wide then 1 else 0, 0, 0, 0] + times + PutU32(timescale)
    + (if wide then PutU64(duration) else PutU32(duration)) + rest
  }

  function MvhdBox(m: Movie): Box
    requires m.timescale < 0x1_0000_0000 && m.duration < if m.wide then 0x1_0000_0000_0000_0000 else 0x1_0000_0000
  {
    Box(MVHD, m.large, PrintMvhd(m.wide, m.times, m.timescale, m.duration, m.rest))
  }

  ghost predicate Filmed(m: Movie) {
    && m.timescale < 0x1_0000_0000 && m.duration < (if m.wide then 0x1_0000_0000_0000_0000 else 0x1_0000_0000)
    && |m.times| == (if m.wide then 16 else 8)
    && m.leading != [] && m.leading[0].kind == FTYP
    && (forall i :: 0 <= i < |m.leading| ==> Printable(m.leading[i]))
    && (forall i :: 0 <= i < |m.before| ==> Printable(m.before[i]) && m.before[i].kind != MVHD)
    && Sized(MvhdBox(m))
    && |PrintFile(m.before)| + |PrintBox(MvhdBox(m))| + |m.after| <= MAX_MOOV_BYTES
    && (forall i :: 0 <= i < |m.trailing| ==> Printable(m.trailing[i]) && m.trailing[i].kind != MOOV)
  }

  function MoovBox(m: Movie): Box
    requires Filmed(m)
  {
    Box(MOOV, false, PrintFile(m.before) + (PrintBox(MvhdBox(m)) + m.after))
  }

  function PrintMovie(m: Movie): seq<Byte>
    requires Filmed(m)
  {
    var xs := m.leading + [MoovBox(m)] + m.trailing;
    assert forall i :: 0 <= i < |xs| ==> Printable(xs[i]);
    PrintFile(xs)
  }

  lemma {:induction false} PrintFileCons(xs: seq<Box>, tail: seq<Byte>)
    requires xs != [] && forall i :: 0 <= i < |xs| ==> Printable(xs[i])
    ensures PrintFile(xs) + tail == PrintBox(xs[0]) + (PrintFile(xs[1..]) + tail)
  {
  }

  /** The first mvhd box is found behind any other boxes of its moov. */
  lemma {:induction false} MoovFindsMvhd(read: Reader, before: seq<Box>, mvhd: Box, after: seq<Byte>)
    requires forall i :: 0 <= i < |before| ==> Printable(before[i]) && before[i].kind != MVHD
    requires Printable(mvhd) && mvhd.kind == MVHD
    ensures WalkMoov(read, PrintFile(before) + (PrintBox(mvhd) + after)) == read(mvhd.body)
    decreases |before|
  {
    var tail := PrintBox(mvhd) + after;
    if before == [] {
      MoovHit(read, mvhd, after);
      assert PrintFile(before) + tail == tail;
    } else {
      MoovSkip(read, before[0], PrintFile(before[1..]) + tail);
      PrintFileCons(before, tail);
      MoovFindsMvhd(read, before[1..], mvhd, after);
    }
  }

  lemma {:induction false} MovieAnswers(read: Reader, leading: seq<Box>, moov: Box, trailing: seq<Box>)
    requires moov.kind == MOOV && Printable(moov)
    requires leading != [] && leading[0].kind == FTYP
    requires forall i :: 0 <= i < |leading| ==> Printable(leading[i])
    requires forall i :: 0 <= i < |trailing| ==> Printable(trailing[i]) && trailing[i].kind != MOOV
    ensures forall i :: 0 <= i < |leading + [moov] + trailing| ==> Printable((leading + [moov] + trailing)[i])
    ensures WalkFile(read, PrintFile(leading + [moov] + trailing), true, None) == read(moov.body)
  {
    ParsePrinted(read, leading + [moov] + trailing, true, None);
    LastMoovIs(read, leading, moov, trailing, None);
  }

  lemma {:induction false} MoovLasts(m: Movie)
    requires Filmed(m)
    ensures WholeMillis(MoovDuration(MoovBox(m).body), m.duration, m.timescale)
  {
    MoovFindsMvhd(MvhdDuration, m.before, MvhdBox(m), m.after);
    MvhdRoundTrip(m.wide, m.times, m.timescale, m.duration, m.rest);
  }

  /** A printed movie answers with the whole milliseconds in its movie header,
      whatever boxes surround it. */
  lemma {:induction false} MovieRoundTrip(m: Movie)
    requires Filmed(m)
    ensures WholeMillis(ParseFile(PrintMovie(m), true, None), m.duration, m.timescale)
  {
    MoovLasts(m);
    MovieAnswers(MoovDuration, m.leading, MoovBox(m), m.trailing);
  }

  lemma {:induction false} LastMoovIs(read: Reader, leading: seq<Box>, moov: Box, trailing: seq<Box>, last: Option<nat>)
    requires moov.kind == MOOV
    requires forall i :: 0 <= i < |trailing| ==> trailing[i].kind != MOOV
    ensures LastMoov(read, leading + [moov] + trailing, last) == read(moov.body)
    decreases |leading|
  {
    var xs := leading + [moov] + trailing;
    if leading == [] {
      assert xs[1..] == trailing;
      NoMoov(read, trailing, read(moov.body));
    } else {
      assert xs[1..] == leading[1..] + [moov] + trailing;
      LastMoovIs(read, leading[1..], moov, trailing, if xs[0].kind == MOOV then read(xs[0].body) else last);
    }
  }

  lemma {:induction false} NoMoov(read: Reader, xs: seq<Box>, last: Option<nat>)
    requires forall i :: 0 <= i < |xs| ==> xs[i].kind != MOOV
    ensures LastMoov(read, xs, last) == last
  {
    if xs != [] {
      NoMoov(read, xs[1..], last);
    }
  }

  lemma {:induction false} MoovHit(read: Reader, x: Box, tail: seq<Byte>)
    requires Printable(x) && x.kind == MVHD
    ensures WalkMoov(read, PrintBox(x) + tail) == read(x.body)
  {
    PrintedHeader(x, tail);
  }

  lemma {:induction false} MoovSkip(read: Reader, x: Box, tail: seq<Byte>)
    requires Printable(x) && x.kind != MVHD
    ensures WalkMoov(read, PrintBox(x) + tail) == WalkMoov(read, tail)
  {
    PrintedHeader(x, tail);
  }

  lemma {:induction false} Floor(n: nat, d: nat)
    requires 0 < d
    ensures n / d * d <= n < (n / d + 1) * d
  {
    assert n == n / d * d + n % d;
  }

  /** A printed movie header gives back its duration in whole milliseconds. */
  lemma {:induction false} MvhdRoundTrip(wide: bool, times: seq<Byte>, timescale: nat, duration: nat, rest: seq<Byte>)
    requires timescale < 0x1_0000_0000 && duration < if wide then 0x1_0000_0000_0000_0000 else 0x1_0000_0000
    requires |times| == if wide then 16 else 8
    ensures WholeMillis(MvhdDuration(PrintMvhd(wide, times, timescale, duration, rest)), duration, timescale)
  {
    var b := PrintMvhd(wide, times, timescale, duration, rest);
    var f := 4 + |times|;
    var d := if wide then PutU64(duration) else PutU32(duration);
    assert b[f..] == PutU32(timescale) + (d + rest);
    U32At(b, f, timescale, d + rest);
    if wide {
      U64At(b, f + 4, duration, rest);
    } else {
      U32At(b, f + 4, duration, rest);
    }
    if 0 < timescale {
      Floor(duration * 1000, timescale);
    }
  }
}
