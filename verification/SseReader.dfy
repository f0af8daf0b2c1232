/**
 The incremental server-sent-events reader (compare section 9.2.6 of the WHATWG
 HTML standard): line endings are normalised, blocks end at a blank line, and the
 text after the last blank line is carried into the next call.
 */
module SseReader {
  import opened Wrappers

  const CR: char := '\r'
  const LF: char := '\n'

  /** Replace every CR LF by LF, left to right. */
  function Collapse(s: string): string {
    if s == "" then ""
    else if |s| >= 2 && s[0] == CR && s[1] == LF then [LF] + Collapse(s[2..])
    else [s[0]] + Collapse(s[1..])
  }

  datatype Parsed = Parsed(blocks: seq<string>, remainder: string)

  /** Split at every LF LF, left to right; the last piece is the remainder. */
  function Split(s: string): Parsed {
    if |s| < 2 then Parsed([], s)
    else if s[0] == LF && s[1] == LF then
      var p := Split(s[2..]);
      Parsed([""] + p.blocks, p.remainder)
    else Prepend(s[0], Split(s[1..]))
  }

  /** Put a character in front of the first piece. */
  function Prepend(c: char, p: Parsed): Parsed {
    if p.blocks == [] then Parsed([], [c] + p.remainder)
    else Parsed([[c] + p.blocks[0]] + p.blocks[1..], p.remainder)
  }

  /** One call of the reader on the text it has. */
  function Parse(buffer: string): Parsed {
    Split(Collapse(buffer))
  }

  /** Carrying the remainder from chunk to chunk, starting with `carried`. */
  function ParseChunks(carried: string, chunks: seq<string>): Parsed
    decreases |chunks|
  {
    if chunks == [] then Parsed([], carried)
    else
      var p := Parse(carried + chunks[0]);
      var q := ParseChunks(p.remainder, chunks[1..]);
      Parsed(p.blocks + q.blocks, q.remainder)
  }

  // ----- blocks to events -----

  datatype SseEvent = SseEvent(event: Option<string>, data: string)

  function Lines(s: string): (r: seq<string>)
    ensures r != []
  {
    if s == "" then [""]
    else if s[0] == LF then [""] + Lines(s[1..])
    else
      var rest := Lines(s[1..]);
      [[s[0]] + rest[0]] + rest[1..]
  }

  const EVENT_PREFIX := "event: "
  const DATA_PREFIX := "data: "

  predicate StartsWith(s: string, prefix: string) {
    prefix <= s
  }

  /** The last event name in the lines, else `found`. */
  function EventName(lines: seq<string>, found: Option<string>): Option<string> {
    if lines == [] then found
    else EventName(lines[1..],
                   if StartsWith(lines[0], EVENT_PREFIX) then Some(lines[0][|EVENT_PREFIX|..]) else found)
  }

  function DataLines(lines: seq<string>): seq<string> {
    if lines == [] then []
    else (if StartsWith(lines[0], DATA_PREFIX) then [lines[0][|DATA_PREFIX|..]] else []) + DataLines(lines[1..])
  }

  function Join(lines: seq<string>): string {
    if lines == [] then ""
    else if |lines| == 1 then lines[0]
    else lines[0] + [LF] + Join(lines[1..])
  }

  /** A block is an event only if it carries data. */
  function BlockEvents(block: string): seq<SseEvent> {
    var lines := Lines(block);
    if DataLines(lines) == [] then []
    else [SseEvent(EventName(lines, None), Join(DataLines(lines)))]
  }

  function Events(blocks: seq<string>): seq<SseEvent> {
    if blocks == [] then [] else BlockEvents(blocks[0]) + Events(blocks[1..])
  }

  lemma {:induction false} EventsAppend(a: seq<string>, b: seq<string>)
    ensures Events(a + b) == Events(a) + Events(b)
  {
    if a == [] {
      assert a + b == b;
    } else {
      assert (a + b)[1..] == a[1..] + b;
      EventsAppend(a[1..], b);
    }
  }

  /** The fields of one block. */
  method ReadBlock(block: string) returns (events: seq<SseEvent>)
    ensures events == BlockEvents(block)
  {
    var lines := Lines(block);
    var event: Option<string> := None;
    var dataLines: seq<string> := [];
    var j := 0;
    assert lines[0..] == lines;
    while j < |lines|
      invariant 0 <= j <= |lines|
      invariant EventName(lines[j..], event) == EventName(lines, None)
      invariant dataLines + DataLines(lines[j..]) == DataLines(lines)
    {
      LinesStep(lines, j, event);
      var line := lines[j];
      if StartsWith(line, EVENT_PREFIX) {
        NotBoth(line);
        event := Some(line[|EVENT_PREFIX|..]);
      } else if StartsWith(line, DATA_PREFIX) {
        dataLines := dataLines + [line[|DATA_PREFIX|..]];
      }
      j := j + 1;
    }
    assert lines[j..] == [];
    assert dataLines == DataLines(lines) && event == EventName(lines, None);
    events := if |dataLines| > 0 then [SseEvent(event, Join(dataLines))] else [];
  }

  lemma {:induction false} LinesStep(lines: seq<string>, j: nat, event: Option<string>)
    requires j < |lines|
    ensures var line := lines[j];
      && EventName(lines[j..], event) == EventName(lines[j + 1..],
           if StartsWith(line, EVENT_PREFIX) then Some(line[|EVENT_PREFIX|..]) else event)
      && DataLines(lines[j..]) ==
           (if StartsWith(line, DATA_PREFIX) then [line[|DATA_PREFIX|..]] else []) + DataLines(lines[j + 1..])
  {
  }

  /** The reader as the source writes it. */
  method ParseSseBuffer(buffer: string) returns (events: seq<SseEvent>, remainder: string)
    ensures events == Events(Parse(buffer).blocks) && remainder == Parse(buffer).remainder
  {
    var parsed := Split(Collapse(buffer));
    remainder := parsed.remainder;
    events := ReadBlocks(parsed.blocks);
  }

  method ReadBlocks(blocks: seq<string>) returns (events: seq<SseEvent>)
    ensures events == Events(blocks)
  {
    events := [];
    var i := 0;
    while i < |blocks|
      invariant 0 <= i <= |blocks|
      invariant events + Events(blocks[i..]) == Events(blocks)
    {
      var found := ReadBlock(blocks[i]);
      assert Events(blocks[i..]) == found + Events(blocks[i + 1..]);
      AppendAssoc(events, found, Events(blocks[i + 1..]));
      events := events + found;
      i := i + 1;
    }
    assert events + [] == events;
  }

  lemma {:induction false} NotBoth(line: string)
    requires StartsWith(line, EVENT_PREFIX)
    ensures !StartsWith(line, DATA_PREFIX)
  {
    assert line[0] == EVENT_PREFIX[0] != DATA_PREFIX[0];
  }

  // ----- normalising twice -----

  /** A CR directly before a CR LF: the one text that normalising changes twice. */
  ghost predicate HasCrCrLf(s: string) {
    exists i :: CrCrLfAt(s, i)
  }

  predicate CrCrLfAt(s: string, i: int) {
    0 <= i && i + 2 < |s| && s[i] == CR && s[i + 1] == CR && s[i + 2] == LF
  }

  lemma {:induction false} CollapseCons(c: char, x: string)
    requires !(c == CR && x != "" && x[0] == LF)
    ensures Collapse([c] + x) == [c] + Collapse(x)
  {
  }

  lemma {:induction false} CollapsePair(x: string)
    ensures Collapse([CR, LF] + x) == [LF] + Collapse(x)
  {
  }

  /** Nothing straddles the seam of an append unless it is CR before LF. */
  lemma {:induction false} CollapseSeam(a: string, b: string)
    requires a == "" || b == "" || !(a[|a| - 1] == CR && b[0] == LF)
    ensures Collapse(a + b) == Collapse(a) + Collapse(b)
    decreases |a|
  {
    if a == "" {
      assert a + b == b;
    } else if |a| >= 2 && a[0] == CR && a[1] == LF {
      var rest := a[2..];
      CollapseSeam(rest, b);
      Uncons(a, b);
      CollapsePair(rest + b);
      AppendAssoc([LF], Collapse(rest), Collapse(b));
    } else {
      var rest := a[1..];
      CollapseSeam(rest, b);
      Uncons(a, b);
      CollapseCons(a[0], rest + b);
      AppendAssoc([a[0]], Collapse(rest), Collapse(b));
    }
  }

  /** A normalised text starts with LF only if the text starts with LF or CR LF. */
  lemma {:induction false} CollapseStart(s: string)
    requires s != ""
    ensures Collapse(s) != ""
    ensures Collapse(s)[0] == LF <==> s[0] == LF || (|s| >= 2 && s[0] == CR && s[1] == LF)
  {
  }

  /** Normalising a prefix first does no harm in a text without CR CR LF. */
  lemma {:induction false} CollapseTwice(a: string, b: string)
    requires !HasCrCrLf(a + b)
    ensures Collapse(Collapse(a) + b) == Collapse(a + b)
    decreases |a|, 1
  {
    if |a| <= 1 {
      assert Collapse(a) == a;
    } else if a[0] == CR && a[1] == LF {
      var x, y := Collapse(a[2..]) + b, a[2..] + b;
      Uncons(a, b);
      SuffixClean(a + b, 2);
      CollapseTwice(a[2..], b);
      assert Collapse(a) + b == [LF] + x;
      CollapseCons(LF, x);
      CollapsePair(y);
    } else {
      CollapseTwiceCons(a, b);
    }
  }

  lemma {:induction false} CollapseTwiceCons(a: string, b: string)
    requires !HasCrCrLf(a + b)
    requires |a| >= 2 && !(a[0] == CR && a[1] == LF)
    ensures Collapse(Collapse(a) + b) == Collapse(a + b)
    decreases |a|, 0
  {
    var x, y := Collapse(a[1..]) + b, a[1..] + b;
    Uncons(a, b);
    SuffixClean(a + b, 1);
    CollapseTwice(a[1..], b);
    assert Collapse(a) + b == [a[0]] + x;
    CollapseStart(a[1..]);
    assert !CrCrLfAt(a + b, 0);
    CollapseCons(a[0], x);
    CollapseCons(a[0], y);
  }

  lemma {:induction false} SuffixClean(s: string, k: nat)
    requires k <= |s| && !HasCrCrLf(s)
    ensures !HasCrCrLf(s[k..])
  {
    if HasCrCrLf(s[k..]) {
      var i :| CrCrLfAt(s[k..], i);
      assert CrCrLfAt(s, i + k);
    }
  }

  lemma {:induction false} PrefixClean(s: string, k: nat)
    requires k <= |s| && !HasCrCrLf(s)
    ensures !HasCrCrLf(s[..k])
  {
    if HasCrCrLf(s[..k]) {
      var i :| CrCrLfAt(s[..k], i);
      assert CrCrLfAt(s, i);
    }
  }

  /** Number of CR LF pairs. */
  function Pairs(s: string): nat {
    if |s| < 2 then 0 else (if s[0] == CR && s[1] == LF then 1 else 0) + Pairs(s[1..])
  }

  lemma {:induction false} CollapseShrinks(s: string)
    ensures |Collapse(s)| + Pairs(s) == |s|
    decreases |s|
  {
    if |s| >= 2 && s[0] == CR && s[1] == LF {
      CollapseShrinks(s[2..]);
      assert s[1..][0] == LF && s[1..][1..] == s[2..];
    } else if s != "" {
      CollapseShrinks(s[1..]);
    }
  }

  lemma {:induction false} PairsSeam(a: string, b: string)
    requires a == "" || a[|a| - 1] != CR
    ensures Pairs(a + b) == Pairs(a) + Pairs(b)
    decreases |a|
  {
    if a == "" {
      assert a + b == b;
    } else {
      assert (a + b)[1..] == a[1..] + b;
      PairsSeam(a[1..], b);
    }
  }

  /** A text without CR LF is its own normal form. */
  lemma {:induction false} CollapseIdentity(s: string)
    requires Pairs(s) == 0
    ensures Collapse(s) == s
    decreases |s|
  {
    if s != "" {
      CollapseIdentity(s[1..]);
    }
  }

  lemma {:induction false} CollapsedHasNoPairs(s: string)
    requires !HasCrCrLf(s)
    ensures Pairs(Collapse(s)) == 0
    decreases |s|
  {
    if |s| >= 2 && s[0] == CR && s[1] == LF {
      SuffixClean(s, 2);
      CollapsedHasNoPairs(s[2..]);
      assert Collapse(s)[1..] == Collapse(s[2..]);
    } else if s != "" {
      SuffixClean(s, 1);
      CollapsedHasNoPairs(s[1..]);
      var x := Collapse(s[1..]);
      assert Collapse(s)[1..] == x;
      if s[0] == CR && |x| > 0 && x[0] == LF {
        assert CrCrLfAt(s, 0);
        assert false;
      }
    }
  }

  // ----- splitting -----

  function BlockLength(blocks: seq<string>): nat {
    if blocks == [] then 0 else |blocks[0]| + 2 + BlockLength(blocks[1..])
  }

  /** How much text a result accounts for. */
  function Extent(p: Parsed): nat {
    BlockLength(p.blocks) + |p.remainder|
  }

  lemma {:induction false} PrependExtent(c: char, p: Parsed)
    ensures Extent(Prepend(c, p)) == Extent(p) + 1
    ensures p.blocks != [] ==> Prepend(c, p).blocks != [] && Prepend(c, p).remainder == p.remainder
    ensures p.blocks == [] ==> Prepend(c, p) == Parsed([], [c] + p.remainder)
  {
  }

  predicate IsSuffix(r: string, s: string) {
    |r| <= |s| && r == s[|s| - |r|..]
  }

  lemma {:induction false} SuffixDrop(r: string, s: string, k: nat)
    requires k <= |s| && IsSuffix(r, s[k..])
    ensures IsSuffix(r, s)
  {
  }

  lemma {:induction false} SplitExtent(s: string)
    ensures |s| == Extent(Split(s))
    decreases |s|
  {
    if |s| >= 2 {
      if s[0] == LF && s[1] == LF {
        var p := Split(s[2..]);
        SplitExtent(s[2..]);
        assert ([""] + p.blocks)[1..] == p.blocks;
      } else {
        SplitExtent(s[1..]);
        PrependExtent(s[0], Split(s[1..]));
      }
    }
  }

  lemma {:induction false} SplitSuffix(s: string)
    ensures IsSuffix(Split(s).remainder, s)
    ensures Split(s).blocks == [] ==> Split(s).remainder == s
    decreases |s|
  {
    if |s| >= 2 {
      if s[0] == LF && s[1] == LF {
        SplitSuffix(s[2..]);
        SuffixDrop(Split(s[2..]).remainder, s, 2);
      } else {
        SplitSuffix(s[1..]);
        PrependExtent(s[0], Split(s[1..]));
        SuffixDrop(Split(s[1..]).remainder, s, 1);
        Uncons(s, "");
      }
    }
  }

  lemma {:induction false} SplitLength(s: string)
    ensures |s| == Extent(Split(s))
    ensures IsSuffix(Split(s).remainder, s)
    ensures Split(s).blocks == [] ==> Split(s).remainder == s
  {
    SplitExtent(s);
    SplitSuffix(s);
  }

  /** The part of a text that is already split off. */
  function Settled(s: string): string {
    SplitLength(s);
    s[..|s| - |Split(s).remainder|]
  }

  /** What follows the settled part is split independently of it. */
  lemma {:induction false} SplitAfterSettled(a: string, y: string)
    ensures Split(Settled(a) + y) == Parsed(Split(a).blocks + Split(y).blocks, Split(y).remainder)
    decreases |a|
  {
    SplitLength(a);
    if Split(a).blocks == [] {
      assert Settled(a) + y == y;
      assert [] + Split(y).blocks == Split(y).blocks;
    } else if a[0] == LF && a[1] == LF {
      SplitAfterSettled(a[2..], y);
      SettledStep(a, 2);
      AppendAssoc(a[..2], Settled(a[2..]), y);
      assert (a[..2] + (Settled(a[2..]) + y))[2..] == Settled(a[2..]) + y;
      AppendAssoc([""], Split(a[2..]).blocks, Split(y).blocks);
    } else {
      var p := Split(a[1..]);
      SplitLength(a[1..]);
      SplitAfterSettled(a[1..], y);
      SettledStep(a, 1);
      AppendAssoc(a[..1], Settled(a[1..]), y);
      var t := Settled(a) + y;
      assert t == a[..1] + (Settled(a[1..]) + y) && t[1..] == Settled(a[1..]) + y;
      assert |Settled(a[1..])| >= 2;
      assert t[0] == a[0] && t[1] == a[1];
      PrependAppend(a[0], p, Split(y));
    }
  }

  /** Dropping a first break or a first character drops it from the settled part. */
  lemma {:induction false} SettledStep(a: string, k: nat)
    requires |a| >= 2 && Split(a).blocks != []
    requires k == if a[0] == LF && a[1] == LF then 2 else 1
    ensures Settled(a) == a[..k] + Settled(a[k..])
    ensures Split(a).remainder == Split(a[k..]).remainder
  {
    SplitLength(a);
    SplitLength(a[k..]);
  }

  lemma {:induction false} PrependAppend(c: char, p: Parsed, q: Parsed)
    requires p.blocks != []
    ensures Prepend(c, Parsed(p.blocks + q.blocks, q.remainder))
         == Parsed(Prepend(c, p).blocks + q.blocks, q.remainder)
  {
  }

  /** A settled part ends at a blank line, so nothing can straddle its end. */
  lemma {:induction false} SettledEndsWithLf(s: string)
    ensures Settled(s) == "" || Settled(s)[|Settled(s)| - 1] == LF
    decreases |s|
  {
    SplitLength(s);
    if Split(s).blocks != [] {
      var k := if s[0] == LF && s[1] == LF then 2 else 1;
      SettledStep(s, k);
      SettledEndsWithLf(s[k..]);
    }
  }

  // ----- chunk independence -----

  lemma {:induction false} SettledRest(n: string)
    ensures n == Settled(n) + Split(n).remainder
  {
    SplitLength(n);
  }

  lemma {:induction false} SettledIsNormal(prefix: string, chunk: string)
    requires !HasCrCrLf(prefix + chunk)
    ensures Collapse(Settled(Collapse(prefix))) == Settled(Collapse(prefix))
  {
    var n := Collapse(prefix);
    SettledRest(n);
    SettledEndsWithLf(n);
    assert (prefix + chunk)[..|prefix|] == prefix;
    PrefixClean(prefix + chunk, |prefix|);
    CollapsedHasNoPairs(prefix);
    PairsSeam(Settled(n), Split(n).remainder);
    CollapseIdentity(Settled(n));
  }

  lemma {:induction false} FeedCollapse(prefix: string, chunk: string, n: string, settled: string, r: string)
    requires !HasCrCrLf(prefix + chunk)
    requires n == Collapse(prefix) && settled == Settled(n) && r == Split(n).remainder
    ensures Collapse(prefix + chunk) == settled + Collapse(r + chunk)
  {
    SettledRest(n);
    CollapseTwice(prefix, chunk);
    AppendAssoc(settled, r, chunk);
    SettledEndsWithLf(n);
    CollapseSeam(settled, r + chunk);
    SettledIsNormal(prefix, chunk);
  }

  /** Feeding one more chunk after a parsed prefix. */
  lemma {:induction false} FeedStep(prefix: string, chunk: string)
    requires !HasCrCrLf(prefix + chunk)
    ensures var p := Parse(prefix);
      var q := Parse(p.remainder + chunk);
      Parse(prefix + chunk) == Parsed(p.blocks + q.blocks, q.remainder)
  {
    var n := Collapse(prefix);
    var r := Split(n).remainder;
    FeedCollapse(prefix, chunk, n, Settled(n), r);
    SplitAfterSettled(n, Collapse(r + chunk));
  }

  /** Every way of cutting a text without CR CR LF gives the same blocks and the
      same remainder as parsing it at once. */
  lemma {:induction false} ChunkIndependent(prefix: string, chunks: seq<string>)
    requires !HasCrCrLf(prefix + Flatten(chunks))
    ensures var p := Parse(prefix);
      var q := ParseChunks(p.remainder, chunks);
      Parse(prefix + Flatten(chunks)) == Parsed(p.blocks + q.blocks, q.remainder)
    decreases |chunks|
  {
    if chunks == [] {
      assert prefix + Flatten(chunks) == prefix;
      assert Parse(prefix).blocks + [] == Parse(prefix).blocks;
    } else {
      var next := prefix + chunks[0];
      AppendAssoc(prefix, chunks[0], Flatten(chunks[1..]));
      assert (next + Flatten(chunks[1..]))[..|next|] == next;
      PrefixClean(next + Flatten(chunks[1..]), |next|);
      FeedStep(prefix, chunks[0]);
      ChunkIndependent(next, chunks[1..]);
      var p := Parse(prefix);
      var q := Parse(p.remainder + chunks[0]);
      AppendAssoc(p.blocks, q.blocks, ParseChunks(q.remainder, chunks[1..]).blocks);
    }
  }

  lemma {:induction false} ParseEmpty()
    ensures Parse("") == Parsed([], "")
  {
  }

  predicate EndsWithCrLf(s: string) {
    |s| >= 2 && s[|s| - 2] == CR && s[|s| - 1] == LF
  }

  lemma {:induction false} EndsDrop(s: string, k: nat)
    requires EndsWithCrLf(s) && k + 2 <= |s|
    ensures EndsWithCrLf(s[k..])
  {
  }

  /** A text that ends with CR LF leaves it in the remainder. */
  lemma {:induction false} RemainderKeepsCrLf(s: string)
    requires EndsWithCrLf(s)
    ensures EndsWithCrLf(Split(s).remainder)
    decreases |s|
  {
    if s[0] == LF && s[1] == LF {
      EndsDrop(s, 2);
      RemainderKeepsCrLf(s[2..]);
    } else if |s| >= 3 {
      EndsDrop(s, 1);
      RemainderKeepsCrLf(s[1..]);
      PrependExtent(s[0], Split(s[1..]));
      var r := Split(s[1..]).remainder;
      assert ([s[0]] + r)[1..] == r;
    } else {
      SplitNoBreak(s);
    }
  }

  /** A text that ends with CR CR LF still ends with CR LF once normalised. */
  lemma {:induction false} CollapseKeepsCrLf(a: string)
    requires |a| >= 3 && CrCrLfAt(a, |a| - 3)
    ensures EndsWithCrLf(Collapse(a))
  {
    var head, crlf := a[..|a| - 3], [CR, LF];
    assert a == (head + [CR]) + crlf;
    CollapseSeam(head + [CR], crlf);
    CollapseSeam(head, [CR]);
    assert Collapse([CR]) == [CR];
    assert crlf[2..] == "" && Collapse(crlf) == [LF];
  }

  /** Parsing accounts for the whole text, less one character per CR LF. */
  lemma {:induction false} ParseExtent(s: string)
    ensures Extent(Parse(s)) + Pairs(s) == |s|
  {
    SplitLength(Collapse(s));
    CollapseShrinks(s);
  }

  /** A second call on a remainder that ends with CR LF drops a character. */
  lemma {:induction false} SecondCallShrinks(a: string, b: string)
    requires |a| >= 3 && CrCrLfAt(a, |a| - 3)
    ensures var p := Parse(a);
      BlockLength(p.blocks) + Extent(Parse(p.remainder + b)) < Extent(Parse(a + b))
  {
    CollapseKeepsCrLf(a);
    RemainderKeepsCrLf(Collapse(a));
    var r := Parse(a).remainder;
    ParseExtent(a);
    ParseExtent(r + b);
    ParseExtent(a + b);
    PairsSeam(a, b);
    PairsSeam(r, b);
    PairAtEnd(r);
  }

  /** Cutting right after a CR CR LF loses a character: the carried remainder
      still holds a CR LF, which the next call collapses again. */
  lemma {:induction false} CutAfterCrCrLf(text: string, i: nat)
    requires CrCrLfAt(text, i)
    ensures ParseChunks("", [text[..i + 3], text[i + 3..]]) != Parse(text)
  {
    var a, b := text[..i + 3], text[i + 3..];
    assert text == a + b;
    SecondCallShrinks(a, b);
    ParseTwoChunks(a, b);
    BlockLengthAppend(Parse(a).blocks, Parse(Parse(a).remainder + b).blocks);
  }

  lemma {:induction false} ParseTwoChunks(a: string, b: string)
    ensures var p := Parse(a);
      var q := Parse(p.remainder + b);
      ParseChunks("", [a, b]) == Parsed(p.blocks + q.blocks, q.remainder)
  {
    var two := [a, b];
    assert "" + a == a;
    assert two[1..] == [b] && [b][1..] == [];
    var r := Parse(a).remainder;
    assert ParseChunks(r, [b]) == Parsed(Parse(r + b).blocks + [], Parse(r + b).remainder);
    assert Parse(r + b).blocks + [] == Parse(r + b).blocks;
  }

  lemma {:induction false} PairAtEnd(s: string)
    requires EndsWithCrLf(s)
    ensures Pairs(s) >= 1
    decreases |s|
  {
    if |s| > 2 {
      EndsDrop(s, 1);
      PairAtEnd(s[1..]);
    }
  }

  lemma {:induction false} BlockLengthAppend(a: seq<string>, b: seq<string>)
    ensures BlockLength(a + b) == BlockLength(a) + BlockLength(b)
  {
    if a == [] {
      assert a + b == b;
    } else {
      assert (a + b)[1..] == a[1..] + b;
      BlockLengthAppend(a[1..], b);
    }
  }

  ghost predicate CutAnywhere(text: string) {
    forall chunks: seq<string> :: Flatten(chunks) == text ==> ParseChunks("", chunks) == Parse(text)
  }

  /** The reader is independent of chunking exactly for the texts without
      CR CR LF. */
  lemma {:induction false} ChunkIndependentIff(text: string)
    ensures CutAnywhere(text) <==> !HasCrCrLf(text)
  {
    if HasCrCrLf(text) {
      var i :| CrCrLfAt(text, i);
      CutAfterCrCrLf(text, i);
      var chunks := [text[..i + 3], text[i + 3..]];
      FlattenTwo(text[..i + 3], text[i + 3..]);
      assert text[..i + 3] + text[i + 3..] == text;
    } else {
      forall chunks: seq<string> | Flatten(chunks) == text ensures ParseChunks("", chunks) == Parse(text) {
        assert "" + Flatten(chunks) == text;
        ParseEmpty();
        ChunkIndependent("", chunks);
        assert [] + ParseChunks("", chunks).blocks == ParseChunks("", chunks).blocks;
      }
    }
  }

  /** At the level of events: a text without two adjacent CRs, cut anywhere,
      yields the same event list. */
  lemma {:induction false} EventsChunkIndependent(chunks: seq<string>)
    requires forall i :: 0 <= i < |Flatten(chunks)| - 1 ==> !(Flatten(chunks)[i] == CR && Flatten(chunks)[i + 1] == CR)
    ensures Events(ParseChunks("", chunks).blocks) == Events(Parse(Flatten(chunks)).blocks)
    ensures ParseChunks("", chunks).remainder == Parse(Flatten(chunks)).remainder
  {
    var text := Flatten(chunks);
    assert !HasCrCrLf(text);
    ChunkIndependentIff(text);
  }

  /** The excluded texts do change events: cut after the CR CR LF, a trailing CR
      disappears from the block. */
  lemma {:induction false} TrailingCrIsLost(line: string)
    requires forall i :: 0 <= i < |line| ==> line[i] != CR && line[i] != LF
    ensures Parse(line + [CR, CR, LF, LF]).blocks == [line + [CR]]
    ensures ParseChunks("", [line + [CR, CR, LF], [LF]]).blocks == [line]
  {
    CollapsePlain(line);
    CollapseTails();
    CollapseSeam(line, [CR, CR, LF, LF]);
    assert line + [CR, LF, LF] == (line + [CR]) + [LF, LF];
    SplitPlain(line + [CR], [LF, LF]);
    CollapseSeam(line, [CR, CR, LF]);
    SplitNoBreak(line + [CR, LF]);
    ParseTwoChunks(line + [CR, CR, LF], [LF]);
    assert (line + [CR, LF]) + [LF] == line + [CR, LF, LF];
    CollapseSeam(line, [CR, LF, LF]);
    SplitPlain(line, [LF, LF]);
  }

  lemma {:induction false} CollapseTails()
    ensures Collapse([CR, LF, LF]) == [LF, LF]
    ensures Collapse([CR, CR, LF]) == [CR, LF]
    ensures Collapse([CR, CR, LF, LF]) == [CR, LF, LF]
  {
    assert [CR, LF, LF][2..] == [LF] && [LF][1..] == "";
    assert [CR, CR, LF][1..] == [CR, LF] && [CR, LF][2..] == "";
    assert [CR, CR, LF, LF][1..] == [CR, LF, LF];
    assert Collapse([LF]) == [LF];
    assert Collapse([CR, LF]) == [LF];
  }

  lemma {:induction false} CollapsePlain(s: string)
    requires forall i :: 0 <= i < |s| ==> s[i] != CR
    ensures Collapse(s) == s
    decreases |s|
  {
    if s != "" {
      CollapsePlain(s[1..]);
    }
  }

  /** A first block without LF, followed by a break. */
  lemma {:induction false} SplitPlain(s: string, rest: string)
    requires forall i :: 0 <= i < |s| ==> s[i] != LF
    requires |rest| >= 2 && rest[0] == LF && rest[1] == LF
    ensures Split(s + rest).blocks == [s] + Split(rest[2..]).blocks
    ensures Split(s + rest).remainder == Split(rest[2..]).remainder
    decreases |s|
  {
    if s == "" {
      assert s + rest == rest;
    } else {
      assert (s + rest)[1..] == s[1..] + rest;
      SplitPlain(s[1..], rest);
      assert [s[0]] + s[1..] == s;
    }
  }

  lemma {:induction false} SplitNoBreak(s: string)
    requires forall i :: 0 <= i < |s| - 1 ==> s[i] != LF
    ensures Split(s) == Parsed([], s)
    decreases |s|
  {
    if |s| >= 2 {
      SplitNoBreak(s[1..]);
      assert [s[0]] + s[1..] == s;
    }
  }
}
