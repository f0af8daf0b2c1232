/**
 The incremental inspector: it sees an MP4 in arbitrary chunks, keeps only box
 headers and the moov box, and must answer as if it had parsed the whole file.
 */
module Mp4Inspector {
  import opened Wrappers
  import opened Mp4Boxes

  /** The inspector's state; `remaining` is None inside a box that runs to the
      end of the file, and `moov` holds the parts of the moov box seen so far. */
  datatype Scan = Scan(
    header: seq<Byte>, remaining: Option<nat>, boxes: nat,
    moov: Option<seq<seq<Byte>>>, durationMs: Option<nat>, invalid: bool)

  ghost predicate WellFormed(s: Scan) {
    !s.invalid ==>
      && |s.header| < 16
      && (|s.header| >= 8 ==> U32(s.header, 0) == 1)
      && (s.header != [] ==> s.remaining == Some(0))
      && (s.remaining != Some(0) ==> s.boxes > 0)
      && (s.moov.Some? ==>
            && s.remaining != Some(0)
            && |Flatten(s.moov.value)| + s.remaining.GetOr(0) <= MAX_MOOV_BYTES)
  }

  /** How a file is read from a box boundary: its bytes, whether a box came
      before, and the duration found so far. */
  type Parser = (seq<Byte>, bool, Option<nat>) -> Option<nat>

  /** What the whole-file parser would answer if exactly `rest` followed. */
  ghost function Answer(s: Scan, rest: seq<Byte>): Option<nat> {
    AnswerBy(ParseFile, MoovDuration, s, rest)
  }

  /** ... for any parser: the steps below hold whatever happens at a boundary. */
  ghost function AnswerBy(parse: Parser, read: Reader, s: Scan, rest: seq<Byte>): Option<nat> {
    if s.invalid then None
    else if s.remaining.None? then
      if s.moov.None? then s.durationMs
      else if |Flatten(s.moov.value)| + |rest| > MAX_MOOV_BYTES then None
      else read(Flatten(s.moov.value) + rest)
    else
      var n := s.remaining.value;
      if n == 0 then parse(s.header + rest, s.boxes == 0, s.durationMs)
      else if |rest| < n then None
      else parse(rest[n..], false,
                 if s.moov.Some? then read(Flatten(s.moov.value) + rest[..n]) else s.durationMs)
  }

  /** Having consumed `seen`, the answer for any continuation is the whole-file one. */
  ghost predicate Agrees(s: Scan, ahead: seq<Byte>, seen: seq<Byte>) {
    forall rest :: AgreesOn(s, ahead, seen, rest)
  }

  ghost predicate AgreesOn(s: Scan, ahead: seq<Byte>, seen: seq<Byte>, rest: seq<Byte>) {
    Answer(s, ahead + rest) == ParseFile(seen + rest, true, None)
  }

  /** Consuming part of a box body that is not kept. */
  lemma {:induction false} SkipStep(parse: Parser, read: Reader, s: Scan, s': Scan, chunk: seq<Byte>, take: nat, rest: seq<Byte>)
    requires WellFormed(s) && !s.invalid && s.remaining != Some(0) && s.moov.None?
    requires take <= |chunk| && (s.remaining.Some? ==> take <= s.remaining.value)
    requires s' == s.(remaining := if s.remaining.None? then None else Some(s.remaining.value - take))
    ensures AnswerBy(parse, read, s', chunk[take..] + rest) == AnswerBy(parse, read, s, chunk + rest)
  {
    if s.remaining.Some? && s.remaining.value <= |chunk + rest| {
      var n := s.remaining.value;
      DropTwice(chunk, rest, take, n);
      assert [] + (chunk[take..] + rest) == chunk[take..] + rest;
      assert (chunk[take..] + rest)[0..] == chunk[take..] + rest;
    }
  }

  lemma {:induction false} DropTwice(chunk: seq<Byte>, rest: seq<Byte>, take: nat, n: nat)
    requires take <= |chunk| && take <= n <= |chunk| + |rest|
    ensures (chunk[take..] + rest)[n - take..] == (chunk + rest)[n..]
    ensures chunk[..take] + (chunk[take..] + rest)[..n - take] == (chunk + rest)[..n]
    ensures chunk[..take] + (chunk[take..] + rest) == chunk + rest
  {
  }

  /** Consuming part of the moov box: its bytes are kept, and read at its end. */
  lemma {:induction false} KeepStep(parse: Parser, read: Reader, s: Scan, s': Scan, chunk: seq<Byte>, take: nat, rest: seq<Byte>)
    requires WellFormed(s) && !s.invalid && s.remaining != Some(0) && s.moov.Some?
    requires take <= |chunk| && (s.remaining.Some? ==> take <= s.remaining.value)
    requires s'.boxes == s.boxes && s'.header == [] && !s'.invalid
    requires s'.remaining == if s.remaining.None? then None else Some(s.remaining.value - take)
    requires s'.remaining != Some(0) ==>
               s'.moov.Some? && Flatten(s'.moov.value) == Flatten(s.moov.value) + chunk[..take]
    requires s'.remaining == Some(0) ==>
               s'.moov.None? && s'.durationMs == read(Flatten(s.moov.value) + chunk[..take])
    ensures AnswerBy(parse, read, s', chunk[take..] + rest) == AnswerBy(parse, read, s, chunk + rest)
  {
    var m := Flatten(s.moov.value);
    if s.remaining.None? {
      DropTwice(chunk, rest, take, |chunk| + |rest|);
      AppendAssoc(m, chunk[..take], chunk[take..] + rest);
    } else if s.remaining.value <= |chunk + rest| {
      var n := s.remaining.value;
      DropTwice(chunk, rest, take, n);
      AppendAssoc(m, chunk[..take], (chunk[take..] + rest)[..n - take]);
      if n == take {
        assert (chunk[take..] + rest)[..0] == [] && chunk[..take] + [] == chunk[..take];
        assert (chunk[take..] + rest)[0..] == chunk[take..] + rest == [] + (chunk[take..] + rest);
      }
    }
  }

  /** Whether these header bytes are a complete box header. */
  predicate HeaderComplete(h: seq<Byte>) {
    8 <= |h| && |h| == HeaderSize(U32(h, 0))
  }

  /** A complete header reads the same whatever follows it. */
  lemma {:induction false} HeaderView(h: seq<Byte>, rest: seq<Byte>)
    requires HeaderComplete(h)
    ensures var b := h + rest;
      && U32(b, 0) == U32(h, 0)
      && DeclaredSize(b) == DeclaredSize(h)
      && b[4..8] == h[4..8]
      && b[|h|..] == rest
  {
  }

  /** What follows a header that declares this kind and size. */
  ghost function ParseBody(parse: Parser, read: Reader, hs: nat, kind: seq<Byte>, toEnd: bool, size: nat,
                           rest: seq<Byte>, first: bool, last: Option<nat>): Option<nat> {
    var moov := kind == MOOV;
    if first && kind != FTYP then None
    else if toEnd then
      if !moov then last else if |rest| > MAX_MOOV_BYTES then None else read(rest)
    else if size > MAX_SAFE_INTEGER || size < hs || (moov && size - hs > MAX_MOOV_BYTES) || |rest| < size - hs then None
    else parse(rest[size - hs..], false, if moov then read(rest[..size - hs]) else last)
  }

  /** The first box of a file whose header is complete. */
  lemma {:induction false} FirstBoxIs(read: Reader, h: seq<Byte>, rest: seq<Byte>, first: bool, last: Option<nat>)
    requires HeaderComplete(h)
    ensures var kind, size, moov := h[4..8], DeclaredSize(h), h[4..8] == MOOV;
      FirstFileBox(read, h + rest, first, last) ==
        if first && kind != FTYP then Answered(None)
        else if U32(h, 0) == 0 then
          Answered(if !moov then last else if |rest| > MAX_MOOV_BYTES then None else read(rest))
        else if size > MAX_SAFE_INTEGER || size < |h| || (moov && size - |h| > MAX_MOOV_BYTES) || |rest| < size - |h| then Answered(None)
        else BoxEnds(size, if moov then read(rest[..size - |h|]) else last)
  {
    HeaderView(h, rest);
    var size := DeclaredSize(h);
    if |h| <= size <= |h| + |rest| {
      SliceAppend(h, rest, size);
    }
  }

  lemma {:induction false} ParseHeader(parse: Parser, read: Reader, h: seq<Byte>, rest: seq<Byte>, first: bool, last: Option<nat>)
    requires HeaderComplete(h)
    requires forall b, f, l :: parse(b, f, l) == WalkFile(read, b, f, l)
    ensures WalkFile(read, h + rest, first, last)
         == ParseBody(parse, read, |h|, h[4..8], U32(h, 0) == 0, DeclaredSize(h), rest, first, last)
  {
    FirstBoxIs(read, h, rest, first, last);
    var size := DeclaredSize(h);
    if |h| <= size <= |h| + |rest| {
      SliceAppend(h, rest, size);
    }
  }

  /** The state a complete header leads to. */
  function Started(read: Reader, hs: nat, kind: seq<Byte>, toEnd: bool, size: nat, boxes: nat, last: Option<nat>): Scan {
    var moov := kind == MOOV;
    var bad := Scan([], Some(0), boxes, None, last, true);
    if boxes == 0 && kind != FTYP then bad
    else if toEnd then Scan([], None, boxes + 1, if moov then Some([]) else None, last, false)
    else if size > MAX_SAFE_INTEGER || size < hs || (moov && size - hs > MAX_MOOV_BYTES) then bad
    else if moov && size == hs then Scan([], Some(0), boxes + 1, None, read([]), false)
    else Scan([], Some(size - hs), boxes + 1, if moov then Some([]) else None, last, false)
  }

  /** Starting a box changes no answer. */
  lemma {:induction false} StartStep(parse: Parser, read: Reader, hs: nat, kind: seq<Byte>, toEnd: bool, size: nat, boxes: nat, last: Option<nat>, rest: seq<Byte>)
    ensures AnswerBy(parse, read, Started(read, hs, kind, toEnd, size, boxes, last), rest)
         == ParseBody(parse, read, hs, kind, toEnd, size, rest, boxes == 0, last)
  {
    assert [] + rest == rest && rest[0..] == rest && rest[..0] == [];
    if !toEnd && hs <= size <= hs + |rest| {
      assert [] + rest[..size - hs] == rest[..size - hs];
    }
  }

  /** The boxes at an offset are those of the suffix. */
  lemma {:induction false} SuffixView(b: seq<Byte>, k: nat)
    requires k + 8 <= |b|
    ensures U32(b[k..], 0) == U32(b, k)
    ensures k + 16 <= |b| ==> U64(b[k..], 8) == U64(b, k + 8)
    ensures b[k..][4..8] == b[k + 4..k + 8]
  {
  }

  function MoovBoxSize(moov: seq<Byte>, offset: nat): nat
    requires offset + 8 <= |moov| && offset + HeaderSize(U32(moov, offset)) <= |moov|
  {
    if U32(moov, offset) == 1 then U64(moov, offset + 8)
    else if U32(moov, offset) == 0 then |moov| - offset
    else U32(moov, offset)
  }

  /** One box of a moov, by offset. */
  lemma {:induction false} MoovStep(mvhd: Reader, moov: seq<Byte>, offset: nat, hs: nat, size: nat)
    requires offset + 8 <= |moov|
    requires hs == HeaderSize(U32(moov, offset))
    requires offset + hs <= |moov|
    requires size == MoovBoxSize(moov, offset)
    ensures FirstMoovBox(mvhd, moov[offset..]) ==
      if size > MAX_SAFE_INTEGER || size < hs || offset + size > |moov| then Answered(None)
      else if moov[offset + 4..offset + 8] == MVHD then Answered(mvhd(moov[offset + hs..offset + size]))
      else BoxEnds(size, None)
    ensures size <= |moov| - offset ==> moov[offset..][size..] == moov[offset + size..]
  {
    SuffixView(moov, offset);
    if size <= |moov| - offset {
      SliceDrop(moov, offset, size, size);
      if hs <= size {
        SliceDrop(moov, offset, hs, size);
      }
    }
  }

  lemma {:induction false} MoovTooShort(mvhd: Reader, moov: seq<Byte>, offset: nat)
    requires offset <= |moov|
    requires offset + 8 > |moov| || offset + HeaderSize(U32(moov, offset)) > |moov|
    ensures FirstMoovBox(mvhd, moov[offset..]) == Answered(None)
  {
  }

  /** The same for the duration. */
  lemma {:induction false} MoovStepDuration(mvhd: Reader, moov: seq<Byte>, offset: nat, hs: nat, size: nat, goal: Option<nat>)
    requires offset + 8 <= |moov|
    requires hs == HeaderSize(U32(moov, offset))
    requires offset + hs <= |moov|
    requires size == MoovBoxSize(moov, offset)
    requires WalkMoov(mvhd, moov[offset..]) == goal
    ensures goal ==
      if size > MAX_SAFE_INTEGER || size < hs || offset + size > |moov| then None
      else if moov[offset + 4..offset + 8] == MVHD then mvhd(moov[offset + hs..offset + size])
      else WalkMoov(mvhd, moov[offset + size..])
  {
    MoovStep(mvhd, moov, offset, hs, size);
  }

  /** The header and total size of the box at an offset, if its header is complete. */
  method ReadBoxSize(moov: seq<Byte>, offset: nat) returns (headerSize: nat, size: nat)
    requires offset + 8 <= |moov|
    ensures headerSize == HeaderSize(U32(moov, offset)) >= 8
    ensures offset + headerSize <= |moov| ==> size == MoovBoxSize(moov, offset)
  {
    var size32 := U32(moov, offset);
    headerSize := if size32 == 1 then 16 else 8;
    size := size32;
    if size32 == 1 {
      if offset + headerSize <= |moov| {
        size := U64(moov, offset + 8);
      }
    } else if size32 == 0 {
      size := |moov| - offset;
    }
  }

  /** The box at an offset: it decides, or the walk goes on behind it. */
  method ReadMoovBox(mvhd: Reader, moov: seq<Byte>, offset: nat, ghost goal: Option<nat>) returns (r: Outcome)
    requires offset + 8 <= |moov| && WalkMoov(mvhd, moov[offset..]) == goal
    ensures r.Answered? ==> r.answer == goal
    ensures r.BoxEnds? ==> offset < r.at <= |moov| && WalkMoov(mvhd, moov[r.at..]) == goal
  {
    var headerSize, size := ReadBoxSize(moov, offset);
    if offset + headerSize > |moov| {
      MoovTooShort(mvhd, moov, offset);
      return Answered(None);
    }
    MoovStepDuration(mvhd, moov, offset, headerSize, size, goal);
    if size > MAX_SAFE_INTEGER || size < headerSize || offset + size > |moov| {
      return Answered(None);
    }
    if moov[offset + 4..offset + 8] == MVHD {
      return Answered(mvhd(moov[offset + headerSize..offset + size]));
    }
    return BoxEnds(offset + size, None);
  }

  /** The first mvhd box, found by walking offsets. */
  method FindMvhd(mvhd: Reader, moov: seq<Byte>) returns (r: Option<nat>)
    ensures r == WalkMoov(mvhd, moov)
  {
    var offset := 0;
    ghost var goal := WalkMoov(mvhd, moov);
    assert moov[0..] == moov;
    while offset + 8 <= |moov|
      invariant offset <= |moov|
      invariant WalkMoov(mvhd, moov[offset..]) == goal
      decreases |moov| - offset
    {
      var box := ReadMoovBox(mvhd, moov, offset, goal);
      if box.Answered? {
        return box.answer;
      }
      offset := box.at;
    }
    MoovTooShort(mvhd, moov, offset);
    r := None;
  }

  method ReadMvhdDuration(moov: seq<Byte>) returns (r: Option<nat>)
    ensures r == MoovDuration(moov)
  {
    r := FindMvhd(MvhdDuration, moov);
  }

  class Inspector {
    var header: seq<Byte>
    var remaining: Option<nat>
    var boxes: nat
    var moov: Option<seq<seq<Byte>>>
    var moovBytes: nat
    var durationMs: Option<nat>
    var invalid: bool
    ghost var seen: seq<Byte>

    ghost function View(): Scan
      reads this
    {
      Scan(header, remaining, boxes, moov, durationMs, invalid)
    }

    /** Well formed: in particular, at most a header and one moov are buffered. */
    ghost predicate Consistent()
      reads this
    {
      && WellFormed(View())
      && (!invalid && moov.Some? ==> moovBytes == |Flatten(moov.value)|)
    }

    /** ... and whatever follows, the answer will be the whole-file answer. */
    ghost predicate Valid()
      reads this
    {
      Consistent() && Agrees(View(), [], seen)
    }

    constructor ()
      ensures Valid() && seen == []
    {
      header, remaining, boxes, moov, moovBytes, durationMs, invalid := [], Some(0), 0, None, 0, None, false;
      seen := [];
      new;
      forall rest ensures AgreesOn(View(), [], seen, rest) {
        assert [] + ([] + rest) == [] + rest;
      }
    }

    /** Concatenate the buffered parts and read the duration. */
    method EndMoov()
      requires moov.Some?
      modifies this`moov, this`durationMs
      ensures moov.None? && durationMs == MoovDuration(Flatten(old(moov).value))
    {
      var data: seq<Byte> := [];
      var i := 0;
      while i < |moov.value|
        invariant 0 <= i <= |moov.value|
        invariant moov == old(moov)
        invariant data + Flatten(moov.value[i..]) == Flatten(moov.value)
      {
        assert Flatten(moov.value[i..]) == moov.value[i] + Flatten(moov.value[i + 1..]);
        data := data + moov.value[i];
        i := i + 1;
      }
      assert data == Flatten(moov.value);
      moov := None;
      var d := ReadMvhdDuration(data);
      durationMs := d;
    }

    /** Interpret a complete header. */
    method StartBox()
      requires !invalid && remaining == Some(0) && moov.None? && HeaderComplete(header)
      modifies this
      ensures seen == old(seen) && (moov.Some? ==> moovBytes == 0)
      ensures var h := old(header);
        var z := Started(MoovDuration, |h|, h[4..8], U32(h, 0) == 0, DeclaredSize(h), old(boxes), old(durationMs));
        if invalid then z.invalid else View() == z
    {
      var size32 := U32(header, 0);
      var kind := header[4..8];
      var headerSize := if size32 == 1 then 16 else 8;
      var size := if size32 == 1 then U64(header, 8) else size32;
      header := [];
      if boxes == 0 && kind != FTYP {
        invalid := true;
      } else {
        boxes := boxes + 1;
        if size32 != 0 && (size > MAX_SAFE_INTEGER || size < headerSize) {
          invalid := true;
        } else {
          remaining := if size32 == 0 then None else Some(size - headerSize);
          if kind == MOOV {
            if remaining.Some? && remaining.value > MAX_MOOV_BYTES {
              invalid := true;
            } else {
              moov, moovBytes := Some([]), 0;
              if remaining == Some(0) {
                EndMoov();
              }
            }
          }
        }
      }
    }

    /** Collect header bytes; start the box once the header is complete. */
    method ReadHeader(chunk: seq<Byte>, ghost whole: seq<Byte>) returns (left: seq<Byte>)
      requires Consistent() && !invalid && remaining == Some(0) && |chunk| > 0
      requires Agrees(View(), chunk, whole)
      modifies this
      ensures Consistent() && seen == old(seen) && |left| < |chunk|
      ensures Agrees(View(), left, whole)
    {
      ghost var before := View();
      var need := if |header| >= 8 && U32(header, 0) == 1 then 16 else 8;
      var take := Min(need - |header|, |chunk|);
      header := header + chunk[..take];
      left := chunk[take..];
      assert need == 16 ==> U32(header, 0) == U32(before.header, 0);
      forall rest ensures header + (left + rest) == before.header + (chunk + rest) {
        assert chunk[..take] + (left + rest) == chunk + rest;
      }
      AgreesAfterHeader(before, chunk, header, left, whole);
      if |header| < need {
        return;
      }
      if need == 8 && U32(header, 0) == 1 {
        return;
      }
      ghost var ready := View();
      StartBox();
      forall rest ensures AgreesOn(View(), left, whole, rest) {
        var h := ready.header;
        ParseHeader(ParseFile, MoovDuration, h, left + rest, ready.boxes == 0, ready.durationMs);
        StartStep(ParseFile, MoovDuration, |h|, h[4..8], U32(h, 0) == 0, DeclaredSize(h), ready.boxes, ready.durationMs, left + rest);
        assert AgreesOn(ready, left, whole, rest);
      }
    }

    /** Take what the chunk holds of the current box. */
    method ReadBody(chunk: seq<Byte>, ghost whole: seq<Byte>) returns (left: seq<Byte>)
      requires Consistent() && !invalid && remaining != Some(0) && |chunk| > 0
      requires Agrees(View(), chunk, whole)
      modifies this
      ensures Consistent() && seen == old(seen) && |left| < |chunk|
      ensures Agrees(View(), left, whole)
    {
      ghost var before := View();
      var take := if remaining.Some? then Min(remaining.value, |chunk|) else |chunk|;
      left := chunk[take..];
      if moov.Some? {
        FlattenAppend(moov.value, [chunk[..take]]);
        assert Flatten([chunk[..take]]) == chunk[..take];
        moov := Some(moov.value + [chunk[..take]]);
        moovBytes := moovBytes + take;
        if moovBytes > MAX_MOOV_BYTES {
          invalid := true;
          TooLarge(before, chunk, left, View(), whole);
          return;
        }
      }
      if remaining.Some? {
        remaining := Some(remaining.value - take);
      }
      if remaining == Some(0) && moov.Some? {
        EndMoov();
      }
      forall rest ensures AgreesOn(View(), left, whole, rest) {
        if before.moov.Some? {
          KeepStep(ParseFile, MoovDuration, before, View(), chunk, take, rest);
        } else {
          SkipStep(ParseFile, MoovDuration, before, View(), chunk, take, rest);
        }
        assert AgreesOn(before, chunk, whole, rest);
      }
    }

    /** How many bytes are held: at most a header and one moov. */
    ghost function Buffered(): nat
      reads this
    {
      |header| + if moov.Some? then |Flatten(moov.value)| else 0
    }

    /** Take a chunk of the file. */
    method Update(data: seq<Byte>)
      requires Valid()
      modifies this
      ensures Valid() && seen == old(seen) + data
      ensures !invalid ==> Buffered() <= 16 + MAX_MOOV_BYTES
    {
      var chunk := data;
      ghost var whole := seen + data;
      AgreesAtStart(View(), seen, data);
      while |chunk| > 0 && !invalid
        invariant Consistent() && seen == old(seen)
        invariant Agrees(View(), chunk, whole)
        decreases |chunk|
      {
        if remaining == Some(0) {
          chunk := ReadHeader(chunk, whole);
        } else {
          chunk := ReadBody(chunk, whole);
        }
      }
      seen := whole;
      AgreesAtEnd(View(), chunk, whole);
    }

    /** The answer once the last chunk was seen: exactly the whole-file answer. */
    method Finish() returns (r: Option<nat>)
      requires Valid()
      modifies this`moov, this`durationMs
      ensures r == ParseFile(seen, true, None)
    {
      ghost var nothing: seq<Byte> := [];
      assert [] + nothing == nothing && seen + nothing == seen;
      assert AgreesOn(View(), [], seen, nothing);
      ghost var before := View();
      if moov.Some? && remaining.None? {
        assert Flatten(moov.value) + [] == Flatten(moov.value);
        EndMoov();
      }
      if invalid || header != [] || (remaining != Some(0) && remaining.Some?) || durationMs.None? {
        assert header + [] == header;
        r := None;
      } else {
        assert header + [] == [];
        r := durationMs;
      }
    }
  }

  /** Feed a file in any chunks: the answer and the buffering do not depend on
      the chunking, and a movie answers with the whole milliseconds it lasts. */
  method Inspect(chunks: seq<seq<Byte>>) returns (r: Option<nat>)
    ensures r == ParseFile(Flatten(chunks), true, None)
    ensures forall m :: Filmed(m) && Flatten(chunks) == PrintMovie(m) ==> WholeMillis(r, m.duration, m.timescale)
  {
    var inspector := new Inspector();
    var i := 0;
    assert chunks[0..] == chunks;
    while i < |chunks|
      invariant 0 <= i <= |chunks|
      invariant inspector.Valid() && fresh(inspector)
      invariant inspector.seen + Flatten(chunks[i..]) == Flatten(chunks)
    {
      assert Flatten(chunks[i..]) == chunks[i] + Flatten(chunks[i + 1..]);
      inspector.Update(chunks[i]);
      i := i + 1;
    }
    assert inspector.seen == Flatten(chunks);
    r := inspector.Finish();
    forall m | Filmed(m) && Flatten(chunks) == PrintMovie(m) ensures WholeMillis(r, m.duration, m.timescale) {
      MovieRoundTrip(m);
    }
  }

  // ----- bookkeeping for the loop -----

  lemma {:induction false} AgreesAtStart(s: Scan, seen: seq<Byte>, data: seq<Byte>)
    requires Agrees(s, [], seen)
    ensures Agrees(s, data, seen + data)
  {
    forall rest ensures AgreesOn(s, data, seen + data, rest) {
      assert AgreesOn(s, [], seen, data + rest);
      assert [] + (data + rest) == data + rest;
      AppendAssoc(seen, data, rest);
    }
  }

  /** Moving bytes from the chunk into the header changes nothing. */
  lemma {:induction false} AgreesAfterHeader(s: Scan, chunk: seq<Byte>, header: seq<Byte>, left: seq<Byte>, whole: seq<Byte>)
    requires !s.invalid && s.remaining == Some(0)
    requires Agrees(s, chunk, whole)
    requires forall rest :: header + (left + rest) == s.header + (chunk + rest)
    ensures Agrees(s.(header := header), left, whole)
  {
    forall rest ensures AgreesOn(s.(header := header), left, whole, rest) {
      assert AgreesOn(s, chunk, whole, rest);
    }
  }

  /** A moov that outgrows its limit has no answer. */
  lemma {:induction false} TooLarge(s: Scan, chunk: seq<Byte>, left: seq<Byte>, z: Scan, whole: seq<Byte>)
    requires WellFormed(s) && !s.invalid && s.moov.Some? && z.invalid
    requires Agrees(s, chunk, whole)
    requires |Flatten(s.moov.value)| + (if s.remaining.Some? then Min(s.remaining.value, |chunk|) else |chunk|) > MAX_MOOV_BYTES
    ensures Agrees(z, left, whole)
  {
    forall rest ensures AgreesOn(z, left, whole, rest) {
      assert AgreesOn(s, chunk, whole, rest);
    }
  }

  /** Once the chunk is used up, or the file is already invalid, agreement no
      longer depends on what was left of it. */
  lemma {:induction false} AgreesAtEnd(s: Scan, chunk: seq<Byte>, whole: seq<Byte>)
    requires Agrees(s, chunk, whole) && (chunk == [] || s.invalid)
    ensures Agrees(s, [], whole)
  {
    forall rest ensures AgreesOn(s, [], whole, rest) {
      assert AgreesOn(s, chunk, whole, rest);
      if chunk == [] {
        assert chunk + rest == [] + rest;
      }
    }
  }
}
