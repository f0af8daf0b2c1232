/**
 Event streams as they are written: blocks of lines, each a field or something else.
 Reading inverts writing, so the reader's fields are those of the text.
 */
module SseFormat {
  import opened Wrappers
  import opened SseReader

  /** A line of a block: a name, a line of data, or one that is neither. */
  datatype Line = Name(text: string) | Data(text: string) | Other(text: string)

  predicate OneLine(s: string) {
    forall i :: 0 <= i < |s| ==> s[i] != '\r' && s[i] != '\n'
  }

  ghost predicate Written(l: Line) {
    && OneLine(l.text)
    && (l.Other? ==> l.text != "" && !("event: " <= l.text) && !("data: " <= l.text))
  }

  function LineText(l: Line): string {
    match l
    case Name(text) => "event: " + text
    case Data(text) => "data: " + text
    case Other(text) => text
  }

  function BlockText(ls: seq<Line>): string
    requires ls != []
  {
    if |ls| == 1 then LineText(ls[0]) else LineText(ls[0]) + ("\n" + BlockText(ls[1..]))
  }

  ghost predicate Block(ls: seq<Line>) {
    ls != [] && forall i :: 0 <= i < |ls| ==> Written(ls[i])
  }

  ghost predicate Blocks(bs: seq<seq<Line>>) {
    forall i :: 0 <= i < |bs| ==> Block(bs[i])
  }

  function StreamText(bs: seq<seq<Line>>): string
    requires forall i :: 0 <= i < |bs| ==> bs[i] != []
  {
    if bs == [] then "" else BlockText(bs[0]) + ("\n\n" + StreamText(bs[1..]))
  }

  // ----- what a block says -----

  /** The name given last, if any. */
  function LastName(ls: seq<Line>): Option<string> {
    if ls == [] then None
    else
      var l := ls[|ls| - 1];
      if l.Name? then Some(l.text) else LastName(ls[..|ls| - 1])
  }

  /** All data, one line under the other, if there is any. */
  function AllData(ls: seq<Line>): Option<string> {
    if ls == [] then None
    else
      var l, before := ls[|ls| - 1], AllData(ls[..|ls| - 1]);
      if !l.Data? then before
      else Some(if before.None? then l.text else before.value + "\n" + l.text)
  }

  /** A block with data is one event; any other block is none. */
  function Says(ls: seq<Line>): seq<SseEvent> {
    if AllData(ls).None? then [] else [SseEvent(LastName(ls), AllData(ls).value)]
  }

  function AllSaid(bs: seq<seq<Line>>): seq<SseEvent> {
    if bs == [] then [] else Says(bs[0]) + AllSaid(bs[1..])
  }

  // ----- reading inverts writing -----

  function Texts(ls: seq<Line>): seq<string> {
    if ls == [] then [] else [LineText(ls[0])] + Texts(ls[1..])
  }

  lemma {:induction false} LineIsOneLine(l: Line)
    requires Written(l)
    ensures OneLine(LineText(l)) && LineText(l) != ""
  {
  }

  lemma {:induction false} LinesOfOne(s: string)
    requires OneLine(s)
    ensures Lines(s) == [s]
  {
    if s != "" {
      LinesOfOne(s[1..]);
      assert [s[0]] + s[1..] == s;
    }
  }

  lemma {:induction false} LinesBehind(s: string, rest: string)
    requires OneLine(s)
    ensures Lines(s + ("\n" + rest)) == [s] + Lines(rest)
  {
    var all := s + ("\n" + rest);
    if s == "" {
      assert all == "\n" + rest && all[1..] == rest;
    } else {
      assert all[1..] == s[1..] + ("\n" + rest);
      LinesBehind(s[1..], rest);
      var behind := Lines(all[1..]);
      assert behind[0] == s[1..] && behind[1..] == Lines(rest);
      assert [s[0]] + s[1..] == s;
    }
  }

  lemma {:induction false} LinesOfBlock(ls: seq<Line>)
    requires Block(ls)
    ensures Lines(BlockText(ls)) == Texts(ls)
  {
    LineIsOneLine(ls[0]);
    if |ls| == 1 {
      LinesOfOne(LineText(ls[0]));
      assert Texts(ls) == [LineText(ls[0])] + Texts(ls[1..]);
    } else {
      LinesOfBlock(ls[1..]);
      LinesBehind(LineText(ls[0]), BlockText(ls[1..]));
    }
  }

  lemma {:induction false} FieldOf(l: Line)
    requires Written(l)
    ensures var s := LineText(l);
      && (EVENT_PREFIX <= s <==> l.Name?) && (DATA_PREFIX <= s <==> l.Data?)
      && (l.Name? ==> s[|EVENT_PREFIX|..] == l.text) && (l.Data? ==> s[|DATA_PREFIX|..] == l.text)
  {
    var s := LineText(l);
    if l.Name? {
      assert s[0] == 'e';
    } else if l.Data? {
      assert s[0] == 'd';
    }
  }

  /** The data lines of the block, in order. */
  function DataOf(ls: seq<Line>): seq<string> {
    if ls == [] then [] else (if ls[0].Data? then [ls[0].text] else []) + DataOf(ls[1..])
  }

  lemma {:induction false} DataLinesAre(ls: seq<Line>)
    requires forall i :: 0 <= i < |ls| ==> Written(ls[i])
    ensures DataLines(Texts(ls)) == DataOf(ls)
  {
    if ls != [] {
      FieldOf(ls[0]);
      DataLinesAre(ls[1..]);
      assert Texts(ls)[1..] == Texts(ls[1..]);
    }
  }

  lemma {:induction false} NameIs(ls: seq<Line>, found: Option<string>)
    requires forall i :: 0 <= i < |ls| ==> Written(ls[i])
    ensures EventName(Texts(ls), found) == if LastName(ls).Some? then LastName(ls) else found
  {
    if ls != [] {
      FieldOf(ls[0]);
      NameIs(ls[1..], if ls[0].Name? then Some(ls[0].text) else found);
      assert Texts(ls)[1..] == Texts(ls[1..]);
      LastNameCons(ls);
    }
  }

  lemma {:induction false} LastNameCons(ls: seq<Line>)
    requires ls != []
    ensures LastName(ls) ==
      if LastName(ls[1..]).Some? then LastName(ls[1..]) else if ls[0].Name? then Some(ls[0].text) else None
  {
    var n := |ls| - 1;
    if n > 0 && !ls[n].Name? {
      LastNameCons(ls[..n]);
      assert ls[..n][1..] == ls[1..][..n - 1];
    } else if n == 0 {
      assert ls[..0] == [];
    }
  }

  lemma {:induction false} JoinSnoc(ds: seq<string>, d: string)
    requires ds != []
    ensures Join(ds + [d]) == Join(ds) + "\n" + d
  {
    if |ds| == 1 {
      assert (ds + [d])[1..] == [d];
    } else {
      assert (ds + [d])[1..] == ds[1..] + [d];
      JoinSnoc(ds[1..], d);
    }
  }

  lemma {:induction false} DataOfSnoc(ls: seq<Line>, l: Line)
    ensures DataOf(ls + [l]) == DataOf(ls) + if l.Data? then [l.text] else []
  {
    if ls == [] {
      assert ls + [l] == [l] && [l][1..] == [];
    } else {
      assert (ls + [l])[1..] == ls[1..] + [l];
      DataOfSnoc(ls[1..], l);
    }
  }

  lemma {:induction false} JoinedData(ls: seq<Line>)
    ensures AllData(ls) == if DataOf(ls) == [] then None else Some(Join(DataOf(ls)))
    decreases |ls|
  {
    if ls != [] {
      var n := |ls| - 1;
      JoinedData(ls[..n]);
      assert ls == ls[..n] + [ls[n]];
      DataOfSnoc(ls[..n], ls[n]);
      var ds := DataOf(ls[..n]);
      if ls[n].Data? {
        if ds != [] {
          JoinSnoc(ds, ls[n].text);
        } else {
          assert ds + [ls[n].text] == [ls[n].text];
        }
      } else {
        AppendEmpty(ds);
      }
    }
  }

  lemma {:induction false} BlockReads(ls: seq<Line>)
    requires Block(ls)
    ensures BlockEvents(BlockText(ls)) == Says(ls)
  {
    LinesOfBlock(ls);
    DataLinesAre(ls);
    NameIs(ls, None);
    JoinedData(ls);
  }

  /** No blank line inside, and no line end at the end. */
  ghost predicate Solid(s: string) {
    && (s != "" ==> s[|s| - 1] != '\n')
    && forall i :: 0 <= i < |s| - 1 ==> !(s[i] == '\n' && s[i + 1] == '\n')
  }

  lemma {:induction false} TailSolid(s: string)
    requires Solid(s) && s != ""
    ensures Solid(s[1..])
  {
    forall i | 0 <= i < |s| - 2 ensures !(s[1..][i] == '\n' && s[1..][i + 1] == '\n') {
      assert s[1..][i] == s[i + 1] && s[1..][i + 1] == s[i + 2];
    }
  }

  lemma {:induction false} SplitSolid(s: string, rest: string)
    requires Solid(s)
    ensures var p := Split(rest); Split(s + ("\n\n" + rest)) == Parsed([s] + p.blocks, p.remainder)
  {
    var all := s + ("\n\n" + rest);
    if s == "" {
      assert all == "\n\n" + rest && all[2..] == rest;
    } else {
      assert all[1..] == s[1..] + ("\n\n" + rest);
      assert |s| > 1 ==> all[1] == s[1];
      TailSolid(s);
      SplitSolid(s[1..], rest);
      assert [s[0]] + s[1..] == s;
    }
  }

  lemma {:induction false} SplitOneLine(s: string)
    requires OneLine(s)
    ensures Split(s) == Parsed([], s)
  {
    if |s| >= 2 {
      SplitOneLine(s[1..]);
    }
  }

  lemma {:induction false} SolidJoin(a: string, b: string)
    requires OneLine(a) && a != "" && Solid(b) && b != "" && b[0] != '\n'
    ensures Solid(a + ("\n" + b))
  {
    var s := a + ("\n" + b);
    forall i | 0 <= i < |s| - 1 ensures !(s[i] == '\n' && s[i + 1] == '\n') {
      if i > |a| {
        assert s[i] == b[i - |a| - 1] && s[i + 1] == b[i - |a|];
      }
    }
  }

  lemma {:induction false} BlockIsSolid(ls: seq<Line>)
    requires Block(ls)
    ensures var s := BlockText(ls); Solid(s) && s != "" && s[0] != '\n' && NoCr(s)
  {
    LineIsOneLine(ls[0]);
    if |ls| > 1 {
      BlockIsSolid(ls[1..]);
      SolidJoin(LineText(ls[0]), BlockText(ls[1..]));
    }
  }

  lemma {:induction false} NoPairs(s: string)
    requires NoCr(s)
    ensures Collapse(s) == s
  {
    if s != "" {
      NoPairs(s[1..]);
    }
  }

  lemma {:induction false} StreamSplits(bs: seq<seq<Line>>, rest: string)
    requires Blocks(bs) && OneLine(rest)
    ensures var p := Split(StreamText(bs) + rest); Events(p.blocks) == AllSaid(bs) && p.remainder == rest
  {
    if bs == [] {
      assert "" + rest == rest;
      SplitOneLine(rest);
    } else {
      StreamSplits(bs[1..], rest);
      BlockIsSolid(bs[0]);
      BlockReads(bs[0]);
      SplitSolid(BlockText(bs[0]), StreamText(bs[1..]) + rest);
      assert StreamText(bs) + rest == BlockText(bs[0]) + ("\n\n" + (StreamText(bs[1..]) + rest));
    }
  }

  predicate NoCr(s: string) {
    forall i :: 0 <= i < |s| ==> s[i] != '\r'
  }

  lemma {:induction false} StreamNoCr(bs: seq<seq<Line>>)
    requires Blocks(bs)
    ensures NoCr(StreamText(bs))
  {
    if bs != [] {
      StreamNoCr(bs[1..]);
      BlockIsSolid(bs[0]);
    }
  }

  /** Reading a written stream, with a line begun behind it, gives for each block with data
      one event, named by its last name and with its data lines one under the other, and
      leaves the line begun. */
  lemma {:induction false} ReadsBack(bs: seq<seq<Line>>, rest: string)
    requires Blocks(bs) && OneLine(rest)
    ensures var p := Parse(StreamText(bs) + rest); Events(p.blocks) == AllSaid(bs) && p.remainder == rest
  {
    StreamSplits(bs, rest);
    StreamNoCr(bs);
    NoPairs(StreamText(bs) + rest);
  }

  // ----- the encoder -----

  /** What the gateway writes for an event: its name, if it has one, and its data. */
  function Encoded(e: SseEvent): seq<Line> {
    (if e.event.Some? && e.event.value != "" then [Name(e.event.value)] else []) + [Data(e.data)]
  }

  function EncodedAll(es: seq<SseEvent>): seq<seq<Line>> {
    if es == [] then [] else [Encoded(es[0])] + EncodedAll(es[1..])
  }

  /** Events on single lines, of which none has an empty name, come back from the encoder. */
  lemma {:induction false} EncodedComesBack(es: seq<SseEvent>)
    requires forall i :: 0 <= i < |es| ==> OneLine(es[i].data) && (es[i].event.Some? ==> es[i].event.value != "" && OneLine(es[i].event.value))
    ensures Blocks(EncodedAll(es))
    ensures Parse(StreamText(EncodedAll(es))).remainder == "" && Events(Parse(StreamText(EncodedAll(es))).blocks) == es
  {
    EncodedSays(es);
    ReadsBack(EncodedAll(es), "");
    AppendEmpty(StreamText(EncodedAll(es)));
  }

  lemma {:induction false} EncodedOne(e: SseEvent)
    requires e.event.Some? ==> e.event.value != ""
    ensures Says(Encoded(e)) == [e]
  {
    var ls := Encoded(e);
    var names := ls[..|ls| - 1];
    assert names == if e.event.Some? then [Name(e.event.value)] else [];
    assert names != [] ==> names[..0] == [];
    assert AllData(names) == None && LastName(names) == e.event;
  }

  lemma {:induction false} EncodedSays(es: seq<SseEvent>)
    requires forall i :: 0 <= i < |es| ==> OneLine(es[i].data) && (es[i].event.Some? ==> es[i].event.value != "" && OneLine(es[i].event.value))
    ensures Blocks(EncodedAll(es)) && AllSaid(EncodedAll(es)) == es
  {
    if es != [] {
      EncodedSays(es[1..]);
      EncodedOne(es[0]);
      assert EncodedAll(es)[1..] == EncodedAll(es[1..]);
    }
  }
}
