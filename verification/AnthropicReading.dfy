/**
 Normalizing any Anthropic frames, told by the history of frames: which events each
 frame becomes, and what the done event repeats.
 */
module AnthropicReading {
  import opened Wrappers
  import opened CanonicalStream
  import opened Transducer
  import opened AnthropicStream

  // ----- what the frames so far say -----

  /** The id and the model of the last message start. */
  function IdOf(fs: seq<Frame>): string {
    if fs == [] then ""
    else if fs[|fs| - 1].MessageStart? then fs[|fs| - 1].id
    else IdOf(fs[..|fs| - 1])
  }

  function ModelOf(fallback: Option<string>, fs: seq<Frame>): string {
    if fs == [] then (if fallback.Some? then fallback.value else "unknown")
    else if fs[|fs| - 1].MessageStart? then fs[|fs| - 1].model
    else ModelOf(fallback, fs[..|fs| - 1])
  }

  /** The reason of the last message delta; "stop" when it gives none. */
  function FinishOf(fs: seq<Frame>): string {
    if fs == [] then "stop"
    else if fs[|fs| - 1].MessageDelta? then
      var reason := FromStopReason(fs[|fs| - 1].stopReason);
      if reason.Some? then reason.value else "stop"
    else FinishOf(fs[..|fs| - 1])
  }

  /** The tool block that a frame starts or feeds. */
  function Mentioned(f: Frame): Option<nat> {
    match f
    case BlockStart(block, ToolUse(_, _)) => Some(block)
    case BlockDelta(block, JsonChunk(_)) => Some(block)
    case _ => None
  }

  /** The tool blocks in order of their first mention. */
  function Mentions(fs: seq<Frame>): seq<nat> {
    if fs == [] then []
    else
      var before, b := Mentions(fs[..|fs| - 1]), Mentioned(fs[|fs| - 1]);
      if b.Some? && b.value !in before then before + [b.value] else before
  }

  /** How many tool blocks were mentioned before this one. */
  function TurnOf(fs: seq<Frame>, block: nat): Option<nat> {
    if fs == [] then None
    else
      var front := fs[..|fs| - 1];
      if TurnOf(front, block).Some? then TurnOf(front, block)
      else if Mentioned(fs[|fs| - 1]) == Some(block) then Some(|Mentions(front)|)
      else None
  }

  /** A block's call under its turn: as it was last started, with what it was fed since. */
  function CallOf(fs: seq<Frame>, block: nat): Option<ToolCall> {
    if fs == [] then None
    else
      var f, before := fs[|fs| - 1], CallOf(fs[..|fs| - 1], block);
      if Mentioned(f) != Some(block) then before
      else
        var turn := TurnOf(fs, block).GetOr(0);
        if f.BlockStart? then Some(ToolCall(turn, f.block.id, f.block.name, ""))
        else if before.None? then Some(ToolCall(turn, "call_" + Decimal(turn + 1), "tool", f.delta.json))
        else Some(before.value.(arguments := before.value.arguments + f.delta.json))
  }

  function Listed(fs: seq<Frame>, blocks: seq<nat>): seq<ToolCall> {
    if blocks == [] then []
    else
      var call := CallOf(fs, blocks[|blocks| - 1]);
      Listed(fs, blocks[..|blocks| - 1]) + if call.Some? then [call.value] else []
  }

  // ----- the events of one more frame -----

  /** The stream's one start, with the names known by then. */
  function Starting(fallback: Option<string>, fs: seq<Frame>, f: Frame): seq<Event> {
    if Opened(fs) || Quiet(f) then [] else [ResponseStart(IdOf(fs + [f]), ModelOf(fallback, fs + [f]))]
  }

  function Saying(fallback: Option<string>, fs: seq<Frame>, f: Frame): seq<Event> {
    match f
    case BlockStart(block, ToolUse(id, name)) => [ToolStart(TurnOf(fs + [f], block).GetOr(0), id, name)]
    case BlockDelta(_, TextChunk(text)) => [TextDelta(text)]
    case BlockDelta(block, JsonChunk(json)) => [ToolDelta(TurnOf(fs + [f], block).GetOr(0), json)]
    case MessageStop => [ResponseDone(IdOf(fs), ModelOf(fallback, fs), Some(FinishOf(fs)), None, Listed(fs, Mentions(fs)))]
    case _ => []
  }

  function EventsOf(fallback: Option<string>, fs: seq<Frame>): seq<Event> {
    if fs == [] then []
    else
      var front, f := fs[..|fs| - 1], fs[|fs| - 1];
      EventsOf(fallback, front) + (Starting(fallback, front, f) + Saying(fallback, front, f))
  }

  // ----- the state has it all -----

  ghost predicate KnowsNames(fallback: Option<string>, st: NState, fs: seq<Frame>) {
    && st.id == IdOf(fs) && st.model == ModelOf(fallback, fs) && st.finish.GetOr("stop") == FinishOf(fs)
    && st.started == Opened(fs)
  }

  ghost predicate KnowsCalls(st: NState, fs: seq<Frame>) {
    && st.blocks == Mentions(fs) && Unique(st.calls)
    && (forall b: nat :: Position(st.blocks, b) == TurnOf(fs, b))
    && forall i: nat :: Find(st.calls, i) == if i < |Mentions(fs)| then CallOf(fs, Mentions(fs)[i]) else None
  }

  lemma {:induction false} OpenedSnoc(fs: seq<Frame>, f: Frame)
    ensures Opened(fs + [f]) <==> Opened(fs) || !Quiet(f)
  {
    var all := fs + [f];
    assert all[|fs|] == f;
    assert forall k :: 0 <= k < |fs| ==> all[k] == fs[k];
  }

  lemma {:induction false} NamesSnoc(fallback: Option<string>, st: NState, fs: seq<Frame>, f: Frame)
    requires KnowsNames(fallback, st, fs)
    ensures KnowsNames(fallback, NormalizeFrame(st, f).st, fs + [f])
    ensures !f.MessageStart? ==> IdOf(fs + [f]) == IdOf(fs) && ModelOf(fallback, fs + [f]) == ModelOf(fallback, fs)
    ensures f.MessageStart? ==> IdOf(fs + [f]) == f.id && ModelOf(fallback, fs + [f]) == f.model
  {
    SnocIs(fs, f);
    OpenedSnoc(fs, f);
  }

  lemma {:induction false} Turns(fs: seq<Frame>, b: nat)
    ensures TurnOf(fs, b).Some? <==> b in Mentions(fs)
    ensures TurnOf(fs, b).Some? ==> TurnOf(fs, b).value < |Mentions(fs)| && Mentions(fs)[TurnOf(fs, b).value] == b
  {
    if fs != [] {
      Turns(fs[..|fs| - 1], b);
    }
  }

  /** A block has a turn of its own, and each mentioned block has a call under it. */
  lemma {:induction false} TurnsApart(fs: seq<Frame>, i: nat)
    requires i < |Mentions(fs)|
    ensures TurnOf(fs, Mentions(fs)[i]) == Some(i)
    ensures CallOf(fs, Mentions(fs)[i]).Some? && CallOf(fs, Mentions(fs)[i]).value.index == i
  {
    var front := fs[..|fs| - 1];
    if i < |Mentions(front)| {
      TurnsApart(front, i);
      assert Mentions(fs)[i] == Mentions(front)[i];
    } else {
      assert Mentioned(fs[|fs| - 1]) == Some(Mentions(fs)[i]);
      Turns(front, Mentions(fs)[i]);
      Uncalled(front, Mentions(fs)[i]);
    }
  }

  lemma {:induction false} Uncalled(fs: seq<Frame>, b: nat)
    requires b !in Mentions(fs)
    ensures CallOf(fs, b) == None
  {
    if fs != [] {
      Uncalled(fs[..|fs| - 1], b);
    }
  }

  lemma {:induction false} TurnSnoc(fs: seq<Frame>, f: Frame, b: nat)
    ensures var m := Mentioned(f);
      Mentions(fs + [f]) == Mentions(fs) + if m.Some? && m.value !in Mentions(fs) then [m.value] else []
    ensures TurnOf(fs + [f], b) ==
      if TurnOf(fs, b).Some? then TurnOf(fs, b) else if Mentioned(f) == Some(b) then Some(|Mentions(fs)|) else None
  {
    SnocIs(fs, f);
  }

  /** A frame about a tool: its turn, and the calls that follow from it. */
  lemma {:induction false} ToolIndexIs(st: NState, fs: seq<Frame>, f: Frame)
    requires KnowsCalls(st, fs) && Mentioned(f).Some?
    ensures var (s, index) := ToolIndex(st, Mentioned(f).value);
      && s.(blocks := st.blocks) == st && s.blocks == Mentions(fs + [f])
      && TurnOf(fs + [f], Mentioned(f).value) == Some(index)
      && Find(st.calls, index) == CallOf(fs, Mentioned(f).value)
      && index < |s.blocks| && s.blocks[index] == Mentioned(f).value
    ensures forall b: nat :: Position(Mentions(fs + [f]), b) == TurnOf(fs + [f], b)
  {
    var b := Mentioned(f).value;
    TurnSnoc(fs, f, b);
    Turns(fs, b);
    if TurnOf(fs, b).None? {
      Uncalled(fs, b);
    }
    forall c: nat ensures Position(Mentions(fs + [f]), c) == TurnOf(fs + [f], c) {
      TurnSnoc(fs, f, c);
      Turns(fs, c);
      assert Position(Mentions(fs), c) == TurnOf(fs, c);
      if b !in Mentions(fs) {
        SnocIs(Mentions(fs), b);
      }
    }
  }

  /** One block's call is put in its place and no other changes. */
  lemma {:induction false} CallPut(st: NState, fs: seq<Frame>, f: Frame, s: NState, call: ToolCall)
    requires KnowsCalls(st, fs) && Mentioned(f).Some?
    requires s.blocks == Mentions(fs + [f]) && s.calls == Put(st.calls, call)
    requires forall b: nat :: Position(s.blocks, b) == TurnOf(fs + [f], b)
    requires TurnOf(fs + [f], Mentioned(f).value) == Some(call.index) && CallOf(fs + [f], Mentioned(f).value) == Some(call)
    ensures KnowsCalls(s, fs + [f])
  {
    var all, b := fs + [f], Mentioned(f).value;
    PutUnique(st.calls, call);
    forall i: nat ensures Find(s.calls, i) == if i < |Mentions(all)| then CallOf(all, Mentions(all)[i]) else None {
      FindPut(st.calls, call, i);
      TurnSnoc(fs, f, b);
      Turns(all, b);
      SnocIs(fs, f);
      if i < |Mentions(all)| && i != call.index {
        TurnsApart(all, i);
        assert i < |Mentions(fs)| && Mentions(all)[i] == Mentions(fs)[i] != b;
      }
    }
  }

  lemma {:induction false} CallSnoc(fs: seq<Frame>, f: Frame, b: nat)
    ensures CallOf(fs + [f], b) ==
      if Mentioned(f) != Some(b) then CallOf(fs, b)
      else
        var turn := TurnOf(fs + [f], b).GetOr(0);
        if f.BlockStart? then Some(ToolCall(turn, f.block.id, f.block.name, ""))
        else if CallOf(fs, b).None? then Some(ToolCall(turn, "call_" + Decimal(turn + 1), "tool", f.delta.json))
        else Some(CallOf(fs, b).value.(arguments := CallOf(fs, b).value.arguments + f.delta.json))
  {
    SnocIs(fs, f);
  }

  lemma {:induction false} QuietKeepsCalls(st: NState, fs: seq<Frame>, f: Frame)
    requires KnowsCalls(st, fs) && Mentioned(f).None?
    ensures KnowsCalls(st, fs + [f])
  {
    forall b: nat ensures TurnOf(fs + [f], b) == TurnOf(fs, b) && CallOf(fs + [f], b) == CallOf(fs, b) {
      TurnSnoc(fs, f, b);
      CallSnoc(fs, f, b);
    }
    TurnSnoc(fs, f, 0);
  }

  /** The call that the normalizer puts is the one that the history has. */
  ghost predicate Puts(st: NState, fs: seq<Frame>, f: Frame, b: nat) {
    var call, z := CallOf(fs + [f], b), NormalizeFrame(st, f).st;
    && call.Some? && TurnOf(fs + [f], b) == Some(call.value.index)
    && z.calls == Put(st.calls, call.value) && z.blocks == Mentions(fs + [f])
  }

  lemma {:induction false} StartPuts(st: NState, fs: seq<Frame>, b: nat, id: string, name: string)
    requires KnowsCalls(st, fs)
    ensures Puts(st, fs, BlockStart(b, ToolUse(id, name)), b)
  {
    var f := BlockStart(b, ToolUse(id, name));
    ToolIndexIs(EmitStart(st).st, fs, f);
    CallSnoc(fs, f, b);
  }

  lemma {:induction false} FeedPuts(st: NState, fs: seq<Frame>, b: nat, json: string)
    requires KnowsCalls(st, fs)
    ensures Puts(st, fs, BlockDelta(b, JsonChunk(json)), b)
  {
    var f := BlockDelta(b, JsonChunk(json));
    ToolIndexIs(EmitStart(st).st, fs, f);
    CallSnoc(fs, f, b);
    if CallOf(fs, b).Some? {
      CallTurn(fs, b);
      TurnSnoc(fs, f, b);
    } else {
      AppendEmpty(json);
    }
  }

  lemma {:induction false} CallsSnoc(st: NState, fs: seq<Frame>, f: Frame)
    requires KnowsCalls(st, fs)
    ensures KnowsCalls(NormalizeFrame(st, f).st, fs + [f])
  {
    if Mentioned(f).None? {
      QuietKeepsCalls(st, fs, f);
    } else {
      match f {
        case BlockStart(b, ToolUse(id, name)) => StartPuts(st, fs, b, id, name);
        case BlockDelta(b, JsonChunk(json)) => FeedPuts(st, fs, b, json);
      }
      ToolIndexIs(st, fs, f);
      CallPut(st, fs, f, NormalizeFrame(st, f).st, CallOf(fs + [f], Mentioned(f).value).value);
    }
  }

  lemma {:induction false} CallTurn(fs: seq<Frame>, b: nat)
    requires CallOf(fs, b).Some?
    ensures TurnOf(fs, b) == Some(CallOf(fs, b).value.index)
  {
    Turns(fs, b);
    if TurnOf(fs, b).None? {
      Uncalled(fs, b);
    } else {
      TurnsApart(fs, TurnOf(fs, b).value);
    }
  }

  // ----- the done event lists the calls by turn -----

  lemma {:induction false} NoneAbove(calls: seq<ToolCall>, n: nat, i: nat)
    requires Above(calls, n) && i <= n
    ensures Find(calls, i).None?
  {
    if calls != [] {
      assert n < calls[0].index;
      NoneAbove(calls[1..], n, i);
    }
  }

  ghost predicate Finds(calls: seq<ToolCall>, listed: seq<ToolCall>, from: nat) {
    forall i: nat :: Find(calls, i) == if from <= i < from + |listed| then Some(listed[i - from]) else None
  }

  lemma {:induction false} FirstFound(calls: seq<ToolCall>, listed: seq<ToolCall>, from: nat)
    requires Increasing(calls) && Finds(calls, listed, from)
    requires forall k :: 0 <= k < |listed| ==> listed[k].index == from + k
    ensures calls == [] <==> listed == []
    ensures calls != [] ==> calls[0].index == from && calls[0] == listed[0]
  {
    if listed != [] {
      assert Find(calls, from) == Some(listed[0]);
    }
    if calls != [] {
      var first := calls[0].index;
      assert Find(calls, first) == Some(calls[0]);
      if first > from {
        NoneAbove(calls[1..], first, from);
        assert false;
      }
    }
  }

  lemma {:induction false} RestFound(calls: seq<ToolCall>, listed: seq<ToolCall>, from: nat)
    requires Increasing(calls) && Finds(calls, listed, from)
    requires calls != [] && listed != [] && calls[0].index == from
    ensures Finds(calls[1..], listed[1..], from + 1)
  {
    forall i: nat ensures Find(calls[1..], i)
                       == if from + 1 <= i < from + |listed| then Some(listed[1..][i - (from + 1)]) else None {
      if i == from {
        NoneAbove(calls[1..], from, i);
      } else {
        assert Find(calls, i) == Find(calls[1..], i);
      }
    }
  }

  /** Calls in index order are determined by what is found in them. */
  lemma {:induction false} FoundAre(calls: seq<ToolCall>, listed: seq<ToolCall>, from: nat)
    requires Increasing(calls) && Finds(calls, listed, from)
    requires forall k :: 0 <= k < |listed| ==> listed[k].index == from + k
    ensures calls == listed
    decreases |listed|
  {
    FirstFound(calls, listed, from);
    if calls != [] {
      RestFound(calls, listed, from);
      FoundAre(calls[1..], listed[1..], from + 1);
      Uncons(calls, []);
      Uncons(listed, []);
    }
  }

  lemma {:induction false} ListedAre(fs: seq<Frame>, n: nat)
    requires n <= |Mentions(fs)|
    ensures var calls := Listed(fs, Mentions(fs)[..n]);
      |calls| == n && forall k :: 0 <= k < n ==> Some(calls[k]) == CallOf(fs, Mentions(fs)[k]) && calls[k].index == k
  {
    if n > 0 {
      var blocks := Mentions(fs)[..n];
      assert blocks[..n - 1] == Mentions(fs)[..n - 1];
      ListedAre(fs, n - 1);
      TurnsApart(fs, n - 1);
    }
  }

  lemma {:induction false} ListedFind(st: NState, fs: seq<Frame>, calls: seq<ToolCall>)
    requires KnowsCalls(st, fs) && calls == Listed(fs, Mentions(fs))
    ensures forall k :: 0 <= k < |calls| ==> calls[k].index == k
    ensures Finds(st.calls, calls, 0)
  {
    var n := |Mentions(fs)|;
    ListedAre(fs, n);
    assert Mentions(fs)[..n] == Mentions(fs);
    forall i: nat ensures Find(st.calls, i) == if i < n then Some(calls[i]) else None {
    }
  }

  lemma {:induction false} SortedAreListed(st: NState, fs: seq<Frame>)
    requires KnowsCalls(st, fs)
    ensures Sorted(st.calls) == Listed(fs, Mentions(fs))
  {
    var calls := Listed(fs, Mentions(fs));
    ListedFind(st, fs, calls);
    SortedFinds(st.calls, calls);
  }

  lemma {:induction false} SortedFinds(calls: seq<ToolCall>, listed: seq<ToolCall>)
    requires Unique(calls) && Finds(calls, listed, 0)
    requires forall k :: 0 <= k < |listed| ==> listed[k].index == k
    ensures Sorted(calls) == listed
  {
    SortedProperties(calls);
    assert Finds(Sorted(calls), listed, 0) by {
      forall i: nat ensures Find(Sorted(calls), i) == if i < |listed| then Some(listed[i]) else None {
        assert Find(Sorted(calls), i) == Find(calls, i);
      }
    }
    FoundAre(Sorted(calls), listed, 0);
  }

  // ----- the whole stream -----

  lemma {:induction false} FrameIs(fallback: Option<string>, st: NState, fs: seq<Frame>, f: Frame)
    requires KnowsNames(fallback, st, fs) && KnowsCalls(st, fs)
    ensures NormalizeFrame(st, f).emitted == Starting(fallback, fs, f) + Saying(fallback, fs, f)
  {
    NamesSnoc(fallback, st, fs, f);
    if Mentioned(f).Some? {
      ToolIndexIs(st, fs, f);
    }
    if f.MessageStop? {
      SortedAreListed(st, fs);
    }
    AppendEmpty(Starting(fallback, fs, f));
  }

  lemma {:induction false} EventsSnoc(fallback: Option<string>, fs: seq<Frame>, f: Frame)
    ensures EventsOf(fallback, fs + [f]) == EventsOf(fallback, fs) + (Starting(fallback, fs, f) + Saying(fallback, fs, f))
  {
    SnocIs(fs, f);
  }

  lemma {:induction false} NormalizeOneMore(fallback: Option<string>, fs: seq<Frame>, f: Frame, r: NOut)
    requires r == Run(NormalizeFrame, NInitial(fallback), fs)
    requires r.emitted == EventsOf(fallback, fs) && KnowsNames(fallback, r.st, fs) && KnowsCalls(r.st, fs)
    ensures var z := Run(NormalizeFrame, NInitial(fallback), fs + [f]);
      z.emitted == EventsOf(fallback, fs + [f]) && KnowsNames(fallback, z.st, fs + [f]) && KnowsCalls(z.st, fs + [f])
  {
    RunAppend(NormalizeFrame, NInitial(fallback), fs, [f]);
    RunOne(NormalizeFrame, r.st, f);
    FrameIs(fallback, r.st, fs, f);
    NamesSnoc(fallback, r.st, fs, f);
    CallsSnoc(r.st, fs, f);
    EventsSnoc(fallback, fs, f);
  }

  /** All frames whatever normalize to exactly the events their history calls for. */
  lemma {:induction false} NormalizedIs(fallback: Option<string>, fs: seq<Frame>)
    ensures var r := Run(NormalizeFrame, NInitial(fallback), fs);
      r.emitted == EventsOf(fallback, fs) && KnowsNames(fallback, r.st, fs) && KnowsCalls(r.st, fs)
    decreases |fs|
  {
    if fs != [] {
      var front, f := fs[..|fs| - 1], fs[|fs| - 1];
      SplitLast(fs);
      NormalizedIs(fallback, front);
      NormalizeOneMore(fallback, front, f, Run(NormalizeFrame, NInitial(fallback), front));
    }
  }

  lemma {:induction false} DoneIs(fallback: Option<string>, st: NState, fs: seq<Frame>)
    requires KnowsNames(fallback, st, fs) && KnowsCalls(st, fs)
    ensures Saying(fallback, fs, MessageStop) == [DoneEvent(st)]
  {
    SortedAreListed(st, fs);
  }

  /** Over chunks, the same events, and the done event once more when the last chunk
      says nothing. */
  lemma {:induction false} ChunksSay(fallback: Option<string>, chunks: seq<seq<Frame>>)
    requires chunks != []
    ensures FeedChunks(NInitial(fallback), chunks) ==
      EventsOf(fallback, Flatten(chunks))
      + if QuietEnd(false, chunks) then Saying(fallback, Flatten(chunks), MessageStop) else []
  {
    var all := Run(NormalizeFrame, NInitial(fallback), Flatten(chunks));
    FeedChunksIs(NInitial(fallback), chunks);
    NormalizedIs(fallback, Flatten(chunks));
    DoneIs(fallback, all.st, Flatten(chunks));
  }
}
