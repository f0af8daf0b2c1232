/**
 Rendering a canonical stream to Anthropic frames gives a well-formed block
 sequence, and normalizing the frames gives the stream back.
 */
module AnthropicRoundTrip {
  import opened Wrappers
  import opened CanonicalStream
  import opened Transducer
  import opened AnthropicStream

  // ----- streams: a start, text, then tools 0..n-1, then done -----

  datatype Tool = Tool(id: string, name: string, deltas: seq<string>)

  datatype Stream = Stream(id: string, model: string, texts: seq<string>, tools: seq<Tool>)

  ghost predicate Named(s: Stream) {
    && s.id != "" && s.model != ""
    && forall i :: 0 <= i < |s.tools| ==> s.tools[i].id != "" && s.tools[i].name != ""
  }

  function TextEvents(texts: seq<string>): seq<Event> {
    if texts == [] then [] else [TextDelta(texts[0])] + TextEvents(texts[1..])
  }

  function DeltaEvents(deltas: seq<string>, index: nat): seq<Event> {
    if deltas == [] then [] else [ToolDelta(index, deltas[0])] + DeltaEvents(deltas[1..], index)
  }

  /** Tools numbered from `index`, each started and then fed its deltas. */
  function ToolEvents(tools: seq<Tool>, index: nat): seq<Event>
    decreases |tools|
  {
    if tools == [] then []
    else [ToolStart(index, tools[0].id, tools[0].name)] + DeltaEvents(tools[0].deltas, index) + ToolEvents(tools[1..], index + 1)
  }

  /** The events of a stream before its done event. */
  function Body(s: Stream): seq<Event> {
    [ResponseStart(s.id, s.model)] + (TextEvents(s.texts) + ToolEvents(s.tools, 0))
  }

  /** The tool calls a stream describes. */
  function Calls(tools: seq<Tool>, index: nat): seq<ToolCall>
    decreases |tools|
  {
    if tools == [] then []
    else [ToolCall(index, tools[0].id, tools[0].name, Flatten(tools[0].deltas))] + Calls(tools[1..], index + 1)
  }

  // ----- the frames they become -----

  function TextDeltas(texts: seq<string>): seq<Frame> {
    if texts == [] then [] else [BlockDelta(0, TextChunk(texts[0]))] + TextDeltas(texts[1..])
  }

  function TextFrames(texts: seq<string>): seq<Frame> {
    if texts == [] then [] else [BlockStart(0, TextBlock)] + TextDeltas(texts) + [BlockStop(0)]
  }

  function JsonDeltas(deltas: seq<string>, block: nat): seq<Frame> {
    if deltas == [] then [] else [BlockDelta(block, JsonChunk(deltas[0]))] + JsonDeltas(deltas[1..], block)
  }

  function ToolFrames(t: Tool, block: nat): seq<Frame> {
    [BlockStart(block, ToolUse(t.id, t.name))] + JsonDeltas(t.deltas, block) + [BlockStop(block)]
  }

  function AllToolFrames(tools: seq<Tool>, block: nat): seq<Frame>
    decreases |tools|
  {
    if tools == [] then [] else ToolFrames(tools[0], block) + AllToolFrames(tools[1..], block + 1)
  }

  function Offset(s: Stream): nat {
    if s.texts == [] then 0 else 1
  }

  function Frames(s: Stream, finish: Option<string>): seq<Frame> {
    [MessageStart(s.id, s.model)] + (TextFrames(s.texts) + AllToolFrames(s.tools, Offset(s)))
    + [MessageDelta(ToStopReason(finish)), MessageStop]
  }

  // ----- rendering -----

  /** The stop frame still owed for the open block. */
  function Owed(st: RState): seq<Frame> {
    CloseTool(st).emitted + CloseText(st).emitted
  }

  lemma {:induction false} RenderTexts(fallback: Option<string>, st: RState, texts: seq<string>)
    requires st.started && st.textOpen && st.openTool.None?
    ensures Run(RenderStep(fallback), st, TextEvents(texts)) == Out(st, TextDeltas(texts))
    decreases |texts|
  {
    if texts != [] {
      RenderTexts(fallback, st, texts[1..]);
      var f := BlockDelta(0, TextChunk(texts[0]));
      RunCons(RenderStep(fallback), st, TextDelta(texts[0]), TextEvents(texts[1..]), Out(st, [f]));
    }
  }

  lemma {:induction false} OpeningText(fallback: Option<string>, st: RState, text: string)
    requires st.started && !st.textOpen && !st.hadText && st.openTool.None?
    ensures RenderStep(fallback)(st, TextDelta(text))
         == Out(st.(textOpen := true, hadText := true), [BlockStart(0, TextBlock), BlockDelta(0, TextChunk(text))])
  {
  }

  lemma {:induction false} RenderText(fallback: Option<string>, st: RState, texts: seq<string>)
    requires st.started && !st.textOpen && !st.hadText && st.openTool.None?
    ensures var r := Run(RenderStep(fallback), st, TextEvents(texts));
      && r.st == st.(textOpen := texts != [], hadText := texts != [])
      && r.emitted + Owed(r.st) == TextFrames(texts)
  {
    if texts == [] {
      assert Owed(st) == [];
    } else {
      OpeningText(fallback, st, texts[0]);
      var st1 := st.(textOpen := true, hadText := true);
      RenderTexts(fallback, st1, texts[1..]);
      RunText(RenderStep(fallback), st, st1, texts);
      assert Owed(st1) == [BlockStop(0)];
    }
  }

  lemma {:induction false} RunText(step: RenderingStep, st: RState, st1: RState, texts: seq<string>)
    requires texts != []
    requires step(st, TextDelta(texts[0])) == Out(st1, [BlockStart(0, TextBlock), BlockDelta(0, TextChunk(texts[0]))])
    requires Run(step, st1, TextEvents(texts[1..])) == Out(st1, TextDeltas(texts[1..]))
    ensures Run(step, st, TextEvents(texts)) == Out(st1, [BlockStart(0, TextBlock)] + TextDeltas(texts))
  {
    var open, f := BlockStart(0, TextBlock), BlockDelta(0, TextChunk(texts[0]));
    RunCons(step, st, TextDelta(texts[0]), TextEvents(texts[1..]), Out(st1, [open, f]));
    assert [open, f] + TextDeltas(texts[1..]) == [open] + ([f] + TextDeltas(texts[1..]));
  }

  lemma {:induction false} RenderDeltas(fallback: Option<string>, st: RState, deltas: seq<string>, index: nat)
    requires st.started
    ensures Run(RenderStep(fallback), st, DeltaEvents(deltas, index)) == Out(st, JsonDeltas(deltas, BlockIndex(st, index)))
    decreases |deltas|
  {
    if deltas != [] {
      RenderDeltas(fallback, st, deltas[1..], index);
      var f := BlockDelta(BlockIndex(st, index), JsonChunk(deltas[0]));
      RunCons(RenderStep(fallback), st, ToolDelta(index, deltas[0]), DeltaEvents(deltas[1..], index), Out(st, [f]));
    }
  }

  /** Starting a tool settles what was owed... */
  lemma {:induction false} StartingTool(fallback: Option<string>, st: RState, t: Tool, index: nat)
    requires st.started && t.id != "" && t.name != "" && st.openTool != Some(index)
    requires !(st.textOpen && st.openTool.Some?)
    ensures RenderStep(fallback)(st, ToolStart(index, t.id, t.name))
         == Out(st.(textOpen := false, openTool := Some(index)),
                Owed(st) + [BlockStart(BlockIndex(st, index), ToolUse(t.id, t.name))])
    ensures Owed(st.(textOpen := false, openTool := Some(index))) == [BlockStop(BlockIndex(st, index))]
  {
  }

  lemma {:induction false} RunOneTool(step: RenderingStep, st: RState, st1: RState, t: Tool, index: nat, owed: seq<Frame>, block: nat)
    requires step(st, ToolStart(index, t.id, t.name)) == Out(st1, owed + [BlockStart(block, ToolUse(t.id, t.name))])
    requires Run(step, st1, DeltaEvents(t.deltas, index)) == Out(st1, JsonDeltas(t.deltas, block))
    ensures var r := Run(step, st, OneTool(t, index));
      r.st == st1 && r.emitted + [BlockStop(block)] == owed + ToolFrames(t, block)
  {
  }

  /** ... and owes its own stop frame. */
  lemma {:induction false} RenderTool(fallback: Option<string>, st: RState, t: Tool, index: nat)
    requires st.started && t.id != "" && t.name != "" && st.openTool != Some(index)
    requires !(st.textOpen && st.openTool.Some?)
    ensures var r := Run(RenderStep(fallback), st, OneTool(t, index));
      && r.st == st.(textOpen := false, openTool := Some(index))
      && r.emitted + Owed(r.st) == Owed(st) + ToolFrames(t, BlockIndex(st, index))
  {
    var st1 := st.(textOpen := false, openTool := Some(index));
    StartingTool(fallback, st, t, index);
    RenderDeltas(fallback, st1, t.deltas, index);
    RunOneTool(RenderStep(fallback), st, st1, t, index, Owed(st), BlockIndex(st, index));
  }

  /** Two stretches of output, each settling the stop frame it inherits. */
  lemma {:induction false} Settle(a: seq<Frame>, owedA: seq<Frame>, b: seq<Frame>, owedB: seq<Frame>,
               owed: seq<Frame>, x: seq<Frame>, y: seq<Frame>)
    requires a + owedA == owed + x && b + owedB == owedA + y
    ensures (a + b) + owedB == owed + (x + y)
  {
    AppendAssoc(a, b, owedB);
    AppendAssoc(a, owedA, y);
    AppendAssoc(owed, x, y);
  }

  /** Between events: at most one block is open. */
  ghost predicate Tidy(st: RState, index: nat) {
    && st.started && !(st.textOpen && st.openTool.Some?)
    && (st.openTool.Some? ==> st.openTool.value < index)
  }

  function OneTool(t: Tool, index: nat): seq<Event> {
    [ToolStart(index, t.id, t.name)] + DeltaEvents(t.deltas, index)
  }

  type RenderingStep = (RState, Event) -> Out<RState, Frame>

  /** One tool's events become its block; its stop frame stays owed. */
  ghost predicate RendersTool(step: RenderingStep, st: RState, t: Tool, index: nat) {
    Tidy(st, index) && t.id != "" && t.name != "" ==>
      var r := Run(step, st, OneTool(t, index));
      && Tidy(r.st, index + 1) && r.st.hadText == st.hadText
      && r.emitted + Owed(r.st) == Owed(st) + ToolFrames(t, BlockIndex(st, index))
  }

  lemma {:induction false} ToolEventsCons(step: RenderingStep, st: RState, tools: seq<Tool>, index: nat,
                       owed: seq<Frame>, owed1: seq<Frame>, owedEnd: seq<Frame>, block: nat)
    requires tools != []
    requires Run(step, st, OneTool(tools[0], index)).emitted + owed1 == owed + ToolFrames(tools[0], block)
    requires var st1 := Run(step, st, OneTool(tools[0], index)).st;
      Run(step, st1, ToolEvents(tools[1..], index + 1)).emitted + owedEnd == owed1 + AllToolFrames(tools[1..], block + 1)
    ensures var st1 := Run(step, st, OneTool(tools[0], index)).st;
      && Run(step, st, ToolEvents(tools, index)).st == Run(step, st1, ToolEvents(tools[1..], index + 1)).st
      && Run(step, st, ToolEvents(tools, index)).emitted + owedEnd == owed + AllToolFrames(tools, block)
  {
    RunAppend(step, st, OneTool(tools[0], index), ToolEvents(tools[1..], index + 1));
    var a := Run(step, st, OneTool(tools[0], index));
    var b := Run(step, a.st, ToolEvents(tools[1..], index + 1));
    Settle(a.emitted, owed1, b.emitted, owedEnd, owed, ToolFrames(tools[0], block), AllToolFrames(tools[1..], block + 1));
  }

  lemma {:induction false} RunToolEvents(step: RenderingStep, st: RState, tools: seq<Tool>, index: nat)
    requires forall s: RState, t: Tool, i: nat :: RendersTool(step, s, t, i)
    requires Tidy(st, index)
    requires forall i :: 0 <= i < |tools| ==> tools[i].id != "" && tools[i].name != ""
    ensures var r := Run(step, st, ToolEvents(tools, index));
      && Tidy(r.st, index + |tools|)
      && r.emitted + Owed(r.st) == Owed(st) + AllToolFrames(tools, BlockIndex(st, index))
    decreases |tools|
  {
    if tools == [] {
      assert [] + Owed(st) == Owed(st) + [];
    } else {
      assert RendersTool(step, st, tools[0], index);
      var st1 := Run(step, st, OneTool(tools[0], index)).st;
      RunToolEvents(step, st1, tools[1..], index + 1);
      var z := Run(step, st1, ToolEvents(tools[1..], index + 1)).st;
      assert BlockIndex(st1, index + 1) == BlockIndex(st, index) + 1;
      ToolEventsCons(step, st, tools, index, Owed(st), Owed(st1), Owed(z), BlockIndex(st, index));
    }
  }

  lemma {:induction false} RenderTools(fallback: Option<string>, st: RState, tools: seq<Tool>, index: nat)
    requires Tidy(st, index)
    requires forall i :: 0 <= i < |tools| ==> tools[i].id != "" && tools[i].name != ""
    ensures var r := Run(RenderStep(fallback), st, ToolEvents(tools, index));
      && Tidy(r.st, index + |tools|)
      && r.emitted + Owed(r.st) == Owed(st) + AllToolFrames(tools, BlockIndex(st, index))
  {
    forall s: RState, t: Tool, i: nat ensures RendersTool(RenderStep(fallback), s, t, i) {
      if Tidy(s, i) && t.id != "" && t.name != "" {
        RenderTool(fallback, s, t, i);
      }
    }
    RunToolEvents(RenderStep(fallback), st, tools, index);
  }

  lemma {:induction false} RenderDone(fallback: Option<string>, st: RState, done: Event)
    requires st.started && done.ResponseDone? && !(st.textOpen && st.openTool.Some?)
    ensures RenderStep(fallback)(st, done).emitted
         == Owed(st) + [MessageDelta(ToStopReason(done.finish)), MessageStop]
  {
  }

  lemma {:induction false} RenderBlocks(fallback: Option<string>, st: RState, s: Stream)
    requires Named(s) && st.started && !st.textOpen && !st.hadText && st.openTool.None?
    ensures var r := Run(RenderStep(fallback), st, TextEvents(s.texts) + ToolEvents(s.tools, 0));
      && Tidy(r.st, |s.tools|)
      && r.emitted + Owed(r.st) == TextFrames(s.texts) + AllToolFrames(s.tools, Offset(s))
  {
    var texts, tools := TextEvents(s.texts), ToolEvents(s.tools, 0);
    RunAppend(RenderStep(fallback), st, texts, tools);
    RenderText(fallback, st, s.texts);
    var b := Run(RenderStep(fallback), st, texts);
    RenderTools(fallback, b.st, s.tools, 0);
    var c := Run(RenderStep(fallback), b.st, tools);
    assert [] + TextFrames(s.texts) == TextFrames(s.texts);
    assert [] + (TextFrames(s.texts) + AllToolFrames(s.tools, Offset(s))) == TextFrames(s.texts) + AllToolFrames(s.tools, Offset(s));
    Settle(b.emitted, Owed(b.st), c.emitted, Owed(c.st), [], TextFrames(s.texts), AllToolFrames(s.tools, Offset(s)));
  }

  /** Any done event may follow the body: only its finish reason is rendered. */
  lemma {:induction false} Rendered(fallback: Option<string>, s: Stream, done: Event)
    requires Named(s) && done.ResponseDone?
    ensures Run(RenderStep(fallback), RInitial(fallback), Body(s) + [done]).emitted == Frames(s, done.finish)
  {
    var step, st0 := RenderStep(fallback), RInitial(fallback);
    var start := ResponseStart(s.id, s.model);
    var middle := TextEvents(s.texts) + ToolEvents(s.tools, 0);
    var st1 := st0.(started := true, id := s.id, model := s.model);
    assert RenderEvent(fallback, st0, start) == Out(st1, [MessageStart(s.id, s.model)]);
    RunCons(step, st0, start, middle, Out(st1, [MessageStart(s.id, s.model)]));
    RenderBlocks(fallback, st1, s);
    var m := Run(step, st1, middle);
    RunAppend(step, st0, Body(s), [done]);
    RunOne(step, m.st, done);
    RenderDone(fallback, m.st, done);
    var end := [MessageDelta(ToStopReason(done.finish)), MessageStop];
    AppendAssoc([MessageStart(s.id, s.model)], m.emitted, Owed(m.st) + end);
    AppendAssoc(m.emitted, Owed(m.st), end);
    AppendAssoc([MessageStart(s.id, s.model)], m.emitted + Owed(m.st), end);
  }

  // ----- well-formed block sequences -----

  /** Where a reader of frames is: before the message, between blocks (with the
      next block index), inside a block, after the message delta, at the end. */
  datatype Phase = Before | Between(next: nat) | Inside(index: nat, tool: bool) | Closing | Ended | Broken

  function Check(p: Phase, f: Frame): Phase {
    match (p, f)
    case (Before, MessageStart(_, _)) => Between(0)
    case (Between(n), BlockStart(i, b)) => if i == n then Inside(n, b.ToolUse?) else Broken
    case (Between(_), MessageDelta(_)) => Closing
    case (Inside(n, tool), BlockDelta(i, d)) => if i == n && d.JsonChunk? == tool then p else Broken
    case (Inside(n, _), BlockStop(i)) => if i == n then Between(n + 1) else Broken
    case (Closing, MessageStop) => Ended
    case _ => Broken
  }

  function CheckAll(p: Phase, fs: seq<Frame>): Phase
    decreases |fs|
  {
    if fs == [] then p else CheckAll(Check(p, fs[0]), fs[1..])
  }

  lemma {:induction false} CheckAppend(p: Phase, a: seq<Frame>, b: seq<Frame>)
    ensures CheckAll(p, a + b) == CheckAll(CheckAll(p, a), b)
    decreases |a|
  {
    if a == [] {
      assert a + b == b;
    } else {
      assert (a + b)[1..] == a[1..] + b;
      CheckAppend(Check(p, a[0]), a[1..], b);
    }
  }

  lemma {:induction false} CheckTextDeltas(texts: seq<string>)
    ensures CheckAll(Inside(0, false), TextDeltas(texts)) == Inside(0, false)
    decreases |texts|
  {
    if texts != [] {
      CheckTextDeltas(texts[1..]);
      assert TextDeltas(texts)[1..] == TextDeltas(texts[1..]);
    }
  }

  lemma {:induction false} CheckJsonDeltas(deltas: seq<string>, block: nat)
    ensures CheckAll(Inside(block, true), JsonDeltas(deltas, block)) == Inside(block, true)
    decreases |deltas|
  {
    if deltas != [] {
      CheckJsonDeltas(deltas[1..], block);
      assert JsonDeltas(deltas, block)[1..] == JsonDeltas(deltas[1..], block);
    }
  }

  lemma {:induction false} CheckOne(p: Phase, f: Frame)
    ensures CheckAll(p, [f]) == Check(p, f)
  {
  }

  lemma {:induction false} CheckTools(tools: seq<Tool>, block: nat)
    ensures CheckAll(Between(block), AllToolFrames(tools, block)) == Between(block + |tools|)
    decreases |tools|
  {
    if tools != [] {
      var t := tools[0];
      var start := BlockStart(block, ToolUse(t.id, t.name));
      var json := JsonDeltas(t.deltas, block);
      CheckAppend(Between(block), ToolFrames(t, block), AllToolFrames(tools[1..], block + 1));
      CheckAppend(Between(block), [start] + json, [BlockStop(block)]);
      CheckAppend(Between(block), [start], json);
      CheckOne(Between(block), start);
      CheckJsonDeltas(t.deltas, block);
      CheckOne(Inside(block, true), BlockStop(block));
      CheckTools(tools[1..], block + 1);
    }
  }

  /** The rendered stream is one message whose blocks are contiguous from 0, each
      opened, fed its own kind of delta, and closed before the next. */
  lemma {:induction false} FramesWellFormed(s: Stream, finish: Option<string>)
    ensures CheckAll(Before, Frames(s, finish)) == Ended
  {
    var start := [MessageStart(s.id, s.model)];
    var text, tools := TextFrames(s.texts), AllToolFrames(s.tools, Offset(s));
    var end := [MessageDelta(ToStopReason(finish)), MessageStop];
    CheckAppend(Before, start + (text + tools), end);
    CheckAppend(Before, start, text + tools);
    CheckOne(Before, start[0]);
    CheckAppend(Between(0), text, tools);
    if s.texts != [] {
      CheckAppend(Between(0), [BlockStart(0, TextBlock)] + TextDeltas(s.texts), [BlockStop(0)]);
      CheckAppend(Between(0), [BlockStart(0, TextBlock)], TextDeltas(s.texts));
      CheckOne(Between(0), BlockStart(0, TextBlock));
      CheckTextDeltas(s.texts);
      CheckOne(Inside(0, false), BlockStop(0));
    }
    CheckTools(s.tools, Offset(s));
    var p := Between(Offset(s) + |s.tools|);
    assert end[1..] == [MessageStop];
    CheckOne(Closing, MessageStop);
    assert CheckAll(p, end) == CheckAll(Check(p, end[0]), end[1..]);
  }

  // ----- normalizing -----

  lemma {:induction false} NormalizeTexts(st: NState, texts: seq<string>)
    requires st.started
    ensures Run(NormalizeFrame, st, TextDeltas(texts)) == Out(st, TextEvents(texts))
    decreases |texts|
  {
    if texts != [] {
      NormalizeTexts(st, texts[1..]);
      assert NormalizeFrame(st, BlockDelta(0, TextChunk(texts[0]))) == Out(st, [TextDelta(texts[0])]);
      RunCons(NormalizeFrame, st, BlockDelta(0, TextChunk(texts[0])), TextDeltas(texts[1..]), Out(st, [TextDelta(texts[0])]));
    }
  }

  type Step = (NState, Frame) -> Out<NState, Event>

  /** A block: its opening frame, its deltas, and a stop that says nothing. */
  lemma {:induction false} RunBlock(step: Step, st: NState, open: Frame, mid: seq<Frame>, close: Frame, a: Out<NState, Event>, b: Out<NState, Event>)
    requires step(st, open) == a && Run(step, a.st, mid) == b && step(b.st, close) == Out(b.st, [])
    ensures Run(step, st, [open] + mid + [close]) == Out(b.st, a.emitted + b.emitted)
  {
    RunAppend(step, st, [open] + mid, [close]);
    RunCons(step, st, open, mid, a);
    RunOne(step, b.st, close);
    var events := a.emitted + b.emitted;
    assert events + [] == events;
  }

  lemma {:induction false} NormalizeText(st: NState, texts: seq<string>)
    requires st.started
    ensures Run(NormalizeFrame, st, TextFrames(texts)) == Out(st, TextEvents(texts))
  {
    if texts != [] {
      NormalizeTexts(st, texts);
      RunBlock(NormalizeFrame, st, BlockStart(0, TextBlock), TextDeltas(texts), BlockStop(0), Out(st, []), Out(st, TextEvents(texts)));
      assert [] + TextEvents(texts) == TextEvents(texts);
    }
  }

  /** The tool blocks seen so far are offset, offset + 1, ... */
  ghost predicate Numbered(blocks: seq<nat>, offset: nat) {
    forall i :: 0 <= i < |blocks| ==> blocks[i] == offset + i
  }

  lemma {:induction false} PositionNumbered(blocks: seq<nat>, offset: nat, block: nat)
    requires Numbered(blocks, offset)
    ensures Position(blocks, block) == if offset <= block < offset + |blocks| then Some(block - offset) else None
    decreases |blocks|
  {
    if blocks != [] {
      PositionNumbered(blocks[..|blocks| - 1], offset, block);
    }
  }

  /** Setting the last call of a list in which its index occurs only there. */
  lemma {:induction false} PutLast(calls: seq<ToolCall>, last: seq<ToolCall>, call: ToolCall)
    requires forall i :: 0 <= i < |calls| ==> calls[i].index != call.index
    requires last == [] || (|last| == 1 && last[0].index == call.index)
    ensures Put(calls + last, call) == calls + [call]
    ensures Find(calls + last, call.index) == if last == [] then None else Some(last[0])
    decreases |calls|
  {
    if calls == [] {
      assert calls + last == last && calls + [call] == [call];
      if last != [] {
        assert [call] + last[1..] == [call];
      }
    } else {
      PutLast(calls[1..], last, call);
      assert (calls + last)[1..] == calls[1..] + last;
      assert [calls[0]] + (calls[1..] + [call]) == calls + [call];
    }
  }

  /** Inside the tool block that was opened last. */
  ghost predicate InTool(st: NState, calls: seq<ToolCall>, call: ToolCall, offset: nat) {
    && st.started && Numbered(st.blocks, offset) && |st.blocks| == |calls| + 1 && call.index == |calls|
    && st.calls == calls + [call]
    && forall i :: 0 <= i < |calls| ==> calls[i].index != call.index
  }

  lemma {:induction false} NormalizeDelta(st: NState, calls: seq<ToolCall>, call: ToolCall, json: string, offset: nat)
    requires InTool(st, calls, call, offset)
    ensures var next := call.(arguments := call.arguments + json);
      && NormalizeFrame(st, BlockDelta(offset + call.index, JsonChunk(json)))
         == Out(st.(calls := calls + [next]), [ToolDelta(call.index, json)])
      && InTool(st.(calls := calls + [next]), calls, next, offset)
  {
    PositionNumbered(st.blocks, offset, offset + call.index);
    PutLast(calls, [call], call.(arguments := call.arguments + json));
  }

  lemma {:induction false} NormalizeDeltas(st: NState, calls: seq<ToolCall>, call: ToolCall, deltas: seq<string>, offset: nat)
    requires InTool(st, calls, call, offset)
    ensures Run(NormalizeFrame, st, JsonDeltas(deltas, offset + call.index))
         == Out(st.(calls := calls + [call.(arguments := call.arguments + Flatten(deltas))]), DeltaEvents(deltas, call.index))
    decreases |deltas|
  {
    if deltas == [] {
      assert call.arguments + [] == call.arguments;
    } else {
      var block := offset + call.index;
      var next := call.(arguments := call.arguments + deltas[0]);
      var st1 := st.(calls := calls + [next]);
      NormalizeDelta(st, calls, call, deltas[0], offset);
      RunCons(NormalizeFrame, st, BlockDelta(block, JsonChunk(deltas[0])), JsonDeltas(deltas[1..], block),
              Out(st1, [ToolDelta(call.index, deltas[0])]));
      NormalizeDeltas(st1, calls, next, deltas[1..], offset);
      AppendAssoc(call.arguments, deltas[0], Flatten(deltas[1..]));
    }
  }

  function Range(from: nat, n: nat): seq<nat> {
    seq(n, i requires 0 <= i < n => from + i)
  }

  /** The state once these tools were read. */
  function AfterTools(st: NState, done: seq<Tool>, offset: nat): NState {
    st.(blocks := Range(offset, |done|), calls := Calls(done, 0))
  }

  /** ... and then the next one was opened. */
  function Opened(st: NState, done: seq<Tool>, t: Tool, offset: nat): NState {
    st.(blocks := Range(offset, |done| + 1), calls := Calls(done, 0) + [ToolCall(|done|, t.id, t.name, "")])
  }

  lemma {:induction false} CallsAt(tools: seq<Tool>, index: nat)
    ensures |Calls(tools, index)| == |tools|
    ensures forall i :: 0 <= i < |tools| ==> Calls(tools, index)[i].index == index + i
    decreases |tools|
  {
    if tools != [] {
      CallsAt(tools[1..], index + 1);
      forall i | 0 <= i < |tools| ensures Calls(tools, index)[i].index == index + i {
        if i > 0 {
          assert Calls(tools, index)[i] == Calls(tools[1..], index + 1)[i - 1];
        }
      }
    }
  }

  lemma {:induction false} CallsSnoc(tools: seq<Tool>, t: Tool, index: nat)
    ensures Calls(tools + [t], index) == Calls(tools, index) + [ToolCall(index + |tools|, t.id, t.name, Flatten(t.deltas))]
    decreases |tools|
  {
    if tools == [] {
      assert tools + [t] == [t] && [t][1..] == [];
    } else {
      CallsSnoc(tools[1..], t, index + 1);
      assert (tools + [t])[1..] == tools[1..] + [t];
    }
  }

  /** A new tool block takes the next call index. */
  lemma {:induction false} OpenTool(st: NState, done: seq<Tool>, t: Tool, offset: nat)
    requires st.started
    ensures NormalizeFrame(AfterTools(st, done, offset), BlockStart(offset + |done|, ToolUse(t.id, t.name)))
         == Out(Opened(st, done, t, offset), [ToolStart(|done|, t.id, t.name)])
  {
    CallsAt(done, 0);
    PositionNumbered(Range(offset, |done|), offset, offset + |done|);
    assert Range(offset, |done|) + [offset + |done|] == Range(offset, |done| + 1);
    PutLast(Calls(done, 0), [], ToolCall(|done|, t.id, t.name, ""));
    assert Calls(done, 0) + [] == Calls(done, 0);
  }

  lemma {:induction false} FeedTool(st: NState, done: seq<Tool>, t: Tool, offset: nat)
    requires st.started
    ensures Run(NormalizeFrame, Opened(st, done, t, offset), JsonDeltas(t.deltas, offset + |done|))
         == Out(AfterTools(st, done + [t], offset), DeltaEvents(t.deltas, |done|))
  {
    CallsAt(done, 0);
    CallsSnoc(done, t, 0);
    assert "" + Flatten(t.deltas) == Flatten(t.deltas);
    NormalizeDeltas(Opened(st, done, t, offset), Calls(done, 0), ToolCall(|done|, t.id, t.name, ""), t.deltas, offset);
  }

  /** One tool's frames turn into its events and its finished call. */
  ghost predicate ReadsTool(step: Step, st: NState, done: seq<Tool>, t: Tool, offset: nat) {
    Run(step, AfterTools(st, done, offset), ToolFrames(t, offset + |done|))
      == Out(AfterTools(st, done + [t], offset), [ToolStart(|done|, t.id, t.name)] + DeltaEvents(t.deltas, |done|))
  }

  lemma {:induction false} ToolBlock(step: Step, st: NState, done: seq<Tool>, t: Tool, offset: nat)
    requires step(AfterTools(st, done, offset), BlockStart(offset + |done|, ToolUse(t.id, t.name)))
          == Out(Opened(st, done, t, offset), [ToolStart(|done|, t.id, t.name)])
    requires Run(step, Opened(st, done, t, offset), JsonDeltas(t.deltas, offset + |done|))
          == Out(AfterTools(st, done + [t], offset), DeltaEvents(t.deltas, |done|))
    requires step(AfterTools(st, done + [t], offset), BlockStop(offset + |done|)) == Out(AfterTools(st, done + [t], offset), [])
    ensures ReadsTool(step, st, done, t, offset)
  {
    var block := offset + |done|;
    RunBlock(step, AfterTools(st, done, offset), BlockStart(block, ToolUse(t.id, t.name)), JsonDeltas(t.deltas, block), BlockStop(block),
             Out(Opened(st, done, t, offset), [ToolStart(|done|, t.id, t.name)]),
             Out(AfterTools(st, done + [t], offset), DeltaEvents(t.deltas, |done|)));
  }

  lemma {:induction false} NormalizeTool(st: NState, done: seq<Tool>, t: Tool, offset: nat)
    requires st.started
    ensures ReadsTool(NormalizeFrame, st, done, t, offset)
  {
    OpenTool(st, done, t, offset);
    FeedTool(st, done, t, offset);
    ToolBlock(NormalizeFrame, st, done, t, offset);
  }

  lemma {:induction false} RunTools(step: Step, st: NState, done: seq<Tool>, tools: seq<Tool>, offset: nat)
    requires forall d: seq<Tool>, t: Tool :: ReadsTool(step, st, d, t, offset)
    ensures Run(step, AfterTools(st, done, offset), AllToolFrames(tools, offset + |done|))
         == Out(AfterTools(st, done + tools, offset), ToolEvents(tools, |done|))
    decreases |tools|
  {
    if tools == [] {
      assert done + tools == done;
    } else {
      var t := tools[0];
      assert ReadsTool(step, st, done, t, offset);
      assert |done + [t]| == |done| + 1 && (done + [t]) + tools[1..] == done + tools;
      RunTools(step, st, done + [t], tools[1..], offset);
      RunParts(step, AfterTools(st, done, offset), ToolFrames(t, offset + |done|), AllToolFrames(tools[1..], offset + |done| + 1),
               Out(AfterTools(st, done + [t], offset), [ToolStart(|done|, t.id, t.name)] + DeltaEvents(t.deltas, |done|)),
               Out(AfterTools(st, done + tools, offset), ToolEvents(tools[1..], |done| + 1)));
    }
  }

  lemma {:induction false} CallsIncreasing(tools: seq<Tool>, index: nat)
    ensures Increasing(Calls(tools, index))
    ensures forall i :: 0 <= i < |Calls(tools, index)| ==> index <= Calls(tools, index)[i].index
    decreases |tools|
  {
    if tools != [] {
      CallsIncreasing(tools[1..], index + 1);
      assert Calls(tools, index)[1..] == Calls(tools[1..], index + 1);
    }
  }

  lemma {:induction false} SortedIncreasing(calls: seq<ToolCall>)
    requires Increasing(calls)
    ensures Sorted(calls) == calls
  {
    if calls != [] {
      SortedIncreasing(calls[1..]);
      assert calls == [calls[0]] + calls[1..];
    }
  }

  /** A whole message, put together from its parts. */
  lemma {:induction false} RunMessage(step: Step, st0: NState, st: NState, s: Stream, finish: Option<string>, done: Event)
    requires step(st0, MessageStart(s.id, s.model)) == Out(st, [ResponseStart(s.id, s.model)])
    requires Run(step, st, TextFrames(s.texts)) == Out(st, TextEvents(s.texts))
    requires AfterTools(st, [], Offset(s)) == st
    requires forall d: seq<Tool>, t: Tool :: ReadsTool(step, st, d, t, Offset(s))
    requires Run(step, AfterTools(st, s.tools, Offset(s)), [MessageDelta(ToStopReason(finish)), MessageStop]).emitted == [done]
    ensures Run(step, st0, Frames(s, finish)).emitted == Body(s) + [done]
  {
    var tools := AllToolFrames(s.tools, Offset(s));
    RunTools(step, st, [], s.tools, Offset(s));
    assert [] + s.tools == s.tools;
    RunAppend(step, st, TextFrames(s.texts), tools);
    var blocks := TextFrames(s.texts) + tools;
    RunCons(step, st0, MessageStart(s.id, s.model), blocks, Out(st, [ResponseStart(s.id, s.model)]));
    RunAppend(step, st0, [MessageStart(s.id, s.model)] + blocks, [MessageDelta(ToStopReason(finish)), MessageStop]);
  }

  lemma {:induction false} NormalizeEnd(st: NState, finish: Option<string>)
    requires st.started
    ensures Run(NormalizeFrame, st, [MessageDelta(ToStopReason(finish)), MessageStop]).emitted
         == [ResponseDone(st.id, st.model, Returned(finish), None, Sorted(st.calls))]
  {
    var delta, stop := MessageDelta(ToStopReason(finish)), MessageStop;
    var st1 := st.(finish := FromStopReason(ToStopReason(finish)));
    assert [delta, stop] == [delta] + [stop];
    RunCons(NormalizeFrame, st, delta, [stop], Out(st1, []));
    RunOne(NormalizeFrame, st1, stop);
  }

  lemma {:induction false} Normalized(fallback: Option<string>, s: Stream, finish: Option<string>)
    ensures Run(NormalizeFrame, NInitial(fallback), Frames(s, finish)).emitted
         == Body(s) + [ResponseDone(s.id, s.model, Returned(finish), None, Calls(s.tools, 0))]
  {
    var st0 := NInitial(fallback);
    var st := st0.(started := true, id := s.id, model := s.model);
    NormalizeText(st, s.texts);
    assert Range(Offset(s), 0) == [];
    forall d: seq<Tool>, t: Tool ensures ReadsTool(NormalizeFrame, st, d, t, Offset(s)) {
      NormalizeTool(st, d, t, Offset(s));
    }
    var z := AfterTools(st, s.tools, Offset(s));
    NormalizeEnd(z, finish);
    CallsIncreasing(s.tools, 0);
    SortedIncreasing(Calls(s.tools, 0));
    RunMessage(NormalizeFrame, st0, st, s, finish, ResponseDone(s.id, s.model, Returned(finish), None, Calls(s.tools, 0)));
  }

  // ----- the round trip -----

  /** Render any canonical stream of this shape, in one call or many, and
      normalize the frames: they are well formed, and the very same events come
      back. The done event repeats the stream's id and model and its accumulated
      tool calls, and its finish reason is the original one exactly when that is
      none of the merged ones. */
  lemma {:induction false} RoundTrip(fallback: Option<string>, s: Stream, done: Event)
    requires Named(s) && done.ResponseDone?
    ensures var frames := Run(RenderStep(fallback), RInitial(fallback), Body(s) + [done]).emitted;
      var back := Run(NormalizeFrame, NInitial(fallback), frames).emitted;
      && CheckAll(Before, frames) == Ended
      && back == Body(s) + [ResponseDone(s.id, s.model, Returned(done.finish), None, Calls(s.tools, 0))]
      && (Returned(done.finish) == done.finish <==> done.finish.Some? && done.finish.value !in LOST_REASONS)
  {
    Rendered(fallback, s, done);
    FramesWellFormed(s, done.finish);
    Normalized(fallback, s, done.finish);
    FinishReasonSurvivesIff(done.finish);
  }

  /** Rendering call by call: what the renderer object produces over a run. */
  function RenderCalls(fallback: Option<string>, st: RState, calls: seq<seq<Event>>): seq<Frame>
    decreases |calls|
  {
    if calls == [] then []
    else
      var r := Run(RenderStep(fallback), st, calls[0]);
      r.emitted + RenderCalls(fallback, r.st, calls[1..])
  }

  lemma {:induction false} RenderCallsIs(fallback: Option<string>, st: RState, calls: seq<seq<Event>>)
    ensures RenderCalls(fallback, st, calls) == Run(RenderStep(fallback), st, Flatten(calls)).emitted
    decreases |calls|
  {
    if calls != [] {
      RunAppend(RenderStep(fallback), st, calls[0], Flatten(calls[1..]));
      RenderCallsIs(fallback, Run(RenderStep(fallback), st, calls[0]).st, calls[1..]);
    }
  }

  /** The four standard finish reasons all survive. */
  lemma {:induction false} StandardReasonsSurvive(finish: string)
    requires finish in {"stop", "length", "tool_calls", "content_filter"}
    ensures Returned(Some(finish)) == Some(finish)
  {
  }
}
