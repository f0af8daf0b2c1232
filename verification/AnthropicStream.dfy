/**
 The Anthropic messages stream: a renderer from canonical events to typed frames
 and a normalizer back, each with the flags and maps it keeps between calls.
 */
module AnthropicStream {
  import opened Wrappers
  import opened CanonicalStream
  import opened Transducer

  datatype Block = TextBlock | ToolUse(id: string, name: string)
  datatype Delta = TextChunk(text: string) | JsonChunk(json: string)

  datatype Frame =
    | MessageStart(id: string, model: string)
    | BlockStart(index: nat, block: Block)
    | BlockDelta(index: nat, delta: Delta)
    | BlockStop(index: nat)
    | MessageDelta(stopReason: Option<string>)
    | MessageStop

  // ----- finish reasons -----

  function ToStopReason(finish: Option<string>): Option<string> {
    if finish.None? || finish.value == "" then None
    else if finish.value == "stop" then Some("end_turn")
    else if finish.value == "length" then Some("max_tokens")
    else if finish.value == "tool_calls" || finish.value == "function_call" then Some("tool_use")
    else finish
  }

  function FromStopReason(stop: Option<string>): Option<string> {
    if stop.None? || stop.value == "" then None
    else if stop.value == "end_turn" then Some("stop")
    else if stop.value == "max_tokens" then Some("length")
    else if stop.value == "tool_use" then Some("tool_calls")
    else stop
  }

  /** What a finish reason comes back as. */
  function Returned(finish: Option<string>): Option<string> {
    Some(FromStopReason(ToStopReason(finish)).GetOr("stop"))
  }

  const LOST_REASONS: set<string> := {"", "function_call", "end_turn", "max_tokens", "tool_use"}

  /** A finish reason survives the round trip exactly when it is none of the
      reasons that the two mappings merge. */
  lemma {:induction false} FinishReasonSurvivesIff(finish: Option<string>)
    ensures Returned(finish) == finish <==> finish.Some? && finish.value !in LOST_REASONS
  {
  }

  // ----- rendering -----

  datatype RState = RState(
    started: bool, textOpen: bool, hadText: bool, openTool: Option<nat>, id: string, model: string)

  type ROut = Out<RState, Frame>

  function RInitial(fallback: Option<string>): RState {
    RState(false, false, false, None, "", fallback.GetOr("unknown"))
  }

  function Decimal(n: nat): string {
    if n < 10 then [('0' as int + n) as char] else Decimal(n / 10) + [('0' as int + n % 10) as char]
  }

  function BlockIndex(st: RState, tool: nat): nat {
    tool + if st.hadText then 1 else 0
  }

  function StartMessage(fallback: Option<string>, st: RState): ROut {
    if st.started then Out(st, [])
    else Out(st.(started := true), [MessageStart(Or(st.id, FallbackId("msg_", fallback)), st.model)])
  }

  function CloseTool(st: RState): ROut {
    if st.openTool.None? then Out(st, [])
    else Out(st.(openTool := None), [BlockStop(BlockIndex(st, st.openTool.value))])
  }

  function CloseText(st: RState): ROut {
    if st.textOpen then Out(st.(textOpen := false), [BlockStop(0)]) else Out(st, [])
  }

  function OpenText(st: RState): ROut {
    if st.textOpen then Out(st, [])
    else Out(st.(textOpen := true, hadText := true), [BlockStart(0, TextBlock)])
  }

  function RenderEvent(fallback: Option<string>, st: RState, e: Event): ROut {
    match e
    case ResponseStart(id, model) =>
      StartMessage(fallback, st.(id := Or(id, st.id), model := Or(model, st.model)))
    case TextDelta(delta) =>
      var a := StartMessage(fallback, st);
      var b := CloseTool(a.st);
      var c := OpenText(b.st);
      Out(c.st, a.emitted + b.emitted + c.emitted + [BlockDelta(0, TextChunk(delta))])
    case ToolStart(index, id, name) =>
      var a := StartMessage(fallback, st);
      var b := CloseText(a.st);
      var c := if b.st.openTool == Some(index) then Out(b.st, []) else CloseTool(b.st);
      Out(c.st.(openTool := Some(index)),
           a.emitted + b.emitted + c.emitted
           + [BlockStart(BlockIndex(c.st, index), ToolUse(Or(id, "toolu_" + Decimal(index + 1)), Or(name, "tool")))])
    case ToolDelta(index, arguments) =>
      var a := StartMessage(fallback, st);
      Out(a.st, a.emitted + [BlockDelta(BlockIndex(a.st, index), JsonChunk(arguments))])
    case ResponseDone(_, _, finish, _, _) =>
      var a := StartMessage(fallback, st);
      var b := CloseTool(a.st);
      var c := CloseText(b.st);
      Out(c.st, a.emitted + b.emitted + c.emitted + [MessageDelta(ToStopReason(finish)), MessageStop])
  }

  /** The renderer's step, for a given fallback model. */
  function RenderStep(fallback: Option<string>): (RState, Event) -> ROut {
    (st, e) => RenderEvent(fallback, st, e)
  }

  class Renderer {
    const fallback: Option<string>
    var st: RState

    constructor (fallback: Option<string>)
      ensures this.fallback == fallback && st == RInitial(fallback)
    {
      this.fallback := fallback;
      st := RInitial(fallback);
    }

    method Render(events: seq<Event>) returns (frames: seq<Frame>)
      modifies this`st
      ensures Out(st, frames) == Run(RenderStep(fallback), old(st), events)
    {
      frames := [];
      var i := 0;
      while i < |events|
        invariant 0 <= i <= |events|
        invariant Out(st, frames) == Run(RenderStep(fallback), old(st), events[..i])
      {
        RunPrefix(RenderStep(fallback), old(st), events, i);
        var out := RenderEvent(fallback, st, events[i]);
        st, frames := out.st, frames + out.emitted;
        i := i + 1;
      }
      assert events[..i] == events;
    }
  }

  // ----- normalizing -----

  datatype NState = NState(
    id: string, model: string, finish: Option<string>, started: bool, blocks: seq<nat>, calls: seq<ToolCall>)

  type NOut = Out<NState, Event>

  function NInitial(fallback: Option<string>): NState {
    NState("", fallback.GetOr("unknown"), None, false, [], [])
  }

  /** The position of a block among the tool blocks seen, in order of appearance. */
  function Position(blocks: seq<nat>, block: nat): Option<nat> {
    if blocks == [] then None
    else if blocks[|blocks| - 1] == block then Some(|blocks| - 1)
    else Position(blocks[..|blocks| - 1], block)
  }

  function ToolIndex(st: NState, block: nat): (NState, nat) {
    var p := Position(st.blocks, block);
    if p.Some? then (st, p.value) else (st.(blocks := st.blocks + [block]), |st.blocks|)
  }

  function EmitStart(st: NState): NOut {
    if st.started then Out(st, []) else Out(st.(started := true), [ResponseStart(st.id, st.model)])
  }

  function DoneEvent(st: NState): Event {
    ResponseDone(st.id, st.model, Some(st.finish.GetOr("stop")), None, Sorted(st.calls))
  }

  function NormalizeFrame(st: NState, f: Frame): NOut {
    match f
    case MessageStart(id, model) => EmitStart(st.(id := id, model := model))
    case BlockStart(block, ToolUse(id, name)) =>
      var a := EmitStart(st);
      var (s, index) := ToolIndex(a.st, block);
      Out(s.(calls := Put(s.calls, ToolCall(index, id, name, ""))), a.emitted + [ToolStart(index, id, name)])
    case BlockStart(_, TextBlock) => Out(st, [])
    case BlockDelta(_, TextChunk(text)) =>
      var a := EmitStart(st);
      Out(a.st, a.emitted + [TextDelta(text)])
    case BlockDelta(block, JsonChunk(json)) =>
      var a := EmitStart(st);
      var (s, index) := ToolIndex(a.st, block);
      var call := Find(s.calls, index).GetOr(ToolCall(index, "call_" + Decimal(index + 1), "tool", ""));
      Out(s.(calls := Put(s.calls, call.(arguments := call.arguments + json))), a.emitted + [ToolDelta(index, json)])
    case BlockStop(_) => Out(st, [])
    case MessageDelta(stop) => Out(st.(finish := FromStopReason(stop)), [])
    case MessageStop =>
      var a := EmitStart(st);
      Out(a.st, a.emitted + [DoneEvent(a.st)])
  }

  class Normalizer {
    var st: NState

    constructor (fallback: Option<string>)
      ensures st == NInitial(fallback)
    {
      st := NInitial(fallback);
    }

    /** The frames of one chunk; a final chunk that says nothing ends the stream. */
    method Feed(frames: seq<Frame>, done: bool) returns (events: seq<Event>)
      modifies this
      ensures var r := Run(NormalizeFrame, old(st), frames);
        && st == r.st
        && events == if done && r.emitted == [] then [DoneEvent(r.st)] else r.emitted
    {
      events := [];
      var i := 0;
      while i < |frames|
        invariant 0 <= i <= |frames|
        invariant Out(st, events) == Run(NormalizeFrame, old(st), frames[..i])
      {
        RunPrefix(NormalizeFrame, old(st), frames, i);
        var out := NormalizeFrame(st, frames[i]);
        st, events := out.st, events + out.emitted;
        i := i + 1;
      }
      assert frames[..i] == frames;
      if done && |events| == 0 {
        events := [DoneEvent(st)];
      }
    }
  }

  // ----- how a stream ends -----

  /** What a normalizer emits over chunks, the last one marked done. */
  function FeedChunks(st: NState, chunks: seq<seq<Frame>>): seq<Event>
    decreases |chunks|
  {
    if chunks == [] then []
    else
      var r := Run(NormalizeFrame, st, chunks[0]);
      (if |chunks| == 1 && r.emitted == [] then [DoneEvent(r.st)] else r.emitted) + FeedChunks(r.st, chunks[1..])
  }

  method NormalizeChunks(fallback: Option<string>, chunks: seq<seq<Frame>>) returns (events: seq<Event>)
    ensures events == FeedChunks(NInitial(fallback), chunks)
  {
    var normalizer := new Normalizer(fallback);
    events := [];
    var i := 0;
    while i < |chunks|
      invariant 0 <= i <= |chunks| && fresh(normalizer)
      invariant events + FeedChunks(normalizer.st, chunks[i..]) == FeedChunks(NInitial(fallback), chunks)
    {
      ghost var st := normalizer.st;
      var more := normalizer.Feed(chunks[i], i == |chunks| - 1);
      assert FeedChunks(st, chunks[i..]) == more + FeedChunks(normalizer.st, chunks[i + 1..]);
      AppendAssoc(events, more, FeedChunks(normalizer.st, chunks[i + 1..]));
      events := events + more;
      i := i + 1;
    }
    assert events + [] == events;
  }

  /** Frames that never make the normalizer emit. */
  predicate Quiet(f: Frame) {
    f.BlockStop? || f.MessageDelta? || (f.BlockStart? && f.block.TextBlock?)
  }

  /** Frames that emit nothing once the stream has started: a repeated message start too. */
  predicate AllQuiet(started: bool, frames: seq<Frame>) {
    forall k :: 0 <= k < |frames| ==> Quiet(frames[k]) || (started && frames[k].MessageStart?)
  }

  /** Some frame starts the stream. */
  predicate Opened(frames: seq<Frame>) {
    exists k :: 0 <= k < |frames| && !Quiet(frames[k])
  }

  /** The last chunk holds only frames that emit nothing. */
  predicate QuietEnd(started: bool, chunks: seq<seq<Frame>>)
    requires chunks != []
  {
    var last := |chunks| - 1;
    AllQuiet(started || Opened(Flatten(chunks[..last])), chunks[last])
  }

  lemma {:induction false} StepEmitsIff(st: NState, f: Frame)
    ensures var a := NormalizeFrame(st, f);
      && (a.emitted == [] <==> Quiet(f) || (st.started && f.MessageStart?))
      && (a.st.started <==> st.started || !Quiet(f))
  {
  }

  lemma {:induction false} EmitsIff(st: NState, frames: seq<Frame>)
    ensures var r := Run(NormalizeFrame, st, frames);
      && (r.emitted == [] <==> AllQuiet(st.started, frames))
      && (r.st.started <==> st.started || Opened(frames))
    decreases |frames|
  {
    if frames != [] {
      var a := NormalizeFrame(st, frames[0]);
      StepEmitsIff(st, frames[0]);
      EmitsIff(a.st, frames[1..]);
      Uncons(frames, []);
      assert Opened(frames) <==> !Quiet(frames[0]) || Opened(frames[1..]) by {
        if Opened(frames[1..]) {
          var k :| 0 <= k < |frames[1..]| && !Quiet(frames[1..][k]);
          assert !Quiet(frames[k + 1]);
        }
        if Opened(frames) && Quiet(frames[0]) {
          var k :| 0 <= k < |frames| && !Quiet(frames[k]);
          assert !Quiet(frames[1..][k - 1]);
        }
      }
      assert AllQuiet(st.started, frames) <==>
        (Quiet(frames[0]) || (st.started && frames[0].MessageStart?)) && AllQuiet(st.started, frames[1..]);
    }
  }

  /** Feeding chunk by chunk, the last one marked done, against feeding the frames
      at once: one more done event exactly when the last chunk is quiet. */
  lemma {:induction false} FeedChunksIs(st: NState, chunks: seq<seq<Frame>>)
    requires chunks != []
    ensures var all := Run(NormalizeFrame, st, Flatten(chunks));
      FeedChunks(st, chunks) == all.emitted + if QuietEnd(st.started, chunks) then [DoneEvent(all.st)] else []
    decreases |chunks|
  {
    var r := Run(NormalizeFrame, st, chunks[0]);
    EmitsIff(st, chunks[0]);
    RunAppend(NormalizeFrame, st, chunks[0], Flatten(chunks[1..]));
    if |chunks| == 1 {
      assert chunks[1..] == [] && chunks[..0] == [];
      AppendEmpty(r.emitted);
      AppendEmpty([DoneEvent(r.st)]);
    } else {
      FeedChunksIs(r.st, chunks[1..]);
      QuietEndCons(st.started, chunks, r.st.started);
      var x := Run(NormalizeFrame, r.st, Flatten(chunks[1..]));
      AppendAssoc(r.emitted, x.emitted, if QuietEnd(st.started, chunks) then [DoneEvent(x.st)] else []);
    }
  }

  lemma {:induction false} QuietEndCons(started: bool, chunks: seq<seq<Frame>>, next: bool)
    requires |chunks| > 1 && (next <==> started || Opened(chunks[0]))
    ensures QuietEnd(started, chunks) <==> QuietEnd(next, chunks[1..])
  {
    var last := |chunks| - 1;
    var a, b := chunks[0], Flatten(chunks[1..last]);
    assert chunks[..last][0] == a && chunks[..last][1..] == chunks[1..last] == chunks[1..][..last - 1];
    assert Flatten(chunks[..last]) == a + b;
    assert Opened(a + b) <==> Opened(a) || Opened(b) by {
      if Opened(a) {
        var k :| 0 <= k < |a| && !Quiet(a[k]);
        assert !Quiet((a + b)[k]);
      }
      if Opened(b) {
        var k :| 0 <= k < |b| && !Quiet(b[k]);
        assert !Quiet((a + b)[|a| + k]);
      }
    }
  }

  function Dones(es: seq<Event>): nat {
    if es == [] then 0 else (if es[0].ResponseDone? then 1 else 0) + Dones(es[1..])
  }

  function Stops(frames: seq<Frame>): nat {
    if frames == [] then 0 else (if frames[0].MessageStop? then 1 else 0) + Stops(frames[1..])
  }

  lemma {:induction false} DonesAppend(a: seq<Event>, b: seq<Event>)
    ensures Dones(a + b) == Dones(a) + Dones(b)
  {
    if a == [] {
      assert a + b == b;
    } else {
      assert (a + b)[1..] == a[1..] + b;
      DonesAppend(a[1..], b);
    }
  }

  lemma {:induction false} StepDones(st: NState, f: Frame)
    ensures Dones(NormalizeFrame(st, f).emitted) == if f.MessageStop? then 1 else 0
  {
    var a := EmitStart(st);
    assert a.emitted != [] ==> a.emitted[1..] == [];
    if f.BlockStart? && f.block.ToolUse? {
      var (s, index) := ToolIndex(a.st, f.index);
      DonesAppend(a.emitted, [ToolStart(index, f.block.id, f.block.name)]);
    } else if f.BlockDelta? && f.delta.TextChunk? {
      DonesAppend(a.emitted, [TextDelta(f.delta.text)]);
    } else if f.BlockDelta? {
      var (s, index) := ToolIndex(a.st, f.index);
      DonesAppend(a.emitted, [ToolDelta(index, f.delta.json)]);
    } else if f.MessageStop? {
      DonesAppend(a.emitted, [DoneEvent(a.st)]);
    }
  }

  lemma {:induction false} RunDones(st: NState, frames: seq<Frame>)
    ensures Dones(Run(NormalizeFrame, st, frames).emitted) == Stops(frames)
    decreases |frames|
  {
    if frames != [] {
      var a := NormalizeFrame(st, frames[0]);
      StepDones(st, frames[0]);
      RunDones(a.st, frames[1..]);
      DonesAppend(a.emitted, Run(NormalizeFrame, a.st, frames[1..]).emitted);
    }
  }

  /** A chunked stream has one done event for each message stop, and one more if its
      last chunk is quiet: so exactly one if and only if these add up to one. */
  lemma {:induction false} DonesAre(fallback: Option<string>, chunks: seq<seq<Frame>>)
    requires chunks != []
    ensures Dones(FeedChunks(NInitial(fallback), chunks)) == Stops(Flatten(chunks)) + if QuietEnd(false, chunks) then 1 else 0
  {
    var st := NInitial(fallback);
    FeedChunksIs(st, chunks);
    RunDones(st, Flatten(chunks));
    var all := Run(NormalizeFrame, st, Flatten(chunks));
    DonesAppend(all.emitted, if QuietEnd(false, chunks) then [DoneEvent(all.st)] else []);
  }

  /** Any whole message followed by an empty last chunk ends twice. */
  lemma {:induction false} EmptyEndDoubles(fallback: Option<string>, message: seq<Frame>)
    requires Stops(message) == 1
    ensures Dones(FeedChunks(NInitial(fallback), [message, []])) == 2
  {
    FlattenTwo(message, []);
    AppendEmpty(message);
    DonesAre(fallback, [message, []]);
  }

  lemma {:induction false} DoneTwice()
    ensures var message := [MessageStart("m", "model"), MessageDelta(Some("end_turn")), MessageStop];
      Stops(message) == 1 && Dones(FeedChunks(NInitial(None), [message, []])) == 2
  {
    var message := [MessageStart("m", "model"), MessageDelta(Some("end_turn")), MessageStop];
    assert message[1..][1..][1..] == [];
    assert Stops(message[1..][1..]) == 1;
    EmptyEndDoubles(None, message);
  }
}
