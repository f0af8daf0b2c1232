/**
 Both directions of the Anthropic stream on every input, told by the input's history:
 which frames each event becomes, which events each frame becomes, and for which
 streams the frames nest.
 */
module AnthropicContent {
  import opened Wrappers
  import opened CanonicalStream
  import opened Transducer
  import opened AnthropicStream

  // ----- the two tables of finish reasons -----

  /** Each finish reason by its counterpart; all others pass through, and an absent or
      empty one is absent. */
  lemma {:induction false} ReasonsAre(finish: Option<string>)
    ensures finish in {Some("stop")} <==> ToStopReason(finish) == Some("end_turn") && finish != Some("end_turn")
    ensures finish in {Some("length")} <==> ToStopReason(finish) == Some("max_tokens") && finish != Some("max_tokens")
    ensures finish in {Some("tool_calls"), Some("function_call")}
       <==> ToStopReason(finish) == Some("tool_use") && finish != Some("tool_use")
    ensures ToStopReason(finish) == None <==> finish in {None, Some("")}
    ensures finish.Some? && finish.value !in {"", "stop", "length", "tool_calls", "function_call"} ==>
            ToStopReason(finish) == finish
    ensures FromStopReason(Some("end_turn")) == Some("stop") && FromStopReason(Some("max_tokens")) == Some("length")
            && FromStopReason(Some("tool_use")) == Some("tool_calls")
    ensures FromStopReason(finish) == None <==> finish in {None, Some("")}
    ensures finish.Some? && finish.value !in {"", "end_turn", "max_tokens", "tool_use"} ==> FromStopReason(finish) == finish
  {
  }

  // ----- made-up ids -----

  /** The number that digits stand for. */
  function ValueOf(s: string): int {
    if s == "" then 0 else 10 * ValueOf(s[..|s| - 1]) + (s[|s| - 1] as int - '0' as int)
  }

  /** A number is written in digits, without a leading zero. */
  lemma {:induction false} DecimalReads(n: nat)
    ensures var s := Decimal(n);
      && s != "" && ValueOf(s) == n && (forall i :: 0 <= i < |s| ==> '0' <= s[i] <= '9')
      && (s[0] == '0' <==> n == 0)
  {
    if n < 10 {
      assert Decimal(n)[..0] == "";
    } else {
      DecimalReads(n / 10);
      SnocIs(Decimal(n / 10), ('0' as int + n % 10) as char);
    }
  }

  // ----- rendering: frames by the history of events -----

  datatype Open = Nothing | Text | Tool(index: nat)

  /** What the last event that opens or ends something left open. */
  function OpenAfter(es: seq<Event>): Open {
    if es == [] then Nothing
    else
      match es[|es| - 1]
      case TextDelta(_) => Text
      case ToolStart(index, _, _) => Tool(index)
      case ResponseDone(_, _, _, _, _) => Nothing
      case _ => OpenAfter(es[..|es| - 1])
  }

  /** Block 0 is the text's, if there has been any. */
  function BlockOf(es: seq<Event>, tool: nat): nat {
    tool + if HasText(es) then 1 else 0
  }

  /** Text closes a tool, another tool closes text or a tool, and the end closes all. */
  predicate Closes(open: Open, e: Event) {
    match e
    case TextDelta(_) => open.Tool?
    case ToolStart(index, _, _) => open.Text? || (open.Tool? && open.index != index)
    case ResponseDone(_, _, _, _, _) => !open.Nothing?
    case _ => false
  }

  function Content(es: seq<Event>, e: Event): seq<Frame> {
    match e
    case ResponseStart(_, _) => []
    case TextDelta(delta) =>
      (if OpenAfter(es).Text? then [] else [BlockStart(0, TextBlock)]) + [BlockDelta(0, TextChunk(delta))]
    case ToolStart(index, id, name) =>
      var id := if id != "" then id else "toolu_" + Decimal(index + 1);
      var name := if name != "" then name else "tool";
      [BlockStart(BlockOf(es, index), ToolUse(id, name))]
    case ToolDelta(index, arguments) => [BlockDelta(BlockOf(es, index), JsonChunk(arguments))]
    case ResponseDone(_, _, finish, _, _) => [MessageDelta(ToStopReason(finish)), MessageStop]
  }

  /** The message's one start, with the names known by the first event. */
  function Starting(fallback: Option<string>, es: seq<Event>, e: Event): seq<Frame> {
    if es != [] then []
    else
      var id := if e.ResponseStart? then e.id else "";
      var model := if e.ResponseStart? && e.model != "" then e.model else if fallback.Some? then fallback.value else "unknown";
      [MessageStart(if id != "" then id else FallbackId("msg_", fallback), model)]
  }

  function Closing(es: seq<Event>, e: Event): seq<Frame> {
    var open := OpenAfter(es);
    if Closes(open, e) then [BlockStop(if open.Tool? then BlockOf(es, open.index) else 0)] else []
  }

  /** The frames of an event, given the events before it. */
  function FramesFor(fallback: Option<string>, es: seq<Event>, e: Event): seq<Frame> {
    Starting(fallback, es, e) + (Closing(es, e) + Content(es, e))
  }

  function FramesOf(fallback: Option<string>, es: seq<Event>): seq<Frame> {
    if es == [] then []
    else FramesOf(fallback, es[..|es| - 1]) + FramesFor(fallback, es[..|es| - 1], es[|es| - 1])
  }

  /** The renderer's state, as the history has it. */
  ghost predicate Knows(fallback: Option<string>, st: RState, es: seq<Event>) {
    var open := OpenAfter(es);
    && st.started == (es != []) && st.hadText == HasText(es)
    && st.textOpen == open.Text? && st.openTool == (if open.Tool? then Some(open.index) else None)
    && (es == [] ==> st.id == "" && st.model == if fallback.Some? then fallback.value else "unknown")
  }

  lemma {:induction false} HistoryStep(es: seq<Event>, e: Event)
    ensures HasText(es + [e]) == (e.TextDelta? || HasText(es))
    ensures OpenAfter(es + [e]) ==
      match e {
        case TextDelta(_) => Text
        case ToolStart(index, _, _) => Tool(index)
        case ResponseDone(_, _, _, _, _) => Nothing
        case _ => OpenAfter(es)
      }
  {
    SnocIs(es, e);
  }

  /** Text while text is open is text that was said. */
  lemma {:induction false} OpenTextWasSaid(es: seq<Event>)
    ensures OpenAfter(es).Text? ==> HasText(es)
  {
    if es != [] {
      OpenTextWasSaid(es[..|es| - 1]);
    }
  }

  lemma {:induction false} StartIs(fallback: Option<string>, st: RState, es: seq<Event>, e: Event)
    requires Knows(fallback, st, es)
    ensures var st' := if e.ResponseStart? then st.(id := Or(e.id, st.id), model := Or(e.model, st.model)) else st;
      StartMessage(fallback, st') == Out(st'.(started := true), Starting(fallback, es, e))
  {
  }

  lemma {:induction false} NextKnows(fallback: Option<string>, st: RState, es: seq<Event>, e: Event)
    requires Knows(fallback, st, es)
    ensures Knows(fallback, RenderEvent(fallback, st, e).st, es + [e])
  {
    HistoryStep(es, e);
    OpenTextWasSaid(es);
    StartIs(fallback, st, es, e);
  }

  lemma {:induction false} TextIs(fallback: Option<string>, st: RState, es: seq<Event>, delta: string)
    requires Knows(fallback, st, es)
    ensures RenderEvent(fallback, st, TextDelta(delta)).emitted
         == Starting(fallback, es, TextDelta(delta)) + Closing(es, TextDelta(delta)) + Content(es, TextDelta(delta))
  {
    var e := TextDelta(delta);
    StartIs(fallback, st, es, e);
    var a := StartMessage(fallback, st);
    var b := CloseTool(a.st);
    var c := OpenText(b.st);
    assert b.emitted == Closing(es, e);
    assert c.emitted + [BlockDelta(0, TextChunk(delta))] == Content(es, e);
    AppendAssoc(a.emitted + b.emitted, c.emitted, [BlockDelta(0, TextChunk(delta))]);
  }

  lemma {:induction false} StartingToolIs(fallback: Option<string>, st: RState, es: seq<Event>, e: Event)
    requires Knows(fallback, st, es) && e.ToolStart?
    ensures RenderEvent(fallback, st, e).emitted == Starting(fallback, es, e) + Closing(es, e) + Content(es, e)
  {
    StartIs(fallback, st, es, e);
    var a := StartMessage(fallback, st);
    var b := CloseText(a.st);
    var c := if b.st.openTool == Some(e.index) then Out(b.st, []) else CloseTool(b.st);
    assert b.emitted + c.emitted == Closing(es, e);
    AppendAssoc(a.emitted, b.emitted, c.emitted);
  }

  lemma {:induction false} EndIs(fallback: Option<string>, st: RState, es: seq<Event>, e: Event)
    requires Knows(fallback, st, es) && e.ResponseDone?
    ensures RenderEvent(fallback, st, e).emitted == Starting(fallback, es, e) + Closing(es, e) + Content(es, e)
  {
    StartIs(fallback, st, es, e);
    var a := StartMessage(fallback, st);
    var b := CloseTool(a.st);
    var c := CloseText(b.st);
    assert b.emitted + c.emitted == Closing(es, e);
    AppendAssoc(a.emitted, b.emitted, c.emitted);
  }

  lemma {:induction false} ContentIs(fallback: Option<string>, st: RState, es: seq<Event>, e: Event)
    requires Knows(fallback, st, es) && !e.ResponseStart?
    ensures RenderEvent(fallback, st, e).emitted == Starting(fallback, es, e) + Closing(es, e) + Content(es, e)
  {
    match e
    case TextDelta(delta) => TextIs(fallback, st, es, delta);
    case ToolDelta(_, _) =>
      StartIs(fallback, st, es, e);
      AppendEmpty(Starting(fallback, es, e));
    case ToolStart(_, _, _) => StartingToolIs(fallback, st, es, e);
    case ResponseDone(_, _, _, _, _) => EndIs(fallback, st, es, e);
  }

  lemma {:induction false} EmittedIs(fallback: Option<string>, st: RState, es: seq<Event>, e: Event)
    requires Knows(fallback, st, es)
    ensures RenderEvent(fallback, st, e).emitted == FramesFor(fallback, es, e)
  {
    if e.ResponseStart? {
      StartIs(fallback, st, es, e);
      AppendEmpty(Starting(fallback, es, e));
    } else {
      ContentIs(fallback, st, es, e);
      AppendAssoc(Starting(fallback, es, e), Closing(es, e), Content(es, e));
    }
  }

  lemma {:induction false} FramesSnoc(fallback: Option<string>, es: seq<Event>, e: Event)
    ensures FramesOf(fallback, es + [e]) == FramesOf(fallback, es) + FramesFor(fallback, es, e)
  {
    SnocIs(es, e);
  }

  lemma {:induction false} RenderOneMore(fallback: Option<string>, es: seq<Event>, e: Event, r: ROut)
    requires r == Run(RenderStep(fallback), RInitial(fallback), es)
    requires r.emitted == FramesOf(fallback, es) && Knows(fallback, r.st, es)
    ensures var z := Run(RenderStep(fallback), RInitial(fallback), es + [e]);
      z.emitted == FramesOf(fallback, es + [e]) && Knows(fallback, z.st, es + [e])
  {
    RunAppend(RenderStep(fallback), RInitial(fallback), es, [e]);
    RunOne(RenderStep(fallback), r.st, e);
    NextKnows(fallback, r.st, es, e);
    EmittedIs(fallback, r.st, es, e);
    FramesSnoc(fallback, es, e);
  }

  /** Every stream renders to exactly the frames its history calls for. */
  lemma {:induction false} RenderedIs(fallback: Option<string>, es: seq<Event>)
    ensures var r := Run(RenderStep(fallback), RInitial(fallback), es);
      r.emitted == FramesOf(fallback, es) && Knows(fallback, r.st, es)
    decreases |es|
  {
    if es != [] {
      var front, e := es[..|es| - 1], es[|es| - 1];
      SplitLast(es);
      RenderedIs(fallback, front);
      RenderOneMore(fallback, front, e, Run(RenderStep(fallback), RInitial(fallback), front));
    }
  }

  // ----- which streams give frames that nest -----

  /** The block that a reader of frames has open. */
  datatype Reading = Broken | Outside | Inside(block: nat, text: bool)

  /** Blocks do not overlap, are fed their own kind while open, and are closed by the end. */
  function Read(at: Reading, f: Frame): Reading {
    match f
    case BlockStart(block, kind) => if at.Outside? then Inside(block, kind.TextBlock?) else Broken
    case BlockDelta(block, delta) => if at == Inside(block, delta.TextChunk?) then at else Broken
    case BlockStop(block) => if at.Inside? && at.block == block then Outside else Broken
    case _ => if at.Outside? then Outside else Broken
  }

  function ReadAll(at: Reading, fs: seq<Frame>): Reading
    decreases |fs|
  {
    if fs == [] then at else ReadAll(Read(at, fs[0]), fs[1..])
  }

  lemma {:induction false} ReadAppend(at: Reading, a: seq<Frame>, b: seq<Frame>)
    ensures ReadAll(at, a + b) == ReadAll(ReadAll(at, a), b)
    decreases |a|
  {
    if a == [] {
      assert a + b == b;
    } else {
      assert (a + b)[1..] == a[1..] + b;
      ReadAppend(Read(at, a[0]), a[1..], b);
    }
  }

  lemma {:induction false} BrokenStays(fs: seq<Frame>)
    ensures ReadAll(Broken, fs) == Broken
  {
    if fs != [] {
      BrokenStays(fs[1..]);
    }
  }

  lemma {:induction false} ReadOne(at: Reading, f: Frame)
    ensures ReadAll(at, [f]) == Read(at, f)
  {
  }

  lemma {:induction false} ReadTwo(at: Reading, f: Frame, g: Frame)
    ensures ReadAll(at, [f, g]) == Read(Read(at, f), g)
  {
    assert [f, g][1..] == [g];
    ReadOne(Read(at, f), g);
  }

  /** The tool that is open is not started again, and no other tool is fed. */
  predicate InTurn(open: Open, e: Event) {
    && (e.ToolStart? ==> open != Tool(e.index))
    && (e.ToolDelta? ==> open == Tool(e.index))
  }

  ghost predicate OneAtATime(es: seq<Event>) {
    forall k :: 0 <= k < |es| ==> InTurn(OpenAfter(es[..k]), es[k])
  }

  function ReadingOf(es: seq<Event>): Reading {
    match OpenAfter(es)
    case Nothing => Outside
    case Text => Inside(0, true)
    case Tool(index) => Inside(BlockOf(es, index), false)
  }

  lemma {:induction false} ReadFor(fallback: Option<string>, es: seq<Event>, e: Event)
    ensures ReadAll(ReadingOf(es), FramesFor(fallback, es, e)) ==
      if InTurn(OpenAfter(es), e) then ReadingOf(es + [e]) else Broken
  {
    var at, start, close, say := ReadingOf(es), Starting(fallback, es, e), Closing(es, e), Content(es, e);
    SnocIs(es, e);
    OpenTextWasSaid(es);
    ReadAppend(at, start, close + say);
    if start != [] {
      ReadOne(at, start[0]);
    }
    assert ReadAll(at, start) == at;
    ReadAppend(at, close, say);
    if close != [] {
      ReadOne(at, close[0]);
    }
    var closed := ReadAll(at, close);
    assert closed == if close != [] then Outside else at;
    match e
    case ResponseStart(_, _) =>
    case TextDelta(delta) =>
      if OpenAfter(es).Text? {
        assert say == [BlockDelta(0, TextChunk(delta))];
        ReadOne(closed, say[0]);
      } else {
        assert say == [BlockStart(0, TextBlock), BlockDelta(0, TextChunk(delta))];
        ReadTwo(closed, say[0], say[1]);
      }
    case ToolStart(_, _, _) => ReadOne(closed, say[0]);
    case ToolDelta(_, _) => ReadOne(closed, say[0]);
    case ResponseDone(_, _, _, _, _) => ReadTwo(closed, say[0], say[1]);
  }

  lemma {:induction false} OneMoreInTurn(es: seq<Event>, e: Event)
    ensures OneAtATime(es + [e]) <==> OneAtATime(es) && InTurn(OpenAfter(es), e)
  {
    var all := es + [e];
    assert forall k :: 0 <= k < |es| ==> all[k] == es[k] && all[..k] == es[..k];
    assert all[|es|] == e && all[..|es|] == es;
  }

  lemma {:induction false} ReadOneMore(fallback: Option<string>, es: seq<Event>, e: Event)
    requires ReadAll(Outside, FramesOf(fallback, es)) == if OneAtATime(es) then ReadingOf(es) else Broken
    ensures ReadAll(Outside, FramesOf(fallback, es + [e])) == if OneAtATime(es + [e]) then ReadingOf(es + [e]) else Broken
  {
    var frames := FramesFor(fallback, es, e);
    FramesSnoc(fallback, es, e);
    ReadAppend(Outside, FramesOf(fallback, es), frames);
    ReadFor(fallback, es, e);
    BrokenStays(frames);
    OneMoreInTurn(es, e);
  }

  lemma {:induction false} ReadFrames(fallback: Option<string>, es: seq<Event>)
    ensures ReadAll(Outside, FramesOf(fallback, es)) == if OneAtATime(es) then ReadingOf(es) else Broken
    decreases |es|
  {
    if es != [] {
      var front, e := es[..|es| - 1], es[|es| - 1];
      SplitLast(es);
      ReadFrames(fallback, front);
      ReadOneMore(fallback, front, e);
    }
  }

  /** The frames of a stream nest if and only if its tools take turns: each is fed only
      while it is the one open, and not started again while it is. */
  lemma {:induction false} NestsIff(fallback: Option<string>, es: seq<Event>)
    ensures var at := ReadAll(Outside, Run(RenderStep(fallback), RInitial(fallback), es).emitted);
      && (at != Broken <==> OneAtATime(es))
      && (OneAtATime(es) ==> at == ReadingOf(es))
  {
    RenderedIs(fallback, es);
    ReadFrames(fallback, es);
  }

  /** Two calls whose arguments arrive by turns do not nest. */
  lemma {:induction false} ParallelToolsDoNotNest()
    ensures var es := [ToolStart(0, "a", "f"), ToolStart(1, "b", "g"), ToolDelta(0, "1")];
      ReadAll(Outside, Run(RenderStep(None), RInitial(None), es).emitted) == Broken
  {
    var es := [ToolStart(0, "a", "f"), ToolStart(1, "b", "g"), ToolDelta(0, "1")];
    assert es[..2][|es[..2]| - 1] == es[1];
    assert !InTurn(OpenAfter(es[..2]), es[2]);
    NestsIff(None, es);
  }
}
