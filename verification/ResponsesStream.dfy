/** The Responses stream renderer, with the state it keeps between calls. */
module ResponsesStream {
  import opened Wrappers
  import opened CanonicalStream
  import opened Transducer

  datatype Payload =
    | Created(id: string, model: string)
    | MessageAdded
    | PartAdded
    | TextOut(delta: string)
    | ToolAdded(outputIndex: nat, callId: string, name: string)
    | ArgumentsOut(outputIndex: nat, callId: string, delta: string)
    | TextDone(text: string)
    | PartDone(text: string)
    | MessageDone(text: string)
    | ArgumentsDone(outputIndex: nat, callId: string, name: string, arguments: string)
    | ToolDone(outputIndex: nat, callId: string, name: string, arguments: string)
    | Completed(id: string, model: string, text: string, hasMessage: bool, calls: seq<ToolCall>, endTurn: Option<bool>)

  datatype Frame = Numbered(sequence: nat, payload: Payload) | DoneMarker

  datatype State = State(
    sequence: nat, created: bool, outputStarted: bool, outputDone: bool,
    text: string, id: string, model: string, calls: seq<ToolCall>)

  type Result = Out<State, Frame>

  function Initial(fallback: Option<string>): State {
    State(0, false, false, false, "", "", fallback.GetOr("unknown"), [])
  }

  /** Emit one payload under the next sequence number. */
  function Push(r: Result, p: Payload): Result {
    Out(r.st.(sequence := r.st.sequence + 1), r.emitted + [Numbered(r.st.sequence, p)])
  }

  function PushAll(r: Result, ps: seq<Payload>): Result
    decreases |ps|
  {
    if ps == [] then r else PushAll(Push(r, ps[0]), ps[1..])
  }

  function EnsureCreated(fallback: Option<string>, st: State): Result {
    if st.created then Out(st, [])
    else Push(Out(st.(created := true), []), Created(Or(st.id, FallbackId("resp_", fallback)), st.model))
  }

  function EnsureText(fallback: Option<string>, st: State): Result {
    var a := EnsureCreated(fallback, st);
    if a.st.outputStarted then a
    else PushAll(Out(a.st.(outputStarted := true), a.emitted), [MessageAdded, PartAdded])
  }

  function OutputIndex(st: State, index: nat): nat {
    index + if st.outputStarted then 1 else 0
  }

  /** The done payloads of the tools, in index order. */
  function ToolsDone(calls: seq<ToolCall>, offset: nat): seq<Payload> {
    if calls == [] then []
    else
      var c := calls[0];
      [ArgumentsDone(c.index + offset, c.id, c.name, c.arguments), ToolDone(c.index + offset, c.id, c.name, c.arguments)]
      + ToolsDone(calls[1..], offset)
  }

  function ItemsDone(st: State): seq<Payload> {
    (if st.outputStarted then [TextDone(st.text), PartDone(st.text), MessageDone(st.text)] else [])
    + ToolsDone(Sorted(st.calls), OutputIndex(st, 0))
  }

  /** `callName(i)` is the generated id of an unnamed call. */
  function RenderEvent(fallback: Option<string>, callName: nat -> string, st: State, e: Event): Result {
    match e
    case ResponseStart(id, model) =>
      EnsureCreated(fallback, st.(id := Or(id, st.id), model := Or(model, st.model)))
    case TextDelta(delta) =>
      var a := EnsureText(fallback, st);
      Push(Out(a.st.(text := a.st.text + delta), a.emitted), TextOut(delta))
    case ToolStart(index, id, name) =>
      var a := EnsureCreated(fallback, st);
      var call := ToolCall(index, Or(id, callName(index)), Or(name, "tool"), "");
      Push(Out(a.st.(calls := Put(a.st.calls, call)), a.emitted), ToolAdded(OutputIndex(a.st, index), call.id, call.name))
    case ToolDelta(index, arguments) =>
      var before := Find(st.calls, index).GetOr(ToolCall(index, callName(index), "tool", ""));
      var call := before.(arguments := before.arguments + arguments);
      Push(Out(st.(calls := Put(st.calls, call)), []), ArgumentsOut(OutputIndex(st, index), call.id, arguments))
    case ResponseDone(_, _, _, endTurn, _) =>
      var a := EnsureCreated(fallback, st);
      var b := if a.st.outputDone then a
               else PushAll(Out(a.st.(outputDone := true), a.emitted), ItemsDone(a.st));
      var c := Push(b, Completed(Or(b.st.id, FallbackId("resp_", fallback)), b.st.model, b.st.text, b.st.outputStarted, Sorted(b.st.calls), endTurn));
      Out(c.st, c.emitted + [DoneMarker])
  }

  function RenderStep(fallback: Option<string>, callName: nat -> string): (State, Event) -> Result {
    (st, e) => RenderEvent(fallback, callName, st, e)
  }

  class Renderer {
    const fallback: Option<string>
    const callName: nat -> string
    var st: State

    constructor (fallback: Option<string>, callName: nat -> string)
      ensures this.fallback == fallback && this.callName == callName && st == Initial(fallback)
    {
      this.fallback, this.callName := fallback, callName;
      st := Initial(fallback);
    }

    method Render(events: seq<Event>) returns (frames: seq<Frame>)
      modifies this`st
      ensures Out(st, frames) == Run(RenderStep(fallback, callName), old(st), events)
    {
      frames := [];
      var i := 0;
      while i < |events|
        invariant 0 <= i <= |events|
        invariant Out(st, frames) == Run(RenderStep(fallback, callName), old(st), events[..i])
      {
        RunPrefix(RenderStep(fallback, callName), old(st), events, i);
        var out := RenderEvent(fallback, callName, st, events[i]);
        st, frames := out.st, frames + out.emitted;
        i := i + 1;
      }
      assert events[..i] == events;
    }
  }
}
