/**
 The chat-completions stream normalizer: server-sent events in, canonical events
 out, with the state it keeps between chunks.
 */
module ChatStream {
  import opened Wrappers
  import opened CanonicalStream
  import opened Transducer
  import opened SseReader

  const FINAL_ANSWER_TOOL := "final_answer"
  const CONTINUE_TOOL := "exec_command"
  const DONE_MARKER := "[DONE]"

  /** One decoded chunk; absent fields were missing or of another type. */
  datatype CallDelta = CallDelta(index: nat, id: string, name: string, arguments: string)
  datatype Payload = Payload(id: string, model: string, finish: string, text: string, calls: seq<CallDelta>)

  /** `decode` is JSON parsing of the event data; `looksFinished` the textual test
      for a finished answer. */
  datatype Options = Options(
    fallbackModel: Option<string>, forceAgentTools: bool,
    decode: string -> Option<Payload>, looksFinished: string -> bool)

  datatype State = State(
    id: string, model: string, finish: Option<string>, calls: seq<ToolCall>,
    started: bool, sawRealToolCall: bool, sawFinalMarker: bool, text: string)

  function Initial(o: Options): State {
    State("", o.fallbackModel.GetOr("unknown"), None, [], false, false, false, "")
  }

  /** A new state and the events emitted on the way. */
  type Result = Out<State, Event>

  /** The start event, once. */
  function Start(o: Options, st: State): Result {
    if st.started then Out(st, [])
    else Out(st.(started := true), [ResponseStart(st.id, Or(st.model, Or(o.fallbackModel.GetOr(""), "unknown")))])
  }

  function OnText(o: Options, st: State, delta: string): Result {
    if delta == "" then Out(st, [])
    else
      var s := Start(o, st);
      Out(s.st.(text := s.st.text + delta), s.emitted + [TextDelta(delta)])
  }

  function OnCall(o: Options, st: State, d: CallDelta): Result {
    var existing := Find(st.calls, d.index);
    var before := existing.GetOr(ToolCall(d.index, "", "", ""));
    var call := ToolCall(d.index, Or(d.id, before.id), Or(d.name, before.name), before.arguments + d.arguments);
    var begun :=
      if existing.Some? then Out(st, [])
      else
        var s := Start(o, st);
        if call.name == FINAL_ANSWER_TOOL then s
        else Out(s.st.(sawRealToolCall := true, sawFinalMarker := false), s.emitted + [ToolStart(d.index, call.id, call.name)]);
    Out(begun.st.(calls := Put(st.calls, call)),
        begun.emitted + if d.arguments == "" then [] else [ToolDelta(d.index, d.arguments)])
  }

  function CallStep(o: Options): (State, CallDelta) -> Result {
    (st, d) => OnCall(o, st, d)
  }

  function OnPayload(o: Options, st: State, p: Payload): Result {
    var s := st.(id := Or(p.id, st.id), model := Or(p.model, st.model),
                 finish := if p.finish == "" then st.finish else Some(p.finish));
    var a := OnText(o, s, p.text);
    var b := Run(CallStep(o), a.st, p.calls);
    Out(b.st, a.emitted + b.emitted)
  }

  function OnEvent(o: Options, st: State, e: SseEvent): Result {
    if e.data == DONE_MARKER then Out(st, [])
    else
      var p := o.decode(e.data);
      if p.None? then Out(st, []) else OnPayload(o, st, p.value)
  }

  /** The normalizer's step. */
  function EventStep(o: Options): (State, SseEvent) -> Result {
    (st, e) => OnEvent(o, st, e)
  }

  function NextIndex(calls: seq<ToolCall>): nat {
    if calls == [] then 0 else Max(calls[0].index + 1, NextIndex(calls[1..]))
  }

  predicate AnyFinal(calls: seq<ToolCall>) {
    exists i :: 0 <= i < |calls| && calls[i].name == FINAL_ANSWER_TOOL
  }

  /** The end of the stream: the done event, with a completing tool call when the
      caller's protocol needs one and no real tool was called. */
  function Finish(o: Options, st: State): Result {
    var s := Start(o, st);
    var calls := Sorted(st.calls);
    var final := st.sawFinalMarker || AnyFinal(calls);
    var force := o.forceAgentTools && !st.sawRealToolCall;
    var extra := if !force then []
                 else [ToolCall(NextIndex(calls), "final_" + Or(st.id, "response"),
                                if final || o.looksFinished(st.text) then FINAL_ANSWER_TOOL else CONTINUE_TOOL, "")];
    Out(s.st.(sawFinalMarker := final),
        s.emitted + [ResponseDone(st.id, st.model, st.finish, Some(!force), calls + extra)])
  }

  // ----- what is emitted agrees with the state -----

  /** Everything emitted so far against the state that remains. */
  ghost predicate Consistent(st: State, es: seq<Event>) {
    && Unique(st.calls)
    && TextOf(es) == st.text
    && (forall i: nat :: ArgumentsOf(es, i) == ArgumentsFor(st.calls, i))
    && (st.calls != [] ==> st.started)
    && (st.started <==> es != [])
    && (es != [] ==> es[0].ResponseStart?)
    && (forall k :: 1 <= k < |es| ==> !es[k].ResponseStart? && !es[k].ResponseDone?)
  }

  lemma {:induction false} ConsistentAfter(st: State, es: seq<Event>, st': State, more: seq<Event>)
    requires Consistent(st, es)
    requires st'.calls == st.calls && st'.started == (st.started || more != [])
    requires st'.text == st.text + TextOf(more)
    requires forall i: nat :: ArgumentsOf(more, i) == ""
    requires more != [] && !st.started ==> more[0].ResponseStart?
    requires forall k :: 0 <= k < |more| && (k > 0 || st.started) ==> !more[k].ResponseStart? && !more[k].ResponseDone?
    ensures Consistent(st', es + more)
  {
    TextAppend(es, more);
    forall i: nat ensures ArgumentsOf(es + more, i) == ArgumentsOf(es, i) {
      ArgumentsAppend(es, more, i);
    }
    if es == [] {
      assert es + more == more;
    }
  }

  lemma {:induction false} StartConsistent(o: Options, st: State, es: seq<Event>)
    requires Consistent(st, es)
    ensures Consistent(Start(o, st).st, es + Start(o, st).emitted)
    ensures Start(o, st).st == st.(started := true)
  {
    var s := Start(o, st);
    SilentStart(s.emitted);
    ConsistentAfter(st, es, s.st, s.emitted);
  }

  lemma {:induction false} SilentStart(es: seq<Event>)
    requires es == [] || (|es| == 1 && (es[0].ResponseStart? || es[0].ToolStart?))
    ensures TextOf(es) == "" && forall i: nat :: ArgumentsOf(es, i) == ""
  {
  }

  lemma {:induction false} OnTextConsistent(o: Options, st: State, es: seq<Event>, delta: string)
    requires Consistent(st, es)
    ensures Consistent(OnText(o, st, delta).st, es + OnText(o, st, delta).emitted)
  {
    var r := OnText(o, st, delta);
    if delta == "" {
      assert es + r.emitted == es;
    } else {
      StartConsistent(o, st, es);
      var s := Start(o, st);
      var more := [TextDelta(delta)];
      assert TextOf(more) == delta;
      AppendAssoc(es, s.emitted, more);
      ConsistentAfter(s.st, es + s.emitted, r.st, more);
    }
  }

  lemma {:induction false} OnCallConsistent(o: Options, st: State, es: seq<Event>, d: CallDelta)
    requires Consistent(st, es)
    ensures Consistent(OnCall(o, st, d).st, es + OnCall(o, st, d).emitted)
  {
    var r := OnCall(o, st, d);
    var existing := Find(st.calls, d.index);
    var begun: Result;
    if existing.Some? {
      begun := Out(st, []);
      assert es + begun.emitted == es;
    } else {
      StartConsistent(o, st, es);
      var s := Start(o, st);
      var before := ToolCall(d.index, "", "", "");
      var name := Or(d.name, "");
      if name == FINAL_ANSWER_TOOL {
        begun := s;
      } else {
        var more := [ToolStart(d.index, Or(d.id, ""), name)];
        begun := Out(s.st.(sawRealToolCall := true, sawFinalMarker := false), s.emitted + more);
        SilentStart(more);
        AppendAssoc(es, s.emitted, more);
        ConsistentAfter(s.st, es + s.emitted, begun.st, more);
      }
    }
    assert Consistent(begun.st, es + begun.emitted) && begun.st.calls == st.calls && begun.st.started;
    var before := existing.GetOr(ToolCall(d.index, "", "", ""));
    var call := ToolCall(d.index, Or(d.id, before.id), Or(d.name, before.name), before.arguments + d.arguments);
    DeltaConsistent(begun.st, es + begun.emitted, d.arguments, call);
    AppendAssoc(es, begun.emitted, if d.arguments == "" then [] else [ToolDelta(d.index, d.arguments)]);
  }

  /** Recording a call and emitting its argument delta keep them equal. */
  lemma {:induction false} DeltaConsistent(st: State, es: seq<Event>, delta: string, call: ToolCall)
    requires Consistent(st, es) && st.started
    requires call.arguments == ArgumentsFor(st.calls, call.index) + delta
    ensures Consistent(st.(calls := Put(st.calls, call)), es + if delta == "" then [] else [ToolDelta(call.index, delta)])
  {
    var st' := st.(calls := Put(st.calls, call));
    PutUnique(st.calls, call);
    assert Find(st'.calls, call.index) == Some(call) by { FindPut(st.calls, call, call.index); }
    if delta == "" {
      assert es + [] == es;
      forall i: nat ensures ArgumentsOf(es, i) == ArgumentsFor(st'.calls, i) {
        FindPut(st.calls, call, i);
      }
    } else {
      var more := [ToolDelta(call.index, delta)];
      TextAppend(es, more);
      forall i: nat ensures ArgumentsOf(es + more, i) == ArgumentsFor(st'.calls, i) {
        ArgumentsAppend(es, more, i);
        FindPut(st.calls, call, i);
        assert ArgumentsOf(more, i) == if i == call.index then delta else "";
      }
    }
  }

  lemma {:induction false} OnCallsConsistent(o: Options, st: State, es: seq<Event>, ds: seq<CallDelta>)
    requires Consistent(st, es)
    ensures Consistent(Run(CallStep(o), st, ds).st, es + Run(CallStep(o), st, ds).emitted)
    decreases |ds|
  {
    if ds == [] {
      assert es + [] == es;
    } else {
      OnCallConsistent(o, st, es, ds[0]);
      var a := OnCall(o, st, ds[0]);
      OnCallsConsistent(o, a.st, es + a.emitted, ds[1..]);
      AppendAssoc(es, a.emitted, Run(CallStep(o), a.st, ds[1..]).emitted);
    }
  }

  lemma {:induction false} OnEventConsistent(o: Options, st: State, es: seq<Event>, e: SseEvent)
    requires Consistent(st, es)
    ensures Consistent(OnEvent(o, st, e).st, es + OnEvent(o, st, e).emitted)
  {
    var p := o.decode(e.data);
    if e.data == DONE_MARKER || p.None? {
      assert es + [] == es;
    } else {
      var q := p.value;
      var s := st.(id := Or(q.id, st.id), model := Or(q.model, st.model),
                   finish := if q.finish == "" then st.finish else Some(q.finish));
      OnTextConsistent(o, s, es, q.text);
      var a := OnText(o, s, q.text);
      OnCallsConsistent(o, a.st, es + a.emitted, q.calls);
      AppendAssoc(es, a.emitted, Run(CallStep(o), a.st, q.calls).emitted);
    }
  }

  lemma {:induction false} OnEventsConsistent(o: Options, st: State, es: seq<Event>, input: seq<SseEvent>)
    requires Consistent(st, es)
    ensures Consistent(Run(EventStep(o), st, input).st, es + Run(EventStep(o), st, input).emitted)
    decreases |input|
  {
    if input == [] {
      assert es + [] == es;
    } else {
      OnEventConsistent(o, st, es, input[0]);
      var a := OnEvent(o, st, input[0]);
      OnEventsConsistent(o, a.st, es + a.emitted, input[1..]);
      AppendAssoc(es, a.emitted, Run(EventStep(o), a.st, input[1..]).emitted);
    }
  }

  /** The whole output for an event list that then ends. */
  function Normalize(o: Options, input: seq<SseEvent>): seq<Event> {
    var r := Run(EventStep(o), Initial(o), input);
    r.emitted + Finish(o, r.st).emitted
  }

  /** The first n tool calls of the done event are in strictly increasing index
      order and carry exactly the argument deltas emitted for their index; at
      most one completing call follows them. */
  ghost predicate DoneAgrees(o: Options, es: seq<Event>, toolCalls: seq<ToolCall>, n: nat) {
    && n <= |toolCalls| <= n + 1
    && (n < |toolCalls| ==> o.forceAgentTools && toolCalls[n].arguments == "")
    && Increasing(toolCalls[..n])
    && forall i: nat :: ArgumentsOf(es, i) == ArgumentsFor(toolCalls[..n], i)
  }

  ghost predicate DoneAgreesUpTo(o: Options, es: seq<Event>, toolCalls: seq<ToolCall>) {
    exists n :: DoneAgrees(o, es, toolCalls, n)
  }

  /** Every normalized stream starts once and ends once, and its done event
      agrees with what was emitted before it. */
  lemma {:induction false} NormalizedStreamIsConsistent(o: Options, input: seq<SseEvent>)
    ensures var es := Normalize(o, input);
      && |es| >= 2 && es[0].ResponseStart? && es[|es| - 1].ResponseDone?
      && (forall k :: 1 <= k < |es| - 1 ==> !es[k].ResponseStart? && !es[k].ResponseDone?)
      && DoneAgreesUpTo(o, es, es[|es| - 1].toolCalls)
  {
    var st := Initial(o);
    assert Consistent(st, []);
    OnEventsConsistent(o, st, [], input);
    var r := Run(EventStep(o), st, input);
    assert [] + r.emitted == r.emitted;
    FinishAgrees(o, r.st, r.emitted);
  }

  lemma {:induction false} FinishAgrees(o: Options, st: State, before: seq<Event>)
    requires Consistent(st, before)
    ensures var es := before + Finish(o, st).emitted;
      && |es| >= 2 && es[0].ResponseStart? && es[|es| - 1].ResponseDone?
      && (forall k :: 1 <= k < |es| - 1 ==> !es[k].ResponseStart? && !es[k].ResponseDone?)
      && DoneAgrees(o, es, es[|es| - 1].toolCalls, |Sorted(st.calls)|)
  {
    var s := Start(o, st);
    StartConsistent(o, st, before);
    var body := before + s.emitted;
    var f := Finish(o, st);
    var done := f.emitted[|f.emitted| - 1];
    AppendAssoc(before, s.emitted, [done]);
    SortedProperties(st.calls);
    var calls := Sorted(st.calls);
    assert done.toolCalls[..|calls|] == calls;
    forall i: nat ensures ArgumentsOf(body + [done], i) == ArgumentsFor(calls, i) {
      ArgumentsAppend(body, [done], i);
      assert ArgumentsOf([done], i) == "";
    }
  }

  // ----- chunking -----

  /** The normalizer object: it is fed decoded text chunk by chunk. */
  class Normalizer {
    const o: Options
    var st: State
    var buffer: string

    constructor (o: Options)
      ensures this.o == o && st == Initial(o) && buffer == ""
    {
      this.o := o;
      st := Initial(o);
      buffer := "";
    }

    method Feed(chunk: string, done: bool) returns (emitted: seq<Event>)
      modifies this`st, this`buffer
      ensures var p := Parse(old(buffer) + chunk);
        var r := Run(EventStep(o), old(st), Events(p.blocks));
        && buffer == p.remainder
        && (if done then st == Finish(o, r.st).st && emitted == r.emitted + Finish(o, r.st).emitted
            else st == r.st && emitted == r.emitted)
    {
      var events, remainder := ParseSseBuffer(buffer + chunk);
      buffer := remainder;
      emitted := Drain(events);
      if done {
        var f := Finish(o, st);
        st, emitted := f.st, emitted + f.emitted;
      }
    }

    method Drain(events: seq<SseEvent>) returns (emitted: seq<Event>)
      modifies this`st
      ensures Out(st, emitted) == Run(EventStep(o), old(st), events)
    {
      emitted := [];
      var i := 0;
      while i < |events|
        invariant 0 <= i <= |events|
        invariant Out(st, emitted) == Run(EventStep(o), old(st), events[..i])
      {
        RunPrefix(EventStep(o), old(st), events, i);
        var out := OnEvent(o, st, events[i]);
        st, emitted := out.st, emitted + out.emitted;
        i := i + 1;
      }
      assert events[..i] == events;
    }
  }

  /** Feed a text in any chunks, the last one marked done: without CR CR LF the
      concatenated output is that of the whole text. */
  method NormalizeChunks(o: Options, chunks: seq<string>) returns (emitted: seq<Event>)
    requires chunks != []
    ensures !HasCrCrLf(Flatten(chunks)) ==> emitted == Normalize(o, Events(Parse(Flatten(chunks)).blocks))
  {
    var n := new Normalizer(o);
    emitted := [];
    ghost var blocks: seq<string> := [];
    var i := 0;
    assert chunks[0..] == chunks;
    ghost var all := ParseChunks("", chunks);
    while i < |chunks| - 1
      invariant 0 <= i <= |chunks| - 1 && n.o == o && fresh(n)
      invariant Out(n.st, emitted) == Run(EventStep(o), Initial(o), Events(blocks))
      invariant all == Parsed(blocks + ParseChunks(n.buffer, chunks[i..]).blocks, ParseChunks(n.buffer, chunks[i..]).remainder)
    {
      ghost var p := Parse(n.buffer + chunks[i]);
      assert chunks[i..][1..] == chunks[i + 1..];
      EventsAppend(blocks, p.blocks);
      RunAppend(EventStep(o), Initial(o), Events(blocks), Events(p.blocks));
      AppendAssoc(blocks, p.blocks, ParseChunks(p.remainder, chunks[i + 1..]).blocks);
      var out := n.Feed(chunks[i], false);
      emitted := emitted + out;
      blocks := blocks + p.blocks;
      i := i + 1;
    }
    ghost var p := Parse(n.buffer + chunks[i]);
    assert chunks[i..] == [chunks[i]] && chunks[i..][1..] == [];
    assert all.blocks == blocks + (p.blocks + []);
    assert p.blocks + [] == p.blocks;
    EventsAppend(blocks, p.blocks);
    RunAppend(EventStep(o), Initial(o), Events(blocks), Events(p.blocks));
    ghost var before := emitted;
    ghost var r := Run(EventStep(o), n.st, Events(p.blocks));
    var out := n.Feed(chunks[i], true);
    emitted := emitted + out;
    AppendAssoc(before, r.emitted, Finish(o, r.st).emitted);
    assert emitted == Normalize(o, Events(all.blocks));
    ChunkIndependentIff(Flatten(chunks));
  }
}
