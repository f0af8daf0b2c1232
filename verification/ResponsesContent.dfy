/**
 The Responses renderer by the history of events: exactly which frames one more event
 sends, with which numbers, names and items.
 */
module ResponsesContent {
  import opened Wrappers
  import opened CanonicalStream
  import opened Transducer
  import opened ResponsesStream
  import opened ResponsesConsistency

  // ----- what the events so far say -----

  const EVENT_ID: Event -> string := (e: Event) => if e.ResponseStart? then e.id else ""
  const EVENT_MODEL: Event -> string := (e: Event) => if e.ResponseStart? then e.model else ""

  /** The last id that is not empty, or else the one made up. */
  function IdOf(fallback: Option<string>, es: seq<Event>): string {
    var id := Last(EVENT_ID, es, "");
    if id != "" then id else FallbackId("resp_", fallback)
  }

  function ModelOf(fallback: Option<string>, es: seq<Event>): string {
    Last(EVENT_MODEL, es, if fallback.Some? then fallback.value else "unknown")
  }

  /** Any event but a tool delta creates the response. */
  ghost predicate Begun(es: seq<Event>) {
    exists k :: 0 <= k < |es| && !es[k].ToolDelta?
  }

  ghost predicate Ended(es: seq<Event>) {
    exists k :: 0 <= k < |es| && es[k].ResponseDone?
  }

  /** A tool's name: the one of its last start, or else "tool". */
  function NameOf(es: seq<Event>, index: nat): string {
    if es == [] then "tool"
    else
      var e := es[|es| - 1];
      if e.ToolStart? && e.index == index then (if e.name != "" then e.name else "tool")
      else NameOf(es[..|es| - 1], index)
  }

  function CallOf(callName: nat -> string, es: seq<Event>, index: nat): Option<ToolCall> {
    var id := EffectiveId(callName, es, index);
    if id.None? then None else Some(ToolCall(index, id.value, NameOf(es, index), ArgumentsSince(es, index)))
  }

  /** The tools' calls in index order, each as the events have it. */
  ghost predicate Lists(callName: nat -> string, es: seq<Event>, calls: seq<ToolCall>) {
    Increasing(calls) && forall i: nat :: Find(calls, i) == CallOf(callName, es, i)
  }

  // ----- the frames of one more event -----

  /** Payloads under consecutive numbers. */
  function Number(from: nat, ps: seq<Payload>): seq<Frame> {
    seq(|ps|, i requires 0 <= i < |ps| => Numbered(from + i, ps[i]))
  }

  ghost function Opening(fallback: Option<string>, es: seq<Event>, e: Event): seq<Payload> {
    if Begun(es) || e.ToolDelta? then [] else [Created(IdOf(fallback, es + [e]), ModelOf(fallback, es + [e]))]
  }

  /** Tools come behind the message, if there is one. */
  function OutputOf(es: seq<Event>, index: nat): nat {
    index + if HasText(es) then 1 else 0
  }

  /** Two payloads close each call, in the order of the list. */
  function CallItems(calls: seq<ToolCall>, offset: nat): seq<Payload> {
    seq(2 * |calls|, i requires 0 <= i < 2 * |calls| =>
      var c := calls[i / 2];
      if i % 2 == 0 then ArgumentsDone(c.index + offset, c.id, c.name, c.arguments)
      else ToolDone(c.index + offset, c.id, c.name, c.arguments))
  }

  /** Every item is closed once, at the first end: the message, then each call. */
  ghost function Closing(es: seq<Event>, calls: seq<ToolCall>): seq<Payload> {
    var text := TextOf(es);
    if Ended(es) then []
    else
      (if HasText(es) then [TextDone(text), PartDone(text), MessageDone(text)] else []) + CallItems(calls, OutputOf(es, 0))
  }

  /** The payloads of an event, given the events before it and the calls they make. */
  ghost function Saying(fallback: Option<string>, callName: nat -> string, es: seq<Event>, calls: seq<ToolCall>, e: Event): seq<Payload> {
    match e
    case ResponseStart(_, _) => []
    case TextDelta(delta) => (if HasText(es) then [] else [MessageAdded, PartAdded]) + [TextOut(delta)]
    case ToolStart(index, id, name) =>
      var id := if id != "" then id else callName(index);
      [ToolAdded(OutputOf(es, index), id, if name != "" then name else "tool")]
    case ToolDelta(index, arguments) =>
      var id := EffectiveId(callName, es, index);
      [ArgumentsOut(OutputOf(es, index), if id.Some? then id.value else callName(index), arguments)]
    case ResponseDone(_, _, _, endTurn, _) =>
      Closing(es, calls)
      + [Completed(IdOf(fallback, es), ModelOf(fallback, es), TextOf(es), HasText(es), calls, endTurn)]
  }

  /** The frames that an event sends behind all others. */
  ghost predicate Sends(fallback: Option<string>, callName: nat -> string, es: seq<Event>, sent: seq<Frame>, e: Event, more: seq<Frame>) {
    exists calls :: Lists(callName, es, calls) &&
      more == Number(|Numbers(sent)|, Opening(fallback, es, e) + Saying(fallback, callName, es, calls, e))
              + if e.ResponseDone? then [DoneMarker] else []
  }

  // ----- the state has it all -----

  ghost predicate Knows(fallback: Option<string>, callName: nat -> string, st: State, es: seq<Event>) {
    && KnowsNames(fallback, st, es)
    && st.outputStarted == HasText(es) && st.text == TextOf(es)
    && Unique(st.calls) && forall i: nat :: Find(st.calls, i) == CallOf(callName, es, i)
  }

  ghost predicate KnowsNames(fallback: Option<string>, st: State, es: seq<Event>) {
    && st.id == Last(EVENT_ID, es, "") && st.model == ModelOf(fallback, es)
    && st.created == Begun(es) && st.outputDone == Ended(es)
  }

  lemma {:induction false} BegunSnoc(es: seq<Event>, e: Event)
    ensures Begun(es + [e]) <==> Begun(es) || !e.ToolDelta?
    ensures Ended(es + [e]) <==> Ended(es) || e.ResponseDone?
  {
    var all := es + [e];
    assert all[|es|] == e;
    assert forall k :: 0 <= k < |es| ==> all[k] == es[k];
  }

  lemma {:induction false} DoneNames(fallback: Option<string>, callName: nat -> string, st: State, e: Event)
    requires e.ResponseDone?
    ensures var z := RenderEvent(fallback, callName, st, e).st;
      z == st.(created := true, outputDone := true, sequence := z.sequence)
  {
    var a := EnsureCreated(fallback, st);
    PushAllCalls(Out(a.st.(outputDone := true), a.emitted), ItemsDone(a.st));
  }

  lemma {:induction false} TextNames(fallback: Option<string>, callName: nat -> string, st: State, delta: string)
    ensures var z := RenderEvent(fallback, callName, st, TextDelta(delta)).st;
      z == st.(created := true, outputStarted := true, text := st.text + delta, sequence := z.sequence)
  {
    var a := EnsureCreated(fallback, st);
    PushAllCalls(Out(a.st.(outputStarted := true), a.emitted), [MessageAdded, PartAdded]);
  }

  lemma {:induction false} NamesStep(fallback: Option<string>, callName: nat -> string, st: State, es: seq<Event>, e: Event)
    requires KnowsNames(fallback, st, es)
    ensures KnowsNames(fallback, RenderEvent(fallback, callName, st, e).st, es + [e])
  {
    BegunSnoc(es, e);
    LastSnoc(EVENT_ID, es, e, "");
    LastSnoc(EVENT_MODEL, es, e, if fallback.Some? then fallback.value else "unknown");
    match e
    case TextDelta(delta) => TextNames(fallback, callName, st, delta);
    case ResponseDone(_, _, _, _, _) => DoneNames(fallback, callName, st, e);
    case _ =>
  }

  lemma {:induction false} NamesKept(fallback: Option<string>, callName: nat -> string, es: seq<Event>)
    ensures KnowsNames(fallback, Run(RenderStep(fallback, callName), Initial(fallback), es).st, es)
    decreases |es|
  {
    if es != [] {
      var front, e := es[..|es| - 1], es[|es| - 1];
      SplitLast(es);
      NamesKept(fallback, callName, front);
      NamesOneMore(fallback, callName, front, e);
    }
  }

  lemma {:induction false} NamesOneMore(fallback: Option<string>, callName: nat -> string, es: seq<Event>, e: Event)
    requires KnowsNames(fallback, Run(RenderStep(fallback, callName), Initial(fallback), es).st, es)
    ensures KnowsNames(fallback, Run(RenderStep(fallback, callName), Initial(fallback), es + [e]).st, es + [e])
  {
    var x := Run(RenderStep(fallback, callName), Initial(fallback), es);
    RunAppend(RenderStep(fallback, callName), Initial(fallback), es, [e]);
    RunOne(RenderStep(fallback, callName), x.st, e);
    NamesStep(fallback, callName, x.st, es, e);
  }

  /** The name that the renderer keeps for a tool it knows. */
  function Kept(calls: seq<ToolCall>, index: nat): string {
    var call := Find(calls, index);
    if call.Some? then call.value.name else "tool"
  }

  lemma {:induction false} NameStep(fallback: Option<string>, callName: nat -> string, st: State, e: Event, i: nat)
    ensures Kept(RenderEvent(fallback, callName, st, e).st.calls, i) ==
      if e.ToolStart? && e.index == i then Or(e.name, "tool") else Kept(st.calls, i)
  {
    match e
    case ToolStart(j, id, name) =>
      FindPut(st.calls, ToolCall(j, Or(id, callName(j)), Or(name, "tool"), ""), i);
    case ToolDelta(j, arguments) =>
      var before := Find(st.calls, j).GetOr(ToolCall(j, callName(j), "tool", ""));
      FindIndex(st.calls, j);
      FindPut(st.calls, before.(arguments := before.arguments + arguments), i);
    case ResponseDone(_, _, _, _, _) => DoneKeepsCalls(fallback, callName, st, e);
    case _ =>
  }

  lemma {:induction false} NameKept(fallback: Option<string>, callName: nat -> string, es: seq<Event>, i: nat)
    ensures Kept(Run(RenderStep(fallback, callName), Initial(fallback), es).st.calls, i) == NameOf(es, i)
    decreases |es|
  {
    if es != [] {
      var n := |es| - 1;
      NameKept(fallback, callName, es[..n], i);
      RunPrefix(RenderStep(fallback, callName), Initial(fallback), es, n);
      assert es[..n + 1] == es;
      NameStep(fallback, callName, Run(RenderStep(fallback, callName), Initial(fallback), es[..n]).st, es[n], i);
    }
  }

  lemma {:induction false} CallKept(fallback: Option<string>, callName: nat -> string, es: seq<Event>, i: nat)
    ensures Find(Run(RenderStep(fallback, callName), Initial(fallback), es).st.calls, i) == CallOf(callName, es, i)
  {
    IdKept(fallback, callName, es, i);
    NameKept(fallback, callName, es, i);
    ArgumentsKept(fallback, callName, es, i);
    FindIndex(Run(RenderStep(fallback, callName), Initial(fallback), es).st.calls, i);
  }

  lemma {:induction false} StateKnows(fallback: Option<string>, callName: nat -> string, es: seq<Event>)
    ensures var x := Run(RenderStep(fallback, callName), Initial(fallback), es);
      Knows(fallback, callName, x.st, es) && x.st.sequence == |Numbers(x.emitted)|
  {
    var x := Run(RenderStep(fallback, callName), Initial(fallback), es);
    NamesKept(fallback, callName, es);
    OutputsAre(fallback, callName, es);
    SequenceAndText(fallback, callName, Initial(fallback), es);
    assert "" + TextIn(x.emitted) == TextIn(x.emitted);
    ArgumentsKept(fallback, callName, es, 0);
    forall i: nat ensures Find(x.st.calls, i) == CallOf(callName, es, i) {
      CallKept(fallback, callName, es, i);
    }
  }

  // ----- the frames of one more event -----

  lemma {:induction false} NumberAppend(from: nat, a: seq<Payload>, b: seq<Payload>)
    ensures Number(from, a + b) == Number(from, a) + Number(from + |a|, b)
  {
  }

  lemma {:induction false} PushNumbers(r: Result, p: Payload)
    ensures Push(r, p).emitted == r.emitted + Number(r.st.sequence, [p])
  {
    assert Number(r.st.sequence, [p]) == [Numbered(r.st.sequence, p)];
  }

  lemma {:induction false} PushAllNumbers(r: Result, ps: seq<Payload>)
    ensures PushAll(r, ps).emitted == r.emitted + Number(r.st.sequence, ps)
    decreases |ps|
  {
    if ps != [] {
      PushAllNumbers(Push(r, ps[0]), ps[1..]);
      PushNumbers(r, ps[0]);
      NumberAppend(r.st.sequence, [ps[0]], ps[1..]);
      assert [ps[0]] + ps[1..] == ps;
      AppendAssoc(r.emitted, Number(r.st.sequence, [ps[0]]), Number(r.st.sequence + 1, ps[1..]));
    }
  }

  /** The payloads so far, numbered from the state before. */
  ghost predicate Holds(r: Result, from: nat, ps: seq<Payload>) {
    r.emitted == Number(from, ps) && r.st.sequence == from + |ps|
  }

  lemma {:induction false} PushHolds(r: Result, from: nat, ps: seq<Payload>, p: Payload)
    requires Holds(r, from, ps)
    ensures Holds(Push(r, p), from, ps + [p])
  {
    PushNumbers(r, p);
    NumberAppend(from, ps, [p]);
  }

  lemma {:induction false} PushAllHolds(r: Result, from: nat, ps: seq<Payload>, more: seq<Payload>)
    requires Holds(r, from, ps)
    ensures Holds(PushAll(r, more), from, ps + more) && PushAll(r, more).st == r.st.(sequence := from + |ps + more|)
  {
    PushAllNumbers(r, more);
    PushAllCalls(r, more);
    NumberAppend(from, ps, more);
  }

  lemma {:induction false} CreatedHolds(fallback: Option<string>, callName: nat -> string, st: State, es: seq<Event>, e: Event)
    requires Knows(fallback, callName, st, es) && !e.ToolDelta?
    ensures var st' := if e.ResponseStart? then st.(id := Or(e.id, st.id), model := Or(e.model, st.model)) else st;
      var a := EnsureCreated(fallback, st');
      && Holds(a, st.sequence, Opening(fallback, es, e))
      && a.st == st'.(created := true, sequence := a.st.sequence)
  {
    LastSnoc(EVENT_ID, es, e, "");
    LastSnoc(EVENT_MODEL, es, e, if fallback.Some? then fallback.value else "unknown");
    if !st.created {
      var c := Created(IdOf(fallback, es + [e]), ModelOf(fallback, es + [e]));
      assert Number(st.sequence, [c]) == [Numbered(st.sequence, c)];
    }
  }

  lemma {:induction false} TextHolds(fallback: Option<string>, callName: nat -> string, st: State, es: seq<Event>, calls: seq<ToolCall>, e: Event)
    requires Knows(fallback, callName, st, es) && e.TextDelta?
    ensures RenderEvent(fallback, callName, st, e).emitted
         == Number(st.sequence, Opening(fallback, es, e) + Saying(fallback, callName, es, calls, e))
  {
    CreatedHolds(fallback, callName, st, es, e);
    var a, open := EnsureCreated(fallback, st), Opening(fallback, es, e);
    var added: seq<Payload> := if HasText(es) then [] else [MessageAdded, PartAdded];
    AppendEmpty(open);
    PushAllHolds(Out(a.st.(outputStarted := true), a.emitted), st.sequence, open, added);
    var b := EnsureText(fallback, st);
    PushHolds(Out(b.st.(text := b.st.text + e.delta), b.emitted), st.sequence, open + added, TextOut(e.delta));
    AppendAssoc(open, added, [TextOut(e.delta)]);
  }

  lemma {:induction false} ToolHolds(fallback: Option<string>, callName: nat -> string, st: State, es: seq<Event>, calls: seq<ToolCall>, e: Event)
    requires Knows(fallback, callName, st, es) && IsTool(e)
    ensures RenderEvent(fallback, callName, st, e).emitted
         == Number(st.sequence, Opening(fallback, es, e) + Saying(fallback, callName, es, calls, e))
  {
    var open, say := Opening(fallback, es, e), Saying(fallback, callName, es, calls, e);
    if e.ToolStart? {
      CreatedHolds(fallback, callName, st, es, e);
      var a := EnsureCreated(fallback, st);
      var call := ToolCall(e.index, Or(e.id, callName(e.index)), Or(e.name, "tool"), "");
      PushHolds(Out(a.st.(calls := Put(a.st.calls, call)), a.emitted), st.sequence, open, say[0]);
    } else {
      assert Find(st.calls, e.index) == CallOf(callName, es, e.index);
      assert open + say == [] + say;
      assert Number(st.sequence, say) == [Numbered(st.sequence, say[0])];
    }
  }

  lemma {:induction false} CallItemsAre(calls: seq<ToolCall>, offset: nat)
    ensures ToolsDone(calls, offset) == CallItems(calls, offset)
  {
    var ps, items := ToolsDone(calls, offset), CallItems(calls, offset);
    if calls != [] {
      ToolsDoneAt(calls, offset, 0);
    }
    forall i | 0 <= i < |items| ensures ps[i] == items[i] {
      ToolsDoneAt(calls, offset, i / 2);
      assert i == 2 * (i / 2) + i % 2;
    }
  }

  lemma {:induction false} ItemsAre(fallback: Option<string>, callName: nat -> string, st: State, es: seq<Event>)
    requires Knows(fallback, callName, st, es) && !Ended(es)
    ensures ItemsDone(st) == Closing(es, Sorted(st.calls))
  {
    CallItemsAre(Sorted(st.calls), OutputIndex(st, 0));
  }

  lemma {:induction false} DoneHolds(fallback: Option<string>, callName: nat -> string, st: State, es: seq<Event>, e: Event)
    requires Knows(fallback, callName, st, es) && e.ResponseDone?
    ensures RenderEvent(fallback, callName, st, e).emitted
         == Number(st.sequence, Opening(fallback, es, e) + Saying(fallback, callName, es, Sorted(st.calls), e)) + [DoneMarker]
  {
    CreatedHolds(fallback, callName, st, es, e);
    var a, open, calls := EnsureCreated(fallback, st), Opening(fallback, es, e), Sorted(st.calls);
    var closing := Closing(es, calls);
    var start := Out(a.st.(outputDone := true), a.emitted);
    if !Ended(es) {
      ItemsAre(fallback, callName, st, es);
    }
    assert !Ended(es) ==> ItemsDone(a.st) == closing;
    PushAllHolds(start, st.sequence, open, closing);
    AppendEmpty(open);
    var b := if a.st.outputDone then a else PushAll(start, closing);
    assert Holds(b, st.sequence, open + closing);
    var p := Completed(IdOf(fallback, es), ModelOf(fallback, es), TextOf(es), HasText(es), calls, e.endTurn);
    PushHolds(b, st.sequence, open + closing, p);
    AppendAssoc(open, closing, [p]);
  }

  /** After any events, one more event sends exactly the frames that the events call for. */
  lemma {:induction false} NextFramesAre(fallback: Option<string>, callName: nat -> string, es: seq<Event>, e: Event)
    ensures var x := Run(RenderStep(fallback, callName), Initial(fallback), es);
      exists more :: Sends(fallback, callName, es, x.emitted, e, more)
        && Run(RenderStep(fallback, callName), Initial(fallback), es + [e]).emitted == x.emitted + more
  {
    var x := Run(RenderStep(fallback, callName), Initial(fallback), es);
    var calls, more := Sorted(x.st.calls), RenderEvent(fallback, callName, x.st, e).emitted;
    StateKnows(fallback, callName, es);
    SortedProperties(x.st.calls);
    assert Lists(callName, es, calls);
    match e {
      case ResponseStart(_, _) =>
        CreatedHolds(fallback, callName, x.st, es, e);
        AppendEmpty(Opening(fallback, es, e));
      case TextDelta(_) => TextHolds(fallback, callName, x.st, es, calls, e);
      case ResponseDone(_, _, _, _, _) => DoneHolds(fallback, callName, x.st, es, e);
      case _ => ToolHolds(fallback, callName, x.st, es, calls, e);
    }
    AppendEmpty(more);
    assert Sends(fallback, callName, es, x.emitted, e, more);
    RunAppend(RenderStep(fallback, callName), Initial(fallback), es, [e]);
    RunOne(RenderStep(fallback, callName), x.st, e);
  }
}
