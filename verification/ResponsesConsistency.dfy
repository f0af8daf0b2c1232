/**
 The Responses stream repeats itself: text and tool arguments go out as deltas,
 again when their item is done, and again in the completed response, all under one
 running sequence number. When do the repetitions agree?
 */
module ResponsesConsistency {
  import opened Wrappers
  import opened CanonicalStream
  import opened Transducer
  import opened ResponsesStream

  // ----- reading the output -----

  /** The sequence numbers, in order. */
  function Numbers(fs: seq<Frame>): seq<nat> {
    if fs == [] then [] else (if fs[0].Numbered? then [fs[0].sequence] else []) + Numbers(fs[1..])
  }

  function TextPiece(f: Frame): string {
    if f.Numbered? && f.payload.TextOut? then f.payload.delta else ""
  }

  /** All text sent as deltas. */
  function TextIn(fs: seq<Frame>): string {
    if fs == [] then "" else TextPiece(fs[0]) + TextIn(fs[1..])
  }

  function ArgumentPiece(view: string -> string, f: Frame, id: string): string {
    if f.Numbered? && f.payload.ArgumentsOut? && view(f.payload.callId) == id then f.payload.delta else ""
  }

  /** A frame names its call by the call id, and by the item id, which is the call id
      behind `fc_` unless that is there already. A view says which name is read. */
  const CALL_ID: string -> string := (id: string) => id
  const ITEM_ID: string -> string := (id: string) => if |id| >= 3 && id[..3] == "fc_" then id else "fc_" + id

  /** All argument text sent as deltas under one name. */
  function ArgumentsIn(view: string -> string, fs: seq<Frame>, id: string): string {
    if fs == [] then "" else ArgumentPiece(view, fs[0], id) + ArgumentsIn(view, fs[1..], id)
  }

  lemma {:induction false} NumbersAppend(a: seq<Frame>, b: seq<Frame>)
    ensures Numbers(a + b) == Numbers(a) + Numbers(b)
  {
    if a == [] {
      assert a + b == b;
    } else {
      assert (a + b)[1..] == a[1..] + b;
      NumbersAppend(a[1..], b);
      AppendAssoc(if a[0].Numbered? then [a[0].sequence] else [], Numbers(a[1..]), Numbers(b));
    }
  }

  lemma {:induction false} TextInAppend(a: seq<Frame>, b: seq<Frame>)
    ensures TextIn(a + b) == TextIn(a) + TextIn(b)
  {
    if a == [] {
      assert a + b == b;
    } else {
      assert (a + b)[1..] == a[1..] + b;
      TextInAppend(a[1..], b);
      AppendAssoc(TextPiece(a[0]), TextIn(a[1..]), TextIn(b));
    }
  }

  lemma {:induction false} ArgumentsInAppend(view: string -> string, a: seq<Frame>, b: seq<Frame>, id: string)
    ensures ArgumentsIn(view, a + b, id) == ArgumentsIn(view, a, id) + ArgumentsIn(view, b, id)
  {
    if a == [] {
      assert a + b == b;
    } else {
      assert (a + b)[1..] == a[1..] + b;
      ArgumentsInAppend(view, a[1..], b, id);
      AppendAssoc(ArgumentPiece(view, a[0], id), ArgumentsIn(view, a[1..], id), ArgumentsIn(view, b, id));
    }
  }

  lemma {:induction false} ReadAppend(a: seq<Frame>, b: seq<Frame>)
    ensures Numbers(a + b) == Numbers(a) + Numbers(b)
    ensures TextIn(a + b) == TextIn(a) + TextIn(b)
  {
    NumbersAppend(a, b);
    TextInAppend(a, b);
  }

  // ----- what each step emits -----

  function CountUp(from: nat, to: nat): seq<nat>
    requires from <= to
  {
    seq(to - from, i requires 0 <= i < to - from => from + i)
  }

  /** A result whose sequence numbers run from `from` without a gap and whose
      text deltas are `text`. */
  ghost predicate Emits(r: Result, from: nat, text: string) {
    from <= r.st.sequence && Numbers(r.emitted) == CountUp(from, r.st.sequence) && TextIn(r.emitted) == text
  }

  lemma {:induction false} PushEmits(r: Result, from: nat, text: string, p: Payload)
    requires Emits(r, from, text)
    ensures Emits(Push(r, p), from, text + if p.TextOut? then p.delta else "")
  {
    ReadAppend(r.emitted, [Numbered(r.st.sequence, p)]);
    assert CountUp(from, r.st.sequence) + [r.st.sequence] == CountUp(from, r.st.sequence + 1);
  }

  lemma {:induction false} PushAllEmits(r: Result, from: nat, text: string, ps: seq<Payload>)
    requires Emits(r, from, text)
    requires forall i :: 0 <= i < |ps| ==> !ps[i].TextOut?
    ensures Emits(PushAll(r, ps), from, text)
    ensures PushAll(r, ps).st == r.st.(sequence := r.st.sequence + |ps|)
    decreases |ps|
  {
    if ps != [] {
      PushEmits(r, from, text, ps[0]);
      assert text + "" == text;
      PushAllEmits(Push(r, ps[0]), from, text, ps[1..]);
    }
  }

  lemma {:induction false} ToolsDoneSilent(calls: seq<ToolCall>, offset: nat)
    ensures forall i :: 0 <= i < |ToolsDone(calls, offset)| ==>
              !ToolsDone(calls, offset)[i].TextOut? && !ToolsDone(calls, offset)[i].ArgumentsOut?
  {
    if calls != [] {
      ToolsDoneSilent(calls[1..], offset);
    }
  }

  lemma {:induction false} CreatedEmits(fallback: Option<string>, st: State)
    ensures Emits(EnsureCreated(fallback, st), st.sequence, "")
    ensures EnsureCreated(fallback, st).st == st.(created := true, sequence := EnsureCreated(fallback, st).st.sequence)
  {
  }

  lemma {:induction false} TextStartEmits(fallback: Option<string>, st: State)
    ensures Emits(EnsureText(fallback, st), st.sequence, "")
    ensures EnsureText(fallback, st).st.text == st.text
  {
    CreatedEmits(fallback, st);
    var a := EnsureCreated(fallback, st);
    if !a.st.outputStarted {
      var r := Out(a.st.(outputStarted := true), a.emitted);
      assert Emits(r, st.sequence, "");
      PushAllEmits(r, st.sequence, "", [MessageAdded, PartAdded]);
    }
  }

  lemma {:induction false} DoneEmits(fallback: Option<string>, callName: nat -> string, st: State, e: Event)
    requires e.ResponseDone?
    ensures var r := RenderEvent(fallback, callName, st, e);
      Emits(r, st.sequence, "") && r.st.text == st.text
  {
    CreatedEmits(fallback, st);
    var a := EnsureCreated(fallback, st);
    var start := Out(a.st.(outputDone := true), a.emitted);
    assert Emits(start, st.sequence, "");
    ToolsDoneSilent(Sorted(a.st.calls), OutputIndex(a.st, 0));
    PushAllEmits(start, st.sequence, "", ItemsDone(a.st));
    var b := if a.st.outputDone then a else PushAll(start, ItemsDone(a.st));
    var p := Completed(Or(b.st.id, FallbackId("resp_", fallback)), b.st.model, b.st.text, b.st.outputStarted, Sorted(b.st.calls), e.endTurn);
    PushEmits(b, st.sequence, "", p);
    ReadAppend(Push(b, p).emitted, [DoneMarker]);
  }

  /** One event: numbers continue, and text deltas are exactly the text added. */
  lemma {:induction false} StepEmits(fallback: Option<string>, callName: nat -> string, st: State, e: Event)
    ensures var r := RenderEvent(fallback, callName, st, e);
      && Emits(r, st.sequence, if e.TextDelta? then e.delta else "")
      && r.st.text == st.text + if e.TextDelta? then e.delta else ""
  {
    match e
    case ResponseStart(id, model) =>
      CreatedEmits(fallback, st.(id := Or(id, st.id), model := Or(model, st.model)));
    case TextDelta(delta) =>
      TextStartEmits(fallback, st);
      var a := EnsureText(fallback, st);
      PushEmits(Out(a.st.(text := a.st.text + delta), a.emitted), st.sequence, "", TextOut(delta));
      assert "" + delta == delta;
    case ToolStart(index, id, name) =>
      CreatedEmits(fallback, st);
      var a := EnsureCreated(fallback, st);
      var call := ToolCall(index, Or(id, callName(index)), Or(name, "tool"), "");
      PushEmits(Out(a.st.(calls := Put(a.st.calls, call)), a.emitted), st.sequence, "",
                ToolAdded(OutputIndex(a.st, index), call.id, call.name));
    case ToolDelta(index, arguments) =>
      var before := Find(st.calls, index).GetOr(ToolCall(index, callName(index), "tool", ""));
      var call := before.(arguments := before.arguments + arguments);
      var r: Result := Out(st.(calls := Put(st.calls, call)), []);
      assert Emits(r, st.sequence, "");
      PushEmits(r, st.sequence, "", ArgumentsOut(OutputIndex(st, index), call.id, arguments));
    case ResponseDone(_, _, _, _, _) =>
      DoneEmits(fallback, callName, st, e);
  }

  /** For every event sequence: the sequence numbers are 0, 1, 2, ... over all
      render calls, and the text deltas add up to the text kept for the end. */
  lemma {:induction false} SequenceAndText(fallback: Option<string>, callName: nat -> string, st: State, es: seq<Event>)
    ensures var r := Run(RenderStep(fallback, callName), st, es);
      && st.sequence <= r.st.sequence
      && Numbers(r.emitted) == CountUp(st.sequence, r.st.sequence)
      && r.st.text == st.text + TextIn(r.emitted)
      && TextIn(r.emitted) == TextOf(es)
    decreases |es|
  {
    if es == [] {
      assert st.text + "" == st.text;
    } else {
      var a := RenderEvent(fallback, callName, st, es[0]);
      StepEmits(fallback, callName, st, es[0]);
      SequenceAndText(fallback, callName, a.st, es[1..]);
      var b := Run(RenderStep(fallback, callName), a.st, es[1..]);
      ReadAppend(a.emitted, b.emitted);
      CountUpJoin(st.sequence, a.st.sequence, b.st.sequence);
      AppendAssoc(st.text, TextIn(a.emitted), TextIn(b.emitted));
    }
  }

  lemma {:induction false} CountUpJoin(a: nat, b: nat, c: nat)
    requires a <= b <= c
    ensures CountUp(a, b) + CountUp(b, c) == CountUp(a, c)
  {
  }

  // ----- tool arguments -----

  /** The argument text of an index since its last start. */
  function ArgumentsSince(es: seq<Event>, index: nat): string {
    if es == [] then ""
    else
      var e := es[|es| - 1];
      var before := ArgumentsSince(es[..|es| - 1], index);
      if e.ToolStart? && e.index == index then ""
      else if e.ToolDelta? && e.index == index then before + e.arguments
      else before
  }

  lemma {:induction false} DoneKeepsCalls(fallback: Option<string>, callName: nat -> string, st: State, e: Event)
    requires e.ResponseDone?
    ensures RenderEvent(fallback, callName, st, e).st.calls == st.calls
  {
    var a := EnsureCreated(fallback, st);
    PushAllCalls(Out(a.st.(outputDone := true), a.emitted), ItemsDone(a.st));
  }

  lemma {:induction false} StepCalls(fallback: Option<string>, callName: nat -> string, st: State, e: Event, index: nat)
    ensures var z := RenderEvent(fallback, callName, st, e).st;
      ArgumentsFor(z.calls, index) ==
        (if e.ToolStart? && e.index == index then ""
         else if e.ToolDelta? && e.index == index then ArgumentsFor(st.calls, index) + e.arguments
         else ArgumentsFor(st.calls, index))
  {
    match e
    case ToolStart(i, id, name) =>
      FindPut(st.calls, ToolCall(i, Or(id, callName(i)), Or(name, "tool"), ""), index);
    case ToolDelta(i, arguments) =>
      var before := Find(st.calls, i).GetOr(ToolCall(i, callName(i), "tool", ""));
      FindIndex(st.calls, i);
      FindPut(st.calls, before.(arguments := before.arguments + arguments), index);
    case ResponseDone(_, _, _, _, _) =>
      DoneKeepsCalls(fallback, callName, st, e);
    case _ =>
  }

  lemma {:induction false} StepUnique(fallback: Option<string>, callName: nat -> string, st: State, e: Event)
    requires Unique(st.calls)
    ensures Unique(RenderEvent(fallback, callName, st, e).st.calls)
  {
    match e
    case ToolStart(i, id, name) =>
      PutUnique(st.calls, ToolCall(i, Or(id, callName(i)), Or(name, "tool"), ""));
    case ToolDelta(i, arguments) =>
      var before := Find(st.calls, i).GetOr(ToolCall(i, callName(i), "tool", ""));
      PutUnique(st.calls, before.(arguments := before.arguments + arguments));
    case ResponseDone(_, _, _, _, _) =>
      DoneKeepsCalls(fallback, callName, st, e);
    case _ =>
  }

  lemma {:induction false} FindIndex(calls: seq<ToolCall>, index: nat)
    ensures Find(calls, index).Some? ==> Find(calls, index).value.index == index
  {
    if calls != [] {
      FindIndex(calls[1..], index);
    }
  }

  lemma {:induction false} PushAllCalls(r: Result, ps: seq<Payload>)
    ensures PushAll(r, ps).st == r.st.(sequence := r.st.sequence + |ps|)
    decreases |ps|
  {
    if ps != [] {
      PushAllCalls(Push(r, ps[0]), ps[1..]);
    }
  }

  /** For every event sequence, the arguments kept for a tool are its deltas since
      its last start. */
  lemma {:induction false} ArgumentsKept(fallback: Option<string>, callName: nat -> string, es: seq<Event>, index: nat)
    ensures var z := Run(RenderStep(fallback, callName), Initial(fallback), es).st;
      ArgumentsFor(z.calls, index) == ArgumentsSince(es, index) && Unique(z.calls)
    decreases |es|
  {
    if es != [] {
      var n := |es| - 1;
      ArgumentsKept(fallback, callName, es[..n], index);
      RunPrefix(RenderStep(fallback, callName), Initial(fallback), es, n);
      assert es[..n + 1] == es;
      var x := Run(RenderStep(fallback, callName), Initial(fallback), es[..n]).st;
      StepCalls(fallback, callName, x, es[n], index);
      StepUnique(fallback, callName, x, es[n]);
    }
  }

  /** At most one start per index, and before its deltas. */
  ghost predicate StartsFirst(es: seq<Event>) {
    forall i, j :: 0 <= j < i < |es| && es[i].ToolStart? ==>
      !(es[j].ToolStart? && es[j].index == es[i].index) && !(es[j].ToolDelta? && es[j].index == es[i].index)
  }

  lemma {:induction false} SinceIsAll(es: seq<Event>, index: nat)
    requires StartsFirst(es)
    ensures ArgumentsSince(es, index) == ArgumentsOf(es, index)
    decreases |es|
  {
    if es != [] {
      var n := |es| - 1;
      SinceIsAll(es[..n], index);
      assert es == es[..n] + [es[n]];
      ArgumentsAppend(es[..n], [es[n]], index);
      assert ArgumentsOf([es[n]], index) == if es[n].ToolDelta? && es[n].index == index then es[n].arguments else "";
      if es[n].ToolStart? && es[n].index == index {
        NoDeltas(es[..n], index);
      }
    }
  }

  lemma {:induction false} NoDeltas(es: seq<Event>, index: nat)
    requires forall j :: 0 <= j < |es| ==> !(es[j].ToolDelta? && es[j].index == index)
    ensures ArgumentsOf(es, index) == ""
  {
    if es != [] {
      NoDeltas(es[1..], index);
    }
  }

  // ----- the deltas that went out -----

  lemma {:induction false} PushArguments(view: string -> string, r: Result, p: Payload, id: string)
    ensures ArgumentsIn(view, Push(r, p).emitted, id) ==
            ArgumentsIn(view, r.emitted, id) + if p.ArgumentsOut? && view(p.callId) == id then p.delta else ""
  {
    var f := Numbered(r.st.sequence, p);
    ArgumentsInAppend(view, r.emitted, [f], id);
    assert ArgumentPiece(view, f, id) + "" == ArgumentPiece(view, f, id);
  }

  lemma {:induction false} PushAllSilent(view: string -> string, r: Result, ps: seq<Payload>, id: string)
    requires forall i :: 0 <= i < |ps| ==> !ps[i].ArgumentsOut?
    ensures ArgumentsIn(view, PushAll(r, ps).emitted, id) == ArgumentsIn(view, r.emitted, id)
    decreases |ps|
  {
    if ps != [] {
      PushArguments(view, r, ps[0], id);
      PushAllSilent(view, Push(r, ps[0]), ps[1..], id);
    }
  }

  lemma {:induction false} CreatedSilent(view: string -> string, fallback: Option<string>, st: State, id: string)
    ensures ArgumentsIn(view, EnsureCreated(fallback, st).emitted, id) == ""
  {
  }

  lemma {:induction false} MarkerSilent(view: string -> string, fs: seq<Frame>, id: string)
    ensures ArgumentsIn(view, fs + [DoneMarker], id) == ArgumentsIn(view, fs, id)
  {
    ArgumentsInAppend(view, fs, [DoneMarker], id);
    AppendEmpty(ArgumentsIn(view, fs, id));
  }

  lemma {:induction false} DoneSilent(view: string -> string, fallback: Option<string>, callName: nat -> string,
                                      st: State, done: Event, id: string)
    requires done.ResponseDone?
    ensures ArgumentsIn(view, RenderEvent(fallback, callName, st, done).emitted, id) == ""
  {
    CreatedSilent(view, fallback, st, id);
    var a := EnsureCreated(fallback, st);
    ToolsDoneSilent(Sorted(a.st.calls), OutputIndex(a.st, 0));
    var start := Out(a.st.(outputDone := true), a.emitted);
    PushAllSilent(view, start, ItemsDone(a.st), id);
    var b := if a.st.outputDone then a else PushAll(start, ItemsDone(a.st));
    var p := Completed(Or(b.st.id, FallbackId("resp_", fallback)), b.st.model, b.st.text, b.st.outputStarted, Sorted(b.st.calls), done.endTurn);
    PushArguments(view, b, p, id);
    AppendEmpty(ArgumentsIn(view, b.emitted, id));
    MarkerSilent(view, Push(b, p).emitted, id);
  }

  /** The id kept for an index, if the index is known. */
  function IdFor(calls: seq<ToolCall>, index: nat): Option<string> {
    var call := Find(calls, index);
    if call.Some? then Some(call.value.id) else None
  }

  /** An id as it is read. */
  function Seen(view: string -> string, id: Option<string>): Option<string> {
    if id.Some? then Some(view(id.value)) else None
  }

  /** One event sends its argument delta, if it has one, under the id kept for its tool. */
  lemma {:induction false} StepArguments(view: string -> string, fallback: Option<string>, callName: nat -> string,
                                         st: State, e: Event, id: string)
    ensures var r := RenderEvent(fallback, callName, st, e);
      ArgumentsIn(view, r.emitted, id) == if e.ToolDelta? && Seen(view, IdFor(r.st.calls, e.index)) == Some(id) then e.arguments else ""
  {
    match e
    case ResponseStart(i, m) =>
      CreatedSilent(view, fallback, st.(id := Or(i, st.id), model := Or(m, st.model)), id);
    case TextDelta(delta) =>
      CreatedSilent(view, fallback, st, id);
      var a := EnsureCreated(fallback, st);
      PushAllSilent(view, Out(a.st.(outputStarted := true), a.emitted), [MessageAdded, PartAdded], id);
      var b := EnsureText(fallback, st);
      PushArguments(view, Out(b.st.(text := b.st.text + delta), b.emitted), TextOut(delta), id);
    case ToolStart(index, i, name) =>
      CreatedSilent(view, fallback, st, id);
      var a := EnsureCreated(fallback, st);
      var call := ToolCall(index, Or(i, callName(index)), Or(name, "tool"), "");
      PushArguments(view, Out(a.st.(calls := Put(a.st.calls, call)), a.emitted),
                    ToolAdded(OutputIndex(a.st, index), call.id, call.name), id);
    case ToolDelta(index, arguments) =>
      var before := Find(st.calls, index).GetOr(ToolCall(index, callName(index), "tool", ""));
      var call := before.(arguments := before.arguments + arguments);
      FindIndex(st.calls, index);
      FindPut(st.calls, call, index);
      PushArguments(view, Out(st.(calls := Put(st.calls, call)), []), ArgumentsOut(OutputIndex(st, index), call.id, arguments), id);
    case ResponseDone(_, _, _, _, _) =>
      DoneSilent(view, fallback, callName, st, e, id);
  }

  /** The id of a tool after one event, given the one it had. */
  function StepName(callName: nat -> string, e: Event, i: nat, before: Option<string>): Option<string> {
    if e.ToolStart? && e.index == i then Some(Or(e.id, callName(i)))
    else if e.ToolDelta? && e.index == i then Some(before.GetOr(callName(i)))
    else before
  }

  /** The id under which the input makes a tool known, if it mentions the tool. */
  function EffectiveId(callName: nat -> string, es: seq<Event>, i: nat): Option<string> {
    if es == [] then None
    else StepName(callName, es[|es| - 1], i, EffectiveId(callName, es[..|es| - 1], i))
  }

  lemma {:induction false} StepId(fallback: Option<string>, callName: nat -> string, st: State, e: Event, i: nat)
    ensures IdFor(RenderEvent(fallback, callName, st, e).st.calls, i) == StepName(callName, e, i, IdFor(st.calls, i))
  {
    match e
    case ToolStart(j, id, name) =>
      FindPut(st.calls, ToolCall(j, Or(id, callName(j)), Or(name, "tool"), ""), i);
    case ToolDelta(j, arguments) =>
      var before := Find(st.calls, j).GetOr(ToolCall(j, callName(j), "tool", ""));
      FindIndex(st.calls, j);
      FindPut(st.calls, before.(arguments := before.arguments + arguments), i);
    case ResponseDone(_, _, _, _, _) =>
      DoneKeepsCalls(fallback, callName, st, e);
    case _ =>
  }

  /** For every event sequence, the renderer keeps exactly these ids. */
  lemma {:induction false} IdKept(fallback: Option<string>, callName: nat -> string, es: seq<Event>, i: nat)
    ensures IdFor(Run(RenderStep(fallback, callName), Initial(fallback), es).st.calls, i) == EffectiveId(callName, es, i)
    decreases |es|
  {
    if es != [] {
      var n := |es| - 1;
      IdKept(fallback, callName, es[..n], i);
      RunPrefix(RenderStep(fallback, callName), Initial(fallback), es, n);
      assert es[..n + 1] == es;
      StepId(fallback, callName, Run(RenderStep(fallback, callName), Initial(fallback), es[..n]).st, es[n], i);
    }
  }

  /** The deltas of the tools whose id was read as this name when each delta came. */
  function DeltasUnder(view: string -> string, callName: nat -> string, es: seq<Event>, id: string): string {
    if es == [] then ""
    else
      var e := es[|es| - 1];
      DeltasUnder(view, callName, es[..|es| - 1], id)
      + if e.ToolDelta? && Seen(view, EffectiveId(callName, es, e.index)) == Some(id) then e.arguments else ""
  }

  /** For every event sequence, what is sent under a name is what the input puts under it. */
  lemma {:induction false} ArgumentsSent(view: string -> string, fallback: Option<string>, callName: nat -> string,
                                         es: seq<Event>, id: string)
    ensures ArgumentsIn(view, Run(RenderStep(fallback, callName), Initial(fallback), es).emitted, id) == DeltasUnder(view, callName, es, id)
    decreases |es|
  {
    if es != [] {
      var n, e := |es| - 1, es[|es| - 1];
      ArgumentsSent(view, fallback, callName, es[..n], id);
      RunPrefix(RenderStep(fallback, callName), Initial(fallback), es, n);
      assert es[..n + 1] == es;
      var x := Run(RenderStep(fallback, callName), Initial(fallback), es[..n]);
      StepArguments(view, fallback, callName, x.st, e, id);
      ArgumentsInAppend(view, x.emitted, RenderEvent(fallback, callName, x.st, e).emitted, id);
      if e.ToolDelta? {
        IdKept(fallback, callName, es, e.index);
      }
    }
  }

  // ----- when ids are shared -----

  /** The deltas of all tools with this id, whatever names them. */
  function DeltasNamed(name: nat -> Option<string>, es: seq<Event>, id: string): string {
    if es == [] then ""
    else
      var e := es[|es| - 1];
      DeltasNamed(name, es[..|es| - 1], id) + if e.ToolDelta? && name(e.index) == Some(id) then e.arguments else ""
  }

  /** The delta of one event for one tool. */
  function Piece(e: Event, i: nat): string {
    if e.ToolDelta? && e.index == i then e.arguments else ""
  }

  lemma {:induction false} ArgumentsSnoc(es: seq<Event>, i: nat)
    requires es != []
    ensures ArgumentsOf(es, i) == ArgumentsOf(es[..|es| - 1], i) + Piece(es[|es| - 1], i)
  {
    var n := |es| - 1;
    assert es == es[..n] + [es[n]];
    ArgumentsAppend(es[..n], [es[n]], i);
    AppendEmpty(Piece(es[n], i));
  }

  /** If no other tool with the id says anything, the id has one tool's deltas. */
  lemma {:induction false} OneSpeaker(name: nat -> Option<string>, es: seq<Event>, id: string, i: nat)
    requires name(i) == Some(id)
    requires forall k :: 0 <= k < |es| && es[k].ToolDelta? && name(es[k].index) == Some(id) && es[k].index != i ==> es[k].arguments == ""
    ensures DeltasNamed(name, es, id) == ArgumentsOf(es, i)
    decreases |es|
  {
    if es != [] {
      OneSpeaker(name, es[..|es| - 1], id, i);
      ArgumentsSnoc(es, i);
    }
  }

  /** Two tools with one id put both their deltas under it. */
  lemma {:induction false} TwoSpeakers(name: nat -> Option<string>, es: seq<Event>, id: string, i: nat, j: nat)
    requires i != j && name(i) == Some(id) == name(j)
    ensures |DeltasNamed(name, es, id)| >= |ArgumentsOf(es, i)| + |ArgumentsOf(es, j)|
    decreases |es|
  {
    if es != [] {
      TwoSpeakers(name, es[..|es| - 1], id, i, j);
      ArgumentsSnoc(es, i);
      ArgumentsSnoc(es, j);
    }
  }

  lemma {:induction false} StartsFirstPrefix(es: seq<Event>, m: nat)
    requires StartsFirst(es) && m <= |es|
    ensures StartsFirst(es[..m])
  {
  }

  /** A tool that is known is not started again. */
  lemma {:induction false} KnownIsMentioned(callName: nat -> string, es: seq<Event>, i: nat)
    requires EffectiveId(callName, es, i).Some?
    ensures exists k :: 0 <= k < |es| && (es[k].ToolStart? || es[k].ToolDelta?) && es[k].index == i
    decreases |es|
  {
    var n := |es| - 1;
    if (es[n].ToolStart? || es[n].ToolDelta?) && es[n].index == i {
    } else {
      KnownIsMentioned(callName, es[..n], i);
      var k :| 0 <= k < n && (es[..n][k].ToolStart? || es[..n][k].ToolDelta?) && es[..n][k].index == i;
      assert es[k] == es[..n][k];
    }
  }

  /** So its id stays. */
  lemma {:induction false} IdStays(callName: nat -> string, es: seq<Event>, m: nat, i: nat)
    requires StartsFirst(es) && m <= |es| && EffectiveId(callName, es[..m], i).Some?
    ensures EffectiveId(callName, es, i) == EffectiveId(callName, es[..m], i)
    decreases |es|
  {
    if m == |es| {
      assert es[..m] == es;
    } else {
      var n := |es| - 1;
      assert es[..n][..m] == es[..m];
      StartsFirstPrefix(es, n);
      IdStays(callName, es[..n], m, i);
      KnownIsMentioned(callName, es[..m], i);
      var k :| 0 <= k < m && (es[..m][k].ToolStart? || es[..m][k].ToolDelta?) && es[..m][k].index == i;
      assert es[k] == es[..m][k];
    }
  }

  lemma {:induction false} UnderIsNamed(view: string -> string, callName: nat -> string, es: seq<Event>,
                                        m: nat, name: nat -> Option<string>, id: string)
    requires StartsFirst(es) && m <= |es|
    requires forall i :: name(i) == Seen(view, EffectiveId(callName, es, i))
    ensures DeltasUnder(view, callName, es[..m], id) == DeltasNamed(name, es[..m], id)
    decreases m
  {
    if m > 0 {
      UnderIsNamed(view, callName, es, m - 1, name, id);
      assert es[..m][..m - 1] == es[..m - 1];
      var e := es[m - 1];
      assert es[..m][m - 1] == e;
      if e.ToolDelta? {
        IdStays(callName, es, m, e.index);
      }
    }
  }

  /** Tools whose ids are read alike say nothing. */
  ghost predicate SharedIdsSilent(view: string -> string, callName: nat -> string, es: seq<Event>) {
    forall i: nat, j: nat ::
      i != j && EffectiveId(callName, es, i).Some? && Seen(view, EffectiveId(callName, es, i)) == Seen(view, EffectiveId(callName, es, j))
      ==> ArgumentsOf(es, i) == "" && ArgumentsOf(es, j) == ""
  }

  lemma {:induction false} SilentDelta(es: seq<Event>, k: nat)
    requires k < |es| && es[k].ToolDelta? && ArgumentsOf(es, es[k].index) == ""
    ensures es[k].arguments == ""
    decreases |es|
  {
    ArgumentsSnoc(es, es[k].index);
    if k < |es| - 1 {
      SilentDelta(es[..|es| - 1], k);
    }
  }

  /** What goes out under a tool's name is the tool's own, for every tool, exactly
      when tools that share a name are silent. */
  lemma {:induction false} OwnDeltasIff(view: string -> string, callName: nat -> string, es: seq<Event>)
    requires StartsFirst(es)
    ensures SharedIdsSilent(view, callName, es) <==>
      forall i: nat :: EffectiveId(callName, es, i).Some? ==> OwnDeltas(view, callName, es, i)
  {
    if SharedIdsSilent(view, callName, es) {
      forall i: nat | EffectiveId(callName, es, i).Some? ensures OwnDeltas(view, callName, es, i) {
        SilentMeansOwn(view, callName, es, i);
      }
    }
    if forall i: nat :: EffectiveId(callName, es, i).Some? ==> OwnDeltas(view, callName, es, i) {
      forall i: nat, j: nat |
        i != j && EffectiveId(callName, es, i).Some? && Seen(view, EffectiveId(callName, es, i)) == Seen(view, EffectiveId(callName, es, j))
        ensures ArgumentsOf(es, i) == "" && ArgumentsOf(es, j) == ""
      {
        assert OwnDeltas(view, callName, es, i) && OwnDeltas(view, callName, es, j);
        SharedIsLonger(view, callName, es, i, j);
      }
    }
  }

  ghost predicate OwnDeltas(view: string -> string, callName: nat -> string, es: seq<Event>, i: nat)
    requires EffectiveId(callName, es, i).Some?
  {
    DeltasUnder(view, callName, es, view(EffectiveId(callName, es, i).value)) == ArgumentsOf(es, i)
  }

  lemma {:induction false} SilentMeansOwn(view: string -> string, callName: nat -> string, es: seq<Event>, i: nat)
    requires StartsFirst(es) && SharedIdsSilent(view, callName, es) && EffectiveId(callName, es, i).Some?
    ensures OwnDeltas(view, callName, es, i)
  {
    var name := (j: nat) => Seen(view, EffectiveId(callName, es, j));
    var id := name(i).value;
    assert es[..|es|] == es;
    UnderIsNamed(view, callName, es, |es|, name, id);
    forall k: nat | k < |es| && es[k].ToolDelta? && name(es[k].index) == Some(id) && es[k].index != i
      ensures es[k].arguments == ""
    {
      assert ArgumentsOf(es, es[k].index) == "";
      SilentDelta(es, k);
    }
    OneSpeaker(name, es, id, i);
  }

  lemma {:induction false} SharedIsLonger(view: string -> string, callName: nat -> string, es: seq<Event>, i: nat, j: nat)
    requires StartsFirst(es) && i != j
    requires EffectiveId(callName, es, i).Some? && Seen(view, EffectiveId(callName, es, i)) == Seen(view, EffectiveId(callName, es, j))
    ensures |DeltasUnder(view, callName, es, view(EffectiveId(callName, es, i).value))| >= |ArgumentsOf(es, i)| + |ArgumentsOf(es, j)|
  {
    var name := (k: nat) => Seen(view, EffectiveId(callName, es, k));
    assert es[..|es|] == es;
    UnderIsNamed(view, callName, es, |es|, name, name(i).value);
    TwoSpeakers(name, es, name(i).value, i, j);
  }

  /** The completed response is what the renderer keeps: its text and its sorted
      tool calls. */
  lemma {:induction false} DoneRepeatsState(fallback: Option<string>, callName: nat -> string, st: State, done: Event)
    requires done.ResponseDone?
    ensures var r := RenderEvent(fallback, callName, st, done);
      && Completion(r.emitted, st.text, Sorted(st.calls))
      && r.st.calls == st.calls
  {
    var a := EnsureCreated(fallback, st);
    PushAllCalls(Out(a.st.(outputDone := true), a.emitted), ItemsDone(a.st));
  }

  /** The stream ends in a completed response with this text and these calls. */
  ghost predicate Completion(fs: seq<Frame>, text: string, calls: seq<ToolCall>) {
    && |fs| >= 2 && fs[|fs| - 1] == DoneMarker
    && fs[|fs| - 2].Numbered? && fs[|fs| - 2].payload.Completed?
    && fs[|fs| - 2].payload.text == text && fs[|fs| - 2].payload.calls == calls
  }

  /** Whether the calls listed agree with the deltas sent under their ids. */
  ghost predicate CallsMatch(view: string -> string, fs: seq<Frame>, calls: seq<ToolCall>) {
    forall i: nat :: Find(calls, i).Some? ==> CallMatches(view, fs, calls, i)
  }

  ghost predicate CallMatches(view: string -> string, fs: seq<Frame>, calls: seq<ToolCall>, i: nat)
    requires Find(calls, i).Some?
  {
    ArgumentsIn(view, fs, view(Find(calls, i).value.id)) == Find(calls, i).value.arguments
  }

  /** The calls listed match the deltas sent if and only if, in the input, tools that
      share an id have no argument text. */
  lemma {:induction false} CallsMatchIff(view: string -> string, fallback: Option<string>, callName: nat -> string,
                                         es: seq<Event>, z: Result)
    requires StartsFirst(es) && z == Run(RenderStep(fallback, callName), Initial(fallback), es)
    ensures CallsMatch(view, z.emitted, z.st.calls) <==> SharedIdsSilent(view, callName, es)
  {
    OwnDeltasIff(view, callName, es);
    forall i: nat
      ensures Find(z.st.calls, i).Some? <==> EffectiveId(callName, es, i).Some?
      ensures Find(z.st.calls, i).Some? ==>
        (CallMatches(view, z.emitted, z.st.calls, i) <==> OwnDeltas(view, callName, es, i))
    {
      IdKept(fallback, callName, es, i);
      ArgumentsKept(fallback, callName, es, i);
      SinceIsAll(es, i);
      if Find(z.st.calls, i).Some? {
        ArgumentsSent(view, fallback, callName, es, view(EffectiveId(callName, es, i).value));
      }
    }
  }

  lemma {:induction false} CallsOfState(fallback: Option<string>, callName: nat -> string, es: seq<Event>, x: State, calls: seq<ToolCall>)
    requires x == Run(RenderStep(fallback, callName), Initial(fallback), es).st && calls == Sorted(x.calls)
    ensures Increasing(calls) && multiset(calls) == multiset(x.calls)
    ensures forall i: nat :: Find(calls, i) == Find(x.calls, i)
  {
    ArgumentsKept(fallback, callName, es, 0);
    SortedProperties(x.calls);
  }

  /** The output ends by saying again exactly what it said in deltas, which is what
      the input said. */
  ghost predicate SaysAgain(view: string -> string, callName: nat -> string, fs: seq<Frame>, es: seq<Event>, calls: seq<ToolCall>) {
    && Completion(fs, TextIn(fs), calls)
    && TextIn(fs) == TextOf(es) && Increasing(calls)
    && (forall i: nat :: ArgumentsFor(calls, i) == ArgumentsOf(es, i))
    && (CallsMatch(view, fs, calls) <==> SharedIdsSilent(view, callName, es))
  }

  /** Self-consistency: for every stream in which a tool starts at most once and
      before its deltas, whatever the order of text and tools, the completed
      response repeats exactly the text sent as deltas, lists the tools in index
      order with the arguments of the input stream, and these are exactly the deltas
      sent under each call's id if and only if tools that share an id are silent. This
      holds of call ids, of item ids, and of any other view of the ids. */
  lemma {:induction false} CompletedRepeatsDeltas(view: string -> string, fallback: Option<string>, callName: nat -> string,
                                                  es: seq<Event>, done: Event)
    requires StartsFirst(es) && done.ResponseDone?
    ensures var fs := Run(RenderStep(fallback, callName), Initial(fallback), es + [done]).emitted;
      exists calls :: SaysAgain(view, callName, fs, es, calls)
  {
    var step, init := RenderStep(fallback, callName), Initial(fallback);
    var x := Run(step, init, es);
    var y := RenderEvent(fallback, callName, x.st, done);
    RunOne(step, x.st, done);
    RunParts(step, init, es, [done], x, y);
    Finish(view, fallback, callName, es, done, x, y, Sorted(x.st.calls));
  }

  lemma {:induction false} Finish(view: string -> string, fallback: Option<string>, callName: nat -> string, es: seq<Event>, done: Event,
               x: Result, y: Result, calls: seq<ToolCall>)
    requires StartsFirst(es) && done.ResponseDone?
    requires x == Run(RenderStep(fallback, callName), Initial(fallback), es)
    requires y == RenderEvent(fallback, callName, x.st, done)
    requires calls == Sorted(x.st.calls)
    ensures SaysAgain(view, callName, x.emitted + y.emitted, es, calls)
  {
    FinishText(fallback, callName, es, done, x, y);
    CallsOfState(fallback, callName, es, x.st, calls);
    DoneRepeatsState(fallback, callName, x.st, done);
    CompletionLater(x.emitted, y.emitted, x.st.text, calls);
    FinishArguments(fallback, callName, es, x.st.calls, calls);
    FinishMatch(view, fallback, callName, es, done, x, y, calls);
  }

  lemma {:induction false} CompletionLater(before: seq<Frame>, fs: seq<Frame>, text: string, calls: seq<ToolCall>)
    requires Completion(fs, text, calls)
    ensures Completion(before + fs, text, calls)
  {
  }

  lemma {:induction false} FinishMatch(view: string -> string, fallback: Option<string>, callName: nat -> string, es: seq<Event>, done: Event,
                                       x: Result, y: Result, calls: seq<ToolCall>)
    requires StartsFirst(es) && done.ResponseDone?
    requires x == Run(RenderStep(fallback, callName), Initial(fallback), es)
    requires y == RenderEvent(fallback, callName, x.st, done)
    requires forall i: nat :: Find(calls, i) == Find(x.st.calls, i)
    ensures CallsMatch(view, x.emitted + y.emitted, calls) <==> SharedIdsSilent(view, callName, es)
  {
    CallsMatchIff(view, fallback, callName, es, x);
    forall id ensures ArgumentsIn(view, y.emitted, id) == "" {
      DoneSilent(view, fallback, callName, x.st, done, id);
    }
    MatchLater(view, x.emitted, y.emitted, x.st.calls, calls);
  }

  lemma {:induction false} FinishText(fallback: Option<string>, callName: nat -> string, es: seq<Event>, done: Event, x: Result, y: Result)
    requires done.ResponseDone?
    requires x == Run(RenderStep(fallback, callName), Initial(fallback), es)
    requires y == RenderEvent(fallback, callName, x.st, done)
    ensures TextIn(x.emitted + y.emitted) == TextOf(es) == x.st.text
  {
    SequenceAndText(fallback, callName, Initial(fallback), es);
    DoneEmits(fallback, callName, x.st, done);
    TextInAppend(x.emitted, y.emitted);
    AppendEmpty(TextOf(es));
  }

  lemma {:induction false} FinishArguments(fallback: Option<string>, callName: nat -> string, es: seq<Event>, kept: seq<ToolCall>, calls: seq<ToolCall>)
    requires StartsFirst(es) && kept == Run(RenderStep(fallback, callName), Initial(fallback), es).st.calls
    requires forall i: nat :: Find(calls, i) == Find(kept, i)
    ensures forall i: nat :: ArgumentsFor(calls, i) == ArgumentsOf(es, i)
  {
    forall i: nat ensures ArgumentsFor(calls, i) == ArgumentsOf(es, i) {
      ArgumentsKept(fallback, callName, es, i);
      SinceIsAll(es, i);
    }
  }

  lemma {:induction false} MatchLater(view: string -> string, fs: seq<Frame>, more: seq<Frame>, kept: seq<ToolCall>, calls: seq<ToolCall>)
    requires forall id :: ArgumentsIn(view, more, id) == ""
    requires forall i: nat :: Find(calls, i) == Find(kept, i)
    ensures CallsMatch(view, fs + more, calls) <==> CallsMatch(view, fs, kept)
  {
    forall i: nat | Find(calls, i).Some?
      ensures CallMatches(view, fs + more, calls, i) <==> CallMatches(view, fs, kept, i)
    {
      ArgumentsInAppend(view, fs, more, view(Find(calls, i).value.id));
      AppendEmpty(ArgumentsIn(view, fs, view(Find(calls, i).value.id)));
    }
  }

  lemma {:induction false} Snoc(view: string -> string, callName: nat -> string, es: seq<Event>, e: Event, id: string)
    ensures forall i :: EffectiveId(callName, es + [e], i) == StepName(callName, e, i, EffectiveId(callName, es, i))
    ensures DeltasUnder(view, callName, es + [e], id) == DeltasUnder(view, callName, es, id)
      + if e.ToolDelta? && Seen(view, EffectiveId(callName, es + [e], e.index)) == Some(id) then e.arguments else ""
  {
    assert (es + [e])[..|es + [e]| - 1] == es;
  }

  /** Two tools, each with text of its own. */
  function Mixed(first: string, second: string): seq<Event> {
    [ToolStart(0, first, "f"), ToolDelta(0, "a"), ToolStart(1, second, "g"), ToolDelta(1, "b")]
  }

  lemma {:induction false} MixedDeltas(view: string -> string, callName: nat -> string, first: string, second: string)
    requires first != "" && second != "" && view(first) == view(second)
    ensures EffectiveId(callName, Mixed(first, second), 0) == Some(first)
    ensures EffectiveId(callName, Mixed(first, second), 1) == Some(second)
    ensures DeltasUnder(view, callName, Mixed(first, second), view(first)) == "ab"
  {
    var es := Mixed(first, second);
    var e0, e1, e2, e3 := es[0], es[1], es[2], es[3];
    Snoc(view, callName, [], e0, view(first));
    Snoc(view, callName, [] + [e0], e1, view(first));
    Snoc(view, callName, ([] + [e0]) + [e1], e2, view(first));
    Snoc(view, callName, (([] + [e0]) + [e1]) + [e2], e3, view(first));
    assert es == ((([] + [e0]) + [e1]) + [e2]) + [e3];
  }

  lemma {:induction false} MixedSpeaks(first: string, second: string)
    ensures StartsFirst(Mixed(first, second)) && ArgumentsOf(Mixed(first, second), 1) != ""
  {
    ArgumentsSnoc(Mixed(first, second), 1);
  }

  lemma {:induction false} NameMixes(view: string -> string, fallback: Option<string>, callName: nat -> string,
                                     first: string, second: string)
    requires first != "" && second != "" && view(first) == view(second)
    ensures var es := Mixed(first, second);
      && StartsFirst(es) && !SharedIdsSilent(view, callName, es)
      && ArgumentsIn(view, Run(RenderStep(fallback, callName), Initial(fallback), es).emitted, view(first)) == "ab"
  {
    MixedDeltas(view, callName, first, second);
    ArgumentsSent(view, fallback, callName, Mixed(first, second), view(first));
    MixedSpeaks(first, second);
  }

  /** Two tools under one call id, or under `x` and `fc_x`, which have one item id: the
      deltas sent under the name are neither tool's. */
  lemma {:induction false} SharedIdMixes(fallback: Option<string>, callName: nat -> string)
    ensures StartsFirst(Mixed("x", "x")) && !SharedIdsSilent(CALL_ID, callName, Mixed("x", "x"))
    ensures ArgumentsIn(CALL_ID, Run(RenderStep(fallback, callName), Initial(fallback), Mixed("x", "x")).emitted, "x") == "ab"
    ensures StartsFirst(Mixed("x", "fc_x")) && !SharedIdsSilent(ITEM_ID, callName, Mixed("x", "fc_x"))
    ensures ArgumentsIn(ITEM_ID, Run(RenderStep(fallback, callName), Initial(fallback), Mixed("x", "fc_x")).emitted, "fc_x") == "ab"
  {
    NameMixes(CALL_ID, fallback, callName, "x", "x");
    assert "fc_" + "x" == "fc_x" && "fc_x"[..3] == "fc_";
    NameMixes(ITEM_ID, fallback, callName, "x", "fc_x");
  }

  // ----- output indices -----

  function OutputPiece(f: Frame): seq<nat> {
    if f.Numbered? && (f.payload.ToolAdded? || f.payload.ArgumentsOut?) then [f.payload.outputIndex] else []
  }

  /** The output indices that tools are sent under, in order. */
  function ToolOutputs(fs: seq<Frame>): seq<nat> {
    if fs == [] then [] else OutputPiece(fs[0]) + ToolOutputs(fs[1..])
  }

  lemma {:induction false} ToolOutputsAppend(a: seq<Frame>, b: seq<Frame>)
    ensures ToolOutputs(a + b) == ToolOutputs(a) + ToolOutputs(b)
  {
    if a == [] {
      assert a + b == b;
    } else {
      assert (a + b)[1..] == a[1..] + b;
      ToolOutputsAppend(a[1..], b);
      AppendAssoc(OutputPiece(a[0]), ToolOutputs(a[1..]), ToolOutputs(b));
    }
  }

  predicate IsTool(e: Event) {
    e.ToolStart? || e.ToolDelta?
  }

  /** Each tool event with the index its item would have at that moment. */
  function OutputsSent(es: seq<Event>): seq<nat> {
    if es == [] then []
    else
      var e, before := es[|es| - 1], es[..|es| - 1];
      OutputsSent(before) + if IsTool(e) then [e.index + if HasText(before) then 1 else 0] else []
  }

  /** Each tool event with the index its item has in the end. */
  function OutputsFinal(es: seq<Event>, text: bool): seq<nat> {
    if es == [] then []
    else
      var e := es[|es| - 1];
      OutputsFinal(es[..|es| - 1], text) + if IsTool(e) then [e.index + if text then 1 else 0] else []
  }

  lemma {:induction false} PushOutputs(r: Result, p: Payload)
    ensures ToolOutputs(Push(r, p).emitted) ==
      ToolOutputs(r.emitted) + if p.ToolAdded? || p.ArgumentsOut? then [p.outputIndex] else []
  {
    var f := Numbered(r.st.sequence, p);
    ToolOutputsAppend(r.emitted, [f]);
    AppendEmpty(OutputPiece(f));
  }

  lemma {:induction false} PushAllOutputs(r: Result, ps: seq<Payload>)
    requires forall i :: 0 <= i < |ps| ==> !ps[i].ToolAdded? && !ps[i].ArgumentsOut?
    ensures ToolOutputs(PushAll(r, ps).emitted) == ToolOutputs(r.emitted)
    decreases |ps|
  {
    if ps != [] {
      PushOutputs(r, ps[0]);
      AppendEmpty(ToolOutputs(r.emitted));
      PushAllOutputs(Push(r, ps[0]), ps[1..]);
    }
  }

  lemma {:induction false} CreatedOutputs(fallback: Option<string>, st: State)
    ensures ToolOutputs(EnsureCreated(fallback, st).emitted) == []
    ensures EnsureCreated(fallback, st).st.outputStarted == st.outputStarted
  {
  }

  lemma {:induction false} ToolsDoneOutputs(calls: seq<ToolCall>, offset: nat)
    ensures forall i :: 0 <= i < |ToolsDone(calls, offset)| ==>
      !ToolsDone(calls, offset)[i].ToolAdded? && !ToolsDone(calls, offset)[i].ArgumentsOut?
  {
    if calls != [] {
      ToolsDoneOutputs(calls[1..], offset);
    }
  }

  lemma {:induction false} DoneOutputs(fallback: Option<string>, callName: nat -> string, st: State, done: Event)
    requires done.ResponseDone?
    ensures var r := RenderEvent(fallback, callName, st, done);
      ToolOutputs(r.emitted) == [] && r.st.outputStarted == st.outputStarted
  {
    CreatedOutputs(fallback, st);
    var a := EnsureCreated(fallback, st);
    ToolsDoneOutputs(Sorted(a.st.calls), OutputIndex(a.st, 0));
    var start := Out(a.st.(outputDone := true), a.emitted);
    PushAllOutputs(start, ItemsDone(a.st));
    PushAllCalls(start, ItemsDone(a.st));
    var b := if a.st.outputDone then a else PushAll(start, ItemsDone(a.st));
    var p := Completed(Or(b.st.id, FallbackId("resp_", fallback)), b.st.model, b.st.text, b.st.outputStarted, Sorted(b.st.calls), done.endTurn);
    PushOutputs(b, p);
    ToolOutputsAppend(Push(b, p).emitted, [DoneMarker]);
  }

  lemma {:induction false} StepOutputs(fallback: Option<string>, callName: nat -> string, st: State, e: Event)
    ensures var r := RenderEvent(fallback, callName, st, e);
      && ToolOutputs(r.emitted) == (if IsTool(e) then [OutputIndex(st, e.index)] else [])
      && r.st.outputStarted == (st.outputStarted || e.TextDelta?)
  {
    match e
    case ResponseStart(id, model) =>
      CreatedOutputs(fallback, st.(id := Or(id, st.id), model := Or(model, st.model)));
    case TextDelta(delta) =>
      CreatedOutputs(fallback, st);
      var a := EnsureCreated(fallback, st);
      PushAllOutputs(Out(a.st.(outputStarted := true), a.emitted), [MessageAdded, PartAdded]);
      PushAllCalls(Out(a.st.(outputStarted := true), a.emitted), [MessageAdded, PartAdded]);
      var b := EnsureText(fallback, st);
      PushOutputs(Out(b.st.(text := b.st.text + delta), b.emitted), TextOut(delta));
    case ToolStart(index, id, name) =>
      CreatedOutputs(fallback, st);
      var a := EnsureCreated(fallback, st);
      var call := ToolCall(index, Or(id, callName(index)), Or(name, "tool"), "");
      PushOutputs(Out(a.st.(calls := Put(a.st.calls, call)), a.emitted), ToolAdded(OutputIndex(a.st, index), call.id, call.name));
    case ToolDelta(_, _) =>
    case ResponseDone(_, _, _, _, _) =>
      DoneOutputs(fallback, callName, st, e);
  }

  lemma {:induction false} OutputsSnoc(es: seq<Event>, e: Event)
    ensures OutputsSent(es + [e]) == OutputsSent(es) + if IsTool(e) then [e.index + if HasText(es) then 1 else 0] else []
    ensures HasText(es + [e]) <==> HasText(es) || e.TextDelta?
  {
    SnocIs(es, e);
  }

  lemma {:induction false} OutputsOneMore(fallback: Option<string>, callName: nat -> string, es: seq<Event>, e: Event, x: Result)
    requires x == Run(RenderStep(fallback, callName), Initial(fallback), es)
    requires ToolOutputs(x.emitted) == OutputsSent(es) && x.st.outputStarted == HasText(es)
    ensures var z := Run(RenderStep(fallback, callName), Initial(fallback), es + [e]);
      ToolOutputs(z.emitted) == OutputsSent(es + [e]) && z.st.outputStarted == HasText(es + [e])
  {
    RunAppend(RenderStep(fallback, callName), Initial(fallback), es, [e]);
    RunOne(RenderStep(fallback, callName), x.st, e);
    StepOutputs(fallback, callName, x.st, e);
    ToolOutputsAppend(x.emitted, RenderEvent(fallback, callName, x.st, e).emitted);
    OutputsSnoc(es, e);
  }

  /** For every event sequence, the indices that tools are sent under. */
  lemma {:induction false} OutputsAre(fallback: Option<string>, callName: nat -> string, es: seq<Event>)
    ensures var z := Run(RenderStep(fallback, callName), Initial(fallback), es);
      ToolOutputs(z.emitted) == OutputsSent(es) && z.st.outputStarted == HasText(es)
    decreases |es|
  {
    if es != [] {
      var front, e := es[..|es| - 1], es[|es| - 1];
      SplitLast(es);
      OutputsAre(fallback, callName, front);
      OutputsOneMore(fallback, callName, front, e, Run(RenderStep(fallback, callName), Initial(fallback), front));
    }
  }

  /** No text begins once a tool was mentioned. */
  ghost predicate TextBeforeTools(es: seq<Event>) {
    HasText(es) ==> forall k :: 0 <= k < |es| && IsTool(es[k]) ==> HasText(es[..k])
  }

  /** Every tool frame carries the index under which its item is closed if and only
      if no text begins once a tool was mentioned. */
  lemma {:induction false} IndicesStayIff(fallback: Option<string>, callName: nat -> string, es: seq<Event>)
    ensures var z := Run(RenderStep(fallback, callName), Initial(fallback), es);
      ToolOutputs(z.emitted) == OutputsFinal(es, z.st.outputStarted) <==> TextBeforeTools(es)
  {
    OutputsAre(fallback, callName, es);
    SentIsFinalIff(es, HasText(es));
    if !HasText(es) {
      forall k | 0 <= k < |es| ensures !HasText(es[..k]) {
        NoTextBefore(es, k);
      }
    }
  }

  /** A tool that starts before any text is sent under index 0 and closed under index 1. */
  lemma {:induction false} IndexMoves(fallback: Option<string>, callName: nat -> string)
    ensures var es := [ToolStart(0, "x", "f"), TextDelta("t")];
      var z := Run(RenderStep(fallback, callName), Initial(fallback), es);
      ToolOutputs(z.emitted) == [0] && OutputsFinal(es, z.st.outputStarted) == [1]
  {
    var e0, e1 := ToolStart(0, "x", "f"), TextDelta("t");
    var es := [e0, e1];
    OutputsAre(fallback, callName, es);
    assert es[..1] == [e0] && [e0][..0] == [];
    assert OutputsSent([]) == [] == OutputsFinal([], true);
    assert OutputsSent([e0]) == [] + [0];
    assert OutputsFinal([e0], true) == [] + [1];
    AppendEmpty([1]);
  }

  lemma {:induction false} NoTextBefore(es: seq<Event>, k: nat)
    requires !HasText(es) && k <= |es|
    ensures !HasText(es[..k])
    decreases |es|
  {
    if k < |es| {
      NoTextBefore(es[..|es| - 1], k);
      assert es[..|es| - 1][..k] == es[..k];
    } else {
      assert es[..k] == es;
    }
  }

  /** Whether text had begun is the same before every tool event. */
  ghost predicate Uniform(es: seq<Event>, text: bool) {
    forall k :: 0 <= k < |es| && IsTool(es[k]) ==> HasText(es[..k]) == text
  }

  lemma {:induction false} UniformSnoc(es: seq<Event>, text: bool)
    requires es != []
    ensures var n := |es| - 1;
      Uniform(es, text) <==> Uniform(es[..n], text) && (IsTool(es[n]) ==> HasText(es[..n]) == text)
  {
    var n := |es| - 1;
    assert forall k :: 0 <= k < n ==> es[..n][k] == es[k] && es[..n][..k] == es[..k];
  }

  lemma {:induction false} SentIsFinalIff(es: seq<Event>, text: bool)
    ensures |OutputsSent(es)| == |OutputsFinal(es, text)|
    ensures OutputsSent(es) == OutputsFinal(es, text) <==> Uniform(es, text)
    decreases |es|
  {
    if es != [] {
      var n, e := |es| - 1, es[|es| - 1];
      var before := es[..n];
      SentIsFinalIff(before, text);
      UniformSnoc(es, text);
      var a, b := OutputsSent(before), OutputsFinal(before, text);
      if IsTool(e) {
        var x, y := [e.index + if HasText(before) then 1 else 0], [e.index + if text then 1 else 0];
        SplitEqual(a, b, x, y);
      } else {
        AppendEmpty(a);
        AppendEmpty(b);
      }
    }
  }

  lemma {:induction false} SplitEqual(a: seq<nat>, b: seq<nat>, x: seq<nat>, y: seq<nat>)
    requires |a| == |b|
    ensures a + x == b + y <==> a == b && x == y
  {
    if a + x == b + y {
      assert (a + x)[..|a|] == a && (b + y)[..|b|] == b;
      assert (a + x)[|a|..] == x && (b + y)[|b|..] == y;
    }
  }

  // ----- the items closed before the completed response -----

  lemma {:induction false} ToolsDoneAt(calls: seq<ToolCall>, offset: nat, k: nat)
    requires k < |calls|
    ensures var ps, c := ToolsDone(calls, offset), calls[k];
      && |ps| == 2 * |calls|
      && ps[2 * k] == ArgumentsDone(c.index + offset, c.id, c.name, c.arguments)
      && ps[2 * k + 1] == ToolDone(c.index + offset, c.id, c.name, c.arguments)
    decreases |calls|
  {
    var rest := ToolsDone(calls[1..], offset);
    if k > 0 {
      ToolsDoneAt(calls[1..], offset, k - 1);
      assert ToolsDone(calls, offset)[2 * k] == rest[2 * (k - 1)];
    } else if |calls| > 1 {
      ToolsDoneAt(calls[1..], offset, 0);
    } else {
      assert calls[1..] == [];
    }
  }

  /** Before the completed response every item is closed once, in order: the
      message, if there is one, with the whole text, then the k-th listed call with
      the arguments it is listed with. */
  lemma {:induction false} ItemsDoneRepeat(st: State, k: nat)
    requires k < |Sorted(st.calls)|
    ensures var ps, calls, base := ItemsDone(st), Sorted(st.calls), if st.outputStarted then 3 else 0;
      && |ps| == base + 2 * |calls|
      && (st.outputStarted ==> ps[..3] == [TextDone(st.text), PartDone(st.text), MessageDone(st.text)])
      && ps[base + 2 * k] == ArgumentsDone(OutputIndex(st, calls[k].index), calls[k].id, calls[k].name, calls[k].arguments)
      && ps[base + 2 * k + 1] == ToolDone(OutputIndex(st, calls[k].index), calls[k].id, calls[k].name, calls[k].arguments)
  {
    ToolsDoneAt(Sorted(st.calls), OutputIndex(st, 0), k);
  }
}
