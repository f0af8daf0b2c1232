/**
 What a chat stream says and what its normalized form says: the same text, the same
 tool calls with the same arguments, in the same order.
 */
module ChatContent {
  import opened Wrappers
  import opened CanonicalStream
  import opened Transducer
  import opened SseReader
  import opened ChatStream

  // ----- what the input says -----

  /** The decoded chunks, the done marker and what cannot be decoded left out. */
  function Payloads(o: Options, input: seq<SseEvent>): seq<Payload> {
    if input == [] then []
    else
      var n := |input| - 1;
      var p := o.decode(input[n].data);
      Payloads(o, input[..n]) + if input[n].data != "[DONE]" && p.Some? then [p.value] else []
  }

  /** The smallest thing a chunk says: some text, or a part of a tool call. */
  datatype Piece = Said(text: string) | Called(delta: CallDelta)

  function CallPieces(ds: seq<CallDelta>): seq<Piece> {
    if ds == [] then [] else [Called(ds[0])] + CallPieces(ds[1..])
  }

  function PiecesOf(p: Payload): seq<Piece> {
    (if p.text == "" then [] else [Said(p.text)]) + CallPieces(p.calls)
  }

  function Pieces(ps: seq<Payload>): seq<Piece> {
    if ps == [] then [] else Pieces(ps[..|ps| - 1]) + PiecesOf(ps[|ps| - 1])
  }

  const CHUNK_ID: Payload -> string := (p: Payload) => p.id
  const CHUNK_MODEL: Payload -> string := (p: Payload) => p.model
  const CHUNK_FINISH: Payload -> string := (p: Payload) => p.finish
  const CALL_ID: CallDelta -> string := (d: CallDelta) => d.id
  const CALL_NAME: CallDelta -> string := (d: CallDelta) => d.name

  /** The parts of one tool's call, in order. */
  function CallOf(us: seq<Piece>, index: nat): seq<CallDelta> {
    if us == [] then []
    else
      var u := us[|us| - 1];
      CallOf(us[..|us| - 1], index) + if u.Called? && u.delta.index == index then [u.delta] else []
  }

  function AllText(us: seq<Piece>): string {
    if us == [] then ""
    else AllText(us[..|us| - 1]) + if us[|us| - 1].Said? then us[|us| - 1].text else ""
  }

  function AllArguments(ds: seq<CallDelta>): string {
    if ds == [] then "" else AllArguments(ds[..|ds| - 1]) + ds[|ds| - 1].arguments
  }

  // ----- what the output must say -----

  /** One piece after others: its text; or the start of its tool, if this is the first
      mention and no final answer, and then its arguments, if any. */
  function Saying(before: seq<Piece>, u: Piece): seq<Event> {
    match u
    case Said(text) => [TextDelta(text)]
    case Called(d) =>
      (if CallOf(before, d.index) == [] && d.name != "final_answer" then [ToolStart(d.index, d.id, d.name)] else [])
      + (if d.arguments == "" then [] else [ToolDelta(d.index, d.arguments)])
  }

  function Body(us: seq<Piece>): seq<Event> {
    if us == [] then [] else Body(us[..|us| - 1]) + Saying(us[..|us| - 1], us[|us| - 1])
  }

  /** The chunks up to the first that says something, or all of them. */
  function Opening(ps: seq<Payload>): seq<Payload> {
    if ps == [] then [] else if Pieces(ps[..|ps| - 1]) != [] then Opening(ps[..|ps| - 1]) else ps
  }

  /** The model named last, or else the fallback, or else "unknown". */
  function ModelOf(o: Options, ps: seq<Payload>): string {
    Last(CHUNK_MODEL, ps, if o.fallbackModel.Some? then o.fallbackModel.value else "unknown")
  }

  function IdOf(ps: seq<Payload>): string {
    Last(CHUNK_ID, ps, "")
  }

  /** The start carries the id and the model known by then, and never an empty model. */
  ghost predicate StartsWith(o: Options, ps: seq<Payload>, e: Event) {
    && e.ResponseStart? && e.id == IdOf(ps)
    && (ModelOf(o, ps) != "" ==> e.model == ModelOf(o, ps))
    && (ModelOf(o, ps) == "" && o.fallbackModel.Some? && o.fallbackModel.value != "" ==> e.model == o.fallbackModel.value)
    && (ModelOf(o, ps) == "" && (o.fallbackModel.None? || o.fallbackModel.value == "") ==> e.model == "unknown")
  }

  /** A tool's call as the done event lists it. */
  function CallIn(us: seq<Piece>, index: nat): Option<ToolCall> {
    var ds := CallOf(us, index);
    if ds == [] then None
    else Some(ToolCall(index, Last(CALL_ID, ds, ""), Last(CALL_NAME, ds, ""), AllArguments(ds)))
  }

  /** Some tool other than the final answer was started. */
  ghost predicate RealTool(us: seq<Piece>) {
    exists k :: 0 <= k < |us| && us[k].Called? && CallOf(us[..k], us[k].delta.index) == [] && us[k].delta.name != "final_answer"
  }

  ghost predicate FinalAnswer(us: seq<Piece>) {
    exists i: nat :: CallIn(us, i).Some? && CallIn(us, i).value.name == "final_answer"
  }

  /** The done event: the names of the input, every tool's call in index order, and one
      more exactly when the caller needs a tool call and the stream has none. */
  ghost predicate EndsWith(o: Options, ps: seq<Payload>, e: Event, n: nat) {
    var us, finish := Pieces(ps), Last(CHUNK_FINISH, ps, "");
    && e.ResponseDone? && e.id == IdOf(ps) && e.model == ModelOf(o, ps)
    && e.finish == (if finish == "" then None else Some(finish))
    && n <= |e.toolCalls| && Increasing(e.toolCalls[..n])
    && (forall i: nat :: Find(e.toolCalls[..n], i) == CallIn(us, i))
    && (e.endTurn == Some(true) <==> !(o.forceAgentTools && !RealTool(us)))
    && (if e.endTurn == Some(true) then |e.toolCalls| == n
        else e.endTurn == Some(false) && |e.toolCalls| == n + 1 && Completes(o, ps, e.toolCalls[n]))
  }

  ghost predicate Ends(o: Options, ps: seq<Payload>, e: Event) {
    exists n :: EndsWith(o, ps, e, n)
  }

  /** The completing call: behind all others, a final answer if one was given or the text
      looks finished, else a call to go on. */
  ghost predicate Completes(o: Options, ps: seq<Payload>, call: ToolCall) {
    var us := Pieces(ps);
    && call.arguments == "" && call.id == "final_" + (if IdOf(ps) == "" then "response" else IdOf(ps))
    && call.name == (if FinalAnswer(us) || o.looksFinished(AllText(us)) then "final_answer" else "exec_command")
    && (forall i: nat :: CallIn(us, i).Some? ==> i < call.index)
    && (call.index == 0 || CallIn(us, call.index - 1).Some?)
  }

  // ----- proofs: the state knows what was said -----

  ghost predicate Knows(st: State, us: seq<Piece>) {
    && Unique(st.calls)
    && (forall i: nat :: Find(st.calls, i) == CallIn(us, i))
    && st.text == AllText(us)
    && (st.started <==> us != [])
    && (st.sawRealToolCall <==> RealTool(us))
    && !st.sawFinalMarker
  }

  /** What was emitted: nothing before something is said, then the start and the rest. */
  function Emitted(start: Event, us: seq<Piece>): seq<Event> {
    (if us == [] then [] else [start]) + Body(us)
  }

  function StartOf(o: Options, st: State): Event {
    ResponseStart(st.id, Or(st.model, Or(o.fallbackModel.GetOr(""), "unknown")))
  }

  lemma {:induction false} CallSnoc(ds: seq<CallDelta>, d: CallDelta, i: nat)
    ensures AllArguments(ds + [d]) == AllArguments(ds) + d.arguments
    ensures Last(CALL_ID, ds + [d], "") == Or(d.id, Last(CALL_ID, ds, ""))
    ensures Last(CALL_NAME, ds + [d], "") == Or(d.name, Last(CALL_NAME, ds, ""))
  {
    SnocIs(ds, d);
    LastSnoc(CALL_ID, ds, d, "");
    LastSnoc(CALL_NAME, ds, d, "");
  }

  lemma {:induction false} RealToolSnoc(us: seq<Piece>, u: Piece)
    ensures RealTool(us + [u]) <==> RealTool(us) || (u.Called? && CallOf(us, u.delta.index) == [] && u.delta.name != "final_answer")
  {
    var all, n := us + [u], |us|;
    assert forall k :: 0 <= k < n ==> all[k] == us[k] && all[..k] == us[..k];
    assert all[n] == u && all[..n] == us;
  }

  lemma {:induction false} CallInSnoc(us: seq<Piece>, u: Piece, i: nat)
    ensures CallIn(us + [u], i) ==
      if u.Called? && u.delta.index == i then
        var before := CallIn(us, i).GetOr(ToolCall(i, "", "", ""));
        Some(ToolCall(i, Or(u.delta.id, before.id), Or(u.delta.name, before.name), before.arguments + u.delta.arguments))
      else CallIn(us, i)
  {
    SnocIs(us, u);
    var ds := CallOf(us, i);
    if u.Called? && u.delta.index == i {
      CallSnoc(ds, u.delta, i);
      assert CallOf(us + [u], i) == ds + [u.delta];
    } else {
      AppendEmpty(ds);
    }
  }

  lemma {:induction false} BodySnoc(start: Event, us: seq<Piece>, u: Piece)
    ensures Emitted(start, us + [u]) == (if us == [] then [start] else Emitted(start, us)) + Saying(us, u)
    ensures AllText(us + [u]) == AllText(us) + if u.Said? then u.text else ""
  {
    SnocIs(us, u);
    AppendAssoc([start], Body(us), Saying(us, u));
    if us == [] {
      assert [start] + [] == [start] && [] + Saying(us, u) == Saying(us, u);
    }
  }

  /** One piece of text. */
  lemma {:induction false} TextStep(o: Options, st: State, us: seq<Piece>, start: Event, text: string)
    requires Knows(st, us) && text != "" && (us == [] ==> start == StartOf(o, st))
    ensures var r := OnText(o, st, text);
      && Knows(r.st, us + [Said(text)]) && Emitted(start, us) + r.emitted == Emitted(start, us + [Said(text)])
      && r.st.id == st.id && r.st.model == st.model && r.st.finish == st.finish
  {
    var u := Said(text);
    BodySnoc(start, us, u);
    RealToolSnoc(us, u);
    forall i: nat ensures CallIn(us + [u], i) == CallIn(us, i) {
      CallInSnoc(us, u, i);
    }
    if us == [] {
      assert Emitted(start, us) == [];
    }
  }

  /** The calls kept, after one part of a tool call. */
  lemma {:induction false} CallKept(calls: seq<ToolCall>, us: seq<Piece>, d: CallDelta, call: ToolCall)
    requires Unique(calls) && forall i: nat :: Find(calls, i) == CallIn(us, i)
    requires var before := Find(calls, d.index).GetOr(ToolCall(d.index, "", "", ""));
      call == ToolCall(d.index, Or(d.id, before.id), Or(d.name, before.name), before.arguments + d.arguments)
    ensures Unique(Put(calls, call)) && forall i: nat :: Find(Put(calls, call), i) == CallIn(us + [Called(d)], i)
  {
    PutUnique(calls, call);
    forall i: nat ensures Find(Put(calls, call), i) == CallIn(us + [Called(d)], i) {
      FindPut(calls, call, i);
      CallInSnoc(us, Called(d), i);
    }
  }

  lemma {:induction false} FirstIff(us: seq<Piece>, i: nat)
    ensures CallIn(us, i).None? <==> CallOf(us, i) == []
  {
  }

  /** One part of a tool call. */
  lemma {:induction false} CallKnown(o: Options, st: State, us: seq<Piece>, d: CallDelta)
    requires Knows(st, us)
    ensures var r := OnCall(o, st, d);
      && Knows(r.st, us + [Called(d)])
      && r.st.id == st.id && r.st.model == st.model && r.st.finish == st.finish
  {
    var before := Find(st.calls, d.index).GetOr(ToolCall(d.index, "", "", ""));
    CallKept(st.calls, us, d, ToolCall(d.index, Or(d.id, before.id), Or(d.name, before.name), before.arguments + d.arguments));
    BodySnoc(StartOf(o, st), us, Called(d));
    RealToolSnoc(us, Called(d));
    FirstIff(us, d.index);
    AppendEmpty(AllText(us));
  }

  lemma {:induction false} CallSays(o: Options, st: State, us: seq<Piece>, start: Event, d: CallDelta)
    requires Knows(st, us) && (us == [] ==> start == StartOf(o, st))
    ensures Emitted(start, us) + OnCall(o, st, d).emitted == Emitted(start, us + [Called(d)])
  {
    var u := Called(d);
    BodySnoc(start, us, u);
    FirstIff(us, d.index);
    var lead: seq<Event> := if us == [] then [start] else [];
    OnCallIs(o, st, us, d);
    AppendAssoc(Emitted(start, us), lead, Saying(us, u));
    AppendEmpty(Emitted(start, us));
    AppendEmpty([start]);
  }

  lemma {:induction false} OnCallIs(o: Options, st: State, us: seq<Piece>, d: CallDelta)
    requires Knows(st, us)
    ensures OnCall(o, st, d).emitted == (if us == [] then [StartOf(o, st)] else []) + Saying(us, Called(d))
  {
    FirstIff(us, d.index);
    var starts: seq<Event> := if CallOf(us, d.index) == [] && d.name != "final_answer" then [ToolStart(d.index, d.id, d.name)] else [];
    var deltas: seq<Event> := if d.arguments == "" then [] else [ToolDelta(d.index, d.arguments)];
    AppendAssoc(if us == [] then [StartOf(o, st)] else [], starts, deltas);
  }

  lemma {:induction false} CallsStep(o: Options, st: State, us: seq<Piece>, start: Event, ds: seq<CallDelta>)
    requires Knows(st, us) && (us == [] ==> start == StartOf(o, st))
    ensures var r := Run(CallStep(o), st, ds);
      && Knows(r.st, us + CallPieces(ds)) && Emitted(start, us) + r.emitted == Emitted(start, us + CallPieces(ds))
      && r.st.id == st.id && r.st.model == st.model && r.st.finish == st.finish
    decreases |ds|
  {
    if ds == [] {
      assert us + CallPieces(ds) == us;
      AppendEmpty(Emitted(start, us));
    } else {
      CallKnown(o, st, us, ds[0]);
      CallSays(o, st, us, start, ds[0]);
      var a := OnCall(o, st, ds[0]);
      CallsStep(o, a.st, us + [Called(ds[0])], start, ds[1..]);
      AppendAssoc(us, [Called(ds[0])], CallPieces(ds[1..]));
      AppendAssoc(Emitted(start, us), a.emitted, Run(CallStep(o), a.st, ds[1..]).emitted);
    }
  }

  /** The names known from the chunks so far. */
  ghost predicate Names(o: Options, st: State, ps: seq<Payload>) {
    var finish := Last(CHUNK_FINISH, ps, "");
    st.id == IdOf(ps) && st.model == ModelOf(o, ps) && st.finish == if finish == "" then None else Some(finish)
  }

  /** The start event of a stream: the one for the state at its opening. */
  ghost predicate Begins(o: Options, ps: seq<Payload>, start: Event) {
    Pieces(ps) != [] ==> StartsWith(o, Opening(ps), start)
  }

  lemma {:induction false} StartIs(o: Options, st: State, ps: seq<Payload>)
    requires Names(o, st, ps)
    ensures StartsWith(o, ps, StartOf(o, st))
  {
  }

  lemma {:induction false} PayloadNames(o: Options, st: State, ps: seq<Payload>, p: Payload)
    requires Names(o, st, ps)
    ensures Names(o, st.(id := Or(p.id, st.id), model := Or(p.model, st.model),
                         finish := if p.finish == "" then st.finish else Some(p.finish)), ps + [p])
  {
    SnocIs(ps, p);
  }

  /** One chunk. */
  lemma {:induction false} PayloadStep(o: Options, st: State, ps: seq<Payload>, start: Event, p: Payload) returns (start': Event)
    requires Knows(st, Pieces(ps)) && Names(o, st, ps) && Begins(o, ps, start)
    ensures var r := OnPayload(o, st, p);
      && Knows(r.st, Pieces(ps + [p])) && Names(o, r.st, ps + [p]) && Begins(o, ps + [p], start')
      && Emitted(start, Pieces(ps)) + r.emitted == Emitted(start', Pieces(ps + [p]))
  {
    var s := st.(id := Or(p.id, st.id), model := Or(p.model, st.model), finish := if p.finish == "" then st.finish else Some(p.finish));
    var us := Pieces(ps);
    PayloadNames(o, st, ps, p);
    SnocIs(ps, p);
    StartIs(o, s, ps + [p]);
    start' := if us == [] then StartOf(o, s) else start;
    assert Emitted(start, us) == Emitted(start', us);
    var a := OnText(o, s, p.text);
    var said := if p.text == "" then [] else [Said(p.text)];
    if p.text == "" {
      AppendEmpty(us);
      AppendEmpty(Emitted(start', us));
    } else {
      TextStep(o, s, us, start', p.text);
    }
    assert Knows(a.st, us + said) && Emitted(start', us) + a.emitted == Emitted(start', us + said);
    CallsStep(o, a.st, us + said, start', p.calls);
    AppendAssoc(us, said, CallPieces(p.calls));
    AppendAssoc(Emitted(start', us), a.emitted, Run(CallStep(o), a.st, p.calls).emitted);
  }

  lemma {:induction false} InputSteps(o: Options, input: seq<SseEvent>) returns (start: Event)
    ensures var r, ps := Run(EventStep(o), Initial(o), input), Payloads(o, input);
      && Knows(r.st, Pieces(ps)) && Names(o, r.st, ps) && Begins(o, ps, start)
      && r.emitted == Emitted(start, Pieces(ps))
    decreases |input|
  {
    if input == [] {
      start := ResponseStart("", "");
    } else {
      var n, e := |input| - 1, input[|input| - 1];
      var before := InputSteps(o, input[..n]);
      RunPrefix(EventStep(o), Initial(o), input, n);
      assert input[..n + 1] == input;
      var x := Run(EventStep(o), Initial(o), input[..n]);
      var p := o.decode(e.data);
      if e.data == DONE_MARKER || p.None? {
        AppendEmpty(Payloads(o, input[..n]));
        AppendEmpty(x.emitted);
        start := before;
      } else {
        start := PayloadStep(o, x.st, Payloads(o, input[..n]), before, p.value);
      }
    }
  }

  // ----- the end -----

  lemma {:induction false} FindMember(calls: seq<ToolCall>, k: nat)
    requires k < |calls| && Unique(calls)
    ensures Find(calls, calls[k].index) == Some(calls[k])
  {
    if k > 0 {
      FindMember(calls[1..], k - 1);
    }
  }

  lemma {:induction false} FoundIsMember(calls: seq<ToolCall>, i: nat) returns (k: nat)
    requires Find(calls, i).Some?
    ensures k < |calls| && calls[k] == Find(calls, i).value && calls[k].index == i
  {
    if calls[0].index == i {
      k := 0;
    } else {
      k := FoundIsMember(calls[1..], i);
      k := k + 1;
    }
  }

  lemma {:induction false} IncreasingUnique(calls: seq<ToolCall>)
    requires Increasing(calls)
    ensures Unique(calls)
  {
    if calls != [] {
      IncreasingUnique(calls[1..]);
      if Find(calls[1..], calls[0].index).Some? {
        var k := FoundIsMember(calls[1..], calls[0].index);
      }
    }
  }

  lemma {:induction false} NextIndexIs(calls: seq<ToolCall>)
    ensures forall i: nat :: Find(calls, i).Some? ==> i < NextIndex(calls)
    ensures NextIndex(calls) == 0 || Find(calls, NextIndex(calls) - 1).Some?
  {
    if calls != [] {
      NextIndexIs(calls[1..]);
    }
  }

  lemma {:induction false} FinalIff(calls: seq<ToolCall>, us: seq<Piece>)
    requires Unique(calls) && forall i: nat :: Find(calls, i) == CallIn(us, i)
    ensures AnyFinal(calls) <==> FinalAnswer(us)
  {
    if AnyFinal(calls) {
      var k :| 0 <= k < |calls| && calls[k].name == FINAL_ANSWER_TOOL;
      FindMember(calls, k);
      assert CallIn(us, calls[k].index) == Some(calls[k]);
    }
    if FinalAnswer(us) {
      var i: nat :| CallIn(us, i).Some? && CallIn(us, i).value.name == "final_answer";
      var k := FoundIsMember(calls, i);
    }
  }

  lemma {:induction false} CompletesIs(o: Options, st: State, ps: seq<Payload>, calls: seq<ToolCall>, final: bool)
    requires forall i: nat :: Find(calls, i) == CallIn(Pieces(ps), i)
    requires st.id == IdOf(ps) && st.text == AllText(Pieces(ps)) && (final <==> FinalAnswer(Pieces(ps)))
    ensures Completes(o, ps, ToolCall(NextIndex(calls), "final_" + Or(st.id, "response"),
                                      if final || o.looksFinished(st.text) then FINAL_ANSWER_TOOL else CONTINUE_TOOL, ""))
  {
    NextIndexIs(calls);
    assert forall i: nat :: CallIn(Pieces(ps), i).Some? ==> Find(calls, i).Some?;
  }

  lemma {:induction false} DoneEnds(o: Options, st: State, ps: seq<Payload>, calls: seq<ToolCall>, force: bool, extra: seq<ToolCall>)
    requires Names(o, st, ps) && Increasing(calls) && forall i: nat :: Find(calls, i) == CallIn(Pieces(ps), i)
    requires force <==> o.forceAgentTools && !RealTool(Pieces(ps))
    requires if force then |extra| == 1 && Completes(o, ps, extra[0]) else extra == []
    ensures EndsWith(o, ps, ResponseDone(st.id, st.model, st.finish, Some(!force), calls + extra), |calls|)
  {
    assert (calls + extra)[..|calls|] == calls;
  }

  /** The completing call, if it is needed, and the done event with it. */
  function Extra(o: Options, st: State): seq<ToolCall> {
    var calls := Sorted(st.calls);
    if !o.forceAgentTools || st.sawRealToolCall then []
    else [ToolCall(NextIndex(calls), "final_" + Or(st.id, "response"),
                   if AnyFinal(calls) || o.looksFinished(st.text) then FINAL_ANSWER_TOOL else CONTINUE_TOOL, "")]
  }

  function DoneOf(o: Options, st: State): Event {
    ResponseDone(st.id, st.model, st.finish, Some(Extra(o, st) == []), Sorted(st.calls) + Extra(o, st))
  }

  lemma {:induction false} DoneOfEnds(o: Options, st: State, ps: seq<Payload>)
    requires Knows(st, Pieces(ps)) && Names(o, st, ps)
    ensures EndsWith(o, ps, DoneOf(o, st), |Sorted(st.calls)|)
  {
    var calls := Sorted(st.calls);
    SortedProperties(st.calls);
    IncreasingUnique(calls);
    FinalIff(calls, Pieces(ps));
    CompletesIs(o, st, ps, calls, AnyFinal(calls));
    DoneEnds(o, st, ps, calls, o.forceAgentTools && !st.sawRealToolCall, Extra(o, st));
  }

  lemma {:induction false} FinishIs(o: Options, st: State)
    requires !st.sawFinalMarker
    ensures Finish(o, st).emitted == (if st.started then [] else [StartOf(o, st)]) + [DoneOf(o, st)]
  {
  }

  /** Every chat stream, whatever its chunks hold: the normalized stream starts with the
      names known when something is first said, then says the pieces of the input in
      their order, and ends with the names and the tool calls of the whole input. */
  lemma {:induction false} NormalizedIs(o: Options, input: seq<SseEvent>)
    ensures var es, ps := Normalize(o, input), Payloads(o, input);
      && |es| >= 2 && es == [es[0]] + Body(Pieces(ps)) + [es[|es| - 1]]
      && StartsWith(o, Opening(ps), es[0])
      && Ends(o, ps, es[|es| - 1])
  {
    var start := InputSteps(o, input);
    var r, ps := Run(EventStep(o), Initial(o), input), Payloads(o, input);
    var us, done := Pieces(ps), DoneOf(o, r.st);
    FinishIs(o, r.st);
    DoneOfEnds(o, r.st, ps);
    StartIs(o, r.st, ps);
    if us == [] {
      SilentOpening(ps);
    }
    Assembled(start, StartOf(o, r.st), us, done);
    assert Ends(o, ps, done);
  }

  lemma {:induction false} Assembled(start: Event, late: Event, us: seq<Piece>, done: Event)
    ensures var es := Emitted(start, us) + ((if us == [] then [late] else []) + [done]);
      && |es| >= 2 && es == [es[0]] + Body(us) + [es[|es| - 1]] && es[|es| - 1] == done
      && es[0] == if us == [] then late else start
  {
    if us == [] {
      assert [] + ([late] + [done]) == [late] + [] + [done];
    } else {
      assert [] + [done] == [done];
    }
  }

  lemma {:induction false} SilentOpening(ps: seq<Payload>)
    requires Pieces(ps) == []
    ensures Opening(ps) == ps
  {
    if ps != [] {
      assert Pieces(ps[..|ps| - 1]) == [];
    }
  }

  // ----- in particular -----

  lemma {:induction false} BodySays(us: seq<Piece>, i: nat)
    ensures TextOf(Body(us)) == AllText(us)
    ensures ArgumentsOf(Body(us), i) == AllArguments(CallOf(us, i))
    decreases |us|
  {
    if us != [] {
      var before, u := us[..|us| - 1], us[|us| - 1];
      BodySays(before, i);
      TextAppend(Body(before), Saying(before, u));
      ArgumentsAppend(Body(before), Saying(before, u), i);
      SayingSays(before, u, i);
      var ds := CallOf(before, i);
      if u.Called? && u.delta.index == i {
        SnocIs(ds, u.delta);
      } else {
        AppendEmpty(ds);
      }
    }
  }

  lemma {:induction false} SayingSays(before: seq<Piece>, u: Piece, i: nat)
    ensures TextOf(Saying(before, u)) == if u.Said? then u.text else ""
    ensures ArgumentsOf(Saying(before, u), i) == if u.Called? && u.delta.index == i then u.delta.arguments else ""
  {
    if u.Called? {
      var d := u.delta;
      var a := if CallOf(before, d.index) == [] && d.name != "final_answer" then [ToolStart(d.index, d.id, d.name)] else [];
      var b := if d.arguments == "" then [] else [ToolDelta(d.index, d.arguments)];
      TextAppend(a, b);
      ArgumentsAppend(a, b, i);
      assert TextOf(a) == "" == TextOf(b) && ArgumentsOf(a, i) == "";
      assert ArgumentsOf(b, i) == if d.index == i then d.arguments else "";
    }
  }

  /** The text is all the text of the input, and each tool's arguments are all of its own. */
  lemma {:induction false} NothingIsLost(o: Options, input: seq<SseEvent>, i: nat)
    ensures var es, us := Normalize(o, input), Pieces(Payloads(o, input));
      TextOf(es) == AllText(us) && ArgumentsOf(es, i) == AllArguments(CallOf(us, i))
  {
    NormalizedIs(o, input);
    var es, us := Normalize(o, input), Pieces(Payloads(o, input));
    BodySays(us, i);
    Between(es[0], Body(us), es[|es| - 1], i);
  }

  /** A start and an end say nothing of their own. */
  lemma {:induction false} Between(first: Event, body: seq<Event>, last: Event, i: nat)
    requires first.ResponseStart? && last.ResponseDone?
    ensures TextOf([first] + body + [last]) == TextOf(body) && ArgumentsOf([first] + body + [last], i) == ArgumentsOf(body, i)
  {
    TextAppend([first] + body, [last]);
    TextAppend([first], body);
    ArgumentsAppend([first] + body, [last], i);
    ArgumentsAppend([first], body, i);
    assert TextOf([first]) == "" == TextOf([last]) && ArgumentsOf([first], i) == "" == ArgumentsOf([last], i);
  }
}
