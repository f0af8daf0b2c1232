/** The protocol-neutral stream that every normalizer produces and every renderer consumes. */
module CanonicalStream {
  import opened Wrappers

  datatype ToolCall = ToolCall(index: nat, id: string, name: string, arguments: string)

  datatype Event =
    | ResponseStart(id: string, model: string)
    | TextDelta(delta: string)
    | ToolStart(index: nat, id: string, name: string)
    | ToolDelta(index: nat, arguments: string)
    | ResponseDone(id: string, model: string, finish: Option<string>, endTurn: Option<bool>, toolCalls: seq<ToolCall>)

  // ----- names with defaults -----

  function Or(s: string, default: string): string {
    if s == "" then default else s
  }

  /** The id of a response that was given none. */
  function FallbackId(prefix: string, fallback: Option<string>): string {
    prefix + if fallback.Some? && fallback.value != "" then fallback.value else "stream"
  }

  // ----- what a stream says -----

  /** All text, in order. */
  function TextOf(es: seq<Event>): string {
    if es == [] then "" else (if es[0].TextDelta? then es[0].delta else "") + TextOf(es[1..])
  }

  /** All argument text of one tool, in order. */
  function ArgumentsOf(es: seq<Event>, index: nat): string {
    if es == [] then ""
    else (if es[0].ToolDelta? && es[0].index == index then es[0].arguments else "") + ArgumentsOf(es[1..], index)
  }

  lemma {:induction false} TextAppend(a: seq<Event>, b: seq<Event>)
    ensures TextOf(a + b) == TextOf(a) + TextOf(b)
  {
    if a == [] {
      assert a + b == b;
    } else {
      assert (a + b)[1..] == a[1..] + b;
      TextAppend(a[1..], b);
    }
  }

  lemma {:induction false} ArgumentsAppend(a: seq<Event>, b: seq<Event>, index: nat)
    ensures ArgumentsOf(a + b, index) == ArgumentsOf(a, index) + ArgumentsOf(b, index)
  {
    if a == [] {
      assert a + b == b;
    } else {
      assert (a + b)[1..] == a[1..] + b;
      ArgumentsAppend(a[1..], b, index);
    }
  }

  /** Some text was said. */
  function HasText(es: seq<Event>): bool {
    es != [] && (es[|es| - 1].TextDelta? || HasText(es[..|es| - 1]))
  }

  // ----- tool calls keyed by index, in insertion order -----

  function Find(calls: seq<ToolCall>, index: nat): Option<ToolCall> {
    if calls == [] then None
    else if calls[0].index == index then Some(calls[0])
    else Find(calls[1..], index)
  }

  /** The arguments accumulated for an index. */
  function ArgumentsFor(calls: seq<ToolCall>, index: nat): string {
    var call := Find(calls, index);
    if call.Some? then call.value.arguments else ""
  }

  /** Set the entry for the call's index, keeping the order of the others. */
  function Put(calls: seq<ToolCall>, call: ToolCall): seq<ToolCall> {
    if calls == [] then [call]
    else if calls[0].index == call.index then [call] + calls[1..]
    else [calls[0]] + Put(calls[1..], call)
  }

  lemma {:induction false} FindPut(calls: seq<ToolCall>, call: ToolCall, index: nat)
    ensures Find(Put(calls, call), index) == if index == call.index then Some(call) else Find(calls, index)
  {
    if calls != [] && calls[0].index != call.index {
      FindPut(calls[1..], call, index);
      assert Put(calls, call)[1..] == Put(calls[1..], call);
    }
  }

  function Insert(call: ToolCall, sorted: seq<ToolCall>): seq<ToolCall> {
    if sorted == [] || call.index <= sorted[0].index then [call] + sorted
    else [sorted[0]] + Insert(call, sorted[1..])
  }

  /** Sort by index. */
  function Sorted(calls: seq<ToolCall>): seq<ToolCall> {
    if calls == [] then [] else Insert(calls[0], Sorted(calls[1..]))
  }

  ghost predicate Unique(calls: seq<ToolCall>) {
    calls != [] ==> Find(calls[1..], calls[0].index).None? && Unique(calls[1..])
  }

  ghost predicate Above(calls: seq<ToolCall>, n: nat) {
    forall i :: 0 <= i < |calls| ==> n < calls[i].index
  }

  /** Strictly increasing indices. */
  ghost predicate Increasing(calls: seq<ToolCall>) {
    calls != [] ==> Above(calls[1..], calls[0].index) && Increasing(calls[1..])
  }

  lemma {:induction false} PutUnique(calls: seq<ToolCall>, call: ToolCall)
    requires Unique(calls)
    ensures Unique(Put(calls, call))
  {
    if calls != [] {
      if calls[0].index == call.index {
        assert Put(calls, call)[1..] == calls[1..];
      } else {
        PutUnique(calls[1..], call);
        FindPut(calls[1..], call, calls[0].index);
        assert Put(calls, call)[1..] == Put(calls[1..], call);
      }
    }
  }

  lemma {:induction false} InsertAbove(call: ToolCall, sorted: seq<ToolCall>, n: nat)
    requires n < call.index && Above(sorted, n)
    ensures Above(Insert(call, sorted), n)
  {
    if sorted != [] && call.index > sorted[0].index {
      InsertAbove(call, sorted[1..], n);
    }
  }

  lemma {:induction false} InsertIncreasing(call: ToolCall, sorted: seq<ToolCall>)
    requires Increasing(sorted) && Find(sorted, call.index).None?
    ensures Increasing(Insert(call, sorted))
  {
    if sorted == [] || call.index <= sorted[0].index {
      assert ([call] + sorted)[1..] == sorted;
    } else {
      InsertIncreasing(call, sorted[1..]);
      InsertAbove(call, sorted[1..], sorted[0].index);
      assert Insert(call, sorted)[1..] == Insert(call, sorted[1..]);
    }
  }

  lemma {:induction false} InsertMembers(call: ToolCall, sorted: seq<ToolCall>)
    ensures multiset(Insert(call, sorted)) == multiset{call} + multiset(sorted)
  {
    if sorted != [] && call.index > sorted[0].index {
      InsertMembers(call, sorted[1..]);
      assert sorted == [sorted[0]] + sorted[1..];
    }
  }

  lemma {:induction false} InsertFind(call: ToolCall, sorted: seq<ToolCall>, i: nat)
    requires Find(sorted, call.index).None?
    ensures Find(Insert(call, sorted), i) == if i == call.index then Some(call) else Find(sorted, i)
  {
    if sorted == [] || call.index <= sorted[0].index {
      assert ([call] + sorted)[1..] == sorted;
    } else {
      InsertFind(call, sorted[1..], i);
      assert Insert(call, sorted)[1..] == Insert(call, sorted[1..]);
    }
  }

  /** Sorting keeps every call and orders them by index. */
  lemma {:induction false} SortedProperties(calls: seq<ToolCall>)
    requires Unique(calls)
    ensures Increasing(Sorted(calls))
    ensures multiset(Sorted(calls)) == multiset(calls)
    ensures forall i: nat :: Find(Sorted(calls), i) == Find(calls, i)
  {
    if calls != [] {
      assert calls == [calls[0]] + calls[1..];
      SortedProperties(calls[1..]);
      var rest := Sorted(calls[1..]);
      InsertIncreasing(calls[0], rest);
      InsertMembers(calls[0], rest);
      forall i: nat ensures Find(Sorted(calls), i) == Find(calls, i) {
        InsertFind(calls[0], rest, i);
      }
    }
  }
}
