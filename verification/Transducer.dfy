/** Machines that read inputs one by one, keep a state and emit outputs. */
module Transducer {
  import opened Wrappers

  datatype Out<S, E> = Out(st: S, emitted: seq<E>)

  /** Feed the inputs in order, collecting everything emitted. */
  function Run<S, F, E>(step: (S, F) -> Out<S, E>, st: S, input: seq<F>): Out<S, E>
    decreases |input|
  {
    if input == [] then Out(st, [])
    else
      var a := step(st, input[0]);
      var b := Run(step, a.st, input[1..]);
      Out(b.st, a.emitted + b.emitted)
  }

  /** Feeding at once or in two parts is the same. */
  lemma {:induction false} RunAppend<S, F, E>(step: (S, F) -> Out<S, E>, st: S, a: seq<F>, b: seq<F>)
    ensures var x := Run(step, st, a);
      var y := Run(step, x.st, b);
      Run(step, st, a + b) == Out(y.st, x.emitted + y.emitted)
    decreases |a|
  {
    if a == [] {
      assert a + b == b;
      assert [] + Run(step, st, b).emitted == Run(step, st, b).emitted;
    } else {
      assert (a + b)[1..] == a[1..] + b;
      var h := step(st, a[0]);
      RunAppend(step, h.st, a[1..], b);
      var x := Run(step, h.st, a[1..]);
      AppendAssoc(h.emitted, x.emitted, Run(step, x.st, b).emitted);
    }
  }

  lemma {:induction false} RunOne<S, F, E>(step: (S, F) -> Out<S, E>, st: S, f: F)
    ensures Run(step, st, [f]) == step(st, f)
  {
  }

  lemma {:induction false} RunCons<S, F, E>(step: (S, F) -> Out<S, E>, st: S, f: F, rest: seq<F>, a: Out<S, E>)
    requires step(st, f) == a
    ensures Run(step, st, [f] + rest) == Out(Run(step, a.st, rest).st, a.emitted + Run(step, a.st, rest).emitted)
  {
  }

  /** Parts with known results. */
  lemma {:induction false} RunParts<S, F, E>(step: (S, F) -> Out<S, E>, st: S, a: seq<F>, b: seq<F>, x: Out<S, E>, y: Out<S, E>)
    requires Run(step, st, a) == x && Run(step, x.st, b) == y
    ensures Run(step, st, a + b) == Out(y.st, x.emitted + y.emitted)
  {
    RunAppend(step, st, a, b);
  }

  /** One more input after a prefix. */
  lemma {:induction false} RunPrefix<S, F, E>(step: (S, F) -> Out<S, E>, st: S, input: seq<F>, i: nat)
    requires i < |input|
    ensures var x := Run(step, st, input[..i]);
      var y := step(x.st, input[i]);
      Run(step, st, input[..i + 1]) == Out(y.st, x.emitted + y.emitted)
  {
    RunAppend(step, st, input[..i], [input[i]]);
    RunOne(step, Run(step, st, input[..i]).st, input[i]);
    assert input[..i + 1] == input[..i] + [input[i]];
  }
}
