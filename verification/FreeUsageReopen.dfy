/**
 When a failed re-open is unsafe: bringing back a session while an ask of an earlier
 chain can still be accepted is exactly what lets two asks for one channel wait for
 their signatures at once, and what lets one process sign a number twice.
 */
module FreeUsageReopen {
  import opened Wrappers
  import opened FreeUsage
  import opened FreeUsageNumbers

  // ----- runs -----

  lemma {:induction false} RunAppend(s: State, a: seq<Step>, b: seq<Step>)
    requires Legal(s, a) && Legal(Run(s, a), b)
    ensures Legal(s, a + b) && Run(s, a + b) == Run(Run(s, a), b)
    ensures AllSafe(s, a) && AllSafe(Run(s, a), b) ==> AllSafe(s, a + b)
    decreases |a|
  {
    if a == [] {
      assert a + b == b;
    } else {
      assert (a + b)[1..] == a[1..] + b;
      RunAppend(Next(s, a[0]), a[1..], b);
    }
  }

  lemma {:induction false} RunOne(s: State, step: Step)
    requires Enabled(s, step)
    ensures Legal(s, [step]) && Run(s, [step]) == Next(s, step)
    ensures AllSafe(s, [step]) <==> Safe(s, step)
  {
    assert [step][1..] == [];
  }

  lemma {:induction false} RunChained(s: State, run: seq<Step>)
    requires Chained(s) && Legal(s, run)
    ensures Chained(Run(s, run))
    decreases |run|
  {
    if run != [] {
      NextChained(s, run[0]);
      RunChained(Next(s, run[0]), run[1..]);
    }
  }

  // ----- letting an ask's turn come -----

  /** Only asks of the same chain, up to the same place, were moved on. */
  ghost predicate MovedUpTo(s: State, t: State, p: Pid)
    requires p in s.asks
  {
    && t == s.(asks := t.asks) && t.asks.Keys == s.asks.Keys
    && (forall q {:trigger t.asks[q]} :: q in s.asks && (s.asks[q].chain != s.asks[p].chain || s.asks[q].place > s.asks[p].place)
          ==> t.asks[q] == s.asks[q])
  }

  /** Asks can come to an end one after another, up to any given one. */
  lemma {:induction false} Drain(s: State, p: Pid) returns (run: seq<Step>)
    requires Chained(s) && p in s.asks
    ensures Legal(s, run) && AllSafe(s, run)
    ensures var t := Run(s, run); MovedUpTo(s, t, p) && IsOver(t, p)
    decreases s.asks[p].place
  {
    assert Placed(s, p);
    var a := s.asks[p];
    if a.phase.Over? {
      run := [];
    } else if a.phase.Signing? {
      run := [SignFailed(p)];
      RunOne(s, SignFailed(p));
    } else {
      run := TurnCame(s, p);
      var t := Run(s, run);
      RunOne(t, Begin(p));
      RunAppend(s, run, [Begin(p)]);
      run := run + [Begin(p)];
      var u := Next(t, Begin(p));
      if !u.asks[p].phase.Over? {
        RunOne(u, SignFailed(p));
        RunAppend(s, run, [SignFailed(p)]);
        run := run + [SignFailed(p)];
      }
    }
  }

  /** The ask before a queued one, if any, can come to an end without touching it. */
  lemma {:induction false} TurnCame(s: State, p: Pid) returns (run: seq<Step>)
    requires Chained(s) && p in s.asks && s.asks[p].phase.Queued?
    ensures Legal(s, run) && AllSafe(s, run)
    ensures var t := Run(s, run); MovedUpTo(s, t, p) && t.asks[p] == s.asks[p] && Enabled(t, Begin(p))
    decreases s.asks[p].place, 0
  {
    assert Placed(s, p);
    if s.asks[p].prev.Some? {
      run := Drain(s, s.asks[p].prev.value);
    } else {
      run := [];
    }
  }

  /** A queued ask that its session would accept can come to wait for its signature. */
  lemma {:induction false} Starts(s: State, p: Pid) returns (run: seq<Step>)
    requires Chained(s) && p in s.asks && s.asks[p].phase.Queued?
    requires Judge(s.sessions, s.current, s.asks[p]).Some?
    ensures Legal(s, run) && AllSafe(s, run)
    ensures var t := Run(s, run); MovedUpTo(s, t, p) && IsSigning(t, p) && t.asks[p] == s.asks[p].(phase := t.asks[p].phase)
  {
    run := TurnCame(s, p);
    var t := Run(s, run);
    RunOne(t, Begin(p));
    RunAppend(s, run, [Begin(p)]);
    run := run + [Begin(p)];
  }

  lemma {:induction false} Bound(ids: set<Pid>) returns (n: Pid)
    ensures forall i :: i in ids ==> i < n
    decreases |ids|
  {
    if ids == {} {
      n := 0;
    } else {
      var i :| i in ids;
      var m := Bound(ids - {i});
      n := Max(m, i + 1);
      assert ids == (ids - {i}) + {i};
    }
  }

  // ----- unsafe exactly when two asks can meet -----

  /** Whatever safe steps follow, at most one ask per channel waits for its signature. */
  ghost predicate OneEver(s: State) {
    forall more, p, q :: Legal(s, more) && AllSafe(s, more) && Meet(Run(s, more), p, q) ==> p == q
  }

  /** Both wait for their signatures, on one channel. */
  ghost predicate Meet(s: State, p: Pid, q: Pid) {
    IsSigning(s, p) && IsSigning(s, q) && s.asks[p].channel == s.asks[q].channel
  }

  lemma {:induction false} GoodOneEver(s: State)
    requires Good(s)
    ensures OneEver(s)
  {
    forall more, p, q | Legal(s, more) && AllSafe(s, more) && Meet(Run(s, more), p, q) ensures p == q {
      RunGood(s, more);
      var t := Run(s, more);
      assert AskOk(t, p) && AskOk(t, q);
      OnePerChain(t, p, q);
    }
  }

  /** Two asks on one channel wait, and the second is for no greater number. */
  ghost predicate Collide(s: State, p: Pid, q: Pid) {
    p != q && Meet(s, p, q) && s.asks[q].sequence <= s.asks[p].sequence && s.asks[p].channel in s.sessions
  }

  /** While an ask of an earlier chain waits for its signature on the current channel,
      a new ask can come to wait beside it. */
  lemma {:induction false} NewBesideOld(s: State, p: Pid) returns (run: seq<Step>, q: Pid)
    requires Chained(s) && IsSigning(s, p) && s.asks[p].chain != s.chain
    requires s.current == Some(s.asks[p].channel) && s.asks[p].channel in s.sessions
    requires s.sessions[s.asks[p].channel].latest < s.asks[p].sequence
    ensures Legal(s, run) && AllSafe(s, run) && Collide(Run(s, run), p, q)
  {
    var c := s.asks[p].channel;
    q := Bound(s.asks.Keys);
    var e := Arrive(q, c, s.sessions[c].latest + 1, 0, 0);
    RunOne(s, e);
    NextChained(s, e);
    var rest := Starts(Next(s, e), q);
    RunAppend(s, [e], rest);
    run := [e] + rest;
  }

  /** After an unsafe re-open, two asks can meet. */
  lemma {:induction false} UnsafeCollides(s: State, step: Step) returns (run: seq<Step>, p: Pid, q: Pid)
    requires Good(s) && Enabled(s, step) && !Safe(s, step)
    ensures var t := Next(s, step); Legal(t, run) && AllSafe(t, run) && Collide(Run(t, run), p, q)
  {
    var t := Next(s, step);
    NextChained(s, step);
    p :| p in s.asks && s.asks[p].channel == step.restored.value && s.asks[p].chain != s.chain && !Harmless(s, s.asks[p]);
    assert AskOk(s, p);
    run := [];
    if t.asks[p].phase.Queued? {
      run := Starts(t, p);
    }
    RunChained(t, run);
    var rest, q' := NewBesideOld(Run(t, run), p);
    RunAppend(t, run, rest);
    run, q := run + rest, q';
  }

  /** At no point of the run can two asks for one channel come to wait together by
      steps that are safe from there on. */
  ghost predicate AlwaysOne(s: State, run: seq<Step>)
    requires Legal(s, run)
    decreases |run|
  {
    OneEver(s) && (run != [] ==> AlwaysOne(Next(s, run[0]), run[1..]))
  }

  lemma {:induction false} AlwaysOneFrom(s: State, run: seq<Step>)
    requires Good(s) && Legal(s, run)
    ensures AlwaysOne(s, run) <==> AllSafe(s, run)
    decreases |run|
  {
    GoodOneEver(s);
    if run != [] {
      if Safe(s, run[0]) {
        NextGood(s, run[0]);
        AlwaysOneFrom(Next(s, run[0]), run[1..]);
      } else {
        var more, p, q := UnsafeCollides(s, run[0]);
        assert Meet(Run(Next(s, run[0]), more), p, q);
      }
    }
  }

  /** For every run: all along it, and in every safe continuation, at most one ask per
      channel waits for its signature, if and only if no failed re-open of the run
      brought back a session for which an ask of an earlier chain could still be
      accepted or was waiting for its signature. */
  lemma {:induction false} AlwaysOneIff(run: seq<Step>)
    requires Legal(START, run)
    ensures AlwaysOne(START, run) <==> AllSafe(START, run)
  {
    StartGood();
    AlwaysOneFrom(START, run);
  }

  // ----- and exactly when a process can repeat a number -----

  /** Whatever safe steps follow, the numbers one process signs on a channel rise. */
  ghost predicate RisesEver(s: State) {
    forall more, c :: Legal(s, more) && AllSafe(s, more) ==> RisesAt(Run(s, more), c)
  }

  ghost predicate AlwaysRises(s: State, run: seq<Step>)
    requires Legal(s, run)
    decreases |run|
  {
    RisesEver(s) && (run != [] ==> AlwaysRises(Next(s, run[0]), run[1..]))
  }

  lemma {:induction false} PairFalls(sent: seq<Auth>, since: nat, c: Channel, latest: Option<nat>, a: Auth, b: Auth)
    requires since <= |sent| && a.channel == c == b.channel && b.sequence <= a.sequence
    ensures !RisesAs((sent + [a]) + [b], since, c, latest)
  {
    var own := sent[since..];
    assert ((sent + [a]) + [b])[since..] == (own + [a]) + [b];
    SequencesSnoc(own, a, c);
    SequencesSnoc(own + [a], b, c);
    var n, xs := |Sequences(own, c)|, Sequences((own + [a]) + [b], c);
    assert xs[n] == a.sequence && xs[n + 1] == b.sequence;
  }

  /** Two waiting asks for one channel can be sent one after the other. */
  lemma {:induction false} SendBoth(s: State, p: Pid, q: Pid)
    requires Collide(s, p, q)
    ensures var run := [Signed(p)] + [Signed(q)];
      && Legal(s, run) && AllSafe(s, run)
      && Run(s, run).sent == (s.sent + [AuthOf(s.asks[p])]) + [AuthOf(s.asks[q])]
      && Run(s, run).since == s.since
  {
    var s1 := Next(s, Signed(p));
    RunOne(s, Signed(p));
    RunOne(s1, Signed(q));
    RunAppend(s, [Signed(p)], [Signed(q)]);
  }

  lemma {:induction false} CollideRepeats(s: State, p: Pid, q: Pid)
    requires Collide(s, p, q)
    ensures !RisesEver(s)
  {
    var c, run := s.asks[p].channel, [Signed(p)] + [Signed(q)];
    assert Legal(s, []) && AllSafe(s, []) && Run(s, []) == s;
    SendBoth(s, p, q);
    if s.since <= |s.sent| {
      var t := Run(s, run);
      PairFalls(s.sent, s.since, c, Latest(t, c), AuthOf(s.asks[p]), AuthOf(s.asks[q]));
      assert !RisesAt(t, c);
    } else {
      assert !RisesAt(s, c);
    }
  }

  lemma {:induction false} RisesLater(s: State, run: seq<Step>)
    requires Legal(s, run) && AllSafe(s, run) && RisesEver(s)
    ensures RisesEver(Run(s, run))
  {
    var t := Run(s, run);
    forall more, c | Legal(t, more) && AllSafe(t, more) ensures RisesAt(Run(t, more), c) {
      RunAppend(s, run, more);
    }
  }

  lemma {:induction false} AlwaysRisesFrom(s: State, run: seq<Step>)
    requires Good(s) && Legal(s, run) && forall c :: RisesAt(s, c)
    ensures AlwaysRises(s, run) <==> AllSafe(s, run)
    decreases |run|
  {
    forall more, c | Legal(s, more) && AllSafe(s, more) ensures RisesAt(Run(s, more), c) {
      SequencesRise(s, more, c);
    }
    if run != [] {
      var t := Next(s, run[0]);
      if Safe(s, run[0]) {
        NextGood(s, run[0]);
        forall c ensures RisesAt(t, c) {
          NextRises(s, run[0], c);
        }
        AlwaysRisesFrom(t, run[1..]);
      } else {
        var more, p, q := UnsafeCollides(s, run[0]);
        CollideRepeats(Run(t, more), p, q);
        if RisesEver(t) {
          RisesLater(t, more);
        }
      }
    }
  }

  /** For every run: all along it, and in every safe continuation, the numbers that one
      process signs on any channel strictly rise, under the same condition. */
  lemma {:induction false} AlwaysRisesIff(run: seq<Step>)
    requires Legal(START, run)
    ensures AlwaysRises(START, run) <==> AllSafe(START, run)
  {
    StartGood();
    AlwaysRisesFrom(START, run);
  }
}
