/**
 The usage signed on a free usage channel: each authorization carries the running
 totals of all asks signed on the channel, across restarts.
 */
module FreeUsageTotals {
  import opened Wrappers
  import opened FreeUsage
  import opened FreeUsageNumbers

  function Inputs(asks: seq<Ask>): nat {
    if asks == [] then 0 else Inputs(asks[..|asks| - 1]) + asks[|asks| - 1].input
  }

  function Outputs(asks: seq<Ask>): nat {
    if asks == [] then 0 else Outputs(asks[..|asks| - 1]) + asks[|asks| - 1].output
  }

  /** One request, and its tokens, for each ask. */
  function TotalOf(asks: seq<Ask>): Usage {
    Usage(|asks|, Inputs(asks), Outputs(asks))
  }

  /** The asks that a run sent authorizations for on a channel. */
  ghost function AsksSent(s: State, run: seq<Step>, c: Channel): seq<Ask>
    requires Legal(s, run)
    decreases |run|
  {
    if run == [] then [] else AskSent(s, run[0], c) + AsksSent(Next(s, run[0]), run[1..], c)
  }

  ghost function AskSent(s: State, step: Step, c: Channel): seq<Ask>
    requires Enabled(s, step)
  {
    if (IsSend(step) || step.SignedThenCrash?) && s.asks[step.pid].channel == c then [s.asks[step.pid]] else []
  }

  /** The authorizations of one channel. */
  function Own(sent: seq<Auth>, c: Channel): seq<Auth> {
    if sent == [] then []
    else Own(sent[..|sent| - 1], c) + if sent[|sent| - 1].channel == c then [sent[|sent| - 1]] else []
  }

  lemma {:induction false} OwnSnoc(sent: seq<Auth>, a: Auth, c: Channel)
    ensures Own(sent + [a], c) == Own(sent, c) + if a.channel == c then [a] else []
  {
    SnocIs(sent, a);
  }

  /** Each authorization is for its ask's number and all usage up to it. */
  ghost predicate AddsUp(auths: seq<Auth>, asks: seq<Ask>, c: Channel) {
    |auths| == |asks| && forall k :: 0 <= k < |asks| ==> auths[k] == Auth(c, asks[k].sequence, TotalOf(asks[..k + 1]))
  }

  /** No authorization is lost: a process does not end between sending and persisting,
      nor while the store has refused what came last. */
  ghost predicate KeptStep(s: State, step: Step, c: Channel)
    requires Enabled(s, step)
  {
    && (step.SignedThenCrash? ==> s.asks[step.pid].channel != c)
    && (Ends(step) ==> !Behind(s, c))
  }

  ghost predicate AllKept(s: State, run: seq<Step>, c: Channel)
    requires Legal(s, run)
    decreases |run|
  {
    run != [] ==> KeptStep(s, run[0], c) && AllKept(Next(s, run[0]), run[1..], c)
  }

  // ----- sessions and rows hold the totals -----

  function SessionUsage(t: Session): Usage {
    Usage(t.count, t.input, t.output)
  }

  function RowUsage(r: Row): Usage {
    Usage(r.count, r.input, r.output)
  }

  /** What is known of a channel: by its session, or else by its row. */
  function UsageOf(s: State, c: Channel): Usage {
    if c in s.sessions then SessionUsage(s.sessions[c])
    else if c in s.rows then RowUsage(s.rows[c])
    else Usage(0, 0, 0)
  }

  /** A row that counts as many requests as the session says the same. */
  predicate RowIs(s: State, c: Channel) {
    c in s.sessions && c in s.rows && s.rows[c].count >= s.sessions[c].count ==>
      RowUsage(s.rows[c]) == SessionUsage(s.sessions[c])
  }

  ghost predicate Known(s: State, c: Channel, asks: seq<Ask>) {
    && UsageOf(s, c) == TotalOf(asks) && AddsUp(Own(s.sent, c), asks, c) && RowIs(s, c)
  }

  lemma {:induction false} TotalSnoc(asks: seq<Ask>, a: Ask)
    ensures TotalOf(asks + [a]) == More(TotalOf(asks), a)
  {
    SnocIs(asks, a);
  }

  /** One request more. */
  function More(u: Usage, a: Ask): Usage {
    Usage(u.count + 1, u.input + a.input, u.output + a.output)
  }

  lemma {:induction false} AddsUpSnoc(auths: seq<Auth>, asks: seq<Ask>, a: Ask, c: Channel)
    requires AddsUp(auths, asks, c)
    ensures AddsUp(auths + [Auth(c, a.sequence, TotalOf(asks + [a]))], asks + [a], c)
  {
    var all, auths' := asks + [a], auths + [Auth(c, a.sequence, TotalOf(asks + [a]))];
    forall k | 0 <= k < |all| ensures auths'[k] == Auth(c, all[k].sequence, TotalOf(all[..k + 1])) {
      if k < |asks| {
        assert all[..k + 1] == asks[..k + 1];
      } else {
        assert all[..k + 1] == all;
      }
    }
  }

  lemma {:induction false} SendUsage(s: State, step: Step, c: Channel)
    requires Good(s) && Enabled(s, step) && IsSend(step) && RowIs(s, c)
    ensures UsageOf(Next(s, step), c) == if s.asks[step.pid].channel == c then s.asks[step.pid].phase.usage else UsageOf(s, c)
    ensures RowIs(Next(s, step), c)
  {
    assert AskOk(s, step.pid);
    if c in s.sessions {
      assert SessionOk(s, c);
    }
  }

  /** A send on the channel adds its ask to what is known, and no other step changes it
      unless it loses something. */
  lemma {:induction false} UsageStep(s: State, step: Step, c: Channel)
    requires Good(s) && Enabled(s, step) && KeptStep(s, step, c) && RowIs(s, c)
    requires UsageOf(s, c).count == 0 ==> UsageOf(s, c) == Usage(0, 0, 0)
    ensures UsageOf(Next(s, step), c) ==
      if IsSend(step) && s.asks[step.pid].channel == c then s.asks[step.pid].phase.usage else UsageOf(s, c)
    ensures RowIs(Next(s, step), c)
  {
    if IsSend(step) {
      SendUsage(s, step, c);
    } else if c in s.sessions {
      assert SessionOk(s, c);
    }
  }

  lemma {:induction false} SignedAddsUp(s: State, step: Step, c: Channel)
    requires Good(s) && Enabled(s, step) && (IsSend(step) || step.SignedThenCrash?) && s.asks[step.pid].channel == c
    ensures AuthOf(s.asks[step.pid]) == Auth(c, s.asks[step.pid].sequence, More(UsageOf(s, c), s.asks[step.pid]))
  {
    assert AskOk(s, step.pid);
  }

  lemma {:induction false} NextKnown(s: State, step: Step, c: Channel, asks: seq<Ask>)
    requires Good(s) && Enabled(s, step) && KeptStep(s, step, c) && Known(s, c, asks)
    ensures Known(Next(s, step), c, asks + AskSent(s, step, c))
  {
    assert asks == [] ==> TotalOf(asks) == Usage(0, 0, 0);
    UsageStep(s, step, c);
    SentIs(s, step);
    if AskSent(s, step, c) != [] {
      SignedAddsUp(s, step, c);
      TotalSnoc(asks, s.asks[step.pid]);
      AddsUpSnoc(Own(s.sent, c), asks, s.asks[step.pid], c);
    } else {
      AppendEmpty(asks);
      AppendEmpty(Own(s.sent, c));
    }
    if Sends(s, step).Some? {
      OwnSnoc(s.sent, AuthOf(s.asks[step.pid]), c);
    } else {
      AppendEmpty(s.sent);
    }
  }

  lemma {:induction false} RunKnown(s: State, run: seq<Step>, c: Channel, asks: seq<Ask>)
    requires Good(s) && Known(s, c, asks) && Legal(s, run) && AllSafe(s, run) && AllKept(s, run, c)
    ensures Known(Run(s, run), c, asks + AsksSent(s, run, c))
    decreases |run|
  {
    if run == [] {
      AppendEmpty(asks);
    } else {
      var step := run[0];
      var more := AskSent(s, step, c);
      NextGood(s, step);
      NextKnown(s, step, c, asks);
      RunKnown(Next(s, step), run[1..], c, asks + more);
      AppendAssoc(asks, more, AsksSent(Next(s, step), run[1..], c));
    }
  }

  /** In every interleaving without an unsafe re-open in which no authorization on the
      channel was lost: the k-th authorization counts k requests and carries the sum
      of the tokens of the first k asks signed, across disconnects and restarts. */
  lemma {:induction false} UsageAddsUp(run: seq<Step>, c: Channel)
    requires Legal(START, run) && AllSafe(START, run) && AllKept(START, run, c)
    ensures AddsUp(Own(Run(START, run).sent, c), AsksSent(START, run, c), c)
    ensures UsageOf(Run(START, run), c) == TotalOf(AsksSent(START, run, c))
  {
    StartGood();
    RunKnown(START, run, c, []);
    assert [] + AsksSent(START, run, c) == AsksSent(START, run, c);
  }
}
