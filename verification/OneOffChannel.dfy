/**
 A one-off channel pays for exactly one video. Confirmations and delivery
 requests run concurrently; each handler is split at the points where it waits,
 and any number of them may interleave in any order.
 */
module OneOffChannel {
  import opened Wrappers

  type Pid = nat

  /** Where a suspended handler will resume. */
  datatype Waiting =
    | Flushing     // a confirmation waiting for its store flush
    | Observing    // a delivery waiting for the buyer's own observation
    | Committing   // a delivery whose price is signed, waiting for its commit

  /** `early` records whether the first delivery completed before the channel
      was confirmed; it is never read by a handler. */
  datatype State = State(
    price: nat, fee: nat, rowPresent: bool,
    open: bool, confirmed: bool, cumulative: nat,
    signed: seq<nat>, reports: seq<nat>,
    waiting: map<Pid, Waiting>, delivered: bool, early: bool)

  /** Open for a price within the buyer's maximum and a fee below the price. */
  function Open(price: nat, fee: nat, maxPrice: nat, rowPresent: bool): Option<State> {
    if price > maxPrice || fee >= price then None
    else Some(State(price, fee, rowPresent, true, false, fee, if fee > 0 then [fee] else [], [], map[], false, false))
  }

  /** One uninterrupted stretch of one handler. `onChain` is the observed deposit
      when the confirmation comes from the chain; `evidence` says whether the
      frame's cost and billing fields match the channel. */
  datatype Step =
    | BeginConfirm(pid: Pid, onChain: Option<nat>)
    | ResumeConfirm(pid: Pid, flushed: bool)
    | BeginDelivery(pid: Pid, required: nat, evidence: bool)
    | ResumeDelivery(pid: Pid, valid: bool)
    | ResumeCommit(pid: Pid, outcome: Outcome)
    | Retire

  /** A commit may fail, and so may the transmission after it, which leaves the
      channel open. */
  datatype Outcome = CommitFailed | SendFailed | Sent

  predicate IsWaiting(s: State, pid: Pid, w: Waiting) {
    pid in s.waiting && s.waiting[pid] == w
  }

  /** A new handler has a new identity; a resumed one was waiting at that point. */
  predicate Enabled(s: State, step: Step) {
    match step
    case BeginConfirm(pid, _) => pid !in s.waiting
    case ResumeConfirm(pid, _) => IsWaiting(s, pid, Flushing)
    case BeginDelivery(pid, _, _) => pid !in s.waiting
    case ResumeDelivery(pid, _) => IsWaiting(s, pid, Observing)
    case ResumeCommit(pid, _) => IsWaiting(s, pid, Committing)
    case Retire => true
  }

  /** Only the first confirmation reports the fee. */
  function Confirm(s: State): State {
    if s.confirmed then s
    else s.(confirmed := true, reports := if s.cumulative > 0 then s.reports + [s.cumulative] else s.reports)
  }

  function Next(s: State, step: Step): (t: State)
    requires s.cumulative <= s.price
    ensures t.cumulative <= t.price == s.price
  {
    match step
    case BeginConfirm(pid, onChain) =>
      if !s.open || (onChain.Some? && onChain.value < s.price) || s.confirmed then s
      else if s.rowPresent then s.(waiting := s.waiting[pid := Flushing])
      else Confirm(s)
    case ResumeConfirm(pid, flushed) => (if flushed then Confirm(s) else s).(waiting := s.waiting - {pid})
    case BeginDelivery(pid, required, evidence) =>
      if !s.open || !s.rowPresent || required <= s.cumulative || required != s.price || !evidence then s
      else s.(waiting := s.waiting[pid := Observing])
    case ResumeDelivery(pid, valid) =>
      if !valid then s.(waiting := s.waiting - {pid})
      else s.(waiting := s.waiting[pid := Committing], signed := s.signed + [s.price])
    case ResumeCommit(pid, outcome) =>
      var t := s.(waiting := s.waiting - {pid});
      if outcome.CommitFailed? then t
      else t.(reports := s.reports + [s.price - s.cumulative], cumulative := s.price, open := s.open && !outcome.Sent?,
              delivered := true, early := s.early || (!s.delivered && !s.confirmed))
    case Retire => s.(open := false)
  }

  ghost predicate Legal(s: State, run: seq<Step>)
    requires s.cumulative <= s.price
    decreases |run|
  {
    run != [] ==> Enabled(s, run[0]) && Legal(Next(s, run[0]), run[1..])
  }

  function Run(s: State, run: seq<Step>): State
    requires s.cumulative <= s.price && Legal(s, run)
    decreases |run|
  {
    if run == [] then s else Run(Next(s, run[0]), run[1..])
  }

  // ----- what every interleaving keeps -----

  function Nonzero(xs: seq<nat>): seq<nat> {
    if xs == [] then [] else (if xs[0] > 0 then [xs[0]] else []) + Nonzero(xs[1..])
  }

  lemma {:induction false} NonzeroAppend(xs: seq<nat>, x: nat)
    ensures Nonzero(xs + [x]) == Nonzero(xs) + if x > 0 then [x] else []
  {
    if xs == [] {
      assert xs + [x] == [x];
    } else {
      assert (xs + [x])[1..] == xs[1..] + [x];
      NonzeroAppend(xs[1..], x);
    }
  }

  lemma {:induction false} SumNonzero(xs: seq<nat>)
    ensures Sum(Nonzero(xs)) == Sum(xs)
  {
    if xs != [] {
      SumNonzero(xs[1..]);
      SumAppend(if xs[0] > 0 then [xs[0]] else [], Nonzero(xs[1..]));
    }
  }

  /** The nonzero reports a state must have made, in order. */
  function Expected(s: State): seq<nat>
    requires s.fee <= s.price
  {
    var fee := if s.confirmed && s.fee > 0 then [s.fee] else [];
    if !s.delivered then fee
    else if !s.early then fee + [s.price - s.fee]
    else [s.price - s.fee] + if s.confirmed then [s.price] else []
  }

  ghost predicate Inv(s: State) {
    && s.fee < s.price
    && s.cumulative == (if s.delivered then s.price else s.fee)
    && (forall i :: 0 <= i < |s.signed| ==> s.signed[i] == s.price || (s.signed[i] == s.fee && s.fee > 0))
    && (s.early ==> s.delivered)
    && (s.delivered && !s.early ==> s.confirmed)
    && Nonzero(s.reports) == Expected(s)
  }

  lemma {:induction false} ConfirmKeepsInv(s: State)
    requires Inv(s)
    ensures Inv(Confirm(s))
  {
    NonzeroAppend(s.reports, s.cumulative);
  }

  lemma {:induction false} CommitKeepsInv(s: State, pid: Pid, outcome: Outcome)
    requires Inv(s)
    ensures Inv(Next(s, ResumeCommit(pid, outcome)))
  {
    NonzeroAppend(s.reports, s.price - s.cumulative);
  }

  lemma {:induction false} NextKeepsInv(s: State, step: Step)
    requires Inv(s) && Enabled(s, step)
    ensures Inv(Next(s, step))
    ensures Next(s, step).price == s.price && Next(s, step).fee == s.fee
  {
    match step
    case BeginConfirm(_, _) => ConfirmKeepsInv(s);
    case ResumeConfirm(_, flushed) =>
      if flushed {
        ConfirmKeepsInv(s);
      }
    case ResumeCommit(pid, outcome) => CommitKeepsInv(s, pid, outcome);
    case _ =>
  }

  lemma {:induction false} RunKeepsInv(s: State, run: seq<Step>)
    requires Inv(s) && Legal(s, run)
    ensures Inv(Run(s, run)) && Run(s, run).price == s.price && Run(s, run).fee == s.fee
    decreases |run|
  {
    if run != [] {
      NextKeepsInv(s, run[0]);
      RunKeepsInv(Next(s, run[0]), run[1..]);
    }
  }

  /** However confirmations, deliveries and retirement interleave: the only
      amounts ever signed are the opening fee, which is below the price, and the
      price; and once delivered, the reported spend is exactly the price unless
      the delivery completed before the channel was confirmed (and even then
      when there is no fee and the channel stays unconfirmed). */
  lemma {:induction false} ExactUnderInterleaving(price: nat, fee: nat, maxPrice: nat, rowPresent: bool, run: seq<Step>)
    requires Open(price, fee, maxPrice, rowPresent).Some?
    requires Legal(Open(price, fee, maxPrice, rowPresent).value, run)
    ensures var z := Run(Open(price, fee, maxPrice, rowPresent).value, run);
      && fee < price <= maxPrice
      && (forall i :: 0 <= i < |z.signed| ==> z.signed[i] == price || z.signed[i] == fee)
      && (z.delivered ==> (Sum(z.reports) == price <==> !z.early || (fee == 0 && !z.confirmed)))
      && (!z.delivered ==> Sum(z.reports) == if z.confirmed then fee else 0)
  {
    var s := Open(price, fee, maxPrice, rowPresent).value;
    RunKeepsInv(s, run);
    var z := Run(s, run);
    SumNonzero(z.reports);
    SumExpected(z);
  }

  lemma {:induction false} SumExpected(s: State)
    requires Inv(s)
    ensures Sum(Expected(s)) ==
      if !s.delivered then (if s.confirmed then s.fee else 0)
      else if !s.early then s.price
      else s.price - s.fee + (if s.confirmed then s.price else 0)
  {
    var a, b := s.price - s.fee, s.price;
    SumAppend([s.fee], [a]);
    SumAppend([a], [b]);
    assert [] + [a] == [a] && [a] + [] == [a];
  }

  /** When delivery follows confirmation, the nonzero reports are the fee, once,
      and then the rest of the price. */
  lemma {:induction false} FeeReportedOnce(price: nat, fee: nat, maxPrice: nat, rowPresent: bool, run: seq<Step>)
    requires 0 < fee && Open(price, fee, maxPrice, rowPresent).Some?
    requires Legal(Open(price, fee, maxPrice, rowPresent).value, run)
    requires !Run(Open(price, fee, maxPrice, rowPresent).value, run).early
    ensures var z := Run(Open(price, fee, maxPrice, rowPresent).value, run);
      Nonzero(z.reports) ==
        (if z.confirmed then [fee] else []) + (if z.delivered then [price - fee] else [])
  {
    RunKeepsInv(Open(price, fee, maxPrice, rowPresent).value, run);
  }

  /** The excluded order is reachable: a confirmation is waiting for its flush
      while the delivery completes, and then reports the whole price again. */
  lemma {:induction false} EarlyDeliveryOverReports()
    ensures var s := Open(10, 3, 10, true).value;
      var run := [BeginConfirm(0, None), BeginDelivery(1, 10, true), ResumeDelivery(1, true),
                  ResumeCommit(1, Sent), ResumeConfirm(0, true)];
      Legal(s, run) && Run(s, run).early && Sum(Run(s, run).reports) == 17
  {
    var s0 := Open(10, 3, 10, true).value;
    var e1, e2, e3, e4, e5 := BeginConfirm(0, None), BeginDelivery(1, 10, true), ResumeDelivery(1, true),
                              ResumeCommit(1, Sent), ResumeConfirm(0, true);
    var s1 := Next(s0, e1);
    var s2 := Next(s1, e2);
    var s3 := Next(s2, e3);
    var s4 := Next(s3, e4);
    RunCons(s4, e5, []);
    RunCons(s3, e4, [e5]);
    RunCons(s2, e3, [e4, e5]);
    RunCons(s1, e2, [e3, e4, e5]);
    RunCons(s0, e1, [e2, e3, e4, e5]);
    assert Next(s4, e5).reports == [7] + [10];
    SumAppend([7], [10]);
  }

  lemma {:induction false} RunCons(s: State, step: Step, rest: seq<Step>)
    requires s.cumulative <= s.price && Enabled(s, step) && Legal(Next(s, step), rest)
    ensures var all := [step] + rest;
      all[1..] == rest && Legal(s, all) && Run(s, all) == Run(Next(s, step), rest)
  {
  }

  // ----- the handlers themselves, one method per stretch -----

  class Channel {
    const price: nat
    const fee: nat
    const rowPresent: bool
    var open: bool
    var confirmed: bool
    var cumulative: nat
    var signed: seq<nat>
    var reports: seq<nat>
    var waiting: map<Pid, Waiting>
    ghost var delivered: bool
    ghost var early: bool

    ghost function View(): State
      reads this
    {
      State(price, fee, rowPresent, open, confirmed, cumulative, signed, reports, waiting, delivered, early)
    }

    constructor (price: nat, fee: nat, maxPrice: nat, rowPresent: bool)
      requires price <= maxPrice && fee < price
      ensures Some(View()) == Open(price, fee, maxPrice, rowPresent)
    {
      this.price, this.fee, this.rowPresent := price, fee, rowPresent;
      open, confirmed, cumulative := true, false, fee;
      signed := if fee > 0 then [fee] else [];
      reports, waiting := [], map[];
      delivered, early := false, false;
    }

    method FinishConfirm()
      modifies this
      ensures View() == Confirm(old(View()))
    {
      if !confirmed {
        confirmed := true;
        if cumulative > 0 {
          reports := reports + [cumulative];
        }
      }
    }

    method BeginConfirm(pid: Pid, onChain: Option<nat>)
      requires Inv(View()) && Enabled(View(), Step.BeginConfirm(pid, onChain))
      modifies this
      ensures Inv(View()) && View() == Next(old(View()), Step.BeginConfirm(pid, onChain))
    {
      NextKeepsInv(View(), Step.BeginConfirm(pid, onChain));
      if !open || (onChain.Some? && onChain.value < price) {
        return;
      }
      if !confirmed {
        if rowPresent {
          waiting := waiting[pid := Flushing];
        } else {
          FinishConfirm();
        }
      }
    }

    method ResumeConfirm(pid: Pid, flushed: bool)
      requires Inv(View()) && Enabled(View(), Step.ResumeConfirm(pid, flushed))
      modifies this
      ensures Inv(View()) && View() == Next(old(View()), Step.ResumeConfirm(pid, flushed))
    {
      NextKeepsInv(View(), Step.ResumeConfirm(pid, flushed));
      waiting := waiting - {pid};
      if flushed {
        FinishConfirm();
      }
    }

    method BeginDelivery(pid: Pid, required: nat, evidence: bool)
      requires Inv(View()) && Enabled(View(), Step.BeginDelivery(pid, required, evidence))
      modifies this
      ensures Inv(View()) && View() == Next(old(View()), Step.BeginDelivery(pid, required, evidence))
    {
      NextKeepsInv(View(), Step.BeginDelivery(pid, required, evidence));
      if !open || !rowPresent {
        return;
      }
      if required <= cumulative {
        return;
      }
      if required != price || !evidence {
        return;
      }
      waiting := waiting[pid := Observing];
    }

    method ResumeDelivery(pid: Pid, valid: bool)
      requires Inv(View()) && Enabled(View(), Step.ResumeDelivery(pid, valid))
      modifies this
      ensures Inv(View()) && View() == Next(old(View()), Step.ResumeDelivery(pid, valid))
    {
      NextKeepsInv(View(), Step.ResumeDelivery(pid, valid));
      if !valid {
        waiting := waiting - {pid};
        return;
      }
      signed := signed + [price];
      waiting := waiting[pid := Committing];
    }

    /** Report and adopt the price, transmit it, and then close. */
    method ResumeCommit(pid: Pid, outcome: Outcome)
      requires Inv(View()) && Enabled(View(), Step.ResumeCommit(pid, outcome))
      modifies this
      ensures Inv(View()) && View() == Next(old(View()), Step.ResumeCommit(pid, outcome))
    {
      NextKeepsInv(View(), Step.ResumeCommit(pid, outcome));
      waiting := waiting - {pid};
      if outcome.CommitFailed? {
        return;
      }
      early := early || (!delivered && !confirmed);
      delivered := true;
      reports := reports + [price - cumulative];
      cumulative := price;
      if outcome.SendFailed? {
        return;
      }
      open := false;
    }
  }
}
