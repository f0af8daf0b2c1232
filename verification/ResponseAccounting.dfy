/**
 Two paths can account for the same response: the buyer's own post-response
 signing and the seller's NeedAuth. This module runs both, over any number of
 sellers sharing one request tracker, and shows that a response is counted once
 and paid exactly, in whichever order the paths run.
 */
module ResponseAccounting {
  import opened Wrappers
  import opened UsageAccounting
  import opened SessionChannel

  type PeerId = string

  datatype World = World(channels: map<PeerId, Channel>, tracker: Tracker)

  datatype Request =
    | PostResponse(evidence: CostEvidence, claimed: Option<nat>, exact: bool, usage: Usage, id: Option<RequestId>)
    | SellerNeedAuth(required: nat, claim: CostClaim, reported: Usage, deposit: Option<nat>, id: Option<RequestId>)

  /** The channel event a request becomes once the tracker has been asked. */
  function ToEvent(t: Tracker, r: Request): Event {
    match r
    case PostResponse(evidence, claimed, exact, usage, id) =>
      Sign(evidence, claimed, exact, usage.(requests := 1), if t.Has(id) then Some(t.Unpaid(id)) else None)
    case SellerNeedAuth(required, claim, reported, deposit, id) =>
      NeedAuth(required, claim, reported.(requests := 1), t.Has(id), deposit)
  }

  /** What the tracker records once the handler has signed. */
  function Track(cfg: Config, limit: nat, t: Tracker, m: Memory, r: Request): Tracker
  {
    var d := Decide(cfg, m, ToEvent(t, r));
    if !d.Authorize? then t
    else
      var signed := d.next - m.cumulative;
      match r
      case PostResponse(_, _, _, _, id) =>
        if t.Has(id) then t.Pay(id, signed) else t.Mark(limit, id, 0)
      case SellerNeedAuth(_, claim, _, _, id) =>
        if DeliveredResponse(claim) && !t.Has(id) then
          var cost := JudgedCost(cfg, claim).GetOr(0);
          t.Mark(limit, id, cost - Min(cost, signed))
        else t
  }

  function Handle(cfg: Config, limit: nat, w: World, p: PeerId, r: Request): World
    requires p in w.channels
  {
    var c := w.channels[p];
    World(w.channels[p := Next(cfg, c, Complete(ToEvent(w.tracker, r)))],
          Track(cfg, limit, w.tracker, c.mem, r))
  }

  // ----- arrivals: both handlers, failures, and everything in between -----

  /** `Stopped` is a handler of either kind whose commit or transmission failed at
      effect k; `Other` is any other handler of the channel, completed or failed. */
  datatype Arrival =
    | Handled(peer: PeerId, request: Request)
    | Stopped(peer: PeerId, request: Request, k: nat)
    | Other(peer: PeerId, step: Step)

  /** The effect after which a handler has marked the response. */
  const TRACKED: nat := 4

  predicate Possible(w: World, a: Arrival) {
    && a.peer in w.channels
    && (a.Stopped? ==> FailurePoint(a.k))
    && (a.Other? ==> !a.step.Crash? && Enabled(a.step) && !a.step.e.Sign? && !a.step.e.NeedAuth?)
  }

  function Arrive(cfg: Config, limit: nat, w: World, a: Arrival): World
    requires a.peer in w.channels
  {
    var c := w.channels[a.peer];
    match a
    case Handled(p, r) => Handle(cfg, limit, w, p, r)
    case Stopped(p, r, k) =>
      World(w.channels[p := Next(cfg, c, Fail(ToEvent(w.tracker, r), k))],
            if k >= TRACKED then Track(cfg, limit, w.tracker, c.mem, r) else w.tracker)
    case Other(p, step) => World(w.channels[p := Next(cfg, c, step)], w.tracker)
  }

  /** The request id an arrival is about. */
  function About(a: Arrival): Option<RequestId> {
    if a.Other? then None else a.request.id
  }

  // ----- observations, read off the states before and after -----

  /** Requests, service amount and signed amount added to the channel of `p`. */
  function RequestsAdded(w: World, w1: World, p: PeerId): int
    requires p in w.channels && p in w1.channels
  {
    w1.channels[p].mem.meta.requests - w.channels[p].mem.meta.requests
  }

  function AmountAdded(w: World, w1: World, p: PeerId): int
    requires p in w.channels && p in w1.channels
  {
    w1.channels[p].mem.meta.attributed - w.channels[p].mem.meta.attributed
  }

  function Signed(w: World, w1: World, p: PeerId): int
    requires p in w.channels && p in w1.channels
  {
    w1.channels[p].mem.cumulative - w.channels[p].mem.cumulative
  }

  function Evicted(before: World, after: World, id: RequestId): nat {
    if id in before.tracker.unpaid && id !in after.tracker.unpaid then 1 else 0
  }

  function Present(w: World, id: RequestId): nat {
    if id in w.tracker.unpaid then 1 else 0
  }

  ghost predicate Known(cfg: Config, limit: nat, w: World, run: seq<Arrival>)
    decreases |run|
  {
    run != [] ==> Possible(w, run[0]) && Known(cfg, limit, Arrive(cfg, limit, w, run[0]), run[1..])
  }

  function After(cfg: Config, limit: nat, w: World, run: seq<Arrival>): World
    requires Known(cfg, limit, w, run)
    decreases |run|
  {
    if run == [] then w else After(cfg, limit, Arrive(cfg, limit, w, run[0]), run[1..])
  }

  /** How often the run counted the request, and what it attributed to it. */
  function Counted(cfg: Config, limit: nat, w: World, run: seq<Arrival>, id: RequestId): int
    requires Known(cfg, limit, w, run)
    decreases |run|
  {
    if run == [] then 0
    else
      var w1 := Arrive(cfg, limit, w, run[0]);
      (if About(run[0]) == Some(id) then RequestsAdded(w, w1, run[0].peer) else 0) + Counted(cfg, limit, w1, run[1..], id)
  }

  function Attributed(cfg: Config, limit: nat, w: World, run: seq<Arrival>, id: RequestId): int
    requires Known(cfg, limit, w, run)
    decreases |run|
  {
    if run == [] then 0
    else
      var w1 := Arrive(cfg, limit, w, run[0]);
      (if About(run[0]) == Some(id) then AmountAdded(w, w1, run[0].peer) else 0) + Attributed(cfg, limit, w1, run[1..], id)
  }

  function Evictions(cfg: Config, limit: nat, w: World, run: seq<Arrival>, id: RequestId): nat
    requires Known(cfg, limit, w, run)
    decreases |run|
  {
    if run == [] then 0
    else
      var w1 := Arrive(cfg, limit, w, run[0]);
      Evicted(w, w1, id) + Evictions(cfg, limit, w1, run[1..], id)
  }

  ghost predicate TrackerOk(limit: nat, t: Tracker) {
    t.Valid() && 0 < limit && |t.order| <= limit
  }

  // ----- what one handler does to memory -----

  /** Memory after any number of effects of a top-up: only the reserve fields move. */
  lemma {:induction false} TopUpKeeps(cfg: Config, c: Channel, deposit: Option<nat>, k: nat)
    ensures var z := Perform(c, TopUpPhases(cfg, c, deposit), k);
      z.mem.meta == c.mem.meta && z.mem.cumulative == c.mem.cumulative
  {
    var phases := TopUpPhases(cfg, c, deposit);
    if phases != [] {
      assert phases[1..] == [];
      assert k >= PHASE_LENGTH ==> Perform(c, phases, k) == Perform(At(c, phases[0], PHASE_LENGTH), [], k - PHASE_LENGTH);
    }
  }

  /** After k effects a paying handler has adopted its decision or not begun to. */
  lemma {:induction false} PaymentMemory(cfg: Config, c: Channel, e: Event, k: nat)
    requires e.Sign? || e.NeedAuth? || e.Extend?
    ensures var z := Perform(c, Phases(cfg, c, e), k);
      var d := Decide(cfg, c.mem, e);
      && z.mem.meta == (if d.Authorize? && k >= 3 then d.meta else c.mem.meta)
      && z.mem.cumulative == (if d.Authorize? && k >= 3 then d.next else c.mem.cumulative)
  {
    var d := Decide(cfg, c.mem, e);
    var deposit := if e.Sign? then None else e.deposit;
    if d.Authorize? {
      var p := AuthorizePhase(cfg, c, d);
      var c1 := At(c, p, PHASE_LENGTH);
      var rest := if TopUpFollows(cfg, c1.mem, e, d) then TopUpPhases(cfg, c1, deposit) else [];
      assert Phases(cfg, c, e) == [p] + rest && ([p] + rest)[1..] == rest;
      if k >= PHASE_LENGTH {
        TopUpKeeps(cfg, c1, deposit, k - PHASE_LENGTH);
      }
    } else if d.OnlyTopUp? {
      TopUpKeeps(cfg, c, deposit, k);
    }
  }

  /** A completed handler has adopted its decision. */
  lemma {:induction false} CompletedMemory(cfg: Config, c: Channel, e: Event)
    requires e.Sign? || e.NeedAuth?
    ensures var d := Decide(cfg, c.mem, e);
      var z := Next(cfg, c, Complete(e));
      && z.mem.meta == (if d.Authorize? then d.meta else c.mem.meta)
      && z.mem.cumulative == (if d.Authorize? then d.next else c.mem.cumulative)
  {
    PaymentMemory(cfg, c, e, PHASE_LENGTH * |Phases(cfg, c, e)|);
  }

  /** No other handler, completed or failed, touches the tracker or the metadata, and
      only a catch-up moves the signed amount. */
  lemma {:induction false} OtherKeeps(cfg: Config, limit: nat, w: World, a: Arrival)
    requires Possible(w, a) && a.Other?
    ensures var w1 := Arrive(cfg, limit, w, a);
      && w1.tracker == w.tracker
      && w1.channels[a.peer].mem.meta == w.channels[a.peer].mem.meta
      && (!a.step.e.Extend? ==> w1.channels[a.peer].mem.cumulative == w.channels[a.peer].mem.cumulative)
  {
    var c, e := w.channels[a.peer], a.step.e;
    var k := Effects(cfg, c, a.step);
    if e.Extend? {
      PaymentMemory(cfg, c, e, k);
    } else if e.TopUp? {
      TopUpKeeps(cfg, c, e.deposit, k);
    } else if Phases(cfg, c, e) != [] {
      var p := Phases(cfg, c, e)[0];
      assert Phases(cfg, c, e) == [p];
      assert k >= PHASE_LENGTH ==> Perform(c, [p], k) == Perform(At(c, p, PHASE_LENGTH), [], k - PHASE_LENGTH);
    }
  }

  /** A stopped handler is as good as a completed one, or as none, for the accounting. */
  lemma {:induction false} StoppedAccounts(cfg: Config, limit: nat, w: World, p: PeerId, r: Request, k: nat)
    requires Possible(w, Stopped(p, r, k))
    ensures var w1 := Arrive(cfg, limit, w, Stopped(p, r, k));
      var z := if k >= TRACKED then Handle(cfg, limit, w, p, r) else w;
      && w1.tracker == z.tracker
      && w1.channels[p].mem.meta == z.channels[p].mem.meta
      && w1.channels[p].mem.cumulative == z.channels[p].mem.cumulative
  {
    var c, e := w.channels[p], ToEvent(w.tracker, r);
    PaymentMemory(cfg, c, e, k);
    CompletedMemory(cfg, c, e);
  }

  // ----- one arrival -----

  /** The balance an arrival keeps for a request id. */
  ghost predicate Balanced(limit: nat, w: World, w1: World, p: PeerId, about: Option<RequestId>, id: RequestId)
    requires p in w.channels && p in w1.channels
  {
    var counted := if about == Some(id) then RequestsAdded(w, w1, p) else 0;
    var attributed := if about == Some(id) then AmountAdded(w, w1, p) else 0;
    && TrackerOk(limit, w1.tracker)
    && counted + Present(w, id) == Evicted(w, w1, id) + Present(w1, id)
    && (id in w.tracker.unpaid && id in w1.tracker.unpaid ==> attributed + w1.tracker.unpaid[id] == w.tracker.unpaid[id])
  }

  /** What an authorized NeedAuth adds to the metadata. */
  lemma {:induction false} NeedAuthAdds(cfg: Config, m: Memory, e: Event)
    requires e.NeedAuth? && Decide(cfg, m, e).Authorize?
    ensures var d := Decide(cfg, m, e);
      var counts := DeliveredResponse(e.claim) && !e.alreadyCounted;
      && m.cumulative <= d.next && JudgedCost(cfg, e.claim).Some?
      && d.meta.requests == m.meta.requests + (if counts then e.reported.requests else 0)
      && d.meta.attributed == m.meta.attributed
         + if counts then Min(JudgedCost(cfg, e.claim).value, d.next - m.cumulative) else 0
  {
  }

  /** What post-response signing adds. */
  lemma {:induction false} SignAdds(cfg: Config, m: Memory, e: Event)
    requires e.Sign?
    ensures var d := Decide(cfg, m, e);
      && d.Authorize? && m.cumulative <= d.next
      && (e.counted.Some? ==> d.next - m.cumulative <= e.counted.value)
      && d.meta.requests == m.meta.requests + (if e.counted.Some? then 0 else e.usage.requests)
      && d.meta.attributed == m.meta.attributed + (d.next - m.cumulative)
  {
  }

  lemma {:induction false} MarkBalances(limit: nat, w: World, w1: World, p: PeerId, about: Option<RequestId>, id: RequestId, amount: nat)
    requires p in w.channels && p in w1.channels && RequestsAdded(w, w1, p) == 1
    requires TrackerOk(limit, w.tracker) && id != "" && !w.tracker.Has(about)
    requires w1.tracker == w.tracker.Mark(limit, about, amount)
    ensures Balanced(limit, w, w1, p, about, id)
  {
    MarkValid(w.tracker, limit, about, amount);
  }

  lemma {:induction false} PayBalances(limit: nat, w: World, w1: World, p: PeerId, about: Option<RequestId>, id: RequestId, amount: nat)
    requires p in w.channels && p in w1.channels && RequestsAdded(w, w1, p) == 0 && AmountAdded(w, w1, p) == amount
    requires TrackerOk(limit, w.tracker) && w.tracker.Has(about) && amount <= w.tracker.Unpaid(about)
    requires w1.tracker == w.tracker.Pay(about, amount)
    ensures Balanced(limit, w, w1, p, about, id)
  {
    PayValid(w.tracker, about, amount);
  }

  lemma {:induction false} SameBalances(limit: nat, w: World, w1: World, p: PeerId, about: Option<RequestId>, id: RequestId)
    requires p in w.channels && p in w1.channels && RequestsAdded(w, w1, p) == 0 && AmountAdded(w, w1, p) == 0
    requires TrackerOk(limit, w.tracker) && w1.tracker == w.tracker
    ensures Balanced(limit, w, w1, p, about, id)
  {
  }

  lemma {:induction false} PostResponseBalances(cfg: Config, limit: nat, w: World, p: PeerId, r: Request, id: RequestId)
    requires p in w.channels && r.PostResponse?
    requires TrackerOk(limit, w.tracker) && id != ""
    ensures Balanced(limit, w, Handle(cfg, limit, w, p, r), p, r.id, id)
  {
    var m, e := w.channels[p].mem, ToEvent(w.tracker, r);
    CompletedMemory(cfg, w.channels[p], e);
    SignAdds(cfg, m, e);
    if w.tracker.Has(r.id) {
      PayBalances(limit, w, Handle(cfg, limit, w, p, r), p, r.id, id, Decide(cfg, m, e).next - m.cumulative);
    } else {
      MarkBalances(limit, w, Handle(cfg, limit, w, p, r), p, r.id, id, 0);
    }
  }

  lemma {:induction false} NeedAuthBalances(cfg: Config, limit: nat, w: World, p: PeerId, r: Request, id: RequestId)
    requires p in w.channels && r.SellerNeedAuth?
    requires TrackerOk(limit, w.tracker) && id != ""
    ensures Balanced(limit, w, Handle(cfg, limit, w, p, r), p, r.id, id)
  {
    var m, e := w.channels[p].mem, ToEvent(w.tracker, r);
    var d, w1 := Decide(cfg, m, e), Handle(cfg, limit, w, p, r);
    CompletedMemory(cfg, w.channels[p], e);
    if d.Authorize? {
      NeedAuthAdds(cfg, m, e);
      var cost, signed := JudgedCost(cfg, r.claim).value, d.next - m.cumulative;
      NeedAuthTracks(limit, w.tracker, r, id, cost, signed, cfg, m);
      if DeliveredResponse(r.claim) && !w.tracker.Has(r.id) {
        MarkBalances(limit, w, w1, p, r.id, id, cost - Min(cost, signed));
      } else {
        SameBalances(limit, w, w1, p, r.id, id);
      }
    } else {
      SameBalances(limit, w, w1, p, r.id, id);
    }
  }

  /** What an authorized NeedAuth does to the tracker. */
  lemma {:induction false} NeedAuthTracks(limit: nat, t: Tracker, r: Request, id: RequestId, cost: nat, signed: nat, cfg: Config, m: Memory)
    requires r.SellerNeedAuth? && TrackerOk(limit, t) && id != ""
    requires var d := Decide(cfg, m, ToEvent(t, r)); d.Authorize? && signed == d.next - m.cumulative
    requires JudgedCost(cfg, r.claim) == Some(cost)
    ensures var z := Track(cfg, limit, t, m, r);
      z == if DeliveredResponse(r.claim) && !t.Has(r.id) then t.Mark(limit, r.id, cost - Min(cost, signed)) else t
  {
  }

  lemma {:induction false} HandleBalances(cfg: Config, limit: nat, w: World, p: PeerId, r: Request, id: RequestId)
    requires p in w.channels
    requires TrackerOk(limit, w.tracker) && id != ""
    ensures Balanced(limit, w, Handle(cfg, limit, w, p, r), p, r.id, id)
  {
    if r.PostResponse? {
      PostResponseBalances(cfg, limit, w, p, r, id);
    } else {
      NeedAuthBalances(cfg, limit, w, p, r, id);
    }
  }

  lemma {:induction false} ArrivalBalances(cfg: Config, limit: nat, w: World, a: Arrival, id: RequestId)
    requires Possible(w, a)
    requires TrackerOk(limit, w.tracker) && id != ""
    ensures Balanced(limit, w, Arrive(cfg, limit, w, a), a.peer, About(a), id)
  {
    match a
    case Handled(p, r) => HandleBalances(cfg, limit, w, p, r, id);
    case Stopped(p, r, k) =>
      StoppedAccounts(cfg, limit, w, p, r, k);
      HandleBalances(cfg, limit, w, p, r, id);
    case Other(_, _) =>
  }

  /** Once counted, a request changes no token, request, image or video total
      again: a later signing can only add to the attributed amount. */
  lemma {:induction false} CountedUsageIsFrozen(cfg: Config, limit: nat, w: World, a: Arrival)
    requires Possible(w, a) && !a.Other? && w.tracker.Has(a.request.id)
    ensures var m, m1 := w.channels[a.peer].mem.meta, Arrive(cfg, limit, w, a).channels[a.peer].mem.meta;
      m1 == m.(attributed := m1.attributed) && m.attributed <= m1.attributed
  {
    CompletedMemory(cfg, w.channels[a.peer], ToEvent(w.tracker, a.request));
    if a.Stopped? {
      StoppedAccounts(cfg, limit, w, a.peer, a.request, a.k);
    }
  }

  /** When a delivered response is counted, every total grows by exactly what was
      reported for it, and the request count by one. */
  lemma {:induction false} FirstCountAddsUsage(cfg: Config, limit: nat, w: World, p: PeerId, r: Request)
    requires p in w.channels && !w.tracker.Has(r.id)
    requires r.SellerNeedAuth? ==> DeliveredResponse(r.claim)
    requires Decide(cfg, w.channels[p].mem, ToEvent(w.tracker, r)).Authorize?
    ensures var m, m1 := w.channels[p].mem.meta, Handle(cfg, limit, w, p, r).channels[p].mem.meta;
      var u := if r.PostResponse? then r.usage else r.reported;
      && m1.inputTokens == m.inputTokens + u.inputTokens
      && m1.outputTokens == m.outputTokens + u.outputTokens
      && m1.requests == m.requests + 1
      && m1.outputImages == m.outputImages + u.outputImages
      && m1.videoGenerations == m.videoGenerations + u.videoGenerations
      && m1.videoSeconds == m.videoSeconds + u.videoSeconds
  {
    CompletedMemory(cfg, w.channels[p], ToEvent(w.tracker, r));
  }

  // ----- every run -----

  /** Over every run - both handlers, completed or stopped by a failure, and every
      other handler of any channel in between - a request's usage enters the
      metadata once for each time it was forgotten plus once while it is
      remembered: so at most once as long as the tracker keeps it. While kept, what
      is attributed to it and what remains unpaid always add up to the same amount. */
  lemma {:induction false} RunBalances(cfg: Config, limit: nat, w: World, run: seq<Arrival>, id: RequestId)
    requires Known(cfg, limit, w, run)
    requires TrackerOk(limit, w.tracker) && id != ""
    ensures var z := After(cfg, limit, w, run);
      && TrackerOk(limit, z.tracker)
      && Counted(cfg, limit, w, run, id) + Present(w, id) == Evictions(cfg, limit, w, run, id) + Present(z, id)
      && (id in w.tracker.unpaid && Evictions(cfg, limit, w, run, id) == 0 ==>
            && id in z.tracker.unpaid
            && Counted(cfg, limit, w, run, id) == 0
            && Attributed(cfg, limit, w, run, id) + z.tracker.unpaid[id] == w.tracker.unpaid[id])
    decreases |run|
  {
    if run != [] {
      ArrivalBalances(cfg, limit, w, run[0], id);
      RunBalances(cfg, limit, Arrive(cfg, limit, w, run[0]), run[1..], id);
    }
  }

  /** A NeedAuth for a delivered response that was authorized and not counted before. */
  ghost predicate CountsFirst(cfg: Config, w: World, a: Arrival, id: RequestId) {
    && Possible(w, a) && !a.Other? && (a.Stopped? ==> a.k >= TRACKED)
    && a.request.SellerNeedAuth? && a.request.id == Some(id) && DeliveredResponse(a.request.claim)
    && Decide(cfg, w.channels[a.peer].mem, ToEvent(w.tracker, a.request)).Authorize?
  }

  /** A response counted from `w` to `w1` leaves the rest of its cost unpaid. */
  ghost predicate CountedOnce(limit: nat, w: World, w1: World, p: PeerId, id: RequestId, cost: Option<nat>)
    requires p in w.channels && p in w1.channels
  {
    && RequestsAdded(w, w1, p) == 1 && cost.Some?
    && TrackerOk(limit, w1.tracker) && id in w1.tracker.unpaid
    && AmountAdded(w, w1, p) + w1.tracker.unpaid[id] == cost.value
  }

  lemma {:induction false} MarkCounts(limit: nat, w: World, w1: World, p: PeerId, id: RequestId, amount: nat)
    requires p in w.channels && p in w1.channels && RequestsAdded(w, w1, p) == 1 && AmountAdded(w, w1, p) >= 0
    requires TrackerOk(limit, w.tracker) && id != "" && id !in w.tracker.unpaid
    requires w1.tracker == w.tracker.Mark(limit, Some(id), amount)
    ensures CountedOnce(limit, w, w1, p, id, Some(AmountAdded(w, w1, p) + amount))
  {
    MarkValid(w.tracker, limit, Some(id), amount);
  }

  lemma {:induction false} FirstCountHandled(cfg: Config, limit: nat, w: World, p: PeerId, r: Request, id: RequestId)
    requires TrackerOk(limit, w.tracker) && id != "" && id !in w.tracker.unpaid
    requires CountsFirst(cfg, w, Handled(p, r), id)
    ensures CountedOnce(limit, w, Handle(cfg, limit, w, p, r), p, id, JudgedCost(cfg, r.claim))
  {
    var c, e := w.channels[p], ToEvent(w.tracker, r);
    var d := Decide(cfg, c.mem, e);
    CompletedMemory(cfg, c, e);
    NeedAuthAdds(cfg, c.mem, e);
    var cost, signed := JudgedCost(cfg, r.claim).value, d.next - c.mem.cumulative;
    NeedAuthTracks(limit, w.tracker, r, id, cost, signed, cfg, c.mem);
    MarkCounts(limit, w, Handle(cfg, limit, w, p, r), p, id, cost - Min(cost, signed));
  }

  lemma {:induction false} FirstCount(cfg: Config, limit: nat, w: World, a: Arrival, id: RequestId)
    requires TrackerOk(limit, w.tracker) && id != "" && id !in w.tracker.unpaid
    requires CountsFirst(cfg, w, a, id)
    ensures CountedOnce(limit, w, Arrive(cfg, limit, w, a), a.peer, id, JudgedCost(cfg, a.request.claim))
  {
    FirstCountHandled(cfg, limit, w, a.peer, a.request, id);
    if a.Stopped? {
      StoppedAccounts(cfg, limit, w, a.peer, a.request, a.k);
    }
  }

  /** When NeedAuth counts a response first, the amount attributed then, the
      amounts attributed by every later signing of it, and the unpaid remainder
      add up to the cost that was accepted, for as long as it is remembered and
      whatever else happens to the channel in between. */
  lemma {:induction false} NeedAuthFirstPaysExactly(cfg: Config, limit: nat, w: World, a: Arrival, run: seq<Arrival>, id: RequestId)
    requires TrackerOk(limit, w.tracker) && id != "" && id !in w.tracker.unpaid
    requires CountsFirst(cfg, w, a, id)
    requires Known(cfg, limit, Arrive(cfg, limit, w, a), run)
    ensures var w1 := Arrive(cfg, limit, w, a);
      && RequestsAdded(w, w1, a.peer) == 1
      && JudgedCost(cfg, a.request.claim).Some?
      && (Evictions(cfg, limit, w1, run, id) == 0 ==>
            var z := After(cfg, limit, w1, run);
            && id in z.tracker.unpaid
            && Counted(cfg, limit, w1, run, id) == 0
            && AmountAdded(w, w1, a.peer) + Attributed(cfg, limit, w1, run, id) + z.tracker.unpaid[id]
               == JudgedCost(cfg, a.request.claim).value)
  {
    FirstCount(cfg, limit, w, a, id);
    RunBalances(cfg, limit, Arrive(cfg, limit, w, a), run, id);
  }

  // ----- what is signed for one request -----

  /** The most the buyer would sign for a NeedAuth of this cost. */
  function NeedAuthLimit(cfg: Config, m: Memory, required: nat, claim: CostClaim): nat {
    NeedAuthWindow(cfg, m, required, JudgedCost(cfg, claim).GetOr(0)).maxSignable
  }

  /** Whether a NeedAuth finds something to sign: the seller asks for more than is
      signed, the claim is accepted, and the limit is above what is signed. */
  predicate Signable(cfg: Config, m: Memory, required: nat, claim: CostClaim) {
    m.cumulative < required && JudgedCost(cfg, claim).Some? && m.cumulative < NeedAuthLimit(cfg, m, required, claim)
  }

  /** A NeedAuth signs exactly when it finds something to sign, and then as much as
      asked, up to the limit. */
  lemma {:induction false} NeedAuthSigns(cfg: Config, m: Memory, e: Event)
    requires e.NeedAuth?
    ensures Decide(cfg, m, e).Authorize? <==> Signable(cfg, m, e.required, e.claim)
    ensures Decide(cfg, m, e).Authorize? ==>
      Decide(cfg, m, e).next == Min(e.required, NeedAuthLimit(cfg, m, e.required, e.claim))
  {
  }

  /** The arrival is a NeedAuth about the request that finds something to sign. */
  predicate Raises(cfg: Config, w: World, a: Arrival, id: RequestId)
    requires a.peer in w.channels
  {
    && !a.Other? && a.request.SellerNeedAuth? && a.request.id == Some(id) && (a.Stopped? ==> a.k >= TRACKED)
    && Signable(cfg, w.channels[a.peer].mem, a.request.required, a.request.claim)
  }

  /** The seller asks again for a response counted before, or for one it did not
      deliver, or for more than the cost while the limit leaves room for more. */
  predicate Overasks(cfg: Config, w: World, a: Arrival, id: RequestId)
    requires a.peer in w.channels
  {
    Raises(cfg, w, a, id) &&
    var m, r := w.channels[a.peer].mem, a.request;
    var cost := JudgedCost(cfg, r.claim).GetOr(0);
    || w.tracker.Has(Some(id)) || !DeliveredResponse(r.claim)
    || (m.cumulative + cost < r.required && m.cumulative + cost < NeedAuthLimit(cfg, m, r.required, r.claim))
  }

  /** What such a NeedAuth signs beyond the part of its cost it attributes: all of it
      for a response counted before or not delivered, else what exceeds the cost. */
  function Excess(cfg: Config, w: World, a: Arrival, id: RequestId): nat
    requires a.peer in w.channels
  {
    if !Raises(cfg, w, a, id) then 0
    else
      var m, r := w.channels[a.peer].mem, a.request;
      var signed := Min(r.required, NeedAuthLimit(cfg, m, r.required, r.claim)) - m.cumulative;
      var cost := JudgedCost(cfg, r.claim).GetOr(0);
      if DeliveredResponse(r.claim) && !w.tracker.Has(r.id) then signed - Min(cost, signed) else signed
  }

  lemma {:induction false} SignedIs(cfg: Config, limit: nat, w: World, a: Arrival, id: RequestId)
    requires Possible(w, a) && About(a) == Some(id)
    ensures var w1 := Arrive(cfg, limit, w, a);
      Signed(w, w1, a.peer) == AmountAdded(w, w1, a.peer) + Excess(cfg, w, a, id)
  {
    var m, e := w.channels[a.peer].mem, ToEvent(w.tracker, a.request);
    CompletedMemory(cfg, w.channels[a.peer], e);
    if e.Sign? {
      SignAdds(cfg, m, e);
    } else {
      NeedAuthSigns(cfg, m, e);
      if Decide(cfg, m, e).Authorize? {
        NeedAuthAdds(cfg, m, e);
      }
    }
    if a.Stopped? {
      StoppedAccounts(cfg, limit, w, a.peer, a.request, a.k);
    }
  }

  /** What an arrival signs for its request is at least what it attributes to it, and
      exactly that if and only if the seller does not overask. */
  lemma {:induction false} SignedAsAttributed(cfg: Config, limit: nat, w: World, a: Arrival, id: RequestId)
    requires Possible(w, a) && About(a) == Some(id)
    ensures var w1 := Arrive(cfg, limit, w, a);
      && AmountAdded(w, w1, a.peer) <= Signed(w, w1, a.peer)
      && (Signed(w, w1, a.peer) == AmountAdded(w, w1, a.peer) <==> !Overasks(cfg, w, a, id))
  {
    SignedIs(cfg, limit, w, a, id);
  }

  function SignedFor(cfg: Config, limit: nat, w: World, run: seq<Arrival>, id: RequestId): int
    requires Known(cfg, limit, w, run)
    decreases |run|
  {
    if run == [] then 0
    else
      var w1 := Arrive(cfg, limit, w, run[0]);
      (if About(run[0]) == Some(id) then Signed(w, w1, run[0].peer) else 0) + SignedFor(cfg, limit, w1, run[1..], id)
  }

  function ExcessFor(cfg: Config, limit: nat, w: World, run: seq<Arrival>, id: RequestId): nat
    requires Known(cfg, limit, w, run)
    decreases |run|
  {
    if run == [] then 0
    else Excess(cfg, w, run[0], id) + ExcessFor(cfg, limit, Arrive(cfg, limit, w, run[0]), run[1..], id)
  }

  predicate NeverOverasks(cfg: Config, limit: nat, w: World, run: seq<Arrival>, id: RequestId)
    requires Known(cfg, limit, w, run)
    decreases |run|
  {
    run == [] ||
      (!Overasks(cfg, w, run[0], id) && NeverOverasks(cfg, limit, Arrive(cfg, limit, w, run[0]), run[1..], id))
  }

  /** Over every run, what is signed for a request is what is attributed to it plus
      the excess. */
  lemma {:induction false} SignedForIs(cfg: Config, limit: nat, w: World, run: seq<Arrival>, id: RequestId)
    requires Known(cfg, limit, w, run)
    ensures SignedFor(cfg, limit, w, run, id) == Attributed(cfg, limit, w, run, id) + ExcessFor(cfg, limit, w, run, id)
    decreases |run|
  {
    if run != [] {
      if About(run[0]) == Some(id) {
        SignedIs(cfg, limit, w, run[0], id);
      }
      SignedForIs(cfg, limit, Arrive(cfg, limit, w, run[0]), run[1..], id);
    }
  }

  /** Over every run, what is signed for a request is at least what is attributed to
      it, and exactly that if and only if the seller never overasks. */
  lemma {:induction false} SignedAsAttributedIff(cfg: Config, limit: nat, w: World, run: seq<Arrival>, id: RequestId)
    requires Known(cfg, limit, w, run)
    ensures Attributed(cfg, limit, w, run, id) <= SignedFor(cfg, limit, w, run, id)
    ensures SignedFor(cfg, limit, w, run, id) == Attributed(cfg, limit, w, run, id) <==> NeverOverasks(cfg, limit, w, run, id)
    decreases |run|
  {
    if run != [] {
      if About(run[0]) == Some(id) {
        SignedAsAttributed(cfg, limit, w, run[0], id);
      }
      SignedAsAttributedIff(cfg, limit, Arrive(cfg, limit, w, run[0]), run[1..], id);
    }
  }

  /** From the NeedAuth that counts a response on, and while it is remembered: it is
      signed for its accepted cost less the remainder if and only if the seller never
      overasks, and for more otherwise. */
  lemma {:induction false} SignedForItsCostIff(cfg: Config, limit: nat, w: World, a: Arrival, run: seq<Arrival>, id: RequestId)
    requires TrackerOk(limit, w.tracker) && id != "" && id !in w.tracker.unpaid
    requires CountsFirst(cfg, w, a, id)
    requires Known(cfg, limit, Arrive(cfg, limit, w, a), run)
    requires Evictions(cfg, limit, Arrive(cfg, limit, w, a), run, id) == 0
    ensures var w1 := Arrive(cfg, limit, w, a);
      var z := After(cfg, limit, w1, run);
      var signed := Signed(w, w1, a.peer) + SignedFor(cfg, limit, w1, run, id);
      && id in z.tracker.unpaid && JudgedCost(cfg, a.request.claim).Some?
      && (signed == JudgedCost(cfg, a.request.claim).value - z.tracker.unpaid[id]
          <==> !Overasks(cfg, w, a, id) && NeverOverasks(cfg, limit, w1, run, id))
      && (signed > JudgedCost(cfg, a.request.claim).value - z.tracker.unpaid[id]
          <==> Overasks(cfg, w, a, id) || !NeverOverasks(cfg, limit, w1, run, id))
  {
    var w1 := Arrive(cfg, limit, w, a);
    NeedAuthFirstPaysExactly(cfg, limit, w, a, run, id);
    SignedAsAttributed(cfg, limit, w, a, id);
    SignedAsAttributedIff(cfg, limit, w1, run, id);
  }

  // ----- a request that is signed for twice -----

  const TIGHT: Config := Config(4, 100, DEFAULT_COST_TOLERANCE, true)
  const COST: CostClaim := LastCost(10, None, false, false)
  const ASK: Request := SellerNeedAuth(10, COST, ZERO_USAGE, Some(0), Some("r"))
  const PAY: Request := PostResponse(Bytes(Some(10)), Some(10), false, ZERO_USAGE, Some("r"))
  const FRESH: World := World(map["s" := Opened(TIGHT, 4)], EMPTY_TRACKER)
  const CONFIRM: Arrival := Other("s", Complete(Reconcile(100)))

  function Again(): seq<Arrival> {
    [Handled("s", ASK)] + ([Handled("s", PAY)] + [])
  }

  function Twice(): seq<Arrival> {
    [Handled("s", ASK)] + ([CONFIRM] + Again())
  }

  /** A NeedAuth of cost 10 on a channel opened with a reserve of 4 signs 4 and leaves
      6 unpaid. Once the chain shows a reserve of 100, the seller asks for 10 again,
      which signs 6 but leaves them unpaid, so that the post-response signing signs 6
      once more: 16. */
  lemma {:induction false} SignedTwice()
    ensures JudgedCost(TIGHT, COST) == Some(10) && Known(TIGHT, 512, FRESH, Twice())
    ensures SignedFor(TIGHT, 512, FRESH, Twice(), "r") == 16
    ensures var z := After(TIGHT, 512, FRESH, Twice()); Stands(z, 16, 20, 100, 0)
  {
    FirstAskSigns();
    ConfirmAndAgain(Arrive(TIGHT, 512, FRESH, Handled("s", ASK)));
    RunTurn(FRESH, Handled("s", ASK), [CONFIRM] + Again());
  }

  lemma {:induction false} ConfirmAndAgain(w: World)
    requires Stands(w, 4, 10, 4, 6)
    ensures var run := [CONFIRM] + Again();
      && Known(TIGHT, 512, w, run) && SignedFor(TIGHT, 512, w, run, "r") == 12
      && Stands(After(TIGHT, 512, w, run), 16, 20, 100, 0)
  {
    ConfirmRaises(w);
    AgainAndPay(Arrive(TIGHT, 512, w, CONFIRM));
    RunTurn(w, CONFIRM, Again());
  }

  lemma {:induction false} AgainAndPay(w: World)
    requires Stands(w, 4, 10, 100, 6)
    ensures Known(TIGHT, 512, w, Again()) && SignedFor(TIGHT, 512, w, Again(), "r") == 12
    ensures Stands(After(TIGHT, 512, w, Again()), 16, 20, 100, 0)
  {
    var w1 := Arrive(TIGHT, 512, w, Handled("s", ASK));
    SecondAskSigns(w);
    PaySigns(w1);
    RunTurn(w1, Handled("s", PAY), []);
    RunTurn(w, Handled("s", ASK), [Handled("s", PAY)] + []);
  }

  /** Signed, verified and reserved amounts of the channel, and what remains of "r". */
  ghost predicate Stands(w: World, signed: nat, verified: nat, ceiling: nat, unpaid: nat) {
    && "s" in w.channels && w.tracker == Tracker(["r"], map["r" := unpaid])
    && var m := w.channels["s"].mem; m.cumulative == signed && m.verified == verified && m.ceiling == Some(ceiling)
  }

  lemma {:induction false} RunTurn(w: World, a: Arrival, rest: seq<Arrival>)
    requires Possible(w, a) && Known(TIGHT, 512, Arrive(TIGHT, 512, w, a), rest)
    ensures Known(TIGHT, 512, w, [a] + rest)
    ensures var w1 := Arrive(TIGHT, 512, w, a);
      && After(TIGHT, 512, w, [a] + rest) == After(TIGHT, 512, w1, rest)
      && SignedFor(TIGHT, 512, w, [a] + rest, "r")
         == (if About(a) == Some("r") then Signed(w, w1, a.peer) else 0) + SignedFor(TIGHT, 512, w1, rest, "r")
  {
    assert ([a] + rest)[1..] == rest;
  }

  /** What asking for 10 decides under a ceiling of 4 and under one of 100. */
  lemma {:induction false} AskDecides(m: Memory, counted: bool)
    requires if m.verified == 0 then m.cumulative == 0 && m.ceiling == Some(4)
             else m.cumulative == 4 && m.verified == 10 && m.ceiling == Some(100)
    ensures var d := Decide(TIGHT, m, NeedAuth(10, COST, ZERO_USAGE.(requests := 1), counted, Some(0)));
      d.Authorize? && d.next == (if m.verified == 0 then 4 else 10) && d.verified == m.verified + 10
  {
    assert JudgedCost(TIGHT, COST) == Some(10);
  }

  lemma {:induction false} FirstAskMarks(m: Memory)
    requires m.cumulative == m.verified == 0 && m.ceiling == Some(4)
    ensures Track(TIGHT, 512, EMPTY_TRACKER, m, ASK) == Tracker(["r"], map["r" := 6])
  {
    AskDecides(m, false);
    assert EMPTY_TRACKER.Mark(512, Some("r"), 6) == Tracker([] + ["r"], map["r" := 6]);
  }

  lemma {:induction false} FirstAskSigns()
    ensures Stands(Arrive(TIGHT, 512, FRESH, Handled("s", ASK)), 4, 10, 4, 6)
  {
    var c, e := Opened(TIGHT, 4), ToEvent(EMPTY_TRACKER, ASK);
    FirstAskMarks(c.mem);
    AskDecides(c.mem, false);
    OnePhaseSigned(c, e, Decide(TIGHT, c.mem, e));
  }

  lemma {:induction false} SecondAskSigns(w: World)
    requires Stands(w, 4, 10, 100, 6)
    ensures Stands(Arrive(TIGHT, 512, w, Handled("s", ASK)), 10, 20, 100, 6)
  {
    var c, e := w.channels["s"], ToEvent(w.tracker, ASK);
    AskDecides(c.mem, true);
    OnePhaseSigned(c, e, Decide(TIGHT, c.mem, e));
  }

  lemma {:induction false} ConfirmRaises(w: World)
    requires Stands(w, 4, 10, 4, 6)
    ensures Stands(Arrive(TIGHT, 512, w, CONFIRM), 4, 10, 100, 6)
  {
    var c, e := w.channels["s"], Reconcile(100);
    var p := Phases(TIGHT, c, e)[0];
    assert Phases(TIGHT, c, e) == [p];
    assert Perform(c, [p], PHASE_LENGTH) == Perform(At(c, p, PHASE_LENGTH), [], 0);
  }

  lemma {:induction false} PaySigns(w: World)
    requires Stands(w, 10, 20, 100, 6)
    ensures Stands(Arrive(TIGHT, 512, w, Handled("s", PAY)), 16, 20, 100, 0)
  {
    var c, e := w.channels["s"], ToEvent(w.tracker, PAY);
    var d := Decide(TIGHT, c.mem, e);
    assert d.Authorize? && d.next == 16 && d.verified == 20 && !d.topUp;
    var p := AuthorizePhase(TIGHT, c, d);
    assert Phases(TIGHT, c, e) == [p] + [] == [p];
    assert Perform(c, [p], PHASE_LENGTH) == Perform(At(c, p, PHASE_LENGTH), [], 0);
  }

  /** Without funds for a top-up, a NeedAuth only signs. */
  lemma {:induction false} OnePhaseSigned(c: Channel, e: Event, d: Decision)
    requires e.NeedAuth? && e.deposit == Some(0) && d == Decide(TIGHT, c.mem, e) && d.Authorize?
    ensures Next(TIGHT, c, Complete(e)).mem == c.mem.(cumulative := d.next, verified := d.verified, meta := d.meta)
  {
    var p := AuthorizePhase(TIGHT, c, d);
    assert TopUpPhases(TIGHT, At(c, p, PHASE_LENGTH), Some(0)) == [];
    assert Phases(TIGHT, c, e) == [p] + [] == [p];
    assert Perform(c, [p], PHASE_LENGTH) == Perform(At(c, p, PHASE_LENGTH), [], 0);
  }
}
