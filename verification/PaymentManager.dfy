/**
 The buyer's payment manager as the source keeps it: per-seller tracking in
 memory, a store of active rows, and one request tracker shared by all sellers.
 Each handler is proved to have exactly the effects that `SessionChannel` gives
 it, and to leave every other seller alone.
 */
module PaymentManager {
  import opened Wrappers
  import opened UsageAccounting
  import opened SessionChannel
  import opened ResponseAccounting
  import opened CoveredRequests

  lemma {:induction false} PerformOne(c: Channel, p: Phase)
    ensures Perform(c, [p], PHASE_LENGTH) == At(c, p, PHASE_LENGTH)
  {
  }

  lemma {:induction false} PerformTwo(c: Channel, p: Phase, rest: seq<Phase>)
    requires |rest| <= 1
    ensures Perform(c, [p] + rest, PHASE_LENGTH * |[p] + rest|)
         == Perform(At(c, p, PHASE_LENGTH), rest, PHASE_LENGTH * |rest|)
  {
  }

  // ----- what each handler decides from the tracked amounts -----

  /** A 402 catch-up: how far the current authorization may be extended. */
  method PlanExtension(cfg: Config, m: Memory, minBudget: nat, target: Option<nat>, inFlight: nat) returns (d: Decision)
    ensures d == DecideExtend(cfg, m, minBudget, target, inFlight)
  {
    var current := m.cumulative;
    var verified := m.verified;
    var ceiling := Ceiling(cfg, m);
    var maxSignable := MaxSignable(cfg, m, verified);
    if maxSignable <= current && current > verified {
      // The window collapsed: trust what is already signed.
      verified := current;
      maxSignable := MaxSignable(cfg, m, verified);
    }
    ghost var w := Window(maxSignable, verified);
    assert w == ReopenIfCollapsed(cfg, m, MaxSignable(cfg, m, m.verified), m.verified);
    if target.Some? && inFlight > 1 {
      maxSignable := Min(verified + cfg.maxPerRequest * inFlight, ceiling);
    }
    assert maxSignable == CatchUpLimit(cfg, m, w, target, inFlight);
    var requested := current + minBudget;
    if target.Some? && target.value > requested {
      requested := target.value;
    }
    assert requested == Max(m.cumulative + minBudget, target.GetOr(0));
    d := Advance(m, w, maxSignable, verified, requested, ceiling);
  }

  method Advance(m: Memory, ghost w: Window, maxSignable: nat, verified: nat, requested: nat, ceiling: nat) returns (d: Decision)
    requires verified == w.verified
    ensures d == DecideAdvance(m, w, maxSignable, requested, ceiling)
  {
    var next := Min(requested, maxSignable);
    var needsTopUp := requested > maxSignable && maxSignable >= ceiling;
    if next <= m.cumulative {
      return if needsTopUp then OnlyTopUp else Refuse;
    }
    d := Authorize(next, verified, m.meta, 0, verified != m.verified, needsTopUp);
  }

  /** The cost the buyer accepts: the seller's claim, capped by the tolerance. */
  method AcceptClaim(cfg: Config, estimate: nat, claimed: Option<nat>, exact: bool) returns (accepted: nat)
    ensures accepted == AcceptedCost(cfg, estimate, claimed, exact)
    ensures claimed.Some? && claimed.value > 0 ==> accepted <= claimed.value
    ensures estimate > 0 && claimed.Some? && claimed.value > 0 ==>
              accepted <= Tolerated(cfg, estimate, exact)
              && (accepted == claimed.value || accepted == Tolerated(cfg, estimate, exact))
  {
    if claimed.None? || claimed.value == 0 {
      return estimate;
    }
    accepted := claimed.value;
    if estimate > 0 {
      var maxAcceptable := Tolerated(cfg, estimate, exact);
      if claimed.value > maxAcceptable {
        accepted := maxAcceptable;
      }
    }
  }

  /** Advance by the accepted cost, capped at what may be signed, never backward. */
  method CappedAdvance(cfg: Config, m: Memory, accepted: nat, verified: nat) returns (next: nat)
    ensures next == Max(m.cumulative, Min(m.cumulative + accepted, MaxSignable(cfg, m, verified)))
  {
    var maxSignable := MaxSignable(cfg, m, verified);
    next := m.cumulative + accepted;
    if next > maxSignable {
      next := maxSignable;
    }
    if next < m.cumulative {
      next := m.cumulative;
    }
  }

  /** What the buyer pays after receiving a response. */
  method PlanPayment(cfg: Config, m: Memory, evidence: CostEvidence, claimed: Option<nat>, exact: bool,
                     usage: Usage, unpaid: Option<nat>)
    returns (d: Decision)
    ensures d == DecideSign(cfg, m, evidence, claimed, exact, usage, unpaid)
  {
    var estimate := BuyerEstimate(evidence, claimed);
    var acceptedCost := AcceptClaim(cfg, estimate, claimed, exact);
    var verifiedCostDelta := estimate;
    if unpaid.Some? {
      acceptedCost := unpaid.value;
      verifiedCostDelta := 0;
    }
    var nextVerified := m.verified + verifiedCostDelta;
    var newAmount := CappedAdvance(cfg, m, acceptedCost, nextVerified);
    d := Payment(m, newAmount, nextVerified, verifiedCostDelta, usage, unpaid.Some?);
  }

  /** How far a seller's NeedAuth may raise the authorization. */
  method PlanNeedAuth(cfg: Config, m: Memory, required: nat, claim: CostClaim, reported: Usage, alreadyCounted: bool)
    returns (d: Decision)
    ensures d == DecideNeedAuth(cfg, m, required, claim, reported, alreadyCounted)
  {
    var current := m.cumulative;
    if required <= current {
      return Refuse; // stale
    }
    var judged := JudgedCost(cfg, claim);
    if judged.None? {
      return Refuse; // unverifiable cost
    }
    var nextVerified := m.verified + judged.value;
    var ceiling := Ceiling(cfg, m);
    var maxSignable := MaxSignable(cfg, m, nextVerified);
    var needsTopUp := required > maxSignable && maxSignable >= ceiling;
    if maxSignable <= current && !needsTopUp {
      if current > nextVerified {
        nextVerified := current;
        maxSignable := MaxSignable(cfg, m, nextVerified);
      }
      needsTopUp := required > maxSignable && maxSignable >= ceiling;
      if maxSignable <= current && !needsTopUp {
        return Refuse; // overdraft limit reached
      }
    }
    assert Window(maxSignable, nextVerified) == NeedAuthWindow(cfg, m, required, judged.value);
    var effective := if needsTopUp then Max(maxSignable, current) else Min(required, maxSignable);
    if effective <= current {
      return if needsTopUp then OnlyTopUp else Refuse;
    }
    d := Answer(m, effective, nextVerified, judged.value, reported, DeliveredResponse(claim), alreadyCounted, needsTopUp);
  }

  // ----- choosing among stored rows -----

  /** An active row of the store, with what decides between rows of one seller. */
  datatype Stored = Stored(peer: PeerId, sessionId: string, createdAt: nat, updatedAt: nat, hasSalt: bool, row: Row)

  predicate Newer(a: Stored, b: Stored) {
    a.createdAt > b.createdAt || (a.createdAt == b.createdAt && a.updatedAt > b.updatedAt)
  }

  /** The i-th row is its seller's latest: no row of the seller was created later, nor at
      the same time and updated later, and of equals it comes first. */
  ghost predicate IsLatest(stored: seq<Stored>, i: nat) {
    i < |stored| && forall j :: 0 <= j < |stored| && stored[j].peer == stored[i].peer ==>
      var x, s := stored[j], stored[i];
      || x.createdAt < s.createdAt
      || (x.createdAt == s.createdAt && x.updatedAt < s.updatedAt)
      || (x.createdAt == s.createdAt && x.updatedAt == s.updatedAt && i <= j)
  }

  /** The row chosen for a seller. */
  ghost predicate Chosen(stored: seq<Stored>, p: PeerId, s: Stored) {
    s.peer == p && exists i :: 0 <= i < |stored| && stored[i] == s && IsLatest(stored, i)
  }

  lemma {:induction false} ChosenSnoc(stored: seq<Stored>, p: PeerId, s: Stored, x: Stored)
    requires Chosen(stored, p, s) && (x.peer == p ==> !Newer(x, s))
    ensures Chosen(stored + [x], p, s)
  {
    var i :| 0 <= i < |stored| && stored[i] == s && IsLatest(stored, i);
    assert (stored + [x])[i] == s && IsLatest(stored + [x], i);
  }

  lemma {:induction false} ChosenLast(stored: seq<Stored>, x: Stored)
    requires (forall y :: y in stored ==> y.peer != x.peer) || exists s :: Chosen(stored, x.peer, s) && Newer(x, s)
    ensures Chosen(stored + [x], x.peer, x)
  {
    var all, n := stored + [x], |stored|;
    forall j | 0 <= j < |all| && all[j].peer == x.peer
      ensures all[j].createdAt < x.createdAt || (all[j].createdAt == x.createdAt && all[j].updatedAt < x.updatedAt) || j == n
    {
      if j < n {
        assert all[j] in stored;
        var s :| Chosen(stored, x.peer, s) && Newer(x, s);
        var i :| 0 <= i < |stored| && stored[i] == s && IsLatest(stored, i);
        assert stored[j].peer == stored[i].peer;
      }
    }
    assert all[n] == x && IsLatest(all, n);
  }

  /** Every seller with a row, and no other, with the row chosen for it. */
  ghost predicate AllChosen(stored: seq<Stored>, latest: map<PeerId, Stored>) {
    && (forall p :: p in latest <==> exists s :: s in stored && s.peer == p)
    && forall p :: p in latest ==> Chosen(stored, p, latest[p])
  }

  lemma {:induction false} OneMoreChosen(stored: seq<Stored>, latest: map<PeerId, Stored>, x: Stored, next: map<PeerId, Stored>)
    requires AllChosen(stored, latest)
    requires next == if x.peer !in latest || Newer(x, latest[x.peer]) then latest[x.peer := x] else latest
    ensures AllChosen(stored + [x], next)
  {
    forall p ensures p in next <==> exists s :: s in stored + [x] && s.peer == p {
      if p in latest {
        var s :| s in stored && s.peer == p;
        assert s in stored + [x];
      }
      assert x in stored + [x];
    }
    forall p | p in next ensures Chosen(stored + [x], p, next[p]) {
      if p == x.peer && (x.peer !in latest || Newer(x, latest[x.peer])) {
        ChosenLast(stored, x);
      } else {
        ChosenSnoc(stored, p, latest[p], x);
      }
    }
  }

  /** Going through the rows, a newer one replaces the one held. */
  function Latest(stored: seq<Stored>): map<PeerId, Stored> {
    if stored == [] then map[]
    else
      var s, before := stored[|stored| - 1], Latest(stored[..|stored| - 1]);
      if s.peer !in before || Newer(s, before[s.peer]) then before[s.peer := s] else before
  }

  /** That way every seller ends up with the latest of its rows. */
  lemma {:induction false} LatestIs(stored: seq<Stored>)
    ensures AllChosen(stored, Latest(stored))
  {
    if stored != [] {
      var front, s := stored[..|stored| - 1], stored[|stored| - 1];
      SplitLast(stored);
      LatestIs(front);
      OneMoreChosen(front, Latest(front), s, Latest(stored));
    }
  }

  method LatestByPeer(stored: seq<Stored>) returns (latest: map<PeerId, Stored>)
    ensures latest == Latest(stored)
  {
    latest := map[];
    var i := 0;
    while i < |stored|
      invariant 0 <= i <= |stored|
      invariant latest == Latest(stored[..i])
    {
      var s := stored[i];
      assert stored[..i + 1][..i] == stored[..i];
      if s.peer !in latest || Newer(s, latest[s.peer]) {
        latest := latest[s.peer := s];
      }
      i := i + 1;
    }
    assert stored[..i] == stored;
  }

  // ----- opening a channel -----

  datatype Opening = NotCommitted | NotSent | Done

  /** The channels after an opening; without a commit, an active channel of the seller
      keeps its row, and a seller without one still has none. */
  function OpeningOf(cfg: Config, channels: map<PeerId, Channel>, p: PeerId, reserve: nat, outcome: Opening): map<PeerId, Channel> {
    var totals := if p in channels then channels[p].mem.totals else None;
    var c := OpenedWith(cfg, reserve, totals);
    match outcome
    case NotCommitted => if p in channels then channels[p := OpeningFailed(channels[p], reserve)] else channels
    case NotSent => channels[p := c.(mem := c.mem.(ceiling := Some(0)), sent := [])]
    case Done => channels[p := c]
  }

  class BuyerPaymentManager {
    const cfg: Config
    /** Per seller: what is held in memory, the durable row, and what was sent
        and reported. */
    var channels: map<PeerId, Channel>
    /** The active session of each seller, and the sellers whose reserve can be replayed. */
    var sessionIds: map<PeerId, string>
    var salts: set<PeerId>
    /** Requests that a seller served from a free allowance, the oldest mark first. */
    var covered: seq<Entry>
    /** Shared by all sellers. */
    const counted: CountedRequestTracker

    /** Start from the rows the store holds: for each seller, the latest. */
    constructor (cfg: Config, stored: seq<Stored>)
      ensures this.cfg == cfg && fresh(counted) && counted.Valid() && counted.View() == EMPTY_TRACKER && covered == []
      ensures var latest := Latest(stored);
        && channels.Keys == sessionIds.Keys == latest.Keys && salts <= latest.Keys
        && forall p :: p in latest ==>
             channels[p] == FromStore(latest[p].row) && sessionIds[p] == latest[p].sessionId && (p in salts <==> latest[p].hasSalt)
    {
      var latest := LatestByPeer(stored);
      this.cfg := cfg;
      channels := map p | p in latest :: FromStore(latest[p].row);
      sessionIds := map p | p in latest :: latest[p].sessionId;
      salts := set p | p in latest && latest[p].hasSalt;
      covered := [];
      counted := new CountedRequestTracker();
    }

    /** Open a channel: refused when the seller wants more per request than the buyer
        gives. Memory is reset first; then the row is committed, the reserve is sent and
        the ceiling is adopted, unless the commit or the transmission fails. */
    method AuthorizeSpending(p: PeerId, sessionId: string, minBudget: nat, reserve: Option<nat>, outcome: Opening)
      returns (ok: bool)
      modifies this`channels, this`sessionIds, this`salts
      ensures ok == (minBudget <= cfg.maxPerRequest && outcome.Done?)
      ensures minBudget > cfg.maxPerRequest ==>
        channels == old(channels) && sessionIds == old(sessionIds) && salts == old(salts)
      ensures minBudget <= cfg.maxPerRequest ==>
        var maxAmount := reserve.GetOr(cfg.maxReserve);
        && salts == old(salts) + {p}
        && sessionIds == (if outcome.NotCommitted? then old(sessionIds) else old(sessionIds)[p := sessionId])
        && channels == OpeningOf(cfg, old(channels), p, maxAmount, outcome)
    {
      if minBudget > cfg.maxPerRequest {
        return false;
      }
      ok := outcome.Done?;
      var maxAmount := reserve.GetOr(cfg.maxReserve);
      var totals := if p in channels then channels[p].mem.totals else None;
      var m := Memory(0, 0, Some(0), Some(maxAmount), Some(Pending(maxAmount, 0)), ZERO_METADATA, totals);
      salts := salts + {p};
      if p in channels {
        channels := channels[p := channels[p].(mem := m)];
      }
      if outcome.NotCommitted? {
        return;
      }
      sessionIds := sessionIds[p := sessionId];
      var row := Persist(cfg, Row(0, ZERO_METADATA, Some(maxAmount), Some(true), Some(0), Some(maxAmount)));
      var c := Channel(m, row, [], []);
      if outcome.Done? {
        c := c.(sent := [0]);
        c := c.(mem := c.mem.(ceiling := Some(maxAmount)));
      }
      channels := channels[p := c];
    }

    /** Forget what is too old or too much, then remember the request as the newest. */
    method MarkRequestCovered(p: PeerId, id: RequestId, now: int)
      modifies this`covered
      ensures covered == Marked(old(covered), Key(p, id), now)
    {
      while covered != [] && !(|covered| < MAX_COVERED_REQUESTS && now - covered[0].at < COVERED_REQUEST_TTL_MS)
        invariant Expire(covered, now) == Expire(old(covered), now)
        decreases |covered|
      {
        covered := covered[1..];
      }
      covered := Without(covered, Key(p, id)) + [Entry(Key(p, id), now)];
    }

    method ReleaseRequestCoverage(p: PeerId, id: RequestId)
      modifies this`covered
      ensures covered == Without(old(covered), Key(p, id))
    {
      covered := Without(covered, Key(p, id));
    }

    /** Sign the current amount again. */
    method ResendCurrentSpendingAuth(p: PeerId) returns (ok: bool)
      modifies this`channels
      ensures ok == (p in old(channels))
      ensures channels == if ok
        then old(channels)[p := Next(cfg, old(channels)[p], Complete(Resend))] else old(channels)
    {
      if p !in channels {
        return false; // no active session
      }
      ok := true;
      var before := channels[p];
      var c := before.(row := Persist(cfg, before.row.(meta := before.mem.meta)));
      c := c.(sent := c.sent + [c.mem.cumulative]);
      PerformOne(before, SendPhase(cfg, before, before.mem.cumulative));
      channels := channels[p := c];
    }

    /** `estimate` is the cost of the bytes, absent without pricing. */
    method RecordResponseBytes(p: PeerId, estimate: Option<nat>)
      requires p in channels
      modifies this`channels
      ensures channels == if estimate.Some?
        then old(channels)[p := Next(cfg, old(channels)[p], Complete(RecordResponse(estimate.value)))] else old(channels)
    {
      if estimate.None? {
        return;
      }
      var before := channels[p];
      var c := before.(mem := before.mem.(verified := before.mem.verified + estimate.value));
      PerformOne(before, Phases(cfg, before, RecordResponse(estimate.value))[0]);
      channels := channels[p := c];
    }

    /** Count a response in the totals beside the signed metadata, and persist them. */
    method RecordAndPersistTokens(p: PeerId, input: nat, output: nat)
      modifies this`channels
      ensures channels == if p in old(channels)
        then old(channels)[p := Next(cfg, old(channels)[p], Complete(RecordTokens(input, output)))] else old(channels)
    {
      if p !in channels {
        return; // no active session
      }
      var before := channels[p];
      var columns := before.row.meta;
      var previous := before.mem.totals.GetOr(Totals(columns.inputTokens, columns.outputTokens, columns.requests));
      var totals := Totals(previous.input + input, previous.output + output, previous.requests + 1);
      var c := before.(mem := before.mem.(totals := Some(totals)));
      c := c.(row := Persist(cfg, c.row.(
        meta := columns.(inputTokens := totals.input, outputTokens := totals.output, requests := totals.requests))));
      PerformOne(before, RecordPhase(cfg, before, input, output));
      channels := channels[p := c];
    }

    /** Sign and commit a higher cumulative amount, then adopt, report and transmit it. */
    method CommitUpdatedSpendingAuth(p: PeerId, d: Decision)
      requires p in channels && d.Authorize? && channels[p].mem.cumulative <= d.next
      modifies this`channels
      ensures channels == old(channels)[p := At(old(channels)[p], AuthorizePhase(cfg, old(channels)[p], d), PHASE_LENGTH)]
    {
      var c := channels[p];
      var signed := d.next - c.mem.cumulative;
      c := c.(row := Persist(cfg, c.row.(authMax := d.next, meta := d.meta)));
      c := c.(mem := c.mem.(cumulative := d.next, verified := d.verified, meta := d.meta));
      c := c.(reports := c.reports + [signed]);
      c := c.(sent := c.sent + [d.next]);
      channels := channels[p := c];
    }

    /** Durably persist a pending ReserveAuth, transmit it, adopt the new ceiling. */
    method CommitAndSendReserveAuth(p: PeerId, pending: Pending, cumulative: nat, initial: Option<nat>)
      requires p in channels
      modifies this`channels
      ensures channels == old(channels)[p :=
        At(old(channels)[p], ReservePhase(cfg, old(channels)[p], pending, initial, cumulative), PHASE_LENGTH)]
    {
      var c := channels[p];
      c := c.(row := Persist(cfg, c.row.(
        meta := c.mem.meta, reserveMax := Some(pending.maxAmount), reservePending := Some(true),
        confirmed := Some(pending.confirmedAmount), initialReserve := initial)));
      c := c.(mem := c.mem.(pending := Some(pending)));
      c := c.(sent := c.sent + [cumulative]);
      c := c.(mem := c.mem.(ceiling := Some(pending.maxAmount)));
      channels := channels[p := c];
    }

    method TopUpReserve(p: PeerId, deposit: Option<nat>) returns (ok: bool)
      requires p in channels
      modifies this`channels
      ensures ok == (|TopUpPhases(cfg, old(channels)[p], deposit)| == 1)
      ensures var phases := TopUpPhases(cfg, old(channels)[p], deposit);
        channels == old(channels)[p := Perform(old(channels)[p], phases, PHASE_LENGTH * |phases|)]
    {
      var before := channels[p];
      var prevCeiling := Ceiling(cfg, before.mem);
      var newCeiling := prevCeiling + cfg.maxReserve;
      if deposit.Some? && deposit.value < newCeiling - prevCeiling {
        assert channels == channels[p := before];
        return false; // insufficient buyer deposits
      }
      var initial := before.row.initialReserve.GetOr(prevCeiling);
      CommitAndSendReserveAuth(p, Pending(newCeiling, prevCeiling), before.mem.cumulative, Some(initial));
      PerformOne(before, ReservePhase(cfg, before, Pending(newCeiling, prevCeiling), Some(initial), before.mem.cumulative));
      ok := true;
    }

    /** Carry out a decision: sign and commit first, then send any top-up. */
    method Apply(p: PeerId, e: Event, d: Decision, deposit: Option<nat>)
      requires p in channels
      requires d.Authorize? ==> channels[p].mem.cumulative <= d.next
      modifies this`channels
      ensures var phases := DecisionPhases(cfg, old(channels)[p], e, d, deposit);
        channels == old(channels)[p := Perform(old(channels)[p], phases, PHASE_LENGTH * |phases|)]
    {
      var before := channels[p];
      var topUp := d.OnlyTopUp?;
      if d.Authorize? {
        CommitUpdatedSpendingAuth(p, d);
        topUp := d.topUp || (e.NeedAuth? && NeedsTopUp(cfg, channels[p].mem));
        PerformTwo(before, AuthorizePhase(cfg, before, d), if topUp then TopUpPhases(cfg, channels[p], deposit) else []);
      } else if !topUp {
        assert channels == channels[p := before];
      }
      if topUp {
        var _ := TopUpReserve(p, deposit);
      }
    }

    method ExtendCurrentSpendingAuth(p: PeerId, minBudget: nat, target: Option<nat>, inFlight: nat, deposit: Option<nat>)
      returns (ok: bool)
      modifies this`channels
      ensures ok == (p in old(channels))
      ensures channels == if ok
        then old(channels)[p := Next(cfg, old(channels)[p], Complete(Extend(minBudget, target, inFlight, deposit)))]
        else old(channels)
    {
      if p !in channels {
        return false; // no active session
      }
      ok := true;
      var d := PlanExtension(cfg, channels[p].mem, minBudget, target, inFlight);
      Apply(p, Extend(minBudget, target, inFlight, deposit), d, deposit);
    }

    method SignPerRequestAuth(p: PeerId, evidence: CostEvidence, claimed: Option<nat>, exact: bool, usage: Usage, id: Option<RequestId>)
      returns (ok: bool)
      requires counted.Valid()
      modifies this`channels, counted
      ensures counted.Valid() && ok == (p in old(channels))
      ensures World(channels, counted.View()) == if ok
        then Handle(cfg, counted.limit, World(old(channels), old(counted.View())), p, PostResponse(evidence, claimed, exact, usage, id))
        else World(old(channels), old(counted.View()))
    {
      if p !in channels {
        return false; // authorizeSpending must come first
      }
      ok := true;
      var alreadyCounted := counted.Has(id);
      var unpaid: Option<nat> := None;
      if alreadyCounted {
        var amount := counted.Unpaid(id);
        unpaid := Some(amount);
      }
      var counts := usage.(requests := 1);
      var m := channels[p].mem;
      var d := PlanPayment(cfg, m, evidence, claimed, exact, counts, unpaid);
      TrackSigned(m, PostResponse(evidence, claimed, exact, usage, id), d);
      Apply(p, Sign(evidence, claimed, exact, counts, unpaid), d, None);
    }

    /** Remember that a signed response was counted, or what of it is now paid. */
    method TrackSigned(m: Memory, r: Request, d: Decision)
      requires counted.Valid() && d == Decide(cfg, m, ToEvent(counted.View(), r))
      modifies counted
      ensures counted.Valid() && counted.View() == Track(cfg, counted.limit, old(counted.View()), m, r)
    {
      if !d.Authorize? {
        return;
      }
      var signed := d.next - m.cumulative;
      var alreadyCounted := counted.Has(r.id);
      if r.PostResponse? {
        if alreadyCounted {
          counted.Pay(r.id, signed);
        } else {
          counted.Mark(r.id);
        }
      } else if DeliveredResponse(r.claim) && !alreadyCounted {
        var cost := JudgedCost(cfg, r.claim).GetOr(0);
        counted.Mark(r.id, cost - Min(cost, signed));
      }
    }

    /** Ignored for an unknown seller, for another channel than the active one, and
        for a request the seller served from a free allowance. */
    method HandleNeedAuth(p: PeerId, channelId: string, required: nat, claim: CostClaim, reported: Usage, deposit: Option<nat>, id: Option<RequestId>)
      returns (ok: bool)
      requires counted.Valid() && sessionIds.Keys == channels.Keys
      modifies this`channels, counted
      ensures counted.Valid()
      ensures ok == (p in old(channels) && sessionIds[p] == channelId && !(id.Some? && Has(covered, Key(p, id.value))))
      ensures World(channels, counted.View()) == if ok
        then Handle(cfg, counted.limit, World(old(channels), old(counted.View())), p, SellerNeedAuth(required, claim, reported, deposit, id))
        else World(old(channels), old(counted.View()))
    {
      if p !in channels {
        return false; // unknown seller
      }
      if sessionIds[p] != channelId {
        return false; // unknown channel
      }
      if id.Some? && Has(covered, Key(p, id.value)) {
        return false; // already served free of charge
      }
      ok := true;
      var alreadyCounted := counted.Has(id);
      var counts := reported.(requests := 1);
      var m := channels[p].mem;
      var d := PlanNeedAuth(cfg, m, required, claim, counts, alreadyCounted);
      TrackSigned(m, SellerNeedAuth(required, claim, reported, deposit, id), d);
      Apply(p, NeedAuth(required, claim, counts, alreadyCounted, deposit), d, deposit);
    }

    /** Adopt a confirmed ceiling in memory, then commit it. */
    method ConfirmCeiling(p: PeerId, ceiling: nat, pending: Option<Pending>)
      requires p in channels
      modifies this`channels
      ensures channels == old(channels)[p := At(old(channels)[p], ConfirmPhase(cfg, old(channels)[p], ceiling, pending), PHASE_LENGTH)]
    {
      var c := channels[p];
      c := c.(mem := c.mem.(ceiling := Some(ceiling), pending := pending));
      c := c.(row := Persist(cfg, c.row.(
        meta := c.mem.meta, reservePending := Some(pending.Some?), confirmed := Some(ceiling))));
      channels := channels[p := c];
    }

    /** The chain is authoritative, even when it lowers the ceiling. */
    method ReconcileReserveAmount(p: PeerId, onChain: nat)
      modifies this`channels
      ensures channels == if p in old(channels)
        then old(channels)[p := Next(cfg, old(channels)[p], Complete(Reconcile(onChain)))] else old(channels)
    {
      if p !in channels {
        return;
      }
      var before := channels[p];
      var pending := before.mem.pending;
      if pending.Some? && onChain >= pending.value.maxAmount {
        pending := None; // applied
      }
      ConfirmCeiling(p, onChain, pending);
      PerformOne(before, ConfirmPhase(cfg, before, onChain, pending));
    }

    method HandleAuthAck(p: PeerId, channelId: string)
      requires sessionIds.Keys == channels.Keys
      modifies this`channels
      ensures channels == if p in old(channels) && sessionIds[p] == channelId
        then old(channels)[p := Next(cfg, old(channels)[p], Complete(AuthAck))] else old(channels)
    {
      if p !in channels || sessionIds[p] != channelId {
        return;
      }
      var before := channels[p];
      if before.mem.pending.None? || before.mem.pending.value.confirmedAmount != 0 {
        assert channels == channels[p := before];
        return;
      }
      var amount := before.mem.pending.value.maxAmount;
      ConfirmCeiling(p, amount, None);
      PerformOne(before, ConfirmPhase(cfg, before, amount, None));
    }

    method ResendReserveAuth(p: PeerId) returns (ok: bool)
      modifies this`channels
      ensures ok == (p in old(channels) && p in salts)
      ensures channels == if ok
        then old(channels)[p := Next(cfg, old(channels)[p], Complete(ResendReserve))] else old(channels)
    {
      if p !in channels || p !in salts {
        return false; // no replayable reserve
      }
      ok := true;
      var before := channels[p];
      var replay := before.mem.initialReserve.GetOr(Ceiling(cfg, before.mem));
      var maxAmount := if replay > cfg.maxReserve then cfg.maxReserve else replay;
      CommitAndSendReserveAuth(p, Pending(maxAmount, 0), before.row.authMax, Some(maxAmount));
      PerformOne(before, ReservePhase(cfg, before, Pending(maxAmount, 0), Some(maxAmount), before.row.authMax));
    }

    method ResendPendingReserveAuth(p: PeerId) returns (ok: bool)
      modifies this`channels
      ensures ok == (p in old(channels) && old(channels)[p].mem.pending.Some?)
      ensures channels == if ok
        then old(channels)[p := Next(cfg, old(channels)[p], Complete(ResendPending))] else old(channels)
    {
      if p !in channels || channels[p].mem.pending.None? {
        return false; // no pending reserve
      }
      ok := true;
      var before := channels[p];
      var pending := before.mem.pending.value;
      CommitAndSendReserveAuth(p, pending, before.row.authMax, before.row.initialReserve);
      PerformOne(before, ReservePhase(cfg, before, pending, before.row.initialReserve, before.row.authMax));
    }

    /** The signed amount of a close request, if it carries an authorization. */
    method BuildCloseChannelRequest(p: PeerId, includeAuth: bool, maxCumulative: Option<nat>) returns (amount: Option<nat>)
      modifies this`channels
      ensures channels == if p in old(channels)
        then old(channels)[p := Next(cfg, old(channels)[p], Complete(Close(includeAuth, maxCumulative)))] else old(channels)
      ensures amount.Some? ==>
        && p in old(channels)
        && amount.value <= old(channels)[p].mem.cumulative
        && channels[p].sent == old(channels)[p].sent + [amount.value]
    {
      if p !in channels {
        return None;
      }
      var c := channels[p];
      ghost var before := c;
      var signed := c.mem.cumulative;
      var capped := maxCumulative.Some? && signed > maxCumulative.value;
      var cumulative := if capped then maxCumulative.value else signed;
      if !includeAuth || cumulative == 0 {
        assert channels == channels[p := c];
        return None;
      }
      if !capped {
        c := c.(row := Persist(cfg, c.row.(meta := c.mem.meta)));
      }
      c := c.(sent := c.sent + [cumulative]);
      PerformOne(before, ClosePhases(cfg, before, includeAuth, maxCumulative)[0]);
      channels := channels[p := c];
      amount := Some(cumulative);
    }
  }
}
