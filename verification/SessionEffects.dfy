/**
 What each handler of a session channel amounts to, read off the channel before and
 after it: how much is signed, from the amounts known before the call, and what
 happens to the reserve.
 */
module SessionEffects {
  import opened Wrappers
  import opened UsageAccounting
  import opened SessionChannel
  import opened ResponseAccounting

  // ----- amounts -----

  /** The buyer's own estimate of a response: tokens and units together, or the price
      of the reported tokens or of the bytes; without a price, the claim or nothing. */
  ghost predicate Estimates(evidence: CostEvidence, claimed: Option<nat>, estimate: nat) {
    && (evidence.Hybrid? ==> estimate == evidence.tokenCost + evidence.unitCost)
    && (!evidence.Hybrid? && evidence.priced.Some? ==> estimate == evidence.priced.value)
    && (evidence.Reported? && evidence.priced.None? && claimed.Some? ==> estimate == claimed.value)
    && (evidence.Reported? && evidence.priced.None? && claimed.None? ==> estimate == 0)
    && (evidence.Bytes? && evidence.priced.None? ==> estimate == 0)
  }

  /** The largest claim the buyer accepts for an estimate. */
  ghost predicate Tolerates(cfg: Config, estimate: nat, exact: bool, most: nat) {
    (exact ==> most == estimate) && (!exact ==> most == cfg.tolerated(estimate))
  }

  /** What is due: the claim, but no more than is tolerated; without a claim the
      estimate, and without an estimate the claim. */
  ghost predicate Due(claimed: Option<nat>, estimate: nat, most: nat, due: nat) {
    && (claimed.None? || claimed.value == 0 ==> due == estimate)
    && (claimed.Some? && claimed.value > 0 && estimate == 0 ==> due == claimed.value)
    && (claimed.Some? && claimed.value > 0 && estimate > 0 && claimed.value <= most ==> due == claimed.value)
    && (claimed.Some? && claimed.value > 0 && estimate > 0 && claimed.value > most ==> due == most)
  }

  /** As much of what is due as fits under both limits, and nothing if nothing fits. */
  ghost predicate Fills(before: nat, signed: int, due: nat, window: nat, ceiling: nat) {
    && 0 <= signed <= due
    && (signed > 0 ==> before + signed <= window && before + signed <= ceiling)
    && (signed < due ==> before + signed >= window || before + signed >= ceiling)
  }

  // ----- the buyer's own signing after a response -----

  /** A response that was not counted before is paid what is due for it, as far as the
      window and the ceiling allow, and the verified cost grows by the estimate. */
  lemma {:induction false} ResponseIsPaid(cfg: Config, limit: nat, w: World, p: PeerId, r: Request, estimate: nat, most: nat, due: nat)
    requires p in w.channels && r.PostResponse? && !w.tracker.Has(r.id)
    requires Estimates(r.evidence, r.claimed, estimate) && Tolerates(cfg, estimate, r.exact, most) && Due(r.claimed, estimate, most, due)
    ensures var m, w1 := w.channels[p].mem, Handle(cfg, limit, w, p, r);
      && Fills(m.cumulative, Signed(w, w1, p), due, m.verified + estimate + cfg.maxPerRequest, m.ceiling.GetOr(cfg.maxReserve))
      && w1.channels[p].mem.verified == m.verified + estimate
      && w1.channels[p].reports == w.channels[p].reports + [Signed(w, w1, p)]
      && w1.channels[p].sent == w.channels[p].sent + [w1.channels[p].mem.cumulative]
  {
    var c, e := w.channels[p], ToEvent(w.tracker, r);
    SignedOnce(cfg, c, e);
  }

  /** A claim within tolerance of a positive estimate is paid exactly, if there is room. */
  lemma {:induction false} ClaimIsPaid(cfg: Config, limit: nat, w: World, p: PeerId, r: Request, estimate: nat, most: nat)
    requires p in w.channels && r.PostResponse? && !w.tracker.Has(r.id)
    requires Estimates(r.evidence, r.claimed, estimate) && Tolerates(cfg, estimate, r.exact, most)
    requires r.claimed.Some? && 0 < r.claimed.value <= most && 0 < estimate
    requires var m := w.channels[p].mem;
      && m.cumulative + r.claimed.value <= m.verified + estimate + cfg.maxPerRequest
      && m.cumulative + r.claimed.value <= m.ceiling.GetOr(cfg.maxReserve)
    ensures Signed(w, Handle(cfg, limit, w, p, r), p) == r.claimed.value
  {
    ResponseIsPaid(cfg, limit, w, p, r, estimate, most, r.claimed.value);
  }

  /** A response counted before is paid what remains of it, and verifies nothing. */
  lemma {:induction false} RemainderIsPaid(cfg: Config, limit: nat, w: World, p: PeerId, r: Request)
    requires p in w.channels && r.PostResponse? && w.tracker.Has(r.id)
    ensures var m, w1 := w.channels[p].mem, Handle(cfg, limit, w, p, r);
      && Fills(m.cumulative, Signed(w, w1, p), w.tracker.unpaid[r.id.value], m.verified + cfg.maxPerRequest, m.ceiling.GetOr(cfg.maxReserve))
      && w1.channels[p].mem.verified == m.verified
      && w1.channels[p].reports == w.channels[p].reports + [Signed(w, w1, p)]
      && w1.channels[p].sent == w.channels[p].sent + [w1.channels[p].mem.cumulative]
  {
    var c, e := w.channels[p], ToEvent(w.tracker, r);
    SignedOnce(cfg, c, e);
  }

  /** Post-response signing is one authorization. */
  lemma {:induction false} SignedOnce(cfg: Config, c: Channel, e: Event)
    requires e.Sign?
    ensures var d := Decide(cfg, c.mem, e);
      d.Authorize? && Next(cfg, c, Complete(e)) == At(c, AuthorizePhase(cfg, c, d), PHASE_LENGTH)
  {
    var d := Decide(cfg, c.mem, e);
    var p := AuthorizePhase(cfg, c, d);
    assert Phases(cfg, c, e) == [p] + [] == [p];
    assert Perform(c, [p], PHASE_LENGTH) == Perform(At(c, p, PHASE_LENGTH), [], 0);
  }

  // ----- claims of a NeedAuth -----

  /** A claimed cost is accepted exactly when it is nothing, or the buyer can verify it
      and finds it within tolerance; then it is the cost. */
  lemma {:induction false} BillingIsAccepted(cfg: Config, total: nat, tokens: nat, verdict: Option<Option<nat>>, exact: bool, most: nat)
    requires verdict.Some? && verdict.value.Some? ==> Tolerates(cfg, tokens + verdict.value.value, exact, most)
    ensures var judged := JudgedCost(cfg, BillingUsage(total, tokens, verdict, exact));
      && (judged.Some? ==> judged.value == total)
      && (judged.Some? <==>
            if total == 0 then verdict != Some(None)
            else verdict.Some? && verdict.value.Some? && tokens + verdict.value.value > 0 && total <= most)
  {
  }

  lemma {:induction false} CostIsAccepted(cfg: Config, cost: nat, estimate: Option<nat>, unitModel: bool, unitProtocol: bool)
    ensures var judged := JudgedCost(cfg, LastCost(cost, estimate, unitModel, unitProtocol));
      && (judged.Some? ==> judged.value == cost)
      && (judged.Some? <==>
            || cost == 0
            || (!(unitModel && unitProtocol)
                && (estimate.Some? && estimate.value == 0 ==> !unitProtocol)
                && (estimate.Some? && estimate.value > 0 ==> cost <= cfg.tolerated(estimate.value))))
    ensures JudgedCost(cfg, NoClaim) == Some(0)
  {
  }

  // ----- a catch-up and a NeedAuth -----

  /** A catch-up signs the budget asked for or up to the target, whichever is more, as
      far as the ceiling and one window per request in flight allow. The windows start
      at the verified cost, or at what is signed once nothing more could be signed. */
  lemma {:induction false} CatchUpSigns(cfg: Config, c: Channel, e: Event, due: nat, windows: nat)
    requires e.Extend?
    requires due >= e.minBudget && (e.target.Some? ==> c.mem.cumulative + due >= e.target.value)
    requires due == e.minBudget || (e.target.Some? && c.mem.cumulative + due == e.target.value)
    requires windows == if e.target.Some? && e.inFlight > 1 then e.inFlight else 1
    ensures var m, z, ceiling := c.mem, Next(cfg, c, Complete(e)), c.mem.ceiling.GetOr(cfg.maxReserve);
      var signed := z.mem.cumulative - m.cumulative;
      var reopened := m.verified < m.cumulative && (m.verified + cfg.maxPerRequest <= m.cumulative || ceiling <= m.cumulative);
      var verified := if reopened then m.cumulative else m.verified;
      && Fills(m.cumulative, signed, due, verified + cfg.maxPerRequest * windows, ceiling)
      && z.mem.verified == (if signed > 0 then verified else m.verified)
      && z.reports == c.reports + (if signed > 0 then [signed] else [])
      && ToppedUp(cfg, c, z, signed, ceiling,
                  m.cumulative + due > ceiling && verified + cfg.maxPerRequest * windows >= ceiling
                  && (e.deposit.Some? ==> e.deposit.value >= cfg.maxReserve))
  {
    CatchUpDecides(cfg, c.mem, e, due, windows);
    DecisionOutcome(cfg, c, e, e.deposit);
  }

  /** The decision behind it. */
  lemma {:induction false} CatchUpDecides(cfg: Config, m: Memory, e: Event, due: nat, windows: nat)
    requires e.Extend?
    requires due >= e.minBudget && (e.target.Some? ==> m.cumulative + due >= e.target.value)
    requires due == e.minBudget || (e.target.Some? && m.cumulative + due == e.target.value)
    requires windows == if e.target.Some? && e.inFlight > 1 then e.inFlight else 1
    ensures var d, ceiling := Decide(cfg, m, e), m.ceiling.GetOr(cfg.maxReserve);
      var signed := if d.Authorize? then d.next - m.cumulative else 0;
      var reopened := m.verified < m.cumulative && (m.verified + cfg.maxPerRequest <= m.cumulative || ceiling <= m.cumulative);
      var verified := if reopened then m.cumulative else m.verified;
      && Fills(m.cumulative, signed, due, verified + cfg.maxPerRequest * windows, ceiling)
      && (d.Authorize? ==> d.verified == verified)
      && (d.OnlyTopUp? || (d.Authorize? && d.topUp) <==>
            m.cumulative + due > ceiling && verified + cfg.maxPerRequest * windows >= ceiling)
  {
    OnceTimes(cfg.maxPerRequest);
  }

  lemma {:induction false} OnceTimes(n: nat)
    ensures n * 1 == n
  {
  }

  /** A top-up raises the ceiling by the configured reserve, which the row records as
      pending over the ceiling before; without one the reserve stays. */
  ghost predicate ToppedUp(cfg: Config, c: Channel, z: Channel, signed: int, ceiling: nat, topUp: bool) {
    && z.mem.initialReserve == c.mem.initialReserve
    && (topUp ==>
          && z.mem.ceiling == Some(ceiling + cfg.maxReserve)
          && z.mem.pending == Some(Pending(ceiling + cfg.maxReserve, ceiling))
          && z.sent == c.sent + (if signed > 0 then [z.mem.cumulative, z.mem.cumulative] else [z.mem.cumulative])
          && (cfg.keepsRecovery ==>
                && z.row.reserveMax == Some(ceiling + cfg.maxReserve) && z.row.reservePending == Some(true)
                && z.row.confirmed == Some(ceiling) && z.row.initialReserve == Some(c.row.initialReserve.GetOr(ceiling))))
    && (!topUp ==>
          && z.mem.ceiling == c.mem.ceiling && z.mem.pending == c.mem.pending
          && z.sent == c.sent + (if signed > 0 then [z.mem.cumulative] else []))
  }

  /** What the phases of a decision add up to. */
  lemma {:induction false} DecisionOutcome(cfg: Config, c: Channel, e: Event, deposit: Option<nat>)
    requires (e.Extend? && deposit == e.deposit) || (e.NeedAuth? && deposit == e.deposit)
    ensures var d, z := Decide(cfg, c.mem, e), Next(cfg, c, Complete(e));
      var signed := if d.Authorize? then d.next - c.mem.cumulative else 0;
      var m := if d.Authorize? then c.mem.(cumulative := d.next, verified := d.verified, meta := d.meta) else c.mem;
      && (d.Authorize? ==> signed > 0)
      && z.mem == m.(ceiling := z.mem.ceiling, pending := z.mem.pending)
      && z.reports == c.reports + (if d.Authorize? then [signed] else [])
      && ToppedUp(cfg, c, z, signed, Ceiling(cfg, c.mem),
                  TopUpFollows(cfg, m, e, d) && (deposit.Some? ==> deposit.value >= cfg.maxReserve))
  {
    var d := Decide(cfg, c.mem, e);
    if d.Authorize? {
      var p := AuthorizePhase(cfg, c, d);
      var c1 := At(c, p, PHASE_LENGTH);
      var rest := if TopUpFollows(cfg, c1.mem, e, d) then TopUpPhases(cfg, c1, deposit) else [];
      assert Phases(cfg, c, e) == [p] + rest && ([p] + rest)[1..] == rest;
      TopUpOutcome(cfg, c1, deposit);
      assert Perform(c, [p] + rest, PHASE_LENGTH * |[p] + rest|) == Perform(c1, rest, PHASE_LENGTH * |rest|);
    } else if d.OnlyTopUp? {
      TopUpOutcome(cfg, c, deposit);
    }
  }

  lemma {:induction false} TopUpOutcome(cfg: Config, c: Channel, deposit: Option<nat>)
    ensures var phases := TopUpPhases(cfg, c, deposit);
      var z := Perform(c, phases, PHASE_LENGTH * |phases|);
      && ToppedUp(cfg, c, z, 0, Ceiling(cfg, c.mem), deposit.Some? ==> deposit.value >= cfg.maxReserve)
      && z.mem == c.mem.(ceiling := z.mem.ceiling, pending := z.mem.pending)
      && z.reports == c.reports && z.row.authMax == c.row.authMax
  {
    var phases := TopUpPhases(cfg, c, deposit);
    if phases != [] {
      assert phases == [phases[0]];
      assert Perform(c, phases, PHASE_LENGTH) == Perform(At(c, phases[0], PHASE_LENGTH), [], 0);
    }
  }

  /** The decision behind it. */
  lemma {:induction false} NeedAuthDecides(cfg: Config, m: Memory, e: Event, cost: nat)
    requires e.NeedAuth? && m.cumulative < e.required && JudgedCost(cfg, e.claim) == Some(cost)
    ensures var d, ceiling, window := Decide(cfg, m, e), m.ceiling.GetOr(cfg.maxReserve), m.verified + cost + cfg.maxPerRequest;
      var signed := if d.Authorize? then d.next - m.cumulative else 0;
      var verified := if m.verified + cost < m.cumulative && window <= m.cumulative && window < ceiling then m.cumulative
                      else m.verified + cost;
      && Fills(m.cumulative, signed, e.required - m.cumulative, verified + cfg.maxPerRequest, ceiling)
      && (d.Authorize? ==> d.verified == verified)
      && (d.OnlyTopUp? || (d.Authorize? && d.topUp) <==> e.required > ceiling && verified + cfg.maxPerRequest >= ceiling)
  {
  }

  lemma {:induction false} NearlyUsedIff(cfg: Config, m: Memory)
    ensures NeedsTopUp(cfg, m) <==> NearlyUsed(cfg, m, Ceiling(cfg, m), m.cumulative)
  {
  }

  /** A NeedAuth for more than is signed, whose claim is accepted at `cost`, signs what is
      asked, as far as the ceiling and one window behind the verified cost allow. The
      window starts at what is signed if that is past it, unless a top-up is due. Then
      the reserve is topped up if the ceiling stops it, or is nearly used up. */
  lemma {:induction false} NeedAuthPays(cfg: Config, c: Channel, e: Event, cost: nat)
    requires e.NeedAuth? && c.mem.cumulative < e.required && JudgedCost(cfg, e.claim) == Some(cost)
    ensures var m, z, ceiling := c.mem, Next(cfg, c, Complete(e)), c.mem.ceiling.GetOr(cfg.maxReserve);
      var signed, window := z.mem.cumulative - m.cumulative, m.verified + cost + cfg.maxPerRequest;
      var reopened := m.verified + cost < m.cumulative && window <= m.cumulative && window < ceiling;
      var verified := if reopened then m.cumulative else m.verified + cost;
      && Fills(m.cumulative, signed, e.required - m.cumulative, verified + cfg.maxPerRequest, ceiling)
      && z.mem.verified == (if signed > 0 then verified else m.verified)
      && z.reports == c.reports + (if signed > 0 then [signed] else [])
      && ToppedUp(cfg, c, z, signed, ceiling,
                  && ((e.required > ceiling && verified + cfg.maxPerRequest >= ceiling)
                      || (signed > 0 && NearlyUsed(cfg, m, ceiling, m.cumulative + signed)))
                  && (e.deposit.Some? ==> e.deposit.value >= cfg.maxReserve))
  {
    NeedAuthDecides(cfg, c.mem, e, cost);
    DecisionOutcome(cfg, c, e, e.deposit);
    var d := Decide(cfg, c.mem, e);
    if d.Authorize? {
      NearlyUsedIff(cfg, c.mem.(cumulative := d.next, verified := d.verified, meta := d.meta));
    }
  }

  /** What is left under the ceiling: at most 35 percent of the first reserve while the
      ceiling is not above it, later at most half a dollar. */
  ghost predicate NearlyUsed(cfg: Config, m: Memory, ceiling: nat, signed: nat) {
    var first := m.initialReserve.GetOr(cfg.maxReserve);
    if ceiling <= first then 100 * (ceiling - signed) <= 35 * first else ceiling - signed <= 500_000
  }

  /** Otherwise a NeedAuth changes nothing. */
  lemma {:induction false} NeedAuthRefuses(cfg: Config, c: Channel, e: Event)
    requires e.NeedAuth? && (e.required <= c.mem.cumulative || JudgedCost(cfg, e.claim).None?)
    ensures Next(cfg, c, Complete(e)) == c
  {
  }

  // ----- the reserve -----

  lemma {:induction false} OnePhase(cfg: Config, c: Channel, e: Event)
    requires |Phases(cfg, c, e)| <= 1
    ensures Next(cfg, c, Complete(e)) == if Phases(cfg, c, e) == [] then c else At(c, Phases(cfg, c, e)[0], PHASE_LENGTH)
  {
    var phases := Phases(cfg, c, e);
    if phases != [] {
      assert phases == [phases[0]];
      assert Perform(c, phases, PHASE_LENGTH) == Perform(At(c, phases[0], PHASE_LENGTH), [], 0);
    }
  }

  /** A top-up of its own accord, unless the deposits do not cover it. */
  lemma {:induction false} TopUpRaises(cfg: Config, c: Channel, deposit: Option<nat>)
    ensures var z := Next(cfg, c, Complete(TopUp(deposit)));
      && ToppedUp(cfg, c, z, 0, c.mem.ceiling.GetOr(cfg.maxReserve), deposit.Some? ==> deposit.value >= cfg.maxReserve)
      && z.mem == c.mem.(ceiling := z.mem.ceiling, pending := z.mem.pending)
      && z.reports == c.reports && z.row.authMax == c.row.authMax
  {
    TopUpOutcome(cfg, c, deposit);
  }

  /** The confirmed ceiling is what the chain shows, and a pending reserve stays pending
      exactly while the chain shows less. */
  lemma {:induction false} ReconcileConfirms(cfg: Config, c: Channel, onChain: nat)
    ensures var z := Next(cfg, c, Complete(Reconcile(onChain)));
      var pending := if c.mem.pending.Some? && onChain < c.mem.pending.value.maxAmount then c.mem.pending else None;
      && z.mem == c.mem.(ceiling := Some(onChain), pending := pending)
      && z.sent == c.sent && z.reports == c.reports && z.row.authMax == c.row.authMax
      && (cfg.keepsRecovery ==> z.row.confirmed == Some(onChain) && z.row.reservePending == Some(pending.Some?))
  {
    OnePhase(cfg, c, Reconcile(onChain));
  }

  /** An acknowledgement confirms an opening reserve, and no top-up. */
  lemma {:induction false} AckConfirms(cfg: Config, c: Channel)
    ensures var z := Next(cfg, c, Complete(AuthAck));
      if c.mem.pending.Some? && c.mem.pending.value.confirmedAmount == 0 then
        && z.mem == c.mem.(ceiling := Some(c.mem.pending.value.maxAmount), pending := None)
        && z.sent == c.sent && z.reports == c.reports && z.row.authMax == c.row.authMax
        && (cfg.keepsRecovery ==> z.row.confirmed == z.mem.ceiling && z.row.reservePending == Some(false))
      else z == c
  {
    OnePhase(cfg, c, AuthAck);
  }

  /** Replaying the opening reserve, capped by the configuration. */
  lemma {:induction false} ReplayReserves(cfg: Config, c: Channel)
    ensures var z := Next(cfg, c, Complete(ResendReserve));
      var first := c.mem.initialReserve.GetOr(c.mem.ceiling.GetOr(cfg.maxReserve));
      var amount := if first <= cfg.maxReserve then first else cfg.maxReserve;
      && z.mem == c.mem.(ceiling := Some(amount), pending := Some(Pending(amount, 0)))
      && z.sent == c.sent + [c.row.authMax] && z.reports == c.reports && z.row.authMax == c.row.authMax
  {
    OnePhase(cfg, c, ResendReserve);
  }

  /** Replaying a pending reserve, if there is one. */
  lemma {:induction false} PendingIsReplayed(cfg: Config, c: Channel)
    ensures var z := Next(cfg, c, Complete(ResendPending));
      if c.mem.pending.Some? then
        && z.mem == c.mem.(ceiling := Some(c.mem.pending.value.maxAmount))
        && z.sent == c.sent + [c.row.authMax] && z.reports == c.reports && z.row.authMax == c.row.authMax
      else z == c
  {
    OnePhase(cfg, c, ResendPending);
  }

  /** A close request carries the signed amount, or its cap, if it carries any. */
  lemma {:induction false} CloseCarries(cfg: Config, c: Channel, includeAuth: bool, maxCumulative: Option<nat>)
    ensures var z := Next(cfg, c, Complete(Close(includeAuth, maxCumulative)));
      var amount := if maxCumulative.Some? && maxCumulative.value < c.mem.cumulative then maxCumulative.value else c.mem.cumulative;
      && z.mem == c.mem && z.reports == c.reports && z.row.authMax == c.row.authMax
      && z.sent == c.sent + (if includeAuth && amount > 0 then [amount] else [])
  {
    OnePhase(cfg, c, Close(includeAuth, maxCumulative));
  }

  /** Signing the current amount again, and the two ways of recording a response. */
  lemma {:induction false} OthersKeepAmounts(cfg: Config, c: Channel, cost: nat, input: nat, output: nat)
    ensures var z := Next(cfg, c, Complete(Resend));
      z.mem == c.mem && z.reports == c.reports && z.row.authMax == c.row.authMax && z.sent == c.sent + [c.mem.cumulative]
    ensures Next(cfg, c, Complete(RecordResponse(cost))) == c.(mem := c.mem.(verified := c.mem.verified + cost))
    ensures var z := Next(cfg, c, Complete(RecordTokens(input, output)));
      var t := c.mem.totals.GetOr(Totals(c.row.meta.inputTokens, c.row.meta.outputTokens, c.row.meta.requests));
      && z.mem == c.mem.(totals := Some(Totals(t.input + input, t.output + output, t.requests + 1)))
      && z.row.meta == c.row.meta.(inputTokens := t.input + input, outputTokens := t.output + output, requests := t.requests + 1)
      && z.sent == c.sent && z.reports == c.reports && z.row.authMax == c.row.authMax
  {
    OnePhase(cfg, c, Resend);
    OnePhase(cfg, c, RecordResponse(cost));
    OnePhase(cfg, c, RecordTokens(input, output));
  }

  // ----- restarts -----

  /** A restart takes the stored amount for signed and for verified, and what the store
      keeps of the reserve: while a reserve is pending, the ceiling is what was confirmed
      before; else it is the reserve of the row. Without recovery fields the configured
      reserve is the ceiling again. */
  lemma {:induction false} RestartKnows(cfg: Config, row: Row)
    ensures var m, pending := FromStore(row).mem, row.reservePending == Some(true) && row.reserveMax.Some?;
      && m.cumulative == m.verified == row.authMax
      && m.initialReserve == row.initialReserve
      && m.totals == Some(Totals(row.meta.inputTokens, row.meta.outputTokens, row.meta.requests))
      && m.meta == row.meta
      && (row.confirmed.Some? ==> m.ceiling == row.confirmed)
      && (row.confirmed.None? && row.reserveMax.Some? && row.reservePending != Some(true) ==> m.ceiling == row.reserveMax)
      && (row.confirmed.None? && row.reservePending == Some(true) ==> m.ceiling == Some(0))
      && (row.confirmed.None? && row.reservePending == Some(false) && row.reserveMax.None? ==> m.ceiling == Some(0))
      && (row.confirmed.None? && row.reservePending.None? && row.reserveMax.None? ==> m.ceiling == None)
      && (m.pending == if pending then Some(Pending(row.reserveMax.value, m.ceiling.GetOr(0))) else None)
  {
  }

  /** What a store that keeps recovery fields gives back after an opening, a top-up and a
      confirmation. */
  lemma {:induction false} RestartAfter(cfg: Config, c: Channel, reserve: nat, totals: Option<Totals>, onChain: nat)
    requires cfg.keepsRecovery
    ensures var m := Hydrate(OpenedWith(cfg, reserve, totals)).mem;
      && m.cumulative == m.verified == 0 && m.meta == ZERO_METADATA
      && m.ceiling == Some(0) && m.pending == Some(Pending(reserve, 0)) && m.initialReserve == Some(reserve)
    ensures Hydrate(Next(cfg, c, Complete(Reconcile(onChain)))).mem.ceiling == Some(onChain)
    ensures var m, ceiling := Hydrate(Next(cfg, c, Complete(TopUp(None)))).mem, c.mem.ceiling.GetOr(cfg.maxReserve);
      m.ceiling == Some(ceiling) && m.pending == Some(Pending(ceiling + cfg.maxReserve, ceiling))
  {
    ReconcileConfirms(cfg, c, onChain);
    TopUpRaises(cfg, c, None);
  }

  /** An opened channel has signed nothing, sent that, and may sign up to its reserve. */
  lemma {:induction false} OpeningIs(cfg: Config, reserve: nat, totals: Option<Totals>)
    ensures var c := OpenedWith(cfg, reserve, totals);
      && c.mem == Memory(0, 0, Some(reserve), Some(reserve), Some(Pending(reserve, 0)), ZERO_METADATA, totals)
      && c.sent == [0] && c.reports == [] && c.row.authMax == 0 && c.row.meta == ZERO_METADATA
  {
  }

  /** An opening whose commit fails has reset what is known of the channel, and nothing else. */
  lemma {:induction false} FailedOpeningIs(c: Channel, reserve: nat)
    ensures var z := OpeningFailed(c, reserve);
      && z.mem == Memory(0, 0, Some(0), Some(reserve), Some(Pending(reserve, 0)), ZERO_METADATA, c.mem.totals)
      && z.row == c.row && z.sent == c.sent && z.reports == c.reports
  {
  }

  /** The default tolerance is seven fifths of the estimate, rounded up. */
  lemma {:induction false} ToleranceIs(estimate: nat)
    ensures var most := DEFAULT_COST_TOLERANCE(estimate);
      7 * estimate <= 5 * most && (most > 0 ==> 5 * (most - 1) < 7 * estimate)
  {
  }

  /** A decision reopens the window exactly when it verifies something else than what
      was verified before and what it accepts; paying for a response never does. */
  lemma {:induction false} ReopensIff(cfg: Config, m: Memory, e: Event)
    requires Decide(cfg, m, e).Authorize?
    ensures var d := Decide(cfg, m, e);
      d.reopened <==> !e.Sign? && d.verified != m.verified + d.delta
    ensures e.Sign? ==> Decide(cfg, m, e).verified == m.verified + Decide(cfg, m, e).delta
  {
  }

  /** A phase has six effects, one after the other: adopt, commit, adopt, report,
      transmit, adopt. Each changes one thing only. */
  lemma {:induction false} OneEffectAtATime(c: Channel, p: Phase, k: nat)
    requires 0 < k <= PHASE_LENGTH
    ensures PHASE_LENGTH == 6
    ensures var x, z := At(c, p, k - 1), At(c, p, k);
      && (k in {1, 3, 6} ==> z == x.(mem := if k == 1 then p.before else if k == 3 then p.after else p.final))
      && (k == 2 ==> z == x.(row := p.row))
      && (k == 4 ==> z == x.(reports := if p.report.Some? then x.reports + [p.report.value] else x.reports))
      && (k == 5 ==> z == x.(sent := if p.send.Some? then x.sent + [p.send.value] else x.sent))
    ensures At(c, p, 0) == c
  {
  }

  /** Phases that all complete leave the memory and the row of the last one. */
  lemma {:induction false} LastPhase(c: Channel, phases: seq<Phase>)
    requires 0 < |phases| <= 2
    ensures var z, last := Perform(c, phases, PHASE_LENGTH * |phases|), phases[|phases| - 1];
      z.mem == last.final && z.row == last.row
  {
    if |phases| == 2 {
      var rest := phases[1..];
      assert rest == [phases[1]];
      assert Perform(At(c, phases[0], PHASE_LENGTH), rest, PHASE_LENGTH) == At(At(c, phases[0], PHASE_LENGTH), phases[1], PHASE_LENGTH);
    }
  }

  /** Whatever a handler commits, the row then has the metadata that was signed last;
      a close authorization below the signed amount commits nothing. */
  lemma {:induction false} RowHasMetadata(cfg: Config, c: Channel, e: Event)
    requires !e.RecordTokens? && !e.RecordResponse?
    ensures var z := Next(cfg, c, Complete(e));
      && (z.row == c.row || z.row.meta == z.mem.meta)
      && (e.Sign? || e.Resend? || e.Reconcile? || e.ResendReserve? ==> z.row.meta == z.mem.meta)
      && (e.Close? ==>
            if e.includeAuth && c.mem.cumulative > 0 && !(e.maxCumulative.Some? && e.maxCumulative.value < c.mem.cumulative)
            then z.row.meta == z.mem.meta else z.row == c.row)
  {
    var phases := Phases(cfg, c, e);
    if phases != [] {
      LastPhase(c, phases);
    }
    if e.Sign? {
      SignedOnce(cfg, c, e);
    }
  }
}
