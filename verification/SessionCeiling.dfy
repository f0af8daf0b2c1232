/**
 The reserve ceiling across restarts. A restart should never trust a larger
 reserve than the process did before it died. That is true except in two narrow
 windows, characterised exactly here.
 */
module SessionCeiling {
  import opened Wrappers
  import opened UsageAccounting
  import opened SessionChannel

  /** The reserve fields of memory and row describe the same pending ReserveAuth. */
  ghost predicate ReserveConsistent(c: Channel) {
    && RowConsistent(c.row)
    && (c.mem.pending.Some? ==>
          && c.mem.pending.value.confirmedAmount <= c.mem.pending.value.maxAmount
          && c.row.reservePending == Some(true)
          && c.row.reserveMax == Some(c.mem.pending.value.maxAmount))
  }

  ghost predicate RowConsistent(row: Row) {
    row.reservePending == Some(true) && row.reserveMax.Some? ==> ConfirmedReserve(row) <= row.reserveMax.value
  }

  /** A restart now would not raise the ceiling. */
  ghost predicate RestartIsConservative(cfg: Config, c: Channel) {
    HydratedCeiling(cfg, c.row) <= Ceiling(cfg, c.mem)
  }

  /** The two unsafe windows: an on-chain read that lowered the ceiling in memory
      but is not committed yet, and a replayed ReserveAuth committed with a
      confirmed amount recorded before such a lowering. */
  predicate Exposed(cfg: Config, c: Channel, e: Event, k: nat) {
    || (e.Reconcile? && k == 1 && HydratedCeiling(cfg, c.row) > e.onChain)
    || (e.ResendPending? && c.mem.pending.Some? && 2 <= k < PHASE_LENGTH
        && c.mem.pending.value.confirmedAmount > Ceiling(cfg, c.mem))
  }

  lemma {:induction false} ReservePhaseCeiling(cfg: Config, c: Channel, pending: Pending, initial: Option<nat>, cumulative: nat, k: nat)
    requires cfg.keepsRecovery && ReserveConsistent(c)
    requires pending.confirmedAmount <= pending.maxAmount
    ensures var z := At(c, ReservePhase(cfg, c, pending, initial, cumulative), k);
      && RowConsistent(z.row)
      && (FailurePoint(k) || k >= PHASE_LENGTH ==> ReserveConsistent(z))
      && (k >= PHASE_LENGTH ==> RestartIsConservative(cfg, z))
      && (2 <= k < PHASE_LENGTH ==>
            (RestartIsConservative(cfg, z) <==> pending.confirmedAmount <= Ceiling(cfg, c.mem)))
      && (k < 2 ==> (RestartIsConservative(cfg, z) <==> RestartIsConservative(cfg, c)))
  {
  }

  lemma {:induction false} ConfirmPhaseCeiling(cfg: Config, c: Channel, ceiling: nat, pending: Option<Pending>, k: nat)
    requires cfg.keepsRecovery && ReserveConsistent(c)
    requires pending.Some? ==> pending == c.mem.pending && ceiling < pending.value.maxAmount
    ensures var z := At(c, ConfirmPhase(cfg, c, ceiling, pending), k);
      && RowConsistent(z.row)
      && (FailurePoint(k) || k >= PHASE_LENGTH ==> ReserveConsistent(z))
      && (k >= 2 ==> RestartIsConservative(cfg, z))
      && (k == 1 ==> (RestartIsConservative(cfg, z) <==> HydratedCeiling(cfg, c.row) <= ceiling))
      && (k == 0 ==> z == c)
  {
  }

  lemma {:induction false} TopUpPhasesCeiling(cfg: Config, c: Channel, deposit: Option<nat>, k: nat)
    requires cfg.keepsRecovery && ReserveConsistent(c) && RestartIsConservative(cfg, c)
    ensures var phases := TopUpPhases(cfg, c, deposit);
      StaysConservative(cfg, Perform(c, phases, k), k, |phases|)
  {
    var phases := TopUpPhases(cfg, c, deposit);
    if phases != [] {
      var previous := Ceiling(cfg, c.mem);
      var pending := Pending(previous + cfg.maxReserve, previous);
      var k1 := if k < PHASE_LENGTH then k else PHASE_LENGTH;
      ReservePhaseCeiling(cfg, c, pending, Some(c.row.initialReserve.GetOr(previous)), c.mem.cumulative, k1);
      assert phases == [phases[0]];
      assert Perform(c, phases, k) == At(c, phases[0], k1);
    }
  }

  /** An authorization leaves the reserve fields alone... */
  lemma {:induction false} AuthorizePhaseCeiling(cfg: Config, c: Channel, d: Decision, k: nat)
    requires cfg.keepsRecovery && d.Authorize? && c.mem.cumulative <= d.next
    requires ReserveConsistent(c) && RestartIsConservative(cfg, c)
    ensures var z := At(c, AuthorizePhase(cfg, c, d), k);
      ReserveConsistent(z) && RestartIsConservative(cfg, z)
  {
  }

  lemma {:induction false} AfterFirstPhase(c: Channel, phases: seq<Phase>, k: nat)
    requires phases != []
    ensures k < PHASE_LENGTH ==> Perform(c, phases, k) == (if k == 0 then c else At(c, phases[0], k))
    ensures k >= PHASE_LENGTH ==>
              && Perform(c, phases, k) == Perform(At(c, phases[0], PHASE_LENGTH), phases[1..], k - PHASE_LENGTH)
              && (FailurePoint(k) <==> FailurePoint(k - PHASE_LENGTH))
              && (k == PHASE_LENGTH * |phases| <==> k - PHASE_LENGTH == PHASE_LENGTH * |phases[1..]|)
  {
  }

  /** Conservative after k effects of n phases, and consistent at rest. */
  ghost predicate StaysConservative(cfg: Config, z: Channel, k: nat, n: nat) {
    && RowConsistent(z.row) && RestartIsConservative(cfg, z)
    && (FailurePoint(k) || k == PHASE_LENGTH * n ==> ReserveConsistent(z))
  }

  /** ... so only the top-up that may follow it moves the ceiling. */
  lemma {:induction false} DecisionPhasesCeiling(cfg: Config, c: Channel, e: Event, d: Decision, deposit: Option<nat>, k: nat)
    requires cfg.keepsRecovery
    requires d.Authorize? ==> c.mem.cumulative <= d.next
    requires ReserveConsistent(c) && RestartIsConservative(cfg, c)
    ensures var phases := DecisionPhases(cfg, c, e, d, deposit);
      StaysConservative(cfg, Perform(c, phases, k), k, |phases|)
  {
    if d.Authorize? {
      AuthorizePhaseCeiling(cfg, c, d, PHASE_LENGTH);
      AuthorizedCeiling(cfg, c, d, deposit, TopUpFollows(cfg, At(c, AuthorizePhase(cfg, c, d), PHASE_LENGTH).mem, e, d), k);
    } else if d.OnlyTopUp? {
      TopUpPhasesCeiling(cfg, c, deposit, k);
    }
  }

  lemma {:induction false} AuthorizedCeiling(cfg: Config, c: Channel, d: Decision, deposit: Option<nat>, topUp: bool, k: nat)
    requires cfg.keepsRecovery && d.Authorize? && c.mem.cumulative <= d.next
    requires ReserveConsistent(c) && RestartIsConservative(cfg, c)
    ensures var p := AuthorizePhase(cfg, c, d);
      var phases := [p] + if topUp then TopUpPhases(cfg, At(c, p, PHASE_LENGTH), deposit) else [];
      StaysConservative(cfg, Perform(c, phases, k), k, |phases|)
  {
    var p := AuthorizePhase(cfg, c, d);
    AuthorizePhaseCeiling(cfg, c, d, k);
    AuthorizePhaseCeiling(cfg, c, d, PHASE_LENGTH);
    var c1 := At(c, p, PHASE_LENGTH);
    var rest := if topUp then TopUpPhases(cfg, c1, deposit) else [];
    assert ([p] + rest)[1..] == rest;
    AfterFirstPhase(c, [p] + rest, k);
    if k >= PHASE_LENGTH && topUp {
      TopUpPhasesCeiling(cfg, c1, deposit, k - PHASE_LENGTH);
    }
  }

  /** The same for the events that run as a single phase. */
  lemma {:induction false} OnePhaseCeiling(cfg: Config, c: Channel, e: Event, k: nat)
    requires cfg.keepsRecovery
    requires !e.Extend? && !e.Sign? && !e.NeedAuth? && !e.TopUp?
    requires ReserveConsistent(c) && RestartIsConservative(cfg, c)
    requires k <= PHASE_LENGTH && Phases(cfg, c, e) != []
    ensures var z := At(c, Phases(cfg, c, e)[0], k);
      && RowConsistent(z.row)
      && (RestartIsConservative(cfg, z) <==> !Exposed(cfg, c, e, k))
      && (FailurePoint(k) || k == PHASE_LENGTH ==> ReserveConsistent(z))
  {
    match e
    case Reconcile(onChain) =>
      var applied := c.mem.pending.Some? && onChain >= c.mem.pending.value.maxAmount;
      ConfirmPhaseCeiling(cfg, c, onChain, if applied then None else c.mem.pending, k);
    case AuthAck =>
      ConfirmPhaseCeiling(cfg, c, c.mem.pending.value.maxAmount, None, k);
    case ResendReserve =>
      var amount := Min(c.mem.initialReserve.GetOr(Ceiling(cfg, c.mem)), cfg.maxReserve);
      ReservePhaseCeiling(cfg, c, Pending(amount, 0), Some(amount), c.row.authMax, k);
    case ResendPending =>
      ReservePhaseCeiling(cfg, c, c.mem.pending.value, c.row.initialReserve, c.row.authMax, k);
    case Resend =>
    case Close(_, _) =>
    case RecordResponse(_) =>
    case RecordTokens(_, _) =>
  }

  /** After any number of effects of any handler, a restart is conservative
      exactly outside the two windows. */
  lemma {:induction false} ConservativeIffNotExposed(cfg: Config, c: Channel, e: Event, k: nat)
    requires cfg.keepsRecovery
    requires ReserveConsistent(c) && RestartIsConservative(cfg, c)
    ensures var phases := Phases(cfg, c, e);
      var z := Perform(c, phases, k);
      && RowConsistent(z.row)
      && (RestartIsConservative(cfg, z) <==> !Exposed(cfg, c, e, k))
      && (FailurePoint(k) || k == PHASE_LENGTH * |phases| ==> ReserveConsistent(z))
  {
    if e.TopUp? {
      TopUpPhasesCeiling(cfg, c, e.deposit, k);
    } else if e.Extend? || e.Sign? || e.NeedAuth? {
      DecisionPhasesCeiling(cfg, c, e, Decide(cfg, c.mem, e), if e.Sign? then None else e.deposit, k);
    } else {
      OnePhase(cfg, c, e, k);
      if Phases(cfg, c, e) != [] {
        OnePhaseCeiling(cfg, c, e, if k < PHASE_LENGTH then k else PHASE_LENGTH);
      }
    }
  }

  lemma {:induction false} OnePhase(cfg: Config, c: Channel, e: Event, k: nat)
    requires !e.Extend? && !e.Sign? && !e.NeedAuth? && !e.TopUp?
    ensures var phases := Phases(cfg, c, e);
      && |phases| <= 1
      && Perform(c, phases, k) == (if phases == [] then c else At(c, phases[0], if k < PHASE_LENGTH then k else PHASE_LENGTH))
  {
  }

  /** No handler of the run stopped inside an unsafe window while keeping its memory. */
  ghost predicate Unexposed(cfg: Config, c: Channel, steps: seq<Step>)
    decreases |steps|
  {
    steps != [] ==>
      && (steps[0].Fail? ==> !Exposed(cfg, c, steps[0].e, steps[0].k))
      && Unexposed(cfg, Next(cfg, c, steps[0]), steps[1..])
  }

  /** Over every run, with crashes anywhere, the ceiling a restart would adopt is
      at most the ceiling in memory. */
  lemma {:induction false} RunStaysConservative(cfg: Config, c: Channel, steps: seq<Step>)
    requires cfg.keepsRecovery && AllEnabled(steps)
    requires ReserveConsistent(c) && RestartIsConservative(cfg, c)
    requires Unexposed(cfg, c, steps)
    ensures ReserveConsistent(Run(cfg, c, steps))
    ensures RestartIsConservative(cfg, Run(cfg, c, steps))
    decreases |steps|
  {
    if steps != [] {
      var s := steps[0];
      ConservativeIffNotExposed(cfg, c, s.e, Effects(cfg, c, s));
      var c1 := Next(cfg, c, s);
      if s.Complete? {
        assert !Exposed(cfg, c, s.e, Effects(cfg, c, s));
      }
      RunStaysConservative(cfg, c1, steps[1..]);
    }
  }

  lemma {:induction false} StartsConservative(cfg: Config, row: Row, reserve: nat, totals: Option<Totals>)
    requires cfg.keepsRecovery && RowConsistent(row)
    ensures ReserveConsistent(FromStore(row)) && RestartIsConservative(cfg, FromStore(row))
    ensures ReserveConsistent(OpenedWith(cfg, reserve, totals)) && RestartIsConservative(cfg, OpenedWith(cfg, reserve, totals))
  {
  }

  /** The crash-safety of the ceiling, from a consistent stored row, a fresh
      channel or any other state in which it holds. */
  lemma {:induction false} RestartNeverRaisesCeiling(cfg: Config, start: Channel, steps: seq<Step>, e: Event, k: nat)
    requires cfg.keepsRecovery && AllEnabled(steps)
    requires ReserveConsistent(start) && RestartIsConservative(cfg, start) && Unexposed(cfg, start, steps)
    ensures var c := Run(cfg, start, steps);
      var stopped := Perform(c, Phases(cfg, c, e), k);
      Ceiling(cfg, Hydrate(stopped).mem) <= Ceiling(cfg, stopped.mem) <==> !Exposed(cfg, c, e, k)
  {
    RunStaysConservative(cfg, start, steps);
    ConservativeIffNotExposed(cfg, Run(cfg, start, steps), e, k);
  }

  /** The first window is reachable: confirm the opening reserve of 10, learn that
      only 4 are on-chain and die before committing that. The restart believes 10. */
  lemma {:induction false} UncommittedReconcileExample()
    ensures
      var cfg := Config(5, 10, CeilTimes(7, 5), true);
      var c := Run(cfg, Opened(cfg, 10), [Complete(AuthAck)]);
      var stopped := Perform(c, Phases(cfg, c, Reconcile(4)), 1);
      Ceiling(cfg, stopped.mem) == 4 && Ceiling(cfg, Hydrate(stopped).mem) == 10
  {
    var cfg := Config(5, 10, CeilTimes(7, 5), true);
    var c0, s := Opened(cfg, 10), Complete(AuthAck);
    OnePhase(cfg, c0, AuthAck, 6);
    var c1 := Next(cfg, c0, s);
    assert [s][1..] == [];
    assert Run(cfg, c0, [s]) == Run(cfg, c1, [s][1..]) == c1;
  }

  /** The second window is reachable: open, top up before the opening reserve is
      confirmed, learn that nothing is on-chain, replay the pending top-up and
      die after its commit. The restart believes in a reserve of 10. */
  lemma {:induction false} StalePendingExample()
    ensures
      var cfg := Config(5, 10, CeilTimes(7, 5), true);
      var c := Run(cfg, Opened(cfg, 10), [Complete(TopUp(None)), Complete(Reconcile(0))]);
      var stopped := Perform(c, Phases(cfg, c, ResendPending), 2);
      Ceiling(cfg, stopped.mem) == 0 && Ceiling(cfg, Hydrate(stopped).mem) == 10
  {
    var cfg := Config(5, 10, CeilTimes(7, 5), true);
    var c0 := Opened(cfg, 10);
    var s1, s2 := Complete(TopUp(None)), Complete(Reconcile(0));
    var c1 := Next(cfg, c0, s1);
    assert Phases(cfg, c0, TopUp(None)) == [Phases(cfg, c0, TopUp(None))[0]];
    assert c1 == At(c0, Phases(cfg, c0, TopUp(None))[0], 6);
    var c2 := Next(cfg, c1, s2);
    OnePhase(cfg, c1, Reconcile(0), 6);
    assert [s1, s2][1..] == [s2];
    assert Run(cfg, c1, [s2]) == Run(cfg, c2, [s2][1..]) == c2;
  }

  /** The row says nothing of any reserve. */
  predicate Bare(row: Row) {
    !HasRecovery(row) && row.initialReserve.None?
  }

  /** A store that drops the recovery fields restarts at the configured reserve, as if
      nothing had been reserved, so it is conservative exactly when that is within the
      current ceiling. */
  lemma {:induction false} WithoutRecoveryFields(cfg: Config, c: Channel, steps: seq<Step>)
    requires !cfg.keepsRecovery && Bare(c.row)
    ensures var z := Run(cfg, c, steps);
      && Bare(z.row)
      && Hydrate(z).mem.initialReserve.None? && Hydrate(z).mem.pending.None?
      && HydratedCeiling(cfg, z.row) == cfg.maxReserve
      && (RestartIsConservative(cfg, z) <==> cfg.maxReserve <= Ceiling(cfg, z.mem))
    decreases |steps|
  {
    if steps != [] {
      PerformDropsRecovery(cfg, c, Phases(cfg, c, steps[0].e), Effects(cfg, c, steps[0]));
      WithoutRecoveryFields(cfg, Next(cfg, c, steps[0]), steps[1..]);
    }
  }

  lemma {:induction false} PerformDropsRecovery(cfg: Config, c: Channel, phases: seq<Phase>, k: nat)
    requires Bare(c.row)
    requires forall i :: 0 <= i < |phases| ==> Bare(phases[i].row)
    ensures Bare(Perform(c, phases, k).row)
    decreases |phases|
  {
    if phases != [] && k >= PHASE_LENGTH {
      PerformDropsRecovery(cfg, At(c, phases[0], PHASE_LENGTH), phases[1..], k - PHASE_LENGTH);
    }
  }
}
