/**
 Whole-run safety of a session channel: every theorem quantifies over every
 start (a fresh opening or any stored row) and every sequence of completed,
 failed and crashed steps.
 */
module SessionRuns {
  import opened Wrappers
  import opened UsageAccounting
  import opened SessionChannel

  // ----- what holds between steps -----

  /** The totals that are kept per service, and that recording does not overwrite. */
  ghost predicate SameServices(a: Metadata, b: Metadata) {
    && a.attributed == b.attributed && a.outputImages == b.outputImages
    && a.videoGenerations == b.videoGenerations && a.videoSeconds == b.videoSeconds
  }

  /** Memory agrees with the durable row, which covers everything transmitted. */
  ghost predicate Sound(c: Channel) {
    && c.mem.cumulative == c.row.authMax
    && SameServices(c.mem.meta, c.row.meta)
    && Covered(c)
  }

  ghost predicate Covered(c: Channel) {
    forall i :: 0 <= i < |c.sent| ==> c.sent[i] <= c.row.authMax
  }

  /** A phase never lowers the row, transmits at most what it committed, and
      leaves memory in agreement with the row. */
  ghost predicate PhaseSound(c: Channel, p: Phase) {
    && c.row.authMax <= p.row.authMax
    && p.before.cumulative == c.mem.cumulative && SameServices(p.before.meta, c.mem.meta)
    && p.after.cumulative == p.final.cumulative == p.row.authMax
    && SameServices(p.after.meta, p.row.meta) && SameServices(p.final.meta, p.row.meta)
    && (p.send.Some? ==> p.send.value <= p.row.authMax)
    && p.report.GetOr(0) == p.row.authMax - c.row.authMax
    && c.row.meta.attributed <= p.row.meta.attributed <= c.row.meta.attributed + (p.row.authMax - c.row.authMax)
  }

  ghost predicate PhasesSound(c: Channel, phases: seq<Phase>)
    decreases |phases|
  {
    phases != [] ==> PhaseSound(c, phases[0]) && PhasesSound(At(c, phases[0], PHASE_LENGTH), phases[1..])
  }

  /** Every amount a handler may sign stays within the ceiling and the overdraft
      window W, and the verified cost grows only by accepted costs and by at most
      one window when it is reopened. */
  ghost predicate Prudent(cfg: Config, m: Memory, w: nat, d: Decision) {
    d.Authorize? ==>
      && m.cumulative <= d.next <= Max(m.cumulative, Ceiling(cfg, m))
      && d.next <= Max(m.cumulative, d.verified + w)
      && m.verified + d.delta <= d.verified <= m.verified + d.delta + (if d.reopened then w else 0)
      && m.meta.attributed <= d.meta.attributed <= m.meta.attributed + (d.next - m.cumulative)
  }

  /** W covers this event's overdraft window. */
  ghost predicate Within(cfg: Config, w: nat, e: Event) {
    && cfg.maxPerRequest <= w
    && (e.Extend? && e.target.Some? && e.inFlight > 1 ==> cfg.maxPerRequest * e.inFlight <= w)
  }

  lemma {:induction false} ExtensionIsPrudent(cfg: Config, m: Memory, w: nat, minBudget: nat, target: Option<nat>, inFlight: nat)
    requires cfg.maxPerRequest <= w && m.cumulative <= m.verified + w
    requires target.Some? && inFlight > 1 ==> cfg.maxPerRequest * inFlight <= w
    ensures Prudent(cfg, m, w, DecideExtend(cfg, m, minBudget, target, inFlight))
  {
  }

  lemma {:induction false} DecisionsArePrudent(cfg: Config, m: Memory, w: nat, e: Event)
    requires Within(cfg, w, e) && m.cumulative <= m.verified + w
    ensures Prudent(cfg, m, w, Decide(cfg, m, e))
  {
    if e.Extend? {
      ExtensionIsPrudent(cfg, m, w, e.minBudget, e.target, e.inFlight);
    }
  }

  lemma {:induction false} DecisionsNeverLower(cfg: Config, m: Memory, e: Event)
    ensures Decide(cfg, m, e).Authorize? ==>
              var d := Decide(cfg, m, e);
              && m.cumulative <= d.next <= Max(m.cumulative, Ceiling(cfg, m))
              && m.meta.attributed <= d.meta.attributed <= m.meta.attributed + (d.next - m.cumulative)
  {
  }

  lemma {:induction false} TopUpPhasesSound(cfg: Config, c: Channel, deposit: Option<nat>)
    requires Sound(c)
    ensures PhasesSound(c, TopUpPhases(cfg, c, deposit))
  {
  }

  lemma {:induction false} AtSound(c: Channel, p: Phase, k: nat)
    requires Sound(c) && PhaseSound(c, p)
    ensures Covered(At(c, p, k))
    ensures c.row.authMax <= At(c, p, k).row.authMax <= p.row.authMax
    ensures k == 0 || k == 1 || k == 4 || k >= 6 ==> Sound(At(c, p, k))
    ensures At(c, p, k).row == c.row || At(c, p, k).row == p.row
  {
  }

  lemma {:induction false} DecisionPhasesSound(cfg: Config, c: Channel, e: Event, deposit: Option<nat>)
    requires Sound(c)
    ensures PhasesSound(c, DecisionPhases(cfg, c, e, Decide(cfg, c.mem, e), deposit))
  {
    DecisionsNeverLower(cfg, c.mem, e);
    var d := Decide(cfg, c.mem, e);
    if d.Authorize? {
      var p := AuthorizePhase(cfg, c, d);
      assert PhaseSound(c, p);
      AtSound(c, p, PHASE_LENGTH);
      var c1 := At(c, p, PHASE_LENGTH);
      TopUpPhasesSound(cfg, c1, deposit);
      var rest := if TopUpFollows(cfg, c1.mem, e, d) then TopUpPhases(cfg, c1, deposit) else [];
      assert ([p] + rest)[1..] == rest;
    } else if d.OnlyTopUp? {
      TopUpPhasesSound(cfg, c, deposit);
    }
  }

  lemma {:induction false} EventPhasesSound(cfg: Config, c: Channel, e: Event)
    requires Sound(c)
    ensures PhasesSound(c, Phases(cfg, c, e))
  {
    DecisionsNeverLower(cfg, c.mem, e);
    match e
    case Extend(_, _, _, deposit) => DecisionPhasesSound(cfg, c, e, deposit);
    case Sign(_, _, _, _, _) => DecisionPhasesSound(cfg, c, e, None);
    case NeedAuth(_, _, _, _, deposit) => DecisionPhasesSound(cfg, c, e, deposit);
    case TopUp(deposit) => TopUpPhasesSound(cfg, c, deposit);
    case _ =>
  }

  // ----- one step -----

  /** Spend committed by an interrupted handler that died before reporting it. */
  function Unreported(c: Channel, phases: seq<Phase>, k: nat): nat
    requires Sound(c) && PhasesSound(c, phases)
    decreases |phases|
  {
    if phases == [] || k == 0 then 0
    else if k < PHASE_LENGTH then (if 2 <= k < 4 then phases[0].row.authMax - c.row.authMax else 0)
    else
      AtSound(c, phases[0], PHASE_LENGTH);
      Unreported(At(c, phases[0], PHASE_LENGTH), phases[1..], k - PHASE_LENGTH)
  }

  lemma {:induction false} PerformCovered(c: Channel, phases: seq<Phase>, k: nat)
    requires Sound(c) && PhasesSound(c, phases)
    ensures Covered(Perform(c, phases, k))
    ensures c.row.authMax <= Perform(c, phases, k).row.authMax
    decreases |phases|
  {
    if phases != [] && k > 0 {
      AtSound(c, phases[0], k);
      AtSound(c, phases[0], PHASE_LENGTH);
      if k >= PHASE_LENGTH {
        PerformCovered(At(c, phases[0], PHASE_LENGTH), phases[1..], k - PHASE_LENGTH);
      }
    }
  }

  lemma {:induction false} PerformAgrees(c: Channel, phases: seq<Phase>, k: nat)
    requires Sound(c) && PhasesSound(c, phases)
    requires FailurePoint(k) || k == PHASE_LENGTH * |phases|
    ensures Sound(Perform(c, phases, k))
    decreases |phases|
  {
    if phases != [] && k > 0 {
      if k >= PHASE_LENGTH {
        AtSound(c, phases[0], PHASE_LENGTH);
        assert PHASE_LENGTH * |phases| - PHASE_LENGTH == PHASE_LENGTH * |phases[1..]|;
        PerformAgrees(At(c, phases[0], PHASE_LENGTH), phases[1..], k - PHASE_LENGTH);
      } else {
        AtSound(c, phases[0], k);
      }
    }
  }

  lemma {:induction false} PerformSound(c: Channel, phases: seq<Phase>, k: nat)
    requires Sound(c) && PhasesSound(c, phases)
    ensures Covered(Perform(c, phases, k))
    ensures c.row.authMax <= Perform(c, phases, k).row.authMax
    ensures FailurePoint(k) || k == PHASE_LENGTH * |phases| ==> Sound(Perform(c, phases, k))
  {
    PerformCovered(c, phases, k);
    if FailurePoint(k) || k == PHASE_LENGTH * |phases| {
      PerformAgrees(c, phases, k);
    }
  }

  lemma {:induction false} PerformConserves(c: Channel, phases: seq<Phase>, k: nat)
    requires Sound(c) && PhasesSound(c, phases)
    ensures FailurePoint(k) || k == PHASE_LENGTH * |phases| ==> Unreported(c, phases, k) == 0
    ensures Sum(Perform(c, phases, k).reports) + Unreported(c, phases, k)
         == Sum(c.reports) + Perform(c, phases, k).row.authMax - c.row.authMax
    ensures c.row.meta.attributed <= Perform(c, phases, k).row.meta.attributed
         <= c.row.meta.attributed + Perform(c, phases, k).row.authMax - c.row.authMax
    decreases |phases|
  {
    if phases != [] && k > 0 {
      var p := phases[0];
      AtSound(c, p, PHASE_LENGTH);
      if p.report.Some? {
        SumAppend(c.reports, [p.report.value]);
      }
      if k >= PHASE_LENGTH {
        PerformConserves(At(c, p, PHASE_LENGTH), phases[1..], k - PHASE_LENGTH);
      }
    }
  }

  /** Spend lost by a step: only a crash between a commit and its report. */
  function Lost(cfg: Config, c: Channel, s: Step): nat
    requires Sound(c)
  {
    EventPhasesSound(cfg, c, s.e);
    Unreported(c, Phases(cfg, c, s.e), Effects(cfg, c, s))
  }

  lemma {:induction false} StepSound(cfg: Config, c: Channel, s: Step)
    requires Sound(c) && Enabled(s)
    ensures Sound(Next(cfg, c, s))
    ensures c.mem.cumulative <= Next(cfg, c, s).mem.cumulative
    ensures !s.Crash? ==> Lost(cfg, c, s) == 0
    ensures Sum(Next(cfg, c, s).reports) + Lost(cfg, c, s)
         == Sum(c.reports) + Next(cfg, c, s).mem.cumulative - c.mem.cumulative
    ensures c.mem.meta.attributed <= Next(cfg, c, s).mem.meta.attributed
         <= c.mem.meta.attributed + Next(cfg, c, s).mem.cumulative - c.mem.cumulative
  {
    EventPhasesSound(cfg, c, s.e);
    PerformSound(c, Phases(cfg, c, s.e), Effects(cfg, c, s));
    PerformConserves(c, Phases(cfg, c, s.e), Effects(cfg, c, s));
  }

  // ----- monotonicity, durability and conservation over whole runs -----

  /** Spend lost to crashes over a run. */
  function LostSpend(cfg: Config, c: Channel, steps: seq<Step>): nat
    requires Sound(c) && AllEnabled(steps)
    decreases |steps|
  {
    if steps == [] then 0
    else
      StepSound(cfg, c, steps[0]);
      Lost(cfg, c, steps[0]) + LostSpend(cfg, Next(cfg, c, steps[0]), steps[1..])
  }

  ghost predicate NoCrash(steps: seq<Step>) {
    forall i :: 0 <= i < |steps| ==> !steps[i].Crash?
  }

  /** Over every run the signed cumulative never decreases and always covers
      every amount ever transmitted, in memory and durably; reported spend plus
      what crashes left unreported is exactly the growth of the cumulative, and
      without crashes nothing is left unreported; service amounts never exceed
      that growth. */
  lemma {:induction false} RunConserves(cfg: Config, c: Channel, steps: seq<Step>)
    requires Sound(c) && AllEnabled(steps)
    ensures var z := Run(cfg, c, steps);
      && Sound(z)
      && c.mem.cumulative <= z.mem.cumulative
      && Sum(z.reports) + LostSpend(cfg, c, steps) == Sum(c.reports) + z.mem.cumulative - c.mem.cumulative
      && (NoCrash(steps) ==> LostSpend(cfg, c, steps) == 0)
      && c.mem.meta.attributed <= z.mem.meta.attributed
      && z.mem.meta.attributed - c.mem.meta.attributed <= z.mem.cumulative - c.mem.cumulative
    decreases |steps|
  {
    if steps != [] {
      StepSound(cfg, c, steps[0]);
      RunConserves(cfg, Next(cfg, c, steps[0]), steps[1..]);
    }
  }

  /** The loss is real: a catch-up of 3 that dies between its commit and its report
      is signed for good and never reported. */
  lemma {:induction false} UnreportedExample()
    ensures
      var cfg := Config(5, 10, CeilTimes(7, 5), true);
      var steps := [Crash(Extend(3, None, 1, None), 2)];
      var z := Run(cfg, Opened(cfg, 10), steps);
      z.mem.cumulative == 3 && z.reports == [] && Sound(Opened(cfg, 10)) && LostSpend(cfg, Opened(cfg, 10), steps) == 3
  {
    var cfg := Config(5, 10, CeilTimes(7, 5), true);
    var c, e := Opened(cfg, 10), Extend(3, None, 1, None);
    var d := Decide(cfg, c.mem, e);
    assert d == Authorize(3, 0, c.mem.meta, 0, false, false);
    var s := Crash(e, 2);
    assert Perform(c, Phases(cfg, c, e), 2) == At(c, AuthorizePhase(cfg, c, d), 2);
    assert [s][1..] == [];
    assert Run(cfg, c, [s]) == Run(cfg, Next(cfg, c, s), [s][1..]) == Next(cfg, c, s);
    RunConserves(cfg, c, [s]);
  }

  lemma {:induction false} StartsSound(cfg: Config, row: Row, reserve: nat, totals: Option<Totals>)
    ensures Sound(FromStore(row)) && Sound(OpenedWith(cfg, reserve, totals))
  {
  }

  /** A response of no cost, signed by the buyer. */
  const FREE: Event := Sign(Bytes(None), None, false, ZERO_USAGE, None)

  lemma {:induction false} SignsNothing(cfg: Config, c: Channel)
    requires c.mem.cumulative == 0
    ensures Decide(cfg, c.mem, FREE).Authorize? && Decide(cfg, c.mem, FREE).next == 0
  {
    assert AcceptedCost(cfg, 0, None, false) == 0;
  }

  lemma {:induction false} CommitsNothing(cfg: Config, c: Channel)
    requires c.mem.cumulative == 0
    ensures Next(cfg, c, Complete(FREE)).row.authMax == 0
  {
    SignsNothing(cfg, c);
    var p := AuthorizePhase(cfg, c, Decide(cfg, c.mem, FREE));
    assert Phases(cfg, c, FREE) == [p] + [] == [p];
    assert Perform(c, [p], PHASE_LENGTH) == Perform(At(c, p, PHASE_LENGTH), [], 0);
  }

  lemma {:induction false} RunOne(cfg: Config, c: Channel, s: Step)
    ensures Run(cfg, c, [s]) == Next(cfg, c, s)
  {
    assert [s][1..] == [];
  }

  /** Whatever follows, the stored amount stays at least this. */
  ghost predicate StaysAbove(cfg: Config, c: Channel, amount: nat) {
    forall steps :: AllEnabled(steps) ==> amount <= Run(cfg, c, steps).row.authMax
  }

  lemma {:induction false} FallsBelow(cfg: Config, c: Channel, amount: nat)
    requires c.mem.cumulative == 0 < amount
    ensures !StaysAbove(cfg, c, amount)
  {
    CommitsNothing(cfg, c);
    RunOne(cfg, c, Complete(FREE));
    assert AllEnabled([Complete(FREE)]);
  }

  /** An opening over an active channel whose commit fails: the stored amount stays at
      least what it was if and only if nothing was signed. The memory starts from 0
      again, and the next post-response signing commits that. */
  lemma {:induction false} OpeningFailedIff(cfg: Config, c: Channel, reserve: nat)
    ensures StaysAbove(cfg, OpeningFailed(c, reserve), c.row.authMax) <==> c.row.authMax == 0
  {
    if c.row.authMax > 0 {
      FallsBelow(cfg, OpeningFailed(c, reserve), c.row.authMax);
    }
  }

  /** Crash safety: kill the process after any effect of any handler in any state
      reachable from a stored row, a fresh channel or any other sound state; the
      restart knows at least every amount ever transmitted. */
  lemma {:induction false} CrashKeepsEveryTransmittedAmount(cfg: Config, start: Channel, steps: seq<Step>, e: Event, k: nat)
    requires Sound(start) && AllEnabled(steps)
    ensures var c := Run(cfg, start, steps);
      var stopped := Perform(c, Phases(cfg, c, e), k);
      var restarted := Hydrate(stopped);
      && (forall i :: 0 <= i < |restarted.sent| ==> restarted.sent[i] <= restarted.mem.cumulative)
      && c.mem.cumulative <= restarted.mem.cumulative == restarted.mem.verified
      && Sound(restarted)
  {
    RunConserves(cfg, start, steps);
    var c := Run(cfg, start, steps);
    EventPhasesSound(cfg, c, e);
    PerformSound(c, Phases(cfg, c, e), k);
  }

  /** A step that raises the signed amount leaves it within the ceiling that
      held when it signed; a close authorization never exceeds the signed amount. */
  lemma {:induction false} SigningStaysUnderCeiling(cfg: Config, c: Channel, e: Event, k: nat)
    requires Sound(c)
    ensures Perform(c, Phases(cfg, c, e), k).row.authMax <= Max(c.mem.cumulative, Ceiling(cfg, c.mem))
    ensures e.Close? ==>
              && Perform(c, Phases(cfg, c, e), k).row.authMax == c.mem.cumulative
              && forall i :: |c.sent| <= i < |Perform(c, Phases(cfg, c, e), k).sent|
                  ==> Perform(c, Phases(cfg, c, e), k).sent[i] <= c.mem.cumulative
                      && (e.maxCumulative.Some? ==> Perform(c, Phases(cfg, c, e), k).sent[i] <= e.maxCumulative.value)
  {
    EventPhasesSound(cfg, c, e);
    PerformTwoPhases(cfg, c, e, k);
    DecisionsNeverLower(cfg, c.mem, e);
  }

  /** Only the first phase of a handler can move the signed amount or the verified
      cost; the second phase, if any, is a top-up. */
  lemma {:induction false} PerformTwoPhases(cfg: Config, c: Channel, e: Event, k: nat)
    requires Sound(c)
    ensures var phases := Phases(cfg, c, e);
      var z := Perform(c, phases, k);
      && |phases| <= 2
      && (phases == [] || k == 0 ==> z == c)
      && (phases != [] && 0 < k < PHASE_LENGTH ==> z == At(c, phases[0], k))
      && (phases != [] && PHASE_LENGTH <= k ==>
            && z.row.authMax == phases[0].row.authMax
            && z.mem.cumulative == phases[0].final.cumulative
            && z.mem.verified == phases[0].final.verified)
      && (phases != [] && |phases| == 1 && PHASE_LENGTH <= k ==> z == At(c, phases[0], PHASE_LENGTH))
  {
    var phases := Phases(cfg, c, e);
    if phases != [] && PHASE_LENGTH <= k {
      var c1 := At(c, phases[0], PHASE_LENGTH);
      var rest := phases[1..];
      assert Perform(c, phases, k) == Perform(c1, rest, k - PHASE_LENGTH);
      if rest != [] {
        assert rest == [rest[0]];
        var k1 := k - PHASE_LENGTH;
        assert Perform(c1, rest, k1) == if k1 == 0 then c1 else At(c1, rest[0], if k1 < PHASE_LENGTH then k1 else PHASE_LENGTH);
      }
    }
  }

  // ----- exactly when spend is lost -----

  /** The process dies after the commit and before the report of an authorization that
      raises the signed amount. */
  predicate LosesSpend(cfg: Config, c: Channel, s: Step) {
    s.Crash? && 2 <= s.k < 4 && Decide(cfg, c.mem, s.e).Authorize? && c.mem.cumulative < Decide(cfg, c.mem, s.e).next
  }

  predicate NeverLoses(cfg: Config, c: Channel, steps: seq<Step>)
    decreases |steps|
  {
    steps != [] ==> !LosesSpend(cfg, c, steps[0]) && NeverLoses(cfg, Next(cfg, c, steps[0]), steps[1..])
  }

  /** A second phase, if any, commits no new amount. */
  lemma {:induction false} UnreportedFirst(cfg: Config, c: Channel, e: Event, k: nat)
    requires Sound(c)
    requires var phases := Phases(cfg, c, e); PhasesSound(c, phases) && phases != [] && PHASE_LENGTH <= k
    ensures Unreported(c, Phases(cfg, c, e), k) == 0
  {
    var phases := Phases(cfg, c, e);
    var c1, rest := At(c, phases[0], PHASE_LENGTH), phases[1..];
    AtSound(c, phases[0], PHASE_LENGTH);
    PerformTwoPhases(cfg, c, e, PHASE_LENGTH + 2);
    assert Unreported(c, phases, k) == Unreported(c1, rest, k - PHASE_LENGTH);
    if rest != [] {
      assert rest == [rest[0]] && rest[1..] == [];
      assert Perform(c, phases, PHASE_LENGTH + 2) == Perform(c1, rest, 2) == At(c1, rest[0], 2);
      AtSound(c1, rest[0], PHASE_LENGTH);
      var k1 := k - PHASE_LENGTH;
      if PHASE_LENGTH <= k1 {
        assert Unreported(c1, rest, k1) == Unreported(At(c1, rest[0], PHASE_LENGTH), [], k1 - PHASE_LENGTH);
      }
    }
  }

  lemma {:induction false} LostIff(cfg: Config, c: Channel, s: Step)
    requires Sound(c) && Enabled(s)
    ensures Lost(cfg, c, s) == if LosesSpend(cfg, c, s) then Decide(cfg, c.mem, s.e).next - c.mem.cumulative else 0
  {
    var phases, k := Phases(cfg, c, s.e), Effects(cfg, c, s);
    EventPhasesSound(cfg, c, s.e);
    StepSound(cfg, c, s);
    if phases != [] {
      FirstPhase(cfg, c, s.e);
      if PHASE_LENGTH <= k {
        UnreportedFirst(cfg, c, s.e, k);
      }
    }
  }

  /** Over every run, spend is lost if and only if some crash of it falls between the
      commit and the report of an authorization that raises the signed amount. */
  lemma {:induction false} LostSpendIff(cfg: Config, c: Channel, steps: seq<Step>)
    requires Sound(c) && AllEnabled(steps)
    ensures LostSpend(cfg, c, steps) == 0 <==> NeverLoses(cfg, c, steps)
    decreases |steps|
  {
    if steps != [] {
      StepSound(cfg, c, steps[0]);
      LostIff(cfg, c, steps[0]);
      LostSpendIff(cfg, Next(cfg, c, steps[0]), steps[1..]);
    }
  }

  // ----- the overdraft bound -----

  /** Verified cost the step accepted. */
  function Accepted(cfg: Config, c: Channel, s: Step): nat
  {
    var k := Effects(cfg, c, s);
    var d := Decide(cfg, c.mem, s.e);
    if s.e.RecordResponse? then (if k >= 1 then s.e.cost else 0)
    else if d.Authorize? && k >= 2 then d.delta else 0
  }

  /** Overdraft windows the step reopened; a restart reopens one. */
  function Reopened(cfg: Config, c: Channel, s: Step): nat
  {
    var d := Decide(cfg, c.mem, s.e);
    (if d.Authorize? && d.reopened && Effects(cfg, c, s) >= 2 then 1 else 0) + (if s.Crash? then 1 else 0)
  }

  function AcceptedTotal(cfg: Config, c: Channel, steps: seq<Step>): nat
    decreases |steps|
  {
    if steps == [] then 0
    else Accepted(cfg, c, steps[0]) + AcceptedTotal(cfg, Next(cfg, c, steps[0]), steps[1..])
  }

  function ReopenedTotal(cfg: Config, c: Channel, steps: seq<Step>): nat
    decreases |steps|
  {
    if steps == [] then 0
    else Reopened(cfg, c, steps[0]) + ReopenedTotal(cfg, Next(cfg, c, steps[0]), steps[1..])
  }

  /** Per-request windows a catch-up was granted; every other event uses one. */
  function InFlight(e: Event): nat {
    if e.Extend? && e.target.Some? && e.inFlight > 1 then e.inFlight else 1
  }

  function LargestInFlight(steps: seq<Step>): nat {
    if steps == [] then 1 else Max(InFlight(steps[0].e), LargestInFlight(steps[1..]))
  }

  /** The verified cost a step may add by reopening windows of size w. */
  function ReopenedAmount(cfg: Config, c: Channel, s: Step, w: nat): nat
  {
    var d := Decide(cfg, c.mem, s.e);
    (if d.Authorize? && d.reopened && Effects(cfg, c, s) >= 2 then w else 0) + (if s.Crash? then w else 0)
  }

  lemma {:induction false} StepOverdraft(cfg: Config, c: Channel, s: Step, w: nat)
    requires Sound(c) && Enabled(s)
    requires Within(cfg, w, s.e) && c.mem.cumulative <= c.mem.verified + w
    ensures var z := Next(cfg, c, s);
      && z.mem.cumulative <= z.mem.verified + w
      && z.mem.verified <= c.mem.verified + Accepted(cfg, c, s) + ReopenedAmount(cfg, c, s, w)
  {
    DecisionsArePrudent(cfg, c.mem, w, s.e);
    EventPhasesSound(cfg, c, s.e);
    PerformTwoPhases(cfg, c, s.e, Effects(cfg, c, s));
    if Phases(cfg, c, s.e) != [] {
      FirstPhase(cfg, c, s.e);
    }
  }

  /** What the first phase of a handler does to the signed and verified amounts. */
  lemma {:induction false} FirstPhase(cfg: Config, c: Channel, e: Event)
    requires Sound(c) && Phases(cfg, c, e) != []
    ensures var p := Phases(cfg, c, e)[0];
      var d := Decide(cfg, c.mem, e);
      && p.before.cumulative == c.mem.cumulative
      && p.row.authMax == p.after.cumulative == p.final.cumulative
      && p.row.authMax == (if d.Authorize? then d.next else c.mem.cumulative)
      && p.after.verified == p.final.verified
      && p.before.verified == (if e.RecordResponse? then c.mem.verified + e.cost else c.mem.verified)
      && p.after.verified == (if d.Authorize? then d.verified else p.before.verified)
  {
  }

  lemma {:induction false} AddTimes(a: nat, b: nat, w: nat)
    ensures (a + b) * w == a * w + b * w
  {
  }

  lemma {:induction false} TimesMonotone(a: nat, b: nat, w: nat)
    requires a <= b
    ensures a * w <= b * w
  {
  }

  lemma {:induction false} ReopenedTimes(cfg: Config, c: Channel, steps: seq<Step>, w: nat)
    requires steps != []
    ensures ReopenedTotal(cfg, c, steps) * w
         == ReopenedAmount(cfg, c, steps[0], w) + ReopenedTotal(cfg, Next(cfg, c, steps[0]), steps[1..]) * w
  {
    var a, b := Reopened(cfg, c, steps[0]), ReopenedTotal(cfg, Next(cfg, c, steps[0]), steps[1..]);
    assert ReopenedTotal(cfg, c, steps) == a + b;
    AddTimes(a, b, w);
    var d := Decide(cfg, c.mem, steps[0].e);
    TwoWindows(d.Authorize? && d.reopened && Effects(cfg, c, steps[0]) >= 2, steps[0].Crash?, w);
  }

  lemma {:induction false} TwoWindows(reopened: bool, restarted: bool, w: nat)
    ensures ((if reopened then 1 else 0) + (if restarted then 1 else 0)) * w
         == (if reopened then w else 0) + (if restarted then w else 0)
  {
  }

  lemma {:induction false} RunOverdraft(cfg: Config, c: Channel, steps: seq<Step>, w: nat)
    requires Sound(c) && AllEnabled(steps)
    requires forall i :: 0 <= i < |steps| ==> Within(cfg, w, steps[i].e)
    requires c.mem.cumulative <= c.mem.verified + w
    ensures var z := Run(cfg, c, steps);
      && z.mem.cumulative <= z.mem.verified + w
      && z.mem.verified <= c.mem.verified + AcceptedTotal(cfg, c, steps) + ReopenedTotal(cfg, c, steps) * w
    decreases |steps|
  {
    if steps == [] {
      assert 0 * w == 0;
    } else {
      var c1 := Next(cfg, c, steps[0]);
      StepOverdraft(cfg, c, steps[0], w);
      StepSound(cfg, c, steps[0]);
      RunOverdraft(cfg, c1, steps[1..], w);
      ReopenedTimes(cfg, c, steps, w);
    }
  }

  lemma {:induction false} LargestCovers(cfg: Config, steps: seq<Step>, i: nat)
    requires i < |steps|
    ensures Within(cfg, LargestInFlight(steps) * cfg.maxPerRequest, steps[i].e)
  {
    InFlightBelowLargest(steps, i);
    TimesMonotone(InFlight(steps[i].e), LargestInFlight(steps), cfg.maxPerRequest);
    TimesMonotone(1, LargestInFlight(steps), cfg.maxPerRequest);
  }

  lemma {:induction false} InFlightBelowLargest(steps: seq<Step>, i: nat)
    requires i < |steps|
    ensures 1 <= InFlight(steps[i].e) <= LargestInFlight(steps)
  {
    if i > 0 {
      InFlightBelowLargest(steps[1..], i - 1);
    }
  }

  /** The overdraft bound: with K the largest number of windows granted to one
      catch-up, every reachable cumulative is within K windows of the verified
      cost, and within (reopenings + 1) * K windows of the opening amount plus
      the accepted costs, whatever the seller asked for. */
  lemma {:induction false} OverdraftBound(cfg: Config, row: Row, steps: seq<Step>)
    requires AllEnabled(steps)
    ensures var c := FromStore(row);
      var z := Run(cfg, c, steps);
      var w := LargestInFlight(steps) * cfg.maxPerRequest;
      && z.mem.cumulative <= z.mem.verified + w
      && z.mem.cumulative <= row.authMax + AcceptedTotal(cfg, c, steps) + (ReopenedTotal(cfg, c, steps) + 1) * w
  {
    var c := FromStore(row);
    StartsSound(cfg, row, 0, None);
    OverdraftBoundFrom(cfg, c, steps);
  }

  /** The same bound from a freshly opened channel, whose opening amount is 0. */
  lemma {:induction false} OverdraftBoundOpened(cfg: Config, reserve: nat, totals: Option<Totals>, steps: seq<Step>)
    requires AllEnabled(steps)
    ensures var c := OpenedWith(cfg, reserve, totals);
      var z := Run(cfg, c, steps);
      var w := LargestInFlight(steps) * cfg.maxPerRequest;
      && z.mem.cumulative <= z.mem.verified + w
      && z.mem.cumulative <= AcceptedTotal(cfg, c, steps) + (ReopenedTotal(cfg, c, steps) + 1) * w
  {
    StartsSound(cfg, ARBITRARY_ROW, reserve, totals);
    OverdraftBoundFrom(cfg, OpenedWith(cfg, reserve, totals), steps);
  }

  const ARBITRARY_ROW := Row(0, ZERO_METADATA, None, None, None, None)

  lemma {:induction false} OverdraftBoundFrom(cfg: Config, c: Channel, steps: seq<Step>)
    requires AllEnabled(steps)
    requires Sound(c) && c.mem.verified == c.mem.cumulative
    ensures var z := Run(cfg, c, steps);
      var w := LargestInFlight(steps) * cfg.maxPerRequest;
      && z.mem.cumulative <= z.mem.verified + w
      && z.mem.cumulative <= c.mem.cumulative + AcceptedTotal(cfg, c, steps) + (ReopenedTotal(cfg, c, steps) + 1) * w
  {
    var w := LargestInFlight(steps) * cfg.maxPerRequest;
    forall i | 0 <= i < |steps| ensures Within(cfg, w, steps[i].e) {
      LargestCovers(cfg, steps, i);
    }
    RunOverdraft(cfg, c, steps, w);
    var r := ReopenedTotal(cfg, c, steps);
    AddTimes(r, 1, w);
  }
}
