/**
 One buyer's session channel with one seller: the signed cumulative amount, the
 verified cost, the reserve ceiling and the durable row, with every handler
 written as the ordered effects it has.

 A handler runs as zero, one or two phases. A phase is the source's
 commit-before-send pattern: adopt some memory, commit the row, adopt more
 memory, report the spend, transmit, adopt the rest. `At` gives the state after
 any number of those effects, so a crash or a failure can fall between any two.
 */
module SessionChannel {
  import opened Wrappers
  import opened UsageAccounting

  const INITIAL_TOPUP_HEADROOM_PERCENT: nat := 35
  const SUBSEQUENT_TOPUP_HEADROOM_USDC: nat := 500_000
  const PERCENT_DENOMINATOR: nat := 100

  /** `tolerated` is the largest claim accepted for a given estimate, whatever
      its rounding; `keepsRecovery` says whether the store keeps the reserve
      recovery fields. */
  datatype Config = Config(maxPerRequest: nat, maxReserve: nat, tolerated: nat -> nat, keepsRecovery: bool)

  /** ceil(estimate * num / den); the default tolerance is 1.4. */
  function CeilTimes(num: nat, den: nat): nat -> nat
    requires den > 0
  {
    (estimate: nat) => (estimate * num + den - 1) / den
  }

  const DEFAULT_COST_TOLERANCE: nat -> nat := CeilTimes(7, 5)

  /** A ReserveAuth awaiting acknowledgement. */
  datatype Pending = Pending(maxAmount: nat, confirmedAmount: nat)

  /** The durable row; the reserve fields are absent in older stores. */
  datatype Row = Row(
    authMax: nat, meta: Metadata,
    reserveMax: Option<nat>, reservePending: Option<bool>,
    confirmed: Option<nat>, initialReserve: Option<nat>)

  /** The running totals of recorded responses, kept beside the metadata that is signed. */
  datatype Totals = Totals(input: nat, output: nat, requests: nat)

  /** Those of the row's columns that recording overwrites. */
  function TotalsOf(meta: Metadata): Totals {
    Totals(meta.inputTokens, meta.outputTokens, meta.requests)
  }

  datatype Memory = Memory(
    cumulative: nat, verified: nat, ceiling: Option<nat>,
    initialReserve: Option<nat>, pending: Option<Pending>, meta: Metadata, totals: Option<Totals>)

  /** `sent` and `reports` are what left the process: transmitted cumulative
      amounts and reported spend. They survive a crash; `mem` does not. */
  datatype Channel = Channel(mem: Memory, row: Row, sent: seq<nat>, reports: seq<nat>)

  // ----- opening and hydration -----

  function Persist(cfg: Config, row: Row): Row {
    if cfg.keepsRecovery then row
    else row.(reserveMax := None, reservePending := None, confirmed := None, initialReserve := None)
  }

  predicate HasRecovery(row: Row) {
    row.confirmed.Some? || row.reserveMax.Some? || row.reservePending.Some?
  }

  /** The reserve a restart may rely on. */
  function ConfirmedReserve(row: Row): nat {
    if row.confirmed.Some? then row.confirmed.value
    else if row.reserveMax.Some? && row.reservePending != Some(true) then row.reserveMax.value
    else 0
  }

  function HydratedMemory(row: Row): Memory {
    var recovered := HasRecovery(row);
    Memory(row.authMax, row.authMax,
           if recovered then Some(ConfirmedReserve(row)) else None,
           row.initialReserve,
           if recovered && row.reservePending == Some(true) && row.reserveMax.Some?
           then Some(Pending(row.reserveMax.value, ConfirmedReserve(row))) else None,
           row.meta, Some(TotalsOf(row.meta)))
  }

  function Hydrate(c: Channel): Channel {
    c.(mem := HydratedMemory(c.row))
  }

  function FromStore(row: Row): Channel {
    Channel(HydratedMemory(row), row, [], [])
  }

  /** Memory once an opening begins; the totals of an earlier channel stay. */
  function OpeningMemory(reserve: nat, totals: Option<Totals>): Memory {
    Memory(0, 0, Some(0), Some(reserve), Some(Pending(reserve, 0)), ZERO_METADATA, totals)
  }

  /** The channel right after `authorizeSpending` opened it with this reserve. */
  function OpenedWith(cfg: Config, reserve: nat, totals: Option<Totals>): Channel {
    Channel(OpeningMemory(reserve, totals).(ceiling := Some(reserve)),
            Persist(cfg, Row(0, ZERO_METADATA, Some(reserve), Some(true), Some(0), Some(reserve))),
            [0], [])
  }

  function Opened(cfg: Config, reserve: nat): Channel {
    OpenedWith(cfg, reserve, None)
  }

  /** An opening whose commit failed: the memory of the new channel beside the row of
      the old one, which stays the active one. */
  function OpeningFailed(c: Channel, reserve: nat): Channel {
    c.(mem := OpeningMemory(reserve, c.mem.totals))
  }

  // ----- limits -----

  function Ceiling(cfg: Config, m: Memory): nat {
    m.ceiling.GetOr(cfg.maxReserve)
  }

  /** The ceiling a restart from this row would use. */
  function HydratedCeiling(cfg: Config, row: Row): nat {
    Ceiling(cfg, HydratedMemory(row))
  }

  function MaxSignable(cfg: Config, m: Memory, verified: nat): nat {
    Min(verified + cfg.maxPerRequest, Ceiling(cfg, m))
  }

  datatype Window = Window(maxSignable: nat, verified: nat)

  /** Once everything signable is signed, trust the amount already signed. */
  function ReopenIfCollapsed(cfg: Config, m: Memory, maxSignable: nat, verified: nat): Window {
    if maxSignable > m.cumulative || m.cumulative <= verified then Window(maxSignable, verified)
    else Window(MaxSignable(cfg, m, m.cumulative), m.cumulative)
  }

  predicate NeedsCeilingAdvance(requested: nat, maxSignable: nat, ceiling: nat) {
    requested > maxSignable && maxSignable >= ceiling
  }

  predicate NeedsTopUp(cfg: Config, m: Memory) {
    var ceiling := Ceiling(cfg, m);
    var initial := m.initialReserve.GetOr(cfg.maxReserve);
    var threshold := if ceiling <= initial
                     then initial * INITIAL_TOPUP_HEADROOM_PERCENT / PERCENT_DENOMINATOR
                     else SUBSEQUENT_TOPUP_HEADROOM_USDC;
    (if ceiling > m.cumulative then ceiling - m.cumulative else 0) <= threshold
  }

  // ----- cost validation -----

  /** A video is paid exactly, never with the tolerance. */
  function Tolerated(cfg: Config, estimate: nat, exact: bool): nat {
    if exact then estimate else cfg.tolerated(estimate)
  }

  /** How the buyer prices a response it received. */
  datatype CostEvidence =
    | Hybrid(tokenCost: nat, unitCost: nat)
    | Reported(priced: Option<nat>)   // None: no local pricing
    | Bytes(priced: Option<nat>)

  function BuyerEstimate(evidence: CostEvidence, claimed: Option<nat>): nat {
    match evidence
    case Hybrid(t, u) => t + u
    case Reported(Some(cost)) => cost
    case Reported(None) => claimed.GetOr(0)
    case Bytes(priced) => priced.GetOr(0)
  }

  /** The cost the buyer accepts for its own post-response signing. */
  function AcceptedCost(cfg: Config, estimate: nat, claimed: Option<nat>, exact: bool): nat
  {
    if claimed.Some? && claimed.value > 0 then
      if estimate > 0 then Min(claimed.value, Tolerated(cfg, estimate, exact)) else claimed.value
    else estimate
  }

  /** What a seller's NeedAuth says about the last request's cost. `unitVerdict`
      is the outcome of unit-billing validation: absent without a unit model,
      `Some(None)` when validation throws, otherwise the accepted unit cost. */
  datatype CostClaim =
    | NoClaim
    | BillingUsage(total: nat, tokenEstimate: nat, unitVerdict: Option<Option<nat>>, exact: bool)
    | LastCost(cost: nat, estimate: Option<nat>, unitModel: bool, unitProtocol: bool)

  predicate DeliveredResponse(claim: CostClaim) {
    !claim.NoClaim?
  }

  /** The cost a NeedAuth establishes, or None when the frame is rejected. */
  function JudgedCost(cfg: Config, claim: CostClaim): Option<nat>
  {
    match claim
    case NoClaim => Some(0)
    case BillingUsage(total, tokenEstimate, verdict, exact) =>
      if verdict.None? && total > 0 then None
      else if verdict == Some(None) then None
      else
        var unit := if verdict.Some? && verdict.value.Some? then verdict.value.value else 0;
        var estimate := tokenEstimate + unit;
        if total > 0 && estimate == 0 then None
        else if total > Tolerated(cfg, estimate, exact) then None
        else Some(total)
    case LastCost(cost, estimate, unitModel, unitProtocol) =>
      if cost > 0 && unitModel && unitProtocol then None
      else if cost > 0 && estimate.Some? && estimate.value == 0 && unitProtocol then None
      else if cost > 0 && estimate.Some? && estimate.value > 0 && cost > Tolerated(cfg, estimate.value, false) then None
      else Some(cost)
  }

  // ----- events -----

  /** What can happen to one channel. `deposit` is the buyer's available balance
      read before a top-up, None when that read failed. `counted` is what the
      request tracker answered for the request (its unpaid remainder). */
  datatype Event =
    | Extend(minBudget: nat, target: Option<nat>, inFlight: nat, deposit: Option<nat>)
    | Sign(evidence: CostEvidence, claimed: Option<nat>, exact: bool, usage: Usage, counted: Option<nat>)
    | NeedAuth(required: nat, claim: CostClaim, reported: Usage, alreadyCounted: bool, deposit: Option<nat>)
    | TopUp(deposit: Option<nat>)
    | Reconcile(onChain: nat)
    | AuthAck
    | Resend
    | ResendReserve
    | ResendPending
    | Close(includeAuth: bool, maxCumulative: Option<nat>)
    | RecordResponse(cost: nat)
    | RecordTokens(input: nat, output: nat)

  /** The outcome of the three handlers that may raise the signed amount. */
  datatype Decision =
    | Refuse
    | OnlyTopUp
    | Authorize(next: nat, verified: nat, meta: Metadata, delta: nat, reopened: bool, topUp: bool)

  /** The most a catch-up may sign: one window per request in flight when the
      seller names a target, never above the ceiling. */
  function CatchUpLimit(cfg: Config, m: Memory, w: Window, target: Option<nat>, inFlight: nat): nat {
    if target.Some? && inFlight > 1
    then Min(w.verified + cfg.maxPerRequest * inFlight, Ceiling(cfg, m)) else w.maxSignable
  }

  function DecideExtend(cfg: Config, m: Memory, minBudget: nat, target: Option<nat>, inFlight: nat): Decision {
    var w := ReopenIfCollapsed(cfg, m, MaxSignable(cfg, m, m.verified), m.verified);
    var requested := Max(m.cumulative + minBudget, target.GetOr(0));
    DecideAdvance(m, w, CatchUpLimit(cfg, m, w, target, inFlight), requested, Ceiling(cfg, m))
  }

  function DecideAdvance(m: Memory, w: Window, limit: nat, requested: nat, ceiling: nat): Decision {
    var next := Min(requested, limit);
    var topUp := NeedsCeilingAdvance(requested, limit, ceiling);
    if next <= m.cumulative then (if topUp then OnlyTopUp else Refuse)
    else Authorize(next, w.verified, m.meta, 0, w.verified != m.verified, topUp)
  }

  /** Post-response signing: the whole signed amount is this service's. */
  function Payment(m: Memory, next: nat, verified: nat, delta: nat, usage: Usage, alreadyCounted: bool): Decision
    requires m.cumulative <= next
  {
    var counts := NormalizeRequestUsageDelta(usage, true, alreadyCounted).(amount := next - m.cumulative);
    Authorize(next, verified, AdvanceUsageMetadata(m.meta, counts), delta, false, false)
  }

  function DecideSign(cfg: Config, m: Memory, evidence: CostEvidence, claimed: Option<nat>, exact: bool,
                      usage: Usage, counted: Option<nat>): Decision
  {
    var estimate := BuyerEstimate(evidence, claimed);
    var accepted := counted.GetOr(AcceptedCost(cfg, estimate, claimed, exact));
    var delta := if counted.Some? then 0 else estimate;
    var verified := m.verified + delta;
    var next := Max(m.cumulative, Min(m.cumulative + accepted, MaxSignable(cfg, m, verified)));
    Payment(m, next, verified, delta, usage, counted.Some?)
  }

  /** A seller-initiated authorization: at most the accepted cost is attributed. */
  function Answer(m: Memory, next: nat, verified: nat, cost: nat, reported: Usage, delivered: bool,
                  alreadyCounted: bool, topUp: bool): Decision
    requires m.cumulative <= next
  {
    var counts := NormalizeRequestUsageDelta(
                    reported.(amount := Min(cost, next - m.cumulative)), delivered, alreadyCounted);
    Authorize(next, verified, AdvanceUsageMetadata(m.meta, counts), cost, verified != m.verified + cost, topUp)
  }

  function DecideNeedAuth(cfg: Config, m: Memory, required: nat, claim: CostClaim, reported: Usage,
                          alreadyCounted: bool): Decision
  {
    var judged := JudgedCost(cfg, claim);
    if required <= m.cumulative || judged.None? then Refuse
    else
      var w := NeedAuthWindow(cfg, m, required, judged.value);
      var topUp := NeedsCeilingAdvance(required, w.maxSignable, Ceiling(cfg, m));
      var next := if topUp then Max(w.maxSignable, m.cumulative) else Min(required, w.maxSignable);
      if next <= m.cumulative then (if topUp then OnlyTopUp else Refuse)
      else Answer(m, next, w.verified, judged.value, reported, DeliveredResponse(claim), alreadyCounted, topUp)
  }

  /** The window after accepting `cost`, reopened only when nothing else helps. */
  function NeedAuthWindow(cfg: Config, m: Memory, required: nat, cost: nat): Window {
    var verified := m.verified + cost;
    var maxSignable := MaxSignable(cfg, m, verified);
    if maxSignable <= m.cumulative && !NeedsCeilingAdvance(required, maxSignable, Ceiling(cfg, m))
    then ReopenIfCollapsed(cfg, m, maxSignable, verified) else Window(maxSignable, verified)
  }

  /** The decision behind an event; other events never raise the signed amount. */
  function Decide(cfg: Config, m: Memory, e: Event): Decision
  {
    match e
    case Extend(minBudget, target, inFlight, _) => DecideExtend(cfg, m, minBudget, target, inFlight)
    case Sign(evidence, claimed, exact, usage, counted) => DecideSign(cfg, m, evidence, claimed, exact, usage, counted)
    case NeedAuth(required, claim, reported, counted, _) => DecideNeedAuth(cfg, m, required, claim, reported, counted)
    case _ => Refuse
  }

  // ----- effects -----

  datatype Phase = Phase(before: Memory, row: Row, after: Memory, report: Option<nat>, send: Option<nat>, final: Memory)

  /** Effects of one phase, in order: memory, commit, memory, report, send, memory. */
  const PHASE_LENGTH: nat := 6

  function At(c: Channel, p: Phase, k: nat): Channel {
    Channel(
      if k >= 6 then p.final else if k >= 3 then p.after else if k >= 1 then p.before else c.mem,
      if k >= 2 then p.row else c.row,
      if k >= 5 && p.send.Some? then c.sent + [p.send.value] else c.sent,
      if k >= 4 && p.report.Some? then c.reports + [p.report.value] else c.reports)
  }

  function AuthorizePhase(cfg: Config, c: Channel, d: Decision): Phase
    requires d.Authorize? && c.mem.cumulative <= d.next
  {
    var signed := c.mem.(cumulative := d.next, verified := d.verified, meta := d.meta);
    Phase(c.mem, Persist(cfg, c.row.(authMax := d.next, meta := d.meta)),
          signed, Some(d.next - c.mem.cumulative), Some(d.next), signed)
  }

  function ReservePhase(cfg: Config, c: Channel, pending: Pending, initial: Option<nat>, cumulative: nat): Phase {
    var waiting := c.mem.(pending := Some(pending));
    Phase(c.mem,
          Persist(cfg, c.row.(meta := c.mem.meta, reserveMax := Some(pending.maxAmount), reservePending := Some(true),
                              confirmed := Some(pending.confirmedAmount), initialReserve := initial)),
          waiting, None, Some(cumulative), waiting.(ceiling := Some(pending.maxAmount)))
  }

  function TopUpPhases(cfg: Config, c: Channel, deposit: Option<nat>): seq<Phase> {
    if deposit.Some? && deposit.value < cfg.maxReserve then []
    else
      var previous := Ceiling(cfg, c.mem);
      [ReservePhase(cfg, c, Pending(previous + cfg.maxReserve, previous),
                    Some(c.row.initialReserve.GetOr(previous)), c.mem.cumulative)]
  }

  function ConfirmPhase(cfg: Config, c: Channel, ceiling: nat, pending: Option<Pending>): Phase {
    var m := c.mem.(ceiling := Some(ceiling), pending := pending);
    Phase(m, Persist(cfg, c.row.(meta := c.mem.meta, reservePending := Some(pending.Some?), confirmed := Some(ceiling))),
          m, None, None, m)
  }

  function SendPhase(cfg: Config, c: Channel, cumulative: nat): Phase {
    Phase(c.mem, Persist(cfg, c.row.(meta := c.mem.meta)), c.mem, None, Some(cumulative), c.mem)
  }

  /** The event's deposit reading and whether a top-up follows the signature. */
  predicate TopUpFollows(cfg: Config, m: Memory, e: Event, d: Decision) {
    || d.OnlyTopUp?
    || (d.Authorize? && (d.topUp || (e.NeedAuth? && NeedsTopUp(cfg, m))))
  }

  function DecisionPhases(cfg: Config, c: Channel, e: Event, d: Decision, deposit: Option<nat>): seq<Phase>
    requires d.Authorize? ==> c.mem.cumulative <= d.next
  {
    if d.Authorize? then
      var p := AuthorizePhase(cfg, c, d);
      var c1 := At(c, p, PHASE_LENGTH);
      [p] + if TopUpFollows(cfg, c1.mem, e, d) then TopUpPhases(cfg, c1, deposit) else []
    else if d.OnlyTopUp? then TopUpPhases(cfg, c, deposit)
    else []
  }

  /** Add a response to the totals and write them over the row's columns. */
  function RecordPhase(cfg: Config, c: Channel, input: nat, output: nat): Phase {
    var previous := c.mem.totals.GetOr(TotalsOf(c.row.meta));
    var t := Totals(previous.input + input, previous.output + output, previous.requests + 1);
    var m := c.mem.(totals := Some(t));
    Phase(m, Persist(cfg, c.row.(meta := c.row.meta.(inputTokens := t.input, outputTokens := t.output, requests := t.requests))),
          m, None, None, m)
  }

  function ClosePhases(cfg: Config, c: Channel, includeAuth: bool, maxCumulative: Option<nat>): seq<Phase> {
    var signed := c.mem.cumulative;
    var capped := maxCumulative.Some? && signed > maxCumulative.value;
    var amount := if capped then maxCumulative.value else signed;
    if !includeAuth || amount == 0 then []
    else if capped then [Phase(c.mem, c.row, c.mem, None, Some(amount), c.mem)]
    else [SendPhase(cfg, c, amount)]
  }

  function Phases(cfg: Config, c: Channel, e: Event): seq<Phase>
  {
    match e
    case Extend(_, _, _, deposit) => DecisionPhases(cfg, c, e, Decide(cfg, c.mem, e), deposit)
    case Sign(_, _, _, _, _) => DecisionPhases(cfg, c, e, Decide(cfg, c.mem, e), None)
    case NeedAuth(_, _, _, _, deposit) => DecisionPhases(cfg, c, e, Decide(cfg, c.mem, e), deposit)
    case TopUp(deposit) => TopUpPhases(cfg, c, deposit)
    case Reconcile(onChain) =>
      var applied := c.mem.pending.Some? && onChain >= c.mem.pending.value.maxAmount;
      [ConfirmPhase(cfg, c, onChain, if applied then None else c.mem.pending)]
    case AuthAck =>
      if c.mem.pending.Some? && c.mem.pending.value.confirmedAmount == 0
      then [ConfirmPhase(cfg, c, c.mem.pending.value.maxAmount, None)] else []
    case Resend => [SendPhase(cfg, c, c.mem.cumulative)]
    case ResendReserve =>
      var amount := Min(c.mem.initialReserve.GetOr(Ceiling(cfg, c.mem)), cfg.maxReserve);
      [ReservePhase(cfg, c, Pending(amount, 0), Some(amount), c.row.authMax)]
    case ResendPending =>
      if c.mem.pending.None? then []
      else [ReservePhase(cfg, c, c.mem.pending.value, c.row.initialReserve, c.row.authMax)]
    case Close(includeAuth, maxCumulative) => ClosePhases(cfg, c, includeAuth, maxCumulative)
    case RecordResponse(cost) =>
      var m := c.mem.(verified := c.mem.verified + cost);
      [Phase(m, c.row, m, None, None, m)]
    case RecordTokens(input, output) => [RecordPhase(cfg, c, input, output)]
  }

  /** The state after the first k effects of these phases. */
  function Perform(c: Channel, phases: seq<Phase>, k: nat): Channel
    decreases |phases|
  {
    if phases == [] || k == 0 then c
    else if k < PHASE_LENGTH then At(c, phases[0], k)
    else Perform(At(c, phases[0], PHASE_LENGTH), phases[1..], k - PHASE_LENGTH)
  }

  /** A step of a run: a handler completes; or it stops at effect k because a
      commit or a transmission failed, keeping its memory; or the process dies
      there and restarts from the store (with k = 0, while idle). */
  datatype Step =
    | Complete(e: Event)
    | Fail(e: Event, k: nat)
    | Crash(e: Event, k: nat)

  /** A handler can only stop before a commit or before a transmission. */
  predicate FailurePoint(k: nat) {
    k % PHASE_LENGTH == 1 || k % PHASE_LENGTH == 4
  }

  function Effects(cfg: Config, c: Channel, s: Step): nat
  {
    match s
    case Complete(e) => PHASE_LENGTH * |Phases(cfg, c, e)|
    case Fail(_, k) => k
    case Crash(_, k) => k
  }

  predicate Enabled(s: Step) {
    s.Fail? ==> FailurePoint(s.k)
  }

  function Next(cfg: Config, c: Channel, s: Step): Channel
  {
    var c1 := Perform(c, Phases(cfg, c, s.e), Effects(cfg, c, s));
    if s.Crash? then Hydrate(c1) else c1
  }

  function Run(cfg: Config, c: Channel, steps: seq<Step>): Channel
    decreases |steps|
  {
    if steps == [] then c else Run(cfg, Next(cfg, c, steps[0]), steps[1..])
  }

  ghost predicate AllEnabled(steps: seq<Step>) {
    forall i :: 0 <= i < |steps| ==> Enabled(steps[i])
  }
}
