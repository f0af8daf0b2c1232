/**
 A one-off channel as its history tells it: what has been signed, who waits, and
 whether it is open, confirmed or delivered, from the steps alone.
 */
module OneOffHistory {
  import opened Wrappers
  import opened OneOffChannel

  /** A channel's terms, and everything that happened since it was opened. */
  datatype Deal = Deal(price: nat, fee: nat, rowPresent: bool)

  type Terms = d: Deal | d.fee < d.price witness Deal(1, 0, true)

  predicate Closes(step: Step) {
    step.Retire? || (step.ResumeCommit? && step.outcome.Sent?)
  }

  predicate Delivers(step: Step) {
    step.ResumeCommit? && !step.outcome.CommitFailed?
  }

  ghost predicate Closed(run: seq<Step>) {
    exists i :: 0 <= i < |run| && Closes(run[i])
  }

  ghost predicate Delivered(run: seq<Step>) {
    exists i :: 0 <= i < |run| && Delivers(run[i])
  }

  /** A confirmation from the chain needs the whole price there. */
  predicate Covers(t: Terms, onChain: Option<nat>) {
    onChain.None? || onChain.value >= t.price
  }

  /** The flush confirms; without a stored row there is nothing to flush. */
  ghost predicate Confirms(t: Terms, before: seq<Step>, step: Step) {
    match step
    case ResumeConfirm(_, flushed) => flushed
    case BeginConfirm(_, onChain) => !t.rowPresent && Covers(t, onChain) && !Closed(before)
    case _ => false
  }

  ghost predicate Confirmed(t: Terms, run: seq<Step>) {
    exists i :: 0 <= i < |run| && Confirms(t, run[..i], run[i])
  }

  /** The first delivery came before any confirmation. */
  ghost predicate DeliveredEarly(t: Terms, run: seq<Step>) {
    exists i :: 0 <= i < |run| && Delivers(run[i]) && !Delivered(run[..i]) && !Confirmed(t, run[..i])
  }

  predicate StepOf(step: Step, pid: Pid) {
    !step.Retire? && step.pid == pid
  }

  /** What a step, after those before it, leaves its handler waiting for. */
  ghost function LeftWaiting(t: Terms, before: seq<Step>, step: Step): Option<Waiting> {
    match step
    case BeginConfirm(_, onChain) =>
      if t.rowPresent && !Closed(before) && !Confirmed(t, before) && Covers(t, onChain) then Some(Flushing) else None
    case BeginDelivery(_, required, evidence) =>
      if t.rowPresent && !Closed(before) && !Delivered(before) && required == t.price && evidence then Some(Observing)
      else None
    case ResumeDelivery(_, valid) => if valid then Some(Committing) else None
    case _ => None
  }

  /** What a handler's own last step left it waiting for. */
  ghost function WaitsFor(t: Terms, run: seq<Step>, pid: Pid): Option<Waiting> {
    if run == [] then None
    else
      var before, step := run[..|run| - 1], run[|run| - 1];
      if StepOf(step, pid) then LeftWaiting(t, before, step) else WaitsFor(t, before, pid)
  }

  /** The price once for every delivery that the buyer's own observation bore out. */
  function Prices(t: Terms, run: seq<Step>): seq<nat> {
    if run == [] then []
    else
      var before, step := run[..|run| - 1], run[|run| - 1];
      Prices(t, before) + if step.ResumeDelivery? && step.valid then [t.price] else []
  }

  /** The first confirmation reports what is signed by then, unless that is nothing; the
      first delivery reports the rest of the price, and a second one nothing more. */
  ghost function Reports(t: Terms, run: seq<Step>): seq<nat> {
    if run == [] then []
    else
      var before, step := run[..|run| - 1], run[|run| - 1];
      Reports(t, before) + Reported(t, before, step)
  }

  ghost function Reported(t: Terms, before: seq<Step>, step: Step): seq<nat> {
    var signed := if Delivered(before) then t.price else t.fee;
    if Delivers(step) then [t.price - signed]
    else if Confirms(t, before, step) && !Confirmed(t, before) && signed > 0 then [signed]
    else []
  }

  /** The state is what the history says. */
  ghost predicate Tells(t: Terms, run: seq<Step>, s: State) {
    && TellsStage(t, run, s)
    && s.signed == (if t.fee > 0 then [t.fee] else []) + Prices(t, run)
    && s.reports == Reports(t, run)
    && forall pid :: WaitsFor(t, run, pid) == WaitingOf(s, pid)
  }

  ghost predicate TellsStage(t: Terms, run: seq<Step>, s: State) {
    && s.price == t.price && s.fee == t.fee && s.rowPresent == t.rowPresent
    && s.open == !Closed(run)
    && s.confirmed == Confirmed(t, run)
    && s.delivered == Delivered(run)
    && s.early == DeliveredEarly(t, run)
  }

  function WaitingOf(s: State, pid: Pid): Option<Waiting> {
    if pid in s.waiting then Some(s.waiting[pid]) else None
  }

  // ----- one step more -----

  lemma {:induction false} ClosedSnoc(run: seq<Step>, step: Step)
    ensures Closed(run + [step]) <==> Closed(run) || Closes(step)
    ensures Delivered(run + [step]) <==> Delivered(run) || Delivers(step)
  {
    var all := run + [step];
    assert all[|run|] == step;
    assert forall i :: 0 <= i < |run| ==> all[i] == run[i];
  }

  lemma {:induction false} ConfirmedSnoc(t: Terms, run: seq<Step>, step: Step)
    ensures Confirmed(t, run + [step]) <==> Confirmed(t, run) || Confirms(t, run, step)
    ensures DeliveredEarly(t, run + [step]) <==>
            DeliveredEarly(t, run) || (Delivers(step) && !Delivered(run) && !Confirmed(t, run))
  {
    var all := run + [step];
    assert all[|run|] == step && all[..|run|] == run;
    forall i | 0 <= i < |run| ensures all[i] == run[i] && all[..i] == run[..i] {
    }
  }

  lemma {:induction false} ConfirmedStep(t: Terms, run: seq<Step>, s: State, step: Step)
    requires Inv(s) && TellsStage(t, run, s) && Enabled(s, step)
    ensures Next(s, step).confirmed == Confirmed(t, run + [step])
  {
    ConfirmedSnoc(t, run, step);
    assert (run + [step])[|run|] == step && (run + [step])[..|run|] == run;
  }

  lemma {:induction false} DeliveredStep(t: Terms, run: seq<Step>, s: State, step: Step)
    requires Inv(s) && TellsStage(t, run, s) && Enabled(s, step)
    ensures Next(s, step).early == DeliveredEarly(t, run + [step])
    ensures Next(s, step).delivered == Delivered(run + [step]) && Next(s, step).open == !Closed(run + [step])
  {
    ConfirmedSnoc(t, run, step);
    ClosedSnoc(run, step);
  }

  lemma {:induction false} StageStep(t: Terms, run: seq<Step>, s: State, step: Step)
    requires Inv(s) && TellsStage(t, run, s) && Enabled(s, step)
    ensures TellsStage(t, run + [step], Next(s, step))
  {
    NextKeepsInv(s, step);
    ConfirmedStep(t, run, s, step);
    DeliveredStep(t, run, s, step);
    assert Next(s, step).rowPresent == s.rowPresent;
  }

  lemma {:induction false} WaitsSnoc(t: Terms, run: seq<Step>, step: Step, pid: Pid)
    ensures WaitsFor(t, run + [step], pid) == if StepOf(step, pid) then LeftWaiting(t, run, step) else WaitsFor(t, run, pid)
  {
    SnocIs(run, step);
  }

  lemma {:induction false} LeftIs(t: Terms, run: seq<Step>, s: State, step: Step)
    requires Inv(s) && TellsStage(t, run, s) && Enabled(s, step)
    ensures !step.Retire? ==> WaitingOf(Next(s, step), step.pid) == LeftWaiting(t, run, step)
    ensures forall pid :: !StepOf(step, pid) ==> WaitingOf(Next(s, step), pid) == WaitingOf(s, pid)
  {
  }

  lemma {:induction false} PricesSnoc(t: Terms, run: seq<Step>, step: Step)
    ensures Prices(t, run + [step]) == Prices(t, run) + if step.ResumeDelivery? && step.valid then [t.price] else []
  {
    SnocIs(run, step);
  }

  lemma {:induction false} SignedStep(t: Terms, run: seq<Step>, s: State, step: Step)
    requires s.cumulative <= s.price == t.price && Enabled(s, step)
    ensures Next(s, step).signed == s.signed + if step.ResumeDelivery? && step.valid then [t.price] else []
  {
    AppendEmpty(s.signed);
  }

  lemma {:induction false} DeliveryReports(t: Terms, run: seq<Step>, s: State, step: Step)
    requires Inv(s) && TellsStage(t, run, s) && Enabled(s, step) && step.ResumeCommit?
    ensures Next(s, step).reports == s.reports + Reported(t, run, step)
  {
    AppendEmpty(s.reports);
  }

  lemma {:induction false} ConfirmReports(t: Terms, run: seq<Step>, s: State)
    requires Inv(s) && TellsStage(t, run, s)
    ensures var signed := if Delivered(run) then t.price else t.fee;
      Confirm(s).reports == s.reports + if !Confirmed(t, run) && signed > 0 then [signed] else []
  {
    AppendEmpty(s.reports);
  }

  lemma {:induction false} ReportedStep(t: Terms, run: seq<Step>, s: State, step: Step)
    requires Inv(s) && TellsStage(t, run, s) && Enabled(s, step)
    ensures Next(s, step).reports == s.reports + Reported(t, run, step)
  {
    AppendEmpty(s.reports);
    match step
    case ResumeCommit(_, _) => DeliveryReports(t, run, s, step);
    case BeginConfirm(_, _) => ConfirmReports(t, run, s);
    case ResumeConfirm(_, _) => ConfirmReports(t, run, s);
    case _ =>
  }

  lemma {:induction false} ReportsSnoc(t: Terms, run: seq<Step>, step: Step)
    ensures Reports(t, run + [step]) == Reports(t, run) + Reported(t, run, step)
  {
    SnocIs(run, step);
  }

  lemma {:induction false} StepTells(t: Terms, run: seq<Step>, s: State, step: Step)
    requires Inv(s) && Tells(t, run, s) && Enabled(s, step)
    ensures Tells(t, run + [step], Next(s, step))
  {
    var z := Next(s, step);
    StageStep(t, run, s, step);
    assert z.signed == (if t.fee > 0 then [t.fee] else []) + Prices(t, run + [step]) by {
      PricesSnoc(t, run, step);
      SignedStep(t, run, s, step);
      AppendAssoc(if t.fee > 0 then [t.fee] else [], Prices(t, run), if step.ResumeDelivery? && step.valid then [t.price] else []);
    }
    ReportsSnoc(t, run, step);
    ReportedStep(t, run, s, step);
    forall pid ensures WaitsFor(t, run + [step], pid) == WaitingOf(z, pid) {
      WaitsSnoc(t, run, step, pid);
      LeftIs(t, run, s, step);
    }
  }

  lemma {:induction false} RunTells(t: Terms, before: seq<Step>, s: State, run: seq<Step>)
    requires Inv(s) && Tells(t, before, s) && Legal(s, run)
    ensures Tells(t, before + run, Run(s, run))
    decreases |run|
  {
    if run == [] {
      AppendEmpty(before);
    } else {
      NextKeepsInv(s, run[0]);
      StepTells(t, before, s, run[0]);
      RunTells(t, before + [run[0]], Next(s, run[0]), run[1..]);
      MoveHead(before, run);
    }
  }

  /** After every run, from any opening, the history tells the state. */
  lemma {:induction false} HistoryTells(price: nat, fee: nat, maxPrice: nat, rowPresent: bool, run: seq<Step>)
    requires fee < price <= maxPrice && Legal(Open(price, fee, maxPrice, rowPresent).value, run)
    ensures Tells(Deal(price, fee, rowPresent), run, Run(Open(price, fee, maxPrice, rowPresent).value, run))
  {
    RunTells(Deal(price, fee, rowPresent), [], Open(price, fee, maxPrice, rowPresent).value, run);
    assert [] + run == run;
  }

  // ----- which steps can come next -----

  /** A handler begins unless it is waiting, and resumes where it waits; the channel can
      be retired at any time. */
  ghost predicate CanCome(t: Terms, run: seq<Step>, step: Step) {
    match step
    case BeginConfirm(pid, _) => WaitsFor(t, run, pid) == None
    case BeginDelivery(pid, _, _) => WaitsFor(t, run, pid) == None
    case ResumeConfirm(pid, _) => WaitsFor(t, run, pid) == Some(Flushing)
    case ResumeDelivery(pid, _) => WaitsFor(t, run, pid) == Some(Observing)
    case ResumeCommit(pid, _) => WaitsFor(t, run, pid) == Some(Committing)
    case Retire => true
  }

  lemma {:induction false} EnabledIff(t: Terms, run: seq<Step>, s: State, step: Step)
    requires Tells(t, run, s)
    ensures Enabled(s, step) <==> CanCome(t, run, step)
  {
    if !step.Retire? {
      assert WaitsFor(t, run, step.pid) == WaitingOf(s, step.pid);
    }
  }

  /** A history is one of the channel if and only if each step could come after those
      before it. */
  lemma {:induction false} LegalIff(price: nat, fee: nat, maxPrice: nat, rowPresent: bool, run: seq<Step>)
    requires fee < price <= maxPrice
    ensures Legal(Open(price, fee, maxPrice, rowPresent).value, run)
       <==> forall k :: 0 <= k < |run| ==> CanCome(Deal(price, fee, rowPresent), run[..k], run[k])
    decreases |run|
  {
    var s, t := Open(price, fee, maxPrice, rowPresent).value, Deal(price, fee, rowPresent);
    if run != [] {
      var front, last := run[..|run| - 1], run[|run| - 1];
      SplitLast(run);
      LegalIff(price, fee, maxPrice, rowPresent, front);
      assert forall k :: 0 <= k < |front| ==> front[k] == run[k] && front[..k] == run[..k];
      LegalSnocIff(s, front, last);
      if Legal(s, front) {
        HistoryTells(price, fee, maxPrice, rowPresent, front);
        EnabledIff(t, front, Run(s, front), last);
      }
    }
  }

  lemma {:induction false} LegalSnocIff(s: State, run: seq<Step>, step: Step)
    requires s.cumulative <= s.price
    ensures Legal(s, run + [step]) <==> Legal(s, run) && Enabled(Run(s, run), step)
    decreases |run|
  {
    if run == [] {
      assert run + [step] == [step];
    } else {
      assert (run + [step])[1..] == run[1..] + [step];
      if Enabled(s, run[0]) {
        LegalSnocIff(Next(s, run[0]), run[1..], step);
      }
    }
  }

  // ----- the price is signed only as asked -----

  /** Handler `pid` was asked at `j` for exactly the price, with matching evidence, on a
      channel that was stored, open and undelivered, and did nothing since. */
  ghost predicate AskedAt(t: Terms, run: seq<Step>, pid: Pid, j: nat) {
    && j < |run| && run[j] == BeginDelivery(pid, t.price, true)
    && t.rowPresent && !Closed(run[..j]) && !Delivered(run[..j])
    && forall i :: j < i < |run| ==> !StepOf(run[i], pid)
  }

  lemma {:induction false} ObservingWasAsked(t: Terms, run: seq<Step>, pid: Pid)
    requires WaitsFor(t, run, pid) == Some(Observing)
    ensures exists j: nat :: AskedAt(t, run, pid, j)
  {
    var n := |run| - 1;
    if StepOf(run[n], pid) {
      assert AskedAt(t, run, pid, n);
    } else {
      ObservingWasAsked(t, run[..n], pid);
      var j: nat :| AskedAt(t, run[..n], pid, j);
      assert run[..n][..j] == run[..j];
      assert AskedAt(t, run, pid, j);
    }
  }

  /** No delivery goes on, and so no price is signed, unless its handler was asked so. */
  lemma {:induction false} PriceIsAskedFor(
      price: nat, fee: nat, maxPrice: nat, rowPresent: bool, run: seq<Step>, pid: Pid, valid: bool)
    requires fee < price <= maxPrice
    requires Legal(Open(price, fee, maxPrice, rowPresent).value, run + [ResumeDelivery(pid, valid)])
    ensures exists j: nat :: AskedAt(Deal(price, fee, rowPresent), run, pid, j)
  {
    var s := Open(price, fee, maxPrice, rowPresent).value;
    LegalSnocIff(s, run, ResumeDelivery(pid, valid));
    HistoryTells(price, fee, maxPrice, rowPresent, run);
    assert WaitsFor(Deal(price, fee, rowPresent), run, pid) == Some(Observing);
    ObservingWasAsked(Deal(price, fee, rowPresent), run, pid);
  }
}
