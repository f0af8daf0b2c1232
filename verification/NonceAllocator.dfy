/**
 The nonce allocator shared by all clients of one wallet on one chain. Each
 sender chains itself behind the latest lock, waits for it, asks the network for
 the pending count, sends, and only then moves the cursor. Every wait is a point
 where other senders may run.
 */
module NonceAllocator {
  import opened Wrappers

  type Pid = nat

  datatype Phase =
    | Queued(prev: Option<Pid>)   // waiting for the lock it was chained behind
    | Counting                    // waiting for the pending count
    | Sending(nonce: nat)         // waiting for the node to accept the transaction
    | Released

  /** `arrivals` and `sent` record what happened; no sender reads them. */
  datatype State = State(tail: Option<Pid>, cursor: Option<nat>, phases: map<Pid, Phase>, arrivals: seq<Pid>, sent: seq<nat>)

  const START := State(None, None, map[], [], [])

  datatype Step =
    | Arrive(pid: Pid)
    | Acquire(pid: Pid)
    | GotCount(pid: Pid, count: nat)
    | CountFailed(pid: Pid)
    | Sent(pid: Pid)
    | SendFailed(pid: Pid)

  predicate At(s: State, pid: Pid, p: Phase) {
    pid in s.phases && s.phases[pid] == p
  }

  /** A sender holds the wallet from acquiring its lock to releasing it. */
  predicate Holding(s: State, pid: Pid) {
    pid in s.phases && (s.phases[pid].Counting? || s.phases[pid].Sending?)
  }

  predicate Enabled(s: State, step: Step) {
    match step
    case Arrive(pid) => pid !in s.phases
    case Acquire(pid) =>
      && pid in s.phases && s.phases[pid].Queued?
      && (s.phases[pid].prev.None? || At(s, s.phases[pid].prev.value, Released))
    case GotCount(pid, _) => At(s, pid, Counting)
    case CountFailed(pid) => At(s, pid, Counting)
    case Sent(pid) => pid in s.phases && s.phases[pid].Sending?
    case SendFailed(pid) => pid in s.phases && s.phases[pid].Sending?
  }

  function NextNonce(cursor: Option<nat>, count: nat): nat {
    if cursor.None? then count else Max(count, cursor.value)
  }

  function Next(s: State, step: Step): State
    requires Enabled(s, step)
  {
    match step
    case Arrive(pid) =>
      s.(tail := Some(pid), phases := s.phases[pid := Queued(s.tail)], arrivals := s.arrivals + [pid])
    case Acquire(pid) => s.(phases := s.phases[pid := Counting])
    case GotCount(pid, count) => s.(phases := s.phases[pid := Sending(NextNonce(s.cursor, count))])
    case CountFailed(pid) => s.(phases := s.phases[pid := Released])
    case Sent(pid) =>
      var nonce := s.phases[pid].nonce;
      s.(phases := s.phases[pid := Released], cursor := Some(nonce + 1), sent := s.sent + [nonce])
    case SendFailed(pid) => s.(phases := s.phases[pid := Released])
  }

  ghost predicate Legal(s: State, run: seq<Step>)
    decreases |run|
  {
    run != [] ==> Enabled(s, run[0]) && Legal(Next(s, run[0]), run[1..])
  }

  function Run(s: State, run: seq<Step>): State
    requires Legal(s, run)
    decreases |run|
  {
    if run == [] then s else Run(Next(s, run[0]), run[1..])
  }

  // ----- the queue behind the promise chain -----

  function Before(s: State, i: nat): Option<Pid>
    requires i < |s.arrivals|
  {
    if i == 0 then None else Some(s.arrivals[i - 1])
  }

  ghost predicate Distinct(xs: seq<Pid>) {
    forall i, j :: 0 <= i < j < |xs| ==> xs[i] != xs[j]
  }

  ghost predicate Listed(s: State, p: Pid) {
    exists i :: 0 <= i < |s.arrivals| && s.arrivals[i] == p
  }

  /** Arrivals are distinct and list every sender; the latest one is the tail. */
  ghost predicate Chained(s: State) {
    && Distinct(s.arrivals)
    && (forall p {:trigger Listed(s, p)} :: p in s.phases ==> Listed(s, p))
    && s.tail == (if s.arrivals == [] then None else Some(s.arrivals[|s.arrivals| - 1]))
  }

  /** Released before position `d`, still waiting behind the predecessor after it. */
  ghost predicate PlaceOk(s: State, d: nat, i: nat)
    requires i < |s.arrivals|
  {
    if i < d then At(s, s.arrivals[i], Released)
    else At(s, s.arrivals[i], Queued(Before(s, i))) || (i == d && Holding(s, s.arrivals[i]))
  }

  /** Everyone before position `d` has released, everyone after it still waits. */
  ghost predicate ServedTo(s: State, d: nat) {
    d <= |s.arrivals| && forall i :: 0 <= i < |s.arrivals| ==> PlaceOk(s, d, i)
  }

  /** Whoever holds the wallet works at or past the cursor. */
  ghost predicate Nonces(s: State) {
    && (forall i, j :: 0 <= i < j < |s.sent| ==> s.sent[i] < s.sent[j])
    && (s.cursor == if s.sent == [] then None else Some(s.sent[|s.sent| - 1] + 1))
    && (forall p :: p in s.phases && s.phases[p].Sending? && s.cursor.Some? ==> s.cursor.value <= s.phases[p].nonce)
  }

  ghost predicate Inv(s: State) {
    Chained(s) && Nonces(s) && exists d: nat :: ServedTo(s, d)
  }

  lemma {:induction false} OnlyOneHolds(s: State, d: nat, p: Pid)
    requires Chained(s) && ServedTo(s, d) && Holding(s, p)
    ensures d < |s.arrivals| && p == s.arrivals[d]
  {
    assert Listed(s, p);
    var i: nat :| i < |s.arrivals| && s.arrivals[i] == p;
    assert PlaceOk(s, d, i);
  }

  /** Whoever may acquire is the first that has not released. */
  lemma {:induction false} OnlyFirstAcquires(s: State, d: nat, p: Pid)
    requires Chained(s) && ServedTo(s, d) && Enabled(s, Acquire(p))
    ensures d < |s.arrivals| && p == s.arrivals[d]
  {
    assert Listed(s, p);
    var i: nat :| i < |s.arrivals| && s.arrivals[i] == p;
    assert PlaceOk(s, d, i);
    if i > 0 {
      assert PlaceOk(s, d, i - 1);
    }
  }

  lemma {:induction false} ArriveKeepsQueue(s: State, pid: Pid, d: nat)
    requires Chained(s) && ServedTo(s, d) && Enabled(s, Arrive(pid))
    ensures Chained(Next(s, Arrive(pid))) && ServedTo(Next(s, Arrive(pid)), d)
  {
    var t := Next(s, Arrive(pid));
    var n := |s.arrivals|;
    forall i: nat | i <= n ensures PlaceOk(t, d, i) {
      if i < n {
        assert PlaceOk(s, d, i);
      }
    }
    assert pid !in s.arrivals by {
      forall i: nat | i < n ensures s.arrivals[i] != pid {
        assert PlaceOk(s, d, i);
      }
    }
    forall p | p in t.phases ensures Listed(t, p) {
      if p == pid {
        assert t.arrivals[n] == p;
      } else {
        assert Listed(s, p);
        var i :| 0 <= i < n && s.arrivals[i] == p;
        assert t.arrivals[i] == p;
      }
    }
  }

  /** The first that has not released changes its phase; no one else does. */
  lemma {:induction false} FirstMoves(s: State, t: State, d: nat, phase: Phase)
    requires Chained(s) && ServedTo(s, d) && d < |s.arrivals| && !phase.Queued?
    requires t.arrivals == s.arrivals && t.tail == s.tail && t.phases == s.phases[s.arrivals[d] := phase]
    ensures Chained(t) && ServedTo(t, if phase == Released then d + 1 else d)
  {
    var e := if phase == Released then d + 1 else d;
    forall i: nat | i < |s.arrivals| ensures PlaceOk(t, e, i) {
      assert PlaceOk(s, d, i);
    }
    forall p | p in t.phases ensures Listed(t, p) {
      assert PlaceOk(s, d, d);
      assert Listed(s, p);
    }
  }

  lemma {:induction false} NextKeepsQueue(s: State, step: Step, d: nat) returns (e: nat)
    requires Chained(s) && ServedTo(s, d) && Enabled(s, step)
    ensures Chained(Next(s, step)) && ServedTo(Next(s, step), e)
  {
    var t := Next(s, step);
    match step
    case Arrive(pid) =>
      ArriveKeepsQueue(s, pid, d);
      e := d;
    case Acquire(pid) =>
      OnlyFirstAcquires(s, d, pid);
      FirstMoves(s, t, d, Counting);
      e := d;
    case GotCount(pid, count) =>
      OnlyOneHolds(s, d, pid);
      FirstMoves(s, t, d, Sending(NextNonce(s.cursor, count)));
      e := d;
    case _ =>
      OnlyOneHolds(s, d, step.pid);
      FirstMoves(s, t, d, Released);
      e := d + 1;
  }

  lemma {:induction false} SentKeepsNonces(s: State, pid: Pid, d: nat)
    requires Chained(s) && Nonces(s) && ServedTo(s, d) && Enabled(s, Sent(pid))
    ensures Nonces(Next(s, Sent(pid)))
  {
    var t := Next(s, Sent(pid));
    OnlyOneHolds(s, d, pid);
    forall p | p in t.phases ensures !t.phases[p].Sending? {
      if Holding(s, p) {
        OnlyOneHolds(s, d, p);
      }
    }
  }

  lemma {:induction false} NextKeepsNonces(s: State, step: Step)
    requires Inv(s) && Enabled(s, step)
    ensures Nonces(Next(s, step))
  {
    if step.Sent? {
      var d: nat :| ServedTo(s, d);
      SentKeepsNonces(s, step.pid, d);
    }
  }

  lemma {:induction false} NextKeepsInv(s: State, step: Step)
    requires Inv(s) && Enabled(s, step)
    ensures Inv(Next(s, step))
  {
    var d: nat :| ServedTo(s, d);
    NextKeepsNonces(s, step);
    var e := NextKeepsQueue(s, step, d);
  }

  lemma {:induction false} RunKeepsInv(s: State, run: seq<Step>)
    requires Inv(s) && Legal(s, run)
    ensures Inv(Run(s, run))
    decreases |run|
  {
    if run != [] {
      NextKeepsInv(s, run[0]);
      RunKeepsInv(Next(s, run[0]), run[1..]);
    }
  }

  lemma {:induction false} StartInv()
    ensures Inv(START)
  {
    assert ServedTo(START, 0);
  }

  // ----- what every interleaving keeps -----

  /** At most one sender is between acquire and release. */
  lemma {:induction false} MutualExclusion(run: seq<Step>, p: Pid, q: Pid)
    requires Legal(START, run)
    requires Holding(Run(START, run), p) && Holding(Run(START, run), q)
    ensures p == q
  {
    StartInv();
    RunKeepsInv(START, run);
    var s := Run(START, run);
    var d: nat :| ServedTo(s, d);
    OnlyOneHolds(s, d, p);
    OnlyOneHolds(s, d, q);
  }

  /** Nonces of successful sends strictly increase, whatever counts the network
      returns, so no two of them are equal. */
  lemma {:induction false} NoncesIncrease(run: seq<Step>)
    requires Legal(START, run)
    ensures var sent := Run(START, run).sent;
      forall i, j :: 0 <= i < j < |sent| ==> sent[i] < sent[j]
  {
    StartInv();
    RunKeepsInv(START, run);
  }

  /** A sender that got the pending count goes on with that count, or with the nonce behind
      the last one sent, whichever is greater. */
  lemma {:induction false} ReservesNext(s: State, pid: Pid, count: nat)
    requires Inv(s) && Enabled(s, GotCount(pid, count))
    ensures var t := Next(s, GotCount(pid, count));
      && t.phases[pid].Sending? && t.phases[pid].nonce >= count
      && (s.sent == [] ==> t.phases[pid].nonce == count)
      && (s.sent != [] ==>
            var next := s.sent[|s.sent| - 1] + 1;
            t.phases[pid].nonce >= next && (t.phases[pid].nonce == count || t.phases[pid].nonce == next))
  {
  }

  /** A wait that fails, for the count or for the send, moves neither the cursor nor the record. */
  lemma {:induction false} FailureLeavesCursor(s: State, step: Step)
    requires Enabled(s, step) && !step.Sent?
    ensures Next(s, step).cursor == s.cursor && Next(s, step).sent == s.sent
  {
  }

  /** The chain never gets stuck: while someone has not released, the first of
      them can take a step. */
  lemma {:induction false} NeverStuck(run: seq<Step>, p: Pid)
    requires Legal(START, run) && p in Run(START, run).phases && !At(Run(START, run), p, Released)
    ensures var s := Run(START, run);
      exists q :: q in s.phases && (Enabled(s, Acquire(q)) || Holding(s, q))
  {
    StartInv();
    RunKeepsInv(START, run);
    var s := Run(START, run);
    var d: nat :| ServedTo(s, d);
    assert Listed(s, p);
    var i: nat :| i < |s.arrivals| && s.arrivals[i] == p;
    assert PlaceOk(s, d, i);
    assert d <= i;
    assert PlaceOk(s, d, d);
    var q := s.arrivals[d];
    assert d > 0 ==> PlaceOk(s, d, d - 1);
    assert Enabled(s, Acquire(q)) || Holding(s, q);
  }

  // ----- exactly when nonces leave no gap -----

  /** The senders whose pending count was ahead of the nonce behind the last one sent. */
  function AheadAfter(s: State, step: Step, ahead: set<Pid>): set<Pid> {
    if step.GotCount? && s.sent != [] && step.count > s.sent[|s.sent| - 1] + 1 then ahead + {step.pid} else ahead
  }

  /** None of them succeeds. */
  ghost predicate NoneSentAhead(s: State, run: seq<Step>, ahead: set<Pid>)
    requires Legal(s, run)
    decreases |run|
  {
    run != [] ==>
      && (run[0].Sent? ==> run[0].pid !in ahead)
      && NoneSentAhead(Next(s, run[0]), run[1..], AheadAfter(s, run[0], ahead))
  }

  ghost predicate GapFree(sent: seq<nat>) {
    forall i :: 0 < i < |sent| ==> sent[i] == sent[i - 1] + 1
  }

  /** Whoever is sending is ahead exactly if its nonce leaves a gap. */
  ghost predicate AheadOk(s: State, ahead: set<Pid>) {
    && (forall p :: p in ahead ==> p in s.phases && (s.phases[p].Sending? || s.phases[p].Released?))
    && (forall p :: p in s.phases && s.phases[p].Sending? && s.cursor.Some? ==> (p in ahead <==> s.phases[p].nonce > s.cursor.value))
    && (s.cursor.None? ==> ahead == {})
  }

  lemma {:induction false} NextAhead(s: State, step: Step, ahead: set<Pid>)
    requires Inv(s) && AheadOk(s, ahead) && Enabled(s, step)
    ensures AheadOk(Next(s, step), AheadAfter(s, step, ahead))
    ensures GapFree(s.sent) ==> (GapFree(Next(s, step).sent) <==> (step.Sent? ==> step.pid !in ahead))
    ensures !GapFree(s.sent) ==> !GapFree(Next(s, step).sent)
  {
    var d: nat :| ServedTo(s, d);
    var t := Next(s, step);
    if step.Sent? {
      OnlyOneHolds(s, d, step.pid);
      forall p | p in t.phases ensures !t.phases[p].Sending? {
        if Holding(s, p) {
          OnlyOneHolds(s, d, p);
        }
      }
      var n := |s.sent|;
      assert t.sent[..n] == s.sent && forall i :: 0 <= i < n ==> t.sent[i] == s.sent[i];
      assert n > 0 && s.cursor.Some? ==> s.sent[n - 1] + 1 == s.cursor.value;
      assert t.sent[n] == s.phases[step.pid].nonce;
    }
  }

  lemma {:induction false} GapsFrom(s: State, run: seq<Step>, ahead: set<Pid>)
    requires Inv(s) && AheadOk(s, ahead) && Legal(s, run)
    ensures GapFree(s.sent) ==> (GapFree(Run(s, run).sent) <==> NoneSentAhead(s, run, ahead))
    ensures !GapFree(s.sent) ==> !GapFree(Run(s, run).sent)
    decreases |run|
  {
    if run != [] {
      NextAhead(s, run[0], ahead);
      NextKeepsInv(s, run[0]);
      GapsFrom(Next(s, run[0]), run[1..], AheadAfter(s, run[0], ahead));
    }
  }

  /** Over every run, failed sends included, the nonces sent are consecutive if and only if
      no sender succeeds whose pending count was ahead of them. */
  lemma {:induction false} ConsecutiveIff(run: seq<Step>)
    requires Legal(START, run)
    ensures GapFree(Run(START, run).sent) <==> NoneSentAhead(START, run, {})
  {
    StartInv();
    GapsFrom(START, run, {});
  }

  /** The pending count never runs ahead of what this process has sent. */
  ghost predicate CountsLag(s: State, run: seq<Step>)
    requires Legal(s, run)
    decreases |run|
  {
    run != [] ==>
      && (run[0].GotCount? && s.sent != [] ==> run[0].count <= s.sent[|s.sent| - 1] + 1)
      && CountsLag(Next(s, run[0]), run[1..])
  }

  lemma {:induction false} LaggingIsNotAhead(s: State, run: seq<Step>)
    requires Legal(s, run) && CountsLag(s, run)
    ensures NoneSentAhead(s, run, {})
    decreases |run|
  {
    if run != [] {
      LaggingIsNotAhead(Next(s, run[0]), run[1..]);
    }
  }

  /** When no one else uses the wallet, failed sends included, the nonces are consecutive. */
  lemma {:induction false} ConsecutiveWhenAlone(run: seq<Step>)
    requires Legal(START, run) && CountsLag(START, run)
    ensures GapFree(Run(START, run).sent)
  {
    LaggingIsNotAhead(START, run);
    ConsecutiveIff(run);
  }

  // ----- the module-level state and the code around the waits -----

  class Allocator {
    var tail: Option<Pid>
    var cursor: Option<nat>

    constructor ()
      ensures tail == None && cursor == None
    {
      tail, cursor := None, None;
    }

    /** The shared variables are those of the state. */
    ghost predicate Of(s: State)
      reads this
    {
      tail == s.tail && cursor == s.cursor
    }

    method Chain(pid: Pid, ghost s: State) returns (prev: Option<Pid>)
      requires Of(s) && Enabled(s, Arrive(pid))
      modifies this
      ensures Of(Next(s, Arrive(pid))) && At(Next(s, Arrive(pid)), pid, Queued(prev))
    {
      prev := tail;
      tail := Some(pid);
    }

    method Reserve(pid: Pid, count: nat, ghost s: State) returns (nonce: nat)
      requires Of(s) && Enabled(s, GotCount(pid, count))
      ensures Of(Next(s, GotCount(pid, count))) && At(Next(s, GotCount(pid, count)), pid, Sending(nonce))
    {
      nonce := if cursor.None? then count else if count > cursor.value then count else cursor.value;
    }

    method Accepted(pid: Pid, nonce: nat, ghost s: State)
      requires Of(s) && At(s, pid, Sending(nonce))
      modifies this
      ensures Of(Next(s, Sent(pid)))
    {
      cursor := Some(nonce + 1);
    }
  }
}
