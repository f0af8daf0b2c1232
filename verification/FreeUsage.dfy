/**
 Free usage channels with one seller. The seller asks for a numbered usage
 authorization after each request. Asks are chained behind one another by
 promises, the chain is thrown away by a disconnect, and each ask waits for a
 signature in the middle. Channels are persisted when acknowledged and after every
 authorization, and a restarted process continues from what was persisted.
 */
module FreeUsage {
  import opened Wrappers

  type Pid = nat
  type Channel = string

  /** `chain` records which promise chain was current when the session was made. */
  datatype Session = Session(latest: nat, count: nat, input: nat, output: nat, acked: bool, deadline: nat, chain: nat)

  datatype Row = Row(count: nat, input: nat, output: nat, active: bool, deadline: nat)

  /** The usage an accepted ask will sign. */
  datatype Usage = Usage(count: nat, input: nat, output: nat)

  datatype Phase =
    | Queued                 // behind the ask it was chained to
    | Signing(usage: Usage)  // accepted, waiting for the signature
    | Over

  /** An ask, the ask it waits for, and - as a record - its chain and its place there. */
  datatype Ask = Ask(prev: Option<Pid>, chain: nat, place: nat, channel: Channel, sequence: nat, input: nat, output: nat, phase: Phase)

  datatype Auth = Auth(channel: Channel, sequence: nat, usage: Usage)

  /** `tail` is the latest ask of the current chain; `chain` and `length` number the
      chains and the asks in the current one. `used`, `sent` and `since` record the
      channels ever opened, the authorizations ever sent, and how many of them before
      the last restart. No handler reads a record. */
  datatype State = State(
    tail: Option<Pid>, chain: nat, length: nat, sessions: map<Channel, Session>, current: Option<Channel>,
    asks: map<Pid, Ask>, rows: map<Channel, Row>, used: set<Channel>, sent: seq<Auth>, since: nat)

  const START := State(None, 0, 0, map[], None, map[], map[], {}, [], 0)

  /** In the steps named NotStored the store refuses the row once the session has
      moved on already; with AckStopped it takes the row, and fails once some of the
      other rows are retired. */
  datatype Step =
    | Open(channel: Channel, deadline: nat)
    | OpenFailed(restored: Option<Channel>)
    | Ack(channel: Channel)
    | AckNotStored(channel: Channel)
    | AckStopped(channel: Channel, retired: set<Channel>)
    | OpenTimeout(channel: Channel)
    | Disconnect
    | Arrive(pid: Pid, channel: Channel, sequence: nat, input: nat, output: nat)
    | Begin(pid: Pid)
    | Signed(pid: Pid)
    | SignedNotStored(pid: Pid)
    | SignFailed(pid: Pid)
    | SignedThenCrash(pid: Pid, hydrated: Option<Channel>)
    | Restart(hydrated: Option<Channel>)

  /** A restarted process continues with an active row, if there is any. */
  predicate Hydratable(rows: map<Channel, Row>, hydrated: Option<Channel>) {
    if hydrated.Some? then hydrated.value in rows && rows[hydrated.value].active
    else forall c :: c in rows ==> !rows[c].active
  }

  predicate IsSigning(s: State, pid: Pid) {
    pid in s.asks && s.asks[pid].phase.Signing?
  }

  predicate IsOver(s: State, pid: Pid) {
    pid in s.asks && s.asks[pid].phase.Over?
  }

  /** A channel id is random, so no ask names it before it is made. An ask begins
      once the ask it was chained to is over. */
  predicate Enabled(s: State, step: Step) {
    match step
    case Open(c, _) => c !in s.used && forall p :: p in s.asks ==> s.asks[p].channel != c
    case OpenFailed(restored) => restored.Some? ==> restored.value in s.sessions
    case Arrive(pid, _, _, _, _) => pid !in s.asks
    case Begin(pid) =>
      && pid in s.asks && s.asks[pid].phase.Queued?
      && (s.asks[pid].prev.Some? ==> IsOver(s, s.asks[pid].prev.value))
    case Signed(pid) => IsSigning(s, pid)
    case SignedNotStored(pid) => IsSigning(s, pid)
    case SignFailed(pid) => IsSigning(s, pid)
    case SignedThenCrash(pid, hydrated) => IsSigning(s, pid) && Hydratable(s.rows, hydrated)
    case Restart(hydrated) => Hydratable(s.rows, hydrated)
    case _ => true
  }

  function Persist(rows: map<Channel, Row>, c: Channel, t: Session): map<Channel, Row> {
    rows[c := Row(t.count, t.input, t.output, true, t.deadline)]
  }

  function Retire(rows: map<Channel, Row>, keep: Channel): map<Channel, Row> {
    map c | c in rows :: rows[c].(active := rows[c].active && c == keep)
  }

  function RetireSome(rows: map<Channel, Row>, keep: Channel, retired: set<Channel>): map<Channel, Row> {
    map c | c in rows :: rows[c].(active := rows[c].active && (c == keep || c !in retired))
  }

  /** A hydrated session takes its request count for its latest sequence. */
  function Hydrate(r: Row, chain: nat): Session {
    Session(r.count, r.count, r.input, r.output, true, r.deadline, chain)
  }

  function Restarted(s: State, hydrated: Option<Channel>): State {
    s.(tail := None, chain := s.chain + 1, length := 0, asks := map[], current := hydrated, since := |s.sent|,
       sessions := if hydrated.Some? && hydrated.value in s.rows
                   then map[hydrated.value := Hydrate(s.rows[hydrated.value], s.chain + 1)] else map[])
  }

  function SetPhase(s: State, pid: Pid, phase: Phase): State
    requires pid in s.asks
  {
    s.(asks := s.asks[pid := s.asks[pid].(phase := phase)])
  }

  function AuthOf(a: Ask): Auth
    requires a.phase.Signing?
  {
    Auth(a.channel, a.sequence, a.phase.usage)
  }

  /** The usage an ask would sign, or None when it is refused. */
  function Judge(sessions: map<Channel, Session>, current: Option<Channel>, a: Ask): Option<Usage> {
    if current != Some(a.channel) || a.channel !in sessions || a.sequence <= sessions[a.channel].latest then None
    else
      var t := sessions[a.channel];
      Some(Usage(t.count + 1, t.input + a.input, t.output + a.output))
  }

  /** A session once an authorization was sent. */
  function Advance(t: Session, a: Auth): Session {
    t.(latest := a.sequence, count := a.usage.count, input := a.usage.input, output := a.usage.output)
  }

  /** Once signed: send, and remember in the session. */
  function Sent(s: State, pid: Pid): State
    requires IsSigning(s, pid)
  {
    var a := s.asks[pid];
    if a.channel !in s.sessions then SetPhase(s, pid, Over)
    else SetPhase(s, pid, Over).(sent := s.sent + [AuthOf(a)],
                                 sessions := s.sessions[a.channel := Advance(s.sessions[a.channel], AuthOf(a))])
  }

  function Next(s: State, step: Step): State
    requires Enabled(s, step)
  {
    match step
    case Open(c, deadline) =>
      s.(sessions := s.sessions[c := Session(0, 0, 0, 0, false, deadline, s.chain)], current := Some(c), used := s.used + {c})
    case OpenFailed(restored) =>
      if restored.None? || restored.value !in s.sessions then s.(current := None)
      else s.(current := restored, sessions := s.sessions[restored.value := s.sessions[restored.value].(chain := s.chain)])
    case Ack(c) =>
      if s.current != Some(c) || c !in s.sessions then s
      else
        var t := s.sessions[c].(acked := true);
        s.(sessions := s.sessions[c := t], rows := Retire(Persist(s.rows, c, t), c))
    case AckNotStored(c) =>
      if s.current != Some(c) || c !in s.sessions then s
      else s.(sessions := s.sessions[c := s.sessions[c].(acked := true)])
    case AckStopped(c, retired) =>
      if s.current != Some(c) || c !in s.sessions then s
      else
        var t := s.sessions[c].(acked := true);
        s.(sessions := s.sessions[c := t], rows := RetireSome(Persist(s.rows, c, t), c, retired))
    case OpenTimeout(c) =>
      if s.current != Some(c) || c !in s.sessions || s.sessions[c].acked then s
      else s.(current := None, rows := if c in s.rows then s.rows[c := s.rows[c].(active := false)] else s.rows)
    case Disconnect => s.(tail := None, chain := s.chain + 1, length := 0, current := None)
    case Arrive(pid, c, sequence, input, output) =>
      s.(asks := s.asks[pid := Ask(s.tail, s.chain, s.length, c, sequence, input, output, Queued)],
         tail := Some(pid), length := s.length + 1)
    case Begin(pid) =>
      var usage := Judge(s.sessions, s.current, s.asks[pid]);
      SetPhase(s, pid, if usage.Some? then Signing(usage.value) else Over)
    case Signed(pid) =>
      var t := Sent(s, pid);
      var c := s.asks[pid].channel;
      if c in t.sessions then t.(rows := Persist(t.rows, c, t.sessions[c])) else t
    case SignedNotStored(pid) => Sent(s, pid)
    case SignFailed(pid) => SetPhase(s, pid, Over)
    case SignedThenCrash(pid, hydrated) => Restarted(s.(sent := s.sent + [AuthOf(s.asks[pid])]), hydrated)
    case Restart(hydrated) => Restarted(s, hydrated)
  }

  /** An ask that can never be accepted any more. */
  predicate Harmless(s: State, a: Ask) {
    a.phase.Over? || (a.phase.Queued? && a.channel in s.sessions && a.sequence <= s.sessions[a.channel].latest)
  }

  /** A failed re-open brings back no session for which an ask of an earlier chain can
      still be accepted or is waiting for its signature. */
  ghost predicate Safe(s: State, step: Step) {
    step.OpenFailed? && step.restored.Some? ==>
      forall p :: p in s.asks && s.asks[p].channel == step.restored.value && s.asks[p].chain != s.chain ==> Harmless(s, s.asks[p])
  }

  ghost predicate Legal(s: State, run: seq<Step>)
    decreases |run|
  {
    run != [] ==> Enabled(s, run[0]) && Legal(Next(s, run[0]), run[1..])
  }

  ghost predicate AllSafe(s: State, run: seq<Step>)
    requires Legal(s, run)
    decreases |run|
  {
    run != [] ==> Safe(s, run[0]) && AllSafe(Next(s, run[0]), run[1..])
  }

  function Run(s: State, run: seq<Step>): State
    requires Legal(s, run)
    decreases |run|
  {
    if run == [] then s else Run(Next(s, run[0]), run[1..])
  }

  // ----- the promise chain is a queue -----

  /** An ask is chained to the one before it in its own chain. */
  ghost predicate Placed(s: State, p: Pid)
    requires p in s.asks
  {
    var a := s.asks[p];
    && a.chain <= s.chain
    && (a.chain == s.chain ==> a.place < s.length)
    && (if a.place == 0 then a.prev == None
        else a.prev.Some? && Before(s, a.prev.value, a))
  }

  ghost predicate Before(s: State, q: Pid, a: Ask) {
    q in s.asks && s.asks[q].chain == a.chain && s.asks[q].place == a.place - 1
  }

  ghost predicate Unique(asks: map<Pid, Ask>) {
    forall p, q :: p in asks && q in asks && asks[p].chain == asks[q].chain && asks[p].place == asks[q].place ==> p == q
  }

  /** Once an ask has begun, every earlier ask of its chain is over. */
  ghost predicate InTurn(s: State, p: Pid, q: Pid)
    requires p in s.asks && q in s.asks
  {
    !s.asks[p].phase.Queued? && s.asks[q].chain == s.asks[p].chain && s.asks[q].place < s.asks[p].place ==> s.asks[q].phase.Over?
  }

  ghost predicate TailOk(s: State) {
    if s.length == 0 then s.tail == None
    else s.tail.Some? && s.tail.value in s.asks && s.asks[s.tail.value].chain == s.chain && s.asks[s.tail.value].place == s.length - 1
  }

  ghost predicate Chained(s: State) {
    && (forall p {:trigger Placed(s, p)} :: p in s.asks ==> Placed(s, p))
    && Unique(s.asks)
    && (forall p, q {:trigger InTurn(s, p, q)} :: p in s.asks && q in s.asks ==> InTurn(s, p, q))
    && TailOk(s)
  }

  lemma {:induction false} ArriveChained(s: State, step: Step)
    requires Chained(s) && step.Arrive? && Enabled(s, step)
    ensures Chained(Next(s, step))
  {
    var t := Next(s, step);
    forall p | p in t.asks ensures Placed(t, p) {
      if p in s.asks {
        assert Placed(s, p);
      }
    }
    forall p, q | p in t.asks && q in t.asks && t.asks[p].chain == t.asks[q].chain && t.asks[p].place == t.asks[q].place
      ensures p == q
    {
      if p in s.asks {
        assert Placed(s, p);
      }
      if q in s.asks {
        assert Placed(s, q);
      }
    }
    forall p, q | p in t.asks && q in t.asks ensures InTurn(t, p, q) {
      if p in s.asks {
        assert Placed(s, p);
        if q in s.asks {
          assert InTurn(s, p, q);
        }
      }
    }
  }

  /** Changing one phase forward keeps the queue, if the ask's turn has come. */
  lemma {:induction false} PhaseChained(s: State, t: State, pid: Pid, phase: Phase)
    requires Chained(s) && pid in s.asks && !phase.Queued? && !s.asks[pid].phase.Over?
    requires s.asks[pid].phase.Queued? && s.asks[pid].prev.Some? ==> IsOver(s, s.asks[pid].prev.value)
    requires t.asks == s.asks[pid := s.asks[pid].(phase := phase)]
    requires t.tail == s.tail && t.chain == s.chain && t.length == s.length
    ensures Chained(t)
  {
    assert Placed(s, pid);
    forall p | p in t.asks ensures Placed(t, p) {
      assert Placed(s, p);
    }
    forall p, q | p in t.asks && q in t.asks ensures InTurn(t, p, q) {
      assert InTurn(s, p, q);
      if p == pid && s.asks[pid].phase.Queued? && s.asks[pid].prev.Some? {
        var r := s.asks[pid].prev.value;
        assert InTurn(s, r, q);
      }
    }
  }

  /** Leaving the asks alone keeps the queue, also when a new chain begins. */
  lemma {:induction false} SameAsksChained(s: State, t: State)
    requires Chained(s) && t.asks == s.asks
    requires t.chain == s.chain ==> t.tail == s.tail && t.length == s.length
    requires t.chain != s.chain ==> t.chain > s.chain && t.tail == None && t.length == 0
    ensures Chained(t)
  {
    forall p | p in t.asks ensures Placed(t, p) {
      assert Placed(s, p);
    }
    forall p, q | p in t.asks && q in t.asks ensures InTurn(t, p, q) {
      assert InTurn(s, p, q);
    }
  }

  lemma {:induction false} NoAsksChained(t: State)
    requires t.asks == map[] && t.tail == None && t.length == 0
    ensures Chained(t)
  {
  }

  lemma {:induction false} NextChained(s: State, step: Step)
    requires Chained(s) && Enabled(s, step)
    ensures Chained(Next(s, step))
  {
    var t := Next(s, step);
    match step
    case Arrive(_, _, _, _, _) => ArriveChained(s, step);
    case Begin(pid) => PhaseChained(s, t, pid, t.asks[pid].phase);
    case Signed(pid) => PhaseChained(s, t, pid, Over);
    case SignedNotStored(pid) => PhaseChained(s, t, pid, Over);
    case SignFailed(pid) => PhaseChained(s, t, pid, Over);
    case SignedThenCrash(_, _) => NoAsksChained(t);
    case Restart(_) => NoAsksChained(t);
    case _ => SameAsksChained(s, t);
  }

  /** Of the asks of one chain, only one has begun and is not over. */
  lemma {:induction false} OnePerChain(s: State, p: Pid, q: Pid)
    requires Chained(s) && IsSigning(s, p) && IsSigning(s, q) && s.asks[p].chain == s.asks[q].chain
    ensures p == q
  {
    assert InTurn(s, p, q) && InTurn(s, q, p);
  }

  // ----- sessions and rows -----

  /** An accepted ask is for its session's next request, in its session's chain. */
  ghost predicate AskOk(s: State, p: Pid)
    requires p in s.asks
  {
    var a := s.asks[p];
    && (a.channel in s.sessions && !Harmless(s, a) ==> s.sessions[a.channel].chain <= a.chain)
    && (a.phase.Signing? ==>
          && a.channel in s.sessions && a.chain == s.sessions[a.channel].chain
          && s.sessions[a.channel].latest < a.sequence
          && a.phase.usage == Usage(s.sessions[a.channel].count + 1, s.sessions[a.channel].input + a.input,
                                    s.sessions[a.channel].output + a.output))
  }

  /** The stored row, if there is one, is at most the session. */
  ghost predicate SessionOk(s: State, c: Channel)
    requires c in s.sessions
  {
    var t := s.sessions[c];
    && t.count <= t.latest
    && t.chain <= s.chain
    && (c in s.rows ==> s.rows[c].count <= t.count && s.rows[c].input <= t.input && s.rows[c].output <= t.output)
  }

  ghost predicate Good(s: State) {
    && Chained(s)
    && (forall p {:trigger AskOk(s, p)} :: p in s.asks ==> AskOk(s, p))
    && (s.current.Some? ==> s.current.value in s.sessions && s.sessions[s.current.value].chain == s.chain)
    && s.sessions.Keys + s.rows.Keys <= s.used
    && (forall c {:trigger SessionOk(s, c)} :: c in s.sessions ==> SessionOk(s, c))
  }

  lemma {:induction false} BeginGood(s: State, pid: Pid)
    requires Good(s) && Enabled(s, Begin(pid))
    ensures Good(Next(s, Begin(pid)))
  {
    var t := Next(s, Begin(pid));
    NextChained(s, Begin(pid));
    assert Placed(s, pid);
    forall c | c in t.sessions ensures SessionOk(t, c) {
      assert SessionOk(s, c);
    }
    forall p | p in t.asks ensures AskOk(t, p) {
      assert AskOk(s, p);
    }
  }

  /** No other waiting ask is for the same channel. */
  lemma {:induction false} SignedAskOk(s: State, step: Step, p: Pid)
    requires Good(s) && Enabled(s, step) && (step.Signed? || step.SignedNotStored?) && p in s.asks
    ensures AskOk(Next(s, step), p)
  {
    assert AskOk(s, step.pid) && AskOk(s, p);
    if IsSigning(s, p) && s.asks[p].channel == s.asks[step.pid].channel {
      OnePerChain(s, p, step.pid);
    }
  }

  lemma {:induction false} SignedGood(s: State, step: Step)
    requires Good(s) && Enabled(s, step) && (step.Signed? || step.SignedNotStored?)
    ensures Good(Next(s, step))
  {
    var t := Next(s, step);
    NextChained(s, step);
    assert AskOk(s, step.pid);
    forall c | c in t.sessions ensures SessionOk(t, c) {
      assert SessionOk(s, c);
    }
    forall p | p in t.asks ensures AskOk(t, p) {
      SignedAskOk(s, step, p);
    }
  }

  lemma {:induction false} ArriveGood(s: State, step: Step)
    requires Good(s) && Enabled(s, step) && step.Arrive?
    ensures Good(Next(s, step))
  {
    var t := Next(s, step);
    NextChained(s, step);
    forall c | c in t.sessions ensures SessionOk(t, c) {
      assert SessionOk(s, c);
    }
    forall p | p in t.asks ensures AskOk(t, p) {
      if p in s.asks {
        assert AskOk(s, p);
      } else if s.asks.Keys != t.asks.Keys && t.asks[p].channel in s.sessions {
        assert SessionOk(s, t.asks[p].channel);
      }
    }
  }

  lemma {:induction false} OpenGood(s: State, step: Step)
    requires Good(s) && Enabled(s, step)
    requires step.Open?
    ensures Good(Next(s, step))
  {
    var t := Next(s, step);
    SameAsksChained(s, t);
    forall c | c in t.sessions ensures SessionOk(t, c) {
      if c in s.sessions {
        assert SessionOk(s, c);
      }
    }
    forall p | p in t.asks ensures AskOk(t, p) {
      assert AskOk(s, p);
    }
  }

  lemma {:induction false} AckGood(s: State, step: Step)
    requires Good(s) && Enabled(s, step)
    requires step.Ack? || step.AckNotStored? || step.AckStopped?
    ensures Good(Next(s, step))
  {
    var t := Next(s, step);
    SameAsksChained(s, t);
    forall c | c in t.sessions ensures SessionOk(t, c) {
      assert SessionOk(s, c);
    }
    forall p | p in t.asks ensures AskOk(t, p) {
      assert AskOk(s, p);
    }
  }

  /** A safe re-open moves a session to the current chain. */
  lemma {:induction false} ReopenGood(s: State, step: Step)
    requires Good(s) && Enabled(s, step)
    requires step.OpenFailed? && Safe(s, step)
    ensures Good(Next(s, step))
  {
    var t := Next(s, step);
    SameAsksChained(s, t);
    forall c | c in t.sessions ensures SessionOk(t, c) {
      assert SessionOk(s, c);
    }
    forall p | p in t.asks ensures AskOk(t, p) {
      assert AskOk(s, p);
    }
  }

  lemma {:induction false} DropGood(s: State, step: Step)
    requires Good(s) && Enabled(s, step)
    requires step.OpenTimeout? || step.Disconnect?
    ensures Good(Next(s, step))
  {
    var t := Next(s, step);
    SameAsksChained(s, t);
    forall c | c in t.sessions ensures SessionOk(t, c) {
      assert SessionOk(s, c);
    }
    forall p | p in t.asks ensures AskOk(t, p) {
      assert AskOk(s, p);
    }
  }

  lemma {:induction false} SignFailedGood(s: State, pid: Pid)
    requires Good(s) && IsSigning(s, pid)
    ensures Good(Next(s, SignFailed(pid)))
  {
    var t := Next(s, SignFailed(pid));
    NextChained(s, SignFailed(pid));
    forall c | c in t.sessions ensures SessionOk(t, c) {
      assert SessionOk(s, c);
    }
    forall p | p in t.asks ensures AskOk(t, p) {
      assert AskOk(s, p);
    }
  }

  lemma {:induction false} RestartedGood(s: State, hydrated: Option<Channel>)
    requires s.rows.Keys <= s.used && Hydratable(s.rows, hydrated)
    ensures Good(Restarted(s, hydrated))
  {
    var t := Restarted(s, hydrated);
    NoAsksChained(t);
    assert forall c :: c in t.sessions ==> SessionOk(t, c);
  }

  lemma {:induction false} NextGood(s: State, step: Step)
    requires Good(s) && Enabled(s, step) && Safe(s, step)
    ensures Good(Next(s, step))
  {
    match step
    case Arrive(_, _, _, _, _) => ArriveGood(s, step);
    case Begin(pid) => BeginGood(s, pid);
    case Signed(_) => SignedGood(s, step);
    case SignedNotStored(_) => SignedGood(s, step);
    case SignFailed(pid) => SignFailedGood(s, pid);
    case SignedThenCrash(pid, hydrated) => RestartedGood(s.(sent := s.sent + [AuthOf(s.asks[pid])]), hydrated);
    case Restart(hydrated) => RestartedGood(s, hydrated);
    case Open(_, _) => OpenGood(s, step);
    case OpenFailed(_) => ReopenGood(s, step);
    case Ack(_) => AckGood(s, step);
    case AckNotStored(_) => AckGood(s, step);
    case AckStopped(_, _) => AckGood(s, step);
    case _ => DropGood(s, step);
  }

  lemma {:induction false} StartGood()
    ensures Good(START)
  {
    NoAsksChained(START);
  }

  lemma {:induction false} RunGood(s: State, run: seq<Step>)
    requires Good(s) && Legal(s, run) && AllSafe(s, run)
    ensures Good(Run(s, run))
    decreases |run|
  {
    if run != [] {
      NextGood(s, run[0]);
      RunGood(Next(s, run[0]), run[1..]);
    }
  }

  /** In every interleaving of opens, acknowledgements, timeouts, disconnects,
      restarts, arrivals, signatures and refused rows, without an unsafe re-open, at
      most one ask per channel waits for its signature, although a disconnect lets a
      new chain run beside an old one. */
  lemma {:induction false} OneSignaturePerChannel(run: seq<Step>, p: Pid, q: Pid)
    requires Legal(START, run) && AllSafe(START, run)
    requires var s := Run(START, run); IsSigning(s, p) && IsSigning(s, q) && s.asks[p].channel == s.asks[q].channel
    ensures p == q
  {
    StartGood();
    RunGood(START, run);
    var s := Run(START, run);
    assert AskOk(s, p) && AskOk(s, q);
    OnePerChain(s, p, q);
  }
}
