/**
 Which free usage channel a restart continues with: the one acknowledged last, unless
 something that came later made another row active again, or this one inactive.
 */
module FreeUsageRows {
  import opened Wrappers
  import opened FreeUsage

  /** The store has exactly one active channel. */
  ghost predicate OnlyActive(s: State, c: Channel) {
    c in s.rows && forall d :: d in s.rows ==> (s.rows[d].active <==> d == c)
  }

  /** A step that writes a row, and the channel it makes active. */
  ghost predicate Activates(s: State, step: Step, d: Channel)
    requires Enabled(s, step)
  {
    match step
    case Ack(c) => d == c && s.current == Some(c) && c in s.sessions
    case AckStopped(c, _) => d == c && s.current == Some(c) && c in s.sessions
    case Signed(pid) => d == s.asks[pid].channel && d in s.sessions
    case _ => false
  }

  /** An opening that times out. */
  ghost predicate TimesOut(s: State, step: Step, c: Channel) {
    step == OpenTimeout(c) && s.current == Some(c) && c in s.sessions && !s.sessions[c].acked
  }

  /** An acknowledgement of the current session stores it as the one active channel. */
  lemma {:induction false} AckLeavesOne(s: State, c: Channel)
    requires s.current == Some(c) && c in s.sessions
    ensures var t, before := Next(s, Ack(c)), s.sessions[c];
      && OnlyActive(t, c)
      && t.rows[c] == Row(before.count, before.input, before.output, true, before.deadline)
      && t.sessions == s.sessions[c := before.(acked := true)]
      && t.current == s.current && t.sent == s.sent
      && forall d :: d in s.rows && d != c ==> d in t.rows && t.rows[d] == s.rows[d].(active := false)
  {
  }

  /** One that the store stops half way has retired just the rows it got to; one that
      the store refuses has changed no row. */
  lemma {:induction false} AckStoppedLeaves(s: State, c: Channel, retired: set<Channel>)
    requires s.current == Some(c) && c in s.sessions
    ensures var t, whole := Next(s, AckStopped(c, retired)), Next(s, Ack(c));
      && t.sessions == whole.sessions && t.rows.Keys == whole.rows.Keys && t.rows[c] == whole.rows[c]
      && forall d :: d in s.rows && d != c ==> t.rows[d] == if d in retired then whole.rows[d] else s.rows[d]
    ensures Next(s, AckNotStored(c)) == Next(s, Ack(c)).(rows := s.rows)
  {
  }

  /** The one active channel stays the only one through a step if and only if the step
      makes no other row active and does not time this one out. */
  lemma {:induction false} StaysOnlyIff(s: State, step: Step, c: Channel)
    requires Enabled(s, step) && OnlyActive(s, c)
    ensures OnlyActive(Next(s, step), c) <==> (forall d :: Activates(s, step, d) ==> d == c) && !TimesOut(s, step, c)
  {
    var t := Next(s, step);
    match step
    case Ack(d) =>
      if Activates(s, step, d) {
        assert t.rows[d].active;
      }
    case AckStopped(d, retired) =>
      if Activates(s, step, d) {
        assert t.rows[d].active;
      }
    case Signed(pid) =>
      if Activates(s, step, s.asks[pid].channel) {
        assert t.rows[s.asks[pid].channel].active;
      }
    case OpenTimeout(d) =>
    case _ => assert t.rows == s.rows;
  }

  ghost predicate Undisturbed(s: State, run: seq<Step>, c: Channel)
    requires Legal(s, run)
    decreases |run|
  {
    run != [] ==>
      && (forall d :: Activates(s, run[0], d) ==> d == c) && !TimesOut(s, run[0], c)
      && Undisturbed(Next(s, run[0]), run[1..], c)
  }

  lemma {:induction false} RunStaysOnly(s: State, run: seq<Step>, c: Channel)
    requires Legal(s, run) && OnlyActive(s, c) && Undisturbed(s, run, c)
    ensures OnlyActive(Run(s, run), c)
    decreases |run|
  {
    if run != [] {
      StaysOnlyIff(s, run[0], c);
      RunStaysOnly(Next(s, run[0]), run[1..], c);
    }
  }

  /** However long after an acknowledgement, and across restarts: while nothing disturbs
      it, a restart continues with that channel and no other, from what its row says. */
  lemma {:induction false} RestartContinues(s: State, c: Channel, run: seq<Step>, hydrated: Option<Channel>)
    requires s.current == Some(c) && c in s.sessions
    requires Legal(Next(s, Ack(c)), run) && Undisturbed(Next(s, Ack(c)), run, c)
    requires Enabled(Run(Next(s, Ack(c)), run), Restart(hydrated))
    ensures var z := Run(Next(s, Ack(c)), run);
      var t := Next(z, Restart(hydrated));
      && c in z.rows && hydrated == Some(c) == t.current && t.rows == z.rows && t.asks == map[]
      && var row := z.rows[c];
         t.sessions == map[c := Session(row.count, row.count, row.input, row.output, true, row.deadline, z.chain + 1)]
  {
    AckLeavesOne(s, c);
    RunStaysOnly(Next(s, Ack(c)), run, c);
  }

  /** One session for each of two channels, the second just acknowledged, while an ask
      for the first still waits for its signature. */
  function Late(a: Channel, b: Channel): State {
    var ask := Ask(None, 0, 0, a, 1, 0, 0, Signing(Usage(1, 0, 0)));
    State(Some(0), 0, 1, map[a := Session(0, 0, 0, 0, true, 0, 0), b := Session(0, 0, 0, 0, true, 0, 0)], Some(b),
          map[0 := ask], map[a := Row(0, 0, 0, false, 0), b := Row(0, 0, 0, true, 0)], {a, b}, [], 0)
  }

  function Opened(a: Channel): State {
    State(None, 0, 0, map[a := Session(0, 0, 0, 0, true, 0, 0)], Some(a), map[], map[a := Row(0, 0, 0, true, 0)], {a}, [], 0)
  }

  function Asking(a: Channel): State {
    var ask := Ask(None, 0, 0, a, 1, 0, 0, Signing(Usage(1, 0, 0)));
    Opened(a).(tail := Some(0), length := 1, asks := map[0 := ask])
  }

  lemma {:induction false} OpenAndAck(a: Channel)
    ensures Enabled(START, Open(a, 0)) && Next(Next(START, Open(a, 0)), Ack(a)) == Opened(a)
  {
  }

  lemma {:induction false} AskAndBegin(a: Channel)
    ensures var ask := Arrive(0, a, 1, 0, 0);
      && Enabled(Opened(a), ask) && Enabled(Next(Opened(a), ask), Begin(0))
      && Next(Next(Opened(a), ask), Begin(0)) == Asking(a)
  {
  }

  lemma {:induction false} OpenAnother(a: Channel, b: Channel)
    requires a != b
    ensures Enabled(Asking(a), Open(b, 0)) && Next(Next(Asking(a), Open(b, 0)), Ack(b)) == Late(a, b)
  {
    var t := Next(Next(Asking(a), Open(b, 0)), Ack(b));
    assert t.rows == Late(a, b).rows && t.sessions == Late(a, b).sessions;
  }

  /** The steps to get there: open and acknowledge one channel, begin an ask for it, then
      open and acknowledge another. */
  lemma {:induction false} LateIsReached(a: Channel, b: Channel)
    requires a != b
    ensures var run := [Open(a, 0), Ack(a), Arrive(0, a, 1, 0, 0), Begin(0), Open(b, 0), Ack(b)];
      Legal(START, run) && AllSafe(START, run) && Run(START, run) == Late(a, b)
  {
    var e := [Open(a, 0), Ack(a), Arrive(0, a, 1, 0, 0), Begin(0), Open(b, 0), Ack(b)];
    OpenAndAck(a);
    AskAndBegin(a);
    OpenAnother(a, b);
    TwoSteps(Asking(a), e, 4);
    TwoSteps(Opened(a), e, 2);
    TwoSteps(START, e, 0);
    assert e[0..] == e;
  }

  lemma {:induction false} TwoSteps(s: State, run: seq<Step>, k: nat)
    requires k + 1 < |run| && !run[k].OpenFailed? && !run[k + 1].OpenFailed?
    requires Enabled(s, run[k]) && Enabled(Next(s, run[k]), run[k + 1])
    requires var t := Next(Next(s, run[k]), run[k + 1]); Legal(t, run[k + 2..]) && AllSafe(t, run[k + 2..])
    ensures Legal(s, run[k..]) && AllSafe(s, run[k..])
    ensures Run(s, run[k..]) == Run(Next(Next(s, run[k]), run[k + 1]), run[k + 2..])
  {
    StepFirst(Next(s, run[k]), run, k + 1);
    StepFirst(s, run, k);
  }

  lemma {:induction false} StepFirst(s: State, run: seq<Step>, k: nat)
    requires k < |run| && Enabled(s, run[k]) && !run[k].OpenFailed?
    requires Legal(Next(s, run[k]), run[k + 1..]) && AllSafe(Next(s, run[k]), run[k + 1..])
    ensures Legal(s, run[k..]) && AllSafe(s, run[k..]) && Run(s, run[k..]) == Run(Next(s, run[k]), run[k + 1..])
  {
    assert run[k..][0] == run[k] && run[k..][1..] == run[k + 1..];
  }

  /** Then the late signature makes the retired channel active again, and a restart may
      continue with either. */
  lemma {:induction false} RetiredComesBack(a: Channel, b: Channel)
    requires a != b
    ensures OnlyActive(Late(a, b), b) && Enabled(Late(a, b), Signed(0))
    ensures var t := Next(Late(a, b), Signed(0));
      t.rows[a].active && t.rows[b].active && Enabled(t, Restart(Some(a))) && Enabled(t, Restart(Some(b)))
  {
  }

  // ----- without a session nothing is accepted -----

  /** A step that makes a session current. */
  predicate Opens(step: Step) {
    match step
    case Open(_, _) => true
    case OpenFailed(restored) => restored.Some?
    case Restart(hydrated) => hydrated.Some?
    case SignedThenCrash(_, hydrated) => hydrated.Some?
    case _ => false
  }

  /** A disconnect, a timeout of the opening, and a failed opening with nothing to put
      back leave no session, and drop no ask and no row but the one timed out. */
  lemma {:induction false} NoSession(s: State, c: Channel)
    ensures var t := Next(s, Disconnect);
      t.current.None? && t.asks == s.asks && t.rows == s.rows && t.sessions == s.sessions && t.sent == s.sent
    ensures Next(s, OpenFailed(None)) == s.(current := None)
    ensures TimesOut(s, OpenTimeout(c), c) ==>
      var t := Next(s, OpenTimeout(c));
      && t.current.None? && t.asks == s.asks && t.rows.Keys == s.rows.Keys
      && forall d :: d in s.rows ==> t.rows[d] == s.rows[d].(active := s.rows[d].active && d != c)
    ensures !TimesOut(s, OpenTimeout(c), c) ==> Next(s, OpenTimeout(c)) == s
  {
  }

  /** Until one is opened again, no ask is accepted: what waits for a signature in the
      end was waiting for the same one before. */
  lemma {:induction false} ClosedAcceptsNothing(s: State, run: seq<Step>, pid: Pid)
    requires Legal(s, run) && s.current.None? && forall i :: 0 <= i < |run| ==> !Opens(run[i])
    ensures Run(s, run).current.None?
    ensures IsSigning(Run(s, run), pid) ==> IsSigning(s, pid) && s.asks[pid] == Run(s, run).asks[pid]
    decreases |run|
  {
    if run != [] {
      ClosedAcceptsNothing(Next(s, run[0]), run[1..], pid);
    }
  }

  /** An ask whose turn has come is accepted if and only if it is for the current session
      and for a later number than its latest; then it waits to sign one request more, and
      its own tokens more, than the session has. */
  lemma {:induction false} AcceptsIff(s: State, pid: Pid)
    requires Good(s) && Enabled(s, Begin(pid))
    ensures var t, a := Next(s, Begin(pid)), s.asks[pid];
      && (IsSigning(t, pid) <==> s.current == Some(a.channel) && s.sessions[a.channel].latest < a.sequence)
      && (IsSigning(t, pid) ==>
            var u, before := t.asks[pid].phase.usage, s.sessions[a.channel];
            u.count == before.count + 1 && u.input == before.input + a.input && u.output == before.output + a.output)
      && (IsSigning(t, pid) || IsOver(t, pid))
  {
  }
}
