/**
 The numbers signed on a free usage channel: what one process signs rises, and what
 is signed across restarts rises exactly when no number was passed over, no
 authorization was lost and no restart found a row behind its session.
 */
module FreeUsageNumbers {
  import opened Wrappers
  import opened FreeUsage

  // ----- signed sequences -----

  /** The sequences sent for a channel, in order. */
  function Sequences(sent: seq<Auth>, c: Channel): seq<nat> {
    if sent == [] then []
    else
      var a := sent[|sent| - 1];
      Sequences(sent[..|sent| - 1], c) + if a.channel == c then [a.sequence] else []
  }

  lemma {:induction false} SequencesSnoc(sent: seq<Auth>, a: Auth, c: Channel)
    ensures Sequences(sent + [a], c) == Sequences(sent, c) + if a.channel == c then [a.sequence] else []
  {
    assert (sent + [a])[..|sent + [a]| - 1] == sent;
  }

  ghost predicate Rising(xs: seq<nat>) {
    forall i, j :: 0 <= i < j < |xs| ==> xs[i] < xs[j]
  }

  lemma {:induction false} RisingSnoc(xs: seq<nat>, x: nat)
    requires Rising(xs) && (xs != [] ==> xs[|xs| - 1] < x)
    ensures Rising(xs + [x])
  {
  }

  /** The steps that send and live on, whether or not the store takes the row. */
  predicate IsSend(step: Step) {
    step.Signed? || step.SignedNotStored?
  }

  /** The authorization a step sends, if it sends one. */
  function Sends(s: State, step: Step): Option<Auth>
    requires Good(s) && Enabled(s, step)
  {
    if IsSend(step) || step.SignedThenCrash? then Some(AuthOf(s.asks[step.pid])) else None
  }

  lemma {:induction false} SentIs(s: State, step: Step)
    requires Good(s) && Enabled(s, step)
    ensures Next(s, step).sent == s.sent + if Sends(s, step).Some? then [Sends(s, step).value] else []
  {
    if IsSend(step) {
      assert AskOk(s, step.pid);
    } else if !step.SignedThenCrash? {
      AppendEmpty(s.sent);
    }
  }

  function Latest(s: State, c: Channel): Option<nat> {
    if c in s.sessions then Some(s.sessions[c].latest) else None
  }

  /** What was signed for a channel since then rises up to its latest number. */
  ghost predicate RisesAs(sent: seq<Auth>, since: nat, c: Channel, latest: Option<nat>) {
    since <= |sent| &&
    var own := Sequences(sent[since..], c);
    Rising(own) && (own != [] ==> latest == Some(own[|own| - 1]))
  }

  /** ... by this process. */
  ghost predicate RisesAt(s: State, c: Channel) {
    RisesAs(s.sent, s.since, c, Latest(s, c))
  }

  /** What a signature does to its own channel, and to no other. */
  lemma {:induction false} SignedEffect(s: State, step: Step, c: Channel)
    requires Good(s) && Enabled(s, step) && IsSend(step)
    ensures var t, a := Next(s, step), s.asks[step.pid];
      && t.sent == s.sent + [AuthOf(a)] && t.since == s.since && t.used == s.used
      && a.channel in s.sessions && a.channel in s.used && s.sessions[a.channel].latest < a.sequence
      && (c == a.channel ==> c in t.sessions && t.sessions[c].latest == a.sequence && t.sessions[c].count == s.sessions[c].count + 1)
      && (c != a.channel ==> Stored(t, c) == Stored(s, c))
      && (c != a.channel ==> (c in t.sessions <==> c in s.sessions) && (c in t.sessions ==> t.sessions[c] == s.sessions[c]))
  {
    assert AskOk(s, step.pid);
  }

  /** One more authorization, above the latest of its channel. */
  lemma {:induction false} PushRises(sent: seq<Auth>, since: nat, c: Channel, latest: Option<nat>, a: Auth)
    requires RisesAs(sent, since, c, latest)
    requires a.channel == c ==> latest.Some? && latest.value < a.sequence
    ensures RisesAs(sent + [a], since, c, if a.channel == c then Some(a.sequence) else latest)
  {
    var own := Sequences(sent[since..], c);
    assert (sent + [a])[since..] == sent[since..] + [a];
    SequencesSnoc(sent[since..], a, c);
    if a.channel == c {
      RisingSnoc(own, a.sequence);
    } else {
      AppendEmpty(own);
    }
  }

  lemma {:induction false} SignedRises(s: State, step: Step, c: Channel)
    requires Good(s) && Enabled(s, step) && IsSend(step) && RisesAt(s, c)
    ensures RisesAt(Next(s, step), c)
  {
    SignedEffect(s, step, c);
    PushRises(s.sent, s.since, c, Latest(s, c), AuthOf(s.asks[step.pid]));
  }

  /** The process ends here. */
  predicate Ends(step: Step) {
    step.SignedThenCrash? || step.Restart?
  }

  lemma {:induction false} LatestKept(s: State, step: Step, c: Channel)
    requires Good(s) && Enabled(s, step) && !IsSend(step) && !Ends(step)
    ensures var t := Next(s, step);
      && t.sent == s.sent && t.since == s.since
      && (c in s.sessions ==> c in t.sessions && t.sessions[c].latest == s.sessions[c].latest)
  {
  }

  lemma {:induction false} NextRises(s: State, step: Step, c: Channel)
    requires Good(s) && Enabled(s, step) && RisesAt(s, c)
    ensures RisesAt(Next(s, step), c)
  {
    if IsSend(step) {
      SignedRises(s, step, c);
    } else if Ends(step) {
      var t := Next(s, step);
      assert t.sent[t.since..] == [];
    } else {
      LatestKept(s, step, c);
    }
  }

  /** Over every run without an unsafe re-open, what one process signs on a channel
      strictly rises. */
  lemma {:induction false} SequencesRise(s: State, run: seq<Step>, c: Channel)
    requires Good(s) && RisesAt(s, c) && Legal(s, run) && AllSafe(s, run)
    ensures RisesAt(Run(s, run), c)
    decreases |run|
  {
    if run != [] {
      NextGood(s, run[0]);
      NextRises(s, run[0], c);
      SequencesRise(Next(s, run[0]), run[1..], c);
    }
  }

  // ----- across restarts: exactly when numbers are kept -----

  /** The session was advanced past the row: the store refused what came since. */
  predicate Behind(s: State, c: Channel) {
    c in s.sessions && s.sessions[c].count > (if c in s.rows then s.rows[c].count else 0)
  }

  /** A step that sends on the channel sends the next number, and a process does not
      end between sending and persisting, nor while the row is behind. */
  ghost predicate OrderlyStep(s: State, step: Step, c: Channel)
    requires Enabled(s, step)
  {
    && (step.SignedThenCrash? ==> s.asks[step.pid].channel != c)
    && (Ends(step) ==> !Behind(s, c))
    && (IsSend(step) && s.asks[step.pid].channel == c ==>
          c in s.sessions && s.asks[step.pid].sequence == s.sessions[c].latest + 1)
  }

  /** Every ask sent on the channel was for the next number, no crash fell between
      its sending and its persisting, and whatever row the store refused, a later one
      was stored before the process ended. */
  ghost predicate Orderly(s: State, run: seq<Step>, c: Channel)
    requires Legal(s, run)
    decreases |run|
  {
    run != [] ==> OrderlyStep(s, run[0], c) && Orderly(Next(s, run[0]), run[1..], c)
  }

  /** 1, 2, ..., n */
  function UpTo(n: nat): seq<nat> {
    if n == 0 then [] else UpTo(n - 1) + [n]
  }

  lemma {:induction false} UpToLength(n: nat)
    ensures |UpTo(n)| == n && Rising(UpTo(n)) && (n > 0 ==> UpTo(n)[n - 1] == n)
  {
    if n > 0 {
      UpToLength(n - 1);
      RisingSnoc(UpTo(n - 1), n);
    }
  }

  /** How many requests the channel's session, or else its row, knows of. */
  function Stored(s: State, c: Channel): nat {
    if c in s.sessions then s.sessions[c].count else if c in s.rows then s.rows[c].count else 0
  }

  /** What was sent on the channel is 1, 2, ..., n, and all of it is known. */
  ghost predicate Intact(s: State, c: Channel) {
    Sequences(s.sent, c) == UpTo(Stored(s, c))
  }

  /** Facts about a channel over every run: what was sent on it, how much of it is
      stored, the latest sequence of its session, if any, and whether it was opened. */
  ghost predicate TrackedAs(own: seq<nat>, stored: nat, latest: Option<nat>, used: bool) {
    && stored <= |own|
    && (forall i :: 0 <= i < |own| ==> own[i] > 0)
    && (!used ==> own == [])
    && (latest.Some? ==> latest.value == stored || (own != [] && latest.value == own[|own| - 1]))
  }

  ghost predicate Tracked(s: State, c: Channel) {
    TrackedAs(Sequences(s.sent, c), Stored(s, c), Latest(s, c), c in s.used)
  }

  lemma {:induction false} LatestWhenIntact(s: State, c: Channel)
    requires Good(s) && Tracked(s, c) && Intact(s, c) && c in s.sessions
    ensures s.sessions[c].latest == s.sessions[c].count
  {
    UpToLength(s.sessions[c].count);
    assert SessionOk(s, c);
  }

  /** Nothing but an ending process forgets, and then exactly what the row is behind. */
  lemma {:induction false} StoredKept(s: State, step: Step, c: Channel)
    requires Good(s) && Enabled(s, step) && !(IsSend(step) && s.asks[step.pid].channel == c)
    ensures var t := Next(s, step);
      && Stored(t, c) <= Stored(s, c)
      && (Stored(t, c) == Stored(s, c) <==> !(Ends(step) && Behind(s, c)))
      && (Latest(t, c) == None || Latest(t, c) == Some(Stored(t, c)) || (!Ends(step) && Latest(t, c) == Latest(s, c)))
      && (c in s.used ==> c in t.used)
    ensures c !in s.used ==> Stored(s, c) == 0
  {
    if c in s.sessions {
      assert SessionOk(s, c);
    }
  }

  /** One authorization more, after which `stored` and `latest` are what is kept. */
  lemma {:induction false} SendTracked(sent: seq<Auth>, a: Auth, c: Channel, stored: nat, latest: Option<nat>, used: bool,
                                       stored': nat, latest': Option<nat>, used': bool)
    requires TrackedAs(Sequences(sent, c), stored, latest, used) && a.sequence > 0
    requires if a.channel == c then stored' <= stored + 1 && used' else stored' <= stored && used' == used
    requires
      || latest' == None || latest' == Some(stored')
      || (if a.channel == c then latest' == Some(a.sequence) else latest' == latest && stored' == stored)
    ensures TrackedAs(Sequences(sent + [a], c), stored', latest', used')
  {
    SequencesSnoc(sent, a, c);
    if a.channel != c {
      AppendEmpty(Sequences(sent, c));
    }
  }

  lemma {:induction false} NextTracked(s: State, step: Step, c: Channel)
    requires Good(s) && Enabled(s, step) && Tracked(s, c)
    ensures Tracked(Next(s, step), c)
  {
    var t := Next(s, step);
    if IsSend(step) || step.SignedThenCrash? {
      var a := AuthOf(s.asks[step.pid]);
      SignedEffect(s, Signed(step.pid), c);
      if IsSend(step) {
        SignedEffect(s, step, c);
      } else {
        StoredKept(s, step, c);
      }
      SendTracked(s.sent, a, c, Stored(s, c), Latest(s, c), c in s.used, Stored(t, c), Latest(t, c), c in t.used);
    } else {
      StoredKept(s, step, c);
    }
  }

  lemma {:induction false} UpToSnoc(xs: seq<nat>, x: nat, n: nat)
    ensures xs + [x] == UpTo(n + 1) <==> xs == UpTo(n) && x == n + 1
  {
    if xs + [x] == UpTo(n + 1) {
      UpToLength(n);
      assert (xs + [x])[..|xs|] == xs && UpTo(n + 1)[..n] == UpTo(n);
      assert (xs + [x])[|xs|] == x && UpTo(n + 1)[n] == n + 1;
    }
  }

  /** A channel stays intact exactly through orderly steps, and is never mended. */
  lemma {:induction false} NextIntact(s: State, step: Step, c: Channel)
    requires Good(s) && Enabled(s, step) && Tracked(s, c)
    ensures Intact(Next(s, step), c) <==> Intact(s, c) && OrderlyStep(s, step, c)
  {
    SentIs(s, step);
    if Sends(s, step).Some? && s.asks[step.pid].channel == c {
      if IsSend(step) {
        SignedIntact(s, step, c);
      } else {
        LostIntact(s, step, c);
      }
    } else {
      var own := Sequences(s.sent, c);
      if Sends(s, step).None? {
        AppendEmpty(s.sent);
      } else {
        SequencesSnoc(s.sent, AuthOf(s.asks[step.pid]), c);
        AppendEmpty(own);
      }
      StoredKept(s, step, c);
      UpToLength(Stored(s, c));
      UpToLength(Stored(Next(s, step), c));
    }
  }

  /** A send on the channel: one number and one request more. */
  lemma {:induction false} SignedPushes(s: State, step: Step, c: Channel)
    requires Good(s) && Enabled(s, step) && IsSend(step) && s.asks[step.pid].channel == c
    ensures var t, x := Next(s, step), s.asks[step.pid].sequence;
      && c in s.sessions
      && Sequences(t.sent, c) == Sequences(s.sent, c) + [x]
      && Stored(t, c) == Stored(s, c) + 1
  {
    SignedEffect(s, step, c);
    SequencesSnoc(s.sent, AuthOf(s.asks[step.pid]), c);
  }

  lemma {:induction false} SendIsOrderlyIff(s: State, step: Step, c: Channel)
    requires Enabled(s, step) && IsSend(step) && s.asks[step.pid].channel == c && c in s.sessions
    ensures OrderlyStep(s, step, c) <==> s.asks[step.pid].sequence == s.sessions[c].latest + 1
  {
  }

  lemma {:induction false} PushIntact(own: seq<nat>, n: nat, x: nat, latest: nat)
    requires own == UpTo(n) ==> latest == n
    ensures own + [x] == UpTo(n + 1) <==> own == UpTo(n) && x == latest + 1
  {
    UpToSnoc(own, x, n);
  }

  lemma {:induction false} SignedIntact(s: State, step: Step, c: Channel)
    requires Good(s) && Enabled(s, step) && IsSend(step) && s.asks[step.pid].channel == c && Tracked(s, c)
    ensures Intact(Next(s, step), c) <==> Intact(s, c) && OrderlyStep(s, step, c)
  {
    SignedPushes(s, step, c);
    SendIsOrderlyIff(s, step, c);
    if Intact(s, c) {
      LatestWhenIntact(s, c);
    }
    PushIntact(Sequences(s.sent, c), Stored(s, c), s.asks[step.pid].sequence, s.sessions[c].latest);
  }

  lemma {:induction false} LostIntact(s: State, step: Step, c: Channel)
    requires Good(s) && Enabled(s, step) && step.SignedThenCrash? && s.asks[step.pid].channel == c && Tracked(s, c)
    ensures !Intact(Next(s, step), c)
  {
    var a, own := s.asks[step.pid], Sequences(s.sent, c);
    SequencesSnoc(s.sent, AuthOf(a), c);
    StoredKept(s, step, c);
    UpToLength(Stored(Next(s, step), c));
    assert |own + [a.sequence]| > Stored(Next(s, step), c);
  }

  /** Over every run, a channel that was intact still is if and only if the run was
      orderly for it. */
  lemma {:induction false} RunIntact(s: State, run: seq<Step>, c: Channel)
    requires Good(s) && Tracked(s, c) && Intact(s, c) && Legal(s, run) && AllSafe(s, run)
    ensures Intact(Run(s, run), c) <==> Orderly(s, run, c)
    ensures Good(Run(s, run)) && Tracked(Run(s, run), c)
    decreases |run|
  {
    if run != [] {
      NextGood(s, run[0]);
      NextTracked(s, run[0], c);
      NextIntact(s, run[0], c);
      var t := Next(s, run[0]);
      if Intact(t, c) {
        RunIntact(t, run[1..], c);
      } else {
        NeverMended(t, run[1..], c);
      }
    }
  }

  lemma {:induction false} NeverMended(s: State, run: seq<Step>, c: Channel)
    requires Good(s) && Tracked(s, c) && !Intact(s, c) && Legal(s, run) && AllSafe(s, run)
    ensures !Intact(Run(s, run), c)
    ensures Good(Run(s, run)) && Tracked(Run(s, run), c)
    decreases |run|
  {
    if run != [] {
      NextGood(s, run[0]);
      NextTracked(s, run[0], c);
      NextIntact(s, run[0], c);
      NeverMended(Next(s, run[0]), run[1..], c);
    }
  }

  lemma {:induction false} StartIntact(c: Channel)
    ensures Good(START) && Tracked(START, c) && Intact(START, c)
  {
    StartGood();
  }

  /** If every ask sent was for the next number and none was lost or forgotten, the
      sequences signed on the channel are 1, 2, 3, ... across every interleaving and restart. */
  lemma {:induction false} SequencesAreConsecutive(run: seq<Step>, c: Channel)
    requires Legal(START, run) && AllSafe(START, run) && Orderly(START, run, c)
    ensures var s := Run(START, run); Sequences(s.sent, c) == UpTo(Stored(s, c))
  {
    StartIntact(c);
    RunIntact(START, run, c);
  }

  /** Positive rising numbers reach at least their count, and exactly only as 1, 2, ... */
  lemma {:induction false} RisingReaches(xs: seq<nat>)
    requires xs != [] && Rising(xs) && forall i :: 0 <= i < |xs| ==> xs[i] > 0
    ensures xs[|xs| - 1] >= |xs|
    ensures xs[|xs| - 1] == |xs| ==> xs == UpTo(|xs|)
    decreases |xs|
  {
    var n := |xs| - 1;
    assert xs == xs[..n] + [xs[n]];
    if n > 0 {
      RisingReaches(xs[..n]);
    } else {
      assert xs[..0] == [];
    }
  }

  /** A broken channel whose numbers still rise has a stored count below its last number. */
  lemma {:induction false} BrokenIsBehind(s: State, c: Channel)
    requires Tracked(s, c) && !Intact(s, c) && Rising(Sequences(s.sent, c))
    ensures var own := Sequences(s.sent, c); own != [] && Stored(s, c) < own[|own| - 1]
  {
    var own := Sequences(s.sent, c);
    if own != [] {
      RisingReaches(own);
    }
  }

  // ----- continuing after a restart -----

  lemma {:induction false} RunStep(s: State, step: Step, rest: seq<Step>, c: Channel)
    requires Enabled(s, step) && Legal(Next(s, step), rest)
    ensures Legal(s, [step] + rest) && Run(s, [step] + rest) == Run(Next(s, step), rest)
    ensures AllSafe(s, [step] + rest) <==> Safe(s, step) && AllSafe(Next(s, step), rest)
    ensures Orderly(s, [step] + rest, c) <==> OrderlyStep(s, step, c) && Orderly(Next(s, step), rest, c)
  {
    assert ([step] + rest)[1..] == rest;
  }

  /** A process with nothing queued, whose current session is the channel's. */
  ghost predicate Idle(s: State, c: Channel) {
    s.asks == map[] && s.tail == None && s.current == Some(c) && c in s.sessions
  }

  function NextAsk(c: Channel, sequence: nat): seq<Step> {
    [Arrive(0, c, sequence, 0, 0)] + ([Begin(0)] + ([Signed(0)] + []))
  }

  lemma {:induction false} AskStarts(s: State, c: Channel, n: nat)
    requires Idle(s, c) && n == s.sessions[c].latest + 1
    ensures Enabled(s, Arrive(0, c, n, 0, 0)) && Enabled(Next(s, Arrive(0, c, n, 0, 0)), Begin(0))
    ensures var t := Next(Next(s, Arrive(0, c, n, 0, 0)), Begin(0));
      IsSigning(t, 0) && t.asks[0].channel == c && t.asks[0].sequence == n && t.sessions == s.sessions && t.sent == s.sent
  {
  }

  /** One ask for the next number, from start to end. */
  lemma {:induction false} AskNext(s: State, c: Channel, n: nat)
    requires Idle(s, c) && n == s.sessions[c].latest + 1
    ensures Legal(s, NextAsk(c, n)) && AllSafe(s, NextAsk(c, n)) && Orderly(s, NextAsk(c, n), c)
    ensures Sequences(Run(s, NextAsk(c, n)).sent, c) == Sequences(s.sent, c) + [n]
  {
    var e1, e2, e3 := Arrive(0, c, n, 0, 0), Begin(0), Signed(0);
    var s1 := Next(s, e1);
    var s2 := Next(s1, e2);
    AskStarts(s, c, n);
    RunStep(s2, e3, [], c);
    RunStep(s1, e2, [e3] + [], c);
    RunStep(s, e1, [e2] + ([e3] + []), c);
    SequencesSnoc(s.sent, AuthOf(s2.asks[0]), c);
  }

  function RestartAndAsk(s: State, c: Channel): seq<Step> {
    [Restart(Some(c))] + NextAsk(c, if c in s.rows then s.rows[c].count + 1 else 1)
  }

  lemma {:induction false} ResumeNext(s: State, c: Channel)
    requires c in s.rows && s.rows[c].active
    ensures var run := RestartAndAsk(s, c);
      && Legal(s, run) && AllSafe(s, run)
      && Sequences(Run(s, run).sent, c) == Sequences(s.sent, c) + [s.rows[c].count + 1]
  {
    var t := Next(s, Restart(Some(c)));
    AskNext(t, c, s.rows[c].count + 1);
    RunStep(s, Restart(Some(c)), NextAsk(c, s.rows[c].count + 1), c);
  }

  /** A continuation that goes on asking for next numbers keeps the channel's numbers rising. */
  ghost predicate KeepsRising(s: State, c: Channel) {
    forall run :: Legal(s, run) && AllSafe(s, run) && Orderly(s, run, c) ==> Rising(Sequences(Run(s, run).sent, c))
  }

  /** The process ends, and its successor continues the channel. */
  predicate Continues(step: Step, c: Channel) {
    Ends(step) && step.hydrated == Some(c)
  }

  /** After a restart or a crash that continues the channel, its numbers go on rising
      in every orderly continuation, further restarts and crashes included, if and only
      if up to and with that end every ask sent on it was for the next number, no crash
      fell between a sending and its persisting, and no process ended while the row was
      behind. */
  lemma {:induction false} NumbersKeptIff(run: seq<Step>, step: Step, c: Channel)
    requires Legal(START, run) && AllSafe(START, run)
    requires Enabled(Run(START, run), step) && Continues(step, c)
    ensures var s := Run(START, run);
      KeepsRising(Next(s, step), c) <==> Orderly(START, run, c) && OrderlyStep(s, step, c)
  {
    var s := Run(START, run);
    StartIntact(c);
    RunIntact(START, run, c);
    NextIntact(s, step, c);
    NextTracked(s, step, c);
    NextGood(s, step);
    var t := Next(s, step);
    if Intact(t, c) {
      forall more | Legal(t, more) && AllSafe(t, more) && Orderly(t, more, c)
        ensures Rising(Sequences(Run(t, more).sent, c))
      {
        RunIntact(t, more, c);
        UpToLength(Stored(Run(t, more), c));
      }
    } else if Rising(Sequences(t.sent, c)) {
      BrokenGoesBack(t, c);
    } else {
      assert Run(t, []) == t;
      assert Legal(t, []) && AllSafe(t, []) && Orderly(t, [], c);
    }
  }

  lemma {:induction false} BrokenGoesBack(t: State, c: Channel)
    requires Tracked(t, c) && !Intact(t, c) && Rising(Sequences(t.sent, c))
    requires Idle(t, c) && t.sessions[c].latest == Stored(t, c)
    ensures !KeepsRising(t, c)
  {
    var own, n := Sequences(t.sent, c), Stored(t, c) + 1;
    BrokenIsBehind(t, c);
    AskNext(t, c, n);
    var last := |own| - 1;
    var xs := own + [n];
    assert xs[last] == own[last] && xs[last + 1] == n;
  }

  /** The number a restarted session would need: the last one sent. */
  function LastSent(own: seq<nat>): nat {
    if own == [] then 0 else own[|own| - 1]
  }

  /** A restart, or a crash after a sending, leaves rising numbers and a session that
      continues them if and only if the run up to and with it was orderly. */
  lemma {:induction false} HydrationExactIff(run: seq<Step>, step: Step, c: Channel)
    requires Legal(START, run) && AllSafe(START, run)
    requires Enabled(Run(START, run), step) && Continues(step, c)
    ensures var s := Run(START, run);
      var t := Next(s, step);
      var own := Sequences(t.sent, c);
      && c in t.sessions
      && (Rising(own) && t.sessions[c].latest == LastSent(own) <==> Orderly(START, run, c) && OrderlyStep(s, step, c))
  {
    var s := Run(START, run);
    StartIntact(c);
    RunIntact(START, run, c);
    NextIntact(s, step, c);
    NextTracked(s, step, c);
    var t := Next(s, step);
    var own := Sequences(t.sent, c);
    if Intact(t, c) {
      UpToLength(Stored(t, c));
    } else if Rising(own) {
      BrokenIsBehind(t, c);
    }
  }

  // ----- the ways numbers are lost -----

  /** One channel, acknowledged, and one ask for `n` waiting for its signature. */
  function Waiting(n: nat): State
    requires n > 0
  {
    State(Some(0), 0, 1, map["c" := Session(0, 0, 0, 0, true, 9, 0)], Some("c"),
          map[0 := Ask(None, 0, 0, "c", n, 0, 0, Signing(Usage(1, 0, 0)))],
          map["c" := Row(0, 0, 0, true, 9)], {"c"}, [], 0)
  }

  function FirstAsk(n: nat, rest: seq<Step>): seq<Step> {
    [Open("c", 9)] + ([Ack("c")] + ([Arrive(0, "c", n, 0, 0)] + ([Begin(0)] + rest)))
  }

  lemma {:induction false} FirstAskWaits(n: nat, rest: seq<Step>)
    requires n > 0 && Legal(Waiting(n), rest)
    ensures Legal(START, FirstAsk(n, rest)) && Run(START, FirstAsk(n, rest)) == Run(Waiting(n), rest)
    ensures AllSafe(START, FirstAsk(n, rest)) <==> AllSafe(Waiting(n), rest)
  {
    var e1, e2, e3, e4 := Open("c", 9), Ack("c"), Arrive(0, "c", n, 0, 0), Begin(0);
    var s1 := Next(START, e1);
    var s2 := Next(s1, e2);
    var s3 := Next(s2, e3);
    assert s2.rows == map["c" := Row(0, 0, 0, true, 9)];
    assert Next(s3, e4) == Waiting(n);
    RunStep(s3, e4, rest, "c");
    RunStep(s2, e3, [e4] + rest, "c");
    RunStep(s1, e2, [e3] + ([e4] + rest), "c");
    RunStep(START, e1, [e2] + ([e3] + ([e4] + rest)), "c");
  }

  /** A crash between sending and persisting: 1 is signed twice, though every ask was
      for the next number. */
  lemma {:induction false} LostSendRepeats()
    ensures var run := FirstAsk(1, [SignedThenCrash(0, Some("c"))] + NextAsk("c", 1));
      Legal(START, run) && AllSafe(START, run) && Sequences(Run(START, run).sent, "c") == [1, 1]
  {
    var s, e := Waiting(1), SignedThenCrash(0, Some("c"));
    var t := Next(s, e);
    AskNext(t, "c", 1);
    RunStep(s, e, NextAsk("c", 1), "c");
    FirstAskWaits(1, [e] + NextAsk("c", 1));
    SequencesSnoc([], AuthOf(s.asks[0]), "c");
    assert t.sent == [] + [AuthOf(s.asks[0])];
  }

  /** Numbers passed over: after any first number above 2, the next process signs 2. */
  lemma {:induction false} RestartCanGoBack(n: nat)
    requires n > 2
    ensures var run := FirstAsk(n, [Signed(0)] + RestartAndAsk(Next(Waiting(n), Signed(0)), "c"));
      Legal(START, run) && AllSafe(START, run) && Sequences(Run(START, run).sent, "c") == [n, 2]
  {
    var s := Waiting(n);
    var s1 := Next(s, Signed(0));
    FirstSigned(n);
    ResumeNext(s1, "c");
    var rest := RestartAndAsk(s1, "c");
    RunStep(s, Signed(0), rest, "c");
    FirstAskWaits(n, [Signed(0)] + rest);
  }

  lemma {:induction false} FirstSigned(n: nat)
    requires n > 0
    ensures var s1 := Next(Waiting(n), Signed(0));
      "c" in s1.rows && s1.rows["c"] == Row(1, 0, 0, true, 9) && Sequences(s1.sent, "c") == [n]
  {
    var s := Waiting(n);
    SequencesSnoc([], AuthOf(s.asks[0]), "c");
    assert Next(s, Signed(0)).sent == [] + [AuthOf(s.asks[0])];
  }

  /** A refused row: every ask was for the next number and nothing crashed, and yet
      after a clean restart 1 is signed again. */
  lemma {:induction false} RefusedRowRepeats()
    ensures var run := FirstAsk(1, [SignedNotStored(0)] + ([Restart(Some("c"))] + NextAsk("c", 1)));
      Legal(START, run) && AllSafe(START, run) && Sequences(Run(START, run).sent, "c") == [1, 1]
  {
    var s, e := Waiting(1), SignedNotStored(0);
    var s1 := Next(s, e);
    SequencesSnoc([], AuthOf(s.asks[0]), "c");
    assert s1.sent == [] + [AuthOf(s.asks[0])];
    ResumeNext(s1, "c");
    RunStep(s, e, RestartAndAsk(s1, "c"), "c");
    FirstAskWaits(1, [e] + RestartAndAsk(s1, "c"));
  }

  /** What a failed re-open can do when it brings back a session that a disconnect
      dropped: two asks for 1 wait for their signatures. */
  function Doubled(): State {
    var ask := Ask(None, 0, 0, "c", 1, 0, 0, Signing(Usage(1, 0, 0)));
    State(Some(1), 1, 1, map["c" := Session(0, 0, 0, 0, true, 9, 1)], Some("c"),
          map[0 := ask, 1 := ask.(chain := 1)], map["c" := Row(0, 0, 0, true, 9)], {"c"}, [], 0)
  }

  function Reopen(rest: seq<Step>): seq<Step> {
    [Disconnect] + ([OpenFailed(Some("c"))] + ([Arrive(1, "c", 1, 0, 0)] + ([Begin(1)] + rest)))
  }

  /** The session is current again, while the first ask still waits. */
  function BroughtBack(): State {
    State(None, 1, 0, map["c" := Session(0, 0, 0, 0, true, 9, 1)], Some("c"),
          map[0 := Ask(None, 0, 0, "c", 1, 0, 0, Signing(Usage(1, 0, 0)))], map["c" := Row(0, 0, 0, true, 9)], {"c"}, [], 0)
  }

  lemma {:induction false} BringsBack(rest: seq<Step>)
    requires Legal(BroughtBack(), rest)
    ensures var run := [Disconnect] + ([OpenFailed(Some("c"))] + rest);
      Legal(Waiting(1), run) && Run(Waiting(1), run) == Run(BroughtBack(), rest) && !AllSafe(Waiting(1), run)
  {
    var s1 := Next(Waiting(1), Disconnect);
    assert Next(s1, OpenFailed(Some("c"))) == BroughtBack();
    RunStep(s1, OpenFailed(Some("c")), rest, "c");
    RunStep(Waiting(1), Disconnect, [OpenFailed(Some("c"))] + rest, "c");
    assert s1.asks[0].channel == "c" && !Harmless(s1, s1.asks[0]);
  }

  lemma {:induction false} ReopenDoubles(rest: seq<Step>)
    requires Legal(Doubled(), rest)
    ensures Legal(Waiting(1), Reopen(rest)) && Run(Waiting(1), Reopen(rest)) == Run(Doubled(), rest)
    ensures !AllSafe(Waiting(1), Reopen(rest))
  {
    var e3, e4 := Arrive(1, "c", 1, 0, 0), Begin(1);
    var s3 := Next(BroughtBack(), e3);
    assert Next(s3, e4) == Doubled();
    RunStep(s3, e4, rest, "c");
    RunStep(BroughtBack(), e3, [e4] + rest, "c");
    BringsBack([e3] + ([e4] + rest));
  }

  lemma {:induction false} DoubledSends()
    ensures var run := [Signed(0)] + ([Signed(1)] + []);
      Legal(Doubled(), run) && Sequences(Run(Doubled(), run).sent, "c") == [1, 1]
  {
    var s := Doubled();
    var s1 := Next(s, Signed(0));
    RunStep(s1, Signed(1), [], "c");
    RunStep(s, Signed(0), [Signed(1)] + [], "c");
    SequencesSnoc([], AuthOf(s.asks[0]), "c");
    SequencesSnoc(s1.sent, AuthOf(s1.asks[1]), "c");
    assert s1.sent == [] + [AuthOf(s.asks[0])];
  }

  /** Then one process sends 1 twice, without any crash. */
  lemma {:induction false} RestoredSessionSignsTwice()
    ensures var run := FirstAsk(1, Reopen([Signed(0)] + ([Signed(1)] + [])));
      Legal(START, run) && !AllSafe(START, run) && Sequences(Run(START, run).sent, "c") == [1, 1]
  {
    var rest := [Signed(0)] + ([Signed(1)] + []);
    DoubledSends();
    ReopenDoubles(rest);
    FirstAskWaits(1, Reopen(rest));
  }
}
