/**
 The view cache: completed values by key, loads in flight by key, and a
 generation that every invalidation advances. A value is identified with the
 load that produced it. Loads finish in any order, after any invalidations.
 */
module ViewCache {
  import opened Wrappers

  type Key = string
  type Pid = nat

  datatype Entry = Entry(at: nat, load: Pid)

  /** A load remembers its key and the generation it began in. */
  datatype Load = Load(key: Key, generation: nat, settled: bool)

  datatype State = State(entries: map<Key, Entry>, inflight: map<Key, Pid>, generation: nat, loads: map<Pid, Load>)

  const START := State(map[], map[], 0, map[])

  /** The clock, the time to live and the caching rule are given with each step. */
  datatype Step =
    | Read(key: Key, pid: Pid, now: nat, ttl: nat)
    | Complete(pid: Pid, now: nat, keep: bool)
    | Fail(pid: Pid)
    | Invalidate

  predicate Enabled(s: State, step: Step) {
    match step
    case Read(_, pid, _, _) => pid !in s.loads
    case Complete(pid, _, _) => pid in s.loads && !s.loads[pid].settled
    case Fail(pid) => pid in s.loads && !s.loads[pid].settled
    case Invalidate => true
  }

  predicate Hit(s: State, key: Key, now: nat, ttl: nat) {
    key in s.entries && now - s.entries[key].at < ttl
  }

  /** The load whose value a read returns: a cached one, one in flight, or a new one. */
  function Source(s: State, key: Key, pid: Pid, now: nat, ttl: nat): Pid {
    if Hit(s, key, now, ttl) then s.entries[key].load
    else if key in s.inflight then s.inflight[key]
    else pid
  }

  function Settle(s: State, pid: Pid): State
    requires pid in s.loads
  {
    var key := s.loads[pid].key;
    s.(loads := s.loads[pid := s.loads[pid].(settled := true)],
       inflight := if key in s.inflight && s.inflight[key] == pid then s.inflight - {key} else s.inflight)
  }

  function Next(s: State, step: Step): State
    requires Enabled(s, step)
  {
    match step
    case Read(key, pid, now, ttl) =>
      if Hit(s, key, now, ttl) || key in s.inflight then s
      else s.(inflight := s.inflight[key := pid], loads := s.loads[pid := Load(key, s.generation, false)])
    case Complete(pid, now, keep) =>
      var key := s.loads[pid].key;
      var t := if s.loads[pid].generation != s.generation then s
               else if keep then s.(entries := s.entries[key := Entry(now, pid)])
               else s.(entries := s.entries - {key});
      Settle(t, pid)
    case Fail(pid) => Settle(s, pid)
    case Invalidate => s.(generation := s.generation + 1, inflight := map[], entries := map[])
  }

  ghost predicate Legal(s: State, run: seq<Step>)
    decreases |run|
  {
    run != [] ==> Enabled(s, run[0]) && Legal(Next(s, run[0]), run[1..])
  }

  function Run(s: State, run: seq<Step>): State
    requires Legal(s, run)
    decreases |run|
  {
    if run == [] then s else Run(Next(s, run[0]), run[1..])
  }

  // ----- what every interleaving keeps -----

  ghost predicate EntryOk(s: State, key: Key)
    requires key in s.entries
  {
    var p := s.entries[key].load;
    p in s.loads && s.loads[p] == Load(key, s.generation, true)
  }

  ghost predicate InflightOk(s: State, key: Key)
    requires key in s.inflight
  {
    s.inflight[key] in s.loads && s.loads[s.inflight[key]] == Load(key, s.generation, false)
  }

  /** A load of the current generation that has not settled is the one in flight for its key. */
  ghost predicate LoadOk(s: State, pid: Pid)
    requires pid in s.loads
  {
    var l := s.loads[pid];
    && l.generation <= s.generation
    && (l.generation == s.generation && !l.settled ==> l.key in s.inflight && s.inflight[l.key] == pid)
  }

  ghost predicate Inv(s: State) {
    && (forall k {:trigger EntryOk(s, k)} :: k in s.entries ==> EntryOk(s, k))
    && (forall k {:trigger InflightOk(s, k)} :: k in s.inflight ==> InflightOk(s, k))
    && (forall p {:trigger LoadOk(s, p)} :: p in s.loads ==> LoadOk(s, p))
  }

  lemma {:induction false} SettleKeepsInv(s: State, t: State, pid: Pid)
    requires Inv(s) && pid in s.loads && !s.loads[pid].settled
    requires t.inflight == s.inflight && t.generation == s.generation && t.loads == s.loads
    requires forall k :: k in t.entries ==>
      (k in s.entries && t.entries[k] == s.entries[k]) ||
      (t.entries[k].load == pid && s.loads[pid].key == k && s.loads[pid].generation == s.generation)
    ensures Inv(Settle(t, pid))
  {
    var u := Settle(t, pid);
    assert LoadOk(s, pid);
    forall k | k in u.entries ensures EntryOk(u, k) {
      if k in s.entries && t.entries[k] == s.entries[k] {
        assert EntryOk(s, k);
      }
    }
    forall k | k in u.inflight ensures InflightOk(u, k) {
      assert InflightOk(s, k);
    }
    forall p | p in u.loads ensures LoadOk(u, p) {
      assert LoadOk(s, p);
    }
  }

  lemma {:induction false} NextKeepsInv(s: State, step: Step)
    requires Inv(s) && Enabled(s, step)
    ensures Inv(Next(s, step))
  {
    match step
    case Read(key, pid, now, ttl) => ReadKeepsInv(s, key, pid, now, ttl);
    case Complete(pid, now, keep) =>
      var key := s.loads[pid].key;
      var t := if s.loads[pid].generation != s.generation then s
               else if keep then s.(entries := s.entries[key := Entry(now, pid)])
               else s.(entries := s.entries - {key});
      SettleKeepsInv(s, t, pid);
    case Fail(pid) => SettleKeepsInv(s, s, pid);
    case Invalidate =>
      var t := Next(s, step);
      forall p | p in t.loads ensures LoadOk(t, p) {
        assert LoadOk(s, p);
      }
  }

  lemma {:induction false} ReadKeepsInv(s: State, key: Key, pid: Pid, now: nat, ttl: nat)
    requires Inv(s) && pid !in s.loads
    ensures Inv(Next(s, Read(key, pid, now, ttl)))
  {
    var t := Next(s, Read(key, pid, now, ttl));
    forall k | k in t.entries ensures EntryOk(t, k) {
      assert EntryOk(s, k);
    }
    forall k | k in t.inflight ensures InflightOk(t, k) {
      if k in s.inflight {
        assert InflightOk(s, k);
      }
    }
    forall p | p in t.loads ensures LoadOk(t, p) {
      if p in s.loads {
        assert LoadOk(s, p);
      }
    }
  }

  lemma {:induction false} RunKeepsInv(s: State, run: seq<Step>)
    requires Inv(s) && Legal(s, run)
    ensures Inv(Run(s, run))
    decreases |run|
  {
    if run != [] {
      NextKeepsInv(s, run[0]);
      RunKeepsInv(Next(s, run[0]), run[1..]);
    }
  }

  /** In every interleaving a read returns the value of a load of the same key
      that began in the generation the read is made in: none that began before the
      last invalidation. */
  lemma {:induction false} ReadsAreFresh(run: seq<Step>, key: Key, pid: Pid, now: nat, ttl: nat)
    requires Legal(START, run) && pid !in Run(START, run).loads
    ensures var s := Run(START, run);
      var t := Next(s, Read(key, pid, now, ttl));
      var from := Source(s, key, pid, now, ttl);
      && from in t.loads && t.loads[from].key == key && t.loads[from].generation == s.generation
      && (t.loads[from].settled <==> Hit(s, key, now, ttl))
  {
    RunKeepsInv(START, run);
    var s := Run(START, run);
    if key in s.entries {
      assert EntryOk(s, key);
    }
    if key in s.inflight {
      assert InflightOk(s, key);
    }
  }

  /** Since the last invalidation there is at most one load in flight per key. */
  lemma {:induction false} OneLoadPerKey(run: seq<Step>, p: Pid, q: Pid)
    requires Legal(START, run)
    requires var s := Run(START, run);
      && p in s.loads && q in s.loads && s.loads[p] == s.loads[q]
      && s.loads[p].generation == s.generation && !s.loads[p].settled
    ensures p == q
  {
    RunKeepsInv(START, run);
    var s := Run(START, run);
    assert LoadOk(s, p) && LoadOk(s, q);
  }

  /** A load that outlives its generation changes neither the values nor the loads in flight. */
  lemma {:induction false} StaleLoadsAreIgnored(run: seq<Step>, step: Step)
    requires Legal(START, run) && Enabled(Run(START, run), step) && (step.Complete? || step.Fail?)
    requires Run(START, run).loads[step.pid].generation != Run(START, run).generation
    ensures var s := Run(START, run);
      Next(s, step).entries == s.entries && Next(s, step).inflight == s.inflight
  {
    RunKeepsInv(START, run);
    var s := Run(START, run);
    var key := s.loads[step.pid].key;
    if key in s.inflight {
      assert InflightOk(s, key);
    }
  }

  // ----- what a read is served -----

  lemma {:induction false} RunSnoc(s: State, run: seq<Step>)
    requires Legal(s, run) && run != []
    ensures var n := |run| - 1;
      Legal(s, run[..n]) && Enabled(Run(s, run[..n]), run[n]) && Run(s, run) == Next(Run(s, run[..n]), run[n])
    decreases |run|
  {
    var n := |run| - 1;
    if n > 0 {
      RunSnoc(Next(s, run[0]), run[1..]);
      assert run[1..][..n - 1] == run[..n][1..];
    } else {
      assert run[1..] == [] && run[..0] == [];
    }
  }

  /** The load was completed at that time, and its value kept. */
  ghost predicate KeptAt(run: seq<Step>, pid: Pid, at: nat) {
    exists j :: 0 <= j < |run| && run[j] == Complete(pid, at, true)
  }

  lemma {:induction false} EntryWasKept(run: seq<Step>, key: Key)
    requires Legal(START, run) && key in Run(START, run).entries
    ensures var e := Run(START, run).entries[key]; KeptAt(run, e.load, e.at)
    decreases |run|
  {
    if run != [] {
      var n := |run| - 1;
      RunSnoc(START, run);
      var s, e := Run(START, run[..n]), Run(START, run).entries[key];
      if key in s.entries && s.entries[key] == e {
        EntryWasKept(run[..n], key);
        var j :| 0 <= j < n && run[..n][j] == Complete(e.load, e.at, true);
        assert run[j] == run[..n][j];
      } else {
        assert run[n] == Complete(e.load, e.at, true);
      }
    }
  }

  /** In every interleaving, a read that is served a finished load gets one whose value
      was kept less than the time to live ago. */
  lemma {:induction false} ServedIsYoung(run: seq<Step>, key: Key, pid: Pid, now: nat, ttl: nat)
    requires Legal(START, run) && pid !in Run(START, run).loads
    ensures var s := Run(START, run);
      var from := Source(s, key, pid, now, ttl);
      from in s.loads && s.loads[from].settled ==> exists at :: KeptAt(run, from, at) && now - at < ttl
  {
    ReadsAreFresh(run, key, pid, now, ttl);
    var s := Run(START, run);
    if key in s.entries {
      EntryWasKept(run, key);
    }
  }

  /** Nothing happens to the key: no invalidation, and no current load of it completes. */
  ghost predicate Undisturbed(s: State, run: seq<Step>, key: Key)
    requires Legal(s, run)
    decreases |run|
  {
    run != [] ==>
      && !run[0].Invalidate?
      && (run[0].Complete? ==> s.loads[run[0].pid].key != key || s.loads[run[0].pid].generation != s.generation)
      && Undisturbed(Next(s, run[0]), run[1..], key)
  }

  lemma {:induction false} EntryStays(s: State, run: seq<Step>, key: Key)
    requires Legal(s, run) && Undisturbed(s, run, key) && key in s.entries
    ensures key in Run(s, run).entries && Run(s, run).entries[key] == s.entries[key]
    decreases |run|
  {
    if run != [] {
      EntryStays(Next(s, run[0]), run[1..], key);
    }
  }

  /** A value that is kept is served to every read of its key within the time to live,
      without another load, until something happens to the key. */
  lemma {:induction false} KeptIsServed(s: State, pid: Pid, at: nat, more: seq<Step>, q: Pid, now: nat, ttl: nat)
    requires Enabled(s, Complete(pid, at, true)) && s.loads[pid].generation == s.generation
    requires var t := Next(s, Complete(pid, at, true)); Legal(t, more) && Undisturbed(t, more, s.loads[pid].key)
    requires now - at < ttl && q !in Run(Next(s, Complete(pid, at, true)), more).loads
    ensures var key, z := s.loads[pid].key, Run(Next(s, Complete(pid, at, true)), more);
      Source(z, key, q, now, ttl) == pid && Next(z, Read(key, q, now, ttl)) == z
  {
    EntryStays(Next(s, Complete(pid, at, true)), more, s.loads[pid].key);
  }

  /** A load of the key is under way in the current generation. */
  ghost predicate Loading(s: State, key: Key) {
    exists p :: p in s.loads && s.loads[p] == Load(key, s.generation, false)
  }

  /** A read starts a load exactly when no kept value of the key is young enough and no
      load of it is under way; a load under way is shared. */
  lemma {:induction false} StartsIff(run: seq<Step>, key: Key, pid: Pid, now: nat, ttl: nat)
    requires Legal(START, run) && pid !in Run(START, run).loads
    ensures var s := Run(START, run);
      var t := Next(s, Read(key, pid, now, ttl));
      && (pid in t.loads <==> !(key in s.entries && now < s.entries[key].at + ttl) && !Loading(s, key))
      && (pid in t.loads ==> Source(s, key, pid, now, ttl) == pid && t.loads[pid] == Load(key, s.generation, false))
      && (pid !in t.loads ==> t == s)
      && (!(key in s.entries && now < s.entries[key].at + ttl) && Loading(s, key) ==>
            var from := Source(s, key, pid, now, ttl); from in s.loads && s.loads[from] == Load(key, s.generation, false))
  {
    RunKeepsInv(START, run);
    var s := Run(START, run);
    if key in s.inflight {
      assert InflightOk(s, key);
    }
    if Loading(s, key) {
      var p :| p in s.loads && s.loads[p] == Load(key, s.generation, false);
      assert LoadOk(s, p);
    }
  }

  /** A load that fails, or whose value is not to be kept, leaves the key without a value
      of its own and without a load, so that the next read starts one. */
  lemma {:induction false} NotKeptIsGone(run: seq<Step>, step: Step)
    requires Legal(START, run) && Enabled(Run(START, run), step)
    requires step.Fail? || (step.Complete? && !step.keep)
    requires Run(START, run).loads[step.pid].generation == Run(START, run).generation
    ensures var s := Run(START, run);
      var key, t := s.loads[step.pid].key, Next(s, step);
      && !Loading(t, key)
      && (step.Complete? ==> key !in t.entries)
      && (step.Fail? ==> t.entries == s.entries)
  {
    RunKeepsInv(START, run);
    var s := Run(START, run);
    var key, t := s.loads[step.pid].key, Next(s, step);
    assert LoadOk(s, step.pid);
    forall p | p in t.loads ensures t.loads[p] != Load(key, t.generation, false) {
      if p in s.loads {
        assert LoadOk(s, p);
      }
    }
  }

  // ----- the cache as it runs -----

  class Cache {
    var entries: map<Key, Entry>
    var inflight: map<Key, Pid>
    var generation: nat

    constructor ()
      ensures Of(START)
    {
      entries, inflight, generation := map[], map[], 0;
    }

    ghost predicate Of(s: State)
      reads this
    {
      entries == s.entries && inflight == s.inflight && generation == s.generation
    }

    /** Answers which load the value comes from, and whether it is a new one. */
    method Read(key: Key, pid: Pid, now: nat, ttl: nat, ghost s: State) returns (from: Pid, load: Option<Load>)
      requires Of(s) && pid !in s.loads
      modifies this
      ensures from == Source(s, key, pid, now, ttl)
      ensures Of(Next(s, Step.Read(key, pid, now, ttl)))
      ensures Next(s, Step.Read(key, pid, now, ttl)).loads == if load.Some? then s.loads[pid := load.value] else s.loads
    {
      if key in entries && now - entries[key].at < ttl {
        return entries[key].load, None;
      }
      if key in inflight {
        return inflight[key], None;
      }
      inflight := inflight[key := pid];
      return pid, Some(Load(key, generation, false));
    }

    method Complete(pid: Pid, l: Load, now: nat, keep: bool, ghost s: State)
      requires Of(s) && Enabled(s, Step.Complete(pid, now, keep)) && s.loads[pid] == l
      modifies this
      ensures Of(Next(s, Step.Complete(pid, now, keep)))
    {
      if l.generation == generation {
        if keep {
          entries := entries[l.key := Entry(now, pid)];
        } else {
          entries := entries - {l.key};
        }
      }
      SettleLoad(pid, l);
    }

    method FailLoad(pid: Pid, l: Load, ghost s: State)
      requires Of(s) && Enabled(s, Step.Fail(pid)) && s.loads[pid] == l
      modifies this
      ensures Of(Next(s, Step.Fail(pid)))
    {
      SettleLoad(pid, l);
    }

    method SettleLoad(pid: Pid, l: Load)
      modifies this`inflight
      ensures inflight == if l.key in old(inflight) && old(inflight)[l.key] == pid then old(inflight) - {l.key} else old(inflight)
    {
      if l.key in inflight && inflight[l.key] == pid {
        inflight := inflight - {l.key};
      }
    }

    method Invalidate(ghost s: State)
      requires Of(s)
      modifies this
      ensures Of(Next(s, Step.Invalidate))
    {
      generation, inflight, entries := generation + 1, map[], map[];
    }
  }
}
