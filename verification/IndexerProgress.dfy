/**
 How far the indexer goes: never past the reorg buffer behind a head it has seen, in
 batches within the limit, and all the way there if its ticks complete.
 */
module IndexerProgress {
  import opened Wrappers
  import opened NetworkStore
  import opened Indexer

  // ----- never past the reorg buffer -----

  /** The greatest head a run has seen, if it has seen one. */
  function Highest(run: seq<Step>): Option<nat> {
    if run == [] then None
    else
      var s, before := run[|run| - 1], Highest(run[..|run| - 1]);
      if s.GotHead? && (before.None? || before.value < s.latest) then Some(s.latest) else before
  }

  /** A block lies behind the buffer of some head seen. */
  ghost predicate Final(c: Config, head: Option<nat>, block: nat) {
    head.Some? && block + c.safetyBlocks <= head.value
  }

  /** So do the checkpoint and whatever is being fetched, and no batch is too large. */
  ghost predicate Buffered(c: Config, w: World, head: Option<nat>) {
    && (w.checkpoint.Some? ==> Final(c, head, w.checkpoint.value))
    && (forall p :: p in w.waiting ==> WaitingBuffered(c, w, head, w.waiting[p]))
  }

  ghost predicate WaitingBuffered(c: Config, w: World, head: Option<nat>, t: Waiting) {
    match t
    case Head => true
    case Events(from, to) => Final(c, head, to) && from <= to < from + c.maxBlocksPerTick
    case Headers(to, _) => Final(c, head, to) && to < NextBlock(c, w.checkpoint) + c.maxBlocksPerTick
  }

  lemma {:induction false} RunSnoc(c: Config, h: History, w: World, run: seq<Step>)
    requires Legal(c, h, w, run) && run != []
    ensures var n := |run| - 1;
      && Legal(c, h, w, run[..n]) && Enabled(Run(c, h, w, run[..n]), run[n])
      && Run(c, h, w, run) == Next(c, h, Run(c, h, w, run[..n]), run[n])
    decreases |run|
  {
    var n := |run| - 1;
    if n > 0 {
      var w1 := Next(c, h, w, run[0]);
      RunSnoc(c, h, w1, run[1..]);
      assert run[1..][..n - 1] == run[..n][1..];
    } else {
      assert run[1..] == [] && run[..0] == [];
    }
  }

  lemma {:induction false} NextBuffered(c: Config, h: History, w: World, s: Step, head: Option<nat>, head': Option<nat>)
    requires Good(c, h, w) && Enabled(w, s) && Buffered(c, w, head)
    requires head' == if s.GotHead? && (head.None? || head.value < s.latest) then Some(s.latest) else head
    ensures Buffered(c, Next(c, h, w, s), head')
  {
    var z := Next(c, h, w, s);
    forall p | p in z.waiting ensures WaitingBuffered(c, z, head', z.waiting[p]) {
      if p in w.waiting {
        assert OnTime(c, h, w, w.waiting[p]);
      }
    }
  }

  /** Over every run from an empty store, whatever heads it is told and whatever fails:
      neither the checkpoint nor any range being fetched lies past the reorg buffer behind
      the greatest head seen, and no batch holds more blocks than a tick may take. */
  lemma {:induction false} NeverPastBuffer(c: Config, h: History, run: seq<Step>)
    requires Legal(c, h, START, run)
    ensures Buffered(c, Run(c, h, START, run), Highest(run)) && Good(c, h, Run(c, h, START, run))
    decreases |run|
  {
    if run == [] {
      StartIsGood(c, h);
    } else {
      var n := |run| - 1;
      RunSnoc(c, h, START, run);
      NeverPastBuffer(c, h, run[..n]);
      var w := Run(c, h, START, run[..n]);
      NextIsGood(c, h, w, run[n]);
      NextBuffered(c, h, w, run[n], Highest(run[..n]), Highest(run));
    }
  }

  // ----- what one head leads to -----

  /** Told the head, a tick ends there if and only if no block behind the buffer is left;
      otherwise it fetches from the next block on, as far as buffer and limit allow. */
  lemma {:induction false} FetchesIff(c: Config, h: History, w: World, pid: Pid, latest: nat)
    requires Good(c, h, w) && Enabled(w, GotHead(pid, latest))
    ensures var z, from := Next(c, h, w, GotHead(pid, latest)), NextBlock(c, w.checkpoint);
      && (pid in z.waiting <==> from + c.safetyBlocks <= latest)
      && z.tables == w.tables && z.checkpoint == w.checkpoint
      && (pid in z.waiting ==>
            var t := z.waiting[pid];
            && t.Events? && t.from == from <= t.to
            && t.to + c.safetyBlocks <= latest && t.to < from + c.maxBlocksPerTick
            && (t.to + c.safetyBlocks == latest || t.to + 1 == from + c.maxBlocksPerTick))
      && (pid !in z.waiting ==> !z.running)
  {
  }

  // ----- what a step changes -----

  /** The events of a range are those of its blocks, one block after the other. */
  lemma {:induction false} EventsInIs(h: History, from: nat, to: int)
    requires from <= to + 1
    ensures EventsIn(h, from, to) == Flatten(seq(to + 1 - from, i requires 0 <= i < to + 1 - from => h(from + i)))
    decreases 1 + to - from
  {
    if from <= to {
      var blocks := seq(to + 1 - from, i requires 0 <= i < to + 1 - from => h(from + i));
      var before := seq(to - from, i requires 0 <= i < to - from => h(from + i));
      EventsInIs(h, from, to - 1);
      assert blocks == before + [h(to)];
      FlattenAppend(before, [h(to)]);
      assert [h(to)][1..] == [];
      AppendEmpty(h(to));
    }
  }

  /** The step that ends a tick by committing its batch, and the batch. */
  ghost predicate Commits(c: Config, w: World, s: Step) {
    || (s.GotEvents? && !c.headers && s.committed)
    || (s.GotHeaders? && !s.more && s.committed)
  }

  /** Only a commit changes what is stored: it applies the events of exactly the blocks
      from the next one to the new checkpoint. A rollback, a failure, a head, a restart
      and a second tick change nothing that is stored. */
  lemma {:induction false} OnlyCommitsStore(c: Config, h: History, w: World, s: Step)
    requires Good(c, h, w) && Enabled(w, s)
    ensures var z, from := Next(c, h, w, s), NextBlock(c, w.checkpoint);
      if Commits(c, w, s) then
        && w.waiting[s.pid].to >= from
        && z.checkpoint == Some(w.waiting[s.pid].to)
        && z.tables == ApplyAll(w.tables, EventsIn(h, from, w.waiting[s.pid].to))
      else z.checkpoint == w.checkpoint && z.tables == w.tables
  {
    if Commits(c, w, s) {
      assert OnTime(c, h, w, w.waiting[s.pid]);
    }
  }

  /** A tick under way waits for its head, then the events, then, if they are fetched,
      the headers; whatever ends it, it waits no more. */
  lemma {:induction false} StagesAre(c: Config, h: History, w: World, s: Step)
    requires Good(c, h, w) && Enabled(w, s)
    ensures var z := Next(c, h, w, s);
      match s
      case Tick(pid) => if w.running then z == w else pid in z.waiting && z.waiting[pid].Head?
      case GotHead(pid, _) => pid in z.waiting ==> z.waiting[pid].Events?
      case GotEvents(pid, _) => if c.headers then pid in z.waiting && z.waiting[pid].Headers? else pid !in z.waiting
      case GotHeaders(pid, more, _) => if more then z == w else pid !in z.waiting
      case Failed(pid) => pid !in z.waiting
      case Restart => z.waiting == map[]
  {
  }

  /** Over every run a tick can start exactly when none is under way: the guard is never
      left set by a tick that is gone. */
  lemma {:induction false} GuardIffWaiting(c: Config, h: History, run: seq<Step>)
    requires Legal(c, h, START, run)
    ensures Run(c, h, START, run).running <==> Run(c, h, START, run).waiting != map[]
    decreases |run|
  {
    if run != [] {
      var n := |run| - 1;
      RunSnoc(c, h, START, run);
      GuardIffWaiting(c, h, run[..n]);
      NeverPastBuffer(c, h, run[..n]);
      var w := Run(c, h, START, run[..n]);
      NextIsGood(c, h, w, run[n]);
      GuardStep(c, h, w, run[n]);
    }
  }

  lemma {:induction false} GuardStep(c: Config, h: History, w: World, s: Step)
    requires Good(c, h, w) && Enabled(w, s) && (w.running <==> w.waiting != map[])
    ensures Next(c, h, w, s).running <==> Next(c, h, w, s).waiting != map[]
  {
    var z := Next(c, h, w, s);
    if !s.Restart? && s.pid in z.waiting {
      assert z.waiting != map[];
    }
    if !s.Restart? && !s.Tick? && s.pid !in z.waiting {
      assert z.waiting == map[];
    }
  }

  /** A limit of its own or two thousand blocks. */
  lemma {:induction false} LimitIs(deployBlock: nat, safetyBlocks: nat, maxBlocks: Option<nat>, headers: bool)
    ensures var c := MakeConfig(deployBlock, safetyBlocks, maxBlocks, headers);
      && c.deployBlock == deployBlock && c.safetyBlocks == safetyBlocks && c.headers == headers
      && (maxBlocks in {None, Some(0)} ==> c.maxBlocksPerTick == 2000)
      && (maxBlocks !in {None, Some(0)} ==> maxBlocks == Some(c.maxBlocksPerTick))
  {
  }

  // ----- all the way there -----

  /** No tick is under way. */
  ghost predicate Idle(w: World) {
    !w.running && w.waiting == map[]
  }

  /** The ticks a run starts. */
  function Ticks(run: seq<Step>): nat {
    if run == [] then 0 else (if run[0].Tick? then 1 else 0) + Ticks(run[1..])
  }

  /** Every head is this one, and nothing fails. */
  ghost predicate Smooth(run: seq<Step>, latest: nat) {
    forall i :: 0 <= i < |run| ==> SmoothStep(run[i], latest)
  }

  ghost predicate SmoothStep(s: Step, latest: nat) {
    match s
    case Tick(_) => true
    case GotHead(_, l) => l == latest
    case GotEvents(_, committed) => committed
    case GotHeaders(_, more, committed) => !more && committed
    case _ => false
  }

  lemma {:induction false} RunAppend(c: Config, h: History, w: World, a: seq<Step>, b: seq<Step>)
    requires Legal(c, h, w, a) && Legal(c, h, Run(c, h, w, a), b)
    ensures Legal(c, h, w, a + b) && Run(c, h, w, a + b) == Run(c, h, Run(c, h, w, a), b)
    ensures Ticks(a + b) == Ticks(a) + Ticks(b)
    decreases |a|
  {
    if a == [] {
      assert a + b == b;
    } else {
      assert (a + b)[1..] == a[1..] + b;
      RunAppend(c, h, Next(c, h, w, a[0]), a[1..], b);
    }
  }

  lemma {:induction false} RunCons(c: Config, h: History, w: World, s: Step, rest: seq<Step>)
    requires Enabled(w, s) && Legal(c, h, Next(c, h, w, s), rest)
    ensures Legal(c, h, w, [s] + rest) && Run(c, h, w, [s] + rest) == Run(c, h, Next(c, h, w, s), rest)
    ensures Ticks([s] + rest) == (if s.Tick? then 1 else 0) + Ticks(rest)
  {
    assert ([s] + rest)[1..] == rest;
  }

  /** One tick from start to end, while a block behind the buffer is left. */
  lemma {:induction false} OneTick(c: Config, h: History, w: World, pid: Pid, latest: nat) returns (run: seq<Step>)
    requires Good(c, h, w) && Idle(w) && NextBlock(c, w.checkpoint) + c.safetyBlocks <= latest
    ensures Legal(c, h, w, run) && Smooth(run, latest) && Ticks(run) == 1
    ensures var z := Run(c, h, w, run);
      && Idle(z) && Good(c, h, z) && z.checkpoint.Some?
      && z.checkpoint.value + c.safetyBlocks <= latest
      && (z.checkpoint.value + c.safetyBlocks == latest || z.checkpoint.value + 1 == NextBlock(c, w.checkpoint) + c.maxBlocksPerTick)
  {
    var e1, e2, e3, e4 := Tick(pid), GotHead(pid, latest), GotEvents(pid, true), GotHeaders(pid, false, true);
    var w1 := Next(c, h, w, e1);
    NextIsGood(c, h, w, e1);
    FetchesIff(c, h, w1, pid, latest);
    var w2 := Next(c, h, w1, e2);
    NextIsGood(c, h, w1, e2);
    var w3 := Next(c, h, w2, e3);
    NextIsGood(c, h, w2, e3);
    var last: seq<Step> := [];
    if c.headers {
      NextIsGood(c, h, w3, e4);
      RunCons(c, h, w3, e4, []);
      last := [e4] + [];
    }
    RunCons(c, h, w2, e3, last);
    RunCons(c, h, w1, e2, [e3] + last);
    RunCons(c, h, w, e1, [e2] + ([e3] + last));
    run := [e1] + ([e2] + ([e3] + last));
  }

  lemma {:induction false} TimesLess(n: nat, limit: nat)
    requires n > 0
    ensures n * limit == (n - 1) * limit + limit
  {
  }

  /** If the blocks left fit into n ticks, then n smooth ticks at most bring the checkpoint
      to the last block behind the buffer, and not past it. */
  lemma {:induction false} ReachesHead(c: Config, h: History, w: World, pid: Pid, latest: nat, n: nat) returns (run: seq<Step>)
    requires Good(c, h, w) && Idle(w) && NextBlock(c, w.checkpoint) + c.safetyBlocks <= latest + 1
    requires latest + 1 <= NextBlock(c, w.checkpoint) + c.safetyBlocks + n * c.maxBlocksPerTick
    ensures Legal(c, h, w, run) && Smooth(run, latest) && Ticks(run) <= n
    ensures var z := Run(c, h, w, run);
      Idle(z) && Good(c, h, z) && NextBlock(c, z.checkpoint) + c.safetyBlocks == latest + 1
    decreases n
  {
    assert n == 0 ==> n * c.maxBlocksPerTick == 0;
    if NextBlock(c, w.checkpoint) + c.safetyBlocks == latest + 1 {
      run := [];
    } else {
      TimesLess(n, c.maxBlocksPerTick);
      var first := OneTick(c, h, w, pid, latest);
      var z := Run(c, h, w, first);
      var rest: seq<Step>;
      if z.checkpoint.value + c.safetyBlocks == latest {
        rest := [];
      } else {
        rest := ReachesHead(c, h, z, pid, latest, n - 1);
      }
      RunAppend(c, h, w, first, rest);
      run := first + rest;
    }
  }
}
