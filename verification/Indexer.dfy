/**
 The event indexer. A tick waits for the chain head, for the events of a block
 range and for block headers, then applies the batch and the checkpoint in one
 transaction. Ticks may start while another is waiting, any wait may fail, the
 transaction may roll back, and the process may restart.
 */
module Indexer {
  import opened Wrappers
  import opened NetworkStore

  type Pid = nat

  type Limit = n: nat | n > 0 witness 1

  /** `headers` says whether block headers are fetched at all. */
  datatype Config = Config(deployBlock: nat, safetyBlocks: nat, maxBlocksPerTick: Limit, headers: bool)

  /** An absent or zero limit means the default. */
  function MakeConfig(deployBlock: nat, safetyBlocks: nat, maxBlocks: Option<nat>, headers: bool): Config {
    Config(deployBlock, safetyBlocks, if maxBlocks.Some? && maxBlocks.value > 0 then maxBlocks.value else 2000, headers)
  }

  /** The events of each final block, in log order. */
  type History = nat -> seq<Event>

  /** The events of the blocks from..to, in order. */
  function EventsIn(h: History, from: nat, to: int): seq<Event>
    decreases if from <= to then to - from + 1 else 0
  {
    if to < from then [] else EventsIn(h, from, to - 1) + h(to)
  }

  datatype Waiting =
    | Head
    | Events(from: nat, to: nat)
    | Headers(to: nat, events: seq<Event>)

  datatype World = World(tables: Tables, checkpoint: Option<nat>, running: bool, waiting: map<Pid, Waiting>)

  const START := World(EMPTY, None, false, map[])

  datatype Step =
    | Tick(pid: Pid)
    | GotHead(pid: Pid, latest: nat)
    | GotEvents(pid: Pid, committed: bool)
    | GotHeaders(pid: Pid, more: bool, committed: bool)
    | Failed(pid: Pid)
    | Restart

  predicate Enabled(w: World, s: Step) {
    match s
    case Tick(pid) => pid !in w.waiting
    case GotHead(pid, _) => pid in w.waiting && w.waiting[pid].Head?
    case GotEvents(pid, _) => pid in w.waiting && w.waiting[pid].Events?
    case GotHeaders(pid, _, _) => pid in w.waiting && w.waiting[pid].Headers?
    case Failed(pid) => pid in w.waiting
    case Restart => true
  }

  /** The first block not yet applied. */
  function NextBlock(c: Config, checkpoint: Option<nat>): nat {
    if checkpoint.None? then c.deployBlock else checkpoint.value + 1
  }

  /** The range to fetch, once the head is known. */
  function Range(c: Config, checkpoint: Option<nat>, latest: nat): Option<(nat, nat)> {
    var safeTo := latest - c.safetyBlocks;
    if safeTo < c.deployBlock then None
    else
      var from := NextBlock(c, checkpoint);
      if from > safeTo then None
      else Some((from, Min(safeTo, from + c.maxBlocksPerTick - 1)))
  }

  function Finish(w: World, pid: Pid): World {
    w.(running := false, waiting := w.waiting - {pid})
  }

  /** The transaction: everything, or nothing when it throws. */
  function Commit(w: World, events: seq<Event>, to: nat, committed: bool): World {
    if committed then w.(tables := ApplyAll(w.tables, events), checkpoint := Some(to)) else w
  }

  function Next(c: Config, h: History, w: World, s: Step): World
    requires Enabled(w, s)
  {
    match s
    case Tick(pid) =>
      if w.running then w else w.(running := true, waiting := w.waiting[pid := Head])
    case GotHead(pid, latest) =>
      var range := Range(c, w.checkpoint, latest);
      if range.None? then Finish(w, pid)
      else w.(waiting := w.waiting[pid := Events(range.value.0, range.value.1)])
    case GotEvents(pid, committed) =>
      var t := w.waiting[pid];
      var events := EventsIn(h, t.from, t.to);
      if c.headers then w.(waiting := w.waiting[pid := Headers(t.to, events)])
      else Finish(Commit(w, events, t.to, committed), pid)
    case GotHeaders(pid, more, committed) =>
      var t := w.waiting[pid];
      if more then w else Finish(Commit(w, t.events, t.to, committed), pid)
    case Failed(pid) => Finish(w, pid)
    case Restart => w.(running := false, waiting := map[])
  }

  ghost predicate Legal(c: Config, h: History, w: World, run: seq<Step>)
    decreases |run|
  {
    run != [] ==> Enabled(w, run[0]) && Legal(c, h, Next(c, h, w, run[0]), run[1..])
  }

  function Run(c: Config, h: History, w: World, run: seq<Step>): World
    requires Legal(c, h, w, run)
    decreases |run|
  {
    if run == [] then w else Run(c, h, Next(c, h, w, run[0]), run[1..])
  }

  // ----- exactly once -----

  /** The events that have been applied, each once and in order. */
  function Applied(c: Config, h: History, checkpoint: Option<nat>): seq<Event> {
    EventsIn(h, c.deployBlock, NextBlock(c, checkpoint) - 1)
  }

  /** A waiting tick works on the blocks right after the checkpoint. */
  ghost predicate OnTime(c: Config, h: History, w: World, t: Waiting) {
    match t
    case Head => true
    case Events(from, to) => from == NextBlock(c, w.checkpoint) <= to
    case Headers(to, events) => NextBlock(c, w.checkpoint) <= to && events == EventsIn(h, NextBlock(c, w.checkpoint), to)
  }

  ghost predicate Good(c: Config, h: History, w: World) {
    && TablesHold(w.tables, Counted(Applied(c, h, w.checkpoint)))
    && c.deployBlock <= NextBlock(c, w.checkpoint)
    && (w.waiting != map[] ==> w.running)
    && (forall p, q :: p in w.waiting && q in w.waiting ==> p == q)
    && (forall p :: p in w.waiting ==> OnTime(c, h, w, w.waiting[p]))
  }

  lemma {:induction false} EventsSplit(h: History, a: nat, b: nat, d: int)
    requires a <= b && b - 1 <= d
    ensures EventsIn(h, a, d) == EventsIn(h, a, b - 1) + EventsIn(h, b, d)
    decreases d - b
  {
    if b <= d {
      EventsSplit(h, a, b, d - 1);
      AppendAssoc(EventsIn(h, a, b - 1), EventsIn(h, b, d - 1), h(d));
    } else {
      assert EventsIn(h, a, b - 1) + [] == EventsIn(h, a, b - 1);
    }
  }

  lemma {:induction false} AppliedSplit(c: Config, h: History, checkpoint: Option<nat>, to: nat)
    requires c.deployBlock <= NextBlock(c, checkpoint) <= to
    ensures Applied(c, h, Some(to)) == Applied(c, h, checkpoint) + EventsIn(h, NextBlock(c, checkpoint), to)
  {
    EventsSplit(h, c.deployBlock, NextBlock(c, checkpoint), to);
  }

  /** Applying the next blocks extends what has been applied. */
  lemma {:induction false} BatchHolds(c: Config, h: History, t: Tables, checkpoint: Option<nat>, to: nat)
    requires c.deployBlock <= NextBlock(c, checkpoint) <= to
    requires TablesHold(t, Counted(Applied(c, h, checkpoint)))
    ensures TablesHold(ApplyAll(t, EventsIn(h, NextBlock(c, checkpoint), to)), Counted(Applied(c, h, Some(to))))
  {
    AppliedSplit(c, h, checkpoint, to);
    ApplyHolds(t, Applied(c, h, checkpoint), EventsIn(h, NextBlock(c, checkpoint), to));
  }

  lemma {:induction false} CommitIsGood(c: Config, h: History, w: World, pid: Pid, to: nat)
    requires Good(c, h, w) && NextBlock(c, w.checkpoint) <= to && pid in w.waiting
    ensures Good(c, h, Finish(Commit(w, EventsIn(h, NextBlock(c, w.checkpoint), to), to, true), pid))
  {
    BatchHolds(c, h, w.tables, w.checkpoint, to);
    assert w.waiting - {pid} == map[];
  }

  lemma {:induction false} FinishIsGood(c: Config, h: History, w: World, pid: Pid)
    requires Good(c, h, w) && pid in w.waiting
    ensures Good(c, h, Finish(w, pid))
  {
  }

  lemma {:induction false} NextIsGood(c: Config, h: History, w: World, s: Step)
    requires Good(c, h, w) && Enabled(w, s)
    ensures Good(c, h, Next(c, h, w, s))
  {
    match s
    case Tick(pid) =>
    case GotHead(pid, latest) =>
      FinishIsGood(c, h, w, pid);
    case GotEvents(pid, committed) =>
      var t := w.waiting[pid];
      assert OnTime(c, h, w, t);
      FinishIsGood(c, h, w, pid);
      CommitIsGood(c, h, w, pid, t.to);
    case GotHeaders(pid, more, committed) =>
      var t := w.waiting[pid];
      assert OnTime(c, h, w, t);
      FinishIsGood(c, h, w, pid);
      CommitIsGood(c, h, w, pid, t.to);
    case Failed(pid) =>
      FinishIsGood(c, h, w, pid);
    case Restart =>
  }

  /** Over every interleaving of successful, failed, rolled back, re-entrant and
      interrupted ticks, the tables are the summary of all counted events from the
      deploy block to the checkpoint, each applied exactly once. */
  lemma {:induction false} RunAgrees(c: Config, h: History, w: World, run: seq<Step>)
    requires Good(c, h, w) && Legal(c, h, w, run)
    ensures Good(c, h, Run(c, h, w, run))
    decreases |run|
  {
    if run != [] {
      NextIsGood(c, h, w, run[0]);
      RunAgrees(c, h, Next(c, h, w, run[0]), run[1..]);
    }
  }

  lemma {:induction false} StartIsGood(c: Config, h: History)
    ensures Good(c, h, START)
  {
  }

  /** At every moment of every run from an empty store, each seller's totals are
      those of its own events, and equal the sum over its buyers and the sum over
      its channels; and all sellers together account for every event once. */
  lemma {:induction false} TotalsAgree(c: Config, h: History, run: seq<Step>, agent: nat)
    requires Legal(c, h, START, run)
    ensures var w := Run(c, h, START, run);
      var es := Counted(Applied(c, h, w.checkpoint));
      var own := if agent in w.tables.sellers then w.tables.sellers[agent].totals else ZERO;
      && own == TotalsOf(Select(SellerKey, agent, es))
      && own == SumRows(Under(w.tables.buyers, AgentOf, agent), w.tables.buyers)
      && own == SumRows(Under(w.tables.channels, AgentOf, agent), w.tables.channels)
      && SumRows(w.tables.sellers.Keys, w.tables.sellers) == TotalsOf(es)
  {
    StartIsGood(c, h);
    RunAgrees(c, h, START, run);
    var w := Run(c, h, START, run);
    var es := Counted(Applied(c, h, w.checkpoint));
    SellerSums(w.tables, es, agent);
    NetworkSums(w.tables.sellers, es);
  }

  lemma {:induction false} NextAdvances(c: Config, h: History, w: World, s: Step)
    requires Good(c, h, w) && Enabled(w, s)
    ensures NextBlock(c, w.checkpoint) <= NextBlock(c, Next(c, h, w, s).checkpoint)
  {
  }

  /** The checkpoint only moves forward, and only by a batch that was waiting. */
  lemma {:induction false} CheckpointAdvances(c: Config, h: History, w: World, run: seq<Step>)
    requires Good(c, h, w) && Legal(c, h, w, run)
    ensures NextBlock(c, w.checkpoint) <= NextBlock(c, Run(c, h, w, run).checkpoint)
    decreases |run|
  {
    if run != [] {
      NextIsGood(c, h, w, run[0]);
      NextAdvances(c, h, w, run[0]);
      CheckpointAdvances(c, h, Next(c, h, w, run[0]), run[1..]);
    }
  }

  // ----- first and last blocks -----

  ghost predicate Ordered(es: seq<Event>) {
    forall i, j :: 0 <= i < j < |es| ==> es[i].block <= es[j].block
  }

  ghost predicate Within(es: seq<Event>, to: int) {
    forall i :: 0 <= i < |es| ==> es[i].block <= to
  }

  /** Every event of a block carries that block's number. */
  ghost predicate Numbered(h: History) {
    forall b: nat, i :: 0 <= i < |h(b)| ==> h(b)[i].block == b
  }

  lemma {:induction false} HistoryOrdered(h: History, from: nat, to: int)
    requires Numbered(h)
    ensures Ordered(EventsIn(h, from, to)) && Within(EventsIn(h, from, to), to)
    decreases if from <= to then to - from + 1 else 0
  {
    if from <= to {
      HistoryOrdered(h, from, to - 1);
    }
  }

  lemma {:induction false} OrderedPrefix(es: seq<Event>, n: nat, to: int)
    requires n < |es| && Ordered(es) && Within(es, to)
    ensures Ordered(es[..n]) && Within(es[..n], es[n].block) && es[n].block <= to
  {
  }

  /** Keep an event or not: the kept ones stay in order. */
  lemma {:induction false} KeepOrdered(kept: seq<Event>, e: Event, keep: bool, to: int)
    requires Ordered(kept) && Within(kept, e.block) && e.block <= to
    ensures Ordered(kept + if keep then [e] else []) && Within(kept + if keep then [e] else [], to)
  {
  }

  lemma {:induction false} CountedOrdered(es: seq<Event>, to: int)
    requires Ordered(es) && Within(es, to)
    ensures Ordered(Counted(es)) && Within(Counted(es), to)
    decreases |es|
  {
    if es != [] {
      var n := |es| - 1;
      OrderedPrefix(es, n, to);
      CountedOrdered(es[..n], es[n].block);
      KeepOrdered(Counted(es[..n]), es[n], Safe(es[n]), to);
    }
  }

  lemma {:induction false} SelectOrdered<K>(key: Event -> K, k: K, es: seq<Event>, to: int)
    requires Ordered(es) && Within(es, to)
    ensures Ordered(Select(key, k, es)) && Within(Select(key, k, es), to)
    decreases |es|
  {
    if es != [] {
      var n := |es| - 1;
      OrderedPrefix(es, n, to);
      SelectOrdered(key, k, es[..n], es[n].block);
      KeepOrdered(Select(key, k, es[..n]), es[n], key(es[n]) == k, to);
    }
  }

  lemma {:induction false} OwnOrdered(es: seq<Event>, to: int, agent: nat)
    requires Ordered(es) && Within(es, to)
    ensures Ordered(Select(SellerKey, agent, Counted(es)))
  {
    CountedOrdered(es, to);
    SelectOrdered(SellerKey, agent, Counted(es), to);
  }

  /** A seller's first and last settled blocks are the least and the greatest block of its events. */
  lemma {:induction false} BlocksBound(c: Config, h: History, w: World, agent: nat)
    requires Numbered(h) && Good(c, h, w) && agent in w.tables.sellers
    ensures var own := Select(SellerKey, agent, Counted(Applied(c, h, w.checkpoint)));
      var row := w.tables.sellers[agent];
      && own != [] && own[0].block == row.first && own[|own| - 1].block == row.last
      && forall i :: 0 <= i < |own| ==> row.first <= own[i].block <= row.last
  {
    var es, to := Applied(c, h, w.checkpoint), NextBlock(c, w.checkpoint) - 1;
    HistoryOrdered(h, c.deployBlock, to);
    OwnOrdered(es, to, agent);
    assert HoldsAt(w.tables.sellers, SellerKey, Counted(es), agent);
  }

  // ----- the indexer as it runs -----

  /** One method per stretch between waits; `r` is where the tick waits next, if it does. */
  class MetadataIndexer {
    const config: Config
    const store: SqliteStore
    var running: bool
    var latestBlock: Option<nat>

    constructor (deployBlock: nat, safetyBlocks: nat, maxBlocks: Option<nat>, headers: bool, store: SqliteStore)
      ensures config == MakeConfig(deployBlock, safetyBlocks, maxBlocks, headers)
      ensures this.store == store && !running && latestBlock == None
    {
      config, this.store := MakeConfig(deployBlock, safetyBlocks, maxBlocks, headers), store;
      running, latestBlock := false, None;
    }

    /** The persistent and in-memory state, with the waiting ticks. */
    ghost function State(waiting: map<Pid, Waiting>): World
      reads this, store
    {
      World(store.tables, store.checkpoint, running, waiting)
    }

    method BeginTick(pid: Pid, ghost waiting: map<Pid, Waiting>) returns (r: Option<Waiting>)
      requires pid !in waiting
      modifies this
      ensures State(Waits(waiting, pid, r)) == Next(config, _ => [], old(State(waiting)), Tick(pid))
    {
      if running {
        assert waiting - {pid} == waiting;
        return None;
      }
      running := true;
      r := Some(Head);
    }

    method ResumeHead(pid: Pid, latest: nat, ghost h: History, ghost waiting: map<Pid, Waiting>) returns (r: Option<Waiting>)
      requires pid in waiting && waiting[pid].Head?
      modifies this
      ensures latestBlock == Some(latest)
      ensures State(Waits(waiting, pid, r)) == Next(config, h, old(State(waiting)), GotHead(pid, latest))
    {
      latestBlock := Some(latest);
      var safeTo := latest - config.safetyBlocks;
      if safeTo < config.deployBlock {
        running := false;
        return None;
      }
      var from := if store.checkpoint.None? then config.deployBlock else store.checkpoint.value + 1;
      if from > safeTo {
        running := false;
        return None;
      }
      r := Some(Events(from, Min(safeTo, from + config.maxBlocksPerTick - 1)));
    }

    /** `t` is what the tick remembers while it waits. */
    method ResumeEvents(pid: Pid, t: Waiting, events: seq<Event>, committed: bool, ghost h: History, ghost waiting: map<Pid, Waiting>)
      returns (r: Option<Waiting>)
      requires pid in waiting && waiting[pid] == t && t.Events? && events == EventsIn(h, t.from, t.to)
      modifies this, store
      ensures State(Waits(waiting, pid, r)) == Next(config, h, old(State(waiting)), GotEvents(pid, committed))
    {
      if config.headers {
        return Some(Headers(t.to, events));
      }
      r := Apply(events, t.to, committed);
    }

    method ResumeHeaders(pid: Pid, t: Waiting, more: bool, committed: bool, ghost h: History, ghost waiting: map<Pid, Waiting>)
      returns (r: Option<Waiting>)
      requires pid in waiting && waiting[pid] == t && t.Headers?
      modifies this, store
      ensures State(Waits(waiting, pid, r)) == Next(config, h, old(State(waiting)), GotHeaders(pid, more, committed))
    {
      if more {
        assert waiting[pid := t] == waiting;
        return Some(t);
      }
      r := Apply(t.events, t.to, committed);
    }

    /** A wait that fails ends the tick and releases the guard. */
    method Fail(pid: Pid, ghost h: History, ghost waiting: map<Pid, Waiting>) returns (r: Option<Waiting>)
      requires pid in waiting
      modifies this
      ensures State(Waits(waiting, pid, r)) == Next(config, h, old(State(waiting)), Failed(pid))
    {
      running := false;
      r := None;
    }

    method Apply(events: seq<Event>, to: nat, committed: bool) returns (r: Option<Waiting>)
      modifies this, store
      ensures r == None && !running && latestBlock == old(latestBlock)
      ensures store.tables == if committed then ApplyAll(old(store.tables), events) else old(store.tables)
      ensures store.checkpoint == if committed then Some(to) else old(store.checkpoint)
    {
      if committed {
        store.ApplyBatch(events, to);
      }
      running := false;
      r := None;
    }
  }

  /** The waiting ticks after one of them ran. */
  ghost function Waits(waiting: map<Pid, Waiting>, pid: Pid, r: Option<Waiting>): map<Pid, Waiting> {
    if r.Some? then waiting[pid := r.value] else waiting - {pid}
  }
}
