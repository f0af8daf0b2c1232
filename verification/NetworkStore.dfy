/**
 The aggregate store of the network statistics: running totals per seller, per
 seller and buyer, and per seller and channel. What the tables should hold is
 defined without them, by selecting and adding up the events themselves.
 */
module NetworkStore {
  import opened Wrappers

  datatype Event = Event(block: nat, agentId: nat, buyer: string, channelId: string, input: nat, output: nat, requests: nat)

  datatype Totals = Totals(input: nat, output: nat, requests: nat, settlements: nat)

  const ZERO := Totals(0, 0, 0, 0)

  function Plus(a: Totals, b: Totals): Totals {
    Totals(a.input + b.input, a.output + b.output, a.requests + b.requests, a.settlements + b.settlements)
  }

  function EventTotals(e: Event): Totals {
    Totals(e.input, e.output, e.requests, 1)
  }

  datatype Row = Row(totals: Totals, first: nat, last: nat)

  /** The key columns of a row: an agent, and a buyer or a channel. */
  type PairKey = (nat, string)

  function SellerKey(e: Event): nat {
    e.agentId
  }

  function BuyerKey(e: Event): PairKey {
    (e.agentId, Lower(e.buyer))
  }

  function ChannelKey(e: Event): PairKey {
    (e.agentId, Lower(e.channelId))
  }

  datatype Tables = Tables(sellers: map<nat, Row>, buyers: map<PairKey, Row>, channels: map<PairKey, Row>, channelBuyers: map<PairKey, string>)

  const EMPTY := Tables(map[], map[], map[], map[])

  /** Add one event to the row of its key, starting the row if there is none. */
  function Upsert<K>(t: map<K, Row>, k: K, e: Event): map<K, Row> {
    var before := if k in t then t[k] else Row(ZERO, e.block, e.block);
    t[k := Row(Plus(before.totals, EventTotals(e)), before.first, e.block)]
  }

  predicate Safe(e: Event) {
    e.agentId <= MAX_SAFE_INTEGER
  }

  function ApplyEvent(t: Tables, e: Event): Tables {
    if !Safe(e) then t
    else Tables(
      Upsert(t.sellers, SellerKey(e), e),
      Upsert(t.buyers, BuyerKey(e), e),
      Upsert(t.channels, ChannelKey(e), e),
      t.channelBuyers[ChannelKey(e) := Lower(e.buyer)])
  }

  function ApplyAll(t: Tables, es: seq<Event>): Tables {
    if es == [] then t else ApplyEvent(ApplyAll(t, es[..|es| - 1]), es[|es| - 1])
  }

  lemma {:induction false} ApplyAppend(t: Tables, a: seq<Event>, b: seq<Event>)
    ensures ApplyAll(t, a + b) == ApplyAll(ApplyAll(t, a), b)
    decreases |b|
  {
    if b == [] {
      assert a + b == a;
    } else {
      var n := |b| - 1;
      assert (a + b)[..|a + b| - 1] == a + b[..n];
      ApplyAppend(t, a, b[..n]);
    }
  }

  // ----- what the tables should hold -----

  /** The events that are counted at all. */
  function Counted(es: seq<Event>): seq<Event> {
    if es == [] then []
    else Counted(es[..|es| - 1]) + if Safe(es[|es| - 1]) then [es[|es| - 1]] else []
  }

  /** Exactly the events whose agent id JavaScript can hold exactly are counted. */
  lemma {:induction false} CountedIs(es: seq<Event>, e: Event)
    ensures e in Counted(es) <==> e in es && e.agentId <= 9007199254740991
    ensures (forall x :: x in es ==> x.agentId <= 9007199254740991) ==> Counted(es) == es
  {
    if es != [] {
      SplitLast(es);
      CountedIs(es[..|es| - 1], e);
      assert forall x :: x in es <==> x in es[..|es| - 1] || x == es[|es| - 1];
    }
  }

  /** The events of one key, in order. */
  function Select<K(==)>(key: Event -> K, k: K, es: seq<Event>): seq<Event> {
    if es == [] then []
    else
      var e := es[|es| - 1];
      Select(key, k, es[..|es| - 1]) + if key(e) == k then [e] else []
  }

  function SumBy(f: Event -> nat, es: seq<Event>): nat {
    if es == [] then 0 else SumBy(f, es[..|es| - 1]) + f(es[|es| - 1])
  }

  function InputOf(e: Event): nat {
    e.input
  }

  function OutputOf(e: Event): nat {
    e.output
  }

  function RequestsOf(e: Event): nat {
    e.requests
  }

  /** Tokens, requests and settlements of a sequence of events. */
  function TotalsOf(es: seq<Event>): Totals {
    Totals(SumBy(InputOf, es), SumBy(OutputOf, es), SumBy(RequestsOf, es), |es|)
  }

  lemma {:induction false} TotalsSnoc(es: seq<Event>, e: Event)
    ensures TotalsOf(es + [e]) == Plus(TotalsOf(es), EventTotals(e))
  {
    assert (es + [e])[..|es + [e]| - 1] == es;
  }

  /** The row for a key says what its own events add up to, and when they began and ended. */
  function Summary(es: seq<Event>): Row
    requires es != []
  {
    Row(TotalsOf(es), es[0].block, es[|es| - 1].block)
  }

  /** A table has exactly the keys of the events, each with its own summary. */
  ghost predicate Holds<K(!new)>(t: map<K, Row>, key: Event -> K, es: seq<Event>) {
    forall k :: HoldsAt(t, key, es, k)
  }

  ghost predicate HoldsAt<K>(t: map<K, Row>, key: Event -> K, es: seq<Event>, k: K) {
    var own := Select(key, k, es);
    if k in t then own != [] && t[k] == Summary(own) else own == []
  }

  ghost predicate TablesHold(t: Tables, es: seq<Event>) {
    && Holds(t.sellers, SellerKey, es)
    && Holds(t.buyers, BuyerKey, es)
    && Holds(t.channels, ChannelKey, es)
    && BuyersHold(t.channels.Keys, t.channelBuyers, es)
  }

  /** A channel shows the buyer of its latest event. */
  ghost predicate BuyersHold(keys: set<PairKey>, names: map<PairKey, string>, es: seq<Event>) {
    names.Keys == keys && forall k {:trigger BuyerAt(names, es, k)} :: k in names ==> BuyerAt(names, es, k)
  }

  ghost predicate BuyerAt(names: map<PairKey, string>, es: seq<Event>, k: PairKey)
    requires k in names
  {
    names[k] == LastBuyer(Select(ChannelKey, k, es))
  }

  function LastBuyer(es: seq<Event>): string {
    if es == [] then "" else Lower(es[|es| - 1].buyer)
  }

  lemma {:induction false} SelectSnoc<K>(key: Event -> K, k: K, es: seq<Event>, e: Event)
    ensures Select(key, k, es + [e]) == Select(key, k, es) + if key(e) == k then [e] else []
  {
  }

  lemma {:induction false} SummarySnoc(es: seq<Event>, e: Event)
    ensures Summary(es + [e]) == Row(Plus(TotalsOf(es), EventTotals(e)), if es == [] then e.block else es[0].block, e.block)
  {
    TotalsSnoc(es, e);
  }

  lemma {:induction false} UpsertHolds<K(!new)>(t: map<K, Row>, key: Event -> K, es: seq<Event>, e: Event)
    requires Holds(t, key, es)
    ensures Holds(Upsert(t, key(e), e), key, es + [e])
  {
    var u := Upsert(t, key(e), e);
    forall k ensures HoldsAt(u, key, es + [e], k) {
      assert HoldsAt(t, key, es, k);
      SelectSnoc(key, k, es, e);
      if k == key(e) {
        SummarySnoc(Select(key, k, es), e);
      } else {
        assert Select(key, k, es) + [] == Select(key, k, es);
      }
    }
  }

  lemma {:induction false} LastBuyerHolds(keys: set<PairKey>, names: map<PairKey, string>, es: seq<Event>, e: Event)
    requires BuyersHold(keys, names, es)
    ensures BuyersHold(keys + {ChannelKey(e)}, names[ChannelKey(e) := Lower(e.buyer)], es + [e])
  {
    var u := names[ChannelKey(e) := Lower(e.buyer)];
    forall k | k in u ensures BuyerAt(u, es + [e], k) {
      SelectSnoc(ChannelKey, k, es, e);
      if k != ChannelKey(e) {
        assert BuyerAt(names, es, k);
        assert Select(ChannelKey, k, es) + [] == Select(ChannelKey, k, es);
      }
    }
  }

  lemma {:induction false} CountedSnoc(es: seq<Event>, e: Event)
    ensures Counted(es + [e]) == Counted(es) + if Safe(e) then [e] else []
  {
  }

  lemma {:induction false} CountedAppend(a: seq<Event>, b: seq<Event>)
    ensures Counted(a + b) == Counted(a) + Counted(b)
    decreases |b|
  {
    if b == [] {
      assert a + b == a;
    } else {
      var n := |b| - 1;
      assert (a + b)[..|a + b| - 1] == a + b[..n];
      CountedAppend(a, b[..n]);
      AppendAssoc(Counted(a), Counted(b[..n]), if Safe(b[n]) then [b[n]] else []);
    }
  }

  /** One counted event, in all tables. */
  lemma {:induction false} ApplyEventHolds(t: Tables, so: seq<Event>, e: Event)
    requires TablesHold(t, so) && Safe(e)
    ensures TablesHold(ApplyEvent(t, e), so + [e])
  {
    UpsertHolds(t.sellers, SellerKey, so, e);
    UpsertHolds(t.buyers, BuyerKey, so, e);
    UpsertHolds(t.channels, ChannelKey, so, e);
    LastBuyerHolds(t.channels.Keys, t.channelBuyers, so, e);
    assert Upsert(t.channels, ChannelKey(e), e).Keys == t.channels.Keys + {ChannelKey(e)};
  }

  /** The incremental tables, after any events on top of tables that hold, hold. */
  lemma {:induction false} ApplyHolds(t: Tables, es: seq<Event>, more: seq<Event>)
    requires TablesHold(t, Counted(es))
    ensures TablesHold(ApplyAll(t, more), Counted(es + more))
    decreases |more|
  {
    if more == [] {
      assert es + more == es;
    } else {
      var n := |more| - 1;
      ApplyHolds(t, es, more[..n]);
      MoveLast(es, more);
      CountedSnoc(es + more[..n], more[n]);
      if Safe(more[n]) {
        ApplyEventHolds(ApplyAll(t, more[..n]), Counted(es + more[..n]), more[n]);
      } else {
        AppendEmpty(Counted(es + more[..n]));
      }
    }
  }

  // ----- sums over rows -----

  ghost function SumRows<K>(keys: set<K>, t: map<K, Row>): Totals
    requires keys <= t.Keys
  {
    if keys == {} then ZERO
    else
      var k :| k in keys;
      Plus(t[k].totals, SumRows(keys - {k}, t))
  }

  lemma {:induction false} SumRowsRemove<K>(keys: set<K>, t: map<K, Row>, k: K)
    requires keys <= t.Keys && k in keys
    ensures SumRows(keys, t) == Plus(t[k].totals, SumRows(keys - {k}, t))
    decreases keys
  {
    var j :| j in keys && SumRows(keys, t) == Plus(t[j].totals, SumRows(keys - {j}, t));
    if j != k {
      SumRowsRemove(keys - {j}, t, k);
      SumRowsRemove(keys - {k}, t, j);
      assert keys - {j} - {k} == keys - {k} - {j};
      PlusSwap(t[j].totals, t[k].totals, SumRows(keys - {j} - {k}, t));
    }
  }

  lemma {:induction false} PlusSwap(a: Totals, b: Totals, c: Totals)
    ensures Plus(a, Plus(b, c)) == Plus(b, Plus(a, c))
  {
  }

  lemma {:induction false} PlusZero(a: Totals)
    ensures Plus(ZERO, a) == a == Plus(a, ZERO)
  {
  }

  lemma {:induction false} PlusAssoc(a: Totals, b: Totals, c: Totals)
    ensures Plus(a, Plus(b, c)) == Plus(Plus(a, b), c)
  {
  }

  lemma {:induction false} SumRowsSame<K>(keys: set<K>, t: map<K, Row>, u: map<K, Row>)
    requires keys <= t.Keys && keys <= u.Keys
    requires forall k :: k in keys ==> t[k].totals == u[k].totals
    ensures SumRows(keys, t) == SumRows(keys, u)
    decreases keys
  {
    if keys != {} {
      var j :| j in keys && SumRows(keys, t) == Plus(t[j].totals, SumRows(keys - {j}, t));
      SumRowsSame(keys - {j}, t, u);
      SumRowsRemove(keys, u, j);
    }
  }

  /** One event adds itself to exactly one row. */
  lemma {:induction false} SumRowsUpsert<K>(keys: set<K>, t: map<K, Row>, k: K, e: Event)
    requires keys <= t.Keys && (k in t ==> k in keys)
    ensures SumRows(keys + {k}, Upsert(t, k, e)) == Plus(SumRows(keys, t), EventTotals(e))
  {
    var u := Upsert(t, k, e);
    SumRowsRemove(keys + {k}, u, k);
    SumRowsSame(keys - {k}, t, u);
    assert keys + {k} - {k} == keys - {k};
    if k in keys {
      SumRowsRemove(keys, t, k);
    } else {
      assert keys - {k} == keys;
    }
  }

  /** The table of a sequence of events. */
  function TableOf<K>(key: Event -> K, es: seq<Event>): map<K, Row> {
    if es == [] then map[]
    else Upsert(TableOf(key, es[..|es| - 1]), key(es[|es| - 1]), es[|es| - 1])
  }

  lemma {:induction false} TableOfHolds<K(!new)>(key: Event -> K, es: seq<Event>)
    ensures Holds(TableOf(key, es), key, es)
    decreases |es|
  {
    if es != [] {
      var n := |es| - 1;
      TableOfHolds(key, es[..n]);
      UpsertHolds(TableOf(key, es[..n]), key, es[..n], es[n]);
      assert es == es[..n] + [es[n]];
    }
  }

  /** What a table should hold determines it. */
  lemma {:induction false} HoldsIsTable<K(!new)>(t: map<K, Row>, key: Event -> K, es: seq<Event>)
    requires Holds(t, key, es)
    ensures t == TableOf(key, es)
  {
    var u := TableOf(key, es);
    TableOfHolds(key, es);
    forall k ensures k in t <==> k in u
             ensures k in t ==> t[k] == u[k] {
      assert HoldsAt(t, key, es, k) && HoldsAt(u, key, es, k);
    }
  }

  /** The keys of a table that belong to a coarser key. */
  function Under<K, J(==)>(t: map<K, Row>, coarse: K -> J, j: J): set<K> {
    set k | k in t && coarse(k) == j
  }

  lemma {:induction false} TableSums<K, J>(key: Event -> K, coarse: K -> J, ckey: Event -> J, j: J, es: seq<Event>)
    requires forall e :: ckey(e) == coarse(key(e))
    ensures var t := TableOf(key, es);
      SumRows(Under(t, coarse, j), t) == TotalsOf(Select(ckey, j, es))
    decreases |es|
  {
    if es != [] {
      var n := |es| - 1;
      var e, t := es[n], TableOf(key, es[..n]);
      var u, keys := Upsert(t, key(e), e), Under(t, coarse, j);
      TableSums(key, coarse, ckey, j, es[..n]);
      var chosen := Select(ckey, j, es[..n]);
      if ckey(e) == j {
        SumRowsUpsert(keys, t, key(e), e);
        assert Under(u, coarse, j) == keys + {key(e)};
        TotalsSnoc(chosen, e);
      } else {
        assert Under(u, coarse, j) == keys;
        SumRowsSame(keys, t, u);
        assert chosen + [] == chosen;
      }
    }
  }

  function AgentOf(k: PairKey): nat {
    k.0
  }

  lemma {:induction false} PairSums(t: map<PairKey, Row>, key: Event -> PairKey, es: seq<Event>, agent: nat)
    requires Holds(t, key, es) && forall e :: SellerKey(e) == AgentOf(key(e))
    ensures SumRows(Under(t, AgentOf, agent), t) == TotalsOf(Select(SellerKey, agent, es))
  {
    HoldsIsTable(t, key, es);
    TableSums(key, AgentOf, SellerKey, agent, es);
  }

  /** Each seller's totals are the sum over its buyers and the sum over its channels. */
  lemma {:induction false} SellerSums(t: Tables, es: seq<Event>, agent: nat)
    requires TablesHold(t, es)
    ensures var own := if agent in t.sellers then t.sellers[agent].totals else ZERO;
      && own == TotalsOf(Select(SellerKey, agent, es))
      && own == SumRows(Under(t.buyers, AgentOf, agent), t.buyers)
      && own == SumRows(Under(t.channels, AgentOf, agent), t.channels)
  {
    PairSums(t.buyers, BuyerKey, es, agent);
    PairSums(t.channels, ChannelKey, es, agent);
    assert HoldsAt(t.sellers, SellerKey, es, agent);
  }

  /** The coarsest key: one for all. */
  function Anyone(k: nat): int {
    0
  }

  function AnyEvent(e: Event): int {
    0
  }

  lemma {:induction false} SelectAll(es: seq<Event>)
    ensures Select(AnyEvent, 0, es) == es
    decreases |es|
  {
    if es != [] {
      SelectAll(es[..|es| - 1]);
    }
  }

  /** The network totals add up every counted event once. */
  lemma {:induction false} NetworkSums(t: map<nat, Row>, es: seq<Event>)
    requires Holds(t, SellerKey, es)
    ensures SumRows(t.Keys, t) == TotalsOf(es)
  {
    HoldsIsTable(t, SellerKey, es);
    TableSums(SellerKey, Anyone, AnyEvent, 0, es);
    assert Under(t, Anyone, 0) == t.Keys;
    SelectAll(es);
  }

  ghost function BuyersOf(es: seq<Event>, agent: nat): set<string> {
    set e | e in es && e.agentId == agent :: Lower(e.buyer)
  }

  ghost function ChannelsOf(es: seq<Event>, agent: nat): set<string> {
    set e | e in es && e.agentId == agent :: Lower(e.channelId)
  }

  ghost function SellersOf(es: seq<Event>): set<nat> {
    set e | e in es :: e.agentId
  }

  lemma {:induction false} SelectMember<K>(key: Event -> K, k: K, es: seq<Event>)
    ensures Select(key, k, es) != [] <==> exists e :: e in es && key(e) == k
    decreases |es|
  {
    if es != [] {
      var n := |es| - 1;
      SelectMember(key, k, es[..n]);
      assert es == es[..n] + [es[n]];
    }
  }

  lemma {:induction false} SameSize(keys: set<PairKey>, agent: nat, names: set<string>)
    requires forall k: PairKey :: k in keys <==> k.0 == agent && k.1 in names
    ensures |keys| == |names|
    decreases names
  {
    if names == {} {
      assert keys == {};
    } else {
      var name :| name in names;
      assert (agent, name) in keys;
      SameSize(keys - {(agent, name)}, agent, names - {name});
    }
  }

  /** The rows of one agent are as many as its different buyers. */
  lemma {:induction false} UniqueBuyers(t: map<PairKey, Row>, es: seq<Event>, agent: nat)
    requires Holds(t, BuyerKey, es)
    ensures |Under(t, AgentOf, agent)| == |BuyersOf(es, agent)|
  {
    forall k: PairKey ensures k in Under(t, AgentOf, agent) <==> k.0 == agent && k.1 in BuyersOf(es, agent) {
      assert HoldsAt(t, BuyerKey, es, k);
      SelectMember(BuyerKey, k, es);
    }
    SameSize(Under(t, AgentOf, agent), agent, BuyersOf(es, agent));
  }

  lemma {:induction false} UniqueChannels(t: map<PairKey, Row>, es: seq<Event>, agent: nat)
    requires Holds(t, ChannelKey, es)
    ensures |Under(t, AgentOf, agent)| == |ChannelsOf(es, agent)|
  {
    forall k: PairKey ensures k in Under(t, AgentOf, agent) <==> k.0 == agent && k.1 in ChannelsOf(es, agent) {
      assert HoldsAt(t, ChannelKey, es, k);
      SelectMember(ChannelKey, k, es);
    }
    SameSize(Under(t, AgentOf, agent), agent, ChannelsOf(es, agent));
  }

  lemma {:induction false} UniqueSellers(t: map<nat, Row>, es: seq<Event>)
    requires Holds(t, SellerKey, es)
    ensures t.Keys == SellersOf(es)
  {
    forall k: nat ensures k in t.Keys <==> k in SellersOf(es) {
      assert HoldsAt(t, SellerKey, es, k);
      SelectMember(SellerKey, k, es);
    }
  }

  lemma {:induction false} SomeBuyer(es: seq<Event>, agent: nat)
    requires Select(SellerKey, agent, es) != []
    ensures |BuyersOf(es, agent)| > 0 && |ChannelsOf(es, agent)| > 0
  {
    SelectMember(SellerKey, agent, es);
    var e :| e in es && SellerKey(e) == agent;
    assert Lower(e.buyer) in BuyersOf(es, agent);
    assert Lower(e.channelId) in ChannelsOf(es, agent);
  }

  // ----- the store -----

  datatype SellerTotals = SellerTotals(row: Row, uniqueBuyers: nat, uniqueChannels: nat, perBuyer: nat, perChannel: nat)

  class SqliteStore {
    var tables: Tables
    var checkpoint: Option<nat>

    constructor ()
      ensures tables == EMPTY && checkpoint == None
    {
      tables, checkpoint := EMPTY, None;
    }

    /** One transaction: all events and the checkpoint. */
    method ApplyBatch(events: seq<Event>, newCheckpoint: nat)
      modifies this
      ensures tables == ApplyAll(old(tables), events)
      ensures checkpoint == Some(newCheckpoint)
    {
      var i := 0;
      while i < |events|
        invariant 0 <= i <= |events|
        invariant tables == ApplyAll(old(tables), events[..i])
        invariant checkpoint == old(checkpoint)
      {
        assert events[..i + 1][..i] == events[..i];
        var e := events[i];
        if Safe(e) {
          tables := tables.(
            sellers := Upsert(tables.sellers, SellerKey(e), e),
            buyers := Upsert(tables.buyers, BuyerKey(e), e),
            channels := Upsert(tables.channels, ChannelKey(e), e),
            channelBuyers := tables.channelBuyers[ChannelKey(e) := Lower(e.buyer)]);
        }
        i := i + 1;
      }
      assert events[..i] == events;
      checkpoint := Some(newCheckpoint);
    }

    /** What is known of one seller: its own events, added up, with how many
        different buyers and channels they came from. */
    method GetSellerTotals(agent: nat, ghost es: seq<Event>) returns (r: Option<SellerTotals>)
      requires TablesHold(tables, es)
      ensures r.None? <==> Select(SellerKey, agent, es) == []
      ensures r.Some? ==>
        && r.value.row == Summary(Select(SellerKey, agent, es))
        && r.value.uniqueBuyers == |BuyersOf(es, agent)| > 0
        && r.value.uniqueChannels == |ChannelsOf(es, agent)| > 0
        && r.value.perBuyer == r.value.row.totals.requests / r.value.uniqueBuyers
        && r.value.perChannel == r.value.row.totals.requests / r.value.uniqueChannels
    {
      assert HoldsAt(tables.sellers, SellerKey, es, agent);
      if agent !in tables.sellers {
        return None;
      }
      var row := tables.sellers[agent];
      var buyers := |Under(tables.buyers, AgentOf, agent)|;
      var channels := |Under(tables.channels, AgentOf, agent)|;
      UniqueBuyers(tables.buyers, es, agent);
      UniqueChannels(tables.channels, es, agent);
      SomeBuyer(es, agent);
      r := Some(SellerTotals(row, buyers, channels, Average(row.totals.requests, buyers), Average(row.totals.requests, channels)));
    }

    /** The loop over all sellers counts every counted event once. */
    method GetNetworkTotals(ghost es: seq<Event>) returns (totals: Totals, sellers: nat)
      requires TablesHold(tables, es)
      ensures totals == TotalsOf(es)
      ensures sellers == |SellersOf(es)|
    {
      totals, sellers := AddRows(tables.sellers);
      NetworkSums(tables.sellers, es);
      UniqueSellers(tables.sellers, es);
    }
  }

  function Average(total: nat, count: nat): nat {
    if count == 0 then 0 else total / count
  }

  lemma {:induction false} TakeRow(keys: set<nat>, t: map<nat, Row>, k: nat, totals: Totals)
    requires keys <= t.Keys && k in keys
    ensures Plus(Plus(totals, t[k].totals), SumRows(keys - {k}, t)) == Plus(totals, SumRows(keys, t))
    ensures |keys - {k}| == |keys| - 1
  {
    SumRowsRemove(keys, t, k);
    PlusAssoc(totals, t[k].totals, SumRows(keys - {k}, t));
  }

  method AddRows(t: map<nat, Row>) returns (totals: Totals, count: nat)
    ensures totals == SumRows(t.Keys, t)
    ensures count == |t.Keys|
  {
    totals, count := ZERO, 0;
    ghost var all := SumRows(t.Keys, t);
    var keys := t.Keys;
    PlusZero(all);
    while |keys| > 0
      invariant keys <= t.Keys
      invariant Plus(totals, SumRows(keys, t)) == all
      invariant count + |keys| == |t.Keys|
      decreases |keys|
    {
      var k :| k in keys;
      TakeRow(keys, t, k, totals);
      totals, count, keys := Plus(totals, t[k].totals), count + 1, keys - {k};
    }
    PlusZero(totals);
  }
}
