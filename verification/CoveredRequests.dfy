/**
 The requests that a seller served from a free allowance, remembered in the order
 they were marked, for an hour and up to a limit.
 */
module CoveredRequests {
  import opened Wrappers

  const COVERED_REQUEST_TTL_MS: int := 60 * 60_000
  const MAX_COVERED_REQUESTS: nat := 10_000

  datatype Entry = Entry(key: string, at: int)

  /** Sellers are told apart without regard to case. */
  function Key(peer: string, id: string): string {
    Lower(peer) + "\n" + id
  }

  predicate Has(es: seq<Entry>, key: string) {
    exists i :: 0 <= i < |es| && es[i].key == key
  }

  predicate Fresh(e: Entry, now: int) {
    now - e.at < COVERED_REQUEST_TTL_MS
  }

  /** Drop entries from the oldest on, until one is fresh and there is room. */
  function Expire(es: seq<Entry>, now: int): seq<Entry> {
    if es == [] || (|es| < MAX_COVERED_REQUESTS && Fresh(es[0], now)) then es else Expire(es[1..], now)
  }

  function Without(es: seq<Entry>, key: string): seq<Entry> {
    if es == [] then [] else (if es[0].key == key then [] else [es[0]]) + Without(es[1..], key)
  }

  function Marked(es: seq<Entry>, key: string, now: int): seq<Entry> {
    Without(Expire(es, now), key) + [Entry(key, now)]
  }

  lemma {:induction false} WithoutIs(es: seq<Entry>, key: string, k: string)
    ensures Has(Without(es, key), k) <==> k != key && Has(es, k)
    ensures |Without(es, key)| <= |es|
  {
    if es != [] {
      WithoutIs(es[1..], key, k);
      assert es == [es[0]] + es[1..];
      var head, rest := if es[0].key == key then [] else [es[0]], Without(es[1..], key);
      HasAppend([es[0]], es[1..], k);
      HasAppend(head, rest, k);
      assert Has([es[0]], k) <==> [es[0]][0].key == k;
      assert head != [] ==> head[0] == es[0];
    }
  }

  lemma {:induction false} HasAppend(a: seq<Entry>, b: seq<Entry>, k: string)
    ensures Has(a + b, k) <==> Has(a, k) || Has(b, k)
  {
    if Has(b, k) {
      var i :| 0 <= i < |b| && b[i].key == k;
      assert (a + b)[|a| + i].key == k;
    }
    if Has(a, k) {
      var i :| 0 <= i < |a| && a[i].key == k;
      assert (a + b)[i].key == k;
    }
  }

  /** Marking covers the request, uncovers no request that is not expired, and never
      remembers more than the limit. */
  lemma {:induction false} MarkedIs(es: seq<Entry>, key: string, now: int, k: string)
    ensures Has(Marked(es, key, now), k) <==> k == key || Has(Expire(es, now), k)
    ensures |es| <= MAX_COVERED_REQUESTS ==> |Marked(es, key, now)| <= MAX_COVERED_REQUESTS
  {
    WithoutIs(Expire(es, now), key, k);
    ExpireLeavesRoom(es, now);
    HasAppend(Without(Expire(es, now), key), [Entry(key, now)], k);
    assert Has([Entry(key, now)], k) <==> [Entry(key, now)][0].key == k;
  }

  lemma {:induction false} ExpireLeavesRoom(es: seq<Entry>, now: int)
    ensures |Expire(es, now)| < MAX_COVERED_REQUESTS
  {
    if es != [] && !(|es| < MAX_COVERED_REQUESTS && Fresh(es[0], now)) {
      ExpireLeavesRoom(es[1..], now);
    }
  }

  /** Marked one after another, by a clock that does not go back. */
  ghost predicate InOrder(es: seq<Entry>) {
    forall i, j :: 0 <= i < j < |es| ==> es[i].at <= es[j].at
  }

  /** While there is room, exactly what was marked within the last hour stays. */
  lemma {:induction false} ExpireIs(es: seq<Entry>, now: int, k: string)
    requires InOrder(es) && |es| < MAX_COVERED_REQUESTS
    ensures Has(Expire(es, now), k) <==> exists i :: 0 <= i < |es| && es[i].key == k && Fresh(es[i], now)
  {
    if es != [] && !Fresh(es[0], now) {
      ExpireIs(es[1..], now, k);
      assert forall i :: 0 <= i < |es| - 1 ==> es[1..][i] == es[i + 1];
      assert (exists i :: 0 <= i < |es| && es[i].key == k && Fresh(es[i], now))
        ==> exists i :: 0 <= i < |es| - 1 && es[1..][i].key == k && Fresh(es[1..][i], now) by {
        if i :| 0 <= i < |es| && es[i].key == k && Fresh(es[i], now) {
          assert es[1..][i - 1] == es[i];
        }
      }
    } else if es != [] {
      assert forall i :: 0 <= i < |es| ==> Fresh(es[i], now);
    }
  }

  // ----- by history -----

  /** How many characters stand before the first line end. */
  function LineLength(s: string): nat {
    if s == "" || s[0] == '\n' then 0 else 1 + LineLength(s[1..])
  }

  predicate OneLine(s: string) {
    forall i :: 0 <= i < |s| ==> s[i] != '\n'
  }

  lemma {:induction false} LineLengthIs(line: string, rest: string)
    requires OneLine(line)
    ensures LineLength(line + "\n" + rest) == |line|
  {
    if line != "" {
      LineLengthIs(line[1..], rest);
      assert (line + "\n" + rest)[1..] == line[1..] + "\n" + rest;
    }
  }

  /** Keys tell requests apart: by the seller, in any case, and by the request. */
  lemma {:induction false} KeyIff(peer: string, id: string, peer': string, id': string)
    requires OneLine(peer) && OneLine(peer')
    ensures Key(peer, id) == Key(peer', id') <==> Lower(peer) == Lower(peer') && id == id'
  {
    var a, b, k := Lower(peer), Lower(peer'), Key(peer, id);
    if k == Key(peer', id') {
      LineLengthIs(a, id);
      LineLengthIs(b, id');
      assert k[..|a|] == a && k[..|b|] == b;
      assert k[|a| + 1..] == id && k[|b| + 1..] == id';
    }
  }

  datatype Op = Mark(key: string, now: int) | Release(key: string)

  function Run(ops: seq<Op>): seq<Entry> {
    if ops == [] then []
    else
      var es := Run(ops[..|ops| - 1]);
      match ops[|ops| - 1]
      case Mark(key, now) => Marked(es, key, now)
      case Release(key) => Without(es, key)
  }

  /** The j-th operation marked the request, no later one was about it, and the last one
      to mark any request came less than an hour later. */
  ghost predicate CoveredAt(ops: seq<Op>, key: string, at: int, j: nat) {
    && j < |ops| && ops[j] == Mark(key, at)
    && forall k :: j < k < |ops| ==> ops[k].key != key && (ops[k].Mark? ==> ops[k].now - at < 3_600_000)
  }

  /** The clock does not go back. */
  ghost predicate Timely(ops: seq<Op>) {
    forall i, j :: 0 <= i < j < |ops| && ops[i].Mark? && ops[j].Mark? ==> ops[i].now <= ops[j].now
  }

  ghost predicate Remembers(es: seq<Entry>, ops: seq<Op>) {
    && InOrder(es) && |es| <= |ops|
    && forall e :: e in es <==> CoveredSince(ops, e)
  }

  ghost predicate CoveredSince(ops: seq<Op>, e: Entry) {
    exists j: nat :: CoveredAt(ops, e.key, e.at, j)
  }

  lemma {:induction false} ExpireKeeps(es: seq<Entry>, now: int, e: Entry)
    requires InOrder(es) && |es| < MAX_COVERED_REQUESTS
    ensures e in Expire(es, now) <==> e in es && now - e.at < 3_600_000
    ensures InOrder(Expire(es, now)) && |Expire(es, now)| <= |es|
  {
    if es != [] && !Fresh(es[0], now) {
      ExpireKeeps(es[1..], now, e);
      assert es == [es[0]] + es[1..];
    } else if e in es {
      var i :| 0 <= i < |es| && es[i] == e;
      assert es[0].at <= es[i].at;
    }
  }

  lemma {:induction false} WithoutKeeps(es: seq<Entry>, key: string, e: Entry)
    requires InOrder(es)
    ensures e in Without(es, key) <==> e in es && e.key != key
    ensures InOrder(Without(es, key))
    ensures |Without(es, key)| <= |es|
  {
    if es != [] {
      WithoutKeeps(es[1..], key, e);
      assert es == [es[0]] + es[1..];
      var rest := Without(es[1..], key);
      forall i | 0 <= i < |rest| ensures es[0].at <= rest[i].at {
        WithoutKeeps(es[1..], key, rest[i]);
        assert rest[i] in rest;
        assert rest[i] in es[1..];
      }
    }
  }

  lemma {:induction false} CoveredSnoc(ops: seq<Op>, op: Op, e: Entry)
    ensures CoveredSince(ops + [op], e) <==>
      || (op == Mark(e.key, e.at))
      || (CoveredSince(ops, e) && op.key != e.key && (op.Mark? ==> op.now - e.at < 3_600_000))
  {
    var all, n := ops + [op], |ops|;
    assert all[n] == op && forall k :: 0 <= k < n ==> all[k] == ops[k];
    if j: nat :| CoveredAt(all, e.key, e.at, j) && j < n {
      assert CoveredAt(ops, e.key, e.at, j);
    }
    if j: nat :| CoveredAt(ops, e.key, e.at, j) {
      if op.key != e.key && (op.Mark? ==> op.now - e.at < 3_600_000) {
        assert CoveredAt(all, e.key, e.at, j);
      }
    }
    if op == Mark(e.key, e.at) {
      assert CoveredAt(all, e.key, e.at, n);
    }
  }

  lemma {:induction false} MarkRemembers(es: seq<Entry>, ops: seq<Op>, key: string, now: int)
    requires Remembers(es, ops) && |ops| < MAX_COVERED_REQUESTS
    requires forall j :: 0 <= j < |ops| && ops[j].Mark? ==> ops[j].now <= now
    ensures Remembers(Marked(es, key, now), ops + [Mark(key, now)])
  {
    var young := Expire(es, now);
    var kept, last := Without(young, key), Entry(key, now);
    assert forall e :: e in kept + [last] <==> e in kept || e == last;
    forall e ensures e in kept <==> e in es && now - e.at < 3_600_000 && e.key != key {
      ExpireKeeps(es, now, e);
      WithoutKeeps(young, key, e);
    }
    forall e ensures e in kept + [last] <==> CoveredSince(ops + [Mark(key, now)], e) {
      CoveredSnoc(ops, Mark(key, now), e);
    }
    ExpireKeeps(es, now, last);
    WithoutKeeps(young, key, last);
    forall i | 0 <= i < |kept| ensures kept[i].at <= now {
      assert kept[i] in kept;
      assert CoveredSince(ops, kept[i]);
      var j: nat :| CoveredAt(ops, kept[i].key, kept[i].at, j);
    }
  }

  lemma {:induction false} RunRemembers(ops: seq<Op>)
    requires Timely(ops) && |ops| <= MAX_COVERED_REQUESTS
    ensures Remembers(Run(ops), ops)
  {
    if ops != [] {
      var front, op := ops[..|ops| - 1], ops[|ops| - 1];
      SplitLast(ops);
      RunRemembers(front);
      if op.Mark? {
        MarkRemembers(Run(front), front, op.key, op.now);
      } else {
        forall e ensures e in Without(Run(front), op.key) <==> CoveredSince(ops, e) {
          WithoutKeeps(Run(front), op.key, e);
          CoveredSnoc(front, op, e);
        }
        WithoutKeeps(Run(front), op.key, Entry(op.key, 0));
      }
    }
  }

  /** Up to the limit of ten thousand, by a clock that does not go back: a request is
      covered if and only if it was marked, nothing was said about it since, and no mark
      came an hour or more later. */
  lemma {:induction false} CoveredIff(ops: seq<Op>, key: string)
    requires Timely(ops) && |ops| <= 10_000
    ensures Has(Run(ops), key) <==> exists at, j: nat :: CoveredAt(ops, key, at, j)
  {
    var es := Run(ops);
    RunRemembers(ops);
    if i :| 0 <= i < |es| && es[i].key == key {
      assert es[i] in es;
      assert CoveredSince(ops, es[i]);
    }
    if at, j: nat :| CoveredAt(ops, key, at, j) {
      assert CoveredSince(ops, Entry(key, at));
      var i :| 0 <= i < |es| && es[i] == Entry(key, at);
    }
  }
}
