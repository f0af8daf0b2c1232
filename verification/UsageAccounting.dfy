/**
 Usage attribution shared by the payment paths: what one response adds to the
 channel metadata, and the bounded tracker that remembers which responses were
 already counted and how much of their cost is still unsigned.
 */
module UsageAccounting {
  import opened Wrappers

  type RequestId = string

  datatype Usage = Usage(
    amount: nat, inputTokens: nat, cachedInputTokens: nat, outputTokens: nat,
    requests: nat, outputImages: nat, videoGenerations: nat, videoSeconds: nat)

  const ZERO_USAGE := Usage(0, 0, 0, 0, 0, 0, 0, 0)

  /** Cumulative totals carried by a spending authorization. `attributed` is the
      sum of the service amounts passed in, whatever service they went to. */
  datatype Metadata = Metadata(
    inputTokens: nat, outputTokens: nat, requests: nat,
    outputImages: nat, videoGenerations: nat, videoSeconds: nat, attributed: nat)

  const ZERO_METADATA := Metadata(0, 0, 0, 0, 0, 0, 0)

  /** A delta counts only for a delivered response that nobody counted before. */
  function NormalizeRequestUsageDelta(delta: Usage, deliveredResponse: bool, alreadyCounted: bool): Usage {
    if deliveredResponse && !alreadyCounted then delta else ZERO_USAGE
  }

  function AdvanceUsageMetadata(previous: Metadata, delta: Usage): Metadata {
    Metadata(previous.inputTokens + delta.inputTokens,
             previous.outputTokens + delta.outputTokens,
             previous.requests + delta.requests,
             previous.outputImages + delta.outputImages,
             previous.videoGenerations + delta.videoGenerations,
             previous.videoSeconds + delta.videoSeconds,
             previous.attributed + delta.amount)
  }

  /** An insertion-ordered map from request id to the unsigned part of its cost. */
  datatype Tracker = Tracker(order: seq<RequestId>, unpaid: map<RequestId, nat>) {
    ghost predicate Valid() {
      && (forall i, j :: 0 <= i < j < |order| ==> order[i] != order[j])
      && (forall id :: id in order <==> id in unpaid)
      && "" !in unpaid
    }

    predicate Has(id: Option<RequestId>) {
      id.Some? && id.value in unpaid
    }

    function Unpaid(id: Option<RequestId>): nat {
      if Has(id) then unpaid[id.value] else 0
    }

    /** Drop the oldest entry once the tracker is full. */
    function Trimmed(limit: nat): Tracker {
      if |order| < limit || |order| == 0 then this
      else Tracker(order[1..], unpaid - {order[0]})
    }

    function Mark(limit: nat, id: Option<RequestId>, amount: nat): Tracker {
      if id.None? || id.value == "" then this
      else
        var t := Trimmed(limit);
        Tracker(if id.value in t.unpaid then t.order else t.order + [id.value],
                t.unpaid[id.value := amount])
    }

    function Pay(id: Option<RequestId>, amount: nat): Tracker {
      if id.None? || amount == 0 || id.value !in unpaid then this
      else
        var left := unpaid[id.value];
        this.(unpaid := unpaid[id.value := if left > amount then left - amount else 0])
    }
  }

  const EMPTY_TRACKER := Tracker([], map[])

  /** Trimming a full tracker removes exactly its oldest id; any other stays as it is. */
  lemma {:induction false} TrimmedValid(t: Tracker, limit: nat)
    requires t.Valid()
    ensures t.Trimmed(limit).Valid()
    ensures |t.order| < limit || t.order == [] ==> t.Trimmed(limit) == t
    ensures var z := t.Trimmed(limit);
      |t.order| >= limit && t.order != [] ==>
        && t.order == [t.order[0]] + z.order
        && forall x :: x in t.unpaid && x != t.order[0] ==> x in z.unpaid && z.unpaid[x] == t.unpaid[x]
    ensures limit > 0 && |t.order| <= limit ==> |t.Trimmed(limit).order| < limit
  {
  }

  /** Putting an id into a tracker that has room, at the end unless it is there already. */
  lemma {:induction false} PutValid(t: Tracker, x: RequestId, amount: nat, z: Tracker)
    requires t.Valid() && x != ""
    requires z == Tracker(if x in t.unpaid then t.order else t.order + [x], t.unpaid[x := amount])
    ensures z.Valid() && |z.order| <= |t.order| + 1
    ensures x in z.unpaid && z.unpaid[x] == amount
    ensures z.order == t.order || z.order == t.order + [x]
    ensures x !in t.unpaid ==> z.order == t.order + [x]
    ensures forall y :: y != x ==> (y in z.unpaid <==> y in t.unpaid) && (y in t.unpaid ==> z.unpaid[y] == t.unpaid[y])
  {
    forall y ensures y in z.order <==> y in z.unpaid {
      assert y in z.order <==> y in t.order || y == x;
    }
  }

  /** Marking keeps the tracker well formed and within its limit. The marked id is in it
      with its remainder; every other id is in it as it was, except the oldest one of a
      full tracker. Without an id nothing is marked. */
  lemma {:induction false} MarkValid(t: Tracker, limit: nat, id: Option<RequestId>, amount: nat)
    requires t.Valid() && 0 < limit
    requires |t.order| <= limit
    ensures t.Mark(limit, id, amount).Valid()
    ensures |t.Mark(limit, id, amount).order| <= limit
    ensures id.None? || id.value == "" ==> t.Mark(limit, id, amount) == t
    ensures id.Some? && id.value != "" ==>
              t.Mark(limit, id, amount).Has(id) && t.Mark(limit, id, amount).Unpaid(id) == amount
    ensures id.Some? && id.value != "" && id.value !in t.unpaid ==>
              var z := t.Mark(limit, id, amount).order; z != [] && z[|z| - 1] == id.value
    ensures forall x :: Some(x) != id && x in t.Mark(limit, id, amount).unpaid ==>
              x in t.unpaid && t.unpaid[x] == t.Mark(limit, id, amount).unpaid[x]
    ensures forall x :: x in t.unpaid && (|t.order| == limit ==> x != t.order[0]) ==> x in t.Mark(limit, id, amount).unpaid
  {
    TrimmedValid(t, limit);
    if id.Some? && id.value != "" {
      PutValid(t.Trimmed(limit), id.value, amount, t.Mark(limit, id, amount));
    }
  }

  /** Paying lowers one remainder by the amount, to nothing at least, and no other. */
  lemma {:induction false} PayValid(t: Tracker, id: Option<RequestId>, amount: nat)
    requires t.Valid()
    ensures t.Pay(id, amount).Valid()
    ensures t.Pay(id, amount).order == t.order
    ensures amount <= t.Unpaid(id) ==> t.Pay(id, amount).Unpaid(id) == t.Unpaid(id) - amount
    ensures amount > t.Unpaid(id) ==> t.Pay(id, amount).Unpaid(id) == 0
    ensures forall x :: Some(x) != id && x in t.unpaid ==> x in t.Pay(id, amount).unpaid && t.Pay(id, amount).unpaid[x] == t.unpaid[x]
  {
  }

  /** The tracker as the source keeps it: a mutable, insertion-ordered map. */
  class CountedRequestTracker {
    var order: seq<RequestId>
    var unpaidAmounts: map<RequestId, nat>
    const limit: nat

    ghost function View(): Tracker
      reads this
    {
      Tracker(order, unpaidAmounts)
    }

    ghost predicate Valid()
      reads this
    {
      View().Valid() && 0 < limit && |order| <= limit
    }

    constructor (limit: nat := 512)
      requires 0 < limit
      ensures Valid() && View() == EMPTY_TRACKER && this.limit == limit
    {
      this.limit := limit;
      order, unpaidAmounts := [], map[];
    }

    method Has(id: Option<RequestId>) returns (r: bool)
      ensures r == View().Has(id)
    {
      r := id.Some? && id.value in unpaidAmounts;
    }

    method Unpaid(id: Option<RequestId>) returns (r: nat)
      ensures r == View().Unpaid(id)
    {
      if id.None? || id.value !in unpaidAmounts {
        return 0;
      }
      r := unpaidAmounts[id.value];
    }

    method Mark(id: Option<RequestId>, amount: nat := 0)
      requires Valid()
      modifies this
      ensures Valid() && View() == old(View()).Mark(limit, id, amount)
    {
      MarkValid(View(), limit, id, amount);
      if id.None? || id.value == "" {
        return;
      }
      if |order| >= limit {
        unpaidAmounts := unpaidAmounts - {order[0]};
        order := order[1..];
      }
      if id.value !in unpaidAmounts {
        order := order + [id.value];
      }
      unpaidAmounts := unpaidAmounts[id.value := amount];
    }

    method Pay(id: Option<RequestId>, amount: nat)
      requires Valid()
      modifies this
      ensures Valid() && View() == old(View()).Pay(id, amount)
    {
      PayValid(View(), id, amount);
      if id.None? || amount == 0 || id.value !in unpaidAmounts {
        return;
      }
      var remaining := unpaidAmounts[id.value];
      unpaidAmounts := unpaidAmounts[id.value := if remaining > amount then remaining - amount else 0];
    }
  }
}
