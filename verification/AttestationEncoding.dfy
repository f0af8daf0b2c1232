/**
 The byte strings that attestation signatures and reports are computed over. A
 hash of one of them commits to its parts only if no two different inputs share
 the bytes; that is what is proved here. The hash itself is not modelled.
 */
module AttestationEncoding {
  import opened Wrappers
  import opened Utf8

  const LIMIT: nat := 0x1_0000_0000

  // ----- length prefixes -----

  function U32(n: nat): (b: Bytes)
    requires n < LIMIT
    ensures |b| == 4
  {
    [n / 0x100_0000, n / 0x1_0000 % 256, n / 256 % 256, n % 256]
  }

  function ReadU32(b: Bytes): nat
    requires |b| == 4
  {
    (b[0] as nat) * 0x100_0000 + (b[1] as nat) * 0x1_0000 + (b[2] as nat) * 0x100 + b[3] as nat
  }

  lemma {:induction false} U32RoundTrip(n: nat)
    requires n < LIMIT
    ensures ReadU32(U32(n)) == n
  {
    assert n / 0x1_0000 == n / 256 / 256;
    assert n / 0x100_0000 == n / 0x1_0000 / 256;
  }

  /** Writing a length of 2^32 or more throws. */
  predicate Fits(b: Bytes) {
    |b| < LIMIT
  }

  function LenPrefixed(b: Bytes): Bytes
    requires Fits(b)
  {
    U32(|b|) + b
  }

  /** A length-prefixed value can be read off the front: nothing else starts the same way. */
  lemma {:induction false} PrefixUnambiguous(x: Bytes, y: Bytes, r: Bytes, s: Bytes)
    requires Fits(x) && Fits(y) && LenPrefixed(x) + r == LenPrefixed(y) + s
    ensures x == y && r == s
  {
    var all := LenPrefixed(x) + r;
    assert all[..4] == U32(|x|) == U32(|y|);
    U32RoundTrip(|x|);
    U32RoundTrip(|y|);
    assert all[4..4 + |x|] == x == y;
    assert all[4 + |x|..] == r == s;
  }

  // ----- the evidence bundle -----

  /** A capability id as its UTF-16 code units, which is what sorting compares. */
  type Id = seq<CodeUnit>

  datatype Entry = Entry(id: Id, bytes: Bytes)

  predicate Less(a: Id, b: Id)
    decreases |a|
  {
    if b == [] then false
    else if a == [] then true
    else a[0] < b[0] || (a[0] == b[0] && Less(a[1..], b[1..]))
  }

  lemma {:induction false} LessTotal(a: Id, b: Id)
    ensures Less(a, b) || a == b || Less(b, a)
    decreases |a|
  {
    if a != [] && b != [] && a[0] == b[0] {
      LessTotal(a[1..], b[1..]);
      assert a == [a[0]] + a[1..] && b == [b[0]] + b[1..];
    }
  }

  lemma {:induction false} LessStrict(a: Id, b: Id)
    requires Less(a, b)
    ensures a != b && !Less(b, a)
    decreases |a|
  {
    if a != [] && a[0] == b[0] {
      LessStrict(a[1..], b[1..]);
    }
  }

  lemma {:induction false} LessTransitive(a: Id, b: Id, c: Id)
    requires Less(a, b) && Less(b, c)
    ensures Less(a, c)
    decreases |a|
  {
    if a != [] && a[0] == b[0] == c[0] {
      LessTransitive(a[1..], b[1..], c[1..]);
    }
  }

  /** A JavaScript record: entries in insertion order, no id twice. */
  ghost predicate Record(es: seq<Entry>) {
    forall i, j :: 0 <= i < j < |es| ==> es[i].id != es[j].id
  }

  /** "seller-bound" */
  const SELLER_BOUND: Id := [115, 101, 108, 108, 101, 114, 45, 98, 111, 117, 110, 100]

  function Kept(es: seq<Entry>): seq<Entry> {
    if es == [] then [] else (if es[0].id != SELLER_BOUND then [es[0]] else []) + Kept(es[1..])
  }

  function Insert(e: Entry, sorted: seq<Entry>): seq<Entry> {
    if sorted == [] || !Less(sorted[0].id, e.id) then [e] + sorted else [sorted[0]] + Insert(e, sorted[1..])
  }

  function Sort(es: seq<Entry>): seq<Entry> {
    if es == [] then [] else Insert(es[0], Sort(es[1..]))
  }

  /** The id as it is hashed; `utf8` encodes it. */
  function EncodeEntry(utf8: Id -> Bytes, e: Entry): Option<Bytes> {
    if Fits(utf8(e.id)) && Fits(e.bytes) then Some(LenPrefixed(utf8(e.id)) + LenPrefixed(e.bytes)) else None
  }

  function EncodeAll(utf8: Id -> Bytes, es: seq<Entry>): Option<Bytes> {
    if es == [] then Some([])
    else
      var init, last := EncodeAll(utf8, es[..|es| - 1]), EncodeEntry(utf8, es[|es| - 1]);
      if init.Some? && last.Some? then Some(init.value + last.value) else None
  }

  /** What the bundle digest hashes, or None where the code throws. */
  function BundlePreimage(evidence: seq<Entry>): Option<Bytes> {
    EncodeAll(Encode, Sort(Kept(evidence)))
  }

  method HashedBundle(evidence: seq<Entry>) returns (r: Option<Bytes>)
    ensures r == BundlePreimage(evidence)
  {
    r := HashEntries(Encode, Sort(Kept(evidence)));
  }

  method HashEntries(utf8: Id -> Bytes, ids: seq<Entry>) returns (r: Option<Bytes>)
    ensures r == EncodeAll(utf8, ids)
  {
    var hashed: Bytes := [];
    var i := 0;
    while i < |ids|
      invariant 0 <= i <= |ids|
      invariant EncodeAll(utf8, ids[..i]) == Some(hashed)
    {
      assert ids[..i + 1][..i] == ids[..i];
      var id := utf8(ids[i].id);
      if |id| >= LIMIT || |ids[i].bytes| >= LIMIT {
        NoneStays(utf8, ids, i + 1);
        return None;
      }
      hashed := hashed + (LenPrefixed(id) + LenPrefixed(ids[i].bytes));
      i := i + 1;
    }
    assert ids[..i] == ids;
    r := Some(hashed);
  }

  lemma {:induction false} NoneStays(utf8: Id -> Bytes, es: seq<Entry>, i: nat)
    requires i <= |es| && EncodeAll(utf8, es[..i]).None?
    ensures EncodeAll(utf8, es).None?
    decreases |es|
  {
    if i < |es| {
      var n := |es| - 1;
      assert es[..n][..i] == es[..i];
      NoneStays(utf8, es[..n], i);
    } else {
      assert es[..i] == es;
    }
  }

  // ----- sorting -----

  ghost predicate Increasing(es: seq<Entry>) {
    forall i, j :: 0 <= i < j < |es| ==> Less(es[i].id, es[j].id)
  }

  ghost predicate Fresh(id: Id, es: seq<Entry>) {
    forall i :: 0 <= i < |es| ==> es[i].id != id
  }

  lemma {:induction false} InsertMembers(e: Entry, sorted: seq<Entry>, x: Entry)
    ensures x in Insert(e, sorted) <==> x == e || x in sorted
  {
    if sorted != [] && Less(sorted[0].id, e.id) {
      InsertMembers(e, sorted[1..], x);
      assert sorted == [sorted[0]] + sorted[1..];
    }
  }

  lemma {:induction false} ConsIncreasing(e: Entry, es: seq<Entry>)
    requires Increasing(es) && forall x :: x in es ==> Less(e.id, x.id)
    ensures Increasing([e] + es)
  {
  }

  lemma {:induction false} InsertIncreasing(e: Entry, sorted: seq<Entry>)
    requires Increasing(sorted) && Fresh(e.id, sorted)
    ensures Increasing(Insert(e, sorted))
  {
    if sorted == [] {
      ConsIncreasing(e, sorted);
    } else if !Less(sorted[0].id, e.id) {
      LessTotal(sorted[0].id, e.id);
      forall x | x in sorted ensures Less(e.id, x.id) {
        var k :| 0 <= k < |sorted| && sorted[k] == x;
        if k > 0 {
          LessTransitive(e.id, sorted[0].id, x.id);
        }
      }
      ConsIncreasing(e, sorted);
    } else {
      var rest := sorted[1..];
      assert Fresh(e.id, rest) && Increasing(rest);
      InsertIncreasing(e, rest);
      forall x | x in Insert(e, rest) ensures Less(sorted[0].id, x.id) {
        InsertMembers(e, rest, x);
      }
      ConsIncreasing(sorted[0], Insert(e, rest));
    }
  }

  lemma {:induction false} SortProperties(es: seq<Entry>)
    requires Record(es)
    ensures Increasing(Sort(es))
    ensures SameMembers(Sort(es), es)
  {
    if es != [] {
      var rest := es[1..];
      assert es == [es[0]] + rest;
      SortProperties(rest);
      assert Fresh(es[0].id, Sort(rest)) by {
        forall i | 0 <= i < |Sort(rest)| ensures Sort(rest)[i].id != es[0].id {
          assert Sort(rest)[i] in rest;
        }
      }
      InsertIncreasing(es[0], Sort(rest));
      forall x ensures x in Sort(es) <==> x in es {
        InsertMembers(es[0], Sort(rest), x);
      }
    }
  }

  /** A sorted record is determined by its entries. */
  lemma {:induction false} SortedIsUnique(a: seq<Entry>, b: seq<Entry>)
    requires Increasing(a) && Increasing(b) && SameMembers(a, b)
    ensures a == b
    decreases |a|
  {
    if |b| > 0 {
      var x := b[0];
      assert x in b;
      assert x in a;
    }
    if a != [] {
      assert a[0] in b;
      SameHead(a, b);
      assert a == [a[0]] + a[1..] && b == [b[0]] + b[1..];
      forall x ensures x in a[1..] <==> x in b[1..] {
        HeadNotInTail(a, x);
        HeadNotInTail(b, x);
      }
      SortedIsUnique(a[1..], b[1..]);
    }
  }

  lemma {:induction false} HeadNotInTail(a: seq<Entry>, x: Entry)
    requires Increasing(a) && a != []
    ensures x in a[1..] <==> x in a && x != a[0]
  {
    assert a == [a[0]] + a[1..];
    if x in a[1..] {
      var i :| 0 <= i < |a[1..]| && a[1..][i] == x;
      LessStrict(a[0].id, a[i + 1].id);
    }
  }

  lemma {:induction false} SameHead(a: seq<Entry>, b: seq<Entry>)
    requires Increasing(a) && Increasing(b) && a != [] && b != [] && a[0] in b && b[0] in a
    ensures a[0] == b[0]
  {
    var k :| 0 <= k < |b| && b[k] == a[0];
    var m :| 0 <= m < |a| && a[m] == b[0];
    if k > 0 && m > 0 {
      LessStrict(a[0].id, a[m].id);
    }
  }

  // ----- the bundle preimage says exactly what the evidence is -----

  lemma {:induction false} EncodeCons(utf8: Id -> Bytes, es: seq<Entry>)
    requires es != []
    ensures EncodeAll(utf8, es) ==
      var head, rest := EncodeEntry(utf8, es[0]), EncodeAll(utf8, es[1..]);
      if head.Some? && rest.Some? then Some(head.value + rest.value) else None
    decreases |es|
  {
    var n := |es| - 1;
    if n > 0 {
      EncodeCons(utf8, es[..n]);
      assert es[..n][1..] == es[1..][..n - 1];
      var head, mid, last := EncodeEntry(utf8, es[0]), EncodeAll(utf8, es[1..][..n - 1]), EncodeEntry(utf8, es[n]);
      if head.Some? && mid.Some? && last.Some? {
        AppendAssoc(head.value, mid.value, last.value);
      }
    } else {
      var head := EncodeEntry(utf8, es[0]);
      assert es[..0] == [] && es[1..] == [];
      if head.Some? {
        assert [] + head.value == head.value == head.value + [];
      }
    }
  }

  /** An entry by some view of its id: as it is written, or as text. */
  datatype Seen<T> = Seen(id: T, bytes: Bytes)

  function SeenBy<T>(view: Id -> T, es: seq<Entry>): seq<Seen<T>> {
    if es == [] then [] else [Seen(view(es[0].id), es[0].bytes)] + SeenBy(view, es[1..])
  }

  lemma {:induction false} EntryUnambiguous(utf8: Id -> Bytes, x: Entry, y: Entry, r: Bytes, s: Bytes)
    requires EncodeEntry(utf8, x).Some? && EncodeEntry(utf8, y).Some?
    requires EncodeEntry(utf8, x).value + r == EncodeEntry(utf8, y).value + s
    ensures utf8(x.id) == utf8(y.id) && x.bytes == y.bytes && r == s
  {
    AppendAssoc(LenPrefixed(utf8(x.id)), LenPrefixed(x.bytes), r);
    AppendAssoc(LenPrefixed(utf8(y.id)), LenPrefixed(y.bytes), s);
    PrefixUnambiguous(utf8(x.id), utf8(y.id), LenPrefixed(x.bytes) + r, LenPrefixed(y.bytes) + s);
    PrefixUnambiguous(x.bytes, y.bytes, r, s);
  }

  lemma {:induction false} EncodedNotEmpty(utf8: Id -> Bytes, es: seq<Entry>)
    requires es != [] && EncodeAll(utf8, es).Some?
    ensures EncodeAll(utf8, es).value != []
  {
  }

  lemma {:induction false} EncodeAllUnambiguous(utf8: Id -> Bytes, a: seq<Entry>, b: seq<Entry>, bytes: Bytes)
    requires EncodeAll(utf8, a) == Some(bytes)
    requires EncodeAll(utf8, b) == Some(bytes)
    ensures SeenBy(utf8, a) == SeenBy(utf8, b)
    decreases |a|
  {
    if a == [] || b == [] {
      if a != [] {
        EncodedNotEmpty(utf8, a);
      }
      if b != [] {
        EncodedNotEmpty(utf8, b);
      }
    } else {
      EncodeCons(utf8, a);
      EncodeCons(utf8, b);
      EntryUnambiguous(utf8, a[0], b[0], EncodeAll(utf8, a[1..]).value, EncodeAll(utf8, b[1..]).value);
      EncodeAllUnambiguous(utf8, a[1..], b[1..], EncodeAll(utf8, a[1..]).value);
    }
  }

  lemma {:induction false} SeenAlikeEncodesAlike(utf8: Id -> Bytes, a: seq<Entry>, b: seq<Entry>)
    requires SeenBy(utf8, a) == SeenBy(utf8, b)
    ensures EncodeAll(utf8, a) == EncodeAll(utf8, b)
    decreases |a|
  {
    if a != [] && b != [] {
      SeenCons(utf8, a);
      SeenCons(utf8, b);
      SeenAlikeEncodesAlike(utf8, a[1..], b[1..]);
      EncodeCons(utf8, a);
      EncodeCons(utf8, b);
    }
  }

  /** Entries are written alike if and only if they read alike. */
  lemma {:induction false} WrittenIsText(a: seq<Entry>, b: seq<Entry>)
    ensures SeenBy(Encode, a) == SeenBy(Encode, b) <==> SeenBy(Text, a) == SeenBy(Text, b)
    decreases |a|
  {
    if a != [] && b != [] {
      SeenCons(Encode, a);
      SeenCons(Encode, b);
      SeenCons(Text, a);
      SeenCons(Text, b);
      EncodeUnambiguous(a[0].id, b[0].id);
      WrittenIsText(a[1..], b[1..]);
      Uncons(SeenBy(Encode, a), []);
      Uncons(SeenBy(Encode, b), []);
      Uncons(SeenBy(Text, a), []);
      Uncons(SeenBy(Text, b), []);
    }
  }

  lemma {:induction false} SeenCons<T>(view: Id -> T, es: seq<Entry>)
    requires es != []
    ensures var s := SeenBy(view, es);
      |s| > 0 && s[0] == Seen(view(es[0].id), es[0].bytes) && s[1..] == SeenBy(view, es[1..])
  {
  }

  /** What a record maps an id to. */
  function Lookup(es: seq<Entry>, id: Id): Option<Bytes> {
    if es == [] then None else if es[0].id == id then Some(es[0].bytes) else Lookup(es[1..], id)
  }

  /** The same evidence under every capability id but the seller's own. */
  ghost predicate SameEvidence(a: seq<Entry>, b: seq<Entry>) {
    forall id :: id != SELLER_BOUND ==> Lookup(a, id) == Lookup(b, id)
  }

  lemma {:induction false} KeptMembers(es: seq<Entry>, x: Entry)
    ensures x in Kept(es) <==> x in es && x.id != SELLER_BOUND
  {
    if es != [] {
      KeptMembers(es[1..], x);
      assert es == [es[0]] + es[1..];
    }
  }

  lemma {:induction false} KeptRecord(es: seq<Entry>)
    requires Record(es)
    ensures Record(Kept(es))
  {
    if es != [] {
      KeptRecord(es[1..]);
      var rest := Kept(es[1..]);
      assert Fresh(es[0].id, rest) by {
        forall i | 0 <= i < |rest| ensures rest[i].id != es[0].id {
          KeptMembers(es[1..], rest[i]);
        }
      }
    }
  }

  lemma {:induction false} LookupMembers(es: seq<Entry>, x: Entry)
    requires Record(es)
    ensures x in es <==> Lookup(es, x.id) == Some(x.bytes)
  {
    if es != [] {
      assert es == [es[0]] + es[1..];
      LookupMembers(es[1..], x);
    }
  }

  lemma {:induction false} LookupFound(es: seq<Entry>, id: Id)
    requires Lookup(es, id).Some?
    ensures Entry(id, Lookup(es, id).value) in es
  {
    if es[0].id != id {
      LookupFound(es[1..], id);
    }
  }

  ghost predicate SameMembers(a: seq<Entry>, b: seq<Entry>) {
    forall x: Entry :: x in a <==> x in b
  }

  lemma {:induction false} SameEvidenceSameMembers(a: seq<Entry>, b: seq<Entry>)
    requires Record(a) && Record(b) && SameEvidence(a, b)
    ensures SameMembers(Kept(a), Kept(b))
  {
    forall x: Entry ensures x in Kept(a) <==> x in Kept(b) {
      KeptMembers(a, x);
      KeptMembers(b, x);
      LookupMembers(a, x);
      LookupMembers(b, x);
    }
  }

  lemma {:induction false} SameMembersSameEvidence(a: seq<Entry>, b: seq<Entry>)
    requires Record(a) && Record(b) && SameMembers(Kept(a), Kept(b))
    ensures SameEvidence(a, b)
  {
    forall id | id != SELLER_BOUND ensures Lookup(a, id) == Lookup(b, id) {
      if Lookup(a, id).Some? {
        Transfer(a, b, id);
      } else if Lookup(b, id).Some? {
        Transfer(b, a, id);
      }
    }
  }

  lemma {:induction false} Transfer(a: seq<Entry>, b: seq<Entry>, id: Id)
    requires Record(a) && Record(b) && id != SELLER_BOUND && Lookup(a, id).Some?
    requires SameMembers(Kept(a), Kept(b))
    ensures Lookup(b, id) == Lookup(a, id)
  {
    LookupFound(a, id);
    var x := Entry(id, Lookup(a, id).value);
    KeptMembers(a, x);
    KeptMembers(b, x);
    LookupMembers(b, x);
  }

  /** What a bundle says in text: its sorted entries, each id by its code points. */
  function BundleText(evidence: seq<Entry>): seq<Seen<seq<nat>>> {
    SeenBy(Text, Sort(Kept(evidence)))
  }

  /** For all bundles: the preimages are the same if and only if the texts are. */
  lemma {:induction false} PreimageIsText(a: seq<Entry>, b: seq<Entry>)
    requires BundlePreimage(a).Some?
    ensures BundlePreimage(a) == BundlePreimage(b) <==> BundleText(a) == BundleText(b)
  {
    var x, y := Sort(Kept(a)), Sort(Kept(b));
    WrittenIsText(x, y);
    if BundlePreimage(a) == BundlePreimage(b) {
      EncodeAllUnambiguous(Encode, x, y, EncodeAll(Encode, x).value);
    }
    if SeenBy(Encode, x) == SeenBy(Encode, y) {
      SeenAlikeEncodesAlike(Encode, x, y);
    }
  }

  /** The same evidence is the same sorted list, whatever the order it was added in. */
  lemma {:induction false} SortIsEvidence(a: seq<Entry>, b: seq<Entry>)
    requires Record(a) && Record(b)
    ensures Sort(Kept(a)) == Sort(Kept(b)) <==> SameEvidence(a, b)
  {
    KeptRecord(a);
    KeptRecord(b);
    SortProperties(Kept(a));
    SortProperties(Kept(b));
    if SameEvidence(a, b) {
      SameEvidenceSameMembers(a, b);
      SortedIsUnique(Sort(Kept(a)), Sort(Kept(b)));
    }
    if Sort(Kept(a)) == Sort(Kept(b)) {
      assert SameMembers(Kept(a), Kept(b)) by {
        forall x: Entry ensures x in Kept(a) <==> x in Kept(b) {
          assert x in Sort(Kept(a)) <==> x in Kept(a);
          assert x in Sort(Kept(b)) <==> x in Kept(b);
        }
      }
      SameMembersSameEvidence(a, b);
    }
  }

  predicate WellFormedIds(es: seq<Entry>) {
    forall i :: 0 <= i < |es| ==> WellFormed(es[i].id)
  }

  /** Well-formed ids without the replacement character. */
  predicate PlainIds(es: seq<Entry>) {
    forall i :: 0 <= i < |es| ==> WellFormed(es[i].id) && REPLACEMENT !in CodePoints(es[i].id)
  }

  lemma {:induction false} TextDetermines(a: seq<Entry>, b: seq<Entry>)
    requires SeenBy(Text, a) == SeenBy(Text, b)
    requires (WellFormedIds(a) && WellFormedIds(b)) || PlainIds(a)
    ensures a == b
    decreases |a|
  {
    if a != [] && b != [] {
      SeenCons(Text, a);
      SeenCons(Text, b);
      PointsDetermine(a[0].id, b[0].id);
      TextDetermines(a[1..], b[1..]);
      Uncons(a, []);
      Uncons(b, []);
    }
  }

  lemma {:induction false} KeptIds(es: seq<Entry>)
    requires Record(es)
    ensures WellFormedIds(es) ==> WellFormedIds(Sort(Kept(es)))
    ensures PlainIds(es) ==> PlainIds(Sort(Kept(es)))
  {
    KeptRecord(es);
    SortProperties(Kept(es));
    var sorted := Sort(Kept(es));
    forall i | 0 <= i < |sorted| ensures sorted[i] in es {
      assert sorted[i] in Kept(es);
      KeptMembers(es, sorted[i]);
    }
  }

  /** Two bundles whose ids are well formed have the same preimage if and only if
      they hold the same evidence, whatever the order their entries were added in.
      A bundle with plain ids shares its preimage with no other evidence at all. */
  lemma {:induction false} BundleUnambiguous(a: seq<Entry>, b: seq<Entry>)
    requires Record(a) && Record(b) && BundlePreimage(a).Some?
    requires (WellFormedIds(a) && WellFormedIds(b)) || PlainIds(a)
    ensures BundlePreimage(a) == BundlePreimage(b) <==> SameEvidence(a, b)
  {
    PreimageIsText(a, b);
    SortIsEvidence(a, b);
    KeptIds(a);
    KeptIds(b);
    if BundleText(a) == BundleText(b) {
      TextDetermines(Sort(Kept(a)), Sort(Kept(b)));
    }
  }

  /** Outside that, evidence can be exchanged: under any two single surrogates the
      same bytes give one preimage and two bundles. */
  lemma {:induction false} LoneSurrogatesCollide(u: CodeUnit, v: CodeUnit, x: Bytes)
    requires High(u) || Low(u)
    requires High(v) || Low(v)
    requires u != v && Fits(x)
    ensures var a, b := [Entry([u], x)], [Entry([v], x)];
      && Record(a) && Record(b) && BundlePreimage(a).Some?
      && BundlePreimage(a) == BundlePreimage(b) && !SameEvidence(a, b)
  {
    LoneSurrogates(u);
    LoneSurrogates(v);
    assert |Encode([u])| <= 4 && Encode([u]) == Encode([v]);
    OneEntry(Entry([u], x));
    OneEntry(Entry([v], x));
    assert Lookup([Entry([v], x)][1..], [u]) == None;
  }

  lemma {:induction false} OneEntry(e: Entry)
    requires e.id != SELLER_BOUND
    ensures BundlePreimage([e]) == EncodeEntry(Encode, e)
    ensures Lookup([e], e.id) == Some(e.bytes)
  {
    assert [e][1..] == [];
    assert Kept([e]) == [e] + Kept([]) == [e];
    assert Sort([e]) == Insert(e, Sort([])) == [e] + [];
    AppendEmpty([e]);
    EncodeOne(Encode, e);
  }

  lemma {:induction false} EncodeOne(utf8: Id -> Bytes, e: Entry)
    ensures EncodeAll(utf8, [e]) == EncodeEntry(utf8, e)
  {
    assert [e][..0] == [];
    if EncodeEntry(utf8, e).Some? {
      AppendEmpty(EncodeEntry(utf8, e).value);
    }
  }

  // ----- report data, scheme antseed-rd-v1 -----

  /** "antseed-rd-v1" */
  const DOMAIN: Bytes := [97, 110, 116, 115, 101, 101, 100, 45, 114, 100, 45, 118, 49]

  /** The optional fields from position `i` on, each under its tag `i + 1`. */
  function FieldsFrom(fields: seq<Option<Bytes>>, i: nat): Option<Bytes>
    requires i <= |fields| < 256
    decreases |fields| - i
  {
    if i == |fields| then Some([])
    else
      var rest := FieldsFrom(fields, i + 1);
      if fields[i].None? then rest
      else if rest.None? || !Fits(fields[i].value) then None
      else Some([i + 1] + LenPrefixed(fields[i].value) + rest.value)
  }

  /** What the report data hashes, or None where the code throws. */
  function ReportPreimage(nonce: Bytes, fields: seq<Option<Bytes>>): Option<Bytes>
    requires |fields| < 256
  {
    var rest := FieldsFrom(fields, 0);
    if !Fits(nonce) || rest.None? then None else Some(DOMAIN + LenPrefixed(nonce) + rest.value)
  }

  /** The field table has two entries: the peer id and the public key. */
  method HashedReport(nonce: Bytes, fields: seq<Option<Bytes>>) returns (r: Option<Bytes>)
    requires |fields| < 256
    ensures r == ReportPreimage(nonce, fields)
  {
    if |nonce| >= LIMIT {
      return None;
    }
    var hashed := DOMAIN + LenPrefixed(nonce);
    var i := 0;
    while i < |fields|
      invariant 0 <= i <= |fields|
      invariant var rest := FieldsFrom(fields, i);
        ReportPreimage(nonce, fields) == if rest.None? then None else Some(hashed + rest.value)
    {
      if fields[i].Some? {
        if |fields[i].value| >= LIMIT {
          return None;
        }
        ghost var rest := FieldsFrom(fields, i + 1);
        ghost var before := hashed;
        hashed := hashed + ([i + 1] + LenPrefixed(fields[i].value));
        if rest.Some? {
          AppendAssoc(before, [i + 1] + LenPrefixed(fields[i].value), rest.value);
        }
      }
      i := i + 1;
    }
    assert hashed + [] == hashed;
    r := Some(hashed);
  }

  /** Later fields start with later tags. */
  lemma {:induction false} LaterTags(fields: seq<Option<Bytes>>, i: nat)
    requires i <= |fields| < 256 && FieldsFrom(fields, i).Some?
    ensures FieldsFrom(fields, i).value != [] ==> FieldsFrom(fields, i).value[0] > i
    decreases |fields| - i
  {
    if i < |fields| && fields[i].None? {
      LaterTags(fields, i + 1);
    }
  }

  lemma {:induction false} FieldUnambiguous(i: Byte, x: Bytes, y: Bytes, r: Bytes, s: Bytes)
    requires Fits(x) && Fits(y) && [i] + LenPrefixed(x) + r == [i] + LenPrefixed(y) + s
    ensures x == y && r == s
  {
    var all := [i] + LenPrefixed(x) + r;
    assert all[1..] == LenPrefixed(x) + r;
    assert all[1..] == LenPrefixed(y) + s;
    PrefixUnambiguous(x, y, r, s);
  }

  lemma {:induction false} FieldsUnambiguous(f: seq<Option<Bytes>>, g: seq<Option<Bytes>>, i: nat)
    requires i <= |f| == |g| < 256 && FieldsFrom(f, i).Some? && FieldsFrom(f, i) == FieldsFrom(g, i)
    ensures f[i..] == g[i..]
    decreases |f| - i
  {
    if i < |f| {
      if f[i].None? {
        LaterTags(f, i + 1);
      } else if g[i].None? {
        LaterTags(g, i + 1);
      } else {
        FieldUnambiguous(i + 1, f[i].value, g[i].value, FieldsFrom(f, i + 1).value, FieldsFrom(g, i + 1).value);
      }
      FieldsUnambiguous(f, g, i + 1);
      assert f[i..] == [f[i]] + f[i + 1..] && g[i..] == [g[i]] + g[i + 1..];
    }
  }

  /** Two inputs with the same preimage have the same nonce and the same fields,
      absent ones included. */
  lemma {:induction false} ReportUnambiguous(n: Bytes, f: seq<Option<Bytes>>, m: Bytes, g: seq<Option<Bytes>>)
    requires |f| == |g| < 256 && ReportPreimage(n, f).Some? && ReportPreimage(n, f) == ReportPreimage(m, g)
    ensures n == m && f == g
  {
    var x, y := FieldsFrom(f, 0).value, FieldsFrom(g, 0).value;
    var all := DOMAIN + LenPrefixed(n) + x;
    assert all[|DOMAIN|..] == LenPrefixed(n) + x;
    assert all == DOMAIN + LenPrefixed(m) + y;
    assert all[|DOMAIN|..] == LenPrefixed(m) + y;
    PrefixUnambiguous(n, m, x, y);
    FieldsUnambiguous(f, g, 0);
    assert f[0..] == f && g[0..] == g;
  }

  // ----- the seller's signature -----

  predicate HexDigit(c: char) {
    '0' <= c <= '9' || 'a' <= c <= 'f'
  }

  /** What JavaScript's `trim` removes: white space and line terminators. */
  predicate IsSpace(c: char) {
    var n := c as int;
    9 <= n <= 13 || n == 0x20 || n == 0xA0 || n == 0x1680 || 0x2000 <= n <= 0x200A || n == 0x2028 || n == 0x2029
    || n == 0x202F || n == 0x205F || n == 0x3000 || n == 0xFEFF
  }

  predicate AllSpace(s: string) {
    forall i :: 0 <= i < |s| ==> IsSpace(s[i])
  }

  function TrimStart(s: string): string {
    if s != "" && IsSpace(s[0]) then TrimStart(s[1..]) else s
  }

  function TrimEnd(s: string): string {
    if s != "" && IsSpace(s[|s| - 1]) then TrimEnd(s[..|s| - 1]) else s
  }

  function Trim(s: string): string {
    TrimEnd(TrimStart(s))
  }

  lemma {:induction false} TrimStartSpace(l: string, s: string)
    requires AllSpace(l)
    ensures TrimStart(l + s) == TrimStart(s)
  {
    if l == "" {
      assert l + s == s;
    } else {
      assert (l + s)[1..] == l[1..] + s;
      TrimStartSpace(l[1..], s);
    }
  }

  lemma {:induction false} TrimEndSpace(s: string, r: string)
    requires AllSpace(r)
    ensures TrimEnd(s + r) == TrimEnd(s)
    decreases |r|
  {
    if r == "" {
      assert s + r == s;
    } else {
      var n := |r| - 1;
      assert (s + r)[..|s + r| - 1] == s + r[..n] && (s + r)[|s + r| - 1] == r[n];
      TrimEndSpace(s, r[..n]);
    }
  }

  lemma {:induction false} TrimBehind(s: string, r: string)
    requires AllSpace(r)
    ensures Trim(s + r) == Trim(s)
  {
    if s == "" {
      assert s + r == r + "";
      TrimStartSpace(r, "");
    } else if IsSpace(s[0]) {
      assert (s + r)[1..] == s[1..] + r;
      TrimBehind(s[1..], r);
    } else {
      TrimEndSpace(s, r);
    }
  }

  /** A peer id is forty hex digits in either case. */
  function NormalizePeerId(id: string): Option<string> {
    var p := Lower(Trim(id));
    if |p| == 40 && forall i :: 0 <= i < |p| ==> HexDigit(p[i]) then Some(p) else None
  }

  /** Space around a peer id makes no difference. */
  lemma {:induction false} PaddingIsIgnored(l: string, id: string, r: string)
    requires AllSpace(l) && AllSpace(r)
    ensures NormalizePeerId(l + id + r) == NormalizePeerId(id)
  {
    assert (l + id) + r == l + (id + r);
    TrimStartSpace(l, id + r);
    TrimBehind(id, r);
  }

  function Ascii(c: char): Byte {
    if HexDigit(c) then c as int else 0
  }

  function AsciiBytes(s: string): (b: Bytes)
    ensures |b| == |s|
  {
    seq(|s|, i requires 0 <= i < |s| => Ascii(s[i]))
  }

  function SellerPreimage(nonce: Bytes, digest: Bytes, peerId: string): Option<Bytes> {
    var p := NormalizePeerId(peerId);
    if p.None? then None else Some(nonce + digest + AsciiBytes(p.value))
  }

  method FilledSellerPreimage(nonce: Bytes, digest: Bytes, peerId: string) returns (a: Option<array<Byte>>)
    ensures a.None? <==> SellerPreimage(nonce, digest, peerId).None?
    ensures a.Some? ==> fresh(a.value) && SellerPreimage(nonce, digest, peerId) == Some(a.value[..])
  {
    var p := NormalizePeerId(peerId);
    if p.None? {
      return None;
    }
    var pid := AsciiBytes(p.value);
    var preimage := new Byte[|nonce| + |digest| + |pid|];
    Set(preimage, nonce, 0);
    Set(preimage, digest, |nonce|);
    Set(preimage, pid, |nonce| + |digest|);
    assert preimage[..] == nonce + digest + pid;
    a := Some(preimage);
  }

  method Set(a: array<Byte>, b: Bytes, at: nat)
    requires at + |b| <= a.Length
    modifies a
    ensures a[..] == old(a[..at]) + b + old(a[at + |b|..])
  {
    var i := 0;
    while i < |b|
      invariant 0 <= i <= |b|
      invariant forall k :: 0 <= k < i ==> a[at + k] == b[k]
      invariant forall k :: 0 <= k < at || at + i <= k < a.Length ==> a[k] == old(a[k])
    {
      a[at + i] := b[i];
      i := i + 1;
    }
  }

  lemma {:induction false} AsciiInjective(p: string, q: string)
    requires |p| == |q| && AsciiBytes(p) == AsciiBytes(q)
    requires forall i :: 0 <= i < |p| ==> HexDigit(p[i]) && HexDigit(q[i])
    ensures p == q
  {
    forall i | 0 <= i < |p| ensures p[i] == q[i] {
      assert AsciiBytes(p)[i] == p[i] as int && AsciiBytes(q)[i] == q[i] as int;
    }
  }

  /** With digests of one length, the preimage fixes the nonce, the digest and the
      peer id up to case and surrounding space, whatever the length of the nonce. */
  lemma {:induction false} SellerUnambiguous(n: Bytes, d: Bytes, p: string, m: Bytes, e: Bytes, q: string)
    requires |d| == |e| && SellerPreimage(n, d, p).Some? && SellerPreimage(m, e, q).Some?
    ensures SellerPreimage(n, d, p) == SellerPreimage(m, e, q) <==>
            n == m && d == e && NormalizePeerId(p) == NormalizePeerId(q)
  {
    var x, y := AsciiBytes(NormalizePeerId(p).value), AsciiBytes(NormalizePeerId(q).value);
    if SellerPreimage(n, d, p) == SellerPreimage(m, e, q) {
      var all := n + d + x;
      assert all == m + e + y;
      assert |n| == |m|;
      assert all[..|n|] == n == m;
      assert all[|n|..|n| + |d|] == d == e;
      assert all[|n| + |d|..] == x == y;
      AsciiInjective(NormalizePeerId(p).value, NormalizePeerId(q).value);
    }
  }
}
