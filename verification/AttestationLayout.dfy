/**
 The attested byte strings, byte by byte: what a verifier that walks one from the
 front finds in it, said without the functions that build it.
 */
module AttestationLayout {
  import opened Wrappers
  import opened Utf8
  import opened AttestationEncoding

  // ----- the order of capability ids -----

  /** The first place where two ids part, or the end of the shorter. */
  ghost predicate PartAt(a: Id, b: Id, k: nat) {
    k <= |a| && k < |b| && a[..k] == b[..k] && (k == |a| || a[k] < b[k])
  }

  /** An id comes before another. */
  ghost predicate Precedes(a: Id, b: Id) {
    exists k: nat :: PartAt(a, b, k)
  }

  lemma {:induction false} HeadOfPart(a: Id, b: Id, k: nat)
    requires PartAt(a, b, k) && k > 0
    ensures a[0] == b[0]
  {
    assert a[..k][0] == b[..k][0];
  }

  /** An id sorts before another if and only if it is a proper beginning of it, or is
      smaller in the first code unit that differs. */
  lemma {:induction false} LessIff(a: Id, b: Id)
    ensures Less(a, b) <==> Precedes(a, b)
    decreases |a|
  {
    if b != [] && (a == [] || a[0] < b[0]) {
      assert PartAt(a, b, 0);
    } else if a != [] && b != [] && a[0] == b[0] {
      LessIff(a[1..], b[1..]);
      if k: nat :| PartAt(a[1..], b[1..], k) {
        assert a[..k + 1] == [a[0]] + a[1..][..k] && b[..k + 1] == [b[0]] + b[1..][..k];
        assert PartAt(a, b, k + 1);
      }
      if k: nat :| PartAt(a, b, k) {
        assert a[..k][1..] == a[1..][..k - 1] && b[..k][1..] == b[1..][..k - 1];
        assert PartAt(a[1..], b[1..], k - 1);
      }
    } else if k: nat :| PartAt(a, b, k) && k > 0 {
      HeadOfPart(a, b, k);
    }
  }

  // ----- walking over length-prefixed values -----

  /** At `at` stands a four-byte big-endian length, and behind it that many bytes: `x`. */
  ghost predicate ValueAt(b: Bytes, at: nat, x: Bytes) {
    && at + 4 + |x| <= |b|
    && ((b[at] as nat * 256 + b[at + 1]) * 256 + b[at + 2]) * 256 + b[at + 3] == |x|
    && b[at + 4..at + 4 + |x|] == x
  }

  lemma {:induction false} PrefixedAt(front: Bytes, x: Bytes, back: Bytes)
    requires Fits(x)
    ensures ValueAt(front + LenPrefixed(x) + back, |front|, x)
  {
    var b, at := front + LenPrefixed(x) + back, |front|;
    U32RoundTrip(|x|);
    assert b[at..at + 4] == U32(|x|);
    assert b[at] == U32(|x|)[0] && b[at + 1] == U32(|x|)[1] && b[at + 2] == U32(|x|)[2] && b[at + 3] == U32(|x|)[3];
    assert b[at + 4..at + 4 + |x|] == x;
  }

  // ----- the evidence bundle -----

  /** At `at` stands an entry: the bytes of its id, then its evidence. */
  ghost predicate EntryAt(utf8: Id -> Bytes, b: Bytes, at: nat, e: Entry) {
    var id := utf8(e.id);
    ValueAt(b, at, id) && ValueAt(b, at + 4 + |id|, e.bytes)
  }

  function EntrySize(utf8: Id -> Bytes, e: Entry): nat {
    8 + |utf8(e.id)| + |e.bytes|
  }

  /** From `at` on, the bytes are the entries in turn and nothing else. */
  ghost predicate EntriesFrom(utf8: Id -> Bytes, b: Bytes, at: nat, es: seq<Entry>)
    decreases |es|
  {
    if es == [] then at == |b|
    else EntryAt(utf8, b, at, es[0]) && EntriesFrom(utf8, b, at + EntrySize(utf8, es[0]), es[1..])
  }

  lemma {:induction false} EntryStands(utf8: Id -> Bytes, front: Bytes, e: Entry, back: Bytes)
    requires EncodeEntry(utf8, e).Some?
    ensures EntryAt(utf8, front + EncodeEntry(utf8, e).value + back, |front|, e)
    ensures |EncodeEntry(utf8, e).value| == EntrySize(utf8, e)
  {
    var id, x := LenPrefixed(utf8(e.id)), LenPrefixed(e.bytes);
    PrefixedAt(front, utf8(e.id), x + back);
    PrefixedAt(front + id, e.bytes, back);
    AppendAssoc(front, id + x, back);
    AppendAssoc(id, x, back);
    AppendAssoc(front, id, x + back);
    AppendAssoc(front + id, x, back);
  }

  /** Reading behind what stands in front of the entries. */
  lemma {:induction false} EncodedEntries(utf8: Id -> Bytes, front: Bytes, es: seq<Entry>, bytes: Bytes)
    requires EncodeAll(utf8, es) == Some(bytes)
    ensures EntriesFrom(utf8, front + bytes, |front|, es)
    decreases |es|
  {
    if es == [] {
      AppendEmpty(front);
    } else {
      var head, rest := EntryThenRest(utf8, es, bytes);
      AppendAssoc(front, head, rest);
      EntryStands(utf8, front, es[0], rest);
      EncodedEntries(utf8, front + head, es[1..], rest);
      EntriesCons(utf8, front + bytes, |front|, |front + head|, es);
    }
  }

  lemma {:induction false} EntriesCons(utf8: Id -> Bytes, b: Bytes, at: nat, next: nat, es: seq<Entry>)
    requires es != [] && next == at + EntrySize(utf8, es[0])
    requires EntryAt(utf8, b, at, es[0]) && EntriesFrom(utf8, b, next, es[1..])
    ensures EntriesFrom(utf8, b, at, es)
  {
  }

  lemma {:induction false} EntryThenRest(utf8: Id -> Bytes, es: seq<Entry>, bytes: Bytes)
    returns (head: Bytes, rest: Bytes)
    requires es != [] && EncodeAll(utf8, es) == Some(bytes)
    ensures EncodeEntry(utf8, es[0]) == Some(head) && EncodeAll(utf8, es[1..]) == Some(rest) && bytes == head + rest
  {
    EncodeCons(utf8, es);
    head, rest := EncodeEntry(utf8, es[0]).value, EncodeAll(utf8, es[1..]).value;
  }

  predicate EntryFits(e: Entry) {
    |Encode(e.id)| < 0x1_0000_0000 && |e.bytes| < 0x1_0000_0000
  }

  lemma {:induction false} EncodesIff(es: seq<Entry>)
    ensures EncodeAll(Encode, es).Some? <==> forall e :: e in es ==> EntryFits(e)
    decreases |es|
  {
    if es != [] {
      EncodeCons(Encode, es);
      EncodesIff(es[1..]);
      forall e ensures e in es <==> e == es[0] || e in es[1..] {
        Uncons(es, []);
      }
      assert EncodeEntry(Encode, es[0]).Some? <==> EntryFits(es[0]);
    }
  }

  /** `es` are the entries under another id than the seller's own, in the order of ids. */
  ghost predicate Bundled(evidence: seq<Entry>, es: seq<Entry>) {
    && (forall e :: e in es <==> e in evidence && e.id != SELLER_BOUND)
    && forall i, j :: 0 <= i < j < |es| ==> Precedes(es[i].id, es[j].id)
  }

  /** The bundle's bytes are its entries but the seller's own, once each, in the order
      of ids; they exist if and only if every length can be written. */
  lemma {:induction false} BundleIs(evidence: seq<Entry>)
    requires Record(evidence)
    ensures BundlePreimage(evidence).Some?
       <==> forall e :: e in evidence && e.id != SELLER_BOUND ==> EntryFits(e)
    ensures BundlePreimage(evidence).Some? ==>
      exists es :: Bundled(evidence, es) && EntriesFrom(Encode, BundlePreimage(evidence).value, 0, es)
  {
    var es := Sort(Kept(evidence));
    KeptRecord(evidence);
    SortProperties(Kept(evidence));
    forall e: Entry ensures e in es <==> e in evidence && e.id != SELLER_BOUND {
      assert e in es <==> e in Kept(evidence);
      KeptMembers(evidence, e);
    }
    forall i, j | 0 <= i < j < |es| ensures Precedes(es[i].id, es[j].id) {
      assert Less(es[i].id, es[j].id);
      LessIff(es[i].id, es[j].id);
    }
    assert Bundled(evidence, es);
    EncodesIff(es);
    if BundlePreimage(evidence).Some? {
      var bytes := BundlePreimage(evidence).value;
      EncodedEntries(Encode, [], es, bytes);
      AppendEmpty(bytes);
    }
  }

  // ----- report data -----

  /** From `at` on, the bytes are the fields that are present, each behind its tag, the
      first field's being 1. */
  ghost predicate FieldsAt(b: Bytes, at: nat, fields: seq<Option<Bytes>>, i: nat)
    requires i <= |fields|
    decreases |fields| - i
  {
    if i == |fields| then at == |b|
    else
      match fields[i]
      case None => FieldsAt(b, at, fields, i + 1)
      case Some(x) => at < |b| && b[at] == i + 1 && ValueAt(b, at + 1, x) && FieldsAt(b, at + 5 + |x|, fields, i + 1)
  }

  lemma {:induction false} FieldAt(front: Bytes, tag: Byte, x: Bytes, back: Bytes)
    requires Fits(x)
    ensures var b := front + ([tag] + LenPrefixed(x) + back);
      && b == (front + ([tag] + LenPrefixed(x))) + back
      && |front| < |b| && b[|front|] == tag && ValueAt(b, |front| + 1, x)
  {
    PrefixedAt(front + [tag], x, back);
    assert front + ([tag] + LenPrefixed(x) + back) == (front + [tag]) + LenPrefixed(x) + back;
  }

  lemma {:induction false} FieldsFit(fields: seq<Option<Bytes>>, i: nat)
    requires i <= |fields| < 256
    ensures FieldsFrom(fields, i).Some? <==> forall k :: i <= k < |fields| && fields[k].Some? ==> Fits(fields[k].value)
    decreases |fields| - i
  {
    if i < |fields| {
      FieldsFit(fields, i + 1);
    }
  }

  lemma {:induction false} FieldsCons(b: Bytes, at: nat, next: nat, fields: seq<Option<Bytes>>, i: nat)
    requires i < |fields| && fields[i].Some? && next == at + 5 + |fields[i].value|
    requires at < |b| && b[at] == i + 1 && ValueAt(b, at + 1, fields[i].value) && FieldsAt(b, next, fields, i + 1)
    ensures FieldsAt(b, at, fields, i)
  {
  }

  lemma {:induction false} FieldsLaid(front: Bytes, fields: seq<Option<Bytes>>, i: nat, bytes: Bytes)
    requires i <= |fields| < 256 && FieldsFrom(fields, i) == Some(bytes)
    ensures FieldsAt(front + bytes, |front|, fields, i)
    decreases |fields| - i
  {
    if i == |fields| {
      AppendEmpty(front);
    } else if fields[i].None? {
      FieldsLaid(front, fields, i + 1, bytes);
    } else {
      var x, rest := fields[i].value, FieldsFrom(fields, i + 1).value;
      var head := front + ([i + 1] + LenPrefixed(x));
      FieldAt(front, i + 1, x, rest);
      FieldsLaid(head, fields, i + 1, rest);
      assert front + bytes == head + rest;
      FieldsCons(front + bytes, |front|, |head|, fields, i);
    }
  }

  /** The report data is the domain, the nonce and the fields that are present. */
  lemma {:induction false} ReportIs(nonce: Bytes, fields: seq<Option<Bytes>>)
    requires |fields| < 256
    ensures var r := ReportPreimage(nonce, fields);
      && (r.Some? <==> |nonce| < 0x1_0000_0000
                       && forall k :: 0 <= k < |fields| && fields[k].Some? ==> |fields[k].value| < 0x1_0000_0000)
      && (r.Some? ==> |r.value| >= 13 && r.value[..13] == DOMAIN && ValueAt(r.value, 13, nonce)
                      && FieldsAt(r.value, 17 + |nonce|, fields, 0))
  {
    FieldsFit(fields, 0);
    if ReportPreimage(nonce, fields).Some? {
      var front, rest := DOMAIN + LenPrefixed(nonce), FieldsFrom(fields, 0).value;
      FieldsLaid(front, fields, 0, rest);
      PrefixedAt(DOMAIN, nonce, rest);
      assert (front + rest)[..13] == DOMAIN;
    }
  }

  // ----- the seller's signature -----

  predicate HexEither(c: char) {
    '0' <= c <= '9' || 'a' <= c <= 'f' || 'A' <= c <= 'F'
  }

  /** The byte a hex digit is signed as: capitals as small letters. */
  function SignedDigit(c: char): int {
    if 'A' <= c <= 'F' then c as int + 32 else c as int
  }

  /** Forty hex digits between white space. */
  ghost predicate Padded(id: string, l: string, digits: string, r: string) {
    && id == l + digits + r && AllSpace(l) && AllSpace(r)
    && |digits| == 40 && forall i :: 0 <= i < 40 ==> HexEither(digits[i])
  }

  lemma {:induction false} TrimEnds(s: string)
    ensures exists l, r :: AllSpace(l) && AllSpace(r) && s == l + Trim(s) + r
  {
    var l := StartSpace(s);
    var r := EndSpace(TrimStart(s));
    assert s == l + TrimStart(s) == l + (Trim(s) + r) == l + Trim(s) + r;
  }

  lemma {:induction false} StartSpace(s: string) returns (l: string)
    ensures AllSpace(l) && s == l + TrimStart(s)
  {
    l := "";
    if s != "" && IsSpace(s[0]) {
      l := StartSpace(s[1..]);
      l := [s[0]] + l;
    }
  }

  lemma {:induction false} EndSpace(s: string) returns (r: string)
    ensures AllSpace(r) && s == TrimEnd(s) + r
  {
    r := "";
    if s != "" && IsSpace(s[|s| - 1]) {
      r := EndSpace(s[..|s| - 1]);
      r := r + [s[|s| - 1]];
    }
  }

  lemma {:induction false} PaddedNormalizes(id: string, l: string, digits: string, r: string)
    requires Padded(id, l, digits, r)
    ensures NormalizePeerId(id) == Some(Lower(digits))
  {
    PaddingIsIgnored(l, digits, r);
    assert TrimStart(digits) == digits && TrimEnd(digits) == digits;
  }

  lemma {:induction false} NormalizedIsPadded(id: string)
    requires NormalizePeerId(id).Some?
    ensures exists l, digits, r :: Padded(id, l, digits, r)
  {
    TrimEnds(id);
    var l, r :| AllSpace(l) && AllSpace(r) && id == l + Trim(id) + r;
    forall i | 0 <= i < 40 ensures HexEither(Trim(id)[i]) {
      assert HexDigit(Lower(Trim(id))[i]);
    }
    assert Padded(id, l, Trim(id), r);
  }

  /** The seller signs the nonce, then the digest, then the forty digits in small
      letters; there is nothing to sign if and only if the id is no such number. */
  lemma {:induction false} SellerIs(nonce: Bytes, digest: Bytes, id: string)
    ensures SellerPreimage(nonce, digest, id).Some? <==> exists l, digits, r :: Padded(id, l, digits, r)
    ensures forall l, digits, r :: Padded(id, l, digits, r) ==>
      var b, n := SellerPreimage(nonce, digest, id).value, |nonce| + |digest|;
      && |b| == n + 40 && b[..|nonce|] == nonce && b[|nonce|..n] == digest
      && forall i :: 0 <= i < 40 ==> b[n + i] == SignedDigit(digits[i])
  {
    if SellerPreimage(nonce, digest, id).Some? {
      NormalizedIsPadded(id);
    }
    forall l, digits, r | Padded(id, l, digits, r)
      ensures var s := SellerPreimage(nonce, digest, id);
        && s.Some?
        && var b, n := s.value, |nonce| + |digest|;
           && |b| == n + 40 && b[..|nonce|] == nonce && b[|nonce|..n] == digest
           && forall i :: 0 <= i < 40 ==> b[n + i] == SignedDigit(digits[i])
    {
      PaddedNormalizes(id, l, digits, r);
    }
  }
}
