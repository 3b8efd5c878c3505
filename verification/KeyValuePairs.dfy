/** Key-Value-Pairs: Types delta-encoded against the one before, the parity of the
    Type saying whether a varint or a length-prefixed byte string follows. */
module KeyValuePairs {
  import opened Wire
  import opened Vi64
  import opened StableSorting

  const MAX_VALUE_LENGTH := 65535

  datatype KeyValuePair = KeyValuePair(typ: U64, bytes: Bytes, number: U64)

  type KVPList = seq<KeyValuePair>

  function TypeOf(p: KeyValuePair): nat { p.typ }

  function SortedPairs(list: KVPList): KVPList {
    Sort(list, TypeOf)
  }

  /** A byte string with its length in front. */
  function AppendByteString(b: Bytes): Bytes {
    Append(ToU64(|b|)) + b
  }

  /** The value, in the encoding the parity of the Type selects. */
  function AppendValue(p: KeyValuePair): Bytes {
    if p.typ % 2 == 1 then AppendByteString(p.bytes) else Append(p.number)
  }

  /** One pair, its Type relative to `prev`. */
  function AppendPair(p: KeyValuePair, prev: U64): (b: Bytes)
    ensures |b| > 0
  {
    Append(WrapSub(p.typ, prev)) + AppendValue(p)
  }

  function AppendPairs(list: KVPList, prev: U64): Bytes {
    if list == [] then [] else AppendPair(list[0], prev) + AppendPairs(list[1..], list[0].typ)
  }

  /** A length-prefixed byte string of at most `max` bytes; a `max` of 0 is no bound. */
  function ByteStringAt(s: Bytes, i: nat, max: nat): (r: Parsed<Bytes>)
    ensures r.Ok? ==> i < r.end <= |s|
    ensures r.Ok? && max != 0 ==> |r.value| <= max
  {
    var (length, j) :- Vi64At(s, i);
    if max != 0 && length > max then Err(FieldTooLong) else BytesAt(s, j, length)
  }

  function ValueAt(s: Bytes, i: nat, typ: U64): (r: Parsed<KeyValuePair>)
    ensures r.Ok? ==> i < r.end <= |s| && r.value.typ == typ
  {
    var (n, j) :- Vi64At(s, i);
    if typ % 2 == 0 then Ok(KeyValuePair(typ, [], n), j)
    else if n > MAX_VALUE_LENGTH then Err(ValueTooLong)
    else
      var (v, e) :- BytesAt(s, j, n);
      Ok(KeyValuePair(typ, v, 0), e)
  }

  function PairAt(s: Bytes, i: nat, prev: U64): (r: Parsed<KeyValuePair>)
    ensures r.Ok? ==> i < r.end <= |s| && prev <= r.value.typ
  {
    var (delta, j) :- Vi64At(s, i);
    if delta > MAX_U64 - prev then Err(DeltaTypeOverflow) else ValueAt(s, j, prev + delta)
  }

  /** Pairs until the bytes run out. */
  function PairsAt(s: Bytes, i: nat, prev: U64): (r: Parsed<KVPList>)
    requires i <= |s|
    ensures r.Ok? ==> r.end == |s|
    decreases |s| - i
  {
    if i == |s| then Ok([], i)
    else
      var (p, j) :- PairAt(s, i, prev);
      After([p], PairsAt(s, j, p.typ))
  }

  /** The block a whole byte sequence holds. */
  function ParsePairs(data: Bytes): Parsed<KVPList> {
    PairsAt(data, 0, 0)
  }

  // ---- The loops of the codec, against those functions.

  method AppendUnsorted(buf: Bytes, list: KVPList) returns (out: Bytes)
    ensures out == buf + AppendPairs(list, 0)
  {
    out := buf;
    var prev: U64 := 0;
    for n := 0 to |list|
      invariant out + AppendPairs(list[n..], prev) == buf + AppendPairs(list, 0)
    {
      assert list[n..][0] == list[n] && list[n..][1..] == list[n + 1..];
      out := out + AppendPair(list[n], prev);
      prev := list[n].typ;
    }
  }

  /** The length a block announces is the number of bytes that follow it. */
  method AppendLen(list: KVPList) returns (total: nat)
    ensures total == |AppendPairs(list, 0)|
  {
    total := 0;
    var prev: U64 := 0;
    for n := 0 to |list|
      invariant total + |AppendPairs(list[n..], prev)| == |AppendPairs(list, 0)|
    {
      var p := list[n];
      assert list[n..][0] == p && list[n..][1..] == list[n + 1..];
      var header := Vi64.Len(WrapSub(p.typ, prev));
      if p.typ % 2 == 1 {
        total := total + (header + Vi64.Len(ToU64(|p.bytes|)) + |p.bytes|);
      } else {
        total := total + (header + Vi64.Len(p.number));
      }
      prev := p.typ;
    }
  }

  method AppendLength(buf: Bytes, list: KVPList) returns (out: Bytes)
    ensures out == buf + AppendBlock(list)
  {
    var sorted := SortedPairs(list);
    var length := AppendLen(sorted);
    out := AppendUnsorted(buf + Append(ToU64(length)), sorted);
  }

  /** A block of pairs with its length in bytes in front. */
  function AppendBlock(list: KVPList): Bytes {
    AppendByteString(AppendPairs(SortedPairs(list), 0))
  }

  /** Pairs from `from` to the end of the bytes. */
  method ParseAll(data: Bytes, from: nat) returns (r: Parsed<KVPList>)
    requires from <= |data|
    ensures r == PairsAt(data, from, 0)
  {
    hide PairAt;
    var list: KVPList := [];
    var prev: U64 := 0;
    var parsed := from;
    AfterOne(list, KeyValuePair(0, [], 0), PairsAt(data, from, 0));
    while parsed < |data|
      invariant parsed <= |data|
      invariant PairsAt(data, from, 0) == After(list, PairsAt(data, parsed, prev))
    {
      var p := PairAt(data, parsed, prev);
      if p.Err? {
        return Err(p.error);
      }
      AfterOne(list, p.value, PairsAt(data, p.end, p.value.typ));
      parsed := p.end;
      prev := p.value.typ;
      list := list + [p.value];
    }
    assert list + [] == list;
    return Ok(list, parsed);
  }

  // ---- What survives a round trip.

  /** The value field the parity does not select is never on the wire. */
  function Canon(p: KeyValuePair): (r: KeyValuePair)
    ensures r.typ == p.typ
  {
    if p.typ % 2 == 1 then p.(number := 0) else p.(bytes := [])
  }

  function CanonAll(list: KVPList): (r: KVPList)
    ensures |r| == |list| && forall n | 0 <= n < |r| :: r[n] == Canon(list[n])
  {
    if list == [] then [] else [Canon(list[0])] + CanonAll(list[1..])
  }

  /** The drafts bound a byte string value; nothing else can stop a pair from being read back. */
  predicate Legal(p: KeyValuePair) {
    p.typ % 2 == 1 ==> |p.bytes| <= MAX_VALUE_LENGTH
  }

  predicate AllLegal(list: KVPList) {
    forall p | p in list :: Legal(p)
  }

  /** No value is longer than a 64-bit length can say. */
  predicate Addressable(list: KVPList) {
    forall p | p in list :: |p.bytes| < TWO_64
  }

  predicate OrderedFrom(list: KVPList, prev: U64) {
    list == [] || (prev <= list[0].typ && OrderedFrom(list[1..], list[0].typ))
  }

  lemma {:induction false} SortedIsOrdered(list: KVPList, prev: U64)
    requires Sorted(list, TypeOf) && (list != [] ==> prev <= list[0].typ)
    ensures OrderedFrom(list, prev)
  {
    if list != [] {
      assert TypeOf(list[0]) == list[0].typ;
      if |list| > 1 {
        assert TypeOf(list[0]) <= TypeOf(list[1]);
      }
      SortedIsOrdered(list[1..], list[0].typ);
    }
  }

  lemma {:induction false} OrderedIsSorted(list: KVPList, prev: U64)
    requires OrderedFrom(list, prev)
    ensures Sorted(list, TypeOf) && forall p | p in list :: prev <= p.typ
  {
    if list != [] {
      OrderedIsSorted(list[1..], list[0].typ);
      assert list == [list[0]] + list[1..];
    }
  }

  lemma ByteStringReads(b: Bytes, max: nat, s: Bytes, i: nat)
    requires |b| < TWO_64 && Has(s, i, AppendByteString(b))
    ensures ByteStringAt(s, i, max) ==
            if max != 0 && |b| > max then Err(FieldTooLong) else Ok(b, i + |AppendByteString(b)|)
  {
    hide Vi64At, Append, Len, Has, BytesAt;
    HasSplit(s, i, Append(ToU64(|b|)), b);
    AppendReads(ToU64(|b|), s, i);
    BytesRead(b, s, i + Len(ToU64(|b|)));
  }

  lemma ValueReads(p: KeyValuePair, s: Bytes, i: nat)
    requires |p.bytes| < TWO_64 && Has(s, i, AppendValue(p))
    ensures ValueAt(s, i, p.typ) ==
            if Legal(p) then Ok(Canon(p), i + |AppendValue(p)|) else Err(ValueTooLong)
  {
    hide Vi64At, Append, Len, Has, BytesAt;
    if p.typ % 2 == 1 {
      HasSplit(s, i, Append(ToU64(|p.bytes|)), p.bytes);
      AppendReads(ToU64(|p.bytes|), s, i);
      BytesRead(p.bytes, s, i + Len(ToU64(|p.bytes|)));
    } else {
      AppendReads(p.number, s, i);
    }
  }

  lemma PairReads(p: KeyValuePair, prev: U64, s: Bytes, i: nat)
    requires prev <= p.typ && |p.bytes| < TWO_64 && Has(s, i, AppendPair(p, prev))
    ensures PairAt(s, i, prev) ==
            if Legal(p) then Ok(Canon(p), i + |AppendPair(p, prev)|) else Err(ValueTooLong)
  {
    hide Vi64At, Append, Len, AppendValue, ValueAt, Canon, Legal, Has;
    HasSplit(s, i, Append(WrapSub(p.typ, prev)), AppendValue(p));
    AppendReads(WrapSub(p.typ, prev), s, i);
    ValueReads(p, s, i + Len(WrapSub(p.typ, prev)));
  }

  lemma {:induction false} PairsRead(list: KVPList, prev: U64, s: Bytes, i: nat)
    requires OrderedFrom(list, prev) && Addressable(list)
    requires Has(s, i, AppendPairs(list, prev)) && i + |AppendPairs(list, prev)| == |s|
    ensures AllLegal(list) ==> PairsAt(s, i, prev) == Ok(CanonAll(list), |s|)
    ensures !AllLegal(list) ==> PairsAt(s, i, prev) == Err(ValueTooLong)
  {
    hide Has, PairAt, AppendPair, Legal, Canon, AllLegal, Addressable, CanonAll;
    if list == [] {
      Nothing();
    } else {
      var first, rest := AppendPair(list[0], prev), AppendPairs(list[1..], list[0].typ);
      OfCons(list);
      HasSplit(s, i, first, rest);
      PairReads(list[0], prev, s, i);
      PairsRead(list[1..], list[0].typ, s, i + |first|);
    }
  }

  /** What holds of a list, from its first pair and the rest. */
  lemma OfCons(list: KVPList)
    requires list != []
    ensures AllLegal(list) <==> Legal(list[0]) && AllLegal(list[1..])
    ensures Addressable(list) ==> |list[0].bytes| < TWO_64 && Addressable(list[1..])
    ensures CanonAll(list) == [Canon(list[0])] + CanonAll(list[1..])
  {
    hide Legal, Canon;
    assert forall p :: p in list <==> p == list[0] || p in list[1..];
  }

  lemma Nothing()
    ensures AllLegal([]) && CanonAll([]) == []
  {
  }

  /** Writing a list and reading it back gives its stable sort by Type, provided no
      byte string is longer than the drafts allow; one that is fails to read. */
  lemma PairsRoundTrip(list: KVPList)
    requires Addressable(list)
    ensures AllLegal(list) ==>
              var bytes := AppendPairs(SortedPairs(list), 0);
              ParsePairs(bytes) == Ok(CanonAll(SortedPairs(list)), |bytes|)
    ensures !AllLegal(list) ==> ParsePairs(AppendPairs(SortedPairs(list), 0)) == Err(ValueTooLong)
  {
    var sorted := SortedPairs(list);
    SortIsStable(list, TypeOf);
    SortedIsOrdered(sorted, 0);
    assert forall p :: p in sorted <==> p in multiset(sorted);
    assert forall p :: p in list <==> p in multiset(list);
    PairsRead(sorted, 0, AppendPairs(sorted, 0), 0);
  }

  lemma ParsedValueIsCanonical(s: Bytes, i: nat, typ: U64)
    requires ValueAt(s, i, typ).Ok?
    ensures var p := ValueAt(s, i, typ).value;
            Legal(p) && Canon(p) == p && |AppendValue(p)| <= ValueAt(s, i, typ).end - i
  {
    hide Vi64At, Len, Append, Fits;
    LenIsShortest(Vi64At(s, i).value, Vi64At(s, i).end - i);
  }

  lemma ParsedPairIsCanonical(s: Bytes, i: nat, prev: U64)
    requires PairAt(s, i, prev).Ok?
    ensures var p := PairAt(s, i, prev).value;
            Legal(p) && Canon(p) == p && |AppendPair(p, prev)| <= PairAt(s, i, prev).end - i
  {
    hide Vi64At, Len, Append, Fits, ValueAt, AppendValue, Legal, Canon;
    var (delta, j) := Vi64At(s, i).Extract();
    LenIsShortest(delta, j - i);
    ParsedValueIsCanonical(s, j, prev + delta);
  }

  /** Whatever parses is in canonical form already: re-writing it never takes more
      bytes, and reads back the same. */
  lemma {:induction false} ParsedPairsAreCanonical(s: Bytes, i: nat, prev: U64)
    requires i <= |s| && PairsAt(s, i, prev).Ok?
    ensures var list := PairsAt(s, i, prev).value;
            OrderedFrom(list, prev) && AllLegal(list) && CanonAll(list) == list
            && |AppendPairs(list, prev)| <= |s| - i
    decreases |s| - i
  {
    if i < |s| {
      var (p, j) := PairAt(s, i, prev).Extract();
      ParsedPairIsCanonical(s, i, prev);
      hide PairAt, AppendPair, Canon, Legal;
      ParsedPairsAreCanonical(s, j, p.typ);
      var rest := PairsAt(s, j, p.typ).value;
      assert CanonAll([p] + rest) == [Canon(p)] + CanonAll(rest);
      assert ([p] + rest)[1..] == rest;
    }
  }

  lemma PairsCanonicalisation(data: Bytes)
    requires ParsePairs(data).Ok?
    ensures var list := ParsePairs(data).value;
            var again := AppendPairs(SortedPairs(list), 0);
            |again| <= |data| && ParsePairs(again) == Ok(list, |again|)
  {
    var list := ParsePairs(data).value;
    ParsedPairsAreCanonical(data, 0, 0);
    OrderedIsSorted(list, 0);
    SortOfSorted(list, TypeOf);
    forall p | p in list ensures |p.bytes| < TWO_64 {
      assert Canon(p) == p by {
        var n :| 0 <= n < |list| && list[n] == p;
        assert CanonAll(list)[n] == Canon(p);
      }
    }
    PairsRead(list, 0, AppendPairs(list, 0), 0);
  }
}
