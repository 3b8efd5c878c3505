/** Counted sequences of byte strings: a Track Namespace, wherever one appears. */
module FieldLists {
  import opened Wire
  import opened Vi64
  import opened KeyValuePairs

  const MAX_NAMESPACE_FIELDS := 32

  type Fields = seq<Bytes>

  function StringsBytes(list: Fields): (b: Bytes)
    ensures |b| >= |list|
  {
    if list == [] then [] else AppendByteString(list[0]) + StringsBytes(list[1..])
  }

  function AppendFields(list: Fields): Bytes {
    Append(ToU64(|list|)) + StringsBytes(list)
  }

  function StringsAt(s: Bytes, i: nat, count: nat): (r: Parsed<Fields>)
    ensures r.Ok? ==> i + count <= r.end && (i <= |s| ==> r.end <= |s|) && |r.value| == count
    decreases count
  {
    if count == 0 then Ok([], i)
    else
      var (b, j) :- ByteStringAt(s, i, 0);
      After([b], StringsAt(s, j, count - 1))
  }

  /** A count, bounded by `max` unless that is 0 and by the bytes that are left, then that many strings. */
  function FieldsAt(s: Bytes, i: nat, max: nat): (r: Parsed<Fields>)
    ensures r.Ok? ==> i < r.end <= |s|
  {
    var (count, j) :- Vi64At(s, i);
    if max != 0 && count > max then Err(TooManyFields)
    else if count > |s| - j then Err(UnexpectedEof)
    else StringsAt(s, j, count)
  }

  method AppendFieldList(buf: Bytes, list: Fields) returns (out: Bytes)
    ensures out == buf + AppendFields(list)
  {
    hide Append, Len;
    out := buf + Append(ToU64(|list|));
    assert out + StringsBytes(list) == buf + AppendFields(list);
    for n := 0 to |list|
      invariant out + StringsBytes(list[n..]) == buf + AppendFields(list)
    {
      assert list[n..][0] == list[n] && list[n..][1..] == list[n + 1..];
      out := out + AppendByteString(list[n]);
    }
  }

  method ParseFieldList(s: Bytes, i: nat, max: nat) returns (r: Parsed<Fields>)
    ensures r == FieldsAt(s, i, max)
  {
    hide Vi64At, ByteStringAt;
    var count := Vi64At(s, i);
    if count.Err? {
      return Err(count.error);
    }
    if max != 0 && count.value > max {
      return Err(TooManyFields);
    }
    if count.value > |s| - count.end {
      return Err(UnexpectedEof);
    }
    var list: Fields, parsed := [], count.end;
    AfterOne(list, [], StringsAt(s, parsed, count.value));
    for n := 0 to count.value
      invariant 0 <= parsed <= |s|
      invariant StringsAt(s, count.end, count.value) == After(list, StringsAt(s, parsed, count.value - n))
    {
      var b := ByteStringAt(s, parsed, 0);
      if b.Err? {
        return Err(b.error);
      }
      AfterOne(list, b.value, StringsAt(s, b.end, count.value - n - 1));
      parsed := b.end;
      list := list + [b.value];
    }
    assert list + [] == list;
    return Ok(list, parsed);
  }

  /** No string, nor the list itself, is longer than a 64-bit length can say. */
  predicate Countable(list: Fields) {
    |list| < TWO_64 && forall b | b in list :: |b| < TWO_64
  }

  lemma {:induction false} StringsRead(list: Fields, s: Bytes, i: nat)
    requires (forall b | b in list :: |b| < TWO_64) && Has(s, i, StringsBytes(list))
    ensures StringsAt(s, i, |list|) == Ok(list, i + |StringsBytes(list)|)
  {
    hide Has, ByteStringAt, AppendByteString, ToU64;
    if list == [] {
      assert StringsBytes(list) == [];
    } else {
      var first := AppendByteString(list[0]);
      assert StringsBytes(list) == first + StringsBytes(list[1..]);
      HasSplit(s, i, first, StringsBytes(list[1..]));
      ByteStringReads(list[0], 0, s, i);
      StringsRead(list[1..], s, i + |first|);
      assert list == [list[0]] + list[1..];
    }
  }

  /** A list written reads back, exactly when it is within the bound. */
  lemma FieldsRead(list: Fields, max: nat, s: Bytes, i: nat)
    requires Countable(list) && Has(s, i, AppendFields(list))
    ensures FieldsAt(s, i, max) ==
            if max != 0 && |list| > max then Err(TooManyFields) else Ok(list, i + |AppendFields(list)|)
  {
    hide Vi64At, Append, Len, StringsAt, StringsBytes;
    HasSplit(s, i, Append(ToU64(|list|)), StringsBytes(list));
    AppendReads(ToU64(|list|), s, i);
    StringsRead(list, s, i + Len(ToU64(|list|)));
  }

  lemma ByteStringIsShort(s: Bytes, i: nat, max: nat)
    requires ByteStringAt(s, i, max).Ok?
    ensures var b := ByteStringAt(s, i, max).value;
            |b| < TWO_64 && |AppendByteString(b)| <= ByteStringAt(s, i, max).end - i
  {
    hide Vi64At, Append, Fits, Len;
    LenIsShortest(Vi64At(s, i).value, Vi64At(s, i).end - i);
  }

  lemma {:induction false} StringsAreShort(s: Bytes, i: nat, count: nat)
    requires StringsAt(s, i, count).Ok?
    ensures var list := StringsAt(s, i, count).value;
            (forall b | b in list :: |b| < TWO_64) && |StringsBytes(list)| <= StringsAt(s, i, count).end - i
    decreases count
  {
    hide ByteStringAt, AppendByteString;
    if count > 0 {
      var (b, j) := ByteStringAt(s, i, 0).Extract();
      ByteStringIsShort(s, i, 0);
      StringsAreShort(s, j, count - 1);
      var rest := StringsAt(s, j, count - 1).value;
      assert ([b] + rest)[1..] == rest;
    }
  }

  /** Whatever list was accepted can be written again in no more bytes. */
  lemma FieldsAreCanonical(s: Bytes, i: nat, max: nat)
    requires FieldsAt(s, i, max).Ok?
    ensures var list := FieldsAt(s, i, max).value;
            && Countable(list) && (max != 0 ==> |list| <= max)
            && |AppendFields(list)| <= FieldsAt(s, i, max).end - i
  {
    hide Vi64At, Append, Len, Fits, StringsAt, StringsBytes;
    var (count, j) := Vi64At(s, i).Extract();
    LenIsShortest(count, j - i);
    StringsAreShort(s, j, count);
  }
}
