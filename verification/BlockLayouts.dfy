/** What the lists of the wire look like, byte for byte and Type by Type: namespaces,
    Key-Value-Pairs and Message Parameters, each told from its front to its last element. */
module BlockLayouts {
  import opened Wire
  import opened Vi64
  import opened StableSorting
  import opened KeyValuePairs
  import opened FieldLists
  import opened FilterCodec
  import opened Parameters

  /** A length and that many bytes. */
  function Text(b: Bytes): Bytes {
    Append(|b| % 0x1_0000_0000_0000_0000) + b
  }

  /** No delta between these wraps around. */
  predicate Ascending(types: seq<U64>) {
    forall n | 0 < n < |types| :: types[n - 1] <= types[n]
  }

  // ---- Namespaces.

  function NamesText(list: Fields): Bytes {
    if list == [] then [] else NamesText(list[..|list| - 1]) + Text(list[|list| - 1])
  }

  lemma {:induction false} StringsSnoc(list: Fields, b: Bytes)
    ensures StringsBytes(list + [b]) == StringsBytes(list) + AppendByteString(b)
  {
    hide AppendByteString;
    if list == [] {
      assert [] + [b] == [b];
    } else {
      assert (list + [b])[1..] == list[1..] + [b];
      StringsSnoc(list[1..], b);
    }
  }

  lemma {:induction false} StringsLaidOut(list: Fields)
    ensures StringsBytes(list) == NamesText(list)
  {
    hide Append;
    if list != [] {
      var front, last := list[..|list| - 1], list[|list| - 1];
      assert list == front + [last];
      StringsSnoc(front, last);
      StringsLaidOut(front);
    }
  }

  /** A namespace is its number of fields and each field behind its length. */
  lemma NamespaceLaidOut(list: Fields)
    ensures AppendFields(list) == Append(|list| % 0x1_0000_0000_0000_0000) + NamesText(list)
  {
    hide Append;
    StringsLaidOut(list);
  }

  // ---- Key-Value-Pairs.

  function PairTypes(list: KVPList): seq<U64> {
    seq(|list|, n requires 0 <= n < |list| => list[n].typ)
  }

  /** The distance from the Type before, then a number for an even Type and a byte string for an odd one. */
  function PairText(p: KeyValuePair, before: U64): Bytes
    requires before <= p.typ
  {
    Append(p.typ - before) + if p.typ % 2 == 0 then Append(p.number) else Text(p.bytes)
  }

  function PairsText(list: KVPList): Bytes
    requires Ascending(PairTypes(list))
  {
    if list == [] then []
    else
      var n := |list| - 1;
      FrontAscends(PairTypes(list), PairTypes(list[..n]));
      assert n > 0 ==> PairTypes(list)[n - 1] <= PairTypes(list)[n];
      PairsText(list[..n]) + PairText(list[n], if n == 0 then 0 else list[n - 1].typ)
  }

  lemma FrontAscends(types: seq<U64>, front: seq<U64>)
    requires Ascending(types) && front <= types
    ensures Ascending(front)
  {
  }

  lemma Distance(typ: U64, before: U64)
    requires before <= typ
    ensures WrapSub(typ, before) == typ - before
  {
  }

  lemma PairIsText(p: KeyValuePair, before: U64)
    requires before <= p.typ
    ensures AppendPair(p, before) == PairText(p, before)
  {
    hide Append, WrapSub;
    Distance(p.typ, before);
  }

  lemma {:induction false} PairsSnoc(list: KVPList, p: KeyValuePair, prev: U64)
    ensures AppendPairs(list + [p], prev) ==
            AppendPairs(list, prev) + AppendPair(p, if list == [] then prev else list[|list| - 1].typ)
  {
    hide AppendPair;
    if list == [] {
      assert [] + [p] == [p];
    } else {
      assert (list + [p])[1..] == list[1..] + [p];
      PairsSnoc(list[1..], p, list[0].typ);
    }
  }

  lemma {:induction false} PairsLaidOutFrom(list: KVPList)
    requires Ascending(PairTypes(list))
    ensures AppendPairs(list, 0) == PairsText(list)
  {
    hide AppendPair, PairText;
    if list != [] {
      var n := |list| - 1;
      assert list == list[..n] + [list[n]];
      FrontAscends(PairTypes(list), PairTypes(list[..n]));
      assert n > 0 ==> PairTypes(list)[n - 1] <= PairTypes(list)[n];
      PairIsText(list[n], if n == 0 then 0 else list[n - 1].typ);
      PairsSnoc(list[..n], list[n], 0);
      PairsLaidOutFrom(list[..n]);
    }
  }

  /** The pairs of a block, sorted by Type, one after another. */
  lemma PairsLaidOut(list: KVPList)
    ensures Ascending(PairTypes(SortedPairs(list)))
    ensures AppendPairs(SortedPairs(list), 0) == PairsText(SortedPairs(list))
  {
    SortIsStable(list, KeyValuePairs.TypeOf);
    PairsLaidOutFrom(SortedPairs(list));
  }

  // ---- Counts.

  /** A count beyond the bytes that are left ends the reading at once, before any allocation for it. */
  lemma CountsAreBounded(s: Bytes, i: nat, max: nat, reg: Registry, version: Version)
    requires Vi64At(s, i).Ok? && Vi64At(s, i).value > |s| - Vi64At(s, i).end
    ensures BlockAt(s, i, reg, version) == Err(UnexpectedEof)
    ensures FieldsAt(s, i, max) == Err(if max != 0 && Vi64At(s, i).value > max then TooManyFields else UnexpectedEof)
  {
    hide Vi64At;
  }

  /** A value behind a length fills it to the last byte: what FILL_PARAMETERS holds, and a draft-18 filter. */
  lemma LengthsAreFilled(s: Bytes, i: nat, version: Version)
    requires ByteStringAt(s, i, 65535).Ok?
    ensures var (body, end) := ByteStringAt(s, i, 65535).Extract();
            var inner, filter := BlockAt(body, 0, Fill, version), Parse18(body);
            && (inner.Ok? ==> ParameterValueAt(0x23, Nested, s, i, version) ==
                              if inner.end == |body| then Ok(Blank(0x23).(params := inner.value), end) else Err(TrailingBytes))
            && (filter.Ok? ==> FilterAt(s, i, Draft18) ==
                               if filter.end == |body| then Ok(filter.value, end) else Err(TrailingBytes))
  {
    hide ByteStringAt, BlockAt, Parse18;
  }

  // ---- Message Parameters.

  function ParameterTypes(list: ParameterList): seq<U64> {
    seq(|list|, n requires 0 <= n < |list| => list[n].typ)
  }

  /** Whether a Type is in a draft's table, or in that of FILL_PARAMETERS. */
  predicate Known(typ: U64, reg: Registry) {
    match reg
    case TopLevel(Draft18) => typ in {2, 3, 4, 6, 8, 9, 10, 16, 32, 33, 34, 50, 52}
    case TopLevel(Draft22) => typ in {2, 3, 4, 6, 8, 9, 10, 16, 32, 33, 34, 35, 37, 38, 39, 40, 41, 50, 52, 53}
    case Fill => typ in {10, 32, 33, 34, 37, 38, 39, 40}
  }

  /** The value of a known Type. */
  function ValueText(p: Parameter, reg: Registry, version: Version): Result<Bytes>
    requires Known(p.typ, reg)
    decreases Depth(reg), 0, 0
  {
    if p.typ in {2, 4, 6, 8, 10, 50} then Success(Append(p.number))
    else if p.typ in {16, 32, 34, 53} then if p.number < 256 then Success([p.number]) else Failure(NumberTooLarge)
    else if p.typ == 3 || 37 <= p.typ <= 41 then Success(Text(p.bytes))
    else if p.typ == 9 then Success(Append(p.location.group) + Append(p.location.obj))
    else if p.typ == 33 then FilterBytes(p.filter, version)
    else if p.typ == 52 then Success(Append(|p.fields| % 0x1_0000_0000_0000_0000) + NamesText(p.fields))
    else
      var inner :- BlockText(p.params, Fill, version);
      Success(Text(inner))
  }

  /** The distance from the Type before and the value, or why there is none. */
  function ParameterText(p: Parameter, before: U64, reg: Registry, version: Version): Result<Bytes>
    requires before <= p.typ
    decreases Depth(reg), 1, 0
  {
    if !Known(p.typ, reg) then Failure(UnknownParameter(p.typ))
    else
      var value :- ValueText(p, reg, version);
      Success(Append(p.typ - before) + value)
  }

  function ParametersText(list: ParameterList, reg: Registry, version: Version): Result<Bytes>
    requires Ascending(ParameterTypes(list))
    decreases Depth(reg), 2, |list|
  {
    if list == [] then Success([])
    else
      var n := |list| - 1;
      FrontAscends(ParameterTypes(list), ParameterTypes(list[..n]));
      assert n > 0 ==> ParameterTypes(list)[n - 1] <= ParameterTypes(list)[n];
      var front :- ParametersText(list[..n], reg, version);
      var last :- ParameterText(list[n], if n == 0 then 0 else list[n - 1].typ, reg, version);
      Success(front + last)
  }

  lemma SortedAscends(list: ParameterList)
    ensures Ascending(ParameterTypes(SortedParameters(list)))
  {
    SortIsStable(list, ParameterType);
  }

  /** The number of parameters, then the parameters sorted by Type. */
  function BlockText(list: ParameterList, reg: Registry, version: Version): Result<Bytes>
    decreases Depth(reg), 3, 0
  {
    SortedAscends(list);
    var all :- ParametersText(SortedParameters(list), reg, version);
    Success(Append(|list| % 0x1_0000_0000_0000_0000) + all)
  }

  lemma {:induction false} ListSnoc(list: ParameterList, p: Parameter, prev: U64, reg: Registry, version: Version)
    ensures var front := ListBytes(list, prev, reg, version);
            var last := OneBytes(p, if list == [] then prev else list[|list| - 1].typ, reg, version);
            ListBytes(list + [p], prev, reg, version) ==
            if front.Failure? then front else if last.Failure? then last else Success(front.value + last.value)
  {
    hide OneBytes;
    if list == [] {
      assert [] + [p] == [p];
      var none: Bytes := [];
      assert ListBytes([], p.typ, reg, version) == Success(none);
      var one := OneBytes(p, prev, reg, version);
      assert one.Success? ==> one.value + none == none + one.value;
    } else {
      assert (list + [p])[1..] == list[1..] + [p];
      assert (list + [p])[0] == list[0];
      ListSnoc(list[1..], p, list[0].typ, reg, version);
      var first, rest := OneBytes(list[0], prev, reg, version), ListBytes(list[1..], list[0].typ, reg, version);
      var last := OneBytes(p, list[|list| - 1].typ, reg, version);
      if first.Success? && rest.Success? && last.Success? {
        assert first.value + (rest.value + last.value) == first.value + rest.value + last.value;
      }
    }
  }

  lemma KnownIsRegistered(typ: U64, reg: Registry)
    ensures Known(typ, reg) <==> Lookup(reg, typ).Some?
    ensures Known(typ, reg) ==>
              Lookup(reg, typ).value.encoding ==
              (if typ in {2, 4, 6, 8, 10, 50} then Varint
               else if typ in {16, 32, 34, 53} then Uint8
               else if typ == 3 || 37 <= typ <= 41 then ByteString
               else if typ == 9 then Pair
               else if typ == 33 then Filter
               else if typ == 52 then Encoding.Namespace
               else Nested)
    ensures Known(typ, reg) && Lookup(reg, typ).value.encoding == Nested ==> typ == 35 && reg.TopLevel?
  {
  }

  lemma {:induction false} OneLaidOut(p: Parameter, before: U64, reg: Registry, version: Version)
    requires before <= p.typ
    ensures OneBytes(p, before, reg, version) == ParameterText(p, before, reg, version)
    decreases Depth(reg), 1, 0
  {
    hide Append, FilterBytes, Known, Lookup, WrapSub;
    KnownIsRegistered(p.typ, reg);
    Distance(p.typ, before);
    if Known(p.typ, reg) {
      if p.typ == 35 {
        BlockLaidOut(p.params, Fill, version);
      } else if p.typ == 52 {
        NamespaceLaidOut(p.fields);
      }
    }
  }

  lemma {:induction false} ListLaidOut(list: ParameterList, reg: Registry, version: Version)
    requires Ascending(ParameterTypes(list))
    ensures ListBytes(list, 0, reg, version) == ParametersText(list, reg, version)
    decreases Depth(reg), 2, |list|
  {
    hide OneBytes, ParameterText;
    if list != [] {
      var n := |list| - 1;
      assert list == list[..n] + [list[n]];
      FrontAscends(ParameterTypes(list), ParameterTypes(list[..n]));
      assert n > 0 ==> ParameterTypes(list)[n - 1] <= ParameterTypes(list)[n];
      ListSnoc(list[..n], list[n], 0, reg, version);
      ListLaidOut(list[..n], reg, version);
      OneLaidOut(list[n], if n == 0 then 0 else list[n - 1].typ, reg, version);
    }
  }

  /** A block of parameters, in a message of either draft or inside FILL_PARAMETERS: the bytes it has, or
      the reason the first parameter that cannot be written has none. */
  lemma {:induction false} BlockLaidOut(list: ParameterList, reg: Registry, version: Version)
    ensures BlockBytes(list, reg, version) == BlockText(list, reg, version)
    decreases Depth(reg), 3, 0
  {
    hide Append, ListBytes, ParametersText;
    SortedAscends(list);
    ListLaidOut(SortedParameters(list), reg, version);
  }
}
