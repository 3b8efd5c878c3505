/** What a parameter block means once it has crossed the wire: written and read it is
    its own stable sort, and whatever was read can be written again. */
module ParameterRoundTrips {
  import opened Wire
  import opened Vi64
  import opened StableSorting
  import opened KeyValuePairs
  import opened FieldLists
  import opened FilterCodec
  import opened Parameters

  // ---- What is legal, and what comes back.

  /** The parameter as it is received: only the value its Type selects. */
  function Canon(p: Parameter, e: Encoding, version: Version): (r: Parameter)
    ensures r.typ == p.typ
    decreases ValueDepth(e), 0, 0
  {
    var q := Blank(p.typ);
    match e
    case Uint8 => q.(number := p.number)
    case Varint => q.(number := p.number)
    case Pair => q.(location := p.location)
    case ByteString => q.(bytes := p.bytes)
    case Namespace => q.(fields := p.fields)
    case Filter => q.(filter := Received(p.filter, version))
    case Nested => q.(params := CanonList(SortedParameters(p.params), Fill, version))
  }

  function CanonList(list: ParameterList, reg: Registry, version: Version): (r: ParameterList)
    ensures |r| == |list| && forall n | 0 <= n < |r| :: r[n].typ == list[n].typ
    decreases Depth(reg), 1, |list|
  {
    if list == [] then []
    else
      var def := Lookup(reg, list[0].typ);
      [if def.None? then list[0] else Canon(list[0], def.value.encoding, version)] + CanonList(list[1..], reg, version)
  }

  /** A value within the bounds the drafts set. The writer checks none of these. */
  predicate LegalValue(p: Parameter, e: Encoding, version: Version)
    decreases ValueDepth(e), 0, 0
  {
    match e
    case ByteString => |p.bytes| <= MAX_VALUE_LENGTH
    case Namespace => |p.fields| <= MAX_NAMESPACE_FIELDS
    case Nested =>
      var b := BlockBytes(p.params, Fill, version);
      LegalList(p.params, Fill, version) && (b.Success? ==> |b.value| <= MAX_VALUE_LENGTH)
    case _ => true
  }

  predicate LegalOne(p: Parameter, reg: Registry, version: Version)
    decreases Depth(reg), 1, 0
  {
    var def := Lookup(reg, p.typ);
    def.Some? ==> LegalValue(p, def.value.encoding, version)
  }

  /** Registry-legal: every value within bounds, and no Type repeated that may not be. */
  predicate LegalList(list: ParameterList, reg: Registry, version: Version)
    decreases Depth(reg), 2, 0
  {
    AllLegal(list, reg, version) && NoRepeats(list, {}, reg)
  }

  predicate AllLegal(list: ParameterList, reg: Registry, version: Version)
    decreases Depth(reg), 1, 1
  {
    forall p | p in list :: LegalOne(p, reg, version)
  }

  function OfType(list: ParameterList, typ: U64): ParameterList {
    WithKey(list, ParameterType, typ)
  }

  predicate Unique(reg: Registry, typ: U64) {
    Lookup(reg, typ).Some? && !Lookup(reg, typ).value.repeatable
  }

  /** A Type that may not repeat is there at most once, and not at all if it was seen before. */
  predicate NoRepeats(list: ParameterList, seen: set<U64>, reg: Registry) {
    forall typ: U64 | Unique(reg, typ) :: |OfType(list, typ)| <= if typ in seen then 0 else 1
  }

  /** No length is more than a 64-bit integer can say. */
  predicate StorableValue(p: Parameter, e: Encoding, version: Version)
    decreases ValueDepth(e), 0, 0
  {
    match e
    case ByteString => |p.bytes| < TWO_64
    case Namespace => Countable(p.fields)
    case Nested =>
      var b := BlockBytes(p.params, Fill, version);
      StorableList(p.params, Fill, version) && (b.Success? ==> |b.value| < TWO_64)
    case _ => true
  }

  predicate StorableOne(p: Parameter, reg: Registry, version: Version)
    decreases Depth(reg), 1, 0
  {
    var def := Lookup(reg, p.typ);
    def.Some? ==> StorableValue(p, def.value.encoding, version)
  }

  predicate StorableList(list: ParameterList, reg: Registry, version: Version)
    decreases Depth(reg), 2, 0
  {
    |list| < TWO_64 && AllStorable(list, reg, version)
  }

  predicate AllStorable(list: ParameterList, reg: Registry, version: Version)
    decreases Depth(reg), 1, 1
  {
    forall p | p in list :: StorableOne(p, reg, version)
  }

  lemma AllOfCons(p: Parameter, rest: ParameterList, reg: Registry, version: Version)
    ensures AllLegal([p] + rest, reg, version) <==> LegalOne(p, reg, version) && AllLegal(rest, reg, version)
    ensures AllStorable([p] + rest, reg, version) <==> StorableOne(p, reg, version) && AllStorable(rest, reg, version)
  {
    hide LegalOne, StorableOne;
    assert forall q :: q in [p] + rest <==> q == p || q in rest;
  }

  predicate OrderedFrom(list: ParameterList, prev: U64) {
    list == [] || (prev <= list[0].typ && OrderedFrom(list[1..], list[0].typ))
  }

  lemma {:induction false} SortedIsOrdered(list: ParameterList, prev: U64)
    requires Sorted(list, ParameterType) && (list != [] ==> prev <= list[0].typ)
    ensures OrderedFrom(list, prev)
  {
    if list != [] {
      assert ParameterType(list[0]) == list[0].typ;
      if |list| > 1 {
        assert ParameterType(list[0]) <= ParameterType(list[1]);
      }
      SortedIsOrdered(list[1..], list[0].typ);
    }
  }

  lemma {:induction false} OrderedIsSorted(list: ParameterList, prev: U64)
    requires OrderedFrom(list, prev)
    ensures Sorted(list, ParameterType) && forall p | p in list :: prev <= p.typ
  {
    if list != [] {
      OrderedIsSorted(list[1..], list[0].typ);
      assert list == [list[0]] + list[1..];
    }
  }

  lemma SortKeeps(list: ParameterList, seen: set<U64>, reg: Registry)
    ensures forall p :: p in SortedParameters(list) <==> p in list
    ensures NoRepeats(SortedParameters(list), seen, reg) <==> NoRepeats(list, seen, reg)
    ensures OrderedFrom(SortedParameters(list), 0) && |SortedParameters(list)| == |list|
  {
    SortIsStable(list, ParameterType);
    SortedIsOrdered(SortedParameters(list), 0);
    assert forall p :: p in list <==> p in multiset(list);
    assert forall p :: p in SortedParameters(list) <==> p in multiset(SortedParameters(list));
    SortKeepsLength(list);
  }

  lemma SortKeepsAll(list: ParameterList, reg: Registry, version: Version)
    ensures AllLegal(SortedParameters(list), reg, version) <==> AllLegal(list, reg, version)
    ensures AllStorable(SortedParameters(list), reg, version) <==> AllStorable(list, reg, version)
  {
    hide LegalOne, StorableOne;
    SortKeeps(list, {}, reg);
  }

  predicate Writable(p: Parameter, reg: Registry, version: Version) {
    var def := Lookup(reg, p.typ);
    def.Some? && ValueBytes(p, def.value.encoding, version).Success?
  }

  predicate AllWritable(list: ParameterList, reg: Registry, version: Version) {
    forall p | p in list :: Writable(p, reg, version)
  }

  lemma {:induction false} ListWritesExactly(list: ParameterList, prev: U64, reg: Registry, version: Version)
    ensures ListBytes(list, prev, reg, version).Success? <==> AllWritable(list, reg, version)
    decreases |list|
  {
    hide ValueBytes, Lookup;
    if list != [] {
      assert OneBytes(list[0], prev, reg, version).Success? <==> Writable(list[0], reg, version);
      hide OneBytes, Writable;
      ListWritesExactly(list[1..], list[0].typ, reg, version);
      assert list == [list[0]] + list[1..];
      assert AllWritable(list, reg, version) <==>
             Writable(list[0], reg, version) && AllWritable(list[1..], reg, version);
    }
  }

  /** A block can be written exactly when each of its parameters is registered and has a value its
      encoding, in this draft, can carry. */
  lemma WritesExactly(list: ParameterList, reg: Registry, version: Version)
    ensures BlockBytes(list, reg, version).Success? <==> AllWritable(list, reg, version)
  {
    hide Writable, SortedParameters, ListBytes;
    SortKeeps(list, {}, reg);
    ListWritesExactly(SortedParameters(list), 0, reg, version);
  }

  lemma OrderedIsFixed(list: ParameterList)
    requires OrderedFrom(list, 0)
    ensures SortedParameters(list) == list
  {
    OrderedIsSorted(list, 0);
    SortOfSorted(list, ParameterType);
  }

  // ---- Written, then read.

  /** A value where it was written reads as its canonical form, or is refused if it is out of bounds. */
  predicate ReadsBack(p: Parameter, e: Encoding, version: Version, s: Bytes, i: nat)
    requires ValueBytes(p, e, version).Success?
  {
    var r := ParameterValueAt(p.typ, e, s, i, version);
    if LegalValue(p, e, version) then r == Ok(Canon(p, e, version), i + |ValueBytes(p, e, version).value|) else r.Err?
  }

  lemma ValueReads(p: Parameter, e: Encoding, version: Version, s: Bytes, i: nat)
    requires ValueBytes(p, e, version).Success? && StorableValue(p, e, version)
    requires Has(s, i, ValueBytes(p, e, version).value)
    ensures ReadsBack(p, e, version, s, i)
    decreases ValueDepth(e), 0, 1
  {
    hide ValueBytes, StorableValue, Has, ReadsBack;
    match e {
      case Filter => FilterValueReads(p, version, s, i);
      case Nested => NestedReads(p, version, s, i);
      case _ => PlainReads(p, e, version, s, i);
    }
  }

  lemma PlainReads(p: Parameter, e: Encoding, version: Version, s: Bytes, i: nat)
    requires !e.Filter? && !e.Nested? && ValueBytes(p, e, version).Success? && StorableValue(p, e, version)
    requires Has(s, i, ValueBytes(p, e, version).value)
    ensures ReadsBack(p, e, version, s, i)
  {
    hide Vi64At, Append, Len, FieldsAt, AppendFields, ByteStringAt, AppendByteString, FilterAt, FilterBytes, Received;
    hide LocationAt, LocationBytes, BlockBytes, BlockAt, LegalList, StorableList, CanonList, Expressible, Has;
    match e {
      case Uint8 => OneByteReads(p.number, s, i);
      case Varint => AppendReads(p.number, s, i);
      case Pair => LocationReads(p.location, s, i);
      case ByteString => ByteStringReads(p.bytes, MAX_VALUE_LENGTH, s, i);
      case Namespace => FieldsRead(p.fields, MAX_NAMESPACE_FIELDS, s, i);
    }
  }

  lemma FilterValueReads(p: Parameter, version: Version, s: Bytes, i: nat)
    requires ValueBytes(p, Filter, version).Success? && Has(s, i, ValueBytes(p, Filter, version).value)
    ensures ReadsBack(p, Filter, version, s, i)
  {
    hide FilterAt, FilterBytes, Received, Expressible, Has;
    ExpressibleIsWritable(p.filter, version);
    FilterReads(p.filter, version, s, i);
  }

  lemma NestedReads(p: Parameter, version: Version, s: Bytes, i: nat)
    requires ValueBytes(p, Nested, version).Success? && StorableValue(p, Nested, version)
    requires Has(s, i, ValueBytes(p, Nested, version).value)
    ensures ReadsBack(p, Nested, version, s, i)
    decreases 1, 0, 0
  {
    hide ByteStringAt, AppendByteString, BlockBytes, BlockAt, LegalList, StorableList, CanonList, SortedParameters, Has;
    var inner := BlockBytes(p.params, Fill, version).value;
    ByteStringReads(inner, MAX_VALUE_LENGTH, s, i);
    WholeIsThere(inner);
    BlockReads(p.params, Fill, version, inner, 0);
  }

  lemma OneByteReads(b: U8, s: Bytes, i: nat)
    requires Has(s, i, [b])
    ensures ByteAt(s, i) == Ok(b, i + 1)
  {
    assert s[i..i + 1][0] == s[i];
  }

  lemma OneReads(p: Parameter, prev: U64, seen: set<U64>, reg: Registry, version: Version, s: Bytes, i: nat)
    requires prev <= p.typ && OneBytes(p, prev, reg, version).Success? && StorableOne(p, reg, version)
    requires Has(s, i, OneBytes(p, prev, reg, version).value)
    ensures if LegalOne(p, reg, version) && !(p.typ in seen && Unique(reg, p.typ))
            then OneAt(s, i, prev, seen, reg, version)
                 == Ok(Canon(p, Lookup(reg, p.typ).value.encoding, version), i + |OneBytes(p, prev, reg, version).value|)
            else OneAt(s, i, prev, seen, reg, version).Err?
    decreases Depth(reg), 1, 0
  {
    hide Vi64At, Append, Len, ParameterValueAt, ValueBytes, Has, Lookup, LegalValue, StorableValue, Canon;
    var def := Lookup(reg, p.typ).value;
    var delta, value := WrapSub(p.typ, prev), ValueBytes(p, def.encoding, version).value;
    HasSplit(s, i, Append(delta), value);
    AppendReads(delta, s, i);
    ValueReads(p, def.encoding, version, s, i + Len(delta));
  }

  lemma NoRepeatsCons(p: Parameter, rest: ParameterList, seen: set<U64>, reg: Registry)
    ensures NoRepeats([p] + rest, seen, reg) <==>
            !(p.typ in seen && Unique(reg, p.typ)) && NoRepeats(rest, seen + {p.typ}, reg)
  {
    hide Unique;
    var list := [p] + rest;
    assert list[1..] == rest;
    forall typ: U64
      ensures |OfType(list, typ)| == (if p.typ == typ then 1 else 0) + |OfType(rest, typ)|
    {
    }
    if NoRepeats(list, seen, reg) {
      forall typ: U64 | Unique(reg, typ) ensures |OfType(rest, typ)| <= if typ in seen + {p.typ} then 0 else 1 {
        assert |OfType(list, typ)| <= if typ in seen then 0 else 1;
      }
      if Unique(reg, p.typ) {
        assert |OfType(list, p.typ)| <= if p.typ in seen then 0 else 1;
      }
    }
    if !(p.typ in seen && Unique(reg, p.typ)) && NoRepeats(rest, seen + {p.typ}, reg) {
      forall typ: U64 | Unique(reg, typ) ensures |OfType(list, typ)| <= if typ in seen then 0 else 1 {
        assert |OfType(rest, typ)| <= if typ in seen + {p.typ} then 0 else 1;
      }
    }
  }

  lemma {:induction false} ListReads(
      list: ParameterList, prev: U64, seen: set<U64>, reg: Registry, version: Version, s: Bytes, i: nat)
    requires OrderedFrom(list, prev) && ListBytes(list, prev, reg, version).Success?
    requires AllStorable(list, reg, version)
    requires Has(s, i, ListBytes(list, prev, reg, version).value)
    ensures if AllLegal(list, reg, version) && NoRepeats(list, seen, reg)
            then ListAt(s, i, |list|, prev, seen, reg, version)
                 == Ok(CanonList(list, reg, version), i + |ListBytes(list, prev, reg, version).value|)
            else ListAt(s, i, |list|, prev, seen, reg, version).Err?
    decreases Depth(reg), 2, |list|
  {
    hide Has, OneAt, OneBytes, Lookup, StorableOne, LegalOne, Canon, Unique, NoRepeats, AllLegal, AllStorable;
    if list == [] {
      NothingWrong(seen, reg, version);
    } else {
      var p, rest := list[0], list[1..];
      var first := OneBytes(p, prev, reg, version).value;
      HasSplit(s, i, first, ListBytes(rest, p.typ, reg, version).value);
      assert list == [p] + rest;
      NoRepeatsCons(p, rest, seen, reg);
      AllOfCons(p, rest, reg, version);
      OneReads(p, prev, seen, reg, version, s, i);
      ListReads(rest, p.typ, seen + {p.typ}, reg, version, s, i + |first|);
    }
  }

  lemma NothingWrong(seen: set<U64>, reg: Registry, version: Version)
    ensures NoRepeats([], seen, reg) && AllLegal([], reg, version) && AllStorable([], reg, version)
  {
  }

  /** A block that can be written reads back as its stable sort by Type when it is registry-legal, and
      is refused when it is not. */
  lemma BlockReads(list: ParameterList, reg: Registry, version: Version, s: Bytes, i: nat)
    requires BlockBytes(list, reg, version).Success? && StorableList(list, reg, version)
    requires Has(s, i, BlockBytes(list, reg, version).value)
    ensures if LegalList(list, reg, version)
            then BlockAt(s, i, reg, version)
                 == Ok(CanonList(SortedParameters(list), reg, version), i + |BlockBytes(list, reg, version).value|)
            else BlockAt(s, i, reg, version).Err?
    decreases Depth(reg), 3, 0
  {
    hide Vi64At, Append, Len, ListAt, ListBytes, NoRepeats, SortedParameters, CanonList, AllLegal, AllStorable;
    var sorted := SortedParameters(list);
    SortKeeps(list, {}, reg);
    SortKeepsAll(list, reg, version);
    var b := ListBytes(sorted, 0, reg, version).value;
    HasSplit(s, i, Append(ToU64(|list|)), b);
    AppendReads(ToU64(|list|), s, i);
    ListReads(sorted, 0, {}, reg, version, s, i + Len(ToU64(|list|)));
  }

  // ---- Read, then written.

  /** All a value that was read satisfies. */
  predicate Settled(p: Parameter, e: Encoding, version: Version, size: nat) {
    && StorableValue(p, e, version) && LegalValue(p, e, version) && Canon(p, e, version) == p
    && ValueBytes(p, e, version).Success? && |ValueBytes(p, e, version).value| <= size
  }

  lemma ValueIsCanonical(typ: U64, e: Encoding, s: Bytes, i: nat, version: Version)
    requires ParameterValueAt(typ, e, s, i, version).Ok?
    ensures Settled(ParameterValueAt(typ, e, s, i, version).value, e, version, ParameterValueAt(typ, e, s, i, version).end - i)
    decreases ValueDepth(e), 0, 0
  {
    hide Vi64At, Append, Len, FieldsAt, AppendFields, ByteStringAt, AppendByteString, FilterAt, FilterBytes, Received;
    hide LocationAt, LocationBytes, BlockBytes, BlockAt, LegalList, StorableList, CanonList, Expressible, Countable;
    match e {
      case Uint8 =>
      case Varint => DeltaIsCanonical(s, i);
      case Pair => LocationIsCanonical(s, i);
      case ByteString => ByteStringIsShort(s, i, MAX_VALUE_LENGTH);
      case Namespace => FieldsAreCanonical(s, i, MAX_NAMESPACE_FIELDS);
      case Filter => FilterIsCanonical(s, i, version);
      case Nested =>
        var body := ByteStringAt(s, i, MAX_VALUE_LENGTH).value;
        var list := BlockAt(body, 0, Fill, version).value;
        BlockIsSettled(body, 0, Fill, version);
        ByteStringIsCanonical(s, i, MAX_VALUE_LENGTH, BlockBytes(list, Fill, version).value);
    }
  }

  predicate SettledList(list: ParameterList, prev: U64, seen: set<U64>, reg: Registry, version: Version, size: nat) {
    && OrderedFrom(list, prev)
    && AllStorable(list, reg, version) && AllLegal(list, reg, version)
    && NoRepeats(list, seen, reg) && CanonList(list, reg, version) == list
    && ListBytes(list, prev, reg, version).Success? && |ListBytes(list, prev, reg, version).value| <= size
  }

  lemma OneIsCanonical(s: Bytes, i: nat, prev: U64, seen: set<U64>, reg: Registry, version: Version)
    requires OneAt(s, i, prev, seen, reg, version).Ok?
    ensures var p, size := OneAt(s, i, prev, seen, reg, version).value, OneAt(s, i, prev, seen, reg, version).end - i;
            && prev <= p.typ && StorableOne(p, reg, version) && LegalOne(p, reg, version)
            && !(p.typ in seen && Unique(reg, p.typ))
            && Lookup(reg, p.typ).Some? && Canon(p, Lookup(reg, p.typ).value.encoding, version) == p
            && OneBytes(p, prev, reg, version).Success? && |OneBytes(p, prev, reg, version).value| <= size
    decreases Depth(reg), 1, 0
  {
    hide Vi64At, Append, Len, ParameterValueAt, ValueBytes, Lookup, LegalValue, StorableValue, Canon;
    var (t, j) := TypeAt(s, i, prev, seen, reg).Extract();
    DeltaIsCanonical(s, i);
    ValueIsCanonical(t.0, t.1.encoding, s, j, version);
  }

  lemma {:induction false} ListIsSettled(
      s: Bytes, i: nat, count: nat, prev: U64, seen: set<U64>, reg: Registry, version: Version)
    requires ListAt(s, i, count, prev, seen, reg, version).Ok?
    ensures var r := ListAt(s, i, count, prev, seen, reg, version);
            SettledList(r.value, prev, seen, reg, version, r.end - i)
    decreases Depth(reg), 2, count
  {
    hide OneAt, OneBytes, Lookup, LegalOne, StorableOne, Canon, Unique, NoRepeats, AllLegal, AllStorable;
    if count == 0 {
      NothingWrong(seen, reg, version);
    } else {
      var (p, j) := OneAt(s, i, prev, seen, reg, version).Extract();
      OneIsCanonical(s, i, prev, seen, reg, version);
      ListIsSettled(s, j, count - 1, p.typ, seen + {p.typ}, reg, version);
      var rest := ListAt(s, j, count - 1, p.typ, seen + {p.typ}, reg, version).value;
      var list := [p] + rest;
      assert list[0] == p && list[1..] == rest;
      NoRepeatsCons(p, rest, seen, reg);
      AllOfCons(p, rest, reg, version);
    }
  }

  lemma BlockIsSettled(s: Bytes, i: nat, reg: Registry, version: Version)
    requires BlockAt(s, i, reg, version).Ok?
    ensures var list := BlockAt(s, i, reg, version).value;
            && SortedParameters(list) == list && CanonList(list, reg, version) == list
            && LegalList(list, reg, version) && StorableList(list, reg, version)
            && BlockBytes(list, reg, version).Success?
            && |BlockBytes(list, reg, version).value| <= BlockAt(s, i, reg, version).end - i
    decreases Depth(reg), 3, 0
  {
    hide Vi64At, Append, Len, ListAt, ListBytes, AllLegal, AllStorable, NoRepeats, CanonList, OrderedFrom;
    hide SortedParameters;
    var (count, j) := Vi64At(s, i).Extract();
    DeltaIsCanonical(s, i);
    ListIsSettled(s, j, count, 0, {}, reg, version);
    var list := BlockAt(s, i, reg, version).value;
    OrderedIsFixed(list);
  }

  /** Canonicalisation: whatever bytes parse, writing the list again succeeds, takes no more bytes than
      were consumed, and reads back as the same list. In both drafts, and inside FILL_PARAMETERS. */
  lemma ParametersCanonicalisation(s: Bytes, i: nat, reg: Registry, version: Version)
    requires BlockAt(s, i, reg, version).Ok?
    ensures var (list, end) := BlockAt(s, i, reg, version).Extract();
            var again := BlockBytes(list, reg, version);
            && again.Success? && |again.value| <= end - i
            && BlockAt(again.value, 0, reg, version) == Ok(list, |again.value|)
  {
    hide BlockAt, BlockBytes, SortedParameters, CanonList, LegalList, StorableList;
    var list := BlockAt(s, i, reg, version).value;
    BlockIsSettled(s, i, reg, version);
    var again := BlockBytes(list, reg, version).value;
    WholeIsThere(again);
    BlockReads(list, reg, version, again, 0);
  }
}
