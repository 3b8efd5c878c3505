/** Message Parameters: a count, then Types delta-encoded in ascending order, each
    followed by a value whose encoding the draft's registry gives. One of them,
    FILL_PARAMETERS, holds a block of its own with a registry of its own. */
module Parameters {
  import opened Wire
  import opened Vi64
  import opened StableSorting
  import opened KeyValuePairs
  import opened FieldLists
  import opened LocationFilters
  import opened FilterCodec

  const OBJECT_DELIVERY_TIMEOUT: U64 := 0x02
  const AUTHORIZATION_TOKEN: U64 := 0x03
  const RENDEZVOUS_TIMEOUT: U64 := 0x04
  const SUBGROUP_DELIVERY_TIMEOUT: U64 := 0x06
  const EXPIRES: U64 := 0x08
  const LARGEST_OBJECT: U64 := 0x09
  const FILL_TIMEOUT: U64 := 0x0A
  const FORWARD: U64 := 0x10
  const SUBSCRIBER_PRIORITY: U64 := 0x20
  const LOCATION_FILTER: U64 := 0x21
  const GROUP_ORDER: U64 := 0x22
  const FILL_PARAMETERS: U64 := 0x23
  const SUBGROUP_FILTER: U64 := 0x25
  const OBJECTID_FILTER: U64 := 0x26
  const PRIORITY_FILTER: U64 := 0x27
  const OBJECT_PROPERTY_FILTER: U64 := 0x28
  const TRACK_PROPERTY_FILTER: U64 := 0x29
  const NEW_GROUP_REQUEST: U64 := 0x32
  const TRACK_NAMESPACE_PREFIX: U64 := 0x34
  const INCLUDE_PROPERTIES: U64 := 0x35

  datatype Encoding = Uint8 | Varint | Pair | ByteString | Namespace | Filter | Nested

  datatype Def = Def(encoding: Encoding, repeatable: bool)

  /** The table of a message, or the one inside FILL_PARAMETERS. */
  datatype Registry = TopLevel(version: Version) | Fill

  datatype Parameter = Parameter(
    typ: U64, number: U64, location: Location, bytes: Bytes, fields: Fields,
    filter: LocationFilter, params: seq<Parameter>)

  type ParameterList = seq<Parameter>

  function Blank(typ: U64): Parameter {
    Parameter(typ, 0, ORIGIN, [], [], ZERO_FILTER, [])
  }

  /** What both drafts register alike. */
  function LookupCommon(typ: U64): (r: Option<Def>)
    ensures r.Some? ==> !r.value.encoding.Nested?
  {
    if typ in {OBJECT_DELIVERY_TIMEOUT, RENDEZVOUS_TIMEOUT, SUBGROUP_DELIVERY_TIMEOUT, EXPIRES, FILL_TIMEOUT, NEW_GROUP_REQUEST}
      then Some(Def(Varint, false))
    else if typ in {FORWARD, SUBSCRIBER_PRIORITY, GROUP_ORDER} then Some(Def(Uint8, false))
    else if typ == AUTHORIZATION_TOKEN then Some(Def(ByteString, true))
    else if typ == LARGEST_OBJECT then Some(Def(Pair, false))
    else if typ == LOCATION_FILTER then Some(Def(Filter, false))
    else if typ == TRACK_NAMESPACE_PREFIX then Some(Def(Namespace, false))
    else None
  }

  function Lookup22(typ: U64): Option<Def> {
    if typ == FILL_PARAMETERS then Some(Def(Nested, false))
    else if SUBGROUP_FILTER <= typ <= TRACK_PROPERTY_FILTER then Some(Def(ByteString, true))
    else if typ == INCLUDE_PROPERTIES then Some(Def(Uint8, false))
    else LookupCommon(typ)
  }

  predicate InFill(typ: U64) {
    typ in {FILL_TIMEOUT, SUBSCRIBER_PRIORITY, LOCATION_FILTER, GROUP_ORDER}
    || SUBGROUP_FILTER <= typ <= OBJECT_PROPERTY_FILTER
  }

  function Lookup(reg: Registry, typ: U64): (r: Option<Def>)
    ensures r.Some? && r.value.encoding.Nested? ==> reg.TopLevel?
  {
    match reg
    case TopLevel(Draft18) => LookupCommon(typ)
    case TopLevel(Draft22) => Lookup22(typ)
    case Fill => if InFill(typ) then Lookup22(typ) else None
  }

  /** The two drafts share every Type they have in common, draft-22 adding seven; and FILL_PARAMETERS admits
      some of draft-22's, as they are, and itself not among them. */
  lemma RegistriesAgree(typ: U64)
    ensures Lookup(TopLevel(Draft18), typ).Some? ==> Lookup(TopLevel(Draft22), typ) == Lookup(TopLevel(Draft18), typ)
    ensures Lookup(TopLevel(Draft22), typ).Some? && Lookup(TopLevel(Draft18), typ).None? <==>
            typ in {FILL_PARAMETERS, SUBGROUP_FILTER, OBJECTID_FILTER, PRIORITY_FILTER, OBJECT_PROPERTY_FILTER,
                    TRACK_PROPERTY_FILTER, INCLUDE_PROPERTIES}
    ensures Lookup(Fill, typ).Some? ==> Lookup(Fill, typ) == Lookup(TopLevel(Draft22), typ)
    ensures Lookup(Fill, FILL_PARAMETERS).None? && Lookup(Fill, TRACK_PROPERTY_FILTER).None?
  {
  }

  /** The encoding of every Type, by its number, and whether it may repeat. */
  function Registered(typ: U64): Option<(Encoding, bool)> {
    match typ
    case 0x02 => Some((Varint, false))
    case 0x03 => Some((ByteString, true))
    case 0x04 => Some((Varint, false))
    case 0x06 => Some((Varint, false))
    case 0x08 => Some((Varint, false))
    case 0x09 => Some((Pair, false))
    case 0x0A => Some((Varint, false))
    case 0x10 => Some((Uint8, false))
    case 0x20 => Some((Uint8, false))
    case 0x21 => Some((Filter, false))
    case 0x22 => Some((Uint8, false))
    case 0x23 => Some((Nested, false))
    case 0x25 => Some((ByteString, true))
    case 0x26 => Some((ByteString, true))
    case 0x27 => Some((ByteString, true))
    case 0x28 => Some((ByteString, true))
    case 0x29 => Some((ByteString, true))
    case 0x32 => Some((Varint, false))
    case 0x34 => Some((Namespace, false))
    case 0x35 => Some((Uint8, false))
    case _ => None
  }

  /** Each registry has the Types it should, as they are numbered: draft-22 all of them, draft-18 not the
      seven that came later, and FILL_PARAMETERS eight. */
  lemma RegistriesByNumber(typ: U64)
    ensures var def := if Registered(typ).None? then None else Some(Def(Registered(typ).value.0, Registered(typ).value.1));
            && Lookup(TopLevel(Draft22), typ) == def
            && Lookup(TopLevel(Draft18), typ) == (if 0x23 <= typ <= 0x29 || typ == 0x35 then None else def)
            && Lookup(Fill, typ) == (if typ in {0x0A, 0x20, 0x21, 0x22, 0x25, 0x26, 0x27, 0x28} then def else None)
  {
  }

  /** A nested block holds no nested block. */
  function Depth(reg: Registry): nat {
    if reg.TopLevel? then 1 else 0
  }

  function ValueDepth(e: Encoding): nat {
    if e.Nested? then 1 else 0
  }

  function ParameterType(p: Parameter): nat { p.typ }

  function SortedParameters(list: ParameterList): ParameterList {
    Sort(list, ParameterType)
  }

  // ---- Writing.

  function ValueBytes(p: Parameter, e: Encoding, version: Version): Result<Bytes>
    decreases ValueDepth(e), 0, 0
  {
    match e
    case Uint8 => if p.number > 255 then Failure(NumberTooLarge) else Success([p.number])
    case Varint => Success(Append(p.number))
    case Pair => Success(LocationBytes(p.location))
    case ByteString => Success(AppendByteString(p.bytes))
    case Namespace => Success(AppendFields(p.fields))
    case Filter => FilterBytes(p.filter, version)
    case Nested =>
      match BlockBytes(p.params, Fill, version)
      case Failure(err) => Failure(err)
      case Success(inner) => Success(AppendByteString(inner))
  }

  function OneBytes(p: Parameter, prev: U64, reg: Registry, version: Version): (r: Result<Bytes>)
    ensures r.Success? ==> |r.value| > 0 && Lookup(reg, p.typ).Some?
    decreases Depth(reg), 1, 0
  {
    var def := Lookup(reg, p.typ);
    if def.None? then Failure(UnknownParameter(p.typ))
    else
      match ValueBytes(p, def.value.encoding, version)
      case Failure(err) => Failure(err)
      case Success(value) => Success(Append(WrapSub(p.typ, prev)) + value)
  }

  function ListBytes(list: ParameterList, prev: U64, reg: Registry, version: Version): (r: Result<Bytes>)
    ensures r.Success? ==> |r.value| >= |list|
    decreases Depth(reg), 2, |list|
  {
    if list == [] then Success([])
    else
      match OneBytes(list[0], prev, reg, version)
      case Failure(err) => Failure(err)
      case Success(first) =>
        match ListBytes(list[1..], list[0].typ, reg, version)
        case Failure(err) => Failure(err)
        case Success(rest) => Success(first + rest)
  }

  /** The block: stably sorted by Type, and preceded by the number of parameters. */
  function BlockBytes(list: ParameterList, reg: Registry, version: Version): Result<Bytes>
    decreases Depth(reg), 3, 0
  {
    match ListBytes(SortedParameters(list), 0, reg, version)
    case Failure(err) => Failure(err)
    case Success(b) => Success(Append(ToU64(|list|)) + b)
  }

  // ---- Reading.

  function ParameterValueAt(typ: U64, e: Encoding, s: Bytes, i: nat, version: Version): (r: Parsed<Parameter>)
    ensures r.Ok? ==> i < r.end <= |s| && r.value.typ == typ
    decreases ValueDepth(e), 0, 0
  {
    var p := Blank(typ);
    match e
    case Uint8 =>
      var (b, j) :- ByteAt(s, i);
      Ok(p.(number := b), j)
    case Varint =>
      var (n, j) :- Vi64At(s, i);
      Ok(p.(number := n), j)
    case Pair =>
      var (l, j) :- LocationAt(s, i);
      Ok(p.(location := l), j)
    case ByteString =>
      var (b, j) :- ByteStringAt(s, i, MAX_VALUE_LENGTH);
      Ok(p.(bytes := b), j)
    case Namespace =>
      var (f, j) :- FieldsAt(s, i, MAX_NAMESPACE_FIELDS);
      Ok(p.(fields := f), j)
    case Filter =>
      var (f, j) :- FilterAt(s, i, version);
      Ok(p.(filter := f), j)
    case Nested =>
      var (body, j) :- ByteStringAt(s, i, MAX_VALUE_LENGTH);
      var (list, n) :- BlockAt(body, 0, Fill, version);
      if n != |body| then Err(TrailingBytes) else Ok(p.(params := list), j)
  }

  /** The Type, registered, and not one that was seen before unless it may repeat. */
  function TypeAt(s: Bytes, i: nat, prev: U64, seen: set<U64>, reg: Registry): (r: Parsed<(U64, Def)>)
    ensures r.Ok? ==> i < r.end <= |s| && Lookup(reg, r.value.0) == Some(r.value.1)
  {
    var (delta, j) :- Vi64At(s, i);
    if delta > MAX_U64 - prev then Err(DeltaTypeOverflow)
    else
      var typ := prev + delta;
      var def := Lookup(reg, typ);
      if def.None? then Err(UnknownParameter(typ))
      else if typ in seen && !def.value.repeatable then Err(DuplicateParameter(typ))
      else Ok((typ, def.value), j)
  }

  function OneAt(s: Bytes, i: nat, prev: U64, seen: set<U64>, reg: Registry, version: Version): (r: Parsed<Parameter>)
    ensures r.Ok? ==> i < r.end <= |s|
    decreases Depth(reg), 1, 0
  {
    var (t, j) :- TypeAt(s, i, prev, seen, reg);
    ParameterValueAt(t.0, t.1.encoding, s, j, version)
  }

  function ListAt(s: Bytes, i: nat, count: nat, prev: U64, seen: set<U64>, reg: Registry, version: Version): (r: Parsed<ParameterList>)
    ensures r.Ok? ==> i + count <= r.end && (i <= |s| ==> r.end <= |s|) && |r.value| == count
    decreases Depth(reg), 2, count
  {
    if count == 0 then Ok([], i)
    else
      var (p, j) :- OneAt(s, i, prev, seen, reg, version);
      After([p], ListAt(s, j, count - 1, p.typ, seen + {p.typ}, reg, version))
  }

  function BlockAt(s: Bytes, i: nat, reg: Registry, version: Version): (r: Parsed<ParameterList>)
    ensures r.Ok? ==> i < r.end <= |s|
    decreases Depth(reg), 3, 0
  {
    var (count, j) :- Vi64At(s, i);
    if count > |s| - j then Err(UnexpectedEof) else ListAt(s, j, count, 0, {}, reg, version)
  }

  // ---- The codec as the source runs it.

  method AppendWith(buf: Bytes, list: ParameterList, reg: Registry, version: Version) returns (res: Result<Bytes>)
    ensures match BlockBytes(list, reg, version)
            case Success(b) => res == Success(buf + b)
            case Failure(e) => res == Failure(e)
    decreases Depth(reg), 1
  {
    hide Append, Len, ValueBytes, Lookup;
    var sorted := SortedParameters(list);
    SortKeepsLength(list);
    var out := buf + Append(ToU64(|sorted|));
    ghost var head := out;
    ghost var all := ListBytes(sorted, 0, reg, version);
    var prev: U64 := 0;
    for n := 0 to |sorted|
      invariant Follows(head, all, out, ListBytes(sorted[n..], prev, reg, version))
    {
      var p := sorted[n];
      assert sorted[n..][0] == p && sorted[n..][1..] == sorted[n + 1..];
      ghost var before, first := out, OneBytes(p, prev, reg, version);
      ghost var rest := ListBytes(sorted[n + 1..], p.typ, reg, version);
      var def := Lookup(reg, p.typ);
      if def.None? {
        return Failure(UnknownParameter(p.typ));
      }
      out := out + Append(WrapSub(p.typ, prev));
      prev := p.typ;
      var value := AppendValue(out, p, def.value.encoding, version);
      if value.Failure? {
        return value;
      }
      out := value.value;
      assert out == before + first.value;
      FollowsOn(head, all, before, first.value, rest);
    }
    assert ListBytes([], prev, reg, version) == Success([]);
    assert out + [] == out;
    assert head + all.value == buf + (Append(ToU64(|list|)) + all.value);
    return Success(out);
  }

  /** `out` is the front of `head + all`, with `rest` still to come. */
  ghost predicate Follows(head: Bytes, all: Result<Bytes>, out: Bytes, rest: Result<Bytes>) {
    match rest
    case Failure(e) => all == Failure(e)
    case Success(b) => all.Success? && head + all.value == out + b
  }

  lemma FollowsOn(head: Bytes, all: Result<Bytes>, out: Bytes, first: Bytes, rest: Result<Bytes>)
    requires rest.Failure? ==> Follows(head, all, out, rest)
    requires rest.Success? ==> Follows(head, all, out, Success(first + rest.value))
    ensures Follows(head, all, out + first, rest)
  {
    if rest.Success? {
      assert out + (first + rest.value) == out + first + rest.value;
    }
  }

  lemma SortKeepsLength(list: ParameterList)
    ensures |SortedParameters(list)| == |list|
  {
    SortIsStable(list, ParameterType);
    assert |multiset(SortedParameters(list))| == |multiset(list)|;
  }

  method AppendValue(buf: Bytes, p: Parameter, e: Encoding, version: Version) returns (res: Result<Bytes>)
    ensures match ValueBytes(p, e, version)
            case Success(b) => res == Success(buf + b)
            case Failure(err) => res == Failure(err)
    decreases ValueDepth(e), 0
  {
    hide Append, Len, BlockBytes, FilterBytes, LocationBytes;
    match e {
      case Uint8 =>
        if p.number > 255 {
          return Failure(NumberTooLarge);
        }
        return Success(buf + [p.number]);
      case Varint =>
        return Success(buf + Append(p.number));
      case Pair =>
        return Success(buf + LocationBytes(p.location));
      case ByteString =>
        var out := buf + Append(ToU64(|p.bytes|));
        assert out + p.bytes == buf + AppendByteString(p.bytes);
        return Success(out + p.bytes);
      case Namespace =>
        var out := AppendFieldList(buf, p.fields);
        return Success(out);
      case Filter =>
        res := FilterCodec.AppendValue(buf, p.filter, version);
      case Nested =>
        var inner := AppendWith([], p.params, Fill, version);
        if inner.Failure? {
          return inner;
        }
        assert [] + BlockBytes(p.params, Fill, version).value == BlockBytes(p.params, Fill, version).value;
        var out := buf + Append(ToU64(|inner.value|));
        assert out + inner.value == buf + AppendByteString(inner.value);
        return Success(out + inner.value);
    }
  }

  method ParseWith(s: Bytes, i: nat, reg: Registry, version: Version) returns (r: Parsed<ParameterList>)
    ensures r == BlockAt(s, i, reg, version)
    decreases Depth(reg), 2
  {
    hide Vi64At, ParameterValueAt, TypeAt, Lookup;
    var count := Vi64At(s, i);
    if count.Err? {
      return Err(count.error);
    }
    if count.value > |s| - count.end {
      return Err(UnexpectedEof);
    }
    var list: ParameterList, seen: set<U64>, prev: U64, parsed := [], {}, 0, count.end;
    AfterOne(list, Blank(0), BlockAt(s, i, reg, version));
    for n := 0 to count.value
      invariant 0 <= parsed <= |s|
      invariant BlockAt(s, i, reg, version) == After(list, ListAt(s, parsed, count.value - n, prev, seen, reg, version))
    {
      var p := ParseOne(s, parsed, prev, seen, reg, version);
      if p.Err? {
        return Err(p.error);
      }
      AfterOne(list, p.value, ListAt(s, p.end, count.value - n - 1, p.value.typ, seen + {p.value.typ}, reg, version));
      parsed := p.end;
      prev := p.value.typ;
      seen := seen + {p.value.typ};
      list := list + [p.value];
    }
    assert list + [] == list;
    return Ok(list, parsed);
  }

  /** The body of the loop: Type, registry, duplicates, value. */
  method ParseOne(s: Bytes, i: nat, prev: U64, seen: set<U64>, reg: Registry, version: Version) returns (r: Parsed<Parameter>)
    ensures r == OneAt(s, i, prev, seen, reg, version)
    decreases Depth(reg), 1
  {
    hide Vi64At, Lookup, ParameterValueAt;
    var delta := Vi64At(s, i);
    if delta.Err? {
      return Err(delta.error);
    }
    if delta.value > MAX_U64 - prev {
      return Err(DeltaTypeOverflow);
    }
    var typ := prev + delta.value;
    var def := Lookup(reg, typ);
    if def.None? {
      return Err(UnknownParameter(typ));
    }
    if typ in seen && !def.value.repeatable {
      return Err(DuplicateParameter(typ));
    }
    r := ParseParameterValue(typ, def.value.encoding, s, delta.end, version);
  }

  method ParseParameterValue(typ: U64, e: Encoding, s: Bytes, i: nat, version: Version) returns (r: Parsed<Parameter>)
    ensures r == ParameterValueAt(typ, e, s, i, version)
    decreases ValueDepth(e), 0
  {
    hide Vi64At, ByteStringAt, FieldsAt, LocationAt, FilterAt, BlockAt;
    var p := Blank(typ);
    var end := i;
    match e {
      case Uint8 =>
        if i >= |s| {
          return Err(UnexpectedEof);
        }
        p := p.(number := s[i]);
        end := i + 1;
      case Varint =>
        var n := Vi64At(s, i);
        if n.Err? {
          return Err(n.error);
        }
        p := p.(number := n.value);
        end := n.end;
      case Pair =>
        var l := LocationAt(s, i);
        if l.Err? {
          return Err(l.error);
        }
        p := p.(location := l.value);
        end := l.end;
      case ByteString =>
        var b := ByteStringAt(s, i, MAX_VALUE_LENGTH);
        if b.Err? {
          return Err(b.error);
        }
        p := p.(bytes := b.value);
        end := b.end;
      case Namespace =>
        var f := ParseFieldList(s, i, MAX_NAMESPACE_FIELDS);
        if f.Err? {
          return Err(f.error);
        }
        p := p.(fields := f.value);
        end := f.end;
      case Filter =>
        var f := ParseValue(s, i, version);
        if f.Err? {
          return Err(f.error);
        }
        p := p.(filter := f.value);
        end := f.end;
      case Nested =>
        var body := ByteStringAt(s, i, MAX_VALUE_LENGTH);
        if body.Err? {
          return Err(body.error);
        }
        var inner := ParseWith(body.value, 0, Fill, version);
        if inner.Err? {
          return Err(inner.error);
        }
        if inner.end != |body.value| {
          return Err(TrailingBytes);
        }
        p := p.(params := inner.value);
        end := body.end;
    }
    return Ok(p, end);
  }

  /** The first parameter of a Type. */
  function First(list: ParameterList, typ: U64): Option<Parameter> {
    if list == [] then None else if list[0].typ == typ then Some(list[0]) else First(list[1..], typ)
  }

  method Get(list: ParameterList, typ: U64) returns (r: Option<Parameter>)
    ensures r.None? <==> forall p | p in list :: p.typ != typ
    ensures r.Some? ==> exists n :: 0 <= n < |list| && list[n] == r.value && r.value.typ == typ
                                    && forall m | 0 <= m < n :: list[m].typ != typ
    ensures r == First(list, typ)
  {
    for n := 0 to |list|
      invariant forall m | 0 <= m < n :: list[m].typ != typ
      invariant First(list, typ) == First(list[n..], typ)
    {
      assert list[n..][0] == list[n] && list[n..][1..] == list[n + 1..];
      if list[n].typ == typ {
        return Some(list[n]);
      }
    }
    return None;
  }
}
