/** Locations and location filters on the wire. Draft-22 writes the filter's own
    fields; draft-18 wraps a body with Filter Types of its own in a length. */
module FilterCodec {
  import opened Wire
  import opened Vi64
  import opened KeyValuePairs
  import opened LocationFilters

  function LocationBytes(l: Location): Bytes {
    Append(l.group) + Append(l.obj)
  }

  function LocationAt(s: Bytes, i: nat): (r: Parsed<Location>)
    ensures r.Ok? ==> i < r.end <= |s|
  {
    var (group, j) :- Vi64At(s, i);
    var (obj, k) :- Vi64At(s, j);
    Ok(Location(group, obj), k)
  }

  const NEXT_GROUP_START_18: U64 := 1
  const LARGEST_OBJECT_18: U64 := 2
  const ABSOLUTE_START_18: U64 := 3
  const ABSOLUTE_RANGE_18: U64 := 4

  function Append18(f: LocationFilter): Result<Bytes> {
    if f.typ == NONE then Success(Append(ABSOLUTE_START_18) + LocationBytes(ORIGIN))
    else if f.typ == RELATIVE_START then
      if f.start.group != 0 then Failure(FilterNotInDraft18) else Success(Append(NEXT_GROUP_START_18))
    else if f.typ == NEXT_OBJECT then Success(Append(LARGEST_OBJECT_18))
    else if f.typ == ABSOLUTE_START then Success(Append(ABSOLUTE_START_18) + LocationBytes(f.start))
    else if f.typ == ABSOLUTE_GROUP_END then
      Success(Append(ABSOLUTE_RANGE_18) + (LocationBytes(f.start) + Append(f.endGroupDelta)))
    else Failure(FilterNotInDraft18)
  }

  function Fields22(f: LocationFilter): Bytes {
    if f.typ == RELATIVE_START then Append(f.start.group)
    else if f.typ == ABSOLUTE_START then LocationBytes(f.start)
    else if f.typ == ABSOLUTE_GROUP_END then LocationBytes(f.start) + Append(f.endGroupDelta)
    else if f.typ == ABSOLUTE_RANGE then LocationBytes(f.start) + (Append(f.endGroupDelta) + Append(f.endObject))
    else []
  }

  function FilterBytes(f: LocationFilter, version: Version): Result<Bytes> {
    match Validate(f)
    case Failure(e) => Failure(e)
    case Success(_) =>
      match version
      case Draft22 => Success(Append(f.typ) + Fields22(f))
      case Draft18 =>
        match Append18(f)
        case Failure(e) => Failure(e)
        case Success(inner) => Success(AppendByteString(inner))
  }

  function OptionalDelta(present: bool, s: Bytes, i: nat): (r: Parsed<U64>)
    ensures r.Ok? ==> i <= r.end && (i <= |s| ==> r.end <= |s|)
  {
    if present then Vi64At(s, i) else Ok(0, i)
  }

  function StartAt(typ: U64, s: Bytes, i: nat): (r: Parsed<Location>)
    ensures r.Ok? ==> i <= r.end && (i <= |s| ==> r.end <= |s|)
  {
    if typ == RELATIVE_START then
      var (group, j) :- Vi64At(s, i);
      Ok(Location(group, 0), j)
    else if HasStart(typ) then LocationAt(s, i)
    else Ok(ORIGIN, i)
  }

  /** A filter read, if what it says can be. */
  function Validated(f: LocationFilter, end: nat): Parsed<LocationFilter> {
    match Validate(f)
    case Failure(e) => Err(e)
    case Success(_) => Ok(f, end)
  }

  function Filter22At(s: Bytes, i: nat): (r: Parsed<LocationFilter>)
    ensures r.Ok? ==> i < r.end <= |s|
  {
    var (typ, i1) :- Vi64At(s, i);
    if !ValidType(typ) then Err(InvalidFilterType)
    else
      var (start, i2) :- StartAt(typ, s, i1);
      var (delta, i3) :- OptionalDelta(HasEndGroup(typ), s, i2);
      var (obj, i4) :- OptionalDelta(typ == ABSOLUTE_RANGE, s, i3);
      Validated(LocationFilter(typ, start, delta, obj), i4)
  }

  function Parse18(s: Bytes): (r: Parsed<LocationFilter>)
    ensures r.Ok? ==> r.end <= |s|
  {
    var (t, i1) :- Vi64At(s, 0);
    if t == NEXT_GROUP_START_18 then Ok(ZERO_FILTER.(typ := RELATIVE_START), i1)
    else if t == LARGEST_OBJECT_18 then Ok(ZERO_FILTER.(typ := NEXT_OBJECT), i1)
    else if t == ABSOLUTE_START_18 || t == ABSOLUTE_RANGE_18 then
      var typ := if t == ABSOLUTE_START_18 then ABSOLUTE_START else ABSOLUTE_GROUP_END;
      var (start, i2) :- LocationAt(s, i1);
      var (delta, i3) :- OptionalDelta(typ == ABSOLUTE_GROUP_END, s, i2);
      Validated(LocationFilter(typ, start, delta, 0), i3)
    else Err(InvalidFilterType)
  }

  function Filter18At(s: Bytes, i: nat): (r: Parsed<LocationFilter>)
    ensures r.Ok? ==> i < r.end <= |s|
  {
    var (body, j) :- ByteStringAt(s, i, MAX_VALUE_LENGTH);
    var (f, n) :- Parse18(body);
    if n != |body| then Err(TrailingBytes) else Ok(f, j)
  }

  function FilterAt(s: Bytes, i: nat, version: Version): (r: Parsed<LocationFilter>)
    ensures r.Ok? ==> i < r.end <= |s|
  {
    if version.Draft18? then Filter18At(s, i) else Filter22At(s, i)
  }

  // ---- The codec as the source runs it: a buffer extended field by field, a receiver filled in.

  method AppendValue(buf: Bytes, f: LocationFilter, version: Version) returns (res: Result<Bytes>)
    ensures match FilterBytes(f, version)
            case Success(b) => res == Success(buf + b)
            case Failure(e) => res == Failure(e)
  {
    hide Append, Len, Append18, LocationBytes, Validate;
    var valid := Validate(f);
    if valid.Failure? {
      return Failure(valid.error);
    }
    if version.Draft18? {
      var inner := AppendBody18([], f);
      if inner.Failure? {
        return inner;
      }
      var out := buf + Append(ToU64(|inner.value|));
      assert buf + (Append(ToU64(|inner.value|)) + inner.value) == out + inner.value;
      assert [] + Append18(f).value == Append18(f).value;
      return Success(out + inner.value);
    }
    var out := buf + Append(f.typ);
    if f.typ == RELATIVE_START {
      out := out + Append(f.start.group);
    } else if f.typ == ABSOLUTE_START {
      out := out + LocationBytes(f.start);
    } else if f.typ == ABSOLUTE_GROUP_END {
      out := out + LocationBytes(f.start);
      out := out + Append(f.endGroupDelta);
    } else if f.typ == ABSOLUTE_RANGE {
      out := out + LocationBytes(f.start);
      out := out + Append(f.endGroupDelta);
      out := out + Append(f.endObject);
    }
    assert out == buf + (Append(f.typ) + Fields22(f));
    return Success(out);
  }

  method AppendBody18(buf: Bytes, f: LocationFilter) returns (res: Result<Bytes>)
    ensures match Append18(f)
            case Success(b) => res == Success(buf + b)
            case Failure(e) => res == Failure(e)
  {
    hide Append, Len;
    if f.typ == NONE {
      var out := buf + Append(ABSOLUTE_START_18);
      assert out + LocationBytes(ORIGIN) == buf + (Append(ABSOLUTE_START_18) + LocationBytes(ORIGIN));
      return Success(out + LocationBytes(ORIGIN));
    } else if f.typ == RELATIVE_START {
      if f.start.group != 0 {
        return Failure(FilterNotInDraft18);
      }
      return Success(buf + Append(NEXT_GROUP_START_18));
    } else if f.typ == NEXT_OBJECT {
      return Success(buf + Append(LARGEST_OBJECT_18));
    } else if f.typ == ABSOLUTE_START {
      var out := buf + Append(ABSOLUTE_START_18);
      assert out + LocationBytes(f.start) == buf + (Append(ABSOLUTE_START_18) + LocationBytes(f.start));
      return Success(out + LocationBytes(f.start));
    } else if f.typ == ABSOLUTE_GROUP_END {
      var out := buf + Append(ABSOLUTE_RANGE_18);
      out := out + LocationBytes(f.start);
      out := out + Append(f.endGroupDelta);
      assert out == buf + (Append(ABSOLUTE_RANGE_18) + (LocationBytes(f.start) + Append(f.endGroupDelta)));
      return Success(out);
    }
    return Failure(FilterNotInDraft18);
  }

  method ParseValue(s: Bytes, i: nat, version: Version) returns (res: Parsed<LocationFilter>)
    ensures res == FilterAt(s, i, version)
  {
    hide Vi64At;
    if version.Draft18? {
      var value := ByteStringAt(s, i, MAX_VALUE_LENGTH);
      if value.Err? {
        return Err(value.error);
      }
      var inner := ParseBody18(value.value);
      if inner.Err? {
        return Err(inner.error);
      }
      if inner.end != |value.value| {
        return Err(TrailingBytes);
      }
      return Ok(inner.value, value.end);
    }
    var t := Vi64At(s, i);
    if t.Err? {
      return Err(t.error);
    }
    var f := ZERO_FILTER.(typ := t.value);
    if !ValidType(f.typ) {
      return Err(InvalidFilterType);
    }
    var parsed := t.end;
    if f.typ == RELATIVE_START {
      var group := Vi64At(s, parsed);
      if group.Err? {
        return Err(group.error);
      }
      f := f.(start := Location(group.value, 0));
      parsed := group.end;
    } else if HasStart(f.typ) {
      var start := LocationAt(s, parsed);
      if start.Err? {
        return Err(start.error);
      }
      f := f.(start := start.value);
      parsed := start.end;
    }
    if HasEndGroup(f.typ) {
      var delta := Vi64At(s, parsed);
      if delta.Err? {
        return Err(delta.error);
      }
      f := f.(endGroupDelta := delta.value);
      parsed := delta.end;
    }
    if f.typ == ABSOLUTE_RANGE {
      var obj := Vi64At(s, parsed);
      if obj.Err? {
        return Err(obj.error);
      }
      f := f.(endObject := obj.value);
      parsed := obj.end;
    }
    return Validated(f, parsed);
  }

  method ParseBody18(s: Bytes) returns (res: Parsed<LocationFilter>)
    ensures res == Parse18(s)
  {
    hide Vi64At;
    var t := Vi64At(s, 0);
    if t.Err? {
      return Err(t.error);
    }
    var f := ZERO_FILTER;
    if t.value == NEXT_GROUP_START_18 {
      return Ok(f.(typ := RELATIVE_START), t.end);
    } else if t.value == LARGEST_OBJECT_18 {
      return Ok(f.(typ := NEXT_OBJECT), t.end);
    } else if t.value == ABSOLUTE_START_18 {
      f := f.(typ := ABSOLUTE_START);
    } else if t.value == ABSOLUTE_RANGE_18 {
      f := f.(typ := ABSOLUTE_GROUP_END);
    } else {
      return Err(InvalidFilterType);
    }
    var start := LocationAt(s, t.end);
    if start.Err? {
      return Err(start.error);
    }
    f := f.(start := start.value);
    var parsed := start.end;
    if f.typ == ABSOLUTE_GROUP_END {
      var delta := Vi64At(s, parsed);
      if delta.Err? {
        return Err(delta.error);
      }
      f := f.(endGroupDelta := delta.value);
      parsed := delta.end;
    }
    return Validated(f, parsed);
  }

  // ---- Round trips.

  /** The filter as it is received: fields its type does not carry are zero, and draft-18, which
      cannot say "no filter", says "from the very first Object". */
  function Received(f: LocationFilter, version: Version): LocationFilter {
    var start := if f.typ == RELATIVE_START then Location(f.start.group, 0)
                 else if HasStart(f.typ) then f.start else ORIGIN;
    LocationFilter(
      if f.typ == NONE && version.Draft18? then ABSOLUTE_START else f.typ, start,
      if HasEndGroup(f.typ) then f.endGroupDelta else 0,
      if f.typ == ABSOLUTE_RANGE then f.endObject else 0)
  }

  /** The filters a draft can carry. */
  predicate Expressible(f: LocationFilter, version: Version) {
    Valid(f) && (version.Draft18? ==> f.typ != ABSOLUTE_RANGE && (f.typ == RELATIVE_START ==> f.start.group == 0))
  }

  /** The bytes of every filter, by the numbers of its draft: draft-22's types 0 to 5 with their fields,
      draft-18's 1 to 4 behind the length of the whole. */
  lemma FilterLaidOut(f: LocationFilter)
    requires Valid(f)
    ensures var start := Append(f.start.group) + Append(f.start.obj);
            && FilterBytes(f, Draft22) ==
               Success(if f.typ == 0 then Append(0)
                       else if f.typ == 1 then Append(1) + Append(f.start.group)
                       else if f.typ == 2 then Append(2) + start
                       else if f.typ == 3 then Append(3) + (start + Append(f.endGroupDelta))
                       else if f.typ == 4 then Append(4) + (start + (Append(f.endGroupDelta) + Append(f.endObject)))
                       else Append(5))
            && FilterBytes(f, Draft18) ==
               if f.typ == 0 then Behind(Append(3) + (Append(0) + Append(0)))
               else if f.typ == 1 && f.start.group == 0 then Behind(Append(1))
               else if f.typ == 2 then Behind(Append(3) + start)
               else if f.typ == 3 then Behind(Append(4) + (start + Append(f.endGroupDelta)))
               else if f.typ == 5 then Behind(Append(2))
               else Failure(FilterNotInDraft18)
  {
    hide Append, Len;
    var none: Bytes := [];
    assert Append(f.typ) + none == Append(f.typ);
  }

  /** A value behind its length. */
  function Behind(value: Bytes): Result<Bytes> {
    Success(Append(ToU64(|value|)) + value)
  }

  lemma ExpressibleIsWritable(f: LocationFilter, version: Version)
    ensures FilterBytes(f, version).Success? <==> Expressible(f, version)
  {
  }

  /** The received filter resolves to the same Locations as the one sent, for every Largest Object. */
  lemma ReceivedMeansSame(f: LocationFilter, version: Version, largest: Option<Location>)
    requires Expressible(f, version)
    ensures SubscriptionRange(Received(f, version), largest) == SubscriptionRange(f, largest)
    ensures FetchRange(Received(f, version), largest) == FetchRange(f, largest)
    ensures Valid(Received(f, version)) && Received(Received(f, version), version) == Received(f, version)
  {
  }

  lemma LocationReads(l: Location, s: Bytes, i: nat)
    requires Has(s, i, LocationBytes(l))
    ensures LocationAt(s, i) == Ok(l, i + |LocationBytes(l)|)
  {
    hide Vi64At, Append, Len;
    HasSplit(s, i, Append(l.group), Append(l.obj));
    AppendReads(l.group, s, i);
    AppendReads(l.obj, s, i + Len(l.group));
  }

  lemma Fields22Read(f: LocationFilter, s: Bytes, i: nat)
    requires Valid(f) && Has(s, i, Append(f.typ) + Fields22(f))
    ensures Filter22At(s, i) == Ok(Received(f, Draft22), i + |Append(f.typ) + Fields22(f)|)
  {
    hide Vi64At, Append, Len, Has, LocationBytes, LocationAt;
    HasSplit(s, i, Append(f.typ), Fields22(f));
    AppendReads(f.typ, s, i);
    var i1 := i + Len(f.typ);
    if f.typ == RELATIVE_START {
      AppendReads(f.start.group, s, i1);
    } else if HasStart(f.typ) {
      var rest := if f.typ == ABSOLUTE_START then [] else if f.typ == ABSOLUTE_GROUP_END then Append(f.endGroupDelta)
                  else Append(f.endGroupDelta) + Append(f.endObject);
      assert Fields22(f) == LocationBytes(f.start) + rest;
      HasSplit(s, i1, LocationBytes(f.start), rest);
      LocationReads(f.start, s, i1);
      var i2 := i1 + |LocationBytes(f.start)|;
      if f.typ == ABSOLUTE_GROUP_END {
        AppendReads(f.endGroupDelta, s, i2);
      } else if f.typ == ABSOLUTE_RANGE {
        HasSplit(s, i2, Append(f.endGroupDelta), Append(f.endObject));
        AppendReads(f.endGroupDelta, s, i2);
        AppendReads(f.endObject, s, i2 + Len(f.endGroupDelta));
      }
    }
  }

  lemma Body18Reads(f: LocationFilter)
    requires Valid(f) && Append18(f).Success?
    ensures Parse18(Append18(f).value) == Ok(Received(f, Draft18), |Append18(f).value|)
  {
    hide Vi64At, Append, Len, Has, LocationBytes, LocationAt;
    var s := Append18(f).value;
    var t := if f.typ == RELATIVE_START then NEXT_GROUP_START_18 else if f.typ == NEXT_OBJECT then LARGEST_OBJECT_18
             else if f.typ == ABSOLUTE_GROUP_END then ABSOLUTE_RANGE_18 else ABSOLUTE_START_18;
    var start := if f.typ == NONE then ORIGIN else f.start;
    var tail := if f.typ == ABSOLUTE_GROUP_END then Append(f.endGroupDelta) else [];
    var rest := if f.typ == RELATIVE_START || f.typ == NEXT_OBJECT then [] else LocationBytes(start) + tail;
    assert s == Append(t) + rest;
    WholeIsThere(s);
    HasSplit(s, 0, Append(t), rest);
    AppendReads(t, s, 0);
    if f.typ != RELATIVE_START && f.typ != NEXT_OBJECT {
      HasSplit(s, Len(t), LocationBytes(start), tail);
      LocationReads(start, s, Len(t));
      if f.typ == ABSOLUTE_GROUP_END {
        AppendReads(f.endGroupDelta, s, Len(t) + |LocationBytes(start)|);
      }
    }
  }

  lemma WholeIsThere(s: Bytes)
    ensures Has(s, 0, s)
  {
  }

  lemma Body18IsShort(f: LocationFilter)
    requires Append18(f).Success?
    ensures |Append18(f).value| <= 36
  {
    hide Append;
  }

  /** Whatever can be sent is received as the filter that resolves to the same range. */
  lemma FilterReads(f: LocationFilter, version: Version, s: Bytes, i: nat)
    requires Expressible(f, version) && FilterBytes(f, version).Success?
    requires Has(s, i, FilterBytes(f, version).value)
    ensures FilterAt(s, i, version) == Ok(Received(f, version), i + |FilterBytes(f, version).value|)
  {
    hide Append, ByteStringAt, AppendByteString, Append18, Parse18, Filter22At, Fields22;
    if version.Draft18? {
      Body18Reads(f);
      Body18IsShort(f);
      ByteStringReads(Append18(f).value, MAX_VALUE_LENGTH, s, i);
    } else {
      Fields22Read(f, s, i);
    }
  }

  lemma LocationIsCanonical(s: Bytes, i: nat)
    requires LocationAt(s, i).Ok?
    ensures |LocationBytes(LocationAt(s, i).value)| <= LocationAt(s, i).end - i
  {
    hide Vi64At, Append, Len, Fits;
    var (group, j) := Vi64At(s, i).Extract();
    LenIsShortest(group, j - i);
    LenIsShortest(Vi64At(s, j).value, Vi64At(s, j).end - j);
  }

  lemma DeltaIsCanonical(s: Bytes, i: nat)
    requires Vi64At(s, i).Ok?
    ensures |Append(Vi64At(s, i).value)| <= Vi64At(s, i).end - i
  {
    hide Vi64At, Append, Len, Fits;
    LenIsShortest(Vi64At(s, i).value, Vi64At(s, i).end - i);
  }

  lemma Filter22IsCanonical(s: Bytes, i: nat)
    requires Filter22At(s, i).Ok?
    ensures var f := Filter22At(s, i).value;
            Valid(f) && Received(f, Draft22) == f && |Append(f.typ) + Fields22(f)| <= Filter22At(s, i).end - i
  {
    hide Vi64At, Append, Len, LocationAt, LocationBytes;
    DeltaIsCanonical(s, i);
    var (typ, i1) := Vi64At(s, i).Extract();
    var (start, i2) := StartAt(typ, s, i1).Extract();
    if typ == RELATIVE_START {
      DeltaIsCanonical(s, i1);
    } else if HasStart(typ) {
      LocationIsCanonical(s, i1);
      if HasEndGroup(typ) {
        DeltaIsCanonical(s, i2);
        if typ == ABSOLUTE_RANGE {
          DeltaIsCanonical(s, Vi64At(s, i2).end);
        }
      }
    }
  }

  lemma Body18IsCanonical(s: Bytes)
    requires Parse18(s).Ok?
    ensures var f := Parse18(s).value;
            && Expressible(f, Draft18) && Received(f, Draft18) == f
            && Append18(f).Success? && |Append18(f).value| <= Parse18(s).end
  {
    hide Vi64At, Append, Len, LocationAt, LocationBytes;
    DeltaIsCanonical(s, 0);
    var (t, i1) := Vi64At(s, 0).Extract();
    if t == ABSOLUTE_START_18 || t == ABSOLUTE_RANGE_18 {
      LocationIsCanonical(s, i1);
      if t == ABSOLUTE_RANGE_18 {
        DeltaIsCanonical(s, LocationAt(s, i1).end);
      }
    }
  }

  lemma ByteStringIsCanonical(s: Bytes, i: nat, max: nat, b: Bytes)
    requires ByteStringAt(s, i, max).Ok? && |b| <= |ByteStringAt(s, i, max).value|
    ensures |AppendByteString(b)| <= ByteStringAt(s, i, max).end - i
  {
    hide Vi64At, Append, Fits;
    var (n, j) := Vi64At(s, i).Extract();
    LenIsShortest(n, j - i);
    LenGrows(|b|, n);
  }

  lemma LenGrows(a: U64, b: U64)
    requires a <= b
    ensures Len(a) <= Len(b)
  {
  }

  /** Whatever is accepted can be sent again, in no more bytes, and is received unchanged. */
  lemma FilterIsCanonical(s: Bytes, i: nat, version: Version)
    requires FilterAt(s, i, version).Ok?
    ensures var f := FilterAt(s, i, version).value;
            && Expressible(f, version) && Received(f, version) == f
            && FilterBytes(f, version).Success? && |FilterBytes(f, version).value| <= FilterAt(s, i, version).end - i
  {
    hide Append, ByteStringAt, AppendByteString, Append18, Parse18, Filter22At, Fields22, Received;
    if version.Draft18? {
      var body := ByteStringAt(s, i, MAX_VALUE_LENGTH).value;
      Body18IsCanonical(body);
      ByteStringIsCanonical(s, i, MAX_VALUE_LENGTH, Append18(Parse18(body).value).value);
    } else {
      Filter22IsCanonical(s, i);
    }
  }
}
