/** The first bytes of a unidirectional stream: its type, and for a subgroup stream
    the header whose optional fields that type announces. */
module SubgroupHeaders {
  import opened Wire
  import opened Vi64
  import opened ByteStreams

  datatype SubgroupIdMode = Zero | FirstObject | Explicit | Reserved

  datatype Header = Header(
    trackAlias: U64, groupId: U64, mode: SubgroupIdMode, subgroupId: U64,
    priority: U8, defaultPriority: bool, hasProperties: bool, endOfGroup: bool, firstObject: bool)

  datatype StreamKind = ControlStream | FetchStream | SubgroupStream | PaddingStream

  const SETUP_TYPE: U64 := 0x2F00
  const FETCH_TYPE: U64 := 0x05
  const PADDING_TYPE: U64 := 0x132B3E28

  function ModeBits(m: SubgroupIdMode): (b: nat)
    ensures b < 4
  {
    match m case Zero => 0 case FirstObject => 1 case Explicit => 2 case Reserved => 3
  }

  function ModeOf(b: nat): SubgroupIdMode {
    if b == 0 then Zero else if b == 1 then FirstObject else if b == 2 then Explicit else Reserved
  }

  /** The leading integer: the marker bit and one bit per optional field. */
  function StreamType(h: Header): (t: U64)
    ensures 0x10 <= t < 0x80
  {
    0x10 + 2 * ModeBits(h.mode) + Bit(h.hasProperties, 0x01) + Bit(h.endOfGroup, 0x08)
    + Bit(h.defaultPriority, 0x20) + Bit(h.firstObject, 0x40)
  }

  /** Bit 7 clear and bit 4 set. */
  predicate IsSubgroupType(t: U64) {
    t < 0x80 && t / 0x10 % 2 == 1
  }

  function Classify(t: U64): Result<StreamKind> {
    if t == SETUP_TYPE then Success(ControlStream)
    else if t == FETCH_TYPE then Success(FetchStream)
    else if t == PADDING_TYPE then Success(PaddingStream)
    else if IsSubgroupType(t) then Success(SubgroupStream)
    else Failure(UnknownStreamType(t))
  }

  /** Which leading integers announce which stream. */
  lemma ClassifiedExactly(t: U64)
    ensures Classify(t) == Success(ControlStream) <==> t == 0x2F00
    ensures Classify(t) == Success(FetchStream) <==> t == 5
    ensures Classify(t) == Success(PaddingStream) <==> t == 0x132B3E28
    ensures Classify(t) == Success(SubgroupStream) <==>
            0x10 <= t < 0x20 || 0x30 <= t < 0x40 || 0x50 <= t < 0x60 || 0x70 <= t < 0x80
    ensures Classify(t).Failure? ==> Classify(t).error == UnknownStreamType(t)
  {
  }

  function AppendHeaderFields(h: Header): Bytes {
    Append(h.trackAlias)
    + (Append(h.groupId)
       + ((if h.mode.Explicit? then Append(h.subgroupId) else [])
          + if h.defaultPriority then [] else [h.priority]))
  }

  function AppendHeader(h: Header): Result<Bytes> {
    if h.mode.Reserved? then Failure(ReservedSubgroupMode)
    else Success(Append(StreamType(h)) + AppendHeaderFields(h))
  }

  /** A stream ending inside its header is malformed. */
  function HeaderTruncated(e: Error): Error {
    if e == Eof || e == UnexpectedEof then Malformed(UnexpectedEof) else e
  }

  function StreamTypeAt(s: Bytes, i: nat): Parsed<(U64, StreamKind)> {
    match LeadingVi64At(s, i)
    case Err(e) => Err(if e == UnexpectedEof then Malformed(e) else e)
    case Ok(t, j) =>
      match Classify(t)
      case Failure(e) => Err(Malformed(e))
      case Success(kind) => Ok((t, kind), j)
  }

  function OptionalVi64At(present: bool, s: Bytes, i: nat): Parsed<U64> {
    if present then Vi64At(s, i) else Ok(0, i)
  }

  function OptionalByteAt(present: bool, s: Bytes, i: nat): Parsed<U8> {
    if present then ByteAt(s, i) else Ok(0, i)
  }

  function HeaderFieldsAt(t: U64, s: Bytes, i: nat): Parsed<Header> {
    var mode, default := ModeOf(t / 2 % 4), t / 0x20 % 2 == 1;
    var (alias, i1) :- Vi64At(s, i);
    var (group, i2) :- Vi64At(s, i1);
    var (subgroup, i3) :- OptionalVi64At(mode.Explicit?, s, i2);
    var (priority, i4) :- OptionalByteAt(!default, s, i3);
    Ok(Header(alias, group, mode, subgroup, priority, default, t % 2 == 1, t / 8 % 2 == 1, t / 0x40 % 2 == 1), i4)
  }

  function HeaderAt(t: U64, s: Bytes, i: nat): Parsed<Header> {
    if !IsSubgroupType(t) then Err(Malformed(UnknownStreamType(t)))
    else if ModeOf(t / 2 % 4).Reserved? then Err(Malformed(ReservedSubgroupMode))
    else
      match HeaderFieldsAt(t, s, i)
      case Err(e) => Err(HeaderTruncated(e))
      case Ok(h, j) => Ok(h, j)
  }

  // ---- The reading code, against those functions.

  method ReadStreamType(r: ByteReader) returns (res: Result<(U64, StreamKind)>)
    requires r.Valid()
    modifies r
    ensures r.Valid()
    ensures match StreamTypeAt(r.data, old(r.pos))
            case Ok(v, end) => res == Success(v) && r.pos == end
            case Err(e) => res == Failure(e)
  {
    hide Vi64At;
    var t := r.ReadVi64();
    if t.Failure? {
      return Failure(if t.error == UnexpectedEof then Malformed(t.error) else t.error);
    }
    var kind := Classify(t.value);
    if kind.Failure? {
      return Failure(Malformed(kind.error));
    }
    return Success((t.value, kind.value));
  }

  method ParseHeader(t: U64, r: ByteReader) returns (res: Result<Header>)
    requires r.Valid()
    modifies r
    ensures r.Valid()
    ensures match HeaderAt(t, r.data, old(r.pos))
            case Ok(h, end) => res == Success(h) && r.pos == end
            case Err(e) => res == Failure(e)
  {
    hide Vi64At;
    if !IsSubgroupType(t) {
      return Failure(Malformed(UnknownStreamType(t)));
    }
    var mode := ModeOf(t / 2 % 4);
    if mode.Reserved? {
      return Failure(Malformed(ReservedSubgroupMode));
    }
    var h := Header(0, 0, mode, 0, 0, t / 0x20 % 2 == 1, t % 2 == 1, t / 8 % 2 == 1, t / 0x40 % 2 == 1);
    var alias := r.ReadVi64();
    if alias.Failure? {
      return Failure(HeaderTruncated(alias.error));
    }
    h := h.(trackAlias := alias.value);
    var group := r.ReadVi64();
    if group.Failure? {
      return Failure(HeaderTruncated(group.error));
    }
    h := h.(groupId := group.value);
    if mode.Explicit? {
      var subgroup := r.ReadVi64();
      if subgroup.Failure? {
        return Failure(HeaderTruncated(subgroup.error));
      }
      h := h.(subgroupId := subgroup.value);
    }
    if !h.defaultPriority {
      var priority := r.ReadByte();
      if priority.Failure? {
        return Failure(HeaderTruncated(priority.error));
      }
      h := h.(priority := priority.value);
    }
    return Success(h);
  }

  // ---- A header survives the stream type and back.

  /** The header as it is on the wire: a field the type leaves out reads as zero. */
  function CanonHeader(h: Header): Header {
    h.(subgroupId := if h.mode.Explicit? then h.subgroupId else 0,
       priority := if h.defaultPriority then 0 else h.priority)
  }

  lemma TypeBits(h: Header)
    ensures var t := StreamType(h);
            && IsSubgroupType(t)
            && ModeOf(t / 2 % 4) == h.mode
            && (t % 2 == 1) == h.hasProperties
            && (t / 8 % 2 == 1) == h.endOfGroup
            && (t / 0x20 % 2 == 1) == h.defaultPriority
            && (t / 0x40 % 2 == 1) == h.firstObject
  {
    var t, m := StreamType(h), ModeBits(h.mode);
    var r4 := Bit(h.defaultPriority, 1) + 2 * Bit(h.firstObject, 1);
    var r3 := Bit(h.endOfGroup, 1) + 2 * (1 + 2 * r4);
    var r1 := m + 4 * r3;
    assert t == Bit(h.hasProperties, 1) + 2 * r1;
    assert ModeOf(m) == h.mode;
    hide StreamType, ModeBits, ModeOf, Bit;
    Halves(t);
    LowBit(t, h.hasProperties, r1);
    LowBit(r3, h.endOfGroup, 1 + 2 * r4);
    LowBit(r4, h.defaultPriority, Bit(h.firstObject, 1));
    assert Bit(h.firstObject, 1) == Bit(h.firstObject, 1) + 2 * 0;
    LowBit(Bit(h.firstObject, 1), h.firstObject, 0);
  }

  /** The fields a stream type announces read back. */
  lemma FieldsRead(h: Header, s: Bytes, i: nat)
    requires Has(s, i, AppendHeaderFields(h))
    ensures HeaderFieldsAt(StreamType(h), s, i) == Ok(CanonHeader(h), i + |AppendHeaderFields(h)|)
  {
    hide Vi64At, Append, StreamType, Len, Has, IsSubgroupType;
    TypeBits(h);
    var b3 := if h.mode.Explicit? then Append(h.subgroupId) else [];
    var b4 := if h.defaultPriority then [] else [h.priority];
    HasSplit(s, i, Append(h.trackAlias), Append(h.groupId) + (b3 + b4));
    AppendReads(h.trackAlias, s, i);
    var i1 := i + Len(h.trackAlias);
    HasSplit(s, i1, Append(h.groupId), b3 + b4);
    AppendReads(h.groupId, s, i1);
    var i2 := i1 + Len(h.groupId);
    HasSplit(s, i2, b3, b4);
    if h.mode.Explicit? {
      AppendReads(h.subgroupId, s, i2);
    }
    HeaderTail(b4, s, i2 + |b3|);
  }

  /** A header that can be written classifies as a subgroup stream and reads back as written. */
  lemma HeaderRoundTrip(h: Header, s: Bytes, i: nat)
    requires AppendHeader(h).Success? && Has(s, i, AppendHeader(h).value)
    ensures var t, j := StreamType(h), i + Len(StreamType(h));
            && StreamTypeAt(s, i) == Ok((t, SubgroupStream), j)
            && HeaderAt(t, s, j) == Ok(CanonHeader(h), i + |AppendHeader(h).value|)
  {
    hide Vi64At, Append, StreamType, Len, Has, IsSubgroupType, AppendHeaderFields, HeaderFieldsAt, CanonHeader;
    TypeBits(h);
    var t := StreamType(h);
    HasSplit(s, i, Append(t), AppendHeaderFields(h));
    AppendReads(t, s, i);
    FieldsRead(h, s, i + Len(t));
  }

  lemma HeaderTail(b: Bytes, s: Bytes, i: nat)
    requires Has(s, i, b)
    ensures |b| == 1 ==> ByteAt(s, i) == Ok(b[0], i + 1)
  {
    assert |b| == 1 ==> s[i..i + 1][0] == s[i];
  }

  // ---- Truncation.

  lemma TypeCut(s: Bytes, i: nat, k: nat)
    requires StreamTypeAt(s, i).Ok? && i <= k <= |s|
    ensures StreamTypeAt(s[..k], i) ==
            if StreamTypeAt(s, i).end <= k then StreamTypeAt(s, i)
            else if k == i then Err(Eof) else Err(Malformed(UnexpectedEof))
  {
    hide Vi64At, Classify;
    Vi64Cut(s, i, k);
  }

  lemma OptionalVi64Cut(present: bool, s: Bytes, i: nat, k: nat)
    requires OptionalVi64At(present, s, i).Ok? && i <= k <= |s|
    ensures var r := OptionalVi64At(present, s, i);
            OptionalVi64At(present, s[..k], i) == if r.end <= k then r else Err(UnexpectedEof)
  {
    hide Vi64At;
    if present {
      Vi64Cut(s, i, k);
    }
  }

  lemma OptionalByteCut(present: bool, s: Bytes, i: nat, k: nat)
    requires OptionalByteAt(present, s, i).Ok? && i <= k <= |s|
    ensures var r := OptionalByteAt(present, s, i);
            OptionalByteAt(present, s[..k], i) == if r.end <= k then r else Err(UnexpectedEof)
  {
  }

  /** A header the cut falls inside is malformed, whichever field that is. */
  lemma HeaderCut(t: U64, s: Bytes, i: nat, k: nat)
    requires HeaderAt(t, s, i).Ok? && i <= k <= |s|
    ensures HeaderAt(t, s[..k], i) ==
            if HeaderAt(t, s, i).end <= k then HeaderAt(t, s, i) else Err(Malformed(UnexpectedEof))
  {
    hide Vi64At, IsSubgroupType, OptionalVi64At, OptionalByteAt;
    var mode, default := ModeOf(t / 2 % 4), t / 0x20 % 2 == 1;
    var i1 := Vi64At(s, i).end;
    var i2 := Vi64At(s, i1).end;
    var i3 := OptionalVi64At(mode.Explicit?, s, i2).end;
    OptionalGrows(mode.Explicit?, !default, s, i2, i3);
    Vi64Cut(s, i, k);
    if i1 <= k {
      Vi64Cut(s, i1, k);
      if i2 <= k {
        OptionalVi64Cut(mode.Explicit?, s, i2, k);
        if i3 <= k {
          OptionalByteCut(!default, s, i3, k);
        }
      }
    }
  }

  lemma OptionalGrows(explicit: bool, given: bool, s: Bytes, i: nat, j: nat)
    ensures OptionalVi64At(explicit, s, i).Ok? ==> i <= OptionalVi64At(explicit, s, i).end
    ensures OptionalByteAt(given, s, j).Ok? ==> j <= OptionalByteAt(given, s, j).end
  {
  }
}
