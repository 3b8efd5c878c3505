/** FETCH data streams: every field of a record is relative to the records before it.

    Two different records are remembered. The Location a delta is relative to
    advances past an End of Range indicator; the Subgroup ID and Priority that
    can be inherited are those of the last real Object. */
module FetchObjects {
  import opened Wire
  import opened Vi64
  import opened KeyValuePairs
  import opened ObjectFields
  import opened ByteStreams

  const NON_EXISTENT: U64 := 0x8C
  const UNKNOWN: U64 := 0x10C
  const TIMED_OUT: U64 := 0x20C
  const FLAGS_MAX: U64 := 0x7F

  /** A record with every field resolved. `endOfRange` is 0 for a real Object. */
  datatype FetchObject = FetchObject(
    groupId: U64, subgroupId: U64, objectId: U64, priority: U8,
    properties: KVPList, payload: Bytes, endOfRange: U64, datagram: bool)

  /** What the reader remembers of the stream so far. */
  datatype Prior = Prior(
    order: GroupOrder, version: Version,
    havePrior: bool, groupId: U64, objectId: U64,
    haveObject: bool, subgroupId: U64, priority: U8)

  function Start(order: GroupOrder, version: Version): Prior {
    Prior(order, version, false, 0, 0, false, 0, 0)
  }

  predicate ValidEndOfRange(kind: U64, version: Version) {
    kind == NON_EXISTENT || kind == UNKNOWN || (kind == TIMED_OUT && version.Draft22?)
  }

  /** A GROUP_ORDER outside the two defined values reads as Ascending. */
  function OrderOf(order: U8): GroupOrder {
    if order == 2 then Descending else Ascending
  }

  // ---- Reading one record, field by field.

  function ResolveGroup(st: Prior, delta: U64): Result<U64> {
    if !st.havePrior then Success(delta)
    else if st.order.Descending? then
      if delta >= st.groupId then Failure(GroupIdOverflow) else Success(st.groupId - delta - 1)
    else AddObjectId(st.groupId, delta)
  }

  function GroupAt(st: Prior, present: bool, s: Bytes, i: nat): (r: Parsed<U64>)
    ensures r.Ok? ==> i <= r.end && (i <= |s| ==> r.end <= |s|)
    ensures r.Err? ==> r.error != Eof
  {
    if !present then Ok(st.groupId, i)
    else
      var (delta, j) :- Vi64At(s, i);
      match ResolveGroup(st, delta)
      case Success(g) => Ok(g, j)
      case Failure(e) => Err(e)
  }

  /** A Datagram has no Subgroup ID, whatever the mode bits say. */
  function SubgroupAt(st: Prior, mode: nat, datagram: bool, s: Bytes, i: nat): (r: Parsed<U64>)
    ensures r.Ok? ==> i <= r.end && (i <= |s| ==> r.end <= |s|)
    ensures r.Err? ==> r.error != Eof
  {
    if datagram || mode == 0 then Ok(0, i)
    else if mode == 3 then Vi64At(s, i)
    else if !st.haveObject then Err(NeedsPrior)
    else if mode == 1 then Ok(st.subgroupId, i)
    else if st.subgroupId == MAX_U64 then Err(SubgroupIdOverflow)
    else Ok(st.subgroupId + 1, i)
  }

  function ResolveObject(st: Prior, groupPresent: bool, delta: U64): Result<U64> {
    if groupPresent then Success(delta) else AddWithoutOverflow(st.objectId, delta)
  }

  function ObjectAt(st: Prior, groupPresent: bool, present: bool, s: Bytes, i: nat): (r: Parsed<U64>)
    ensures r.Ok? ==> i <= r.end && (i <= |s| ==> r.end <= |s|)
    ensures r.Err? ==> r.error != Eof
  {
    if !present then
      match AddWithoutOverflow(st.objectId, 1)
      case Success(o) => Ok(o, i)
      case Failure(e) => Err(e)
    else
      var (delta, j) :- Vi64At(s, i);
      match ResolveObject(st, groupPresent, delta)
      case Success(o) => Ok(o, j)
      case Failure(e) => Err(e)
  }

  function PriorityAt(st: Prior, present: bool, s: Bytes, i: nat): (r: Parsed<U8>)
    ensures r.Ok? ==> i <= r.end && (i <= |s| ==> r.end <= |s|)
    ensures r.Err? ==> r.error != Eof
  {
    if present then ByteAt(s, i)
    else if !st.haveObject then Err(NeedsPrior)
    else Ok(st.priority, i)
  }

  function OptionalPropertiesAt(st: Prior, present: bool, s: Bytes, i: nat): (r: Parsed<KVPList>)
    ensures r.Ok? ==> i <= r.end && (i <= |s| ==> r.end <= |s|)
    ensures r.Err? ==> r.error != Eof
  {
    if present then PropertiesAt(s, i, st.version) else Ok([], i)
  }

  /** The Serialization Flags of a real Object. */
  datatype Flags = Flags(
    mode: nat, objectDelta: bool, groupDelta: bool, priority: bool, properties: bool, datagram: bool)

  function FlagsOf(f: U64): (r: Flags)
    ensures r.mode < 4
  {
    Flags(f % 4, f / 4 % 2 == 1, f / 8 % 2 == 1, f / 16 % 2 == 1, f / 32 % 2 == 1, f / 64 % 2 == 1)
  }

  /** The fields of a real Object, after its flags. */
  function ObjectRecordAt(st: Prior, f: Flags, s: Bytes, i: nat): (r: Parsed<FetchObject>)
    ensures r.Ok? ==> i < r.end <= |s| && r.value.endOfRange == 0
    ensures r.Err? ==> r.error != Eof
  {
    if !st.havePrior && (!f.groupDelta || !f.objectDelta) then Err(NeedsPrior)
    else
      var (group, i1) :- GroupAt(st, f.groupDelta, s, i);
      var (subgroup, i2) :- SubgroupAt(st, f.mode, f.datagram, s, i1);
      var (obj, i3) :- ObjectAt(st, f.groupDelta, f.objectDelta, s, i2);
      var (priority, i4) :- PriorityAt(st, f.priority, s, i3);
      var (properties, i5) :- OptionalPropertiesAt(st, f.properties, s, i4);
      var (payload, i6) :- PayloadAt(s, i5);
      Ok(FetchObject(group, subgroup, obj, priority, properties, payload, 0, f.datagram), i6)
  }

  function Indicator(kind: U64, group: U64, obj: U64): FetchObject {
    FetchObject(group, 0, obj, 0, [], [], kind, false)
  }

  /** An End of Range indicator: two absolute IDs and nothing else. */
  function EndOfRangeAt(st: Prior, kind: U64, s: Bytes, i: nat): (r: Parsed<FetchObject>)
    ensures r.Ok? ==> i < r.end <= |s|
    ensures r.Err? ==> r.error != Eof
  {
    if !ValidEndOfRange(kind, st.version) then Err(InvalidSerializationFlags)
    else
      var (group, j) :- Vi64At(s, i);
      var (obj, k) :- Vi64At(s, j);
      Ok(Indicator(kind, group, obj), k)
  }

  function RecordAt(st: Prior, flags: U64, s: Bytes, i: nat): (r: Parsed<FetchObject>)
    ensures r.Ok? ==> i < r.end <= |s|
    ensures r.Err? ==> r.error != Eof
  {
    if flags > FLAGS_MAX then EndOfRangeAt(st, flags, s, i) else ObjectRecordAt(st, FlagsOf(flags), s, i)
  }

  /** The Location always advances; Subgroup ID and Priority only past a real Object. */
  function Remember(st: Prior, obj: FetchObject): Prior {
    var moved := st.(havePrior := true, groupId := obj.groupId, objectId := obj.objectId);
    if obj.endOfRange == 0 then moved.(haveObject := true, subgroupId := obj.subgroupId, priority := obj.priority)
    else moved
  }

  /** One record and the reader's state after it. */
  function NextRecord(st: Prior, s: Bytes, i: nat): (r: Parsed<(FetchObject, Prior)>)
    ensures r.Ok? ==> i < r.end <= |s|
    ensures r == Err(Eof) <==> i >= |s|
  {
    var (flags, j) :- LeadingVi64At(s, i);
    var (obj, k) :- RecordAt(st, flags, s, j);
    Ok((obj, Remember(st, obj)), k)
  }

  class FetchReader {
    const order: GroupOrder
    const version: Version
    const r: ByteReader
    var priorGroupID: U64
    var priorObjectID: U64
    var havePrior: bool
    var priorSubgroupID: U64
    var priorPriority: U8
    var havePriorObject: bool

    constructor (r: ByteReader, order: U8, version: Version)
      ensures this.r == r && State() == Start(OrderOf(order), version)
    {
      this.order, this.version, this.r := OrderOf(order), version, r;
      priorGroupID, priorObjectID, havePrior := 0, 0, false;
      priorSubgroupID, priorPriority, havePriorObject := 0, 0, false;
    }

    function State(): Prior
      reads this
    {
      Prior(order, version, havePrior, priorGroupID, priorObjectID,
            havePriorObject, priorSubgroupID, priorPriority)
    }

    /** Reads the next record, or leaves the state alone and says why there is none. */
    method Next() returns (res: Result<FetchObject>)
      requires r.Valid()
      modifies this, r
      ensures r.Valid()
      ensures match NextRecord(old(State()), r.data, old(r.pos))
              case Ok((obj, st), end) => res == Success(obj) && State() == st && r.pos == end
              case Err(e) => res == Failure(e) && State() == old(State())
    {
      hide Vi64At, ObjectRecordAt, FlagsOf;
      var leading := r.ReadVi64();
      if leading.Failure? {
        return Failure(leading.error);
      }
      var flags := leading.value;
      if flags > FLAGS_MAX {
        res := ReadEndOfRange(flags);
      } else {
        res := ReadObject(FlagsOf(flags));
        if res.Success? {
          RememberObject(res.value);
        }
      }
    }

    method RememberObject(obj: FetchObject)
      requires obj.endOfRange == 0
      modifies this
      ensures State() == Remember(old(State()), obj)
    {
      priorGroupID, priorObjectID, havePrior := obj.groupId, obj.objectId, true;
      priorSubgroupID, priorPriority, havePriorObject := obj.subgroupId, obj.priority, true;
    }

    method ReadEndOfRange(kind: U64) returns (res: Result<FetchObject>)
      requires r.Valid() && kind > FLAGS_MAX
      modifies this, r
      ensures r.Valid()
      ensures match EndOfRangeAt(old(State()), kind, r.data, old(r.pos))
              case Ok(obj, end) => res == Success(obj) && r.pos == end && State() == Remember(old(State()), obj)
              case Err(e) => res == Failure(e) && State() == old(State())
    {
      hide Vi64At;
      if !ValidEndOfRange(kind, version) {
        return Failure(InvalidSerializationFlags);
      }
      var group := r.ReadVi64();
      if group.Failure? {
        return Failure(Unexpected(group.error));
      }
      var obj := r.ReadVi64();
      if obj.Failure? {
        return Failure(Unexpected(obj.error));
      }
      priorGroupID, priorObjectID, havePrior := group.value, obj.value, true;
      return Success(Indicator(kind, group.value, obj.value));
    }

    /** Reads every field of a real Object without touching the state. */
    method ReadObject(f: Flags) returns (res: Result<FetchObject>)
      requires r.Valid() && f.mode < 4
      modifies r
      ensures r.Valid()
      ensures match ObjectRecordAt(State(), f, r.data, old(r.pos))
              case Ok(obj, end) => res == Success(obj) && r.pos == end
              case Err(e) => res == Failure(e)
    {
      hide GroupAt, SubgroupAt, ObjectAt, PriorityAt, OptionalPropertiesAt, PayloadAt;
      if !havePrior && (!f.groupDelta || !f.objectDelta) {
        return Failure(NeedsPrior);
      }
      var group :- ReadGroupID(f.groupDelta);
      var subgroup :- ReadSubgroupID(if f.datagram then 0 else f.mode, f);
      var obj :- ReadObjectID(f);
      var priority :- ReadPriority(f.priority);
      var properties :- ReadProperties(f.properties);
      var payload :- ReadPayload();
      return Success(FetchObject(group, subgroup, obj, priority, properties, payload, 0, f.datagram));
    }

    method ReadGroupID(present: bool) returns (res: Result<U64>)
      requires r.Valid()
      modifies r
      ensures r.Valid()
      ensures match GroupAt(State(), present, r.data, old(r.pos))
              case Ok(v, end) => res == Success(v) && r.pos == end
              case Err(e) => res == Failure(e)
    {
      hide Vi64At;
      if !present {
        return Success(priorGroupID);
      }
      var delta := r.ReadVi64();
      if delta.Failure? {
        return Failure(Unexpected(delta.error));
      }
      return ResolveGroup(State(), delta.value);
    }

    method ReadSubgroupID(mode: nat, ghost f: Flags) returns (res: Result<U64>)
      requires r.Valid() && mode < 4 && f.mode < 4 && mode == if f.datagram then 0 else f.mode
      modifies r
      ensures r.Valid()
      ensures match SubgroupAt(State(), f.mode, f.datagram, r.data, old(r.pos))
              case Ok(v, end) => res == Success(v) && r.pos == end
              case Err(e) => res == Failure(e)
    {
      hide Vi64At;
      if mode == 0 {
        return Success(0);
      } else if mode == 3 {
        var v := r.ReadVi64();
        return if v.Failure? then Failure(Unexpected(v.error)) else v;
      }
      if !havePriorObject {
        return Failure(NeedsPrior);
      }
      var subgroup := priorSubgroupID;
      if mode == 2 {
        if subgroup == MAX_U64 {
          return Failure(SubgroupIdOverflow);
        }
        subgroup := subgroup + 1;
      }
      return Success(subgroup);
    }

    method ReadObjectID(f: Flags) returns (res: Result<U64>)
      requires r.Valid()
      modifies r
      ensures r.Valid()
      ensures match ObjectAt(State(), f.groupDelta, f.objectDelta, r.data, old(r.pos))
              case Ok(v, end) => res == Success(v) && r.pos == end
              case Err(e) => res == Failure(e)
    {
      hide Vi64At;
      if !f.objectDelta {
        return AddWithoutOverflow(priorObjectID, 1);
      }
      var delta := r.ReadVi64();
      if delta.Failure? {
        return Failure(Unexpected(delta.error));
      }
      if f.groupDelta {
        return delta;
      }
      return AddWithoutOverflow(priorObjectID, delta.value);
    }

    method ReadPriority(present: bool) returns (res: Result<U8>)
      requires r.Valid()
      modifies r
      ensures r.Valid()
      ensures match PriorityAt(State(), present, r.data, old(r.pos))
              case Ok(v, end) => res == Success(v) && r.pos == end
              case Err(e) => res == Failure(e)
    {
      if present {
        var b := r.ReadByte();
        return if b.Failure? then Failure(Unexpected(b.error)) else b;
      }
      if !havePriorObject {
        return Failure(NeedsPrior);
      }
      return Success(priorPriority);
    }

    method ReadProperties(present: bool) returns (res: Result<KVPList>)
      requires r.Valid()
      modifies r
      ensures r.Valid()
      ensures match OptionalPropertiesAt(State(), present, r.data, old(r.pos))
              case Ok(v, end) => res == Success(v) && r.pos == end
              case Err(e) => res == Failure(e)
    {
      if present {
        res := ReadPropertyBlock(r, version);
      } else {
        res := Success([]);
      }
    }

    method ReadPayload() returns (res: Result<Bytes>)
      requires r.Valid()
      modifies r
      ensures r.Valid()
      ensures match PayloadAt(r.data, old(r.pos))
              case Ok(v, end) => res == Success(v) && r.pos == end
              case Err(e) => res == Failure(e)
    {
      res := ReadPayloadBytes(r);
    }
  }
}
