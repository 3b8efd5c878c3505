/** Subgroup data streams: Object IDs are deltas, whether a Properties block is there
    is decided by the stream's header, and the Subgroup ID may only be known once
    the first Object has arrived. */
module SubgroupStreams {
  import opened Wire
  import opened Vi64
  import opened KeyValuePairs
  import opened ObjectFields
  import opened ByteStreams
  import opened Streams
  import opened SubgroupHeaders

  datatype SubgroupObject = SubgroupObject(objectId: U64, properties: KVPList, status: U64, payload: Bytes)

  /** What either end remembers of the stream: its header and the last Object ID. */
  datatype SubState = SubState(header: Header, haveObject: bool, prevObjectId: U64)

  function Begin(h: Header): SubState {
    SubState(h, false, 0)
  }

  /** The first Object names the subgroup when the mode says so. */
  function Learn(h: Header, haveObject: bool, objectId: U64): Header {
    if !haveObject && h.mode.FirstObject? then h.(subgroupId := objectId) else h
  }

  function Advance(st: SubState, objectId: U64): SubState {
    SubState(Learn(st.header, st.haveObject, objectId), true, objectId)
  }

  function ResolveId(st: SubState, delta: U64): Result<U64> {
    if st.haveObject then AddObjectId(st.prevObjectId, delta) else Success(delta)
  }

  function BlockAt(present: bool, version: Version, s: Bytes, i: nat): (r: Parsed<KVPList>)
    ensures r.Ok? ==> i <= r.end && (i <= |s| ==> r.end <= |s|)
    ensures r.Err? ==> r.error != Eof
  {
    if present then PropertiesAt(s, i, version) else Ok([], i)
  }

  /** A payload, or for an empty one the status in its place. */
  function BodyAt(withProperties: bool, s: Bytes, i: nat): (r: Parsed<(U64, Bytes)>)
    ensures r.Ok? ==> i < r.end <= |s|
    ensures r.Err? ==> r.error != Eof
  {
    var (length, j) :- Vi64At(s, i);
    if length == 0 then
      var (status, k) :- Vi64At(s, j);
      if !ValidStatus(status) then Err(InvalidObjectStatus)
      else if status != STATUS_NORMAL && withProperties then Err(PropertiesOnNonNormalObject)
      else Ok((status, []), k)
    else
      var (payload, k) :- BytesAt(s, j, length);
      Ok((STATUS_NORMAL, payload), k)
  }

  /** The fields after the Object ID delta. */
  function FieldsAt(id: U64, present: bool, version: Version, s: Bytes, i: nat): (r: Parsed<SubgroupObject>)
    ensures r.Ok? ==> i < r.end <= |s| && r.value.objectId == id
    ensures r.Err? ==> r.error != Eof
  {
    var (properties, j) :- BlockAt(present, version, s, i);
    var (body, k) :- BodyAt(properties != [], s, j);
    Ok(SubgroupObject(id, properties, body.0, body.1), k)
  }

  /** One Object and the reader's state after it. */
  function NextObject(version: Version, st: SubState, s: Bytes, i: nat): (r: Parsed<(SubgroupObject, SubState)>)
    ensures r.Ok? ==> i < r.end <= |s| && r.value.1 == Advance(st, r.value.0.objectId)
    ensures r == Err(Eof) <==> i >= |s|
  {
    var (delta, j) :- LeadingVi64At(s, i);
    match ResolveId(st, delta)
    case Failure(e) => Err(e)
    case Success(id) =>
      var (obj, k) :- FieldsAt(id, st.header.hasProperties, version, s, j);
      Ok((obj, Advance(st, id)), k)
  }

  /** The header both a stream and its user hold: the reader fills in what it learns. */
  class SubgroupHeader {
    var fields: Header

    constructor (fields: Header)
      ensures this.fields == fields
    {
      this.fields := fields;
    }
  }

  class SubgroupReader {
    const header: SubgroupHeader
    const r: ByteReader
    const version: Version
    var prevObjectID: U64
    var haveObject: bool

    constructor (header: SubgroupHeader, r: ByteReader, version: Version)
      ensures this.header == header && this.r == r && this.version == version
      ensures State() == Begin(header.fields)
    {
      this.header, this.r, this.version := header, r, version;
      prevObjectID, haveObject := 0, false;
    }

    function State(): SubState
      reads this, header
    {
      SubState(header.fields, haveObject, prevObjectID)
    }

    /** Reads the next Object, filling in the shared header when the first one arrives. */
    method Next() returns (res: Result<SubgroupObject>)
      requires r.Valid()
      modifies this, header, r
      ensures r.Valid()
      ensures match NextObject(version, old(State()), r.data, old(r.pos))
              case Ok((obj, st), end) => res == Success(obj) && State() == st && r.pos == end
              case Err(e) => res == Failure(e) && State() == old(State())
    {
      hide Vi64At, BodyAt, PropertiesAt;
      var leading := r.ReadVi64();
      if leading.Failure? {
        return Failure(leading.error);
      }
      var objectId := leading.value;
      if haveObject {
        objectId :- AddObjectId(prevObjectID, leading.value);
      }
      var properties: KVPList := [];
      if header.fields.hasProperties {
        properties :- ReadPropertyBlock(r, version);
      }
      var body :- ReadBody(properties != []);
      if !haveObject && header.fields.mode.FirstObject? {
        header.fields := header.fields.(subgroupId := objectId);
      }
      prevObjectID := objectId;
      haveObject := true;
      return Success(SubgroupObject(objectId, properties, body.0, body.1));
    }

    method ReadBody(withProperties: bool) returns (res: Result<(U64, Bytes)>)
      requires r.Valid()
      modifies r
      ensures r.Valid()
      ensures match BodyAt(withProperties, r.data, old(r.pos))
              case Ok(v, end) => res == Success(v) && r.pos == end
              case Err(e) => res == Failure(e)
    {
      hide Vi64At;
      var length := r.ReadVi64();
      if length.Failure? {
        return Failure(Unexpected(length.error));
      }
      if length.value == 0 {
        var status := r.ReadVi64();
        if status.Failure? {
          return Failure(Unexpected(status.error));
        }
        if !ValidStatus(status.value) {
          return Failure(InvalidObjectStatus);
        }
        if status.value != STATUS_NORMAL && withProperties {
          return Failure(PropertiesOnNonNormalObject);
        }
        return Success((status.value, []));
      }
      var payload := r.ReadFull(length.value);
      if payload.Failure? {
        return Failure(Unexpected(payload.error));
      }
      return Success((STATUS_NORMAL, payload.value));
    }
  }

  // ---- The writer.

  /** Why an Object cannot be written next, if it cannot. */
  function Refusal(st: SubState, obj: SubgroupObject): Result<()> {
    if obj.payload != [] && obj.status != STATUS_NORMAL then Failure(StatusWithPayload)
    else if obj.properties != [] && !st.header.hasProperties then Failure(PropertiesNotDeclared)
    else if obj.properties != [] && obj.status != STATUS_NORMAL then Failure(PropertiesOnNonNormalObject)
    else if st.haveObject && obj.objectId <= st.prevObjectId then Failure(ObjectIdNotIncreasing)
    else if obj.payload == [] && !ValidStatus(obj.status) then Failure(InvalidObjectStatus)
    else Success(())
  }

  predicate Accepts(st: SubState, obj: SubgroupObject) {
    Refusal(st, obj).Success?
  }

  function Delta(st: SubState, objectId: U64): U64 {
    if st.haveObject then WrapSub(objectId, (st.prevObjectId + 1) % TWO_64) else objectId
  }

  function BlockBytes(present: bool, list: KVPList): Bytes {
    if present then AppendBlock(list) else []
  }

  function BodyBytes(obj: SubgroupObject): Bytes {
    Append(ToU64(|obj.payload|)) + if obj.payload == [] then Append(obj.status) else obj.payload
  }

  function ObjectBytes(st: SubState, obj: SubgroupObject): Bytes {
    Append(Delta(st, obj.objectId)) + (BlockBytes(st.header.hasProperties, obj.properties) + BodyBytes(obj))
  }

  class SubgroupWriter {
    const header: SubgroupHeader
    var prevObjectID: U64
    var haveObject: bool

    constructor (header: SubgroupHeader)
      ensures this.header == header && State() == Begin(header.fields)
    {
      this.header := header;
      prevObjectID, haveObject := 0, false;
    }

    function State(): SubState
      reads this, header
    {
      SubState(header.fields, haveObject, prevObjectID)
    }

    /** Extends `buf` with the Object, or refuses it and leaves the state as it was. */
    method AppendObject(buf: Bytes, obj: SubgroupObject) returns (res: Result<Bytes>)
      modifies this, header
      ensures match Refusal(old(State()), obj)
              case Success(_) => res == Success(buf + ObjectBytes(old(State()), obj))
                                 && State() == Advance(old(State()), obj.objectId)
              case Failure(e) => res == Failure(e) && State() == old(State())
    {
      hide Append, AppendBlock, Len;
      if |obj.payload| > 0 && obj.status != STATUS_NORMAL {
        return Failure(StatusWithPayload);
      }
      if |obj.properties| > 0 {
        if !header.fields.hasProperties {
          return Failure(PropertiesNotDeclared);
        }
        if obj.status != STATUS_NORMAL {
          return Failure(PropertiesOnNonNormalObject);
        }
      }
      var delta := obj.objectId;
      if haveObject {
        if obj.objectId <= prevObjectID {
          return Failure(ObjectIdNotIncreasing);
        }
        delta := obj.objectId - prevObjectID - 1;
      }
      var out := buf + Append(delta);
      ghost var block := BlockBytes(header.fields.hasProperties, obj.properties);
      if header.fields.hasProperties {
        out := AppendLength(out, obj.properties);
      }
      assert out == buf + Append(delta) + block;
      ghost var head := out;
      out := out + Append(ToU64(|obj.payload|));
      if |obj.payload| == 0 {
        if !ValidStatus(obj.status) {
          return Failure(InvalidObjectStatus);
        }
        out := out + Append(obj.status);
      } else {
        out := out + obj.payload;
      }
      assert out == head + BodyBytes(obj);
      Associate(buf, Append(delta), block, BodyBytes(obj));
      if !haveObject && header.fields.mode.FirstObject? {
        header.fields := header.fields.(subgroupId := obj.objectId);
      }
      prevObjectID := obj.objectId;
      haveObject := true;
      return Success(out);
    }
  }

  lemma Associate(a: Bytes, b: Bytes, c: Bytes, d: Bytes)
    ensures a + (b + (c + d)) == a + b + c + d
  {
  }

  // ---- What the writer writes, the reader reads.

  predicate Storable(obj: SubgroupObject) {
    && Addressable(obj.properties)
    && |AppendPairs(SortedPairs(obj.properties), 0)| < TWO_64
    && |obj.payload| < TWO_64
  }

  function Sent(obj: SubgroupObject): SubgroupObject {
    obj.(properties := Canonical(obj.properties))
  }

  /** The two ends agree on all that decides how an Object is written and read. */
  predicate Agrees(r: SubState, w: SubState) {
    && r.haveObject == w.haveObject && r.prevObjectId == w.prevObjectId
    && r.header.hasProperties == w.header.hasProperties && r.header.mode == w.header.mode
    && (r.haveObject && r.header.mode.FirstObject? ==> r.header.subgroupId == w.header.subgroupId)
  }

  lemma BlockReads(list: KVPList, version: Version, s: Bytes, i: nat)
    requires Addressable(list) && |AppendPairs(SortedPairs(list), 0)| < TWO_64
    requires Has(s, i, AppendBlock(list))
    ensures if Readable(list, version) then PropertiesAt(s, i, version) == Ok(Canonical(list), i + |AppendBlock(list)|)
            else PropertiesAt(s, i, version).Err?
  {
    hide ByteStringAt, AppendByteString, ParseProperties, Readable, Canonical, AppendPairs, SortedPairs;
    ByteStringReads(AppendPairs(SortedPairs(list), 0), 0, s, i);
    BlockParses(list, version);
  }

  lemma BodyReads(obj: SubgroupObject, withProperties: bool, s: Bytes, i: nat)
    requires |obj.payload| < TWO_64 && (withProperties ==> obj.status == STATUS_NORMAL)
    requires if obj.payload == [] then ValidStatus(obj.status) else obj.status == STATUS_NORMAL
    requires Has(s, i, BodyBytes(obj))
    ensures BodyAt(withProperties, s, i) == Ok((obj.status, obj.payload), i + |BodyBytes(obj)|)
  {
    hide Vi64At, Append, Len, Has, BytesAt, ValidStatus;
    var n := ToU64(|obj.payload|);
    HasSplit(s, i, Append(n), if obj.payload == [] then Append(obj.status) else obj.payload);
    AppendReads(n, s, i);
    if obj.payload == [] {
      AppendReads(obj.status, s, i + Len(n));
    } else {
      BytesRead(obj.payload, s, i + Len(n));
    }
  }

  lemma FieldsRead(version: Version, w: SubState, obj: SubgroupObject, s: Bytes, i: nat)
    requires Accepts(w, obj) && Storable(obj)
    requires Has(s, i, BlockBytes(w.header.hasProperties, obj.properties) + BodyBytes(obj))
    ensures if Readable(obj.properties, version)
            then FieldsAt(obj.objectId, w.header.hasProperties, version, s, i)
                 == Ok(Sent(obj), i + |BlockBytes(w.header.hasProperties, obj.properties) + BodyBytes(obj)|)
            else FieldsAt(obj.objectId, w.header.hasProperties, version, s, i).Err?
  {
    hide Has, AppendBlock, BodyBytes, BodyAt, PropertiesAt, Readable, Canonical, AppendPairs, SortedPairs, ValidStatus;
    var block := BlockBytes(w.header.hasProperties, obj.properties);
    HasSplit(s, i, block, BodyBytes(obj));
    SortKeepsCount(obj.properties);
    if w.header.hasProperties {
      BlockReads(obj.properties, version, s, i);
    } else {
      NothingCanonical(version);
    }
    if Readable(obj.properties, version) {
      BodyReads(obj, obj.properties != [], s, i + |block|);
    }
  }

  /** An Object the writer takes reads back as sent exactly when its Properties are readable,
      and leaves the two ends in agreement. */
  lemma ObjectReads(version: Version, w: SubState, r: SubState, obj: SubgroupObject, s: Bytes, i: nat)
    requires Agrees(r, w) && Accepts(w, obj) && Storable(obj)
    requires Has(s, i, ObjectBytes(w, obj))
    ensures Agrees(Advance(r, obj.objectId), Advance(w, obj.objectId))
    ensures if Readable(obj.properties, version)
            then NextObject(version, r, s, i) == Ok((Sent(obj), Advance(r, obj.objectId)), i + |ObjectBytes(w, obj)|)
            else NextObject(version, r, s, i).Err? && NextObject(version, r, s, i).error != Eof
  {
    hide Vi64At, Append, Len, Has, BlockBytes, BodyBytes, FieldsAt, Readable, Canonical, Storable;
    var delta := Delta(w, obj.objectId);
    HasSplit(s, i, Append(delta), BlockBytes(w.header.hasProperties, obj.properties) + BodyBytes(obj));
    AppendReads(delta, s, i);
    assert ResolveId(r, delta) == Success(obj.objectId);
    FieldsRead(version, w, obj, s, i + Len(delta));
  }

  /** A run of writes: the bytes, the Objects accepted, and the writer's state after it. */
  function WriteRun(st: SubState, objs: seq<SubgroupObject>): (Bytes, seq<SubgroupObject>, SubState)
    decreases |objs|
  {
    if objs == [] then ([], [], st)
    else if !Accepts(st, objs[0]) then WriteRun(st, objs[1..])
    else
      var (b, accepted, end) := WriteRun(Advance(st, objs[0].objectId), objs[1..]);
      (ObjectBytes(st, objs[0]) + b, [objs[0]] + accepted, end)
  }

  function SentAll(objs: seq<SubgroupObject>): (r: seq<SubgroupObject>)
    ensures |r| == |objs| && forall n | 0 <= n < |r| :: r[n] == Sent(objs[n])
  {
    seq(|objs|, n requires 0 <= n < |objs| => Sent(objs[n]))
  }

  /** The reader's state after Objects with these IDs. */
  function AdvanceAll(st: SubState, objs: seq<SubgroupObject>): SubState
    decreases |objs|
  {
    if objs == [] then st else AdvanceAll(Advance(st, objs[0].objectId), objs[1..])
  }

  ghost function Reading(version: Version): Step<SubState, SubgroupObject> {
    (st: SubState, s: Bytes, i: nat) => NextObject(version, st, s, i)
  }

  lemma ReadingSteps(version: Version)
    ensures Progress(Reading(version)) && CleanEnd(Reading(version)) && CutSafe(Reading(version), UnexpectedEof)
  {
    hide NextObject;
    var step := Reading(version);
    forall st, s, i: nat, k | step(st, s, i).Ok? && i <= k <= |s|
      ensures step(st, s[..k], i) ==
              if step(st, s, i).end <= k then step(st, s, i)
              else if k == i then Err(Eof) else Err(UnexpectedEof)
    {
      ObjectCut(version, st, s, i, k);
    }
  }

  /** Every Object from `i` to the end of the stream, and how it ended. */
  ghost function ReadFrom(version: Version, st: SubState, s: Bytes, i: nat): (seq<SubgroupObject>, Error) {
    ReadingSteps(version);
    ReadAll(Reading(version), st, s, i)
  }

  ghost predicate AllReadable(objs: seq<SubgroupObject>, version: Version) {
    forall obj | obj in objs :: Readable(obj.properties, version)
  }

  lemma AcceptedCons(obj: SubgroupObject, rest: seq<SubgroupObject>, version: Version)
    ensures AllReadable([obj] + rest, version) <==> Readable(obj.properties, version) && AllReadable(rest, version)
    ensures SentAll([obj] + rest) == [Sent(obj)] + SentAll(rest)
  {
    hide Readable, Sent;
    assert forall o :: o in [obj] + rest <==> o == obj || o in rest;
  }

  lemma NothingAccepted(version: Version)
    ensures AllReadable([], version) && SentAll([]) == []
  {
  }

  lemma {:induction false} RunReads(
      version: Version, w: SubState, r: SubState, objs: seq<SubgroupObject>, s: Bytes, i: nat)
    requires Agrees(r, w) && forall obj | obj in objs :: Storable(obj)
    requires Has(s, i, WriteRun(w, objs).0) && |s| == i + |WriteRun(w, objs).0|
    ensures var (_, accepted, end) := WriteRun(w, objs);
            && Agrees(AdvanceAll(r, accepted), end)
            && (AllReadable(accepted, version) ==> ReadFrom(version, r, s, i) == (SentAll(accepted), Eof))
            && (!AllReadable(accepted, version) ==> ReadFrom(version, r, s, i).1 != Eof)
    decreases |objs|
  {
    hide NextObject, Has, ObjectBytes, Storable, Readable, Accepts, Sent, Advance, Agrees, AllReadable, SentAll;
    ReadingSteps(version);
    if objs == [] {
      NothingAccepted(version);
      assert NextObject(version, r, s, i) == Err(Eof);
    } else if !Accepts(w, objs[0]) {
      RunReads(version, w, r, objs[1..], s, i);
    } else {
      var obj, id := objs[0], objs[0].objectId;
      var first, rest := ObjectBytes(w, obj), WriteRun(Advance(w, id), objs[1..]);
      HasSplit(s, i, first, rest.0);
      ObjectReads(version, w, r, obj, s, i);
      RunReads(version, Advance(w, id), Advance(r, id), objs[1..], s, i + |first|);
      var accepted := [obj] + rest.1;
      assert accepted[1..] == rest.1;
      AcceptedCons(obj, rest.1, version);
    }
  }

  /** What the first Object taught, at the end of a run. */
  lemma {:induction false} LearnedId(st: SubState, objs: seq<SubgroupObject>)
    requires objs != [] && st.header.mode.FirstObject? && !st.haveObject
    ensures AdvanceAll(st, objs).haveObject
    ensures AdvanceAll(st, objs).header == st.header.(subgroupId := objs[0].objectId)
  {
    KeepsId(Advance(st, objs[0].objectId), objs[1..]);
  }

  lemma {:induction false} KeepsId(st: SubState, objs: seq<SubgroupObject>)
    requires st.haveObject
    ensures AdvanceAll(st, objs).haveObject && AdvanceAll(st, objs).header == st.header
    decreases |objs|
  {
    if objs != [] {
      KeepsId(Advance(st, objs[0].objectId), objs[1..]);
    }
  }

  /** A header and then any run of writes: the stream classifies as a subgroup stream, its header
      parses, and the Objects the writer took are read back and nothing else, exactly when their
      Properties are legal and in Object scope. Under FirstObject both ends have learned the
      Subgroup ID from the first Object. */
  lemma StreamRoundTrip(version: Version, h: Header, objs: seq<SubgroupObject>)
    requires AppendHeader(h).Success? && forall obj | obj in objs :: Storable(obj)
    ensures var (body, accepted, end) := WriteRun(Begin(h), objs);
            var s, t, j := AppendHeader(h).value + body, StreamType(h), Len(StreamType(h));
            var k, r := |AppendHeader(h).value|, Begin(CanonHeader(h));
            && StreamTypeAt(s, 0) == Ok((t, SubgroupStream), j)
            && HeaderAt(t, s, j) == Ok(CanonHeader(h), k)
            && (ReadFrom(version, r, s, k) == (SentAll(accepted), Eof) <==> AllReadable(accepted, version))
            && (h.mode.FirstObject? && accepted != [] ==>
                  AdvanceAll(r, accepted).header.subgroupId == end.header.subgroupId == accepted[0].objectId)
  {
    hide AppendHeader, StreamTypeAt, HeaderAt, StreamType, Len, WriteRun, AdvanceAll, ReadFrom, AllReadable, SentAll;
    hide Storable;
    var (body, accepted, end) := WriteRun(Begin(h), objs);
    var head := AppendHeader(h).value;
    var s, r := head + body, Begin(CanonHeader(h));
    assert s[0..|s|] == s;
    assert Has(s, 0, s);
    hide Has;
    HasSplit(s, 0, head, body);
    HeaderRoundTrip(h, s, 0);
    RunReads(version, Begin(h), r, objs, s, |head|);
    if h.mode.FirstObject? && accepted != [] {
      LearnedId(r, accepted);
    }
  }

  // ---- On arbitrary bytes.

  ghost predicate Increasing(objs: seq<SubgroupObject>) {
    forall a, b | 0 <= a < b < |objs| :: objs[a].objectId < objs[b].objectId
  }

  /** Whatever the peer sends, the Object IDs read are strictly increasing: no delta wraps. */
  lemma {:induction false} IdsIncrease(version: Version, st: SubState, s: Bytes, i: nat)
    ensures Increasing(ReadFrom(version, st, s, i).0)
    ensures st.haveObject ==> AllAbove(st.prevObjectId, ReadFrom(version, st, s, i).0)
    decreases |s| - i
  {
    hide NextObject, Increasing, AllAbove;
    ReadingSteps(version);
    if NextObject(version, st, s, i).Ok? {
      var ((obj, next), j) := NextObject(version, st, s, i).Extract();
      var rest := ReadFrom(version, next, s, j).0;
      IdsIncrease(version, next, s, j);
      assert ReadFrom(version, st, s, i).0 == [obj] + rest;
      IncreasingCons(obj, rest);
      if st.haveObject {
        IdExceedsPrior(version, st, s, i);
        AboveCons(st.prevObjectId, obj, rest);
      }
    } else {
      NoneIncreasing(st.prevObjectId);
    }
  }

  ghost predicate AllAbove(id: U64, objs: seq<SubgroupObject>) {
    forall n | 0 <= n < |objs| :: id < objs[n].objectId
  }

  lemma NoneIncreasing(id: U64)
    ensures Increasing([]) && AllAbove(id, [])
  {
  }

  lemma IncreasingCons(obj: SubgroupObject, rest: seq<SubgroupObject>)
    requires Increasing(rest) && AllAbove(obj.objectId, rest)
    ensures Increasing([obj] + rest)
  {
    var all := [obj] + rest;
    assert forall n | 1 <= n < |all| :: all[n] == rest[n - 1];
  }

  lemma AboveCons(id: U64, obj: SubgroupObject, rest: seq<SubgroupObject>)
    requires id < obj.objectId && AllAbove(obj.objectId, rest)
    ensures AllAbove(id, [obj] + rest)
  {
    var all := [obj] + rest;
    assert forall n | 1 <= n < |all| :: all[n] == rest[n - 1];
  }

  lemma IdExceedsPrior(version: Version, st: SubState, s: Bytes, i: nat)
    requires NextObject(version, st, s, i).Ok? && st.haveObject
    ensures st.prevObjectId < NextObject(version, st, s, i).value.0.objectId
  {
    hide Vi64At, FieldsAt;
  }

  // ---- Truncation.

  lemma BodyCut(withProperties: bool, s: Bytes, i: nat, k: nat)
    requires BodyAt(withProperties, s, i).Ok? && i <= k <= |s|
    ensures BodyAt(withProperties, s[..k], i) ==
            if BodyAt(withProperties, s, i).end <= k then BodyAt(withProperties, s, i) else Err(UnexpectedEof)
  {
    hide Vi64At;
    Vi64Cut(s, i, k);
    var (length, j) := Vi64At(s, i).Extract();
    if j <= k {
      if length == 0 {
        Vi64Cut(s, j, k);
      } else if j + length <= k {
        SliceOfPrefix(s, k, j, j + length);
      }
    }
  }

  lemma ObjectCut(version: Version, st: SubState, s: Bytes, i: nat, k: nat)
    requires NextObject(version, st, s, i).Ok? && i <= k <= |s|
    ensures NextObject(version, st, s[..k], i) ==
            if NextObject(version, st, s, i).end <= k then NextObject(version, st, s, i)
            else if k == i then Err(Eof) else Err(UnexpectedEof)
  {
    hide Vi64At, BodyAt, PropertiesAt;
    Vi64Cut(s, i, k);
    var j := Vi64At(s, i).end;
    if j <= k {
      var present := st.header.hasProperties;
      if present {
        PropertiesCut(s, j, k, version);
      }
      var (properties, m) := BlockAt(present, version, s, j).Extract();
      if m <= k {
        BodyCut(properties != [], s, m, k);
      }
    }
  }

  ghost function Ends(version: Version, st: SubState, s: Bytes, i: nat): seq<nat> {
    ReadingSteps(version);
    Boundaries(Reading(version), st, s, i)
  }

  /** Cutting the Objects of a stream that reads cleanly, at any byte, yields exactly those wholly
      before the cut, then a clean end on a boundary and a truncation inside an Object. */
  lemma SubgroupTruncation(version: Version, st: SubState, s: Bytes, i: nat, k: nat) returns (n: nat)
    requires i <= k <= |s| && ReadFrom(version, st, s, i).1 == Eof
    ensures Splits(Ends(version, st, s, i), n, i, k)
    ensures |Ends(version, st, s, i)| == |ReadFrom(version, st, s, i).0|
    ensures ReadFrom(version, st, s[..k], i) ==
            (ReadFrom(version, st, s, i).0[..n], if k == i || k in Ends(version, st, s, i) then Eof else UnexpectedEof)
  {
    ReadingSteps(version);
    CutStream(Reading(version), UnexpectedEof, st, s, i, k);
    BeforeIsCount(Reading(version), st, s, i, k);
    n := Before(Reading(version), st, s, i, k);
  }

  /** A subgroup stream begins with a type, up to `j`, and its header, up to `m`. */
  predicate Headed(s: Bytes, t: U64, j: nat, h: Header, m: nat) {
    StreamTypeAt(s, 0) == Ok((t, SubgroupStream), j) && HeaderAt(t, s, j) == Ok(h, m)
  }

  /** And so for the whole stream, wherever it is cut: nothing at all is an end, a type or header cut short
      is malformed, and past the header the Objects before the cut arrive. */
  lemma StreamTruncation(version: Version, s: Bytes, t: U64, j: nat, h: Header, m: nat, k: nat) returns (n: nat)
    requires Headed(s, t, j, h, m) && ReadFrom(version, Begin(h), s, m).1 == Eof && k <= |s|
    ensures k == 0 ==> StreamTypeAt(s[..k], 0) == Err(Eof)
    ensures 0 < k < j ==> StreamTypeAt(s[..k], 0) == Err(Malformed(UnexpectedEof))
    ensures j <= k < m ==>
              StreamTypeAt(s[..k], 0) == StreamTypeAt(s, 0) && HeaderAt(t, s[..k], j) == Err(Malformed(UnexpectedEof))
    ensures m <= k ==>
              && Headed(s[..k], t, j, h, m) && Splits(Ends(version, Begin(h), s, m), n, m, k)
              && ReadFrom(version, Begin(h), s[..k], m) ==
                 (ReadFrom(version, Begin(h), s, m).0[..n],
                  if k == m || k in Ends(version, Begin(h), s, m) then Eof else UnexpectedEof)
  {
    hide StreamTypeAt, HeaderAt, ReadFrom, Ends;
    HeaderPastType(t, s, j);
    TypeCut(s, 0, k);
    n := 0;
    if j <= k {
      HeaderCut(t, s, j, k);
      if m <= k {
        n := SubgroupTruncation(version, Begin(h), s, m, k);
      }
    }
  }

  lemma HeaderPastType(t: U64, s: Bytes, j: nat)
    ensures StreamTypeAt(s, 0).Ok? ==> 0 < StreamTypeAt(s, 0).end
    ensures HeaderAt(t, s, j).Ok? ==> j < HeaderAt(t, s, j).end
  {
  }
}
