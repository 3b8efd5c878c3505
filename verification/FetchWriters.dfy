/** The FETCH stream writer, and the proof that what it writes is read back. */
module FetchWriters {
  import opened Wire
  import opened Vi64
  import opened KeyValuePairs
  import opened ObjectFields
  import opened FetchObjects
  import opened FetchForms
  import opened FetchStreams

  datatype WriterState = WriterState(
    order: GroupOrder, version: Version, havePrior: bool, groupId: U64, objectId: U64)

  /** The reader's view of the same stream, as far as the writer relies on it: it never lets
      a record inherit a Subgroup ID or a Priority. */
  function AsPrior(w: WriterState): Prior {
    Prior(w.order, w.version, w.havePrior, w.groupId, w.objectId, false, 0, 0)
  }

  predicate Agrees(st: Prior, w: WriterState) {
    st.(haveObject := false, subgroupId := 0, priority := 0) == AsPrior(w)
  }

  function Advance(w: WriterState, obj: FetchObject): WriterState {
    w.(havePrior := true, groupId := obj.groupId, objectId := obj.objectId)
  }

  /** Why a record cannot be written after the ones before it, if it cannot. */
  function Refusal(w: WriterState, obj: FetchObject): Result<()> {
    if obj.endOfRange != 0 then
      if !ValidEndOfRange(obj.endOfRange, w.version) then Failure(InvalidSerializationFlags)
      else if obj.payload != [] then Failure(EndOfRangeWithPayload)
      else Success(())
    else if !w.havePrior then Success(())
    else if obj.groupId == w.groupId then
      if obj.objectId <= w.objectId then Failure(ObjectIdNotIncreasing) else Success(())
    else if w.order.Descending? then
      if obj.groupId > w.groupId then Failure(GroupIdNotDescending) else Success(())
    else if obj.groupId < w.groupId then Failure(GroupIdNotAscending)
    else Success(())
  }

  predicate Accepts(w: WriterState, obj: FetchObject) {
    Refusal(w, obj).Success?
  }

  /** The one form the writer uses: relative inside a Group, absolute in a new one, all else explicit. */
  function WriterForm(w: WriterState, obj: FetchObject): (form: Form)
    ensures form.flags.mode < 4
  {
    var sameGroup := w.havePrior && obj.groupId == w.groupId;
    var flags := Flags(if obj.datagram || obj.subgroupId == 0 then 0 else 3,
                       true, !sameGroup, true, obj.properties != [], obj.datagram);
    var block := AppendPairs(SortedPairs(obj.properties), 0);
    var st := AsPrior(w);
    if obj.endOfRange != 0 then
      Form(flags, [], Len(obj.endOfRange), Len(obj.groupId), 0, Len(obj.objectId), 0, 0)
    else
      Form(flags, block, Len(FlagValue(flags)), Len(GroupDelta(st, obj.groupId)), Len(obj.subgroupId),
           Len(ObjectDelta(st, !sameGroup, obj.objectId)), Len(ToU64(|block|)), Len(ToU64(|obj.payload|)))
  }

  function WriterBytes(w: WriterState, obj: FetchObject): Bytes {
    var form := WriterForm(w, obj);
    if obj.endOfRange != 0 then Put(obj.endOfRange, form.flagsWidth) + IndicatorBytes(form, obj)
    else Put(FlagValue(form.flags), form.flagsWidth) + ObjectRecordBytes(AsPrior(w), form, obj)
  }

  class FetchWriter {
    const order: GroupOrder
    const version: Version
    var priorGroupID: U64
    var priorObjectID: U64
    var havePrior: bool

    constructor (order: U8, version: Version)
      ensures State() == WriterState(OrderOf(order), version, false, 0, 0)
    {
      this.order, this.version := OrderOf(order), version;
      priorGroupID, priorObjectID, havePrior := 0, 0, false;
    }

    function State(): WriterState
      reads this
    {
      WriterState(order, version, havePrior, priorGroupID, priorObjectID)
    }

    /** Extends `buf` with the record, or refuses it and leaves the state as it was. */
    method AppendObject(buf: Bytes, obj: FetchObject) returns (res: Result<Bytes>)
      modifies this
      ensures match Refusal(old(State()), obj)
              case Success(_) => res == Success(buf + WriterBytes(old(State()), obj))
                                 && State() == Advance(old(State()), obj)
              case Failure(e) => res == Failure(e) && State() == old(State())
    {
      hide Append, Put, AppendPairs, Len;
      if obj.endOfRange != 0 {
        res := AppendEndOfRange(buf, obj);
        return;
      }
      ghost var w := State();
      var sameGroup := havePrior && obj.groupId == priorGroupID;
      var flags := Flags(if obj.datagram || obj.subgroupId == 0 then 0 else 3,
                         true, !sameGroup, true, obj.properties != [], obj.datagram);
      var out := buf + Append(FlagValue(flags));
      ghost var group := if sameGroup then [] else Append(GroupDelta(AsPrior(w), obj.groupId));
      if !sameGroup {
        var delta :- DeltaOfGroup(obj.groupId);
        out := out + Append(delta);
      }
      assert out == buf + Append(FlagValue(flags)) + group;
      ghost var subgroup := if flags.mode == 3 then Append(obj.subgroupId) else [];
      if !obj.datagram && obj.subgroupId != 0 {
        out := out + Append(obj.subgroupId);
      }
      assert out == buf + Append(FlagValue(flags)) + group + subgroup;
      if sameGroup {
        if obj.objectId <= priorObjectID {
          return Failure(ObjectIdNotIncreasing);
        }
        out := out + Append(obj.objectId - priorObjectID);
      } else {
        out := out + Append(obj.objectId);
      }
      out := out + [obj.priority];
      ghost var block := if flags.properties then AppendBlock(obj.properties) else [];
      ghost var soFar := out;
      if obj.properties != [] {
        out := AppendLength(out, obj.properties);
      }
      assert out == soFar + block;
      out := out + Append(ToU64(|obj.payload|));
      out := out + obj.payload;
      WrittenInOrder(w, obj, buf, group, subgroup, block);
      RememberLocation(obj.groupId, obj.objectId);
      return Success(out);
    }

    method AppendEndOfRange(buf: Bytes, obj: FetchObject) returns (res: Result<Bytes>)
      requires obj.endOfRange != 0
      modifies this
      ensures match Refusal(old(State()), obj)
              case Success(_) => res == Success(buf + WriterBytes(old(State()), obj))
                                 && State() == Advance(old(State()), obj)
              case Failure(e) => res == Failure(e) && State() == old(State())
    {
      hide Put, Len;
      if !ValidEndOfRange(obj.endOfRange, version) {
        return Failure(InvalidSerializationFlags);
      }
      if |obj.payload| > 0 {
        return Failure(EndOfRangeWithPayload);
      }
      var out := buf + Append(obj.endOfRange);
      out := out + Append(obj.groupId);
      out := out + Append(obj.objectId);
      assert out == buf + WriterBytes(old(State()), obj);
      RememberLocation(obj.groupId, obj.objectId);
      return Success(out);
    }

    method DeltaOfGroup(groupId: U64) returns (res: Result<U64>)
      requires !(havePrior && groupId == priorGroupID)
      ensures res == if !havePrior then Success(groupId)
                     else if order.Descending? && groupId > priorGroupID then Failure(GroupIdNotDescending)
                     else if order.Ascending? && groupId < priorGroupID then Failure(GroupIdNotAscending)
                     else Success(GroupDelta(AsPrior(State()), groupId))
    {
      if !havePrior {
        return Success(groupId);
      }
      if order.Descending? {
        if groupId >= priorGroupID {
          return Failure(GroupIdNotDescending);
        }
        return Success(priorGroupID - groupId - 1);
      }
      if groupId <= priorGroupID {
        return Failure(GroupIdNotAscending);
      }
      return Success(groupId - priorGroupID - 1);
    }

    method RememberLocation(groupId: U64, objectId: U64)
      modifies this
      ensures State() == old(State()).(havePrior := true, groupId := groupId, objectId := objectId)
    {
      priorGroupID := groupId;
      priorObjectID := objectId;
      havePrior := true;
    }
  }

  /** The writer's bytes as the flat run of appends that produces them. */
  lemma WrittenInOrder(w: WriterState, obj: FetchObject, buf: Bytes, group: Bytes, subgroup: Bytes, block: Bytes)
    requires obj.endOfRange == 0
    requires var f := WriterForm(w, obj).flags;
             && group == (if f.groupDelta then Append(GroupDelta(AsPrior(w), obj.groupId)) else [])
             && subgroup == (if f.mode == 3 then Append(obj.subgroupId) else [])
             && block == (if f.properties then AppendBlock(obj.properties) else [])
    ensures var f := WriterForm(w, obj).flags;
            buf + WriterBytes(w, obj) ==
            buf + Append(FlagValue(f)) + group + subgroup
            + Append(ObjectDelta(AsPrior(w), f.groupDelta, obj.objectId))
            + [obj.priority] + block + Append(ToU64(|obj.payload|)) + obj.payload
  {
    hide Put, AppendPairs, FlagValue, GroupDelta, ObjectDelta, Len;
    var form := WriterForm(w, obj);
    var payload := StringBytes(form.payloadWidth, obj.payload);
    assert PropertiesBytes(form.flags.properties, form.blockWidth, form.block) == block;
    Associate(buf, Append(FlagValue(form.flags)), group, subgroup,
              Append(ObjectDelta(AsPrior(w), form.flags.groupDelta, obj.objectId)), [obj.priority], block, payload);
    Associate3(buf + Append(FlagValue(form.flags)) + group + subgroup
               + Append(ObjectDelta(AsPrior(w), form.flags.groupDelta, obj.objectId)) + [obj.priority] + block,
               Append(ToU64(|obj.payload|)), obj.payload);
  }

  lemma Associate(a: Bytes, b: Bytes, c: Bytes, d: Bytes, e: Bytes, f: Bytes, g: Bytes, h: Bytes)
    ensures a + (b + (c + (d + (e + (f + (g + h)))))) == a + b + c + d + e + f + g + h
  {
  }

  lemma Associate3(a: Bytes, b: Bytes, c: Bytes)
    ensures a + (b + c) == a + b + c
  {
  }

  // ---- What the writer writes, the reader reads.

  /** The lengths on the wire can hold the record. */
  predicate Storable(obj: FetchObject) {
    && Addressable(obj.properties)
    && |AppendPairs(SortedPairs(obj.properties), 0)| < TWO_64
    && |obj.payload| < TWO_64
  }

  /** The writer does not check Properties; the reader does. */
  predicate ReadableRecord(obj: FetchObject, version: Version) {
    obj.endOfRange != 0 || Readable(obj.properties, version)
  }

  /** The record as it is on the wire: an indicator carries only its Location, a Datagram no
      Subgroup ID, and Properties are stably sorted by Type. */
  function Sent(obj: FetchObject): FetchObject {
    if obj.endOfRange != 0 then Indicator(obj.endOfRange, obj.groupId, obj.objectId)
    else obj.(properties := Canonical(obj.properties), subgroupId := if obj.datagram then 0 else obj.subgroupId)
  }

  lemma WriterFormPermitted(w: WriterState, obj: FetchObject, st: Prior)
    requires Agrees(st, w) && Accepts(w, obj) && Storable(obj) && ReadableRecord(obj, w.version)
    ensures Permitted(st, WriterForm(w, obj), Sent(obj))
    ensures Encode(st, WriterForm(w, obj), Sent(obj)) == WriterBytes(w, obj)
    ensures Agrees(Remember(st, Sent(obj)), Advance(w, obj))
  {
    hide Put, AppendPairs, FlagValue, Len, Fits, Canonical, ParseProperties, Readable;
    ZeroFits(Len(obj.subgroupId));
    if obj.endOfRange == 0 {
      BlockParses(obj.properties, w.version);
      if obj.properties == [] {
        NothingCanonical(w.version);
      }
    }
  }

  lemma ZeroFits(w: nat)
    requires 1 <= w <= 9
    ensures Fits(0, w)
  {
  }

  /** A record whose Properties are out of scope or too long fails to read. */
  lemma UnreadableFails(w: WriterState, obj: FetchObject, st: Prior, s: Bytes, i: nat)
    requires Agrees(st, w) && Accepts(w, obj) && Storable(obj) && !ReadableRecord(obj, w.version)
    requires Has(s, i, WriterBytes(w, obj))
    ensures NextRecord(st, s, i).Err? && NextRecord(st, s, i).error != Eof
  {
    hide Put, Has, AppendPairs, FlagValue, FlagsOf, Len, Fits, Vi64At, ObjectRecordAt, ObjectRecordBytes, Readable;
    var form := WriterForm(w, obj);
    var v := FlagValue(form.flags);
    HasSplit(s, i, Put(v, form.flagsWidth), ObjectRecordBytes(AsPrior(w), form, obj));
    PutReads(v, form.flagsWidth, s, i);
    FlagsRead(form.flags);
    UnreadableFieldsFail(w, obj, st, s, i + form.flagsWidth);
  }

  lemma UnreadableFieldsFail(w: WriterState, obj: FetchObject, st: Prior, s: Bytes, i: nat)
    requires Agrees(st, w) && Accepts(w, obj) && Storable(obj) && !ReadableRecord(obj, w.version)
    requires Has(s, i, ObjectRecordBytes(AsPrior(w), WriterForm(w, obj), obj))
    ensures ObjectRecordAt(st, WriterForm(w, obj).flags, s, i).Err?
  {
    hide Put, Has, AppendPairs, FlagValue, Len, Fits, Vi64At, StringBytes, ByteStringAt, ParseProperties, Canonical;
    hide GroupAt, SubgroupAt, ObjectAt, PriorityAt, GroupBytes, SubgroupBytes, ObjectBytes;
    var form := WriterForm(w, obj);
    var f, p := form.flags, AsPrior(w);
    var b1 := GroupBytes(p, f.groupDelta, form.groupWidth, obj.groupId);
    var b2 := SubgroupBytes(f.mode, f.datagram, form.subgroupWidth, obj.subgroupId);
    var b3 := ObjectBytes(p, f.groupDelta, true, form.objectWidth, obj.objectId);
    var b4 := PriorityBytes(true, obj.priority);
    var b5 := StringBytes(form.blockWidth, form.block);
    var b6 := StringBytes(form.payloadWidth, obj.payload);
    assert obj.properties != [];
    HasSplit(s, i, b1, b2 + (b3 + (b4 + (b5 + b6))));
    HasSplit(s, i + |b1|, b2, b3 + (b4 + (b5 + b6)));
    HasSplit(s, i + |b1| + |b2|, b3, b4 + (b5 + b6));
    HasSplit(s, i + |b1| + |b2| + |b3|, b4, b5 + b6);
    HasSplit(s, i + |b1| + |b2| + |b3| + |b4|, b5, b6);
    FieldsBeforePropertiesRead(w, obj, st, s, i);
    StringReads(form.blockWidth, form.block, s, i + |b1| + |b2| + |b3| + |b4|);
    BlockParses(obj.properties, w.version);
  }

  lemma FieldsBeforePropertiesRead(w: WriterState, obj: FetchObject, st: Prior, s: Bytes, i: nat)
    requires Agrees(st, w) && Accepts(w, obj) && obj.endOfRange == 0
    requires var form := WriterForm(w, obj);
             var f, p := form.flags, AsPrior(w);
             var b1 := GroupBytes(p, f.groupDelta, form.groupWidth, obj.groupId);
             var b2 := SubgroupBytes(f.mode, f.datagram, form.subgroupWidth, obj.subgroupId);
             var b3 := ObjectBytes(p, f.groupDelta, true, form.objectWidth, obj.objectId);
             && Has(s, i, b1) && Has(s, i + |b1|, b2) && Has(s, i + |b1| + |b2|, b3)
             && Has(s, i + |b1| + |b2| + |b3|, [obj.priority])
    ensures var form := WriterForm(w, obj);
            var f, p := form.flags, AsPrior(w);
            var i1 := i + |GroupBytes(p, f.groupDelta, form.groupWidth, obj.groupId)|;
            var i2 := i1 + |SubgroupBytes(f.mode, f.datagram, form.subgroupWidth, obj.subgroupId)|;
            var i3 := i2 + |ObjectBytes(p, f.groupDelta, true, form.objectWidth, obj.objectId)|;
            && GroupAt(st, f.groupDelta, s, i) == Ok(obj.groupId, i1)
            && SubgroupAt(st, f.mode, f.datagram, s, i1) == Ok(Sent(obj).subgroupId, i2)
            && ObjectAt(st, f.groupDelta, true, s, i2) == Ok(obj.objectId, i3)
            && PriorityAt(st, true, s, i3) == Ok(obj.priority, i3 + 1)
  {
    hide Put, Has, AppendPairs, FlagValue, Len, Vi64At, Canonical;
    var form := WriterForm(w, obj);
    var f := form.flags;
    var i1 := i + |GroupBytes(st, f.groupDelta, form.groupWidth, obj.groupId)|;
    var i2 := i1 + |SubgroupBytes(f.mode, f.datagram, form.subgroupWidth, obj.subgroupId)|;
    var i3 := i2 + |ObjectBytes(st, f.groupDelta, true, form.objectWidth, obj.objectId)|;
    GroupReads(st, f.groupDelta, form.groupWidth, obj.groupId, s, i);
    SubgroupReads(st, f.mode, f.datagram, form.subgroupWidth, Sent(obj).subgroupId, s, i1);
    ObjectReads(st, f.groupDelta, true, form.objectWidth, obj.objectId, s, i2);
    PriorityReads(st, true, obj.priority, s, i3);
  }

  /** A run of writes: the bytes produced and the records accepted. A refused record adds nothing. */
  function WriteRun(w: WriterState, objs: seq<FetchObject>): (Bytes, seq<FetchObject>)
    decreases |objs|
  {
    if objs == [] then ([], [])
    else if !Accepts(w, objs[0]) then WriteRun(w, objs[1..])
    else
      var (b, accepted) := WriteRun(Advance(w, objs[0]), objs[1..]);
      (WriterBytes(w, objs[0]) + b, [objs[0]] + accepted)
  }

  function SentAll(objs: seq<FetchObject>): (r: seq<FetchObject>)
    ensures |r| == |objs|
  {
    seq(|objs|, n requires 0 <= n < |objs| => Sent(objs[n]))
  }

  ghost predicate AllReadable(objs: seq<FetchObject>, version: Version) {
    forall obj | obj in objs :: ReadableRecord(obj, version)
  }

  lemma AcceptedCons(obj: FetchObject, rest: seq<FetchObject>, version: Version)
    ensures AllReadable([obj] + rest, version) <==> ReadableRecord(obj, version) && AllReadable(rest, version)
    ensures SentAll([obj] + rest) == [Sent(obj)] + SentAll(rest)
  {
    hide ReadableRecord, Sent;
    assert forall o :: o in [obj] + rest <==> o == obj || o in rest;
  }

  lemma NothingAccepted(version: Version)
    ensures AllReadable([], version) && SentAll([]) == []
  {
  }

  lemma {:induction false} RunReads(w: WriterState, objs: seq<FetchObject>, st: Prior, s: Bytes, i: nat)
    requires Agrees(st, w) && forall obj | obj in objs :: Storable(obj)
    requires Has(s, i, WriteRun(w, objs).0) && |s| == i + |WriteRun(w, objs).0|
    ensures AllReadable(WriteRun(w, objs).1, w.version) ==>
              ReadFrom(st, s, i) == (SentAll(WriteRun(w, objs).1), Eof)
    ensures !AllReadable(WriteRun(w, objs).1, w.version) ==> ReadFrom(st, s, i).1 != Eof
    decreases |objs|
  {
    hide NextRecord, Has, WriterBytes, Encode, Permitted, Storable, ReadableRecord, Accepts, Sent, Remember;
    hide AllReadable, SentAll, Agrees;
    FetchSteps();
    if objs == [] {
      NothingAccepted(w.version);
      assert NextRecord(st, s, i) == Err(Eof);
    } else if !Accepts(w, objs[0]) {
      RunReads(w, objs[1..], st, s, i);
    } else {
      var obj, next := objs[0], Advance(w, objs[0]);
      var first, rest := WriterBytes(w, obj), WriteRun(next, objs[1..]);
      HasSplit(s, i, first, rest.0);
      AcceptedCons(obj, rest.1, w.version);
      if ReadableRecord(obj, w.version) {
        WriterFormPermitted(w, obj, st);
        FormReads(st, WriterForm(w, obj), Sent(obj), s, i);
        RunReads(next, objs[1..], Remember(st, Sent(obj)), s, i + |first|);
      } else {
        UnreadableFails(w, obj, st, s, i);
      }
    }
  }

  /** Any run of writes, in either Group Order and either draft, reads back as the records accepted
      if and only if their Properties are legal and in Object scope. */
  lemma WriterRoundTrip(order: GroupOrder, version: Version, objs: seq<FetchObject>)
    requires forall obj | obj in objs :: Storable(obj)
    ensures var (bytes, accepted) := WriteRun(WriterState(order, version, false, 0, 0), objs);
            ReadFrom(Start(order, version), bytes, 0) == (SentAll(accepted), Eof) <==> AllReadable(accepted, version)
  {
    hide NextRecord;
    var w := WriterState(order, version, false, 0, 0);
    var bytes := WriteRun(w, objs).0;
    assert bytes[0..|bytes|] == bytes;
    RunReads(w, objs, Start(order, version), bytes, 0);
  }

  /** What the writer takes: Groups strictly in order, Object IDs strictly increasing inside one,
      and any indicator its draft defines. */
  lemma AcceptsExactly(w: WriterState, obj: FetchObject)
    ensures Accepts(w, obj) <==>
            if obj.endOfRange != 0 then ValidEndOfRange(obj.endOfRange, w.version) && obj.payload == []
            else !w.havePrior
                 || (obj.groupId == w.groupId && obj.objectId > w.objectId)
                 || (if w.order.Descending? then obj.groupId < w.groupId else obj.groupId > w.groupId)
  {
  }
}
