/** Every way a FETCH record can be written, and the proof that the reader accepts
    exactly those and resolves each to the record intended.

    A form says which fields are on the wire and how wide each integer is. Which
    forms a record permits depends on the records before it. */
module FetchForms {
  import opened Wire
  import opened Vi64
  import opened KeyValuePairs
  import opened ObjectFields
  import opened FetchObjects

  /** `block` is the Properties block as it stands on the wire. */
  datatype Form = Form(
    flags: Flags, block: Bytes,
    flagsWidth: nat, groupWidth: nat, subgroupWidth: nat, objectWidth: nat, blockWidth: nat, payloadWidth: nat)

  function FlagValue(f: Flags): (v: U64)
    requires f.mode < 4
    ensures v <= FLAGS_MAX
  {
    f.mode + Bit(f.objectDelta, 4) + Bit(f.groupDelta, 8) + Bit(f.priority, 16)
    + Bit(f.properties, 32) + Bit(f.datagram, 64)
  }

  // ---- The rule for each field: when it may be left out, and what is written when it is not.

  /** Leaving the Group ID Delta out keeps the Group; writing one moves at least one Group in the Group Order. */
  predicate GroupPermitted(st: Prior, present: bool, v: U64) {
    if !present then v == st.groupId
    else st.havePrior ==> if st.order.Descending? then v < st.groupId else st.groupId < v
  }

  function GroupDelta(st: Prior, v: U64): U64 {
    if !st.havePrior then v
    else if st.order.Descending? then (st.groupId - v - 1) % TWO_64
    else (v - st.groupId - 1) % TWO_64
  }

  predicate SubgroupPermitted(st: Prior, mode: nat, datagram: bool, v: U64) {
    if datagram || mode == 0 then v == 0
    else mode == 3 || (st.haveObject && v == if mode == 1 then st.subgroupId else st.subgroupId + 1)
  }

  /** Leaving the Object ID Delta out means one past the prior Location's, also in a new Group. */
  predicate ObjectPermitted(st: Prior, groupPresent: bool, present: bool, v: U64) {
    if !present then v == st.objectId + 1 else groupPresent || st.objectId <= v
  }

  function ObjectDelta(st: Prior, groupPresent: bool, v: U64): U64 {
    if groupPresent then v else WrapSub(v, st.objectId)
  }

  predicate PriorityPermitted(st: Prior, present: bool, v: U8) {
    present || (st.haveObject && v == st.priority)
  }

  predicate PropertiesPermitted(st: Prior, present: bool, block: Bytes, list: KVPList) {
    if present then |block| < TWO_64 && ParseProperties(block, st.version) == Success(list) else list == []
  }

  /** The first record must say where it is; nothing can be inherited from before it. */
  predicate Permitted(st: Prior, form: Form, obj: FetchObject) {
    var f := form.flags;
    if obj.endOfRange != 0 then
      && obj == Indicator(obj.endOfRange, obj.groupId, obj.objectId)
      && ValidEndOfRange(obj.endOfRange, st.version)
      && Fits(obj.endOfRange, form.flagsWidth)
      && Fits(obj.groupId, form.groupWidth)
      && Fits(obj.objectId, form.objectWidth)
    else
      && f.mode < 4 && f.datagram == obj.datagram && Fits(FlagValue(f), form.flagsWidth)
      && (st.havePrior || (f.groupDelta && f.objectDelta))
      && GroupPermitted(st, f.groupDelta, obj.groupId)
      && (f.groupDelta ==> Fits(GroupDelta(st, obj.groupId), form.groupWidth))
      && SubgroupPermitted(st, f.mode, f.datagram, obj.subgroupId)
      && Fits(obj.subgroupId, form.subgroupWidth)
      && ObjectPermitted(st, f.groupDelta, f.objectDelta, obj.objectId)
      && (f.objectDelta ==> Fits(ObjectDelta(st, f.groupDelta, obj.objectId), form.objectWidth))
      && PriorityPermitted(st, f.priority, obj.priority)
      && PropertiesPermitted(st, f.properties, form.block, obj.properties)
      && (f.properties ==> Fits(ToU64(|form.block|), form.blockWidth))
      && |obj.payload| < TWO_64 && Fits(ToU64(|obj.payload|), form.payloadWidth)
  }

  // ---- The bytes of each field.

  function GroupBytes(st: Prior, present: bool, w: nat, v: U64): Bytes {
    if present then Put(GroupDelta(st, v), w) else []
  }

  function SubgroupBytes(mode: nat, datagram: bool, w: nat, v: U64): Bytes {
    if !datagram && mode == 3 then Put(v, w) else []
  }

  function ObjectBytes(st: Prior, groupPresent: bool, present: bool, w: nat, v: U64): Bytes {
    if present then Put(ObjectDelta(st, groupPresent, v), w) else []
  }

  function PriorityBytes(present: bool, v: U8): Bytes {
    if present then [v] else []
  }

  function StringBytes(w: nat, b: Bytes): Bytes {
    Put(ToU64(|b|), w) + b
  }

  function PropertiesBytes(present: bool, w: nat, block: Bytes): Bytes {
    if present then StringBytes(w, block) else []
  }

  /** The fields of a real Object, grouped from the last so that each can be peeled off the front. */
  function ObjectRecordBytes(st: Prior, form: Form, obj: FetchObject): Bytes {
    var f := form.flags;
    GroupBytes(st, f.groupDelta, form.groupWidth, obj.groupId)
    + (SubgroupBytes(f.mode, f.datagram, form.subgroupWidth, obj.subgroupId)
       + (ObjectBytes(st, f.groupDelta, f.objectDelta, form.objectWidth, obj.objectId)
          + (PriorityBytes(f.priority, obj.priority)
             + (PropertiesBytes(f.properties, form.blockWidth, form.block)
                + StringBytes(form.payloadWidth, obj.payload)))))
  }

  function IndicatorBytes(form: Form, obj: FetchObject): Bytes {
    Put(obj.groupId, form.groupWidth) + Put(obj.objectId, form.objectWidth)
  }

  function Encode(st: Prior, form: Form, obj: FetchObject): Bytes
    requires Permitted(st, form, obj)
  {
    if obj.endOfRange != 0 then Put(obj.endOfRange, form.flagsWidth) + IndicatorBytes(form, obj)
    else Put(FlagValue(form.flags), form.flagsWidth) + ObjectRecordBytes(st, form, obj)
  }

  // ---- Each field reads back.

  lemma FlagsRead(f: Flags)
    requires f.mode < 4
    ensures FlagsOf(FlagValue(f)) == f
  {
    var v := FlagValue(f);
    var r5 := Bit(f.datagram, 1);
    var r4 := Bit(f.properties, 1) + 2 * r5;
    var r3 := Bit(f.priority, 1) + 2 * r4;
    var r2 := Bit(f.groupDelta, 1) + 2 * r3;
    var r1 := Bit(f.objectDelta, 1) + 2 * r2;
    LowTwoBits(v, f.mode, r1);
    hide FlagValue, Bit;
    Halves(v);
    LowBit(r1, f.objectDelta, r2);
    LowBit(r2, f.groupDelta, r3);
    LowBit(r3, f.priority, r4);
    LowBit(r4, f.properties, r5);
    assert r5 == Bit(f.datagram, 1) + 2 * 0;
    LowBit(r5, f.datagram, 0);
  }

  lemma LowTwoBits(v: nat, low: nat, rest: nat)
    requires low < 4 && v == low + 4 * rest
    ensures v % 4 == low && v / 4 == rest
  {
  }

  lemma FlagsBack(v: U64)
    requires v <= FLAGS_MAX
    ensures FlagValue(FlagsOf(v)) == v
  {
    Halves(v);
    ParityBit(v / 4, 4);
    ParityBit(v / 8, 8);
    ParityBit(v / 16, 16);
    ParityBit(v / 32, 32);
    ParityBit(v / 64, 64);
    hide Bit;
    assert v / 64 == v / 64 % 2;
  }

  lemma ParityBit(x: nat, weight: U8)
    ensures Bit(x % 2 == 1, weight) == weight * (x % 2)
  {
  }

  lemma GroupReads(st: Prior, present: bool, w: nat, v: U64, s: Bytes, i: nat)
    requires GroupPermitted(st, present, v) && (present ==> Fits(GroupDelta(st, v), w))
    requires Has(s, i, GroupBytes(st, present, w, v))
    ensures GroupAt(st, present, s, i) == Ok(v, i + |GroupBytes(st, present, w, v)|)
  {
    hide Vi64At, Put;
    if present {
      PutReads(GroupDelta(st, v), w, s, i);
    }
  }

  lemma SubgroupReads(st: Prior, mode: nat, datagram: bool, w: nat, v: U64, s: Bytes, i: nat)
    requires mode < 4 && SubgroupPermitted(st, mode, datagram, v) && Fits(v, w)
    requires Has(s, i, SubgroupBytes(mode, datagram, w, v))
    ensures SubgroupAt(st, mode, datagram, s, i) == Ok(v, i + |SubgroupBytes(mode, datagram, w, v)|)
  {
    hide Vi64At, Put;
    if !datagram && mode == 3 {
      PutReads(v, w, s, i);
    }
  }

  lemma ObjectReads(st: Prior, groupPresent: bool, present: bool, w: nat, v: U64, s: Bytes, i: nat)
    requires ObjectPermitted(st, groupPresent, present, v)
    requires present ==> Fits(ObjectDelta(st, groupPresent, v), w)
    requires Has(s, i, ObjectBytes(st, groupPresent, present, w, v))
    ensures ObjectAt(st, groupPresent, present, s, i) == Ok(v, i + |ObjectBytes(st, groupPresent, present, w, v)|)
  {
    hide Vi64At, Put;
    if present {
      PutReads(ObjectDelta(st, groupPresent, v), w, s, i);
    }
  }

  lemma PriorityReads(st: Prior, present: bool, v: U8, s: Bytes, i: nat)
    requires PriorityPermitted(st, present, v) && Has(s, i, PriorityBytes(present, v))
    ensures PriorityAt(st, present, s, i) == Ok(v, i + |PriorityBytes(present, v)|)
  {
    assert present ==> s[i..i + 1][0] == s[i];
  }

  lemma StringReads(w: nat, b: Bytes, s: Bytes, i: nat)
    requires |b| < TWO_64 && Fits(ToU64(|b|), w) && Has(s, i, StringBytes(w, b))
    ensures ByteStringAt(s, i, 0) == Ok(b, i + |StringBytes(w, b)|)
  {
    hide Vi64At, Put;
    HasSplit(s, i, Put(ToU64(|b|), w), b);
    PutReads(ToU64(|b|), w, s, i);
  }

  lemma PropertiesRead(st: Prior, present: bool, w: nat, block: Bytes, list: KVPList, s: Bytes, i: nat)
    requires PropertiesPermitted(st, present, block, list) && (present ==> Fits(ToU64(|block|), w))
    requires Has(s, i, PropertiesBytes(present, w, block))
    ensures OptionalPropertiesAt(st, present, s, i) == Ok(list, i + |PropertiesBytes(present, w, block)|)
  {
    hide ByteStringAt, ParseProperties;
    if present {
      StringReads(w, block, s, i);
    }
  }

  /** The last three fields of a real Object, read one after another. */
  lemma TailReads(st: Prior, form: Form, obj: FetchObject, s: Bytes, i: nat)
    requires Permitted(st, form, obj) && obj.endOfRange == 0
    requires Has(s, i, PriorityBytes(form.flags.priority, obj.priority)
                       + (PropertiesBytes(form.flags.properties, form.blockWidth, form.block)
                          + StringBytes(form.payloadWidth, obj.payload)))
    ensures var f := form.flags;
            var i1 := i + |PriorityBytes(f.priority, obj.priority)|;
            var i2 := i1 + |PropertiesBytes(f.properties, form.blockWidth, form.block)|;
            && PriorityAt(st, f.priority, s, i) == Ok(obj.priority, i1)
            && OptionalPropertiesAt(st, f.properties, s, i1) == Ok(obj.properties, i2)
            && PayloadAt(s, i2) == Ok(obj.payload, i2 + |StringBytes(form.payloadWidth, obj.payload)|)
  {
    hide Has, PriorityBytes, PropertiesBytes, StringBytes, GroupPermitted, SubgroupPermitted, ObjectPermitted;
    hide PriorityPermitted, PropertiesPermitted, PriorityAt, OptionalPropertiesAt, ByteStringAt, Fits, FlagValue;
    var f := form.flags;
    var b1 := PriorityBytes(f.priority, obj.priority);
    var b2 := PropertiesBytes(f.properties, form.blockWidth, form.block);
    var b3 := StringBytes(form.payloadWidth, obj.payload);
    HasSplit(s, i, b1, b2 + b3);
    HasSplit(s, i + |b1|, b2, b3);
    PriorityReads(st, f.priority, obj.priority, s, i);
    PropertiesRead(st, f.properties, form.blockWidth, form.block, obj.properties, s, i + |b1|);
    StringReads(form.payloadWidth, obj.payload, s, i + |b1| + |b2|);
  }

  lemma ObjectRecordReads(st: Prior, form: Form, obj: FetchObject, s: Bytes, i: nat)
    requires Permitted(st, form, obj) && obj.endOfRange == 0
    requires Has(s, i, ObjectRecordBytes(st, form, obj))
    ensures ObjectRecordAt(st, form.flags, s, i) == Ok(obj, i + |ObjectRecordBytes(st, form, obj)|)
  {
    hide Has, GroupBytes, SubgroupBytes, ObjectBytes, PriorityBytes, PropertiesBytes, StringBytes;
    hide GroupPermitted, SubgroupPermitted, ObjectPermitted, PriorityPermitted, PropertiesPermitted;
    hide GroupAt, SubgroupAt, ObjectAt, PriorityAt, OptionalPropertiesAt, PayloadAt;
    hide Fits, FlagValue, GroupDelta, ObjectDelta;
    var f := form.flags;
    var b1 := GroupBytes(st, f.groupDelta, form.groupWidth, obj.groupId);
    var b2 := SubgroupBytes(f.mode, f.datagram, form.subgroupWidth, obj.subgroupId);
    var b3 := ObjectBytes(st, f.groupDelta, f.objectDelta, form.objectWidth, obj.objectId);
    var tail := PriorityBytes(f.priority, obj.priority)
                + (PropertiesBytes(f.properties, form.blockWidth, form.block) + StringBytes(form.payloadWidth, obj.payload));
    HasSplit(s, i, b1, b2 + (b3 + tail));
    var i1 := i + |b1|;
    HasSplit(s, i1, b2, b3 + tail);
    var i2 := i1 + |b2|;
    HasSplit(s, i2, b3, tail);
    GroupReads(st, f.groupDelta, form.groupWidth, obj.groupId, s, i);
    SubgroupReads(st, f.mode, f.datagram, form.subgroupWidth, obj.subgroupId, s, i1);
    ObjectReads(st, f.groupDelta, f.objectDelta, form.objectWidth, obj.objectId, s, i2);
    TailReads(st, form, obj, s, i2 + |b3|);
  }

  /** A record written in any form its place in the stream permits is read back as the record intended. */
  lemma FormReads(st: Prior, form: Form, obj: FetchObject, s: Bytes, i: nat)
    requires Permitted(st, form, obj) && Has(s, i, Encode(st, form, obj))
    ensures NextRecord(st, s, i) == Ok((obj, Remember(st, obj)), i + |Encode(st, form, obj)|)
  {
    hide Vi64At, Put, Has, ObjectRecordBytes, ObjectRecordAt, FlagValue, FlagsOf;
    if obj.endOfRange != 0 {
      var b1, b2 := Put(obj.groupId, form.groupWidth), Put(obj.objectId, form.objectWidth);
      HasSplit(s, i, Put(obj.endOfRange, form.flagsWidth), b1 + b2);
      HasSplit(s, i + form.flagsWidth, b1, b2);
      PutReads(obj.endOfRange, form.flagsWidth, s, i);
      PutReads(obj.groupId, form.groupWidth, s, i + form.flagsWidth);
      PutReads(obj.objectId, form.objectWidth, s, i + form.flagsWidth + form.groupWidth);
    } else {
      var v := FlagValue(form.flags);
      HasSplit(s, i, Put(v, form.flagsWidth), ObjectRecordBytes(st, form, obj));
      PutReads(v, form.flagsWidth, s, i);
      FlagsRead(form.flags);
      ObjectRecordReads(st, form, obj, s, i + form.flagsWidth);
    }
  }

  // ---- And nothing else is accepted.

  /** A delta that resolves is the delta of what it resolves to. */
  lemma GroupDeltaBack(st: Prior, delta: U64)
    requires ResolveGroup(st, delta).Success?
    ensures GroupPermitted(st, true, ResolveGroup(st, delta).value)
    ensures GroupDelta(st, ResolveGroup(st, delta).value) == delta
  {
  }

  lemma GroupBack(st: Prior, present: bool, s: Bytes, i: nat)
    requires GroupAt(st, present, s, i).Ok? && i <= |s|
    ensures var v, w := GroupAt(st, present, s, i).value, GroupAt(st, present, s, i).end - i;
            && GroupPermitted(st, present, v) && (present ==> Fits(GroupDelta(st, v), w))
            && Has(s, i, GroupBytes(st, present, w, v)) && |GroupBytes(st, present, w, v)| == w
  {
    hide Vi64At, Put, Fits;
    if present {
      hide GroupPermitted, GroupDelta, Has;
      ReadsArePut(s, i);
      GroupDeltaBack(st, Vi64At(s, i).value);
    }
  }

  lemma SubgroupBack(st: Prior, mode: nat, datagram: bool, s: Bytes, i: nat)
    requires mode < 4 && i <= |s| && SubgroupAt(st, mode, datagram, s, i).Ok?
    ensures var v, n := SubgroupAt(st, mode, datagram, s, i).value, SubgroupAt(st, mode, datagram, s, i).end - i;
            var w := if !datagram && mode == 3 then n else Len(v);
            && SubgroupPermitted(st, mode, datagram, v) && Fits(v, w)
            && Has(s, i, SubgroupBytes(mode, datagram, w, v)) && |SubgroupBytes(mode, datagram, w, v)| == n
  {
    hide Vi64At, Put;
    if !datagram && mode == 3 {
      ReadsArePut(s, i);
    }
  }

  lemma ObjectBack(st: Prior, groupPresent: bool, present: bool, s: Bytes, i: nat)
    requires i <= |s| && ObjectAt(st, groupPresent, present, s, i).Ok?
    ensures var v, w := ObjectAt(st, groupPresent, present, s, i).value, ObjectAt(st, groupPresent, present, s, i).end - i;
            && ObjectPermitted(st, groupPresent, present, v)
            && (present ==> Fits(ObjectDelta(st, groupPresent, v), w))
            && Has(s, i, ObjectBytes(st, groupPresent, present, w, v))
            && |ObjectBytes(st, groupPresent, present, w, v)| == w
  {
    hide Vi64At, Put;
    if present {
      ReadsArePut(s, i);
    }
  }

  lemma PriorityBack(st: Prior, present: bool, s: Bytes, i: nat)
    requires i <= |s| && PriorityAt(st, present, s, i).Ok?
    ensures var v, n := PriorityAt(st, present, s, i).value, PriorityAt(st, present, s, i).end - i;
            PriorityPermitted(st, present, v) && Has(s, i, PriorityBytes(present, v)) && |PriorityBytes(present, v)| == n
  {
  }

  lemma StringBack(s: Bytes, i: nat) returns (w: nat)
    requires ByteStringAt(s, i, 0).Ok?
    ensures var b, n := ByteStringAt(s, i, 0).value, ByteStringAt(s, i, 0).end - i;
            |b| < TWO_64 && Fits(ToU64(|b|), w) && Has(s, i, StringBytes(w, b)) && |StringBytes(w, b)| == n
  {
    hide Vi64At, Put;
    ReadsArePut(s, i);
    w := Vi64At(s, i).end - i;
    var b := ByteStringAt(s, i, 0).value;
    HasSplit(s, i, Put(ToU64(|b|), w), b);
  }

  /** The block a Properties field carried and the width of its length. */
  lemma PropertiesBack(st: Prior, present: bool, s: Bytes, i: nat) returns (block: Bytes, w: nat)
    requires i <= |s| && OptionalPropertiesAt(st, present, s, i).Ok?
    ensures var list, n := OptionalPropertiesAt(st, present, s, i).value, OptionalPropertiesAt(st, present, s, i).end - i;
            && PropertiesPermitted(st, present, block, list) && (present ==> Fits(ToU64(|block|), w))
            && Has(s, i, PropertiesBytes(present, w, block)) && |PropertiesBytes(present, w, block)| == n
  {
    hide ByteStringAt, StringBytes, ParseProperties;
    if present {
      w := StringBack(s, i);
      block := ByteStringAt(s, i, 0).value;
    } else {
      block, w := [], 0;
    }
  }

  lemma ObjectRecordBack(st: Prior, f: Flags, flagsWidth: nat, s: Bytes, i: nat) returns (form: Form)
    requires f.mode < 4 && i <= |s| && ObjectRecordAt(st, f, s, i).Ok? && Fits(FlagValue(f), flagsWidth)
    ensures var obj, k := ObjectRecordAt(st, f, s, i).value, ObjectRecordAt(st, f, s, i).end;
            && form.flags == f && form.flagsWidth == flagsWidth && Permitted(st, form, obj)
            && Has(s, i, ObjectRecordBytes(st, form, obj)) && k == i + |ObjectRecordBytes(st, form, obj)|
  {
    hide Has, GroupBytes, SubgroupBytes, ObjectBytes, PriorityBytes, PropertiesBytes, StringBytes;
    hide GroupPermitted, SubgroupPermitted, ObjectPermitted, PriorityPermitted, PropertiesPermitted;
    hide GroupAt, SubgroupAt, ObjectAt, PriorityAt, OptionalPropertiesAt, ByteStringAt;
    hide Fits, FlagValue, GroupDelta, ObjectDelta, Len;
    var (group, i1) := GroupAt(st, f.groupDelta, s, i).Extract();
    var (subgroup, i2) := SubgroupAt(st, f.mode, f.datagram, s, i1).Extract();
    var (obj, i3) := ObjectAt(st, f.groupDelta, f.objectDelta, s, i2).Extract();
    var (priority, i4) := PriorityAt(st, f.priority, s, i3).Extract();
    var (list, i5) := OptionalPropertiesAt(st, f.properties, s, i4).Extract();
    var (payload, i6) := PayloadAt(s, i5).Extract();
    GroupBack(st, f.groupDelta, s, i);
    SubgroupBack(st, f.mode, f.datagram, s, i1);
    ObjectBack(st, f.groupDelta, f.objectDelta, s, i2);
    PriorityBack(st, f.priority, s, i3);
    var block, blockWidth := PropertiesBack(st, f.properties, s, i4);
    var payloadWidth := StringBack(s, i5);
    var subgroupWidth := if !f.datagram && f.mode == 3 then i2 - i1 else Len(subgroup);
    form := Form(f, block, flagsWidth, i1 - i, subgroupWidth, i3 - i2, blockWidth, payloadWidth);
    var b1 := GroupBytes(st, f.groupDelta, i1 - i, group);
    var b2 := SubgroupBytes(f.mode, f.datagram, subgroupWidth, subgroup);
    var b3 := ObjectBytes(st, f.groupDelta, f.objectDelta, i3 - i2, obj);
    var b4 := PriorityBytes(f.priority, priority);
    var b5 := PropertiesBytes(f.properties, blockWidth, block);
    var b6 := StringBytes(payloadWidth, payload);
    HasSplit(s, i4, b5, b6);
    HasSplit(s, i3, b4, b5 + b6);
    HasSplit(s, i2, b3, b4 + (b5 + b6));
    HasSplit(s, i1, b2, b3 + (b4 + (b5 + b6)));
    HasSplit(s, i, b1, b2 + (b3 + (b4 + (b5 + b6))));
  }

  /** The form the bytes of an accepted record are in. */
  lemma FormBack(st: Prior, s: Bytes, i: nat) returns (form: Form)
    requires NextRecord(st, s, i).Ok?
    ensures var obj, k := NextRecord(st, s, i).value.0, NextRecord(st, s, i).end;
            Permitted(st, form, obj) && Has(s, i, Encode(st, form, obj)) && k == i + |Encode(st, form, obj)|
  {
    hide Vi64At, Put, Has, ObjectRecordBytes, ObjectRecordAt, FlagValue, FlagsOf, Fits;
    var (v, j) := Vi64At(s, i).Extract();
    ReadsArePut(s, i);
    if v > FLAGS_MAX {
      var (group, m) := Vi64At(s, j).Extract();
      var (obj, k) := Vi64At(s, m).Extract();
      ReadsArePut(s, j);
      ReadsArePut(s, m);
      form := Form(FlagsOf(0), [], j - i, m - j, 0, k - m, 0, 0);
      var b1, b2 := Put(group, m - j), Put(obj, k - m);
      HasSplit(s, j, b1, b2);
      HasSplit(s, i, Put(v, j - i), b1 + b2);
    } else {
      FlagsBack(v);
      form := ObjectRecordBack(st, FlagsOf(v), j - i, s, j);
      HasSplit(s, i, Put(v, j - i), ObjectRecordBytes(st, form, NextRecord(st, s, i).value.0));
    }
  }

  /** The reader accepts exactly the permitted forms: a record is read at `i` up to `k`
      if and only if those bytes are one of the forms its place in the stream permits. */
  lemma ReaderIsExact(st: Prior, obj: FetchObject, s: Bytes, i: nat, k: nat)
    ensures NextRecord(st, s, i) == Ok((obj, Remember(st, obj)), k) <==>
            exists form :: Permitted(st, form, obj) && Has(s, i, Encode(st, form, obj)) && k == i + |Encode(st, form, obj)|
  {
    hide Permitted, Encode, Has, Vi64At, RecordAt;
    if NextRecord(st, s, i) == Ok((obj, Remember(st, obj)), k) {
      var form := FormBack(st, s, i);
    }
    forall form | Permitted(st, form, obj) && Has(s, i, Encode(st, form, obj)) && k == i + |Encode(st, form, obj)|
      ensures NextRecord(st, s, i) == Ok((obj, Remember(st, obj)), k)
    {
      FormReads(st, form, obj, s, i);
    }
  }
}
