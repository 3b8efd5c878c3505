/** What a FETCH stream means, told from the records before each one: the Location a record
    is relative to is the last record's, and the Subgroup ID and Priority it can inherit are
    the last real Object's. A stream reads as some records exactly when it is written so. */
module FetchHistory {
  import opened Wire
  import opened Vi64
  import opened KeyValuePairs
  import opened ObjectFields
  import opened FetchObjects
  import opened FetchForms
  import opened FetchStreams

  // ---- What came before.

  /** The last record. */
  function Last(h: seq<FetchObject>): FetchObject
    requires h != []
  {
    h[|h| - 1]
  }

  /** The last that is an Object and no indicator, if there was one. */
  function LastObject(h: seq<FetchObject>): Option<FetchObject> {
    if h == [] then None
    else if Last(h).endOfRange == 0 then Some(Last(h))
    else LastObject(h[..|h| - 1])
  }

  // ---- The forms a record can take after them.

  /** The Subgroup ID Mode, and a bit for each field that is there. */
  function FlagsByte(f: Flags): U64
    requires f.mode < 4
  {
    f.mode + (if f.objectDelta then 0x04 else 0) + (if f.groupDelta then 0x08 else 0)
    + (if f.priority then 0x10 else 0) + (if f.properties then 0x20 else 0) + (if f.datagram then 0x40 else 0)
  }

  predicate IndicatorAfter(version: Version, form: Form, obj: FetchObject) {
    && (obj.endOfRange == 0x8C || obj.endOfRange == 0x10C || (obj.endOfRange == 0x20C && version == Draft22))
    && obj == FetchObject(obj.groupId, 0, obj.objectId, 0, [], [], obj.endOfRange, false)
    && Fits(obj.endOfRange, form.flagsWidth) && Fits(obj.groupId, form.groupWidth) && Fits(obj.objectId, form.objectWidth)
  }

  /** Left out, the Group is the last record's; given, it is past that in the Group Order. */
  predicate GroupAfter(descending: bool, h: seq<FetchObject>, given: bool, group: U64) {
    if h == [] then given
    else if !given then group == Last(h).groupId
    else if descending then group < Last(h).groupId
    else group > Last(h).groupId
  }

  function GroupDeltaAfter(descending: bool, h: seq<FetchObject>, group: U64): (delta: U64)
    requires GroupAfter(descending, h, true, group)
  {
    if h == [] then group
    else if descending then Last(h).groupId - group - 1
    else group - Last(h).groupId - 1
  }

  /** A Datagram has no Subgroup; else zero, the last Object's, one more, or what is given. */
  predicate SubgroupAfter(h: seq<FetchObject>, mode: nat, datagram: bool, subgroup: U64) {
    if datagram || mode == 0 then subgroup == 0
    else if mode == 3 then true
    else LastObject(h).Some? && subgroup == LastObject(h).value.subgroupId + (if mode == 1 then 0 else 1)
  }

  /** Left out, the Object is one past the last record's; given, it is absolute in a Group that is given
      and else no less than the last record's. */
  predicate ObjectAfter(h: seq<FetchObject>, groupGiven: bool, given: bool, obj: U64) {
    if h == [] then groupGiven && given
    else if !given then obj == Last(h).objectId + 1
    else groupGiven || obj >= Last(h).objectId
  }

  function ObjectDeltaAfter(h: seq<FetchObject>, groupGiven: bool, obj: U64): (delta: U64)
    requires ObjectAfter(h, groupGiven, true, obj)
  {
    if groupGiven then obj else obj - Last(h).objectId
  }

  predicate PriorityAfter(h: seq<FetchObject>, given: bool, priority: U8) {
    given || (LastObject(h).Some? && priority == LastObject(h).value.priority)
  }

  predicate PropertiesIn(version: Version, given: bool, block: Bytes, list: KVPList) {
    if given then |block| < TWO_64 && ParseProperties(block, version) == Success(list) else list == []
  }

  predicate RealAfter(descending: bool, version: Version, h: seq<FetchObject>, form: Form, obj: FetchObject) {
    var f := form.flags;
    && f.mode < 4 && f.datagram == obj.datagram && Fits(FlagsByte(f), form.flagsWidth)
    && GroupAfter(descending, h, f.groupDelta, obj.groupId)
    && (f.groupDelta ==> Fits(GroupDeltaAfter(descending, h, obj.groupId), form.groupWidth))
    && SubgroupAfter(h, f.mode, f.datagram, obj.subgroupId) && Fits(obj.subgroupId, form.subgroupWidth)
    && ObjectAfter(h, f.groupDelta, f.objectDelta, obj.objectId)
    && (f.objectDelta ==> Fits(ObjectDeltaAfter(h, f.groupDelta, obj.objectId), form.objectWidth))
    && PriorityAfter(h, f.priority, obj.priority)
    && PropertiesIn(version, f.properties, form.block, obj.properties)
    && (f.properties ==> Fits(ToU64(|form.block|), form.blockWidth))
    && |obj.payload| < TWO_64 && Fits(ToU64(|obj.payload|), form.payloadWidth)
  }

  predicate PermittedAfter(descending: bool, version: Version, h: seq<FetchObject>, form: Form, obj: FetchObject) {
    if obj.endOfRange != 0 then IndicatorAfter(version, form, obj) else RealAfter(descending, version, h, form, obj)
  }

  /** The record on the wire. */
  function EncodeAfter(descending: bool, version: Version, h: seq<FetchObject>, form: Form, obj: FetchObject): Bytes
    requires PermittedAfter(descending, version, h, form, obj)
  {
    var f := form.flags;
    if obj.endOfRange != 0 then
      Put(obj.endOfRange, form.flagsWidth) + (Put(obj.groupId, form.groupWidth) + Put(obj.objectId, form.objectWidth))
    else
      Put(FlagsByte(f), form.flagsWidth)
      + ((if f.groupDelta then Put(GroupDeltaAfter(descending, h, obj.groupId), form.groupWidth) else [])
         + ((if !f.datagram && f.mode == 3 then Put(obj.subgroupId, form.subgroupWidth) else [])
            + ((if f.objectDelta then Put(ObjectDeltaAfter(h, f.groupDelta, obj.objectId), form.objectWidth) else [])
               + ((if f.priority then [obj.priority] else [])
                  + ((if f.properties then Put(ToU64(|form.block|), form.blockWidth) + form.block else [])
                     + (Put(ToU64(|obj.payload|), form.payloadWidth) + obj.payload))))))
  }

  // ---- A whole stream.

  /** Every record of a plan is in a form permitted after the ones before it. */
  predicate Told(descending: bool, version: Version, h: seq<FetchObject>, plan: Plan)
    decreases |plan|
  {
    plan == [] ||
    (PermittedAfter(descending, version, h, plan[0].0, plan[0].1)
     && Told(descending, version, h + [plan[0].1], plan[1..]))
  }

  function BytesTold(descending: bool, version: Version, h: seq<FetchObject>, plan: Plan): Bytes
    requires Told(descending, version, h, plan)
    decreases |plan|
  {
    if plan == [] then []
    else EncodeAfter(descending, version, h, plan[0].0, plan[0].1)
         + BytesTold(descending, version, h + [plan[0].1], plan[1..])
  }

  // ---- The reader's state is that history, summed up.

  function OrderFor(descending: bool): GroupOrder {
    if descending then Descending else Ascending
  }

  function Sum(descending: bool, version: Version, h: seq<FetchObject>): Prior {
    var last := LastObject(h);
    Prior(OrderFor(descending), version,
          h != [], if h == [] then 0 else Last(h).groupId, if h == [] then 0 else Last(h).objectId,
          last.Some?, if last.Some? then last.value.subgroupId else 0, if last.Some? then last.value.priority else 0)
  }

  lemma RememberSums(descending: bool, version: Version, h: seq<FetchObject>, obj: FetchObject)
    ensures Remember(Sum(descending, version, h), obj) == Sum(descending, version, h + [obj])
  {
    assert (h + [obj])[..|h|] == h;
  }

  lemma SameFlags(f: Flags)
    requires f.mode < 4
    ensures FlagValue(f) == FlagsByte(f)
  {
  }

  lemma SameForm(descending: bool, version: Version, h: seq<FetchObject>, form: Form, obj: FetchObject)
    ensures Permitted(Sum(descending, version, h), form, obj) <==> PermittedAfter(descending, version, h, form, obj)
  {
    hide Fits, FlagValue, FlagsByte, ParseProperties, LastObject;
    if form.flags.mode < 4 {
      SameFlags(form.flags);
    }
  }

  lemma SameBytes(descending: bool, version: Version, h: seq<FetchObject>, form: Form, obj: FetchObject)
    requires PermittedAfter(descending, version, h, form, obj)
    ensures Permitted(Sum(descending, version, h), form, obj)
    ensures Encode(Sum(descending, version, h), form, obj) == EncodeAfter(descending, version, h, form, obj)
  {
    hide Fits, FlagValue, FlagsByte, ParseProperties, LastObject, Put;
    SameForm(descending, version, h, form, obj);
    if obj.endOfRange == 0 {
      SameFlags(form.flags);
    }
  }

  lemma {:induction false} SamePlan(descending: bool, version: Version, h: seq<FetchObject>, plan: Plan)
    ensures PlanPermitted(Sum(descending, version, h), plan) <==> Told(descending, version, h, plan)
    ensures Told(descending, version, h, plan) ==>
              PlanBytes(Sum(descending, version, h), plan) == BytesTold(descending, version, h, plan)
    decreases |plan|
  {
    hide Permitted, PermittedAfter, Encode, EncodeAfter, Sum;
    if plan != [] {
      SameForm(descending, version, h, plan[0].0, plan[0].1);
      RememberSums(descending, version, h, plan[0].1);
      SamePlan(descending, version, h + [plan[0].1], plan[1..]);
      if Told(descending, version, h, plan) {
        SameBytes(descending, version, h, plan[0].0, plan[0].1);
      }
    }
  }

  /** The meaning of a FETCH stream, for a Group Order given as a byte: it reads cleanly as some records if
      and only if it is those records, each in a form permitted after the ones before it. */
  lemma StreamTellsHistory(order: U8, version: Version, s: Bytes, recs: seq<FetchObject>)
    ensures ReadFrom(Start(OrderOf(order), version), s, 0) == (recs, Eof) <==>
            exists plan :: Told(order == 2, version, [], plan) && Records(plan) == recs
                           && BytesTold(order == 2, version, [], plan) == s
  {
    hide ReadFrom, PlanPermitted, Told, PlanBytes, BytesTold;
    var st := Start(OrderOf(order), version);
    assert st == Sum(order == 2, version, []);
    StreamIsExact(OrderOf(order), version, s, recs);
    forall plan ensures PlanPermitted(st, plan) <==> Told(order == 2, version, [], plan) {
      SamePlan(order == 2, version, [], plan);
    }
    forall plan | Told(order == 2, version, [], plan)
      ensures PlanBytes(st, plan) == BytesTold(order == 2, version, [], plan)
    {
      SamePlan(order == 2, version, [], plan);
    }
  }
}
