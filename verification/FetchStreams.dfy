/** Whole FETCH streams: what a sequence of records in any permitted forms reads
    as, what the writer writes, and what a truncated stream yields. */
module FetchStreams {
  import opened Wire
  import opened Vi64
  import opened KeyValuePairs
  import opened ObjectFields
  import opened FetchObjects
  import opened FetchForms
  import opened Streams

  // ---- Any sequence of records, each in any form its place permits.

  type Plan = seq<(Form, FetchObject)>

  predicate PlanPermitted(st: Prior, plan: Plan)
    decreases |plan|
  {
    plan == [] ||
    (Permitted(st, plan[0].0, plan[0].1) && PlanPermitted(Remember(st, plan[0].1), plan[1..]))
  }

  function PlanBytes(st: Prior, plan: Plan): Bytes
    requires PlanPermitted(st, plan)
    decreases |plan|
  {
    if plan == [] then []
    else Encode(st, plan[0].0, plan[0].1) + PlanBytes(Remember(st, plan[0].1), plan[1..])
  }

  function Records(plan: Plan): (r: seq<FetchObject>)
    ensures |r| == |plan|
  {
    seq(|plan|, n requires 0 <= n < |plan| => plan[n].1)
  }

  lemma FetchSteps()
    ensures Progress(NextRecord) && CleanEnd(NextRecord) && CutSafe(NextRecord, UnexpectedEof)
  {
    hide NextRecord;
    forall st, s, i: nat, k | NextRecord(st, s, i).Ok? && i <= k <= |s|
      ensures NextRecord(st, s[..k], i) ==
              if NextRecord(st, s, i).end <= k then NextRecord(st, s, i)
              else if k == i then Err(Eof) else Err(UnexpectedEof)
    {
      RecordCut(st, s, i, k);
    }
  }

  /** Every record from `i` to the end of the stream, and how it ended. */
  ghost function ReadFrom(st: Prior, s: Bytes, i: nat): (seq<FetchObject>, Error) {
    FetchSteps();
    ReadAll(NextRecord, st, s, i)
  }

  /** The cursors after each record. */
  ghost function Ends(st: Prior, s: Bytes): seq<nat> {
    FetchSteps();
    Boundaries(NextRecord, st, s, 0)
  }

  /** Whatever form each record is in, the stream reads as the records intended and then ends. */
  lemma {:induction false} PlanReads(st: Prior, plan: Plan, s: Bytes, i: nat)
    requires PlanPermitted(st, plan) && Has(s, i, PlanBytes(st, plan)) && |s| == i + |PlanBytes(st, plan)|
    ensures ReadFrom(st, s, i) == (Records(plan), Eof)
    decreases |plan|
  {
    hide NextRecord, Encode, Permitted, Has;
    FetchSteps();
    if plan == [] {
      assert Records(plan) == [];
      assert NextRecord(st, s, i) == Err(Eof);
    } else {
      var first, next := Encode(st, plan[0].0, plan[0].1), Remember(st, plan[0].1);
      HasSplit(s, i, first, PlanBytes(next, plan[1..]));
      FormReads(st, plan[0].0, plan[0].1, s, i);
      PlanReads(next, plan[1..], s, i + |first|);
      assert Records(plan) == [plan[0].1] + Records(plan[1..]);
    }
  }

  /** Conversely a stream that reads to a clean end was written in permitted forms throughout. */
  lemma {:induction false} CleanStreamIsPlan(st: Prior, s: Bytes, i: nat) returns (plan: Plan)
    requires i <= |s| && ReadFrom(st, s, i).1 == Eof
    ensures PlanPermitted(st, plan) && Records(plan) == ReadFrom(st, s, i).0
    ensures s[i..] == PlanBytes(st, plan)
    decreases |s| - i
  {
    hide NextRecord, Encode, Permitted;
    FetchSteps();
    match NextRecord(st, s, i)
    case Err(_) =>
      plan := [];
    case Ok((obj, next), k) =>
      var form := FormBack(st, s, i);
      var rest := CleanStreamIsPlan(next, s, k);
      plan := [(form, obj)] + rest;
      NextRemembers(st, s, i);
      assert plan[1..] == rest;
      assert s[i..] == s[i..k] + s[k..];
      assert Records(plan) == [obj] + Records(rest);
  }

  lemma NextRemembers(st: Prior, s: Bytes, i: nat)
    requires NextRecord(st, s, i).Ok?
    ensures NextRecord(st, s, i).value.1 == Remember(st, NextRecord(st, s, i).value.0)
  {
    hide LeadingVi64At, RecordAt;
  }

  /** The reader's language: a byte sequence reads cleanly as `recs` if and only if it is those
      records in some permitted forms. */
  lemma StreamIsExact(order: GroupOrder, version: Version, s: Bytes, recs: seq<FetchObject>)
    ensures ReadFrom(Start(order, version), s, 0) == (recs, Eof) <==>
            exists plan :: PlanPermitted(Start(order, version), plan) && Records(plan) == recs
                           && PlanBytes(Start(order, version), plan) == s
  {
    hide NextRecord;
    var st := Start(order, version);
    FetchSteps();
    if ReadFrom(st, s, 0) == (recs, Eof) {
      var plan := CleanStreamIsPlan(st, s, 0);
      assert s[0..] == s;
    }
    forall plan | PlanPermitted(st, plan) && Records(plan) == recs && PlanBytes(st, plan) == s
      ensures ReadFrom(st, s, 0) == (recs, Eof)
    {
      assert s[0..|s|] == s;
      PlanReads(st, plan, s, 0);
    }
  }

  /** An Object, an End of Range indicator and an Object, read one after another: what the second Object
      leaves out continues from the indicator's Location, but keeps the Subgroup ID and Priority of the first
      Object; and a Group that is given moves on, in the Group Order, from the indicator's. */
  lemma InheritsAcrossIndicator(st: Prior, s: Bytes, i: nat)
    requires NextRecord(st, s, i).Ok? && NextRecord(st, s, i).value.0.endOfRange == 0
    requires var ((a, st1), j) := NextRecord(st, s, i).Extract();
             NextRecord(st1, s, j).Ok? && NextRecord(st1, s, j).value.0.endOfRange != 0
    requires var ((a, st1), j) := NextRecord(st, s, i).Extract();
             var ((e, st2), k) := NextRecord(st1, s, j).Extract();
             NextRecord(st2, s, k).Ok? && NextRecord(st2, s, k).value.0.endOfRange == 0
    ensures var ((a, st1), j) := NextRecord(st, s, i).Extract();
            var ((e, st2), k) := NextRecord(st1, s, j).Extract();
            var ((b, st3), end) := NextRecord(st2, s, k).Extract();
            var f := FlagsOf(Vi64At(s, k).value);
            && (!f.groupDelta ==> b.groupId == e.groupId)
            && (f.groupDelta ==> if st.order.Descending? then b.groupId < e.groupId else e.groupId < b.groupId)
            && (!f.objectDelta ==> b.objectId == e.objectId + 1)
            && (!f.priority ==> b.priority == a.priority)
            && (!f.datagram && f.mode == 1 ==> b.subgroupId == a.subgroupId)
            && (!f.datagram && f.mode == 2 ==> b.subgroupId == a.subgroupId + 1)
  {
    hide Vi64At, FlagsOf, OptionalPropertiesAt, PayloadAt, NextRecord;
    var ((a, st1), j) := NextRecord(st, s, i).Extract();
    var ((e, st2), k) := NextRecord(st1, s, j).Extract();
    NextRemembers(st, s, i);
    NextRemembers(st1, s, j);
    ObjectFieldsFrom(st2, s, k);
    assert st2.order == st.order;
  }

  /** Where the fields an Object leaves out come from. */
  lemma ObjectFieldsFrom(st: Prior, s: Bytes, i: nat)
    requires NextRecord(st, s, i).Ok? && NextRecord(st, s, i).value.0.endOfRange == 0 && st.havePrior
    ensures var f, b := FlagsOf(Vi64At(s, i).value), NextRecord(st, s, i).value.0;
            && (!f.groupDelta ==> b.groupId == st.groupId)
            && (f.groupDelta ==> if st.order.Descending? then b.groupId < st.groupId else st.groupId < b.groupId)
            && (!f.objectDelta ==> b.objectId == st.objectId + 1)
            && (!f.priority ==> b.priority == st.priority)
            && (!f.datagram && f.mode == 1 ==> b.subgroupId == st.subgroupId)
            && (!f.datagram && f.mode == 2 ==> b.subgroupId == st.subgroupId + 1)
  {
    hide Vi64At, FlagsOf, OptionalPropertiesAt, PayloadAt;
  }

  // ---- Truncation.

  lemma GroupCut(st: Prior, present: bool, s: Bytes, i: nat, k: nat)
    requires GroupAt(st, present, s, i).Ok? && i <= k <= |s|
    ensures GroupAt(st, present, s[..k], i) ==
            if GroupAt(st, present, s, i).end <= k then GroupAt(st, present, s, i) else Err(UnexpectedEof)
  {
    hide Vi64At;
    if present {
      Vi64Cut(s, i, k);
    }
  }

  lemma SubgroupCut(st: Prior, mode: nat, datagram: bool, s: Bytes, i: nat, k: nat)
    requires SubgroupAt(st, mode, datagram, s, i).Ok? && i <= k <= |s|
    ensures SubgroupAt(st, mode, datagram, s[..k], i) ==
            if SubgroupAt(st, mode, datagram, s, i).end <= k then SubgroupAt(st, mode, datagram, s, i)
            else Err(UnexpectedEof)
  {
    hide Vi64At;
    if !datagram && mode == 3 {
      Vi64Cut(s, i, k);
    }
  }

  lemma ObjectCut(st: Prior, groupPresent: bool, present: bool, s: Bytes, i: nat, k: nat)
    requires ObjectAt(st, groupPresent, present, s, i).Ok? && i <= k <= |s|
    ensures ObjectAt(st, groupPresent, present, s[..k], i) ==
            if ObjectAt(st, groupPresent, present, s, i).end <= k then ObjectAt(st, groupPresent, present, s, i)
            else Err(UnexpectedEof)
  {
    hide Vi64At;
    if present {
      Vi64Cut(s, i, k);
    }
  }

  lemma ObjectRecordCut(st: Prior, f: Flags, s: Bytes, i: nat, k: nat)
    requires ObjectRecordAt(st, f, s, i).Ok? && i <= k <= |s|
    ensures ObjectRecordAt(st, f, s[..k], i) ==
            if ObjectRecordAt(st, f, s, i).end <= k then ObjectRecordAt(st, f, s, i) else Err(UnexpectedEof)
  {
    hide GroupAt, SubgroupAt, ObjectAt, PropertiesAt, ByteStringAt;
    GroupCut(st, f.groupDelta, s, i, k);
    var i1 := GroupAt(st, f.groupDelta, s, i).end;
    if i1 <= k {
      SubgroupCut(st, f.mode, f.datagram, s, i1, k);
      var i2 := SubgroupAt(st, f.mode, f.datagram, s, i1).end;
      if i2 <= k {
        ObjectCut(st, f.groupDelta, f.objectDelta, s, i2, k);
        var i3 := ObjectAt(st, f.groupDelta, f.objectDelta, s, i2).end;
        if i3 <= k {
          var i4 := PriorityAt(st, f.priority, s, i3).end;
          if i4 <= k {
            var i5 := OptionalPropertiesAt(st, f.properties, s, i4).end;
            if f.properties {
              PropertiesCut(s, i4, k, st.version);
            }
            if i5 <= k {
              ByteStringCut(s, i5, k);
            }
          }
        }
      }
    }
  }

  lemma RecordCut(st: Prior, s: Bytes, i: nat, k: nat)
    requires NextRecord(st, s, i).Ok? && i <= k <= |s|
    ensures NextRecord(st, s[..k], i) ==
            if NextRecord(st, s, i).end <= k then NextRecord(st, s, i)
            else if k == i then Err(Eof) else Err(UnexpectedEof)
  {
    hide Vi64At, ObjectRecordAt, FlagsOf;
    Vi64Cut(s, i, k);
    var (flags, j) := Vi64At(s, i).Extract();
    if j <= k {
      if flags <= FLAGS_MAX {
        ObjectRecordCut(st, FlagsOf(flags), s, j, k);
      } else {
        Vi64Cut(s, j, k);
        if Vi64At(s, j).end <= k {
          Vi64Cut(s, Vi64At(s, j).end, k);
        }
      }
    }
  }

  /** Cutting a FETCH stream that reads cleanly, at any byte, yields exactly the records wholly
      before the cut, then a clean end on a record boundary and a truncation inside a record. */
  lemma FetchTruncation(st: Prior, s: Bytes, k: nat) returns (n: nat)
    requires k <= |s| && ReadFrom(st, s, 0).1 == Eof
    ensures Splits(Ends(st, s), n, 0, k) && |Ends(st, s)| == |ReadFrom(st, s, 0).0|
    ensures ReadFrom(st, s[..k], 0) ==
            (ReadFrom(st, s, 0).0[..n], if k == 0 || k in Ends(st, s) then Eof else UnexpectedEof)
  {
    hide NextRecord;
    FetchSteps();
    CutStream(NextRecord, UnexpectedEof, st, s, 0, k);
    BeforeIsCount(NextRecord, st, s, 0, k);
    n := Before(NextRecord, st, s, 0, k);
  }

  /** Reads a whole response off a stream. Only a FIN between records completes it. */
  method ReadResponse(f: FetchReader) returns (records: seq<FetchObject>, complete: bool)
    requires f.r.Valid()
    modifies f, f.r
    ensures (records, complete) == var all := ReadFrom(old(f.State()), f.r.data, old(f.r.pos)); (all.0, all.1 == Eof)
  {
    hide NextRecord;
    FetchSteps();
    ghost var all := ReadFrom(f.State(), f.r.data, f.r.pos);
    records := [];
    while true
      invariant f.r.Valid()
      invariant all.0 == records + ReadFrom(f.State(), f.r.data, f.r.pos).0
      invariant all.1 == ReadFrom(f.State(), f.r.data, f.r.pos).1
      decreases |f.r.data| - f.r.pos
    {
      ghost var rest := ReadFrom(f.State(), f.r.data, f.r.pos);
      var record := f.Next();
      if record.Failure? {
        assert rest == ([], record.error) && records + [] == records;
        return records, record.error == Eof;
      }
      records := records + [record.value];
    }
  }
}
