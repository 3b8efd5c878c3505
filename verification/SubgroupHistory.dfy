/** What the Objects of a subgroup stream mean, told from the Objects before each one: the
    reader accepts those bytes and no others, whatever the widths of the integers in them. */
module SubgroupHistory {
  import opened Wire
  import opened Vi64
  import opened ObjectFields
  import opened SubgroupHeaders
  import opened SubgroupStreams
  import FetchForms

  /** The bytes of the Properties block, and how wide each integer is. */
  datatype Form = Form(block: Bytes, idWidth: nat, blockWidth: nat, lengthWidth: nat, statusWidth: nat)

  type Plan = seq<(Form, SubgroupObject)>

  // ---- What an Object can be after those before it.

  /** Object IDs increase; a block is there exactly if the header says so; an Object with a payload, or
      with Properties, is a Normal one, and an empty one says which of three statuses it has. */
  predicate PermittedAfter(blocks: bool, version: Version, h: seq<SubgroupObject>, form: Form, obj: SubgroupObject) {
    && (h != [] ==> h[|h| - 1].objectId < obj.objectId)
    && Fits(IdAfter(h, obj.objectId), form.idWidth)
    && (if blocks then BlockHolds(version, form, obj) else obj.properties == [])
    && |obj.payload| < TWO_64 && Fits(ToU64(|obj.payload|), form.lengthWidth)
    && (if obj.payload != [] || obj.properties != [] then obj.status == 0
        else obj.status == 0 || obj.status == 3 || obj.status == 4)
    && (obj.payload == [] ==> Fits(obj.status, form.statusWidth))
  }

  predicate BlockHolds(version: Version, form: Form, obj: SubgroupObject) {
    && |form.block| < TWO_64 && Fits(ToU64(|form.block|), form.blockWidth)
    && ParseProperties(form.block, version) == Success(obj.properties)
  }

  /** The first Object ID as it is, a later one as how many are skipped. */
  function IdAfter(h: seq<SubgroupObject>, id: U64): (v: U64)
    requires h != [] ==> h[|h| - 1].objectId < id
  {
    if h == [] then id else id - h[|h| - 1].objectId - 1
  }

  function EncodeAfter(blocks: bool, h: seq<SubgroupObject>, form: Form, obj: SubgroupObject): Bytes
    requires h != [] ==> h[|h| - 1].objectId < obj.objectId
  {
    Put(IdAfter(h, obj.objectId), form.idWidth)
    + (BlockBytes(blocks, form)
       + (Put(ToU64(|obj.payload|), form.lengthWidth)
          + if obj.payload == [] then Put(obj.status, form.statusWidth) else obj.payload))
  }

  function BlockBytes(blocks: bool, form: Form): Bytes {
    if blocks then FetchForms.StringBytes(form.blockWidth, form.block) else []
  }

  predicate Told(blocks: bool, version: Version, h: seq<SubgroupObject>, plan: Plan)
    decreases |plan|
  {
    plan == [] ||
    (PermittedAfter(blocks, version, h, plan[0].0, plan[0].1) && Told(blocks, version, h + [plan[0].1], plan[1..]))
  }

  function BytesTold(blocks: bool, version: Version, h: seq<SubgroupObject>, plan: Plan): Bytes
    requires Told(blocks, version, h, plan)
    decreases |plan|
  {
    if plan == [] then []
    else EncodeAfter(blocks, h, plan[0].0, plan[0].1) + BytesTold(blocks, version, h + [plan[0].1], plan[1..])
  }

  function Objects(plan: Plan): (r: seq<SubgroupObject>)
    ensures |r| == |plan|
  {
    seq(|plan|, n requires 0 <= n < |plan| => plan[n].1)
  }

  // ---- The header.

  /** The header's fields, each integer in some width. */
  function HeaderBytes(h: Header, aliasWidth: nat, groupWidth: nat, subgroupWidth: nat): Bytes {
    Put(h.trackAlias, aliasWidth)
    + (Put(h.groupId, groupWidth)
       + ((if h.mode.Explicit? then Put(h.subgroupId, subgroupWidth) else [])
          + if h.defaultPriority then [] else [h.priority]))
  }

  predicate HeaderFits(h: Header, aliasWidth: nat, groupWidth: nat, subgroupWidth: nat) {
    && Fits(h.trackAlias, aliasWidth) && Fits(h.groupId, groupWidth)
    && (if h.mode.Explicit? then Fits(h.subgroupId, subgroupWidth) else h.subgroupId == 0)
    && (h.defaultPriority ==> h.priority == 0)
  }

  lemma HeaderReads(h: Header, aliasWidth: nat, groupWidth: nat, subgroupWidth: nat, s: Bytes, i: nat)
    requires !h.mode.Reserved? && HeaderFits(h, aliasWidth, groupWidth, subgroupWidth)
    requires Has(s, i, HeaderBytes(h, aliasWidth, groupWidth, subgroupWidth))
    ensures HeaderAt(StreamType(h), s, i) == Ok(h, i + |HeaderBytes(h, aliasWidth, groupWidth, subgroupWidth)|)
  {
    hide Vi64At, Put, Has, Fits, StreamType, IsSubgroupType, ModeOf;
    TypeBits(h);
    var b3 := if h.mode.Explicit? then Put(h.subgroupId, subgroupWidth) else [];
    var b4 := if h.defaultPriority then [] else [h.priority];
    HasSplit(s, i, Put(h.trackAlias, aliasWidth), Put(h.groupId, groupWidth) + (b3 + b4));
    WidthIsPositive(h.trackAlias, aliasWidth);
    PutReads(h.trackAlias, aliasWidth, s, i);
    var i1 := i + aliasWidth;
    HasSplit(s, i1, Put(h.groupId, groupWidth), b3 + b4);
    WidthIsPositive(h.groupId, groupWidth);
    PutReads(h.groupId, groupWidth, s, i1);
    var i2 := i1 + groupWidth;
    HasSplit(s, i2, b3, b4);
    if h.mode.Explicit? {
      WidthIsPositive(h.subgroupId, subgroupWidth);
      PutReads(h.subgroupId, subgroupWidth, s, i2);
    }
    HeaderTail(b4, s, i2 + |b3|);
  }

  lemma TypeIsBits(t: U64)
    requires IsSubgroupType(t)
    ensures t == 0x10 + t % 2 + 2 * (t / 2 % 4) + 8 * (t / 8 % 2) + 0x20 * (t / 0x20 % 2) + 0x40 * (t / 0x40 % 2)
  {
  }

  lemma BitOf(x: nat, weight: U8)
    ensures Bit(x % 2 == 1, weight) == weight * (x % 2)
  {
  }

  /** The stream type is that of the header read behind it. */
  lemma TypeBack(t: U64, h: Header)
    requires IsSubgroupType(t) && h.mode == ModeOf(t / 2 % 4)
    requires h.hasProperties == (t % 2 == 1) && h.endOfGroup == (t / 8 % 2 == 1)
    requires h.defaultPriority == (t / 0x20 % 2 == 1) && h.firstObject == (t / 0x40 % 2 == 1)
    ensures StreamType(h) == t
  {
    TypeIsBits(t);
    BitOf(t, 0x01);
    BitOf(t / 8, 0x08);
    BitOf(t / 0x20, 0x20);
    BitOf(t / 0x40, 0x40);
    assert ModeBits(h.mode) == t / 2 % 4;
    hide Bit, ModeBits, ModeOf, IsSubgroupType;
  }

  lemma HeaderBack(t: U64, s: Bytes, i: nat) returns (aliasWidth: nat, groupWidth: nat, subgroupWidth: nat)
    requires HeaderAt(t, s, i).Ok?
    ensures var (h, k) := HeaderAt(t, s, i).Extract();
            && t == StreamType(h) && !h.mode.Reserved? && HeaderFits(h, aliasWidth, groupWidth, subgroupWidth)
            && Has(s, i, HeaderBytes(h, aliasWidth, groupWidth, subgroupWidth))
            && k == i + |HeaderBytes(h, aliasWidth, groupWidth, subgroupWidth)|
  {
    hide Vi64At, Put, Fits, StreamType, IsSubgroupType, ModeOf, Has;
    var (h, k) := HeaderAt(t, s, i).Extract();
    TypeBack(t, h);
    var (alias, i1) := Vi64At(s, i).Extract();
    ReadsArePut(s, i);
    var (group, i2) := Vi64At(s, i1).Extract();
    ReadsArePut(s, i1);
    aliasWidth, groupWidth, subgroupWidth := i1 - i, i2 - i1, 0;
    var i3 := i2;
    if h.mode.Explicit? {
      i3 := Vi64At(s, i2).end;
      ReadsArePut(s, i2);
      subgroupWidth := i3 - i2;
    }
    var b3 := if h.mode.Explicit? then Put(h.subgroupId, subgroupWidth) else [];
    var b4 := if h.defaultPriority then [] else [h.priority];
    assert Has(s, i3, b4) by {
      ByteIsThere(b4, s, i3);
    }
    assert Has(s, i2, b3) by {
      NothingIsThere(s, i2);
    }
    HasSplit(s, i2, b3, b4);
    HasSplit(s, i1, Put(group, groupWidth), b3 + b4);
    HasSplit(s, i, Put(alias, aliasWidth), Put(group, groupWidth) + (b3 + b4));
  }

  lemma ByteIsThere(b: Bytes, s: Bytes, i: nat)
    requires b == [] || |b| == 1
    requires i + |b| <= |s| && (b != [] ==> b[0] == s[i])
    ensures Has(s, i, b)
  {
  }

  lemma NothingIsThere(s: Bytes, i: nat)
    requires i <= |s|
    ensures Has(s, i, [])
  {
  }

  /** The header of a subgroup stream reads if and only if its stream type is the one of the header, whose mode
      is none that is reserved, and its fields are there, those the type leaves out being zero. */
  lemma HeaderIsExact(t: U64, s: Bytes, i: nat, h: Header, k: nat)
    ensures HeaderAt(t, s, i) == Ok(h, k) <==>
            && t == StreamType(h) && !h.mode.Reserved?
            && exists a: nat, g: nat, u: nat ::
                 HeaderFits(h, a, g, u) && Has(s, i, HeaderBytes(h, a, g, u)) && k == i + |HeaderBytes(h, a, g, u)|
  {
    hide HeaderAt, StreamType, HeaderFits, HeaderBytes, Has;
    if HeaderAt(t, s, i) == Ok(h, k) {
      var a, g, u := HeaderBack(t, s, i);
      assert HeaderFits(h, a, g, u);
    }
    if t == StreamType(h) && !h.mode.Reserved? {
      forall a: nat, g: nat, u: nat |
        HeaderFits(h, a, g, u) && Has(s, i, HeaderBytes(h, a, g, u)) && k == i + |HeaderBytes(h, a, g, u)|
        ensures HeaderAt(t, s, i) == Ok(h, k)
      {
        HeaderReads(h, a, g, u, s, i);
      }
    }
  }

  // ---- The reader's state is that history, summed up.

  predicate Sums(st: SubState, blocks: bool, h: seq<SubgroupObject>) {
    && st.header.hasProperties == blocks && st.haveObject == (h != [])
    && (h != [] ==> st.prevObjectId == h[|h| - 1].objectId)
  }

  /** What a writer takes after the Objects it has taken: IDs increase, Properties go where the header announces
      them, and an Object that has a payload or Properties is a Normal one. */
  lemma WriterTakesExactly(st: SubState, blocks: bool, h: seq<SubgroupObject>, obj: SubgroupObject)
    requires Sums(st, blocks, h)
    ensures Accepts(st, obj) <==>
            && (h != [] ==> h[|h| - 1].objectId < obj.objectId)
            && (obj.properties != [] ==> blocks)
            && (if obj.payload != [] || obj.properties != [] then obj.status == 0
                else obj.status == 0 || obj.status == 3 || obj.status == 4)
  {
  }

  lemma BodyReads(obj: SubgroupObject, form: Form, s: Bytes, i: nat)
    requires |obj.payload| < TWO_64 && Fits(ToU64(|obj.payload|), form.lengthWidth)
    requires if obj.payload != [] || obj.properties != [] then obj.status == 0
             else obj.status == 0 || obj.status == 3 || obj.status == 4
    requires obj.payload == [] ==> Fits(obj.status, form.statusWidth)
    requires var last := if obj.payload == [] then Put(obj.status, form.statusWidth) else obj.payload;
             Has(s, i, Put(ToU64(|obj.payload|), form.lengthWidth) + last)
    ensures var last := if obj.payload == [] then Put(obj.status, form.statusWidth) else obj.payload;
            BodyAt(obj.properties != [], s, i) == Ok((obj.status, obj.payload), i + form.lengthWidth + |last|)
  {
    hide Vi64At, Put, Has, Fits, BytesAt;
    var last := if obj.payload == [] then Put(obj.status, form.statusWidth) else obj.payload;
    var n := ToU64(|obj.payload|);
    HasSplit(s, i, Put(n, form.lengthWidth), last);
    WidthIsPositive(n, form.lengthWidth);
    PutReads(n, form.lengthWidth, s, i);
    if obj.payload == [] {
      WidthIsPositive(obj.status, form.statusWidth);
      PutReads(obj.status, form.statusWidth, s, i + form.lengthWidth);
    } else {
      BytesRead(obj.payload, s, i + form.lengthWidth);
    }
  }

  lemma WidthIsPositive(v: U64, w: nat)
    requires Fits(v, w)
    ensures 1 <= w
  {
  }

  lemma BlockReads(blocks: bool, version: Version, form: Form, obj: SubgroupObject, s: Bytes, i: nat)
    requires if blocks then BlockHolds(version, form, obj) else obj.properties == []
    requires Has(s, i, BlockBytes(blocks, form))
    ensures BlockAt(blocks, version, s, i) == Ok(obj.properties, i + |BlockBytes(blocks, form)|)
  {
    hide KeyValuePairs.ByteStringAt, ParseProperties, FetchForms.StringBytes, Fits;
    if blocks {
      FetchForms.StringReads(form.blockWidth, form.block, s, i);
    }
  }

  lemma ObjectReads(st: SubState, blocks: bool, version: Version, h: seq<SubgroupObject>, form: Form, obj: SubgroupObject,
                    s: Bytes, i: nat)
    requires Sums(st, blocks, h) && PermittedAfter(blocks, version, h, form, obj)
    requires Has(s, i, EncodeAfter(blocks, h, form, obj))
    ensures NextObject(version, st, s, i) ==
            Ok((obj, Advance(st, obj.objectId)), i + |EncodeAfter(blocks, h, form, obj)|)
  {
    hide Vi64At, Put, Has, Fits, BodyAt, BlockAt, BlockBytes, BlockHolds;
    var id := IdAfter(h, obj.objectId);
    var last := if obj.payload == [] then Put(obj.status, form.statusWidth) else obj.payload;
    var body := Put(ToU64(|obj.payload|), form.lengthWidth) + last;
    HasSplit(s, i, Put(id, form.idWidth), BlockBytes(blocks, form) + body);
    WidthIsPositive(id, form.idWidth);
    PutReads(id, form.idWidth, s, i);
    var j := i + form.idWidth;
    HasSplit(s, j, BlockBytes(blocks, form), body);
    BlockReads(blocks, version, form, obj, s, j);
    BodyReads(obj, form, s, j + |BlockBytes(blocks, form)|);
  }

  lemma BodyBack(withProperties: bool, s: Bytes, i: nat) returns (lengthWidth: nat, statusWidth: nat)
    requires BodyAt(withProperties, s, i).Ok?
    ensures var ((status, payload), k) := BodyAt(withProperties, s, i).Extract();
            var last := if payload == [] then Put(status, statusWidth) else payload;
            && |payload| < TWO_64 && Fits(ToU64(|payload|), lengthWidth)
            && (if payload != [] || withProperties then status == 0 else status == 0 || status == 3 || status == 4)
            && (payload == [] ==> Fits(status, statusWidth))
            && Has(s, i, Put(ToU64(|payload|), lengthWidth) + last) && k == i + lengthWidth + |last|
  {
    hide Vi64At, Put, Fits;
    var (n, j) := Vi64At(s, i).Extract();
    ReadsArePut(s, i);
    lengthWidth, statusWidth := j - i, 0;
    var ((status, payload), k) := BodyAt(withProperties, s, i).Extract();
    if n == 0 {
      ReadsArePut(s, j);
      statusWidth := k - j;
      HasSplit(s, i, Put(n, lengthWidth), Put(status, statusWidth));
    } else {
      HasSplit(s, i, Put(n, lengthWidth), payload);
    }
  }

  lemma BlockBack(blocks: bool, version: Version, s: Bytes, i: nat) returns (block: Bytes, w: nat)
    requires i <= |s| && BlockAt(blocks, version, s, i).Ok?
    ensures var (list, k) := BlockAt(blocks, version, s, i).Extract();
            && (if blocks then |block| < TWO_64 && Fits(ToU64(|block|), w) && ParseProperties(block, version) == Success(list)
                else list == [])
            && var b := if blocks then FetchForms.StringBytes(w, block) else [];
               Has(s, i, b) && k == i + |b|
  {
    hide KeyValuePairs.ByteStringAt, FetchForms.StringBytes, ParseProperties, Fits;
    block, w := [], 0;
    if blocks {
      w := FetchForms.StringBack(s, i);
      block := KeyValuePairs.ByteStringAt(s, i, 0).value;
    }
  }

  /** The form the bytes of an Object that was read are in. */
  lemma ObjectBack(st: SubState, blocks: bool, version: Version, h: seq<SubgroupObject>, s: Bytes, i: nat)
    returns (form: Form)
    requires Sums(st, blocks, h) && NextObject(version, st, s, i).Ok?
    ensures var ((obj, _), k) := NextObject(version, st, s, i).Extract();
            && PermittedAfter(blocks, version, h, form, obj)
            && Has(s, i, EncodeAfter(blocks, h, form, obj)) && k == i + |EncodeAfter(blocks, h, form, obj)|
  {
    hide Vi64At, Put, Has, Fits, BodyAt, BlockAt, FetchForms.StringBytes, ParseProperties;
    var (v, j) := Vi64At(s, i).Extract();
    ReadsArePut(s, i);
    var (list, m) := BlockAt(blocks, version, s, j).Extract();
    var block, blockWidth := BlockBack(blocks, version, s, j);
    var lengthWidth, statusWidth := BodyBack(list != [], s, m);
    form := Form(block, j - i, blockWidth, lengthWidth, statusWidth);
    var ((obj, _), k) := NextObject(version, st, s, i).Extract();
    var last := if obj.payload == [] then Put(obj.status, statusWidth) else obj.payload;
    var body := Put(ToU64(|obj.payload|), lengthWidth) + last;
    HasSplit(s, j, BlockBytes(blocks, form), body);
    HasSplit(s, i, Put(v, j - i), BlockBytes(blocks, form) + body);
  }

  // ---- A whole stream.

  lemma AdvanceSums(st: SubState, blocks: bool, h: seq<SubgroupObject>, obj: SubgroupObject)
    requires Sums(st, blocks, h)
    ensures Sums(Advance(st, obj.objectId), blocks, h + [obj])
  {
  }

  lemma {:induction false} PlanReads(
      st: SubState, blocks: bool, version: Version, h: seq<SubgroupObject>, plan: Plan, s: Bytes, i: nat)
    requires Sums(st, blocks, h) && Told(blocks, version, h, plan)
    requires Has(s, i, BytesTold(blocks, version, h, plan)) && |s| == i + |BytesTold(blocks, version, h, plan)|
    ensures ReadFrom(version, st, s, i) == (Objects(plan), Eof)
    decreases |plan|
  {
    hide NextObject, EncodeAfter, PermittedAfter, Has, Sums, Advance;
    ReadingSteps(version);
    if plan == [] {
      assert Objects(plan) == [];
      assert NextObject(version, st, s, i) == Err(Eof);
    } else {
      var (form, obj) := plan[0];
      AfterIsLater(blocks, version, h, form, obj);
      var first := EncodeAfter(blocks, h, form, obj);
      HasSplit(s, i, first, BytesTold(blocks, version, h + [obj], plan[1..]));
      ObjectReads(st, blocks, version, h, form, obj, s, i);
      AdvanceSums(st, blocks, h, obj);
      PlanReads(Advance(st, obj.objectId), blocks, version, h + [obj], plan[1..], s, i + |first|);
      assert Objects(plan) == [obj] + Objects(plan[1..]);
    }
  }

  lemma AfterIsLater(blocks: bool, version: Version, h: seq<SubgroupObject>, form: Form, obj: SubgroupObject)
    requires PermittedAfter(blocks, version, h, form, obj)
    ensures h != [] ==> h[|h| - 1].objectId < obj.objectId
  {
  }

  lemma {:induction false} CleanStreamIsPlan(
      st: SubState, blocks: bool, version: Version, h: seq<SubgroupObject>, s: Bytes, i: nat) returns (plan: Plan)
    requires Sums(st, blocks, h) && i <= |s| && ReadFrom(version, st, s, i).1 == Eof
    ensures Told(blocks, version, h, plan) && Objects(plan) == ReadFrom(version, st, s, i).0
    ensures s[i..] == BytesTold(blocks, version, h, plan)
    decreases |s| - i
  {
    hide NextObject, EncodeAfter, PermittedAfter, Sums, Advance;
    ReadingSteps(version);
    match NextObject(version, st, s, i)
    case Err(_) =>
      plan := [];
    case Ok((obj, next), k) =>
      var form := ObjectBack(st, blocks, version, h, s, i);
      AfterIsLater(blocks, version, h, form, obj);
      AdvanceSums(st, blocks, h, obj);
      var rest := CleanStreamIsPlan(next, blocks, version, h + [obj], s, k);
      plan := [(form, obj)] + rest;
      assert plan[1..] == rest;
      assert s[i..] == s[i..k] + s[k..];
      assert Objects(plan) == [obj] + Objects(rest);
  }

  /** Past its header, a subgroup stream reads cleanly as some Objects if and only if it is those Objects, each
      in a form permitted after the ones before it. */
  lemma StreamTellsHistory(header: Header, version: Version, s: Bytes, i: nat, objs: seq<SubgroupObject>)
    requires i <= |s|
    ensures ReadFrom(version, Begin(header), s, i) == (objs, Eof) <==>
            exists plan :: Told(header.hasProperties, version, [], plan) && Objects(plan) == objs
                           && BytesTold(header.hasProperties, version, [], plan) == s[i..]
  {
    hide ReadFrom, Told, BytesTold;
    var st, blocks := Begin(header), header.hasProperties;
    assert Sums(st, blocks, []);
    if ReadFrom(version, st, s, i) == (objs, Eof) {
      var plan := CleanStreamIsPlan(st, blocks, version, [], s, i);
    }
    forall plan | Told(blocks, version, [], plan) && Objects(plan) == objs && BytesTold(blocks, version, [], plan) == s[i..]
      ensures ReadFrom(version, st, s, i) == (objs, Eof)
    {
      PlanReads(st, blocks, version, [], plan, s, i);
    }
  }

  /** And the header the reader shares changes only if its mode says so: it learns the first Object's ID. */
  lemma HeaderTells(header: Header, objs: seq<SubgroupObject>)
    ensures AdvanceAll(Begin(header), objs).header ==
            if header.mode.FirstObject? && objs != [] then header.(subgroupId := objs[0].objectId) else header
  {
    if objs != [] {
      KeepsId(Advance(Begin(header), objs[0].objectId), objs[1..]);
    }
  }
}
