/** The fields the two data stream formats share: Object IDs and their deltas,
    the Properties block, the payload. */
module ObjectFields {
  import opened Wire
  import opened Vi64
  import opened StableSorting
  import opened KeyValuePairs

  const STATUS_NORMAL := 0
  const STATUS_END_OF_GROUP := 3
  const STATUS_END_OF_TRACK := 4

  predicate ValidStatus(status: U64) {
    status == STATUS_NORMAL || status == STATUS_END_OF_GROUP || status == STATUS_END_OF_TRACK
  }

  /** The delta rule of a subgroup stream, and of an ascending Group ID: one past `prev`, plus `delta`. */
  function AddObjectId(prev: U64, delta: U64): Result<U64> {
    if prev == MAX_U64 || delta > MAX_U64 - prev - 1 then Failure(ObjectIdOverflow)
    else Success(prev + delta + 1)
  }

  /** The delta rule inside a Group of a FETCH stream: `delta` as it is. */
  function AddWithoutOverflow(prev: U64, delta: U64): Result<U64> {
    if delta > MAX_U64 - prev then Failure(ObjectIdOverflow) else Success(prev + delta)
  }

  // ---- Where a Property may appear.

  predicate MandatoryTrackProperty(typ: U64) {
    0x4000 <= typ <= 0x7FFF
  }

  /** Registered for Tracks only. Draft-19 widened the two delivery timeouts to Objects. */
  predicate TrackOnly(typ: U64, version: Version) {
    || typ in {0x04, 0x0E, 0x22, 0x30}
    || (version.Draft18? && typ in {0x02, 0x06})
  }

  /** Unknown types are allowed: they are forwarded unchanged. */
  predicate InObjectScope(typ: U64, version: Version) {
    !MandatoryTrackProperty(typ) && !TrackOnly(typ, version)
  }

  predicate AllInScope(list: KVPList, version: Version) {
    forall p | p in list :: InObjectScope(p.typ, version)
  }

  /** The first Property that may not appear on an Object is the error. */
  function ValidateObjectProperties(list: KVPList, version: Version): (r: Result<()>)
    ensures r.Success? <==> AllInScope(list, version)
    ensures r.Failure? ==> r.error.PropertyOutOfScope? && !InObjectScope(r.error.property, version)
  {
    if list == [] then Success(())
    else if !InObjectScope(list[0].typ, version) then Failure(PropertyOutOfScope(list[0].typ))
    else ValidateObjectProperties(list[1..], version)
  }

  /** Registered for Objects only, in either draft. */
  predicate InTrackScope(typ: U64) {
    typ !in {0x3C, 0x3E}
  }

  function ValidateTrackProperties(list: KVPList): (r: Result<()>)
    ensures r.Success? <==> forall p | p in list :: InTrackScope(p.typ)
    ensures r.Failure? ==> r.error.PropertyOutOfScope? && !InTrackScope(r.error.property)
  {
    if list == [] then Success(())
    else if !InTrackScope(list[0].typ) then Failure(PropertyOutOfScope(list[0].typ))
    else ValidateTrackProperties(list[1..])
  }

  /** What a registered Property may describe. */
  datatype Scope = Scope(tracks: bool, objects: bool)

  function Registry(typ: U64, version: Version): Option<Scope> {
    match typ
    case 0x02 => Some(Scope(true, version.Draft22?))   // OBJECT_DELIVERY_TIMEOUT
    case 0x04 => Some(Scope(true, false))              // MAX_CACHE_DURATION
    case 0x06 => Some(Scope(true, version.Draft22?))   // SUBGROUP_DELIVERY_TIMEOUT
    case 0x0B => Some(Scope(true, true))               // IMMUTABLE_PROPERTIES
    case 0x0E => Some(Scope(true, false))              // DEFAULT_PUBLISHER_PRIORITY
    case 0x22 => Some(Scope(true, false))              // DEFAULT_PUBLISHER_GROUP_ORDER
    case 0x30 => Some(Scope(true, false))              // DYNAMIC_GROUPS
    case 0x3C => Some(Scope(false, true))              // PRIOR_GROUP_ID_GAP
    case 0x3E => Some(Scope(false, true))              // PRIOR_OBJECT_ID_GAP
    case _ => None
  }

  /** An unregistered Type may appear anywhere, but for the Mandatory Track Properties on an Object. */
  lemma ScopesAreRegistered(typ: U64, version: Version)
    ensures InObjectScope(typ, version) <==>
            !(0x4000 <= typ < 0x8000) && (Registry(typ, version).Some? ==> Registry(typ, version).value.objects)
    ensures InTrackScope(typ) <==> (Registry(typ, version).Some? ==> Registry(typ, version).value.tracks)
  {
  }

  /** The statuses there are. */
  lemma StatusesByNumber(status: U64)
    ensures ValidStatus(status) <==> status == 0 || status == 3 || status == 4
    ensures STATUS_NORMAL == 0
  {
  }

  /** The pairs of a block's body, checked for scope. */
  function ParseProperties(body: Bytes, version: Version): Result<KVPList> {
    if body == [] then Success([])
    else
      match ParsePairs(body)
      case Err(e) => Failure(e)
      case Ok(list, _) =>
        match ValidateObjectProperties(list, version)
        case Failure(e) => Failure(e)
        case Success(_) => Success(list)
  }

  /** A byte length, then that many bytes of pairs. */
  function PropertiesAt(s: Bytes, i: nat, version: Version): (r: Parsed<KVPList>)
    ensures r.Ok? ==> i < r.end <= |s|
    ensures r.Err? ==> r.error != Eof
  {
    var (body, j) :- ByteStringAt(s, i, 0);
    match ParseProperties(body, version)
    case Failure(e) => (ParseErrors(body, version); Err(e))
    case Success(list) => Ok(list, j)
  }

  /** A byte length, then the payload. */
  function PayloadAt(s: Bytes, i: nat): (r: Parsed<Bytes>)
    ensures r.Ok? ==> i < r.end <= |s|
    ensures r.Err? ==> r.error == UnexpectedEof
  {
    ByteStringAt(s, i, 0)
  }

  lemma ParseErrors(body: Bytes, version: Version)
    ensures ParseProperties(body, version).Failure? ==> ParseProperties(body, version).error != Eof
  {
    PairErrors(body, 0, 0);
  }

  lemma {:induction false} PairErrors(s: Bytes, i: nat, prev: U64)
    requires i <= |s|
    ensures PairsAt(s, i, prev).Err? ==> PairsAt(s, i, prev).error != Eof
    decreases |s| - i
  {
    hide Vi64At;
    if i < |s| && PairAt(s, i, prev).Ok? {
      PairErrors(s, PairAt(s, i, prev).end, PairAt(s, i, prev).value.typ);
    }
  }

  // ---- What a writer may put on an Object, and what comes back.

  /** A Property list a reader accepts. */
  predicate Readable(list: KVPList, version: Version) {
    AllLegal(list) && AllInScope(list, version)
  }

  /** The list as a reader reports it: stably sorted, unused value fields cleared. */
  function Canonical(list: KVPList): KVPList {
    CanonAll(SortedPairs(list))
  }

  lemma SortKeepsMembers(list: KVPList)
    ensures forall p :: p in SortedPairs(list) <==> p in list
  {
    SortIsStable(list, TypeOf);
    assert forall p :: p in list <==> p in multiset(list);
    assert forall p :: p in SortedPairs(list) <==> p in multiset(SortedPairs(list));
  }

  /** Neither sorting nor clearing unused fields changes a Type. */
  lemma CanonicalKeepsTypes(list: KVPList, version: Version)
    ensures AllInScope(Canonical(list), version) <==> AllInScope(list, version)
  {
    hide InObjectScope, SortedPairs;
    var sorted := SortedPairs(list);
    SortKeepsMembers(list);
    forall p | p in list ensures exists q :: q in Canonical(list) && q.typ == p.typ {
      var n :| 0 <= n < |sorted| && sorted[n] == p;
      assert Canonical(list)[n] in Canonical(list);
    }
    forall q | q in Canonical(list) ensures exists p :: p in list && q.typ == p.typ {
      var n :| 0 <= n < |sorted| && Canonical(list)[n] == q;
      assert sorted[n] in list;
    }
  }

  /** A block written from a list parses to its canonical form exactly when the list is readable. */
  lemma BlockParses(list: KVPList, version: Version)
    requires Addressable(list)
    ensures ParseProperties(AppendPairs(SortedPairs(list), 0), version).Success? <==> Readable(list, version)
    ensures Readable(list, version) ==>
              ParseProperties(AppendPairs(SortedPairs(list), 0), version) == Success(Canonical(list))
  {
    hide AllInScope, AllLegal, SortedPairs, AppendPairs, ParsePairs, ValidateObjectProperties;
    PairsRoundTrip(list);
    CanonicalKeepsTypes(list, version);
    EmptyBlock(SortedPairs(list), 0);
    SortKeepsCount(list);
    if list == [] {
      NothingCanonical(version);
    }
  }

  lemma SortKeepsCount(list: KVPList)
    ensures |SortedPairs(list)| == |list| && |Canonical(list)| == |list|
  {
    SortIsStable(list, TypeOf);
    assert |multiset(SortedPairs(list))| == |multiset(list)|;
  }

  lemma NothingCanonical(version: Version)
    ensures Readable([], version) && Canonical([]) == []
  {
    SortKeepsCount([]);
  }

  lemma EmptyBlock(list: KVPList, prev: U64)
    ensures AppendPairs(list, prev) == [] <==> list == []
  {
  }

  lemma ByteStringCut(s: Bytes, i: nat, k: nat)
    requires ByteStringAt(s, i, 0).Ok? && i <= k <= |s|
    ensures ByteStringAt(s[..k], i, 0) ==
            if ByteStringAt(s, i, 0).end <= k then ByteStringAt(s, i, 0) else Err(UnexpectedEof)
  {
    hide Vi64At;
    Vi64Cut(s, i, k);
    var (n, j) := Vi64At(s, i).Extract();
    if j + n <= k {
      SliceOfPrefix(s, k, j, j + n);
    }
  }

  lemma PropertiesCut(s: Bytes, i: nat, k: nat, version: Version)
    requires PropertiesAt(s, i, version).Ok? && i <= k <= |s|
    ensures PropertiesAt(s[..k], i, version) ==
            if PropertiesAt(s, i, version).end <= k then PropertiesAt(s, i, version) else Err(UnexpectedEof)
  {
    hide ByteStringAt, ParseProperties;
    ByteStringCut(s, i, k);
  }
}
