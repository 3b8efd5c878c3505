/** Location filters: what each admits, against a publisher's Largest Object, and
    draft-18's exclusive ends in their place. */
module LocationFilters {
  import opened Wire

  datatype Location = Location(group: U64, obj: U64)

  const ORIGIN := Location(0, 0)
  const LAST := Location(MAX_U64, MAX_U64)
  const MAX_OBJECT_ID: U64 := MAX_U64

  /** Group first, then Object. */
  function Compare(l: Location, o: Location): int {
    if l.group < o.group then -1
    else if l.group > o.group then 1
    else if l.obj < o.obj then -1
    else if l.obj > o.obj then 1
    else 0
  }

  predicate AtMost(l: Location, o: Location) {
    l.group < o.group || (l.group == o.group && l.obj <= o.obj)
  }

  const NONE: U64 := 0
  const RELATIVE_START: U64 := 1
  const ABSOLUTE_START: U64 := 2
  const ABSOLUTE_GROUP_END: U64 := 3
  const ABSOLUTE_RANGE: U64 := 4
  const NEXT_OBJECT: U64 := 5

  datatype LocationFilter = LocationFilter(typ: U64, start: Location, endGroupDelta: U64, endObject: U64)

  const ZERO_FILTER := LocationFilter(NONE, ORIGIN, 0, 0)

  predicate ValidType(typ: U64) {
    typ <= NEXT_OBJECT
  }

  predicate HasStart(typ: U64) {
    typ == ABSOLUTE_START || typ == ABSOLUTE_GROUP_END || typ == ABSOLUTE_RANGE
  }

  predicate HasEndGroup(typ: U64) {
    typ == ABSOLUTE_GROUP_END || typ == ABSOLUTE_RANGE
  }

  function EndGroup(f: LocationFilter): U64 {
    WrapAdd(f.start.group, f.endGroupDelta)
  }

  /** The last Location admitted, inclusive. */
  function End(f: LocationFilter): Option<Location> {
    if !HasEndGroup(f.typ) then None
    else if f.typ == ABSOLUTE_RANGE then Some(Location(EndGroup(f), f.endObject))
    else Some(Location(EndGroup(f), MAX_OBJECT_ID))
  }

  function Validate(f: LocationFilter): Result<()> {
    if !ValidType(f.typ) then Failure(InvalidFilterType)
    else if HasEndGroup(f.typ) && f.endGroupDelta > MAX_U64 - f.start.group then Failure(EndGroupOverflow)
    else Success(())
  }

  predicate Valid(f: LocationFilter) {
    Validate(f).Success?
  }

  datatype LocationRange = LocationRange(start: Location, end: Location, open: bool)

  predicate Contains(r: LocationRange, l: Location) {
    Compare(l, r.start) >= 0 && (r.open || Compare(l, r.end) <= 0)
  }

  function NextObject(largest: Option<Location>): Location {
    if largest.None? then ORIGIN
    else if largest.value.obj == MAX_OBJECT_ID then
      if largest.value.group == MAX_U64 then largest.value else Location(largest.value.group + 1, 0)
    else Location(largest.value.group, largest.value.obj + 1)
  }

  function RelativeStartGroup(largest: Option<Location>, groupsBack: U64): U64 {
    if largest.None? then 0
    else if largest.value.group == MAX_U64 then
      if groupsBack == 0 then MAX_U64 else MAX_U64 - (groupsBack - 1)
    else
      var next := largest.value.group + 1;
      if groupsBack > next then 0 else next - groupsBack
  }

  function FirstAdmitted(f: LocationFilter, largest: Option<Location>): Location {
    if f.typ == RELATIVE_START then Location(RelativeStartGroup(largest, f.start.group), 0)
    else if f.typ == NEXT_OBJECT then NextObject(largest)
    else if f.typ == NONE then ORIGIN
    else f.start
  }

  function SubscriptionRange(f: LocationFilter, largest: Option<Location>): LocationRange {
    var end := End(f);
    LocationRange(FirstAdmitted(f, largest), if end.Some? then end.value else ORIGIN, end.None?)
  }

  /** None is a refusal: an empty range. */
  function FetchRange(f: LocationFilter, largest: Option<Location>): Option<LocationRange> {
    if largest.None? then None
    else
      var end := End(f);
      var last := if end.Some? && Compare(end.value, largest.value) < 0 then end.value else largest.value;
      var r := LocationRange(FirstAdmitted(f, largest), last, false);
      if Compare(r.start, r.end) > 0 then None else Some(r)
  }

  /** Draft-18's Location past the last Object; an Object of 0 stands for the whole Group. */
  function V18EndLocation(last: Location): Location {
    if last.obj == MAX_OBJECT_ID then Location(last.group, 0) else Location(last.group, last.obj + 1)
  }

  function InclusiveFromV18End(end: Location): Location {
    if end.obj == 0 then Location(end.group, MAX_OBJECT_ID) else Location(end.group, end.obj - 1)
  }

  function FetchFilterFromV18(start: Location, end: Location): Result<LocationFilter> {
    if end.group < start.group then Failure(FetchEndBeforeStart)
    else
      var delta := end.group - start.group;
      if end.obj == 0 then Success(LocationFilter(ABSOLUTE_GROUP_END, start, delta, 0))
      else if end.group == start.group && end.obj - 1 < start.obj then Failure(FetchEndBeforeStart)
      else Success(LocationFilter(ABSOLUTE_RANGE, start, delta, end.obj - 1))
  }

  function V18FetchRange(f: LocationFilter): Result<(Location, Location)> {
    if f.typ == NONE then Success((ORIGIN, Location(MAX_U64, 0)))
    else if f.typ == ABSOLUTE_START then Success((f.start, Location(MAX_U64, 0)))
    else if HasEndGroup(f.typ) then
      match Validate(f)
      case Failure(e) => Failure(e)
      case Success(_) => Success((f.start, V18EndLocation(End(f).value)))
    else Failure(FilterNotInDraft18)
  }

  // ---- What the resolution means.

  lemma CompareIsOrder(l: Location, o: Location)
    ensures Compare(l, o) <= 0 <==> AtMost(l, o)
    ensures Compare(l, o) == 0 <==> l == o
    ensures Compare(l, o) == -Compare(o, l)
  {
  }

  /** The Next Object is the least Location past Largest Object, except past the last of all,
      where there is none and Largest Object itself is the answer. */
  lemma NextObjectIsNext(largest: Location, l: Location)
    ensures largest != LAST ==> (AtMost(NextObject(Some(largest)), l) <==> !AtMost(l, largest))
    ensures largest == LAST ==> NextObject(Some(largest)) == largest && AtMost(l, largest)
    ensures AtMost(NextObject(None), l)
  {
  }

  /** A relative start is {Largest.Group + 1 - n, 0} over the integers, clamped to the Group IDs there are. */
  lemma RelativeStartIsClamped(largest: Location, n: U64)
    ensures var exact: int := largest.group + 1 - n;
            RelativeStartGroup(Some(largest), n) == if exact < 0 then 0 else if exact > MAX_U64 then MAX_U64 else exact
    ensures RelativeStartGroup(None, n) == 0
  {
  }

  /** What has been published: every Location up to Largest Object. */
  predicate Published(largest: Option<Location>, l: Location) {
    largest.Some? && AtMost(l, largest.value)
  }

  predicate FetchAdmits(f: LocationFilter, largest: Option<Location>, l: Location) {
    FetchRange(f, largest).Some? && Contains(FetchRange(f, largest).value, l)
  }

  predicate SubscriptionAdmits(f: LocationFilter, largest: Option<Location>, l: Location) {
    Contains(SubscriptionRange(f, largest), l)
  }

  /** A fetch or fill covers exactly what the subscription admits of what has been published. */
  lemma FetchIsPublishedPart(f: LocationFilter, largest: Option<Location>, l: Location)
    ensures FetchAdmits(f, largest, l) <==> SubscriptionAdmits(f, largest, l) && Published(largest, l)
  {
  }

  /** And is refused exactly when that is nothing. */
  lemma FetchRefusedWhenEmpty(f: LocationFilter, largest: Option<Location>)
    ensures FetchRange(f, largest).None? <==>
            forall l: Location :: Published(largest, l) ==> !SubscriptionAdmits(f, largest, l)
  {
    if largest.Some? && FetchRange(f, largest).Some? {
      var first := FirstAdmitted(f, largest);
      assert SubscriptionAdmits(f, largest, first) && Published(largest, first);
    }
    forall l: Location | Published(largest, l) && SubscriptionAdmits(f, largest, l)
      ensures FetchRange(f, largest).Some?
    {
      FetchIsPublishedPart(f, largest, l);
    }
  }

  // ---- What each type admits, Location by Location, in the integers.

  /** Whether a Location is at or after a filter's start: from Largest Object's next Group less so many, but
      from the last Group there is at the latest; past Largest Object, unless there is nothing past it;
      anywhere; or from the start given. */
  predicate FromStart(f: LocationFilter, largest: Option<Location>, l: Location) {
    if f.typ == 1 then
      largest.None? || l.group >= largest.value.group + 1 - f.start.group || l.group == 0xFFFF_FFFF_FFFF_FFFF
    else if f.typ == 5 then largest.None? || !AtMost(l, largest.value) || l == largest.value == LAST
    else if f.typ == 0 then true
    else AtMost(f.start, l)
  }

  /** And at or before its end: through a whole Group, through an Object, or without one. The sum wraps. */
  predicate ToEnd(f: LocationFilter, l: Location) {
    var last := (f.start.group + f.endGroupDelta) % 0x1_0000_0000_0000_0000;
    if f.typ == 3 then l.group <= last
    else if f.typ == 4 then l.group < last || (l.group == last && l.obj <= f.endObject)
    else true
  }

  /** The meaning of a filter: what a subscription admits under it, for every type and Largest Object. */
  lemma SubscriptionAdmitsExactly(f: LocationFilter, largest: Option<Location>, l: Location)
    ensures SubscriptionAdmits(f, largest, l) <==> FromStart(f, largest, l) && ToEnd(f, l)
  {
    hide NextObject, RelativeStartGroup;
    if f.typ == RELATIVE_START {
      if largest.Some? {
        RelativeStartIsClamped(largest.value, f.start.group);
      } else {
        RelativeStartIsClamped(ORIGIN, f.start.group);
      }
    } else if f.typ == NEXT_OBJECT {
      if largest.Some? {
        NextObjectIsNext(largest.value, l);
      } else {
        NextObjectIsNext(ORIGIN, l);
      }
    }
  }

  /** And what a fetch or a fill does, of what has been published. */
  lemma FetchAdmitsExactly(f: LocationFilter, largest: Option<Location>, l: Location)
    ensures FetchAdmits(f, largest, l) <==>
            largest.Some? && AtMost(l, largest.value) && FromStart(f, largest, l) && ToEnd(f, l)
  {
    hide FetchAdmits, SubscriptionAdmits, FromStart, ToEnd;
    FetchIsPublishedPart(f, largest, l);
    SubscriptionAdmitsExactly(f, largest, l);
  }

  const LIVE := LocationFilter(NEXT_OBJECT, ORIGIN, 0, 0)

  /** A fill, or a fetch, of any open-ended filter and a Next Object subscription leave no gap:
      together they admit every Location that either starts at or before. */
  lemma JoinLeavesNoGap(f: LocationFilter, largest: Option<Location>, l: Location)
    requires !HasEndGroup(f.typ)
    ensures FetchAdmits(f, largest, l) || SubscriptionAdmits(LIVE, largest, l)
            <==> FromStart(f, largest, l) || largest.None? || !AtMost(l, largest.value) || l == LAST == largest.value
  {
    hide FetchAdmits, SubscriptionAdmits;
    FetchAdmitsExactly(f, largest, l);
    SubscriptionAdmitsExactly(LIVE, largest, l);
  }

  /** And admit no Location twice if and only if Largest Object is not the last Location of all. */
  lemma JoinHasNoOverlap(f: LocationFilter, largest: Location)
    requires !HasEndGroup(f.typ)
    ensures (forall l: Location :: !(FetchAdmits(f, Some(largest), l) && SubscriptionAdmits(LIVE, Some(largest), l)))
            <==> largest != LAST
  {
    if largest == LAST {
      assert FetchAdmits(f, Some(largest), LAST) && SubscriptionAdmits(LIVE, Some(largest), LAST);
    } else {
      forall l: Location ensures !(FetchAdmits(f, Some(largest), l) && SubscriptionAdmits(LIVE, Some(largest), l)) {
        NextObjectIsNext(largest, l);
      }
    }
  }

  /** A relative start of one Group or more reaches back to where live delivery begins or before, so
      from that Group on, and from the first if it is further back, nothing is missed. Draft-22's way of
      joining with a fill. */
  lemma RelativeFillMeetsLive(n: U64, largest: Option<Location>, l: Location)
    requires n > 0
    ensures var fill := LocationFilter(RELATIVE_START, Location(n, 0), 0, 0);
            FetchAdmits(fill, largest, l) || SubscriptionAdmits(LIVE, largest, l)
            <==> largest.None? || l.group >= largest.value.group + 1 - n
  {
    JoinLeavesNoGap(LocationFilter(RELATIVE_START, Location(n, 0), 0, 0), largest, l);
  }

  // ---- Draft-18's exclusive ends.

  /** What draft-18 says an explicit range covers: whole Groups, or up to but not including an Object. */
  predicate V18Admits(start: Location, end: Location, l: Location) {
    AtMost(start, l) && (l.group < end.group || (l.group == end.group && (end.obj == 0 || l.obj < end.obj)))
  }

  predicate Admits(f: LocationFilter, l: Location) {
    SubscriptionAdmits(f, None, l)
  }

  /** A received range becomes a filter admitting the same Locations. */
  lemma FromV18Admits(start: Location, end: Location, l: Location)
    requires FetchFilterFromV18(start, end).Success?
    ensures Valid(FetchFilterFromV18(start, end).value)
    ensures Admits(FetchFilterFromV18(start, end).value, l) <==> V18Admits(start, end, l)
  {
  }

  /** It is rejected exactly when it covers nothing. */
  lemma FromV18RejectsEmpty(start: Location, end: Location)
    ensures FetchFilterFromV18(start, end).Failure? <==> forall l: Location :: !V18Admits(start, end, l)
  {
    assert FetchFilterFromV18(start, end).Success? ==> V18Admits(start, end, start);
  }

  /** A sent range covers what its filter admits, whatever Largest Object is. */
  lemma ToV18Admits(f: LocationFilter, largest: Option<Location>, l: Location)
    requires V18FetchRange(f).Success?
    ensures var (start, end) := V18FetchRange(f).value;
            V18Admits(start, end, l) <==> SubscriptionAdmits(f, largest, l)
  {
  }

  /** A range that ends at the last Location of all ends where an open one does. */
  lemma EndsAlike(f: LocationFilter, g: LocationFilter, largest: Option<Location>)
    requires FirstAdmitted(f, largest) == FirstAdmitted(g, largest)
    requires End(g) == End(f) || (End(f).None? && End(g) == Some(LAST))
    ensures FetchRange(g, largest) == FetchRange(f, largest)
  {
  }

  lemma V18BoundedRange(f: LocationFilter)
    requires HasEndGroup(f.typ) && Valid(f)
    ensures match FetchFilterFromV18(f.start, V18EndLocation(End(f).value))
            case Success(g) => End(g) == End(f) && HasEndGroup(g.typ) && g.start == f.start
            case Failure(_) => f.typ == ABSOLUTE_RANGE && !AtMost(f.start, End(f).value)
  {
  }

  /** Through draft-18 and back, a fetch resolves to the same range for every Largest Object, or is
      rejected on receipt when there is none. */
  lemma V18TranslationPreservesRange(f: LocationFilter, largest: Option<Location>)
    requires V18FetchRange(f).Success?
    ensures var (start, end) := V18FetchRange(f).value;
            match FetchFilterFromV18(start, end)
            case Success(g) => FetchRange(g, largest) == FetchRange(f, largest)
            case Failure(_) => FetchRange(f, largest).None?
  {
    var (start, end) := V18FetchRange(f).value;
    var received := FetchFilterFromV18(start, end);
    if HasEndGroup(f.typ) {
      V18BoundedRange(f);
      hide FetchFilterFromV18, V18FetchRange, V18EndLocation, End;
      if received.Success? {
        assert FirstAdmitted(received.value, largest) == FirstAdmitted(f, largest);
        EndsAlike(f, received.value, largest);
      }
    } else {
      assert End(received.value) == Some(LAST);
      EndsAlike(f, received.value, largest);
    }
  }

  /** Rejected exactly when the filter admits nothing. */
  lemma V18RejectsEmptyFilter(f: LocationFilter, largest: Option<Location>)
    requires V18FetchRange(f).Success?
    ensures var (start, end) := V18FetchRange(f).value;
            FetchFilterFromV18(start, end).Failure? <==> forall l: Location :: !SubscriptionAdmits(f, largest, l)
  {
    hide V18FetchRange, FetchFilterFromV18, V18Admits, SubscriptionAdmits;
    var (start, end) := V18FetchRange(f).value;
    FromV18RejectsEmpty(start, end);
    forall l: Location ensures V18Admits(start, end, l) <==> SubscriptionAdmits(f, largest, l) {
      ToV18Admits(f, largest, l);
    }
  }

  /** The filters draft-18's FETCH can carry: all but the relative ones, if they are valid. */
  lemma V18Expressible(f: LocationFilter)
    ensures V18FetchRange(f).Success? <==> Valid(f) && f.typ != RELATIVE_START && f.typ != NEXT_OBJECT
  {
  }

  /** The exclusive end and the inclusive one are the same information, both ways. */
  lemma EndLocationBijection(l: Location)
    ensures InclusiveFromV18End(V18EndLocation(l)) == l
    ensures V18EndLocation(InclusiveFromV18End(l)) == l
  {
  }
}
