/** Ranges as applications ask for them, and what a FETCH for one resolves to at the
    publisher: standalone in either draft, or joined to a subscription. */
module Fetches {
  import opened Wire
  import opened LocationFilters
  import opened FilterCodec

  // ---- The range constructor an application uses.

  /** The subtraction wraps: an end in an earlier Group leaves a delta past the last Group. */
  function AbsoluteRange(start: Location, end: Location): LocationFilter {
    var delta := WrapSub(end.group, start.group);
    if end.obj == MAX_OBJECT_ID then LocationFilter(ABSOLUTE_GROUP_END, start, delta, 0)
    else LocationFilter(ABSOLUTE_RANGE, start, delta, end.obj)
  }

  /** A range that is not backwards admits exactly the Locations from start through end. */
  lemma AbsoluteRangeAdmits(start: Location, end: Location, l: Location)
    requires start.group <= end.group
    ensures Valid(AbsoluteRange(start, end)) && End(AbsoluteRange(start, end)) == Some(end)
    ensures Admits(AbsoluteRange(start, end), l) <==> AtMost(start, l) && AtMost(l, end)
  {
  }

  /** Whatever the ends, validate objects exactly when the end is in an earlier Group. */
  lemma ValidateCatchesWrap(start: Location, end: Location)
    ensures Valid(AbsoluteRange(start, end)) <==> start.group <= end.group
  {
    WrapSubCases(end.group, start.group);
  }

  lemma WrapSubCases(a: U64, b: U64)
    ensures WrapSub(a, b) == if a >= b then a - b else TWO_64 + a - b
  {
  }

  // ---- A standalone FETCH, sent and received.

  datatype FetchRangeFields = Explicit(start: Location, end: Location) | Filtered(filter: Option<LocationFilter>)

  /** Draft-18 spells the range out; draft-22 sends a filter, and leaves out the one that admits everything. */
  function SendFetch(f: LocationFilter, version: Version): Result<FetchRangeFields> {
    match version
    case Draft18 => (
      match V18FetchRange(f)
      case Failure(e) => Failure(e)
      case Success((start, end)) => Success(Explicit(start, end)))
    case Draft22 =>
      if f.typ == NONE then Success(Filtered(None))
      else
        match FilterBytes(f, Draft22)
        case Failure(e) => Failure(e)
        case Success(_) => Success(Filtered(Some(Received(f, Draft22))))
  }

  function ReceiveFetch(w: FetchRangeFields): Result<LocationFilter> {
    match w
    case Explicit(start, end) => FetchFilterFromV18(start, end)
    case Filtered(f) => Success(if f.Some? then f.value else ZERO_FILTER)
  }

  /** In either draft, a FETCH that can be sent resolves at the publisher to the range its filter
      resolves to, whatever Largest Object is; if it is refused on receipt the range was empty. */
  lemma FetchKeepsRange(f: LocationFilter, version: Version, largest: Option<Location>)
    requires SendFetch(f, version).Success?
    ensures match ReceiveFetch(SendFetch(f, version).value)
            case Success(g) => FetchRange(g, largest) == FetchRange(f, largest)
            case Failure(_) => FetchRange(f, largest).None?
  {
    if version.Draft18? {
      V18TranslationPreservesRange(f, largest);
    } else if f.typ != NONE {
      ExpressibleIsWritable(f, Draft22);
      ReceivedMeansSame(f, Draft22, largest);
    }
  }

  // ---- A range that runs backwards.

  /** What is sent and what is not, for every pair of ends and every way a range is sent. A draft-18
      subscription takes only a range that ends with a whole Group. Everything else -- a draft-22
      subscription or fill, and a FETCH in either draft -- refuses a range exactly when its end is in an
      earlier Group, which is when the wrapped delta is caught. */
  lemma RangeFailsToSend(start: Location, end: Location)
    ensures FilterBytes(AbsoluteRange(start, end), Draft18).Failure? <==>
            end.group < start.group || end.obj != MAX_OBJECT_ID
    ensures FilterBytes(AbsoluteRange(start, end), Draft22).Failure? <==> end.group < start.group
    ensures SendFetch(AbsoluteRange(start, end), Draft18).Failure? <==> end.group < start.group
    ensures SendFetch(AbsoluteRange(start, end), Draft22).Failure? <==> end.group < start.group
  {
    hide FilterBytes, Validate;
    var f := AbsoluteRange(start, end);
    ExpressibleIsWritable(f, Draft18);
    ExpressibleIsWritable(f, Draft22);
    ValidateCatchesWrap(start, end);
    V18Expressible(f);
  }

  /** The documentation says that an end before the start fails to send. Only a draft-18 subscription
      always keeps that; a draft-22 one, and a FETCH in either draft, keep it exactly when the end is in
      an earlier Group. */
  lemma BackwardsRangeFailsToSend(start: Location, end: Location)
    requires !AtMost(start, end)
    ensures FilterBytes(AbsoluteRange(start, end), Draft18).Failure?
    ensures FilterBytes(AbsoluteRange(start, end), Draft22).Failure? <==> end.group < start.group
    ensures SendFetch(AbsoluteRange(start, end), Draft18).Failure? <==> end.group < start.group
    ensures SendFetch(AbsoluteRange(start, end), Draft22).Failure? <==> end.group < start.group
  {
    hide FilterBytes, SendFetch, AbsoluteRange;
    RangeFailsToSend(start, end);
  }

  /** The family that gets through, by an example on each path: it is sent and admits nothing. The
      publisher refuses the draft-18 FETCH on receipt; the others it resolves to an empty range. */
  lemma BackwardsInsideGroupIsSent(largest: Option<Location>, l: Location)
    ensures var f := AbsoluteRange(Location(5, 9), Location(5, 3));
            && FilterBytes(f, Draft22).Success? && !SubscriptionAdmits(f, largest, l)
            && SendFetch(f, Draft18) == Success(Explicit(Location(5, 9), Location(5, 4)))
            && ReceiveFetch(SendFetch(f, Draft18).value).Failure?
            && SendFetch(f, Draft22).Success? && ReceiveFetch(SendFetch(f, Draft22).value).Success?
            && FetchRange(ReceiveFetch(SendFetch(f, Draft22).value).value, largest).None?
  {
    RangeFailsToSend(Location(5, 9), Location(5, 3));
    hide FilterBytes;
  }

  // ---- A FETCH at the publisher.

  datatype FetchType = Standalone | RelativeJoining | AbsoluteJoining

  datatype FetchError = InvalidJoiningRequestId | InvalidRange | AlreadyAnswered | EndLocationUnknown

  /** The subscription a Joining FETCH names: whether it forwards, and the Largest Object its SUBSCRIBE_OK reported. */
  datatype Joined = Joined(forward: bool, joining: Option<Location>)

  datatype Outcome<+T> = Done(value: T) | Refused(error: FetchError)

  /** The first Group a Joining FETCH asks for. */
  function JoiningGroup(t: FetchType, joiningStart: U64, joining: Location): int {
    if t.RelativeJoining? then joining.group - joiningStart else joiningStart
  }

  function ResolveJoining(sub: Option<Joined>, t: FetchType, joiningStart: U64): Outcome<LocationFilter>
    requires !t.Standalone?
  {
    if sub.None? then Refused(InvalidJoiningRequestId)
    else if !sub.value.forward || sub.value.joining.None? then Refused(InvalidRange)
    else
      var joining := sub.value.joining.value;
      if joiningStart > joining.group then Refused(InvalidRange)
      else Done(AbsoluteRange(Location(JoiningGroup(t, joiningStart, joining), 0), joining))
  }

  class FetchRequest {
    const version: Version
    const fetchType: FetchType
    var filter: LocationFilter
    var resolved: Option<LocationRange>
    var answered: bool

    constructor (version: Version, fetchType: FetchType, filter: LocationFilter)
      ensures this.version == version && this.fetchType == fetchType
      ensures this.filter == filter && resolved.None? && !answered
    {
      this.version, this.fetchType, this.filter := version, fetchType, filter;
      resolved, answered := None, false;
    }

    /** Turns a Joining FETCH into a range, or says why it cannot be served. */
    method ResolveJoiningFetch(sub: Option<Joined>, joiningStart: U64) returns (res: Outcome<()>)
      requires !fetchType.Standalone?
      modifies this`filter
      ensures match ResolveJoining(sub, fetchType, joiningStart)
              case Done(f) => res == Done(()) && filter == f
              case Refused(e) => res == Refused(e) && filter == old(filter)
    {
      if sub.None? {
        return Refused(InvalidJoiningRequestId);
      }
      if !sub.value.forward {
        return Refused(InvalidRange);
      }
      if sub.value.joining.None? {
        return Refused(InvalidRange);
      }
      var joining := sub.value.joining.value;
      var start := ORIGIN;
      if fetchType.RelativeJoining? {
        if joiningStart > joining.group {
          return Refused(InvalidRange);
        }
        start := Location(joining.group - joiningStart, 0);
      } else {
        if joiningStart > joining.group {
          return Refused(InvalidRange);
        }
        start := Location(joiningStart, 0);
      }
      filter := AbsoluteRange(start, joining);
      return Done(());
    }

    /** Resolves against Largest Object, and keeps the end for Accept to report. */
    method Range(largest: Option<Location>) returns (r: Option<LocationRange>)
      modifies this`resolved
      ensures r == FetchRange(filter, largest)
      ensures resolved == if r.Some? then r else old(resolved)
    {
      r := FetchRange(filter, largest);
      if r.Some? {
        resolved := r;
      }
    }

    /** The End Location FETCH_OK carries: the last Location the response covers, as the caller gives it, or
        as Range found it, or as the filter has it. It can be given only once, and not before it is known. */
    method Accept(given: Option<Location>) returns (res: Outcome<Location>)
      modifies this`answered
      ensures old(answered) ==> res == Refused(AlreadyAnswered) && answered
      ensures !old(answered) && given.Some? ==> answered && res == Done(OnWire(version, given.value))
      ensures !old(answered) && given.None? && resolved.Some? ==>
                answered && res == Done(OnWire(version, resolved.value.end))
      ensures !old(answered) && given.None? && resolved.None? ==>
                if HasEndGroup(filter.typ) then answered && res == Done(OnWire(version, End(filter).value))
                else res == Refused(EndLocationUnknown) && !answered
    {
      if answered {
        return Refused(AlreadyAnswered);
      }
      var end := given;
      if end.None? && resolved.Some? {
        end := Some(resolved.value.end);
      }
      if end.None? {
        end := End(filter);
      }
      if end.None? {
        return Refused(EndLocationUnknown);
      }
      answered := true;
      var wire := end.value;
      if version.Draft18? {
        wire := V18EndLocation(end.value);
      }
      return Done(wire);
    }
  }

  function OnWire(version: Version, end: Location): Location {
    if version.Draft18? then V18EndLocation(end) else end
  }

  /** What Range found is the last Location the response covers. */
  lemma ResolvedEndIsLast(f: LocationFilter, largest: Option<Location>, l: Location)
    requires FetchRange(f, largest).Some?
    ensures FetchAdmits(f, largest, FetchRange(f, largest).value.end)
    ensures FetchAdmits(f, largest, l) ==> AtMost(l, FetchRange(f, largest).value.end)
  {
  }

  function OffWire(version: Version, end: Location): Location {
    if version.Draft18? then InclusiveFromV18End(end) else end
  }

  /** The End Location the subscriber learns is the one the publisher chose. */
  lemma EndLocationArrives(version: Version, end: Location)
    ensures OffWire(version, OnWire(version, end)) == end
  {
    EndLocationBijection(end);
  }

  // ---- Joining without gap or overlap.

  /** A Joining FETCH is served exactly when the subscription is there, forwarding, has a Joining
      Location, and the Group asked for is on the track at or before it. */
  lemma JoiningServed(sub: Option<Joined>, t: FetchType, joiningStart: U64)
    requires !t.Standalone?
    ensures ResolveJoining(sub, t, joiningStart).Done? <==>
            && sub.Some? && sub.value.forward && sub.value.joining.Some?
            && joiningStart <= sub.value.joining.value.group
  {
  }

  /** The first Group of a Joining FETCH: so many before the Joining Location's, or the one named. */
  predicate FirstGroup(t: FetchType, joiningStart: U64, joining: Location, group: U64) {
    match t
    case RelativeJoining => group + joiningStart == joining.group
    case AbsoluteJoining => group == joiningStart
    case Standalone => false
  }

  /** Which refusal it is otherwise. */
  lemma JoiningRefusals(sub: Option<Joined>, t: FetchType, joiningStart: U64)
    requires !t.Standalone?
    ensures ResolveJoining(sub, t, joiningStart) == Refused(InvalidJoiningRequestId) <==> sub.None?
    ensures ResolveJoining(sub, t, joiningStart) == Refused(InvalidRange) <==>
            sub.Some? && !(sub.value.forward && sub.value.joining.Some? && joiningStart <= sub.value.joining.value.group)
  {
  }

  /** Served, it covers exactly the Locations from its first Group through the Joining Location,
      even if the track has moved on; and with a subscription that starts at the Next Object every
      Location from there on is covered. */
  lemma JoiningLeavesNoGap(
      joining: Location, t: FetchType, joiningStart: U64, group: U64, largest: Location, l: Location)
    requires FirstGroup(t, joiningStart, joining, group) && group <= joining.group && AtMost(joining, largest)
    ensures var f := ResolveJoining(Some(Joined(true, Some(joining))), t, joiningStart).value;
            && (FetchAdmits(f, Some(largest), l) <==> l.group >= group && AtMost(l, joining))
            && (FetchAdmits(f, Some(largest), l) || SubscriptionAdmits(LIVE, Some(joining), l) <==> l.group >= group)
  {
    var start := Location(group, 0);
    var f := AbsoluteRange(start, joining);
    AbsoluteRangeAdmits(start, joining, l);
    FetchIsPublishedPart(f, Some(largest), l);
    NextObjectIsNext(joining, l);
  }

  /** No Location is delivered by both if and only if the Joining Location is not the last of all. */
  lemma JoiningHasNoOverlap(joining: Location, t: FetchType, joiningStart: U64, group: U64, largest: Location)
    requires FirstGroup(t, joiningStart, joining, group) && group <= joining.group && AtMost(joining, largest)
    ensures var f := ResolveJoining(Some(Joined(true, Some(joining))), t, joiningStart).value;
            (forall l: Location :: !(FetchAdmits(f, Some(largest), l) && SubscriptionAdmits(LIVE, Some(joining), l)))
            <==> joining != LAST
  {
    hide FetchAdmits;
    var f := ResolveJoining(Some(Joined(true, Some(joining))), t, joiningStart).value;
    forall l: Location
      ensures FetchAdmits(f, Some(largest), l) && SubscriptionAdmits(LIVE, Some(joining), l) ==> joining == LAST
    {
      JoiningLeavesNoGap(joining, t, joiningStart, group, largest, l);
      NextObjectIsNext(joining, l);
    }
    if joining == LAST {
      JoiningLeavesNoGap(joining, t, joiningStart, group, largest, LAST);
      assert SubscriptionAdmits(LIVE, Some(joining), LAST);
    }
  }
}
