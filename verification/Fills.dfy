/** Fills: the publisher decides whether to open a stream for one, and the subscriber, who
    is told nothing, works out the same from the answer. */
module Fills {
  import opened Wire
  import opened LocationFilters
  import opened Parameters
  import opened EarlyUpdates

  /** The range a fill is asked for: its own filter, or else the subscription's, or else everything. */
  function FillFilter(subscription: Option<LocationFilter>, inner: ParameterList): LocationFilter {
    var own := FilterOf(inner);
    if own.Some? then own.value else if subscription.Some? then subscription.value else ZERO_FILTER
  }

  /** Whether the publisher opens a stream. */
  predicate Opens(s: Settings, largest: Option<Location>, inner: ParameterList) {
    s.forward && FetchRange(FillFilter(s.filter, inner), largest).Some?
  }

  /** Whether the subscriber concludes that no stream is coming. */
  predicate ConcludesNone(filter: Option<LocationFilter>, paused: bool, largest: Option<Location>, inner: ParameterList) {
    paused || FetchRange(FillFilter(filter, inner), largest).None?
  }

  /** The filter a fill goes by: its own if it has one, else the subscription's, else none. */
  predicate GoesBy(subscription: Option<LocationFilter>, inner: ParameterList, f: LocationFilter) {
    if First(inner, 0x21).Some? then f == First(inner, 0x21).value.filter
    else if subscription.Some? then f == subscription.value
    else f.typ == 0
  }

  /** A publisher opens a stream exactly when it forwards and something published is admitted. */
  lemma OpensExactly(s: Settings, largest: Option<Location>, inner: ParameterList, f: LocationFilter)
    requires GoesBy(s.filter, inner, f)
    ensures Opens(s, largest, inner) <==>
            s.forward && exists l: Location :: Published(largest, l) && FromStart(f, largest, l) && ToEnd(f, l)
  {
    RangeIsThere(s.filter, largest, inner, f);
  }

  /** And a subscriber expects none exactly when it is paused or nothing published is. */
  lemma ConcludesNoneExactly(
      filter: Option<LocationFilter>, paused: bool, largest: Option<Location>, inner: ParameterList, f: LocationFilter)
    requires GoesBy(filter, inner, f)
    ensures ConcludesNone(filter, paused, largest, inner) <==>
            paused || !exists l: Location :: Published(largest, l) && FromStart(f, largest, l) && ToEnd(f, l)
  {
    RangeIsThere(filter, largest, inner, f);
  }

  lemma RangeIsThere(filter: Option<LocationFilter>, largest: Option<Location>, inner: ParameterList, f: LocationFilter)
    requires GoesBy(filter, inner, f)
    ensures FetchRange(FillFilter(filter, inner), largest).Some? <==>
            exists l: Location :: Published(largest, l) && FromStart(f, largest, l) && ToEnd(f, l)
  {
    hide FetchRange, First;
    var g := FillFilter(filter, inner);
    FetchRefusedWhenEmpty(g, largest);
    forall l: Location
      ensures FromStart(f, largest, l) && ToEnd(f, l) <==> SubscriptionAdmits(g, largest, l)
    {
      SubscriptionAdmitsExactly(g, largest, l);
    }
  }

  /** How a fill ended: delivered in full, or with an error. */
  datatype FillOutcome = Complete | Failed

  /** How many of a subscription's data streams have ended, and the one-place channel that says another has. */
  class StreamCounter {
    var ended: nat
    var signal: bool

    constructor ()
      ensures ended == 0 && !signal
    {
      ended, signal := 0, false;
    }

    method StreamEnded()
      modifies this
      ensures ended == old(ended) + 1 && signal
    {
      ended := ended + 1;
      signal := true;
    }
  }

  /** The Request IDs that name a stream's receiver. */
  class FetchReceivers {
    var ids: set<U64>

    constructor ()
      ensures ids == {}
    {
      ids := {};
    }

    method Register(id: U64)
      modifies this
      ensures ids == old(ids) + {id}
    {
      ids := ids + {id};
    }

    method Unregister(id: U64)
      modifies this
      ensures ids == old(ids) - {id}
    {
      ids := ids - {id};
    }
  }

  class FillStream {
    const requestId: U64
    const params: ParameterList
    const counter: StreamCounter
    var attached: bool
    var outcome: Option<FillOutcome>

    constructor (requestId: U64, params: ParameterList, counter: StreamCounter)
      ensures this.requestId == requestId && this.params == params && this.counter == counter
      ensures !attached && outcome.None?
    {
      this.requestId, this.params, this.counter, attached, outcome := requestId, params, counter, false, None;
    }

    /** The first outcome wins. */
    method Finish(o: FillOutcome)
      modifies this`outcome
      ensures outcome == if old(outcome).Some? then old(outcome) else Some(o)
    {
      if outcome.None? {
        outcome := Some(o);
      }
    }

    /** Takes the data stream, unless there is one already or the fill is over. */
    method Attach() returns (ok: bool)
      modifies this`attached
      ensures ok == (outcome.None? && !old(attached))
      ensures attached == (old(attached) || ok)
    {
      if outcome.Some? || attached {
        return false;
      }
      attached := true;
      return true;
    }

    /** Completes the fill at once if the answer shows that no stream is coming, unless it is here. */
    method Expect(filter: Option<LocationFilter>, largest: Option<Location>, paused: bool)
      modifies this`outcome
      ensures outcome ==
              if old(outcome).None? && !attached && ConcludesNone(filter, paused, largest, params)
              then Some(Complete) else old(outcome)
    {
      if attached {
        return;
      }
      var f := if filter.Some? then filter.value else ZERO_FILTER;
      var inner := Get(params, LOCATION_FILTER);
      if inner.Some? {
        f := inner.value.filter;
      }
      if paused || FetchRange(f, largest).None? {
        Finish(Complete);
      }
    }

    /** The stream ended; it counts whichever way. */
    method ResponseComplete(complete: bool)
      modifies this`outcome, counter
      ensures outcome == if old(outcome).Some? then old(outcome) else Some(if complete then Complete else Failed)
      ensures counter.ended == old(counter.ended) + 1 && counter.signal
    {
      if complete {
        Finish(Complete);
      } else {
        Finish(Failed);
      }
      counter.StreamEnded();
    }

    /** What the end of the subscription does to a fill whose stream never came. */
    method Abandon()
      modifies this`outcome
      ensures outcome == if old(outcome).Some? || attached then old(outcome) else Some(Failed)
    {
      if !attached {
        Finish(Failed);
      }
    }
  }
}
