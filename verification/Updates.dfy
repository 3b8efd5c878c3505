/** REQUEST_UPDATEs pipelined on a subscription's stream. The subscriber keeps a slot per
    unanswered update and mirrors the state it asked for; answers come back in order and
    carry no more than Largest Object. */
module Updates {
  import opened Wire
  import opened LocationFilters
  import opened Parameters
  import opened EarlyUpdates
  import opened Fills

  function NoteLargest(known: Option<Location>, l: Location): (r: Option<Location>)
    ensures r.Some?
  {
    if known.None? || Compare(l, known.value) > 0 then Some(l) else known
  }

  function NoteReport(known: Option<Location>, reported: Option<Location>): Option<Location> {
    if reported.None? then known else NoteLargest(known, reported.value)
  }

  /** An unanswered update's slot: the fill it asked for, if it did, and whose it is. */
  datatype Slot = Slot(requestId: U64, fill: Option<ParameterList>)

  datatype Update = Update(requestId: U64, params: ParameterList)

  /** REQUEST_OK with what it reports, or REQUEST_ERROR. */
  datatype Answer = Answered(largest: Option<Location>) | Refused

  // ---- The subscriber.

  datatype Subscriber = Subscriber(
    pending: seq<Slot>, paused: bool, filter: Option<LocationFilter>, largest: Option<Location>)

  predicate AtLimit(sub: Subscriber, limit: U64) {
    limit > 0 && |sub.pending| >= limit
  }

  /** Pause and filter as the subscriber records them from what it asks for. */
  function Recorded(paused: bool, filter: Option<LocationFilter>, params: ParameterList): (bool, Option<LocationFilter>) {
    var forward, f := First(params, FORWARD), FilterOf(params);
    (if forward.Some? then forward.value.number == 0 else paused, if f.Some? then ActiveFilter(f) else filter)
  }

  /** What the subscriber holds once an update has gone out. */
  function Asked(sub: Subscriber, u: Update): Subscriber {
    var (paused, filter) := Recorded(sub.paused, sub.filter, u.params);
    Subscriber(sub.pending + [Slot(u.requestId, FillOf(u.params))], paused, filter, sub.largest)
  }

  /** And once one has not: the slot is free again, the record is not undone. */
  function Unsent(sub: Subscriber, u: Update): Subscriber {
    Asked(sub, u).(pending := sub.pending)
  }

  /** The oldest slot is freed by each answer. */
  function Heard(sub: Subscriber, a: Answer): Subscriber {
    sub.(pending := if sub.pending == [] then [] else sub.pending[1..],
         largest := if a.Answered? then NoteReport(sub.largest, a.largest) else sub.largest)
  }

  /** Whether hearing an answer makes the subscriber give up on the oldest update's fill. */
  predicate GivesUp(sub: Subscriber, a: Answer) {
    && a.Answered? && sub.pending != [] && sub.pending[0].fill.Some?
    && var heard := Heard(sub, a);
       ConcludesNone(heard.filter, heard.paused, heard.largest, sub.pending[0].fill.value)
  }

  class RemoteTrack {
    const limit: U64
    const counter: StreamCounter
    const receivers: FetchReceivers
    var nextId: U64
    var pendingUpdates: seq<(U64, FillStream?)>
    var fills: seq<FillStream>
    var paused: bool
    var filter: Option<LocationFilter>
    var largest: Option<Location>

    constructor (limit: U64, counter: StreamCounter, receivers: FetchReceivers, nextId: U64, paused: bool,
                 filter: Option<LocationFilter>, largest: Option<Location>)
      ensures this.limit == limit && this.counter == counter && this.receivers == receivers && this.nextId == nextId
      ensures pendingUpdates == [] && fills == []
      ensures State() == Subscriber([], paused, filter, largest)
    {
      this.limit, this.counter, this.receivers, this.nextId := limit, counter, receivers, nextId;
      pendingUpdates, fills := [], [];
      this.paused, this.filter, this.largest := paused, filter, largest;
      new;
      assert SlotsOf(pendingUpdates) == [];
    }

    static function SlotsOf(slots: seq<(U64, FillStream?)>): (r: seq<Slot>)
      ensures |r| == |slots|
    {
      seq(|slots|, n requires 0 <= n < |slots| =>
        Slot(slots[n].0, if slots[n].1 == null then None else Some(slots[n].1.params)))
    }

    function State(): Subscriber
      reads this
    {
      Subscriber(SlotsOf(pendingUpdates), paused, filter, largest)
    }

    /** Sends an update, unless too many are unanswered. `written` is whether the write succeeds. When it
        does not, the slot is freed again and the fill is over, but what was asked for stays recorded --
        even if the update was refused before a byte was written and the stream goes on. */
    method UpdateWith(params: ParameterList, written: bool) returns (sent: Option<Update>)
      modifies this, receivers
      ensures limit != 0 && |old(pendingUpdates)| >= limit ==>
                sent.None? && State() == old(State()) && nextId == old(nextId) && fills == old(fills)
      ensures limit == 0 || |old(pendingUpdates)| < limit ==>
                var u := Update(old(nextId), params);
                && nextId == WrapAdd(old(nextId), 2)
                && sent == (if written then Some(u) else None)
                && State() == if written then Asked(old(State()), u) else Unsent(old(State()), u)
      ensures !written ==> fills == old(fills)
      ensures receivers.ids ==
              if (limit != 0 && |old(pendingUpdates)| >= limit) || FillOf(params).None? then old(receivers.ids)
              else if written then old(receivers.ids) + {old(nextId)} else old(receivers.ids) - {old(nextId)}
    {
      if limit > 0 && |pendingUpdates| >= limit {
        return None;
      }
      var id := nextId;
      nextId := WrapAdd(nextId, 2);
      var fill := TakeSlot(id, params);
      Record(params);
      if fill != null {
        receivers.Register(id);
      }
      if !written {
        GiveBackSlot(fill);
        if fill != null {
          receivers.Unregister(id);
        }
        return None;
      }
      return Some(Update(id, params));
    }

    /** The slot is taken, with the fill the update asks for. */
    method TakeSlot(id: U64, params: ParameterList) returns (fill: FillStream?)
      modifies this`pendingUpdates, this`fills
      ensures SlotsOf(pendingUpdates) == old(SlotsOf(pendingUpdates)) + [Slot(id, FillOf(params))]
      ensures |pendingUpdates| > 0 && pendingUpdates[..|pendingUpdates| - 1] == old(pendingUpdates)
      ensures fills == if fill == null then old(fills) else old(fills) + [fill]
      ensures (fill == null) == FillOf(params).None?
      ensures fill != null ==> fresh(fill) && fill.outcome.None?
    {
      var asked := Get(params, FILL_PARAMETERS);
      fill := null;
      if asked.Some? {
        fill := new FillStream(id, asked.value.params, counter);
        fills := fills + [fill];
      }
      ghost var before := SlotsOf(pendingUpdates);
      pendingUpdates := pendingUpdates + [(id, fill)];
      assert SlotsOf(pendingUpdates) == before + [Slot(id, FillOf(params))];
    }

    /** What was asked for is recorded before the write: the answer can arrive before the write returns. */
    method Record(params: ParameterList)
      modifies this`paused, this`filter
      ensures paused == Recorded(old(paused), old(filter), params).0
      ensures filter == Recorded(old(paused), old(filter), params).1
    {
      var forward := Get(params, FORWARD);
      if forward.Some? {
        paused := forward.value.number == 0;
      }
      var f := Get(params, LOCATION_FILTER);
      if f.Some? {
        filter := ActiveFilter(Some(f.value.filter));
      }
    }

    method GiveBackSlot(fill: FillStream?)
      requires |pendingUpdates| > 0 && (fill != null ==> |fills| > 0)
      modifies this`pendingUpdates, this`fills, fill
      ensures pendingUpdates == old(pendingUpdates)[..|old(pendingUpdates)| - 1]
      ensures fills == if fill == null then old(fills) else old(fills)[..|old(fills)| - 1]
      ensures fill != null ==> fill.outcome.Some?
    {
      pendingUpdates := pendingUpdates[..|pendingUpdates| - 1];
      if fill != null {
        fills := fills[..|fills| - 1];
        fill.Finish(Failed);
      }
    }

    /** Frees the oldest update's slot. */
    method AnsweredUpdate() returns (fill: FillStream?)
      modifies this`pendingUpdates
      ensures SlotsOf(pendingUpdates) ==
              if old(pendingUpdates) == [] then [] else SlotsOf(old(pendingUpdates))[1..]
      ensures fill == if old(pendingUpdates) == [] then null else old(pendingUpdates)[0].1
    {
      if |pendingUpdates| == 0 {
        return null;
      }
      fill := pendingUpdates[0].1;
      pendingUpdates := pendingUpdates[1..];
      assert SlotsOf(pendingUpdates) == SlotsOf(old(pendingUpdates))[1..];
    }

    /** Hears an answer. A fill that is over, or whose stream is here, is left alone. */
    method HandleAnswer(a: Answer)
      modifies this, set s | s in pendingUpdates && s.1 != null :: s.1
      ensures State() == Heard(old(State()), a)
      ensures old(pendingUpdates) != [] && old(pendingUpdates)[0].1 != null ==>
                var fill := old(pendingUpdates)[0].1;
                fill.outcome ==
                if old(fill.outcome).Some? then old(fill.outcome)
                else if a.Refused? then Some(Failed)
                else if !fill.attached && GivesUp(old(State()), a) then Some(Complete)
                else None
    {
      ghost var before := State();
      var fill := AnsweredUpdate();
      match a {
        case Refused =>
          if fill != null {
            fill.Finish(Failed);
          }
        case Answered(reported) =>
          if reported.Some? {
            if largest.None? || Compare(reported.value, largest.value) > 0 {
              largest := reported;
            }
          }
          if fill != null {
            fill.Expect(filter, largest, paused);
          }
      }
    }
  }

  // ---- The publisher.

  datatype Publisher = Publisher(settings: Settings, largest: Option<Location>, closed: bool)

  /** What applying an update does: the new state, the answer, and whether a fill stream is opened.
      A refused update ends the subscription. */
  datatype Applied = Applied(pub: Publisher, answer: Answer, opens: bool)

  function Apply(pub: Publisher, version: Version, params: ParameterList): Applied {
    match MergeUpdate(pub.settings, params)
    case Failure(_) => Applied(pub.(closed := true), Refused, false)
    case Success(s) =>
      var fill := FillOf(params);
      Applied(pub.(settings := s), Answered(if version.Draft22? then pub.largest else None),
              fill.Some? && Opens(s, pub.largest, fill.value))
  }

  /** What an update does to a publisher: refused, it ends the subscription and leaves the rest as it was;
      applied, it is answered -- in draft-22 with Largest Object -- and opens a fill stream exactly if it asks
      for a fill, and one opens under the settings it leaves. Largest Object stays. */
  lemma AppliedExactly(pub: Publisher, version: Version, params: ParameterList)
    ensures var r := Apply(pub, version, params);
            match MergeUpdate(pub.settings, params)
            case Failure(_) =>
              && r.pub.closed && r.pub.settings == pub.settings && r.pub.largest == pub.largest
              && r.answer == Refused && !r.opens
            case Success(merged) =>
              && r.pub.closed == pub.closed && r.pub.settings == merged && r.pub.largest == pub.largest
              && (version == Draft18 ==> r.answer == Answered(None))
              && (version == Draft22 ==> r.answer == Answered(pub.largest))
              && (r.opens <==> First(params, 0x23).Some? && Opens(merged, pub.largest, First(params, 0x23).value.params))
  {
    hide MergeUpdate, Opens, First;
    FillIsFirst(params);
  }

  /** A fill handed to the application: its range, and what it inherits where its parameters do not say. */
  datatype FillRequest = FillRequest(range: LocationRange, order: GroupOrder, priority: U8)

  /** An order that is given and valid, or the subscription's. */
  function OrderIn(inner: ParameterList, otherwise: GroupOrder): GroupOrder {
    var given := GroupOrderOf(inner);
    if given.Success? && given.value.Some? then given.value.value else otherwise
  }

  /** An order the fill asks for, if it is one, and the subscription's otherwise. */
  lemma OrderInExactly(inner: ParameterList, otherwise: GroupOrder)
    ensures OrderIn(inner, otherwise) ==
            if First(inner, 0x22).None? then otherwise
            else match First(inner, 0x22).value.number % 256 case 1 => Ascending case 2 => Descending case _ => otherwise
  {
  }

  lemma PriorityInExactly(inner: ParameterList, otherwise: U8)
    ensures PriorityOf(inner, otherwise) ==
            if First(inner, 0x20).None? then otherwise else First(inner, 0x20).value.number % 256
  {
  }

  class Subscription {
    const version: Version
    const groupOrder: GroupOrder
    var priority: U8
    var forward: bool
    var filter: Option<LocationFilter>
    var largest: Option<Location>
    var closed: bool

    constructor (version: Version, groupOrder: GroupOrder, s: Settings, largest: Option<Location>)
      ensures this.version == version && this.groupOrder == groupOrder && State() == Publisher(s, largest, false)
    {
      this.version, this.groupOrder := version, groupOrder;
      priority, forward, filter, this.largest, closed := s.priority, s.forward, s.filter, largest, false;
    }

    function State(): Publisher
      reads this
    {
      Publisher(Settings(priority, forward, filter), largest, closed)
    }

    /** Overlays an update, or refuses it and changes nothing. */
    method MergeInto(params: ParameterList) returns (ok: bool)
      modifies this`priority, this`forward, this`filter
      ensures match MergeUpdate(old(State()).settings, params)
              case Success(s) => ok && State() == old(State()).(settings := s)
              case Failure(_) => !ok && State() == old(State())
    {
      if HasRangeFilter(params) {
        return false;
      }
      var newPriority := priority;
      var p := Get(params, SUBSCRIBER_PRIORITY);
      if p.Some? {
        newPriority := p.value.number % 256;
      }
      var newForward := ForwardOf(params, forward);
      if newForward.Failure? {
        return false;
      }
      var newFilter := filter;
      var f := Get(params, LOCATION_FILTER);
      if f.Some? {
        newFilter := ActiveFilter(Some(f.value.filter));
      }
      priority, forward, filter := newPriority, newForward.value, newFilter;
      return true;
    }

    method ApplyUpdate(params: ParameterList) returns (answer: Answer, opens: bool)
      modifies this
      ensures var r := Apply(old(State()), version, params);
              State() == r.pub && answer == r.answer && opens == r.opens
    {
      var ok := MergeInto(params);
      if !ok {
        closed := true;
        return Refused, false;
      }
      answer := Answered(if version.Draft22? then largest else None);
      opens := false;
      var fill := Get(params, FILL_PARAMETERS);
      if fill.Some? {
        var request := StartFill(fill.value.params);
        opens := request.Some?;
      }
    }

    /** The fill to open a stream for, if any, resolved against what the answer reported. */
    method StartFill(inner: ParameterList) returns (request: Option<FillRequest>)
      ensures request.Some? == Opens(State().settings, largest, inner)
      ensures request.Some? ==>
                && FetchRange(FillFilter(filter, inner), largest) == Some(request.value.range)
                && request.value.order == OrderIn(inner, groupOrder)
                && request.value.priority == PriorityOf(inner, priority)
    {
      if !forward {
        return None;
      }
      var f := if filter.Some? then filter.value else ZERO_FILTER;
      var own := Get(inner, LOCATION_FILTER);
      if own.Some? {
        f := own.value.filter;
      }
      var range := FetchRange(f, largest);
      if range.None? {
        return None;
      }
      var order := groupOrder;
      var o := Get(inner, GROUP_ORDER);
      if o.Some? && OrderFrom(o.value.number).Success? {
        order := OrderFrom(o.value.number).value;
      }
      var p := Get(inner, SUBSCRIBER_PRIORITY);
      return Some(FillRequest(range.value, order, if p.Some? then p.value.number % 256 else priority));
    }

    method UpdateLargestObject(l: Location)
      modifies this`largest
      ensures State() == old(State()).(largest := NoteLargest(old(largest), l))
    {
      if largest.None? || Compare(l, largest.value) > 0 {
        largest := Some(l);
      }
    }
  }
}
