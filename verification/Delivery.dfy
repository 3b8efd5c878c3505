/** One subscription's two ends, as far as its ending goes: the publisher counts the data
    streams it opens, and the subscriber keeps delivering after PUBLISH_DONE until that
    many have ended. */
module Delivery {
  import opened Wire
  import LocationFilters
  import Fills
  import KeyValuePairs
  import ObjectFields
  import TrackIndex

  /** An Object, with the data stream it travelled on. */
  datatype Object = Object(stream: nat, payload: Bytes)

  const OBJECT_BUFFER := 64

  /** What a publisher that cannot count sends. */
  function UnknownStreamCount(version: Version): nat {
    if version.Draft22? then MAX_U64 else 0x3FFF_FFFF_FFFF_FFFF
  }

  // ---- The subscriber's end.

  /** The goroutine waiting for the counted streams: none, about to compare, or asleep until one ends. */
  datatype Waiter = NoWaiter | Comparing(want: nat) | Asleep(want: nat)

  /** `delivering` is the delivery context, `signal` the one-place channel, and `yielded` what ReadObject
      has returned so far. */
  datatype Receiver = Receiver(
    alias: Option<U64>, publishDone: Option<nat>, endedStreams: nat, signal: bool, waiter: Waiter,
    delivering: bool, objects: seq<Object>, yielded: seq<Object>, reported: bool)

  const NEW_RECEIVER := Receiver(None, None, 0, false, NoWaiter, true, [], [], false)

  function Established(r: Receiver, alias: U64): Receiver {
    r.(alias := Some(alias))
  }

  function GotDone(r: Receiver, streamCount: nat): Receiver {
    r.(publishDone := Some(streamCount))
  }

  function Finish(r: Receiver): Receiver {
    r.(delivering := false, waiter := NoWaiter)
  }

  /** Whether there are streams left to wait for when the request stream ends cleanly. */
  predicate MustWait(r: Receiver, version: Version) {
    && r.publishDone.Some? && r.publishDone.value != UnknownStreamCount(version)
    && r.endedStreams < r.publishDone.value
  }

  function RequestEnded(r: Receiver, version: Version): Receiver {
    if MustWait(r, version) then r.(waiter := Comparing(r.publishDone.value)) else Finish(r)
  }

  /** One turn of the waiting loop. */
  function Compare(r: Receiver): Receiver
    requires r.waiter.Comparing?
  {
    if r.endedStreams >= r.waiter.want then Finish(r) else r.(waiter := Asleep(r.waiter.want))
  }

  function Wake(r: Receiver): Receiver
    requires r.waiter.Asleep? && r.signal
  {
    r.(signal := false, waiter := Comparing(r.waiter.want))
  }

  function StreamEnded(r: Receiver): Receiver {
    r.(endedStreams := r.endedStreams + 1, signal := true)
  }

  predicate HasRoom(r: Receiver) {
    |r.objects| < OBJECT_BUFFER
  }

  function Push(r: Receiver, o: Object): Receiver {
    r.(objects := r.objects + [o])
  }

  /** ReadObject, when it does not block: what is buffered first, and only then the end. */
  function ReadNext(r: Receiver): Receiver
    requires r.objects != [] || !r.delivering
  {
    if r.objects != [] then r.(objects := r.objects[1..], yielded := r.yielded + [r.objects[0]])
    else r.(reported := true)
  }

  /** A request stream that ends cleanly keeps delivery open if and only if PUBLISH_DONE announced a count,
      that is not the number the draft reserves, and fewer streams have ended; otherwise delivery is over. */
  lemma CleanEndWaitsExactly(r: Receiver, version: Version)
    ensures var ended := RequestEnded(r, version);
            var announced := r.publishDone;
            if && announced.Some? && r.endedStreams < announced.value
               && announced.value != match version case Draft18 => 0x3FFF_FFFF_FFFF_FFFF case Draft22 => 0xFFFF_FFFF_FFFF_FFFF
            then ended == r.(waiter := Comparing(announced.value))
            else ended == r.(delivering := false, waiter := NoWaiter)
  {
  }

  /** A waiter that is woken looks once: delivery is over if enough streams have ended, and else it sleeps again,
      the signal used up. */
  lemma WakesToLookOnce(r: Receiver)
    requires r.waiter.Asleep? && r.signal
    ensures Compare(Wake(r)) ==
            if r.waiter.want <= r.endedStreams then r.(signal := false, delivering := false, waiter := NoWaiter)
            else r.(signal := false)
  {
  }

  /** A sender waits for room when 64 Objects are buffered, and not before. */
  lemma RoomForSixtyFour(r: Receiver)
    ensures HasRoom(r) <==> |r.objects| <= 63
  {
  }

  /** Why a sleeping waiter's select returns. */
  datatype Wakeup = StreamSignal | GraceOver | DeliveryOver

  /** What ReadObject returns once it has to wait: an Object, the end of delivery, or its caller's giving up. */
  datatype ReadOutcome = Yielded(o: Object) | Ended | Cancelled

  class RemoteTrack {
    const version: Version
    const track: TrackIndex.Track
    const index: TrackIndex.RemoteTrackIndex
    const counter: Fills.StreamCounter
    const receivers: Fills.FetchReceivers
    const fill: Fills.FillStream?
    var trackAlias: Option<U64>
    var largest: Option<LocationFilters.Location>
    var paused: bool
    var filter: Option<LocationFilters.LocationFilter>
    var publishDone: Option<nat>
    var waiter: Waiter
    var delivering: bool
    var objects: seq<Object>
    var fills: seq<Fills.FillStream>
    ghost var yielded: seq<Object>
    ghost var reported: bool

    /** A subscription about to be asked for, with the fill it asks for, if it does. */
    constructor (version: Version, track: TrackIndex.Track, index: TrackIndex.RemoteTrackIndex,
                 counter: Fills.StreamCounter, receivers: Fills.FetchReceivers, fill: Fills.FillStream?,
                 paused: bool, filter: Option<LocationFilters.LocationFilter>)
      requires counter.ended == 0 && !counter.signal
      ensures this.version == version && this.track == track && this.index == index
      ensures this.counter == counter && this.receivers == receivers && this.fill == fill
      ensures this.paused == paused && this.filter == filter && largest.None?
      ensures State() == NEW_RECEIVER == Receiver(None, None, 0, false, NoWaiter, true, [], [], false)
      ensures fills == if fill == null then [] else [fill]
    {
      this.version, this.track, this.index, this.counter := version, track, index, counter;
      this.receivers, this.fill, this.paused, this.filter, largest := receivers, fill, paused, filter, None;
      trackAlias, publishDone, waiter := None, None, NoWaiter;
      delivering, objects, yielded, reported := true, [], [], false;
      fills := if fill == null then [] else [fill];
    }

    ghost function State(): Receiver
      reads this, counter
    {
      Receiver(trackAlias, publishDone, counter.ended, counter.signal, waiter, delivering, objects, yielded, reported)
    }

    /** SUBSCRIBE_OK, once, with Track Properties that may be there. It settles what to expect of the
        SUBSCRIBE's own fill; its alias must not name another track. */
    method Accepted(alias: U64, properties: KeyValuePairs.KVPList, known: Option<LocationFilters.Location>) returns (res: Result<()>)
      modifies this`trackAlias, this`largest, index, fill
      ensures var valid := ObjectFields.ValidateTrackProperties(properties);
              var taken := valid.Success? && old(trackAlias).None?;
              && res == (if valid.Failure? then valid
                         else if old(trackAlias).Some? then Failure(DuplicateResponse)
                         else if TrackIndex.Free(old(index.State()), alias, track) then Success(())
                         else Failure(DuplicateTrackAlias))
              && State() == (if taken then Established(old(State()), alias) else old(State()))
              && largest == (if taken then known else old(largest))
              && index.State() == (if taken then TrackIndex.Add(old(index.State()), alias, track)
                                   else old(index.State()))
              && (fill != null ==>
                    && fill.attached == old(fill.attached)
                    && fill.outcome == if taken && old(fill.outcome).None? && !fill.attached
                                          && Fills.ConcludesNone(filter, paused, known, fill.params)
                                       then Some(Fills.Complete) else old(fill.outcome))
    {
      var valid := ObjectFields.ValidateTrackProperties(properties);
      if valid.Failure? {
        return valid;
      }
      if trackAlias.Some? {
        return Failure(DuplicateResponse);
      }
      trackAlias, largest := Some(alias), known;
      if fill != null {
        fill.Expect(filter, largest, paused);
      }
      var ok := index.AddTrack(alias, track);
      return if ok then Success(()) else Failure(DuplicateTrackAlias);
    }

    method HandleDone(streamCount: nat)
      modifies this`publishDone
      ensures State() == GotDone(old(State()), streamCount)
    {
      publishDone := Some(streamCount);
    }

    /** Delivery is over: neither the alias nor a fill's Request ID routes here, and fills whose streams never
        came are over too. */
    method FinishDelivery()
      modifies this`delivering, this`waiter, index`byAlias, fills`outcome, receivers
      ensures State() == Finish(old(State()))
      ensures index.State() == Unrouted(old(index.State()), trackAlias, track)
      ensures receivers.ids == old(receivers.ids) - FillIds(fills)
      ensures forall f | f in fills ::
                f.outcome == if old(f.outcome).Some? || f.attached then old(f.outcome) else Some(Fills.Failed)
    {
      delivering := false;
      waiter := NoWaiter;
      if trackAlias.Some? {
        index.RemoveTrack(trackAlias.value, track);
      }
      AbandonFills();
    }

    method AbandonFills()
      modifies fills`outcome, receivers
      ensures receivers.ids == old(receivers.ids) - FillIds(fills)
      ensures forall f | f in fills ::
                f.outcome == if old(f.outcome).Some? || f.attached then old(f.outcome) else Some(Fills.Failed)
    {
      for n := 0 to |fills|
        invariant receivers.ids == old(receivers.ids) - FillIds(fills[..n])
        invariant forall f | f in fills ::
            f.outcome == if old(f.outcome).Some? || f.attached || f !in fills[..n] then old(f.outcome)
                         else Some(Fills.Failed)
      {
        assert fills[..n + 1] == fills[..n] + [fills[n]];
        fills[n].Abandon();
        receivers.Unregister(fills[n].requestId);
      }
      assert fills[..|fills|] == fills;
    }

    /** The tail of run; `clean` is whether the request stream ended between messages. */
    method RunEnded(clean: bool)
      modifies this`delivering, this`waiter, index, fills`outcome, receivers
      ensures State() == if clean then RequestEnded(old(State()), version) else Finish(old(State()))
      ensures var abandoned := TrackIndex.Abandon(old(index.State()), track);
              if clean && MustWait(old(State()), version)
              then index.State() == abandoned && receivers.ids == old(receivers.ids)
              else index.State() == Unrouted(abandoned, trackAlias, track)
                   && receivers.ids == old(receivers.ids) - FillIds(fills)
      ensures forall f | f in fills ::
                f.outcome ==
                if old(f.outcome).Some? || f.attached || (clean && MustWait(old(State()), version))
                then old(f.outcome) else Some(Fills.Failed)
    {
      index.AbandonTrack(track);
      if clean && publishDone.Some? && publishDone.value != UnknownStreamCount(version)
         && counter.ended < publishDone.value {
        waiter := Comparing(publishDone.value);
      } else {
        FinishDelivery();
      }
    }

    /** One turn of the waiting loop: it compares, or its select returns for the reason given. */
    method AwaitDataStreams(why: Wakeup)
      requires !waiter.NoWaiter?
      requires waiter.Asleep? ==>
                 (why.StreamSignal? ==> counter.signal) && (why.DeliveryOver? ==> !delivering)
      modifies this`delivering, this`waiter, index`byAlias, fills`outcome, receivers, counter`signal
      ensures State() == if old(waiter).Comparing? then Compare(old(State()))
                         else if why.StreamSignal? then Wake(old(State())) else Finish(old(State()))
      ensures if waiter.NoWaiter?
              then index.State() == Unrouted(old(index.State()), trackAlias, track)
                   && receivers.ids == old(receivers.ids) - FillIds(fills)
              else index.State() == old(index.State()) && receivers.ids == old(receivers.ids)
      ensures forall f | f in fills ::
                f.outcome == if old(f.outcome).Some? || f.attached || !waiter.NoWaiter?
                             then old(f.outcome) else Some(Fills.Failed)
    {
      var want := waiter.want;
      if waiter.Comparing? {
        if counter.ended >= want {
          FinishDelivery();
        } else {
          waiter := Asleep(want);
        }
      } else if why.StreamSignal? {
        counter.signal := false;
        waiter := Comparing(want);
      } else {
        FinishDelivery();
      }
    }

    method DataStreamEnded()
      modifies counter
      ensures State() == StreamEnded(old(State()))
    {
      counter.StreamEnded();
    }

    /** The session's end ends delivery too; a waiter finds that out by itself. */
    method SessionEnded()
      modifies this`delivering
      ensures State() == old(State()).(delivering := false)
    {
      delivering := false;
    }

    /** Blocks until there is room, delivery is over or the reader is stopped; which of those that hold is
        taken, `giveUp` says. */
    method Deliver(o: Object, stopped: bool, giveUp: bool) returns (ok: bool)
      requires if giveUp then stopped || !delivering else HasRoom(State())
      modifies this`objects
      ensures ok == !giveUp
      ensures State() == if ok then Push(old(State()), o) else old(State())
    {
      if giveUp {
        return false;
      }
      objects := objects + [o];
      return true;
    }

    /** ReadObject's first look, which does not block: what is buffered comes before anything else. */
    method ReadBuffered() returns (o: Option<Object>)
      modifies this`objects, this`yielded
      ensures old(objects) != [] ==> o == Some(old(objects[0])) && State() == ReadNext(old(State()))
      ensures old(objects) == [] ==> o == None && State() == old(State())
    {
      if |objects| == 0 {
        return None;
      }
      o := Some(objects[0]);
      yielded := yielded + [objects[0]];
      objects := objects[1..];
    }

    /** And its wait after that: for an Object, for the end of delivery -- which what raced in still comes
        before -- or for its caller's giving up. */
    method ReadObject(cancelled: bool) returns (r: ReadOutcome)
      requires cancelled || objects != [] || !delivering
      modifies this`objects, this`yielded, this`reported
      ensures cancelled ==> r == Cancelled && State() == old(State())
      ensures !cancelled ==> State() == ReadNext(old(State()))
      ensures !cancelled ==> r == if old(objects) != [] then Yielded(old(objects[0])) else Ended
    {
      if cancelled {
        return Cancelled;
      }
      var o := ReadBuffered();
      if o.Some? {
        return Yielded(o.value);
      }
      reported := true;
      return Ended;
    }
  }

  function FillIds(fills: seq<Fills.FillStream>): (ids: set<U64>) {
    set f | f in fills :: f.requestId
  }

  /** The index without a subscription, if it was registered. */
  function Unrouted(x: TrackIndex.Index, alias: Option<U64>, track: TrackIndex.Track): TrackIndex.Index {
    if alias.Some? then TrackIndex.Remove(x, alias.value, track) else x
  }

  /** Its alias has lost it, once, and every other alias is as it was. */
  lemma UnroutedExactly(x: TrackIndex.Index, alias: U64, track: TrackIndex.Track, other: U64)
    ensures Unrouted(x, None, track) == x
    ensures var left := Unrouted(x, Some(alias), track);
            && left.pending == x.pending && left.changed == x.changed
            && TrackIndex.TracksOf(left, other) ==
               if other == alias then TrackIndex.LessFirst(TrackIndex.TracksOf(x, other), track)
               else TrackIndex.TracksOf(x, other)
  {
    hide TrackIndex.Without, TrackIndex.LessFirst;
    TrackIndex.WithoutIsLessFirst(TrackIndex.TracksOf(x, alias), track);
  }

  // ---- The publisher's end.

  datatype Message = OkMsg(alias: U64) | DoneMsg(streamCount: nat) | FinMsg

  /** `sent` is all that went out on the request stream. */
  datatype Publisher = Publisher(alias: Option<U64>, streamCount: nat, closed: bool, sent: seq<Message>)

  const NEW_PUBLISHER := Publisher(None, 0, false, [])

  function AcceptWith(p: Publisher, alias: U64): Publisher {
    p.(alias := Some(alias), sent := p.sent + [OkMsg(alias)])
  }

  function CountStream(p: Publisher): Publisher {
    p.(streamCount := p.streamCount + 1)
  }

  function CloseDone(p: Publisher): Publisher {
    if p.closed then p else p.(closed := true, sent := p.sent + [DoneMsg(p.streamCount), FinMsg])
  }

  /** PUBLISH_DONE goes out once, with the count, and a FIN after it. */
  lemma ClosesOnce(p: Publisher)
    ensures CloseDone(p).closed && CloseDone(CloseDone(p)) == CloseDone(p)
    ensures CloseDone(p).alias == p.alias && CloseDone(p).streamCount == p.streamCount
    ensures CloseDone(p).sent == p.sent + if p.closed then [] else [DoneMsg(p.streamCount), FinMsg]
  {
  }

  class Subscription {
    var alias: Option<U64>
    var streamCount: nat
    var openFills: set<nat>
    var closed: bool
    var sent: seq<Message>

    constructor ()
      ensures State() == NEW_PUBLISHER == Publisher(None, 0, false, [])
      ensures openFills == {}
    {
      alias, streamCount, openFills, closed, sent := None, 0, {}, false, [];
    }

    function State(): Publisher
      reads this
    {
      Publisher(alias, streamCount, closed, sent)
    }

    method Accept(newAlias: U64)
      modifies this`alias, this`sent
      ensures State() == AcceptWith(old(State()), newAlias)
    {
      alias := Some(newAlias);
      sent := sent + [OkMsg(newAlias)];
    }

    /** Every stream opened counts, whether or not it ever carries an Object. One that does not open, or
        does not take its header, does not. */
    method OpenSubgroup(granted: bool, headed: bool) returns (ok: bool)
      modifies this`streamCount
      ensures ok == (granted && headed)
      ensures State() == if ok then CountStream(old(State())) else old(State())
    {
      if !granted || !headed {
        return false;
      }
      streamCount := streamCount + 1;
      return true;
    }

    /** A fill stream counts likewise, and is remembered until it is done. */
    method OpenFill(id: nat, granted: bool, headed: bool) returns (ok: bool)
      modifies this`streamCount, this`openFills
      ensures ok == (granted && headed)
      ensures State() == if ok then CountStream(old(State())) else old(State())
      ensures openFills == if ok then old(openFills) + {id} else old(openFills)
    {
      ok := OpenSubgroup(granted, headed);
      if ok {
        openFills := openFills + {id};
      }
    }

    method FillDone(id: nat)
      modifies this`openFills
      ensures openFills == old(openFills) - {id}
    {
      openFills := openFills - {id};
    }

    /** Resets the fills still open, which are `reset`, and only then counts and says so, once. `written` is
        whether PUBLISH_DONE could be written. */
    method Close(written: bool) returns (reset: set<nat>)
      modifies this`openFills, this`closed, this`sent
      ensures reset == old(openFills) && openFills == {}
      ensures State() == if written then CloseDone(old(State())) else old(State()).(closed := true)
    {
      reset := openFills;
      openFills := {};
      if closed {
        return;
      }
      closed := true;
      if written {
        sent := sent + [DoneMsg(streamCount)];
        sent := sent + [FinMsg];
      }
    }
  }
}
