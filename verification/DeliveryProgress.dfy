/** The end of a subscription does come: once its publisher has closed and its data streams
    have their FINs, the subscriber's steps for it are bounded in number, whatever else
    happens in between, and they run out only when the end has been reported. */
module DeliveryProgress {
  import opened Wire
  import opened Delivery
  import opened DeliverySafety
  import TrackIndex

  // ---- What the index holds, to the track.

  predicate Placed(x: Session, i: nat)
    requires i < |x.subs|
  {
    var s := x.subs[i];
    && (TrackOf(x, i) in x.index.pending <==> s.received == 0)
    && (s.received >= 1 && s.rcv.alias.Some? ==>
          TrackIndex.TracksOf(x.index, s.rcv.alias.value) == if s.rcv.delivering then [TrackOf(x, i)] else [])
  }

  predicate AllPlaced(x: Session) {
    && (forall i | 0 <= i < |x.subs| :: Placed(x, i))
    && (forall t | t in x.index.pending :: t.id < |x.subs|)
  }

  /** A step that leaves the index and what it depends on as they were. */
  lemma PlacedUnmoved(x: Session, y: Session)
    requires AllPlaced(x) && |y.subs| == |x.subs| && y.index == x.index
    requires forall i | 0 <= i < |x.subs| ::
               && y.subs[i].fullName == x.subs[i].fullName && y.subs[i].rcv.alias == x.subs[i].rcv.alias
               && (y.subs[i].received == 0 <==> x.subs[i].received == 0)
               && y.subs[i].rcv.delivering == x.subs[i].rcv.delivering
    ensures AllPlaced(y)
  {
    forall i | 0 <= i < |y.subs| ensures Placed(y, i) {
      assert Placed(x, i);
    }
  }

  lemma OtherAliases(x: Session, i: nat, j: nat)
    requires Invariant(x) && i < |x.subs| && j < |x.subs| && i != j
    ensures x.subs[i].rcv.alias.Some? ==> x.subs[i].rcv.alias == x.subs[i].pub.alias
    ensures x.subs[i].rcv.alias.Some? ==> x.subs[i].rcv.alias != x.subs[j].rcv.alias
  {
    hide AliasesUnique, IndexOk, StreamsOk, CountsOk, ContentsOk, PublisherOk;
    assert SubOk(x, i) && SubOk(x, j);
    if x.subs[i].pub.alias.Some? {
      AliasesDiffer(x, i, j);
    }
  }

  lemma AliasesDiffer(x: Session, i: nat, j: nat)
    requires AliasesUnique(x) && i < |x.subs| && j < |x.subs| && i != j && x.subs[i].pub.alias.Some?
    ensures x.subs[i].pub.alias != x.subs[j].pub.alias
  {
    if j < i && x.subs[j].pub.alias.Some? {
      assert x.subs[j].pub.alias != x.subs[i].pub.alias;
    }
  }

  /** One subscription's receiver moves on, and is taken out of the index if its delivery is over. */
  lemma SettlePlaces(x: Session, i: nat, received: nat, r: Receiver)
    requires Invariant(x) && AllPlaced(x) && i < |x.subs|
    requires r.alias == x.subs[i].rcv.alias && (r.delivering ==> x.subs[i].rcv.delivering)
    requires received == 0 <==> x.subs[i].received == 0
    ensures AllPlaced(Settle(x, i, received, r))
  {
    hide Invariant;
    var y := Settle(x, i, received, r);
    forall j | 0 <= j < |y.subs| ensures Placed(y, j) {
      assert Placed(x, j);
      if j != i {
        OtherAliases(x, j, i);
      }
    }
  }

  lemma OkPlaces(x: Session, i: nat)
    requires Invariant(x) && AllPlaced(x) && Enabled(x, Receives(i)) && x.subs[i].pub.sent[x.subs[i].received].OkMsg?
    ensures AllPlaced(Next(x, Receives(i)))
  {
    assert SubOk(x, i) && x.subs[i].received == 0;
    var alias := x.subs[i].pub.alias.value;
    assert x.subs[i].pub.sent[0] == OkMsg(alias);
    if alias in x.index.byAlias {
      RegisteredIsOwner(x, alias, i);
      assert false;
    }
    var y := Next(x, Receives(i));
    hide Invariant;
    forall j | 0 <= j < |y.subs| ensures Placed(y, j) {
      assert Placed(x, j);
      if j != i && x.subs[j].rcv.alias.Some? {
        RegisteredElsewhere(x, i, j);
      }
    }
  }

  lemma RegisteredElsewhere(x: Session, i: nat, j: nat)
    requires Invariant(x) && i < |x.subs| && j < |x.subs| && i != j && x.subs[j].rcv.alias.Some?
    ensures x.subs[j].rcv.alias != x.subs[i].pub.alias
  {
    assert SubOk(x, j);
    AliasesDiffer(x, j, i);
  }

  lemma StepPlaces(x: Session, e: Event)
    requires Invariant(x) && AllPlaced(x) && Enabled(x, e)
    ensures AllPlaced(Next(x, e))
  {
    hide Invariant, AllPlaced, Placed, TrackIndex.Remove, TrackIndex.Add;
    var y := Next(x, e);
    match e {
      case Subscribes(name) => SubscribePlaces(x, name);
      case Receives(i) => ReceivePlaces(x, i);
      case Compares(i) => SettlePlaces(x, i, x.subs[i].received, Compare(x.subs[i].rcv));
      case _ => PlacedUnmoved(x, y);
    }
  }

  lemma ReceivePlaces(x: Session, i: nat)
    requires Invariant(x) && AllPlaced(x) && Enabled(x, Receives(i))
    ensures AllPlaced(Next(x, Receives(i)))
  {
    hide Invariant, AllPlaced, TrackIndex.Remove, TrackIndex.Add;
    match x.subs[i].pub.sent[x.subs[i].received] {
      case OkMsg(_) => OkPlaces(x, i);
      case DoneMsg(_) =>
        OkComesFirst(x, i);
        PlacedUnmoved(x, Next(x, Receives(i)));
      case FinMsg =>
        OkComesFirst(x, i);
        SettlePlaces(x, i, x.subs[i].received + 1, RequestEnded(x.subs[i].rcv, x.version));
    }
  }

  lemma OkComesFirst(x: Session, i: nat)
    requires Invariant(x) && Enabled(x, Receives(i)) && !x.subs[i].pub.sent[x.subs[i].received].OkMsg?
    ensures x.subs[i].received > 0
  {
    assert SubOk(x, i);
  }

  lemma SubscribePlaces(x: Session, name: string)
    requires Invariant(x) && AllPlaced(x)
    ensures AllPlaced(Next(x, Subscribes(name)))
  {
    hide Invariant;
    var y := Next(x, Subscribes(name));
    forall j | 0 <= j < |y.subs| ensures Placed(y, j) {
      if j < |x.subs| {
        assert Placed(x, j);
      }
    }
  }

  /** Over every run, what a Track Alias routes to: the subscription that was told it, for as long as its
      delivery lasts, and nothing after that. */
  lemma RoutesWhileDelivering(version: Version, events: seq<Event>, i: nat)
    requires IsRun(Start(version), events) && i < |Run(Start(version), events).subs|
    ensures var x := Run(Start(version), events);
            var s := x.subs[i];
            && (s.received >= 1 <==> s.rcv.alias.Some?)
            && (s.received >= 1 ==>
                  TrackIndex.TracksOf(x.index, s.rcv.alias.value) == if s.rcv.delivering then [TrackOf(x, i)] else [])
  {
    hide IsRun, Run, Invariant, TrackIndex.TracksOf;
    StartIsFine(version);
    NothingPlaced(version);
    RunPlaces(Start(version), events);
    var x := Run(Start(version), events);
    assert Placed(x, i);
    AliasIsTold(x, i);
  }

  lemma AliasIsTold(x: Session, i: nat)
    requires Invariant(x) && i < |x.subs|
    ensures x.subs[i].received >= 1 <==> x.subs[i].rcv.alias.Some?
  {
    assert SubOk(x, i);
  }

  // ---- What was written, told from the events.

  /** What was written to a stream. */
  function Written(events: seq<Event>, k: nat): seq<Object> {
    if events == [] then []
    else (if events[0].Writes? && events[0].k == k then [Object(k, events[0].payload)] else []) + Written(events[1..], k)
  }

  /** What a stream carries so far, if there is one. */
  function Carried(x: Session, k: nat): seq<Object> {
    if k < |x.streams| then x.streams[k].sent else []
  }

  predicate Finished(x: Session, k: nat) {
    k < |x.streams| && x.streams[k].fin
  }

  predicate Ended(x: Session, i: nat) {
    i < |x.subs| && x.subs[i].pub.closed
  }

  lemma StepWrites(x: Session, e: Event, k: nat)
    requires Enabled(x, e)
    ensures Carried(Next(x, e), k) ==
            Carried(x, k) + if e.Writes? && e.k == k then [Object(k, e.payload)] else []
    ensures Finished(Next(x, e), k) <==> Finished(x, k) || e == Fins(k)
    ensures Ended(Next(x, e), k) <==> Ended(x, k) || e == Closes(k)
  {
    hide TrackIndex.Remove, TrackIndex.Add;
  }

  lemma {:induction false} RunWrites(x: Session, events: seq<Event>, k: nat)
    requires IsRun(x, events)
    ensures Carried(Run(x, events), k) == Carried(x, k) + Written(events, k)
    decreases |events|
  {
    hide Next, Enabled, Carried, Finished, Ended;
    if events != [] {
      StepWrites(x, events[0], k);
      RunWrites(Next(x, events[0]), events[1..], k);
    }
  }

  lemma {:induction false} RunEnds(x: Session, events: seq<Event>, k: nat)
    requires IsRun(x, events)
    ensures Finished(Run(x, events), k) <==> Finished(x, k) || Fins(k) in events
    ensures Ended(Run(x, events), k) <==> Ended(x, k) || Closes(k) in events
    decreases |events|
  {
    hide Next, Enabled, Carried, Finished, Ended, Written;
    if events != [] {
      var e, rest := events[0], events[1..];
      StepWrites(x, e, k);
      RunEnds(Next(x, e), rest, k);
      assert events == [e] + rest;
    }
  }

  /** Delivery, end to end, told from the events alone: when the end of a subscription that was closed with a
      count is reported, its publisher has closed it, every stream of its own has been finished, and what
      ReadObject has returned of each subgroup stream is what was written to it. */
  lemma WhatIsWrittenArrives(version: Version, events: seq<Event>, i: nat, k: nat)
    requires IsRun(Start(version), events)
    requires i < |Run(Start(version), events).subs| && k < |Run(Start(version), events).streams|
    ensures var x := Run(Start(version), events);
            x.subs[i].rcv.reported && !Uncounted(x.subs[i].pub, version) ==>
              && Closes(i) in events
              && (x.streams[k].owner == i ==>
                    Fins(k) in events && (!x.streams[k].fill ==> Of(x.subs[i].rcv.yielded, k) == Written(events, k)))
  {
    hide IsRun, Run, Invariant, Of, Written;
    NothingIsLost(version, events, i, k);
    RunWrites(Start(version), events, k);
    RunEnds(Start(version), events, k);
    RunEnds(Start(version), events, i);
    StartIsFine(version);
    RunKeeps(Start(version), events);
    ReportedIsClosed(Run(Start(version), events), i);
  }

  lemma ReportedIsClosed(x: Session, i: nat)
    requires Invariant(x) && i < |x.subs|
    ensures x.subs[i].rcv.reported ==> x.subs[i].pub.closed
  {
    assert SubOk(x, i);
  }

  // ---- The subscriber's steps for one subscription, and how many there can be.

  /** Reading its request stream, routing and reading its data streams, waiting, and ReadObject up to the
      end it reports. */
  predicate Own(x: Session, i: nat, e: Event)
    requires i < |x.subs|
  {
    match e
    case Receives(j) => j == i
    case Compares(j) => j == i
    case Wakes(j) => j == i
    case Reads(j) => j == i && (x.subs[i].rcv.objects != [] || !x.subs[i].rcv.reported)
    case Routes(k) => k < |x.streams| && x.streams[k].owner == i
    case RoutesFill(k) => k < |x.streams| && x.streams[k].owner == i
    case Hands(k) => k < |x.streams| && x.streams[k].owner == i
    case HandsFill(k) => k < |x.streams| && x.streams[k].owner == i
    case Aborts(k) => k < |x.streams| && x.streams[k].owner == i
    case CountsEnd(k) => k < |x.streams| && x.streams[k].owner == i
    case _ => false
  }

  /** The publisher is done with it. */
  predicate Closed(x: Session, i: nat)
    requires i < |x.subs|
  {
    x.subs[i].pub.closed && forall k | 0 <= k < |x.streams| && x.streams[k].owner == i :: x.streams[k].fin
  }

  /** A stream is routed once, given up on once or not at all, and counted once, and each Object is handed on
      and then read. */
  function StreamWork(t: Stream): int {
    (if t.tracks.None? then 1 else 0) + (if t.aborted then 0 else 1) + 2 * (|t.sent| - t.read) + 3 * (1 - t.counted)
  }

  function StreamsWork(ss: seq<Stream>, i: nat): int {
    if ss == [] then 0
    else
      var n := |ss| - 1;
      StreamsWork(ss[..n], i) + if ss[n].owner == i then StreamWork(ss[n]) else 0
  }

  /** A message each, an Object each, a report, and for a signal one look. */
  function SubWork(s: Sub): int {
    10 * (3 - s.received) + |s.rcv.objects| + (if s.rcv.reported then 0 else 1)
    + (if s.rcv.signal then 2 else 0) + (if s.rcv.waiter.Comparing? then 1 else 0)
  }

  function Work(x: Session, i: nat): int
    requires i < |x.subs|
  {
    SubWork(x.subs[i]) + StreamsWork(x.streams, i)
  }

  lemma {:induction false} WorkMoves(ss: seq<Stream>, k: nat, u: Stream, i: nat)
    requires k < |ss| && u.owner == ss[k].owner
    ensures StreamsWork(ss[k := u], i) ==
            StreamsWork(ss, i) + if u.owner == i then StreamWork(u) - StreamWork(ss[k]) else 0
  {
    hide StreamWork;
    var n := |ss| - 1;
    if k < n {
      assert ss[k := u][..n] == ss[..n][k := u];
      WorkMoves(ss[..n], k, u, i);
    } else {
      assert ss[k := u][..n] == ss[..n];
    }
  }

  lemma {:induction false} WorkIsLeft(x: Session, i: nat, n: nat)
    requires StreamsOk(x) && n <= |x.streams|
    ensures StreamsWork(x.streams[..n], i) >= 0
  {
    hide ReadToEnd;
    if n > 0 {
      assert StreamOk(x, n - 1);
      assert x.streams[..n][..n - 1] == x.streams[..n - 1];
      WorkIsLeft(x, i, n - 1);
    }
  }

  lemma WorkIsNat(x: Session, i: nat)
    requires Invariant(x) && i < |x.subs|
    ensures Work(x, i) >= 0
  {
    hide AliasesUnique, IndexOk, CountsOk, ContentsOk, StreamsOk, StreamsWork;
    assert SubOk(x, i);
    WorkIsLeft(x, i, |x.streams|);
    assert x.streams[..|x.streams|] == x.streams;
  }

  /** What a step may do to a closed subscription. */
  predicate Moves(x: Session, y: Session, i: nat, own: bool)
    requires i < |x.subs|
  {
    i < |y.subs| && Closed(y, i) && Work(y, i) <= Work(x, i) - if own then 1 else 0
  }

  lemma SubMoves(x: Session, e: Event, i: nat)
    requires Invariant(x) && Enabled(x, e) && i < |x.subs| && Closed(x, i)
    requires e.Compares? || e.Wakes? || e.Reads?
    ensures Moves(x, Next(x, e), i, Own(x, i, e))
  {
    hide AliasesUnique, IndexOk, CountsOk, ContentsOk, StreamsOk, StreamsWork, TrackIndex.Remove;
    assert SubOk(x, i) && SubOk(x, e.i);
  }

  lemma ReceiveMoves(x: Session, j: nat, i: nat)
    requires Invariant(x) && Enabled(x, Receives(j)) && i < |x.subs| && Closed(x, i)
    ensures Moves(x, Next(x, Receives(j)), i, j == i)
  {
    hide AliasesUnique, IndexOk, CountsOk, ContentsOk, StreamsOk, StreamsWork, TrackIndex.Remove, TrackIndex.Add;
    assert SubOk(x, i) && SubOk(x, j);
  }

  lemma StreamMoves(x: Session, e: Event, i: nat)
    requires Invariant(x) && Enabled(x, e) && i < |x.subs| && Closed(x, i)
    requires e.Routes? || e.RoutesFill? || e.HandsFill? || e.Aborts? || e.Fins? || e.Writes?
    ensures Moves(x, Next(x, e), i, Own(x, i, e))
  {
    hide AliasesUnique, IndexOk, CountsOk, ContentsOk, SubsOk, StreamsWork, ReadToEnd;
    assert StreamOk(x, e.k);
    WorkMoves(x.streams, e.k, Next(x, e).streams[e.k], i);
  }

  lemma HandMoves(x: Session, e: Event, i: nat)
    requires Invariant(x) && Enabled(x, e) && i < |x.subs| && Closed(x, i)
    requires e.Hands? || e.CountsEnd?
    ensures Moves(x, Next(x, e), i, Own(x, i, e))
  {
    hide AliasesUnique, IndexOk, CountsOk, ContentsOk, SubsOk, StreamsWork, ReadToEnd;
    assert StreamOk(x, e.k);
    WorkMoves(x.streams, e.k, Next(x, e).streams[e.k], i);
  }

  lemma OtherMoves(x: Session, e: Event, i: nat)
    requires Invariant(x) && Enabled(x, e) && i < |x.subs| && Closed(x, i)
    requires e.Subscribes? || e.Accepts? || e.Opens? || e.Closes?
    ensures Moves(x, Next(x, e), i, Own(x, i, e))
  {
    hide AliasesUnique, IndexOk, CountsOk, ContentsOk, SubsOk, StreamsOk;
    if e.Opens? {
      assert Next(x, e).streams[..|x.streams|] == x.streams;
    }
  }

  lemma StepMoves(x: Session, e: Event, i: nat)
    requires Invariant(x) && Enabled(x, e) && i < |x.subs| && Closed(x, i)
    ensures Moves(x, Next(x, e), i, Own(x, i, e))
  {
    hide Invariant, Next, Enabled, Moves, Closed;
    if e.Receives? {
      ReceiveMoves(x, e.i, i);
    } else if e.Compares? || e.Wakes? || e.Reads? {
      SubMoves(x, e, i);
    } else if e.Hands? || e.CountsEnd? {
      HandMoves(x, e, i);
    } else if e.Subscribes? || e.Accepts? || e.Opens? || e.Closes? {
      OtherMoves(x, e, i);
    } else {
      StreamMoves(x, e, i);
    }
  }

  // ---- When none is left.

  ghost predicate Stuck(x: Session, i: nat)
    requires i < |x.subs|
  {
    forall e | Own(x, i, e) :: !Enabled(x, e)
  }

  /** Nobody else's SUBSCRIBE for the same track is unanswered. */
  predicate NoneAwaited(x: Session, i: nat)
    requires i < |x.subs|
  {
    forall t | t in x.index.pending && t.fullName == x.subs[i].fullName :: t.id == i
  }

  /** A stream that is not counted can move. */
  lemma StreamCanMove(x: Session, i: nat, k: nat) returns (e: Event)
    requires Invariant(x) && AllPlaced(x) && i < |x.subs| && Closed(x, i) && NoneAwaited(x, i)
    requires x.subs[i].received == 3 && x.subs[i].rcv.delivering
    requires k < |x.streams| && x.streams[k].owner == i && x.streams[k].counted == 0
    ensures Own(x, i, e) && Enabled(x, e)
  {
    hide AliasesUnique, IndexOk, CountsOk, ContentsOk;
    var t := x.streams[k];
    assert SubOk(x, i) && StreamOk(x, k) && Placed(x, i);
    if t.tracks.None? {
      if t.fill {
        e := RoutesFill(k);
      } else {
        assert TrackIndex.TracksOf(x.index, t.alias) == [TrackOf(x, i)];
        assert TrackOf(x, i) !in x.index.pending;
        OnlyItself(x, i);
        e := Routes(k);
      }
    } else if ReadToEnd(t) {
      e := CountsEnd(k);
    } else if t.fill {
      e := HandsFill(k);
    } else if HasRoom(x.subs[i].rcv) {
      e := Hands(k);
    } else {
      e := Reads(i);
    }
  }

  lemma OnlyItself(x: Session, i: nat)
    requires AllPlaced(x) && i < |x.subs| && NoneAwaited(x, i) && TrackOf(x, i) !in x.index.pending
    ensures !TrackIndex.AwaitsAnswer(x.index, x.subs[i].fullName)
  {
  }

  lemma CanMove(x: Session, i: nat) returns (e: Event)
    requires Invariant(x) && AllPlaced(x) && i < |x.subs| && Closed(x, i) && NoneAwaited(x, i)
    requires !x.subs[i].rcv.reported
    ensures Own(x, i, e) && Enabled(x, e)
  {
    hide AliasesUnique, IndexOk, ContentsOk, StreamsOk, AllPlaced, NoneAwaited, Owned, Counted;
    var s := x.subs[i];
    assert SubOk(x, i) && CountOk(x, i);
    if s.received < |s.pub.sent| {
      e := Receives(i);
    } else if !s.rcv.delivering {
      e := Reads(i);
    } else if s.rcv.waiter.Comparing? {
      e := Compares(i);
    } else if s.rcv.endedStreams >= s.rcv.waiter.want {
      e := Wakes(i);
    } else {
      var k := OneUncounted(x, i);
      e := StreamCanMove(x, i, k);
    }
  }

  lemma OneUncounted(x: Session, i: nat) returns (k: nat)
    requires StreamsOk(x) && i < |x.subs| && |Counted(x.streams, i)| < |Owned(x.streams, i)|
    ensures k < |x.streams| && x.streams[k].owner == i && x.streams[k].counted == 0
  {
    var owned, counted := Owned(x.streams, i), Counted(x.streams, i);
    if owned <= counted {
      SubsetSize(owned, counted);
      assert false;
    }
    k :| k in owned && k !in counted;
    assert StreamOk(x, k);
  }

  // ---- Every run.

  function OwnSteps(x: Session, i: nat, events: seq<Event>): nat
    requires IsRun(x, events) && i < |x.subs|
    decreases |events|
  {
    if events == [] then 0
    else
      SubsStay(x, events[0]);
      (if Own(x, i, events[0]) then 1 else 0) + OwnSteps(Next(x, events[0]), i, events[1..])
  }

  lemma SubsStay(x: Session, e: Event)
    requires Enabled(x, e)
    ensures |x.subs| <= |Next(x, e).subs|
  {
  }

  lemma {:induction false} RunMoves(x: Session, i: nat, events: seq<Event>)
    requires Invariant(x) && AllPlaced(x) && i < |x.subs| && Closed(x, i) && IsRun(x, events)
    ensures var y := Run(x, events);
            && Invariant(y) && AllPlaced(y) && i < |y.subs| && Closed(y, i)
            && Work(y, i) + OwnSteps(x, i, events) <= Work(x, i)
    decreases |events|
  {
    hide Invariant, AllPlaced, Next, Enabled, Own, Closed, Work;
    if events != [] {
      StepKeeps(x, events[0]);
      StepPlaces(x, events[0]);
      StepMoves(x, events[0], i);
      RunMoves(Next(x, events[0]), i, events[1..]);
    }
  }

  lemma {:induction false} RunPlaces(x: Session, events: seq<Event>)
    requires Invariant(x) && AllPlaced(x) && IsRun(x, events)
    ensures Invariant(Run(x, events)) && AllPlaced(Run(x, events))
    decreases |events|
  {
    hide Invariant, AllPlaced, Next, Enabled;
    if events != [] {
      StepKeeps(x, events[0]);
      StepPlaces(x, events[0]);
      RunPlaces(Next(x, events[0]), events[1..]);
    }
  }

  /** From any point of any run at which a publisher has closed and its streams have their FINs, and whatever
      steps follow: the subscriber takes no more for that subscription than there is work, and if no further one
      is possible the end has been reported -- unless another SUBSCRIBE for the track is still unanswered,
      which holds its streams back. */
  lemma EndIsReached(version: Version, before: seq<Event>, i: nat, after: seq<Event>)
    requires IsRun(Start(version), before) && IsRun(Run(Start(version), before), after)
    requires i < |Run(Start(version), before).subs| && Closed(Run(Start(version), before), i)
    ensures var x := Run(Start(version), before);
            var y := Run(x, after);
            && OwnSteps(x, i, after) <= Work(x, i)
            && i < |y.subs|
            && (Stuck(y, i) && NoneAwaited(y, i) ==> y.subs[i].rcv.reported)
  {
    hide IsRun, Run, Invariant, AllPlaced, Closed, Own, Enabled, Work, OwnSteps, NoneAwaited;
    StartIsFine(version);
    NothingPlaced(version);
    RunPlaces(Start(version), before);
    var x := Run(Start(version), before);
    RunMoves(x, i, after);
    var y := Run(x, after);
    WorkIsNat(y, i);
    if Stuck(y, i) && NoneAwaited(y, i) && !y.subs[i].rcv.reported {
      var e := CanMove(y, i);
      assert false;
    }
  }

  lemma NothingPlaced(version: Version)
    ensures AllPlaced(Start(version))
  {
  }
}
