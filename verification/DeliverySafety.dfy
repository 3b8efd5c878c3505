/** A whole session's subscriptions and data streams, in every interleaving of the
    streams with the request streams: the end of a subscription is never reported
    before everything its publisher wrote has been read.

    Not among the steps are the grace timeout, the alias timeout, Close by the
    subscriber, the loss of the session, streams that are reset -- as fills still open
    are when the publisher closes -- and a fill the subscriber has closed or given up on. */
module DeliverySafety {
  import opened Wire
  import opened Delivery
  import TrackIndex

  type Track = TrackIndex.Track

  /** A subscription: both its ends, and how far the subscriber has read the request stream. */
  datatype Sub = Sub(fullName: string, pub: Publisher, received: nat, rcv: Receiver)

  /** A data stream: what was written to it, where the session routed it, how many of its Objects have been
      handed on, and for how many of its tracks its end has been counted. A fill stream is counted like any
      other, but names its request instead of an alias and is read through the fill. */
  datatype Stream = Stream(
    owner: nat, alias: U64, fill: bool, sent: seq<Object>, fin: bool,
    tracks: Option<seq<Track>>, read: nat, handed: nat, aborted: bool, counted: nat)

  datatype Session = Session(
    version: Version, subs: seq<Sub>, streams: seq<Stream>, index: TrackIndex.Index, nextAlias: nat)

  function Start(version: Version): Session {
    Session(version, [], [], TrackIndex.EMPTY, 0)
  }

  datatype Event =
    | Subscribes(fullName: string)
    | Accepts(i: nat)
    | Opens(i: nat, fill: bool)
    | Writes(k: nat, payload: Bytes)
    | Fins(k: nat)
    | Closes(i: nat)
    | Receives(i: nat)
    | Routes(k: nat)
    | RoutesFill(k: nat)
    | Hands(k: nat)
    | HandsFill(k: nat)
    | Aborts(k: nat)
    | CountsEnd(k: nat)
    | Compares(i: nat)
    | Wakes(i: nat)
    | Reads(i: nat)

  function TrackOf(x: Session, i: nat): Track
    requires i < |x.subs|
  {
    TrackIndex.Track(i, x.subs[i].fullName)
  }

  /** A routed stream has an Object to hand to one of its tracks. */
  predicate Handing(x: Session, k: nat) {
    && k < |x.streams| && x.streams[k].tracks.Some? && !x.streams[k].aborted && !x.streams[k].fill
    && x.streams[k].read < |x.streams[k].sent| && x.streams[k].handed < |x.streams[k].tracks.value|
    && x.streams[k].tracks.value[x.streams[k].handed].id < |x.subs|
  }

  /** The subscription it goes to. */
  function HandTarget(x: Session, k: nat): nat
    requires Handing(x, k)
  {
    x.streams[k].tracks.value[x.streams[k].handed].id
  }

  /** The reader of a stream is done: at its FIN, or because delivery ended under it. */
  predicate ReadToEnd(t: Stream) {
    t.aborted || (t.fin && t.read == |t.sent| && t.handed == 0)
  }

  predicate Enabled(x: Session, e: Event) {
    match e
    case Subscribes(_) => true
    case Accepts(i) => i < |x.subs| && x.subs[i].pub.alias.None? && x.nextAlias <= MAX_U64
    case Opens(i, _) => i < |x.subs| && x.subs[i].pub.alias.Some? && !x.subs[i].pub.closed
    case Writes(k, _) => k < |x.streams| && !x.streams[k].fin
    case Fins(k) => k < |x.streams|
    case Closes(i) => i < |x.subs| && x.subs[i].pub.alias.Some?
    case Receives(i) => i < |x.subs| && x.subs[i].received < |x.subs[i].pub.sent|
    case Routes(k) =>
      && k < |x.streams| && !x.streams[k].fill && x.streams[k].tracks.None?
      && TrackIndex.Ready(x.index, x.streams[k].alias)
    case RoutesFill(k) =>
      && k < |x.streams| && x.streams[k].fill && x.streams[k].tracks.None?
      && x.streams[k].owner < |x.subs| && x.subs[x.streams[k].owner].rcv.delivering
    case HandsFill(k) =>
      && k < |x.streams| && x.streams[k].fill && x.streams[k].tracks.Some? && x.streams[k].read < |x.streams[k].sent|
    case Hands(k) => Handing(x, k) && HasRoom(x.subs[HandTarget(x, k)].rcv)
    case Aborts(k) => Handing(x, k) && !x.subs[HandTarget(x, k)].rcv.delivering
    case CountsEnd(k) =>
      && k < |x.streams| && x.streams[k].tracks.Some? && ReadToEnd(x.streams[k])
      && x.streams[k].counted < |x.streams[k].tracks.value|
      && x.streams[k].tracks.value[x.streams[k].counted].id < |x.subs|
    case Compares(i) => i < |x.subs| && x.subs[i].rcv.waiter.Comparing?
    case Wakes(i) => i < |x.subs| && x.subs[i].rcv.waiter.Asleep? && x.subs[i].rcv.signal
    case Reads(i) => i < |x.subs| && (x.subs[i].rcv.objects != [] || !x.subs[i].rcv.delivering)
  }

  function WithSub(x: Session, i: nat, s: Sub): Session
    requires i < |x.subs|
  {
    x.(subs := x.subs[i := s])
  }

  function WithStream(x: Session, k: nat, t: Stream): Session
    requires k < |x.streams|
  {
    x.(streams := x.streams[k := t])
  }

  /** The receiver moves on; when its delivery is over its alias no longer routes. */
  function Settle(x: Session, i: nat, received: nat, r: Receiver): Session
    requires i < |x.subs|
  {
    var y := WithSub(x, i, x.subs[i].(received := received, rcv := r));
    if r.delivering || r.alias.None? then y
    else y.(index := TrackIndex.Remove(x.index, r.alias.value, TrackOf(x, i)))
  }

  function Receive(x: Session, i: nat): Session
    requires Enabled(x, Receives(i))
  {
    var s := x.subs[i];
    var n := s.received + 1;
    match s.pub.sent[s.received]
    case OkMsg(alias) =>
      WithSub(x, i, s.(received := n, rcv := Established(s.rcv, alias)))
        .(index := TrackIndex.Add(x.index, alias, TrackOf(x, i)))
    case DoneMsg(count) => WithSub(x, i, s.(received := n, rcv := GotDone(s.rcv, count)))
    case FinMsg => Settle(x, i, n, RequestEnded(s.rcv, x.version))
  }

  function Hand(x: Session, k: nat): Session
    requires Handing(x, k)
  {
    var i := HandTarget(x, k);
    var t, s := x.streams[k], x.subs[i];
    var y := WithSub(x, i, s.(rcv := Push(s.rcv, t.sent[t.read])));
    WithStream(y, k, if t.handed + 1 < |t.tracks.value| then t.(handed := t.handed + 1)
                     else t.(read := t.read + 1, handed := 0))
  }

  function CountEnd(x: Session, k: nat): Session
    requires Enabled(x, CountsEnd(k))
  {
    var t := x.streams[k];
    var i := t.tracks.value[t.counted].id;
    WithStream(WithSub(x, i, x.subs[i].(rcv := StreamEnded(x.subs[i].rcv))), k, t.(counted := t.counted + 1))
  }

  function Next(x: Session, e: Event): Session
    requires Enabled(x, e)
  {
    match e
    case Subscribes(name) => (
      var y := x.(subs := x.subs + [Sub(name, NEW_PUBLISHER, 0, NEW_RECEIVER)]);
      y.(index := TrackIndex.Expect(x.index, TrackOf(y, |x.subs|))))
    case Accepts(i) =>
      WithSub(x, i, x.subs[i].(pub := AcceptWith(x.subs[i].pub, x.nextAlias))).(nextAlias := x.nextAlias + 1)
    case Opens(i, fill) => (
      var s := x.subs[i];
      var t := Stream(i, s.pub.alias.value, fill, [], false, None, 0, 0, false, 0);
      WithSub(x, i, s.(pub := CountStream(s.pub))).(streams := x.streams + [t]))
    case Writes(k, payload) => (
      var t := x.streams[k];
      WithStream(x, k, t.(sent := t.sent + [Object(k, payload)])))
    case Fins(k) => WithStream(x, k, x.streams[k].(fin := true))
    case Closes(i) => WithSub(x, i, x.subs[i].(pub := CloseDone(x.subs[i].pub)))
    case Receives(i) => Receive(x, i)
    case Routes(k) =>
      WithStream(x, k, x.streams[k].(tracks := Some(TrackIndex.TracksOf(x.index, x.streams[k].alias))))
    case RoutesFill(k) =>
      WithStream(x, k, x.streams[k].(tracks := Some([TrackOf(x, x.streams[k].owner)])))
    case Hands(k) => Hand(x, k)
    case HandsFill(k) => WithStream(x, k, x.streams[k].(read := x.streams[k].read + 1))
    case Aborts(k) => WithStream(x, k, x.streams[k].(aborted := true))
    case CountsEnd(k) => CountEnd(x, k)
    case Compares(i) => Settle(x, i, x.subs[i].received, Compare(x.subs[i].rcv))
    case Wakes(i) => WithSub(x, i, x.subs[i].(rcv := Wake(x.subs[i].rcv)))
    case Reads(i) => WithSub(x, i, x.subs[i].(rcv := ReadNext(x.subs[i].rcv)))
  }

  predicate IsRun(x: Session, events: seq<Event>)
    decreases |events|
  {
    events == [] || (Enabled(x, events[0]) && IsRun(Next(x, events[0]), events[1..]))
  }

  function Run(x: Session, events: seq<Event>): Session
    requires IsRun(x, events)
    decreases |events|
  {
    if events == [] then x else Run(Next(x, events[0]), events[1..])
  }

  // ---- The invariant, one subscription, one stream and one count at a time.

  /** Everything that goes out on a request stream, from the publisher's state. */
  function Script(p: Publisher): seq<Message> {
    (if p.alias.Some? then [OkMsg(p.alias.value)] else [])
    + (if p.closed then [DoneMsg(p.streamCount), FinMsg] else [])
  }

  /** A publisher whose count is the number its draft reserves for one that could not count: 2^62 - 1 in
      draft-18 and 2^64 - 1 in draft-22. */
  predicate Uncounted(p: Publisher, version: Version) {
    p.closed && p.streamCount == match version case Draft18 => 0x3FFF_FFFF_FFFF_FFFF case Draft22 => 0xFFFF_FFFF_FFFF_FFFF
  }

  predicate PublisherOk(p: Publisher, nextAlias: nat) {
    && p.sent == Script(p)
    && (p.alias.Some? ==> p.alias.value < nextAlias)
    && (p.alias.None? ==> !p.closed && p.streamCount == 0)
  }

  predicate ReceiverOk(r: Receiver, received: nat, p: Publisher, version: Version) {
    && received <= |p.sent|
    && r.alias == (if received >= 1 then p.alias else None)
    && r.publishDone == (if received >= 2 then Some(p.streamCount) else None)
    && (received < 3 ==> r.delivering && r.waiter.NoWaiter?)
    && (!r.waiter.NoWaiter? ==> r.delivering && r.waiter.want == p.streamCount)
    && (r.delivering && received == 3 ==> !r.waiter.NoWaiter?)
    && (r.waiter.Asleep? && r.endedStreams >= r.waiter.want ==> r.signal)
    && (!r.delivering ==> Uncounted(p, version) || r.endedStreams >= p.streamCount)
    && (r.reported ==> !r.delivering && (Uncounted(p, version) || r.objects == []))
  }

  predicate SubOk(x: Session, i: nat)
    requires i < |x.subs|
  {
    PublisherOk(x.subs[i].pub, x.nextAlias)
    && ReceiverOk(x.subs[i].rcv, x.subs[i].received, x.subs[i].pub, x.version)
  }

  /** Every subscription has an alias of its own. */
  predicate AliasesUnique(x: Session) {
    forall i, j | 0 <= i < j < |x.subs| && x.subs[i].pub.alias.Some? :: x.subs[i].pub.alias != x.subs[j].pub.alias
  }

  predicate IndexedRightly(x: Session, alias: U64)
    requires alias in x.index.byAlias
  {
    var tracks := x.index.byAlias[alias];
    |tracks| == 1 && tracks[0].id < |x.subs| && tracks[0] == TrackOf(x, tracks[0].id)
    && x.subs[tracks[0].id].rcv.alias == Some(alias)
  }

  predicate IndexOk(x: Session) {
    forall alias | alias in x.index.byAlias :: IndexedRightly(x, alias)
  }

  predicate StreamOk(x: Session, k: nat)
    requires k < |x.streams|
  {
    var t := x.streams[k];
    && t.owner < |x.subs| && x.subs[t.owner].pub.alias == Some(t.alias)
    && t.read <= |t.sent| && t.handed == 0 && t.counted <= 1
    && (t.tracks.Some? ==> t.tracks.value == [TrackOf(x, t.owner)])
    && (t.aborted ==> Uncounted(x.subs[t.owner].pub, x.version))
    && (t.counted == 1 ==> t.tracks.Some? && ReadToEnd(t))
    && (forall o | o in t.sent :: o.stream == k)
  }

  function Owned(ss: seq<Stream>, i: nat): set<nat> {
    set k | 0 <= k < |ss| && ss[k].owner == i
  }

  function Counted(ss: seq<Stream>, i: nat): set<nat> {
    set k | 0 <= k < |ss| && ss[k].owner == i && ss[k].counted == 1
  }

  predicate CountOk(x: Session, i: nat)
    requires i < |x.subs|
  {
    |Owned(x.streams, i)| == x.subs[i].pub.streamCount && |Counted(x.streams, i)| == x.subs[i].rcv.endedStreams
  }

  /** The Objects of one stream, in order. */
  function Of(items: seq<Object>, k: nat): seq<Object> {
    if items == [] then []
    else
      var last := items[|items| - 1];
      Of(items[..|items| - 1], k) + if last.stream == k then [last] else []
  }

  /** What a receiver was handed: already read by the application, or still buffered. */
  function Got(r: Receiver): seq<Object> {
    r.yielded + r.objects
  }

  /** What a receiver should have of a stream. */
  function Due(x: Session, i: nat, k: nat): seq<Object> {
    if k < |x.streams| && x.streams[k].owner == i && !x.streams[k].fill && x.streams[k].read <= |x.streams[k].sent|
      then x.streams[k].sent[..x.streams[k].read] else []
  }

  ghost predicate ContentOk(x: Session, i: nat)
    requires i < |x.subs|
  {
    forall k: nat :: Of(Got(x.subs[i].rcv), k) == Due(x, i, k)
  }

  predicate SubsOk(x: Session) {
    forall i | 0 <= i < |x.subs| :: SubOk(x, i)
  }

  predicate StreamsOk(x: Session) {
    forall k | 0 <= k < |x.streams| :: StreamOk(x, k)
  }

  predicate CountsOk(x: Session) {
    forall i | 0 <= i < |x.subs| :: CountOk(x, i)
  }

  ghost predicate ContentsOk(x: Session) {
    forall i | 0 <= i < |x.subs| :: ContentOk(x, i)
  }

  ghost predicate Invariant(x: Session) {
    SubsOk(x) && AliasesUnique(x) && IndexOk(x) && StreamsOk(x) && CountsOk(x) && ContentsOk(x)
  }

  // ---- Facts about the parts.

  lemma OfSnoc(items: seq<Object>, o: Object, k: nat)
    ensures Of(items + [o], k) == Of(items, k) + if o.stream == k then [o] else []
  {
    assert (items + [o])[..|items|] == items;
  }

  lemma ReadKeepsGot(r: Receiver)
    requires r.objects != [] || !r.delivering
    ensures Got(ReadNext(r)) == Got(r)
  {
    if r.objects != [] {
      assert r.yielded + [r.objects[0]] + r.objects[1..] == r.yielded + r.objects;
    }
  }

  /** What of a subscription the rest of the session depends on. */
  predicate SameRole(s: Sub, u: Sub) {
    && u.fullName == s.fullName && u.pub.alias == s.pub.alias && u.pub.streamCount == s.pub.streamCount
    && (s.pub.closed ==> u.pub.closed)
    && u.rcv.endedStreams == s.rcv.endedStreams && Got(u.rcv) == Got(s.rcv)
    && (s.rcv.alias.Some? ==> u.rcv.alias == s.rcv.alias)
  }

  /** A step of one subscription's own keeps everything else. */
  lemma OwnStep(x: Session, i: nat, u: Sub, index: TrackIndex.Index)
    requires Invariant(x) && i < |x.subs| && SameRole(x.subs[i], u)
    requires var y := WithSub(x, i, u).(index := index); SubOk(y, i) && IndexOk(y)
    ensures Invariant(WithSub(x, i, u).(index := index))
  {
    hide IndexOk, PublisherOk, ReceiverOk, Owned, Counted, Of, Got, ReadToEnd;
    var y := WithSub(x, i, u).(index := index);
    forall j | 0 <= j < |y.subs| ensures SubOk(y, j) && CountOk(y, j) {
      assert SubOk(x, j) && CountOk(x, j);
    }
    forall k | 0 <= k < |y.streams| ensures StreamOk(y, k) {
      assert StreamOk(x, k);
    }
    forall j | 0 <= j < |y.subs| ensures ContentOk(y, j) {
      assert ContentOk(x, j);
      forall k: nat ensures Of(Got(y.subs[j].rcv), k) == Due(y, j, k) {
        assert Of(Got(x.subs[j].rcv), k) == Due(x, j, k);
      }
    }
  }

  /** The index is untouched by a step that leaves the receiver's alias alone. */
  lemma IndexUntouched(x: Session, i: nat, u: Sub)
    requires IndexOk(x) && i < |x.subs| && u.fullName == x.subs[i].fullName
    requires x.subs[i].rcv.alias.Some? ==> u.rcv.alias == x.subs[i].rcv.alias
    ensures IndexOk(WithSub(x, i, u))
  {
    var y := WithSub(x, i, u);
    forall alias | alias in y.index.byAlias ensures IndexedRightly(y, alias) {
      assert IndexedRightly(x, alias);
    }
  }

  lemma IndexAfterRemove(x: Session, alias: U64, t: Track)
    requires IndexOk(x)
    ensures IndexOk(x.(index := TrackIndex.Remove(x.index, alias, t)))
  {
    var y := x.(index := TrackIndex.Remove(x.index, alias, t));
    forall a | a in y.index.byAlias ensures IndexedRightly(y, a) {
      assert a in x.index.byAlias;
      assert IndexedRightly(x, a);
      if a == alias {
        WithoutOne(x.index.byAlias[a], t);
      }
    }
  }

  lemma WithoutOne(tracks: seq<Track>, t: Track)
    requires |tracks| == 1
    ensures TrackIndex.Without(tracks, t) == if tracks[0] == t then [] else tracks
  {
    assert tracks[1..] == [];
  }

  /** An alias routes to the one subscription that has it. */
  lemma RegisteredIsOwner(x: Session, alias: U64, i: nat)
    requires Invariant(x) && alias in x.index.byAlias && i < |x.subs| && x.subs[i].pub.alias == Some(alias)
    ensures x.index.byAlias[alias] == [TrackOf(x, i)] && x.subs[i].rcv.alias == Some(alias)
  {
    assert IndexedRightly(x, alias);
    var tracks := x.index.byAlias[alias];
    assert SubOk(x, tracks[0].id);
    assert tracks == [tracks[0]];
  }

  lemma PublisherSteps(x: Session, e: Event)
    requires Invariant(x) && Enabled(x, e) && e.Closes?
    ensures Invariant(Next(x, e))
  {
    hide Invariant, IndexOk, ReceiverOk, Got;
    var s := x.subs[e.i];
    assert SubOk(x, e.i) && IndexOk(x) by {
      OfInvariant(x, e.i);
    }
    var u := s.(pub := CloseDone(s.pub));
    IndexUntouched(x, e.i, u);
    var y := WithSub(x, e.i, u);
    assert ReceiverOk(u.rcv, u.received, u.pub, x.version) by {
      CloseKeepsReceiver(s, x.version, x.nextAlias);
    }
    OwnStep(x, e.i, u, x.index);
    assert y.(index := x.index) == y;
  }

  lemma OfInvariant(x: Session, i: nat)
    requires Invariant(x) && i < |x.subs|
    ensures SubOk(x, i) && IndexOk(x) && CountOk(x, i) && ContentOk(x, i)
  {
  }

  lemma CloseKeepsReceiver(s: Sub, version: Version, nextAlias: nat)
    requires PublisherOk(s.pub, nextAlias) && ReceiverOk(s.rcv, s.received, s.pub, version) && s.pub.alias.Some?
    ensures PublisherOk(CloseDone(s.pub), nextAlias)
    ensures ReceiverOk(s.rcv, s.received, CloseDone(s.pub), version)
  {
  }

  /** The subscriber's own steps: comparing, waking, reading, and receiving PUBLISH_DONE and the FIN. */
  lemma ReceiverSteps(x: Session, e: Event)
    requires Invariant(x) && Enabled(x, e)
    requires e.Compares? || e.Wakes? || e.Reads?
             || (e.Receives? && !x.subs[e.i].pub.sent[x.subs[e.i].received].OkMsg?)
    ensures Invariant(Next(x, e))
  {
    hide Invariant, IndexOk, TrackIndex.Remove, Of, Owned, Counted, AliasesUnique;
    var s := x.subs[e.i];
    OfInvariant(x, e.i);
    if e.Reads? {
      ReadKeepsGot(s.rcv);
    }
    var y := Next(x, e);
    var u := y.subs[e.i];
    IndexUntouched(x, e.i, u);
    if s.rcv.alias.Some? {
      IndexAfterRemove(WithSub(x, e.i, u), s.rcv.alias.value, TrackOf(x, e.i));
    }
    OwnStep(x, e.i, u, y.index);
    assert WithSub(x, e.i, u).(index := y.index) == y;
  }

  lemma AcceptStep(x: Session, i: nat)
    requires Invariant(x) && Enabled(x, Accepts(i))
    ensures Invariant(Next(x, Accepts(i)))
  {
    hide Owned, Counted, Of, Got, ReadToEnd;
    var y := Next(x, Accepts(i));
    assert SubOk(x, i);
    forall a, b | 0 <= a < b < |y.subs| && y.subs[a].pub.alias.Some? ensures y.subs[a].pub.alias != y.subs[b].pub.alias {
      assert SubOk(x, a) && SubOk(x, b);
    }
    forall j | 0 <= j < |y.subs| ensures SubOk(y, j) && CountOk(y, j) {
      assert SubOk(x, j) && CountOk(x, j);
    }
    forall k | 0 <= k < |y.streams| ensures StreamOk(y, k) {
      assert StreamOk(x, k);
    }
    forall j | 0 <= j < |y.subs| ensures ContentOk(y, j) {
      assert ContentOk(x, j);
      forall k: nat ensures Of(Got(y.subs[j].rcv), k) == Due(y, j, k) {
        assert Of(Got(x.subs[j].rcv), k) == Due(x, j, k);
      }
    }
    forall alias | alias in y.index.byAlias ensures IndexedRightly(y, alias) {
      assert IndexedRightly(x, alias);
    }
  }

  lemma SubscribeStep(x: Session, name: string)
    requires Invariant(x)
    ensures Invariant(Next(x, Subscribes(name)))
  {
    hide Owned, Counted, ReadToEnd;
    var y := Next(x, Subscribes(name));
    var n := |x.subs|;
    forall j | 0 <= j < |y.subs| ensures SubOk(y, j) && CountOk(y, j) {
      if j < n {
        assert SubOk(x, j) && CountOk(x, j);
      } else {
        NoneOwned(x, n);
      }
    }
    forall k | 0 <= k < |y.streams| ensures StreamOk(y, k) {
      assert StreamOk(x, k);
    }
    forall j | 0 <= j < |y.subs| ensures ContentOk(y, j) {
      forall k: nat ensures Of(Got(y.subs[j].rcv), k) == Due(y, j, k) {
        if j < n {
          assert ContentOk(x, j);
          assert Of(Got(x.subs[j].rcv), k) == Due(x, j, k);
        } else if k < |x.streams| {
          assert StreamOk(x, k);
        }
      }
    }
    forall alias | alias in y.index.byAlias ensures IndexedRightly(y, alias) {
      assert IndexedRightly(x, alias);
    }
  }

  lemma NoneOwned(x: Session, n: nat)
    requires StreamsOk(x) && n == |x.subs|
    ensures Owned(x.streams, n) == {} && Counted(x.streams, n) == {}
  {
    forall k | 0 <= k < |x.streams| ensures x.streams[k].owner != n {
      assert StreamOk(x, k);
    }
  }

  /** SUBSCRIBE_OK registers an alias that names nothing yet. */
  lemma OkStep(x: Session, i: nat)
    requires Invariant(x) && Enabled(x, Receives(i)) && x.subs[i].pub.sent[x.subs[i].received].OkMsg?
    ensures Invariant(Next(x, Receives(i)))
    ensures x.subs[i].pub.alias.Some? && TrackIndex.Free(x.index, x.subs[i].pub.alias.value, TrackOf(x, i))
  {
    var s := x.subs[i];
    assert SubOk(x, i) && s.received == 0;
    var alias := s.pub.alias.value;
    assert s.pub.sent[0] == OkMsg(alias);
    if alias in x.index.byAlias {
      RegisteredIsOwner(x, alias, i);
      assert false;
    }
    var y := Next(x, Receives(i));
    var u := y.subs[i];
    forall a | a in y.index.byAlias ensures IndexedRightly(y, a) {
      if a != alias {
        assert IndexedRightly(x, a);
      }
    }
    hide IndexOk, TrackIndex.Add;
    OwnStep(x, i, u, y.index);
    assert WithSub(x, i, u).(index := y.index) == y;
  }

  // ---- Steps of a stream.

  /** What of a stream the counts and contents depend on. */
  predicate SameProgress(t: Stream, u: Stream) {
    && u.owner == t.owner && u.alias == t.alias && u.fill == t.fill && u.counted == t.counted
    && (u.read == t.read || t.fill) && t.sent <= u.sent
  }

  lemma StreamStep(x: Session, k: nat, u: Stream)
    requires Invariant(x) && k < |x.streams| && SameProgress(x.streams[k], u)
    requires StreamOk(WithStream(x, k, u), k)
    ensures Invariant(WithStream(x, k, u))
  {
    hide SubOk, Owned, Counted, Of, Got, ReadToEnd;
    var y := WithStream(x, k, u);
    assert StreamOk(x, k);
    forall m | 0 <= m < |y.streams| ensures StreamOk(y, m) {
      assert StreamOk(x, m);
    }
    forall j | 0 <= j < |y.subs| ensures SubOk(y, j) && CountOk(y, j) && ContentOk(y, j) {
      assert SubOk(x, j) && CountOk(x, j) && ContentOk(x, j);
      SubUnmoved(x, y, j);
      SetsUnmoved(x.streams, k, u, j);
      forall m: nat ensures Of(Got(y.subs[j].rcv), m) == Due(y, j, m) {
        assert Of(Got(x.subs[j].rcv), m) == Due(x, j, m);
      }
    }
    forall alias | alias in y.index.byAlias ensures IndexedRightly(y, alias) {
      assert IndexedRightly(x, alias);
    }
  }

  lemma SubUnmoved(x: Session, y: Session, j: nat)
    requires j < |x.subs| && j < |y.subs| && x.subs[j] == y.subs[j] && x.nextAlias == y.nextAlias && x.version == y.version
    ensures SubOk(y, j) == SubOk(x, j)
  {
  }

  lemma SetsUnmoved(ss: seq<Stream>, k: nat, u: Stream, i: nat)
    requires k < |ss| && u.owner == ss[k].owner && u.counted == ss[k].counted
    ensures Owned(ss[k := u], i) == Owned(ss, i) && Counted(ss[k := u], i) == Counted(ss, i)
  {
  }

  lemma WriterSteps(x: Session, e: Event)
    requires Invariant(x) && Enabled(x, e) && (e.Writes? || e.Fins?)
    ensures Invariant(Next(x, e))
  {
    hide SubsOk, AliasesUnique, IndexOk, CountsOk, ContentsOk;
    assert StreamOk(x, e.k);
    var u := Next(x, e).streams[e.k];
    StreamStep(x, e.k, u);
  }

  /** Unique aliases make the route right: the stream goes to its owner and to no one else. */
  lemma RouteStep(x: Session, k: nat)
    requires Invariant(x) && Enabled(x, Routes(k))
    ensures Invariant(Next(x, Routes(k)))
  {
    var t := x.streams[k];
    assert StreamOk(x, k);
    var tracks := TrackIndex.TracksOf(x.index, t.alias);
    RegisteredIsOwner(x, t.alias, t.owner);
    hide Invariant;
    StreamStep(x, k, t.(tracks := Some(tracks)));
  }

  lemma FillSteps(x: Session, e: Event)
    requires Invariant(x) && Enabled(x, e) && (e.RoutesFill? || e.HandsFill?)
    ensures Invariant(Next(x, e))
  {
    hide SubsOk, AliasesUnique, IndexOk, CountsOk, ContentsOk;
    assert StreamOk(x, e.k);
    StreamStep(x, e.k, Next(x, e).streams[e.k]);
  }

  /** Delivery never ends under a stream that is still being read, unless the publisher could not count. */
  lemma LastStreamCounted(x: Session, k: nat)
    requires Invariant(x) && k < |x.streams|
    requires x.streams[k].owner < |x.subs|
    requires var s := x.subs[x.streams[k].owner]; !s.rcv.delivering && !Uncounted(s.pub, x.version)
    ensures x.streams[k].counted == 1
  {
    var i := x.streams[k].owner;
    assert SubOk(x, i) && CountOk(x, i);
    SubsetOfSameSize(Counted(x.streams, i), Owned(x.streams, i));
    assert k in Owned(x.streams, i);
  }

  lemma SubsetOfSameSize(a: set<nat>, b: set<nat>)
    requires a <= b && |a| >= |b|
    ensures a == b
  {
    if k :| k in b && k !in a {
      assert a <= b - {k};
      SubsetSize(a, b - {k});
    }
  }

  lemma {:induction false} SubsetSize(a: set<nat>, b: set<nat>)
    requires a <= b
    ensures |a| <= |b|
    decreases a
  {
    if a != {} {
      var k :| k in a;
      SubsetSize(a - {k}, b - {k});
    }
  }

  lemma AbortStep(x: Session, k: nat)
    requires Invariant(x) && Enabled(x, Aborts(k))
    ensures Invariant(Next(x, Aborts(k)))
  {
    var t := x.streams[k];
    assert StreamOk(x, k);
    if !Uncounted(x.subs[t.owner].pub, x.version) {
      LastStreamCounted(x, k);
      assert false;
    }
    hide Invariant;
    StreamStep(x, k, t.(aborted := true));
  }

  lemma OpenStep(x: Session, i: nat, fill: bool)
    requires Invariant(x) && Enabled(x, Opens(i, fill))
    ensures Invariant(Next(x, Opens(i, fill)))
  {
    hide Of, Got, ReadToEnd, Owned, Counted;
    var y := Next(x, Opens(i, fill));
    var n, t := |x.streams|, y.streams[|x.streams|];
    forall j | 0 <= j < |y.subs| ensures SubOk(y, j) && CountOk(y, j) {
      assert SubOk(x, j) && CountOk(x, j);
      SetsGrow(x.streams, t, j);
      if j == i {
        OpenKeepsReceiver(x.subs[i], x.version, x.nextAlias);
      }
    }
    forall k | 0 <= k < |y.streams| ensures StreamOk(y, k) {
      if k < n {
        assert StreamOk(x, k);
      }
    }
    forall j | 0 <= j < |y.subs| ensures ContentOk(y, j) {
      assert ContentOk(x, j);
      forall k: nat ensures Of(Got(y.subs[j].rcv), k) == Due(y, j, k) {
        assert Of(Got(x.subs[j].rcv), k) == Due(x, j, k);
      }
    }
    forall alias | alias in y.index.byAlias ensures IndexedRightly(y, alias) {
      assert IndexedRightly(x, alias);
    }
  }

  lemma OpenKeepsReceiver(s: Sub, version: Version, nextAlias: nat)
    requires PublisherOk(s.pub, nextAlias) && ReceiverOk(s.rcv, s.received, s.pub, version)
    requires s.pub.alias.Some? && !s.pub.closed
    ensures PublisherOk(CountStream(s.pub), nextAlias)
    ensures ReceiverOk(s.rcv, s.received, CountStream(s.pub), version)
  {
  }

  lemma SetsGrow(ss: seq<Stream>, t: Stream, i: nat)
    requires t.counted == 0
    ensures |Owned(ss + [t], i)| == |Owned(ss, i)| + if t.owner == i then 1 else 0
    ensures Counted(ss + [t], i) == Counted(ss, i)
  {
    assert Owned(ss + [t], i) == Owned(ss, i) + if t.owner == i then {|ss|} else {};
  }

  lemma HandStep(x: Session, k: nat)
    requires Invariant(x) && Enabled(x, Hands(k))
    ensures Invariant(Next(x, Hands(k)))
  {
    hide SubOk, Owned, Counted, Of;
    var i := HandTarget(x, k);
    var y := Next(x, Hands(k));
    var t, o := x.streams[k], x.streams[k].sent[x.streams[k].read];
    assert StreamOk(x, k) && t.owner == i && o.stream == k;
    if !x.subs[i].rcv.delivering && !Uncounted(x.subs[i].pub, x.version) {
      LastStreamCounted(x, k);
      assert false;
    }
    assert y.streams == x.streams[k := y.streams[k]];
    forall j | 0 <= j < |y.subs| ensures SubOk(y, j) && CountOk(y, j) && ContentOk(y, j) {
      assert SubOk(x, j) && CountOk(x, j) && ContentOk(x, j);
      if j == i {
        PushKeepsReceiver(x, i, o);
        SubUnmoved(WithSub(x, i, y.subs[i]), y, i);
      } else {
        SubUnmoved(x, y, j);
      }
      SetsUnmoved(x.streams, k, y.streams[k], j);
      forall m: nat ensures Of(Got(y.subs[j].rcv), m) == Due(y, j, m) {
        HandKeepsContent(x, k, j, m);
      }
    }
    HandKeepsStreams(x, k);
    forall alias | alias in y.index.byAlias ensures IndexedRightly(y, alias) {
      assert IndexedRightly(x, alias);
    }
  }

  lemma HandKeepsContent(x: Session, k: nat, j: nat, m: nat)
    requires Enabled(x, Hands(k)) && StreamOk(x, k) && j < |x.subs|
    requires Of(Got(x.subs[j].rcv), m) == Due(x, j, m)
    ensures var y := Next(x, Hands(k)); Of(Got(y.subs[j].rcv), m) == Due(y, j, m)
  {
    hide Of;
    var t, r := x.streams[k], x.subs[j].rcv;
    var o := t.sent[t.read];
    if j == t.owner {
      OfSnoc(Got(r), o, m);
      assert Got(Push(r, o)) == Got(r) + [o];
    }
  }

  lemma HandKeepsStreams(x: Session, k: nat)
    requires StreamsOk(x) && Enabled(x, Hands(k)) && !(x.streams[k].counted == 1 && x.streams[k].aborted)
    ensures StreamsOk(Next(x, Hands(k)))
  {
    hide HasRoom;
    var y := Next(x, Hands(k));
    assert StreamOk(x, k);
    forall m | 0 <= m < |y.streams| ensures StreamOk(y, m) {
      assert StreamOk(x, m);
    }
  }

  lemma PushKeepsReceiver(x: Session, i: nat, o: Object)
    requires i < |x.subs| && SubOk(x, i) && (x.subs[i].rcv.delivering || Uncounted(x.subs[i].pub, x.version))
    ensures var s := x.subs[i]; SubOk(WithSub(x, i, s.(rcv := Push(s.rcv, o))), i)
  {
  }

  lemma CountStep(x: Session, k: nat)
    requires Invariant(x) && Enabled(x, CountsEnd(k))
    ensures Invariant(Next(x, CountsEnd(k)))
  {
    hide SubOk, Owned, Counted, Of, Got;
    var y := Next(x, CountsEnd(k));
    assert StreamOk(x, k);
    var i := x.streams[k].owner;
    assert y.subs[i].rcv == StreamEnded(x.subs[i].rcv) && y.streams == x.streams[k := x.streams[k].(counted := 1)];
    forall j | 0 <= j < |y.subs| ensures SubOk(y, j) && CountOk(y, j) && ContentOk(y, j) {
      assert SubOk(x, j) && CountOk(x, j) && ContentOk(x, j);
      if j == i {
        EndKeepsReceiver(x, i);
        SubUnmoved(WithSub(x, i, y.subs[i]), y, i);
      } else {
        SubUnmoved(x, y, j);
      }
      CountedGrows(x.streams, k, j);
      EndKeepsGot(x.subs[i].rcv);
      forall m: nat ensures Of(Got(y.subs[j].rcv), m) == Due(y, j, m) {
        assert Of(Got(x.subs[j].rcv), m) == Due(x, j, m);
      }
    }
    forall m | 0 <= m < |y.streams| ensures StreamOk(y, m) {
      assert StreamOk(x, m);
    }
    forall alias | alias in y.index.byAlias ensures IndexedRightly(y, alias) {
      assert IndexedRightly(x, alias);
    }
  }

  lemma EndKeepsGot(r: Receiver)
    ensures Got(StreamEnded(r)) == Got(r)
  {
  }

  lemma EndKeepsReceiver(x: Session, i: nat)
    requires i < |x.subs| && SubOk(x, i)
    ensures var s := x.subs[i]; SubOk(WithSub(x, i, s.(rcv := StreamEnded(s.rcv))), i)
  {
  }

  lemma CountedGrows(ss: seq<Stream>, k: nat, i: nat)
    requires k < |ss| && ss[k].counted == 0
    ensures Owned(ss[k := ss[k].(counted := 1)], i) == Owned(ss, i)
    ensures |Counted(ss[k := ss[k].(counted := 1)], i)| == |Counted(ss, i)| + if ss[k].owner == i then 1 else 0
  {
    var after := ss[k := ss[k].(counted := 1)];
    assert Counted(after, i) == Counted(ss, i) + if ss[k].owner == i then {k} else {};
  }

  // ---- Every run.

  lemma StepKeeps(x: Session, e: Event)
    requires Invariant(x) && Enabled(x, e)
    ensures Invariant(Next(x, e))
  {
    hide Invariant, Next;
    match e {
      case Subscribes(name) => SubscribeStep(x, name);
      case Accepts(i) => AcceptStep(x, i);
      case Opens(i, fill) => OpenStep(x, i, fill);
      case Writes(_, _) => WriterSteps(x, e);
      case Fins(_) => WriterSteps(x, e);
      case Closes(_) => PublisherSteps(x, e);
      case Receives(i) =>
        if x.subs[i].pub.sent[x.subs[i].received].OkMsg? {
          OkStep(x, i);
        } else {
          ReceiverSteps(x, e);
        }
      case Routes(k) => RouteStep(x, k);
      case RoutesFill(_) => FillSteps(x, e);
      case Hands(k) => HandStep(x, k);
      case HandsFill(_) => FillSteps(x, e);
      case Aborts(k) => AbortStep(x, k);
      case CountsEnd(k) => CountStep(x, k);
      case Compares(_) => ReceiverSteps(x, e);
      case Wakes(_) => ReceiverSteps(x, e);
      case Reads(_) => ReceiverSteps(x, e);
    }
  }

  lemma {:induction false} RunKeeps(x: Session, events: seq<Event>)
    requires Invariant(x) && IsRun(x, events)
    ensures Invariant(Run(x, events))
    decreases |events|
  {
    hide Invariant, Next, Enabled;
    if events != [] {
      StepKeeps(x, events[0]);
      RunKeeps(Next(x, events[0]), events[1..]);
    }
  }

  lemma StartIsFine(version: Version)
    ensures Invariant(Start(version))
  {
  }

  /** Delivery safety: in every run, when ReadObject reports the end of a subscription, every data stream
      the publisher opened for it has been written to its FIN and read to its end, and every Object on a
      subgroup stream has been returned, in the order it was written -- unless the publisher announced that
      it could not count. */
  lemma NothingIsLost(version: Version, events: seq<Event>, i: nat, k: nat)
    requires IsRun(Start(version), events)
    requires i < |Run(Start(version), events).subs| && k < |Run(Start(version), events).streams|
    ensures var x := Run(Start(version), events);
            x.subs[i].rcv.reported && x.streams[k].owner == i ==>
              || Uncounted(x.subs[i].pub, version)
              || (x.streams[k].fin && x.streams[k].read == |x.streams[k].sent|
                  && (!x.streams[k].fill ==> Of(x.subs[i].rcv.yielded, k) == x.streams[k].sent))
  {
    hide IsRun, Run;
    StartIsFine(version);
    RunKeeps(Start(version), events);
    var x := Run(Start(version), events);
    RunVersion(Start(version), events);
    var r, t := x.subs[i].rcv, x.streams[k];
    if r.reported && t.owner == i && !Uncounted(x.subs[i].pub, version) {
      hide Of, Owned, Counted;
      assert SubOk(x, i) && StreamOk(x, k) && ContentOk(x, i);
      LastStreamCounted(x, k);
      assert Got(r) == r.yielded;
      assert Of(Got(r), k) == Due(x, i, k);
    }
  }

  lemma {:induction false} RunVersion(x: Session, events: seq<Event>)
    requires IsRun(x, events)
    ensures Run(x, events).version == x.version
    decreases |events|
  {
    hide Enabled;
    if events != [] {
      assert Next(x, events[0]).version == x.version;
      RunVersion(Next(x, events[0]), events[1..]);
    }
  }

  /** What reaches a subscription, at any moment of any run, is its own streams' Objects and nothing else:
      of each of its streams a prefix of what was written, of every other stream nothing. */
  lemma OnlyOwnObjects(version: Version, events: seq<Event>, i: nat, k: nat)
    requires IsRun(Start(version), events) && i < |Run(Start(version), events).subs|
    ensures var x := Run(Start(version), events);
            Of(Got(x.subs[i].rcv), k) == Due(x, i, k) && (k < |x.streams| ==> x.streams[k].read <= |x.streams[k].sent|)
  {
    hide IsRun, Run, Of, Got;
    StartIsFine(version);
    RunKeeps(Start(version), events);
    var x := Run(Start(version), events);
    assert ContentOk(x, i);
    assert Of(Got(x.subs[i].rcv), k) == Due(x, i, k);
    if k < |x.streams| {
      assert StreamOk(x, k);
    }
  }

  /** And the end does come: a waiter asleep although the announced streams have ended has been signalled. */
  lemma WaiterIsSignalled(version: Version, events: seq<Event>, i: nat)
    requires IsRun(Start(version), events) && i < |Run(Start(version), events).subs|
    ensures var x := Run(Start(version), events);
            x.subs[i].rcv.waiter.Asleep? && x.subs[i].rcv.endedStreams >= x.subs[i].rcv.waiter.want ==>
              && Enabled(x, Wakes(i))
              && var woken := Next(x, Wakes(i));
              && Enabled(woken, Compares(i)) && !Next(woken, Compares(i)).subs[i].rcv.delivering
  {
    hide IsRun, Run;
    StartIsFine(version);
    RunKeeps(Start(version), events);
    assert SubOk(Run(Start(version), events), i);
  }
}
