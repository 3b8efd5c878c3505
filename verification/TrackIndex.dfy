/** The index that routes data streams to subscriptions by Track Alias. A stream can
    overtake the SUBSCRIBE_OK that gives it its alias, so readers wait on the index.

    A wait channel is the number of the one that was current when it was captured; all
    before the current one are closed. */
module TrackIndex {
  import opened Wire

  /** A subscription: its identity, and the full name of its track. */
  datatype Track = Track(id: nat, fullName: string)

  datatype Index = Index(byAlias: map<U64, seq<Track>>, pending: set<Track>, changed: nat)

  const EMPTY := Index(map[], {}, 0)

  /** The tracks of an alias, none if it is not there. */
  function TracksOf(x: Index, alias: U64): seq<Track> {
    if alias in x.byAlias then x.byAlias[alias] else []
  }

  predicate AwaitsAnswer(x: Index, fullName: string) {
    exists t :: t in x.pending && t.fullName == fullName
  }

  predicate Ready(x: Index, alias: U64) {
    TracksOf(x, alias) != [] && !AwaitsAnswer(x, TracksOf(x, alias)[0].fullName)
  }

  predicate SameName(tracks: seq<Track>, fullName: string) {
    forall t | t in tracks :: t.fullName == fullName
  }

  /** Whether an alias can be given to a track: it names no other. */
  predicate Free(x: Index, alias: U64, t: Track) {
    SameName(TracksOf(x, alias), t.fullName)
  }

  function Notify(x: Index): Index {
    x.(changed := x.changed + 1)
  }

  function Expect(x: Index, t: Track): Index {
    x.(pending := x.pending + {t})
  }

  function Abandon(x: Index, t: Track): Index {
    if t in x.pending then Notify(x.(pending := x.pending - {t})) else x
  }

  /** The subscription is answered, and readers are woken, whether or not the alias is refused. */
  function Add(x: Index, alias: U64, t: Track): Index {
    var answered := Notify(x.(pending := x.pending - {t}));
    if Free(x, alias, t) then answered.(byAlias := x.byAlias[alias := TracksOf(x, alias) + [t]]) else answered
  }

  /** The list without the first occurrence of a track. */
  function Without(tracks: seq<Track>, t: Track): (r: seq<Track>)
    ensures forall u | u in r :: u in tracks
  {
    if tracks == [] then [] else if tracks[0] == t then tracks[1..] else [tracks[0]] + Without(tracks[1..], t)
  }

  function Remove(x: Index, alias: U64, t: Track): Index {
    var left := Without(TracksOf(x, alias), t);
    x.(byAlias := if left == [] then x.byAlias - {alias} else x.byAlias[alias := left])
  }

  method Spliced(tracks: seq<Track>, t: Track) returns (left: seq<Track>)
    ensures left == Without(tracks, t)
  {
    for n := 0 to |tracks|
      invariant Without(tracks, t) == tracks[..n] + Without(tracks[n..], t)
    {
      assert tracks[n..][0] == tracks[n] && tracks[n..][1..] == tracks[n + 1..];
      if tracks[n] == t {
        return tracks[..n] + tracks[n + 1..];
      }
      assert tracks[..n] + ([tracks[n]] + Without(tracks[n + 1..], t)) == tracks[..n + 1] + Without(tracks[n + 1..], t);
    }
    assert tracks[..|tracks|] + [] == tracks;
    return tracks;
  }

  class RemoteTrackIndex {
    var byAlias: map<U64, seq<Track>>
    var pending: set<Track>
    var changed: nat

    constructor ()
      ensures State() == EMPTY == Index(map[], {}, 0)
    {
      byAlias, pending, changed := map[], {}, 0;
    }

    function State(): Index
      reads this
    {
      Index(byAlias, pending, changed)
    }

    method ExpectTrack(t: Track)
      modifies this`pending
      ensures State() == Expect(old(State()), t)
    {
      pending := pending + {t};
    }

    method AbandonTrack(t: Track)
      modifies this
      ensures State() == Abandon(old(State()), t)
    {
      if t in pending {
        pending := pending - {t};
        changed := changed + 1;
      }
    }

    /** Registers a track under an alias, or reports that the alias names another. */
    method AddTrack(alias: U64, t: Track) returns (ok: bool)
      modifies this
      ensures State() == Add(old(State()), alias, t) && ok == Free(old(State()), alias, t)
    {
      ghost var before := State();
      pending := pending - {t};
      changed := changed + 1;
      var tracks := if alias in byAlias then byAlias[alias] else [];
      for n := 0 to |tracks|
        invariant SameName(tracks[..n], t.fullName)
      {
        assert tracks[..n + 1] == tracks[..n] + [tracks[n]];
        if tracks[n].fullName != t.fullName {
          return false;
        }
      }
      assert tracks[..|tracks|] == tracks;
      byAlias := byAlias[alias := tracks + [t]];
      return true;
    }

    method RemoveTrack(alias: U64, t: Track)
      modifies this`byAlias
      ensures State() == Remove(old(State()), alias, t)
    {
      var tracks := if alias in byAlias then byAlias[alias] else [];
      tracks := Spliced(tracks, t);
      if |tracks| == 0 {
        byAlias := byAlias - {alias};
      } else {
        byAlias := byAlias[alias := tracks];
      }
    }

    /** What a reader sees under the lock: the tracks, whether they are final, and the channel to wait on. */
    method Look(alias: U64) returns (tracks: seq<Track>, ready: bool, on: nat)
      ensures tracks == TracksOf(State(), alias) && ready == Ready(State(), alias) && on == changed
    {
      tracks := if alias in byAlias then byAlias[alias] else [];
      ready := |tracks| > 0 && !(exists t | t in pending :: t.fullName == tracks[0].fullName);
      on := changed;
    }
  }

  // ---- The index and the readers waiting on it.

  /** A reader in await: about to look, asleep on a channel, or back with what it found. */
  datatype Reader = Looking(alias: U64) | Sleeping(alias: U64, on: nat) | Found(alias: U64, tracks: seq<Track>)

  datatype System = System(index: Index, readers: map<nat, Reader>)

  datatype Event =
    | Expects(t: Track)
    | Abandons(t: Track)
    | Adds(alias: U64, t: Track)
    | Removes(alias: U64, t: Track)
    | Arrives(r: nat, alias: U64)
    | Looks(r: nat)
    | Wakes(r: nat)
    | TimesOut(r: nat)

  predicate Closed(x: Index, on: nat) {
    on < x.changed
  }

  predicate Enabled(s: System, e: Event) {
    match e
    case Arrives(r, _) => r !in s.readers
    case Looks(r) => r in s.readers && s.readers[r].Looking?
    case Wakes(r) => r in s.readers && s.readers[r].Sleeping? && Closed(s.index, s.readers[r].on)
    case TimesOut(r) => r in s.readers && s.readers[r].Sleeping?
    case _ => true
  }

  function Next(s: System, e: Event): System
    requires Enabled(s, e)
  {
    match e
    case Expects(t) => s.(index := Expect(s.index, t))
    case Abandons(t) => s.(index := Abandon(s.index, t))
    case Adds(alias, t) => s.(index := Add(s.index, alias, t))
    case Removes(alias, t) => s.(index := Remove(s.index, alias, t))
    case Arrives(r, alias) => s.(readers := s.readers[r := Looking(alias)])
    case Looks(r) => (
      var alias := s.readers[r].alias;
      s.(readers := s.readers[r := if Ready(s.index, alias) then Found(alias, TracksOf(s.index, alias))
                                   else Sleeping(alias, s.index.changed)]))
    case Wakes(r) => s.(readers := s.readers[r := Looking(s.readers[r].alias)])
    case TimesOut(r) => s.(readers := s.readers[r := Found(s.readers[r].alias, TracksOf(s.index, s.readers[r].alias))])
  }

  predicate IsRun(s: System, events: seq<Event>)
    decreases |events|
  {
    events == [] || (Enabled(s, events[0]) && IsRun(Next(s, events[0]), events[1..]))
  }

  function Run(s: System, events: seq<Event>): System
    requires IsRun(s, events)
    decreases |events|
  {
    if events == [] then s else Run(Next(s, events[0]), events[1..])
  }

  /** Every alias names one track, through one subscription or more. */
  predicate Valid(x: Index) {
    forall alias | alias in x.byAlias :: x.byAlias[alias] != [] && SameName(x.byAlias[alias], x.byAlias[alias][0].fullName)
  }

  /** A reader asleep on the current channel has nothing to wake for. */
  predicate Attentive(x: Index, w: Reader) {
    w.Sleeping? ==> w.on <= x.changed && (w.on == x.changed ==> !Ready(x, w.alias))
  }

  predicate Invariant(s: System) {
    Valid(s.index) && forall r | r in s.readers :: Attentive(s.index, s.readers[r])
  }

  lemma StepsKeepValid(x: Index, alias: U64, t: Track)
    requires Valid(x)
    ensures Valid(Expect(x, t)) && Valid(Abandon(x, t)) && Valid(Add(x, alias, t)) && Valid(Remove(x, alias, t))
  {
    var left := Without(TracksOf(x, alias), t);
    if left != [] {
      assert left[0] in TracksOf(x, alias);
    }
  }

  /** No step makes an alias ready without closing the channel that was current. */
  lemma ReadyIsAnnounced(x: Index, alias: U64, t: Track, watched: U64)
    requires Valid(x) && !Ready(x, watched)
    ensures !Ready(Expect(x, t), watched)
    ensures !Ready(Remove(x, alias, t), watched)
    ensures Abandon(x, t).changed == x.changed ==> !Ready(Abandon(x, t), watched)
    ensures Add(x, alias, t).changed > x.changed
  {
    var tracks := TracksOf(x, watched);
    if tracks != [] {
      assert AwaitsAnswer(x, tracks[0].fullName);
      var u :| u in x.pending && u.fullName == tracks[0].fullName;
      assert u in Expect(x, t).pending;
      var left := Without(tracks, t);
      if left != [] {
        assert left[0] in tracks;
      }
    }
  }

  lemma IndexStepKeeps(s: System, e: Event)
    requires Invariant(s) && (e.Expects? || e.Abandons? || e.Adds? || e.Removes?)
    ensures Invariant(Next(s, e))
  {
    hide Valid, Ready, Expect, Remove, Add, TracksOf;
    var alias := if e.Adds? || e.Removes? then e.alias else 0;
    StepsKeepValid(s.index, alias, e.t);
    var x := Next(s, e).index;
    assert e.Expects? || e.Removes? ==> x.changed == s.index.changed by {
      Unannounced(s.index, alias, e.t);
    }
    forall r | r in s.readers ensures Attentive(x, s.readers[r]) {
      var w := s.readers[r];
      assert Attentive(s.index, w);
      if w.Sleeping? && w.on == s.index.changed {
        ReadyIsAnnounced(s.index, alias, e.t, w.alias);
      }
      AddNotifies(s.index, alias, e.t);
    }
  }

  lemma Unannounced(x: Index, alias: U64, t: Track)
    ensures Expect(x, t).changed == x.changed && Remove(x, alias, t).changed == x.changed
  {
  }

  lemma AddNotifies(x: Index, alias: U64, t: Track)
    ensures Add(x, alias, t).changed == x.changed + 1
  {
  }

  lemma ReaderStepKeeps(s: System, e: Event)
    requires Invariant(s) && Enabled(s, e) && (e.Arrives? || e.Looks? || e.Wakes? || e.TimesOut?)
    ensures Invariant(Next(s, e))
  {
    hide Valid, Ready, TracksOf;
  }

  lemma {:induction false} RunKeeps(s: System, events: seq<Event>)
    requires Invariant(s) && IsRun(s, events)
    ensures Invariant(Run(s, events))
    decreases |events|
  {
    hide Invariant, Next, Enabled;
    if events != [] {
      var e := events[0];
      if e.Expects? || e.Abandons? || e.Adds? || e.Removes? {
        IndexStepKeeps(s, e);
      } else {
        ReaderStepKeeps(s, e);
      }
      RunKeeps(Next(s, e), events[1..]);
    }
  }

  /** Over every run: an alias in the index holds a non-empty list of one track's subscriptions, and no
      wake-up is lost -- a reader asleep although its alias is ready can wake, and when it then looks it
      returns with the tracks. */
  lemma NoWakeUpIsLost(events: seq<Event>, r: nat)
    requires IsRun(System(EMPTY, map[]), events)
    ensures var s := Run(System(EMPTY, map[]), events);
            && Valid(s.index)
            && (r in s.readers && s.readers[r].Sleeping? && Ready(s.index, s.readers[r].alias) ==>
                  && Enabled(s, Wakes(r))
                  && var woken := Next(s, Wakes(r));
                  && Enabled(woken, Looks(r))
                  && Next(woken, Looks(r)).readers[r]
                     == Found(s.readers[r].alias, TracksOf(s.index, s.readers[r].alias)))
  {
    hide IsRun, Run, Ready, Valid, TracksOf;
    assert Invariant(System(EMPTY, map[])) by {
      EmptyIsValid();
    }
    RunKeeps(System(EMPTY, map[]), events);
    var s := Run(System(EMPTY, map[]), events);
    assert r in s.readers ==> Attentive(s.index, s.readers[r]);
  }

  /** Where a reader stands and what it found. */
  predicate Back(s: System, r: nat, alias: U64) {
    r in s.readers && s.readers[r] == Found(alias, TracksOf(s.index, alias))
  }

  /** A wait from its start: the first look ends it if the alias is ready, and else it lasts until the index
      is told of an answer or an end, or until it times out with what there is then. */
  lemma WaitLastsExactly(s: System, r: nat, alias: U64, other: U64, t: Track)
    requires r !in s.readers
    ensures var a := Next(s, Arrives(r, alias));
            && Enabled(a, Looks(r)) && a.index == s.index
            && var b := Next(a, Looks(r));
               && b.index == s.index
               && (Ready(s.index, alias) ==> Back(b, r, alias))
               && (!Ready(s.index, alias) ==>
                     && !Enabled(b, Looks(r)) && !Enabled(b, Wakes(r))
                     && Enabled(Next(b, Adds(other, t)), Wakes(r))
                     && (Enabled(Next(b, Abandons(t)), Wakes(r)) <==> t in s.index.pending)
                     && !Enabled(Next(b, Expects(t)), Wakes(r)) && !Enabled(Next(b, Removes(other, t)), Wakes(r))
                     && Enabled(b, TimesOut(r)) && Back(Next(b, TimesOut(r)), r, alias))
  {
    hide Ready, TracksOf, Without, Free;
  }

  lemma EmptyIsValid()
    ensures Valid(EMPTY)
  {
  }

  /** What a reader that did not time out comes back with: some subscriptions, all to one track, to which
      no SUBSCRIBE is unanswered. */
  lemma FoundIsFinal(events: seq<Event>, r: nat)
    requires IsRun(System(EMPTY, map[]), events)
    requires Enabled(Run(System(EMPTY, map[]), events), Looks(r))
    ensures var s := Run(System(EMPTY, map[]), events);
            var w := Next(s, Looks(r)).readers[r];
            w.Found? ==>
              && w.tracks != [] && SameName(w.tracks, w.tracks[0].fullName)
              && forall t | t in s.index.pending :: t.fullName != w.tracks[0].fullName
  {
    hide IsRun, Run;
    assert Invariant(System(EMPTY, map[]));
    RunKeeps(System(EMPTY, map[]), events);
  }

  // ---- The index, told from everything that has happened.

  /** The events so far, the last one last. */
  type History = seq<Event>

  /** A subscription is expected, and since then neither answered nor abandoned. */
  ghost predicate Awaited(h: History, t: Track) {
    exists n: nat | n < |h| :: h[n] == Expects(t) && forall m | n < m < |h| :: !Settles(h[m], t)
  }

  predicate Settles(e: Event, t: Track) {
    e == Abandons(t) || (e.Adds? && e.t == t)
  }

  /** The position of the first of a track. */
  predicate FirstAt(tracks: seq<Track>, t: Track, n: nat) {
    n < |tracks| && tracks[n] == t && t !in tracks[..n]
  }

  lemma {:induction false} SomeFirst(tracks: seq<Track>, t: Track)
    requires t in tracks
    ensures exists n: nat :: FirstAt(tracks, t, n)
  {
    var m := |tracks| - 1;
    if t in tracks[..m] {
      SomeFirst(tracks[..m], t);
      var n: nat :| FirstAt(tracks[..m], t, n);
      assert tracks[..m][..n] == tracks[..n];
      assert FirstAt(tracks, t, n);
    } else {
      assert tracks == tracks[..m] + [tracks[m]];
      assert FirstAt(tracks, t, m);
    }
  }

  ghost function LessFirst(tracks: seq<Track>, t: Track): seq<Track> {
    if t !in tracks then tracks
    else
      SomeFirst(tracks, t);
      var n: nat :| FirstAt(tracks, t, n);
      tracks[..n] + tracks[n + 1..]
  }

  /** The subscriptions of an alias, in the order they were added: each addition at the end, unless the alias
      names another track; each removal of the first of its track there is. */
  ghost function Held(h: History, alias: U64): seq<Track>
    decreases |h|
  {
    if h == [] then []
    else
      var e, before := h[|h| - 1], Held(h[..|h| - 1], alias);
      match e
      case Adds(a, t) =>
        if a == alias && forall u | u in before :: u.fullName == t.fullName then before + [t] else before
      case Removes(a, t) => if a == alias then LessFirst(before, t) else before
      case _ => before
  }

  lemma {:induction false} WithoutAt(tracks: seq<Track>, t: Track, n: nat)
    requires FirstAt(tracks, t, n)
    ensures Without(tracks, t) == tracks[..n] + tracks[n + 1..]
  {
    if n == 0 {
      assert tracks[..0] + tracks[1..] == tracks[1..];
    } else {
      assert tracks[0] in tracks[..n];
      assert tracks[1..][..n - 1] == tracks[1..n];
      assert tracks[..n] == [tracks[0]] + tracks[1..n];
      WithoutAt(tracks[1..], t, n - 1);
      assert tracks[1..][n..] == tracks[n + 1..];
    }
  }

  lemma {:induction false} WithoutNone(tracks: seq<Track>, t: Track)
    requires t !in tracks
    ensures Without(tracks, t) == tracks
  {
    if tracks != [] {
      WithoutNone(tracks[1..], t);
    }
  }

  /** Removing takes the first of its track, and nothing else. */
  lemma WithoutIsLessFirst(tracks: seq<Track>, t: Track)
    ensures Without(tracks, t) == LessFirst(tracks, t)
  {
    if t in tracks {
      SomeFirst(tracks, t);
      var n: nat :| FirstAt(tracks, t, n) && LessFirst(tracks, t) == tracks[..n] + tracks[n + 1..];
      WithoutAt(tracks, t, n);
    } else {
      WithoutNone(tracks, t);
    }
  }

  lemma AwaitedSnoc(h: History, e: Event, t: Track)
    ensures Awaited(h + [e], t) <==> e == Expects(t) || (Awaited(h, t) && !Settles(e, t))
  {
    var k := h + [e];
    if Awaited(k, t) && e != Expects(t) {
      var n: nat :| n < |k| && k[n] == Expects(t) && forall m | n < m < |k| :: !Settles(k[m], t);
      assert h[n] == k[n] && forall m | n < m < |h| :: k[m] == h[m];
      assert k[|h|] == e;
    }
    if Awaited(h, t) && !Settles(e, t) {
      var n: nat :| n < |h| && h[n] == Expects(t) && forall m | n < m < |h| :: !Settles(h[m], t);
      assert k[n] == h[n] && forall m | n < m < |k| :: !Settles(k[m], t);
    }
    if e == Expects(t) {
      assert k[|h|] == Expects(t);
    }
  }

  /** What the index has is what the history says. */
  ghost predicate Recorded(h: History, x: Index) {
    (forall t :: t in x.pending <==> Awaited(h, t)) && forall alias: U64 :: TracksOf(x, alias) == Held(h, alias)
  }

  lemma StepRecords(h: History, s: System, e: Event)
    requires Recorded(h, s.index) && Valid(s.index) && Enabled(s, e)
    ensures Recorded(h + [e], Next(s, e).index)
  {
    hide Awaited, LessFirst, Valid, Ready;
    var y := Next(s, e).index;
    assert (h + [e])[..|h|] == h;
    forall t ensures t in y.pending <==> Awaited(h + [e], t) {
      AwaitedSnoc(h, e, t);
    }
    forall alias: U64 ensures TracksOf(y, alias) == Held(h + [e], alias) {
      assert TracksOf(s.index, alias) == Held(h, alias);
      if e.Removes? {
        WithoutIsLessFirst(TracksOf(s.index, alias), e.t);
      }
    }
  }

  lemma {:induction false} RunRecords(h: History, s: System, events: seq<Event>)
    requires Recorded(h, s.index) && Invariant(s) && IsRun(s, events)
    ensures Recorded(h + events, Run(s, events).index)
    decreases |events|
  {
    hide Recorded, Next, Enabled;
    if events == [] {
      assert h + [] == h;
    } else {
      var y := Next(s, events[0]);
      StepRecords(h, s, events[0]);
      assert IsRun(y, []);
      RunKeeps(s, [events[0]]);
      RunRecords(h + [events[0]], y, events[1..]);
      assert h + [events[0]] + events[1..] == h + events;
    }
  }

  /** The index over every run: waiting for an answer are exactly the subscriptions expected and since neither
      answered nor abandoned; an alias has, in order, those added under it and not removed; and it is ready
      exactly when it has one and no subscription to its track is waiting. */
  lemma IndexIsHistory(events: seq<Event>, alias: U64)
    requires IsRun(System(EMPTY, map[]), events)
    ensures var x := Run(System(EMPTY, map[]), events).index;
            && (forall t :: t in x.pending <==> Awaited(events, t))
            && TracksOf(x, alias) == Held(events, alias)
            && (Ready(x, alias) <==>
                  Held(events, alias) != []
                  && forall t | Awaited(events, t) :: t.fullName != Held(events, alias)[0].fullName)
  {
    hide Awaited, Held, IsRun, Run;
    assert Recorded([], EMPTY) by {
      NothingHappened(alias);
    }
    RunRecords([], System(EMPTY, map[]), events);
    assert [] + events == events;
  }

  lemma NothingHappened(alias: U64)
    ensures Recorded([], EMPTY)
  {
  }

  /** The ordinary course: a subscription is expected, then answered under an alias nothing else has. A data
      stream with that alias then finds it at once. */
  lemma AnsweredIsReady(events: seq<Event>, t: Track, alias: U64)
    requires IsRun(System(EMPTY, map[]), events) && Held(events, alias) == []
    requires forall u | Awaited(events, u) && u.fullName == t.fullName :: u == t
    ensures var x := Add(Run(System(EMPTY, map[]), events).index, alias, t);
            TracksOf(x, alias) == [t] && Ready(x, alias)
  {
    hide Awaited, Held, IsRun, Run;
    IndexIsHistory(events, alias);
  }
}
