/** Both ends of an established subscription with updates and answers in flight: the
    subscriber's slots are those in flight, each answer frees its own update's, and what
    the subscriber concludes about a fill is settled by what it has asked for since.

    An update can be refused before a byte of it is written: it does not encode, does not
    fit a message, or carries a parameter that may not be there. The stream goes on, and
    what was asked for stays recorded. Between an answer and the fill it starts nothing is
    published: the publisher applies an update in one step. PUBLISH_STATE_NOTIFY is not
    among the steps, nor is a write that fails underway, after which there is no stream. */
module UpdatePipeline {
  import opened Wire
  import opened StableSorting
  import opened LocationFilters
  import opened FilterCodec
  import opened Parameters
  import opened ParameterRoundTrips
  import opened EarlyUpdates
  import opened Fills
  import opened Updates
  import Wiregen
  import ControlMessages
  import ControlStreams
  import ParameterScopes

  // ---- The two ends.

  /** An answer, labelled with the update it answers, the publisher's settings when it was given and whether
      a fill stream was opened. The labels are not on the wire. */
  datatype InFlight = InFlight(answer: Answer, update: Update, at: Settings, opens: bool)

  /** Pause and filter, as the subscriber has them. */
  datatype View = View(paused: bool, filter: Option<LocationFilter>)

  /** What hearing an answer did: the slot it freed, the answer, the updates still unanswered behind it,
      what the subscriber had recorded, what it would have recorded of the updates that were sent alone,
      whether the fill's stream was there, and whether the subscriber gave up on it. */
  datatype Verdict = Verdict(
    freed: Slot, answered: InFlight, later: seq<Update>, recorded: View, asSent: View, attached: bool, gaveUp: bool)

  datatype Pipe = Pipe(
    version: Version, limit: U64, nextId: U64, sub: Subscriber, asSent: View, pub: Publisher,
    toPub: seq<Update>, toSub: seq<InFlight>, log: seq<Verdict>)

  datatype Event = Sends(params: ParameterList) | Applies | Hears(attached: bool) | Publishes(l: Location)

  function ArrivedParams(params: ParameterList, version: Version): ParameterList {
    CanonList(SortedParameters(params), TopLevel(version), version)
  }

  function UpdateMessage(u: Update): (m: ControlMessages.Message)
    ensures ControlMessages.WellTyped(m)
  {
    ControlMessages.Generated(ControlMessages.RequestUpdate, [Wiregen.Integer(u.requestId), Wiregen.Params(u.params)])
  }

  /** The scope of the subscriber's end of an established SUBSCRIBE. */
  function Subscribed(): ParameterScopes.ScopeState {
    ParameterScopes.ScopeState(ParameterScopes.TypeOf(ControlMessages.Subscribe), true, true)
  }

  /** Whether the update gets past encoding, framing and the check of its parameters. */
  predicate CanWrite(u: Update, version: Version) {
    && ControlStreams.FrameBytes(UpdateMessage(u), version).Success?
    && ParameterScopes.Judge(version, Subscribed(), ParameterScopes.Msg(ControlMessages.RequestUpdate, u.params), true).allowed
  }

  /** Any update may be asked for below the limit; a fill stream can have come only if one was opened. */
  predicate Enabled(x: Pipe, e: Event) {
    match e
    case Sends(_) => !AtLimit(x.sub, x.limit)
    case Applies => x.toPub != [] && !x.pub.closed
    case Hears(attached) => x.toSub != [] && x.sub.pending != [] && (attached ==> x.toSub[0].opens)
    case Publishes(_) => true
  }

  function SlotOf(u: Update): Slot {
    Slot(u.requestId, FillOf(u.params))
  }

  function ViewOf(sub: Subscriber): View {
    View(sub.paused, sub.filter)
  }

  function Overlaid(v: View, params: ParameterList): View {
    var (paused, filter) := Recorded(v.paused, v.filter, params);
    View(paused, filter)
  }

  function UpdatesOf(answers: seq<InFlight>): (r: seq<Update>)
    ensures |r| == |answers| && forall n | 0 <= n < |r| :: r[n] == answers[n].update
  {
    seq(|answers|, n requires 0 <= n < |answers| => answers[n].update)
  }

  function Next(x: Pipe, e: Event): Pipe
    requires Enabled(x, e)
  {
    match e
    case Sends(params) => (
      var u := Update(x.nextId, params);
      var y := x.(nextId := WrapAdd(x.nextId, 2));
      if CanWrite(u, x.version)
        then y.(sub := Asked(x.sub, u), asSent := Overlaid(x.asSent, params), toPub := x.toPub + [u])
        else y.(sub := Unsent(x.sub, u)))
    case Applies => (
      var u := x.toPub[0];
      var r := Apply(x.pub, x.version, ArrivedParams(u.params, x.version));
      x.(pub := r.pub, toPub := x.toPub[1..], toSub := x.toSub + [InFlight(r.answer, u, r.pub.settings, r.opens)]))
    case Hears(attached) => (
      var a := x.toSub[0];
      var v := Verdict(x.sub.pending[0], a, UpdatesOf(x.toSub[1..]) + x.toPub, ViewOf(x.sub), x.asSent,
                       attached, !attached && GivesUp(x.sub, a.answer));
      x.(sub := Heard(x.sub, a.answer), toSub := x.toSub[1..], log := x.log + [v]))
    case Publishes(l) => x.(pub := x.pub.(largest := NoteLargest(x.pub.largest, l)))
  }

  predicate IsRun(x: Pipe, events: seq<Event>)
    decreases |events|
  {
    events == [] || (Enabled(x, events[0]) && IsRun(Next(x, events[0]), events[1..]))
  }

  function Run(x: Pipe, events: seq<Event>): Pipe
    requires IsRun(x, events)
    decreases |events|
  {
    if events == [] then x else Run(Next(x, events[0]), events[1..])
  }

  function OnWire(f: Option<LocationFilter>): Option<LocationFilter> {
    if f.None? then None else Some(Received(f.value, Draft22))
  }

  /** How a subscription was established: both ends start from what the SUBSCRIBE asked for. */
  datatype Setting = Setting(
    version: Version, limit: U64, nextId: U64, priority: U8, paused: bool,
    filter: Option<LocationFilter>, largest: Option<Location>)

  function Start(c: Setting): Pipe {
    Pipe(c.version, c.limit, c.nextId, Subscriber([], c.paused, c.filter, c.largest), View(c.paused, c.filter),
         Publisher(Settings(c.priority, !c.paused, OnWire(c.filter)), c.largest, false), [], [], [])
  }

  // ---- The invariants.

  function SlotsOf(updates: seq<Update>): (r: seq<Slot>)
    ensures |r| == |updates|
  {
    seq(|updates|, n requires 0 <= n < |updates| => SlotOf(updates[n]))
  }

  /** The slots are the updates whose answers are in flight, then the updates in flight, in order. */
  predicate InOrder(x: Pipe) {
    && x.sub.pending == SlotsOf(UpdatesOf(x.toSub) + x.toPub)
    && (x.limit != 0 ==> |x.sub.pending| <= x.limit)
  }

  /** Forwarding and filter overlaid by an update, were it valid. */
  function Overlay(s: Settings, params: ParameterList): Settings {
    var forward, f := First(params, FORWARD), FilterOf(params);
    s.(forward := if forward.Some? then forward.value.number != 0 else s.forward,
       filter := if f.Some? then ActiveFilter(f) else s.filter)
  }

  function Folded(s: Settings, updates: seq<Update>, version: Version): Settings
    decreases |updates|
  {
    if updates == [] then s else Folded(Overlay(s, ArrivedParams(updates[0].params, version)), updates[1..], version)
  }

  predicate ValidFilter(f: Option<LocationFilter>) {
    f.Some? ==> Valid(f.value)
  }

  /** A view and the publisher's settings say the same. */
  predicate Mirrors(v: View, s: Settings) {
    v.paused == !s.forward && OnWire(v.filter) == s.filter
  }

  predicate Mirrored(x: Pipe) {
    ValidFilter(x.asSent.filter) && (!x.pub.closed ==> Mirrors(x.asSent, Folded(x.pub.settings, x.toPub, x.version)))
  }

  predicate NotPast(a: Option<Location>, b: Option<Location>) {
    a.Some? ==> b.Some? && AtMost(a.value, b.value)
  }

  /** Largest Object only grows, from the subscriber's view through the answers in flight to the publisher's. */
  predicate Chain(known: Option<Location>, answers: seq<InFlight>, last: Option<Location>)
    decreases |answers|
  {
    if answers == [] then NotPast(known, last)
    else if answers[0].answer.Refused? then Chain(known, answers[1..], last)
    else NotPast(known, answers[0].answer.largest) && Chain(answers[0].answer.largest, answers[1..], last)
  }

  function FillArrived(inner: ParameterList, version: Version): ParameterList {
    CanonList(SortedParameters(inner), Fill, version)
  }

  /** Whether a fill opens a stream under some settings. */
  predicate OpensUnder(s: Settings, a: InFlight, inner: ParameterList)
    requires a.answer.Answered?
  {
    Opens(s, a.answer.largest, FillArrived(inner, Draft22))
  }

  /** What an answer's labels say: the fill opened as the settings had it, and what the subscriber would have
      of the updates sent is those settings overlaid by the ones behind. */
  predicate Labelled(a: InFlight, later: seq<Update>, asSent: View) {
    a.answer.Answered? ==>
      && Mirrors(asSent, Folded(a.at, later, Draft22))
      && var fill := FillOf(a.update.params);
      (fill.Some? ==> a.opens == OpensUnder(a.at, a, fill.value) && ValidFilter(FilterOf(fill.value)))
  }

  /** The updates behind the `n`th answer in flight. */
  function Behind(x: Pipe, n: nat): seq<Update>
    requires n < |x.toSub|
  {
    UpdatesOf(x.toSub[n + 1..]) + x.toPub
  }

  predicate AllLabelled(x: Pipe) {
    forall n | 0 <= n < |x.toSub| :: Labelled(x.toSub[n], Behind(x, n), x.asSent)
  }

  predicate Encodes(u: Update, version: Version) {
    BlockBytes(u.params, TopLevel(version), version).Success?
  }

  /** A verdict freed the right slot; a stream that was there was opened; and in draft-22 its labels hold
      and the subscriber gave up exactly if the stream was not there and what it had recorded says none is
      coming. */
  predicate Sound(v: Verdict, version: Version) {
    && v.freed == SlotOf(v.answered.update)
    && (v.attached ==> v.answered.opens)
    && (version.Draft22? ==>
          && Labelled(v.answered, v.later, v.asSent) && ValidFilter(v.asSent.filter)
          && (v.answered.answer.Answered? && v.freed.fill.Some? ==>
                (v.gaveUp <==> !v.attached && ConcludesNone(v.recorded.filter, v.recorded.paused,
                                                            v.answered.answer.largest, v.freed.fill.value))))
  }

  predicate Invariant(x: Pipe) {
    && InOrder(x)
    && (x.version.Draft22? ==> Mirrored(x) && AllLabelled(x) && Chain(x.sub.largest, x.toSub, x.pub.largest))
    && (forall u | u in x.toPub :: Encodes(u, x.version))
    && forall v | v in x.log :: Sound(v, x.version)
  }

  // ---- What an update says when it arrives.

  lemma {:induction false} FirstIsHead(list: ParameterList, typ: U64)
    ensures First(list, typ) == if OfType(list, typ) == [] then None else Some(OfType(list, typ)[0])
  {
    if list != [] {
      FirstIsHead(list[1..], typ);
    }
  }

  function CanonIn(p: Parameter, reg: Registry, version: Version): Parameter {
    var def := Lookup(reg, p.typ);
    if def.None? then p else Canon(p, def.value.encoding, version)
  }

  lemma {:induction false} FirstOfCanon(list: ParameterList, reg: Registry, version: Version, typ: U64)
    ensures First(CanonList(list, reg, version), typ) ==
            if First(list, typ).None? then None else Some(CanonIn(First(list, typ).value, reg, version))
    decreases |list|
  {
    hide Canon, Lookup;
    if list != [] {
      FirstOfCanon(list[1..], reg, version, typ);
      var c := CanonList(list, reg, version);
      assert c[0].typ == list[0].typ && c[1..] == CanonList(list[1..], reg, version);
    }
  }

  /** The first parameter of a Type stays the first of its Type. */
  lemma FirstArrived(list: ParameterList, reg: Registry, version: Version, typ: U64)
    ensures First(CanonList(SortedParameters(list), reg, version), typ) ==
            if First(list, typ).None? then None else Some(CanonIn(First(list, typ).value, reg, version))
  {
    hide CanonIn, CanonList, First;
    FirstOfCanon(SortedParameters(list), reg, version, typ);
    FirstIsHead(list, typ);
    FirstIsHead(SortedParameters(list), typ);
    SortIsStable(list, ParameterType);
  }

  lemma {:induction false} FirstIsMember(list: ParameterList, typ: U64)
    ensures First(list, typ).Some? ==> First(list, typ).value in list && First(list, typ).value.typ == typ
  {
    if list != [] {
      FirstIsMember(list[1..], typ);
    }
  }

  /** A filter in a block that can be written is valid, and arrives as received. */
  lemma FilterArrives(list: ParameterList, reg: Registry)
    requires BlockBytes(list, reg, Draft22).Success? && (reg == TopLevel(Draft22) || reg == Fill)
    ensures FilterOf(CanonList(SortedParameters(list), reg, Draft22)) == OnWire(FilterOf(list))
    ensures ValidFilter(FilterOf(list))
  {
    hide BlockBytes, CanonList, SortedParameters, FilterBytes, First;
    FirstArrived(list, reg, Draft22, LOCATION_FILTER);
    FirstIsMember(list, LOCATION_FILTER);
    WritesExactly(list, reg, Draft22);
    if First(list, LOCATION_FILTER).Some? {
      var p := First(list, LOCATION_FILTER).value;
      assert Writable(p, reg, Draft22);
      assert Lookup(reg, LOCATION_FILTER) == Some(Def(Filter, false));
      ExpressibleIsWritable(p.filter, Draft22);
    }
  }

  lemma ForwardArrives(list: ParameterList)
    ensures var f := First(list, FORWARD);
            var g := First(ArrivedParams(list, Draft22), FORWARD);
            g.Some? == f.Some? && (f.Some? ==> g.value.number == f.value.number)
  {
    hide CanonList, SortedParameters, First;
    FirstArrived(list, TopLevel(Draft22), Draft22, FORWARD);
    FirstIsMember(list, FORWARD);
    assert Lookup(TopLevel(Draft22), FORWARD) == Some(Def(Uint8, false));
  }

  lemma FillArrives(list: ParameterList)
    requires BlockBytes(list, TopLevel(Draft22), Draft22).Success?
    ensures var f := FillOf(list);
            FillOf(ArrivedParams(list, Draft22)) == (if f.None? then None else Some(FillArrived(f.value, Draft22)))
            && (f.Some? ==> BlockBytes(f.value, Fill, Draft22).Success?)
  {
    hide BlockBytes, CanonList, SortedParameters, First;
    FirstArrived(list, TopLevel(Draft22), Draft22, FILL_PARAMETERS);
    FirstIsMember(list, FILL_PARAMETERS);
    WritesExactly(list, TopLevel(Draft22), Draft22);
    if First(list, FILL_PARAMETERS).Some? {
      assert Writable(First(list, FILL_PARAMETERS).value, TopLevel(Draft22), Draft22);
      assert Lookup(TopLevel(Draft22), FILL_PARAMETERS) == Some(Def(Nested, false));
    }
  }

  lemma NoneStaysNone(f: LocationFilter)
    ensures Received(f, Draft22).typ == f.typ
  {
  }

  lemma {:induction false} FoldedSnoc(s: Settings, updates: seq<Update>, u: Update, version: Version)
    ensures Folded(s, updates + [u], version) == Overlay(Folded(s, updates, version), ArrivedParams(u.params, version))
    decreases |updates|
  {
    hide ArrivedParams, Overlay;
    if updates == [] {
      assert [u][1..] == [];
    } else {
      assert (updates + [u])[1..] == updates[1..] + [u];
      FoldedSnoc(Overlay(s, ArrivedParams(updates[0].params, version)), updates[1..], u, version);
    }
  }

  /** What the publisher keeps of a valid update is the overlay, but for the priority. */
  lemma MergeIsOverlay(s: Settings, params: ParameterList)
    requires MergeUpdate(s, params).Success?
    ensures MergeUpdate(s, params).value == Overlay(s, params).(priority := MergeUpdate(s, params).value.priority)
  {
    hide HasRangeFilter;
  }

  lemma {:induction false} FoldedPriority(s: Settings, priority: U8, updates: seq<Update>, version: Version)
    ensures Folded(s.(priority := priority), updates, version) == Folded(s, updates, version).(priority := priority)
    decreases |updates|
  {
    hide ArrivedParams;
    if updates != [] {
      var params := ArrivedParams(updates[0].params, version);
      assert Overlay(s.(priority := priority), params) == Overlay(s, params).(priority := priority);
      FoldedPriority(Overlay(s, params), priority, updates[1..], version);
    }
  }

  lemma NoteGrows(known: Option<Location>, l: Location)
    ensures NotPast(known, NoteLargest(known, l))
  {
  }

  lemma {:induction false} ChainGrows(known: Option<Location>, answers: seq<InFlight>, last: Option<Location>, l: Location)
    requires Chain(known, answers, last)
    ensures Chain(known, answers, NoteLargest(last, l))
    decreases |answers|
  {
    hide NoteLargest;
    if answers == [] {
      NoteGrows(last, l);
    } else if answers[0].answer.Refused? {
      ChainGrows(known, answers[1..], last, l);
    } else {
      ChainGrows(answers[0].answer.largest, answers[1..], last, l);
    }
  }

  lemma {:induction false} ChainSnoc(known: Option<Location>, answers: seq<InFlight>, last: Option<Location>, a: InFlight)
    requires Chain(known, answers, last) && (a.answer.Answered? ==> a.answer.largest == last)
    ensures Chain(known, answers + [a], last)
    decreases |answers|
  {
    if answers == [] {
      assert [a][1..] == [];
    } else {
      assert (answers + [a])[1..] == answers[1..] + [a];
      ChainSnoc(if answers[0].answer.Refused? then known else answers[0].answer.largest, answers[1..], last, a);
    }
  }

  /** A report that is not behind what is known becomes what is known. */
  lemma ReportTaken(known: Option<Location>, reported: Option<Location>)
    requires NotPast(known, reported)
    ensures NoteReport(known, reported) == reported
  {
  }

  // ---- The steps.

  /** A frame that was built had its parameters encoded. */
  lemma CanWriteEncodes(u: Update, version: Version)
    requires CanWrite(u, version)
    ensures Encodes(u, version)
  {
    hide ParameterScopes.Judge, BlockBytes;
    var decl := ControlMessages.Declared(ControlMessages.RequestUpdate);
    var values := UpdateMessage(u).values;
    assert decl[0] == ControlMessages.NUMBER && decl[1..][0] == ControlMessages.PARAMETERS;
    assert values[1..][0] == Wiregen.Params(u.params);
    assert Wiregen.BodyBytes(decl, values, version).Success?;
    assert Wiregen.BodyBytes(decl[1..], values[1..], version).Success?;
    assert Wiregen.OptionalField(ControlMessages.PARAMETERS, Wiregen.Params(u.params), version).Success?;
  }

  /** What is recorded of an update that is sent is what the publisher will have when it applies it. */
  lemma OverlayMirrors(v: View, s: Settings, u: Update)
    requires Encodes(u, Draft22) && Mirrors(v, s)
    ensures Mirrors(Overlaid(v, u.params), Overlay(s, ArrivedParams(u.params, Draft22)))
  {
    hide CanonList, SortedParameters, BlockBytes, First, Received;
    ForwardArrives(u.params);
    FilterArrives(u.params, TopLevel(Draft22));
    if FilterOf(u.params).Some? {
      NoneStaysNone(FilterOf(u.params).value);
    }
  }

  lemma OverlaidIsValid(v: View, params: ParameterList)
    requires ValidFilter(v.filter) && ValidFilter(FilterOf(params))
    ensures ValidFilter(Overlaid(v, params).filter)
  {
    hide First, Valid;
  }

  /** A label outlives one more update behind it. */
  lemma LabelledSnoc(a: InFlight, later: seq<Update>, v: View, u: Update)
    requires Labelled(a, later, v) && Encodes(u, Draft22)
    ensures Labelled(a, later + [u], Overlaid(v, u.params))
  {
    hide Mirrors, Encodes, Overlay, Overlaid, ArrivedParams, OpensUnder, ValidFilter;
    if a.answer.Answered? {
      FoldedSnoc(a.at, later, u, Draft22);
      OverlayMirrors(v, Folded(a.at, later, Draft22), u);
    }
  }

  lemma SlotsOfSnoc(updates: seq<Update>, u: Update)
    ensures SlotsOf(updates + [u]) == SlotsOf(updates) + [SlotOf(u)]
  {
    hide SlotOf;
  }

  lemma SendStep(x: Pipe, params: ParameterList)
    requires Invariant(x) && Enabled(x, Sends(params))
    ensures Invariant(Next(x, Sends(params)))
  {
    hide CanWrite, Encodes, Sound, Folded, Mirrors, Chain, FillOf, Labelled, Recorded, Overlaid, ValidFilter;
    var u := Update(x.nextId, params);
    var y := Next(x, Sends(params));
    if CanWrite(u, x.version) {
      CanWriteEncodes(u, x.version);
      assert UpdatesOf(x.toSub) + x.toPub + [u] == UpdatesOf(y.toSub) + y.toPub;
      SlotsOfSnoc(UpdatesOf(x.toSub) + x.toPub, u);
      if x.version.Draft22? {
        SendKeepsLabels(x, u);
        SendMirrors(x, u);
      }
    } else {
      SameLabels(x, y);
    }
  }

  lemma SendMirrors(x: Pipe, u: Update)
    requires Mirrored(x) && Encodes(u, Draft22) && x.version.Draft22?
    ensures var v := Overlaid(x.asSent, u.params);
            ValidFilter(v.filter) && (!x.pub.closed ==> Mirrors(v, Folded(x.pub.settings, x.toPub + [u], Draft22)))
  {
    hide Mirrors, BlockBytes, Folded, Overlaid, Overlay, ArrivedParams, ValidFilter;
    FilterArrives(u.params, TopLevel(Draft22));
    OverlaidIsValid(x.asSent, u.params);
    if !x.pub.closed {
      FoldedSnoc(x.pub.settings, x.toPub, u, Draft22);
      OverlayMirrors(x.asSent, Folded(x.pub.settings, x.toPub, Draft22), u);
    }
  }

  lemma SendKeepsLabels(x: Pipe, u: Update)
    requires AllLabelled(x) && Encodes(u, Draft22)
    ensures AllLabelled(x.(toPub := x.toPub + [u], asSent := Overlaid(x.asSent, u.params)))
  {
    hide Labelled, Encodes, Overlaid;
    var y := x.(toPub := x.toPub + [u], asSent := Overlaid(x.asSent, u.params));
    forall n | 0 <= n < |y.toSub| ensures Labelled(y.toSub[n], Behind(y, n), y.asSent) {
      LabelledSnoc(x.toSub[n], Behind(x, n), x.asSent, u);
      assert Behind(x, n) + [u] == Behind(y, n);
    }
  }

  lemma SameLabels(x: Pipe, y: Pipe)
    requires y.toSub == x.toSub && y.toPub == x.toPub && y.asSent == x.asSent
    ensures AllLabelled(y) == AllLabelled(x)
  {
    hide Labelled;
    assert forall n | 0 <= n < |x.toSub| :: Behind(x, n) == Behind(y, n);
  }

  lemma ApplyStep(x: Pipe)
    requires Invariant(x) && Enabled(x, Applies)
    ensures Invariant(Next(x, Applies))
  {
    hide Encodes, Sound, Mirrors, MergeUpdate, ArrivedParams, Chain, Labelled, FillOf, Folded, ValidFilter, Opens;
    var u, y := x.toPub[0], Next(x, Applies);
    var a := y.toSub[|x.toSub|];
    assert Encodes(u, x.version);
    assert UpdatesOf(y.toSub) == UpdatesOf(x.toSub) + [u];
    assert UpdatesOf(x.toSub) + x.toPub == UpdatesOf(y.toSub) + y.toPub;
    if x.version.Draft22? {
      ChainSnoc(x.sub.largest, x.toSub, x.pub.largest, a);
      if a.answer.Answered? {
        AppliedMirrors(x, u);
      }
      ApplyLabels(x);
    }
  }

  /** After a valid update the publisher's settings, folded with what is left, are what they were going to be. */
  lemma AppliedMirrors(x: Pipe, u: Update)
    requires Mirrored(x) && Enabled(x, Applies) && x.version.Draft22? && u == x.toPub[0]
    requires MergeUpdate(x.pub.settings, ArrivedParams(u.params, Draft22)).Success?
    ensures Mirrors(x.asSent,
                    Folded(MergeUpdate(x.pub.settings, ArrivedParams(u.params, Draft22)).value, x.toPub[1..], Draft22))
  {
    hide MergeUpdate, ArrivedParams, OnWire;
    var arrived := ArrivedParams(u.params, Draft22);
    var s := MergeUpdate(x.pub.settings, arrived).value;
    MergeIsOverlay(x.pub.settings, arrived);
    FoldedPriority(Overlay(x.pub.settings, arrived), s.priority, x.toPub[1..], Draft22);
  }

  lemma ApplyLabels(x: Pipe)
    requires Invariant(x) && Enabled(x, Applies) && x.version.Draft22?
    ensures AllLabelled(Next(x, Applies))
  {
    hide Labelled, MergeUpdate, ArrivedParams, FillOf, Opens, Mirrors, Encodes, Sound, Chain, InOrder;
    var u, y := x.toPub[0], Next(x, Applies);
    forall n | 0 <= n < |y.toSub| ensures Labelled(y.toSub[n], Behind(y, n), y.asSent) {
      if n < |x.toSub| {
        assert UpdatesOf(x.toSub[n + 1..]) + x.toPub == UpdatesOf(y.toSub[n + 1..]) + y.toPub;
        assert Labelled(x.toSub[n], Behind(x, n), x.asSent);
      } else {
        assert Behind(y, n) == y.toPub;
        NewLabel(x);
      }
    }
  }

  /** The answer just given carries the settings it was given in. */
  lemma NewLabel(x: Pipe)
    requires Invariant(x) && Enabled(x, Applies) && x.version.Draft22?
    ensures var y := Next(x, Applies); Labelled(y.toSub[|x.toSub|], y.toPub, y.asSent)
  {
    hide MergeUpdate, ArrivedParams, Mirrors, BlockBytes, Sound, Chain, AllLabelled, InOrder, FillArrived, Folded, Opens;
    hide ValidFilter;
    var u, a := x.toPub[0], Next(x, Applies).toSub[|x.toSub|];
    assert Encodes(u, Draft22);
    if a.answer.Answered? {
      AppliedMirrors(x, u);
      FillArrives(u.params);
      if FillOf(u.params).Some? {
        FilterArrives(FillOf(u.params).value, Fill);
      }
    }
  }

  lemma HearStep(x: Pipe, attached: bool)
    requires Invariant(x) && Enabled(x, Hears(attached))
    ensures Invariant(Next(x, Hears(attached)))
  {
    hide Encodes, Sound, GivesUp, Folded, NoteReport, Mirrors, ValidFilter, InOrder, AllLabelled, UpdatesOf;
    var y := Next(x, Hears(attached));
    HearInOrder(x, attached);
    if x.version.Draft22? {
      HearKeepsLabels(x, attached);
      if x.toSub[0].answer.Answered? {
        ReportTaken(x.sub.largest, x.toSub[0].answer.largest);
      }
    }
    VerdictIsSound(x, attached);
    forall w | w in y.log ensures Sound(w, y.version) {
      assert w in x.log || w == y.log[|x.log|];
    }
  }

  lemma HearInOrder(x: Pipe, attached: bool)
    requires InOrder(x) && Enabled(x, Hears(attached))
    ensures InOrder(Next(x, Hears(attached)))
  {
    hide GivesUp, NoteReport, SlotOf;
    var y := Next(x, Hears(attached));
    assert UpdatesOf(x.toSub) + x.toPub == [x.toSub[0].update] + (UpdatesOf(y.toSub) + y.toPub);
    assert SlotsOf(UpdatesOf(x.toSub) + x.toPub)[1..] == SlotsOf(UpdatesOf(y.toSub) + y.toPub);
  }

  lemma HearKeepsLabels(x: Pipe, attached: bool)
    requires AllLabelled(x) && Enabled(x, Hears(attached))
    ensures AllLabelled(Next(x, Hears(attached)))
  {
    hide GivesUp, Labelled, NoteReport, UpdatesOf;
    var y := Next(x, Hears(attached));
    forall n | 0 <= n < |y.toSub| ensures Labelled(y.toSub[n], Behind(y, n), y.asSent) {
      assert y.toSub[n + 1..] == x.toSub[n + 2..];
      assert Labelled(x.toSub[n + 1], Behind(x, n + 1), x.asSent);
    }
  }

  lemma VerdictIsSound(x: Pipe, attached: bool)
    requires Invariant(x) && Enabled(x, Hears(attached))
    ensures Sound(Next(x, Hears(attached)).log[|x.log|], x.version)
  {
    hide Encodes, Labelled, Mirrors, ConcludesNone, ValidFilter, NoteReport, Folded;
    var a := x.toSub[0];
    assert (UpdatesOf(x.toSub) + x.toPub)[0] == a.update;
    if x.version.Draft22? {
      assert Labelled(a, Behind(x, 0), x.asSent);
      if a.answer.Answered? {
        ReportTaken(x.sub.largest, a.answer.largest);
      }
    }
  }

  lemma PublishStep(x: Pipe, l: Location)
    requires Invariant(x)
    ensures Invariant(Next(x, Publishes(l)))
  {
    hide Encodes, Sound, NoteLargest, Folded, Labelled, Mirrors, ValidFilter;
    var y := Next(x, Publishes(l));
    SameLabels(x, y);
    if x.version.Draft22? {
      ChainGrows(x.sub.largest, x.toSub, x.pub.largest, l);
    }
  }

  lemma StepKeeps(x: Pipe, e: Event)
    requires Invariant(x) && Enabled(x, e)
    ensures Invariant(Next(x, e)) && Next(x, e).version == x.version && Next(x, e).limit == x.limit
  {
    hide Invariant, Enabled, CanWrite;
    match e {
      case Sends(params) => SendStep(x, params);
      case Applies => ApplyStep(x);
      case Hears(attached) => HearStep(x, attached);
      case Publishes(l) => PublishStep(x, l);
    }
  }

  lemma {:induction false} RunKeeps(x: Pipe, events: seq<Event>)
    requires Invariant(x) && IsRun(x, events)
    ensures Invariant(Run(x, events)) && Run(x, events).version == x.version && Run(x, events).limit == x.limit
    decreases |events|
  {
    hide Invariant, Enabled, Next;
    if events != [] {
      StepKeeps(x, events[0]);
      RunKeeps(Next(x, events[0]), events[1..]);
    }
  }

  lemma StartIsFine(c: Setting)
    requires ValidFilter(c.filter)
    ensures Invariant(Start(c))
  {
  }

  // ---- The results.

  /** The pipeline, in both drafts, over every run: the slots held are the updates whose answers are in
      flight and then the updates in flight, in order; they never exceed a limit the publisher set; and
      each answer frees the slot of its own update. */
  lemma PipelineInOrder(c: Setting, events: seq<Event>)
    requires ValidFilter(c.filter) && IsRun(Start(c), events)
    ensures var x := Run(Start(c), events);
            && x.sub.pending == SlotsOf(UpdatesOf(x.toSub) + x.toPub)
            && (c.limit != 0 ==> |x.sub.pending| <= c.limit)
            && forall v | v in x.log :: v.freed == SlotOf(v.answered.update)
  {
    hide IsRun, Run, Mirrored, AllLabelled, Chain;
    StartIsFine(c);
    RunKeeps(Start(c), events);
  }

  /** And an update can go out exactly when the publisher set no limit, or fewer than that are unanswered. */
  lemma GoesOutExactly(c: Setting, events: seq<Event>, params: ParameterList)
    requires ValidFilter(c.filter) && IsRun(Start(c), events)
    ensures var x := Run(Start(c), events);
            Enabled(x, Sends(params)) <==> c.limit == 0 || |x.toSub| + |x.toPub| < c.limit
  {
    hide IsRun, Run, Mirrored, AllLabelled, Chain;
    StartIsFine(c);
    RunKeeps(Start(c), events);
  }

  /** The same pause, and filters that are the same when received. */
  predicate Alike(a: View, b: View) {
    a.paused == b.paused && OnWire(a.filter) == OnWire(b.filter)
  }

  /** In draft-22, over every run, the updates that were sent account for the publisher's state folded with
      the updates in flight. So what the subscriber has recorded mirrors that state if and only if it is
      what the sent updates alone would have left. */
  lemma StateIsMirrored(c: Setting, events: seq<Event>)
    requires c.version.Draft22? && ValidFilter(c.filter) && IsRun(Start(c), events)
    ensures var x := Run(Start(c), events);
            !x.pub.closed ==>
              var s := Folded(x.pub.settings, x.toPub, Draft22);
              Mirrors(x.asSent, s) && (Mirrors(ViewOf(x.sub), s) <==> Alike(ViewOf(x.sub), x.asSent))
  {
    hide IsRun, Run, AllLabelled, Chain, Folded;
    StartIsFine(c);
    RunKeeps(Start(c), events);
  }

  /** Whether asking for this changes the pause or the filter recorded. */
  predicate Changes(v: View, params: ParameterList) {
    !Alike(Overlaid(v, params), v)
  }

  /** A refused update spoils a mirrored state if and only if it names a pause or a filter other than the
      one recorded. */
  lemma RefusedSendSpoils(x: Pipe, params: ParameterList)
    requires Invariant(x) && x.version.Draft22? && !x.pub.closed
    requires Enabled(x, Sends(params)) && !CanWrite(Update(x.nextId, params), x.version)
    requires Mirrors(ViewOf(x.sub), Folded(x.pub.settings, x.toPub, Draft22))
    ensures var y := Next(x, Sends(params));
            Mirrors(ViewOf(y.sub), Folded(y.pub.settings, y.toPub, Draft22)) <==> !Changes(ViewOf(x.sub), params)
  {
    hide CanWrite, Folded, AllLabelled, Chain, InOrder, Sound, Recorded;
  }

  predicate Harmless(x: Pipe, e: Event) {
    e.Sends? && !CanWrite(Update(x.nextId, e.params), x.version) ==> !Changes(ViewOf(x.sub), e.params)
  }

  /** No update is refused that would change what is recorded. */
  predicate HarmlessRun(x: Pipe, events: seq<Event>)
    requires IsRun(x, events)
    decreases |events|
  {
    events == [] || (Harmless(x, events[0]) && HarmlessRun(Next(x, events[0]), events[1..]))
  }

  /** What is recorded is what was sent, now and at every verdict. */
  predicate Agreed(x: Pipe) {
    Alike(ViewOf(x.sub), x.asSent) && forall v | v in x.log :: Alike(v.recorded, v.asSent)
  }

  /** Over such a run what is recorded stays what was sent, and so mirrors. */
  lemma {:induction false} HarmlessRunMirrors(x: Pipe, events: seq<Event>)
    requires IsRun(x, events) && HarmlessRun(x, events) && Agreed(x)
    ensures Agreed(Run(x, events))
    decreases |events|
  {
    hide Enabled, Harmless, Next, Agreed;
    if events != [] {
      HarmlessStep(x, events[0]);
      HarmlessRunMirrors(Next(x, events[0]), events[1..]);
    }
  }

  lemma HarmlessStep(x: Pipe, e: Event)
    requires Enabled(x, e) && Harmless(x, e) && Agreed(x)
    ensures Agreed(Next(x, e))
  {
    hide CanWrite, OnWire, GivesUp, Apply, First, FilterOf, FillOf;
    var y := Next(x, e);
    assert forall v | v in y.log :: v in x.log || (v.recorded == ViewOf(x.sub) && v.asSent == x.asSent);
  }

  // ---- Giving up on a fill.

  /** A verdict on a fill, in draft-22: the answer was a REQUEST_OK and its update asked for one. */
  predicate OnFill(v: Verdict) {
    v.answered.answer.Answered? && v.freed.fill.Some?
  }

  /** The publisher's settings when it answered, and those with the updates behind the answer overlaid. */
  function Then(v: Verdict): Settings {
    v.answered.at
  }

  function Since(v: Verdict): Settings {
    Folded(v.answered.at, v.later, Draft22)
  }

  predicate OpensIn(v: Verdict, s: Settings)
    requires OnFill(v)
  {
    OpensUnder(s, v.answered, v.freed.fill.value)
  }

  /** The subscriber and the publisher resolve the same fill range. */
  lemma SameFill(v: View, s: Settings, largest: Option<Location>, inner: ParameterList)
    requires Mirrors(v, s) && ValidFilter(v.filter) && ValidFilter(FilterOf(inner))
    ensures ConcludesNone(v.filter, v.paused, largest, inner) <==> !Opens(s, largest, FillArrived(inner, Draft22))
  {
    hide FilterOf, FillArrived, Received, FetchRange, Valid;
    FilterOfFillArrived(inner);
    var mine := FillFilter(v.filter, inner);
    var theirs := FillFilter(s.filter, FillArrived(inner, Draft22));
    if FilterOf(inner).None? && v.filter.None? {
      assert mine == theirs == ZERO_FILTER;
    } else {
      assert theirs == Received(mine, Draft22);
      ExpressibleIfValid(mine);
      ReceivedMeansSame(mine, Draft22, largest);
    }
  }

  lemma ExpressibleIfValid(f: LocationFilter)
    requires Valid(f)
    ensures Expressible(f, Draft22)
  {
  }

  lemma FilterOfFillArrived(inner: ParameterList)
    ensures FilterOf(FillArrived(inner, Draft22)) == OnWire(FilterOf(inner))
  {
    hide CanonList, SortedParameters, First, Received;
    FirstArrived(inner, Fill, Draft22, LOCATION_FILTER);
    FirstIsMember(inner, LOCATION_FILTER);
    assert Lookup(Fill, LOCATION_FILTER) == Some(Def(Filter, false));
  }

  /** A filter that is received like a valid one is valid. */
  lemma AlikeIsValid(a: View, b: View)
    requires Alike(a, b) && ValidFilter(b.filter)
    ensures ValidFilter(a.filter)
  {
  }

  lemma AlikeMirrors(a: View, b: View, s: Settings)
    requires Alike(a, b)
    ensures Mirrors(a, s) <==> Mirrors(b, s)
  {
    hide OnWire;
  }

  /** When the subscriber gives up, over every run and with any number of updates unanswered: exactly if
      the stream is not there and the fill opens none under the publisher's settings when it answered,
      overlaid by the updates then still unanswered. And a stream was opened exactly if the fill opens
      one under the settings when it answered. */
  lemma GivesUpExactly(c: Setting, events: seq<Event>, v: Verdict)
    requires c.version.Draft22? && ValidFilter(c.filter) && IsRun(Start(c), events)
    requires v in Run(Start(c), events).log && OnFill(v) && Alike(v.recorded, v.asSent)
    ensures v.gaveUp <==> !v.attached && !OpensIn(v, Since(v))
    ensures v.answered.opens <==> OpensIn(v, Then(v))
    ensures v.attached ==> v.answered.opens
  {
    hide IsRun, Run, Mirrored, AllLabelled, Chain, InOrder, Mirrors, ConcludesNone, Opens, Folded, ValidFilter, Alike;
    StartIsFine(c);
    RunKeeps(Start(c), events);
    assert Sound(v, Draft22);
    AlikeIsValid(v.recorded, v.asSent);
    AlikeMirrors(v.recorded, v.asSent, Since(v));
    SameFill(v.recorded, Since(v), v.answered.answer.largest, v.freed.fill.value);
  }

  /** Refused updates or not: the two conclusions side by side, of what the subscriber had recorded and of
      what the publisher had when it answered. The lemmas after this one say when they coincide. */
  lemma ExpectationInEveryRun(c: Setting, events: seq<Event>, v: Verdict)
    requires c.version.Draft22? && ValidFilter(c.filter) && IsRun(Start(c), events)
    requires v in Run(Start(c), events).log && OnFill(v)
    ensures (v.gaveUp <==> !v.answered.opens) <==>
            || v.attached
            || (ConcludesNone(v.recorded.filter, v.recorded.paused, v.answered.answer.largest, v.freed.fill.value)
                <==> !OpensIn(v, Then(v)))
  {
    hide IsRun, Run, Mirrored, AllLabelled, Chain, InOrder, Mirrors, ConcludesNone, Opens, Folded, ValidFilter;
    StartIsFine(c);
    RunKeeps(Start(c), events);
    assert Sound(v, Draft22);
  }

  /** The range a fill of this verdict has under some settings. */
  function RangeIn(v: Verdict, s: Settings): Option<LocationRange>
    requires OnFill(v)
  {
    FetchRange(FillFilter(s.filter, FillArrived(v.freed.fill.value, Draft22)), v.answered.answer.largest)
  }

  /** With no refused update in the way, the expectation is right if and only if the stream was there
      already, or the updates behind the answer made no difference: they left
      forwarding as it was and, when forwarding, left the range as empty or not as it was; or they
      changed forwarding, and the range at the end that forwards is empty. */
  lemma ExpectationIsRightExactly(c: Setting, events: seq<Event>, v: Verdict)
    requires c.version.Draft22? && ValidFilter(c.filter) && IsRun(Start(c), events)
    requires v in Run(Start(c), events).log && OnFill(v) && Alike(v.recorded, v.asSent)
    ensures (v.gaveUp <==> !v.answered.opens) <==>
            || v.attached
            || (if Then(v).forward == Since(v).forward
                then Then(v).forward ==> (RangeIn(v, Then(v)).Some? <==> RangeIn(v, Since(v)).Some?)
                else RangeIn(v, if Then(v).forward then Then(v) else Since(v)).None?)
  {
    hide IsRun, Run, Mirrored, AllLabelled, Chain, InOrder, Folded, ValidFilter, Alike, FetchRange, FillArrived;
    GivesUpExactly(c, events, v);
  }

  /** For a fill with a range of its own that is not empty the filter does not matter: the expectation is
      right if and only if the stream was there already or no update behind the answer changed forwarding. */
  lemma OwnRangeIsRightExactly(c: Setting, events: seq<Event>, v: Verdict)
    requires c.version.Draft22? && ValidFilter(c.filter) && IsRun(Start(c), events)
    requires v in Run(Start(c), events).log && OnFill(v) && Alike(v.recorded, v.asSent)
    requires FilterOf(v.freed.fill.value).Some? && RangeIn(v, Then(v)).Some?
    ensures (v.gaveUp <==> !v.answered.opens) <==> v.attached || Then(v).forward == Since(v).forward
  {
    hide IsRun, Run, Folded, ValidFilter, Alike, FetchRange, FillArrived;
    ExpectationIsRightExactly(c, events, v);
    FilterOfFillArrived(v.freed.fill.value);
  }

  /** Whether any of the updates names a Type. */
  predicate Names(updates: seq<Update>, typ: U64) {
    exists u :: u in updates && First(u.params, typ).Some?
  }

  /** Updates that do not name a field leave it alone. */
  lemma {:induction false} UnnamedUnchanged(s: Settings, updates: seq<Update>)
    ensures !Names(updates, FORWARD) ==> Folded(s, updates, Draft22).forward == s.forward
    ensures !Names(updates, LOCATION_FILTER) ==> Folded(s, updates, Draft22).filter == s.filter
    decreases |updates|
  {
    hide First, CanonList, SortedParameters;
    if updates != [] {
      var u := updates[0];
      FirstArrived(u.params, TopLevel(Draft22), Draft22, FORWARD);
      FirstArrived(u.params, TopLevel(Draft22), Draft22, LOCATION_FILTER);
      UnnamedUnchanged(Overlay(s, ArrivedParams(u.params, Draft22)), updates[1..]);
      assert u in updates && forall w :: w in updates[1..] ==> w in updates;
    }
  }

  /** What a caller can check before it asks: as long as no update unanswered behind the fill's names
      forwarding, nor the filter unless the fill has a range of its own, the expectation is right. With
      nothing unanswered behind it, always. */
  lemma FillExpectationIsRight(c: Setting, events: seq<Event>, v: Verdict)
    requires c.version.Draft22? && ValidFilter(c.filter) && IsRun(Start(c), events)
    requires v in Run(Start(c), events).log && OnFill(v) && Alike(v.recorded, v.asSent)
    requires !Names(v.later, FORWARD) && (FilterOf(v.freed.fill.value).Some? || !Names(v.later, LOCATION_FILTER))
    ensures v.gaveUp <==> !v.answered.opens
  {
    hide IsRun, Run, Folded, ValidFilter, Alike, FetchRange, FillArrived, Names;
    ExpectationIsRightExactly(c, events, v);
    UnnamedUnchanged(v.answered.at, v.later);
    FilterOfFillArrived(v.freed.fill.value);
  }
}
