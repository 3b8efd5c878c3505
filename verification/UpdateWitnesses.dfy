/** Two runs of an established draft-22 subscription in which the subscriber gives up on a
    fill whose stream was opened: a later update that pauses, and an update that was
    refused before it was written. */
module UpdateWitnesses {
  import opened Wire
  import opened Vi64
  import opened StableSorting
  import opened LocationFilters
  import opened FilterCodec
  import opened Parameters
  import opened ParameterRoundTrips
  import opened EarlyUpdates
  import opened Fills
  import opened Updates
  import opened UpdatePipeline
  import Fetches
  import Wiregen
  import ControlMessages
  import ParameterPlaces
  import ParameterScopes

  /** Forwarding, no filter, and Objects up to Group 10. */
  const ESTABLISHED := Setting(Draft22, 0, 0, 128, false, None, Some(Location(10, 0)))

  const FILL_ALL: Parameter := Blank(FILL_PARAMETERS)
  const PAUSE: Parameter := Blank(FORWARD)
  const BACKWARDS: Parameter :=
    Blank(LOCATION_FILTER).(filter := Fetches.AbsoluteRange(Location(5, 0), Location(3, 0)))

  /** What an update with one parameter says. */
  lemma OneParameter(p: Parameter)
    ensures SortedParameters([p]) == [p]
    ensures forall typ: U64 :: First([p], typ) == if p.typ == typ then Some(p) else None
    ensures HasRangeFilter([p]) <==>
            RangeFilterType(p.typ) || (p.typ == FILL_PARAMETERS && HasRangeFilter(p.params))
  {
    assert [p][1..] == [];
    assert Sort<Parameter>([], ParameterType) == [];
  }

  lemma CanonOfOne(p: Parameter, reg: Registry)
    requires Lookup(reg, p.typ).Some?
    ensures CanonList([p], reg, Draft22) == [Canon(p, Lookup(reg, p.typ).value.encoding, Draft22)]
  {
    assert [p][1..] == [];
    assert CanonList([], reg, Draft22) == [];
  }

  lemma NothingSorted()
    ensures SortedParameters([]) == [] && CanonList([], Fill, Draft22) == []
  {
  }

  /** A block of one parameter is a count, a Type and a value. */
  lemma BlockOfOne(p: Parameter)
    requires Writable(p, TopLevel(Draft22), Draft22)
    ensures var b := BlockBytes([p], TopLevel(Draft22), Draft22);
            b.Success? && |b.value| <= 18 + |ValueBytes(p, Lookup(TopLevel(Draft22), p.typ).value.encoding, Draft22).value|
  {
    hide ValueBytes, Lookup, Append;
    OneParameter(p);
    assert [p][1..] == [];
    assert ListBytes([], p.typ, TopLevel(Draft22), Draft22) == Success([]);
    assert OneBytes(p, 0, TopLevel(Draft22), Draft22).Success?;
  }

  /** A REQUEST_UPDATE with one short parameter, in scope, can be written. */
  lemma OneParameterIsSent(id: U64, p: Parameter)
    requires Writable(p, TopLevel(Draft22), Draft22)
    requires |ValueBytes(p, Lookup(TopLevel(Draft22), p.typ).value.encoding, Draft22).value| <= 1000
    requires ParameterPlaces.MayCarry(Draft22, ParameterPlaces.UpdateOn(ControlMessages.Subscribe), p.typ)
    ensures CanWrite(Update(id, [p]), Draft22)
  {
    hide ValueBytes, Lookup, Append, BlockBytes, ParameterScopes.Judge, ParameterPlaces.MayCarry, Writable;
    BlockOfOne(p);
    ParameterPlaces.JudgedByPlace(Draft22, ControlMessages.Subscribe, true, true,
                                  ParameterScopes.Msg(ControlMessages.RequestUpdate, [p]), true);
    var decl := ControlMessages.Declared(ControlMessages.RequestUpdate);
    var values := UpdateMessage(Update(id, [p])).values;
    assert decl[0] == ControlMessages.NUMBER && decl[1..] == [ControlMessages.PARAMETERS];
    assert values[0] == Wiregen.Integer(id) && values[1..] == [Wiregen.Params([p])];
    assert decl[1..][1..] == [] && values[1..][1..] == [];
    assert Wiregen.BodyBytes([], [], Draft22) == Success([]);
    assert Wiregen.BodyBytes(decl[1..], values[1..], Draft22).Success?;
    assert Wiregen.BodyBytes(decl, values, Draft22).Success?;
    assert |Wiregen.BodyBytes(decl, values, Draft22).value| <= 9 + 18 + 1000;
  }

  lemma SentAndRefused(id: U64)
    ensures CanWrite(Update(id, [FILL_ALL]), Draft22) && CanWrite(Update(id, [PAUSE]), Draft22)
    ensures !CanWrite(Update(id, [BACKWARDS]), Draft22)
  {
    hide CanWrite, FilterBytes;
    NothingSorted();
    assert ListBytes([], 0, Fill, Draft22) == Success([]);
    OneParameterIsSent(id, FILL_ALL);
    OneParameterIsSent(id, PAUSE);
    if CanWrite(Update(id, [BACKWARDS]), Draft22) {
      CanWriteEncodes(Update(id, [BACKWARDS]), Draft22);
      OneParameter(BACKWARDS);
      FilterArrives([BACKWARDS], TopLevel(Draft22));
      Fetches.ValidateCatchesWrap(Location(5, 0), Location(3, 0));
      assert false;
    }
  }

  /** The fill opens a stream at the publisher. */
  lemma FillOpens(pub: Publisher)
    requires pub.settings.forward && pub.settings.filter.None? && pub.largest == Some(Location(10, 0))
    ensures ArrivedParams([FILL_ALL], Draft22) == [FILL_ALL]
    ensures var r := Apply(pub, Draft22, [FILL_ALL]);
            r.pub == pub && r.answer == Answered(pub.largest) && r.opens
  {
    OneParameter(FILL_ALL);
    CanonOfOne(FILL_ALL, TopLevel(Draft22));
    NothingSorted();
    assert FilterOf([]) == None;
  }

  /** A run of four steps, one by one. */
  lemma FourSteps(x0: Pipe, e: seq<Event>, x1: Pipe, x2: Pipe, x3: Pipe, x4: Pipe)
    requires |e| == 4
    requires Enabled(x0, e[0]) && x1 == Next(x0, e[0])
    requires Enabled(x1, e[1]) && x2 == Next(x1, e[1])
    requires Enabled(x2, e[2]) && x3 == Next(x2, e[2])
    requires Enabled(x3, e[3]) && x4 == Next(x3, e[3])
    ensures IsRun(x0, e) && Run(x0, e) == x4
  {
    hide Enabled, Next;
    var t1, t2, t3 := e[1..], e[1..][1..], e[1..][1..][1..];
    assert t1[0] == e[1] && t2[0] == e[2] && t3[0] == e[3] && t3[1..] == [];
    assert IsRun(x4, t3[1..]) && Run(x4, t3[1..]) == x4;
    assert IsRun(x3, t3) && Run(x3, t3) == x4;
    assert IsRun(x2, t2) && Run(x2, t2) == x4;
    assert IsRun(x1, t1) && Run(x1, t1) == x4;
  }

  /** Asking for the fill takes a slot and changes nothing else. */
  lemma FillSent(x: Pipe)
    requires x.version.Draft22? && x.limit == 0
    ensures Enabled(x, Sends([FILL_ALL]))
    ensures Next(x, Sends([FILL_ALL])) ==
            x.(nextId := WrapAdd(x.nextId, 2), toPub := x.toPub + [Update(x.nextId, [FILL_ALL])],
               sub := x.sub.(pending := x.sub.pending + [Slot(x.nextId, Some([]))]))
  {
    hide CanWrite;
    SentAndRefused(x.nextId);
    OneParameter(FILL_ALL);
  }

  lemma PauseSent(x: Pipe)
    requires x.version.Draft22? && x.limit == 0
    ensures Enabled(x, Sends([PAUSE]))
    ensures Next(x, Sends([PAUSE])) ==
            x.(nextId := WrapAdd(x.nextId, 2), toPub := x.toPub + [Update(x.nextId, [PAUSE])],
               sub := x.sub.(pending := x.sub.pending + [Slot(x.nextId, None)], paused := true),
               asSent := x.asSent.(paused := true))
  {
    hide CanWrite;
    SentAndRefused(x.nextId);
    OneParameter(PAUSE);
  }

  lemma BackwardsRefused(x: Pipe)
    requires x.version.Draft22? && x.limit == 0
    ensures Enabled(x, Sends([BACKWARDS]))
    ensures Next(x, Sends([BACKWARDS])) ==
            x.(nextId := WrapAdd(x.nextId, 2), sub := x.sub.(filter := Some(BACKWARDS.filter)))
  {
    hide CanWrite;
    SentAndRefused(x.nextId);
    OneParameter(BACKWARDS);
  }

  /** The fill's update is applied, alone on its way, and a stream opened. */
  lemma FillApplied(x: Pipe)
    requires x.version.Draft22? && x.toPub != [] && x.toPub[0].params == [FILL_ALL] && x.toSub == [] && !x.pub.closed
    requires x.pub.settings.forward && x.pub.settings.filter.None? && x.pub.largest == Some(Location(10, 0))
    ensures Enabled(x, Applies)
    ensures Next(x, Applies) ==
            x.(toPub := x.toPub[1..], toSub := [InFlight(Answered(x.pub.largest), x.toPub[0], x.pub.settings, true)])
  {
    hide Apply, ArrivedParams;
    FillOpens(x.pub);
  }

  /** The answer is heard before the stream comes. */
  lemma FillHeard(x: Pipe)
    requires |x.toSub| == 1 && x.toSub[0].answer == Answered(Some(Location(10, 0))) && x.log == []
    requires x.sub.pending != [] && x.sub.pending[0].fill == Some([]) && x.sub.largest == Some(Location(10, 0))
    ensures Enabled(x, Hears(false))
    ensures var y := Next(x, Hears(false));
            && y.pub == x.pub && y.toPub == x.toPub && ViewOf(y.sub) == ViewOf(x.sub)
            && y.log == [Verdict(x.sub.pending[0], x.toSub[0], x.toPub, ViewOf(x.sub), x.asSent, false,
                                 ConcludesNone(x.sub.filter, x.sub.paused, Some(Location(10, 0)), []))]
  {
    hide CanWrite, Apply, ConcludesNone;
    assert UpdatesOf(x.toSub[1..]) + x.toPub == x.toPub;
  }

  /** The fill's update is applied and its stream opened; before the answer is heard the subscriber pauses;
      the answer then makes it give up. Nothing was refused. */
  lemma PauseHidesFill()
    ensures var e := [Sends([FILL_ALL]), Applies, Sends([PAUSE]), Hears(false)];
            && IsRun(Start(ESTABLISHED), e)
            && var x := Run(Start(ESTABLISHED), e);
               x.log != [] && OnFill(x.log[0]) && x.log[0].answered.opens && x.log[0].gaveUp
               && Alike(x.log[0].recorded, x.log[0].asSent)
  {
    var e := [Sends([FILL_ALL]), Applies, Sends([PAUSE]), Hears(false)];
    var x0 := Start(ESTABLISHED);
    FillSent(x0);
    var x1 := Next(x0, e[0]);
    FillApplied(x1);
    var x2 := Next(x1, e[1]);
    PauseSent(x2);
    var x3 := Next(x2, e[2]);
    FillHeard(x3);
    var x4 := Next(x3, e[3]);
    hide Enabled, Next, First, FetchRange, FillFilter;
    FourSteps(x0, e, x1, x2, x3, x4);
  }

  /** What was recorded of the refused update resolves to nothing, and is not what the publisher has. */
  lemma BackwardsMisleads(v: View, s: Settings)
    requires v == View(false, Some(BACKWARDS.filter)) && s.filter.None?
    ensures ConcludesNone(v.filter, v.paused, Some(Location(10, 0)), []) && !Mirrors(v, s)
  {
    assert FilterOf([]) == None;
  }

  /** An update with a range that ends before it starts is refused before it is written, and recorded; the
      only update in flight then asks for a fill, whose stream is opened and given up on. What is recorded
      and the publisher's state no longer mirror each other. */
  lemma RefusedUpdateHidesFill()
    ensures var e := [Sends([BACKWARDS]), Sends([FILL_ALL]), Applies, Hears(false)];
            && IsRun(Start(ESTABLISHED), e)
            && var x := Run(Start(ESTABLISHED), e);
               && x.log != [] && OnFill(x.log[0]) && x.log[0].answered.opens && x.log[0].gaveUp && x.log[0].later == []
               && !x.pub.closed && !Mirrors(ViewOf(x.sub), Folded(x.pub.settings, x.toPub, Draft22))
  {
    var e := [Sends([BACKWARDS]), Sends([FILL_ALL]), Applies, Hears(false)];
    var x0 := Start(ESTABLISHED);
    BackwardsRefused(x0);
    var x1 := Next(x0, e[0]);
    FillSent(x1);
    var x2 := Next(x1, e[1]);
    FillApplied(x2);
    var x3 := Next(x2, e[2]);
    FillHeard(x3);
    var x4 := Next(x3, e[3]);
    BackwardsMisleads(ViewOf(x4.sub), x4.pub.settings);
    hide Enabled, Next, Fetches.AbsoluteRange, ConcludesNone, Mirrors;
    FourSteps(x0, e, x1, x2, x3, x4);
  }
}
