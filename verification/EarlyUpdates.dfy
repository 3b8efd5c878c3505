/** A subscription's changeable state -- priority, forwarding, location filter -- as the
    publisher keeps it: read from the SUBSCRIBE when it is accepted, overlaid by every
    REQUEST_UPDATE. An update can also come before the SUBSCRIBE is answered. */
module EarlyUpdates {
  import opened Wire
  import opened LocationFilters
  import opened Parameters
  import opened KeyValuePairs

  const DEFAULT_SUBSCRIBER_PRIORITY := 128

  datatype Settings = Settings(priority: U8, forward: bool, filter: Option<LocationFilter>)

  // ---- Reading a parameter block.

  /** An explicit None filter is no filter. */
  function ActiveFilter(f: Option<LocationFilter>): Option<LocationFilter> {
    if f.None? || f.value.typ == NONE then None else f
  }

  function FilterOf(list: ParameterList): Option<LocationFilter> {
    var p := First(list, LOCATION_FILTER);
    if p.None? then None else Some(p.value.filter)
  }

  function FillOf(list: ParameterList): Option<ParameterList> {
    var p := First(list, FILL_PARAMETERS);
    if p.None? then None else Some(p.value.params)
  }

  /** A priority read from a parameter keeps its low byte. */
  function PriorityOf(list: ParameterList, otherwise: U8): U8 {
    var p := First(list, SUBSCRIBER_PRIORITY);
    if p.None? then otherwise else p.value.number % 256
  }

  function ForwardOf(list: ParameterList, otherwise: bool): Result<bool> {
    var p := First(list, FORWARD);
    if p.None? then Success(otherwise)
    else if p.value.number > 1 then Failure(InvalidBool)
    else Success(p.value.number == 1)
  }

  /** An order is a byte. */
  function OrderFrom(number: U64): Result<GroupOrder> {
    if number % 256 == 1 then Success(Ascending)
    else if number % 256 == 2 then Success(Descending)
    else Failure(InvalidGroupOrder)
  }

  function GroupOrderOf(list: ParameterList): Result<Option<GroupOrder>> {
    var p := First(list, GROUP_ORDER);
    if p.None? then Success(None)
    else
      match OrderFrom(p.value.number)
      case Failure(e) => Failure(e)
      case Success(order) => Success(Some(order))
  }

  /** Track Properties are wanted unless it is said that they are not. */
  function IncludesProperties(list: ParameterList): Result<bool> {
    var p := First(list, INCLUDE_PROPERTIES);
    if p.None? then Success(true)
    else if p.value.number > 1 then Failure(InvalidBool)
    else Success(p.value.number == 1)
  }

  const DEFAULT_PUBLISHER_GROUP_ORDER: U64 := 0x22

  /** The publisher's own preference, from the Track Properties it answers with. */
  function PreferredOrder(properties: KVPList): Result<GroupOrder> {
    if properties == [] then Success(Ascending)
    else if properties[0].typ == DEFAULT_PUBLISHER_GROUP_ORDER then OrderFrom(properties[0].number)
    else PreferredOrder(properties[1..])
  }

  predicate RangeFilterType(typ: U64) {
    SUBGROUP_FILTER <= typ <= TRACK_PROPERTY_FILTER
  }

  /** A range filter in the block, or in a FILL_PARAMETERS inside it. */
  predicate HasRangeFilter(list: ParameterList) {
    list != [] &&
    ((list[0].typ == FILL_PARAMETERS && HasRangeFilter(list[0].params))
     || RangeFilterType(list[0].typ) || HasRangeFilter(list[1..]))
  }

  /** An update the publisher does not refuse. */
  predicate ValidUpdate(list: ParameterList) {
    !HasRangeFilter(list) && ForwardOf(list, true).Success?
  }

  // ---- Accepting, updating, and folding an update in early.

  function AcceptSettings(params: ParameterList): Result<Settings> {
    match ForwardOf(params, true)
    case Failure(e) => Failure(e)
    case Success(forward) =>
      Success(Settings(PriorityOf(params, DEFAULT_SUBSCRIBER_PRIORITY), forward, ActiveFilter(FilterOf(params))))
  }

  /** What SUBSCRIBE_OK establishes: the settings, the Group Order a fill inherits, and the Track Properties
      that are sent. */
  datatype Established = Established(settings: Settings, order: GroupOrder, properties: KVPList)

  function Establish(params: ParameterList, properties: KVPList): Result<Established> {
    var settings :- AcceptSettings(params);
    var given :- GroupOrderOf(params);
    var wanted :- IncludesProperties(params);
    var order :- if given.Some? then Success(given.value) else PreferredOrder(properties);
    Success(Established(settings, order, if wanted then properties else []))
  }

  function MergeUpdate(s: Settings, update: ParameterList): Result<Settings> {
    if HasRangeFilter(update) then Failure(InvalidFilterType)
    else
      match ForwardOf(update, s.forward)
      case Failure(e) => Failure(e)
      case Success(forward) =>
        var f := FilterOf(update);
        Success(Settings(PriorityOf(update, s.priority), forward, if f.Some? then ActiveFilter(f) else s.filter))
  }

  // ---- What they come to, for any parameters.

  /** `p` is the first parameter of its Type. */
  predicate IsFirst(list: ParameterList, p: Parameter, n: nat) {
    n < |list| && list[n] == p && forall m | 0 <= m < n :: list[m].typ != p.typ
  }

  lemma {:induction false} FirstIsFirst(list: ParameterList, typ: U64)
    ensures First(list, typ).None? <==> forall p | p in list :: p.typ != typ
    ensures First(list, typ).Some? ==>
              First(list, typ).value.typ == typ && exists n: nat :: IsFirst(list, First(list, typ).value, n)
  {
    if list != [] {
      FirstIsFirst(list[1..], typ);
      assert list == [list[0]] + list[1..];
      if list[0].typ == typ {
        assert IsFirst(list, list[0], 0);
      } else if First(list[1..], typ).Some? {
        var p := First(list, typ).value;
        var n: nat :| IsFirst(list[1..], p, n);
        assert IsFirst(list, p, n + 1) by {
          forall m | 0 <= m < n + 1 ensures list[m].typ != p.typ {
            assert m > 0 ==> list[m] == list[1..][m - 1];
          }
        }
      }
    }
  }

  /** A range filter is one of five Types, there or in a fill there. */
  lemma {:induction false} RangeFilterIsThere(list: ParameterList)
    ensures HasRangeFilter(list) <==>
            exists p :: p in list && (0x25 <= p.typ <= 0x29 || (p.typ == 0x23 && HasRangeFilter(p.params)))
  {
    if list != [] {
      RangeFilterIsThere(list[1..]);
      assert list == [list[0]] + list[1..];
    }
  }

  /** The publisher's preference is the first Track Property that states one. */
  predicate Prefers(properties: KVPList, n: nat, number: U64) {
    && n < |properties| && properties[n].typ == 0x22 && properties[n].number == number
    && forall m | 0 <= m < n :: properties[m].typ != 0x22
  }

  lemma {:induction false} PreferenceIsFirst(properties: KVPList)
    ensures (forall p | p in properties :: p.typ != 0x22) ==> PreferredOrder(properties) == Success(Ascending)
    ensures forall n: nat, number: U64 | Prefers(properties, n, number) ::
              PreferredOrder(properties) ==
              match number % 256 case 1 => Success(Ascending) case 2 => Success(Descending) case _ => Failure(InvalidGroupOrder)
  {
    if properties != [] {
      var rest := properties[1..];
      PreferenceIsFirst(rest);
      assert properties == [properties[0]] + rest;
      forall n: nat, number: U64 | Prefers(properties, n, number)
        ensures n == 0 || (properties[0].typ != 0x22 && Prefers(rest, n - 1, number))
      {
        assert forall m | 0 <= m < n - 1 :: rest[m] == properties[m + 1];
      }
    }
  }

  predicate FlagIs(p: Option<Parameter>, on: bool) {
    if p.None? then on else p.value.number == if on then 1 else 0
  }

  predicate OrderIs(p: Option<Parameter>, preferred: Result<GroupOrder>, order: GroupOrder) {
    if p.None? then preferred == Success(order) else p.value.number % 256 == if order.Ascending? then 1 else 2
  }

  predicate FilterIs(p: Option<Parameter>, filter: Option<LocationFilter>) {
    if p.None? || p.value.filter.typ == 0 then filter.None? else filter == Some(p.value.filter)
  }

  /** What a SUBSCRIBE is accepted as, and whether: each field from the first parameter of its Type, a flag
      that is 0 or 1 and is on if it is not there, a priority that is 128 if it is not there, an order that is
      valid and otherwise the publisher's, and a filter that filters. */
  lemma EstablishedExactly(params: ParameterList, properties: KVPList, e: Established)
    ensures Establish(params, properties) == Success(e) <==>
            && FlagIs(First(params, 0x10), e.settings.forward)
            && e.settings.priority == (if First(params, 0x20).None? then 128 else First(params, 0x20).value.number % 256)
            && FilterIs(First(params, 0x21), e.settings.filter)
            && OrderIs(First(params, 0x22), PreferredOrder(properties), e.order)
            && ((FlagIs(First(params, 0x35), true) && e.properties == properties)
                || (FlagIs(First(params, 0x35), false) && e.properties == []))
  {
    hide PreferredOrder, First;
  }

  /** What an update makes of the settings, and whether it is refused. */
  lemma MergedExactly(s: Settings, update: ParameterList, merged: Settings)
    ensures MergeUpdate(s, update) == Success(merged) <==>
            && !HasRangeFilter(update)
            && (if First(update, 0x10).None? then merged.forward == s.forward
                else FlagIs(First(update, 0x10), merged.forward))
            && merged.priority == (if First(update, 0x20).None? then s.priority
                                   else First(update, 0x20).value.number % 256)
            && (if First(update, 0x21).None? then merged.filter == s.filter
                else FilterIs(First(update, 0x21), merged.filter))
  {
    hide HasRangeFilter, First;
  }

  /** A fill is the block of the first parameter of its Type. */
  lemma FillIsFirst(list: ParameterList)
    ensures FillOf(list) == if First(list, 0x23).None? then None else Some(First(list, 0x23).value.params)
  {
  }

  /** The parameters of `base` that the update does not replace. */
  function Kept(base: ParameterList, update: ParameterList): ParameterList {
    if base == [] then []
    else (if First(update, base[0].typ).None? then [base[0]] else []) + Kept(base[1..], update)
  }

  function WithoutFill(update: ParameterList): ParameterList {
    if update == [] then []
    else (if update[0].typ != FILL_PARAMETERS then [update[0]] else []) + WithoutFill(update[1..])
  }

  function MergeParameters(base: ParameterList, update: ParameterList): ParameterList {
    Kept(base, update) + WithoutFill(update)
  }

  method MergedParameters(base: ParameterList, update: ParameterList) returns (merged: ParameterList)
    ensures merged == MergeParameters(base, update)
  {
    merged := [];
    for n := 0 to |base|
      invariant merged + Kept(base[n..], update) == Kept(base, update)
    {
      hide First;
      assert base[n..][0] == base[n] && base[n..][1..] == base[n + 1..];
      var replaced := Get(update, base[n].typ);
      Regroup(merged, base[n], Kept(base[n + 1..], update));
      if replaced.None? {
        merged := merged + [base[n]];
      }
    }
    assert merged + [] == merged;
    merged := WithUpdate(merged, update);
  }

  method WithUpdate(kept: ParameterList, update: ParameterList) returns (merged: ParameterList)
    ensures merged == kept + WithoutFill(update)
  {
    merged := kept;
    for n := 0 to |update|
      invariant merged + WithoutFill(update[n..]) == kept + WithoutFill(update)
    {
      assert update[n..][0] == update[n] && update[n..][1..] == update[n + 1..];
      Regroup(merged, update[n], WithoutFill(update[n + 1..]));
      if update[n].typ != FILL_PARAMETERS {
        merged := merged + [update[n]];
      }
    }
    assert merged + [] == merged;
  }

  lemma Regroup(a: ParameterList, p: Parameter, b: ParameterList)
    ensures a + ([p] + b) == (a + [p]) + b && a + ([] + b) == a + b
  {
  }

  datatype EarlyFill = EarlyFill(requestId: U64, params: ParameterList)

  /** The answer to an update: REQUEST_OK or REQUEST_ERROR. */
  datatype UpdateAnswer = UpdateOk | UpdateRefused

  /** `subscribed` is whether Accept made a subscription, to which later updates go. */
  class SubscribeRequest {
    const requestId: U64
    var params: ParameterList
    var earlyFills: seq<EarlyFill>
    var answered: bool
    var subscribed: bool

    constructor (requestId: U64, params: ParameterList)
      ensures this.requestId == requestId && this.params == params && earlyFills == [] && !answered && !subscribed
    {
      this.requestId, this.params, earlyFills := requestId, params, [];
      answered, subscribed := false, false;
    }

    /** A REQUEST_UPDATE with no subscription to apply it to folds into the parameters, all but a fill. */
    method EarlyUpdate(id: U64, update: ParameterList) returns (answer: UpdateAnswer)
      requires !subscribed
      modifies this`params, this`earlyFills
      ensures HasRangeFilter(update) ==>
                answer == UpdateRefused && params == old(params) && earlyFills == old(earlyFills)
      ensures !HasRangeFilter(update) ==>
                answer == UpdateOk && params == MergeParameters(old(params), update)
                && earlyFills == old(earlyFills) + EarlyFillsOf(id, update)
    {
      if HasRangeFilter(update) {
        return UpdateRefused;
      }
      var fill := Get(update, FILL_PARAMETERS);
      if fill.Some? {
        earlyFills := earlyFills + [EarlyFill(id, fill.value.params)];
      }
      params := MergedParameters(params, update);
      return UpdateOk;
    }

    /** The settings the subscription starts with, and the fills it starts: its own, then the early ones.
        A request is answered once; one whose parameters are bad is not answered by trying. `written` is
        whether SUBSCRIBE_OK can be: if not the request is answered all the same, and no fill starts. */
    method Accept(properties: KVPList, written: bool) returns (res: Result<Established>, fills: seq<EarlyFill>)
      modifies this`answered, this`subscribed, this`earlyFills
      ensures var made := Establish(params, properties);
              && res == (if old(answered) then Failure(RequestAlreadyAnswered)
                         else if made.Success? && !written then Failure(WriteFailed) else made)
              && answered == (old(answered) || made.Success?)
              && subscribed == (old(subscribed) || (!old(answered) && made.Success?))
      ensures fills == if res.Success? then EarlyFillsOf(requestId, params) + old(earlyFills) else []
      ensures earlyFills == if res.Success? then [] else old(earlyFills)
    {
      fills := [];
      if answered {
        return Failure(RequestAlreadyAnswered), fills;
      }
      var forward := ForwardOf(params, true);
      if forward.Failure? {
        return Failure(forward.error), fills;
      }
      var given := GroupOrderOf(params);
      if given.Failure? {
        return Failure(given.error), fills;
      }
      var priority := PriorityOf(params, DEFAULT_SUBSCRIBER_PRIORITY);
      var filter := ActiveFilter(FilterOf(params));
      var wanted := IncludesProperties(params);
      if wanted.Failure? {
        return Failure(wanted.error), fills;
      }
      var order := PreferredOrder(properties);
      if given.value.Some? {
        order := Success(given.value.value);
      }
      if order.Failure? {
        return Failure(order.error), fills;
      }
      answered, subscribed := true, true;
      if !written {
        return Failure(WriteFailed), fills;
      }
      var own := Get(params, FILL_PARAMETERS);
      if own.Some? {
        fills := [EarlyFill(requestId, own.value.params)];
      }
      fills := fills + earlyFills;
      earlyFills := [];
      return Success(Established(Settings(priority, forward.value, filter), order.value,
                                 if wanted.value then properties else [])), fills;
    }

    /** Turning the request down answers it too. */
    method Reject() returns (res: Result<()>)
      modifies this`answered
      ensures answered && res == if old(answered) then Failure(RequestAlreadyAnswered) else Success(())
    {
      if answered {
        return Failure(RequestAlreadyAnswered);
      }
      answered := true;
      return Success(());
    }
  }

  function EarlyFillsOf(id: U64, update: ParameterList): seq<EarlyFill> {
    var fill := FillOf(update);
    if fill.None? then [] else [EarlyFill(id, fill.value)]
  }

  /** A fill is kept under the Request ID that asked for it, with the block of its first FILL_PARAMETERS. */
  lemma EarlyFillIsKept(id: U64, update: ParameterList)
    ensures EarlyFillsOf(id, update) ==
            if First(update, 0x23).None? then [] else [EarlyFill(id, First(update, 0x23).value.params)]
  {
    FillIsFirst(update);
  }

  // ---- Folding in early or applying late makes no difference.

  lemma {:induction false} FirstOfConcat(a: ParameterList, b: ParameterList, typ: U64)
    ensures First(a + b, typ) == if First(a, typ).Some? then First(a, typ) else First(b, typ)
  {
    if a == [] {
      assert a + b == b;
    } else {
      assert (a + b)[0] == a[0] && (a + b)[1..] == a[1..] + b;
      FirstOfConcat(a[1..], b, typ);
    }
  }

  lemma {:induction false} FirstKept(base: ParameterList, update: ParameterList, typ: U64)
    ensures First(Kept(base, update), typ) == if First(update, typ).Some? then None else First(base, typ)
  {
    if base != [] {
      var head := if First(update, base[0].typ).None? then [base[0]] else [];
      FirstKept(base[1..], update, typ);
      FirstOfConcat(head, Kept(base[1..], update), typ);
      assert head != [] ==> head[1..] == [];
    }
  }

  lemma {:induction false} FirstWithoutFill(update: ParameterList, typ: U64)
    ensures First(WithoutFill(update), typ) == if typ == FILL_PARAMETERS then None else First(update, typ)
  {
    if update != [] {
      var head := if update[0].typ != FILL_PARAMETERS then [update[0]] else [];
      FirstWithoutFill(update[1..], typ);
      FirstOfConcat(head, WithoutFill(update[1..]), typ);
      assert head != [] ==> head[1..] == [];
    }
  }

  /** What a merged block says of a Type: what the update says, else what the base did; of a fill, only
      what the base said, and nothing if the update asks for one too. */
  lemma FirstMerged(base: ParameterList, update: ParameterList, typ: U64)
    ensures First(MergeParameters(base, update), typ) ==
            if First(update, typ).None? then First(base, typ)
            else if typ == FILL_PARAMETERS then None else First(update, typ)
  {
    FirstOfConcat(Kept(base, update), WithoutFill(update), typ);
    FirstKept(base, update, typ);
    FirstWithoutFill(update, typ);
  }

  /** One update: merging it before Accept gives the settings that applying it after would. */
  lemma MergeThenAccept(base: ParameterList, update: ParameterList)
    requires AcceptSettings(base).Success? && ValidUpdate(update)
    ensures AcceptSettings(MergeParameters(base, update)) == MergeUpdate(AcceptSettings(base).value, update)
    ensures AcceptSettings(MergeParameters(base, update)).Success?
  {
    hide MergeParameters, First, HasRangeFilter;
    FirstMerged(base, update, SUBSCRIBER_PRIORITY);
    FirstMerged(base, update, FORWARD);
    FirstMerged(base, update, LOCATION_FILTER);
  }

  function MergeAll(base: ParameterList, updates: seq<ParameterList>): ParameterList
    decreases |updates|
  {
    if updates == [] then base else MergeAll(MergeParameters(base, updates[0]), updates[1..])
  }

  function ApplyAll(s: Settings, updates: seq<ParameterList>): Settings
    requires forall u | u in updates :: ValidUpdate(u)
    decreases |updates|
  {
    if updates == [] then s
    else
      assert ValidUpdate(updates[0]);
      ApplyAll(MergeUpdate(s, updates[0]).value, updates[1..])
  }

  lemma {:induction false} MergeAllThenAccept(base: ParameterList, updates: seq<ParameterList>)
    requires AcceptSettings(base).Success? && forall u | u in updates :: ValidUpdate(u)
    ensures AcceptSettings(MergeAll(base, updates)) == Success(ApplyAll(AcceptSettings(base).value, updates))
    decreases |updates|
  {
    hide AcceptSettings, MergeUpdate, MergeParameters, ValidUpdate;
    if updates != [] {
      assert ValidUpdate(updates[0]);
      MergeThenAccept(base, updates[0]);
      MergeAllThenAccept(MergeParameters(base, updates[0]), updates[1..]);
    }
  }

  lemma {:induction false} ApplyInTwo(s: Settings, a: seq<ParameterList>, b: seq<ParameterList>)
    requires forall u | u in a + b :: ValidUpdate(u)
    requires (forall u | u in a :: ValidUpdate(u)) && forall u | u in b :: ValidUpdate(u)
    ensures ApplyAll(ApplyAll(s, a), b) == ApplyAll(s, a + b)
    decreases |a|
  {
    hide MergeUpdate, ValidUpdate;
    if a == [] {
      assert a + b == b;
    } else {
      assert ValidUpdate(a[0]) && (a + b)[0] == a[0] && (a + b)[1..] == a[1..] + b;
      ValidSucceeds(s, a[0]);
      ApplyInTwo(MergeUpdate(s, a[0]).value, a[1..], b);
    }
  }

  lemma ValidSucceeds(s: Settings, update: ParameterList)
    requires ValidUpdate(update)
    ensures MergeUpdate(s, update).Success?
  {
    hide HasRangeFilter;
  }

  /** Commutation: wherever Accept falls among any valid updates -- the first `n` folded into the request,
      the rest applied to the subscription -- the settings come out as if it had been accepted first. */
  lemma AcceptanceTimeDoesNotMatter(base: ParameterList, updates: seq<ParameterList>, n: nat)
    requires AcceptSettings(base).Success? && n <= |updates| && forall u | u in updates :: ValidUpdate(u)
    ensures AcceptSettings(MergeAll(base, updates[..n])).Success?
    ensures ApplyAll(AcceptSettings(MergeAll(base, updates[..n])).value, updates[n..])
            == ApplyAll(AcceptSettings(base).value, updates)
  {
    hide AcceptSettings, ValidUpdate, MergeAll, ApplyAll;
    assert updates[..n] + updates[n..] == updates;
    MergeAllThenAccept(base, updates[..n]);
    ApplyInTwo(AcceptSettings(base).value, updates[..n], updates[n..]);
  }

  /** Fills do not commute so: the SUBSCRIBE's own fill is started at Accept exactly when no early update
      asked for one as well. */
  lemma {:induction false} OwnFillSurvives(base: ParameterList, updates: seq<ParameterList>)
    ensures FillOf(MergeAll(base, updates)) ==
            if exists u :: u in updates && FillOf(u).Some? then None else FillOf(base)
    decreases |updates|
  {
    hide MergeParameters, First;
    if updates != [] {
      FirstMerged(base, updates[0], FILL_PARAMETERS);
      OwnFillSurvives(MergeParameters(base, updates[0]), updates[1..]);
      assert updates == [updates[0]] + updates[1..];
      assert (exists u :: u in updates && FillOf(u).Some?) <==>
             FillOf(updates[0]).Some? || exists u :: u in updates[1..] && FillOf(u).Some?;
    }
  }
}
