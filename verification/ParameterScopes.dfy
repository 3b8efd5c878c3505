/** A message may carry different parameters on different streams, from different ends and
    before and after an answer. Both ends of a stream follow it and judge each message for
    themselves; the proof is that they agree in all the library's handlers do, and exactly
    when two scopes would in anything that could be tried. */
module ParameterScopes {
  import opened Wire
  import opened Parameters
  import opened ParameterRoundTrips
  import ControlMessages

  type Kind = ControlMessages.Kind

  datatype Context =
    | CtxSubscribe | CtxSubscribeOk | CtxPublish | CtxPublishOk | CtxPublishStateNotify
    | CtxFetch | CtxFetchOk | CtxTrackStatus | CtxTrackStatusOk
    | CtxPublishNamespace | CtxPublishNamespaceOk | CtxSubscribeNamespace | CtxSubscribeNamespaceOk
    | CtxSubscribeTracks | CtxSubscribeTracksOk
    | CtxUpdateSubscription | CtxUpdateFetch | CtxUpdatePublishNamespace | CtxUpdateSubscribeNamespace
    | CtxUpdateSubscribeTracks | CtxRequestUpdateOk

  // ---- The tables.

  const ANY_UPDATE_18: set<U64> := {AUTHORIZATION_TOKEN, SUBGROUP_DELIVERY_TIMEOUT, OBJECT_DELIVERY_TIMEOUT}

  function Allowed18(c: Context): set<U64> {
    match c
    case CtxSubscribe =>
      {AUTHORIZATION_TOKEN, SUBGROUP_DELIVERY_TIMEOUT, OBJECT_DELIVERY_TIMEOUT, RENDEZVOUS_TIMEOUT,
       SUBSCRIBER_PRIORITY, GROUP_ORDER, LOCATION_FILTER, FORWARD, NEW_GROUP_REQUEST}
    case CtxSubscribeOk => {EXPIRES, LARGEST_OBJECT}
    case CtxPublish => {AUTHORIZATION_TOKEN, EXPIRES, LARGEST_OBJECT, FORWARD}
    case CtxPublishOk =>
      {SUBGROUP_DELIVERY_TIMEOUT, OBJECT_DELIVERY_TIMEOUT, SUBSCRIBER_PRIORITY, GROUP_ORDER, LOCATION_FILTER,
       EXPIRES, FORWARD, NEW_GROUP_REQUEST}
    case CtxPublishStateNotify => {}
    case CtxFetch => {AUTHORIZATION_TOKEN, FILL_TIMEOUT, SUBSCRIBER_PRIORITY, GROUP_ORDER}
    case CtxFetchOk => {}
    case CtxTrackStatus => {AUTHORIZATION_TOKEN}
    case CtxTrackStatusOk => {LARGEST_OBJECT, EXPIRES}
    case CtxPublishNamespace => {AUTHORIZATION_TOKEN}
    case CtxPublishNamespaceOk => {}
    case CtxSubscribeNamespace => {AUTHORIZATION_TOKEN}
    case CtxSubscribeNamespaceOk => {}
    case CtxSubscribeTracks => {AUTHORIZATION_TOKEN, FORWARD}
    case CtxSubscribeTracksOk => {}
    case CtxUpdateSubscription =>
      ANY_UPDATE_18 + {SUBSCRIBER_PRIORITY, LOCATION_FILTER, FORWARD, NEW_GROUP_REQUEST}
    case CtxUpdateFetch => ANY_UPDATE_18 + {SUBSCRIBER_PRIORITY}
    case CtxUpdatePublishNamespace => ANY_UPDATE_18
    case CtxUpdateSubscribeNamespace => ANY_UPDATE_18 + {TRACK_NAMESPACE_PREFIX}
    case CtxUpdateSubscribeTracks => ANY_UPDATE_18 + {TRACK_NAMESPACE_PREFIX}
    case CtxRequestUpdateOk => {EXPIRES, LARGEST_OBJECT}
  }

  const RANGE_FILTERS_22: set<U64> := {SUBGROUP_FILTER, OBJECTID_FILTER, PRIORITY_FILTER, OBJECT_PROPERTY_FILTER}

  const SUBSCRIBE_22: set<U64> := RANGE_FILTERS_22 +
    {OBJECT_DELIVERY_TIMEOUT, AUTHORIZATION_TOKEN, RENDEZVOUS_TIMEOUT, SUBGROUP_DELIVERY_TIMEOUT, FORWARD,
     SUBSCRIBER_PRIORITY, LOCATION_FILTER, GROUP_ORDER, FILL_PARAMETERS, NEW_GROUP_REQUEST, INCLUDE_PROPERTIES}

  function Allowed22(c: Context): set<U64> {
    match c
    case CtxSubscribe => SUBSCRIBE_22
    case CtxSubscribeOk => {EXPIRES, LARGEST_OBJECT}
    case CtxPublish =>
      {OBJECT_DELIVERY_TIMEOUT, AUTHORIZATION_TOKEN, SUBGROUP_DELIVERY_TIMEOUT, EXPIRES, LARGEST_OBJECT, FORWARD,
       SUBSCRIBER_PRIORITY, LOCATION_FILTER, GROUP_ORDER}
    case CtxPublishOk => {EXPIRES}
    case CtxPublishStateNotify => {LARGEST_OBJECT, FORWARD, LOCATION_FILTER}
    case CtxFetch => RANGE_FILTERS_22 +
      {AUTHORIZATION_TOKEN, FILL_TIMEOUT, SUBSCRIBER_PRIORITY, LOCATION_FILTER, GROUP_ORDER, INCLUDE_PROPERTIES}
    case CtxFetchOk => {}
    case CtxTrackStatus => {AUTHORIZATION_TOKEN, INCLUDE_PROPERTIES}
    case CtxTrackStatusOk => {LARGEST_OBJECT, EXPIRES}
    case CtxPublishNamespace => {AUTHORIZATION_TOKEN}
    case CtxPublishNamespaceOk => {EXPIRES}
    case CtxSubscribeNamespace => {AUTHORIZATION_TOKEN}
    case CtxSubscribeNamespaceOk => {EXPIRES}
    case CtxSubscribeTracks => SUBSCRIBE_22 +
      {AUTHORIZATION_TOKEN, FORWARD, GROUP_ORDER, TRACK_PROPERTY_FILTER, INCLUDE_PROPERTIES}
    case CtxSubscribeTracksOk => {EXPIRES}
    case CtxUpdateSubscription => RANGE_FILTERS_22 +
      {OBJECT_DELIVERY_TIMEOUT, AUTHORIZATION_TOKEN, SUBGROUP_DELIVERY_TIMEOUT, FORWARD, SUBSCRIBER_PRIORITY,
       LOCATION_FILTER, FILL_PARAMETERS, NEW_GROUP_REQUEST}
    case CtxUpdateFetch => {AUTHORIZATION_TOKEN, SUBSCRIBER_PRIORITY}
    case CtxUpdatePublishNamespace => {AUTHORIZATION_TOKEN}
    case CtxUpdateSubscribeNamespace => {AUTHORIZATION_TOKEN, TRACK_NAMESPACE_PREFIX}
    case CtxUpdateSubscribeTracks => {AUTHORIZATION_TOKEN, FORWARD, TRACK_PROPERTY_FILTER, TRACK_NAMESPACE_PREFIX}
    case CtxRequestUpdateOk => {EXPIRES, LARGEST_OBJECT}
  }

  /** Draft-18's table has no entry for PUBLISH_STATE_NOTIFY, and a context without one admits nothing at all. */
  predicate Scoped(version: Version, c: Context) {
    version.Draft22? || !c.CtxPublishStateNotify?
  }

  function Allowed(version: Version, c: Context): set<U64> {
    if version.Draft18? then Allowed18(c) else Allowed22(c)
  }

  /** The scope tables and the registry are about the same parameters: a Type is registered in a draft
      exactly when some context admits it. */
  lemma ScopesCoverRegistry(version: Version, typ: U64)
    ensures Lookup(TopLevel(version), typ).Some? <==> exists c :: Scoped(version, c) && typ in Allowed(version, c)
  {
    if Lookup(TopLevel(version), typ).Some? {
      assert Scoped(version, WhereAllowed(typ)) && typ in Allowed(version, WhereAllowed(typ));
    }
  }

  /** A context that admits a registered Type. */
  function WhereAllowed(typ: U64): Context {
    if typ in {EXPIRES, LARGEST_OBJECT} then CtxSubscribeOk
    else if typ == FILL_TIMEOUT then CtxFetch
    else if typ == TRACK_NAMESPACE_PREFIX then CtxUpdateSubscribeNamespace
    else if typ == TRACK_PROPERTY_FILTER then CtxSubscribeTracks
    else CtxSubscribe
  }

  /** The first parameter out of scope is the error. */
  function FirstOutside(allowed: set<U64>, list: ParameterList): Option<U64> {
    if list == [] then None
    else if list[0].typ !in allowed then Some(list[0].typ)
    else FirstOutside(allowed, list[1..])
  }

  predicate AllInside(allowed: set<U64>, list: ParameterList) {
    forall p | p in list :: p.typ in allowed
  }

  lemma {:induction false} OutsideIsExact(allowed: set<U64>, list: ParameterList)
    ensures FirstOutside(allowed, list).None? <==> AllInside(allowed, list)
  {
    if list != [] {
      OutsideIsExact(allowed, list[1..]);
      assert list == [list[0]] + list[1..];
    }
  }

  method CheckParameters(version: Version, c: Context, list: ParameterList) returns (res: Result<()>)
    ensures res.Success? <==> Scoped(version, c) && AllInside(Allowed(version, c), list)
    ensures res.Failure? && Scoped(version, c) ==>
              FirstOutside(Allowed(version, c), list).Some?
              && res.error == ParameterNotAllowed(FirstOutside(Allowed(version, c), list).value)
  {
    hide Allowed18, Allowed22;
    OutsideIsExact(Allowed(version, c), list);
    if !Scoped(version, c) {
      return Failure(MessageNotInDraft);
    }
    var allowed := Allowed(version, c);
    for n := 0 to |list|
      invariant FirstOutside(allowed, list) == FirstOutside(allowed, list[n..])
    {
      assert list[n..][0] == list[n] && list[n..][1..] == list[n + 1..];
      if list[n].typ !in allowed {
        return Failure(ParameterNotAllowed(list[n].typ));
      }
    }
    return Success(());
  }

  // ---- One end of a stream.

  datatype Msg = Msg(kind: Kind, params: ParameterList)

  /** A scope's state; a `kind` of 0 says that no message has opened the stream. */
  datatype ScopeState = ScopeState(kind: U64, requester: bool, answered: bool)

  const UNOPENED := ScopeState(0, false, false)

  function TypeOf(k: Kind): (t: U64)
    ensures t != 0
  {
    ControlMessages.MessageType(k)
  }

  function UpdateContext(kind: U64): Option<Context> {
    if kind == TypeOf(ControlMessages.Subscribe) || kind == TypeOf(ControlMessages.Publish) then Some(CtxUpdateSubscription)
    else if kind == TypeOf(ControlMessages.Fetch) then Some(CtxUpdateFetch)
    else if kind == TypeOf(ControlMessages.PublishNamespace) then Some(CtxUpdatePublishNamespace)
    else if kind == TypeOf(ControlMessages.SubscribeNamespace) then Some(CtxUpdateSubscribeNamespace)
    else if kind == TypeOf(ControlMessages.SubscribeTracks) then Some(CtxUpdateSubscribeTracks)
    else None
  }

  /** What a REQUEST_OK answers: the request, if it is the first from the side that was asked and the
      request is answered with one at all; an update otherwise. */
  function OkContext(st: ScopeState, fromRequester: bool): Context {
    if fromRequester || st.answered then CtxRequestUpdateOk
    else if st.kind == TypeOf(ControlMessages.Publish) then CtxPublishOk
    else if st.kind == TypeOf(ControlMessages.TrackStatus) then CtxTrackStatusOk
    else if st.kind == TypeOf(ControlMessages.PublishNamespace) then CtxPublishNamespaceOk
    else if st.kind == TypeOf(ControlMessages.SubscribeNamespace) then CtxSubscribeNamespaceOk
    else if st.kind == TypeOf(ControlMessages.SubscribeTracks) then CtxSubscribeTracksOk
    else CtxRequestUpdateOk
  }

  function ContextOf(st: ScopeState, k: Kind, fromRequester: bool): Option<Context> {
    match k
    case Subscribe => Some(CtxSubscribe)
    case Publish => Some(CtxPublish)
    case Fetch => Some(CtxFetch)
    case TrackStatus => Some(CtxTrackStatus)
    case PublishNamespace => Some(CtxPublishNamespace)
    case SubscribeNamespace => Some(CtxSubscribeNamespace)
    case SubscribeTracks => Some(CtxSubscribeTracks)
    case SubscribeOk => Some(CtxSubscribeOk)
    case FetchOk => Some(CtxFetchOk)
    case PublishStateNotify => Some(CtxPublishStateNotify)
    case RequestUpdate => UpdateContext(st.kind)
    case RequestOk => Some(OkContext(st, fromRequester))
    case PublishOk => Some(OkContext(st, fromRequester))
    case _ => None
  }

  predicate IsAnswer(k: Kind) {
    k.SubscribeOk? || k.FetchOk? || k.RequestOk? || k.PublishOk? || k.RequestError?
  }

  function OpenedBy(st: ScopeState, k: Kind, sending: bool): ScopeState {
    if st.kind == 0 then st.(kind := TypeOf(k), requester := sending) else st
  }

  /** Where a message sits, and whether its parameters may be there. */
  datatype Judgment = Judgment(context: Option<Context>, allowed: bool)

  function JudgeIn(version: Version, c: Option<Context>, list: ParameterList): Judgment {
    Judgment(c, c.None? || (Scoped(version, c.value) && AllInside(Allowed(version, c.value), list)))
  }

  function Judge(version: Version, st: ScopeState, m: Msg, sending: bool): Judgment {
    var open := OpenedBy(st, m.kind, sending);
    JudgeIn(version, ContextOf(open, m.kind, sending == open.requester), m.params)
  }

  /** The exchange moves on even when the message is refused. */
  function Moved(st: ScopeState, m: Msg, sending: bool): ScopeState {
    var open := OpenedBy(st, m.kind, sending);
    if sending != open.requester && IsAnswer(m.kind) then open.(answered := true) else open
  }

  class ParameterScope {
    var kind: U64
    var requester: bool
    var answered: bool

    constructor ()
      ensures State() == UNOPENED
    {
      kind, requester, answered := 0, false, false;
    }

    function State(): ScopeState
      reads this
    {
      ScopeState(kind, requester, answered)
    }

    method Opened(t: U64, asRequester: bool)
      modifies this
      ensures State() == if old(kind) == 0 then old(State()).(kind := t, requester := asRequester) else old(State())
    {
      if kind == 0 {
        kind, requester := t, asRequester;
      }
    }

    method Check(version: Version, m: Msg, sending: bool) returns (res: Result<()>)
      modifies this
      ensures State() == Moved(old(State()), m, sending)
      ensures res.Success? <==> Judge(version, old(State()), m, sending).allowed
    {
      hide Allowed18, Allowed22, ContextOf;
      if kind == 0 {
        kind, requester := TypeOf(m.kind), sending;
      }
      var fromRequester := sending == requester;
      var context := ContextOf(State(), m.kind, fromRequester);
      if !fromRequester && IsAnswer(m.kind) {
        answered := true;
      }
      if context.None? {
        return Success(());
      }
      res := CheckParameters(version, context.value, m.params);
    }
  }

  // ---- Both ends of a stream, with messages in flight each way.

  /** The two scopes, the two FIFO directions, and what each end has judged so far of what was sent and read. */
  datatype Exchange = Exchange(
    version: Version, asker: ScopeState, answerer: ScopeState, toAnswerer: seq<Msg>, toAsker: seq<Msg>,
    askerSent: seq<Judgment>, answererSent: seq<Judgment>, askerRead: seq<Judgment>, answererRead: seq<Judgment>)

  function Start(version: Version): Exchange {
    Exchange(version, UNOPENED, UNOPENED, [], [], [], [], [], [])
  }

  datatype Event = AskerSends(m: Msg) | AnswererSends(m: Msg) | AnswererReads | AskerReads

  /** On arrival the parameters are in wire order, with only the values their Types select. */
  function Arrived(m: Msg, version: Version): Msg {
    m.(params := CanonList(SortedParameters(m.params), TopLevel(version), version))
  }

  /** The asking end's first message is judged by a scope of its own before there is a stream; the
      answering end learns of the stream from that message, and sends nothing before it. Any message may be
      tried by either end, which is more than the library's handlers try. A refusal on arrival closes the
      session; runs are not cut short there. */
  predicate Enabled(x: Exchange, e: Event) {
    match e
    case AskerSends(_) => true
    case AnswererSends(_) => x.answerer.kind != 0
    case AnswererReads => x.toAnswerer != []
    case AskerReads => x.toAsker != []
  }

  /** A refused message is not sent, but the scope has seen it. */
  function Next(x: Exchange, e: Event): Exchange
    requires Enabled(x, e)
  {
    match e
    case AskerSends(m) => (
      var j := Judge(x.version, x.asker, m, true);
      var y := x.(asker := Moved(x.asker, m, true));
      if j.allowed then y.(toAnswerer := y.toAnswerer + [m], askerSent := y.askerSent + [j])
      else if x.asker.kind == 0 then x
      else y)
    case AnswererSends(m) => (
      var j := Judge(x.version, x.answerer, m, true);
      var y := x.(answerer := Moved(x.answerer, m, true));
      if j.allowed then y.(toAsker := y.toAsker + [m], answererSent := y.answererSent + [j]) else y)
    case AnswererReads => (
      var m := Arrived(x.toAnswerer[0], x.version);
      x.(toAnswerer := x.toAnswerer[1..], answerer := Moved(x.answerer, m, false),
         answererRead := x.answererRead + [Judge(x.version, x.answerer, m, false)]))
    case AskerReads => (
      var m := Arrived(x.toAsker[0], x.version);
      x.(toAsker := x.toAsker[1..], asker := Moved(x.asker, m, false),
         askerRead := x.askerRead + [Judge(x.version, x.asker, m, false)]))
  }

  predicate IsRun(x: Exchange, events: seq<Event>)
    decreases |events|
  {
    events == [] || (Enabled(x, events[0]) && IsRun(Next(x, events[0]), events[1..]))
  }

  function Run(x: Exchange, events: seq<Event>): Exchange
    requires IsRun(x, events)
    decreases |events|
  {
    if events == [] then x else Run(Next(x, events[0]), events[1..])
  }

  // ---- The invariant: what is in flight will be judged as it was.

  /** The requests that are answered with REQUEST_OK, by the type of their message. */
  predicate OkAnswers(kind: U64) {
    kind in {TypeOf(ControlMessages.Publish), TypeOf(ControlMessages.TrackStatus),
             TypeOf(ControlMessages.PublishNamespace), TypeOf(ControlMessages.SubscribeNamespace),
             TypeOf(ControlMessages.SubscribeTracks)}
  }

  /** A refused message is not sent, but its sender's scope has moved on. */
  predicate RefusalMoves(version: Version, st: ScopeState, m: Msg) {
    !Judge(version, st, m, true).allowed && Moved(st, m, true) != st
  }

  /** Exactly when a refusal moves the scope: the message would have opened the stream, or answered a
      request still unanswered. */
  lemma RefusalMovesExactly(version: Version, st: ScopeState, m: Msg)
    ensures RefusalMoves(version, st, m) <==>
            !Judge(version, st, m, true).allowed
            && (st.kind == 0 || (!st.requester && !st.answered && IsAnswer(m.kind)))
  {
    hide Judge;
  }

  /** On a stream whose request is answered with REQUEST_OK, a refusal that moves the answering end's scope. */
  predicate Harms(x: Exchange, e: Event) {
    e.AnswererSends? && x.answerer.kind != 0 && OkAnswers(x.answerer.kind) && RefusalMoves(x.version, x.answerer, e.m)
  }

  /** After such a refusal the answering end is to stay silent. */
  predicate QuietRun(x: Exchange, events: seq<Event>, silent: bool)
    requires IsRun(x, events)
    decreases |events|
  {
    events == [] ||
    ((silent ==> !events[0].AnswererSends?)
     && QuietRun(Next(x, events[0]), events[1..], silent || Harms(x, events[0])))
  }

  /** How the answering end will judge what is on its way to it. */
  function RequestJudgments(version: Version, kind: U64, ms: seq<Msg>): seq<Judgment> {
    if ms == [] then []
    else [JudgeIn(version, ContextOf(ScopeState(kind, true, false), ms[0].kind, true), ms[0].params)]
         + RequestJudgments(version, kind, ms[1..])
  }

  /** How the asking end will judge what is on its way to it, if the request has or has not been answered. */
  function AnswerJudgments(version: Version, kind: U64, answered: bool, ms: seq<Msg>): seq<Judgment>
    decreases |ms|
  {
    if ms == [] then []
    else [JudgeIn(version, ContextOf(ScopeState(kind, true, answered), ms[0].kind, false), ms[0].params)]
         + AnswerJudgments(version, kind, answered || IsAnswer(ms[0].kind), ms[1..])
  }

  predicate AnsweredAfter(answered: bool, ms: seq<Msg>)
    decreases |ms|
  {
    if ms == [] then answered else AnsweredAfter(answered || IsAnswer(ms[0].kind), ms[1..])
  }

  predicate AllAllowed(js: seq<Judgment>) {
    forall j | j in js :: j.allowed
  }

  predicate OpenedAlike(x: Exchange) {
    && x.asker.kind != 0 && x.asker.requester && !x.answerer.requester
    && if x.answerer.kind == 0
       then x.toAnswerer != [] && TypeOf(x.toAnswerer[0].kind) == x.asker.kind && x.toAsker == []
            && !x.answerer.answered
       else x.answerer.kind == x.asker.kind
  }

  predicate Agreeing(x: Exchange, silent: bool) {
    && (OkAnswers(x.asker.kind) && !silent ==> x.answerer.answered == AnsweredAfter(x.asker.answered, x.toAsker))
    && x.answererSent == x.askerRead + AnswerJudgments(x.version, x.asker.kind, x.asker.answered, x.toAsker)
    && x.askerSent == x.answererRead + RequestJudgments(x.version, x.asker.kind, x.toAnswerer)
    && AllAllowed(x.askerSent) && AllAllowed(x.answererSent)
  }

  predicate Invariant(x: Exchange, silent: bool) {
    (x == Start(x.version) && !silent) || (OpenedAlike(x) && Agreeing(x, silent))
  }

  lemma {:induction false} RequestJudgmentsSnoc(version: Version, kind: U64, ms: seq<Msg>, m: Msg)
    ensures RequestJudgments(version, kind, ms + [m]) ==
            RequestJudgments(version, kind, ms)
            + [JudgeIn(version, ContextOf(ScopeState(kind, true, false), m.kind, true), m.params)]
  {
    hide ContextOf, JudgeIn;
    if ms == [] {
      assert [m][1..] == [];
    } else {
      assert (ms + [m])[1..] == ms[1..] + [m];
      RequestJudgmentsSnoc(version, kind, ms[1..], m);
    }
  }

  lemma {:induction false} AnswerJudgmentsSnoc(version: Version, kind: U64, answered: bool, ms: seq<Msg>, m: Msg)
    ensures AnswerJudgments(version, kind, answered, ms + [m]) ==
            AnswerJudgments(version, kind, answered, ms)
            + [JudgeIn(version, ContextOf(ScopeState(kind, true, AnsweredAfter(answered, ms)), m.kind, false), m.params)]
    ensures AnsweredAfter(answered, ms + [m]) == (AnsweredAfter(answered, ms) || IsAnswer(m.kind))
    decreases |ms|
  {
    hide ContextOf, JudgeIn, IsAnswer;
    if ms == [] {
      assert ([] + [m])[1..] == [] && [] + [m] == [m];
    } else {
      assert (ms + [m])[1..] == ms[1..] + [m];
      AnswerJudgmentsSnoc(version, kind, answered || IsAnswer(ms[0].kind), ms[1..], m);
    }
  }

  /** Only the request kind matters to where a message from the requester sits; to where an answer does,
      also whether there was one before, but only where requests are answered with REQUEST_OK. */
  lemma ContextDependsOn(st: ScopeState, k: Kind, answered: bool)
    ensures ContextOf(st, k, true) == ContextOf(ScopeState(st.kind, true, false), k, true)
    ensures answered == st.answered || !OkAnswers(st.kind) ==>
              ContextOf(st, k, false) == ContextOf(ScopeState(st.kind, true, answered), k, false)
  {
  }

  lemma {:induction false} CanonKeepsTypes(list: ParameterList, reg: Registry, version: Version, allowed: set<U64>)
    ensures AllInside(allowed, CanonList(list, reg, version)) <==> AllInside(allowed, list)
  {
    var c := CanonList(list, reg, version);
    forall n | 0 <= n < |list| ensures c[n].typ == list[n].typ {}
    if AllInside(allowed, list) {
      forall p | p in c ensures p.typ in allowed {
        var n :| 0 <= n < |c| && c[n] == p;
        assert list[n] in list;
      }
    }
    if AllInside(allowed, c) {
      forall p | p in list ensures p.typ in allowed {
        var n :| 0 <= n < |list| && list[n] == p;
        assert c[n] in c;
      }
    }
  }

  /** Crossing the wire does not change where a message sits or whether it is allowed there. */
  lemma ArrivalKeepsJudgment(version: Version, c: Option<Context>, m: Msg)
    ensures Arrived(m, version).kind == m.kind
    ensures JudgeIn(version, c, Arrived(m, version).params) == JudgeIn(version, c, m.params)
  {
    hide Allowed, CanonList, SortedParameters, Scoped;
    if c.Some? {
      var allowed := Allowed(version, c.value);
      SortKeeps(m.params, {}, TopLevel(version));
      CanonKeepsTypes(SortedParameters(m.params), TopLevel(version), version, allowed);
    }
  }

  lemma AskerSendsKeep(x: Exchange, m: Msg, silent: bool)
    requires Invariant(x, silent)
    ensures Invariant(Next(x, AskerSends(m)), silent)
  {
    hide ContextOf, JudgeIn, IsAnswer, OkAnswers, AnsweredAfter, AnswerJudgments;
    var kind := OpenedBy(x.asker, m.kind, true).kind;
    ContextDependsOn(OpenedBy(x.asker, m.kind, true), m.kind, false);
    RequestJudgmentsSnoc(x.version, kind, x.toAnswerer, m);
    NoJudgments(x.version, kind, x.asker.answered);
  }

  lemma NoJudgments(version: Version, kind: U64, answered: bool)
    ensures RequestJudgments(version, kind, []) == [] && AnswerJudgments(version, kind, answered, []) == []
    ensures AnsweredAfter(answered, []) == answered
  {
  }

  lemma AnswererSendsKeep(x: Exchange, m: Msg)
    requires Invariant(x, false) && Enabled(x, AnswererSends(m))
    ensures Invariant(Next(x, AnswererSends(m)), Harms(x, AnswererSends(m)))
  {
    hide ContextOf, JudgeIn, IsAnswer, OkAnswers, RequestJudgments;
    ContextDependsOn(x.answerer, m.kind, AnsweredAfter(x.asker.answered, x.toAsker));
    AnswerJudgmentsSnoc(x.version, x.asker.kind, x.asker.answered, x.toAsker, m);
  }

  lemma ReadsKeep(x: Exchange, e: Event, silent: bool)
    requires Invariant(x, silent) && Enabled(x, e) && (e.AskerReads? || e.AnswererReads?)
    ensures Invariant(Next(x, e), silent)
  {
    hide ContextOf, JudgeIn, IsAnswer, CanonList, SortedParameters, OkAnswers;
    if e.AnswererReads? {
      var m := x.toAnswerer[0];
      ContextDependsOn(OpenedBy(x.answerer, m.kind, false), m.kind, false);
      ArrivalKeepsJudgment(x.version, ContextOf(OpenedBy(x.answerer, m.kind, false), m.kind, true), m);
    } else {
      var m := x.toAsker[0];
      ContextDependsOn(x.asker, m.kind, x.asker.answered);
      ArrivalKeepsJudgment(x.version, ContextOf(x.asker, m.kind, false), m);
    }
  }

  lemma {:induction false} RunKeeps(x: Exchange, events: seq<Event>, silent: bool) returns (after: bool)
    requires Invariant(x, silent) && IsRun(x, events) && QuietRun(x, events, silent)
    ensures Invariant(Run(x, events), after) && Run(x, events).version == x.version
    decreases |events|
  {
    hide Invariant, Next, Enabled, RefusalMoves, OkAnswers;
    after := silent;
    if events != [] {
      match events[0] {
        case AskerSends(m) => AskerSendsKeep(x, m, silent);
        case AnswererSends(m) => AnswererSendsKeep(x, m);
        case _ => ReadsKeep(x, events[0], silent);
      }
      SameVersion(x, events[0]);
      after := RunKeeps(Next(x, events[0]), events[1..], silent || Harms(x, events[0]));
    }
  }

  lemma SameVersion(x: Exchange, e: Event)
    requires Enabled(x, e)
    ensures Next(x, e).version == x.version
  {
  }

  /** Each end has placed every message it read where the sender placed it, and refused none. */
  predicate Agree(x: Exchange) {
    && x.askerRead <= x.answererSent && x.answererRead <= x.askerSent
    && AllAllowed(x.askerRead) && AllAllowed(x.answererRead)
    && (x.toAsker == [] ==> x.askerRead == x.answererSent)
    && (x.toAnswerer == [] ==> x.answererRead == x.askerSent)
  }

  predicate NoneRefused(x: Exchange) {
    AllAllowed(x.askerRead) && AllAllowed(x.answererRead)
  }

  lemma AgreeingRefusesNone(x: Exchange)
    requires Agree(x)
    ensures NoneRefused(x)
  {
  }

  /** Two-ended agreement: however the two directions interleave, the ends agree, as long as the answering
      end, once it was refused the answer to a request that is answered with REQUEST_OK, sends nothing more. */
  lemma EndsAgree(version: Version, events: seq<Event>)
    requires IsRun(Start(version), events) && QuietRun(Start(version), events, false)
    ensures Agree(Run(Start(version), events))
  {
    hide IsRun, Run, OpenedAlike, QuietRun;
    var silent := RunKeeps(Start(version), events, false);
    var x := Run(Start(version), events);
    forall j | j in x.askerRead ensures j in x.answererSent {}
    forall j | j in x.answererRead ensures j in x.askerSent {}
  }

  // ---- What the library's handlers try.

  /** On a stream whose request is answered with REQUEST_OK, answers carry no parameters. */
  predicate PlainRun(x: Exchange, events: seq<Event>)
    requires IsRun(x, events)
    decreases |events|
  {
    events == [] ||
    ((events[0].AnswererSends? && OkAnswers(x.answerer.kind) && IsAnswer(events[0].m.kind) ==> events[0].m.params == [])
     && PlainRun(Next(x, events[0]), events[1..]))
  }

  /** An answer without parameters is never refused. */
  lemma PlainIsAllowed(version: Version, st: ScopeState, m: Msg)
    requires st.kind != 0 && IsAnswer(m.kind) && m.params == []
    ensures Judge(version, st, m, true).allowed
  {
  }

  lemma {:induction false} PlainIsQuiet(x: Exchange, events: seq<Event>)
    requires IsRun(x, events) && PlainRun(x, events)
    ensures QuietRun(x, events, false)
    decreases |events|
  {
    hide Judge, OkAnswers, IsAnswer, Next;
    if events != [] {
      if Harms(x, events[0]) {
        RefusalMovesExactly(x.version, x.answerer, events[0].m);
        PlainIsAllowed(x.version, x.answerer, events[0].m);
      }
      PlainIsQuiet(Next(x, events[0]), events[1..]);
    }
  }

  /** So with answers that carry none the ends agree in every run. */
  lemma PlainAnswersAgree(version: Version, events: seq<Event>)
    requires IsRun(Start(version), events) && PlainRun(Start(version), events)
    ensures Agree(Run(Start(version), events))
  {
    hide IsRun, Run, Agree, QuietRun, PlainRun;
    PlainIsQuiet(Start(version), events);
    EndsAgree(version, events);
  }

  /** What the library's answering end tries on a stream. A TRACK_STATUS is claimed by its first answer, the
      only message there; namespace requests and their updates are answered with an empty REQUEST_OK or with
      REQUEST_ERROR, beside the namespaces announced; PUBLISH and SUBSCRIBE_TRACKS are turned down. */
  predicate HandlerTries(st: ScopeState, m: Msg) {
    if st.kind == TypeOf(ControlMessages.TrackStatus) then
      !st.answered && (m.kind.RequestOk? || m.kind.RequestError?)
    else if st.kind == TypeOf(ControlMessages.PublishNamespace) then
      (m.kind.RequestOk? && m.params == []) || m.kind.RequestError?
    else if st.kind == TypeOf(ControlMessages.SubscribeNamespace) then
      (m.kind.RequestOk? && m.params == []) || m.kind.RequestError? || m.kind.Namespace? || m.kind.NamespaceDone?
    else if st.kind == TypeOf(ControlMessages.Publish) || st.kind == TypeOf(ControlMessages.SubscribeTracks) then
      m.kind.RequestError?
    else true
  }

  predicate HandledRun(x: Exchange, events: seq<Event>)
    requires IsRun(x, events)
    decreases |events|
  {
    events == [] ||
    ((events[0].AnswererSends? ==> HandlerTries(x.answerer, events[0].m))
     && HandledRun(Next(x, events[0]), events[1..]))
  }

  /** Only the answer to a TRACK_STATUS can be refused, and leaves it claimed. */
  lemma HandlerHarms(version: Version, st: ScopeState, m: Msg)
    requires st.kind != 0 && HandlerTries(st, m) && OkAnswers(st.kind) && RefusalMoves(version, st, m)
    ensures st.kind == TypeOf(ControlMessages.TrackStatus) && Moved(st, m, true).answered
  {
    hide Allowed;
  }

  /** A TRACK_STATUS that was claimed stays so. */
  predicate Claimed(x: Exchange) {
    x.answerer.kind == TypeOf(ControlMessages.TrackStatus) && x.answerer.answered
  }

  lemma ClaimedStays(x: Exchange, e: Event)
    requires Claimed(x) && Enabled(x, e)
    ensures Claimed(Next(x, e))
  {
    hide Judge, CanonList, SortedParameters, IsAnswer;
  }

  lemma {:induction false} HandledIsQuiet(x: Exchange, events: seq<Event>, silent: bool)
    requires IsRun(x, events) && HandledRun(x, events) && (silent ==> Claimed(x))
    ensures QuietRun(x, events, silent)
    decreases |events|
  {
    hide Judge, Moved, OkAnswers, RefusalMoves, Next;
    if events != [] {
      var y := Next(x, events[0]);
      if silent {
        ClaimedStays(x, events[0]);
      } else if Harms(x, events[0]) {
        HandlerHarms(x.version, x.answerer, events[0].m);
        AnswererMoves(x, events[0].m);
      }
      HandledIsQuiet(y, events[1..], silent || Harms(x, events[0]));
    }
  }

  lemma AnswererMoves(x: Exchange, m: Msg)
    requires x.answerer.kind != 0
    ensures Next(x, AnswererSends(m)).answerer == Moved(x.answerer, m, true)
    ensures Moved(x.answerer, m, true).kind == x.answerer.kind
  {
    hide Judge;
  }

  /** With the library's handlers answering, on any stream and with no proviso: whatever the asking end
      tries, the ends agree in every run, and nothing that was sent is refused on arrival. */
  lemma HandlersAgree(version: Version, events: seq<Event>)
    requires IsRun(Start(version), events) && HandledRun(Start(version), events)
    ensures Agree(Run(Start(version), events)) && NoneRefused(Run(Start(version), events))
  {
    hide IsRun, Run, Agree, QuietRun, HandledRun, NoneRefused;
    HandledIsQuiet(Start(version), events, false);
    EndsAgree(version, events);
    AgreeingRefusesNone(Run(Start(version), events));
  }

  // ---- Two scopes on their own, fed any sends at all. The runs below in which they fall apart are of the
  // scopes alone: they try a second answer after a refused first, which no handler does.

  predicate Opening(x: Exchange) {
    x == Start(x.version) || OpenedAlike(x)
  }

  lemma OpeningKeeps(x: Exchange, e: Event)
    requires Opening(x) && Enabled(x, e)
    ensures var y := Next(x, e);
            Opening(y) && y.version == x.version && (x.asker.kind != 0 ==> y.asker.kind == x.asker.kind)
  {
    hide Judge, CanonList, SortedParameters, IsAnswer;
  }

  /** The kind, once there is one, stays, and decides whether anything can harm. */
  lemma {:induction false} KindStays(x: Exchange, events: seq<Event>)
    requires IsRun(x, events) && Opening(x)
    ensures x.asker.kind != 0 ==> Run(x, events).asker.kind == x.asker.kind
    ensures !OkAnswers(Run(x, events).asker.kind) ==> QuietRun(x, events, false)
    decreases |events|
  {
    hide Judge, OkAnswers, IsAnswer, Next, Enabled;
    if events != [] {
      OpeningKeeps(x, events[0]);
      KindStays(Next(x, events[0]), events[1..]);
    }
  }

  /** The request is made and read; its answer is refused for a parameter, and another is tried. */
  function AnsweredTwice(kind: Kind, typ: U64, again: ParameterList): seq<Event> {
    [AskerSends(Msg(kind, [])), AnswererReads, AnswererSends(Msg(ControlMessages.RequestOk, [Blank(typ)])),
     AnswererSends(Msg(ControlMessages.RequestOk, again)), AskerReads]
  }

  /** Where the second answer is placed as if it were the first by the end that reads it. */
  function FirstOk(kind: U64): Context {
    OkContext(ScopeState(kind, false, false), false)
  }

  /** Five known steps are a run. */
  lemma FiveSteps(e: seq<Event>, x0: Exchange, x1: Exchange, x2: Exchange, x3: Exchange, x4: Exchange, x5: Exchange)
    requires |e| == 5
    requires Enabled(x0, e[0]) && x1 == Next(x0, e[0])
    requires Enabled(x1, e[1]) && x2 == Next(x1, e[1])
    requires Enabled(x2, e[2]) && x3 == Next(x2, e[2])
    requires Enabled(x3, e[3]) && x4 == Next(x3, e[3])
    requires Enabled(x4, e[4]) && x5 == Next(x4, e[4])
    ensures IsRun(x0, e) && Run(x0, e) == x5
  {
    hide Enabled, Next;
    var t1, t2, t3, t4 := e[1..], e[1..][1..], e[1..][1..][1..], e[1..][1..][1..][1..];
    assert t1[0] == e[1] && t2[0] == e[2] && t3[0] == e[3] && t4[0] == e[4] && t4[1..] == [];
    assert IsRun(x5, t4[1..]) && Run(x5, t4[1..]) == x5;
    assert IsRun(x4, t4) && Run(x4, t4) == x5;
    assert IsRun(x3, t3) && Run(x3, t3) == x5;
    assert IsRun(x2, t2) && Run(x2, t2) == x5;
    assert IsRun(x1, t1) && Run(x1, t1) == x5;
  }

  /** The request is open at both ends and unanswered. */
  function Asked(version: Version, kind: U64, sent: Judgment): Exchange {
    Exchange(version, ScopeState(kind, true, false), ScopeState(kind, false, false), [], [], [sent], [], [], [sent])
  }

  lemma AskedFirst(version: Version, kind: Kind)
    requires OkAnswers(TypeOf(kind))
    ensures var x := Start(version);
            var y := Next(x, AskerSends(Msg(kind, [])));
            && y.toAnswerer != []
            && exists j :: Next(y, AnswererReads) == Asked(version, TypeOf(kind), j)
  {
    var x := Start(version);
    var m := Msg(kind, []);
    var c := ContextOf(ScopeState(TypeOf(kind), true, false), kind, true);
    assert Judge(version, UNOPENED, m, true) == JudgeIn(version, c, []);
    assert JudgeIn(version, c, []).allowed;
    var y := Next(x, AskerSends(m));
    assert y.toAnswerer == [m];
    ArrivalKeepsJudgment(version, c, m);
    assert Next(y, AnswererReads) == Asked(version, TypeOf(kind), JudgeIn(version, c, []));
  }

  /** The second answer is sent as the answer to an update and read as the answer to the request. No handler
      of the library makes this run. */
  lemma AnsweredTwiceEnds(version: Version, kind: Kind, typ: U64, again: ParameterList)
    requires OkAnswers(TypeOf(kind)) && typ !in Allowed(version, FirstOk(TypeOf(kind)))
    requires AllInside(Allowed(version, CtxRequestUpdateOk), again)
    ensures var events := AnsweredTwice(kind, typ, again);
            && IsRun(Start(version), events)
            && var x := Run(Start(version), events);
               && x.asker.kind == TypeOf(kind) && x.toAsker == []
               && x.answererSent == [Judgment(Some(CtxRequestUpdateOk), true)]
               && x.askerRead == [JudgeIn(version, Some(FirstOk(TypeOf(kind))), again)]
  {
    hide Allowed, CanonList, SortedParameters, OkAnswers, TypeOf;
    var events := AnsweredTwice(kind, typ, again);
    var t := TypeOf(kind);
    var x0 := Start(version);
    var x1 := Next(x0, events[0]);
    AskedFirst(version, kind);
    var j :| Next(x1, AnswererReads) == Asked(version, t, j);
    var x2 := Asked(version, t, j);
    RefusedAnswer(x2, typ);
    var x3 := Next(x2, events[2]);
    SecondAnswer(x3, again);
    var x4 := Next(x3, events[3]);
    var x5 := Next(x4, AskerReads);
    ReadAsFirst(x4, again);
    hide Next, JudgeIn, FirstOk;
    FiveSteps(events, x0, x1, x2, x3, x4, x5);
  }

  lemma RefusedAnswer(x: Exchange, typ: U64)
    requires x.answerer.kind != 0 && !x.answerer.requester && !x.answerer.answered
    requires Scoped(x.version, FirstOk(x.answerer.kind)) && typ !in Allowed(x.version, FirstOk(x.answerer.kind))
    ensures Next(x, AnswererSends(Msg(ControlMessages.RequestOk, [Blank(typ)]))) ==
            x.(answerer := x.answerer.(answered := true))
  {
    hide Allowed;
    assert Blank(typ) in [Blank(typ)];
  }

  lemma SecondAnswer(x: Exchange, again: ParameterList)
    requires x.answerer.kind != 0 && !x.answerer.requester && x.answerer.answered
    requires AllInside(Allowed(x.version, CtxRequestUpdateOk), again)
    ensures var m := Msg(ControlMessages.RequestOk, again);
            Next(x, AnswererSends(m)) ==
            x.(toAsker := x.toAsker + [m], answererSent := x.answererSent + [Judgment(Some(CtxRequestUpdateOk), true)])
  {
    hide Allowed;
  }

  lemma ReadAsFirst(x: Exchange, again: ParameterList)
    requires x.asker.kind != 0 && x.asker.requester && !x.asker.answered
    requires x.toAsker == [Msg(ControlMessages.RequestOk, again)]
    ensures var y := Next(x, AskerReads);
            && y.asker.kind == x.asker.kind && y.toAsker == [] && y.answererSent == x.answererSent
            && y.askerRead == x.askerRead + [JudgeIn(x.version, Some(FirstOk(x.asker.kind)), again)]
  {
    hide Allowed, CanonList, SortedParameters;
    ArrivalKeepsJudgment(x.version, Some(FirstOk(x.asker.kind)), x.toAsker[0]);
  }

  /** The exact condition for two scopes fed any sends at all, over every run in either draft: they always
      agree on a stream if and only if the request that opened it is not one of the five answered with
      REQUEST_OK. HandlersAgree is what the library's own handlers get on those five too. */
  lemma AgreementIsExact(version: Version, kind: Kind)
    ensures (forall events | IsRun(Start(version), events) && Run(Start(version), events).asker.kind == TypeOf(kind)
               :: Agree(Run(Start(version), events)))
            <==> !OkAnswers(TypeOf(kind))
  {
    hide IsRun, Run, Allowed, JudgeIn, OkAnswers, QuietRun, TypeOf;
    if OkAnswers(TypeOf(kind)) {
      NoTokens(version, TypeOf(kind));
      AnsweredTwiceEnds(version, kind, AUTHORIZATION_TOKEN, []);
      var events := AnsweredTwice(kind, AUTHORIZATION_TOKEN, []);
      var x := Run(Start(version), events);
      assert x.askerRead[0] != x.answererSent[0];
    } else {
      forall events | IsRun(Start(version), events) && Run(Start(version), events).asker.kind == TypeOf(kind)
        ensures Agree(Run(Start(version), events))
      {
        KindStays(Start(version), events);
        EndsAgree(version, events);
      }
    }
  }

  /** No first REQUEST_OK may carry a token. */
  lemma NoTokens(version: Version, kind: U64)
    requires OkAnswers(kind)
    ensures AUTHORIZATION_TOKEN !in Allowed(version, FirstOk(kind)) && FirstOk(kind) != CtxRequestUpdateOk
    ensures Scoped(version, FirstOk(kind))
    ensures JudgeIn(version, Some(FirstOk(kind)), []).context == Some(FirstOk(kind))
  {
  }

  // ---- And which could refuse on arrival.

  /** The first answer to a TRACK_STATUS may carry what an update's may; where a message sits matters
      nowhere else on its stream. */
  lemma StatusAllowsAlike(version: Version, m: Msg, a: bool, b: bool)
    ensures var t := TypeOf(ControlMessages.TrackStatus);
            JudgeIn(version, ContextOf(ScopeState(t, true, a), m.kind, false), m.params).allowed <==>
            JudgeIn(version, ContextOf(ScopeState(t, true, b), m.kind, false), m.params).allowed
  {
    assert Allowed(version, CtxTrackStatusOk) == Allowed(version, CtxRequestUpdateOk);
  }

  /** On a TRACK_STATUS stream everything in flight will be let through. */
  predicate Passing(x: Exchange) {
    && x.asker.kind == TypeOf(ControlMessages.TrackStatus)
    && OpenedAlike(x) && NoneRefused(x)
    && (forall m | m in x.toAnswerer ::
          JudgeIn(x.version, ContextOf(ScopeState(x.asker.kind, true, false), m.kind, true), m.params).allowed)
    && (forall m | m in x.toAsker ::
          JudgeIn(x.version, ContextOf(ScopeState(x.asker.kind, true, false), m.kind, false), m.params).allowed)
  }

  lemma PassingKeeps(x: Exchange, e: Event)
    requires Passing(x) && Enabled(x, e)
    ensures Passing(Next(x, e))
  {
    hide ContextOf, JudgeIn, IsAnswer, CanonList, SortedParameters, TypeOf;
    OpeningKeeps(x, e);
    match e {
      case AskerSends(m) => ContextDependsOn(x.asker, m.kind, false);
      case AnswererSends(m) =>
        ContextDependsOn(x.answerer, m.kind, x.answerer.answered);
        StatusAllowsAlike(x.version, m, x.answerer.answered, false);
      case AnswererReads =>
        var m := x.toAnswerer[0];
        ContextDependsOn(OpenedBy(x.answerer, m.kind, false), m.kind, false);
        ArrivalKeepsJudgment(x.version, ContextOf(OpenedBy(x.answerer, m.kind, false), m.kind, true), m);
      case AskerReads =>
        var m := x.toAsker[0];
        ContextDependsOn(x.asker, m.kind, x.asker.answered);
        StatusAllowsAlike(x.version, m, x.asker.answered, false);
        ArrivalKeepsJudgment(x.version, ContextOf(x.asker, m.kind, false), m);
    }
  }

  lemma {:induction false} PassingRun(x: Exchange, events: seq<Event>)
    requires IsRun(x, events) && (x == Start(x.version) || Passing(x))
    requires Run(x, events).asker.kind == TypeOf(ControlMessages.TrackStatus)
    ensures NoneRefused(Run(x, events))
    decreases |events|
  {
    hide Passing, Next, Enabled, NoneRefused, TypeOf;
    if events == [] {
      StartRefusesNone(x);
    } else {
      var y := Next(x, events[0]);
      if x == Start(x.version) {
        FirstPasses(x, events);
      } else {
        PassingKeeps(x, events[0]);
      }
      PassingRun(y, events[1..]);
    }
  }

  lemma StartRefusesNone(x: Exchange)
    requires x == Start(x.version) || Passing(x)
    ensures NoneRefused(x)
  {
  }

  /** The first step of a run whose stream is opened by TRACK_STATUS in the end. */
  lemma FirstPasses(x: Exchange, events: seq<Event>)
    requires x == Start(x.version) && events != [] && IsRun(x, events)
    requires Run(x, events).asker.kind == TypeOf(ControlMessages.TrackStatus)
    ensures Next(x, events[0]) == x || Passing(Next(x, events[0]))
  {
    hide ContextOf, JudgeIn, IsAnswer, CanonList, SortedParameters, OkAnswers;
    OpeningKeeps(x, events[0]);
    var m := events[0].m;
    var y := Next(x, events[0]);
    KindStays(y, events[1..]);
    ContextDependsOn(OpenedBy(x.asker, m.kind, true), m.kind, false);
  }

  /** And so, for two scopes fed any sends at all: nothing that was sent is ever refused on arrival, which
      would close the session, if and only if the request that opened it is not PUBLISH, PUBLISH_NAMESPACE,
      SUBSCRIBE_NAMESPACE or SUBSCRIBE_TRACKS. */
  lemma RefusedOnArrivalExactly(version: Version, kind: Kind)
    ensures (forall events | IsRun(Start(version), events) && Run(Start(version), events).asker.kind == TypeOf(kind)
               :: NoneRefused(Run(Start(version), events)))
            <==> !OkAnswers(TypeOf(kind)) || kind.TrackStatus?
  {
    hide IsRun, Run, Allowed, JudgeIn, OkAnswers, QuietRun, TypeOf, Agree;
    if OkAnswers(TypeOf(kind)) && !kind.TrackStatus? {
      var again := [Blank(LARGEST_OBJECT)];
      NotInFirst(version, kind);
      AnsweredTwiceEnds(version, kind, LARGEST_OBJECT, again);
      var x := Run(Start(version), AnsweredTwice(kind, LARGEST_OBJECT, again));
      assert x.askerRead[0] in x.askerRead;
    } else {
      forall events | IsRun(Start(version), events) && Run(Start(version), events).asker.kind == TypeOf(kind)
        ensures NoneRefused(Run(Start(version), events))
      {
        if kind.TrackStatus? {
          PassingRun(Start(version), events);
        } else {
          KindStays(Start(version), events);
          EndsAgree(version, events);
          AgreeingRefusesNone(Run(Start(version), events));
        }
      }
    }
  }

  /** The first answers that may not report Largest Object. */
  predicate WithoutLargest(c: Context) {
    c.CtxPublishOk? || c.CtxPublishNamespaceOk? || c.CtxSubscribeNamespaceOk? || c.CtxSubscribeTracksOk?
  }

  lemma LargestNotIn(version: Version, c: Context)
    requires WithoutLargest(c)
    ensures LARGEST_OBJECT !in Allowed(version, c) && LARGEST_OBJECT in Allowed(version, CtxRequestUpdateOk)
  {
  }

  lemma FirstWithoutLargest(kind: Kind)
    requires OkAnswers(TypeOf(kind)) && !kind.TrackStatus?
    ensures WithoutLargest(FirstOk(TypeOf(kind)))
  {
  }

  /** An update's answer may report Largest Object; the first answer to such a request may not. */
  lemma NotInFirst(version: Version, kind: Kind)
    requires OkAnswers(TypeOf(kind)) && !kind.TrackStatus?
    ensures LARGEST_OBJECT !in Allowed(version, FirstOk(TypeOf(kind)))
    ensures AllInside(Allowed(version, CtxRequestUpdateOk), [Blank(LARGEST_OBJECT)])
    ensures !JudgeIn(version, Some(FirstOk(TypeOf(kind))), [Blank(LARGEST_OBJECT)]).allowed
  {
    hide Allowed, FirstOk, TypeOf, OkAnswers, WithoutLargest;
    FirstWithoutLargest(kind);
    LargestNotIn(version, FirstOk(TypeOf(kind)));
    assert Blank(LARGEST_OBJECT) in [Blank(LARGEST_OBJECT)];
  }
}
