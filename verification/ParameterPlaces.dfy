/** Where each Message Parameter may appear, told as its definition tells it: a list of
    messages, and of the requests whose updates and answers may carry it. What the scopes
    of a stream decide is proved to be that, for every message and every stream. */
module ParameterPlaces {
  import opened Wire
  import opened ControlMessages
  import opened ParameterScopes

  /** A message of its own; an update on a stream some request opened; the answer to that request; or the
      answer to an update. */
  datatype Place = Message(message: Kind) | UpdateOn(opener: Kind) | AnswerTo(opener: Kind) | UpdateAnswer

  predicate Subscribing(p: Place) {
    p in {Message(Subscribe), UpdateOn(Subscribe), UpdateOn(Publish)}
  }

  predicate AnyUpdate(p: Place) {
    p in {UpdateOn(Subscribe), UpdateOn(Publish), UpdateOn(Fetch), UpdateOn(PublishNamespace),
          UpdateOn(SubscribeNamespace), UpdateOn(SubscribeTracks)}
  }

  predicate AnyRequest(p: Place) {
    p in {Message(Subscribe), Message(Publish), Message(Fetch), Message(TrackStatus), Message(PublishNamespace),
          Message(SubscribeNamespace), Message(SubscribeTracks)}
  }

  /** Draft-18, by Type. */
  predicate In18(p: Place, typ: U64) {
    match typ
    case 0x02 => AnyUpdate(p) || p in {Message(Subscribe), AnswerTo(Publish)}
    case 0x03 => AnyUpdate(p) || AnyRequest(p)
    case 0x04 => p == Message(Subscribe)
    case 0x06 => AnyUpdate(p) || p in {Message(Subscribe), AnswerTo(Publish)}
    case 0x08 => p in {Message(SubscribeOk), Message(Publish), AnswerTo(Publish), AnswerTo(TrackStatus), UpdateAnswer}
    case 0x09 => p in {Message(SubscribeOk), Message(Publish), AnswerTo(TrackStatus), UpdateAnswer}
    case 0x0A => p == Message(Fetch)
    case 0x10 => Subscribing(p) || p in {Message(Publish), AnswerTo(Publish), Message(SubscribeTracks)}
    case 0x20 => Subscribing(p) || p in {AnswerTo(Publish), Message(Fetch), UpdateOn(Fetch)}
    case 0x21 => Subscribing(p) || p == AnswerTo(Publish)
    case 0x22 => p in {Message(Subscribe), AnswerTo(Publish), Message(Fetch)}
    case 0x32 => Subscribing(p) || p == AnswerTo(Publish)
    case 0x34 => p in {UpdateOn(SubscribeNamespace), UpdateOn(SubscribeTracks)}
    case _ => false
  }

  /** Draft-22, where SUBSCRIBE_TRACKS takes all that SUBSCRIBE does. */
  predicate In22(p: Place, typ: U64) {
    match typ
    case 0x02 => Subscribing(p) || p in {Message(SubscribeTracks), Message(Publish)}
    case 0x03 => AnyUpdate(p) || AnyRequest(p)
    case 0x04 => p in {Message(Subscribe), Message(SubscribeTracks)}
    case 0x06 => Subscribing(p) || p in {Message(SubscribeTracks), Message(Publish)}
    case 0x08 =>
      p in {Message(SubscribeOk), Message(Publish), UpdateAnswer, AnswerTo(Publish), AnswerTo(TrackStatus),
            AnswerTo(PublishNamespace), AnswerTo(SubscribeNamespace), AnswerTo(SubscribeTracks)}
    case 0x09 =>
      p in {Message(SubscribeOk), Message(Publish), Message(PublishStateNotify), AnswerTo(TrackStatus), UpdateAnswer}
    case 0x0A => p == Message(Fetch)
    case 0x10 =>
      || Subscribing(p)
      || p in {Message(SubscribeTracks), UpdateOn(SubscribeTracks), Message(Publish), Message(PublishStateNotify)}
    case 0x20 => Subscribing(p) || p in {Message(SubscribeTracks), Message(Publish), Message(Fetch), UpdateOn(Fetch)}
    case 0x21 =>
      || Subscribing(p)
      || p in {Message(SubscribeTracks), Message(Publish), Message(PublishStateNotify), Message(Fetch)}
    case 0x22 => p in {Message(Subscribe), Message(SubscribeTracks), Message(Publish), Message(Fetch)}
    case 0x23 => Subscribing(p) || p == Message(SubscribeTracks)
    case 0x25 => Subscribing(p) || p in {Message(SubscribeTracks), Message(Fetch)}
    case 0x26 => Subscribing(p) || p in {Message(SubscribeTracks), Message(Fetch)}
    case 0x27 => Subscribing(p) || p in {Message(SubscribeTracks), Message(Fetch)}
    case 0x28 => Subscribing(p) || p in {Message(SubscribeTracks), Message(Fetch)}
    case 0x29 => p in {Message(SubscribeTracks), UpdateOn(SubscribeTracks)}
    case 0x32 => Subscribing(p) || p == Message(SubscribeTracks)
    case 0x34 => p in {UpdateOn(SubscribeNamespace), UpdateOn(SubscribeTracks)}
    case 0x35 => p in {Message(Subscribe), Message(SubscribeTracks), Message(Fetch), Message(TrackStatus)}
    case _ => false
  }

  predicate MayCarry(version: Version, place: Place, typ: U64) {
    match version case Draft18 => In18(place, typ) case Draft22 => In22(place, typ)
  }

  /** The place of a message on a stream, if its parameters have one. A REQUEST_OK from the side that was
      asked is the request's answer if it is the first answer and the request has such an answer at all;
      every other answers an update. */
  function PlaceOf(opener: Kind, answered: bool, fromRequester: bool, message: Kind): Option<Place> {
    match message
    case RequestUpdate =>
      if opener in {Subscribe, Publish, Fetch, PublishNamespace, SubscribeNamespace, SubscribeTracks}
        then Some(UpdateOn(opener)) else None
    case RequestOk => Some(OkPlace(opener, answered, fromRequester))
    case PublishOk => Some(OkPlace(opener, answered, fromRequester))
    case _ =>
      if message in {Subscribe, SubscribeOk, Publish, Fetch, FetchOk, TrackStatus, PublishNamespace, SubscribeNamespace,
                     SubscribeTracks, PublishStateNotify}
        then Some(Message(message)) else None
  }

  function OkPlace(opener: Kind, answered: bool, fromRequester: bool): Place {
    if !fromRequester && !answered
       && opener in {Publish, TrackStatus, PublishNamespace, SubscribeNamespace, SubscribeTracks}
      then AnswerTo(opener) else UpdateAnswer
  }

  /** The context of a place. */
  function ContextFor(p: Place): Option<Context> {
    match p
    case Message(Subscribe) => Some(CtxSubscribe)
    case Message(SubscribeOk) => Some(CtxSubscribeOk)
    case Message(Publish) => Some(CtxPublish)
    case Message(PublishStateNotify) => Some(CtxPublishStateNotify)
    case Message(Fetch) => Some(CtxFetch)
    case Message(FetchOk) => Some(CtxFetchOk)
    case Message(TrackStatus) => Some(CtxTrackStatus)
    case Message(PublishNamespace) => Some(CtxPublishNamespace)
    case Message(SubscribeNamespace) => Some(CtxSubscribeNamespace)
    case Message(SubscribeTracks) => Some(CtxSubscribeTracks)
    case UpdateOn(Subscribe) => Some(CtxUpdateSubscription)
    case UpdateOn(Publish) => Some(CtxUpdateSubscription)
    case UpdateOn(Fetch) => Some(CtxUpdateFetch)
    case UpdateOn(PublishNamespace) => Some(CtxUpdatePublishNamespace)
    case UpdateOn(SubscribeNamespace) => Some(CtxUpdateSubscribeNamespace)
    case UpdateOn(SubscribeTracks) => Some(CtxUpdateSubscribeTracks)
    case AnswerTo(Publish) => Some(CtxPublishOk)
    case AnswerTo(TrackStatus) => Some(CtxTrackStatusOk)
    case AnswerTo(PublishNamespace) => Some(CtxPublishNamespaceOk)
    case AnswerTo(SubscribeNamespace) => Some(CtxSubscribeNamespaceOk)
    case AnswerTo(SubscribeTracks) => Some(CtxSubscribeTracksOk)
    case UpdateAnswer => Some(CtxRequestUpdateOk)
    case _ => None
  }

  // ---- The scope tables are those lists, the other way round.

  lemma Subscribes18(p: Place, typ: U64)
    requires (p == Message(Subscribe) || p == Message(SubscribeTracks)) && ContextFor(p).Some?
    ensures MayCarry(Draft18, p, typ) <==> typ in Allowed18(ContextFor(p).value)
  {
  }

  lemma Messages18(p: Place, typ: U64)
    requires p.Message? && p != Message(Subscribe) && p != Message(SubscribeTracks) && ContextFor(p).Some?
    ensures MayCarry(Draft18, p, typ) <==> typ in Allowed18(ContextFor(p).value)
  {
  }

  lemma Subscriptions18(p: Place, typ: U64)
    requires (p == UpdateOn(Subscribe) || p == UpdateOn(Publish)) && ContextFor(p).Some?
    ensures MayCarry(Draft18, p, typ) <==> typ in Allowed18(ContextFor(p).value)
  {
  }

  lemma Updates18(p: Place, typ: U64)
    requires p.UpdateOn? && p != UpdateOn(Subscribe) && p != UpdateOn(Publish) && ContextFor(p).Some?
    ensures MayCarry(Draft18, p, typ) <==> typ in Allowed18(ContextFor(p).value)
  {
  }

  lemma Answers18(p: Place, typ: U64)
    requires (p.AnswerTo? || p.UpdateAnswer?) && ContextFor(p).Some?
    ensures MayCarry(Draft18, p, typ) <==> typ in Allowed18(ContextFor(p).value)
  {
  }

  lemma Subscribes22(p: Place, typ: U64)
    requires (p == Message(Subscribe) || p == Message(SubscribeTracks)) && ContextFor(p).Some?
    ensures MayCarry(Draft22, p, typ) <==> typ in Allowed22(ContextFor(p).value)
  {
  }

  lemma Messages22(p: Place, typ: U64)
    requires p.Message? && p != Message(Subscribe) && p != Message(SubscribeTracks) && ContextFor(p).Some?
    ensures MayCarry(Draft22, p, typ) <==> typ in Allowed22(ContextFor(p).value)
  {
  }

  lemma Subscriptions22(p: Place, typ: U64)
    requires (p == UpdateOn(Subscribe) || p == UpdateOn(Publish)) && ContextFor(p).Some?
    ensures MayCarry(Draft22, p, typ) <==> typ in Allowed22(ContextFor(p).value)
  {
  }

  lemma Updates22(p: Place, typ: U64)
    requires p.UpdateOn? && p != UpdateOn(Subscribe) && p != UpdateOn(Publish) && ContextFor(p).Some?
    ensures MayCarry(Draft22, p, typ) <==> typ in Allowed22(ContextFor(p).value)
  {
  }

  lemma Answers22(p: Place, typ: U64)
    requires (p.AnswerTo? || p.UpdateAnswer?) && ContextFor(p).Some?
    ensures MayCarry(Draft22, p, typ) <==> typ in Allowed22(ContextFor(p).value)
  {
  }

  /** A context admits a Type exactly when the definition of the parameter lists the place. */
  lemma TablesAreLists(version: Version, p: Place, typ: U64)
    requires ContextFor(p).Some?
    ensures MayCarry(version, p, typ) <==> typ in Allowed(version, ContextFor(p).value)
  {
    hide MayCarry, ContextFor, Allowed18, Allowed22;
    match p {
      case Message(k) =>
        if k.Subscribe? || k.SubscribeTracks? {
          Subscribes18(p, typ);
          Subscribes22(p, typ);
        } else {
          Messages18(p, typ);
          Messages22(p, typ);
        }
      case UpdateOn(k) =>
        if k.Subscribe? || k.Publish? {
          Subscriptions18(p, typ);
          Subscriptions22(p, typ);
        } else {
          Updates18(p, typ);
          Updates22(p, typ);
        }
      case _ =>
        Answers18(p, typ);
        Answers22(p, typ);
    }
  }

  // ---- What a scope decides.

  lemma PlacesAreContexts(opener: Kind, requester: bool, answered: bool, message: Kind, fromRequester: bool)
    ensures var p := PlaceOf(opener, answered, fromRequester, message);
            ContextOf(ScopeState(TypeOf(opener), requester, answered), message, fromRequester) ==
            if p.None? then None else ContextFor(p.value)
    ensures var p := PlaceOf(opener, answered, fromRequester, message);
            p.Some? ==>
              && ContextFor(p.value).Some?
              && (ContextFor(p.value) == Some(CtxPublishStateNotify) <==> message.PublishStateNotify?)
  {
  }

  /** Whether a message may be sent on a stream, by its parameters' definitions: what its place allows.
      Draft-18 has no PUBLISH_STATE_NOTIFY. */
  predicate MaySend(version: Version, opener: Kind, answered: bool, fromRequester: bool, m: Msg) {
    var p := PlaceOf(opener, answered, fromRequester, m.kind);
    p.Some? ==> !(version.Draft18? && m.kind.PublishStateNotify?) && forall q | q in m.params :: MayCarry(version, p.value, q.typ)
  }

  lemma JudgedByPlace(version: Version, opener: Kind, requester: bool, answered: bool, m: Msg, sending: bool)
    ensures Judge(version, ScopeState(TypeOf(opener), requester, answered), m, sending).allowed <==>
            MaySend(version, opener, answered, sending == requester, m)
  {
    hide MayCarry, PlaceOf, ContextOf, ContextFor, TypeOf, Allowed;
    var p := PlaceOf(opener, answered, sending == requester, m.kind);
    PlacesAreContexts(opener, requester, answered, m.kind, sending == requester);
    if p.Some? {
      forall q | q in m.params
        ensures MayCarry(version, p.value, q.typ) <==> q.typ in Allowed(version, ContextFor(p.value).value)
      {
        TablesAreLists(version, p.value, q.typ);
      }
    }
  }

  /** What one end of a stream has seen: each message, and whether this end sent it. */
  type Seen = seq<(Msg, bool)>

  /** The scope after all that. */
  function After(seen: Seen): ScopeState {
    if seen == [] then UNOPENED
    else Moved(After(seen[..|seen| - 1]), seen[|seen| - 1].0, seen[|seen| - 1].1)
  }

  /** The `n`th message is an answer from the end that did not open the stream. */
  predicate AnswerAt(seen: Seen, n: nat) {
    && 0 < n < |seen| && seen[n].1 != seen[0].1
    && seen[n].0.kind in {SubscribeOk, FetchOk, RequestOk, PublishOk, RequestError}
  }

  ghost predicate Answered(seen: Seen) {
    exists n :: AnswerAt(seen, n)
  }

  /** The scope has the first message's kind and sender, and knows whether there was an answer since. */
  lemma {:induction false} AfterIs(seen: Seen)
    requires seen != []
    ensures After(seen) == ScopeState(TypeOf(seen[0].0.kind), seen[0].1, Answered(seen))
  {
    hide TypeOf;
    var n := |seen| - 1;
    var before := seen[..n];
    if n > 0 {
      AfterIs(before);
      assert forall k: nat | k < n :: AnswerAt(before, k) == AnswerAt(seen, k);
      assert Answered(seen) <==> Answered(before) || AnswerAt(seen, n);
    } else {
      assert before == [];
    }
  }

  /** The verdict on any message, after any messages, at either end: what the definitions of its parameters
      list, given what opened the stream and whether that was answered. */
  lemma VerdictIsByDefinition(version: Version, seen: Seen, m: Msg, sending: bool)
    ensures Judge(version, After(seen), m, sending).allowed <==>
            if seen == [] then MaySend(version, m.kind, false, true, m)
            else MaySend(version, seen[0].0.kind, Answered(seen), sending == seen[0].1, m)
  {
    hide MaySend, ContextOf, TypeOf, Answered;
    if seen == [] {
      JudgedByPlace(version, m.kind, sending, false, m, sending);
      assert Judge(version, UNOPENED, m, sending)
             == Judge(version, ScopeState(TypeOf(m.kind), sending, false), m, sending);
    } else {
      AfterIs(seen);
      JudgedByPlace(version, seen[0].0.kind, seen[0].1, Answered(seen), m, sending);
    }
  }
}
