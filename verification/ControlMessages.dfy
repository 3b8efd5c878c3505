/** The control messages: which exist where, their declarations, and FETCH, whose
    draft-18 body depends on one of its own fields. */
module ControlMessages {
  import opened Wire
  import opened Vi64
  import opened FieldLists
  import opened LocationFilters
  import opened Wiregen
  import Parameters
  import ParameterRoundTrips

  datatype Kind =
    | Setup | GoAwayCtrl | GoAwayReq
    | Subscribe | SubscribeOk | Publish | PublishOk | PublishDone | PublishStateNotify
    | Fetch | FetchOk | TrackStatus
    | PublishNamespace | SubscribeNamespace | SubscribeTracks | Namespace | NamespaceDone | PublishSkipped
    | RequestUpdate | RequestOk | RequestError

  datatype Scope = Control | Request

  function MessageType(k: Kind): U64 {
    match k
    case Setup => 0x2F00
    case GoAwayCtrl => 0x10
    case GoAwayReq => 0x10
    case Subscribe => 0x3
    case SubscribeOk => 0x4
    case Publish => 0x1D
    case PublishOk => 0x1E
    case PublishDone => 0xB
    case PublishStateNotify => 0x22
    case Fetch => 0x16
    case FetchOk => 0x18
    case TrackStatus => 0xD
    case PublishNamespace => 0x6
    case SubscribeNamespace => 0x50
    case SubscribeTracks => 0x51
    case Namespace => 0x8
    case NamespaceDone => 0xE
    case PublishSkipped => 0xF
    case RequestUpdate => 0x2
    case RequestOk => 0x7
    case RequestError => 0x5
  }

  /** The message a type names on a stream of some scope. */
  function NewMessage(scope: Scope, t: U64, version: Version): Result<Kind> {
    if scope.Control? then
      if t == 0x2F00 then Success(Setup) else if t == 0x10 then Success(GoAwayCtrl) else Failure(UnknownMessage(t))
    else if t == 0x10 then Success(GoAwayReq)
    else if t == 0x3 then Success(Subscribe)
    else if t == 0x4 then Success(SubscribeOk)
    else if t == 0x1D then Success(Publish)
    else if t == 0x1E && version.Draft18? then Success(PublishOk)
    else if t == 0xB then Success(PublishDone)
    else if t == 0x22 && version.Draft22? then Success(PublishStateNotify)
    else if t == 0x16 then Success(Fetch)
    else if t == 0x18 then Success(FetchOk)
    else if t == 0xD then Success(TrackStatus)
    else if t == 0x6 then Success(PublishNamespace)
    else if t == 0x50 then Success(SubscribeNamespace)
    else if t == 0x51 then Success(SubscribeTracks)
    else if t == 0x8 then Success(Namespace)
    else if t == 0xE then Success(NamespaceDone)
    else if t == 0xF then Success(PublishSkipped)
    else if t == 0x2 then Success(RequestUpdate)
    else if t == 0x7 then Success(RequestOk)
    else if t == 0x5 then Success(RequestError)
    else Failure(UnknownMessage(t))
  }

  predicate InDraft(k: Kind, version: Version) {
    match k
    case PublishOk => version.Draft18?
    case PublishStateNotify => version.Draft22?
    case _ => true
  }

  /** The messages a stream of this scope carries in this draft. */
  predicate Carried(k: Kind, scope: Scope, version: Version) {
    InDraft(k, version) && (k in {Setup, GoAwayCtrl} <==> scope.Control?)
  }

  /** Dispatch finds a message by its type exactly when the stream carries it. */
  lemma DispatchIsExact(k: Kind, t: U64, scope: Scope, version: Version)
    ensures NewMessage(scope, t, version) == Success(k) <==> MessageType(k) == t && Carried(k, scope, version)
  {
  }

  // ---- Declarations.

  function Always(tag: Tag): FieldDecl {
    FieldDecl(tag, {})
  }

  const NAMESPACE := Always(NtlvTag(MAX_NAMESPACE_FIELDS))
  const NAME := Always(TlvTag(0))
  const NUMBER := Always(VarintTag)
  const PARAMETERS := Always(ParamsTag)
  const PROPERTIES := Always(PairsToEnd)
  const URI := Always(TlvTag(8192))
  const REASON := Always(TlvTag(1024))
  const LOCATION := Always(LocationTag)

  function Declared(k: Kind): Declaration
    requires !k.Fetch?
  {
    match k
    case Setup => [PROPERTIES]
    case GoAwayCtrl => [URI, NUMBER, FieldDecl(VarintTag, {Draft18})]
    case GoAwayReq => [URI, NUMBER]
    case Subscribe => [NUMBER, NAMESPACE, NAME, PARAMETERS]
    case SubscribeOk => [NUMBER, PARAMETERS, PROPERTIES]
    case Publish => [NUMBER, NAMESPACE, NAME, NUMBER, PARAMETERS, PROPERTIES]
    case PublishOk => [PARAMETERS, PROPERTIES]
    case PublishDone => [NUMBER, NUMBER, REASON]
    case PublishStateNotify => [PARAMETERS]
    case FetchOk => [Always(BoolTag), LOCATION, PARAMETERS, PROPERTIES]
    case TrackStatus => [NUMBER, NAMESPACE, NAME, PARAMETERS]
    case PublishNamespace => [NUMBER, NAMESPACE, PARAMETERS]
    case SubscribeNamespace => [NUMBER, NAMESPACE, PARAMETERS]
    case SubscribeTracks => [NUMBER, NAMESPACE, PARAMETERS]
    case Namespace => [NAMESPACE]
    case NamespaceDone => [NAMESPACE]
    case PublishSkipped => [NAMESPACE, NAME]
    case RequestUpdate => [NUMBER, PARAMETERS]
    case RequestOk => [PARAMETERS, PROPERTIES]
    case RequestError => [NUMBER, NUMBER, REASON, Always(RedirectToEnd)]
  }

  predicate Plain(f: FieldDecl) {
    !RunsToEnd(f.tag)
  }

  lemma {:induction false} PlainThenLast(decl: Declaration, version: Version)
    requires forall n | 0 <= n < |decl| - 1 :: Plain(decl[n])
    ensures EndsLast(decl, version)
  {
    if decl != [] {
      PlainThenLast(decl[1..], version);
      if |decl| == 1 {
        assert decl[1..] == [];
      }
    }
  }

  /** Every declaration in the set has its run-to-end field, if any, last, and has a field on the wire. */
  lemma DeclarationsEndLast(k: Kind, version: Version)
    requires !k.Fetch?
    ensures EndsLast(Declared(k), version) && HasWire(Declared(k), version)
  {
    PlainThenLast(Declared(k), version);
    assert Declared(k)[0] in Declared(k) && OnWire(Declared(k)[0], version);
  }

  // ---- FETCH, whose codec is written by hand.

  const STANDALONE: U64 := 1
  const RELATIVE_JOINING: U64 := 2
  const ABSOLUTE_JOINING: U64 := 3

  datatype FetchMessage = FetchMessage(
    requestId: U64, fetchType: U64, namespace: Fields, name: Bytes, start: Location, end: Location,
    joining: Option<(U64, U64)>, params: Parameters.ParameterList)

  const STANDALONE_18: Declaration := [NUMBER, NUMBER, NAMESPACE, NAME, LOCATION, LOCATION, PARAMETERS]
  const JOINING_18: Declaration := [NUMBER, NUMBER, NUMBER, NUMBER, PARAMETERS]
  const FETCH_22: Declaration := [NUMBER, NAMESPACE, NAME, PARAMETERS]

  function Standalone18(m: FetchMessage): (v: seq<Value>)
    ensures Typed(STANDALONE_18, v)
  {
    [Integer(m.requestId), Integer(m.fetchType), List(m.namespace), Octets(m.name), Place(m.start), Place(m.end), Params(m.params)]
  }

  function Joining18(m: FetchMessage): (v: seq<Value>)
    requires m.joining.Some?
    ensures Typed(JOINING_18, v)
  {
    [Integer(m.requestId), Integer(m.fetchType), Integer(m.joining.value.0), Integer(m.joining.value.1), Params(m.params)]
  }

  function Fields22(m: FetchMessage): (v: seq<Value>)
    ensures Typed(FETCH_22, v)
  {
    [Integer(m.requestId), List(m.namespace), Octets(m.name), Params(m.params)]
  }

  predicate JoiningType(t: U64) {
    t == RELATIVE_JOINING || t == ABSOLUTE_JOINING
  }

  /** The fields the body carries, if the message can be written at all. */
  function FetchBody(m: FetchMessage, version: Version): (r: Result<(Declaration, seq<Value>)>)
    ensures r.Success? ==> Typed(r.value.0, r.value.1)
  {
    if version.Draft22? then
      if m.fetchType != STANDALONE && m.fetchType != 0 then Failure(JoiningFetchNotInDraft)
      else Success((FETCH_22, Fields22(m)))
    else if m.fetchType == STANDALONE then Success((STANDALONE_18, Standalone18(m)))
    else if !JoiningType(m.fetchType) then Failure(InvalidFetchType)
    else if m.joining.None? then Failure(JoiningFetchWithoutSubscription)
    else Success((JOINING_18, Joining18(m)))
  }

  function FetchBytes(m: FetchMessage, version: Version): Result<Bytes> {
    match FetchBody(m, version)
    case Failure(e) => Failure(e)
    case Success((decl, values)) => BodyBytes(decl, values, version)
  }

  function FromStandalone18(v: seq<Value>): FetchMessage
    requires Typed(STANDALONE_18, v)
  {
    FetchMessage(v[0].n, v[1].n, v[2].list, v[3].b, v[4].location, v[5].location, None, v[6].params)
  }

  function FromJoining18(v: seq<Value>): FetchMessage
    requires Typed(JOINING_18, v)
  {
    FetchMessage(v[0].n, v[1].n, [], [], ORIGIN, ORIGIN, Some((v[2].n, v[3].n)), v[4].params)
  }

  function FromFields22(v: seq<Value>): FetchMessage
    requires Typed(FETCH_22, v)
  {
    FetchMessage(v[0].n, STANDALONE, v[1].list, v[2].b, ORIGIN, ORIGIN, None, v[3].params)
  }

  /** The Fetch Type in a draft-18 body: its second integer. */
  function FetchTypeAt(s: Bytes): Parsed<U64> {
    var (id, j) :- Vi64At(s, 0);
    Vi64At(s, j)
  }

  function ParsedBody(decl: Declaration, s: Bytes, version: Version): (r: Result<seq<Value>>)
    ensures r.Success? ==> Typed(decl, r.value)
  {
    ParseBody(decl, s, version)
  }

  function ParseFetch(s: Bytes, version: Version): Result<FetchMessage> {
    if version.Draft22? then
      var v := ParsedBody(FETCH_22, s, version);
      if v.Failure? then Failure(v.error) else Success(FromFields22(v.value))
    else
      match FetchTypeAt(s)
      case Err(e) => Failure(e)
      case Ok(t, _) =>
        if t == STANDALONE then
          var v := ParsedBody(STANDALONE_18, s, version);
          if v.Failure? then Failure(v.error) else Success(FromStandalone18(v.value))
        else if JoiningType(t) then
          var v := ParsedBody(JOINING_18, s, version);
          if v.Failure? then Failure(v.error) else Success(FromJoining18(v.value))
        else Failure(InvalidFetchType)
  }

  /** The FETCH as it is received: only what its type carries, parameters sorted. */
  function CanonFetch(m: FetchMessage, version: Version): FetchMessage {
    var params := ParameterRoundTrips.CanonList(
      Parameters.SortedParameters(m.params), Parameters.TopLevel(version), version);
    if version.Draft22? then
      m.(fetchType := STANDALONE, start := ORIGIN, end := ORIGIN, joining := None, params := params)
    else if m.fetchType == STANDALONE then m.(joining := None, params := params)
    else m.(namespace := [], name := [], start := ORIGIN, end := ORIGIN, params := params)
  }

  predicate StorableFetch(m: FetchMessage, version: Version) {
    FetchBody(m, version).Success? ==>
      StorableValues(FetchBody(m, version).value.0, FetchBody(m, version).value.1, version)
  }

  predicate LegalFetch(m: FetchMessage, version: Version) {
    FetchBody(m, version).Success? ==>
      LegalValues(FetchBody(m, version).value.0, FetchBody(m, version).value.1, version)
  }

  lemma FetchDeclarationsEndLast(version: Version)
    ensures EndsLast(STANDALONE_18, version) && EndsLast(JOINING_18, version) && EndsLast(FETCH_22, version)
    ensures HasWire(STANDALONE_18, version) && HasWire(JOINING_18, version) && HasWire(FETCH_22, version)
  {
    PlainThenLast(STANDALONE_18, version);
    PlainThenLast(JOINING_18, version);
    PlainThenLast(FETCH_22, version);
    assert STANDALONE_18[0] in STANDALONE_18 && JOINING_18[0] in JOINING_18 && FETCH_22[0] in FETCH_22;
  }

  /** The Fetch Type can be told from the front of a body that starts with two integers. */
  lemma FetchTypeReads(decl: Declaration, values: seq<Value>, version: Version)
    requires Typed(decl, values) && |decl| >= 2 && decl[0] == NUMBER && decl[1] == NUMBER
    requires BodyBytes(decl, values, version).Success?
    ensures FetchTypeAt(BodyBytes(decl, values, version).value).Ok?
    ensures FetchTypeAt(BodyBytes(decl, values, version).value).value == values[1].n
  {
    hide Vi64At, Append, Len;
    var s := BodyBytes(decl, values, version).value;
    var b0, b1 := Append(values[0].n), Append(values[1].n);
    var tail := BodyBytes(decl[1..], values[1..], version).value;
    assert decl[1..][0] == decl[1] && values[1..][0] == values[1];
    var rest := BodyBytes(decl[1..][1..], values[1..][1..], version).value;
    assert tail == b1 + rest;
    assert s == b0 + tail;
    FilterCodec.WholeIsThere(s);
    HasSplit(s, 0, b0, tail);
    HasSplit(s, |b0|, b1, rest);
    AppendReads(values[0].n, s, 0);
    AppendReads(values[1].n, s, |b0|);
  }

  lemma TypeIsSecond(m: FetchMessage)
    requires FetchBody(m, Draft18).Success?
    ensures var (decl, values) := FetchBody(m, Draft18).value;
            |decl| >= 2 && decl[0] == NUMBER && decl[1] == NUMBER && values[1] == Integer(m.fetchType)
  {
  }

  lemma CanonMatches(m: FetchMessage, version: Version)
    requires FetchBody(m, version).Success?
    ensures var (decl, values) := FetchBody(m, version).value;
            var c := CanonValues(decl, values, version);
            CanonFetch(m, version) ==
            if version.Draft22? then FromFields22(c)
            else if m.fetchType == STANDALONE then FromStandalone18(c) else FromJoining18(c)
  {
    hide ParameterRoundTrips.CanonList, Parameters.SortedParameters;
  }

  /** A FETCH that can be written reads back as its canonical form exactly when its fields are within bounds. */
  lemma FetchRoundTrip(m: FetchMessage, version: Version)
    requires FetchBytes(m, version).Success? && StorableFetch(m, version)
    ensures var s := FetchBytes(m, version).value;
            if LegalFetch(m, version) then ParseFetch(s, version) == Success(CanonFetch(m, version))
            else ParseFetch(s, version).Failure?
  {
    hide BodyBytes, ParseBody, LegalValues, StorableValues, EndsLast, HasWire;
    hide CanonFetch, CanonValues, FromFields22, FromStandalone18, FromJoining18, Fields22, Standalone18, Joining18;
    var (decl, values) := FetchBody(m, version).value;
    CanonMatches(m, version);
    FetchDeclarationsEndLast(version);
    BodyRoundTrip(decl, values, version);
    if version.Draft18? {
      TypeIsSecond(m);
      FetchTypeReads(decl, values, version);
    }
  }

  // ---- Read, then written.

  /** The Fetch Type read ahead is the one in the body. */
  lemma FetchTypeIsSecond(decl: Declaration, s: Bytes, version: Version)
    requires |decl| >= 2 && decl[0] == NUMBER && decl[1] == NUMBER && ParseBody(decl, s, version).Success?
    ensures FetchTypeAt(s).Ok? && FetchTypeAt(s).value == ParsedBody(decl, s, version).value[1].n
  {
    hide Vi64At;
    var (id, j) := OptionalFieldAt(decl[0], s, 0, version).Extract();
    assert decl[1..][0] == NUMBER;
    var rest := BodyAt(decl[1..], s, j, version);
    var t := OptionalFieldAt(decl[1], s, j, version);
    assert rest.value == [t.value] + BodyAt(decl[1..][1..], s, t.end, version).value;
  }

  /** Taking a FETCH apart into fields and putting it together loses nothing. */
  lemma FetchFromFields(version: Version, decl: Declaration, v: seq<Value>, m: FetchMessage)
    requires Typed(decl, v)
    requires if version.Draft22? then decl == FETCH_22 && m == FromFields22(v)
             else if decl == STANDALONE_18 then m == FromStandalone18(v) && m.fetchType == STANDALONE
             else decl == JOINING_18 && m == FromJoining18(v) && JoiningType(m.fetchType)
    ensures FetchBody(m, version) == Success((decl, v))
  {
    if version.Draft22? {
      assert Fields22(m) == v;
    } else if m.fetchType == STANDALONE {
      assert decl == STANDALONE_18;
      assert Standalone18(m) == v;
    } else {
      assert Joining18(m) == v;
    }
  }

  /** Which declaration a FETCH was read by. */
  function FetchDeclaration(m: FetchMessage, version: Version): Declaration {
    if version.Draft22? then FETCH_22 else if m.fetchType == STANDALONE then STANDALONE_18 else JOINING_18
  }

  lemma FetchWasParsed(s: Bytes, version: Version)
    requires ParseFetch(s, version).Success?
    ensures var m := ParseFetch(s, version).value;
            var decl := FetchDeclaration(m, version);
            && ParseBody(decl, s, version).Success?
            && var v := ParsedBody(decl, s, version).value;
            && FetchBody(m, version) == Success((decl, v))
            && m == (if version.Draft22? then FromFields22(v)
                     else if m.fetchType == STANDALONE then FromStandalone18(v) else FromJoining18(v))
            && (version.Draft18? && m.fetchType != STANDALONE ==> JoiningType(m.fetchType))
  {
    hide ParseBody, FetchTypeAt, FetchBody;
    if version.Draft22? {
      FetchFromFields(version, FETCH_22, ParsedBody(FETCH_22, s, version).value, ParseFetch(s, version).value);
    } else if FetchTypeAt(s).value == STANDALONE {
      FetchTypeIsSecond(STANDALONE_18, s, version);
      FetchFromFields(version, STANDALONE_18, ParsedBody(STANDALONE_18, s, version).value, ParseFetch(s, version).value);
    } else {
      FetchTypeIsSecond(JOINING_18, s, version);
      FetchFromFields(version, JOINING_18, ParsedBody(JOINING_18, s, version).value, ParseFetch(s, version).value);
    }
  }

  /** Whatever FETCH is accepted can be written again in no more bytes and is accepted as the same. */
  lemma FetchCanonicalisation(s: Bytes, version: Version)
    requires ParseFetch(s, version).Success?
    ensures var m := ParseFetch(s, version).value;
            && FetchBytes(m, version).Success? && |FetchBytes(m, version).value| <= |s|
            && ParseFetch(FetchBytes(m, version).value, version) == Success(m)
  {
    hide BodyBytes, ParseBody, BodyAt, EndsLast, HasWire, FetchTypeAt, FetchBody;
    hide FromFields22, FromStandalone18, FromJoining18;
    var m := ParseFetch(s, version).value;
    var decl := FetchDeclaration(m, version);
    FetchWasParsed(s, version);
    FetchDeclarationsEndLast(version);
    BodyCanonicalisation(decl, s, version);
    if version.Draft18? {
      TypeIsSecond(m);
      FetchTypeReads(decl, ParseBody(decl, s, version).value, version);
    }
  }

  // ---- Any message.

  datatype Message = Generated(kind: Kind, values: seq<Value>) | FetchRequest(fetch: FetchMessage)

  function KindOf(m: Message): Kind {
    if m.Generated? then m.kind else Fetch
  }

  /** The struct has the fields its declaration says. */
  predicate WellTyped(m: Message) {
    m.Generated? ==> !m.kind.Fetch? && Typed(Declared(m.kind), m.values)
  }

  function MessageBody(m: Message, version: Version): Result<Bytes>
    requires WellTyped(m)
  {
    match m
    case FetchRequest(f) => FetchBytes(f, version)
    case Generated(k, values) =>
      if !InDraft(k, version) then Failure(MessageNotInDraft) else BodyBytes(Declared(k), values, version)
  }

  function ParseMessage(k: Kind, s: Bytes, version: Version): Result<Message> {
    if k.Fetch? then
      match ParseFetch(s, version)
      case Failure(e) => Failure(e)
      case Success(f) => Success(FetchRequest(f))
    else if !InDraft(k, version) then Failure(MessageNotInDraft)
    else
      match ParseBody(Declared(k), s, version)
      case Failure(e) => Failure(e)
      case Success(values) => Success(Generated(k, values))
  }

  predicate Storable(m: Message, version: Version)
    requires WellTyped(m)
  {
    match m
    case FetchRequest(f) => StorableFetch(f, version)
    case Generated(k, values) => StorableValues(Declared(k), values, version)
  }

  predicate Legal(m: Message, version: Version)
    requires WellTyped(m)
  {
    match m
    case FetchRequest(f) => LegalFetch(f, version)
    case Generated(k, values) => LegalValues(Declared(k), values, version)
  }

  function CanonMessage(m: Message, version: Version): Message
    requires WellTyped(m)
  {
    match m
    case FetchRequest(f) => FetchRequest(CanonFetch(f, version))
    case Generated(k, values) => Generated(k, CanonValues(Declared(k), values, version))
  }

  lemma MessageRoundTrip(m: Message, version: Version)
    requires WellTyped(m) && MessageBody(m, version).Success? && Storable(m, version)
    ensures var s := MessageBody(m, version).value;
            if Legal(m, version) then ParseMessage(KindOf(m), s, version) == Success(CanonMessage(m, version))
            else ParseMessage(KindOf(m), s, version).Failure?
  {
    hide BodyBytes, ParseBody, LegalValues, StorableValues, EndsLast, HasWire, FetchBytes, ParseFetch, LegalFetch, StorableFetch;
    hide Declared, Typed, CanonFetch;
    match m
    case FetchRequest(f) => FetchRoundTrip(f, version);
    case Generated(k, values) =>
      DeclarationsEndLast(k, version);
      BodyRoundTrip(Declared(k), values, version);
  }

  /** Whatever body is accepted as a message can be written again in no more bytes and is accepted as the
      same message: for every kind, in either draft. */
  lemma MessageCanonicalisation(k: Kind, s: Bytes, version: Version)
    requires ParseMessage(k, s, version).Success?
    ensures var m := ParseMessage(k, s, version).value;
            && WellTyped(m) && KindOf(m) == k
            && MessageBody(m, version).Success? && |MessageBody(m, version).value| <= |s|
            && ParseMessage(k, MessageBody(m, version).value, version) == Success(m)
  {
    hide BodyBytes, ParseBody, BodyAt, EndsLast, HasWire, FetchBytes, ParseFetch, Declared;
    if k.Fetch? {
      FetchCanonicalisation(s, version);
    } else {
      DeclarationsEndLast(k, version);
      BodyCanonicalisation(Declared(k), s, version);
    }
  }

  // ---- The codecs run.

  method AppendBody(buf: Bytes, m: Message, version: Version) returns (res: Result<Bytes>)
    requires WellTyped(m)
    ensures match MessageBody(m, version)
            case Success(b) => res == Success(buf + b)
            case Failure(e) => res == Failure(e)
  {
    hide BodyBytes;
    match m {
      case FetchRequest(f) =>
        var body := FetchBody(f, version);
        if body.Failure? {
          return Failure(body.error);
        }
        res := EmittedAppend(buf, body.value.0, body.value.1, version);
      case Generated(k, values) =>
        if !InDraft(k, version) {
          return Failure(MessageNotInDraft);
        }
        res := EmittedAppend(buf, Declared(k), values, version);
    }
  }

  method ParseMessageBody(k: Kind, s: Bytes, version: Version) returns (res: Result<Message>)
    ensures res == ParseMessage(k, s, version)
  {
    hide ParseBody, ParseFetch, Declared;
    if k.Fetch? {
      var f := ParseFetch(s, version);
      return if f.Failure? then Failure(f.error) else Success(FetchRequest(f.value));
    }
    if !InDraft(k, version) {
      return Failure(MessageNotInDraft);
    }
    var values := EmittedParse(Declared(k), s, version);
    return if values.Failure? then Failure(values.error) else Success(Generated(k, values.value));
  }
}
