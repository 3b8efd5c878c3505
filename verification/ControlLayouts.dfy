/** The control messages as the structs they are, what each looks like on the wire, byte
    string by byte string, and the bounds a reader holds it to. */
module ControlLayouts {
  import opened Wire
  import opened Vi64
  import opened KeyValuePairs
  import opened ObjectFields
  import opened FieldLists
  import opened LocationFilters
  import opened Parameters
  import opened ParameterRoundTrips
  import opened Wiregen
  import opened ControlMessages
  import opened ControlStreams

  datatype Struct =
    | SetupStruct(options: KVPList)
    | GoAwayCtrlStruct(uri: Bytes, timeout: U64, requestId: U64)
    | GoAwayReqStruct(uri: Bytes, timeout: U64)
    | SubscribeStruct(requestId: U64, namespace: Fields, name: Bytes, params: ParameterList)
    | SubscribeOkStruct(alias: U64, params: ParameterList, properties: KVPList)
    | TrackStatusStruct(requestId: U64, namespace: Fields, name: Bytes, params: ParameterList)
    | RequestUpdateStruct(requestId: U64, params: ParameterList)
    | PublishStruct(requestId: U64, namespace: Fields, name: Bytes, alias: U64, params: ParameterList, properties: KVPList)
    | PublishDoneStruct(status: U64, streamCount: U64, reason: Bytes)
    | PublishStateNotifyStruct(params: ParameterList)
    | FetchOkStruct(endOfTrack: bool, end: Location, params: ParameterList, properties: KVPList)
    | PublishNamespaceStruct(requestId: U64, namespace: Fields, params: ParameterList)
    | NamespaceStruct(suffix: Fields)
    | NamespaceDoneStruct(suffix: Fields)
    | SubscribeNamespaceStruct(requestId: U64, prefix: Fields, params: ParameterList)
    | SubscribeTracksStruct(requestId: U64, prefix: Fields, params: ParameterList)
    | PublishSkippedStruct(suffix: Fields, name: Bytes)
    | RequestOkStruct(params: ParameterList, properties: KVPList)
    | PublishOkStruct(params: ParameterList, properties: KVPList)
    | RequestErrorStruct(code: U64, retry: U64, reason: Bytes, redirect: Option<Redirect>)

  /** The codec's message for a struct: its fields in order. */
  function AsMessage(s: Struct): (m: Message)
    ensures m.Generated? && !m.kind.Fetch?
  {
    match s
    case SetupStruct(options) => Generated(Setup, [Pairs(options)])
    case GoAwayCtrlStruct(uri, timeout, id) => Generated(GoAwayCtrl, [Octets(uri), Integer(timeout), Integer(id)])
    case GoAwayReqStruct(uri, timeout) => Generated(GoAwayReq, [Octets(uri), Integer(timeout)])
    case SubscribeStruct(id, ns, name, params) => Generated(Subscribe, [Integer(id), List(ns), Octets(name), Params(params)])
    case SubscribeOkStruct(alias, params, properties) =>
      Generated(SubscribeOk, [Integer(alias), Params(params), Pairs(properties)])
    case TrackStatusStruct(id, ns, name, params) =>
      Generated(TrackStatus, [Integer(id), List(ns), Octets(name), Params(params)])
    case RequestUpdateStruct(id, params) => Generated(RequestUpdate, [Integer(id), Params(params)])
    case PublishStruct(id, ns, name, alias, params, properties) =>
      Generated(Publish, [Integer(id), List(ns), Octets(name), Integer(alias), Params(params), Pairs(properties)])
    case PublishDoneStruct(status, count, reason) =>
      Generated(PublishDone, [Integer(status), Integer(count), Octets(reason)])
    case PublishStateNotifyStruct(params) => Generated(PublishStateNotify, [Params(params)])
    case FetchOkStruct(endOfTrack, end, params, properties) =>
      Generated(FetchOk, [Flag(endOfTrack), Place(end), Params(params), Pairs(properties)])
    case PublishNamespaceStruct(id, ns, params) => Generated(PublishNamespace, [Integer(id), List(ns), Params(params)])
    case NamespaceStruct(suffix) => Generated(Kind.Namespace, [List(suffix)])
    case NamespaceDoneStruct(suffix) => Generated(NamespaceDone, [List(suffix)])
    case SubscribeNamespaceStruct(id, prefix, params) =>
      Generated(SubscribeNamespace, [Integer(id), List(prefix), Params(params)])
    case SubscribeTracksStruct(id, prefix, params) =>
      Generated(SubscribeTracks, [Integer(id), List(prefix), Params(params)])
    case PublishSkippedStruct(suffix, name) => Generated(PublishSkipped, [List(suffix), Octets(name)])
    case RequestOkStruct(params, properties) => Generated(RequestOk, [Params(params), Pairs(properties)])
    case PublishOkStruct(params, properties) => Generated(PublishOk, [Params(params), Pairs(properties)])
    case RequestErrorStruct(code, retry, reason, redirect) =>
      Generated(RequestError, [Integer(code), Integer(retry), Octets(reason), MaybeRedirect(redirect)])
  }

  // ---- On the wire.

  type Piece = Result<Bytes>

  function Number(n: U64): Piece { Success(Append(n)) }

  function Text(b: Bytes): Piece { Success(Append(ToU64(|b|)) + b) }

  function Names(ns: Fields): Piece { Success(AppendFields(ns)) }

  function Options(list: KVPList): Piece { Success(AppendPairs(SortedPairs(list), 0)) }

  function Where(l: Location): Piece { Success(Append(l.group) + Append(l.obj)) }

  /** The pieces of a body, in order. */
  function Pieces(s: Struct, version: Version): seq<Piece> {
    match s
    case SetupStruct(options) => [Options(options)]
    case GoAwayCtrlStruct(uri, timeout, id) =>
      [Text(uri), Number(timeout), if version.Draft18? then Number(id) else Success([])]
    case GoAwayReqStruct(uri, timeout) => [Text(uri), Number(timeout)]
    case SubscribeStruct(id, ns, name, params) => [Number(id), Names(ns), Text(name), Block(params, version)]
    case SubscribeOkStruct(alias, params, properties) => [Number(alias), Block(params, version), Options(properties)]
    case TrackStatusStruct(id, ns, name, params) => [Number(id), Names(ns), Text(name), Block(params, version)]
    case RequestUpdateStruct(id, params) => [Number(id), Block(params, version)]
    case PublishStruct(id, ns, name, alias, params, properties) =>
      [Number(id), Names(ns), Text(name), Number(alias), Block(params, version), Options(properties)]
    case PublishDoneStruct(status, count, reason) => [Number(status), Number(count), Text(reason)]
    case PublishStateNotifyStruct(params) => [Block(params, version)]
    case FetchOkStruct(endOfTrack, end, params, properties) =>
      [Success([if endOfTrack then 1 else 0]), Where(end), Block(params, version), Options(properties)]
    case PublishNamespaceStruct(id, ns, params) => [Number(id), Names(ns), Block(params, version)]
    case NamespaceStruct(suffix) => [Names(suffix)]
    case NamespaceDoneStruct(suffix) => [Names(suffix)]
    case SubscribeNamespaceStruct(id, prefix, params) => [Number(id), Names(prefix), Block(params, version)]
    case SubscribeTracksStruct(id, prefix, params) => [Number(id), Names(prefix), Block(params, version)]
    case PublishSkippedStruct(suffix, name) => [Names(suffix), Text(name)]
    case RequestOkStruct(params, properties) => [Block(params, version), Options(properties)]
    case PublishOkStruct(params, properties) => [Block(params, version), Options(properties)]
    case RequestErrorStruct(code, retry, reason, redirect) =>
      [Number(code), Number(retry), Text(reason),
       Success(if redirect.None? then []
               else AppendByteString(redirect.value.uri)
                    + (AppendFields(redirect.value.fields) + AppendByteString(redirect.value.name)))]
  }

  function Block(params: ParameterList, version: Version): Piece {
    BlockBytes(params, TopLevel(version), version)
  }

  /** One after another, or the first that cannot be written. */
  function Joined(pieces: seq<Piece>): Piece {
    if pieces == [] then Success([])
    else
      var first :- pieces[0];
      var rest :- Joined(pieces[1..]);
      Success(first + rest)
  }

  /** The number of a message, and the drafts that have it. */
  function Code(s: Struct): U64 {
    match s
    case SetupStruct(_) => 0x2F00
    case GoAwayCtrlStruct(_, _, _) => 0x10
    case GoAwayReqStruct(_, _) => 0x10
    case SubscribeStruct(_, _, _, _) => 0x03
    case SubscribeOkStruct(_, _, _) => 0x04
    case TrackStatusStruct(_, _, _, _) => 0x0D
    case RequestUpdateStruct(_, _) => 0x02
    case PublishStruct(_, _, _, _, _, _) => 0x1D
    case PublishDoneStruct(_, _, _) => 0x0B
    case PublishStateNotifyStruct(_) => 0x22
    case FetchOkStruct(_, _, _, _) => 0x18
    case PublishNamespaceStruct(_, _, _) => 0x06
    case NamespaceStruct(_) => 0x08
    case NamespaceDoneStruct(_) => 0x0E
    case SubscribeNamespaceStruct(_, _, _) => 0x50
    case SubscribeTracksStruct(_, _, _) => 0x51
    case PublishSkippedStruct(_, _) => 0x0F
    case RequestOkStruct(_, _) => 0x07
    case PublishOkStruct(_, _) => 0x1E
    case RequestErrorStruct(_, _, _, _) => 0x05
  }

  predicate InVersion(s: Struct, version: Version) {
    && (s.PublishOkStruct? ==> version.Draft18?)
    && (s.PublishStateNotifyStruct? ==> version.Draft22?)
  }

  // ---- The codec writes that.

  lemma {:induction false} BodyIsJoined(decl: Declaration, values: seq<Value>, version: Version)
    requires Typed(decl, values)
    ensures BodyBytes(decl, values, version) ==
            Joined(seq(|decl|, n requires 0 <= n < |decl| => OptionalField(decl[n], values[n], version)))
  {
    hide OptionalField;
    var pieces := seq(|decl|, n requires 0 <= n < |decl| => OptionalField(decl[n], values[n], version));
    if decl != [] {
      BodyIsJoined(decl[1..], values[1..], version);
      var tail := seq(|decl[1..]|, n requires 0 <= n < |decl[1..]| => OptionalField(decl[1..][n], values[1..][n], version));
      assert pieces[1..] == tail;
    }
  }

  lemma CodeIsType(s: Struct)
    ensures MessageType(KindOf(AsMessage(s))) == Code(s)
  {
  }

  /** The structs, in two halves. */
  predicate Request(s: Struct) {
    || s.SubscribeStruct? || s.TrackStatusStruct? || s.RequestUpdateStruct? || s.PublishStruct?
    || s.PublishNamespaceStruct? || s.SubscribeNamespaceStruct? || s.SubscribeTracksStruct? || s.SetupStruct?
    || s.GoAwayCtrlStruct? || s.GoAwayReqStruct?
  }

  lemma FieldsAreTyped(s: Struct)
    ensures WellTyped(AsMessage(s))
  {
    if Request(s) {
      RequestsAreTyped(s);
    } else {
      OthersAreTyped(s);
    }
  }

  lemma RequestsAreTyped(s: Struct)
    requires Request(s)
    ensures WellTyped(AsMessage(s))
  {
  }

  lemma OthersAreTyped(s: Struct)
    requires !Request(s)
    ensures WellTyped(AsMessage(s))
  {
  }

  predicate ArePieces(decl: Declaration, values: seq<Value>, version: Version, pieces: seq<Piece>) {
    && |decl| == |pieces| && Typed(decl, values)
    && forall n | 0 <= n < |decl| :: OptionalField(decl[n], values[n], version) == pieces[n]
  }

  lemma FieldsArePieces(s: Struct, version: Version)
    ensures ArePieces(Declared(AsMessage(s).kind), AsMessage(s).values, version, Pieces(s, version))
  {
    hide ArePieces, Declared, Pieces, AsMessage;
    if Request(s) {
      RequestPieces(s, version);
    } else {
      OtherPieces(s, version);
    }
  }

  lemma RequestPieces(s: Struct, version: Version)
    requires Request(s)
    ensures ArePieces(Declared(AsMessage(s).kind), AsMessage(s).values, version, Pieces(s, version))
  {
    hide BlockBytes, Append, AppendPairs, SortedPairs, AppendFields;
  }

  lemma OtherPieces(s: Struct, version: Version)
    requires !Request(s)
    ensures ArePieces(Declared(AsMessage(s).kind), AsMessage(s).values, version, Pieces(s, version))
  {
    hide BlockBytes, Append, AppendPairs, SortedPairs, AppendFields;
  }

  /** Every message's body, in either draft. */
  lemma BodyLaidOut(s: Struct, version: Version)
    ensures WellTyped(AsMessage(s))
    ensures MessageBody(AsMessage(s), version) ==
            if InVersion(s, version) then Joined(Pieces(s, version)) else Failure(MessageNotInDraft)
  {
    hide Pieces, BodyBytes, Declared, Joined, OptionalField;
    FieldsAreTyped(s);
    FieldsArePieces(s, version);
    var (decl, values) := (Declared(AsMessage(s).kind), AsMessage(s).values);
    BodyIsJoined(decl, values, version);
    assert seq(|decl|, n requires 0 <= n < |decl| => OptionalField(decl[n], values[n], version)) == Pieces(s, version);
  }

  /** And framed: its number, a length of two bytes, and the body, if that is shorter than 65536 bytes. */
  lemma FrameLaidOut(s: Struct, version: Version)
    ensures WellTyped(AsMessage(s))
    ensures var body := Joined(Pieces(s, version));
            FrameBytes(AsMessage(s), version) ==
            if !InVersion(s, version) then Failure(MessageNotInDraft)
            else if body.Failure? then body
            else if |body.value| >= 65536 then Failure(MessageTooLong)
            else Success(Append(Code(s)) + ([|body.value| / 256, |body.value| % 256] + body.value))
  {
    hide Pieces, Joined, MessageBody, Declared, Append, AsMessage, Code, MessageType;
    FieldsAreTyped(s);
    CodeIsType(s);
    BodyLaidOut(s, version);
  }

  // ---- The bounds of a reader.

  /** Field by field. */
  function Bounds(s: Struct, version: Version): seq<bool> {
    match s
    case SetupStruct(options) => [Pairable(options)]
    case GoAwayCtrlStruct(uri, _, _) => [|uri| <= 8192, true, true]
    case GoAwayReqStruct(uri, _) => [|uri| <= 8192, true]
    case SubscribeStruct(_, ns, _, params) => [true, |ns| <= 32, true, LegalIn(params, version)]
    case SubscribeOkStruct(_, params, properties) => [true, LegalIn(params, version), Pairable(properties)]
    case TrackStatusStruct(_, ns, _, params) => [true, |ns| <= 32, true, LegalIn(params, version)]
    case RequestUpdateStruct(_, params) => [true, LegalIn(params, version)]
    case PublishStruct(_, ns, _, _, params, properties) =>
      [true, |ns| <= 32, true, true, LegalIn(params, version), Pairable(properties)]
    case PublishDoneStruct(_, _, reason) => [true, true, |reason| <= 1024]
    case PublishStateNotifyStruct(params) => [LegalIn(params, version)]
    case FetchOkStruct(_, _, params, properties) => [true, true, LegalIn(params, version), Pairable(properties)]
    case PublishNamespaceStruct(_, ns, params) => [true, |ns| <= 32, LegalIn(params, version)]
    case NamespaceStruct(suffix) => [|suffix| <= 32]
    case NamespaceDoneStruct(suffix) => [|suffix| <= 32]
    case SubscribeNamespaceStruct(_, prefix, params) => [true, |prefix| <= 32, LegalIn(params, version)]
    case SubscribeTracksStruct(_, prefix, params) => [true, |prefix| <= 32, LegalIn(params, version)]
    case PublishSkippedStruct(suffix, _) => [|suffix| <= 32, true]
    case RequestOkStruct(params, properties) => [LegalIn(params, version), Pairable(properties)]
    case PublishOkStruct(params, properties) => [LegalIn(params, version), Pairable(properties)]
    case RequestErrorStruct(_, _, reason, redirect) =>
      [true, true, |reason| <= 1024,
       redirect.Some? ==> |redirect.value.uri| <= 8192 && |redirect.value.fields| <= 32]
  }

  predicate Bounded(s: Struct, version: Version) {
    forall n | 0 <= n < |Bounds(s, version)| :: Bounds(s, version)[n]
  }

  /** Pairs whose byte values are at most 65535 bytes. */
  predicate Pairable(list: KVPList) {
    forall p | p in list :: p.typ % 2 == 1 ==> |p.bytes| < 65536
  }

  predicate LegalIn(params: ParameterList, version: Version) {
    LegalList(params, TopLevel(version), version)
  }

  /** A struct that can be written is read back exactly when it is within these. */
  lemma BoundedIsRead(s: Struct, version: Version)
    requires WellTyped(AsMessage(s)) && MessageBody(AsMessage(s), version).Success? && Storable(AsMessage(s), version)
    ensures ParseMessage(KindOf(AsMessage(s)), MessageBody(AsMessage(s), version).value, version).Success? <==>
            Bounded(s, version)
  {
    hide ParseMessage, Storable, Bounded, Declared, BodyBytes, ControlMessages.Legal, CanonMessage, AsMessage;
    MessageRoundTrip(AsMessage(s), version);
    LegalIsBounded(s, version);
  }

  predicate AreBounds(decl: Declaration, values: seq<Value>, version: Version, bounds: seq<bool>) {
    && |decl| == |bounds| && Typed(decl, values)
    && forall n | 0 <= n < |decl| ::
         (OnWire(decl[n], version) ==> LegalField(decl[n].tag, values[n], version)) == bounds[n]
  }

  lemma PairsAreLegal()
    ensures forall list: KVPList :: KeyValuePairs.AllLegal(list) <==> Pairable(list)
  {
  }

  lemma RequestBounds(s: Struct, version: Version)
    requires Request(s)
    ensures AreBounds(Declared(AsMessage(s).kind), AsMessage(s).values, version, Bounds(s, version))
  {
    hide LegalList, KeyValuePairs.AllLegal;
    PairsAreLegal();
  }

  lemma OtherBounds(s: Struct, version: Version)
    requires !Request(s)
    ensures AreBounds(Declared(AsMessage(s).kind), AsMessage(s).values, version, Bounds(s, version))
  {
    hide LegalList, KeyValuePairs.AllLegal;
    PairsAreLegal();
  }

  lemma LegalIsBounded(s: Struct, version: Version)
    requires WellTyped(AsMessage(s))
    ensures ControlMessages.Legal(AsMessage(s), version) <==> Bounded(s, version)
  {
    hide Bounds, Declared, AsMessage, LegalField;
    if Request(s) {
      RequestBounds(s, version);
    } else {
      OtherBounds(s, version);
    }
  }

  // ---- What is read.

  /** The struct as it comes back: lists sorted by Type, unused value fields cleared, and no Request ID
      on a draft-22 GOAWAY. */
  function ReadAs(s: Struct, version: Version): Struct {
    match s
    case SetupStruct(options) => SetupStruct(Canonical(options))
    case GoAwayCtrlStruct(uri, timeout, id) => GoAwayCtrlStruct(uri, timeout, if version.Draft18? then id else 0)
    case SubscribeStruct(id, ns, name, params) => SubscribeStruct(id, ns, name, Settled(params, version))
    case SubscribeOkStruct(alias, params, properties) =>
      SubscribeOkStruct(alias, Settled(params, version), Canonical(properties))
    case TrackStatusStruct(id, ns, name, params) => TrackStatusStruct(id, ns, name, Settled(params, version))
    case RequestUpdateStruct(id, params) => RequestUpdateStruct(id, Settled(params, version))
    case PublishStruct(id, ns, name, alias, params, properties) =>
      PublishStruct(id, ns, name, alias, Settled(params, version), Canonical(properties))
    case PublishStateNotifyStruct(params) => PublishStateNotifyStruct(Settled(params, version))
    case FetchOkStruct(endOfTrack, end, params, properties) =>
      FetchOkStruct(endOfTrack, end, Settled(params, version), Canonical(properties))
    case PublishNamespaceStruct(id, ns, params) => PublishNamespaceStruct(id, ns, Settled(params, version))
    case SubscribeNamespaceStruct(id, prefix, params) => SubscribeNamespaceStruct(id, prefix, Settled(params, version))
    case SubscribeTracksStruct(id, prefix, params) => SubscribeTracksStruct(id, prefix, Settled(params, version))
    case RequestOkStruct(params, properties) => RequestOkStruct(Settled(params, version), Canonical(properties))
    case PublishOkStruct(params, properties) => PublishOkStruct(Settled(params, version), Canonical(properties))
    case _ => s
  }

  function Settled(params: ParameterList, version: Version): ParameterList {
    CanonList(SortedParameters(params), TopLevel(version), version)
  }

  predicate AreRead(decl: Declaration, values: seq<Value>, version: Version, read: seq<Value>) {
    && |decl| == |read| && Typed(decl, values)
    && forall n | 0 <= n < |decl| :: CanonOrDefault(decl[n], values[n], version) == read[n]
  }

  lemma RequestsRead(s: Struct, version: Version)
    requires Request(s)
    ensures AreRead(Declared(AsMessage(s).kind), AsMessage(s).values, version, AsMessage(ReadAs(s, version)).values)
    ensures AsMessage(ReadAs(s, version)).kind == AsMessage(s).kind
  {
    hide CanonList, SortedParameters, Canonical;
  }

  lemma OthersRead(s: Struct, version: Version)
    requires !Request(s)
    ensures AreRead(Declared(AsMessage(s).kind), AsMessage(s).values, version, AsMessage(ReadAs(s, version)).values)
    ensures AsMessage(ReadAs(s, version)).kind == AsMessage(s).kind
  {
    hide CanonList, SortedParameters, Canonical;
  }

  /** Every message within its bounds comes back as itself, but for that. */
  lemma BodyReadAs(s: Struct, version: Version)
    requires WellTyped(AsMessage(s)) && MessageBody(AsMessage(s), version).Success? && Storable(AsMessage(s), version)
    requires Bounded(s, version)
    ensures ParseMessage(KindOf(AsMessage(s)), MessageBody(AsMessage(s), version).value, version) ==
            Success(AsMessage(ReadAs(s, version)))
  {
    hide ParseMessage, MessageBody, Storable, Bounded, Declared, BodyBytes, ControlMessages.Legal, AsMessage, ReadAs, CanonOrDefault;
    MessageRoundTrip(AsMessage(s), version);
    LegalIsBounded(s, version);
    if Request(s) {
      RequestsRead(s, version);
    } else {
      OthersRead(s, version);
    }
    assert CanonValues(Declared(AsMessage(s).kind), AsMessage(s).values, version) == AsMessage(ReadAs(s, version)).values;
  }

  // ---- FETCH.

  /** A draft-18 FETCH says which of three kinds it is; a draft-22 one can be only of the first. */
  function FetchPieces(m: FetchMessage, version: Version): Option<seq<Piece>> {
    match version
    case Draft22 =>
      if m.fetchType > 1 then None
      else Some([Number(m.requestId), Names(m.namespace), Text(m.name), Block(m.params, version)])
    case Draft18 =>
      if m.fetchType == 1 then
        Some([Number(m.requestId), Number(1), Names(m.namespace), Text(m.name), Where(m.start), Where(m.end),
              Block(m.params, version)])
      else if (m.fetchType == 2 || m.fetchType == 3) && m.joining.Some? then
        Some([Number(m.requestId), Number(m.fetchType), Number(m.joining.value.0), Number(m.joining.value.1),
              Block(m.params, version)])
      else None
  }

  lemma FetchLaidOut(m: FetchMessage, version: Version)
    ensures var pieces := FetchPieces(m, version);
            if pieces.None? then FetchBytes(m, version).Failure? else FetchBytes(m, version) == Joined(pieces.value)
  {
    hide BlockBytes, Append, AppendFields, BodyBytes, Joined;
    if FetchBody(m, version).Success? {
      var (decl, values) := FetchBody(m, version).value;
      BodyIsJoined(decl, values, version);
      assert seq(|decl|, n requires 0 <= n < |decl| => OptionalField(decl[n], values[n], version))
             == FetchPieces(m, version).value;
    }
  }

  /** Its bounds: a namespace of at most 32 fields, where it names a track, and legal parameters. */
  lemma FetchBounded(m: FetchMessage, version: Version)
    requires FetchPieces(m, version).Some?
    ensures LegalFetch(m, version) <==>
            LegalIn(m.params, version) && (version.Draft22? || m.fetchType == 1 ==> |m.namespace| <= 32)
  {
    hide LegalList;
    var (decl, values) := FetchBody(m, version).value;
    forall n | 0 <= n < |decl| ensures OnWire(decl[n], version) {}
    assert values[|values| - 1] == Params(m.params);
    assert decl[|decl| - 1].tag == ParamsTag;
    assert decl[1].tag == NtlvTag(MAX_NAMESPACE_FIELDS) || (|decl| > 2 && decl[2].tag == NtlvTag(MAX_NAMESPACE_FIELDS))
           || (version.Draft18? && m.fetchType != 1);
  }
}
