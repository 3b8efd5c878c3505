/** Control messages on a stream: a type, a 16-bit length written once the body is
    known, and the body. */
module ControlStreams {
  import opened Wire
  import opened Vi64
  import opened ByteStreams
  import opened Streams
  import opened ControlMessages
  import FilterCodec

  const MAX_BODY := 65535

  function Length16(n: nat): (b: Bytes)
    requires n <= MAX_BODY
    ensures |b| == 2
  {
    [n / 256, n % 256]
  }

  function FromLength16(b: Bytes): (n: nat)
    requires |b| == 2
    ensures n <= MAX_BODY
  {
    (b[0] as int) * 256 + b[1]
  }

  function FrameBytes(m: Message, version: Version): Result<Bytes>
    requires WellTyped(m)
  {
    match MessageBody(m, version)
    case Failure(e) => Failure(e)
    case Success(body) =>
      if |body| > MAX_BODY then Failure(MessageTooLong)
      else Success(Append(MessageType(KindOf(m))) + (Length16(|body|) + body))
  }

  /** Appends the frame, writing the length over its placeholder once the body is there. */
  method AppendControlMessage(buf: Bytes, m: Message, version: Version) returns (res: Result<Bytes>)
    requires WellTyped(m)
    ensures match FrameBytes(m, version)
            case Success(b) => res == Success(buf + b)
            case Failure(e) => res == Failure(e)
  {
    hide Append, Len, MessageBody;
    var out := buf + Append(MessageType(KindOf(m)));
    ghost var head := out;
    var lengthOffset := |out|;
    out := out + [0, 0];
    var appended := AppendBody(out, m, version);
    if appended.Failure? {
      return appended;
    }
    out := appended.value;
    var bodyLen := |out| - lengthOffset - 2;
    if bodyLen > MAX_BODY {
      return Failure(MessageTooLong);
    }
    ghost var body := MessageBody(m, version).value;
    out := out[lengthOffset := bodyLen / 256];
    out := out[lengthOffset + 1 := bodyLen % 256];
    assert out == head + Length16(bodyLen) + body;
    assert out == buf + (Append(MessageType(KindOf(m))) + (Length16(bodyLen) + body));
    return Success(out);
  }

  /** A message that cannot be parsed is malformed, whatever the reason. */
  function BodyFrame(scope: Scope, version: Version, t: U64, body: Bytes): Result<Message> {
    match NewMessage(scope, t, version)
    case Failure(e) => Failure(Malformed(e))
    case Success(k) =>
      match ParseMessage(k, body, version)
      case Failure(e) => Failure(Malformed(e))
      case Success(m) => Success(m)
  }

  /** The length and body of a message whose type was read. */
  function FrameBodyAt(scope: Scope, version: Version, t: U64, s: Bytes, i: nat): (r: Parsed<Message>)
    ensures r.Ok? ==> i < r.end <= |s|
    ensures r.Err? ==> r.error.Malformed?
  {
    match BytesAt(s, i, 2)
    case Err(_) => Err(Malformed(UnexpectedEof))
    case Ok(length, j) =>
      match BytesAt(s, j, FromLength16(length))
      case Err(_) => Err(Malformed(UnexpectedEof))
      case Ok(body, k) =>
        match BodyFrame(scope, version, t, body)
        case Failure(e) => Err(e)
        case Success(m) => Ok(m, k)
  }

  /** One message; between messages a stream may simply end. */
  function FrameAt(scope: Scope, version: Version, s: Bytes, i: nat): (r: Parsed<Message>)
    ensures r.Ok? ==> i < r.end <= |s|
    ensures r == Err(Eof) <==> i >= |s|
    ensures r.Err? && i < |s| ==> r.error.Malformed?
  {
    match LeadingVi64At(s, i)
    case Err(e) => Err(if e == UnexpectedEof then Malformed(e) else e)
    case Ok(t, j) => FrameBodyAt(scope, version, t, s, j)
  }

  class ControlMessageParser {
    const reader: ByteReader
    const scope: Scope
    const version: Version

    constructor (reader: ByteReader, scope: Scope, version: Version)
      ensures this.reader == reader && this.scope == scope && this.version == version
    {
      this.reader, this.scope, this.version := reader, scope, version;
    }

    method Parse() returns (res: Result<Message>)
      requires reader.Valid()
      modifies reader
      ensures reader.Valid()
      ensures match FrameAt(scope, version, reader.data, old(reader.pos))
              case Ok(m, end) => res == Success(m) && reader.pos == end
              case Err(e) => res == Failure(e)
    {
      hide Vi64At, FrameBodyAt;
      var t := reader.ReadVi64();
      if t.Failure? {
        return Failure(if t.error == UnexpectedEof then Malformed(t.error) else t.error);
      }
      res := ParseBody(t.value);
    }

    /** For a message whose type was read before, when the stream was classified by it. */
    method ParseBody(t: U64) returns (res: Result<Message>)
      requires reader.Valid()
      modifies reader
      ensures reader.Valid()
      ensures match FrameBodyAt(scope, version, t, reader.data, old(reader.pos))
              case Ok(m, end) => res == Success(m) && reader.pos == end
              case Err(e) => res == Failure(e)
    {
      hide NewMessage, ParseMessage;
      var length := reader.ReadFull(2);
      if length.Failure? {
        return Failure(Malformed(Unexpected(length.error)));
      }
      var body := reader.ReadFull(FromLength16(length.value));
      if body.Failure? {
        return Failure(Malformed(Unexpected(body.error)));
      }
      var kind := NewMessage(scope, t, version);
      if kind.Failure? {
        return Failure(Malformed(kind.error));
      }
      var m := ParseMessageBody(kind.value, body.value, version);
      if m.Failure? {
        return Failure(Malformed(m.error));
      }
      return m;
    }
  }

  // ---- Sequences of messages.

  /** Messages this stream carries, that can be framed. */
  predicate Sendable(m: Message, scope: Scope, version: Version) {
    && WellTyped(m) && Carried(KindOf(m), scope, version)
    && FrameBytes(m, version).Success? && Storable(m, version)
  }

  predicate AllSendable(ms: seq<Message>, scope: Scope, version: Version) {
    ms == [] || (Sendable(ms[0], scope, version) && AllSendable(ms[1..], scope, version))
  }

  function Frames(ms: seq<Message>, scope: Scope, version: Version): Bytes
    requires AllSendable(ms, scope, version)
  {
    if ms == [] then [] else FrameBytes(ms[0], version).value + Frames(ms[1..], scope, version)
  }

  function CanonMessages(ms: seq<Message>, scope: Scope, version: Version): (r: seq<Message>)
    requires AllSendable(ms, scope, version)
    ensures |r| == |ms|
  {
    if ms == [] then [] else [CanonMessage(ms[0], version)] + CanonMessages(ms[1..], scope, version)
  }

  predicate AllLegal(ms: seq<Message>, scope: Scope, version: Version)
    requires AllSendable(ms, scope, version)
  {
    ms == [] || (Legal(ms[0], version) && AllLegal(ms[1..], scope, version))
  }

  /** A length and a body in place are read in full. */
  lemma FrameBodyReads(scope: Scope, version: Version, t: U64, body: Bytes, s: Bytes, i: nat)
    requires |body| <= MAX_BODY && Has(s, i, Length16(|body|) + body)
    ensures FrameBodyAt(scope, version, t, s, i) ==
            match BodyFrame(scope, version, t, body)
            case Failure(e) => Err(e)
            case Success(m) => Ok(m, i + 2 + |body|)
  {
    hide BodyFrame, Has, BytesAt;
    HasSplit(s, i, Length16(|body|), body);
    BytesRead(Length16(|body|), s, i);
    BytesRead(body, s, i + 2);
  }

  /** A framed message read where it was written. */
  lemma FrameReads(m: Message, scope: Scope, version: Version, s: Bytes, i: nat)
    requires Sendable(m, scope, version) && Has(s, i, FrameBytes(m, version).value)
    ensures if Legal(m, version) then FrameAt(scope, version, s, i) == Ok(CanonMessage(m, version), i + |FrameBytes(m, version).value|)
            else FrameAt(scope, version, s, i).Err? && FrameAt(scope, version, s, i).error.Malformed?
  {
    hide Vi64At, Append, Len, MessageBody, ParseMessage, Legal, Storable, CanonMessage, NewMessage, WellTyped, KindOf;
    hide Has, FrameBodyAt, MessageType;
    var t, body := MessageType(KindOf(m)), MessageBody(m, version).value;
    HasSplit(s, i, Append(t), Length16(|body|) + body);
    AppendReads(t, s, i);
    FrameBodyReads(scope, version, t, body, s, i + Len(t));
    MessageRoundTrip(m, version);
    DispatchIsExact(KindOf(m), t, scope, version);
  }

  /** Whatever frame is accepted can be written again in no more bytes and is accepted as the same message. */
  lemma FrameCanonicalisation(scope: Scope, version: Version, s: Bytes, i: nat)
    requires FrameAt(scope, version, s, i).Ok?
    ensures var (m, end) := FrameAt(scope, version, s, i).Extract();
            && WellTyped(m) && FrameBytes(m, version).Success?
            && var again := FrameBytes(m, version).value;
            && |again| <= end - i && FrameAt(scope, version, again, 0) == Ok(m, |again|)
  {
    hide Vi64At, Append, Len, MessageBody, ParseMessage, NewMessage, WellTyped, KindOf, MessageType, Has;
    var (t, j) := Vi64At(s, i).Extract();
    var n := FromLength16(s[j..j + 2]);
    var received := s[j + 2..j + 2 + n];
    var k, m := NewMessage(scope, t, version).value, FrameAt(scope, version, s, i).value;
    MessageCanonicalisation(k, received, version);
    DispatchIsExact(k, t, scope, version);
    LenIsShortest(t, j - i);
    var body := MessageBody(m, version).value;
    var again := Append(t) + (Length16(|body|) + body);
    FilterCodec.WholeIsThere(again);
    HasSplit(again, 0, Append(t), Length16(|body|) + body);
    AppendReads(t, again, 0);
    hide FrameBodyAt;
    FrameBodyReads(scope, version, t, body, again, Len(t));
  }

  ghost function Reading(scope: Scope, version: Version): Step<(), Message> {
    (st: (), s: Bytes, i: nat) =>
      match FrameAt(scope, version, s, i)
      case Err(e) => Err(e)
      case Ok(m, j) => Ok((m, ()), j)
  }

  lemma FrameCut(scope: Scope, version: Version, s: Bytes, i: nat, k: nat)
    requires FrameAt(scope, version, s, i).Ok? && i <= k <= |s|
    ensures FrameAt(scope, version, s[..k], i) ==
            if FrameAt(scope, version, s, i).end <= k then FrameAt(scope, version, s, i)
            else if k == i then Err(Eof) else Err(Malformed(UnexpectedEof))
  {
    hide Vi64At, BodyFrame;
    Vi64Cut(s, i, k);
    var j := Vi64At(s, i).end;
    if j + 2 <= k {
      SliceOfPrefix(s, k, j, j + 2);
      var n := FromLength16(s[j..j + 2]);
      if j + 2 + n <= k {
        SliceOfPrefix(s, k, j + 2, j + 2 + n);
      }
    }
  }

  lemma ReadingSteps(scope: Scope, version: Version)
    ensures Progress(Reading(scope, version)) && CleanEnd(Reading(scope, version))
    ensures CutSafe(Reading(scope, version), Malformed(UnexpectedEof))
  {
    hide FrameAt;
    var step := Reading(scope, version);
    forall st, s, i: nat, k | step(st, s, i).Ok? && i <= k <= |s|
      ensures step(st, s[..k], i) ==
              if step(st, s, i).end <= k then step(st, s, i)
              else if k == i then Err(Eof) else Err(Malformed(UnexpectedEof))
    {
      FrameCut(scope, version, s, i, k);
    }
  }

  /** Every message from `i` to the end of the stream, and how it ended. */
  ghost function ReadFrom(scope: Scope, version: Version, s: Bytes, i: nat): (seq<Message>, Error) {
    ReadingSteps(scope, version);
    ReadAll(Reading(scope, version), (), s, i)
  }

  lemma {:induction false} FramesRead(ms: seq<Message>, scope: Scope, version: Version, s: Bytes, i: nat)
    requires AllSendable(ms, scope, version)
    requires Has(s, i, Frames(ms, scope, version)) && |s| == i + |Frames(ms, scope, version)|
    ensures AllLegal(ms, scope, version) ==> ReadFrom(scope, version, s, i) == (CanonMessages(ms, scope, version), Eof)
    ensures !AllLegal(ms, scope, version) ==> ReadFrom(scope, version, s, i).1.Malformed?
    decreases |ms|
  {
    hide FrameAt, Has, FrameBytes, Legal, CanonMessage, Sendable;
    ReadingSteps(scope, version);
    if ms == [] {
      assert FrameAt(scope, version, s, i) == Err(Eof);
    } else {
      OfSendable(ms[0], scope, version);
      var first := FrameBytes(ms[0], version).value;
      HasSplit(s, i, first, Frames(ms[1..], scope, version));
      FrameReads(ms[0], scope, version, s, i);
      if Legal(ms[0], version) {
        FramesRead(ms[1..], scope, version, s, i + |first|);
      }
    }
  }

  lemma OfSendable(m: Message, scope: Scope, version: Version)
    requires Sendable(m, scope, version)
    ensures WellTyped(m) && FrameBytes(m, version).Success?
  {
  }

  /** Any sequence of messages of a scope and draft, framed one after another, parses back to the same
      sequence and then a clean end, exactly when every field is within its bounds. */
  lemma StreamRoundTrip(ms: seq<Message>, scope: Scope, version: Version)
    requires AllSendable(ms, scope, version)
    ensures var s := Frames(ms, scope, version);
            ReadFrom(scope, version, s, 0) == (CanonMessages(ms, scope, version), Eof) <==> AllLegal(ms, scope, version)
  {
    hide Frames, CanonMessages, AllLegal, AllSendable;
    var s := Frames(ms, scope, version);
    FilterCodec.WholeIsThere(s);
    FramesRead(ms, scope, version, s, 0);
  }

  ghost function Ends(scope: Scope, version: Version, s: Bytes): seq<nat> {
    ReadingSteps(scope, version);
    Boundaries(Reading(scope, version), (), s, 0)
  }

  /** Cutting a control stream at any byte yields exactly the messages wholly before the cut, then a clean
      end on a boundary and a malformed message inside one. */
  lemma ControlTruncation(scope: Scope, version: Version, s: Bytes, k: nat) returns (n: nat)
    requires k <= |s| && ReadFrom(scope, version, s, 0).1 == Eof
    ensures Splits(Ends(scope, version, s), n, 0, k) && |Ends(scope, version, s)| == |ReadFrom(scope, version, s, 0).0|
    ensures ReadFrom(scope, version, s[..k], 0) ==
            (ReadFrom(scope, version, s, 0).0[..n],
             if k == 0 || k in Ends(scope, version, s) then Eof else Malformed(UnexpectedEof))
  {
    ReadingSteps(scope, version);
    var step := Reading(scope, version);
    CutStream(step, Malformed(UnexpectedEof), (), s, 0, k);
    BeforeIsCount(step, (), s, 0, k);
    n := Before(step, (), s, 0, k);
  }
}
