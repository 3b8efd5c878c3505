/** Bytes, 64-bit unsigned integers, and the outcome of reading one field.

    A field is read from a byte sequence `s` at a cursor `i`. The same form
    serves a stream, where `s` is everything the peer sent before its FIN, and a
    message body, where `s` is the body cut to its declared length. */
module Wire {
  const MAX_U64: int := 0xFFFF_FFFF_FFFF_FFFF
  const TWO_64: int := 0x1_0000_0000_0000_0000

  type U64 = n: int | 0 <= n < 0x1_0000_0000_0000_0000
  type U8 = n: int | 0 <= n < 256
  type Bytes = seq<U8>

  /** The two drafts the library speaks. */
  datatype Version = Draft18 | Draft22

  /** The order Groups are delivered in. */
  datatype GroupOrder = Ascending | Descending

  datatype Error =
    | Eof                            // the stream ended between records
    | UnexpectedEof                  // it ended inside one
    | Malformed(cause: Error)        // a control message or stream header that does not parse
    | DeltaTypeOverflow
    | ValueTooLong
    | FieldTooLong
    | TooManyFields
    | TrailingBytes
    | InvalidBool
    | UnknownMessage(messageType: U64)
    | UnknownStreamType(streamType: U64)
    | MessageTooLong
    | MessageNotInDraft
    | InvalidFetchType
    | JoiningFetchNotInDraft
    | JoiningFetchWithoutSubscription
    | UnknownParameter(parameter: U64)
    | DuplicateParameter(parameter: U64)
    | NumberTooLarge
    | PropertyOutOfScope(property: U64)
    | InvalidFilterType
    | EndGroupOverflow
    | FilterNotInDraft18
    | FetchEndBeforeStart
    | InvalidSerializationFlags
    | NeedsPrior
    | EndOfRangeWithPayload
    | GroupIdOverflow
    | SubgroupIdOverflow
    | ObjectIdOverflow
    | GroupIdNotAscending
    | GroupIdNotDescending
    | ObjectIdNotIncreasing
    | ReservedSubgroupMode
    | InvalidObjectStatus
    | StatusWithPayload
    | PropertiesNotDeclared
    | PropertiesOnNonNormalObject
    | RequestAlreadyAnswered
    | InvalidGroupOrder
    | WriteFailed
    | DuplicateResponse
    | DuplicateTrackAlias
    | WrongParity
    | DuplicateRequestId
    | ParameterNotAllowed(notAllowed: U64)

  datatype Option<+T> = None | Some(value: T)

  datatype Result<+T> = Success(value: T) | Failure(error: Error) {
    predicate IsFailure() { Failure? }
    function PropagateFailure<U>(): Result<U> requires Failure? { Failure(error) }
    function Extract(): T requires Success? { value }
  }

  /** The value read and the cursor just past it, or why there is none. */
  datatype Parsed<+T> = Ok(value: T, end: nat) | Err(error: Error) {
    predicate IsFailure() { Err? }
    function PropagateFailure<U>(): Parsed<U> requires Err? { Err(error) }
    function Extract(): (T, nat) requires Ok? { (value, end) }
  }

  /** 64-bit subtraction as the hardware does it. */
  function WrapSub(a: U64, b: U64): U64 {
    (a - b) % TWO_64
  }

  function WrapAdd(a: U64, b: U64): U64 {
    (a + b) % TWO_64
  }

  /** A length converted to an unsigned 64-bit integer. */
  function ToU64(n: nat): U64 {
    n % TWO_64
  }

  /** A flag as its bit in a bitfield. */
  function Bit(b: bool, weight: U8): nat {
    if b then weight else 0
  }

  /** Reading a bitfield bit by bit, each from half of what the one before was read from. */
  lemma Halves(v: nat)
    ensures v / 4 == v / 2 / 2 && v / 8 == v / 4 / 2 && v / 16 == v / 8 / 2
    ensures v / 32 == v / 16 / 2 && v / 64 == v / 32 / 2
  {
  }

  /** A bit above the others is the parity of the half, and they are the rest. */
  lemma LowBit(v: nat, bit: bool, rest: nat)
    requires v == Bit(bit, 1) + 2 * rest
    ensures (v % 2 == 1) == bit && v / 2 == rest
  {
  }

  /** `part` sits in `s` at `i`. */
  predicate Has(s: Bytes, i: nat, part: Bytes) {
    i + |part| <= |s| && s[i..i + |part|] == part
  }

  /** A concatenation is in place exactly when its two halves are, one after the other. */
  lemma HasSplit(s: Bytes, i: nat, a: Bytes, b: Bytes)
    ensures Has(s, i, a + b) <==> Has(s, i, a) && Has(s, i + |a|, b)
  {
    if Has(s, i, a + b) {
      assert s[i..i + |a|] == s[i..i + |a| + |b|][..|a|] == a;
      assert s[i + |a|..i + |a| + |b|] == s[i..i + |a| + |b|][|a|..] == b;
    }
    if Has(s, i, a) && Has(s, i + |a|, b) {
      assert s[i..i + |a + b|] == s[i..i + |a|] + s[i + |a|..i + |a| + |b|];
    }
  }

  /** One byte. */
  function ByteAt(s: Bytes, i: nat): Parsed<U8> {
    if i < |s| then Ok(s[i], i + 1) else Err(UnexpectedEof)
  }

  /** Exactly `n` bytes. */
  function BytesAt(s: Bytes, i: nat, n: nat): Parsed<Bytes> {
    if i + n <= |s| then Ok(s[i..i + n], i + n) else Err(UnexpectedEof)
  }

  /** Bytes in place are read in full. */
  lemma BytesRead(b: Bytes, s: Bytes, i: nat)
    requires Has(s, i, b)
    ensures BytesAt(s, i, |b|) == Ok(b, i + |b|)
  {
  }

  /** The first byte of what is in place. */
  lemma HasFirst(b: Bytes, s: Bytes, i: nat)
    requires Has(s, i, b) && b != []
    ensures i + |b| <= |s| && s[i] == b[0] && s[i..i + |b|] == b
  {
    assert s[i..i + |b|][0] == s[i];
  }

  /** Cutting `s` at `k` leaves every earlier slice as it was. */
  lemma SliceOfPrefix(s: Bytes, k: nat, i: nat, j: nat)
    requires i <= j <= k <= |s|
    ensures s[..k][i..j] == s[i..j]
  {
  }

  // ---- Lists read by a loop.

  /** A result with elements already read put in front of it. */
  function After<T>(list: seq<T>, r: Parsed<seq<T>>): Parsed<seq<T>> {
    if r.Ok? then Ok(list + r.value, r.end) else r
  }

  /** Reading one more element moves it from the rest to the list. */
  lemma AfterOne<T>(list: seq<T>, x: T, r: Parsed<seq<T>>)
    ensures After(list, After([x], r)) == After(list + [x], r)
    ensures After([], r) == r
  {
    if r.Ok? {
      assert list + ([x] + r.value) == list + [x] + r.value;
      assert [] + r.value == r.value;
    }
  }
}
