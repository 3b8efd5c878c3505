/** What a data stream's parser reads from. `data` is everything the peer sends
    before its FIN; reading moves `pos` along it. */
module ByteStreams {
  import opened Wire
  import opened Vi64
  import opened KeyValuePairs
  import opened ObjectFields

  class ByteReader {
    const data: Bytes
    var pos: nat

    constructor (data: Bytes)
      ensures this.data == data && pos == 0 && Valid()
    {
      this.data := data;
      pos := 0;
    }

    predicate Valid()
      reads this
    {
      pos <= |data|
    }

    /** The end of the stream before the first byte is a clean end, and after it a truncation. */
    method ReadVi64() returns (r: Result<U64>)
      requires Valid()
      modifies this
      ensures Valid()
      ensures match LeadingVi64At(data, old(pos))
              case Ok(v, end) => r == Success(v) && pos == end
              case Err(e) => r == Failure(e)
    {
      if pos == |data| {
        return Failure(Eof);
      }
      var v := Vi64At(data, pos);
      match v {
        case Ok(n, end) =>
          pos := end;
          return Success(n);
        case Err(e) =>
          pos := |data|;
          return Failure(e);
      }
    }

    method ReadByte() returns (r: Result<U8>)
      requires Valid()
      modifies this
      ensures Valid()
      ensures if old(pos) < |data| then r == Success(data[old(pos)]) && pos == old(pos) + 1
              else r == Failure(Eof)
    {
      if pos == |data| {
        return Failure(Eof);
      }
      r := Success(data[pos]);
      pos := pos + 1;
    }

    /** All of `n` bytes, or an error: a clean end if there were none at all. */
    method ReadFull(n: nat) returns (r: Result<Bytes>)
      requires Valid()
      modifies this
      ensures Valid()
      ensures match BytesAt(data, old(pos), n)
              case Ok(b, end) => r == Success(b) && pos == end
              case Err(e) => r == Failure(if old(pos) == |data| then Eof else e)
    {
      if |data| - pos < n {
        r := Failure(if pos == |data| then Eof else UnexpectedEof);
        pos := |data|;
        return;
      }
      r := Success(data[pos..pos + n]);
      pos := pos + n;
    }
  }

  /** Inside a record the end of the stream is a truncation. */
  function Unexpected(e: Error): Error {
    if e == Eof then UnexpectedEof else e
  }

  /** The Properties block of an Object, off the stream. */
  method ReadPropertyBlock(r: ByteReader, version: Version) returns (res: Result<KVPList>)
    requires r.Valid()
    modifies r
    ensures r.Valid()
    ensures match PropertiesAt(r.data, old(r.pos), version)
            case Ok(v, end) => res == Success(v) && r.pos == end
            case Err(e) => res == Failure(e)
  {
    hide Vi64At;
    var length := r.ReadVi64();
    if length.Failure? {
      return Failure(Unexpected(length.error));
    }
    if length.value == 0 {
      return Success([]);
    }
    var body := r.ReadFull(length.value);
    if body.Failure? {
      return Failure(Unexpected(body.error));
    }
    var pairs := ParseAll(body.value, 0);
    if pairs.Err? {
      return Failure(pairs.error);
    }
    var checked := ValidateObjectProperties(pairs.value, version);
    return if checked.Failure? then Failure(checked.error) else Success(pairs.value);
  }

  /** The payload of an Object, off the stream. */
  method ReadPayloadBytes(r: ByteReader) returns (res: Result<Bytes>)
    requires r.Valid()
    modifies r
    ensures r.Valid()
    ensures match PayloadAt(r.data, old(r.pos))
            case Ok(v, end) => res == Success(v) && r.pos == end
            case Err(e) => res == Failure(e)
  {
    hide Vi64At;
    var length := r.ReadVi64();
    if length.Failure? {
      return Failure(Unexpected(length.error));
    }
    if length.value == 0 {
      assert r.data[r.pos..r.pos] == [];
      return Success([]);
    }
    res := r.ReadFull(length.value);
    if res.Failure? {
      return Failure(Unexpected(res.error));
    }
  }
}
