/** The field-list compiler: a message body is a list of tagged fields, some of them
    only in some drafts, and the code emitted for it appends or parses them in order.
    Proved here for every declaration. */
module Wiregen {
  import opened Wire
  import opened Vi64
  import opened KeyValuePairs
  import opened ObjectFields
  import opened FieldLists
  import opened LocationFilters
  import opened FilterCodec
  import opened Parameters
  import opened ParameterRoundTrips

  const MAX_CONNECT_URI := 8192

  datatype Redirect = Redirect(uri: Bytes, fields: Fields, name: Bytes)

  /** A `proto` tag and its `max`; a max of 0 is no bound. */
  datatype Tag =
    | VarintTag
    | TlvTag(max: nat)
    | NtlvTag(max: nat)
    | ParamsTag
    | PairsToEnd
    | BoolTag
    | RedirectToEnd
    | LocationTag

  /** `drafts` empty is every draft. */
  datatype FieldDecl = FieldDecl(tag: Tag, drafts: set<Version>)

  type Declaration = seq<FieldDecl>

  datatype Value =
    | Integer(n: U64)
    | Octets(b: Bytes)
    | List(list: Fields)
    | Params(params: ParameterList)
    | Pairs(pairs: KVPList)
    | Flag(on: bool)
    | MaybeRedirect(redirect: Option<Redirect>)
    | Place(location: Location)

  predicate OnWire(f: FieldDecl, version: Version) {
    f.drafts == {} || version in f.drafts
  }

  predicate Matches(tag: Tag, x: Value) {
    match tag
    case VarintTag => x.Integer?
    case TlvTag(_) => x.Octets?
    case NtlvTag(_) => x.List?
    case ParamsTag => x.Params?
    case PairsToEnd => x.Pairs?
    case BoolTag => x.Flag?
    case RedirectToEnd => x.MaybeRedirect?
    case LocationTag => x.Place?
  }

  /** The value of a field that is not parsed. */
  function Default(tag: Tag): (x: Value)
    ensures Matches(tag, x)
  {
    match tag
    case VarintTag => Integer(0)
    case TlvTag(_) => Octets([])
    case NtlvTag(_) => List([])
    case ParamsTag => Params([])
    case PairsToEnd => Pairs([])
    case BoolTag => Flag(false)
    case RedirectToEnd => MaybeRedirect(None)
    case LocationTag => Place(ORIGIN)
  }

  /** Whether the tag takes all that is left of the body. */
  predicate RunsToEnd(tag: Tag) {
    tag.PairsToEnd? || tag.RedirectToEnd?
  }

  // ---- One field.

  function RedirectBytes(r: Redirect): Bytes {
    AppendByteString(r.uri) + (AppendFields(r.fields) + AppendByteString(r.name))
  }

  function RedirectAt(s: Bytes, i: nat): (r: Parsed<Redirect>)
    ensures r.Ok? ==> i < r.end <= |s|
  {
    var (uri, i1) :- ByteStringAt(s, i, MAX_CONNECT_URI);
    var (fields, i2) :- FieldsAt(s, i1, MAX_NAMESPACE_FIELDS);
    var (name, i3) :- ByteStringAt(s, i2, 0);
    Ok(Redirect(uri, fields, name), i3)
  }

  function FieldBytes(tag: Tag, x: Value, version: Version): Result<Bytes>
    requires Matches(tag, x)
  {
    match tag
    case VarintTag => Success(Append(x.n))
    case TlvTag(_) => Success(AppendByteString(x.b))
    case NtlvTag(_) => Success(AppendFields(x.list))
    case ParamsTag => BlockBytes(x.params, TopLevel(version), version)
    case PairsToEnd => Success(AppendPairs(SortedPairs(x.pairs), 0))
    case BoolTag => Success([if x.on then 1 else 0])
    case RedirectToEnd => Success(if x.redirect.Some? then RedirectBytes(x.redirect.value) else [])
    case LocationTag => Success(LocationBytes(x.location))
  }

  function BoolAt(s: Bytes, i: nat): Parsed<bool> {
    var (b, j) :- ByteAt(s, i);
    if b > 1 then Err(InvalidBool) else Ok(b == 1, j)
  }

  function OptionalRedirectAt(s: Bytes, i: nat): (r: Parsed<Option<Redirect>>)
    requires i <= |s|
    ensures r.Ok? ==> i <= r.end <= |s|
  {
    if i == |s| then Ok(None, i)
    else
      var (r, j) :- RedirectAt(s, i);
      Ok(Some(r), j)
  }

  function FieldAt(tag: Tag, s: Bytes, i: nat, version: Version): (r: Parsed<Value>)
    requires i <= |s|
    ensures r.Ok? ==> i <= r.end <= |s| && Matches(tag, r.value)
  {
    match tag
    case VarintTag =>
      var (n, j) :- Vi64At(s, i);
      Ok(Integer(n), j)
    case TlvTag(max) =>
      var (b, j) :- ByteStringAt(s, i, max);
      Ok(Octets(b), j)
    case NtlvTag(max) =>
      var (f, j) :- FieldsAt(s, i, max);
      Ok(List(f), j)
    case ParamsTag =>
      var (p, j) :- BlockAt(s, i, TopLevel(version), version);
      Ok(Params(p), j)
    case PairsToEnd =>
      var (p, j) :- PairsAt(s, i, 0);
      Ok(Pairs(p), j)
    case BoolTag =>
      var (b, j) :- BoolAt(s, i);
      Ok(Flag(b), j)
    case RedirectToEnd =>
      var (r, j) :- OptionalRedirectAt(s, i);
      Ok(MaybeRedirect(r), j)
    case LocationTag =>
      var (l, j) :- LocationAt(s, i);
      Ok(Place(l), j)
  }

  // ---- A body.

  predicate HasWire(decl: Declaration, version: Version) {
    exists f :: f in decl && OnWire(f, version)
  }

  predicate Typed(decl: Declaration, values: seq<Value>) {
    |decl| == |values| && forall n | 0 <= n < |decl| :: Matches(decl[n].tag, values[n])
  }

  /** A tag that runs to the end has nothing after it. */
  predicate EndsLast(decl: Declaration, version: Version) {
    decl == [] ||
    ((OnWire(decl[0], version) && RunsToEnd(decl[0].tag) ==> !HasWire(decl[1..], version))
     && EndsLast(decl[1..], version))
  }

  function OptionalField(f: FieldDecl, x: Value, version: Version): Result<Bytes>
    requires Matches(f.tag, x)
  {
    if OnWire(f, version) then FieldBytes(f.tag, x, version) else Success([])
  }

  function BodyBytes(decl: Declaration, values: seq<Value>, version: Version): Result<Bytes>
    requires Typed(decl, values)
  {
    if decl == [] then Success([])
    else
      match OptionalField(decl[0], values[0], version)
      case Failure(e) => Failure(e)
      case Success(first) =>
        match BodyBytes(decl[1..], values[1..], version)
        case Failure(e) => Failure(e)
        case Success(rest) => Success(first + rest)
  }

  function OptionalFieldAt(f: FieldDecl, s: Bytes, i: nat, version: Version): (r: Parsed<Value>)
    requires i <= |s|
    ensures r.Ok? ==> i <= r.end <= |s| && Matches(f.tag, r.value)
  {
    if OnWire(f, version) then FieldAt(f.tag, s, i, version) else Ok(Default(f.tag), i)
  }

  function BodyAt(decl: Declaration, s: Bytes, i: nat, version: Version): (r: Parsed<seq<Value>>)
    requires i <= |s|
    ensures r.Ok? ==> i <= r.end <= |s| && Typed(decl, r.value)
    decreases |decl|
  {
    if decl == [] then Ok([], i)
    else
      var (x, j) :- OptionalFieldAt(decl[0], s, i, version);
      After([x], BodyAt(decl[1..], s, j, version))
  }

  /** The length check is emitted only for a message with a field on the wire. */
  function ParseBody(decl: Declaration, s: Bytes, version: Version): Result<seq<Value>> {
    match BodyAt(decl, s, 0, version)
    case Err(e) => Failure(e)
    case Ok(values, end) => if HasWire(decl, version) && end != |s| then Failure(TrailingBytes) else Success(values)
  }

  // ---- The code the templates emit.

  method EmittedAppend(buf: Bytes, decl: Declaration, values: seq<Value>, version: Version) returns (res: Result<Bytes>)
    requires Typed(decl, values)
    ensures match BodyBytes(decl, values, version)
            case Success(b) => res == Success(buf + b)
            case Failure(e) => res == Failure(e)
  {
    hide FieldBytes;
    var out := buf;
    ghost var all := BodyBytes(decl, values, version);
    for n := 0 to |decl|
      invariant Follows(buf, all, out, BodyBytes(decl[n..], values[n..], version))
    {
      ghost var rest := BodyBytes(decl[n + 1..], values[n + 1..], version);
      assert decl[n..][0] == decl[n] && decl[n..][1..] == decl[n + 1..];
      assert values[n..][0] == values[n] && values[n..][1..] == values[n + 1..];
      ghost var before := out;
      if OnWire(decl[n], version) {
        var next := EmittedField(out, decl[n].tag, values[n], version);
        if next.Failure? {
          return next;
        }
        out := next.value;
        FollowsOn(buf, all, before, FieldBytes(decl[n].tag, values[n], version).value, rest);
      } else {
        assert before + [] == before;
        FollowsOn(buf, all, before, [], rest);
      }
    }
    assert out + [] == out;
    return Success(out);
  }

  method EmittedField(buf: Bytes, tag: Tag, x: Value, version: Version) returns (res: Result<Bytes>)
    requires Matches(tag, x)
    ensures match FieldBytes(tag, x, version)
            case Success(b) => res == Success(buf + b)
            case Failure(e) => res == Failure(e)
  {
    hide Append, Len, BlockBytes, AppendPairs, LocationBytes, AppendFields;
    match tag {
      case VarintTag =>
        return Success(buf + Append(x.n));
      case TlvTag(_) =>
        var out := buf + Append(ToU64(|x.b|));
        assert out + x.b == buf + AppendByteString(x.b);
        return Success(out + x.b);
      case NtlvTag(_) =>
        var out := AppendFieldList(buf, x.list);
        return Success(out);
      case ParamsTag =>
        res := AppendWith(buf, x.params, TopLevel(version), version);
      case PairsToEnd =>
        var out := AppendUnsorted(buf, SortedPairs(x.pairs));
        return Success(out);
      case BoolTag =>
        if x.on {
          return Success(buf + [1]);
        } else {
          return Success(buf + [0]);
        }
      case RedirectToEnd =>
        if x.redirect.Some? {
          var out := AppendRedirect(buf, x.redirect.value);
          return Success(out);
        }
        assert buf + [] == buf;
        return Success(buf);
      case LocationTag =>
        return Success(buf + LocationBytes(x.location));
    }
  }

  method AppendRedirect(buf: Bytes, r: Redirect) returns (out: Bytes)
    ensures out == buf + RedirectBytes(r)
  {
    hide Append, Len, AppendFields;
    out := buf + Append(ToU64(|r.uri|));
    out := out + r.uri;
    assert out == buf + AppendByteString(r.uri);
    out := AppendFieldList(out, r.fields);
    out := out + Append(ToU64(|r.name|));
    out := out + r.name;
    assert out == buf + AppendByteString(r.uri) + AppendFields(r.fields) + AppendByteString(r.name);
  }

  method EmittedParse(decl: Declaration, s: Bytes, version: Version) returns (res: Result<seq<Value>>)
    ensures res == ParseBody(decl, s, version)
  {
    hide FieldAt;
    var values: seq<Value>, parsed := [], 0;
    AfterOne(values, Integer(0), BodyAt(decl, s, 0, version));
    for n := 0 to |decl|
      invariant 0 <= parsed <= |s|
      invariant BodyAt(decl, s, 0, version) == After(values, BodyAt(decl[n..], s, parsed, version))
    {
      assert decl[n..][0] == decl[n] && decl[n..][1..] == decl[n + 1..];
      var x := Default(decl[n].tag);
      ghost var next := parsed;
      if OnWire(decl[n], version) {
        var r := EmittedParseField(decl[n].tag, s, parsed, version);
        if r.Err? {
          return Failure(r.error);
        }
        x := r.value;
        parsed := r.end;
      }
      AfterOne(values, x, BodyAt(decl[n + 1..], s, parsed, version));
      values := values + [x];
    }
    assert values + [] == values;
    if HasWire(decl, version) && parsed < |s| {
      return Failure(TrailingBytes);
    }
    return Success(values);
  }

  method EmittedParseField(tag: Tag, s: Bytes, i: nat, version: Version) returns (r: Parsed<Value>)
    requires i <= |s|
    ensures r == FieldAt(tag, s, i, version)
  {
    hide Vi64At, ByteStringAt, FieldsAt, LocationAt, BlockAt, PairsAt, RedirectAt;
    match tag {
      case VarintTag =>
        var n := Vi64At(s, i);
        return if n.Err? then Err(n.error) else Ok(Integer(n.value), n.end);
      case TlvTag(max) =>
        var b := ByteStringAt(s, i, max);
        return if b.Err? then Err(b.error) else Ok(Octets(b.value), b.end);
      case NtlvTag(max) =>
        var f := ParseFieldList(s, i, max);
        return if f.Err? then Err(f.error) else Ok(List(f.value), f.end);
      case ParamsTag =>
        var p := ParseWith(s, i, TopLevel(version), version);
        return if p.Err? then Err(p.error) else Ok(Params(p.value), p.end);
      case PairsToEnd =>
        var p := ParseAll(s, i);
        return if p.Err? then Err(p.error) else Ok(Pairs(p.value), p.end);
      case BoolTag =>
        if |s| - i < 1 {
          return Err(UnexpectedEof);
        }
        if s[i] > 1 {
          return Err(InvalidBool);
        }
        return Ok(Flag(s[i] == 1), i + 1);
      case RedirectToEnd =>
        if |s| - i > 0 {
          var redirect := RedirectAt(s, i);
          return if redirect.Err? then Err(redirect.error) else Ok(MaybeRedirect(Some(redirect.value)), redirect.end);
        }
        return Ok(MaybeRedirect(None), i);
      case LocationTag =>
        var l := LocationAt(s, i);
        return if l.Err? then Err(l.error) else Ok(Place(l.value), l.end);
    }
  }

  // ---- What is legal, and what comes back.

  predicate WithinMax(n: nat, max: nat) {
    max == 0 || n <= max
  }

  predicate LegalField(tag: Tag, x: Value, version: Version)
    requires Matches(tag, x)
  {
    match tag
    case TlvTag(max) => WithinMax(|x.b|, max)
    case NtlvTag(max) => WithinMax(|x.list|, max)
    case ParamsTag => LegalList(x.params, TopLevel(version), version)
    case PairsToEnd => KeyValuePairs.AllLegal(x.pairs)
    case RedirectToEnd => x.redirect.Some? ==>
      |x.redirect.value.uri| <= MAX_CONNECT_URI && |x.redirect.value.fields| <= MAX_NAMESPACE_FIELDS
    case _ => true
  }

  predicate StorableField(tag: Tag, x: Value, version: Version)
    requires Matches(tag, x)
  {
    match tag
    case TlvTag(_) => |x.b| < TWO_64
    case NtlvTag(_) => Countable(x.list)
    case ParamsTag => StorableList(x.params, TopLevel(version), version)
    case PairsToEnd => Addressable(x.pairs)
    case RedirectToEnd => x.redirect.Some? ==>
      |x.redirect.value.uri| < TWO_64 && Countable(x.redirect.value.fields) && |x.redirect.value.name| < TWO_64
    case _ => true
  }

  function CanonField(tag: Tag, x: Value, version: Version): (r: Value)
    requires Matches(tag, x)
    ensures Matches(tag, r)
  {
    match tag
    case ParamsTag => Params(CanonList(SortedParameters(x.params), TopLevel(version), version))
    case PairsToEnd => Pairs(Canonical(x.pairs))
    case _ => x
  }

  predicate LegalValues(decl: Declaration, values: seq<Value>, version: Version)
    requires Typed(decl, values)
  {
    forall n | 0 <= n < |decl| && OnWire(decl[n], version) :: LegalField(decl[n].tag, values[n], version)
  }

  predicate StorableValues(decl: Declaration, values: seq<Value>, version: Version)
    requires Typed(decl, values)
  {
    forall n | 0 <= n < |decl| && OnWire(decl[n], version) :: StorableField(decl[n].tag, values[n], version)
  }

  function CanonOrDefault(f: FieldDecl, x: Value, version: Version): (r: Value)
    requires Matches(f.tag, x)
    ensures Matches(f.tag, r)
  {
    if OnWire(f, version) then CanonField(f.tag, x, version) else Default(f.tag)
  }

  /** The message as it is received: lists sorted, and a field that is not in the draft left at its default. */
  function CanonValues(decl: Declaration, values: seq<Value>, version: Version): (r: seq<Value>)
    requires Typed(decl, values)
    ensures Typed(decl, r)
    ensures forall n | 0 <= n < |decl| :: r[n] == CanonOrDefault(decl[n], values[n], version)
  {
    seq(|decl|, n requires 0 <= n < |decl| => CanonOrDefault(decl[n], values[n], version))
  }

  // ---- Written, then read.

  lemma RedirectReads(r: Redirect, s: Bytes, i: nat)
    requires |r.uri| < TWO_64 && Countable(r.fields) && |r.name| < TWO_64
    requires Has(s, i, RedirectBytes(r))
    ensures RedirectAt(s, i) ==
            if |r.uri| > MAX_CONNECT_URI then Err(FieldTooLong)
            else if |r.fields| > MAX_NAMESPACE_FIELDS then Err(TooManyFields)
            else Ok(r, i + |RedirectBytes(r)|)
  {
    hide Has, ByteStringAt, AppendByteString, FieldsAt, AppendFields;
    var b1, b2, b3 := AppendByteString(r.uri), AppendFields(r.fields), AppendByteString(r.name);
    HasSplit(s, i, b1, b2 + b3);
    HasSplit(s, i + |b1|, b2, b3);
    ByteStringReads(r.uri, MAX_CONNECT_URI, s, i);
    FieldsRead(r.fields, MAX_NAMESPACE_FIELDS, s, i + |b1|);
    ByteStringReads(r.name, 0, s, i + |b1| + |b2|);
  }

  lemma PairsToEndRead(list: KVPList, s: Bytes, i: nat)
    requires Addressable(list)
    requires Has(s, i, AppendPairs(SortedPairs(list), 0)) && i + |AppendPairs(SortedPairs(list), 0)| == |s|
    ensures PairsAt(s, i, 0) == if KeyValuePairs.AllLegal(list) then Ok(Canonical(list), |s|) else Err(ValueTooLong)
  {
    hide PairsAt, AppendPairs, Has;
    var sorted := SortedPairs(list);
    SortKeepsMembers(list);
    StableSorting.SortIsStable(list, TypeOf);
    KeyValuePairs.SortedIsOrdered(sorted, 0);
    PairsRead(sorted, 0, s, i);
  }

  /** A flag is one byte, 0 or 1 and no other. */
  lemma BoolIsExact(s: Bytes, i: nat, version: Version)
    requires i <= |s|
    ensures FieldAt(BoolTag, s, i, version) ==
            if i == |s| then Err(UnexpectedEof)
            else match s[i] case 0 => Ok(Flag(false), i + 1) case 1 => Ok(Flag(true), i + 1) case _ => Err(InvalidBool)
  {
  }

  lemma FieldReads(tag: Tag, x: Value, version: Version, s: Bytes, i: nat)
    requires Matches(tag, x) && FieldBytes(tag, x, version).Success? && StorableField(tag, x, version)
    requires i <= |s| && Has(s, i, FieldBytes(tag, x, version).value)
    requires RunsToEnd(tag) ==> i + |FieldBytes(tag, x, version).value| == |s|
    ensures if LegalField(tag, x, version)
            then FieldAt(tag, s, i, version) == Ok(CanonField(tag, x, version), i + |FieldBytes(tag, x, version).value|)
            else FieldAt(tag, s, i, version).Err?
  {
    hide Vi64At, Append, Len, FieldsAt, AppendFields, ByteStringAt, AppendByteString, LocationAt, LocationBytes;
    hide BlockBytes, BlockAt, LegalList, StorableList, CanonList, SortedParameters, PairsAt, AppendPairs, SortedPairs;
    hide Canonical, RedirectAt, RedirectBytes, KeyValuePairs.AllLegal, Addressable;
    match tag {
      case VarintTag => AppendReads(x.n, s, i);
      case TlvTag(max) => ByteStringReads(x.b, max, s, i);
      case NtlvTag(max) => FieldsRead(x.list, max, s, i);
      case ParamsTag => BlockReads(x.params, TopLevel(version), version, s, i);
      case PairsToEnd => PairsToEndRead(x.pairs, s, i);
      case BoolTag => OneByteReads(if x.on then 1 else 0, s, i);
      case RedirectToEnd =>
        if x.redirect.Some? {
          RedirectIsThere(x.redirect.value);
          RedirectReads(x.redirect.value, s, i);
        }
      case LocationTag => LocationReads(x.location, s, i);
    }
  }

  lemma RedirectIsThere(r: Redirect)
    ensures RedirectBytes(r) != []
  {
    hide AppendFields;
  }

  lemma {:induction false} NothingOnWire(decl: Declaration, values: seq<Value>, version: Version)
    requires Typed(decl, values) && !HasWire(decl, version)
    ensures BodyBytes(decl, values, version) == Success([])
  {
    hide OnWire, FieldBytes;
    if decl != [] {
      assert decl[0] in decl && forall f :: f in decl[1..] ==> f in decl;
      assert !OnWire(decl[0], version);
      var none: Bytes := [];
      assert none + none == none;
      NothingOnWire(decl[1..], values[1..], version);
    }
  }

  lemma {:induction false} BodyReads(decl: Declaration, values: seq<Value>, version: Version, s: Bytes, i: nat)
    requires Typed(decl, values) && EndsLast(decl, version)
    requires BodyBytes(decl, values, version).Success? && StorableValues(decl, values, version)
    requires Has(s, i, BodyBytes(decl, values, version).value) && i + |BodyBytes(decl, values, version).value| == |s|
    ensures if LegalValues(decl, values, version)
            then BodyAt(decl, s, i, version) == Ok(CanonValues(decl, values, version), |s|)
            else BodyAt(decl, s, i, version).Err?
    decreases |decl|
  {
    hide Has, FieldAt, FieldBytes, LegalField, StorableField, CanonField, OnWire, RunsToEnd, Matches, HasWire;
    hide LegalValues, StorableValues;
    if decl == [] {
      NoFields(version);
    } else {
      var f, rest, x, xs := decl[0], decl[1..], values[0], values[1..];
      LegalCons(decl, values, version);
      CanonCons(decl, values, version);
      var first := OptionalField(f, x, version).value;
      HasSplit(s, i, first, BodyBytes(rest, xs, version).value);
      if OnWire(f, version) {
        if RunsToEnd(f.tag) {
          NothingOnWire(rest, xs, version);
        }
        FieldReads(f.tag, x, version, s, i);
      }
      BodyReads(rest, xs, version, s, i + |first|);
    }
  }

  lemma LegalCons(decl: Declaration, values: seq<Value>, version: Version)
    requires Typed(decl, values) && decl != []
    ensures Typed(decl[1..], values[1..])
    ensures LegalValues(decl, values, version) <==>
            (OnWire(decl[0], version) ==> LegalField(decl[0].tag, values[0], version))
            && LegalValues(decl[1..], values[1..], version)
    ensures StorableValues(decl, values, version) <==>
            (OnWire(decl[0], version) ==> StorableField(decl[0].tag, values[0], version))
            && StorableValues(decl[1..], values[1..], version)
  {
    hide OnWire, LegalField, StorableField, Matches;
    var rest, xs := decl[1..], values[1..];
    assert forall n | 1 <= n < |decl| :: rest[n - 1] == decl[n] && xs[n - 1] == values[n];
    assert forall n | 0 <= n < |rest| :: rest[n] == decl[n + 1] && xs[n] == values[n + 1];
  }

  lemma CanonCons(decl: Declaration, values: seq<Value>, version: Version)
    requires Typed(decl, values) && decl != []
    ensures Typed(decl[1..], values[1..])
    ensures CanonValues(decl, values, version) ==
            [CanonOrDefault(decl[0], values[0], version)] + CanonValues(decl[1..], values[1..], version)
  {
  }

  lemma NoFields(version: Version)
    ensures LegalValues([], [], version) && StorableValues([], [], version) && CanonValues([], [], version) == []
  {
  }

  /** For any declaration whose only run-to-end tag is last: the emitted parse undoes the emitted append
      exactly when the values are within their bounds, up to sorting and fields of other drafts. */
  lemma BodyRoundTrip(decl: Declaration, values: seq<Value>, version: Version)
    requires Typed(decl, values) && EndsLast(decl, version)
    requires BodyBytes(decl, values, version).Success? && StorableValues(decl, values, version)
    ensures var s := BodyBytes(decl, values, version).value;
            if LegalValues(decl, values, version) then ParseBody(decl, s, version) == Success(CanonValues(decl, values, version))
            else ParseBody(decl, s, version).Failure?
  {
    var s := BodyBytes(decl, values, version).value;
    WholeIsThere(s);
    BodyReads(decl, values, version, s, 0);
  }

  // ---- Read, then written.

  lemma RedirectIsCanonical(s: Bytes, i: nat)
    requires RedirectAt(s, i).Ok?
    ensures var r := RedirectAt(s, i).value;
            && |r.uri| <= MAX_CONNECT_URI && |r.fields| <= MAX_NAMESPACE_FIELDS
            && Countable(r.fields) && |r.name| < TWO_64
            && |RedirectBytes(r)| <= RedirectAt(s, i).end - i
  {
    hide ByteStringAt, AppendByteString, FieldsAt, AppendFields, Countable;
    ByteStringIsShort(s, i, MAX_CONNECT_URI);
    var i1 := ByteStringAt(s, i, MAX_CONNECT_URI).end;
    FieldsAreCanonical(s, i1, MAX_NAMESPACE_FIELDS);
    ByteStringIsShort(s, FieldsAt(s, i1, MAX_NAMESPACE_FIELDS).end, 0);
  }

  lemma PairsToEndAreCanonical(s: Bytes, i: nat)
    requires i <= |s| && PairsAt(s, i, 0).Ok?
    ensures var list := PairsAt(s, i, 0).value;
            && Addressable(list) && KeyValuePairs.AllLegal(list) && Canonical(list) == list
            && |AppendPairs(SortedPairs(list), 0)| <= |s| - i
  {
    hide PairsAt, AppendPairs;
    var list := PairsAt(s, i, 0).value;
    ParsedPairsAreCanonical(s, i, 0);
    KeyValuePairs.OrderedIsSorted(list, 0);
    StableSorting.SortOfSorted(list, TypeOf);
    forall p | p in list ensures |p.bytes| < TWO_64 {
      var n :| 0 <= n < |list| && list[n] == p;
      assert CanonAll(list)[n] == KeyValuePairs.Canon(p);
    }
  }

  lemma FieldIsCanonical(tag: Tag, s: Bytes, i: nat, version: Version)
    requires i <= |s| && FieldAt(tag, s, i, version).Ok?
    ensures var x, size := FieldAt(tag, s, i, version).value, FieldAt(tag, s, i, version).end - i;
            && StorableField(tag, x, version) && LegalField(tag, x, version) && CanonField(tag, x, version) == x
            && FieldBytes(tag, x, version).Success? && |FieldBytes(tag, x, version).value| <= size
  {
    hide Vi64At, Append, Len, FieldsAt, AppendFields, ByteStringAt, AppendByteString, LocationAt, LocationBytes;
    hide BlockBytes, BlockAt, LegalList, StorableList, CanonList, SortedParameters, PairsAt, AppendPairs, SortedPairs;
    hide Canonical, RedirectAt, RedirectBytes, KeyValuePairs.AllLegal, Addressable, Countable;
    match tag {
      case VarintTag => DeltaIsCanonical(s, i);
      case TlvTag(max) => ByteStringIsShort(s, i, max);
      case NtlvTag(max) => FieldsAreCanonical(s, i, max);
      case ParamsTag => BlockIsSettled(s, i, TopLevel(version), version);
      case PairsToEnd => PairsToEndAreCanonical(s, i);
      case BoolTag =>
      case RedirectToEnd =>
        if i < |s| {
          RedirectIsCanonical(s, i);
        }
      case LocationTag => LocationIsCanonical(s, i);
    }
  }

  predicate SettledBody(decl: Declaration, values: seq<Value>, version: Version, size: nat)
    requires Typed(decl, values)
  {
    && StorableValues(decl, values, version) && LegalValues(decl, values, version)
    && CanonValues(decl, values, version) == values
    && BodyBytes(decl, values, version).Success? && |BodyBytes(decl, values, version).value| <= size
  }

  lemma {:induction false} BodyIsSettled(decl: Declaration, s: Bytes, i: nat, version: Version)
    requires i <= |s| && BodyAt(decl, s, i, version).Ok?
    ensures SettledBody(decl, BodyAt(decl, s, i, version).value, version, BodyAt(decl, s, i, version).end - i)
    decreases |decl|
  {
    hide FieldAt, FieldBytes, LegalField, StorableField, CanonField, OnWire, Matches, LegalValues, StorableValues;
    if decl == [] {
      NoFields(version);
    } else {
      var f, rest := decl[0], decl[1..];
      var (x, j) := OptionalFieldAt(f, s, i, version).Extract();
      var xs := BodyAt(rest, s, j, version).value;
      var values := BodyAt(decl, s, i, version).value;
      assert values == [x] + xs && values[1..] == xs && values[0] == x;
      if OnWire(f, version) {
        FieldIsCanonical(f.tag, s, i, version);
      }
      BodyIsSettled(rest, s, j, version);
      LegalCons(decl, values, version);
      CanonCons(decl, values, version);
    }
  }

  /** Whatever body is accepted can be written again in no more bytes and is accepted as the same message.
      A body with fields is consumed to its last byte, and fields of other drafts stay at their defaults. */
  lemma BodyCanonicalisation(decl: Declaration, s: Bytes, version: Version)
    requires EndsLast(decl, version) && ParseBody(decl, s, version).Success?
    ensures var values := ParseBody(decl, s, version).value;
            && Typed(decl, values) && BodyBytes(decl, values, version).Success?
            && var again := BodyBytes(decl, values, version).value;
            && |again| <= |s| && ParseBody(decl, again, version) == Success(values)
            && (HasWire(decl, version) ==> BodyAt(decl, s, 0, version).end == |s|)
            && forall n | 0 <= n < |decl| && !OnWire(decl[n], version) :: values[n] == Default(decl[n].tag)
  {
    hide BodyAt, BodyBytes, StorableValues, LegalValues, EndsLast;
    BodyIsSettled(decl, s, 0, version);
    BodyRoundTrip(decl, ParseBody(decl, s, version).value, version);
  }

  /** A declaration with no field on the wire accepts any body at all, and no other declaration does:
      the length check is missing from its emitted parse. */
  lemma OnlyFieldlessAcceptsAnything(decl: Declaration, version: Version)
    ensures (forall s :: ParseBody(decl, s, version).Success?) <==> !HasWire(decl, version)
  {
    hide FieldAt;
    if HasWire(decl, version) {
      TruncatedIsRefused(decl, version);
      assert ParseBody(decl, [0x80], version).Failure?;
    } else {
      forall s ensures ParseBody(decl, s, version).Success? {
        FieldlessReads(decl, s, version);
      }
    }
  }

  lemma {:induction false} FieldlessReads(decl: Declaration, s: Bytes, version: Version)
    requires !HasWire(decl, version)
    ensures BodyAt(decl, s, 0, version).Ok?
  {
    hide FieldAt, OnWire;
    if decl != [] {
      assert decl[0] in decl && forall f :: f in decl[1..] ==> f in decl;
      FieldlessReads(decl[1..], s, version);
    }
  }

  /** No first field reads from half an integer. */
  lemma {:induction false} TruncatedIsRefused(decl: Declaration, version: Version)
    requires HasWire(decl, version)
    ensures BodyAt(decl, [0x80], 0, version).Err?
  {
    hide FieldAt;
    var f :| f in decl && OnWire(f, version);
    if OnWire(decl[0], version) {
      HalfIntegerFails(decl[0].tag, version);
    } else {
      assert f in decl[1..];
      TruncatedIsRefused(decl[1..], version);
    }
  }

  lemma HalfIntegerFails(tag: Tag, version: Version)
    ensures FieldAt(tag, [0x80], 0, version).Err?
  {
    hide Vi64.Number, Marker;
    assert Vi64At([0x80], 0).Err?;
  }
}
