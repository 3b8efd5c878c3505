/** The variable-length integer of the drafts: the number of leading ones in the
    first byte says how many bytes follow, 0 to 8. A reader accepts every width;
    a writer uses the shortest. */
module Vi64 {
  import opened Wire

  /** One past the largest value `w` bytes can hold. */
  function Capacity(w: nat): nat {
    match w
    case 1 => 0x80
    case 2 => 0x4000
    case 3 => 0x20_0000
    case 4 => 0x1000_0000
    case 5 => 0x8_0000_0000
    case 6 => 0x400_0000_0000
    case 7 => 0x2_0000_0000_0000
    case 8 => 0x100_0000_0000_0000
    case 9 => 0x1_0000_0000_0000_0000
    case _ => 0
  }

  /** The leading ones announcing `w` bytes, as the top bits of a `w`-byte number. */
  function Marker(w: nat): nat {
    match w
    case 2 => 0x8000
    case 3 => 0xC0_0000
    case 4 => 0xE000_0000
    case 5 => 0xF0_0000_0000
    case 6 => 0xF800_0000_0000
    case 7 => 0xFC_0000_0000_0000
    case 8 => 0xFE00_0000_0000_0000
    case 9 => 0xFF_0000_0000_0000_0000
    case _ => 0
  }

  /** The bytes the first byte `b` announces. */
  function Width(b: U8): (w: nat)
    ensures 1 <= w <= 9
  {
    if b < 0x80 then 1 else if b < 0xC0 then 2 else if b < 0xE0 then 3 else if b < 0xF0 then 4
    else if b < 0xF8 then 5 else if b < 0xFC then 6 else if b < 0xFE then 7
    else if b < 0xFF then 8 else 9
  }

  predicate Fits(v: U64, w: nat) {
    v < Capacity(w)
  }

  /** The shortest width for `v`, which is what a writer uses. */
  function Len(v: U64): (w: nat)
    ensures 1 <= w <= 9 && Fits(v, w)
  {
    if v < 0x80 then 1 else if v < 0x4000 then 2 else if v < 0x20_0000 then 3
    else if v < 0x1000_0000 then 4 else if v < 0x8_0000_0000 then 5
    else if v < 0x400_0000_0000 then 6 else if v < 0x2_0000_0000_0000 then 7
    else if v < 0x100_0000_0000_0000 then 8 else 9
  }

  /** `n` as `w` bytes, most significant first. */
  function BigEndian(n: nat, w: nat): (b: Bytes)
    ensures |b| == w
  {
    if w == 0 then [] else BigEndian(n / 256, w - 1) + [n % 256]
  }

  function Number(b: Bytes): nat {
    if b == [] then 0 else 256 * Number(b[..|b| - 1]) + b[|b| - 1]
  }

  /** `v` in exactly `w` bytes. */
  function Put(v: U64, w: nat): (b: Bytes)
    ensures |b| == w
  {
    BigEndian(Marker(w) + v, w)
  }

  /** `v` in its shortest form. */
  function Append(v: U64): (b: Bytes)
    ensures |b| == Len(v)
  {
    Put(v, Len(v))
  }

  /** Reads an integer inside a record, where the end of the bytes is a truncation. */
  function Vi64At(s: Bytes, i: nat): (r: Parsed<U64>)
    ensures r.Ok? ==> i < r.end <= |s| && Fits(r.value, r.end - i)
    ensures r.Err? ==> r.error == UnexpectedEof
  {
    if i >= |s| then Err(UnexpectedEof)
    else
      var w := Width(s[i]);
      if i + w > |s| then Err(UnexpectedEof)
      else
        ValueRange(s[i..i + w]);
        Ok(Number(s[i..i + w]) - Marker(w), i + w)
  }

  /** Reads the integer a record starts with, where nothing at all is a clean end. */
  function LeadingVi64At(s: Bytes, i: nat): (r: Parsed<U64>)
    ensures r.Ok? ==> i < r.end <= |s|
  {
    if i >= |s| then Err(Eof) else Vi64At(s, i)
  }

  function Pow256(k: nat): (p: nat)
    ensures p > 0
  {
    if k == 0 then 1 else 256 * Pow256(k - 1)
  }

  lemma Pow256Values()
    ensures Pow256(0) == 1
    ensures Pow256(1) == 0x100
    ensures Pow256(2) == 0x1_0000
    ensures Pow256(3) == 0x100_0000
    ensures Pow256(4) == 0x1_0000_0000
    ensures Pow256(5) == 0x100_0000_0000
    ensures Pow256(6) == 0x1_0000_0000_0000
    ensures Pow256(7) == 0x100_0000_0000_0000
    ensures Pow256(8) == 0x1_0000_0000_0000_0000
    ensures Pow256(9) == 0x100_0000_0000_0000_0000
  {
    assert Pow256(4) == 256 * Pow256(3);
    assert Pow256(6) == 256 * Pow256(5);
    assert Pow256(8) == 256 * Pow256(7);
  }

  /** The first byte alone bounds the number. */
  lemma {:induction false} NumberRange(b: Bytes)
    requires b != []
    ensures b[0] * Pow256(|b| - 1) <= Number(b) < (b[0] + 1) * Pow256(|b| - 1)
  {
    var front := b[..|b| - 1];
    if front == [] {
      assert Number(b) == 256 * Number(front) + b[0];
    } else {
      NumberRange(front);
      var p := Pow256(|b| - 2);
      assert Pow256(|b| - 1) == 256 * p;
      Scale(b[0], p);
      Scale(b[0] as int + 1, p);
    }
  }

  lemma Scale(x: nat, p: nat)
    ensures x * (256 * p) == 256 * (x * p)
  {
  }

  lemma ValueRange(b: Bytes)
    requires b != [] && |b| == Width(b[0])
    ensures Marker(|b|) <= Number(b) < Marker(|b|) + Capacity(|b|)
  {
    var w := |b|;
    WidthOfFirst(b[0], w);
    MarkedRange(w);
    hide Marker, Capacity, Pow256, FirstMin, FirstMax, Width, Number;
    NumberRange(b);
    Monotone(FirstMin(w), b[0], Pow256(w - 1));
    FirstSpan(w, b[0]);
  }

  /** The last number that starts with a byte announcing `w` bytes is within its capacity. */
  lemma FirstSpan(w: nat, first: U8)
    requires 1 <= w <= 9 && FirstMin(w) <= first <= FirstMax(w)
    ensures (first + 1) * Pow256(w - 1) <= Marker(w) + Capacity(w)
  {
    Pow256Values();
    hide Pow256;
    Monotone(first + 1, FirstMax(w) + 1, Pow256(w - 1));
  }

  lemma {:induction false} BigEndianNumber(n: nat, w: nat)
    requires n < Pow256(w)
    ensures Number(BigEndian(n, w)) == n
  {
    if w > 0 {
      BigEndianNumber(n / 256, w - 1);
      assert BigEndian(n, w)[..w - 1] == BigEndian(n / 256, w - 1);
    }
  }

  lemma {:induction false} NumberBigEndian(b: Bytes)
    ensures BigEndian(Number(b), |b|) == b
  {
    if b != [] {
      var front := b[..|b| - 1];
      NumberBigEndian(front);
      assert Number(b) / 256 == Number(front);
      assert b == front + [b[|b| - 1]];
    }
  }

  /** The numbers of `w` bytes that carry its marker, as a range of first bytes. */
  lemma MarkedRange(w: nat)
    requires 1 <= w <= 9
    ensures Marker(w) + Capacity(w) <= Pow256(w)
    ensures Marker(w) == FirstMin(w) * Pow256(w - 1)
    ensures Marker(w) + Capacity(w) <= (FirstMax(w) + 1) * Pow256(w - 1)
  {
    Pow256Values();
  }

  /** The least and greatest first byte announcing `w` bytes. */
  function FirstMin(w: nat): (b: U8)
    requires 1 <= w <= 9
  {
    match w
    case 1 => 0 case 2 => 0x80 case 3 => 0xC0 case 4 => 0xE0 case 5 => 0xF0
    case 6 => 0xF8 case 7 => 0xFC case 8 => 0xFE case _ => 0xFF
  }

  function FirstMax(w: nat): (b: U8)
    requires 1 <= w <= 9
  {
    match w
    case 1 => 0x7F case 2 => 0xBF case 3 => 0xDF case 4 => 0xEF case 5 => 0xF7
    case 6 => 0xFB case 7 => 0xFD case 8 => 0xFE case _ => 0xFF
  }

  lemma WidthOfFirst(b: U8, w: nat)
    requires 1 <= w <= 9
    ensures Width(b) == w <==> FirstMin(w) <= b <= FirstMax(w)
  {
  }

  /** A quotient between two bounds, without division. */
  lemma QuotientBetween(b: nat, p: nat, low: nat, high: nat, n: nat)
    requires p > 0 && b * p <= n < (b + 1) * p && low * p <= n < (high + 1) * p
    ensures low <= b <= high
  {
    if b < low {
      Monotone(b + 1, low, p);
    }
    if high < b {
      Monotone(high + 1, b, p);
    }
  }

  lemma Monotone(a: nat, b: nat, p: nat)
    requires a <= b
    ensures a * p <= b * p
  {
  }

  lemma FirstByte(n: nat, w: nat)
    requires 1 <= w <= 9 && Marker(w) <= n < Marker(w) + Capacity(w)
    ensures n < Pow256(w) && Width(BigEndian(n, w)[0]) == w
  {
    hide Marker, Capacity, Pow256, FirstMin, FirstMax, Width, BigEndian, Number;
    MarkedRange(w);
    BigEndianNumber(n, w);
    var b := BigEndian(n, w);
    NumberRange(b);
    QuotientBetween(b[0], Pow256(w - 1), FirstMin(w), FirstMax(w), n);
    WidthOfFirst(b[0], w);
  }

  lemma FitsNine(v: U64, w: nat)
    requires Fits(v, w)
    ensures w <= 9 && v < Capacity(w)
  {
  }

  /** What is put announces its width and is the value past its marker. */
  lemma PutIs(v: U64, w: nat)
    requires 1 <= w && Fits(v, w)
    ensures Width(Put(v, w)[0]) == w && Number(Put(v, w)) == Marker(w) + v
  {
    hide Marker, Capacity, Pow256, Width, BigEndian, Number, Fits;
    FitsNine(v, w);
    FirstByte(Marker(w) + v, w);
    BigEndianNumber(Marker(w) + v, w);
  }

  /** Every width reads back: what was put at `i` is what is read there, and nothing more is consumed. */
  lemma PutReads(v: U64, w: nat, s: Bytes, i: nat)
    requires 1 <= w && Fits(v, w) && Has(s, i, Put(v, w))
    ensures Vi64At(s, i) == Ok(v, i + w)
  {
    hide Marker, Capacity, Pow256, Width, BigEndian, Number, Has, Put, Fits;
    PutIs(v, w);
    HasFirst(Put(v, w), s, i);
  }

  /** And nothing else does: an integer that reads was put there, in the width it was read from. */
  lemma ReadsArePut(s: Bytes, i: nat)
    requires Vi64At(s, i).Ok?
    ensures Has(s, i, Put(Vi64At(s, i).value, Vi64At(s, i).end - i))
  {
    hide Marker, Capacity, Width, BigEndian, Number;
    var w := Width(s[i]);
    var b := s[i..i + w];
    assert b[0] == s[i] && |b| == w;
    ValueRange(b);
    NumberBigEndian(b);
    assert Put(Vi64At(s, i).value, w) == b;
  }

  lemma AppendReads(v: U64, s: Bytes, i: nat)
    requires Has(s, i, Append(v))
    ensures Vi64At(s, i) == Ok(v, i + Len(v))
  {
    PutReads(v, Len(v), s, i);
  }

  /** Len picks the shortest width that fits. */
  lemma LenIsShortest(v: U64, w: nat)
    requires Fits(v, w)
    ensures Len(v) <= w
  {
  }

  /** Cutting the bytes leaves an integer before the cut alone and truncates one across it. */
  lemma Vi64Cut(s: Bytes, i: nat, k: nat)
    requires Vi64At(s, i).Ok? && k <= |s|
    ensures Vi64At(s, i).end <= k ==> Vi64At(s[..k], i) == Vi64At(s, i)
    ensures i <= k < Vi64At(s, i).end ==> Vi64At(s[..k], i) == Err(UnexpectedEof)
  {
    var w := Width(s[i]);
    if i + w <= k {
      SliceOfPrefix(s, k, i, i + w);
    }
  }

  /** The forms the repository's tests pin: one byte up to 127, two for the type of SETUP, and a non-minimal
      two-byte 2. */
  lemma PinnedForms()
    ensures Append(64) == [0x40] && Append(127) == [0x7F] && Append(0x2F00) == [0xAF, 0x00]
    ensures Vi64At([0x80, 0x02, 0x25], 0) == Ok(2, 2)
  {
    assert BigEndian(64, 1) == BigEndian(0, 0) + [64];
    assert BigEndian(127, 1) == BigEndian(0, 0) + [127];
    assert BigEndian(0xAF00, 2) == BigEndian(0xAF, 1) + [0x00];
    assert BigEndian(0xAF, 1) == BigEndian(0, 0) + [0xAF];
    var two: Bytes := [0x80, 0x02];
    assert [0x80, 0x02, 0x25][0..2] == two;
    assert two[..1] == [0x80] && two[..1][..0] == [];
    assert Number(two[..1]) == 256 * Number([]) + 0x80;
    assert Number(two) == 256 * Number(two[..1]) + 0x02;
  }
}
