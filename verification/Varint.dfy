/**
 QUIC variable-length integers (section 16 of RFC 9000) restricted to minimal
 encodings, as in `internal/wire/varint.go`.

 Bytes are integers below 256; a shift is a division or multiplication by a
 power of two, and `b | tag` on a byte whose two top bits are clear is `b + tag`.
 */
module Varint {
  type byte = x: int | 0 <= x < 256
  type Bytes = seq<byte>
  type int64 = x: int | -0x8000_0000_0000_0000 <= x < 0x8000_0000_0000_0000

  const MAX_VARINT: nat := 0x3FFF_FFFF_FFFF_FFFF

  datatype WireError =
    | Truncated | NonMinimal | ValueTooLarge   // varint.go
    | InvalidKind | TooLarge | Malformed       // events.go
    | ExtraHeaderBytes                         // request.go
    | EndOfStream                              // io.EOF

  datatype Result<+T> = Ok(value: T) | Err(error: WireError)

  function VarintLen(v: nat): nat {
    if v <= 63 then 1
    else if v <= 16383 then 2
    else if v <= 1073741823 then 4
    else if v <= MAX_VARINT then 8
    else 0
  }

  // ---------------------------------------------------------------- digits

  /** The `n` low-order bytes of `v`, most significant first. */
  function BigEndian(v: nat, n: nat): (b: Bytes)
    ensures |b| == n
  {
    if n == 0 then [] else BigEndian(v / 256, n - 1) + [v % 256]
  }

  function FromBigEndian(b: Bytes): nat {
    if b == [] then 0 else FromBigEndian(b[..|b| - 1]) * 256 + b[|b| - 1]
  }

  lemma SingleDigit(x: byte)
    ensures FromBigEndian([x]) == x
  {
    DigitAppended([], x);
    assert [] + [x] == [x];
  }

  lemma DigitAppended(b: Bytes, x: byte)
    ensures FromBigEndian(b + [x]) == FromBigEndian(b) * 256 + x
  {
    assert (b + [x])[..|b|] == b;
  }

  function Pow256(n: nat): (p: nat)
    ensures p >= 1
  {
    if n == 0 then 1 else 256 * Pow256(n - 1)
  }

  lemma {:induction false} BigEndianInverse(v: nat, n: nat)
    requires v < Pow256(n)
    ensures FromBigEndian(BigEndian(v, n)) == v
  {
    if n > 0 {
      BigEndianInverse(v / 256, n - 1);
      var b := BigEndian(v, n);
      assert b[..|b| - 1] == BigEndian(v / 256, n - 1);
    }
  }

  lemma {:induction false} FromBigEndianInverse(b: Bytes)
    ensures FromBigEndian(b) < Pow256(|b|)
    ensures BigEndian(FromBigEndian(b), |b|) == b
  {
    if b != [] {
      FromBigEndianInverse(b[..|b| - 1]);
    }
  }

  /** The first byte is the most significant digit. */
  lemma {:induction false} LeadingDigit(first: byte, rest: Bytes)
    ensures FromBigEndian([first] + rest) == first * Pow256(|rest|) + FromBigEndian(rest)
  {
    var b := [first] + rest;
    if rest == [] {
      assert b == [first] && b[..0] == [];
    } else {
      var front := rest[..|rest| - 1];
      assert b[..|b| - 1] == [first] + front;
      LeadingDigit(first, front);
    }
  }

  lemma Powers()
    ensures Pow256(0) == 1 && Pow256(1) == 0x100 && Pow256(2) == 0x1_0000 && Pow256(3) == 0x100_0000
    ensures Pow256(4) == 0x1_0000_0000 && Pow256(7) == 0x100_0000_0000_0000
    ensures Pow256(8) == 0x1_0000_0000_0000_0000
  {
    assert Pow256(5) == 256 * Pow256(4) && Pow256(6) == 256 * Pow256(5);
  }

  // -------------------------------------------------------- specification

  /** The length tag of an `n`-byte encoding, in the two top bits of its first byte. */
  function Tag(n: nat): nat {
    match n
    case 2 => 0x4000
    case 4 => 0x8000_0000
    case 8 => 0xC000_0000_0000_0000
    case _ => 0
  }

  /** The one minimal encoding of `v`: its big-endian digits under the length tag. */
  function VarintBytes(v: nat): (b: Bytes)
    ensures |b| == VarintLen(v)
  {
    BigEndian(v + Tag(VarintLen(v)), VarintLen(v))
  }

  function EncodeVarint(v: nat): Result<Bytes> {
    if VarintLen(v) == 0 then Err(ValueTooLarge) else Ok(VarintBytes(v))
  }

  function TagLen(first: byte): (n: nat)
    ensures n == 1 || n == 2 || n == 4 || n == 8
  {
    match first / 64
    case 0 => 1
    case 1 => 2
    case 2 => 4
    case _ => 8
  }

  /** What `DecodeVarint` finds at the front of `src`: the value and its length. */
  function ParseVarint(src: Bytes): (r: Result<(nat, nat)>)
    ensures r.Ok? ==> 1 <= r.value.1 <= |src|
  {
    if src == [] then Err(Truncated)
    else
      var n := TagLen(src[0]);
      if |src| < n then Err(Truncated)
      else
        var v := FromBigEndian([src[0] % 64] + src[1..n]);
        if VarintLen(v) != n then Err(NonMinimal) else Ok((v, n))
  }

  // ------------------------------------------------------------ bijection

  /** Decoding inverts encoding, whatever follows on the wire. */
  lemma VarintRoundTrip(v: nat, rest: Bytes)
    requires v <= MAX_VARINT
    ensures ParseVarint(VarintBytes(v) + rest) == Ok((v, VarintLen(v)))
  {
    var n := VarintLen(v);
    var b := VarintBytes(v);
    TaggedBytes(v);
    hide VarintBytes, FromBigEndian;
    var src := b + rest;
    assert src[0] == b[0] && src[1..n] == b[1..];
  }

  /** The two top bits of an encoding give its length, the others its value. */
  lemma TaggedBytes(v: nat)
    requires v <= MAX_VARINT
    ensures var n, b := VarintLen(v), VarintBytes(v);
            && b[0] / 64 == TagBits(n) && TagLen(b[0]) == n
            && b[0] % 64 == v / Pow256(n - 1)
            && FromBigEndian([b[0] % 64] + b[1..]) == v
  {
    hide BigEndian, FromBigEndian, Pow256, Tag;
    var n := VarintLen(v);
    var b := VarintBytes(v);
    LengthTag(v);
    BigEndianInverse(v + Tag(n), n);
    assert b == [b[0]] + b[1..];
    LeadingDigit(b[0], b[1..]);
    LeadingDigit(b[0] % 64, b[1..]);
    FromBigEndianInverse(b[1..]);
    TaggedDigit(b[0], FromBigEndian(b[1..]), Pow256(n - 1), v, TagBits(n));
  }

  function TagBits(n: nat): nat {
    match n
    case 2 => 1
    case 4 => 2
    case 8 => 3
    case _ => 0
  }

  lemma LengthTag(v: nat)
    requires v <= MAX_VARINT
    ensures var n := VarintLen(v);
            && Tag(n) == 64 * TagBits(n) * Pow256(n - 1)
            && v < 64 * Pow256(n - 1) && v + Tag(n) < Pow256(n)
  {
    Powers();
  }

  /** Splits a tagged number into its tagged leading digit and the rest. */
  lemma TaggedDigit(first: nat, low: nat, p: nat, v: nat, t: nat)
    requires p >= 1 && low < p && v < 64 * p
    requires first * p + low == v + 64 * t * p
    ensures first / 64 == t && first % 64 == v / p && (first % 64) * p + low == v
  {
    var q, r := v / p, v % p;
    QuotientBelow(v, p, 64);
    DivUnique(v + 64 * t * p, p, first, low);
    Distribute(p, q, 64 * t);
    DivUnique(v + 64 * t * p, p, q + 64 * t, r);
    assert first == q + 64 * t;
  }

  lemma Distribute(p: nat, a: nat, b: nat)
    ensures p * (a + b) == p * a + b * p
  {
  }

  lemma QuotientBelow(v: nat, p: nat, k: nat)
    requires p >= 1 && v < k * p
    ensures v / p < k
  {
  }

  lemma MulMono(p: nat, a: nat, b: nat)
    requires a <= b
    ensures p * a <= p * b
  {
  }

  /** Only the minimal encoding is accepted. */
  lemma VarintUnique(src: Bytes)
    requires ParseVarint(src).Ok?
    ensures var (v, n) := ParseVarint(src).value;
            && v <= MAX_VARINT && n == VarintLen(v)
            && src == VarintBytes(v) + src[n..]
  {
    hide BigEndian, FromBigEndian, Pow256, Tag;
    var (v, n) := ParseVarint(src).value;
    var b := src[..n];
    assert b == [src[0]] + src[1..n];
    LeadingDigit(src[0], src[1..n]);
    LeadingDigit(src[0] % 64, src[1..n]);
    FromBigEndianInverse(b);
    LengthTag(v);
    UntaggedDigit(src[0], FromBigEndian(src[1..n]), Pow256(n - 1), v, TagBits(n));
    assert VarintBytes(v) == b;
  }

  lemma UntaggedDigit(first: nat, low: nat, p: nat, v: nat, t: nat)
    requires first / 64 == t && (first % 64) * p + low == v
    ensures first * p + low == v + 64 * t * p
  {
    assert first == 64 * t + first % 64;
    assert (64 * t + first % 64) * p == 64 * t * p + (first % 64) * p;
  }

  // ------------------------------------------------------- imperative form

  /** `AppendVarint`: grows the buffer by `n` zero bytes and fills them in place. */
  method AppendVarint(dst: Bytes, v: nat) returns (r: Result<Bytes>)
    ensures r == match EncodeVarint(v) case Ok(b) => Ok(dst + b) case Err(e) => Err(e)
  {
    hide VarintBytes, Pow256, Tag, LowByte;
    var n := VarintLen(v);
    if n == 0 {
      return Err(ValueTooLarge);
    }
    var start := |dst|;
    var buf: Bytes := dst + seq(n, i => 0);
    if n == 8 {
      LongForm(v);
      buf := buf[start := LowByte(v, Pow256(7)) + 0xC0];
      var i := 1;
      while i < 8
        invariant 1 <= i <= 8
        invariant |buf| == start + 8
        invariant buf[..start + i] == dst + VarintBytes(v)[..i]
      {
        buf := buf[start + i := LowByte(v, Pow256(7 - i))];
        assert buf[..start + i + 1] == buf[..start + i] + [VarintBytes(v)[i]];
        assert VarintBytes(v)[..i + 1] == VarintBytes(v)[..i] + [VarintBytes(v)[i]];
        i := i + 1;
      }
      assert buf == dst + VarintBytes(v);
      return Ok(buf);
    }
    ShortForms(v);
    if n == 1 {
      buf := buf[start := LowByte(v, 1)];
    } else if n == 2 {
      buf := buf[start := LowByte(v, 0x100) + 0x40];
      buf := buf[start + 1 := LowByte(v, 1)];
    } else {
      buf := buf[start := LowByte(v, 0x100_0000) + 0x80];
      buf := buf[start + 1 := LowByte(v, 0x1_0000)];
      buf := buf[start + 2 := LowByte(v, 0x100)];
      buf := buf[start + 3 := LowByte(v, 1)];
    }
    assert buf == dst + VarintBytes(v);
    return Ok(buf);
  }

  /** `byte(v >> k)`, with `d` two to the power `k`. */
  function LowByte(v: nat, d: nat): byte
    requires d >= 1
  {
    v / d % 256
  }

  lemma ShortForms(v: nat)
    requires v <= MAX_VARINT
    ensures VarintLen(v) == 1 ==> VarintBytes(v) == [LowByte(v, 1)]
    ensures VarintLen(v) == 2 ==>
              LowByte(v, 0x100) + 0x40 < 256 && VarintBytes(v) == [LowByte(v, 0x100) + 0x40, LowByte(v, 1)]
    ensures VarintLen(v) == 4 ==>
              && LowByte(v, 0x100_0000) + 0x80 < 256
              && VarintBytes(v)
                 == [LowByte(v, 0x100_0000) + 0x80, LowByte(v, 0x1_0000), LowByte(v, 0x100), LowByte(v, 1)]
  {
    hide VarintBytes, Pow256;
    Powers();
    VarintDigits(v);
  }

  lemma LongForm(v: nat)
    requires VarintLen(v) == 8
    ensures LowByte(v, Pow256(7)) + 0xC0 < 256 && VarintBytes(v)[0] == LowByte(v, Pow256(7)) + 0xC0
    ensures forall i :: 1 <= i < 8 ==> VarintBytes(v)[i] == LowByte(v, Pow256(7 - i))
  {
    hide VarintBytes, Pow256, LowByte;
    VarintDigits(v);
    LowByteAlone(v, Pow256(7));
    forall i | 1 <= i < 8 ensures VarintBytes(v)[i] == LowByte(v, Pow256(7 - i)) {
      assert VarintBytes(v)[i] == Shifted(v, 8, i);
    }
  }

  lemma LowByteAlone(v: nat, d: nat)
    requires d >= 1 && v / d < 256
    ensures LowByte(v, d) == v / d
  {
  }

  /** Byte `k` of the `n` low-order bytes of `x`, as a right shift. */
  function Shifted(x: nat, n: nat, k: nat): byte
    requires k < n
  {
    LowByte(x, Pow256(n - 1 - k))
  }

  /** The bytes of an encoding are right shifts of the value, the first one tagged. */
  lemma VarintDigits(v: nat)
    requires v <= MAX_VARINT
    ensures var n := VarintLen(v);
            && VarintBytes(v)[0] == v / Pow256(n - 1) + 64 * TagBits(n)
            && v / Pow256(n - 1) < 64
            && forall k :: 1 <= k < n ==> VarintBytes(v)[k] == Shifted(v, n, k)
  {
    hide BigEndian, FromBigEndian, Pow256, Tag;
    var n := VarintLen(v);
    var b := VarintBytes(v);
    LengthTag(v);
    TaggedBytes(v);
    ShiftBytes(v + Tag(n), n);
    forall k | 1 <= k < n ensures b[k] == Shifted(v, n, k) {
      TagClear(v, n, n - 1 - k);
    }
  }

  /** Byte `k` of an `n`-byte big-endian number is the number shifted right. */
  lemma {:induction false} ShiftBytes(x: nat, n: nat)
    ensures forall k :: 0 <= k < n ==> BigEndian(x, n)[k] == Shifted(x, n, k)
  {
    if n > 0 {
      ShiftBytes(x / 256, n - 1);
      forall k | 0 <= k < n ensures BigEndian(x, n)[k] == Shifted(x, n, k) {
        if k < n - 1 {
          assert BigEndian(x, n)[k] == BigEndian(x / 256, n - 1)[k] == Shifted(x / 256, n - 1, k);
          DivDiv(x, Pow256(n - 2 - k));
        }
      }
    }
  }

  lemma DivDiv(x: nat, p: nat)
    requires p > 0
    ensures x / 256 / p == x / (256 * p)
  {
    var q, r := x / 256 / p, (x / 256) % p;
    assert x / 256 == p * q + r;
    assert x == (256 * p) * q + (256 * r + x % 256);
    DivUnique(x, 256 * p, q, 256 * r + x % 256);
  }

  lemma DivUnique(x: nat, d: nat, q: nat, r: nat)
    requires x == d * q + r && r < d
    ensures x / d == q && x % d == r
  {
    var q', r' := x / d, x % d;
    assert x == d * q' + r' && 0 <= r' < d;
    assert d * (q + 1) == d * q + d && d * (q' + 1) == d * q' + d;
    if q' > q {
      MulMono(d, q + 1, q');
    } else if q' < q {
      MulMono(d, q' + 1, q);
    }
  }

  lemma {:induction false} PowSum(a: nat, b: nat)
    ensures Pow256(a + b) == Pow256(a) * Pow256(b)
  {
    if a > 0 {
      PowSum(a - 1, b);
    }
  }

  /** The length tag of an encoding touches its first byte only. */
  lemma TagClear(v: nat, n: nat, j: nat)
    requires j + 1 < n && Tag(n) == 64 * TagBits(n) * Pow256(n - 1)
    ensures Shifted(v + Tag(n), n, n - 1 - j) == Shifted(v, n, n - 1 - j)
  {
    var p := Pow256(j);
    var t, r := 64 * TagBits(n), Pow256(n - 2 - j);
    PowSum(j, n - 1 - j);
    Regroup(t, p, r);
    AddAbove(v, p, t * r);
  }

  /** Adding a multiple of 256 times `p` leaves the digit at `p` alone. */
  lemma AddAbove(v: nat, p: nat, m: nat)
    requires p >= 1
    ensures (v + p * (256 * m)) / p % 256 == v / p % 256
  {
    var q := v / p;
    assert v + p * (256 * m) == p * (q + 256 * m) + v % p;
    DivUnique(v + p * (256 * m), p, q + 256 * m, v % p);
    DivUnique(q + 256 * m, 256, q / 256 + m, q % 256);
  }

  lemma Regroup(t: nat, p: nat, r: nat)
    ensures t * (p * (256 * r)) == p * (256 * (t * r))
  {
  }

  /** `DecodeVarint`: accumulates the value byte by byte. */
  method DecodeVarint(src: Bytes) returns (r: Result<(nat, nat)>)
    ensures r == ParseVarint(src)
  {
    hide TagLen, FromBigEndian;
    if |src| == 0 {
      return Err(Truncated);
    }
    var n := TagLen(src[0]);
    if |src| < n {
      return Err(Truncated);
    }
    var v: nat := src[0] % 64;
    var digits: Bytes := [src[0] % 64] + src[1..n];
    SingleDigit(digits[0]);
    assert digits[..1] == [digits[0]];
    var i := 1;
    while i < n
      invariant 1 <= i <= n == |digits|
      invariant v == FromBigEndian(digits[..i])
    {
      assert digits[i] == src[i];
      DigitAppended(digits[..i], src[i]);
      assert digits[..i + 1] == digits[..i] + [src[i]];
      v := v * 256 + src[i];
      i := i + 1;
    }
    assert digits[..n] == digits;
    if VarintLen(v) != n {
      return Err(NonMinimal);
    }
    return Ok((v, n));
  }

  /** An `io.ByteReader` over a byte string that then reports the end of the stream. */
  class ByteReader {
    const data: Bytes
    var pos: nat

    ghost predicate Valid() reads this { pos <= |data| }

    ghost function Rest(): Bytes
      reads this
      requires Valid()
    {
      data[pos..]
    }

    constructor (data: Bytes)
      ensures Valid() && Rest() == data
    {
      this.data := data;
      pos := 0;
    }

    method ReadByte() returns (b: byte, eof: bool)
      requires Valid()
      modifies this
      ensures Valid()
      ensures eof == (old(Rest()) == [])
      ensures if eof then Rest() == old(Rest()) else old(Rest()) == [b] + Rest()
    {
      if pos == |data| {
        return 0, true;
      }
      b, eof := data[pos], false;
      pos := pos + 1;
    }

    /** `ReadVarint`: byte by byte it accepts what `DecodeVarint` accepts, consuming exactly that. */
    method ReadVarint() returns (r: Result<nat>)
      requires Valid()
      modifies this
      ensures Valid()
      ensures r == match ParseVarint(old(Rest()))
                   case Ok((v, n)) => Ok(v)
                   case Err(e) => Err(if old(Rest()) == [] then EndOfStream else e)
      ensures r.Ok? ==> Rest() == old(Rest())[ParseVarint(old(Rest())).value.1..]
    {
      hide TagLen, FromBigEndian;
      ghost var src := Rest();
      var first, eof := ReadByte();
      if eof {
        return Err(EndOfStream);
      }
      var n := TagLen(first);
      var v: nat := first % 64;
      ghost var low: byte := first % 64;
      SingleDigit(low);
      assert [low] + src[1..1] == [low];
      var i := 1;
      while i < n
        invariant Valid() && 1 <= i <= n && i <= |src|
        invariant Rest() == src[i..]
        invariant v == FromBigEndian([low] + src[1..i])
      {
        var b, ended := ReadByte();
        if ended {
          return Err(Truncated);
        }
        DigitAppended([low] + src[1..i], b);
        assert [low] + src[1..i + 1] == [low] + src[1..i] + [b];
        v := v * 256 + b;
        i := i + 1;
      }
      if VarintLen(v) != n {
        return Err(NonMinimal);
      }
      return Ok(v);
    }
  }

  /** The sample encodings of section A.1 of RFC 9000. */
  lemma RfcSamples()
    ensures EncodeVarint(37) == Ok([0x25])
    ensures EncodeVarint(15293) == Ok([0x7B, 0xBD])
    ensures EncodeVarint(494878333) == Ok([0x9D, 0x7F, 0x3E, 0x7D])
    ensures EncodeVarint(151288809941952652) == Ok([0xC2, 0x19, 0x7C, 0x5E, 0xFF, 0x14, 0xE8, 0x8C])
  {
    hide VarintBytes, LowByte;
    ShortForms(37);
    ShortForms(15293);
    ShortForms(494878333);
    LongForm(151288809941952652);
    Samples();
    var b := VarintBytes(151288809941952652);
    assert b[1] == LowByte(151288809941952652, Pow256(7 - 1)) && b[2] == LowByte(151288809941952652, Pow256(7 - 2));
    assert b[3] == LowByte(151288809941952652, Pow256(7 - 3)) && b[4] == LowByte(151288809941952652, Pow256(7 - 4));
    assert b[5] == LowByte(151288809941952652, Pow256(7 - 5)) && b[6] == LowByte(151288809941952652, Pow256(7 - 6));
    assert b[7] == LowByte(151288809941952652, Pow256(7 - 7));
    assert b == [0xC2, 0x19, 0x7C, 0x5E, 0xFF, 0x14, 0xE8, 0x8C];
  }

  lemma Samples()
    ensures LowByte(37, 1) == 0x25 && LowByte(15293, 0x100) == 0x3B && LowByte(15293, 1) == 0xBD
    ensures LowByte(494878333, 0x100_0000) == 0x1D && LowByte(494878333, 0x1_0000) == 0x7F
    ensures LowByte(494878333, 0x100) == 0x3E && LowByte(494878333, 1) == 0x7D
    ensures var v := 151288809941952652;
            && LowByte(v, Pow256(7)) == 0x02 && LowByte(v, Pow256(6)) == 0x19 && LowByte(v, Pow256(5)) == 0x7C
            && LowByte(v, Pow256(4)) == 0x5E && LowByte(v, Pow256(3)) == 0xFF && LowByte(v, Pow256(2)) == 0x14
            && LowByte(v, Pow256(1)) == 0xE8 && LowByte(v, Pow256(0)) == 0x8C
  {
    Powers();
    assert Pow256(5) == 256 * Pow256(4) && Pow256(6) == 256 * Pow256(5);
    hide Pow256;
  }

  /** Exactly the values below 2^62 have an encoding, of 1, 2, 4 or 8 bytes (section 16 of RFC 9000). */
  lemma VarintRange(v: nat)
    ensures EncodeVarint(v).Ok? <==> v < 4611686018427387904
    ensures EncodeVarint(v).Ok? ==>
              |EncodeVarint(v).value| == if v < 64 then 1 else if v < 16384 then 2 else if v < 1073741824 then 4 else 8
  {
  }
}
