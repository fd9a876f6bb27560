/**
 The protobuf and gRPC framing that the native lightwalletd client reads and writes: base-128 varints,
 length-prefixed frames, and the response fields. Bytes are numbers, and shifts and masks are written out.
 */
module WireFormat {
  import opened Common

  const TWO_64: nat := 0x1_0000_0000_0000_0000

  function Pow128(k: nat): (p: nat)
    ensures p > 0
  {
    if k == 0 then 1 else 128 * Pow128(k - 1)
  }

  // ----- varints ------------------------------------------------------------------------------

  function EncodeVarint(v: nat): (r: seq<Byte>)
    ensures r != []
  {
    if v < 128 then [v] else [v % 128 + 128] + EncodeVarint(v / 128)
  }

  /** The seven low bits of a byte, shifted left by `7 * k` in 64 bits. */
  function Shifted(b: Byte, k: nat): nat { (b % 128) * Pow128(k) % TWO_64 }

  /** The value that the bytes from `i` on contribute, the first of them being byte `k` of its varint, and the index after it. */
  function ReadVarint(data: seq<Byte>, i: nat, k: nat): (r: Option<(nat, nat)>)
    ensures r.Some? ==> i < r.value.1 <= |data|
    decreases |data| - i
  {
    if i >= |data| || k >= 10 then None
    else if data[i] < 128 then Some((Shifted(data[i], k), i + 1))
    else
      match ReadVarint(data, i + 1, k + 1)
      case None => None
      case Some(rest) => Some((Shifted(data[i], k) + rest.0, rest.1))
  }

  lemma Pow128Values()
    ensures Pow128(0) == 1 && Pow128(1) == 0x80 && Pow128(2) == 0x4000 && Pow128(3) == 0x20_0000
    ensures Pow128(4) == 0x1000_0000 && Pow128(5) == 0x8_0000_0000 && Pow128(6) == 0x400_0000_0000
    ensures Pow128(7) == 0x2_0000_0000_0000 && Pow128(8) == 0x100_0000_0000_0000 && Pow128(9) == 0x8000_0000_0000_0000
    ensures Pow128(10) == 64 * TWO_64
  {
    var p2 := Pow128(2);
    var p4 := Pow128(4);
    var p6 := Pow128(6);
    var p8 := Pow128(8);
    var p10 := Pow128(10);
  }

  lemma {:induction false} Pow128Grows(k: nat)
    requires k >= 10
    ensures Pow128(k) >= 64 * TWO_64
  {
    if k == 10 {
      Pow128Values();
    } else {
      Pow128Grows(k - 1);
    }
  }

  /** Below the tenth byte nothing is shifted out; of the tenth byte only the lowest bit stays. */
  lemma ShiftedExactly(b: Byte, k: nat)
    requires k < 10
    ensures k < 9 ==> Shifted(b, k) == (b % 128) * Pow128(k)
    ensures k == 9 ==> Shifted(b, k) == (b % 2) * Pow128(9)
  {
    if k == 9 {
      ShiftedTenth(b);
    } else {
      GroupFits(b % 128, k);
      PowBelow(k + 1);
      SmallMod((b % 128) * Pow128(k));
    }
  }

  lemma ShiftedTenth(b: Byte)
    ensures Shifted(b, 9) == (b % 2) * Pow128(9)
  {
    TenthByte(b % 128);
    ModMultiple((b % 128) / 2, (b % 2) * Pow128(9));
  }

  lemma ModMultiple(q: nat, r: nat)
    requires r < TWO_64
    ensures (q * TWO_64 + r) % TWO_64 == r
  {
  }

  lemma SmallMod(a: nat)
    requires a < TWO_64
    ensures a % TWO_64 == a
  {
  }

  lemma TimesPow(v: nat, p: nat)
    ensures v * p == (v % 128) * p + (v / 128) * (128 * p)
    ensures (v % 128) * p <= v * p && (v / 128) * (128 * p) <= v * p
  {
    assert v == (v / 128) * 128 + v % 128;
    assert v * p == ((v / 128) * 128 + v % 128) * p;
  }

  lemma ShiftFits(b: Byte, k: nat, low: nat)
    requires low == b % 128 && low * Pow128(k) < TWO_64
    ensures Shifted(b, k) == low * Pow128(k)
  {
    SmallMod(low * Pow128(k));
  }

  lemma ReadOn(data: seq<Byte>, i: nat, k: nat, value: nat, end: nat)
    requires i < |data| && k < 10 && data[i] >= 128 && ReadVarint(data, i + 1, k + 1) == Some((value, end))
    ensures ReadVarint(data, i, k) == Some((Shifted(data[i], k) + value, end))
  {
  }

  /** A value that fits can be read back from any byte position of a varint on. */
  lemma {:induction false} ReadEncoded(before: seq<Byte>, v: nat, after: seq<Byte>, k: nat)
    requires v * Pow128(k) < TWO_64 && (v >= 1 || k == 0)
    ensures ReadVarint(before + EncodeVarint(v) + after, |before|, k) == Some((v * Pow128(k), |before| + |EncodeVarint(v)|))
    decreases v
  {
    var data := before + EncodeVarint(v) + after;
    PositionFits(v, k);
    TimesPow(v, Pow128(k));
    var b: Byte := if v < 128 then v else v % 128 + 128;
    assert data[|before|] == b;
    ShiftFits(b, k, v % 128);
    if v >= 128 {
      ReadEncoded(before + [b], v / 128, after, k + 1);
      assert before + [b] + EncodeVarint(v / 128) + after == data;
      ReadOn(data, |before|, k, (v / 128) * Pow128(k + 1), |before| + |EncodeVarint(v)|);
    }
  }

  lemma AtLeast(v: nat, p: nat)
    requires v >= 1
    ensures v * p >= p
  {
  }

  lemma PositionFits(v: nat, k: nat)
    requires v * Pow128(k) < TWO_64 && (v >= 1 || k == 0)
    ensures k < 10
  {
    if v >= 1 { AtLeast(v, Pow128(k)); }
    if k >= 10 { Pow128Grows(k); }
  }

  /** Every 64-bit value is read back from its encoding, which is consumed exactly, whatever surrounds it. */
  lemma VarintRoundTrip(before: seq<Byte>, v: U64, after: seq<Byte>)
    ensures ReadVarint(before + EncodeVarint(v) + after, |before|, 0) == Some((v, |before| + |EncodeVarint(v)|))
  {
    assert v * Pow128(0) == v;
    ReadEncoded(before, v, after, 0);
  }

  /** The same, for the bytes at a position. */
  lemma VarintAt(data: seq<Byte>, i: nat, v: U64, end: nat)
    requires i + |EncodeVarint(v)| == end <= |data| && data[i..end] == EncodeVarint(v)
    ensures ReadVarint(data, i, 0) == Some((v, end))
  {
    VarintRoundTrip(data[..i], v, data[end..]);
    assert data == data[..i] + EncodeVarint(v) + data[end..];
  }

  /** The value as a sum of all seven-bit groups, without the limit of 64 bits. */
  ghost function WideVarint(data: seq<Byte>, i: nat, k: nat): Option<(nat, nat)>
    decreases |data| - i
  {
    if i >= |data| || k >= 10 then None
    else if data[i] < 128 then Some((data[i] * Pow128(k), i + 1))
    else
      match WideVarint(data, i + 1, k + 1)
      case None => None
      case Some(rest) => Some(((data[i] % 128) * Pow128(k) + rest.0, rest.1))
  }

  /**
   Exactly what is read from any bytes: at most ten of them, and the sum of their seven-bit groups with
   everything above the 64th bit dropped. So a tenth byte above 1 is accepted, and its high bits are lost.
   */
  lemma {:induction false} ReadDropsHighBits(data: seq<Byte>, i: nat, k: nat)
    requires k <= 10
    ensures ReadVarint(data, i, k).Some? <==> WideVarint(data, i, k).Some?
    ensures ReadVarint(data, i, k).Some? ==>
      && ReadVarint(data, i, k).value.1 == WideVarint(data, i, k).value.1
      && ReadVarint(data, i, k).value.0 + Pow128(k) <= TWO_64
      && DropsHighBits(WideVarint(data, i, k).value.0, ReadVarint(data, i, k).value.0)
    decreases |data| - i
  {
    if i < |data| && k < 10 {
      ShiftedExactly(data[i], k);
      if data[i] < 128 {
        LastByte(data[i], k);
      } else {
        ReadDropsHighBits(data, i + 1, k + 1);
        var rest := ReadVarint(data, i + 1, k + 1);
        if rest.Some? {
          Pow128Values();
          assert k + 1 < 10;
          var q: nat :| WideVarint(data, i + 1, k + 1).value.0 == q * TWO_64 + rest.value.0;
          Drops(WideVarint(data, i, k).value.0, ReadVarint(data, i, k).value.0, q);
          GroupFits(data[i] % 128, k);
        }
      }
    }
  }

  lemma GroupFits(low: nat, k: nat)
    requires low < 128
    ensures low * Pow128(k) + Pow128(k) <= Pow128(k + 1)
  {
    assert low * Pow128(k) + Pow128(k) == (low + 1) * Pow128(k) <= 128 * Pow128(k);
  }

  /** One value is another one, but for what lies above the 64th bit. */
  ghost predicate DropsHighBits(wide: nat, r: nat) { exists q: nat :: wide == q * TWO_64 + r }

  lemma Drops(wide: nat, r: nat, q: nat)
    requires wide == q * TWO_64 + r
    ensures DropsHighBits(wide, r)
  {
  }

  lemma LastByte(b: Byte, k: nat)
    requires b < 128 && k < 10
    ensures Shifted(b, k) + Pow128(k) <= TWO_64
    ensures DropsHighBits(b * Pow128(k), Shifted(b, k))
  {
    if k == 9 {
      LastTenthByte(b);
    } else {
      LastLowByte(b, k);
    }
  }

  lemma LastLowByte(b: Byte, k: nat)
    requires b < 128 && k < 9
    ensures Shifted(b, k) + Pow128(k) <= TWO_64
    ensures DropsHighBits(b * Pow128(k), Shifted(b, k))
  {
    ShiftedExactly(b, k);
    GroupFits(b, k);
    PowBelow(k + 1);
    Drops(b * Pow128(k), Shifted(b, k), 0);
  }

  lemma LastTenthByte(b: Byte)
    requires b < 128
    ensures Shifted(b, 9) + Pow128(9) <= TWO_64
    ensures DropsHighBits(b * Pow128(9), Shifted(b, 9))
  {
    ShiftedExactly(b, 9);
    TenthByte(b);
    Drops(b * Pow128(9), Shifted(b, 9), b / 2);
  }

  lemma TenthByte(b: nat)
    ensures b * Pow128(9) == (b / 2) * TWO_64 + (b % 2) * Pow128(9)
    ensures (b % 2) * Pow128(9) + Pow128(9) <= TWO_64
  {
    Pow128Values();
    assert b == (b / 2) * 2 + b % 2;
  }

  lemma PowBelow(k: nat)
    requires k <= 9
    ensures Pow128(k) <= TWO_64
  {
    Pow128Values();
  }

  // ----- fields -------------------------------------------------------------------------------

  const INT_MAX: nat := 0x7FFF_FFFF_FFFF_FFFF

  function Advance(data: seq<Byte>, i: nat, n: nat): (r: Option<nat>)
    requires i <= |data|
    ensures r.Some? ==> r.value == i + n <= |data|
  {
    if |data| - i >= n then Some(i + n) else None
  }

  /** The end of a length-delimited field, read with its length. */
  function Delimited(data: seq<Byte>, i: nat): (r: Option<(nat, nat)>)
    ensures r.Some? ==> i < r.value.0 <= r.value.1 <= |data|
  {
    match ReadVarint(data, i, 0)
    case None => None
    case Some(length) =>
      if length.0 > INT_MAX || |data| - length.1 < length.0 then None else Some((length.1, length.1 + length.0))
  }

  /** The index after a field of this wire type, or none when the field is cut off or of a type that is not known. */
  function SkipField(data: seq<Byte>, wireType: nat, i: nat): (r: Option<nat>)
    requires i <= |data|
    ensures r.Some? ==> i < r.value <= |data|
  {
    match wireType
    case 0 => (match ReadVarint(data, i, 0) case Some(v) => Some(v.1) case None => None)
    case 1 => Advance(data, i, 8)
    case 2 => (match Delimited(data, i) case Some(d) => Some(d.1) case None => None)
    case 5 => Advance(data, i, 4)
    case _ => None
  }

  /** `Int32(bitPattern: UInt32(truncatingIfNeeded: v))`. */
  function ToInt32(v: nat): (r: int)
    ensures -0x8000_0000 <= r <= 0x7FFF_FFFF
  {
    var low := v % 0x1_0000_0000;
    if low < 0x8000_0000 then low else low - 0x1_0000_0000
  }

  datatype SendResponse = SendResponse(code: int, message: string)

  /** `String(data:encoding: .utf8)`. */
  type Decoder = seq<Byte> -> Option<string>

  /** The fields from `i` on, over what was read so far: the last occurrence of a field wins. */
  function SendFields(decode: Decoder, data: seq<Byte>, i: nat, seen: SendResponse): Option<SendResponse>
    requires i <= |data|
    decreases |data| - i
  {
    if i == |data| then Some(seen)
    else
      match ReadVarint(data, i, 0)
      case None => None
      case Some(key) =>
        if key.0 / 8 == 1 && key.0 % 8 == 0 then
          (match ReadVarint(data, key.1, 0)
           case None => None
           case Some(v) => SendFields(decode, data, v.1, seen.(code := ToInt32(v.0))))
        else if key.0 / 8 == 2 && key.0 % 8 == 2 then
          (match Delimited(data, key.1)
           case None => None
           case Some(d) =>
             match decode(data[d.0..d.1])
             case None => None
             case Some(text) => SendFields(decode, data, d.1, seen.(message := text)))
        else
          match SkipField(data, key.0 % 8, key.1)
          case None => None
          case Some(next) => SendFields(decode, data, next, seen)
  }

  // ----- frames -------------------------------------------------------------------------------

  function BigEndian(n: nat, width: nat): (r: seq<Byte>)
    ensures |r| == width
  {
    if width == 0 then [] else BigEndian(n / 256, width - 1) + [n % 256]
  }

  function FromBigEndian(bytes: seq<Byte>): nat {
    if bytes == [] then 0 else FromBigEndian(bytes[..|bytes| - 1]) * 256 + bytes[|bytes| - 1]
  }

  /** An uncompressed frame. The length conversion traps at 2^32 bytes. */
  function GrpcFrame(payload: seq<Byte>): seq<Byte>
    requires |payload| < 0x1_0000_0000
  {
    [0] + BigEndian(|payload|, 4) + payload
  }

  function GrpcPayload(data: seq<Byte>): Option<seq<Byte>> {
    if |data| < 5 || data[0] != 0 then None
    else
      var length := FromBigEndian(data[1..5]);
      if 5 + length > |data| then None else Some(data[5..5 + length])
  }

  lemma {:induction false} BigEndianRoundTrip(n: nat, width: nat)
    requires n < Pow256(width)
    ensures FromBigEndian(BigEndian(n, width)) == n
  {
    if width > 0 {
      BigEndianRoundTrip(n / 256, width - 1);
      assert BigEndian(n, width)[..width - 1] == BigEndian(n / 256, width - 1);
    }
  }

  function Pow256(k: nat): nat { if k == 0 then 1 else 256 * Pow256(k - 1) }

  /** The payload of a frame is found again below 2^32 bytes, whatever follows the frame. */
  lemma FrameRoundTrip(payload: seq<Byte>, after: seq<Byte>)
    requires |payload| < 0x1_0000_0000
    ensures GrpcPayload(GrpcFrame(payload) + after) == Some(payload)
  {
    var data := GrpcFrame(payload) + after;
    assert Pow256(2) == 0x1_0000 && Pow256(4) == 0x1_0000_0000;
    BigEndianRoundTrip(|payload|, 4);
    assert data[1..5] == BigEndian(|payload|, 4);
    assert data[5..5 + |payload|] == payload;
  }

  /** Whatever is accepted as a frame starts with the frame of its payload. */
  lemma PayloadIsFramed(data: seq<Byte>)
    requires GrpcPayload(data).Some?
    ensures |GrpcPayload(data).value| < 0x1_0000_0000 && GrpcFrame(GrpcPayload(data).value) <= data
  {
    var payload := GrpcPayload(data).value;
    var header := data[1..5];
    assert Pow256(2) == 0x1_0000 && Pow256(4) == 0x1_0000_0000;
    FromBigEndianBound(header);
    BigEndianOf(header);
    assert data[..5] == [0] + header;
    assert data[..5 + |payload|] == data[..5] + data[5..5 + |payload|];
  }

  lemma {:induction false} FromBigEndianBound(bytes: seq<Byte>)
    ensures FromBigEndian(bytes) < Pow256(|bytes|)
  {
    if bytes != [] {
      FromBigEndianBound(bytes[..|bytes| - 1]);
    }
  }

  lemma {:induction false} BigEndianOf(bytes: seq<Byte>)
    ensures BigEndian(FromBigEndian(bytes), |bytes|) == bytes
  {
    if bytes != [] {
      var front, last := bytes[..|bytes| - 1], bytes[|bytes| - 1];
      BigEndianOf(front);
      assert FromBigEndian(bytes) / 256 == FromBigEndian(front) && FromBigEndian(bytes) % 256 == last;
      assert bytes == front + [last];
    }
  }

  // ----- a response, field by field -------------------------------------------------------------

  /** What a field of another number or wire type may hold. */
  datatype Content = Varint(v: U64) | Fixed64(bytes: seq<Byte>) | Blob(bytes: seq<Byte>) | Fixed32(bytes: seq<Byte>)

  datatype Field = Code(code: int) | Message(text: seq<Byte>) | Unknown(number: nat, content: Content)

  function WireType(c: Content): nat {
    match c case Varint(_) => 0 case Fixed64(_) => 1 case Blob(_) => 2 case Fixed32(_) => 5
  }

  predicate WellFormed(decode: Decoder, f: Field) {
    match f
    case Code(code) => -0x8000_0000 <= code <= 0x7FFF_FFFF
    case Message(text) => |text| <= INT_MAX && decode(text).Some?
    case Unknown(number, content) =>
      && number < 0x2000_0000_0000_0000
      && !(number == 1 && WireType(content) == 0) && !(number == 2 && WireType(content) == 2)
      && match content
         case Varint(_) => true
         case Fixed64(bytes) => |bytes| == 8
         case Blob(bytes) => |bytes| <= INT_MAX
         case Fixed32(bytes) => |bytes| == 4
  }

  /** An int32 is sent as the varint of its sign-extended 64-bit pattern. */
  function SignExtended(code: int): U64
    requires -0x8000_0000 <= code <= 0x7FFF_FFFF
  {
    if code >= 0 then code else code + TWO_64
  }

  lemma SignExtensionRoundTrip(code: int)
    requires -0x8000_0000 <= code <= 0x7FFF_FFFF
    ensures ToInt32(SignExtended(code)) == code
  {
    if code < 0 {
      assert code + TWO_64 == 0xFFFF_FFFF * 0x1_0000_0000 + (code + 0x1_0000_0000);
    }
  }

  function EncodeContent(c: Content): seq<Byte> {
    match c
    case Varint(v) => EncodeVarint(v)
    case Fixed64(bytes) => bytes
    case Blob(bytes) => EncodeVarint(|bytes|) + bytes
    case Fixed32(bytes) => bytes
  }

  function KeyOf(f: Field): nat {
    match f
    case Code(_) => 8
    case Message(_) => 18
    case Unknown(number, content) => 8 * number + WireType(content)
  }

  function BodyOf(decode: Decoder, f: Field): seq<Byte>
    requires WellFormed(decode, f)
  {
    match f
    case Code(code) => EncodeVarint(SignExtended(code))
    case Message(text) => EncodeVarint(|text|) + text
    case Unknown(_, content) => EncodeContent(content)
  }

  function EncodeFields(decode: Decoder, fields: seq<Field>): seq<Byte>
    requires forall f :: f in fields ==> WellFormed(decode, f)
  {
    if fields == [] then []
    else EncodeVarint(KeyOf(fields[0])) + BodyOf(decode, fields[0]) + EncodeFields(decode, fields[1..])
  }

  /** What is known once this field has been read too. */
  function Seen(decode: Decoder, f: Field, seen: SendResponse): SendResponse
    requires WellFormed(decode, f)
  {
    match f
    case Code(code) => seen.(code := code)
    case Message(text) => seen.(message := decode(text).value)
    case Unknown(_, _) => seen
  }

  /** The response that a list of fields stands for: the last code and the last message, or the proto3 defaults. */
  function Meaning(decode: Decoder, fields: seq<Field>, seen: SendResponse): SendResponse
    requires forall f :: f in fields ==> WellFormed(decode, f)
  {
    if fields == [] then seen else Meaning(decode, fields[1..], Seen(decode, fields[0], seen))
  }

  lemma DelimitedRoundTrip(before: seq<Byte>, bytes: seq<Byte>, after: seq<Byte>)
    requires |bytes| <= INT_MAX
    ensures var data := before + EncodeVarint(|bytes|) + bytes + after;
      var start := |before| + |EncodeVarint(|bytes|)|;
      Delimited(data, |before|) == Some((start, start + |bytes|)) && data[start..start + |bytes|] == bytes
  {
    VarintRoundTrip(before, |bytes|, bytes + after);
    assert before + EncodeVarint(|bytes|) + (bytes + after) == before + EncodeVarint(|bytes|) + bytes + after;
  }

  predicate Sized(c: Content) {
    match c case Varint(_) => true case Fixed64(b) => |b| == 8 case Blob(b) => |b| <= INT_MAX case Fixed32(b) => |b| == 4
  }

  lemma SkipBlob(before: seq<Byte>, bytes: seq<Byte>, after: seq<Byte>)
    requires |bytes| <= INT_MAX
    ensures var data := before + (EncodeVarint(|bytes|) + bytes) + after;
      SkipField(data, 2, |before|) == Some(|before| + |EncodeVarint(|bytes|) + bytes|)
  {
    DelimitedRoundTrip(before, bytes, after);
    assert before + (EncodeVarint(|bytes|) + bytes) + after == before + EncodeVarint(|bytes|) + bytes + after;
  }

  lemma SkipRoundTrip(before: seq<Byte>, content: Content, after: seq<Byte>)
    requires Sized(content)
    ensures SkipField(before + EncodeContent(content) + after, WireType(content), |before|) == Some(|before| + |EncodeContent(content)|)
  {
    if content.Varint? {
      VarintRoundTrip(before, content.v, after);
    } else if content.Blob? {
      SkipBlob(before, content.bytes, after);
    }
  }

  lemma KeyParts(number: nat, wireType: nat)
    requires wireType < 8
    ensures (8 * number + wireType) / 8 == number && (8 * number + wireType) % 8 == wireType
  {
  }

  // One field, in terms of what was read for its key and its body.

  lemma CodeStep(decode: Decoder, data: seq<Byte>, i: nat, body: nat, v: nat, end: nat, seen: SendResponse)
    requires ReadVarint(data, i, 0) == Some((8, body)) && ReadVarint(data, body, 0) == Some((v, end))
    ensures i < |data| && end <= |data|
    ensures SendFields(decode, data, i, seen) == SendFields(decode, data, end, seen.(code := ToInt32(v)))
  {
  }

  lemma MessageStep(decode: Decoder, data: seq<Byte>, i: nat, body: nat, start: nat, end: nat, seen: SendResponse)
    requires ReadVarint(data, i, 0) == Some((18, body)) && Delimited(data, body) == Some((start, end))
    requires decode(data[start..end]).Some?
    ensures i < |data| && end <= |data|
    ensures SendFields(decode, data, i, seen) == SendFields(decode, data, end, seen.(message := decode(data[start..end]).value))
  {
  }

  lemma UnknownStep(decode: Decoder, data: seq<Byte>, i: nat, key: nat, body: nat, end: nat, seen: SendResponse)
    requires ReadVarint(data, i, 0) == Some((key, body)) && SkipField(data, key % 8, body) == Some(end)
    requires !(key / 8 == 1 && key % 8 == 0) && !(key / 8 == 2 && key % 8 == 2)
    ensures i < |data| && end <= |data|
    ensures SendFields(decode, data, i, seen) == SendFields(decode, data, end, seen)
  {
  }

  /** The bytes of one field among the bytes around it. */
  ghost predicate FieldAt(decode: Decoder, data: seq<Byte>, i: nat, f: Field, end: nat)
    requires WellFormed(decode, f)
  {
    var key, body := EncodeVarint(KeyOf(f)), BodyOf(decode, f);
    i + |key| + |body| == end <= |data| && data[i..i + |key|] == key && data[i + |key|..end] == body
  }

  lemma KeyIsRead(decode: Decoder, data: seq<Byte>, i: nat, f: Field, end: nat)
    requires WellFormed(decode, f) && FieldAt(decode, data, i, f, end)
    ensures ReadVarint(data, i, 0) == Some((KeyOf(f), i + |EncodeVarint(KeyOf(f))|))
  {
    VarintAt(data, i, KeyOf(f), i + |EncodeVarint(KeyOf(f))|);
  }

  /** The body of a field, between the bytes before and after it. */
  ghost predicate BodyAt(data: seq<Byte>, at: nat, body: seq<Byte>, end: nat) {
    at + |body| == end <= |data| && data == data[..at] + body + data[end..]
  }

  lemma CodeField(decode: Decoder, data: seq<Byte>, i: nat, body: nat, code: int, end: nat, seen: SendResponse)
    requires WellFormed(decode, Code(code)) && ReadVarint(data, i, 0) == Some((8, body))
    requires BodyAt(data, body, EncodeVarint(SignExtended(code)), end)
    ensures i < |data| && SendFields(decode, data, i, seen) == SendFields(decode, data, end, seen.(code := code))
  {
    VarintRoundTrip(data[..body], SignExtended(code), data[end..]);
    SignExtensionRoundTrip(code);
    CodeStep(decode, data, i, body, SignExtended(code), end, seen);
  }

  lemma MessageField(decode: Decoder, data: seq<Byte>, i: nat, body: nat, text: seq<Byte>, end: nat, seen: SendResponse)
    requires WellFormed(decode, Message(text)) && ReadVarint(data, i, 0) == Some((18, body))
    requires BodyAt(data, body, EncodeVarint(|text|) + text, end)
    ensures i < |data| && SendFields(decode, data, i, seen) == SendFields(decode, data, end, seen.(message := decode(text).value))
  {
    DelimitedRoundTrip(data[..body], text, data[end..]);
    assert data[..body] + EncodeVarint(|text|) + text + data[end..] == data;
    MessageStep(decode, data, i, body, body + |EncodeVarint(|text|)|, end, seen);
  }

  lemma UnknownField(decode: Decoder, data: seq<Byte>, i: nat, body: nat, number: nat, content: Content, end: nat, seen: SendResponse)
    requires WellFormed(decode, Unknown(number, content))
    requires ReadVarint(data, i, 0) == Some((8 * number + WireType(content), body))
    requires BodyAt(data, body, EncodeContent(content), end)
    ensures i < |data| && SendFields(decode, data, i, seen) == SendFields(decode, data, end, seen)
  {
    KeyParts(number, WireType(content));
    SkipRoundTrip(data[..body], content, data[end..]);
    UnknownStep(decode, data, i, 8 * number + WireType(content), body, end, seen);
  }

  /** What the parser does with one field, and where it goes on. */
  lemma OneField(decode: Decoder, data: seq<Byte>, i: nat, f: Field, end: nat, seen: SendResponse)
    requires WellFormed(decode, f) && FieldAt(decode, data, i, f, end)
    ensures i < |data| && SendFields(decode, data, i, seen) == SendFields(decode, data, end, Seen(decode, f, seen))
  {
    KeyIsRead(decode, data, i, f, end);
    var body := i + |EncodeVarint(KeyOf(f))|;
    assert BodyAt(data, body, BodyOf(decode, f), end);
    match f
    case Code(code) => CodeField(decode, data, i, body, code, end, seen);
    case Message(text) => MessageField(decode, data, i, body, text, end, seen);
    case Unknown(number, content) => UnknownField(decode, data, i, body, number, content, end, seen);
  }

  lemma {:induction false} FieldsRoundTrip(decode: Decoder, data: seq<Byte>, i: nat, fields: seq<Field>, seen: SendResponse)
    requires forall f :: f in fields ==> WellFormed(decode, f)
    requires i <= |data| && data[i..] == EncodeFields(decode, fields)
    ensures SendFields(decode, data, i, seen) == Some(Meaning(decode, fields, seen))
    decreases |fields|
  {
    if fields != [] {
      var end := FirstField(decode, data, i, fields);
      OneField(decode, data, i, fields[0], end, seen);
      FieldsRoundTrip(decode, data, end, fields[1..], Seen(decode, fields[0], seen));
    }
  }

  /** The first field of an encoded list, and the encoding of the others after it. */
  lemma FirstField(decode: Decoder, data: seq<Byte>, i: nat, fields: seq<Field>) returns (end: nat)
    requires fields != [] && (forall f :: f in fields ==> WellFormed(decode, f))
    requires i <= |data| && data[i..] == EncodeFields(decode, fields)
    ensures FieldAt(decode, data, i, fields[0], end) && data[end..] == EncodeFields(decode, fields[1..])
  {
    end := FieldThen(decode, data, i, fields[0], EncodeFields(decode, fields[1..]));
  }

  lemma FieldThen(decode: Decoder, data: seq<Byte>, i: nat, f: Field, rest: seq<Byte>) returns (end: nat)
    requires WellFormed(decode, f) && i <= |data| && data[i..] == EncodeVarint(KeyOf(f)) + BodyOf(decode, f) + rest
    ensures FieldAt(decode, data, i, f, end) && data[end..] == rest
  {
    end := Slices(data, i, EncodeVarint(KeyOf(f)), BodyOf(decode, f), rest);
  }

  lemma Slices(data: seq<Byte>, i: nat, key: seq<Byte>, body: seq<Byte>, rest: seq<Byte>) returns (end: nat)
    requires i <= |data| && data[i..] == key + body + rest
    ensures i + |key| + |body| == end <= |data|
    ensures data[i..i + |key|] == key && data[i + |key|..end] == body && data[end..] == rest
  {
    end := i + |key| + |body|;
    assert data[i..i + |key|] == data[i..][..|key|];
    assert data[i + |key|..end] == data[i..][|key|..|key| + |body|];
    assert data[end..] == data[i..][|key| + |body|..];
  }

  function ParseSendResponse(decode: Decoder, data: seq<Byte>): Option<SendResponse> {
    match GrpcPayload(data)
    case None => None
    case Some(payload) => SendFields(decode, payload, 0, SendResponse(0, ""))
  }

  /**
   A send response is recovered from its frame: every int32 code, negative ones included, and the
   message, through unknown fields anywhere between them; absent fields read as success and no text.
   */
  lemma SendResponseRoundTrip(decode: Decoder, fields: seq<Field>, after: seq<Byte>)
    requires forall f :: f in fields ==> WellFormed(decode, f)
    requires |EncodeFields(decode, fields)| < 0x1_0000_0000
    ensures ParseSendResponse(decode, GrpcFrame(EncodeFields(decode, fields)) + after) == Some(Meaning(decode, fields, SendResponse(0, "")))
  {
    FrameRoundTrip(EncodeFields(decode, fields), after);
    FieldsRoundTrip(decode, EncodeFields(decode, fields), 0, fields, SendResponse(0, ""));
  }

  // ----- the other responses --------------------------------------------------------------------

  /** The height in the fields from `i` on: the last field 2, over what was read so far. */
  function HeightFields(data: seq<Byte>, i: nat, seen: nat): Option<nat>
    requires i <= |data|
    decreases |data| - i
  {
    if i == |data| then Some(seen)
    else
      match ReadVarint(data, i, 0)
      case None => None
      case Some(key) =>
        if key.0 / 8 == 2 && key.0 % 8 == 0 then
          (match ReadVarint(data, key.1, 0)
           case None => None
           case Some(v) => HeightFields(data, v.1, v.0))
        else
          match SkipField(data, key.0 % 8, key.1)
          case None => None
          case Some(next) => HeightFields(data, next, seen)
  }

  /** What the server knows of a transaction. */
  datatype Observation = NotFound | Mempool | Mined(height: nat) | Forked

  function ObservationOf(height: nat): Observation {
    if height == 0 then Mempool else if height == U64_MAX then Forked else Mined(height)
  }

  function ParseTransaction(data: seq<Byte>): Option<Observation> {
    match GrpcPayload(data)
    case None => None
    case Some(payload) =>
      match HeightFields(payload, 0, 0)
      case None => None
      case Some(height) => Some(ObservationOf(height))
  }

  lemma HeightSkips(data: seq<Byte>, i: nat, key: nat, body: nat, end: nat, seen: nat)
    requires ReadVarint(data, i, 0) == Some((key, body)) && SkipField(data, key % 8, body) == Some(end)
    requires !(key / 8 == 2 && key % 8 == 0)
    ensures i < |data| && HeightFields(data, i, seen) == HeightFields(data, end, seen)
  {
  }

  lemma HeightReads(data: seq<Byte>, i: nat, key: nat, body: nat, height: nat, end: nat, seen: nat)
    requires ReadVarint(data, i, 0) == Some((key, body)) && ReadVarint(data, body, 0) == Some((height, end))
    requires key / 8 == 2 && key % 8 == 0
    ensures i < |data| && HeightFields(data, i, seen) == HeightFields(data, end, height)
  {
  }

  /** A tag below 128 is a varint of one byte. */
  lemma TagIsRead(data: seq<Byte>, i: nat, tag: Byte)
    requires i < |data| && data[i] == tag < 128
    ensures ReadVarint(data, i, 0) == Some((tag, i + 1))
  {
    assert EncodeVarint(tag) == [tag];
    assert data[i..i + 1] == [tag];
    VarintAt(data, i, tag, i + 1);
  }

  const RAW_TAG: Byte := 10
  const HEIGHT_TAG: Byte := 16

  /** A transaction as the server sends it: its bytes, then its height unless that is zero. */
  function EncodeTransaction(raw: seq<Byte>, height: U64): seq<Byte> {
    [RAW_TAG] + (EncodeVarint(|raw|) + raw) + HeightField(height)
  }

  function HeightField(height: U64): seq<Byte> { if height == 0 then [] else [HEIGHT_TAG] + EncodeVarint(height) }

  /** The height of a transaction is recovered past its bytes, whatever they are. */
  lemma TransactionRoundTrip(raw: seq<Byte>, height: U64, after: seq<Byte>)
    requires |raw| <= INT_MAX && |EncodeTransaction(raw, height)| < 0x1_0000_0000
    ensures ParseTransaction(GrpcFrame(EncodeTransaction(raw, height)) + after) == Some(ObservationOf(height))
  {
    var payload := EncodeTransaction(raw, height);
    FrameRoundTrip(payload, after);
    var end := RawIsSkipped(raw, HeightField(height));
    HeightAt(payload, end, height);
  }

  lemma RawIsSkipped(raw: seq<Byte>, rest: seq<Byte>) returns (end: nat)
    requires |raw| <= INT_MAX
    ensures var payload := [RAW_TAG] + (EncodeVarint(|raw|) + raw) + rest;
      end <= |payload| && payload[end..] == rest && HeightFields(payload, 0, 0) == HeightFields(payload, end, 0)
  {
    var blob := EncodeVarint(|raw|) + raw;
    var payload := [RAW_TAG] + blob + rest;
    end := 1 + |blob|;
    TagIsRead(payload, 0, RAW_TAG);
    SkipBlob([RAW_TAG], raw, rest);
    HeightSkips(payload, 0, RAW_TAG, 1, end, 0);
  }

  lemma HeightAt(payload: seq<Byte>, i: nat, height: U64)
    requires i <= |payload| && payload[i..] == HeightField(height)
    ensures HeightFields(payload, i, 0) == Some(height)
  {
    if height > 0 {
      assert payload[i] == payload[i..][0] == HEIGHT_TAG;
      assert payload[i + 1..|payload|] == payload[i..][1..] == EncodeVarint(height);
      TagIsRead(payload, i, HEIGHT_TAG);
      VarintAt(payload, i + 1, height, |payload|);
      HeightReads(payload, i, HEIGHT_TAG, i + 1, height, |payload|, 0);
    }
  }

  datatype BlockError = MalformedResponse | MissingHeight

  /** The first field 1 decides; running out of fields is an error of its own. */
  function BlockFields(data: seq<Byte>, i: nat): Result<nat, BlockError>
    requires i <= |data|
    decreases |data| - i
  {
    if i == |data| then Err(MissingHeight)
    else
      match ReadVarint(data, i, 0)
      case None => Err(MalformedResponse)
      case Some(key) =>
        if key.0 / 8 == 1 && key.0 % 8 == 0 then
          (match ReadVarint(data, key.1, 0)
           case None => Err(MalformedResponse)
           case Some(v) => Ok(v.0))
        else
          match SkipField(data, key.0 % 8, key.1)
          case None => Err(MalformedResponse)
          case Some(next) => BlockFields(data, next)
  }

  function ParseLatestBlock(data: seq<Byte>): Result<nat, BlockError> {
    match GrpcPayload(data)
    case None => Err(MalformedResponse)
    case Some(payload) => if payload == [] then Err(MalformedResponse) else BlockFields(payload, 0)
  }

  const BLOCK_TAG: Byte := 8

  /** Any block height is recovered from its response, whatever comes after it. */
  lemma LatestBlockRoundTrip(height: U64, after: seq<Byte>)
    requires |[BLOCK_TAG] + EncodeVarint(height) + after| < 0x1_0000_0000
    ensures ParseLatestBlock(GrpcFrame([BLOCK_TAG] + EncodeVarint(height) + after)) == Ok(height)
  {
    var payload := [BLOCK_TAG] + EncodeVarint(height) + after;
    FrameRoundTrip(payload, []);
    assert GrpcFrame(payload) + [] == GrpcFrame(payload);
    TagIsRead(payload, 0, BLOCK_TAG);
    VarintRoundTrip([BLOCK_TAG], height, after);
    HeightIsFirst(payload, 1, height, 1 + |EncodeVarint(height)|);
  }

  lemma HeightIsFirst(payload: seq<Byte>, body: nat, height: nat, end: nat)
    requires ReadVarint(payload, 0, 0) == Some((BLOCK_TAG, body)) && ReadVarint(payload, body, 0) == Some((height, end))
    ensures payload != [] && BlockFields(payload, 0) == Ok(height)
  {
  }
}
