/**
 Big-endian cursors over a byte buffer, and the twelve-byte headers of the three message kinds.
 */
module Wire {
  import opened Wrappers

  type byte = bv8

  function Bytes16(v: bv16): (r: seq<byte>)
    ensures |r| == 2
  {
    [((v >> 8) & 0xFF) as byte, (v & 0xFF) as byte]
  }

  function Bytes32(v: bv32): (r: seq<byte>)
    ensures |r| == 4
  {
    [((v >> 24) & 0xFF) as byte, ((v >> 16) & 0xFF) as byte, ((v >> 8) & 0xFF) as byte, (v & 0xFF) as byte]
  }

  function Word16(b: seq<byte>): bv16
    requires |b| == 2
  {
    ((b[0] as bv16) << 8) | (b[1] as bv16)
  }

  function Word32(b: seq<byte>): bv32
    requires |b| == 4
  {
    ((b[0] as bv32) << 24) | ((b[1] as bv32) << 16) | ((b[2] as bv32) << 8) | (b[3] as bv32)
  }

  lemma RoundTrip16(v: bv16)
    ensures Word16(Bytes16(v)) == v
  {
  }

  lemma RoundTrip32(v: bv32)
    ensures Word32(Bytes32(v)) == v
  {
  }

  // Byte order.

  /** The number that bytes stand for, the most significant byte first. */
  function Value(b: seq<byte>): nat {
    if b == [] then 0 else Value(b[..|b| - 1]) * 0x100 + b[|b| - 1] as nat
  }

  lemma ValueAppend(b: seq<byte>, x: byte)
    ensures Value(b + [x]) == Value(b) * 0x100 + x as nat
  {
    assert (b + [x])[..|b|] == b;
  }

  lemma ValueOfTwo(b: seq<byte>)
    requires |b| == 2
    ensures Value(b) == b[0] as nat * 0x100 + b[1] as nat
  {
    ValueAppend([], b[0]);
    ValueAppend([b[0]], b[1]);
    assert [] + [b[0]] == [b[0]] && [b[0]] + [b[1]] == b;
  }

  lemma ValueOfFour(b: seq<byte>)
    requires |b| == 4
    ensures Value(b) == ((b[0] as nat * 0x100 + b[1] as nat) * 0x100 + b[2] as nat) * 0x100 + b[3] as nat
  {
    ValueOfTwo(b[..2]);
    ValueAppend(b[..2], b[2]);
    ValueAppend(b[..3], b[3]);
    assert b[..2] + [b[2]] == b[..3] && b[..3] + [b[3]] == b;
  }

  lemma TwoBytes(a: byte, b: byte)
    ensures (((a as bv16) << 8) | (b as bv16)) as nat == a as nat * 0x100 + b as nat
  {
  }

  lemma OneMoreByte(w: bv32, b: byte)
    requires w < 0x100_0000
    ensures ((w << 8) | (b as bv32)) as nat == w as nat * 0x100 + b as nat
  {
  }

  lemma FourNested(a: byte, b: byte, c: byte, d: byte)
    ensures var ab := ((a as bv32) << 8) | (b as bv32);
            var abc := (ab << 8) | (c as bv32);
            && ab < 0x1_0000 && abc < 0x100_0000
            && ((a as bv32) << 24) | ((b as bv32) << 16) | ((c as bv32) << 8) | (d as bv32) == (abc << 8) | (d as bv32)
  {
  }

  lemma FourBytes(a: byte, b: byte, c: byte, d: byte)
    ensures (((a as bv32) << 24) | ((b as bv32) << 16) | ((c as bv32) << 8) | (d as bv32)) as nat
         == ((a as nat * 0x100 + b as nat) * 0x100 + c as nat) * 0x100 + d as nat
  {
    FourNested(a, b, c, d);
    var ab := ((a as bv32) << 8) | (b as bv32);
    OneMoreByte(a as bv32, b);
    OneMoreByte(ab, c);
    OneMoreByte((ab << 8) | (c as bv32), d);
  }

  lemma ByteKeeps(n: nat)
    requires n < 0x100
    ensures (n as byte) as nat == n
  {
  }

  lemma Digits(n: nat)
    requires n < 0x1_0000_0000
    ensures n / 0x100_0000 < 0x100
    ensures n == ((n / 0x100_0000 * 0x100 + n / 0x1_0000 % 0x100) * 0x100 + n / 0x100 % 0x100) * 0x100 + n % 0x100
  {
  }

  /** The word that stands for a number. */
  function WordOf(n: nat): (w: bv32)
    requires n < 0x1_0000_0000
    ensures w as nat == n
  {
    var a, b, c, d := n / 0x100_0000, n / 0x1_0000 % 0x100, n / 0x100 % 0x100, n % 0x100;
    Digits(n);
    ByteKeeps(a);
    ByteKeeps(b);
    ByteKeeps(c);
    ByteKeeps(d);
    FourBytes(a as byte, b as byte, c as byte, d as byte);
    ((a as byte as bv32) << 24) | ((b as byte as bv32) << 16) | ((c as byte as bv32) << 8) | (d as byte as bv32)
  }

  /** A word read is the number that its bytes stand for. */
  lemma WordHasValue16(b: seq<byte>)
    requires |b| == 2
    ensures Word16(b) as nat == Value(b)
  {
    TwoBytes(b[0], b[1]);
    ValueOfTwo(b);
  }

  lemma WordHasValue32(b: seq<byte>)
    requires |b| == 4
    ensures Word32(b) as nat == Value(b)
  {
    FourBytes(b[0], b[1], b[2], b[3]);
    ValueOfFour(b);
  }

  /** The bytes written stand for the number, the most significant first. */
  lemma BytesHaveValue16(v: bv16)
    ensures Value(Bytes16(v)) == v as nat
  {
    RoundTrip16(v);
    WordHasValue16(Bytes16(v));
  }

  lemma BytesHaveValue32(v: bv32)
    ensures Value(Bytes32(v)) == v as nat
  {
    RoundTrip32(v);
    WordHasValue32(Bytes32(v));
  }

  /** Writes through a cursor that moves towards the end of its buffer. */
  class Encoder {
    const buffer: array<byte>
    var begin: nat
    const end: nat

    ghost predicate Valid()
      reads this
    {
      begin <= end <= buffer.Length
    }

    constructor (buffer: array<byte>)
      ensures Valid() && this.buffer == buffer && begin == 0 && end == buffer.Length
    {
      this.buffer, begin, end := buffer, 0, buffer.Length;
    }

    function Size(): nat
      requires Valid()
      reads this
    {
      end - begin
    }

    /** The written bytes follow what was written before; nothing behind them changes. */
    twostate predicate Wrote(bytes: seq<byte>)
      requires begin <= buffer.Length && old(begin) + |bytes| <= buffer.Length
      reads this, buffer
    {
      && begin == old(begin) + |bytes|
      && buffer[..begin] == old(buffer[..begin]) + bytes
      && buffer[begin..] == old(buffer[begin..])[|bytes|..]
    }

    method Put8(value: byte)
      requires Valid() && Size() >= 1
      modifies this, buffer
      ensures Valid() && Wrote([value])
    {
      buffer[begin] := value;
      begin := begin + 1;
    }

    method Put16(value: bv16)
      requires Valid() && Size() >= 2
      modifies this, buffer
      ensures Valid() && Wrote(Bytes16(value)) && Value(buffer[old(begin)..begin]) == value as nat
    {
      BytesHaveValue16(value);
      buffer[begin] := ((value >> 8) & 0xFF) as byte;
      buffer[begin + 1] := (value & 0xFF) as byte;
      begin := begin + 2;
      assert buffer[begin - 2..begin] == Bytes16(value);
      assert buffer[..begin] == buffer[..begin - 2] + buffer[begin - 2..begin];
      assert buffer[..begin - 2] == old(buffer[..begin]);
    }

    method Put32(value: bv32)
      requires Valid() && Size() >= 4
      modifies this, buffer
      ensures Valid() && Wrote(Bytes32(value)) && Value(buffer[old(begin)..begin]) == value as nat
    {
      BytesHaveValue32(value);
      buffer[begin] := ((value >> 24) & 0xFF) as byte;
      buffer[begin + 1] := ((value >> 16) & 0xFF) as byte;
      buffer[begin + 2] := ((value >> 8) & 0xFF) as byte;
      buffer[begin + 3] := (value & 0xFF) as byte;
      begin := begin + 4;
      assert buffer[begin - 4..begin] == Bytes32(value);
      assert buffer[..begin] == buffer[..begin - 4] + buffer[begin - 4..begin];
      assert buffer[..begin - 4] == old(buffer[..begin]);
    }
  }

  /** Reads through a cursor over bytes that do not change. */
  class Decoder {
    const data: seq<byte>
    var begin: nat

    ghost predicate Valid()
      reads this
    {
      begin <= |data|
    }

    constructor (data: seq<byte>)
      ensures Valid() && this.data == data && begin == 0
    {
      this.data, begin := data, 0;
    }

    function Size(): nat
      requires Valid()
      reads this
    {
      |data| - begin
    }

    method Get8() returns (value: byte)
      requires Valid() && Size() >= 1
      modifies this
      ensures Valid() && begin == old(begin) + 1 && value == data[old(begin)]
    {
      value := data[begin];
      begin := begin + 1;
    }

    method Get16() returns (value: bv16)
      requires Valid() && Size() >= 2
      modifies this
      ensures Valid() && begin == old(begin) + 2 && value == Word16(data[old(begin)..begin])
      ensures value as nat == Value(data[old(begin)..begin])
    {
      WordHasValue16(data[begin..begin + 2]);
      value := ((data[begin] as bv16) << 8) | (data[begin + 1] as bv16);
      begin := begin + 2;
    }

    method Get32() returns (value: bv32)
      requires Valid() && Size() >= 4
      modifies this
      ensures Valid() && begin == old(begin) + 4 && value == Word32(data[old(begin)..begin])
      ensures value as nat == Value(data[old(begin)..begin])
    {
      WordHasValue32(data[begin..begin + 4]);
      value := ((data[begin] as bv32) << 24)
               | ((data[begin + 1] as bv32) << 16)
               | ((data[begin + 2] as bv32) << 8)
               | (data[begin + 3] as bv32);
      begin := begin + 4;
    }
  }

  // Headers.

  const HEADER_SIZE := 12

  const MASK_TYPE: bv16 := 0xF800
  const MASK_ACK: bv16 := 0x000C

  const TYPE_DATA: bv16 := 0xC000
  const TYPE_HANDSHAKE: bv16 := 0xC800
  const TYPE_KEEPALIVE: bv16 := 0xD800

  const ACK_TYPE_NONE: bv16 := 0x0000
  const ACK_TYPE_CUMULATIVE: bv16 := 0x0004

  datatype Kind = Handshake | Keepalive | Data

  /** A header; extra is the version of a handshake and the dummy field of the other kinds. */
  datatype Header = Header(kind: Kind, retransmissions: nat, extra: bv16, sequence: bv32, ack: Option<bv32>)

  function KindBits(kind: Kind): bv16 {
    match kind
    case Handshake => TYPE_HANDSHAKE
    case Keepalive => TYPE_KEEPALIVE
    case Data => TYPE_DATA
  }

  /** min(3, count) as a bit field. */
  function RetransmissionBits(count: nat): bv16 {
    if count == 0 then 0 else if count == 1 then 1 else if count == 2 then 2 else 3
  }

  function RetransmissionCount(bits: bv16): nat {
    if bits == 0 then 0 else if bits == 1 then 1 else if bits == 2 then 2 else 3
  }

  function TypeField(h: Header): bv16 {
    KindBits(h.kind)
    | RetransmissionBits(h.retransmissions)
    | (if h.ack.Some? then ACK_TYPE_CUMULATIVE else ACK_TYPE_NONE)
  }

  function KindOf(field: bv16): Option<Kind> {
    var bits := field & MASK_TYPE;
    if bits == TYPE_HANDSHAKE then Some(Handshake)
    else if bits == TYPE_KEEPALIVE then Some(Keepalive)
    else if bits == TYPE_DATA then Some(Data)
    else None
  }

  /** The dummy field of a keepalive or data header is sent as zero. */
  function ExtraField(h: Header): bv16 {
    if h.kind.Handshake? then h.extra else 0
  }

  function Encoded(h: Header): (r: seq<byte>)
    ensures |r| == HEADER_SIZE
  {
    Bytes16(TypeField(h)) + Bytes16(ExtraField(h)) + Bytes32(h.sequence)
    + Bytes32(if h.ack.Some? then h.ack.value else 0)
  }

  function Decoded(b: seq<byte>): Option<Header>
    requires |b| == HEADER_SIZE
  {
    var field := Word16(b[0..2]);
    var kind := KindOf(field);
    if kind.None? then None
    else
      Some(Header(kind.value, RetransmissionCount(field & 3), Word16(b[2..4]), Word32(b[4..8]),
                  if field & MASK_ACK != 0 then Some(Word32(b[8..12])) else None))
  }

  lemma InFourParts(before: seq<byte>, behind: seq<byte>, a: seq<byte>, b: seq<byte>, c: seq<byte>, d: seq<byte>)
    requires |a| == 2 && |b| == 2 && |c| == 4 && |d| == 4 && |behind| >= HEADER_SIZE
    ensures before + a + b + c + d == before + (a + b + c + d)
    ensures behind[|a|..][|b|..][|c|..][|d|..] == behind[HEADER_SIZE..]
  {
  }

  /** Appends the header to the encoder's buffer. */
  method Encode(h: Header, encoder: Encoder)
    requires encoder.Valid() && encoder.Size() >= HEADER_SIZE
    modifies encoder, encoder.buffer
    ensures encoder.Valid() && encoder.Wrote(Encoded(h))
  {
    var ack := if h.ack.Some? then h.ack.value else 0;
    encoder.Put16(TypeField(h));
    encoder.Put16(ExtraField(h));
    encoder.Put32(h.sequence);
    encoder.Put32(ack);
    InFourParts(old(encoder.buffer[..encoder.begin]), old(encoder.buffer[encoder.begin..]),
                Bytes16(TypeField(h)), Bytes16(ExtraField(h)), Bytes32(h.sequence), Bytes32(ack));
  }

  /** Reads a whole header; an unknown message type is not decoded further. */
  method Decode(decoder: Decoder) returns (h: Option<Header>)
    requires decoder.Valid() && decoder.begin == 0 && |decoder.data| == HEADER_SIZE
    modifies decoder
    ensures decoder.Valid() && h == Decoded(decoder.data)
  {
    var field := decoder.Get16();
    var kind := KindOf(field);
    if kind.None? {
      return None;
    }
    var extra := decoder.Get16();
    var sequence := decoder.Get32();
    var ack := None;
    if field & MASK_ACK != 0 {
      var value := decoder.Get32();
      ack := Some(value);
    }
    h := Some(Header(kind.value, RetransmissionCount(field & 3), extra, sequence, ack));
  }

  /** What survives the wire: everything but a count above 3 and the dummy field. */
  function Normalized(h: Header): Header {
    h.(retransmissions := if h.retransmissions < 3 then h.retransmissions else 3, extra := ExtraField(h))
  }

  lemma TypeFieldReadsBack(h: Header)
    ensures KindOf(TypeField(h)) == Some(h.kind)
    ensures RetransmissionCount(TypeField(h) & 3) == Normalized(h).retransmissions
    ensures TypeField(h) & MASK_ACK != 0 <==> h.ack.Some?
  {
  }

  lemma FourParts(a: seq<byte>, b: seq<byte>, c: seq<byte>, d: seq<byte>)
    requires |a| == 2 && |b| == 2 && |c| == 4 && |d| == 4
    ensures var all := a + b + c + d;
            all[0..2] == a && all[2..4] == b && all[4..8] == c && all[8..12] == d
  {
  }

  /** Decoding what was encoded restores kind, sequence number, acknowledgement, count and version. */
  lemma HeaderRoundTrip(h: Header)
    ensures Decoded(Encoded(h)) == Some(Normalized(h))
  {
    var ack := if h.ack.Some? then h.ack.value else 0;
    FourParts(Bytes16(TypeField(h)), Bytes16(ExtraField(h)), Bytes32(h.sequence), Bytes32(ack));
    RoundTrip16(TypeField(h));
    RoundTrip16(ExtraField(h));
    RoundTrip32(h.sequence);
    RoundTrip32(ack);
    TypeFieldReadsBack(h);
  }

  // The layout of a header.

  /** The first two bytes: the kind, then the clamped count and whether there is an acknowledgement. */
  lemma TypeBytes(h: Header)
    ensures Bytes16(TypeField(h))[0] == match h.kind case Handshake => 0xC8 case Keepalive => 0xD8 case Data => 0xC0
    ensures Bytes16(TypeField(h))[1] as nat == Normalized(h).retransmissions + if h.ack.Some? then 4 else 0
  {
  }

  lemma EncodedParts(h: Header)
    ensures var b := Encoded(h);
            && b[0..2] == Bytes16(TypeField(h)) && b[2..4] == Bytes16(ExtraField(h))
            && b[4..8] == Bytes32(h.sequence) && b[8..12] == Bytes32(if h.ack.Some? then h.ack.value else 0)
  {
    FourParts(Bytes16(TypeField(h)), Bytes16(ExtraField(h)), Bytes32(h.sequence),
              Bytes32(if h.ack.Some? then h.ack.value else 0));
  }

  /** The first four bytes of an encoded header: kind, count and acknowledgement flag, and version of a handshake. */
  lemma HeaderStart(h: Header)
    ensures var b := Encoded(h);
            && b[0] == (match h.kind case Handshake => 0xC8 case Keepalive => 0xD8 case Data => 0xC0)
            && b[1] as nat == (if h.retransmissions < 3 then h.retransmissions else 3) + (if h.ack.Some? then 4 else 0)
            && Value(b[2..4]) == if h.kind.Handshake? then h.extra as nat else 0
  {
    EncodedParts(h);
    TypeBytes(h);
    var b := Encoded(h);
    assert b[0] == b[0..2][0] && b[1] == b[0..2][1];
    BytesHaveValue16(ExtraField(h));
  }

  /** Bytes 4 to 7 hold the sequence number, bytes 8 to 11 the acknowledgement, or zero. */
  lemma HeaderNumbers(h: Header)
    ensures Value(Encoded(h)[4..8]) == h.sequence as nat
    ensures Value(Encoded(h)[8..12]) == if h.ack.Some? then h.ack.value as nat else 0
  {
    EncodedParts(h);
    BytesHaveValue32(h.sequence);
    BytesHaveValue32(if h.ack.Some? then h.ack.value else 0);
  }

  /** What the two bytes of a type field mean. */
  lemma TypeOf(b: seq<byte>)
    requires |b| == 2
    ensures var field := Word16(b);
            && (KindOf(field) == Some(Handshake) <==> b[0] & 0xF8 == 0xC8)
            && (KindOf(field) == Some(Keepalive) <==> b[0] & 0xF8 == 0xD8)
            && (KindOf(field) == Some(Data) <==> b[0] & 0xF8 == 0xC0)
            && (field & MASK_ACK != 0 <==> b[1] & 0x0C != 0)
  {
  }

  /** Any twelve bytes decode by their first two: an unknown kind to nothing. */
  lemma DecodedKind(b: seq<byte>)
    requires |b| == HEADER_SIZE
    ensures Decoded(b).Some? <==> b[0] & 0xF8 == 0xC8 || b[0] & 0xF8 == 0xD8 || b[0] & 0xF8 == 0xC0
    ensures Decoded(b).Some? ==>
              && (Decoded(b).value.kind.Handshake? <==> b[0] & 0xF8 == 0xC8)
              && (Decoded(b).value.kind.Keepalive? <==> b[0] & 0xF8 == 0xD8)
              && (Decoded(b).value.ack.Some? <==> b[1] & 0x0C != 0)
  {
    TypeOf(b[0..2]);
  }

  /** And the numbers are those at the places where they are written. */
  lemma DecodedNumbers(b: seq<byte>)
    requires |b| == HEADER_SIZE && Decoded(b).Some?
    ensures Decoded(b).value.extra as nat == Value(b[2..4])
    ensures Decoded(b).value.sequence as nat == Value(b[4..8])
    ensures Decoded(b).value.ack.Some? ==> Decoded(b).value.ack.value as nat == Value(b[8..12])
  {
    WordHasValue16(b[2..4]);
    WordHasValue32(b[4..8]);
    WordHasValue32(b[8..12]);
  }
}
