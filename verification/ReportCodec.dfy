/**
 * The packet format of a report (crates/easycon-controller/src/protocol.rs): seven bytes packed into
 * eight 7-bit chunks, the last with the high bit set; and the decoder that undoes it.
 */
module ReportCodec {
  import opened Wrappers
  import opened Radix
  import opened Report

  const MARK: nat := 0x80

  function HatValue(h: Hat): Byte {
    match h
    case Top => 0 case TopRight => 1 case Right => 2 case BottomRight => 3 case Bottom => 4
    case BottomLeft => 5 case Left => 6 case TopLeft => 7 case Center => 8
  }

  function HatOf(v: nat): (h: Option<Hat>)
    ensures h == None <==> v > 8
    ensures h.Some? ==> HatValue(h.value) == v
  {
    if v > 8 then None
    else Some(if v == 0 then Top else if v == 1 then TopRight else if v == 2 then Hat.Right else if v == 3 then BottomRight
              else if v == 4 then Bottom else if v == 5 then BottomLeft else if v == 6 then Hat.Left
              else if v == 7 then TopLeft else Center)
  }

  function Serialize(r: Report): (s: seq<nat>)
    ensures |s| == 7 && AreDigits(s, Eight)
  {
    [r.buttons / 0x100, r.buttons % 0x100, HatValue(r.hat), r.leftStick.x, r.leftStick.y, r.rightStick.x, r.rightStick.y]
  }

  // The number the seven bytes spell, written in eight 7-bit digits, with the end marker.
  function Packet(r: Report): (p: seq<nat>)
    ensures |p| == 8
    ensures forall k :: 0 <= k < 7 ==> p[k] < MARK
    ensures MARK <= p[7] < 0x100
  {
    Marked(Digits(Value(Serialize(r), Eight), Seven, 8))
  }

  function Marked(chunks: seq<nat>): (p: seq<nat>)
    requires |chunks| == 8
    ensures |p| == 8 && forall k :: 0 <= k < 7 ==> p[k] == chunks[k]
    ensures p[7] == chunks[7] + MARK
  {
    chunks[7 := chunks[7] + MARK]
  }

  predicate WellFormed(p: seq<nat>) {
    |p| == 8 && (forall k :: 0 <= k < 7 ==> p[k] < MARK) && MARK <= p[7] < 0x100
  }

  // The decoder: drops the marker, reads the 56 bits and takes them apart again. The hat byte is the
  // only one with values no report has.
  function Decode(p: seq<nat>): Option<Report> {
    if !WellFormed(p) then None
    else
      var s := Digits(Value(p[7 := p[7] - MARK], Seven), Eight, 7);
      var hat := HatOf(s[2]);
      if hat == None then None
      else Some(Report(s[0] * 0x100 + s[1], hat.value, Stick(s[3], s[4]), Stick(s[5], s[6])))
  }

  // Seven bytes survive the way through eight 7-bit digits.
  lemma {:induction false} BytesSurvive(s: seq<nat>)
    requires |s| == 7 && AreDigits(s, Eight)
    ensures Digits(Value(Digits(Value(s, Eight), Seven, 8), Seven), Eight, 7) == s
  {
    ValueBound(s, Eight);
    SameSize();
    ValueOfDigits(Value(s, Eight), Seven, 8);
    DigitsOfValue(s, Eight);
  }

  lemma Unmarked(chunks: seq<nat>)
    requires |chunks| == 8
    ensures Marked(chunks)[7 := Marked(chunks)[7] - MARK] == chunks
  {
  }

  lemma DecodePacket(r: Report)
    ensures Decode(Packet(r)) == Some(r)
  {
    BytesSurvive(Serialize(r));
    Unmarked(Digits(Value(Serialize(r), Eight), Seven, 8));
  }

  // And eight 7-bit digits the way through seven bytes.
  lemma {:induction false} ChunksSurvive(chunks: seq<nat>)
    requires |chunks| == 8 && AreDigits(chunks, Seven)
    ensures Digits(Value(Digits(Value(chunks, Seven), Eight, 7), Eight), Seven, 8) == chunks
  {
    ValueBound(chunks, Seven);
    SameSize();
    ValueOfDigits(Value(chunks, Seven), Eight, 7);
    DigitsOfValue(chunks, Seven);
  }

  lemma MarkedAgain(p: seq<nat>)
    requires WellFormed(p)
    ensures var chunks := p[7 := p[7] - MARK]; |chunks| == 8 && AreDigits(chunks, Seven) && Marked(chunks) == p
  {
  }

  // A report is read off its seven bytes.
  lemma SerializeRead(s: seq<nat>, hat: Hat)
    requires |s| == 7 && AreDigits(s, Eight) && HatOf(s[2]) == Some(hat)
    ensures Serialize(Report(s[0] * 0x100 + s[1], hat, Stick(s[3], s[4]), Stick(s[5], s[6]))) == s
  {
    assert (s[0] * 0x100 + s[1]) / 0x100 == s[0] && (s[0] * 0x100 + s[1]) % 0x100 == s[1];
  }

  lemma PacketOfDecoded(p: seq<nat>)
    requires Decode(p).Some?
    ensures Packet(Decode(p).value) == p
  {
    var chunks := p[7 := p[7] - MARK];
    MarkedAgain(p);
    ChunksSurvive(chunks);
    var s := Digits(Value(chunks, Seven), Eight, 7);
    SerializeRead(s, HatOf(s[2]).value);
  }

  // Encoding and decoding are inverse, so no two reports share a packet, and exactly the well-formed
  // packets with a known hat byte are packets of a report.
  lemma RoundTrip(r: Report, p: seq<nat>)
    ensures Decode(p) == Some(r) <==> p == Packet(r)
  {
    DecodePacket(r);
    if Decode(p) == Some(r) { PacketOfDecoded(p); }
  }

  // ---- The stream -----------------------------------------------------------------------------------------

  function Stream(reports: seq<Report>): seq<nat> {
    if reports == [] then [] else Packet(reports[0]) + Stream(reports[1..])
  }

  // Cuts a stream after each byte with the high bit; None if it does not end with one.
  function Split(stream: seq<nat>, current: seq<nat>): Option<seq<seq<nat>>> {
    if stream == [] then (if current == [] then Some([]) else None)
    else if stream[0] < MARK then Split(stream[1..], current + [stream[0]])
    else
      var rest := Split(stream[1..], []);
      if rest == None then None else Some([current + [stream[0]]] + rest.value)
  }

  lemma {:induction false} SplitFirst(stream: seq<nat>, current: seq<nat>, k: nat)
    requires k < |stream| && stream[k] >= MARK
    requires forall j :: 0 <= j < k ==> stream[j] < MARK
    ensures var rest := Split(stream[k + 1..], []);
            Split(stream, current) == if rest == None then None else Some([current + stream[..k + 1]] + rest.value)
    decreases k
  {
    if k == 0 {
      assert stream[..1] == [stream[0]];
    } else {
      SplitFirst(stream[1..], current + [stream[0]], k - 1);
      assert stream[1..][k - 1 + 1..] == stream[k + 1..];
      assert current + [stream[0]] + stream[1..][..k] == current + stream[..k + 1];
    }
  }

  function Packets(reports: seq<Report>): seq<seq<nat>> {
    if reports == [] then [] else [Packet(reports[0])] + Packets(reports[1..])
  }

  lemma {:induction false} StreamSplits(reports: seq<Report>)
    ensures Split(Stream(reports), []) == Some(Packets(reports))
  {
    if reports != [] {
      var p, rest := Packet(reports[0]), Stream(reports[1..]);
      SplitFirst(p + rest, [], 7);
      assert (p + rest)[..8] == p && (p + rest)[7 + 1..] == rest;
      assert [] + (p + rest)[..7 + 1] == p;
      StreamSplits(reports[1..]);
    }
  }

  lemma {:induction false} PacketsInjective(a: seq<Report>, b: seq<Report>)
    requires Packets(a) == Packets(b)
    ensures a == b
  {
    if a != [] && b != [] {
      assert Packets(a)[0] == Packets(b)[0] && Packets(a)[1..] == Packets(a[1..]) && Packets(b)[1..] == Packets(b[1..]);
      RoundTrip(a[0], Packet(a[0]));
      RoundTrip(b[0], Packet(b[0]));
      PacketsInjective(a[1..], b[1..]);
      assert a == [a[0]] + a[1..] && b == [b[0]] + b[1..];
    }
  }

  // A stream of encoded reports falls apart again in one way only.
  lemma {:induction false} StreamIsUnambiguous(a: seq<Report>, b: seq<Report>)
    ensures Stream(a) == Stream(b) <==> a == b
  {
    StreamSplits(a);
    StreamSplits(b);
    if Stream(a) == Stream(b) { PacketsInjective(a, b); }
  }

  // ---- The packing loop ------------------------------------------------------------------------------------

  // Shifts and masks of a 64-bit accumulator that stays far below 2^64.
  function ShiftLeft(n: nat, k: nat): nat {
    if k == 0 then n else 2 * ShiftLeft(n, k - 1)
  }

  function ShiftRight(n: nat, k: nat): nat {
    if k == 0 then n else ShiftRight(n / 2, k - 1)
  }

  function LowBits(n: nat, k: nat): nat {
    if k == 0 then 0 else 2 * LowBits(n / 2, k - 1) + n % 2
  }

  lemma {:induction false} ShiftAdds(a: nat, b: nat, k: nat)
    ensures ShiftLeft(a + b, k) == ShiftLeft(a, k) + ShiftLeft(b, k)
  {
    if k > 0 { ShiftAdds(a, b, k - 1); }
  }

  lemma {:induction false} ShiftTwice(n: nat, j: nat, k: nat)
    ensures ShiftLeft(ShiftLeft(n, j), k) == ShiftLeft(n, j + k)
  {
    if k > 0 { ShiftTwice(n, j, k - 1); }
  }

  lemma {:induction false} CutAt(n: nat, k: nat)
    ensures n == ShiftLeft(ShiftRight(n, k), k) + LowBits(n, k)
    ensures LowBits(n, k) < ShiftLeft(1, k)
  {
    if k > 0 { CutAt(n / 2, k - 1); }
  }

  lemma {:induction false} ShiftRightBound(n: nat, m: nat, k: nat)
    requires n < ShiftLeft(m, k)
    ensures ShiftRight(n, k) < m
  {
    if k > 0 { ShiftRightBound(n / 2, m, k - 1); }
  }

  lemma {:induction false} ShiftBySeven(n: nat)
    ensures ShiftLeft(n, 7) == 128 * n
    ensures ShiftLeft(n, 8) == 256 * n
  {
    assert ShiftLeft(n, 2) == 2 * ShiftLeft(n, 1) == 4 * n;
    assert ShiftLeft(n, 4) == 2 * ShiftLeft(n, 3) == 16 * n;
    assert ShiftLeft(n, 6) == 2 * ShiftLeft(n, 5) == 64 * n;
  }

  // The bytes read so far are the chunks written so far, followed by the bits still held.
  ghost predicate Packed(read: seq<nat>, written: seq<nat>, held: nat, bits: nat) {
    && 8 * |read| == 7 * |written| + bits
    && AreDigits(written, Seven)
    && held < ShiftLeft(1, bits)
    && Value(read, Eight) == ShiftLeft(Value(written, Seven), bits) + held
  }

  lemma ReadByte(read: seq<nat>, written: seq<nat>, held: nat, bits: nat, byte: nat)
    requires Packed(read, written, held, bits) && byte < 0x100
    ensures Packed(read + [byte], written, 256 * held + byte, bits + 8)
  {
    ValueAppend(read, byte, Eight);
    var v := Value(written, Seven);
    ShiftTwice(v, bits, 8);
    ShiftBySeven(ShiftLeft(v, bits));
    ShiftTwice(1, bits, 8);
    ShiftBySeven(ShiftLeft(1, bits));
  }

  lemma {:induction false} WriteChunk(read: seq<nat>, written: seq<nat>, held: nat, bits: nat)
    requires Packed(read, written, held, bits + 7)
    ensures ShiftRight(held, bits) < 128
    ensures Packed(read, written + [ShiftRight(held, bits)], LowBits(held, bits), bits)
  {
    var v, chunk := Value(written, Seven), ShiftRight(held, bits);
    CutAt(held, bits);
    ShiftTwice(1, 7, bits);
    ShiftBySeven(1);
    ShiftRightBound(held, 128, bits);
    ValueAppend(written, chunk, Seven);
    ShiftTwice(v, 7, bits);
    ShiftBySeven(v);
    ShiftAdds(v * 128, chunk, bits);
  }

  // The inner loop: chunks leave the accumulator while it holds seven bits or more.
  method WriteChunks(buffer: array<nat>, index: nat, accumulator: nat, bitCount: nat, ghost read: seq<nat>)
    returns (index': nat, accumulator': nat, bitCount': nat)
    requires buffer.Length == 8 && index <= 8 && |read| <= 7
    requires Packed(read, buffer[..index], accumulator, bitCount)
    modifies buffer
    ensures index' <= 8 && bitCount' < 7
    ensures Packed(read, buffer[..index'], accumulator', bitCount')
  {
    index', accumulator', bitCount' := index, accumulator, bitCount;
    while bitCount' >= 7
      invariant index' <= 8
      invariant Packed(read, buffer[..index'], accumulator', bitCount')
    {
      bitCount' := bitCount' - 7;
      ghost var written := buffer[..index'];
      WriteChunk(read, written, accumulator', bitCount');
      buffer[index'] := ShiftRight(accumulator', bitCount');
      assert buffer[..index' + 1] == written + [ShiftRight(accumulator', bitCount')];
      index' := index' + 1;
      accumulator' := LowBits(accumulator', bitCount');
    }
  }

  lemma ReadNext(bytes: seq<nat>, i: nat, written: seq<nat>, held: nat, bits: nat)
    requires i < |bytes| && AreDigits(bytes, Eight) && Packed(bytes[..i], written, held, bits)
    ensures Packed(bytes[..i + 1], written, held * 0x100 + bytes[i], bits + 8)
  {
    ReadByte(bytes[..i], written, held, bits, bytes[i]);
    assert bytes[..i + 1] == bytes[..i] + [bytes[i]];
  }

  // `encode`: the loop fills all eight chunks exactly and leaves no bit over.
  method Encode(r: Report) returns (packet: seq<nat>)
    ensures packet == Packet(r)
  {
    var serialized := Serialize(r);
    var buffer := new nat[8](_ => 0);
    var packetIndex: nat, accumulator: nat, bitCount: nat := 0, 0, 0;
    var i := 0;
    while i < 7
      invariant i <= 7 && packetIndex <= 8 == buffer.Length && bitCount < 7
      invariant Packed(serialized[..i], buffer[..packetIndex], accumulator, bitCount)
    {
      ReadNext(serialized, i, buffer[..packetIndex], accumulator, bitCount);
      accumulator := accumulator * 0x100 + serialized[i];
      bitCount := bitCount + 8;
      packetIndex, accumulator, bitCount := WriteChunks(buffer, packetIndex, accumulator, bitCount, serialized[..i + 1]);
      i := i + 1;
    }
    assert buffer[..packetIndex] == buffer[..];
    Finish(serialized, buffer[..], accumulator);
    ghost var written := buffer[..];
    buffer[7] := buffer[7] + MARK;
    packet := buffer[..];
    assert packet == Marked(written);
  }

  lemma {:induction false} Finish(read: seq<nat>, written: seq<nat>, held: nat)
    requires |read| == 7 && |written| == 8 && Packed(read[..7], written, held, 0)
    ensures written == Digits(Value(read, Eight), Seven, 8)
  {
    assert read[..7] == read;
    assert ShiftLeft(Value(written, Seven), 0) == Value(written, Seven);
    DigitsOfValue(written, Seven);
  }
}
