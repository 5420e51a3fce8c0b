/**
 * The bytes on the wire, in numbers: what a packet spells (crates/easycon-controller/src/protocol.rs), the value of
 * every button and hat (crates/easycon-model/src/controller.rs), and the vectors the repository keeps for them
 * (spec/fixtures/controller/reports-v1.json).
 */
module WireFormat {
  import opened Radix
  import opened Report
  import opened ReportCodec
  import Amiibo

  // The number of the seven bytes, most significant first.
  function Spelled(buttons: nat, hat: nat, lx: nat, ly: nat, rx: nat, ry: nat): nat {
    buttons * 0x100_0000_0000 + hat * 0x1_0000_0000 + lx * 0x100_0000 + ly * 0x1_0000 + rx * 0x100 + ry
  }

  // Eight 7-bit chunks, most significant first.
  function Chunked(c: seq<nat>): nat
    requires |c| == 8
  {
    c[0] * 0x2_0000_0000_0000 + c[1] * 0x400_0000_0000 + c[2] * 0x8_0000_0000 + c[3] * 0x1000_0000
    + c[4] * 0x20_0000 + c[5] * 0x4000 + c[6] * 0x80 + c[7]
  }

  lemma {:induction false} ValueStep(s: seq<nat>, b: Base)
    requires s != []
    ensures Value(s, b) == Push(Value(s[..|s| - 1], b), s[|s| - 1], b)
  {
  }

  lemma {:induction false} SevenBytes(s: seq<nat>)
    requires |s| == 7
    ensures Value(s, Eight) == Spelled(s[0] * 0x100 + s[1], s[2], s[3], s[4], s[5], s[6])
  {
    ValueStep(s, Eight);
    ValueStep(s[..6], Eight);
    ValueStep(s[..5], Eight);
    ValueStep(s[..4], Eight);
    ValueStep(s[..3], Eight);
    ValueStep(s[..2], Eight);
    ValueStep(s[..1], Eight);
    assert s[..6][..5] == s[..5] && s[..5][..4] == s[..4] && s[..4][..3] == s[..3] && s[..3][..2] == s[..2] && s[..2][..1] == s[..1];
    assert s[..1][..0] == [];
  }

  // The last four 7-bit chunks, on top of what is before them.
  lemma {:induction false} FourChunks(c: seq<nat>)
    requires |c| >= 4
    ensures var n := |c| - 4;
            Value(c, Seven) == Value(c[..n], Seven) * 0x1000_0000 + c[n] * 0x20_0000 + c[n + 1] * 0x4000 + c[n + 2] * 0x80 + c[n + 3]
  {
    var n := |c| - 4;
    ValueStep(c, Seven);
    ValueStep(c[..n + 3], Seven);
    ValueStep(c[..n + 2], Seven);
    ValueStep(c[..n + 1], Seven);
    assert c[..n + 3][..n + 2] == c[..n + 2] && c[..n + 2][..n + 1] == c[..n + 1] && c[..n + 1][..n] == c[..n];
  }

  lemma {:induction false} EightChunks(c: seq<nat>)
    requires |c| == 8
    ensures Value(c, Seven) == Chunked(c)
  {
    FourChunks(c);
    FourChunks(c[..4]);
    assert c[..4][..0] == [];
  }

  // Protocol values, as the repository's vectors list them.
  function ButtonMask(b: Button): nat {
    match b
    case Y => 1 case B => 2 case A => 4 case X => 8 case L => 16 case R => 32 case ZL => 64 case ZR => 128
    case Minus => 256 case Plus => 512 case LClick => 1024 case RClick => 2048 case Home => 4096 case Capture => 8192
  }

  function HatNumber(h: Hat): nat {
    match h
    case Top => 0 case TopRight => 1 case Right => 2 case BottomRight => 3 case Bottom => 4
    case BottomLeft => 5 case Left => 6 case TopLeft => 7 case Center => 8
  }

  function Unmarked(p: seq<nat>): (c: seq<nat>)
    requires |p| == 8 && p[7] >= 0x80
    ensures |c| == 8
  {
    p[7 := p[7] - 0x80]
  }

  lemma PacketIsNumber(r: Report)
    ensures Chunked(Unmarked(Packet(r))) == Value(Serialize(r), Eight)
  {
    var n := Value(Serialize(r), Eight);
    ValueBound(Serialize(r), Eight);
    SameSize();
    ValueOfDigits(n, Seven, 8);
    EightChunks(Digits(n, Seven, 8));
    assert Unmarked(Packet(r)) == Digits(n, Seven, 8);
  }

  // A packet is its report: eight bytes below 0x80 but for the mark on the last, which spell, most significant
  // first, the button mask, the hat, and the two sticks, x before y and left before right.
  lemma PacketSpells(r: Report)
    ensures var p := Packet(r);
            && |p| == 8 && (forall k :: 0 <= k < 7 ==> p[k] < 0x80) && 0x80 <= p[7] < 0x100
            && Chunked(Unmarked(p))
               == Spelled(r.buttons, HatNumber(r.hat), r.leftStick.x, r.leftStick.y, r.rightStick.x, r.rightStick.y)
  {
    PacketIsNumber(r);
    SevenBytes(Serialize(r));
    assert r.buttons / 0x100 * 0x100 + r.buttons % 0x100 == r.buttons;
  }

  // And nothing else is: eight bytes of that form that spell the report are its packet.
  lemma SpellingIsPacket(r: Report, p: seq<nat>)
    requires |p| == 8 && (forall k :: 0 <= k < 7 ==> p[k] < 0x80) && 0x80 <= p[7] < 0x100
    requires Chunked(Unmarked(p))
             == Spelled(r.buttons, HatNumber(r.hat), r.leftStick.x, r.leftStick.y, r.rightStick.x, r.rightStick.y)
    ensures p == Packet(r)
  {
    var c, d := Unmarked(p), Unmarked(Packet(r));
    PacketSpells(r);
    EightChunks(c);
    EightChunks(d);
    DigitsOfValue(c, Seven);
    DigitsOfValue(d, Seven);
    assert p == c[7 := c[7] + 0x80] && Packet(r) == d[7 := d[7] + 0x80];
  }

  // ---- Buttons -------------------------------------------------------------------------------------------------------

  lemma {:induction false} OneBit(k: nat)
    ensures SetBit(0, k) == Power(k)
  {
    if k > 0 { OneBit(k - 1); }
  }

  lemma PowersAre()
    ensures Power(0) == 1 && Power(1) == 2 && Power(2) == 4 && Power(3) == 8 && Power(4) == 16 && Power(5) == 32 && Power(6) == 64
    ensures Power(7) == 128 && Power(8) == 256 && Power(9) == 512 && Power(10) == 1024 && Power(11) == 2048
    ensures Power(12) == 4096 && Power(13) == 8192
  {
    assert Power(4) == 16;
    assert Power(8) == 256;
  }

  lemma PlaceIsMask(b: Button)
    ensures Power(Place(b)) == ButtonMask(b)
  {
    PowersAre();
  }

  lemma PressedIs(b: Button)
    ensures Act(ButtonDown(b), NEUTRAL).buttons == SetBit(0, Place(b))
  {
  }

  // Pressing one button on a neutral report gives its mask, and the mask of no other.
  lemma {:induction false} ButtonIsItsMask(b: Button)
    ensures Act(ButtonDown(b), NEUTRAL).buttons == ButtonMask(b)
  {
    PressedIs(b);
    OneBit(Place(b));
    PlaceIsMask(b);
  }

  // ---- The vectors ---------------------------------------------------------------------------------------------------

  datatype Vector = Vector(report: Report, encoded: seq<nat>)

  function Stood(mask: Word, hat: Hat): Report {
    NEUTRAL.(buttons := mask, hat := hat, leftStick := Stick(128, 128), rightStick := Stick(128, 128))
  }

  // The encodings the repository fixes, in its order.
  function Vectors(): seq<Vector> {
    [ Vector(Stood(0, Center), [0, 0, 1, 8, 4, 2, 1, 128]),
      Vector(Stood(4, Center), [0, 1, 1, 8, 4, 2, 1, 128]),
      Vector(Stood(4099, Center), [8, 0, 97, 8, 4, 2, 1, 128]),
      Vector(Stood(0, Top), [0, 0, 0, 8, 4, 2, 1, 128]),
      Vector(Stood(0, TopRight), [0, 0, 0, 24, 4, 2, 1, 128]),
      Vector(Stood(0, Hat.Right), [0, 0, 0, 40, 4, 2, 1, 128]),
      Vector(Stood(0, BottomRight), [0, 0, 0, 56, 4, 2, 1, 128]),
      Vector(Stood(0, Bottom), [0, 0, 0, 72, 4, 2, 1, 128]),
      Vector(Stood(0, BottomLeft), [0, 0, 0, 88, 4, 2, 1, 128]),
      Vector(Stood(0, Hat.Left), [0, 0, 0, 104, 4, 2, 1, 128]),
      Vector(Stood(0, TopLeft), [0, 0, 0, 120, 4, 2, 1, 128]),
      Vector(Stood(0, Center).(leftStick := Stick(0, 255), rightStick := Stick(255, 0)), [0, 0, 1, 0, 7, 127, 126, 128]) ]
  }

  lemma VectorSpells(k: nat)
    requires k < |Vectors()|
    ensures var v := Vectors()[k]; Packet(v.report) == v.encoded
  {
    SpellingIsPacket(Vectors()[k].report, Vectors()[k].encoded);
  }

  // The packets are those of every vector; a neutral report is the first of them.
  lemma VectorsAreEncoded()
    ensures forall k: nat :: k < |Vectors()| ==> Packet(Vectors()[k].report) == Vectors()[k].encoded
    ensures Packet(NEUTRAL) == [0, 0, 1, 8, 4, 2, 1, 128]
  {
    forall k: nat | k < |Vectors()| ensures Packet(Vectors()[k].report) == Vectors()[k].encoded { VectorSpells(k); }
    assert Vectors()[0].report == NEUTRAL;
  }

  // A save header is the ready byte, offset and length in two 7-bit digits each, low digit first, the slot and the
  // command; the repository's example is one.
  lemma SaveHeaderBytes(slot: nat, offset: nat, length: nat)
    requires offset < 16_384 && length <= 20
    ensures exists low: nat, high: nat ::
              low < 128 && offset == low + 128 * high && Amiibo.SaveHeader(slot, offset, length) == [165, low, high, length, 0, slot, 144]
    ensures Amiibo.SaveHeader(3, 140, 7) == [165, 12, 1, 7, 0, 3, 144]
  {
    var low: nat, high: nat := offset % 128, offset / 128;
    assert offset == low + 128 * high;
    assert Amiibo.SaveHeader(slot, offset, length) == [165, low, high, length, 0, slot, 144];
  }
}
