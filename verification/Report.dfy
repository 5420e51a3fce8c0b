/**
 * The Switch input report and its mutations (crates/easycon-controller/src/protocol.rs,
 * crates/easycon-model/src/controller.rs): a value, the fold of a list of actions over it, and the
 * object whose methods update it in place.
 */
module Report {
  type Byte = n: nat | n < 0x100
  type Word = n: nat | n < 0x1_0000

  datatype Hat = Top | TopRight | Right | BottomRight | Bottom | BottomLeft | Left | TopLeft | Center

  datatype Stick = Stick(x: Byte, y: Byte)

  datatype Report = Report(buttons: Word, hat: Hat, leftStick: Stick, rightStick: Stick)

  const CENTER := Stick(128, 128)
  const NEUTRAL := Report(0, Center, CENTER, CENTER)

  datatype Button = Y | B | A | X | L | R | ZL | ZR | Minus | Plus | LClick | RClick | Home | Capture

  datatype Action =
    | ButtonDown(button: Button)
    | ButtonUp(button: Button)
    | SetHat(hat: Hat)
    | LeftStick(position: Stick)
    | RightStick(position: Stick)
    | Reset

  // The mask of a button is the one bit at its place in the declaration.
  function Place(b: Button): (p: nat)
    ensures p < 16
  {
    match b
    case Y => 0 case B => 1 case A => 2 case X => 3 case L => 4 case R => 5 case ZL => 6 case ZR => 7
    case Minus => 8 case Plus => 9 case LClick => 10 case RClick => 11 case Home => 12 case Capture => 13
  }

  predicate Bit(n: nat, k: nat) {
    if k == 0 then n % 2 == 1 else Bit(n / 2, k - 1)
  }

  // Or with, and and-not with, a one-bit mask.
  function SetBit(n: nat, k: nat): nat {
    if k == 0 then n - n % 2 + 1 else 2 * SetBit(n / 2, k - 1) + n % 2
  }

  function ClearBit(n: nat, k: nat): nat {
    if k == 0 then n - n % 2 else 2 * ClearBit(n / 2, k - 1) + n % 2
  }

  function Power(k: nat): nat {
    if k == 0 then 1 else 2 * Power(k - 1)
  }

  // A number is its half and its last bit.
  lemma HalfAndBit(h: nat, b: nat)
    requires b < 2
    ensures (2 * h + b) / 2 == h && (2 * h + b) % 2 == b
  {
  }

  // Setting a bit writes that bit and no other, and stays within the width.
  lemma {:induction false} SetBitWrites(n: nat, k: nat, width: nat, j: nat)
    requires k < width && n < Power(width)
    ensures SetBit(n, k) < Power(width)
    ensures Bit(SetBit(n, k), j) <==> j == k || Bit(n, j)
  {
    if k > 0 {
      assert n / 2 < Power(width - 1) by { assert Power(width) == 2 * Power(width - 1); }
      SetBitWrites(n / 2, k - 1, width - 1, if j > 0 then j - 1 else 0);
      HalfAndBit(SetBit(n / 2, k - 1), n % 2);
    } else {
      HalfAndBit(n / 2, 1);
    }
  }

  lemma {:induction false} ClearBitWrites(n: nat, k: nat, j: nat)
    ensures ClearBit(n, k) <= n
    ensures Bit(ClearBit(n, k), j) <==> j != k && Bit(n, j)
  {
    if k > 0 {
      ClearBitWrites(n / 2, k - 1, if j > 0 then j - 1 else 0);
      HalfAndBit(ClearBit(n / 2, k - 1), n % 2);
    } else {
      HalfAndBit(n / 2, 0);
    }
  }

  lemma WordIsSixteenBits()
    ensures Power(16) == 0x1_0000
  {
    assert Power(4) == 16;
    assert Power(8) == 256;
    assert Power(12) == 4096;
  }

  function Press(buttons: Word, b: Button): Word {
    WordIsSixteenBits();
    SetBitWrites(buttons, Place(b), 16, 0);
    SetBit(buttons, Place(b))
  }

  function Release(buttons: Word, b: Button): Word {
    ClearBitWrites(buttons, Place(b), 0);
    ClearBit(buttons, Place(b))
  }

  function Act(a: Action, r: Report): Report {
    match a
    case ButtonDown(b) => r.(buttons := Press(r.buttons, b))
    case ButtonUp(b) => r.(buttons := Release(r.buttons, b))
    case SetHat(h) => r.(hat := h)
    case LeftStick(p) => r.(leftStick := p)
    case RightStick(p) => r.(rightStick := p)
    case Reset => NEUTRAL
  }

  // The report after a list of actions.
  function Fold(base: Report, actions: seq<Action>): Report {
    if actions == [] then base else Act(actions[|actions| - 1], Fold(base, actions[..|actions| - 1]))
  }

  lemma {:induction false} FoldConcat(base: Report, a: seq<Action>, b: seq<Action>)
    ensures Fold(base, a + b) == Fold(Fold(base, a), b)
  {
    if b == [] {
      assert a + b == a;
    } else {
      var init, last := b[..|b| - 1], b[|b| - 1];
      assert (a + b)[..|a + b| - 1] == a + init;
      assert (a + b)[|a + b| - 1] == last;
      FoldConcat(base, a, init);
    }
  }

  // ---- What a report says about one input, and which action wrote it last --------------------------------

  datatype Input = ButtonInput(button: Button) | HatInput | LeftInput | RightInput

  datatype Reading = Held(down: bool) | Pointing(hat: Hat) | Tilted(position: Stick)

  function Read(r: Report, i: Input): Reading {
    match i
    case ButtonInput(b) => Held(Bit(r.buttons, Place(b)))
    case HatInput => Pointing(r.hat)
    case LeftInput => Tilted(r.leftStick)
    case RightInput => Tilted(r.rightStick)
  }

  predicate Writes(a: Action, i: Input) {
    match a
    case ButtonDown(b) => i == ButtonInput(b)
    case ButtonUp(b) => i == ButtonInput(b)
    case SetHat(_) => i == HatInput
    case LeftStick(_) => i == LeftInput
    case RightStick(_) => i == RightInput
    case Reset => true
  }

  // What an action leaves in an input it writes.
  function Written(a: Action, i: Input): Reading
    requires Writes(a, i)
  {
    match a
    case ButtonDown(_) => Held(true)
    case ButtonUp(_) => Held(false)
    case SetHat(h) => Pointing(h)
    case LeftStick(p) => Tilted(p)
    case RightStick(p) => Tilted(p)
    case Reset =>
      match i
      case ButtonInput(_) => Held(false)
      case HatInput => Pointing(Center)
      case LeftInput => Tilted(CENTER)
      case RightInput => Tilted(CENTER)
  }

  lemma PlacesDiffer(a: Button, b: Button)
    ensures Place(a) == Place(b) <==> a == b
  {
  }

  lemma {:induction false} NoBits(k: nat)
    ensures !Bit(0, k)
  {
    if k > 0 { NoBits(k - 1); }
  }

  // One action writes exactly the inputs it names.
  lemma ActWrites(a: Action, r: Report, i: Input)
    ensures Read(Act(a, r), i) == if Writes(a, i) then Written(a, i) else Read(r, i)
  {
    WordIsSixteenBits();
    if i.ButtonInput? {
      NoBits(Place(i.button));
      if a.ButtonDown? {
        PlacesDiffer(a.button, i.button);
        SetBitWrites(r.buttons, Place(a.button), 16, Place(i.button));
      } else if a.ButtonUp? {
        PlacesDiffer(a.button, i.button);
        ClearBitWrites(r.buttons, Place(a.button), Place(i.button));
      }
    }
  }

  // The last action that writes an input decides it, whatever came before and however often.
  lemma {:induction false} LastWriterWins(base: Report, actions: seq<Action>, k: nat, i: Input)
    requires k < |actions| && Writes(actions[k], i)
    requires forall j :: k < j < |actions| ==> !Writes(actions[j], i)
    ensures Read(Fold(base, actions), i) == Written(actions[k], i)
    decreases |actions|
  {
    var init, last := actions[..|actions| - 1], actions[|actions| - 1];
    ActWrites(last, Fold(base, init), i);
    if k < |actions| - 1 {
      LastWriterWins(base, init, k, i);
    }
  }

  lemma {:induction false} UnwrittenStays(base: Report, actions: seq<Action>, i: Input)
    requires forall a :: a in actions ==> !Writes(a, i)
    ensures Read(Fold(base, actions), i) == Read(base, i)
  {
    if actions != [] {
      var init, last := actions[..|actions| - 1], actions[|actions| - 1];
      ActWrites(last, Fold(base, init), i);
      UnwrittenStays(base, init, i);
    }
  }

  // ---- The mutable report --------------------------------------------------------------------------------------

  class SwitchReport {
    var buttons: Word
    var hat: Hat
    var leftStick: Stick
    var rightStick: Stick

    function View(): Report
      reads this
    {
      Report(buttons, hat, leftStick, rightStick)
    }

    constructor ()
      ensures View() == NEUTRAL
    {
      buttons, hat, leftStick, rightStick := 0, Center, CENTER, CENTER;
    }

    // `ControllerAction::apply`: every input reads as the action writes it, or as before.
    method Apply(a: Action)
      modifies this
      ensures View() == Act(a, old(View()))
      ensures forall i :: Read(View(), i) == if Writes(a, i) then Written(a, i) else Read(old(View()), i)
    {
      forall i ensures Read(Act(a, View()), i) == if Writes(a, i) then Written(a, i) else Read(View(), i) {
        ActWrites(a, View(), i);
      }
      match a
      case ButtonDown(b) => buttons := Press(buttons, b);
      case ButtonUp(b) => buttons := Release(buttons, b);
      case SetHat(h) => hat := h;
      case LeftStick(p) => leftStick := p;
      case RightStick(p) => rightStick := p;
      case Reset => buttons, hat, leftStick, rightStick := 0, Center, CENTER, CENTER;
    }

    method IsNeutral() returns (neutral: bool)
      ensures neutral <==> View() == NEUTRAL
    {
      neutral := buttons == 0 && hat == Center && leftStick.x == 128 && leftStick.y == 128
                 && rightStick.x == 128 && rightStick.y == 128;
    }
  }
}
