// Big-endian numbers in base 128 and 256: the arithmetic under the 7-bit packing of the protocol.
module Radix {
  datatype Base = Seven | Eight

  function Size(b: Base): nat {
    match b
    case Seven => 128
    case Eight => 256
  }

  function Push(n: nat, d: nat, b: Base): nat {
    match b
    case Seven => n * 128 + d
    case Eight => n * 256 + d
  }

  function Quotient(n: nat, b: Base): nat {
    match b
    case Seven => n / 128
    case Eight => n / 256
  }

  function Remainder(n: nat, b: Base): nat {
    match b
    case Seven => n % 128
    case Eight => n % 256
  }

  function Pow(b: Base, len: nat): nat {
    if len == 0 then 1 else Push(Pow(b, len - 1), 0, b)
  }

  ghost predicate AreDigits(s: seq<nat>, b: Base) {
    forall k :: 0 <= k < |s| ==> s[k] < Size(b)
  }

  function Value(s: seq<nat>, b: Base): nat {
    if s == [] then 0 else Push(Value(s[..|s| - 1], b), s[|s| - 1], b)
  }

  // The last `len` digits of a number.
  function Digits(n: nat, b: Base, len: nat): (r: seq<nat>)
    ensures |r| == len && AreDigits(r, b)
  {
    if len == 0 then [] else Digits(Quotient(n, b), b, len - 1) + [Remainder(n, b)]
  }

  lemma {:induction false} ValueAppend(s: seq<nat>, d: nat, b: Base)
    ensures Value(s + [d], b) == Push(Value(s, b), d, b)
  {
    assert (s + [d])[..|s|] == s;
  }

  lemma {:induction false} DigitsOfValue(s: seq<nat>, b: Base)
    requires AreDigits(s, b)
    ensures Digits(Value(s, b), b, |s|) == s
  {
    if s != [] {
      DigitsOfValue(s[..|s| - 1], b);
      assert s == s[..|s| - 1] + [s[|s| - 1]];
    }
  }

  lemma SplitLast(n: nat, b: Base)
    ensures Push(Quotient(n, b), Remainder(n, b), b) == n
  {
  }

  lemma FewerDigits(n: nat, b: Base, len: nat)
    requires len > 0 && n < Pow(b, len)
    ensures Quotient(n, b) < Pow(b, len - 1)
  {
  }

  lemma {:induction false} ValueOfDigits(n: nat, b: Base, len: nat)
    requires n < Pow(b, len)
    ensures Value(Digits(n, b, len), b) == n
  {
    if len != 0 {
      FewerDigits(n, b, len);
      SplitLast(n, b);
      ValueOfDigits(Quotient(n, b), b, len - 1);
      ValueAppend(Digits(Quotient(n, b), b, len - 1), Remainder(n, b), b);
    }
  }

  lemma {:induction false} ValueBound(s: seq<nat>, b: Base)
    requires AreDigits(s, b)
    ensures Value(s, b) < Pow(b, |s|)
  {
    if s != [] { ValueBound(s[..|s| - 1], b); }
  }

  // Seven bytes hold as much as eight 7-bit digits.
  lemma SameSize()
    ensures Pow(Eight, 7) == Pow(Seven, 8)
  {
    assert Pow(Seven, 1) == 0x80;
    assert Pow(Seven, 2) == 0x4000;
    assert Pow(Seven, 3) == 0x20_0000;
    assert Pow(Seven, 4) == 0x1000_0000;
    assert Pow(Seven, 5) == 0x8_0000_0000;
    assert Pow(Seven, 6) == 0x400_0000_0000;
    assert Pow(Seven, 7) == 0x2_0000_0000_0000;
    assert Pow(Eight, 1) == 0x100;
    assert Pow(Eight, 2) == 0x1_0000;
    assert Pow(Eight, 3) == 0x100_0000;
    assert Pow(Eight, 4) == 0x1_0000_0000;
    assert Pow(Eight, 5) == 0x100_0000_0000;
    assert Pow(Eight, 6) == 0x1_0000_0000_0000;
  }
}
