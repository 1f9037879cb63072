/** The IO-expander sensor decoder of joycar.ts: one byte read from the
    expander is split LSB-first into a list of binary digits, and a sensor
    query reads one position of that list. The sensors are active-low, so the
    query answers the negation of the stored digit. The I2C read itself is
    not modelled: the byte it returns is a parameter. */
module Sensors {
  import opened Car

  type Byte = b: int | 0 <= b < 256

  function Pow2(k: nat): (p: nat)
    ensures p >= 1
  {
    if k == 0 then 1 else 2 * Pow2(k - 1)
  }

  /** Bit `k` of `x`, counting from the least significant bit 0. */
  function Bit(x: nat, k: nat): nat
  {
    x / Pow2(k) % 2
  }

  /** The list the decomposition loop builds from `x`: its binary digits,
      least significant first, up to and including the highest 1. */
  function BitsOf(x: nat): (bin: seq<int>)
    ensures bin == [] <==> x == 0
    ensures bin != [] ==> bin[|bin| - 1] == 1
    ensures forall i :: 0 <= i < |bin| ==> 0 <= bin[i] <= 1
    decreases x
  {
    if x == 0 then [] else [x % 2] + BitsOf(x / 2)
  }

  /** The number a list of binary digits (least significant first) stands for. */
  function Value(bin: seq<int>): int
  {
    if bin == [] then 0 else bin[0] + 2 * Value(bin[1..])
  }

  lemma DivUnique(x: int, d: int, q: int, r: int)
    requires d > 0 && 0 <= r < d && x == d * q + r
    ensures x / d == q
  {
    var q', r' := x / d, x % d;
    assert d * q + r == d * q' + r';
    if q > q' {
      AtLeastOnce(d, q - q');
    } else if q < q' {
      AtLeastOnce(d, q' - q);
    }
  }

  lemma AtLeastOnce(d: int, k: int)
    requires d > 0 && k >= 1
    ensures d * k >= d
  {
  }

  /** Dividing by 2p is halving and then dividing by p. */
  lemma DivTwice(x: nat, p: nat)
    requires p > 0
    ensures x / (2 * p) == (x / 2) / p
  {
    var q := x / 2;
    var a := q / p;
    var c := q % p;
    assert x == 2 * q + x % 2;
    assert q == p * a + c;
    assert x == (2 * p) * a + (2 * c + x % 2);
    DivUnique(x, 2 * p, a, 2 * c + x % 2);
  }

  /** Bit k + 1 of x is bit k of x halved. */
  lemma BitOfHalf(x: nat, k: nat)
    ensures Bit(x, k + 1) == Bit(x / 2, k)
  {
    DivTwice(x, Pow2(k));
  }

  /** Every listed digit is the corresponding bit of x. */
  lemma {:induction false} BitsOfIndex(x: nat, i: nat)
    requires i < |BitsOf(x)|
    ensures BitsOf(x)[i] == Bit(x, i)
    decreases x
  {
    if i > 0 {
      assert BitsOf(x)[i] == BitsOf(x / 2)[i - 1];
      BitsOfIndex(x / 2, i - 1);
      BitOfHalf(x, i - 1);
    }
  }

  /** Every bit at or past the end of the list is 0. */
  lemma {:induction false} BitsBeyond(x: nat, k: nat)
    requires k >= |BitsOf(x)|
    ensures Bit(x, k) == 0
    decreases x
  {
    if x > 0 {
      BitsBeyond(x / 2, k - 1);
      BitOfHalf(x, k - 1);
    }
  }

  /** A number below 2^n has at most n digits. */
  lemma {:induction false} BitsOfLength(x: nat, n: nat)
    requires x < Pow2(n)
    ensures |BitsOf(x)| <= n
    decreases x
  {
    if x > 0 {
      BitsOfLength(x / 2, n - 1);
    }
  }

  /** The digits re-encode to the number: the decomposition loses nothing. */
  lemma {:induction false} ValueOfBits(x: nat)
    ensures Value(BitsOf(x)) == x
    decreases x
  {
    if x > 0 {
      assert BitsOf(x)[1..] == BitsOf(x / 2);
      ValueOfBits(x / 2);
    }
  }

  /** The loop of `sensorData`: push the low bit and shift right until the byte is 0. */
  method Decompose(expander: Byte) returns (bin: seq<int>)
    ensures |bin| <= 8
    ensures Value(bin) == expander
    ensures forall i :: 0 <= i < |bin| ==> bin[i] == Bit(expander, i)
    ensures forall k: nat :: k >= |bin| ==> Bit(expander, k) == 0
  {
    var x: nat := expander;
    bin := [];
    while x > 0
      invariant bin + BitsOf(x) == BitsOf(expander)
      decreases x
    {
      var rest := BitsOf(x / 2);
      assert BitsOf(x) == [x % 2] + rest;
      assert bin + BitsOf(x) == (bin + [x % 2]) + rest;
      bin := bin + [x % 2];
      x := x / 2;
    }
    assert bin == BitsOf(expander);
    ByteDigits(expander);
  }

  /** What the decomposition of a byte satisfies, gathered for the loop above. */
  lemma ByteDigits(b: Byte)
    ensures |BitsOf(b)| <= 8
    ensures Value(BitsOf(b)) == b
    ensures forall i :: 0 <= i < |BitsOf(b)| ==> BitsOf(b)[i] == Bit(b, i)
    ensures forall k: nat :: k >= |BitsOf(b)| ==> Bit(b, k) == 0
  {
    assert Pow2(8) == 256;
    BitsOfLength(b, 8);
    ValueOfBits(b);
    forall i | 0 <= i < |BitsOf(b)|
      ensures BitsOf(b)[i] == Bit(b, i)
    {
      BitsOfIndex(b, i);
    }
    forall k: nat | k >= |BitsOf(b)|
      ensures Bit(b, k) == 0
    {
      BitsBeyond(b, k);
    }
  }

  /** `sensorData(bit)`: true exactly when bit `bit` of the expander byte is 0,
      including the high bits the loop never lists; a negative index reads
      `undefined` and so answers true. */
  method SensorData(expander: Byte, bit: int) returns (r: bool)
    ensures r <==> (bit >= 0 ==> Bit(expander, bit) == 0)
    ensures expander == 0 ==> r
  {
    var bin := Decompose(expander);
    r := !(0 <= bit < |bin| && bin[bit] != 0);
  }

  /** Left, center and right line finders are bits 2, 3 and 4. */
  method Linefinder(expander: Byte, selection: SensorLCRSelection) returns (r: bool)
    ensures selection == SensorLCRSelection.Left ==> (r <==> Bit(expander, 2) == 0)
    ensures selection == SensorLCRSelection.Center ==> (r <==> Bit(expander, 3) == 0)
    ensures selection == SensorLCRSelection.Right ==> (r <==> Bit(expander, 4) == 0)
  {
    if selection == SensorLCRSelection.Left {
      r := SensorData(expander, 2);
    } else if selection == SensorLCRSelection.Center {
      r := SensorData(expander, 3);
    } else {
      r := SensorData(expander, 4);
    }
  }

  /** Left and right obstacle sensors are bits 5 and 6. */
  method ObstacleAvoidance(expander: Byte, selection: SensorLRSelection) returns (r: bool)
    ensures selection == SensorLRSelection.Left ==> (r <==> Bit(expander, 5) == 0)
    ensures selection == SensorLRSelection.Right ==> (r <==> Bit(expander, 6) == 0)
  {
    if selection == SensorLRSelection.Left {
      r := SensorData(expander, 5);
    } else {
      r := SensorData(expander, 6);
    }
  }

  /** Left and right speed sensors are bits 0 and 1. */
  method Speed(expander: Byte, selection: SensorLRSelection) returns (r: bool)
    ensures selection == SensorLRSelection.Left ==> (r <==> Bit(expander, 0) == 0)
    ensures selection == SensorLRSelection.Right ==> (r <==> Bit(expander, 1) == 0)
  {
    if selection == SensorLRSelection.Left {
      r := SensorData(expander, 0);
    } else {
      r := SensorData(expander, 1);
    }
  }
}
