/** Big-endian words, and exclusive or on the numbers they hold. */
module Words {
  import opened RelayTypes

  function Digit(n: nat, unit: nat): Byte
    requires unit > 0
  {
    var d: int := n / unit;
    d % 256
  }

  function Be32(n: nat): (b: Bytes)
    requires n < WRAP
    ensures |b| == 4
  {
    [Digit(n, 0x100_0000), Digit(n, 0x1_0000), Digit(n, 256), Digit(n, 1)]
  }

  function Un32(b: Bytes): (n: nat)
    requires |b| == 4
    ensures n < WRAP
  {
    var b0: int, b1: int, b2: int, b3: int := b[0], b[1], b[2], b[3];
    b0 * 0x100_0000 + b1 * 0x1_0000 + b2 * 256 + b3
  }

  lemma WordRoundTrip(n: nat)
    requires n < WRAP
    ensures Un32(Be32(n)) == n
  {
    assert n == n / 256 * 256 + n % 256;
    assert n / 256 == n / 0x1_0000 * 256 + n / 256 % 256;
    assert n / 0x1_0000 == n / 0x100_0000 * 256 + n / 0x1_0000 % 256;
  }

  function Be16(n: nat): (b: Bytes)
    requires n < 0x1_0000
    ensures |b| == 2
  {
    [Digit(n, 256), Digit(n, 1)]
  }

  function Un16(b: Bytes): (n: nat)
    requires |b| == 2
    ensures n < 0x1_0000
  {
    var b0: int, b1: int := b[0], b[1];
    b0 * 256 + b1
  }

  lemma HalfWordRoundTrip(n: nat)
    requires n < 0x1_0000
    ensures Un16(Be16(n)) == n
  {}

  lemma HalfWordsAreUnique(b: Bytes)
    requires |b| == 2
    ensures Be16(Un16(b)) == b
  {}

  lemma WordsAreUnique(b: Bytes)
    requires |b| == 4
    ensures Be32(Un32(b)) == b
  {
    var b0: int, b1: int, b2: int, b3: int := b[0], b[1], b[2], b[3];
    var n := Un32(b);
    assert n / 0x100_0000 == b0;
    assert n / 0x1_0000 == b0 * 256 + b1;
    assert n / 256 == b0 * 0x1_0000 + b1 * 256 + b2;
  }

  method PutUint16(b: array<Byte>, at: nat, n: nat)
    requires at + 2 <= b.Length && n < 0x1_0000
    modifies b
    ensures b[..] == old(b[..at]) + Be16(n) + old(b[at + 2..])
  {
    b[at] := Digit(n, 256);
    b[at + 1] := Digit(n, 1);
  }

  method PutUint32(b: array<Byte>, at: nat, n: nat)
    requires at + 4 <= b.Length && n < WRAP
    modifies b
    ensures b[..] == old(b[..at]) + Be32(n) + old(b[at + 4..])
  {
    b[at] := Digit(n, 0x100_0000);
    b[at + 1] := Digit(n, 0x1_0000);
    b[at + 2] := Digit(n, 256);
    b[at + 3] := Digit(n, 1);
  }

  /** copy(b[at:], data), where the destination is long enough. */
  method Copy(b: array<Byte>, at: nat, data: Bytes)
    requires at + |data| <= b.Length
    modifies b
    ensures b[..] == old(b[..at]) + data + old(b[at + |data|..])
  {
    for i := 0 to |data|
      invariant b[..] == old(b[..at]) + data[..i] + old(b[at + i..])
    {
      b[at + i] := data[i];
    }
    assert data[..|data|] == data;
  }

  // ---------------------------------------------------------------- exclusive or

  function Pow2(n: nat): (p: nat)
    ensures p > 0
  {
    if n == 0 then 1 else 2 * Pow2(n - 1)
  }

  lemma PowersOfTwo()
    ensures Pow2(8) == 256 && Pow2(16) == 0x1_0000 && Pow2(32) == WRAP
  {
    assert Pow2(12) == 0x1000;
    assert Pow2(20) == 0x10_0000;
    assert Pow2(24) == 0x100_0000;
    assert Pow2(28) == 0x1000_0000;
  }

  predicate Odd(a: nat) { a % 2 == 1 }

  /** The exclusive or of the low `n` bits. */
  function Xor(a: nat, b: nat, n: nat): nat {
    if n == 0 then 0 else 2 * Xor(a / 2, b / 2, n - 1) + if Odd(a) == Odd(b) then 0 else 1
  }

  lemma XorStep(a: nat, b: nat, n: nat)
    requires n > 0
    ensures Xor(a, b, n) / 2 == Xor(a / 2, b / 2, n - 1) && Odd(Xor(a, b, n)) == (Odd(a) != Odd(b))
  {}

  lemma SameBits(x: nat, y: nat)
    requires x / 2 == y / 2 && Odd(x) == Odd(y)
    ensures x == y
  {}

  function XorByte(a: Byte, b: Byte): Byte {
    XorBound(a, b, 8);
    assert Pow2(8) == 256;
    Xor(a, b, 8)
  }

  lemma {:induction false} XorBound(a: nat, b: nat, n: nat)
    ensures Xor(a, b, n) < Pow2(n)
  {
    if n > 0 { XorBound(a / 2, b / 2, n - 1); }
  }

  lemma {:induction false} XorTwice(a: nat, b: nat, n: nat)
    requires a < Pow2(n)
    ensures Xor(Xor(a, b, n), b, n) == a
  {
    if n > 0 {
      var x := Xor(a, b, n);
      XorStep(a, b, n);
      XorStep(x, b, n);
      XorTwice(a / 2, b / 2, n - 1);
      hide Odd, Xor;
      SameBits(Xor(x, b, n), a);
    }
  }

  lemma {:induction false} XorAssociates(a: nat, b: nat, c: nat, n: nat)
    ensures Xor(Xor(a, b, n), c, n) == Xor(a, Xor(b, c, n), n)
    ensures Xor(a, b, n) == Xor(b, a, n)
  {
    if n > 0 {
      var x, y := Xor(a, b, n), Xor(b, c, n);
      XorAssociates(a / 2, b / 2, c / 2, n - 1);
      XorStep(a, b, n);
      XorStep(b, a, n);
      XorStep(b, c, n);
      XorStep(x, c, n);
      XorStep(a, y, n);
      hide Odd, Xor;
      SameBits(x, Xor(b, a, n));
      SameBits(Xor(x, c, n), Xor(a, y, n));
    }
  }

  /** Exclusive or works on the high and the low part of a word separately. */
  lemma {:induction false} XorSplits(a: nat, b: nat, n: nat, a0: nat, b0: nat, k: nat)
    requires a0 < Pow2(k) && b0 < Pow2(k)
    ensures Xor(a * Pow2(k) + a0, b * Pow2(k) + b0, n + k) == Xor(a, b, n) * Pow2(k) + Xor(a0, b0, k)
  {
    if k > 0 {
      var p := Pow2(k - 1);
      var x := Xor(a, b, n);
      var u, v, w := a * (2 * p) + a0, b * (2 * p) + b0, x * (2 * p) + Xor(a0, b0, k);
      assert Pow2(k) == 2 * p;
      Halves(a, p, a0);
      Halves(b, p, b0);
      Halves(x, p, Xor(a0, b0, k));
      XorSplits(a, b, n, a0 / 2, b0 / 2, k - 1);
      XorStep(u, v, n + k);
      XorStep(a0, b0, k);
      hide Odd, Xor, Pow2;
      SameBits(Xor(u, v, n + k), w);
    }
  }

  lemma Halves(a: nat, p: nat, a0: nat)
    ensures a * (2 * p) >= 0 && a * p >= 0
    ensures (a * (2 * p) + a0) / 2 == a * p + a0 / 2 && Odd(a * (2 * p) + a0) == Odd(a0)
  {
    assert a * (2 * p) == 2 * (a * p);
  }

  lemma XorHalfWord(a: Bytes, b: Bytes)
    requires |a| == |b| == 2
    ensures Xor(Un16(a), Un16(b), 16) == Un16([XorByte(a[0], b[0]), XorByte(a[1], b[1])])
  {
    assert Pow2(8) == 256;
    XorSplits(a[0], b[0], 8, a[1], b[1], 8);
  }

  lemma XorWord(a: Bytes, b: Bytes)
    requires |a| == |b| == 4
    ensures Xor(Un32(a), Un32(b), 32) ==
            Un32([XorByte(a[0], b[0]), XorByte(a[1], b[1]), XorByte(a[2], b[2]), XorByte(a[3], b[3])])
  {
    var a0: int, a1: int, a2: int, a3: int := a[0], a[1], a[2], a[3];
    var b0: int, b1: int, b2: int, b3: int := b[0], b[1], b[2], b[3];
    assert Pow2(8) == 256;
    XorSplits(a0, b0, 8, a1, b1, 8);
    XorSplits(a0 * 256 + a1, b0 * 256 + b1, 16, a2, b2, 8);
    XorSplits(a0 * 0x1_0000 + a1 * 256 + a2, b0 * 0x1_0000 + b1 * 256 + b2, 24, a3, b3, 8);
  }

  /** Of a word, the low octet takes only the low octets. */
  lemma XorLow(a: Bytes, b: nat)
    requires |a| == 4
    ensures Xor(Un32(a), b, 32) % 256 == XorByte(a[3], b % 256)
  {
    var a0: int, a1: int, a2: int, a3: int := a[0], a[1], a[2], a[3];
    var high := a0 * 0x1_0000 + a1 * 256 + a2;
    assert Un32(a) == high * 256 + a3;
    assert b == b / 256 * 256 + b % 256;
    assert Pow2(8) == 256;
    XorSplits(high, b / 256, 24, a3, b % 256, 8);
    XorBound(a3, b % 256, 8);
    hide Xor, Pow2, Un32;
    var x, y := Xor(high, b / 256, 24), Xor(a3, b % 256, 8);
    assert (x * 256 + y) % 256 == y;
  }
}
