/** `simpleHash` (app.js:1589-1597): a Java-style rolling string hash kept in a signed 32-bit
    integer, then its absolute value. Team form and head-to-head both derive from it. */
module Hash {
  import opened Common

  /** JavaScript's ToInt32: the signed 32-bit value congruent to `x` modulo 2^32. */
  function Wrap32(x: int): (r: int)
    ensures -0x8000_0000 <= r < 0x8000_0000
  {
    (x + 0x8000_0000) % 0x1_0000_0000 - 0x8000_0000
  }

  /** The remainder modulo 2^32 is determined by any quotient/remainder decomposition. */
  lemma ModUnique(a: int, q: int, m: int)
    requires 0 <= m < 0x1_0000_0000
    requires a == q * 0x1_0000_0000 + m
    ensures a % 0x1_0000_0000 == m
  {
    var q', m' := a / 0x1_0000_0000, a % 0x1_0000_0000;
    assert a == q' * 0x1_0000_0000 + m';
    assert (q - q') * 0x1_0000_0000 == m' - m;
  }

  /** Adding a multiple of 2^32 does not change the 32-bit value. */
  lemma Wrap32Shift(x: int, k: int)
    ensures Wrap32(x + k * 0x1_0000_0000) == Wrap32(x)
  {
    var a := x + 0x8000_0000;
    var q, m := a / 0x1_0000_0000, a % 0x1_0000_0000;
    assert a + k * 0x1_0000_0000 == (q + k) * 0x1_0000_0000 + m;
    ModUnique(a + k * 0x1_0000_0000, q + k, m);
  }

  /** `Wrap32(x)` differs from `x` by a multiple of 2^32. */
  lemma Wrap32Offset(x: int) returns (k: int)
    ensures Wrap32(x) == x + k * 0x1_0000_0000
  {
    var a := x + 0x8000_0000;
    k := -(a / 0x1_0000_0000);
    assert a == (a / 0x1_0000_0000) * 0x1_0000_0000 + a % 0x1_0000_0000;
  }

  /** One iteration of the loop as written: `hash = ((hash << 5) - hash) + char` followed by
      `hash = hash & hash`. The shift works on the 32-bit value; the subtraction and the
      addition are exact; the `&` converts the sum back to 32 bits. */
  function HashStep(h: int, c: char): int {
    Wrap32(Wrap32(h * 32) - h + c as int)
  }

  /** The shift-and-subtract step is multiplication by 31 modulo 2^32. */
  lemma {:induction false} HashStepMultiplies(h: int, c: char)
    ensures HashStep(h, c) == Wrap32(31 * h + c as int)
  {
    var k := Wrap32Offset(h * 32);
    assert Wrap32(h * 32) - h + c as int == (31 * h + c as int) + k * 0x1_0000_0000;
    Wrap32Shift(31 * h + c as int, k);
  }

  /** The value of the hash variable after the loop has read all of `s`. */
  function HashFold(s: string): (r: int)
    ensures -0x8000_0000 <= r < 0x8000_0000
  {
    if s == [] then 0 else HashStep(HashFold(s[..|s| - 1]), s[|s| - 1])
  }

  /** `simpleHash(s)`: the absolute value of the 32-bit hash, so a number in [0, 2^31];
      2^31 itself arises from the hash -2^31. */
  function HashOf(s: string): (r: nat)
    ensures r <= 0x8000_0000
  {
    Abs(HashFold(s))
  }

  /** An independent reading of the hash: the polynomial sum of c_i * 31^(n-1-i) over the
      character codes, without any wrapping. */
  function Polynomial(s: string): int {
    if s == [] then 0 else 31 * Polynomial(s[..|s| - 1]) + s[|s| - 1] as int
  }

  /** The wrapping loop computes the polynomial hash modulo 2^32. */
  lemma {:induction false} HashIsPolynomial(s: string)
    ensures HashFold(s) == Wrap32(Polynomial(s))
  {
    if s != [] {
      var p, c := s[..|s| - 1], s[|s| - 1];
      HashIsPolynomial(p);
      HashStepMultiplies(HashFold(p), c);
      var k := Wrap32Offset(Polynomial(p));
      assert 31 * HashFold(p) + c as int == Polynomial(s) + (31 * k) * 0x1_0000_0000;
      Wrap32Shift(Polynomial(s), 31 * k);
    }
  }

  /** The loop of `simpleHash`. */
  method SimpleHash(s: string) returns (h: nat)
    ensures h == HashOf(s)
  {
    var hash := 0;
    var i := 0;
    while i < |s|
      invariant 0 <= i <= |s|
      invariant hash == HashFold(s[..i])
    {
      var ch := s[i] as int;
      hash := Wrap32(Wrap32(hash * 32) - hash + ch);
      assert s[..i + 1][..i] == s[..i];
      i := i + 1;
    }
    assert s[..|s|] == s;
    h := Abs(hash);
  }
}
