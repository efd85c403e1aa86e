// Big-endian numbers in byte strings (`to_be_bytes`, `from_be_bytes`).
module Bytes {
  import opened Decimal

  type Bytes = seq<u8>

  function Pow256(n: nat): (p: nat)
    ensures p > 0
  {
    if n == 0 then 1 else 256 * Pow256(n - 1)
  }

  // The low `n` bytes of a number, most significant first.
  function Be(v: nat, n: nat): (b: Bytes)
    ensures |b| == n
  {
    if n == 0 then [] else Be(v / 256, n - 1) + [v % 256]
  }

  function Num(b: Bytes): (v: nat)
    ensures v < Pow256(|b|)
  {
    if b == [] then 0 else Num(b[..|b| - 1]) * 256 + b[|b| - 1]
  }

  lemma {:induction false} NumBe(v: nat, n: nat)
    requires v < Pow256(n)
    ensures Num(Be(v, n)) == v
  {
    if n > 0 {
      NumBe(v / 256, n - 1);
      assert Be(v, n)[..n - 1] == Be(v / 256, n - 1);
    }
  }

  lemma {:induction false} BeNum(b: Bytes)
    ensures Be(Num(b), |b|) == b
  {
    if b != [] {
      var front := b[..|b| - 1];
      BeNum(front);
      assert Num(b) / 256 == Num(front);
      assert front + [b[|b| - 1]] == b;
    }
  }

  lemma Pow256Values()
    ensures Pow256(1) == 0x100 && Pow256(2) == 0x1_0000 && Pow256(3) == 0x100_0000
    ensures Pow256(4) == 0x1_0000_0000 && Pow256(8) == 0x1_0000_0000_0000_0000
  {
    assert Pow256(3) == 256 * Pow256(2);
    assert Pow256(5) == 256 * Pow256(4);
    assert Pow256(6) == 256 * Pow256(5);
    assert Pow256(7) == 256 * Pow256(6);
  }

  function U16(b: Bytes): u16
    requires |b| == 2
  {
    Pow256Values();
    Num(b)
  }

  function U32(b: Bytes): u32
    requires |b| == 4
  {
    Pow256Values();
    Num(b)
  }

  function U64(b: Bytes): u64
    requires |b| == 8
  {
    Pow256Values();
    Num(b)
  }

  lemma U16Back(v: u16)
    ensures U16(Be(v, 2)) == v
  {
    Pow256Values();
    NumBe(v, 2);
  }

  lemma U32Back(v: u32)
    ensures U32(Be(v, 4)) == v
  {
    Pow256Values();
    NumBe(v, 4);
  }

  lemma U64Back(v: u64)
    ensures U64(Be(v, 8)) == v
  {
    Pow256Values();
    NumBe(v, 8);
  }
}
