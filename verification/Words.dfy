/** Machine words as natural numbers, shared by every module that counts in them. */
module Words {

  newtype byte = x: int | 0 <= x < 0x100

  const WORD32: nat := 0x1_0000_0000
  const WORD64: nat := 0x1_0000_0000_0000_0000

  function Pow2(k: nat): (p: nat)
    ensures p > 0
  {
    if k == 0 then 1 else 2 * Pow2(k - 1)
  }

  lemma {:induction false} Pow2Sum(j: nat, k: nat)
    ensures Pow2(j + k) == Pow2(j) * Pow2(k)
  {
    if j > 0 {
      Pow2Sum(j - 1, k);
    }
  }

  lemma Pow2Words()
    ensures Pow2(32) == WORD32
    ensures Pow2(64) == WORD64
  {
    assert Pow2(8) == 256;
    assert Pow2(16) == 65536 by { Pow2Sum(8, 8); }
    Pow2Sum(16, 16);
    Pow2Sum(32, 32);
  }

  lemma SmallMultiple(d: int, w: int)
    requires -w < d * w < w
    ensures d == 0
  {
  }

  lemma UniqueRemainder(w: nat, q: int, r: nat)
    requires r < w
    ensures (q * w + r) % w == r && (q * w + r) / w == q
  {
    var z := q * w + r;
    var d := z / w - q;
    assert z == (z / w) * w + z % w;
    assert d * w == r - z % w by { assert (z / w - q) * w == (z / w) * w - q * w; }
    SmallMultiple(d, w);
  }
}
