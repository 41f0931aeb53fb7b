/** What the hash does to words, blocks and keys: its functions bit by bit, a round undone, and the keys
    that HMAC cannot tell apart. */
module Sha256Facts {
  import opened Words
  import opened Sha256Hmac

  // ---------------------------------------------------------------- the six functions

  /** Wherever x has ones, y is chosen, and z wherever it has zeros. */
  lemma ChooseChooses(x: bv32, y: bv32, z: bv32, mask: bv32)
    ensures x & mask == mask ==> Choose(x, y, z) & mask == y & mask
    ensures x & mask == 0 ==> Choose(x, y, z) & mask == z & mask
  {
  }

  /** Wherever two of the three agree, so does the result, whichever they are. */
  lemma MajorityAgrees(x: bv32, y: bv32, z: bv32, mask: bv32)
    requires x & mask == y & mask
    ensures Majority(x, y, z) & mask == x & mask
    ensures Majority(x, y, z) == Majority(x, z, y) == Majority(z, x, y)
  {
  }

  /** Rotations are pairs of shifts. */
  lemma BigShifts(x: bv32)
    ensures Big0(x) == ((x >> 2) | (x << 30)) ^ ((x >> 13) | (x << 19)) ^ ((x >> 22) | (x << 10))
    ensures Big1(x) == ((x >> 6) | (x << 26)) ^ ((x >> 11) | (x << 21)) ^ ((x >> 25) | (x << 7))
  {
  }

  lemma SmallShifts(x: bv32)
    ensures Small0(x) == ((x >> 7) | (x << 25)) ^ ((x >> 18) | (x << 14)) ^ (x >> 3)
    ensures Small1(x) == ((x >> 17) | (x << 15)) ^ ((x >> 19) | (x << 13)) ^ (x >> 10)
  {
  }

  // ---------------------------------------------------------------- rounds

  /** u32::wrapping_sub */
  function Sub(a: word, b: word): word { ((a as int - b as int) % WORD32) as word }

  lemma SubAdds(a: word, b: word)
    ensures Sub(Add(a, b), b) == a && Sub(Add(a, b), a) == b && Add(Sub(a, b), b) == a
  {
  }

  /** The working variables before a round, from those after it. */
  function Unround(v: Working, k: word, w: word): Working
  {
    var t1 := Sub(v.a, Add(BigSigma0(v.b), Maj(v.b, v.c, v.d)));
    Working(v.b, v.c, v.d, Sub(v.e, t1), v.f, v.g, v.h,
            Sub(Sub(Sub(Sub(t1, w), k), Ch(v.f, v.g, v.h)), BigSigma1(v.f)))
  }

  /** Every round can be undone, and nothing but its key and its word of the schedule is needed. */
  lemma RoundUndone(v: Working, k: word, w: word)
    ensures Unround(Round(v, k, w), k, w) == v
  {
    hide Add, Sub, BigSigma0, BigSigma1, Ch, Maj;
    var s, c := BigSigma1(v.e), Ch(v.e, v.f, v.g);
    var t1 := Add5(v.h, s, c, k, w);
    var t2 := Add(BigSigma0(v.a), Maj(v.a, v.b, v.c));
    SubAdds(t1, t2);
    SubAdds(v.d, t1);
    SubAdds(Add4(v.h, s, c, k), w);
    SubAdds(Add(Add(v.h, s), c), k);
    SubAdds(Add(v.h, s), c);
    SubAdds(v.h, s);
  }

  function Unrounds(v: Working, block: seq<byte>, t: nat): Working
    requires |block| == 64 && t <= 64
    decreases t
  {
    if t == 0 then v else Unrounds(Unround(v, K[t - 1], Schedule(block, t - 1)), block, t - 1)
  }

  /** So a block only permutes the working variables. */
  lemma {:induction false} RoundsUndone(state: seq<word>, block: seq<byte>, t: nat)
    requires |state| == 8 && |block| == 64 && t <= 64
    ensures Unrounds(Rounds(state, block, t), block, t)
      == Working(state[0], state[1], state[2], state[3], state[4], state[5], state[6], state[7])
    decreases t
  {
    hide Round, Unround, Schedule;
    if t > 0 {
      RoundUndone(Rounds(state, block, t - 1), K[t - 1], Schedule(block, t - 1));
      RoundsUndone(state, block, t - 1);
    }
  }

  /** The result adds the state to them, word by word. */
  lemma FeedForward(state: seq<word>, block: seq<byte>)
    requires |state| == 8 && |block| == 64
    ensures var r, v := CompressBlock(state, block), Rounds(state, block, 64);
      Working(Sub(r[0], state[0]), Sub(r[1], state[1]), Sub(r[2], state[2]), Sub(r[3], state[3]),
              Sub(r[4], state[4]), Sub(r[5], state[5]), Sub(r[6], state[6]), Sub(r[7], state[7])) == v
  {
    hide Add, Sub, Rounds;
    var v := Rounds(state, block, 64);
    SubAdds(state[0], v.a);
    SubAdds(state[1], v.b);
    SubAdds(state[2], v.c);
    SubAdds(state[3], v.d);
    SubAdds(state[4], v.e);
    SubAdds(state[5], v.f);
    SubAdds(state[6], v.g);
    SubAdds(state[7], v.h);
  }

  /** Sixteen consecutive words of a schedule determine the one before them. */
  lemma ScheduleBack(block: seq<byte>, t: nat)
    requires |block| == 64 && 16 <= t < 64
    ensures Schedule(block, t - 16)
      == Sub(Sub(Sub(Schedule(block, t), SmallSigma1(Schedule(block, t - 2))), Schedule(block, t - 7)),
             SmallSigma0(Schedule(block, t - 15)))
  {
    hide Add, Sub, SmallSigma0, SmallSigma1, Schedule;
    ScheduleNext(block, t);
    var a, b := Schedule(block, t - 16), SmallSigma0(Schedule(block, t - 15));
    var c, d := Schedule(block, t - 7), SmallSigma1(Schedule(block, t - 2));
    SubAdds(Add(Add(a, b), c), d);
    SubAdds(Add(a, b), c);
    SubAdds(a, b);
  }

  // ---------------------------------------------------------------- bytes

  function Pow256(n: nat): (p: nat)
    ensures p > 0
  {
    if n == 0 then 1 else 256 * Pow256(n - 1)
  }

  /** The most significant byte comes first. */
  lemma {:induction false} BigEndianAt(n: nat, count: nat, i: nat)
    requires i < count
    ensures BigEndian(n, count)[i] as nat == n / Pow256(count - 1 - i) % 256
    decreases count
  {
    if i < count - 1 {
      BigEndianAt(n / 256, count - 1, i);
      DivTwice(n, Pow256(count - 2 - i));
    }
  }

  lemma DivTwice(n: nat, p: nat)
    requires p > 0
    ensures n / 256 / p == n / (256 * p)
  {
    var q, r := n / 256, n % 256;
    var a, b := q / p, q % p;
    assert n == 256 * (p * a + b) + r;
    assert n == (256 * p) * a + (256 * b + r);
    assert 256 * b + r < 256 * p;
    Quotient(n, 256 * p, a, 256 * b + r);
  }

  lemma Quotient(n: nat, m: nat, a: nat, r: nat)
    requires m > 0 && n == m * a + r && r < m
    ensures n / m == a
  {
    MulOrder(n / m, a, m);
    MulOrder(a, n / m, m);
  }

  lemma MulOrder(x: nat, y: nat, m: nat)
    ensures x < y ==> m * x + m <= m * y
  {
    if x < y { Spread(m, x, y - x - 1); }
  }

  lemma Spread(m: nat, x: nat, d: nat)
    ensures m * (x + 1 + d) == m * x + m + m * d
  {
  }

  /** A word read from its four bytes is the word. */
  lemma WordRead(w: word)
    ensures var b := WordBytes(w); FromBigEndian(b[0], b[1], b[2], b[3]) == w
  {
    var n := w as nat;
    assert BigEndian(n, 4) == BigEndian(n / 256, 3) + [(n % 256) as byte];
    assert BigEndian(n / 256, 3) == BigEndian(n / 256 / 256, 2) + [(n / 256 % 256) as byte];
    assert BigEndian(n / 256 / 256, 2) == [(n / 256 / 256 / 256 % 256) as byte, (n / 256 / 256 % 256) as byte] by {
      assert BigEndian(n / 256 / 256 / 256, 1) == BigEndian(0, 0) + [(n / 256 / 256 / 256 % 256) as byte];
    }
  }

  /** The last eight bytes of a padded message give its length in bits, after 0x80 and zeros. */
  lemma PaddingReads(m: seq<byte>, i: nat)
    requires i < |Padded(m)|
    ensures var p := Padded(m); var n := |p|;
      p[i] as nat == if i < |m| then m[i] as nat
                     else if i == |m| then 0x80
                     else if i < n - 8 then 0
                     else (8 * |m|) % WORD64 / Pow256(n - 1 - i) % 256
  {
    hide ZeroBytes;
    var n := |Padded(m)|;
    if i >= n - 8 {
      BigEndianAt((8 * |m|) % WORD64, 8, i - (n - 8));
      assert Padded(m)[n - 8..] == BigEndian((8 * |m|) % WORD64, 8);
    }
  }

  // ---------------------------------------------------------------- keys

  /** A short key and its zero-filled forms give the same code, and so do a long key and its digest. */
  lemma SameKeys(key: seq<byte>, n: nat, text: seq<byte>)
    ensures |key| + n <= 64 ==> Hmac(key + Zeros(n), text) == Hmac(key, text)
    ensures |key| > 64 ==> Hmac(key, text) == Hmac(Digest(H0, key), text)
  {
    hide Digest, XorWith;
    if |key| + n <= 64 { assert key + Zeros(n) + Zeros(64 - |key| - n) == key + Zeros(64 - |key|); }
  }

  /** The inner pad is the key block with the bits of 0x36 flipped in every byte, the outer pad with those
      of 0x5c. */
  lemma HmacNests(key: seq<byte>, text: seq<byte>, inner: seq<byte>, outer: seq<byte>)
    requires |inner| == 64 == |outer|
    requires forall i :: 0 <= i < 64 ==> inner[i] == Xor(KeyBlock(key)[i], 0x36)
    requires forall i :: 0 <= i < 64 ==> outer[i] == Xor(KeyBlock(key)[i], 0x5c)
    ensures Hmac(key, text) == Digest(H0, outer + Digest(H0, inner + text))
  {
    hide Digest, Xor, KeyBlock;
    assert inner == XorWith(KeyBlock(key), 0x36) && outer == XorWith(KeyBlock(key), 0x5c);
  }
}
