/** Streaming SHA-224/256 and HMAC-SHA-256.

    The reference definitions follow FIPS 180-4 (sections 4.1.2, 5.1.1, 5.2.1 and 6.2.2) and
    RFC 2104 (section 2); `Sha256` and `HmacSha256` are the buffered forms the source runs. */
module Sha256Hmac {
  import opened Words

  newtype word = x: int | 0 <= x < WORD32

  const K: seq<word> := [
    0x428a2f98, 0x71374491, 0xb5c0fbcf, 0xe9b5dba5, 0x3956c25b, 0x59f111f1, 0x923f82a4, 0xab1c5ed5,
    0xd807aa98, 0x12835b01, 0x243185be, 0x550c7dc3, 0x72be5d74, 0x80deb1fe, 0x9bdc06a7, 0xc19bf174,
    0xe49b69c1, 0xefbe4786, 0x0fc19dc6, 0x240ca1cc, 0x2de92c6f, 0x4a7484aa, 0x5cb0a9dc, 0x76f988da,
    0x983e5152, 0xa831c66d, 0xb00327c8, 0xbf597fc7, 0xc6e00bf3, 0xd5a79147, 0x06ca6351, 0x14292967,
    0x27b70a85, 0x2e1b2138, 0x4d2c6dfc, 0x53380d13, 0x650a7354, 0x766a0abb, 0x81c2c92e, 0x92722c85,
    0xa2bfe8a1, 0xa81a664b, 0xc24b8b70, 0xc76c51a3, 0xd192e819, 0xd6990624, 0xf40e3585, 0x106aa070,
    0x19a4c116, 0x1e376c08, 0x2748774c, 0x34b0bcb5, 0x391c0cb3, 0x4ed8aa4a, 0x5b9cca4f, 0x682e6ff3,
    0x748f82ee, 0x78a5636f, 0x84c87814, 0x8cc70208, 0x90befffa, 0xa4506ceb, 0xbef9a3f7, 0xc67178f2]

  const H0: seq<word> := [
    0x6a09e667, 0xbb67ae85, 0x3c6ef372, 0xa54ff53a, 0x510e527f, 0x9b05688c, 0x1f83d9ab, 0x5be0cd19]

  const H0_224: seq<word> := [
    0xc1059ed8, 0x367cd507, 0x3070dd17, 0xf70e5939, 0xffc00b31, 0x68581511, 0x64f98fa7, 0xbefa4fa4]

  // ---------------------------------------------------------------- the compression function

  /** u32::wrapping_add, and sums of several words. */
  function Add(a: word, b: word): word { ((a as int + b as int) % WORD32) as word }
  function Add4(a: word, b: word, c: word, d: word): word { Add(Add(Add(a, b), c), d) }
  function Add5(a: word, b: word, c: word, d: word, e: word): word { Add(Add4(a, b, c, d), e) }

  /** The functions of FIPS 180-4 section 4.1.2, on 32 bits. */
  function Small0(x: bv32): bv32 { x.RotateRight(7) ^ x.RotateRight(18) ^ (x >> 3) }
  function Small1(x: bv32): bv32 { x.RotateRight(17) ^ x.RotateRight(19) ^ (x >> 10) }
  function Big0(x: bv32): bv32 { x.RotateRight(2) ^ x.RotateRight(13) ^ x.RotateRight(22) }
  function Big1(x: bv32): bv32 { x.RotateRight(6) ^ x.RotateRight(11) ^ x.RotateRight(25) }
  function Choose(x: bv32, y: bv32, z: bv32): bv32 { (x & y) ^ (!x & z) }
  function Majority(x: bv32, y: bv32, z: bv32): bv32 { (x & y) ^ (x & z) ^ (y & z) }

  function ToWord(x: bv32): word { x as word }

  function SmallSigma0(w: word): word { ToWord(Small0(w as bv32)) }
  function SmallSigma1(w: word): word { ToWord(Small1(w as bv32)) }
  function BigSigma0(w: word): word { ToWord(Big0(w as bv32)) }
  function BigSigma1(w: word): word { ToWord(Big1(w as bv32)) }
  function Ch(u: word, v: word, w: word): word { ToWord(Choose(u as bv32, v as bv32, w as bv32)) }
  function Maj(u: word, v: word, w: word): word { ToWord(Majority(u as bv32, v as bv32, w as bv32)) }

  function FromBigEndian(a: byte, b: byte, c: byte, d: byte): word
  {
    (((a as int * 256 + b as int) * 256 + c as int) * 256 + d as int) as word
  }

  /** W_t of the message schedule of one block. */
  function Schedule(block: seq<byte>, t: nat): word
    requires |block| == 64 && t < 64
  {
    if t < 16 then FromBigEndian(block[4 * t], block[4 * t + 1], block[4 * t + 2], block[4 * t + 3])
    else
      Add4(SmallSigma1(Schedule(block, t - 2)), Schedule(block, t - 7),
           SmallSigma0(Schedule(block, t - 15)), Schedule(block, t - 16))
  }

  datatype Working = Working(a: word, b: word, c: word, d: word, e: word, f: word, g: word, h: word)

  function Round(v: Working, k: word, w: word): Working
  {
    var t1 := Add5(v.h, BigSigma1(v.e), Ch(v.e, v.f, v.g), k, w);
    var t2 := Add(BigSigma0(v.a), Maj(v.a, v.b, v.c));
    Working(Add(t1, t2), v.a, v.b, v.c, Add(v.d, t1), v.e, v.f, v.g)
  }

  /** The working variables after t rounds. */
  function Rounds(state: seq<word>, block: seq<byte>, t: nat): Working
    requires |state| == 8 && |block| == 64 && t <= 64
  {
    if t == 0 then Working(state[0], state[1], state[2], state[3], state[4], state[5], state[6], state[7])
    else Round(Rounds(state, block, t - 1), K[t - 1], Schedule(block, t - 1))
  }

  function CompressBlock(state: seq<word>, block: seq<byte>): (r: seq<word>)
    requires |state| == 8 && |block| == 64
    ensures |r| == 8
  {
    var v := Rounds(state, block, 64);
    [Add(state[0], v.a), Add(state[1], v.b), Add(state[2], v.c), Add(state[3], v.d),
     Add(state[4], v.e), Add(state[5], v.f), Add(state[6], v.g), Add(state[7], v.h)]
  }

  // ---------------------------------------------------------------- whole messages

  /** The hash state after whole blocks. */
  function FoldBlocks(iv: seq<word>, m: seq<byte>): (r: seq<word>)
    requires |iv| == 8 && |m| % 64 == 0
    ensures |r| == 8
    decreases |m|
  {
    if |m| == 0 then iv
    else CompressBlock(FoldBlocks(iv, m[..|m| - 64]), m[|m| - 64..])
  }

  function BigEndian(n: nat, count: nat): (b: seq<byte>)
    ensures |b| == count
  {
    if count == 0 then [] else BigEndian(n / 256, count - 1) + [(n % 256) as byte]
  }

  function Zeros(n: nat): (z: seq<byte>)
    ensures |z| == n
  {
    seq(n, _ => 0)
  }

  /** The number of zero bytes after the 0x80 of a message of n bytes: the least that leaves room
      for the eight length bytes at the end of a block. */
  function ZeroBytes(n: nat): (k: nat)
    ensures k < 64 && (n + 1 + k) % 64 == 56
  {
    (119 - n % 64) % 64
  }

  lemma ZeroBytesLeast(n: nat, j: nat)
    requires (n + 1 + j) % 64 == 56
    ensures ZeroBytes(n) <= j
  {
  }

  lemma WholeBlocks(n: nat, k: nat)
    requires (n + 1 + k) % 64 == 56
    ensures (n + 9 + k) % 64 == 0
  {
  }

  /** FIPS 180-4 section 5.1.1; the length in bits is taken in 64 bits, as the standard's limit on
      message length allows. */
  function Padded(m: seq<byte>): (p: seq<byte>)
    ensures |p| == |m| + 9 + ZeroBytes(|m|) && |p| % 64 == 0
  {
    hide ZeroBytes, BigEndian, Zeros;
    WholeBlocks(|m|, ZeroBytes(|m|));
    m + [0x80] + Zeros(ZeroBytes(|m|)) + BigEndian((8 * |m|) % WORD64, 8)
  }

  function WordBytes(w: word): (b: seq<byte>)
    ensures |b| == 4
  {
    BigEndian(w as nat, 4)
  }

  function WordsBytes(ws: seq<word>): (b: seq<byte>)
    ensures |b| == 4 * |ws|
  {
    if ws == [] then [] else WordsBytes(ws[..|ws| - 1]) + WordBytes(ws[|ws| - 1])
  }

  function Digest(iv: seq<word>, m: seq<byte>): (d: seq<byte>)
    requires |iv| == 8
    ensures |d| == 32
  {
    WordsBytes(FoldBlocks(iv, Padded(m)))
  }

  /** RFC 2104 section 2: a key longer than a block is hashed first, then zero-filled. */
  function KeyBlock(key: seq<byte>): (b: seq<byte>)
    ensures |b| == 64
  {
    if |key| > 64 then Digest(H0, key) + Zeros(32) else key + Zeros(64 - |key|)
  }

  function Xor(a: byte, b: byte): byte { ((a as bv8) ^ (b as bv8)) as byte }

  function XorWith(b: seq<byte>, x: byte): (r: seq<byte>)
    ensures |r| == |b|
  {
    seq(|b|, i requires 0 <= i < |b| => Xor(b[i], x))
  }

  function Hmac(key: seq<byte>, text: seq<byte>): (d: seq<byte>)
    ensures |d| == 32
  {
    Digest(H0, XorWith(KeyBlock(key), 0x5c) + Digest(H0, XorWith(KeyBlock(key), 0x36) + text))
  }

  // ---------------------------------------------------------------- the streaming form

  class Sha256 {
    var state: seq<word>
    const buffer: array<byte>
    var bufLen: nat
    var total: nat
    /** The initial value, and everything fed so far. */
    ghost const iv: seq<word>
    ghost var fed: seq<byte>

    /** Whole blocks of the message are folded into the state; the buffer holds the remainder. */
    ghost predicate Absorbed()
      reads this, buffer
    {
      && |iv| == 8 && buffer.Length == 64 && bufLen < 64 && bufLen <= |fed|
      && (|fed| - bufLen) % 64 == 0
      && state == FoldBlocks(iv, fed[..|fed| - bufLen])
      && buffer[..bufLen] == fed[|fed| - bufLen..]
    }

    ghost predicate Valid()
      reads this, buffer
    {
      Absorbed() && total == |fed| % WORD64
    }

    constructor (initial: seq<word>)
      requires |initial| == 8
      ensures Valid() && fed == [] && iv == initial && fresh(buffer)
    {
      state := initial;
      buffer := new byte[64](_ => 0);
      bufLen := 0;
      total := 0;
      iv := initial;
      fed := [];
    }

    method Compress(block: seq<byte>)
      requires |state| == 8 && |block| == 64
      modifies this`state
      ensures state == CompressBlock(old(state), block)
    {
      hide Schedule, Add, Add5, BigSigma0, BigSigma1, Ch, Maj;
      var w := ExpandBlock(block);
      var a, b, c, d := state[0], state[1], state[2], state[3];
      var e, f, g, h := state[4], state[5], state[6], state[7];
      var i := 0;
      while i < 64
        invariant 0 <= i <= 64 && state == old(state)
        invariant Working(a, b, c, d, e, f, g, h) == Rounds(state, block, i)
      {
        var s1 := BigSigma1(e);
        var ch := Ch(e, f, g);
        var t1 := Add5(h, s1, ch, K[i], w[i]);
        var s0 := BigSigma0(a);
        var maj := Maj(a, b, c);
        var t2 := Add(s0, maj);
        h := g;
        g := f;
        f := e;
        e := Add(d, t1);
        d := c;
        c := b;
        b := a;
        a := Add(t1, t2);
        i := i + 1;
      }
      state := [Add(state[0], a), Add(state[1], b), Add(state[2], c), Add(state[3], d),
                Add(state[4], e), Add(state[5], f), Add(state[6], g), Add(state[7], h)];
    }

    method CopyIn(at: nat, data: seq<byte>)
      requires buffer.Length == 64 && at + |data| <= 64
      modifies buffer
      ensures buffer[..at + |data|] == old(buffer[..at]) + data
    {
      var i := 0;
      while i < |data|
        invariant 0 <= i <= |data|
        invariant buffer[..at + i] == old(buffer[..at]) + data[..i]
      {
        buffer[at + i] := data[i];
        i := i + 1;
      }
    }

    /** A whole block joins the message. */
    method AbsorbBlock(block: seq<byte>)
      requires Absorbed() && bufLen == 0 && |block| == 64
      modifies this`state, this`fed
      ensures Absorbed() && fed == old(fed) + block
    {
      hide CompressBlock;
      assert fed[..|fed|] == fed;
      FoldAppend(iv, fed, block);
      Compress(block);
      fed := fed + block;
      assert fed[..|fed|] == fed;
    }

    /** The partial block fills up first; it is compressed when complete. */
    method TopUp(data: seq<byte>) returns (rest: seq<byte>)
      requires Absorbed() && bufLen > 0
      modifies this`state, this`fed, this`bufLen, buffer
      ensures Absorbed() && fed + rest == old(fed) + data && (bufLen == 0 || rest == [])
    {
      hide CompressBlock, FoldBlocks;
      ghost var whole := fed[..|fed| - bufLen];
      assert fed == whole + buffer[..bufLen];
      var take := if |data| < 64 - bufLen then |data| else 64 - bufLen;
      CopyIn(bufLen, data[..take]);
      bufLen := bufLen + take;
      rest := data[take..];
      fed := fed + data[..take];
      assert data == data[..take] + rest;
      assert fed == whole + buffer[..bufLen];
      if bufLen == 64 {
        var block := buffer[..];
        assert fed == whole + block && fed[..|fed|] == fed;
        FoldAppend(iv, whole, block);
        Compress(block);
        bufLen := 0;
      } else {
        assert fed[..|fed| - bufLen] == whole;
      }
    }

    /** Less than a block waits in the buffer. */
    method Keep(data: seq<byte>)
      requires Absorbed() && bufLen == 0 && |data| < 64
      modifies this`fed, this`bufLen, buffer
      ensures Absorbed() && fed == old(fed) + data
    {
      hide FoldBlocks;
      CopyIn(0, data);
      bufLen := |data|;
      ghost var before := fed;
      fed := fed + data;
      assert before[..|before|] == before == fed[..|fed| - bufLen];
    }

    method Update(input: seq<byte>)
      requires Valid()
      modifies this, buffer
      ensures Valid() && fed == old(fed) + input
    {
      hide FoldBlocks;
      total := (total + |input|) % WORD64;
      TotalAdds(|fed|, |input|);
      var data := input;
      if bufLen > 0 {
        data := TopUp(data);
      }
      while |data| >= 64
        invariant Absorbed() && fed + data == old(fed) + input && (bufLen == 0 || data == [])
        invariant total == (|old(fed)| + |input|) % WORD64
      {
        assert data == data[..64] + data[64..];
        AbsorbBlock(data[..64]);
        data := data[64..];
      }
      if data != [] {
        Keep(data);
      }
      assert fed == old(fed) + input;
    }

    /** Pads and hashes; the message object is used up. */
    method Finish() returns (digest: seq<byte>)
      requires Valid()
      modifies this, buffer
      ensures digest == Digest(iv, old(fed))
    {
      hide FoldBlocks, BigEndian, CompressBlock, ZeroBytes;
      ghost var message := fed;
      var bitLen := (total * 8) % WORD64;
      BitLength(|message|);
      Update([0x80]);
      ghost var zeros := 0;
      while bufLen != 56
        invariant Valid() && fed == message + [0x80] + Zeros(zeros) && zeros <= ZeroBytes(|message|)
        decreases ZeroBytes(|message|) - zeros
      {
        PaddingLeft(|message|, zeros, bufLen);
        Update([0]);
        assert Zeros(zeros + 1) == Zeros(zeros) + [0];
        zeros := zeros + 1;
      }
      PaddingDone(|message|, zeros, bufLen);
      ghost var whole := fed[..|fed| - 56];
      CopyIn(56, BigEndian(bitLen, 8));
      assert buffer[..64] == buffer[..];
      assert Padded(message) == whole + buffer[..];
      FoldAppend(iv, whole, buffer[..]);
      Compress(buffer[..]);
      digest := Encode(state);
    }
  }

  /** Each word of the state, most significant byte first. */
  method Encode(state: seq<word>) returns (out: seq<byte>)
    ensures out == WordsBytes(state)
  {
    out := [];
    var i := 0;
    while i < |state|
      invariant 0 <= i <= |state| && out == WordsBytes(state[..i])
    {
      assert state[..i + 1][..i] == state[..i];
      out := out + BigEndian(state[i] as nat, 4);
      i := i + 1;
    }
    assert state[..i] == state;
  }

  lemma FoldAppend(iv: seq<word>, m: seq<byte>, block: seq<byte>)
    requires |iv| == 8 && |m| % 64 == 0 && |block| == 64
    ensures FoldBlocks(iv, m + block) == CompressBlock(FoldBlocks(iv, m), block)
  {
    hide CompressBlock;
    assert (m + block)[..|m|] == m && (m + block)[|m|..] == block;
  }

  lemma TotalAdds(n: nat, k: nat)
    ensures (n % WORD64 + k) % WORD64 == (n + k) % WORD64
  {
  }

  lemma BitLength(n: nat)
    ensures ((n % WORD64) * 8) % WORD64 == (8 * n) % WORD64
  {
    var q := n / WORD64;
    assert n == q * WORD64 + n % WORD64;
    assert 8 * n == (8 * q) * WORD64 + 8 * (n % WORD64);
  }

  lemma PaddingLeft(n: nat, zeros: nat, bufLen: nat)
    requires zeros <= ZeroBytes(n) && bufLen < 64 && bufLen != 56
    requires bufLen <= n + 1 + zeros && (n + 1 + zeros - bufLen) % 64 == 0
    ensures zeros < ZeroBytes(n)
  {
    assert (n + 1 + zeros) % 64 == bufLen;
  }

  lemma PaddingDone(n: nat, zeros: nat, bufLen: nat)
    requires zeros <= ZeroBytes(n) && bufLen == 56
    requires bufLen <= n + 1 + zeros && (n + 1 + zeros - bufLen) % 64 == 0
    ensures zeros == ZeroBytes(n)
  {
    ZeroBytesLeast(n, zeros);
  }

  lemma AddCommutes(a: word, b: word)
    ensures Add(a, b) == Add(b, a)
  {
  }

  lemma AddAssociates(a: word, b: word, c: word)
    ensures Add(Add(a, b), c) == Add(a, Add(b, c))
  {
  }

  lemma AddInReverse(a: word, b: word, c: word, d: word)
    ensures Add4(a, b, c, d) == Add4(d, c, b, a)
  {
    hide Add;
    calc {
      Add(Add(Add(a, b), c), d);
      { AddCommutes(Add(Add(a, b), c), d); }
      Add(d, Add(Add(a, b), c));
      { AddCommutes(Add(a, b), c); AddCommutes(a, b); }
      Add(d, Add(c, Add(b, a)));
      { AddAssociates(d, c, Add(b, a)); }
      Add(Add(d, c), Add(b, a));
      { AddAssociates(Add(d, c), b, a); }
      Add(Add(Add(d, c), b), a);
    }
  }

  lemma ScheduleFirst(block: seq<byte>, t: nat)
    requires |block| == 64 && t < 16
    ensures Schedule(block, t) == FromBigEndian(block[4 * t], block[4 * t + 1], block[4 * t + 2], block[4 * t + 3])
  {
    hide FromBigEndian;
  }

  lemma ScheduleNext(block: seq<byte>, t: nat)
    requires |block| == 64 && 16 <= t < 64
    ensures Schedule(block, t) == Add4(Schedule(block, t - 16), SmallSigma0(Schedule(block, t - 15)),
                                       Schedule(block, t - 7), SmallSigma1(Schedule(block, t - 2)))
  {
    hide SmallSigma0, SmallSigma1, FromBigEndian, Add4;
    AddInReverse(Schedule(block, t - 16), SmallSigma0(Schedule(block, t - 15)),
                 Schedule(block, t - 7), SmallSigma1(Schedule(block, t - 2)));
  }

  /** The message schedule, filled in place from the block's sixteen words. */
  method ExpandBlock(block: seq<byte>) returns (schedule: seq<word>)
    requires |block| == 64
    ensures |schedule| == 64 && forall t :: 0 <= t < 64 ==> schedule[t] == Schedule(block, t)
  {
    hide SmallSigma0, SmallSigma1, FromBigEndian, Add4, Schedule;
    var w := new word[64](_ => 0);
    var i := 0;
    while i < 16
      invariant 0 <= i <= 16
      invariant forall t :: 0 <= t < i ==> w[t] == Schedule(block, t)
    {
      ScheduleFirst(block, i);
      w[i] := FromBigEndian(block[4 * i], block[4 * i + 1], block[4 * i + 2], block[4 * i + 3]);
      i := i + 1;
    }
    while i < 64
      invariant 16 <= i <= 64
      invariant forall t :: 0 <= t < i ==> w[t] == Schedule(block, t)
    {
      var s0 := SmallSigma0(w[i - 15]);
      var s1 := SmallSigma1(w[i - 2]);
      ScheduleNext(block, i);
      w[i] := Add4(w[i - 16], s0, w[i - 7], s1);
      i := i + 1;
    }
    schedule := w[..];
  }

  // ---------------------------------------------------------------- one-shot digests

  method Sha256Of(data: seq<byte>) returns (digest: seq<byte>)
    ensures digest == Digest(H0, data)
  {
    hide Digest, Sha256.Valid;
    var h := new Sha256(H0);
    h.Update(data);
    assert [] + data == data;
    digest := h.Finish();
  }

  /** SHA-224: its own initial value, truncated to 28 bytes. */
  method Sha224Of(data: seq<byte>) returns (digest: seq<byte>)
    ensures digest == Digest(H0_224, data)[..28]
  {
    hide Digest, Sha256.Valid;
    var h := new Sha256(H0_224);
    h.Update(data);
    assert [] + data == data;
    var full := h.Finish();
    digest := full[..28];
  }

  /** The inner and outer pads, each xored with the key block in one loop. */
  method KeyPads(keyBlock: seq<byte>) returns (inner: seq<byte>, outer: seq<byte>)
    requires |keyBlock| == 64
    ensures inner == XorWith(keyBlock, 0x36) && outer == XorWith(keyBlock, 0x5c)
  {
    hide Xor;
    var ipad := new byte[64](_ => 0x36);
    var opad := new byte[64](_ => 0x5c);
    var i := 0;
    while i < 64
      invariant 0 <= i <= 64
      invariant forall k :: 0 <= k < 64 ==> ipad[k] == if k < i then Xor(keyBlock[k], 0x36) else 0x36
      invariant forall k :: 0 <= k < 64 ==> opad[k] == if k < i then Xor(keyBlock[k], 0x5c) else 0x5c
    {
      ipad[i] := Xor(keyBlock[i], ipad[i]);
      opad[i] := Xor(keyBlock[i], opad[i]);
      i := i + 1;
    }
    inner, outer := ipad[..], opad[..];
  }

  /** A digest fed in two parts. */
  method DigestOfTwo(first: seq<byte>, second: seq<byte>) returns (digest: seq<byte>)
    ensures digest == Digest(H0, first + second)
  {
    hide Digest, Sha256.Valid;
    var h := new Sha256(H0);
    h.Update(first);
    h.Update(second);
    assert h.fed == first + second;
    digest := h.Finish();
  }

  method HmacSha256(key: seq<byte>, message: seq<byte>) returns (mac: seq<byte>)
    ensures mac == Hmac(key, message)
  {
    hide Digest, XorWith;
    var keyBlock: seq<byte>;
    if |key| > 64 {
      var hashed := Sha256Of(key);
      keyBlock := hashed + Zeros(32);
    } else {
      keyBlock := key + Zeros(64 - |key|);
    }
    var ipad, opad := KeyPads(keyBlock);
    var innerDigest := DigestOfTwo(ipad, message);
    mac := DigestOfTwo(opad, innerDigest);
  }
}
