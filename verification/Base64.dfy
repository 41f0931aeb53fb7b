/** The base64 decoder for PEM bodies, against RFC 4648 section 4 read as bit strings. */
module Base64 {
  import opened Options
  import opened Words

  datatype Result<+T> = Ok(value: T) | Err(error: string)

  // ---------------------------------------------------------------- the alphabet

  /** The value of a base64 character; none for `BAD`. */
  function ValueOf(c: char): (v: Option<nat>)
    ensures v.Some? ==> v.value < 64
  {
    if 'A' <= c <= 'Z' then Some(c as nat - 'A' as nat)
    else if 'a' <= c <= 'z' then Some(c as nat - 'a' as nat + 26)
    else if '0' <= c <= '9' then Some(c as nat - '0' as nat + 52)
    else if c == '+' then Some(62)
    else if c == '/' then Some(63)
    else None
  }

  function CharOf(v: nat): (c: char)
    requires v < 64
    ensures ValueOf(c) == Some(v) && c != '='
  {
    if v < 26 then ('A' as nat + v) as char
    else if v < 52 then ('a' as nat + (v - 26)) as char
    else if v < 62 then ('0' as nat + (v - 52)) as char
    else if v == 62 then '+'
    else '/'
  }

  const UPPER: string := "ABCDEFGHIJKLMNOPQRSTUVWXYZ"
  const LOWER: string := "abcdefghijklmnopqrstuvwxyz"
  const ALPHABET: string := UPPER + LOWER + "0123456789+/"

  lemma LettersInPlace()
    ensures forall v :: 0 <= v < 26 ==> UPPER[v] == CharOf(v) && LOWER[v] == CharOf(26 + v)
  {
  }

  lemma AllInPlace()
    ensures forall v :: 0 <= v < 64 ==> ALPHABET[v] == CharOf(v)
  {
    LettersInPlace();
  }

  lemma CharBack(c: char)
    requires ValueOf(c).Some?
    ensures CharOf(ValueOf(c).value) == c
  {
  }

  /** Table 1 of RFC 4648: a character stands for its place in the alphabet, and no other stands for
      anything. */
  lemma AlphabetExact(c: char)
    ensures ValueOf(c).Some? <==> c in ALPHABET
    ensures ValueOf(c).Some? ==> ALPHABET[ValueOf(c).value] == c
    ensures forall v :: 0 <= v < 64 ==> ValueOf(ALPHABET[v]) == Some(v)
  {
    AllInPlace();
    assert |ALPHABET| == 64;
    hide ValueOf, CharOf;
    if ValueOf(c).Some? { CharBack(c); }
  }

  // ---------------------------------------------------------------- bit strings

  /** The n low bits of v, most significant first. */
  function Bits(v: nat, n: nat): (b: seq<bool>)
    ensures |b| == n
  {
    if n == 0 then [] else Bits(v / 2, n - 1) + [v % 2 == 1]
  }

  function Number(b: seq<bool>): nat
  {
    if b == [] then 0 else 2 * Number(b[..|b| - 1]) + (if b[|b| - 1] then 1 else 0)
  }

  lemma {:induction false} NumberBound(b: seq<bool>)
    ensures Number(b) < Pow2(|b|)
  {
    if b != [] {
      NumberBound(b[..|b| - 1]);
    }
  }

  lemma {:induction false} NumberOfBits(v: nat, n: nat)
    requires v < Pow2(n)
    ensures Number(Bits(v, n)) == v
  {
    if n > 0 {
      NumberOfBits(v / 2, n - 1);
      assert Bits(v, n)[..n - 1] == Bits(v / 2, n - 1);
    }
  }

  lemma {:induction false} BitsOfNumber(b: seq<bool>)
    ensures Bits(Number(b), |b|) == b
  {
    if b != [] {
      BitsOfNumber(b[..|b| - 1]);
      assert Number(b) / 2 == Number(b[..|b| - 1]);
    }
  }

  lemma {:induction false} NumberOfSum(a: seq<bool>, b: seq<bool>)
    ensures Number(a + b) == Number(a) * Pow2(|b|) + Number(b)
  {
    if b == [] {
      assert a + b == a;
    } else {
      var n := |b| - 1;
      assert (a + b)[..|a + b| - 1] == a + b[..n];
      NumberOfSum(a, b[..n]);
      AppendBit(Number(a), Pow2(n), Number(b[..n]), if b[n] then 1 else 0);
    }
  }

  lemma AppendBit(x: nat, p: nat, y: nat, bit: nat)
    ensures 2 * (x * p + y) + bit == x * (2 * p) + (2 * y + bit)
  {
    assert 2 * (x * p) == x * (2 * p);
  }

  /** The concatenation of fixed-width groups. */
  function Joined(values: seq<nat>, width: nat): seq<bool>
  {
    if values == [] then [] else Bits(values[0], width) + Joined(values[1..], width)
  }

  /** The whole groups of a bit string; a shorter remainder is dropped. */
  function Groups(b: seq<bool>, width: nat): seq<nat>
    requires width > 0
  {
    if |b| < width then [] else [Number(b[..width])] + Groups(b[width..], width)
  }

  /** The bits after the last whole group. */
  function Rest(b: seq<bool>, width: nat): (r: seq<bool>)
    requires width > 0
    ensures |r| < width
  {
    if |b| < width then b else Rest(b[width..], width)
  }

  ghost predicate Below(values: seq<nat>, width: nat)
  {
    forall i :: 0 <= i < |values| ==> values[i] < Pow2(width)
  }

  lemma {:induction false} GroupsBelow(b: seq<bool>, width: nat)
    requires width > 0
    ensures Below(Groups(b, width), width)
  {
    if |b| >= width {
      NumberBound(b[..width]);
      GroupsBelow(b[width..], width);
    }
  }

  lemma {:induction false} GroupsOfJoined(values: seq<nat>, width: nat)
    requires width > 0 && Below(values, width)
    ensures Groups(Joined(values, width), width) == values && Rest(Joined(values, width), width) == []
  {
    if values != [] {
      GroupsOfJoined(values[1..], width);
      var b := Joined(values, width);
      assert b[..width] == Bits(values[0], width) && b[width..] == Joined(values[1..], width);
      NumberOfBits(values[0], width);
    }
  }

  lemma {:induction false} JoinedGroups(b: seq<bool>, width: nat)
    requires width > 0
    ensures Joined(Groups(b, width), width) + Rest(b, width) == b
  {
    if |b| >= width {
      JoinedGroups(b[width..], width);
      BitsOfNumber(b[..width]);
      assert Groups(b, width)[1..] == Groups(b[width..], width);
      assert b == b[..width] + b[width..];
    }
  }

  /** Regrouping goes on from the remainder when bits are appended. */
  lemma {:induction false} GroupsAppend(b: seq<bool>, x: seq<bool>, width: nat)
    requires width > 0
    ensures Groups(b + x, width) == Groups(b, width) + Groups(Rest(b, width) + x, width)
    ensures Rest(b + x, width) == Rest(Rest(b, width) + x, width)
  {
    if |b| >= width {
      GroupsAppend(b[width..], x, width);
      assert (b + x)[..width] == b[..width] && (b + x)[width..] == b[width..] + x;
    }
  }

  lemma {:induction false} JoinedAppend(values: seq<nat>, v: nat, width: nat)
    ensures Joined(values + [v], width) == Joined(values, width) + Bits(v, width)
  {
    if values == [] {
      assert values + [v] == [v];
    } else {
      JoinedAppend(values[1..], v, width);
      assert (values + [v])[1..] == values[1..] + [v];
    }
  }

  lemma {:induction false} GroupCount8(b: seq<bool>)
    ensures |Groups(b, 8)| == |b| / 8 && |Rest(b, 8)| == |b| % 8
  {
    if |b| >= 8 {
      GroupCount8(b[8..]);
    }
  }

  lemma {:induction false} JoinedLength6(values: seq<nat>)
    ensures |Joined(values, 6)| == 6 * |values|
  {
    if values != [] {
      JoinedLength6(values[1..]);
    }
  }

  // ---------------------------------------------------------------- what decoding means

  /** The text before its first padding character. */
  function Body(text: string): string
  {
    if text == [] || text[0] == '=' then [] else [text[0]] + Body(text[1..])
  }

  predicate Valid(body: string) { forall i :: 0 <= i < |body| ==> ValueOf(body[i]).Some? }

  function Values(body: string): (v: seq<nat>)
    requires Valid(body)
    ensures |v| == |body| && forall i :: 0 <= i < |v| ==> v[i] < 64
  {
    seq(|body|, i requires 0 <= i < |body| => ValueOf(body[i]).value)
  }

  function Bytes(values: seq<nat>): (b: seq<byte>)
    requires forall i :: 0 <= i < |values| ==> values[i] < 256
    ensures |b| == |values|
  {
    seq(|values|, i requires 0 <= i < |values| => values[i] as byte)
  }

  lemma Pow2Small()
    ensures Pow2(2) == 4 && Pow2(4) == 16 && Pow2(6) == 64 && Pow2(8) == 256
  {
  }

  /** The whole bytes of the six-bit groups; an error if any character is outside the alphabet. */
  function Decode(text: string): Result<seq<byte>>
  {
    var body := Body(text);
    if !Valid(body) then Err("invalid base64 in PEM")
    else
      Pow2Small();
      GroupsBelow(Joined(Values(body), 6), 8);
      Ok(Bytes(Groups(Joined(Values(body), 6), 8)))
  }

  /** n characters before the padding give floor(6n / 8) bytes. */
  lemma DecodedLength(text: string)
    requires Valid(Body(text))
    ensures Decode(text).Ok? && |Decode(text).value| == 6 * |Body(text)| / 8
  {
    JoinedLength6(Values(Body(text)));
    GroupCount8(Joined(Values(Body(text)), 6));
  }

  // ---------------------------------------------------------------- encoding, and the round trip

  function Zeros(n: nat): (z: seq<bool>)
    ensures |z| == n
  {
    seq(n, _ => false)
  }

  function Chars(values: seq<nat>): (s: string)
    requires forall i :: 0 <= i < |values| ==> values[i] < 64
    ensures |s| == |values|
  {
    seq(|values|, i requires 0 <= i < |values| => CharOf(values[i]))
  }

  function Numbers(bytes: seq<byte>): (v: seq<nat>)
    ensures |v| == |bytes| && forall i :: 0 <= i < |v| ==> v[i] < 256
  {
    seq(|bytes|, i requires 0 <= i < |bytes| => bytes[i] as nat)
  }

  /** RFC 4648 section 4: the bits of the input, zero-filled to whole six-bit groups; then `=` up to
      a multiple of four characters. */
  function Encode(bytes: seq<byte>): string
  {
    var bits := Joined(Numbers(bytes), 8);
    var values := Groups(bits + Zeros(FillBits(|bytes|)), 6);
    Pow2Small();
    GroupsBelow(bits + Zeros(FillBits(|bytes|)), 6);
    Chars(values) + seq(PadChars(|bytes|), _ => '=')
  }

  function FillBits(n: nat): nat { if n % 3 == 0 then 0 else if n % 3 == 1 then 4 else 2 }
  function PadChars(n: nat): nat { if n % 3 == 0 then 0 else if n % 3 == 1 then 2 else 1 }

  lemma {:induction false} BodyOfPadded(s: string, pads: nat)
    requires forall i :: 0 <= i < |s| ==> s[i] != '='
    ensures Body(s + seq(pads, _ => '=')) == s
  {
    var text := s + seq(pads, _ => '=');
    if s == [] {
      assert pads > 0 ==> text[0] == '=';
    } else {
      assert text[1..] == s[1..] + seq(pads, _ => '=');
      BodyOfPadded(s[1..], pads);
    }
  }

  lemma {:induction false} JoinedLength8(values: seq<nat>)
    ensures |Joined(values, 8)| == 8 * |values|
  {
    if values != [] {
      JoinedLength8(values[1..]);
    }
  }

  lemma {:induction false} RestLength6(b: seq<bool>)
    ensures |Groups(b, 6)| == |b| / 6 && |Rest(b, 6)| == |b| % 6
  {
    if |b| >= 6 {
      RestLength6(b[6..]);
    }
  }

  lemma CharCount(n: nat)
    ensures (8 * n + FillBits(n)) / 6 + PadChars(n) == 4 * ((n + 2) / 3) && (8 * n + FillBits(n)) % 6 == 0
  {
    var q := n / 3;
    if n % 3 == 0 {
      assert n == 3 * q;
    } else if n % 3 == 1 {
      assert n == 3 * q + 1;
    } else {
      assert n == 3 * q + 2;
    }
  }

  /** Encoded text is whole groups of four characters. */
  lemma EncodedLength(bytes: seq<byte>)
    ensures |Encode(bytes)| % 4 == 0 && |Encode(bytes)| == 4 * ((|bytes| + 2) / 3)
  {
    hide Joined, Groups, FillBits, PadChars;
    JoinedLength8(Numbers(bytes));
    RestLength6(Joined(Numbers(bytes), 8) + Zeros(FillBits(|bytes|)));
    CharCount(|bytes|);
  }

  /** The bits that the encoder cuts into six-bit values, and the values. */
  function EncodedBits(bytes: seq<byte>): seq<bool> { Joined(Numbers(bytes), 8) + Zeros(FillBits(|bytes|)) }

  lemma EncodedBody(bytes: seq<byte>)
    ensures var values := Groups(EncodedBits(bytes), 6);
      Valid(Body(Encode(bytes))) && Values(Body(Encode(bytes))) == values
  {
    hide Joined, Groups, FillBits, PadChars;
    Pow2Small();
    GroupsBelow(EncodedBits(bytes), 6);
    var values := Groups(EncodedBits(bytes), 6);
    BodyOfPadded(Chars(values), PadChars(|bytes|));
    assert Values(Chars(values)) == values;
  }

  lemma EncodedBitsKept(bytes: seq<byte>)
    ensures Joined(Groups(EncodedBits(bytes), 6), 6) == EncodedBits(bytes)
  {
    hide Joined, Groups, FillBits, PadChars, Rest;
    JoinedLength8(Numbers(bytes));
    CharCount(|bytes|);
    RestLength6(EncodedBits(bytes));
    JoinedGroups(EncodedBits(bytes), 6);
  }

  lemma BytesRegrouped(bytes: seq<byte>)
    ensures Groups(EncodedBits(bytes), 8) == Numbers(bytes)
  {
    hide Joined;
    Pow2Small();
    GroupsOfJoined(Numbers(bytes), 8);
    GroupsAppend(Joined(Numbers(bytes), 8), Zeros(FillBits(|bytes|)), 8);
    assert [] + Zeros(FillBits(|bytes|)) == Zeros(FillBits(|bytes|));
  }

  /** Decoding undoes encoding, for every byte string. */
  lemma RoundTrip(bytes: seq<byte>)
    ensures Decode(Encode(bytes)) == Ok(bytes)
  {
    hide Joined, Groups, Encode, EncodedBits, Valid;
    EncodedBody(bytes);
    EncodedBitsKept(bytes);
    BytesRegrouped(bytes);
    assert Bytes(Numbers(bytes)) == bytes;
  }

  // ---------------------------------------------------------------- the decoder

  /** The low bits of the accumulator are the bits that wait for a whole byte; everything above
      them is old and may have been shifted out of the 32-bit word. */
  ghost predicate Pending(acc: nat, bits: nat, waiting: seq<bool>)
  {
    && acc < WORD32 && bits == |waiting| && bits in {0, 2, 4, 6}
    && acc % Pow2(bits) == Number(waiting)
  }

  lemma PushSix(acc: nat, bits: nat, waiting: seq<bool>, v: nat) returns (next: seq<bool>)
    requires Pending(acc, bits, waiting) && v < 64
    ensures next == waiting + Bits(v, 6)
    ensures ((acc * 64) % WORD32 + v) % Pow2(bits + 6) == Number(next)
  {
    next := waiting + Bits(v, 6);
    Pow2Small();
    NumberOfSum(waiting, Bits(v, 6));
    NumberOfBits(v, 6);
    ShiftKeepsLow(acc, bits, v);
  }

  lemma ShiftInWord(acc: nat, p: nat, m: nat, t: nat, word: nat, v: nat)
    requires p > 0 && m == 64 * p && word == m * t && word > 0 && v < 64
    ensures ((acc * 64) % word + v) % m == (acc % p) * 64 + v
  {
    var h, l, q := acc / p, acc % p, (acc * 64) / word;
    assert acc == p * h + l;
    assert acc * 64 == q * word + (acc * 64) % word;
    assert acc * 64 == h * m + 64 * l by { assert 64 * (p * h) == h * m; }
    assert q * word == (q * t) * m;
    assert (acc * 64) % word + v == (h - q * t) * m + (64 * l + v) by { assert (h - q * t) * m == h * m - (q * t) * m; }
    UniqueRemainder(m, h - q * t, 64 * l + v);
  }

  lemma Pow2Even()
    ensures Pow2(0) == 1 && Pow2(2) == 4 && Pow2(4) == 16 && Pow2(6) == 64
    ensures Pow2(8) == 256 && Pow2(10) == 1024 && Pow2(12) == 4096
  {
  }

  /** Shifting six bits out of the top of the word does not reach the low bits that count. */
  lemma ShiftKeepsLow(acc: nat, bits: nat, v: nat)
    requires acc < WORD32 && bits in {0, 2, 4, 6} && v < 64
    ensures ((acc * 64) % WORD32 + v) % Pow2(bits + 6) == (acc % Pow2(bits)) * 64 + v
  {
    hide Pow2;
    Pow2Even();
    ShiftInWord(acc, Pow2(bits), Pow2(bits + 6), WORD32 / Pow2(bits + 6), WORD32, v);
  }

  lemma SplitByte(acc: nat, s: nat, p: nat, hi: nat, lo: nat)
    requires s > 0 && p == 256 * s && hi < 256 && lo < s && acc % p == hi * s + lo
    ensures (acc / s) % 256 == hi && acc % s == lo
  {
    var k := acc / p;
    assert acc == p * k + (hi * s + lo);
    assert acc == (256 * k + hi) * s + lo by { assert p * k == (256 * k) * s; }
    UniqueRemainder(s, 256 * k + hi, lo);
    UniqueRemainder(256, k, hi);
  }

  lemma TakeByte(acc: nat, bits: nat, next: seq<bool>)
    requires bits in {8, 10, 12} && bits == |next| && acc % Pow2(bits) == Number(next)
    ensures (acc / Pow2(bits - 8)) % 256 == Number(next[..8])
    ensures acc % Pow2(bits - 8) == Number(next[8..])
  {
    hide Pow2, Number;
    Pow2Even();
    assert next == next[..8] + next[8..];
    NumberOfSum(next[..8], next[8..]);
    NumberBound(next[..8]);
    NumberBound(next[8..]);
    SplitByte(acc, Pow2(bits - 8), Pow2(bits), Number(next[..8]), Number(next[8..]));
  }

  /** One decoded character: the joined bits grow by six, and at most one more byte is whole. */
  lemma DecodeStep(values: seq<nat>, v: nat, acc: nat, bits: nat)
    requires v < 64 && Pending(acc, bits, Rest(Joined(values, 6), 8))
    ensures var (b, next) := (Joined(values + [v], 6), (acc * 64) % WORD32 + v);
      if bits + 6 < 8 then
        Groups(b, 8) == Groups(Joined(values, 6), 8) && Pending(next, bits + 6, Rest(b, 8))
      else
        && Groups(b, 8) == Groups(Joined(values, 6), 8) + [(next / Pow2(bits - 2)) % 256]
        && Pending(next, bits - 2, Rest(b, 8))
  {
    hide Joined, Pow2, Number;
    var old_ := Joined(values, 6);
    var b, next := Joined(values + [v], 6), (acc * 64) % WORD32 + v;
    JoinedAppend(values, v, 6);
    GroupsAppend(old_, Bits(v, 6), 8);
    var grown := PushSix(acc, bits, Rest(old_, 8), v);
    AccumulatorFits(acc, v);
    if bits + 6 >= 8 {
      TakeByte(next, bits + 6, grown);
      assert Groups(grown, 8) == [Number(grown[..8])] + Groups(grown[8..], 8);
    }
  }

  lemma AccumulatorFits(acc: nat, v: nat)
    requires acc < WORD32 && v < 64
    ensures (acc * 64) % WORD32 + v < WORD32
  {
    assert (acc * 64) % 64 == 0;
    assert ((acc * 64) % WORD32) % 64 == 0;
  }

  method Base64Decode(text: string) returns (r: Result<seq<byte>>)
    ensures r == Decode(text)
  {
    hide Joined, Groups, Rest, Pow2, ValueOf;
    var out: seq<byte> := [];
    var acc: nat, bits: nat := 0, 0;
    var i := 0;
    ghost var values: seq<nat> := [];
    EmptyBits();
    while i < |text|
      invariant 0 <= i <= |text| && |values| == i
      invariant Pending(acc, bits, Rest(Joined(values, 6), 8))
      invariant Numbers(out) == Groups(Joined(values, 6), 8)
      invariant forall k :: 0 <= k < i ==> text[k] != '=' && ValueOf(text[k]) == Some(values[k])
    {
      var c := text[i];
      if c == '=' {
        break;
      }
      var v := ValueOf(c);
      if v.None? {
        BodyReaches(text, i);
        return Err("invalid base64 in PEM");
      }
      DecodeStep(values, v.value, acc, bits);
      acc := (acc * 64) % WORD32 + v.value;
      bits := bits + 6;
      if bits >= 8 {
        bits := bits - 8;
        ghost var before := out;
        out := out + [((acc / Pow2(bits)) % 256) as byte];
        assert Numbers(out) == Numbers(before) + [(acc / Pow2(bits)) % 256];
      }
      values := values + [v.value];
      i := i + 1;
    }
    BodyIsPrefix(text, i);
    assert Values(Body(text)) == values;
    assert Bytes(Numbers(out)) == out;
    r := Ok(out);
  }

  lemma EmptyBits()
    ensures Pending(0, 0, Rest(Joined([], 6), 8)) && Groups(Joined([], 6), 8) == []
  {
  }

  /** Text without padding up to i belongs to the body. */
  lemma {:induction false} BodyIsPrefix(text: string, i: nat)
    requires i <= |text| && (forall k :: 0 <= k < i ==> text[k] != '=') && (i < |text| ==> text[i] == '=')
    ensures Body(text) == text[..i]
  {
    if i > 0 {
      BodyIsPrefix(text[1..], i - 1);
      assert text[..i] == [text[0]] + text[1..][..i - 1];
    }
  }

  lemma {:induction false} BodyReaches(text: string, i: nat)
    requires i < |text| && forall k :: 0 <= k <= i ==> text[k] != '='
    ensures i < |Body(text)| && Body(text)[i] == text[i]
  {
    if i > 0 {
      BodyReaches(text[1..], i - 1);
    }
  }
}
