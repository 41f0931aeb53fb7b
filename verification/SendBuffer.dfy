/** The bytes a connection has written and not yet sent, with the absolute offsets of its fixed buffer. */
module SendBuffers {
  import opened Options

  /** A byte that may always leave, or one written by a dispatch whose output must wait for an LSN. */
  datatype Byte = Plain | Guarded(id: nat, lsn: nat)

  /** `start` is where the unsent bytes begin in the fixed buffer. */
  datatype Out = Out(start: nat, bytes: seq<Byte>)

  const EMPTY := Out(0, [])

  /** The mark that a later truncation returns to. */
  function End(o: Out): nat
  {
    o.start + |o.bytes|
  }

  /** Appending moves the unsent bytes to the front of the buffer first. */
  function Appended(o: Out, n: nat, b: Byte): Out
  {
    if n == 0 then o else Out(0, o.bytes + seq(n, _ => b))
  }

  function Consumed(o: Out, n: nat): Out
    requires n <= |o.bytes|
  {
    if n == 0 then o else if n == |o.bytes| then EMPTY else Out(o.start + n, o.bytes[n..])
  }

  /** How many of the unsent bytes leave when the socket would take n. */
  function Taken(n: nat, o: Out): (r: nat)
    ensures r <= |o.bytes|
  {
    if n < |o.bytes| then n else |o.bytes|
  }

  /** The assertion of a truncation. */
  predicate CanTruncate(o: Out, mark: nat)
  {
    o.start <= mark <= End(o)
  }

  function Truncated(o: Out, mark: nat): Out
    requires CanTruncate(o, mark)
  {
    Out(o.start, o.bytes[..mark - o.start])
  }

  // ---------------------------------------------------------------- early bytes

  predicate Early(b: Byte, durable: nat)
  {
    b.Guarded? && b.lsn > durable
  }

  ghost predicate SomeEarly(bytes: seq<Byte>, durable: nat)
  {
    exists k :: 0 <= k < |bytes| && Early(bytes[k], durable)
  }

  /** A byte of the dispatch. */
  predicate Of(b: Byte, id: nat)
  {
    b.Guarded? && b.id == id
  }

  ghost predicate Has(bytes: seq<Byte>, id: nat)
  {
    exists k :: 0 <= k < |bytes| && Of(bytes[k], id)
  }

  /** How many bytes come before the first one of the dispatch. */
  function Lead(bytes: seq<Byte>, id: nat): (n: nat)
    ensures n <= |bytes| && (n < |bytes| ==> Of(bytes[n], id))
    ensures forall k :: 0 <= k < n ==> !Of(bytes[k], id)
  {
    if bytes == [] || Of(bytes[0], id) then 0
    else
      assert bytes == [bytes[0]] + bytes[1..];
      1 + Lead(bytes[1..], id)
  }

  /** The first n bytes hold one of the dispatch exactly when n goes past the bytes before it. */
  lemma LeadReached(bytes: seq<Byte>, id: nat, n: nat)
    requires n <= |bytes|
    ensures Has(bytes[..n], id) <==> Lead(bytes, id) < n
  {
    if Lead(bytes, id) < n { assert Of(bytes[..n][Lead(bytes, id)], id); }
  }

  // ---------------------------------------------------------------- streaming

  /** A statement that streams has written some bytes and found the buffer full. The socket then takes
      what is unsent: all of it, unless the socket fails. */
  datatype Chunk = Chunk(wrote: nat, took: nat)

  function Volume(chunks: seq<Chunk>): nat
  {
    if chunks == [] then 0 else chunks[0].wrote + Volume(chunks[1..])
  }

  function Repeated(b: Byte, n: nat): seq<Byte>
  {
    seq(n, _ => b)
  }

  /** The bytes that leave and the buffer that is left. */
  function Streamed(o: Out, chunks: seq<Chunk>, b: Byte): (seq<Byte>, Out)
    decreases |chunks|
  {
    if chunks == [] then ([], o)
    else
      var full := Appended(o, chunks[0].wrote, b);
      var n := Taken(chunks[0].took, full);
      var (sent, left) := Streamed(Consumed(full, n), chunks[1..], b);
      (full.bytes[..n] + sent, left)
  }

  /** Everything a dispatch does to the buffer: it streams, then writes some more. */
  function Poured(o: Out, chunks: seq<Chunk>, wrote: nat, b: Byte): (seq<Byte>, Out)
  {
    var (sent, left) := Streamed(o, chunks, b);
    (sent, Appended(left, wrote, b))
  }

  lemma AppendedBytes(o: Out, n: nat, b: Byte)
    ensures Appended(o, n, b).bytes == o.bytes + Repeated(b, n)
    ensures Appended(o, n, b).start <= o.start && (n > 0 ==> Appended(o, n, b).start == 0)
  {
  }

  lemma ConsumedBytes(o: Out, n: nat)
    requires n <= |o.bytes|
    ensures Consumed(o, n).bytes == o.bytes[n..]
    ensures n < |o.bytes| ==> Consumed(o, n).start == o.start + n
  {
  }

  lemma RepeatedSum(b: Byte, m: nat, n: nat)
    ensures Repeated(b, m) + Repeated(b, n) == Repeated(b, m + n)
  {
  }

  /** Streaming neither loses nor reorders a byte. */
  lemma {:induction false} StreamConserves(o: Out, chunks: seq<Chunk>, b: Byte)
    ensures var (sent, left) := Streamed(o, chunks, b);
      sent + left.bytes == o.bytes + Repeated(b, Volume(chunks))
    decreases |chunks|
  {
    if chunks == [] {
      assert o.bytes + Repeated(b, 0) == o.bytes;
    } else {
      var c, rest := chunks[0], Volume(chunks[1..]);
      var full := Appended(o, c.wrote, b);
      var n := Taken(c.took, full);
      var (sent, left) := Streamed(Consumed(full, n), chunks[1..], b);
      StreamConserves(Consumed(full, n), chunks[1..], b);
      AppendedBytes(o, c.wrote, b);
      ConsumedBytes(full, n);
      RepeatedSum(b, c.wrote, rest);
      hide Repeated, Appended, Consumed, Streamed;
      Regrouped(full.bytes, n, sent, left.bytes, o.bytes, Repeated(b, c.wrote), Repeated(b, rest));
    }
  }

  lemma Regrouped(full: seq<Byte>, n: nat, sent: seq<Byte>, left: seq<Byte>, o: seq<Byte>, x: seq<Byte>, y: seq<Byte>)
    requires n <= |full| && sent + left == full[n..] + y && full == o + x
    ensures full[..n] + sent + left == o + (x + y)
  {
    assert full[..n] + sent + left == full[..n] + (sent + left);
    assert full[..n] + full[n..] == full;
    assert full[..n] + (full[n..] + y) == full + y;
    assert o + x + y == o + (x + y);
  }

  /** What leaves is the front of what was there and what the dispatch wrote; the rest stays. */
  lemma PouredBytes(o: Out, chunks: seq<Chunk>, wrote: nat, b: Byte)
    ensures var (sent, left) := Poured(o, chunks, wrote, b);
      var all := o.bytes + Repeated(b, Volume(chunks) + wrote);
      && |sent| <= |o.bytes| + Volume(chunks)
      && sent == all[..|sent|] && left.bytes == all[|sent|..]
  {
    hide Streamed, Appended, Repeated;
    var (sent, rest) := Streamed(o, chunks, b);
    StreamConserves(o, chunks, b);
    AppendedBytes(rest, wrote, b);
    RepeatedSum(b, Volume(chunks), wrote);
    RepeatedLength(b, Volume(chunks));
    var all := o.bytes + Repeated(b, Volume(chunks) + wrote);
    var left := rest.bytes + Repeated(b, wrote);
    assert all == sent + left by {
      assert all == o.bytes + Repeated(b, Volume(chunks)) + Repeated(b, wrote);
      assert all == sent + rest.bytes + Repeated(b, wrote);
    }
    assert |sent + rest.bytes| == |o.bytes| + Volume(chunks);
  }

  lemma RepeatedLength(b: Byte, n: nat)
    ensures |Repeated(b, n)| == n && forall k :: 0 <= k < n ==> Repeated(b, n)[k] == b
  {
  }

  /** Without a byte sent, streaming is writing. */
  lemma {:induction false} StreamedNothing(o: Out, chunks: seq<Chunk>, b: Byte)
    requires Streamed(o, chunks, b).0 == []
    ensures Streamed(o, chunks, b).1.start <= o.start
    decreases |chunks|
  {
    if chunks != [] {
      var full := Appended(o, chunks[0].wrote, b);
      var n := Taken(chunks[0].took, full);
      assert |full.bytes[..n]| == 0;
      StreamedNothing(Consumed(full, n), chunks[1..], b);
    }
  }

  // ---------------------------------------------------------------- where the output of a dispatch lies

  function Less(a: nat, n: nat): nat
  {
    if n < a then a - n else 0
  }

  function Least(a: nat, b: nat): nat
  {
    if a < b then a else b
  }

  /** Exactly the `own` bytes after the first `ahead` are the dispatch's. */
  ghost predicate Lies(bytes: seq<Byte>, id: nat, ahead: nat, own: nat)
  {
    ahead + own <= |bytes| && forall k :: 0 <= k < |bytes| ==> (Of(bytes[k], id) <==> ahead <= k < ahead + own)
  }

  /** The bytes ahead end no later than the mark. */
  predicate AheadFits(start: nat, ahead: nat, mark: nat)
  {
    ahead == 0 || start + ahead <= mark
  }

  lemma LiesAfter(bytes: seq<Byte>, id: nat, ahead: nat, own: nat, n: nat)
    requires Lies(bytes, id, ahead, own) && n <= |bytes|
    ensures Lies(bytes[n..], id, Less(ahead, n), Less(own, Less(n, ahead)))
  {
    var rest := bytes[n..];
    forall k | 0 <= k < |rest|
      ensures Of(rest[k], id) <==> Less(ahead, n) <= k < Less(ahead, n) + Less(own, Less(n, ahead))
    {
      assert rest[k] == bytes[n + k];
    }
  }

  lemma LiesBefore(bytes: seq<Byte>, id: nat, ahead: nat, own: nat, more: seq<Byte>)
    requires Lies(bytes, id, ahead, own) && forall k :: 0 <= k < |more| ==> !Of(more[k], id)
    ensures Lies(bytes + more, id, ahead, own)
  {
  }

  lemma LiesWithin(bytes: seq<Byte>, id: nat, ahead: nat, own: nat, n: nat)
    requires Lies(bytes, id, ahead, own) && ahead <= n <= |bytes|
    ensures Lies(bytes[..n], id, ahead, Least(own, n - ahead))
  {
  }

  lemma LeadLies(bytes: seq<Byte>, id: nat, ahead: nat, own: nat)
    requires Lies(bytes, id, ahead, own)
    ensures Lead(bytes, id) == if own > 0 then ahead else |bytes|
  {
    var n := Lead(bytes, id);
    if own > 0 { assert Of(bytes[ahead], id); }
    if n < |bytes| { assert Of(bytes[n], id); }
  }

  lemma FitsAfter(o: Out, ahead: nat, mark: nat, n: nat)
    requires AheadFits(o.start, ahead, mark) && ahead <= |o.bytes| && n <= |o.bytes|
    ensures AheadFits(Consumed(o, n).start, Less(ahead, n), mark)
  {
  }

  lemma {:induction false} FitsStreamed(o: Out, chunks: seq<Chunk>, b: Byte, ahead: nat, mark: nat)
    requires AheadFits(o.start, ahead, mark) && ahead <= |o.bytes|
    ensures var (sent, left) := Streamed(o, chunks, b);
      AheadFits(left.start, Less(ahead, |sent|), mark)
    decreases |chunks|
  {
    if chunks != [] {
      var full := Appended(o, chunks[0].wrote, b);
      var n := Taken(chunks[0].took, full);
      AppendedBytes(o, chunks[0].wrote, b);
      ConsumedBytes(full, n);
      FitsAfter(full, ahead, mark, n);
      FitsStreamed(Consumed(full, n), chunks[1..], b, Less(ahead, n), mark);
    }
  }

  /** What a dispatch leaves unsent lies behind what was there before, and that ends by its mark. */
  lemma PouredOwn(was: Out, chunks: seq<Chunk>, wrote: nat, b: Byte, id: nat)
    requires Of(b, id) && forall k :: 0 <= k < |was.bytes| ==> !Of(was.bytes[k], id)
    ensures var (sent, out) := Poured(was, chunks, wrote, b);
      && Lies(out.bytes, id, Less(|was.bytes|, |sent|), Less(Volume(chunks) + wrote, Less(|sent|, |was.bytes|)))
      && AheadFits(out.start, Less(|was.bytes|, |sent|), End(was))
      && (sent == [] ==> out.start <= was.start)
  {
    var (sent, out) := Poured(was, chunks, wrote, b);
    var left, n := Streamed(was, chunks, b).1, Volume(chunks) + wrote;
    var all := was.bytes + Repeated(b, n);
    PouredBytes(was, chunks, wrote, b);
    assert Lies(all, id, |was.bytes|, n) by { RepeatedLength(b, n); }
    LiesAfter(all, id, |was.bytes|, n, |sent|);
    hide Streamed, Repeated, Lies;
    AppendedBytes(left, wrote, b);
    FitsStreamed(was, chunks, b, |was.bytes|, End(was));
    if sent == [] { StreamedNothing(was, chunks, b); }
  }

  /** Chunks that drain the buffer whole send all there was and all they wrote. */
  lemma {:induction false} DrainsAll(o: Out, chunks: seq<Chunk>, b: Byte)
    requires chunks != [] && forall k :: 0 <= k < |chunks| ==> chunks[k].took >= |o.bytes| + Volume(chunks)
    ensures var (sent, left) := Streamed(o, chunks, b);
      |sent| == |o.bytes| + Volume(chunks) && left.bytes == []
    decreases |chunks|
  {
    var full := Appended(o, chunks[0].wrote, b);
    AppendedBytes(o, chunks[0].wrote, b);
    ConsumedBytes(full, |full.bytes|);
    assert Taken(chunks[0].took, full) == |full.bytes|;
    if |chunks| > 1 {
      DrainsAll(Consumed(full, |full.bytes|), chunks[1..], b);
    } else {
      assert chunks[1..] == [];
    }
  }
}
