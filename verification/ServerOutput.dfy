/** Which bytes leave a connection before what they speak of is durable. */
module ServerOutput {
  import opened Options
  import opened WorkspaceLeases
  import opened SendBuffers
  import opened ServerCore
  import opened ServerInvariant
  import opened ServerSteps

  // ---------------------------------------------------------------- what a buffer may hold

  /** A later response took the place of this one, or an error left some of its output behind. */
  ghost predicate StrandedAt(log: seq<Event>, k: nat, i: nat, id: nat)
    requires k < |log|
  {
    || (log[k].Buffered? && log[k].slot == i && StandingOf(log[..k], i).Exposed? && StandingOf(log[..k], i).id == id)
    || log[k] == Clipped(i, id)
  }

  ghost predicate Stranded(log: seq<Event>, i: nat, id: nat)
  {
    exists k {:trigger StrandedAt(log, k, i, id)} :: 0 <= k < |log| && StrandedAt(log, k, i, id)
  }

  /** A byte of the waiting response carries what that response speaks of; any other byte that is
      early was stranded. Dispatches are numbered in order. */
  ghost predicate ByteOk(b: Byte, response: Option<Response>, i: nat, log: seq<Event>, durable: nat, tick: nat)
  {
    && (b.Guarded? ==> b.id < tick)
    && (response.Some? && Of(b, response.value.id) ==> b.lsn == Needs(response.value))
    && (Early(b, durable) ==> (response.Some? && Of(b, response.value.id)) || Stranded(log, i, b.id))
  }

  /** The unsent output of the response lies where history says. Nothing ahead of it reaches past the
      mark, and an exact mark is where it starts. A dispatch that did not reach the engine has no mark
      and no output. */
  ghost predicate PlaceOk(out: Out, r: Response, p: Place)
  {
    && Lies(out.bytes, r.id, p.ahead, p.own)
    && (r.mark.None? ==> p.own == 0)
    && (r.mark.Some? ==> AheadFits(out.start, p.ahead, r.mark.value))
    && (r.mark.Some? && p.exact ==> out.start == 0 && p.ahead == r.mark.value)
  }

  ghost predicate MarkOk(slot: Slot, st: Standing)
  {
    slot.response.Some? && !st.Absent? ==> PlaceOk(slot.out, slot.response.value, st.place)
  }

  ghost predicate OutOk(slot: Slot, i: nat, log: seq<Event>, durable: nat, tick: nat)
  {
    slot.open ==>
      && (forall k :: 0 <= k < |slot.out.bytes| ==> ByteOk(slot.out.bytes[k], slot.response, i, log, durable, tick))
      && (slot.response.Some? ==> slot.response.value.id < tick)
      && MarkOk(slot, StandingOf(log, i))
  }

  ghost predicate OutsOk(s: Server)
  {
    forall i {:trigger s.slots[i]} :: 0 <= i < |s.slots| ==> OutOk(s.slots[i], i, s.log, s.durable, s.tick)
  }

  /** Bytes sent early belong to the response held back or to the dispatch that is running, or were
      stranded before. Those of a response held back are early, and those of the running dispatch speak
      of its LSN. An error fails to take its output back only when that output has moved. */
  ghost predicate SendOk(log: seq<Event>, k: nat)
    requires k < |log|
  {
    match log[k]
    case Sent(i, cause, holding, bytes, at) =>
      && (cause.AtBarrier? ==> holding.None?)
      && (forall n :: 0 <= n < |bytes| && Early(bytes[n], at) ==>
            || holding == Some(bytes[n].id) || Stranded(log[..k], i, bytes[n].id)
            || (cause.InDispatch? && bytes[n].id == cause.id))
      && (forall n :: 0 <= n < |bytes| && cause.InDispatch? && Of(bytes[n], cause.id) ==> bytes[n].lsn == cause.lsn)
      && (forall n :: 0 <= n < |bytes| && bytes[n].Guarded? && holding == Some(bytes[n].id) ==> Early(bytes[n], at))
    case Clipped(i, id) => var st := StandingOf(log[..k], i); !st.Absent? && st.id == id && !st.place.exact
    case Panicked(i) => var st := StandingOf(log[..k], i); !st.Absent? && !st.place.exact
    case _ => true
  }

  ghost predicate SendsOk(log: seq<Event>)
  {
    forall k {:trigger SendOk(log, k)} :: 0 <= k < |log| ==> SendOk(log, k)
  }

  ghost predicate Guarding(s: Server)
  {
    OutsOk(s) && SendsOk(s.log)
  }

  // ---------------------------------------------------------------- history grows

  lemma StrandedStays(log: seq<Event>, more: seq<Event>, i: nat, id: nat)
    requires Stranded(log, i, id)
    ensures Stranded(log + more, i, id)
  {
    var k :| 0 <= k < |log| && StrandedAt(log, k, i, id);
    assert (log + more)[..k] == log[..k];
    assert StrandedAt(log + more, k, i, id);
  }

  lemma SendsGrow(log: seq<Event>, e: Event)
    requires SendsOk(log) && SendOk(log + [e], |log|)
    ensures SendsOk(log + [e])
  {
    forall k | 0 <= k < |log + [e]| ensures SendOk(log + [e], k) {
      if k < |log| {
        assert SendOk(log, k) && (log + [e])[..k] == log[..k] && (log + [e])[k] == log[k];
      }
    }
  }

  predicate Silent(e: Event)
  {
    !e.Sent? && !e.Clipped? && !e.Panicked?
  }

  lemma ByteStays(b: Byte, response: Option<Response>, i: nat, log: seq<Event>, more: seq<Event>, durable: nat, d: nat,
                  tick: nat, t: nat)
    requires ByteOk(b, response, i, log, durable, tick) && durable <= d && tick <= t
    ensures ByteOk(b, response, i, log + more, d, t)
  {
    if b.Guarded? && Stranded(log, i, b.id) { StrandedStays(log, more, i, b.id); }
  }

  lemma OutStays(slot: Slot, j: nat, log: seq<Event>, i: nat, more: seq<Event>, durable: nat, d: nat, tick: nat, t: nat)
    requires OutOk(slot, j, log, durable, tick) && durable <= d && tick <= t
    requires OnlyOf(more, i) && (j != i || more == [])
    ensures OutOk(slot, j, log + more, d, t)
  {
    if j != i { StandingOther(log, more, i, j); } else { assert log + more == log; }
    if slot.open {
      forall k | 0 <= k < |slot.out.bytes| ensures ByteOk(slot.out.bytes[k], slot.response, j, log + more, d, t) {
        ByteStays(slot.out.bytes[k], slot.response, j, log, more, durable, d, tick, t);
      }
    }
  }

  /** One slot changes with history of its own; the others at most begin to read. */
  lemma OutsChange(s: Server, t: Server, i: nat, more: seq<Event>)
    requires OutsOk(s) && i < |s.slots| == |t.slots| && OnlyOf(more, i) && t.log == s.log + more
    requires t.durable >= s.durable && t.tick >= s.tick
    requires OutOk(t.slots[i], i, t.log, t.durable, t.tick)
    requires forall j {:trigger t.slots[j]} :: 0 <= j < |s.slots| && j != i ==>
      t.slots[j] == s.slots[j].(wantRead := t.slots[j].wantRead)
    ensures OutsOk(t)
  {
    hide OutOk;
    forall j | 0 <= j < |t.slots| ensures OutOk(t.slots[j], j, t.log, t.durable, t.tick) {
      if j != i {
        OutStays(s.slots[j], j, s.log, i, more, s.durable, t.durable, s.tick, t.tick);
        ReadIgnored(s.slots[j], t.slots[j], j, t.log, t.durable, t.tick);
      }
    }
  }

  lemma ReadIgnored(a: Slot, b: Slot, i: nat, log: seq<Event>, durable: nat, tick: nat)
    requires OutOk(a, i, log, durable, tick)
    requires b ==
      a.(wantRead := b.wantRead, wantWrite := b.wantWrite, pending := b.pending, conn := b.conn,
         generation := b.generation, detached := b.detached)
    ensures OutOk(b, i, log, durable, tick)
  {
  }

  lemma OutAt(s: Server, i: nat)
    requires OutsOk(s) && i < |s.slots|
    ensures OutOk(s.slots[i], i, s.log, s.durable, s.tick)
  {
  }

  // ---------------------------------------------------------------- single steps

  /** Bytes that may always leave disturb nothing. */
  lemma PlainAppended(slot: Slot, n: nat, i: nat, log: seq<Event>, durable: nat, tick: nat)
    requires OutOk(slot, i, log, durable, tick)
    ensures OutOk(slot.(out := Appended(slot.out, n, Plain)), i, log, durable, tick)
  {
    if slot.open {
      var out := Appended(slot.out, n, Plain);
      AppendedBytes(slot.out, n, Plain);
      RepeatedLength(Plain, n);
      var st := StandingOf(log, i);
      if slot.response.Some? && !st.Absent? {
        LiesBefore(slot.out.bytes, slot.response.value.id, st.place.ahead, st.place.own, Repeated(Plain, n));
      }
      forall k | 0 <= k < |out.bytes| ensures ByteOk(out.bytes[k], slot.response, i, log, durable, tick) {
        if k < |slot.out.bytes| { assert ByteOk(slot.out.bytes[k], slot.response, i, log, durable, tick); }
      }
    }
  }

  lemma ReconciledOut(s: Server, i: nat)
    requires Guarding(s) && i < |s.slots|
    ensures Guarding(Reconciled(s, i))
  {
    hide OutOk, SendsOk;
    var t := Reconciled(s, i);
    var more := t.log[|s.log|..];
    assert t.log == s.log + more;
    OutAt(s, i);
    if more != [] {
      assert more == [Resumed(i)];
      SendsGrow(s.log, Resumed(i));
      Resuming(s.slots[i], i, s.log, s.durable, s.tick);
    } else {
      assert t.log == s.log;
    }
    ReadIgnored(s.slots[i], t.slots[i], i, t.log, t.durable, t.tick);
    OutsChange(s, t, i, more);
  }

  lemma Resuming(slot: Slot, i: nat, log: seq<Event>, durable: nat, tick: nat)
    requires OutOk(slot, i, log, durable, tick)
    ensures OutOk(slot, i, log + [Resumed(i)], durable, tick)
  {
    StandingNext(log, Resumed(i), i);
    if slot.open {
      forall k | 0 <= k < |slot.out.bytes|
        ensures ByteOk(slot.out.bytes[k], slot.response, i, log + [Resumed(i)], durable, tick)
      {
        ByteStays(slot.out.bytes[k], slot.response, i, log, [Resumed(i)], durable, durable, tick, tick);
      }
    }
  }

  lemma ReleasedOut(s: Server, i: nat)
    requires Guarding(s) && i < |s.slots|
    ensures Guarding(Released(s, i))
  {
    hide OutOk, SendsOk;
    var (h, l) := AfterCancel(s.leases, i);
    var u := s.(leases := l, slots := s.slots[i := ClosedSlot(s.slots[i])], log := s.log + [Gone(i)]);
    var t := Woken(u, h);
    WokenSlots(u, h);
    SendsGrow(s.log, Gone(i));
    Shut(t.slots[i], i, t.log, t.durable, t.tick);
    OutsChange(s, t, i, [Gone(i)]);
  }

  lemma Shut(slot: Slot, i: nat, log: seq<Event>, durable: nat, tick: nat)
    requires !slot.open
    ensures OutOk(slot, i, log, durable, tick)
  {
  }

  lemma CompletedOut(s: Server, i: nat, after: After)
    requires Guarding(s) && i < |s.slots|
    ensures Guarding(Completed(s, i, after))
  {
    if after.Close? { ReleasedOut(s, i); } else { ReconciledOut(s, i); }
  }

  /** Sending: what leaves early is the held-back response's or was stranded. */
  lemma SendingOk(slot: Slot, i: nat, o: Outcome, cause: Cause, log: seq<Event>, durable: nat, tick: nat)
    requires slot.open && OutOk(slot, i, log, durable, tick) && !cause.InDispatch?
    requires cause.AtBarrier? ==> slot.response.None?
    requires slot.response.Some? ==> ResponseOk(slot.response.value, durable)
    ensures SendOk(log + [SentEvent(slot, i, o, cause, durable)], |log|)
  {
    var e := SentEvent(slot, i, o, cause, durable);
    assert (log + [e])[..|log|] == log;
    forall n | 0 <= n < |e.bytes| ensures ByteOk(e.bytes[n], slot.response, i, log, durable, tick) {
      assert e.bytes[n] == slot.out.bytes[n];
    }
  }

  lemma PlaceAfter(out: Out, r: Response, p: Place, n: nat)
    requires PlaceOk(out, r, p) && n <= |out.bytes|
    ensures PlaceOk(Consumed(out, n), r, Advanced(p, n))
  {
    ConsumedBytes(out, n);
    LiesAfter(out.bytes, r.id, p.ahead, p.own, n);
    if r.mark.Some? { FitsAfter(out, p.ahead, r.mark.value, n); }
  }

  lemma FlushedOutOk(slot: Slot, i: nat, o: Outcome, cause: Cause, log: seq<Event>, durable: nat, tick: nat)
    requires OutOk(slot, i, log, durable, tick)
    ensures OutOk(FlushedSlot(slot, o), i, log + [SentEvent(slot, i, o, cause, durable)], durable, tick)
  {
    var e, t := SentEvent(slot, i, o, cause, durable), FlushedSlot(slot, o);
    StandingNext(log, e, i);
    if slot.open {
      var n := Taken(o.accepted, slot.out);
      var st := StandingOf(log, i);
      ConsumedBytes(slot.out, n);
      if slot.response.Some? && !st.Absent? { PlaceAfter(slot.out, slot.response.value, st.place, n); }
      forall k | 0 <= k < |t.out.bytes| ensures ByteOk(t.out.bytes[k], t.response, i, log + [e], durable, tick) {
        assert t.out.bytes[k] == slot.out.bytes[n + k];
        ByteStays(slot.out.bytes[n + k], slot.response, i, log, [e], durable, durable, tick, tick);
      }
    }
  }

  lemma ResponseAt(s: Server, i: nat)
    requires Inv(s) && i < |s.slots| && s.slots[i].response.Some?
    ensures s.slots[i].open && ResponseOk(s.slots[i].response.value, s.durable)
    ensures !StandingOf(s.log, i).Absent? && StandingOf(s.log, i).id == s.slots[i].response.value.id
  {
    assert SlotOk(s.slots[i], i, i in s.leases.waiters, s.log, s.durable);
  }

  lemma FlushedOut(s: Server, i: nat, o: Outcome, cause: Cause)
    requires Inv(s) && Guarding(s) && i < |s.slots| && s.slots[i].open && !cause.AtBarrier? && !cause.InDispatch?
    ensures Guarding(Flushed(s, i, o, cause))
  {
    hide OutOk, SendsOk, SendOk, Inv;
    var t, e := Flushed(s, i, o, cause), SentEvent(s.slots[i], i, o, cause, s.durable);
    OutAt(s, i);
    if s.slots[i].response.Some? { ResponseAt(s, i); }
    SendingOk(s.slots[i], i, o, cause, s.log, s.durable, s.tick);
    SendsGrow(s.log, e);
    FlushedOutOk(s.slots[i], i, o, cause, s.log, s.durable, s.tick);
    OutsChange(s, t, i, [e]);
  }

  lemma InterruptedOut(s: Server, o: Outcome)
    requires Guarding(s)
    ensures Guarding(Interrupted(s, o))
  {
    hide OutOk, SendsOk;
    if o.cancel.Some? && o.cancel.value < |s.slots| {
      var i := o.cancel.value;
      var slot := s.slots[i];
      if slot.open && slot.conn.parked && slot.conn.staged.None? {
        var t := s.(slots := s.slots[i := slot.(conn := slot.conn.(parked := false),
                                                out := Appended(slot.out, o.notice, Plain))]);
        OutAt(s, i);
        PlainAppended(slot, o.notice, i, s.log, s.durable, s.tick);
        ReadIgnored(slot.(out := Appended(slot.out, o.notice, Plain)), t.slots[i], i, s.log, s.durable, s.tick);
        assert t.log == s.log + [];
        OutsChange(s, t, i, []);
        if o.told { ReconciledOut(t, i); }
      }
    }
  }

  // ---------------------------------------------------------------- executing

  /** Handing a workspace on changes no output. */
  lemma DequeuedOut(s: Server, more: seq<Event>, slot: Slot, journal: nat)
    requires Guarding(s) && s.queue != [] && QueueIn(s) && !slot.pending
    requires OnlyOf(more, s.queue[0].owner) && SendsOk(s.log + more)
    requires OutOk(slot, s.queue[0].owner, s.log + more, s.durable, s.tick + 1)
    ensures Guarding(Dequeued(Logged(s, more), slot, journal))
  {
    hide OutOk, SendsOk;
    var i, u := s.queue[0].owner, Logged(s, more);
    var t := Dequeued(u, slot, journal);
    var (h, l) := AfterRelease(s.leases, i);
    WokenSlots(Popped(u, slot, journal).(leases := l), h);
    ReadIgnored(slot, t.slots[i], i, u.log, s.durable, s.tick + 1);
    OutsChange(s, t, i, more);
  }

  /** What leaves and what stays of a buffer when a dispatch is done with it. */
  lemma OutputBytes(s: Server, o: Outcome, k: nat)
    requires s.queue != [] && QueueIn(s)
    ensures var (was, sent, out) := (s.slots[s.queue[0].owner].out, Output(s, o).0, Output(s, o).1);
      var own := OwnByte(Answer(s, o), o);
      && (k < |sent| ==> sent[k] == if k < |was.bytes| then was.bytes[k] else own)
      && (k < |out.bytes| ==> out.bytes[k] == if |sent| + k < |was.bytes| then was.bytes[|sent| + k] else own)
  {
    hide Poured, Repeated, Answer;
    var d, own := s.queue[0], OwnByte(Answer(s, o), o);
    var was := s.slots[d.owner].out;
    PouredBytes(was, Chunks(d, o), Rest(d, o), own);
    RepeatedLength(own, Volume(Chunks(d, o)) + Rest(d, o));
  }

  /** Streaming: what leaves early is the held-back response's or the dispatch's own, or was stranded. */
  lemma StreamingOk(s: Server, o: Outcome)
    requires Inv(s) && Guarding(s) && s.queue != [] && QueueIn(s)
    ensures SendsOk(s.log + StreamEvents(s, o)) && OnlyOf(StreamEvents(s, o), s.queue[0].owner)
  {
    hide Inv, Output, Answer, SendsOk, ResponseOk, Needs;
    var i, more, r := s.queue[0].owner, StreamEvents(s, o), Answer(s, o);
    if more == [] {
      assert s.log + more == s.log;
    } else {
      var e, slot := more[0], s.slots[i];
      HolderNotWaiting(s, i);
      OutAt(s, i);
      assert (s.log + [e])[..|s.log|] == s.log;
      forall n | 0 <= n < |e.bytes|
        ensures Early(e.bytes[n], s.durable) ==>
          || e.holding == Some(e.bytes[n].id) || Stranded(s.log, i, e.bytes[n].id) || e.bytes[n].id == r.id
        ensures Of(e.bytes[n], r.id) ==> e.bytes[n].lsn == Needs(r)
        ensures e.bytes[n].Guarded? && e.holding == Some(e.bytes[n].id) ==> Early(e.bytes[n], s.durable)
      {
        StreamedByte(s, o, n);
      }
      SendsGrow(s.log, e);
    }
  }

  lemma StreamedByte(s: Server, o: Outcome, n: nat)
    requires Inv(s) && OutsOk(s) && s.queue != [] && QueueIn(s) && n < |Output(s, o).0|
    ensures var (i, r, b) := (s.queue[0].owner, Answer(s, o), Output(s, o).0[n]);
      var holding := Holding(s.slots[i], s.durable);
      && (Early(b, s.durable) ==> holding == Some(b.id) || Stranded(s.log, i, b.id) || b.id == r.id)
      && (Of(b, r.id) ==> b.lsn == Needs(r))
      && (b.Guarded? && holding == Some(b.id) ==> Early(b, s.durable))
  {
    hide Inv, Output;
    var i := s.queue[0].owner;
    var slot := s.slots[i];
    HolderNotWaiting(s, i);
    OutAt(s, i);
    OutputBytes(s, o, n);
    if n < |slot.out.bytes| {
      assert ByteOk(slot.out.bytes[n], slot.response, i, s.log, s.durable, s.tick);
    }
    if slot.response.Some? { ResponseAt(s, i); }
  }

  /** The slot of a dispatch that closes writes only bytes that may always leave. */
  lemma ClosingSlot(s: Server, o: Outcome)
    requires Inv(s) && OutsOk(s) && s.queue != [] && QueueIn(s) && o.after.Close?
    ensures OutOk(RunSlot(s, o), s.queue[0].owner, s.log + StreamEvents(s, o), s.durable, s.tick + 1)
  {
    hide Inv, Output, Answer;
    var i, more := s.queue[0].owner, StreamEvents(s, o);
    var slot, out, sent := s.slots[i], Output(s, o).1, Output(s, o).0;
    HolderNotWaiting(s, i);
    OutAt(s, i);
    StreamStanding(s, o);
    if slot.response.Some? {
      ResponseAt(s, i);
      ClosingPlace(s, o);
    }
    forall k | 0 <= k < |out.bytes|
      ensures ByteOk(out.bytes[k], slot.response, i, s.log + more, s.durable, s.tick + 1)
    {
      OutputBytes(s, o, k);
      var n := |sent| + k;
      if n < |slot.out.bytes| {
        ByteStays(slot.out.bytes[n], slot.response, i, s.log, more, s.durable, s.durable, s.tick, s.tick + 1);
      }
    }
  }

  lemma StreamStanding(s: Server, o: Outcome)
    requires s.queue != [] && QueueIn(s)
    ensures var (i, st) := (s.queue[0].owner, StandingOf(s.log, s.queue[0].owner));
      StandingOf(s.log + StreamEvents(s, o), i)
      == if st.Absent? then Absent else Moved(st, Advanced(st.place, |Output(s, o).0|))
  {
    hide Output, Answer;
    var i, more := s.queue[0].owner, StreamEvents(s, o);
    if more == [] { assert s.log + more == s.log; } else { StandingNext(s.log, more[0], i); }
  }

  /** A response that still waits while a closing dispatch streams. */
  lemma ClosingPlace(s: Server, o: Outcome)
    requires s.queue != [] && QueueIn(s) && o.after.Close?
    requires var (slot, st) := (s.slots[s.queue[0].owner], StandingOf(s.log, s.queue[0].owner));
      slot.response.Some? && !st.Absent? && PlaceOk(slot.out, slot.response.value, st.place)
    ensures var (slot, st) := (s.slots[s.queue[0].owner], StandingOf(s.log, s.queue[0].owner));
      PlaceOk(Output(s, o).1, slot.response.value, Advanced(st.place, |Output(s, o).0|))
  {
    hide Answer, StandingOf, Streamed;
    var d, st := s.queue[0], StandingOf(s.log, s.queue[0].owner);
    var was, r := s.slots[d.owner].out, s.slots[d.owner].response.value;
    PlacePoured(was, Chunks(d, o), Rest(d, o), Plain, r, st.place);
  }

  lemma PlacePoured(was: Out, chunks: seq<Chunk>, wrote: nat, b: Byte, r: Response, p: Place)
    requires PlaceOk(was, r, p) && !Of(b, r.id)
    ensures var (sent, out) := Poured(was, chunks, wrote, b);
      PlaceOk(out, r, Advanced(p, |sent|))
  {
    hide Streamed, Repeated;
    var (sent, out) := Poured(was, chunks, wrote, b);
    var left := Streamed(was, chunks, b).1;
    var n := Volume(chunks) + wrote;
    PouredBytes(was, chunks, wrote, b);
    RepeatedLength(b, n);
    LiesBefore(was.bytes, r.id, p.ahead, p.own, Repeated(b, n));
    LiesAfter(was.bytes + Repeated(b, n), r.id, p.ahead, p.own, |sent|);
    AppendedBytes(left, wrote, b);
    if r.mark.Some? { FitsStreamed(was, chunks, b, p.ahead, r.mark.value); }
    if sent == [] { StreamedNothing(was, chunks, b); }
  }

  /** The output of a dispatch lies behind what was there before. */
  lemma OwnPlace(s: Server, o: Outcome)
    requires OutsOk(s) && s.queue != [] && QueueIn(s) && o.after.Continue? && s.slots[s.queue[0].owner].open
    ensures PlaceOk(Output(s, o).1, Answer(s, o), PlaceOf(s, o))
  {
    hide Answer, Poured, OutOk, Lies;
    var d, r := s.queue[0], Answer(s, o);
    OldBytes(s, o);
    AnswerMark(s, o);
    PouredOwn(s.slots[d.owner].out, Chunks(d, o), Rest(d, o), OwnByte(r, o), r.id);
  }

  lemma OldBytes(s: Server, o: Outcome)
    requires OutsOk(s) && s.queue != [] && QueueIn(s) && s.slots[s.queue[0].owner].open
    ensures var was := s.slots[s.queue[0].owner].out;
      forall k :: 0 <= k < |was.bytes| ==> !Of(was.bytes[k], Answer(s, o).id)
  {
    var i := s.queue[0].owner;
    OutAt(s, i);
    forall k | 0 <= k < |s.slots[i].out.bytes| ensures !Of(s.slots[i].out.bytes[k], Answer(s, o).id) {
      assert ByteOk(s.slots[i].out.bytes[k], s.slots[i].response, i, s.log, s.durable, s.tick);
    }
  }

  lemma AnswerMark(s: Server, o: Outcome)
    requires s.queue != [] && QueueIn(s)
    ensures var (d, r) := (s.queue[0], Answer(s, o));
      && (if Ran(d, o) then r.mark == Some(End(s.slots[d.owner].out)) else r.mark == None)
      && (r.mark.None? && o.after.Continue? ==> Volume(Chunks(d, o)) + Rest(d, o) == 0)
  {
  }

  /** A new response: its output is its own, and that of one it replaces is stranded. */
  lemma StoringSlot(s: Server, o: Outcome)
    requires Inv(s) && OutsOk(s) && s.queue != [] && QueueIn(s) && o.after.Continue?
    ensures var (d, r) := (s.queue[0], Answer(s, o));
      OutOk(RunSlot(s, o).(response := Some(r)), d.owner,
            s.log + StreamEvents(s, o) + [Buffered(d.owner, r.id, d.kind, PlaceOf(s, o))], s.durable, s.tick + 1)
  {
    hide Inv, Output, PlaceOf, PlaceOk;
    var d, r, i := s.queue[0], Answer(s, o), s.queue[0].owner;
    var slot, more, e := s.slots[i], StreamEvents(s, o), Buffered(i, r.id, d.kind, PlaceOf(s, o));
    var t, log := RunSlot(s, o).(response := Some(r)), s.log + more;
    OutAt(s, i);
    HolderNotWaiting(s, i);
    StreamStanding(s, o);
    if slot.response.Some? {
      ResponseAt(s, i);
      Stranding(log, e, i, slot.response.value.id);
    }
    StandingNext(log, e, i);
    OwnPlace(s, o);
    forall k | 0 <= k < |t.out.bytes| ensures ByteOk(t.out.bytes[k], t.response, i, log + [e], s.durable, s.tick + 1) {
      OutputBytes(s, o, k);
      var n := |Output(s, o).0| + k;
      if n < |slot.out.bytes| {
        var b := slot.out.bytes[n];
        assert ByteOk(b, slot.response, i, s.log, s.durable, s.tick);
        if b.Guarded? && Stranded(s.log, i, b.id) {
          StrandedStays(s.log, more, i, b.id);
          StrandedStays(log, [e], i, b.id);
        }
      }
    }
  }

  lemma Stranding(log: seq<Event>, e: Event, i: nat, id: nat)
    requires e.Buffered? && e.slot == i && StandingOf(log, i).Exposed? && StandingOf(log, i).id == id
    ensures Stranded(log + [e], i, id)
  {
    assert (log + [e])[..|log|] == log;
    assert StrandedAt(log + [e], |log|, i, id);
  }

  /** The state between a dispatch and its buffered response, seen from before the dispatch. */
  lemma StoredOut(s: Server, o: Outcome)
    requires Inv(s) && Guarding(s) && s.queue != [] && QueueIn(s) && o.after.Continue?
    ensures var (d, r) := (s.queue[0], Answer(s, o));
      Guarding(Stored(Dequeued(Logged(s, StreamEvents(s, o)), RunSlot(s, o), r.after), d.owner, r, d.kind,
                      PlaceOf(s, o)))
  {
    hide OutOk, SendsOk, Inv, RunSlot, Answer, StreamEvents, PlaceOf;
    var d, r, i, slot, more := s.queue[0], Answer(s, o), s.queue[0].owner, RunSlot(s, o), StreamEvents(s, o);
    var t := Dequeued(Logged(s, more), slot, r.after);
    var e := Buffered(i, r.id, d.kind, PlaceOf(s, o));
    var u := Stored(t, i, r, d.kind, PlaceOf(s, o));
    StreamingOk(s, o);
    StoringSlot(s, o);
    var (h, l) := AfterRelease(s.leases, i);
    WokenSlots(Popped(Logged(s, more), slot, r.after).(leases := l), h);
    ReadIgnored(slot.(response := Some(r)), u.slots[i], i, u.log, u.durable, u.tick);
    SendsGrow(s.log + more, e);
    assert s.log + more + [e] == s.log + (more + [e]);
    OutsChange(s, u, i, more + [e]);
  }

  lemma ExecutedOut(s: Server, env: Engine)
    requires Inv(s) && Guarding(s) && s.queue != [] && QueueIn(s)
    ensures Guarding(Executed(s, env))
  {
    hide OutOk, SendsOk, Inv, Dequeued, RunSlot, Answer, IsQueued, Untouched, Completed, Interrupted, Flushed, OutsOk,
      StreamEvents, PlaceOf, OnlyOf;
    var o, d, i := env(s.tick), s.queue[0], s.queue[0].owner;
    HolderNotWaiting(s, i);
    if Declined(s, o) {
      DeclinedOut(s);
    } else {
      var slot, r, more := RunSlot(s, o), Answer(s, o), StreamEvents(s, o);
      var u := Logged(s, more);
      var t := Dequeued(u, slot, r.after);
      RunIsRunnable(s, o);
      StreamKeeps(s, o, i);
      DequeuedKeeps(u, slot, r.after, i);
      if o.after.Close? {
        StreamingOk(s, o);
        ClosingSlot(s, o);
        DequeuedOut(s, more, slot, r.after);
        FlushedOut(t, i, o, OnClose);
        InterruptedOut(Flushed(t, i, o, OnClose), o);
        CompletedOut(Interrupted(Flushed(t, i, o, OnClose), o), i, o.finish);
      } else {
        StoredOut(s, o);
        InterruptedOut(Stored(t, i, r, d.kind, PlaceOf(s, o)), o);
      }
    }
  }

  /** A retry that is not ready gives its workspace back. */
  lemma DeclinedOut(s: Server)
    requires Guarding(s) && s.queue != [] && QueueIn(s)
    ensures Guarding(Dequeued(s, s.slots[s.queue[0].owner].(pending := false), s.journal))
  {
    hide OutOk, SendsOk, Dequeued;
    var i := s.queue[0].owner;
    var slot := s.slots[i].(pending := false);
    OutAt(s, i);
    OutStays(s.slots[i], i, s.log, i, [], s.durable, s.durable, s.tick, s.tick + 1);
    assert s.log + [] == s.log;
    ReadIgnored(s.slots[i], slot, i, s.log, s.durable, s.tick + 1);
    assert Logged(s, []) == s;
    DequeuedOut(s, [], slot, s.journal);
  }

  lemma RunIsRunnable(s: Server, o: Outcome)
    requires Inv(s) && s.queue != [] && QueueIn(s) && !Declined(s, o)
    ensures Runnable(s, RunSlot(s, o)) && !RunSlot(s, o).pending && RunSlot(s, o).open
    ensures RunSlot(s, o).generation == s.queue[0].generation
  {
    HolderNotWaiting(s, s.queue[0].owner);
  }

  lemma {:induction false} DrainedOut(s: Server, env: Engine)
    requires Inv(s) && Guarding(s) && QueueIn(s)
    ensures Guarding(Drained(s, env))
    decreases |s.queue|
  {
    hide Inv, Guarding, Executed, IsQueued;
    if s.queue != [] {
      var t := Executed(s, env);
      ExecutedKeeps(s, env, s.queue[0].owner);
      ExecutedOut(s, env);
      InvQueueIn(t);
      DrainedOut(t, env);
    }
  }

  // ---------------------------------------------------------------- events and retries

  /** Leases, interest and the queue have no part in output. */
  lemma FlagsOut(s: Server, t: Server)
    requires Guarding(s) && |t.slots| == |s.slots| && t.log == s.log && t.durable == s.durable && t.tick >= s.tick
    requires forall j {:trigger t.slots[j]} :: 0 <= j < |s.slots| ==>
      t.slots[j] == s.slots[j].(wantRead := t.slots[j].wantRead, pending := t.slots[j].pending)
    ensures Guarding(t)
  {
    hide OutOk, SendsOk;
    forall j | 0 <= j < |t.slots| ensures OutOk(t.slots[j], j, t.log, t.durable, t.tick) {
      OutAt(s, j);
      OutStays(s.slots[j], j, s.log, j, [], s.durable, t.durable, s.tick, t.tick);
      assert s.log + [] == s.log;
      ReadIgnored(s.slots[j], t.slots[j], j, t.log, t.durable, t.tick);
    }
  }

  lemma RequestedOut(s: Server, i: nat, generation: nat)
    requires Guarding(s) && i < |s.slots|
    ensures Guarding(Requested(s, i, generation))
  {
    hide Guarding, AfterAcquire;
    FlagsOut(s, Requested(s, i, generation));
  }

  lemma ReadRequestedOut(s: Server, i: nat, generation: nat, env: Engine)
    requires Inv(s) && Guarding(s) && QueueIn(s) && Idle(s, i, generation)
    ensures Guarding(ReadRequested(s, i, generation, env))
  {
    hide Inv, Guarding, LeasesOk, AfterAcquire, StandingOf, Requested, Drained;
    var (w, l) := AfterAcquire(s.leases, i);
    if w.Some? || s.queue == [] {
      RequestedOut(s, i, generation);
    } else {
      var t := s.(leases := l);
      InvLeases(s);
      AcquireKeeps(s.leases, i, |s.slots|);
      AcquireGains(s.leases, i, |s.slots|);
      GainKeeps(s, l, i);
      FlagsOut(s, t);
      DrainedOut(t, env);
      RequestedOut(Drained(t, env), i, generation);
    }
  }

  lemma WrittenOut(s: Server, i: nat, o: Outcome)
    requires Inv(s) && Guarding(s) && i < |s.slots| && s.slots[i].open
    ensures Guarding(Written(s, i, o))
  {
    hide OutOk, SendsOk, SendOk, Inv, Completed, Written, FlushedSlot;
    var slot, e := s.slots[i], SentEvent(s.slots[i], i, o, OnWritable, s.durable);
    var w := WrittenSlot(slot, o);
    var t := s.(slots := s.slots[i := w], tick := s.tick + 1, log := s.log + [e]);
    OutAt(s, i);
    if slot.response.Some? { ResponseAt(s, i); }
    SendingOk(slot, i, o, OnWritable, s.log, s.durable, s.tick);
    SendsGrow(s.log, e);
    FlushedOutOk(slot, i, o, OnWritable, s.log, s.durable, s.tick);
    var f := FlushedSlot(slot, o);
    OutStays(f, i, s.log + [e], i, [], s.durable, s.durable, s.tick, s.tick + 1);
    assert s.log + [e] + [] == s.log + [e];
    PlainAppended(f, if f.out.bytes == [] && slot.conn.owes then o.wrote else 0, i, s.log + [e], s.durable, s.tick + 1);
    OutsChange(s, t, i, [e]);
    UnfoldWritten(s, i, o);
    CompletedOut(t, i, o.finish);
  }

  lemma DispatchedOut(s: Server, i: nat, generation: nat, readable: bool, writable: bool, ready: bool, env: Engine)
    requires Inv(s) && Guarding(s) && QueueIn(s)
    ensures Guarding(Dispatched(s, i, generation, readable, writable, ready, env))
  {
    hide Inv, Guarding, Completed, ReadRequested, Written, StandingOf;
    if i < |s.slots| && s.slots[i].generation == generation && s.slots[i].open && !s.slots[i].pending {
      if readable && !s.slots[i].wantRead {
      } else if readable && !ready {
        CompletedOut(s, i, Close);
      } else if readable {
        ReadingNotParked(s, i);
        ReadRequestedOut(s, i, generation, env);
      } else if writable {
        WrittenOut(s, i, env(s.tick));
      } else {
        CompletedOut(s, i, Continue);
      }
    }
  }

  lemma RetryRequestedOut(s: Server, i: nat, env: Engine)
    requires Inv(s) && Guarding(s) && QueueIn(s) && i < |s.slots|
    ensures Guarding(RetryRequested(s, i, env))
  {
    hide Inv, Guarding, AfterTryAcquire, Drained;
    DrainedOut(s, env);
    var t := if AfterTryAcquire(s.leases, i).0.None? && s.queue != [] then Drained(s, env) else s;
    FlagsOut(t, RetryRequested(s, i, env));
  }

  lemma {:induction false} RetriedOut(s: Server, i: nat, env: Engine)
    requires Inv(s) && Guarding(s) && QueueIn(s) && QueuedBelow(s, i) && i <= |s.slots|
    ensures Guarding(RetriedFrom(s, i, env))
    decreases |s.slots| - i
  {
    hide Inv, Guarding, RetryRequested;
    if i < |s.slots| {
      if !s.slots[i].open || s.slots[i].response.Some? {
        RetriedOut(s, i + 1, env);
      } else {
        RetryRequestedKeeps(s, i, env);
        RetryRequestedOut(s, i, env);
        RetriedOut(RetryRequested(s, i, env), i + 1, env);
      }
    }
  }

  lemma {:induction false} WaitersWokenOut(s: Server, passes: nat, env: Engine)
    requires Inv(s) && Guarding(s) && QueueIn(s) && s.queue == []
    ensures Guarding(WaitersWoken(s, passes, env))
    decreases passes
  {
    hide Inv, Guarding, RetriedFrom, Drained, IsQueued;
    if passes > 0 {
      var u := RetriedFrom(s, 0, env);
      RetriedKeeps(s, 0, env);
      RetriedOut(s, 0, env);
      DrainedKeeps(u, env, 0);
      DrainedOut(u, env);
      var t := Drained(u, env);
      TickKeeps(t, t.tick + 1);
      FlagsOut(t, t.(tick := t.tick + 1));
      if !env(t.tick).stable {
        WaitersWokenOut(t.(tick := t.tick + 1), passes - 1, env);
      }
    }
  }

  // ---------------------------------------------------------------- the barrier

  /** An error takes its output back, or leaves some of it behind and says so. */
  lemma ErrorOut(slot: Slot, i: nat, o: Outcome, log: seq<Event>, durable: nat, tick: nat)
    requires slot.open && OutOk(slot, i, log, durable, tick) && Errs(slot, durable, true)
      && !Panics(slot, durable, true)
    ensures OutOk(ErrorSlot(slot, o).(response := None), i, log + Leftover(slot, i), durable, tick)
  {
    var r := slot.response.value;
    var cut := Truncated(slot.out, r.mark.value);
    var t := slot.(out := cut, response := None);
    var clip := Leftover(slot, i);
    forall k | 0 <= k < |cut.bytes| ensures ByteOk(cut.bytes[k], None, i, log + clip, durable, tick) {
      var b := slot.out.bytes[k];
      assert cut.bytes[k] == b && ByteOk(b, slot.response, i, log, durable, tick);
      if b.Guarded? {
        if Stranded(log, i, b.id) { StrandedStays(log, clip, i, b.id); }
        if b.id == r.id {
          assert clip == [Clipped(i, r.id)];
          assert StrandedAt(log + clip, |log|, i, r.id);
        }
      }
    }
    PlainAppended(t, o.wrote, i, log + clip, durable, tick);
    ReadIgnored(t.(out := Appended(cut, o.wrote, Plain)), ErrorSlot(slot, o).(response := None), i, log + clip,
                durable, tick);
  }

  /** A response that is finished without an error leaves nothing early behind. */
  lemma CleanOut(slot: Slot, i: nat, log: seq<Event>, durable: nat, tick: nat)
    requires slot.open && OutOk(slot, i, log, durable, tick) && slot.response.Some?
    requires ResponseOk(slot.response.value, durable)
    requires !Behind(slot.response.value, durable)
      || forall k :: 0 <= k < |slot.out.bytes| ==> !Of(slot.out.bytes[k], slot.response.value.id)
    ensures OutOk(slot.(response := None), i, log, durable, tick)
  {
    forall k | 0 <= k < |slot.out.bytes| ensures ByteOk(slot.out.bytes[k], None, i, log, durable, tick) {
      assert ByteOk(slot.out.bytes[k], slot.response, i, log, durable, tick);
    }
  }

  lemma FinishingOut(slot: Slot, i: nat, o: Outcome, log: seq<Event>, durable: nat, failed: bool, tick: nat)
    requires slot.open && OutOk(slot, i, log, durable, tick) && Finishes(slot, durable, failed)
    requires ResponseOk(slot.response.value, durable) && !StandingOf(log, i).Absent?
    ensures var clip := if Errs(slot, durable, failed) then Leftover(slot, i) else [];
      OutOk(ToldSlot(slot, o, durable, failed), i, log + clip, durable, tick)
  {
    if Errs(slot, durable, failed) {
      ErrorOut(slot, i, o, log, durable, tick);
    } else {
      CleanOut(slot, i, log, durable, tick);
      assert log + [] == log;
    }
  }

  lemma DoneOut(slot: Slot, i: nat, e: Event, log: seq<Event>, durable: nat, tick: nat)
    requires slot.response.None? && OutOk(slot, i, log, durable, tick)
    ensures OutOk(slot, i, log + [e], durable, tick)
  {
    if slot.open {
      forall k | 0 <= k < |slot.out.bytes| ensures ByteOk(slot.out.bytes[k], None, i, log + [e], durable, tick) {
        ByteStays(slot.out.bytes[k], None, i, log, [e], durable, durable, tick, tick);
      }
    }
  }

  /** A mark that has not moved is a good place to truncate, and leaves nothing behind. */
  lemma ExactMark(slot: Slot, i: nat, log: seq<Event>, durable: nat, tick: nat)
    requires slot.open && OutOk(slot, i, log, durable, tick) && Errs(slot, durable, true)
    requires !StandingOf(log, i).Absent? && StandingOf(log, i).place.exact
    ensures !Panics(slot, durable, true) && Leftover(slot, i) == []
  {
    var r, p := slot.response.value, StandingOf(log, i).place;
    LeadLies(slot.out.bytes, r.id, p.ahead, p.own);
  }

  lemma ClipOk(s: Server, i: nat)
    requires Inv(s) && OutsOk(s) && SendsOk(s.log) && i < |s.slots| && Errs(s.slots[i], s.durable, true)
    ensures Panics(s.slots[i], s.durable, true) ==> SendsOk(s.log + [Panicked(i)])
    ensures !Panics(s.slots[i], s.durable, true) ==> SendsOk(s.log + Leftover(s.slots[i], i))
  {
    hide OutOk, SendsOk, Inv;
    var slot := s.slots[i];
    OutAt(s, i);
    ResponseAt(s, i);
    var st := StandingOf(s.log, i);
    if st.place.exact { ExactMark(slot, i, s.log, s.durable, s.tick); }
    if Panics(slot, s.durable, true) {
      assert (s.log + [Panicked(i)])[..|s.log|] == s.log;
      SendsGrow(s.log, Panicked(i));
    } else if Leftover(slot, i) != [] {
      var e := Clipped(i, slot.response.value.id);
      assert Leftover(slot, i) == [e] && (s.log + [e])[..|s.log|] == s.log;
      SendsGrow(s.log, e);
    } else {
      assert s.log + [] == s.log;
    }
  }

  lemma FinishedAtOut(s: Server, i: nat, failed: bool, env: Engine)
    requires Inv(s) && Guarding(s) && i < |s.slots|
    ensures Guarding(FinishedAt(s, i, failed, env))
  {
    hide OutOk, SendsOk, SendOk, Inv, Completed, FinishedAt, FlushedSlot, ErrorSlot, Leftover;
    var slot, o := s.slots[i], env(s.tick);
    UnfoldFinished(s, i, failed, env);
    OutAt(s, i);
    if Finishes(slot, s.durable, failed) {
      ResponseAt(s, i);
      var clip := if Errs(slot, s.durable, failed) then Leftover(slot, i) else [];
      var done := Finished(i, slot.response.value, s.durable, failed && Behind(slot.response.value, s.durable));
      var told := ToldSlot(slot, o, s.durable, failed);
      var sent := SentEvent(told, i, o, AtBarrier, s.durable);
      var one := s.log + clip;
      var two := one + [done];
      FinishingOut(slot, i, o, s.log, s.durable, failed, s.tick);
      if Errs(slot, s.durable, failed) {
        ErrsFails(slot, s.durable, failed);
        ClipOk(s, i);
      } else {
        assert one == s.log;
      }
      SilentGrows(one, done);
      ToldOpen(slot, o, s.durable, failed);
      DoneOut(told, i, done, one, s.durable, s.tick);
      SendingOk(told, i, o, AtBarrier, two, s.durable, s.tick);
      SendsGrow(two, sent);
      FlushedOutOk(told, i, o, AtBarrier, two, s.durable, s.tick);
      var events := FinishEvents(slot, i, o, s.durable, failed);
      assert two + [sent] == s.log + events;
      var t := s.(slots := s.slots[i := FlushedSlot(told, o)], tick := s.tick + 1, log := s.log + events);
      OutStays(FlushedSlot(told, o), i, s.log + events, i, [], s.durable, s.durable, s.tick, s.tick + 1);
      assert s.log + events + [] == s.log + events;
      FinishLog(s, i, o, failed);
      OutsChange(s, t, i, events);
      CompletedOut(t, i, o.finish);
    } else if Panics(slot, s.durable, failed) {
      PanicOut(s, i, failed);
    }
  }

  lemma ErrsFails(slot: Slot, durable: nat, failed: bool)
    requires Errs(slot, durable, failed)
    ensures failed && (Finishes(slot, durable, failed) ==> !Panics(slot, durable, true))
  {
  }

  lemma SilentGrows(log: seq<Event>, e: Event)
    requires SendsOk(log) && Silent(e)
    ensures SendsOk(log + [e])
  {
    SendsGrow(log, e);
  }

  lemma ToldOpen(slot: Slot, o: Outcome, durable: nat, failed: bool)
    requires Finishes(slot, durable, failed)
    ensures ToldSlot(slot, o, durable, failed).open == slot.open && ToldSlot(slot, o, durable, failed).response.None?
  {
  }

  lemma PanicOut(s: Server, i: nat, failed: bool)
    requires Inv(s) && Guarding(s) && i < |s.slots| && Panics(s.slots[i], s.durable, failed)
    ensures Guarding(s.(down := true, log := s.log + [Panicked(i)]))
  {
    hide OutOk, SendsOk, Inv;
    ClipOk(s, i);
    OutAt(s, i);
    var t := s.(down := true, log := s.log + [Panicked(i)]);
    Panicking(s.slots[i], i, s.log, s.durable, s.tick);
    OutsChange(s, t, i, [Panicked(i)]);
  }

  lemma Panicking(slot: Slot, i: nat, log: seq<Event>, durable: nat, tick: nat)
    requires OutOk(slot, i, log, durable, tick)
    ensures OutOk(slot, i, log + [Panicked(i)], durable, tick)
  {
    StandingNext(log, Panicked(i), i);
    if slot.open {
      forall k | 0 <= k < |slot.out.bytes|
        ensures ByteOk(slot.out.bytes[k], slot.response, i, log + [Panicked(i)], durable, tick)
      {
        ByteStays(slot.out.bytes[k], slot.response, i, log, [Panicked(i)], durable, durable, tick, tick);
      }
    }
  }

  lemma {:induction false} FinishedOut(s: Server, i: nat, failed: bool, env: Engine)
    requires Inv(s) && Guarding(s) && i <= |s.slots| && s.queue == []
    ensures Guarding(FinishedFrom(s, i, failed, env))
    decreases |s.slots| - i
  {
    hide Inv, Guarding, FinishedAt;
    if i < |s.slots| && !s.down {
      FinishedAtKeeps(s, i, failed, env);
      FinishedAtOut(s, i, failed, env);
      FinishedOut(FinishedAt(s, i, failed, env), i + 1, failed, env);
    }
  }

  // ---------------------------------------------------------------- the rest of a turn

  lemma PublishedOut(s: Server, lsn: nat)
    requires Guarding(s)
    ensures Guarding(Published(s, lsn))
  {
    hide OutOk, SendsOk;
    if s.durable <= lsn <= s.journal {
      forall j | 0 <= j < |s.slots| ensures OutOk(s.slots[j], j, s.log, lsn, s.tick) {
        OutAt(s, j);
        OutStays(s.slots[j], j, s.log, j, [], s.durable, lsn, s.tick, s.tick);
        assert s.log + [] == s.log;
      }
    }
  }

  lemma AcceptedOut(s: Server, i: nat)
    requires Inv(s) && Guarding(s) && i < |s.slots| && !s.slots[i].open
    ensures Guarding(Accepted(s, i))
  {
    hide SendsOk;
    assert SlotOk(s.slots[i], i, i in s.leases.waiters, s.log, s.durable);
    assert s.log + [] == s.log;
    OutsChange(s, Accepted(s, i), i, []);
  }

  lemma NotifiedOut(s: Server, i: nat, n: nat)
    requires Guarding(s) && i < |s.slots|
    ensures Guarding(Notified(s, i, n))
  {
    hide OutOk, SendsOk;
    var t := s.(slots := s.slots[i := s.slots[i].(out := Appended(s.slots[i].out, n, Plain))]);
    OutAt(s, i);
    PlainAppended(s.slots[i], n, i, s.log, s.durable, s.tick);
    assert s.log + [] == s.log;
    OutsChange(s, t, i, []);
    ReconciledOut(t, i);
  }

  lemma ExpelledOut(s: Server, i: nat, n: nat)
    requires Guarding(s) && i < |s.slots|
    ensures Guarding(Expelled(s, i, n))
  {
    hide SendsOk;
    var slot := s.slots[i].(out := Appended(EMPTY, n, Plain), conn := Ended(s.slots[i].conn));
    var t := s.(slots := s.slots[i := slot], log := s.log + [Cleared(i)]);
    StandingNext(s.log, Cleared(i), i);
    SilentGrows(s.log, Cleared(i));
    OutsChange(s, t, i, [Cleared(i)]);
    ReconciledOut(t, i);
  }

  lemma SettledOut(s: Server, i: nat)
    requires Guarding(s) && i < |s.slots|
    ensures Guarding(Settled(s, i))
  {
    hide OutOk, SendsOk;
    var t := s.(slots := s.slots[i := s.slots[i].(conn := s.slots[i].conn.(staged := None))]);
    OutAt(s, i);
    ReadIgnored(s.slots[i], t.slots[i], i, s.log, s.durable, s.tick);
    assert s.log + [] == s.log;
    OutsChange(s, t, i, []);
    ReleasedOut(t, i);
  }
}
