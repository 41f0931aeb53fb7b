/** What each step of the reactor does to the connection it is about. */
module ServerEffects {
  import opened Options
  import opened WorkspaceLeases
  import opened SendBuffers
  import opened ServerCore
  import opened ServerInvariant
  import opened ServerSteps
  import Runs = ServerRuns
  import Wake = ServerWake
  import opened ServerGate

  // ---------------------------------------------------------------- output and interest

  /** A flush sends the front of the unsent bytes, as much as the socket takes, and keeps the rest. A
      connection that is flushing its last words starts to drain when nothing is left to send. */
  lemma FlushSends(s: Server, i: nat, o: Outcome, cause: Cause)
    requires i < |s.slots|
    ensures var t := Flushed(s, i, o, cause); var (was, slot) := (s.slots[i], t.slots[i]);
      && (exists bytes :: t.log == s.log + [Sent(i, cause, Holding(was, s.durable), bytes, s.durable)]
                          && bytes + slot.out.bytes == was.out.bytes
                          && (|bytes| == o.accepted || (slot.out.bytes == [] && |bytes| < o.accepted)))
      && slot.conn.owes == o.conn.owes
      && (slot.conn.ending.Draining? <==>
            (was.conn.ending.Draining? || (was.conn.ending.Flushing? && slot.out.bytes == [] && !slot.conn.owes)))
      && (slot.conn.ending.Running? <==> was.conn.ending.Running?)
      && slot == was.(out := slot.out, conn := was.conn.(owes := slot.conn.owes, ending := slot.conn.ending))
      && t == s.(slots := s.slots[i := slot], log := t.log)
  {
    var out := s.slots[i].out;
    ConsumedBytes(out, Taken(o.accepted, out));
    assert out.bytes[..Taken(o.accepted, out)] + out.bytes[Taken(o.accepted, out)..] == out.bytes;
  }

  /** A connection that goes on is read from exactly while it can run or is draining, and written to
      exactly while it has something to send. */
  lemma InterestFollows(s: Server, i: nat)
    requires i < |s.slots|
    ensures var t := Completed(s, i, Continue); var slot := t.slots[i];
      && (slot.wantRead <==> slot.conn.ending.Draining? || (slot.conn.ending.Running? && !slot.conn.parked))
      && (slot.wantWrite <==> slot.out.bytes != [] || slot.conn.owes)
      && slot == s.slots[i].(wantRead := slot.wantRead, wantWrite := slot.wantWrite)
      && t.leases == s.leases && t.queue == s.queue
      && t.log == s.log + if slot.wantRead && slot.response.Some? then [Resumed(i)] else []
  {
    assert s.log + [] == s.log;
  }

  /** What is unsent after a writable event: what the socket did not take, and, when everything is out and
      more was owed, that. */
  lemma WrittenBytes(slot: Slot, o: Outcome)
    ensures var t := WrittenSlot(slot, o); var n := Taken(o.accepted, slot.out);
      && t.out.bytes == slot.out.bytes[n..]
           + Repeated(Plain, if n == |slot.out.bytes| && slot.conn.owes then o.wrote else 0)
      && t == slot.(conn := t.conn, out := t.out) && t.conn.owes == o.conn.owes
  {
    hide Appended, Consumed, Repeated;
    var f := FlushedSlot(slot, o);
    ConsumedBytes(slot.out, Taken(o.accepted, slot.out));
    AppendedBytes(f.out, if f.out.bytes == [] && slot.conn.owes then o.wrote else 0, Plain);
  }

  /** A writable event flushes; then the connection ends or its interest is renewed, as the transport
      says. It sends past a response that is held back, and the history says so. */
  lemma WritableFlushes(s: Server, i: nat, ready: bool, env: Engine)
    requires Inv(s) && QueueIn(s) && i < |s.slots| && s.slots[i].open && !s.slots[i].pending
    ensures var t := Dispatched(s, i, s.slots[i].generation, false, true, ready, env); var o := env(s.tick);
      var (was, slot) := (s.slots[i], t.slots[i]);
      && t.tick == s.tick + 1 && t.queue == s.queue && |t.log| > |s.log|
      && t.log[|s.log|] == SentEvent(was, i, o, OnWritable, s.durable)
      && slot.out == WrittenSlot(was, o).out && slot.open == o.finish.Continue?
      && (o.finish.Continue? ==> slot.wantWrite == (slot.out.bytes != [] || o.conn.owes))
      && (o.finish.Close? ==> !Wake.Holds(t.leases, i) && t.log == s.log + [t.log[|s.log|], Gone(i)])
  {
    hide LeasesOk, Inv, WrittenSlot, Released, Written;
    var o, slot := env(s.tick), s.slots[i];
    UnfoldWritten(s, i, o);
    WrittenBytes(slot, o);
    InvLeases(s);
    var e := SentEvent(slot, i, o, OnWritable, s.durable);
    var u := s.(slots := s.slots[i := WrittenSlot(slot, o)], tick := s.tick + 1, log := s.log + [e]);
    if o.finish.Close? {
      ReleasedShuts(u, i);
      ReleasedOut(u, i);
      assert u.log + [Gone(i)] == s.log + [e, Gone(i)];
    }
  }

  lemma ReleasedOut(s: Server, i: nat)
    requires i < |s.slots|
    ensures Released(s, i).slots[i].out == s.slots[i].out
  {
    hide AfterCancel;
    var (h, l) := AfterCancel(s.leases, i);
    WokenSlots(s.(leases := l, slots := s.slots[i := ClosedSlot(s.slots[i])], log := s.log + [Gone(i)]), h);
  }

  // ---------------------------------------------------------------- dispatches

  /** A retry always reaches the engine; input does when it is guarded. */
  predicate ReachesEngine(d: Dispatch, o: Outcome)
  {
    match d.kind
    case Readable => o.guarded
    case Retry => true
  }

  /** A retry is run when its statement is still parked and the engine is ready for it. */
  predicate Proceeds(s: Server, o: Outcome)
    requires s.queue != [] && QueueIn(s)
  {
    s.queue[0].kind.Readable? || (s.slots[s.queue[0].owner].conn.parked && o.ready)
  }

  /** A retry that the engine declines gives its workspace back and changes nothing else about the
      connection. */
  lemma DeclineRestores(s: Server, env: Engine)
    requires Inv(s) && s.queue != [] && QueueIn(s) && !Proceeds(s, env(s.tick))
    ensures var t := Executed(s, env); var i := s.queue[0].owner;
      && t.queue == s.queue[1..] && t.journal == s.journal && t.log == s.log && t.tick == s.tick + 1
      && t.slots[i] == s.slots[i].(pending := false)
      && !Wake.Holds(t.leases, i)
  {
    hide Inv, LeasesOk, AfterRelease;
    InvLeases(s);
    var i := s.queue[0].owner;
    HolderNotWaiting(s, i);
    Wake.DequeuedOwner(s, s.slots[i].(pending := false), s.journal);
    OwnSlotStays(s, s.slots[i].(pending := false), s.journal);
  }

  lemma OwnSlotStays(s: Server, slot: Slot, journal: nat)
    requires LeasesOk(s.leases, |s.slots|) && s.queue != [] && QueueIn(s) && s.queue[0].owner !in s.leases.waiters
    ensures Dequeued(s, slot, journal).slots[s.queue[0].owner] == slot
    ensures s.queue[0].owner !in Dequeued(s, slot, journal).leases.waiters
  {
    hide LeasesOk, AfterRelease;
    var i := s.queue[0].owner;
    var (h, l) := AfterRelease(s.leases, i);
    ReleaseLoses(s.leases, i, |s.slots|);
    WokenLeaves(Popped(s, slot, journal).(leases := l), h, i);
  }

  /** What a dispatch writes follows the bytes that were unsent; what it has sent is missing from the
      front, and the history has it. */
  ghost predicate Wrote(s: Server, t: Server, i: nat, n: nat, b: Byte, lsn: nat)
    requires i < |s.slots| == |t.slots|
  {
    var all, now := s.slots[i].out.bytes + Repeated(b, n), t.slots[i].out.bytes;
    && |now| <= |all| && now == all[|all| - |now|..]
    && (|now| < |all| ==>
          && |t.log| > |s.log|
          && t.log[|s.log|] == Sent(i, InDispatch(s.tick, lsn), Holding(s.slots[i], s.durable),
                                    all[..|all| - |now|], s.durable))
  }

  /** A dispatch that goes on is answered by a response: it carries the call's number, the journal before
      and after, and the place where its output starts if the engine was reached; it waits for the
      journal it wrote, or else for the commit it has staged. Its output follows what was unsent, and speaks
      of what it waits for, or else of the commit that it completed. */
  lemma DispatchAnswers(s: Server, env: Engine)
    requires Inv(s) && s.queue != [] && QueueIn(s) && Proceeds(s, env(s.tick)) && env(s.tick).after.Continue?
    ensures var t := Executed(s, env); var o, d := env(s.tick), s.queue[0];
      var (was, slot) := (s.slots[d.owner], t.slots[d.owner]);
      && t.queue == s.queue[1..] && t.tick == s.tick + 1
      && t.journal == s.journal + (if ReachesEngine(d, o) then o.advance else 0)
      && slot.open && !slot.pending && !Wake.Holds(t.leases, d.owner) && slot.response.Some?
      && var r := slot.response.value;
         && r.id == s.tick && r.before == s.journal && r.after == t.journal
         && r.mark == (if ReachesEngine(d, o) then Some(was.out.start + |was.out.bytes|) else None)
         && r.held == was.conn.staged && r.staged == slot.conn.staged
         && (r.after > r.before ==> r.required == Some(r.after))
         && (r.after == r.before ==>
               r.required == if r.staged.Some? && r.staged.value.journal then Some(r.staged.value.lsn) else None)
         && Needs(r) == (if r.required.Some? then r.required.value
                         else if was.conn.staged.Some? && was.conn.staged.value.journal then was.conn.staged.value.lsn
                         else 0)
         && (!ReachesEngine(d, o) ==> slot.conn.staged == was.conn.staged && slot.conn.ending == was.conn.ending)
         && (o.cancel != Some(d.owner) ==>
               Wrote(s, t, d.owner, if ReachesEngine(d, o) then Volume(o.stream) + o.wrote else 0,
                     Guarded(s.tick, Needs(r)), Needs(r)))
  {
    hide Inv, LeasesOk, Dequeued, StreamEvents, PlaceOf, RunSlot, Wrote, Answer, Executed, Interrupted, Needs;
    var o, i, r := env(s.tick), s.queue[0].owner, Answer(s, env(s.tick));
    RunIs(s, env);
    AnswerIs(s, o);
    var u := Stored(Ready(s, o), i, r, s.queue[0].kind, PlaceOf(s, o));
    var t := Interrupted(u, o);
    CancelKeeps(u, o, i);
    if o.cancel != Some(i) { RunWrote(s, o, t); }
  }

  /** The state when the dispatch has run and given its workspace back. */
  function Ready(s: Server, o: Outcome): Server
    requires s.queue != [] && QueueIn(s)
  {
    Dequeued(Logged(s, StreamEvents(s, o)), RunSlot(s, o), Answer(s, o).after)
  }

  lemma RunIs(s: Server, env: Engine)
    requires Inv(s) && s.queue != [] && QueueIn(s) && Proceeds(s, env(s.tick))
    ensures var o, d := env(s.tick), s.queue[0]; var t := Ready(s, o);
      && Executed(s, env) == Answered(t, d.owner, Answer(s, o), d.kind, PlaceOf(s, o), o)
      && LeasesOk(t.leases, |t.slots|) && !Wake.Holds(t.leases, d.owner)
      && t.slots[d.owner] == RunSlot(s, o) && t.slots[d.owner].open
      && t.queue == s.queue[1..] && t.tick == s.tick + 1 && t.journal == Answer(s, o).after
      && t.log == s.log + StreamEvents(s, o)
  {
    hide Inv, LeasesOk, Dequeued, StreamEvents, PlaceOf, Answer, Answered, Output, Wake.Holds;
    var o, i := env(s.tick), s.queue[0].owner;
    InvLeases(s);
    HolderNotWaiting(s, i);
    var u := Logged(s, StreamEvents(s, o));
    Wake.DequeuedOwner(u, RunSlot(s, o), Answer(s, o).after);
    Wake.DequeuedLeases(u, RunSlot(s, o), Answer(s, o).after);
    OwnSlotStays(u, RunSlot(s, o), Answer(s, o).after);
    FrontMatches(s);
  }

  lemma AnswerIs(s: Server, o: Outcome)
    requires s.queue != [] && QueueIn(s)
    ensures var r, d, slot := Answer(s, o), s.queue[0], RunSlot(s, o); var was := s.slots[d.owner];
      && r.id == s.tick && r.before == s.journal
      && r.after == s.journal + (if ReachesEngine(d, o) then o.advance else 0)
      && r.mark == (if ReachesEngine(d, o) then Some(was.out.start + |was.out.bytes|) else None)
      && r.held == was.conn.staged && r.staged == slot.conn.staged
      && (r.after > r.before ==> r.required == Some(r.after))
      && (r.after == r.before ==>
            r.required == if r.staged.Some? && r.staged.value.journal then Some(r.staged.value.lsn) else None)
      && Needs(r) == (if r.required.Some? then r.required.value
                      else if was.conn.staged.Some? && was.conn.staged.value.journal then was.conn.staged.value.lsn
                      else 0)
      && (!ReachesEngine(d, o) ==> slot.conn == was.conn)
      && !slot.pending && slot.open == was.open && slot.response == was.response
  {
    hide Output;
  }

  /** Interrupting a statement changes neither a response nor a staged commit. */
  lemma CancelKeeps(s: Server, o: Outcome, i: nat)
    requires i < |s.slots|
    ensures var (was, slot) := (s.slots[i], Interrupted(s, o).slots[i]);
      && slot.response == was.response && slot.open == was.open && slot.pending == was.pending
      && slot.conn == was.conn.(parked := slot.conn.parked) && (o.cancel != Some(i) ==> slot == was)
      && s.log <= Interrupted(s, o).log
  {
    hide Appended;
  }

  lemma FrontMatches(s: Server)
    requires Inv(s) && s.queue != [] && QueueIn(s)
    ensures var d := s.queue[0]; s.slots[d.owner].open && s.slots[d.owner].generation == d.generation
  {
    assert QueuedOk(s, s.queue[0]);
  }

  lemma RunWrote(s: Server, o: Outcome, t: Server)
    requires s.queue != [] && QueueIn(s) && |t.slots| == |s.slots| && t.slots[s.queue[0].owner].out == RunSlot(s, o).out
    requires s.log + StreamEvents(s, o) <= t.log
    ensures var d, r := s.queue[0], Answer(s, o);
      Wrote(s, t, d.owner, (if ReachesEngine(d, o) then Volume(o.stream) else 0) + Rest(d, o), OwnByte(r, o), Needs(r))
  {
    hide Repeated, Poured, Answer, Obeyed, Needs;
    var d, r := s.queue[0], Answer(s, o);
    var was := s.slots[d.owner];
    var b, n := OwnByte(r, o), Volume(Chunks(d, o)) + Rest(d, o);
    PouredBytes(was.out, Chunks(d, o), Rest(d, o), b);
    RepeatedLength(b, n);
    AnswerNumber(s, o);
    var (sent, left) := Output(s, o);
    assert |was.out.bytes + Repeated(b, n)| - |left.bytes| == |sent|;
    assert n == (if ReachesEngine(d, o) then Volume(o.stream) else 0) + Rest(d, o);
    if sent != [] { assert StreamEvents(s, o)[0] == t.log[|s.log|]; }
  }

  lemma AnswerNumber(s: Server, o: Outcome)
    requires s.queue != [] && QueueIn(s)
    ensures Answer(s, o).id == s.tick
  {
  }

  /** The engine's answer for the connection is taken over: a statement that must wait parks, and a
      commit that is not yet durable stays staged. */
  lemma EngineObeyed(s: Server, env: Engine)
    requires Inv(s) && s.queue != [] && QueueIn(s) && Proceeds(s, env(s.tick)) && env(s.tick).after.Continue?
    requires ReachesEngine(s.queue[0], env(s.tick))
    ensures var o, i := env(s.tick), s.queue[0].owner;
      var (was, c) := (s.slots[i].conn, Executed(s, env).slots[i].conn);
      && c.ending == o.conn.ending && c.owes == o.conn.owes
      && c.staged == (if was.staged.Some? && was.staged.value.journal && was.staged.value.lsn > s.durable
                      then was.staged else o.conn.staged)
      && (o.cancel != Some(i) ==>
            (c.parked <==>
              (o.conn.parked
               || (c.staged.Some? && c.staged.value.journal && c.staged.value.lsn > s.durable && !o.ailing
                   && c.ending.Running?))))
  {
    hide Inv, LeasesOk, Dequeued, StreamEvents, PlaceOf, Output, Answer, Executed, Interrupted;
    var o, d := env(s.tick), s.queue[0];
    RunIs(s, env);
    CancelKeeps(Stored(Ready(s, o), d.owner, Answer(s, o), d.kind, PlaceOf(s, o)), o, d.owner);
  }

  /** A closing dispatch is answered at once: what it wrote is sent as far as the socket takes it, no
      response is buffered, and then the connection ends or goes on, as the transport says. */
  lemma ClosingAnswers(s: Server, env: Engine)
    requires Inv(s) && s.queue != [] && QueueIn(s) && Proceeds(s, env(s.tick)) && env(s.tick).after.Close?
    ensures var t := Executed(s, env); var o, d := env(s.tick), s.queue[0];
      var (was, slot) := (s.slots[d.owner], t.slots[d.owner]);
      && t.queue == s.queue[1..] && t.tick == s.tick + 1 && !Wake.Holds(t.leases, d.owner)
      && slot.open == o.finish.Continue?
      && slot.response == (if o.finish.Continue? then was.response else None)
      && (o.cancel != Some(d.owner) ==>
            Tail(was.out.bytes + Repeated(Plain, (if ReachesEngine(d, o) then Volume(o.stream) else 0) + o.wrote),
                 slot.out.bytes))
      && (o.finish.Continue? ==>
            (slot.wantRead <==>
              (slot.conn.ending.Draining? || (slot.conn.ending.Running? && !slot.conn.parked))))
  {
    hide Inv, LeasesOk, Dequeued, StreamEvents, PlaceOf, RunSlot, Consumed, Released, Answer, Executed, Wake.Holds,
      Interrupted;
    var o, i := env(s.tick), s.queue[0].owner;
    RunIs(s, env);
    AnswerIs(s, o);
    var u := Flushed(Ready(s, o), i, o, OnClose);
    var t := Interrupted(u, o);
    CancelKeeps(u, o, i);
    ClosingTail(s, o);
    if o.finish.Close? {
      ReleasedShuts(t, i);
      ReleasedOut(t, i);
    }
  }

  ghost predicate Tail(all: seq<Byte>, now: seq<Byte>)
  {
    |now| <= |all| && now == all[|all| - |now|..]
  }

  lemma ClosingTail(s: Server, o: Outcome)
    requires s.queue != [] && QueueIn(s) && o.after.Close?
    ensures var d := s.queue[0];
      var n := (if ReachesEngine(d, o) then Volume(o.stream) else 0) + o.wrote;
      Tail(s.slots[d.owner].out.bytes + Repeated(Plain, n), FlushedSlot(RunSlot(s, o), o).out.bytes)
  {
    hide Repeated, Poured, Consumed, Obeyed, Answer;
    var d := s.queue[0];
    var was := s.slots[d.owner];
    PouredBytes(was.out, Chunks(d, o), Rest(d, o), Plain);
    var (sent, left) := Output(s, o);
    var all := was.out.bytes + Repeated(Plain, Volume(Chunks(d, o)) + Rest(d, o));
    RepeatedLength(Plain, Volume(Chunks(d, o)) + Rest(d, o));
    ConsumedBytes(left, Taken(o.accepted, left));
    TailOfTail(all, |sent|, Taken(o.accepted, left));
  }

  lemma TailOfTail(all: seq<Byte>, m: nat, n: nat)
    requires m <= |all| && n <= |all| - m
    ensures Tail(all, all[m..][n..])
  {
    assert all[m..][n..] == all[m + n..];
  }

  // ---------------------------------------------------------------- the other steps

  /** A cancel request reaches exactly an open connection whose statement is parked and has staged no
      commit. It ends the wait and tells the client; the connection reads again when the bytes fit. */
  lemma CancelInterrupts(s: Server, o: Outcome)
    ensures var t := Interrupted(s, o);
      && (t != s ==> o.cancel.Some? && o.cancel.value < |s.slots|)
      && forall j :: 0 <= j < |s.slots| ==>
          var (was, slot) := (s.slots[j], t.slots[j]);
          if o.cancel == Some(j) && was.open && was.conn.parked && was.conn.staged.None? then
            && !slot.conn.parked && slot.out.bytes == was.out.bytes + Repeated(Plain, o.notice)
            && slot.conn == was.conn.(parked := false) && slot.response == was.response && slot.open
            && (o.told ==> slot.wantRead && slot.wantWrite == (slot.out.bytes != [] || slot.conn.owes))
            && (!o.told ==> slot.wantRead == was.wantRead)
          else slot == was
  {
    hide Appended;
    if o.cancel.Some? && o.cancel.value < |s.slots| { AppendedBytes(s.slots[o.cancel.value].out, o.notice, Plain); }
  }

  /** A parked statement is asked for again: it is queued for a retry, or every workspace is taken and
      nothing is left in the queue that could give one back. */
  lemma RetryHeld(s: Server, i: nat, env: Engine)
    requires Inv(s) && QueueIn(s) && QueuedBelow(s, i) && i < |s.slots|
    requires s.slots[i].open && s.slots[i].response.None?
    ensures var t := RetryRequested(s, i, env);
      if t.queue != [] && t.queue[|t.queue| - 1].owner == i
      then t.queue[|t.queue| - 1].kind.Retry? && t.slots[i].pending
      else t.queue == [] && None !in t.leases.owners && Some(i) !in t.leases.owners
  {
    hide Inv, LeasesOk, AfterTryAcquire, Drained, StandingOf;
    var t := if AfterTryAcquire(s.leases, i).0.None? && s.queue != [] then Drained(s, env) else s;
    DrainedKeeps(s, env, i);
    InvLeases(t);
    InvLeases(s);
    TryAcquireKeeps(s.leases, i, |s.slots|);
    TryAcquireKeeps(t.leases, i, |t.slots|);
  }

  /** A new connection is idle, reads, and has nothing to send, on a slot of the generation it finds. */
  lemma AcceptOpens(s: Server, i: nat, env: Engine)
    requires QueueIn(s) && !s.down && i < |s.slots|
    ensures var t := Runs.Step(s, Runs.Accept(i), env); var (was, slot) := (s.slots[i], t.slots[i]);
      && |t.slots| == |s.slots|
      && (if was.open || was.detached then t == s
          else slot.open && slot.wantRead && !slot.wantWrite && slot.out.bytes == [] && slot.out.start == 0
               && slot.conn == IDLE && slot.generation == was.generation)
      && t == s.(slots := s.slots[i := slot])
  {
  }

  /** A settled commit frees its slot for the next generation. */
  lemma SettleFrees(s: Server, i: nat, env: Engine)
    requires Inv(s) && QueueIn(s) && !s.down && i < |s.slots|
    ensures var t := Runs.Step(s, Runs.Settle(i), env); var (was, slot) := (s.slots[i], t.slots[i]);
      && |t.slots| == |s.slots|
      && if was.detached
            && (was.conn.staged.None? || !was.conn.staged.value.journal || was.conn.staged.value.lsn <= s.durable)
         then !slot.open && !slot.detached && slot.generation == Following(was.generation) && slot.conn.staged.None?
              && !Wake.Holds(t.leases, i)
         else t == s
  {
    hide Inv, LeasesOk, Released;
    InvLeases(s);
    if Runs.MaySettle(s, i) {
      ReleasedShuts(s.(slots := s.slots[i := s.slots[i].(conn := s.slots[i].conn.(staged := None))]), i);
    }
  }

  /** What was unsent makes way for the last words of an expelled connection, which ends: it is read from
      only to drain it, and its parked statement is given up. */
  lemma ExpelEnds(s: Server, i: nat, n: nat, env: Engine)
    requires QueueIn(s) && !s.down && i < |s.slots| && s.slots[i].open
    ensures var t := Runs.Step(s, Runs.Expel(i, n), env); var (was, slot) := (s.slots[i], t.slots[i]);
      && |t.slots| == |s.slots| && t.queue == s.queue && t.leases == s.leases
      && slot.open && slot.out.bytes == Repeated(Plain, n) && slot.response == was.response
      && !slot.conn.parked && !slot.conn.ending.Running? && slot.conn.staged == was.conn.staged
      && (slot.wantRead <==> was.conn.ending.Draining?) && (slot.wantWrite <==> n > 0 || was.conn.owes)
      && |t.log| > |s.log| && t.log[|s.log|] == Cleared(i)
  {
    AppendedBytes(EMPTY, n, Plain);
    assert [] + Repeated(Plain, n) == Repeated(Plain, n);
  }

  /** Publication moves the durable LSN forward, never past the journal. */
  lemma PublishAdvances(s: Server, lsn: nat)
    requires s.durable <= s.journal
    ensures var t := Published(s, lsn);
      && s.durable <= t.durable <= t.journal && t == s.(durable := t.durable)
      && (s.durable <= lsn <= s.journal ==> t.durable == lsn)
  {
  }

  /** A connection that is terminated is closed and keeps nothing. */
  lemma TerminateCloses(s: Server, i: nat, env: Engine)
    requires Inv(s) && QueueIn(s) && !s.down && i < |s.slots| && s.slots[i].open
    ensures var t := Runs.Step(s, Runs.Terminate(i), env);
      Shut(s, t, i) && t.queue == s.queue && t.log == s.log + [Gone(i)]
  {
    hide Inv, LeasesOk, Shut, Released;
    InvLeases(s);
    ReleasedShuts(s, i);
  }

  // ---------------------------------------------------------------- passes

  /** One pass: every connection that could be retried is, the queue is drained, and the engine is asked
      whether anything changed. */
  function Pass(s: Server, env: Engine): (r: Server)
    requires QueueIn(s)
    ensures QueueIn(r)
  {
    var t := Drained(RetriedFrom(s, 0, env), env);
    t.(tick := t.tick + 1)
  }

  function Passes(s: Server, n: nat, env: Engine): (r: Server)
    requires QueueIn(s)
    ensures QueueIn(r)
    decreases n
  {
    if n == 0 then s else Passes(Pass(s, env), n - 1, env)
  }

  /** Whether the pass that ended here changed no lock generation. */
  predicate Stable(s: Server, env: Engine)
  {
    s.tick > 0 && env(s.tick - 1).stable
  }

  /** Waking makes passes until one is stable, and stops there, or makes all it may. */
  lemma {:induction false} WakePasses(s: Server, passes: nat, env: Engine) returns (n: nat)
    requires QueueIn(s)
    ensures n <= passes && WaitersWoken(s, passes, env) == Passes(s, n, env)
    ensures forall k :: 0 < k < n ==> !Stable(Passes(s, k, env), env)
    ensures n == passes || (n > 0 && Stable(Passes(s, n, env), env))
    decreases passes
  {
    hide Drained, RetriedFrom;
    n := 0;
    if passes > 0 {
      var t := Pass(s, env);
      assert Passes(s, 1, env) == t by { assert Passes(t, 0, env) == t; }
      if Stable(t, env) {
        n := 1;
      } else {
        var m := WakePasses(t, passes - 1, env);
        n := m + 1;
        forall k | 0 < k < n ensures !Stable(Passes(s, k, env), env) {
          assert Passes(s, k, env) == Passes(t, k - 1, env);
        }
        assert Passes(s, n, env) == Passes(t, m, env);
      }
    }
  }

  // ---------------------------------------------------------------- finishing

  /** The response waits for more than is durable. */
  predicate StillWaits(r: Response, durable: nat)
  {
    match r.required
    case None => false
    case Some(lsn) => durable < lsn
  }

  /** What the client is told when a response is finished: what the dispatch wrote; or, when publication
      has failed and the dispatch may be taken back, an error in place of what was written after the mark. */
  function Told(slot: Slot, o: Outcome, durable: nat, failed: bool): seq<Byte>
    requires slot.response.Some?
  {
    var r := slot.response.value;
    if failed && StillWaits(r, durable) && r.mark.Some? && slot.out.start <= r.mark.value <= End(slot.out)
    then slot.out.bytes[..r.mark.value - slot.out.start] + Repeated(Plain, o.wrote)
    else slot.out.bytes
  }

  /** A response is finished when what it waits for is durable, or publication has failed. Then it is gone,
      the history says whether it failed, and the client is told, as far as the socket takes it. A failed
      commit ends its connection. */
  lemma FinishTells(s: Server, i: nat, failed: bool, env: Engine)
    requires Inv(s) && i < |s.slots| && s.slots[i].response.Some?
    requires var r := s.slots[i].response.value;
      failed && StillWaits(r, s.durable) && r.mark.Some? ==> s.slots[i].out.start <= r.mark.value <= End(s.slots[i].out)
    ensures var t := FinishedAt(s, i, failed, env); var o := env(s.tick); var (was, slot) := (s.slots[i], t.slots[i]);
      var r := was.response.value;
      if !failed && StillWaits(r, s.durable) then t == s
      else
        && slot.response.None? && slot.open == o.finish.Continue? && t.tick == s.tick + 1
        && Finished(i, r, s.durable, StillWaits(r, s.durable)) in t.log[|s.log|..]
        && (exists bytes :: Sent(i, AtBarrier, None, bytes, s.durable) in t.log[|s.log|..]
                            && bytes + slot.out.bytes == Told(was, o, s.durable, failed)
                            && (|bytes| == o.accepted || (slot.out.bytes == [] && |bytes| < o.accepted)))
        && (slot.conn.ending.Running? <==>
              (was.conn.ending.Running?
               && !(failed && StillWaits(r, s.durable) && r.mark.Some? && was.conn.staged.Some?)))
        && slot.conn.staged == was.conn.staged
  {
    hide LeasesOk, Completed, FinishedAt, FinishEvents, ToldSlot, FlushedSlot, StandingOf, Repeated;
    var slot, o := s.slots[i], env(s.tick);
    UnfoldFinished(s, i, failed, env);
    if Finishes(slot, s.durable, failed) {
      var told := ToldSlot(slot, o, s.durable, failed);
      var events := FinishEvents(slot, i, o, s.durable, failed);
      var u := s.(slots := s.slots[i := FlushedSlot(told, o)], tick := s.tick + 1, log := s.log + events);
      ToldBytes(slot, o, s.durable, failed);
      FlushedBytes(told, o);
      FinishHistory(slot, i, o, s.durable, failed);
      FinishedOpen(s, i);
      CompletedLast(u, i, o.finish);
      EventsLogged(s.log, events, Completed(u, i, o.finish).log);
    }
  }

  lemma FinishedOpen(s: Server, i: nat)
    requires Inv(s) && i < |s.slots| && s.slots[i].response.Some?
    ensures s.slots[i].open
  {
    assert SlotOk(s.slots[i], i, i in s.leases.waiters, s.log, s.durable);
  }

  lemma CompletedLast(s: Server, i: nat, after: After)
    requires i < |s.slots| && s.slots[i].open && s.slots[i].response.None?
    ensures var t := Completed(s, i, after);
      && s.log <= t.log && t.slots[i].open == after.Continue? && t.slots[i].response.None?
      && t.slots[i].out == s.slots[i].out && t.slots[i].conn == s.slots[i].conn && t.tick == s.tick
  {
    hide AfterCancel;
    if after.Close? {
      var (h, l) := AfterCancel(s.leases, i);
      WokenSlots(s.(leases := l, slots := s.slots[i := ClosedSlot(s.slots[i])], log := s.log + [Gone(i)]), h);
    }
  }

  lemma EventsLogged(log: seq<Event>, events: seq<Event>, later: seq<Event>)
    requires log + events <= later
    ensures forall e :: e in events ==> e in later[|log|..]
  {
    forall e | e in events ensures e in later[|log|..] {
      var k :| 0 <= k < |events| && events[k] == e;
      assert later[|log|..][k] == e;
    }
  }

  lemma ToldBytes(slot: Slot, o: Outcome, durable: nat, failed: bool)
    requires Finishes(slot, durable, failed)
    ensures var t := ToldSlot(slot, o, durable, failed); var r := slot.response.value;
      && t == slot.(out := t.out, conn := t.conn, response := None) && t.out.bytes == Told(slot, o, durable, failed)
      && (t.conn.ending.Running? <==>
            (slot.conn.ending.Running?
             && !(failed && StillWaits(r, durable) && r.mark.Some? && slot.conn.staged.Some?)))
      && t.conn.staged == slot.conn.staged
  {
    hide Repeated, Appended;
    var r := slot.response.value;
    if Errs(slot, durable, failed) { AppendedBytes(Truncated(slot.out, r.mark.value), o.wrote, Plain); }
  }

  lemma FlushedBytes(slot: Slot, o: Outcome)
    ensures var f := FlushedSlot(slot, o); var n := Taken(o.accepted, slot.out);
      && f == slot.(out := f.out, conn := f.conn) && f.out.bytes == slot.out.bytes[n..]
      && slot.out.bytes[..n] + slot.out.bytes[n..] == slot.out.bytes
      && (f.conn.ending.Running? <==> slot.conn.ending.Running?) && f.conn.staged == slot.conn.staged
  {
    hide Consumed;
    ConsumedBytes(slot.out, Taken(o.accepted, slot.out));
  }

  lemma FinishHistory(slot: Slot, i: nat, o: Outcome, durable: nat, failed: bool)
    requires Finishes(slot, durable, failed)
    ensures var t := ToldSlot(slot, o, durable, failed); var events := FinishEvents(slot, i, o, durable, failed);
      && Finished(i, slot.response.value, durable, failed && StillWaits(slot.response.value, durable)) in events
      && Sent(i, AtBarrier, None, t.out.bytes[..Taken(o.accepted, t.out)], durable) in events
  {
    hide ErrorSlot, Leftover;
  }

  /** An event that is neither readable nor writable only renews the interest of its connection. */
  lemma EventRefreshes(s: Server, i: nat, ready: bool, env: Engine)
    requires QueueIn(s) && i < |s.slots| && s.slots[i].open && !s.slots[i].pending
    ensures var t := Dispatched(s, i, s.slots[i].generation, false, false, ready, env); var slot := t.slots[i];
      && (slot.wantRead <==> slot.conn.ending.Draining? || (slot.conn.ending.Running? && !slot.conn.parked))
      && (slot.wantWrite <==> slot.out.bytes != [] || slot.conn.owes)
      && slot == s.slots[i].(wantRead := slot.wantRead, wantWrite := slot.wantWrite)
      && t == s.(slots := s.slots[i := slot], log := t.log)
  {
  }
}
