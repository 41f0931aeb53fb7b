/** Executing the queue, answering socket events, waking parked statements and passing the barrier
    all keep the scheduler's invariant. */
module ServerSteps {
  import opened Options
  import opened WorkspaceLeases
  import opened SendBuffers
  import opened ServerCore
  import opened ServerInvariant

  // ---------------------------------------------------------------- what a step leaves alone

  /** A slot that is not queued keeps its connection and its response while others execute; if it
      reads, it goes on reading. */
  ghost predicate Untouched(s: Server, t: Server, i: nat)
    requires i < |s.slots|
  {
    && |t.slots| == |s.slots| && t.durable == s.durable
    && t.slots[i].open == s.slots[i].open && t.slots[i].generation == s.slots[i].generation
    && t.slots[i].response == s.slots[i].response && t.slots[i].pending == s.slots[i].pending
    && (StandingOf(s.log, i).Exposed? ==> StandingOf(t.log, i).Exposed?)
    && (s.slots[i].wantRead && !s.slots[i].conn.parked ==> t.slots[i].wantRead && !t.slots[i].conn.parked)
  }

  lemma UntouchedTrans(s: Server, t: Server, u: Server, i: nat)
    requires i < |s.slots| && Untouched(s, t, i) && Untouched(t, u, i)
    ensures Untouched(s, u, i)
  {
  }

  /** History about other slots, and slots that at most begin to read. */
  lemma UntouchedBy(s: Server, t: Server, i: nat, j: nat)
    requires j < |s.slots| == |t.slots| && j != i && t.durable == s.durable
    requires t.slots[j] == s.slots[j].(wantRead := t.slots[j].wantRead) && (s.slots[j].wantRead ==> t.slots[j].wantRead)
    requires s.log <= t.log && OnlyOf(t.log[|s.log|..], i)
    ensures Untouched(s, t, j)
  {
    StandingOther(s.log, t.log[|s.log|..], i, j);
    assert t.log == s.log + t.log[|s.log|..];
  }

  lemma {:induction false} WokenLeaves(s: Server, h: Option<Handoff>, x: nat)
    requires LeasesOk(s.leases, |s.slots|) && x < |s.slots| && x !in s.leases.waiters
      && (h.Some? ==> h.value.owner != x)
    ensures Woken(s, h).slots[x] == s.slots[x] && x !in Woken(s, h).leases.waiters
    decreases |s.leases.waiters| + (if h.Some? then 1 else 0)
  {
    hide LeasesOk, AfterCancel;
    if h.Some? {
      var i := h.value.owner;
      if i >= |s.slots| || !s.slots[i].open || !WantsRead(s.slots[i].conn) {
        var (next, l) := AfterCancel(s.leases, i);
        CancelLoses(s.leases, i, |s.slots|);
        CancelShortens(s.leases, i);
        WokenLeaves(s.(leases := l), next, x);
      }
    }
  }

  // ---------------------------------------------------------------- cancel requests

  /** A parked statement is queued only to be retried, which interrupting it does not spoil. */
  lemma QueueKeepsParked(s: Server, j: nat, slot: Slot)
    requires QueueOk(s) && j < |s.slots| && s.slots[j].conn.parked
    requires slot ==
      s.slots[j].(conn := slot.conn, out := slot.out, wantRead := slot.wantRead, wantWrite := slot.wantWrite)
    ensures QueueOk(s.(slots := s.slots[j := slot]))
  {
    var t := s.(slots := s.slots[j := slot]);
    forall k | 0 <= k < |t.queue| ensures QueuedOk(t, t.queue[k]) {
      assert QueuedOk(s, s.queue[k]);
    }
    forall i | 0 <= i < |t.slots| && t.slots[i].pending ensures IsQueued(t, i) {
      assert IsQueued(s, i);
      var k :| 0 <= k < |s.queue| && s.queue[k].owner == i;
      assert t.queue[k].owner == i;
    }
  }

  /** The interrupted slot itself. */
  lemma InterruptedSlot(s: Server, o: Outcome)
    requires Inv(s) && Interrupted(s, o) != s
    ensures var (j, t) := (o.cancel.value, Interrupted(s, o));
      && o.cancel.Some? && j < |s.slots| && s.slots[j].conn.parked && s.log <= t.log
      && t == s.(slots := s.slots[j := t.slots[j]], log := t.log)
      && t.slots[j] == s.slots[j].(conn := t.slots[j].conn, out := t.slots[j].out, wantRead := t.slots[j].wantRead,
                                   wantWrite := t.slots[j].wantWrite)
      && OnlyOf(t.log[|s.log|..], j) && LogOk(t.log, s.durable)
      && SlotOk(t.slots[j], j, j in s.leases.waiters, t.log, s.durable)
      && (StandingOf(s.log, j).Exposed? ==> StandingOf(t.log, j).Exposed?)
  {
    hide LeasesOk, Appended;
    var j, t := o.cancel.value, Interrupted(s, o);
    assert SlotOk(s.slots[j], j, j in s.leases.waiters, s.log, s.durable);
    assert t.slots == s.slots[j := t.slots[j]];
    if t.log != s.log {
      LogGrows(s.log, Resumed(j), s.durable);
      StandingNext(s.log, Resumed(j), j);
    }
  }

  lemma InterruptedKeeps(s: Server, o: Outcome, i: nat)
    requires Inv(s) && i < |s.slots|
    ensures Inv(Interrupted(s, o)) && Untouched(s, Interrupted(s, o), i)
    ensures IsQueued(s, i) <==> IsQueued(Interrupted(s, o), i)
  {
    hide LeasesOk, Interrupted, SlotOk, LogOk, StandingOf, OnlyOf;
    var t := Interrupted(s, o);
    if t != s {
      InterruptedSlot(s, o);
      var j := o.cancel.value;
      var slot, more := t.slots[j], t.log[|s.log|..];
      assert t.log == s.log + more;
      SlotsKeepSlot(s, j, slot, more);
      QueueKeepsParked(s, j, slot);
      QueueKeepsLog(s.(slots := s.slots[j := slot]), t.log);
      if i != j { UntouchedBy(s, t, j, i); }
    }
    SameQueue(s, t, i);
  }

  lemma SameQueue(s: Server, t: Server, i: nat)
    requires s.queue == t.queue
    ensures IsQueued(s, i) <==> IsQueued(t, i)
  {
    if IsQueued(s, i) {
      var k :| 0 <= k < |s.queue| && s.queue[k].owner == i;
      assert t.queue[k].owner == i;
    }
    if IsQueued(t, i) {
      var k :| 0 <= k < |t.queue| && t.queue[k].owner == i;
      assert s.queue[k].owner == i;
    }
  }

  // ---------------------------------------------------------------- executing one dispatch

  function Popped(s: Server, slot: Slot, journal: nat): Server
    requires s.queue != [] && QueueIn(s)
  {
    s.(slots := s.slots[s.queue[0].owner := slot], queue := s.queue[1..], journal := journal, tick := s.tick + 1)
  }

  lemma PoppedOthersQueued(s: Server, t: Server, j: nat)
    requires s.queue != [] && t.queue == s.queue[1..] && j != s.queue[0].owner
    ensures IsQueued(s, j) <==> IsQueued(t, j)
  {
    if IsQueued(s, j) {
      var k :| 0 <= k < |s.queue| && s.queue[k].owner == j;
      assert t.queue[k - 1].owner == j;
    }
    if IsQueued(t, j) {
      var k :| 0 <= k < |t.queue| && t.queue[k].owner == j;
      assert s.queue[k + 1].owner == j;
    }
  }

  lemma PoppedQueued(s: Server, slot: Slot, journal: nat, k: nat)
    requires QueueOk(s) && s.queue != [] && QueueIn(s) && k + 1 < |s.queue|
    ensures var t := Popped(s, slot, journal);
      t.queue[k] == s.queue[k + 1] && QueuedOk(t, t.queue[k]) && t.queue[k].owner != s.queue[0].owner
  {
    assert QueuedOk(s, s.queue[k + 1]);
  }

  /** The popped connection is no longer queued, and every other dispatch still is. */
  lemma PoppedQueue(s: Server, slot: Slot, journal: nat)
    requires QueueOk(s) && s.queue != [] && QueueIn(s) && !slot.pending
    ensures QueueOk(Popped(s, slot, journal)) && !IsQueued(Popped(s, slot, journal), s.queue[0].owner)
    ensures forall j :: j != s.queue[0].owner ==> (IsQueued(s, j) <==> IsQueued(Popped(s, slot, journal), j))
  {
    hide QueuedOk;
    var t, i := Popped(s, slot, journal), s.queue[0].owner;
    forall k | 0 <= k < |t.queue|
      ensures QueuedOk(t, t.queue[k]) && t.queue[k].owner != i && t.queue[k] == s.queue[k + 1]
    {
      PoppedQueued(s, slot, journal, k);
    }
    forall j: nat | j != i ensures IsQueued(s, j) <==> IsQueued(t, j) {
      PoppedOthersQueued(s, t, j);
    }
  }

  /** What a dispatch makes of its slot: no read interest, or the connection it had. */
  ghost predicate Runnable(s: Server, slot: Slot)
    requires s.queue != [] && QueueIn(s)
  {
    var was := s.slots[s.queue[0].owner];
    slot == was.(pending := false, conn := slot.conn, out := slot.out) && (slot.conn == was.conn || !was.wantRead)
  }

  lemma PoppedKeeps(s: Server, slot: Slot, journal: nat)
    requires Inv(s) && s.queue != [] && QueueIn(s) && Runnable(s, slot)
    ensures Inv(Popped(s, slot, journal))
  {
    hide LeasesOk;
    PoppedQueue(s, slot, journal);
    var t, i := Popped(s, slot, journal), s.queue[0].owner;
    assert s.log + [] == s.log;
    assert SlotOk(s.slots[i], i, i in s.leases.waiters, s.log, s.durable);
    SlotsKeepSlot(s, i, slot, []);
    assert SlotsOk(t);
  }

  /** Giving back the workspace does not change the connection that held it. */
  lemma DequeuedKeeps(s: Server, slot: Slot, journal: nat, j: nat)
    requires Inv(s) && s.queue != [] && QueueIn(s) && Runnable(s, slot) && j < |s.slots|
    ensures var t, i := Dequeued(s, slot, journal), s.queue[0].owner;
      && Inv(t) && !IsQueued(t, i) && i !in t.leases.waiters && t.slots[i] == slot
      && (!IsQueued(s, j) ==> Untouched(s, t, j) && !IsQueued(t, j))
  {
    var t, u, i := Dequeued(s, slot, journal), Popped(s, slot, journal), s.queue[0].owner;
    hide *;
    UnfoldDequeued(s, slot, journal);
    RunnableQuiet(s, slot);
    PoppedKeeps(s, slot, journal);
    InvParts(s);
    PoppedQueue(s, slot, journal);
    WithoutLeaseKeeps(u, i);
    HolderNotWaiting(s, i);
    InvLeases(s);
    ReleaseLoses(u.leases, i, |u.slots|);
    var (h, l) := AfterRelease(u.leases, i);
    LostOwner(u.leases, l, i, h);
    UnfoldWithoutLease(u, i);
    ReleaseLoses(u.leases, i, |u.slots|);
    WokenLeaves(u.(leases := l), h, i);
    SameQueue(u, t, i);
    SameQueue(u, t, j);
    if !IsQueued(s, j) {
      FrontQueued(s, i);
      PoppedOthers(s, slot, journal, j, t);
    }
  }

  lemma RunnableQuiet(s: Server, slot: Slot)
    requires s.queue != [] && QueueIn(s) && Runnable(s, slot)
    ensures !slot.pending
  {
  }

  lemma FrontQueued(s: Server, i: nat)
    requires s.queue != [] && s.queue[0].owner == i
    ensures IsQueued(s, i)
  {
  }

  lemma PoppedOthers(s: Server, slot: Slot, journal: nat, j: nat, t: Server)
    requires s.queue != [] && QueueIn(s) && j < |s.slots| && j != s.queue[0].owner
    requires SlotsKept(Popped(s, slot, journal), t) && t.log == s.log && t.durable == s.durable
    ensures Untouched(s, t, j)
  {
  }

  lemma UnfoldDequeued(s: Server, slot: Slot, journal: nat)
    requires s.queue != [] && QueueIn(s)
    ensures var i := s.queue[0].owner; var u := Popped(s, slot, journal);
      && i < |s.slots| && Dequeued(s, slot, journal) == WithoutLease(u, i) && |u.slots| == |s.slots|
      && u.slots[i] == slot && u.leases == s.leases && u.queue == s.queue[1..]
      && u.log == s.log && Dequeued(s, slot, journal).durable == s.durable
  {
  }

  lemma InvParts(s: Server)
    requires Inv(s)
    ensures QueueOk(s) && SlotsOk(s) && LogOk(s.log, s.durable)
  {
  }

  lemma LostOwner(l: Leases, m: Leases, x: nat, h: Option<Handoff>)
    requires LeaseLost(l, m, x, h) && x !in l.waiters
    ensures x !in m.waiters && (h.Some? ==> h.value.owner != x)
  {
  }

  lemma HolderNotWaiting(s: Server, i: nat)
    requires Inv(s) && s.queue != [] && s.queue[0].owner == i
    ensures i !in s.leases.waiters && i < |s.slots| && s.slots[i].open && s.slots[i].generation == s.queue[0].generation
    ensures s.slots[i].pending && (s.queue[0].kind.Readable? || s.slots[i].conn.parked ==> !s.slots[i].wantRead)
    ensures s.slots[i].response.None? ==> StandingOf(s.log, i).Absent?
    ensures s.slots[i].response.Some? ==> StandingOf(s.log, i).Exposed? && s.queue[0].kind.Readable?
  {
    assert QueuedOk(s, s.queue[0]);
    assert SlotOk(s.slots[i], i, i in s.leases.waiters, s.log, s.durable);
  }

  /** A response is buffered on a connection that cannot be read from; one that was there already
      belonged to a connection resumed while it waited. */
  lemma StoredKeeps(s: Server, i: nat, r: Response, kind: Kind, place: Place)
    requires Inv(s) && i < |s.slots| && !IsQueued(s, i) && s.slots[i].open
    requires !s.slots[i].wantRead && i !in s.leases.waiters && ResponseOk(r, s.durable)
    requires !StandingOf(s.log, i).Waits? && (StandingOf(s.log, i).Exposed? ==> kind.Readable?)
    ensures Inv(Stored(s, i, r, kind, place)) && !IsQueued(Stored(s, i, r, kind, place), i)
  {
    hide LeasesOk, ResponseOk;
    var slot, e := s.slots[i].(response := Some(r)), Buffered(i, r.id, kind, place);
    assert !slot.pending by { assert QueueOk(s); }
    assert (s.log + [e])[..|s.log|] == s.log;
    LogGrows(s.log, e, s.durable);
    StandingNext(s.log, e, i);
    assert SlotOk(s.slots[i], i, i in s.leases.waiters, s.log, s.durable);
    SlotChanges(s, i, slot, [e]);
  }

  /** Sending changes no standing but where its output lies. */
  lemma FlushedKeeps(s: Server, i: nat, o: Outcome, cause: Cause)
    requires Inv(s) && i < |s.slots| && !IsQueued(s, i)
    ensures Inv(Flushed(s, i, o, cause)) && !IsQueued(Flushed(s, i, o, cause), i)
  {
    hide LeasesOk, ResponseOk;
    var t := Flushed(s, i, o, cause);
    var e := t.log[|s.log|];
    assert !s.slots[i].pending by { assert QueueOk(s); }
    LogGrows(s.log, e, s.durable);
    StandingNext(s.log, e, i);
    assert SlotOk(s.slots[i], i, i in s.leases.waiters, s.log, s.durable);
    assert SlotOk(t.slots[i], i, i in s.leases.waiters, s.log + [e], s.durable);
    SlotChanges(s, i, t.slots[i], [e]);
    assert t == s.(slots := s.slots[i := t.slots[i]], log := s.log + [e]);
  }

  lemma AnsweredKeeps(s: Server, i: nat, r: Response, kind: Kind, place: Place, o: Outcome, j: nat)
    requires Inv(s) && i < |s.slots| && !IsQueued(s, i) && s.slots[i].open
    requires !s.slots[i].wantRead && i !in s.leases.waiters && ResponseOk(r, s.durable)
    requires !StandingOf(s.log, i).Waits? && (StandingOf(s.log, i).Exposed? ==> kind.Readable?)
    requires j < |s.slots|
    ensures Inv(Answered(s, i, r, kind, place, o))
    ensures j != i ==> Untouched(s, Answered(s, i, r, kind, place, o), j)
  {
    hide Inv, IsQueued, Woken, AfterCancel, ResponseOk, StandingOf, Untouched, Completed;
    if o.after.Close? {
      var u := Flushed(s, i, o, OnClose);
      FlushedKeeps(s, i, o, OnClose);
      var t := Interrupted(u, o);
      InterruptedKeeps(u, o, i);
      InterruptedKeeps(u, o, j);
      UntouchedOpen(u, t, i);
      CompletedKeeps(t, i, o.finish);
      if j != i {
        UntouchedBy(s, u, i, j);
        CompletedLeaves(t, i, o.finish, j);
        UntouchedTrans(s, u, t, j);
        UntouchedTrans(s, t, Completed(t, i, o.finish), j);
      }
    } else {
      var t := Stored(s, i, r, kind, place);
      StoredKeeps(s, i, r, kind, place);
      InterruptedKeeps(t, o, j);
      if j != i {
        UntouchedBy(s, t, i, j);
        UntouchedTrans(s, t, Interrupted(t, o), j);
      }
    }
  }

  lemma UntouchedOpen(s: Server, t: Server, i: nat)
    requires i < |s.slots| && Untouched(s, t, i)
    ensures t.slots[i].open == s.slots[i].open
  {
  }

  lemma CompletedLeaves(s: Server, i: nat, after: After, j: nat)
    requires i < |s.slots| && j < |s.slots| && j != i
    ensures Untouched(s, Completed(s, i, after), j)
  {
    if after.Close? {
      var (h, l) := AfterCancel(s.leases, i);
      var t := s.(leases := l, slots := s.slots[i := ClosedSlot(s.slots[i])]);
      t := t.(log := s.log + [Gone(i)]);
      WokenSlots(t, h);
      assert Completed(s, i, after) == Woken(t, h);
    }
    UntouchedBy(s, Completed(s, i, after), i, j);
  }

  /** No wakeup is lost: a workspace that is handed on ends with an open connection that reads, or
      free with nobody waiting. */
  lemma {:induction false} HandoffLands(s: Server, h: Handoff)
    requires LeasesOk(s.leases, |s.slots|)
    requires h.workspace < |s.leases.owners| && s.leases.owners[h.workspace] == Some(h.owner)
    ensures var t := Woken(s, Some(h));
      && |t.leases.owners| == |s.leases.owners|
      && match t.leases.owners[h.workspace]
         case None => t.leases.waiters == []
         case Some(i) => i < |t.slots| && t.slots[i].open && t.slots[i].wantRead
    decreases |s.leases.waiters|
  {
    var i, w := h.owner, h.workspace;
    if !s.slots[i].open || !WantsRead(s.slots[i].conn) {
      var (next, l) := AfterCancel(s.leases, i);
      CancelLoses(s.leases, i, |s.slots|);
      CancelHandsOn(s.leases, i, w, |s.slots|);
      CancelShortens(s.leases, i);
      if next.Some? { HandoffLands(s.(leases := l), next.value); }
    }
  }

  lemma CancelHandsOn(l: Leases, x: nat, w: nat, connections: nat)
    requires LeasesOk(l, connections) && w < |l.owners| && l.owners[w] == Some(x)
    ensures var (h, m) := AfterCancel(l, x);
      |m.owners| == |l.owners| && if h.Some? then h.value.workspace == w else m.owners[w].None? && m.waiters == []
  {
    WithoutWaiter(l.waiters, x);
  }

  lemma {:induction false} WokenSlots(s: Server, h: Option<Handoff>)
    ensures SlotsKept(s, Woken(s, h))
    decreases |s.leases.waiters| + (if h.Some? then 1 else 0)
  {
    hide AfterCancel;
    if h.Some? {
      var i := h.value.owner;
      if i >= |s.slots| || !s.slots[i].open || !WantsRead(s.slots[i].conn) {
        var (next, l) := AfterCancel(s.leases, i);
        CancelShortens(s.leases, i);
        WokenSlots(s.(leases := l), next);
      }
    }
  }

  /** The engine's promise makes what a response waits for cover what its output speaks of. */
  lemma AnswerOk(s: Server, o: Outcome)
    requires s.queue != [] && QueueIn(s)
    ensures ResponseOk(Answer(s, o), s.durable)
  {
  }

  /** What a dispatch sends while it runs is history of its own connection. */
  lemma StreamKeeps(s: Server, o: Outcome, j: nat)
    requires Inv(s) && s.queue != [] && QueueIn(s) && j < |s.slots|
    ensures var u := Logged(s, StreamEvents(s, o));
      && Inv(u) && QueueIn(u) && (IsQueued(s, j) <==> IsQueued(u, j))
      && (!IsQueued(s, j) ==> Untouched(s, u, j))
  {
    hide LeasesOk, ResponseOk, Output, Answer;
    var i, more := s.queue[0].owner, StreamEvents(s, o);
    var u := Logged(s, more);
    SameQueue(s, u, j);
    FrontQueued(s, i);
    if more != [] {
      var e := more[0];
      LogGrows(s.log, e, s.durable);
      StandingNext(s.log, e, i);
      assert SlotOk(s.slots[i], i, i in s.leases.waiters, s.log, s.durable);
      SlotsKeepSlot(s, i, s.slots[i], [e]);
      assert s.slots[i := s.slots[i]] == s.slots;
      QueueKeepsLog(s, s.log + [e]);
      if j != i { UntouchedBy(s, u, i, j); }
    } else {
      assert s.log + [] == s.log;
    }
  }

  lemma ExecutedKeeps(s: Server, env: Engine, j: nat)
    requires Inv(s) && s.queue != [] && QueueIn(s) && j < |s.slots|
    ensures Inv(Executed(s, env))
    ensures !IsQueued(s, j) ==> Untouched(s, Executed(s, env), j) && !IsQueued(Executed(s, env), j)
  {
    hide Inv, IsQueued, Untouched, Dequeued, Answered, StandingOf, ResponseOk, StreamEvents, Output, PlaceOf;
    var o, i, d := env(s.tick), s.queue[0].owner, s.queue[0];
    HolderNotWaiting(s, i);
    if Declined(s, o) {
      DequeuedKeeps(s, s.slots[i].(pending := false), s.journal, j);
    } else {
      var slot, r, p := RunSlot(s, o), Answer(s, o), PlaceOf(s, o);
      var u := Logged(s, StreamEvents(s, o));
      StreamKeeps(s, o, j);
      var t := Dequeued(u, slot, r.after);
      HolderNotWaiting(u, i);
      DequeuedKeeps(u, slot, r.after, j);
      AnswerOk(s, o);
      FrontQueued(s, i);
      AnsweredKeeps(t, i, r, d.kind, p, o, j);
      if j != i && !IsQueued(s, j) {
        UntouchedTrans(s, u, t, j);
        UntouchedTrans(s, t, Answered(t, i, r, d.kind, p, o), j);
      }
      SameQueue(t, Answered(t, i, r, d.kind, p, o), j);
    }
  }

  lemma {:induction false} DrainedKeeps(s: Server, env: Engine, j: nat)
    requires Inv(s) && QueueIn(s)
    ensures Inv(Drained(s, env))
    ensures j < |s.slots| && !IsQueued(s, j) ==> Untouched(s, Drained(s, env), j)
    decreases |s.queue|
  {
    hide Inv, IsQueued, Executed;
    if s.queue != [] {
      var t := Executed(s, env);
      ExecutedKeeps(s, env, if j < |s.slots| then j else s.queue[0].owner);
      InvQueueIn(t);
      DrainedKeeps(t, env, j);
    }
  }

  lemma InvQueueIn(s: Server)
    requires Inv(s)
    ensures QueueIn(s)
  {
    forall k | 0 <= k < |s.queue| ensures s.queue[k].owner < |s.slots| {
      assert QueuedOk(s, s.queue[k]);
    }
  }

  lemma EmptyQueue(s: Server, i: nat)
    requires s.queue == []
    ensures !IsQueued(s, i)
  {
  }

  // ---------------------------------------------------------------- taking a workspace

  /** An idle open connection that has been resumed if a response of it waits. */
  ghost predicate Idle(s: Server, i: nat, generation: nat)
  {
    && i < |s.slots| && s.slots[i].open && !s.slots[i].pending && s.slots[i].generation == generation
    && (s.slots[i].response.Some? ==> StandingOf(s.log, i).Exposed?)
  }

  lemma StillIdle(s: Server, t: Server, i: nat, generation: nat)
    requires Idle(s, i, generation) && Untouched(s, t, i)
    ensures Idle(t, i, generation)
    ensures s.slots[i].wantRead && !s.slots[i].conn.parked ==> t.slots[i].wantRead
  {
  }

  lemma NotPendingNotQueued(s: Server, i: nat)
    requires Inv(s) && i < |s.slots| && !s.slots[i].pending
    ensures !IsQueued(s, i)
  {
    forall k | 0 <= k < |s.queue| ensures s.queue[k].owner != i {
      assert QueuedOk(s, s.queue[k]);
    }
  }

  /** Granting a workspace takes no lease from anybody else. */
  ghost predicate LeaseGained(l: Leases, m: Leases, x: nat)
  {
    && |m.owners| == |l.owners|
    && (forall w :: 0 <= w < |l.owners| && l.owners[w].Some? ==> m.owners[w] == l.owners[w])
    && (forall y :: y in m.waiters ==> y in l.waiters || y == x)
  }

  lemma AcquireGains(l: Leases, x: nat, connections: nat)
    requires LeasesOk(l, connections) && x < connections
    ensures LeaseGained(l, AfterAcquire(l, x).1, x) && LeaseGained(l, AfterTryAcquire(l, x).1, x)
  {
    WithoutWaiter(l.waiters, x);
  }

  lemma GainKeeps(s: Server, m: Leases, i: nat)
    requires i < |s.slots|
    requires Inv(s) && Idle(s, i, s.slots[i].generation) && LeasesOk(m, |s.slots|) && LeaseGained(s.leases, m, i)
    ensures Inv(s.(leases := m))
  {
    hide LeasesOk;
    var t := s.(leases := m);
    forall k | 0 <= k < |t.queue| ensures QueuedOk(t, t.queue[k]) {
      assert QueuedOk(s, s.queue[k]);
    }
    forall j | 0 <= j < |t.slots| ensures t.slots[j].pending ==> IsQueued(t, j) {
      SameQueue(s, t, j);
    }
    forall j | 0 <= j < |t.slots| ensures SlotOk(t.slots[j], j, j in m.waiters, t.log, t.durable) {
      assert SlotOk(s.slots[j], j, j in s.leases.waiters, s.log, s.durable);
    }
  }

  // ---------------------------------------------------------------- queueing a dispatch

  ghost predicate MayQueue(s: Server, d: Dispatch)
  {
    && Idle(s, d.owner, d.generation) && d.workspace < |s.leases.owners|
    && s.leases.owners[d.workspace] == Some(d.owner)
    && (d.kind.Readable? ==> !s.slots[d.owner].wantRead && !s.slots[d.owner].conn.parked)
    && (d.kind.Retry? ==> s.slots[d.owner].response.None?)
  }

  lemma EnqueuedKeeps(s: Server, d: Dispatch)
    requires Inv(s) && MayQueue(s, d)
    ensures Inv(Enqueued(s, d))
  {
    hide LeasesOk;
    var t := Enqueued(s, d);
    NotPendingNotQueued(s, d.owner);
    forall k | 0 <= k < |t.queue| ensures QueuedOk(t, t.queue[k]) && (k < |s.queue| ==> t.queue[k].owner != d.owner) {
      if k < |s.queue| { assert QueuedOk(s, s.queue[k]) && s.queue[k].owner != d.owner; }
    }
    forall j | 0 <= j < |t.slots| && t.slots[j].pending ensures IsQueued(t, j) {
      if j == d.owner {
        assert t.queue[|s.queue|].owner == j;
      } else {
        assert IsQueued(s, j);
        var k :| 0 <= k < |s.queue| && s.queue[k].owner == j;
        assert t.queue[k].owner == j;
      }
    }
    assert s.log + [] == s.log;
    assert SlotOk(s.slots[d.owner], d.owner, d.owner in s.leases.waiters, s.log, s.durable);
    SlotsKeepSlot(s, d.owner, t.slots[d.owner], []);
    assert t.slots == s.slots[d.owner := t.slots[d.owner]];
  }

  lemma SuspendedKeeps(s: Server, i: nat)
    requires Inv(s) && i < |s.slots| && !s.slots[i].pending
    ensures Inv(Suspended(s, i))
  {
    hide LeasesOk;
    NotPendingNotQueued(s, i);
    assert s.log + [] == s.log;
    assert SlotOk(s.slots[i], i, i in s.leases.waiters, s.log, s.durable);
    SlotChanges(s, i, s.slots[i].(wantRead := false), []);
  }

  lemma ReadingNotParked(s: Server, i: nat)
    requires Inv(s) && i < |s.slots| && s.slots[i].wantRead
    ensures !s.slots[i].conn.parked && s.slots[i].open
    ensures s.slots[i].response.Some? ==> StandingOf(s.log, i).Exposed?
  {
    assert SlotOk(s.slots[i], i, i in s.leases.waiters, s.log, s.durable);
  }

  lemma RequestedKeeps(s: Server, i: nat, generation: nat)
    requires Inv(s) && Idle(s, i, generation)
    ensures Inv(Requested(s, i, generation))
  {
    hide Inv, LeasesOk, AfterAcquire, StandingOf;
    var (w, l) := AfterAcquire(s.leases, i);
    var t := s.(leases := l);
    InvLeases(s);
    AcquireKeeps(s.leases, i, |s.slots|);
    AcquireGains(s.leases, i, |s.slots|);
    GainKeeps(s, l, i);
    if w.None? {
      SuspendedKeeps(t, i);
    } else if t.slots[i].wantRead {
      ReadingNotParked(t, i);
      SuspendedKeeps(t, i);
      EnqueuedKeeps(Suspended(t, i), Dispatch(i, generation, w.value, Readable));
    }
  }

  /** The connection is queued with its own workspace, or it waits while every workspace is taken. */
  ghost predicate RequestKept(t: Server, i: nat)
    requires i < |t.slots|
  {
    !t.slots[i].wantRead && (IsQueued(t, i) || (i in t.leases.waiters && None !in t.leases.owners))
  }

  lemma RequestedHolds(s: Server, i: nat, generation: nat)
    requires Inv(s) && Idle(s, i, generation) && s.slots[i].wantRead
    ensures RequestKept(Requested(s, i, generation), i)
  {
    AcquireKeeps(s.leases, i, |s.slots|);
    var (w, l) := AfterAcquire(s.leases, i);
    var t := Requested(s, i, generation);
    if w.Some? { assert t.queue[|s.queue|].owner == i; }
  }

  lemma ReadRequestedKeeps(s: Server, i: nat, generation: nat, env: Engine)
    requires Inv(s) && QueueIn(s) && Idle(s, i, generation)
    ensures Inv(ReadRequested(s, i, generation, env))
  {
    hide Inv, LeasesOk, AfterAcquire, StandingOf, Requested, Drained, Untouched;
    var (w, l) := AfterAcquire(s.leases, i);
    if w.Some? || s.queue == [] {
      RequestedKeeps(s, i, generation);
    } else {
      var t := s.(leases := l);
      InvLeases(s);
      AcquireKeeps(s.leases, i, |s.slots|);
      AcquireGains(s.leases, i, |s.slots|);
      GainKeeps(s, l, i);
      NotPendingNotQueued(t, i);
      DrainedKeeps(t, env, i);
      StillIdle(t, Drained(t, env), i, generation);
      RequestedKeeps(Drained(t, env), i, generation);
    }
  }

  /** No request is lost, not even when the queue is drained in the middle of it. */
  lemma RequestHeld(s: Server, i: nat, generation: nat, env: Engine)
    requires Inv(s) && QueueIn(s) && Idle(s, i, generation) && s.slots[i].wantRead
    ensures var t := ReadRequested(s, i, generation, env); |t.slots| == |s.slots| && RequestKept(t, i)
  {
    hide Inv, LeasesOk, AfterAcquire, StandingOf, Requested, Drained, Untouched, RequestKept;
    RequestedShape(s, i, generation);
    var (w, l) := AfterAcquire(s.leases, i);
    if w.Some? || s.queue == [] {
      RequestedHolds(s, i, generation);
    } else {
      var t := s.(leases := l);
      InvLeases(s);
      AcquireKeeps(s.leases, i, |s.slots|);
      AcquireGains(s.leases, i, |s.slots|);
      GainKeeps(s, l, i);
      NotPendingNotQueued(t, i);
      ReadingNotParked(s, i);
      DrainedKeeps(t, env, i);
      var u := Drained(t, env);
      StillIdle(t, u, i, generation);
      RequestedShape(u, i, generation);
      RequestedHolds(u, i, generation);
    }
  }

  lemma RequestedShape(s: Server, i: nat, generation: nat)
    requires i < |s.slots|
    ensures |Requested(s, i, generation).slots| == |s.slots|
  {
  }

  /** A readable event on a connection that reads is answered by a place in the queue or the roster. */
  lemma EventHeld(s: Server, i: nat, writable: bool, env: Engine)
    requires Inv(s) && QueueIn(s) && i < |s.slots| && s.slots[i].wantRead && !s.slots[i].pending
    ensures var t := Dispatched(s, i, s.slots[i].generation, true, writable, true, env);
      |t.slots| == |s.slots| && RequestKept(t, i)
  {
    hide Inv, ReadRequested, StandingOf, RequestKept;
    ReadingNotParked(s, i);
    RequestHeld(s, i, s.slots[i].generation, env);
  }

  function WrittenSlot(slot: Slot, o: Outcome): Slot
  {
    var f := FlushedSlot(slot, o);
    f.(out := Appended(f.out, if f.out.bytes == [] && slot.conn.owes then o.wrote else 0, Plain))
  }

  function SentEvent(slot: Slot, i: nat, o: Outcome, cause: Cause, durable: nat): Event
  {
    Sent(i, cause, Holding(slot, durable), slot.out.bytes[..Taken(o.accepted, slot.out)], durable)
  }

  lemma UnfoldWritten(s: Server, i: nat, o: Outcome)
    requires i < |s.slots|
    ensures Written(s, i, o) ==
      Completed(s.(slots := s.slots[i := WrittenSlot(s.slots[i], o)], tick := s.tick + 1,
                   log := s.log + [SentEvent(s.slots[i], i, o, OnWritable, s.durable)]), i, o.finish)
  {
    hide Completed;
    var slot := s.slots[i];
    assert s.slots[i := FlushedSlot(slot, o)][i := WrittenSlot(slot, o)] == s.slots[i := WrittenSlot(slot, o)];
  }

  lemma WrittenKeeps(s: Server, i: nat, o: Outcome)
    requires Inv(s) && i < |s.slots| && !IsQueued(s, i) && s.slots[i].open
    ensures Inv(Written(s, i, o))
  {
    hide LeasesOk, ResponseOk, Completed, Written, Appended, Consumed;
    var slot, e := WrittenSlot(s.slots[i], o), SentEvent(s.slots[i], i, o, OnWritable, s.durable);
    assert !slot.pending by { assert QueueOk(s); }
    assert SlotOk(s.slots[i], i, i in s.leases.waiters, s.log, s.durable);
    LogGrows(s.log, e, s.durable);
    StandingNext(s.log, e, i);
    UnfoldWritten(s, i, o);
    CallKeeps(s, i, slot, [e], s.tick + 1, o.finish);
  }

  lemma DispatchedKeeps(s: Server, i: nat, generation: nat, readable: bool, writable: bool, ready: bool, env: Engine)
    requires Inv(s) && QueueIn(s)
    ensures Inv(Dispatched(s, i, generation, readable, writable, ready, env))
  {
    hide Inv, Completed, ReadRequested, Written, IsQueued, StandingOf;
    if i < |s.slots| && s.slots[i].generation == generation && s.slots[i].open && !s.slots[i].pending {
      NotPendingNotQueued(s, i);
      if readable && !s.slots[i].wantRead {
      } else if readable && !ready {
        CompletedKeeps(s, i, Close);
      } else if readable {
        ReadingNotParked(s, i);
        ReadRequestedKeeps(s, i, generation, env);
      } else if writable {
        WrittenKeeps(s, i, env(s.tick));
      } else {
        CompletedKeeps(s, i, Continue);
      }
    }
  }

  // ---------------------------------------------------------------- retrying parked statements

  ghost predicate QueuedBelow(s: Server, i: nat)
  {
    forall k :: 0 <= k < |s.queue| ==> s.queue[k].owner < i
  }

  lemma RetryRequestedKeeps(s: Server, i: nat, env: Engine)
    requires Inv(s) && QueueIn(s) && QueuedBelow(s, i) && i < |s.slots|
    requires s.slots[i].open && s.slots[i].response.None?
    ensures Inv(RetryRequested(s, i, env)) && QueuedBelow(RetryRequested(s, i, env), i + 1)
  {
    hide Inv, LeasesOk, AfterTryAcquire, StandingOf, Drained, Untouched;
    var generation := s.slots[i].generation;
    assert !s.slots[i].pending by { NotQueuedNotPending(s, i); }
    var t := if AfterTryAcquire(s.leases, i).0.None? && s.queue != [] then Drained(s, env) else s;
    if t != s {
      NotPendingNotQueued(s, i);
      DrainedKeeps(s, env, i);
      StillIdle(s, t, i, generation);
      UntouchedResponse(s, t, i);
    }
    var (w, l) := AfterTryAcquire(t.leases, i);
    InvLeases(t);
    TryAcquireKeeps(t.leases, i, |t.slots|);
    AcquireGains(t.leases, i, |t.slots|);
    if w.Some? {
      GainKeeps(t, l, i);
      EnqueuedKeeps(t.(leases := l), Dispatch(i, generation, w.value, Retry));
    }
  }

  lemma UntouchedResponse(s: Server, t: Server, i: nat)
    requires i < |s.slots| && Untouched(s, t, i)
    ensures t.slots[i].response == s.slots[i].response && t.slots[i].generation == s.slots[i].generation
  {
  }

  lemma NotQueuedNotPending(s: Server, i: nat)
    requires Inv(s) && i < |s.slots| && QueuedBelow(s, i)
    ensures !s.slots[i].pending
  {
  }

  lemma {:induction false} RetriedKeeps(s: Server, i: nat, env: Engine)
    requires Inv(s) && QueueIn(s) && QueuedBelow(s, i) && i <= |s.slots|
    ensures Inv(RetriedFrom(s, i, env))
    decreases |s.slots| - i
  {
    hide Inv, RetryRequested;
    if i < |s.slots| {
      if !s.slots[i].open || s.slots[i].response.Some? {
        RetriedKeeps(s, i + 1, env);
      } else {
        RetryRequestedKeeps(s, i, env);
        RetriedKeeps(RetryRequested(s, i, env), i + 1, env);
      }
    }
  }

  lemma {:induction false} WaitersWokenKeeps(s: Server, passes: nat, env: Engine)
    requires Inv(s) && QueueIn(s) && s.queue == []
    ensures Inv(WaitersWoken(s, passes, env))
    decreases passes
  {
    hide Inv, RetriedFrom, Drained, IsQueued;
    if passes > 0 {
      var u := RetriedFrom(s, 0, env);
      RetriedKeeps(s, 0, env);
      DrainedKeeps(u, env, 0);
      var t := Drained(u, env);
      TickKeeps(t, t.tick + 1);
      if !env(t.tick).stable {
        WaitersWokenKeeps(t.(tick := t.tick + 1), passes - 1, env);
      }
    }
  }

  // ---------------------------------------------------------------- the barrier

  predicate Errs(slot: Slot, durable: nat, failed: bool)
  {
    slot.response.Some? && failed && Behind(slot.response.value, durable) && slot.response.value.mark.Some?
  }

  predicate Panics(slot: Slot, durable: nat, failed: bool)
  {
    Errs(slot, durable, failed) && !CanTruncate(slot.out, slot.response.value.mark.value)
  }

  predicate Finishes(slot: Slot, durable: nat, failed: bool)
  {
    slot.response.Some? && (failed || !Behind(slot.response.value, durable)) && !Panics(slot, durable, failed)
  }

  /** The slot as its last bytes are about to be sent. */
  function ToldSlot(slot: Slot, o: Outcome, durable: nat, failed: bool): Slot
    requires Finishes(slot, durable, failed)
  {
    (if Errs(slot, durable, failed) then ErrorSlot(slot, o) else slot).(response := None)
  }

  function FinishEvents(slot: Slot, i: nat, o: Outcome, durable: nat, failed: bool): seq<Event>
    requires Finishes(slot, durable, failed)
  {
    (if Errs(slot, durable, failed) then Leftover(slot, i) else [])
    + [Finished(i, slot.response.value, durable, failed && Behind(slot.response.value, durable))]
    + [SentEvent(ToldSlot(slot, o, durable, failed), i, o, AtBarrier, durable)]
  }

  lemma UnfoldFinished(s: Server, i: nat, failed: bool, env: Engine)
    requires i < |s.slots|
    ensures var (slot, o) := (s.slots[i], env(s.tick));
      FinishedAt(s, i, failed, env) ==
      if Finishes(slot, s.durable, failed) then
        Completed(s.(slots := s.slots[i := FlushedSlot(ToldSlot(slot, o, s.durable, failed), o)], tick := s.tick + 1,
                     log := s.log + FinishEvents(slot, i, o, s.durable, failed)), i, o.finish)
      else if Panics(slot, s.durable, failed) then s.(down := true, log := s.log + [Panicked(i)])
      else s
  {
    hide Completed, ErrorSlot, Leftover, FlushedSlot;
    var (slot, o) := (s.slots[i], env(s.tick));
    if Finishes(slot, s.durable, failed) {
      var told := ToldSlot(slot, o, s.durable, failed);
      assert s.slots[i := told][i := FlushedSlot(told, o)] == s.slots[i := FlushedSlot(told, o)];
      var first := (if Errs(slot, s.durable, failed) then Leftover(slot, i) else [])
        + [Finished(i, slot.response.value, s.durable, failed && Behind(slot.response.value, s.durable))];
      var e := SentEvent(told, i, o, AtBarrier, s.durable);
      assert s.log + first + [e] == s.log + (first + [e]);
    }
  }

  /** Every response of a batch is finished once, in the order of the log. */
  lemma FinishLog(s: Server, i: nat, o: Outcome, failed: bool)
    requires Inv(s) && i < |s.slots| && Finishes(s.slots[i], s.durable, failed)
    ensures LogOk(s.log + FinishEvents(s.slots[i], i, o, s.durable, failed), s.durable)
    ensures StandingOf(s.log + FinishEvents(s.slots[i], i, o, s.durable, failed), i).Absent?
    ensures OnlyOf(FinishEvents(s.slots[i], i, o, s.durable, failed), i)
  {
    hide LeasesOk, FlushedSlot, ErrorSlot;
    var slot := s.slots[i];
    assert SlotOk(slot, i, i in s.leases.waiters, s.log, s.durable);
    var clip := if Errs(slot, s.durable, failed) then Leftover(slot, i) else [];
    var done := Finished(i, slot.response.value, s.durable, failed && Behind(slot.response.value, s.durable));
    var sent := SentEvent(ToldSlot(slot, o, s.durable, failed), i, o, AtBarrier, s.durable);
    var one := s.log + clip;
    if clip != [] {
      LogGrows(s.log, clip[0], s.durable);
      StandingNext(s.log, clip[0], i);
      assert one == s.log + [clip[0]];
    } else {
      assert one == s.log;
    }
    assert (one + [done])[..|one|] == one;
    LogGrows(one, done, s.durable);
    StandingNext(one, done, i);
    LogGrows(one + [done], sent, s.durable);
    StandingNext(one + [done], sent, i);
    assert s.log + FinishEvents(slot, i, o, s.durable, failed) == one + [done] + [sent];
  }

  lemma FinishedAtKeeps(s: Server, i: nat, failed: bool, env: Engine)
    requires Inv(s) && i < |s.slots| && s.queue == []
    ensures Inv(FinishedAt(s, i, failed, env))
  {
    hide LeasesOk, Completed, FinishedAt, FinishEvents, LogOk, ErrorSlot, FlushedSlot;
    var slot, o := s.slots[i], env(s.tick);
    UnfoldFinished(s, i, failed, env);
    EmptyQueue(s, i);
    assert SlotOk(slot, i, i in s.leases.waiters, s.log, s.durable);
    if Finishes(slot, s.durable, failed) {
      var told := FlushedSlot(ToldSlot(slot, o, s.durable, failed), o);
      FinishLog(s, i, o, failed);
      ToldShape(slot, o, s.durable, failed);
      assert !slot.pending by { assert QueueOk(s); }
      CallKeeps(s, i, told, FinishEvents(slot, i, o, s.durable, failed), s.tick + 1, o.finish);
    } else if Panics(slot, s.durable, failed) {
      PanicKeeps(s, i);
    }
  }

  lemma ToldShape(slot: Slot, o: Outcome, durable: nat, failed: bool)
    requires Finishes(slot, durable, failed)
    ensures var t := FlushedSlot(ToldSlot(slot, o, durable, failed), o);
      t == slot.(response := None, conn := t.conn, out := t.out)
  {
  }

  lemma PanicKeeps(s: Server, i: nat)
    requires Inv(s) && i < |s.slots| && s.queue == []
    ensures Inv(s.(down := true, log := s.log + [Panicked(i)]))
  {
    hide LeasesOk, ResponseOk;
    EmptyQueue(s, i);
    assert !s.slots[i].pending by { assert QueueOk(s); }
    assert SlotOk(s.slots[i], i, i in s.leases.waiters, s.log, s.durable);
    LogGrows(s.log, Panicked(i), s.durable);
    StandingNext(s.log, Panicked(i), i);
    SlotChanges(s, i, s.slots[i], [Panicked(i)]);
    assert s.slots[i := s.slots[i]] == s.slots;
    DownKeeps(s.(log := s.log + [Panicked(i)]));
  }

  lemma DownKeeps(s: Server)
    requires Inv(s)
    ensures Inv(s.(down := true))
  {
    var t := s.(down := true);
    forall k | 0 <= k < |t.queue| ensures QueuedOk(t, t.queue[k]) {
      assert QueuedOk(s, s.queue[k]);
    }
    forall i | 0 <= i < |t.slots| && t.slots[i].pending ensures IsQueued(t, i) {
      SameQueue(s, t, i);
    }
  }

  lemma {:induction false} FinishedKeeps(s: Server, i: nat, failed: bool, env: Engine)
    requires Inv(s) && i <= |s.slots| && s.queue == []
    ensures Inv(FinishedFrom(s, i, failed, env))
    decreases |s.slots| - i
  {
    hide Inv, FinishedAt;
    if i < |s.slots| && !s.down {
      FinishedAtKeeps(s, i, failed, env);
      FinishedKeeps(FinishedAt(s, i, failed, env), i + 1, failed, env);
    }
  }

  lemma FinishedAtLeaves(s: Server, i: nat, failed: bool, env: Engine, j: nat)
    requires i < |s.slots| && j < |s.slots|
    ensures var t := FinishedAt(s, i, failed, env);
      && t.durable == s.durable
      && (j != i ==> t.slots[j].response == s.slots[j].response)
      && (t.slots[i].response.Some? ==> t.down || (!failed && Behind(t.slots[i].response.value, s.durable)))
      && (s.down ==> t.down)
  {
    hide Completed, FinishedAt, FinishEvents, ErrorSlot, FlushedSlot;
    var slot, o := s.slots[i], env(s.tick);
    UnfoldFinished(s, i, failed, env);
    if Finishes(slot, s.durable, failed) {
      var u := s.(slots := s.slots[i := FlushedSlot(ToldSlot(slot, o, s.durable, failed), o)], tick := s.tick + 1,
                  log := s.log + FinishEvents(slot, i, o, s.durable, failed));
      ToldShape(slot, o, s.durable, failed);
      if j != i { CompletedLeaves(u, i, o.finish, j); }
      CompletedAnswers(u, i, o.finish);
    }
  }

  lemma CompletedAnswers(s: Server, i: nat, after: After)
    requires i < |s.slots| && s.slots[i].response.None?
    ensures Completed(s, i, after).slots[i].response.None? && Completed(s, i, after).durable == s.durable
  {
    if after.Close? {
      var (h, l) := AfterCancel(s.leases, i);
      WokenSlots(s.(leases := l, slots := s.slots[i := ClosedSlot(s.slots[i])], log := s.log + [Gone(i)]), h);
    }
  }

  /** A batch leaves no response waiting that could be finished: after a failed publication none at
      all, and otherwise only those still behind the barrier. */
  lemma {:induction false} BatchReleases(s: Server, i: nat, failed: bool, env: Engine, j: nat)
    requires i <= |s.slots| && j < |s.slots|
    requires j < i && s.slots[j].response.Some? ==> s.down || (!failed && Behind(s.slots[j].response.value, s.durable))
    ensures var t := FinishedFrom(s, i, failed, env);
      && t.durable == s.durable
      && (t.slots[j].response.Some? ==> t.down || (!failed && Behind(t.slots[j].response.value, s.durable)))
    decreases |s.slots| - i
  {
    hide FinishedAt, Behind;
    if i < |s.slots| && !s.down {
      FinishedAtLeaves(s, i, failed, env, j);
      BatchReleases(FinishedAt(s, i, failed, env), i + 1, failed, env, j);
    }
  }
}
