/** Which connections the reactor serves: a read enters the queue only through the publication gate, and
    nothing addressed to a connection that has gone reaches another one. */
module ServerGate {
  import opened Options
  import opened WorkspaceLeases
  import opened SendBuffers
  import opened ServerCore
  import opened ServerInvariant
  import opened ServerSteps
  import opened ServerOutput
  import Runs = ServerRuns
  import Wake = ServerWake

  // ---------------------------------------------------------------- the gate

  /** The connection is closed and keeps nothing: no interest, no response, no workspace and no place on
      the roster. One with a staged commit keeps its slot until the commit is settled; any other slot
      moves on to the next generation. */
  ghost predicate Shut(s: Server, t: Server, i: nat)
    requires i < |s.slots|
  {
    && |t.slots| == |s.slots|
    && var (was, slot) := (s.slots[i], t.slots[i]);
      && !slot.open && !slot.wantRead && !slot.wantWrite && slot.response.None?
      && !Wake.Holds(t.leases, i) && i !in t.leases.waiters
      && slot.conn == was.conn && slot.detached == was.conn.staged.Some?
      && slot.generation == (if was.conn.staged.Some? then was.generation else Following(was.generation))
  }

  lemma ReleasedShuts(s: Server, i: nat)
    requires LeasesOk(s.leases, |s.slots|) && i < |s.slots|
    ensures Shut(s, Released(s, i), i)
    ensures Released(s, i).log == s.log + [Gone(i)]
  {
    hide LeasesOk, AfterCancel;
    var (h, l) := AfterCancel(s.leases, i);
    var u := s.(leases := l, slots := s.slots[i := ClosedSlot(s.slots[i])], log := s.log + [Gone(i)]);
    CancelLoses(s.leases, i, |s.slots|);
    Wake.ReleasedOwner(s, i);
    Wake.CancelRoster(s.leases, i, |s.slots|, i);
    WokenSlots(u, h);
    Wake.WokenRoster(u, h, i);
    WokenLeaves(u, h, i) by { NoHandoffBack(s.leases, i, |s.slots|); }
  }

  lemma NoHandoffBack(l: Leases, x: nat, connections: nat)
    requires LeasesOk(l, connections)
    ensures var (h, m) := AfterCancel(l, x); x !in m.waiters && (h.Some? ==> h.value.owner != x)
  {
    WithoutWaiter(l.waiters, x);
    CancelLoses(l, x, connections);
  }

  /** A readable event that finds publication not ready closes its connection, and does nothing else: no
      read is queued, nothing is sent, and every other slot keeps all but read interest, which it can
      only gain. */
  lemma GateCloses(s: Server, i: nat, writable: bool, env: Engine)
    requires Inv(s) && QueueIn(s) && i < |s.slots| && s.slots[i].open && s.slots[i].wantRead && !s.slots[i].pending
    ensures var t := Dispatched(s, i, s.slots[i].generation, true, writable, false, env);
      && Shut(s, t, i) && !IsQueued(t, i)
      && t.queue == s.queue && t.log == s.log + [Gone(i)]
      && t.journal == s.journal && t.durable == s.durable && t.tick == s.tick && t.down == s.down
      && SlotsKept(s.(slots := s.slots[i := t.slots[i]]), t)
  {
    hide LeasesOk, Shut, AfterCancel;
    NotPendingNotQueued(s, i);
    InvLeases(s);
    ReleasedShuts(s, i);
    var t := Released(s, i);
    SameQueue(s, t, i);
    var (h, l) := AfterCancel(s.leases, i);
    var u := s.(leases := l, slots := s.slots[i := ClosedSlot(s.slots[i])], log := s.log + [Gone(i)]);
    WokenSlots(u, h);
    ShutLeaves(s, t, u, i);
  }

  lemma ShutLeaves(s: Server, t: Server, u: Server, i: nat)
    requires i < |s.slots| == |u.slots| && SlotsKept(u, t) && u.slots == s.slots[i := u.slots[i]]
    ensures SlotsKept(s.(slots := s.slots[i := t.slots[i]]), t)
  {
    var v := s.(slots := s.slots[i := t.slots[i]]);
    forall j | 0 <= j < |v.slots|
      ensures t.slots[j] == v.slots[j].(wantRead := t.slots[j].wantRead)
      ensures v.slots[j].wantRead ==> t.slots[j].wantRead
    {
    }
  }

  /** Events for another generation, for a closed slot, for one that is queued, and reads that nobody
      asked for change nothing at all. */
  lemma EventIgnored(s: Server, i: nat, generation: nat, readable: bool, writable: bool, ready: bool, env: Engine)
    requires QueueIn(s)
    requires i >= |s.slots| || s.slots[i].generation != generation || !s.slots[i].open || s.slots[i].pending
      || (readable && !s.slots[i].wantRead)
    ensures Dispatched(s, i, generation, readable, writable, ready, env) == s
  {
  }

  // ---------------------------------------------------------------- how slots age and reads are counted

  /** A connection that is open or detached on the slot. */
  predicate Used(slot: Slot)
  {
    slot.open || slot.detached
  }

  /** One slot later: as it was; or its connection detached with a staged commit; or the slot free again,
      in the next generation. */
  predicate Ages(a: Slot, b: Slot)
  {
    || (b.open == a.open && b.detached == a.detached && b.generation == a.generation)
    || (a.open && !b.open && b.detached && b.generation == a.generation)
    || (Used(a) && !Used(b) && b.generation == Following(a.generation))
  }

  /** Reads of the connection that wait in the queue. */
  function Reads(queue: seq<Dispatch>, i: nat): nat
  {
    if queue == [] then 0
    else (if queue[0].owner == i && queue[0].kind.Readable? then 1 else 0) + Reads(queue[1..], i)
  }

  /** Reads of the connection that were answered. */
  function Answers(log: seq<Event>, i: nat): nat
  {
    if log == [] then 0
    else
      var e := log[|log| - 1];
      Answers(log[..|log| - 1], i) + if e.Buffered? && e.slot == i && e.kind.Readable? then 1 else 0
  }

  function Total(s: Server, i: nat): nat
  {
    Reads(s.queue, i) + Answers(s.log, i)
  }

  /** Connections only age, the history only grows, and no read appears. */
  ghost predicate Tame(s: Server, t: Server)
  {
    && |t.slots| == |s.slots| && s.log <= t.log && s.journal <= t.journal && s.tick <= t.tick
    && (forall i {:trigger t.slots[i]} :: 0 <= i < |s.slots| ==> Ages(s.slots[i], t.slots[i]))
    && (forall i: nat {:trigger Total(t, i)} :: Total(t, i) <= Total(s, i))
  }

  lemma TameSelf(s: Server)
    ensures Tame(s, s)
  {
  }

  lemma TameTwice(s: Server, t: Server, u: Server)
    requires Tame(s, t) && Tame(t, u)
    ensures Tame(s, u)
  {
    hide Total;
    forall i | 0 <= i < |s.slots| ensures Ages(s.slots[i], u.slots[i]) {
      assert Ages(s.slots[i], t.slots[i]) && Ages(t.slots[i], u.slots[i]);
    }
    forall i: nat ensures Total(u, i) <= Total(s, i) {
      assert Total(t, i) <= Total(s, i);
    }
  }

  predicate Unanswering(more: seq<Event>)
  {
    forall k :: 0 <= k < |more| ==> !more[k].Buffered?
  }

  lemma {:induction false} AnswersSame(log: seq<Event>, more: seq<Event>, i: nat)
    requires Unanswering(more)
    ensures Answers(log + more, i) == Answers(log, i)
    decreases |more|
  {
    if more == [] {
      assert log + more == log;
    } else {
      var n := |more| - 1;
      AnswersSame(log, more[..n], i);
      assert (log + more)[..|log + more| - 1] == log + more[..n];
    }
  }

  /** A step that leaves the queue alone and answers nothing. */
  lemma TameBy(s: Server, t: Server, more: seq<Event>)
    requires |t.slots| == |s.slots| && s.journal <= t.journal && s.tick <= t.tick && t.queue == s.queue
    requires t.log == s.log + more && Unanswering(more)
    requires forall i {:trigger t.slots[i]} :: 0 <= i < |s.slots| ==> Ages(s.slots[i], t.slots[i])
    ensures Tame(s, t)
  {
    forall i: nat ensures Total(t, i) <= Total(s, i) { AnswersSame(s.log, more, i); }
  }

  lemma KeptAges(s: Server, t: Server)
    requires SlotsKept(s, t)
    ensures forall i {:trigger t.slots[i]} :: 0 <= i < |s.slots| ==> Ages(s.slots[i], t.slots[i])
  {
  }

  lemma ReleasedTame(s: Server, i: nat)
    requires i < |s.slots| && (s.slots[i].open || (s.slots[i].detached && s.slots[i].conn.staged.None?))
    ensures Tame(s, Released(s, i))
  {
    hide Tame, AfterCancel;
    var (h, l) := AfterCancel(s.leases, i);
    var u := s.(leases := l, slots := s.slots[i := ClosedSlot(s.slots[i])], log := s.log + [Gone(i)]);
    WokenSlots(u, h);
    TameBy(s, u, [Gone(i)]);
    KeptAges(u, Woken(u, h));
    assert u.log + [] == u.log;
    TameBy(u, Woken(u, h), []);
    TameTwice(s, u, Woken(u, h));
  }

  lemma CompletedTame(s: Server, i: nat, after: After)
    requires i < |s.slots| && s.slots[i].open
    ensures Tame(s, Completed(s, i, after))
  {
    hide Tame;
    if after.Close? {
      ReleasedTame(s, i);
    } else {
      var more := if WantsRead(s.slots[i].conn) && s.slots[i].response.Some? then [Resumed(i)] else [];
      assert s.log + [] == s.log;
      TameBy(s, Reconciled(s, i), more);
    }
  }

  lemma InterruptedTame(s: Server, o: Outcome)
    ensures Tame(s, Interrupted(s, o))
    ensures forall i {:trigger Interrupted(s, o).slots[i]} :: 0 <= i < |s.slots| ==>
      Interrupted(s, o).slots[i].open == s.slots[i].open
  {
    hide Tame, Appended;
    var t := Interrupted(s, o);
    var more := t.log[|s.log|..];
    assert s.log + [] == s.log;
    assert t.log == s.log + more && Unanswering(more);
    TameBy(s, t, more);
  }

  // ---------------------------------------------------------------- executing the queue

  lemma FrontReads(queue: seq<Dispatch>, i: nat)
    requires queue != []
    ensures Reads(queue[1..], i) == Reads(queue, i) - if queue[0].owner == i && queue[0].kind.Readable? then 1 else 0
  {
  }

  /** The front dispatch is gone from the queue, and not yet answered. */
  ghost predicate OneLess(s: Server, t: Server, d: Dispatch)
  {
    forall i: nat {:trigger Total(t, i)} ::
      Total(t, i) == Total(s, i) - if d.owner == i && d.kind.Readable? then 1 else 0
  }

  lemma DequeuedCounts(s: Server, more: seq<Event>, slot: Slot, journal: nat)
    requires s.queue != [] && QueueIn(s) && Unanswering(more) && journal >= s.journal
    requires Ages(s.slots[s.queue[0].owner], slot)
    ensures var t := Dequeued(Logged(s, more), slot, journal);
      Tame(s, t) && OneLess(s, t, s.queue[0]) && t.log == s.log + more
      && t.slots[s.queue[0].owner] == slot.(wantRead := t.slots[s.queue[0].owner].wantRead)
  {
    hide AfterRelease, Ages;
    var u := Logged(s, more);
    var t := Dequeued(u, slot, journal);
    var p := Popped(u, slot, journal);
    var (h, l) := AfterRelease(s.leases, s.queue[0].owner);
    WokenSlots(p.(leases := l), h);
    var d := s.queue[0];
    forall i: nat ensures Total(t, i) == Total(s, i) - if d.owner == i && d.kind.Readable? then 1 else 0 {
      FrontReads(s.queue, i);
      AnswersSame(s.log, more, i);
    }
    forall i | 0 <= i < |s.slots| ensures Ages(s.slots[i], t.slots[i]) {
      AgesKept(s.slots[i], p.slots[i], t.slots[i]);
    }
  }

  lemma AgesKept(a: Slot, b: Slot, c: Slot)
    requires (a == b || Ages(a, b)) && c == b.(wantRead := c.wantRead)
    ensures Ages(a, c)
  {
  }

  lemma AnsweredCounts(s: Server, t: Server, i: nat, r: Response, d: Dispatch, place: Place, o: Outcome)
    requires Tame(s, t) && OneLess(s, t, d) && i == d.owner < |t.slots| && t.slots[i].open
    ensures Tame(s, Answered(t, i, r, d.kind, place, o))
  {
    hide Tame, OneLess, Completed, Interrupted, FlushedSlot;
    if o.after.Close? {
      var u := Flushed(t, i, o, OnClose);
      FlushedTame(t, i, o, OnClose);
      InterruptedTame(u, o);
      CompletedTame(Interrupted(u, o), i, o.finish);
      TameTwice(s, t, u);
      TameTwice(s, u, Interrupted(u, o));
      TameTwice(s, Interrupted(u, o), Completed(Interrupted(u, o), i, o.finish));
    } else {
      var u := Stored(t, i, r, d.kind, place);
      StoredCounts(s, t, i, r, d, place);
      InterruptedTame(u, o);
      TameTwice(s, u, Interrupted(u, o));
    }
  }

  lemma FlushedTame(s: Server, i: nat, o: Outcome, cause: Cause)
    requires i < |s.slots|
    ensures Tame(s, Flushed(s, i, o, cause)) && Flushed(s, i, o, cause).slots[i].open == s.slots[i].open
  {
    hide Tame, Consumed;
    var t := Flushed(s, i, o, cause);
    TameBy(s, t, [t.log[|s.log|]]);
  }

  lemma StoredCounts(s: Server, t: Server, i: nat, r: Response, d: Dispatch, place: Place)
    requires Tame(s, t) && OneLess(s, t, d) && i == d.owner < |t.slots|
    ensures Tame(s, Stored(t, i, r, d.kind, place))
  {
    var u := Stored(t, i, r, d.kind, place);
    forall j: nat ensures Total(u, j) <= Total(s, j) {
      assert u.log[..|u.log| - 1] == t.log;
      assert Total(t, j) == Total(s, j) - if d.owner == j && d.kind.Readable? then 1 else 0;
    }
    forall j | 0 <= j < |s.slots| ensures Ages(s.slots[j], u.slots[j]) {
      assert Ages(s.slots[j], t.slots[j]);
    }
  }

  lemma ExecutedTame(s: Server, env: Engine)
    requires s.queue != [] && QueueIn(s)
    ensures Tame(s, Executed(s, env))
  {
    hide Tame, OneLess, Dequeued, Answered, StreamEvents, Output, PlaceOf;
    var o, d := env(s.tick), s.queue[0];
    if Declined(s, o) {
      assert Logged(s, []) == s by { assert s.log + [] == s.log; }
      DequeuedCounts(s, [], s.slots[d.owner].(pending := false), s.journal);
    } else {
      StreamUnanswering(s, o);
      DequeuedCounts(s, StreamEvents(s, o), RunSlot(s, o), Answer(s, o).after);
      var t := Dequeued(Logged(s, StreamEvents(s, o)), RunSlot(s, o), Answer(s, o).after);
      if t.slots[d.owner].generation == d.generation && t.slots[d.owner].open {
        AnsweredCounts(s, t, d.owner, Answer(s, o), d, PlaceOf(s, o), o);
      }
    }
  }

  lemma StreamUnanswering(s: Server, o: Outcome)
    requires s.queue != [] && QueueIn(s)
    ensures Unanswering(StreamEvents(s, o))
  {
    hide Output;
  }

  lemma {:induction false} DrainedTame(s: Server, env: Engine)
    requires QueueIn(s) && Inv(s)
    ensures Tame(s, Drained(s, env))
    decreases |s.queue|
  {
    hide Tame, Executed, Inv;
    if s.queue == [] {
      TameSelf(s);
    } else {
      ExecutedTame(s, env);
      ExecutedKeeps(s, env, s.queue[0].owner);
      InvQueueIn(Executed(s, env));
      DrainedTame(Executed(s, env), env);
      TameTwice(s, Executed(s, env), Drained(s, env));
    }
  }

  // ---------------------------------------------------------------- socket events

  /** Like `Tame`, but one read of this connection may have been queued. */
  ghost predicate TameBut(s: Server, t: Server, i: nat)
  {
    && |t.slots| == |s.slots| && s.log <= t.log && s.journal <= t.journal && s.tick <= t.tick
    && (forall j {:trigger t.slots[j]} :: 0 <= j < |s.slots| ==> Ages(s.slots[j], t.slots[j]))
    && (forall j: nat {:trigger Total(t, j)} :: Total(t, j) <= Total(s, j) + if j == i then 1 else 0)
  }

  lemma TameThenOne(s: Server, t: Server, u: Server, i: nat)
    requires Tame(s, t) && TameBut(t, u, i)
    ensures TameBut(s, u, i)
  {
    hide Total;
    forall j | 0 <= j < |s.slots| ensures Ages(s.slots[j], u.slots[j]) {
      assert Ages(s.slots[j], t.slots[j]) && Ages(t.slots[j], u.slots[j]);
    }
    forall j: nat ensures Total(u, j) <= Total(s, j) + if j == i then 1 else 0 {
      assert Total(t, j) <= Total(s, j);
    }
  }

  lemma TameIsBut(s: Server, t: Server, i: nat)
    requires Tame(s, t)
    ensures TameBut(s, t, i)
  {
    hide Total;
    forall j: nat ensures Total(t, j) <= Total(s, j) + if j == i then 1 else 0 {
      assert Total(t, j) <= Total(s, j);
    }
  }

  lemma {:induction false} PushedReads(queue: seq<Dispatch>, d: Dispatch, i: nat)
    ensures Reads(queue + [d], i) == Reads(queue, i) + if d.owner == i && d.kind.Readable? then 1 else 0
    decreases |queue|
  {
    if queue != [] {
      assert (queue + [d])[1..] == queue[1..] + [d];
      PushedReads(queue[1..], d, i);
    }
  }

  lemma EnqueuedTame(s: Server, d: Dispatch)
    requires d.owner < |s.slots|
    ensures TameBut(s, Enqueued(s, d), d.owner) && (d.kind.Retry? ==> Tame(s, Enqueued(s, d)))
  {
    forall j: nat ensures Total(Enqueued(s, d), j) == Total(s, j) + if d.owner == j && d.kind.Readable? then 1 else 0 {
      PushedReads(s.queue, d, j);
    }
  }

  lemma LeasesTame(s: Server, l: Leases)
    ensures Tame(s, s.(leases := l))
  {
    assert s.log + [] == s.log;
    TameBy(s, s.(leases := l), []);
  }

  lemma SuspendedTame(s: Server, i: nat)
    requires i < |s.slots|
    ensures Tame(s, Suspended(s, i))
  {
    assert s.log + [] == s.log;
    TameBy(s, Suspended(s, i), []);
  }

  lemma RequestedTame(s: Server, i: nat, generation: nat)
    requires i < |s.slots|
    ensures TameBut(s, Requested(s, i, generation), i)
  {
    hide Tame, TameBut, AfterAcquire, Enqueued, Suspended;
    var (w, l) := AfterAcquire(s.leases, i);
    var t := s.(leases := l);
    var u := Suspended(t, i);
    LeasesTame(s, l);
    SuspendedTame(t, i);
    TameTwice(s, t, u);
    if w.Some? && t.slots[i].wantRead {
      assert |u.slots| == |s.slots| by { TameSlots(s, u); }
      EnqueuedTame(u, Dispatch(i, generation, w.value, Readable));
      TameThenOne(s, u, Enqueued(u, Dispatch(i, generation, w.value, Readable)), i);
    } else {
      TameIsBut(s, u, i);
      TameIsBut(s, t, i);
    }
  }

  lemma TameSlots(s: Server, t: Server)
    requires Tame(s, t)
    ensures |t.slots| == |s.slots|
  {
  }

  lemma ReadRequestedTame(s: Server, i: nat, generation: nat, env: Engine)
    requires Inv(s) && QueueIn(s) && Idle(s, i, generation)
    ensures TameBut(s, ReadRequested(s, i, generation, env), i)
  {
    hide Inv, LeasesOk, AfterAcquire, Tame, TameBut, Requested, Drained, StandingOf;
    var (w, l) := AfterAcquire(s.leases, i);
    if w.Some? || s.queue == [] {
      RequestedTame(s, i, generation);
    } else {
      var t := s.(leases := l);
      InvLeases(s);
      AcquireKeeps(s.leases, i, |s.slots|);
      AcquireGains(s.leases, i, |s.slots|);
      GainKeeps(s, l, i);
      LeasesTame(s, l);
      DrainedTame(t, env);
      TameTwice(s, t, Drained(t, env));
      RequestedTame(Drained(t, env), i, generation);
      TameThenOne(s, Drained(t, env), Requested(Drained(t, env), i, generation), i);
    }
  }

  lemma WrittenTame(s: Server, i: nat, o: Outcome)
    requires i < |s.slots| && s.slots[i].open
    ensures Tame(s, Written(s, i, o))
  {
    hide Tame, Completed, Written, WrittenSlot;
    var e := SentEvent(s.slots[i], i, o, OnWritable, s.durable);
    var u := s.(slots := s.slots[i := WrittenSlot(s.slots[i], o)], tick := s.tick + 1, log := s.log + [e]);
    UnfoldWritten(s, i, o);
    WrittenShape(s.slots[i], o);
    TameBy(s, u, [e]);
    CompletedTame(u, i, o.finish);
    TameTwice(s, u, Completed(u, i, o.finish));
  }

  lemma WrittenShape(slot: Slot, o: Outcome)
    ensures var t := WrittenSlot(slot, o); t == slot.(conn := t.conn, out := t.out)
  {
    hide Appended, Consumed;
  }

  /** Whether the event asks for a read that the gate lets through. */
  predicate LetIn(op: Runs.Op, i: nat)
  {
    op.Socket? && op.slot == i && op.readable && op.publicationReady
  }

  lemma DispatchedTame(s: Server, op: Runs.Op, env: Engine)
    requires Inv(s) && QueueIn(s) && op.Socket?
    ensures var t := Dispatched(s, op.slot, op.generation, op.readable, op.writable, op.publicationReady, env);
      TameBut(s, t, op.slot) && (!LetIn(op, op.slot) ==> Tame(s, t))
  {
    hide Inv, Tame, TameBut, Completed, ReadRequested, Written, StandingOf;
    var i := op.slot;
    TameSelf(s);
    TameIsBut(s, s, i);
    if i < |s.slots| && s.slots[i].generation == op.generation && s.slots[i].open && !s.slots[i].pending {
      CompletedTame(s, i, Close);
      CompletedTame(s, i, Continue);
      TameIsBut(s, Completed(s, i, Close), i);
      TameIsBut(s, Completed(s, i, Continue), i);
      WrittenTame(s, i, env(s.tick));
      TameIsBut(s, Written(s, i, env(s.tick)), i);
      if op.readable && s.slots[i].wantRead && op.publicationReady {
        ReadingNotParked(s, i);
        ReadRequestedTame(s, i, op.generation, env);
      }
    }
  }

  // ---------------------------------------------------------------- waking and finishing

  lemma RetryTame(s: Server, i: nat, env: Engine)
    requires Inv(s) && QueueIn(s) && i < |s.slots|
    ensures Tame(s, RetryRequested(s, i, env))
  {
    hide Inv, Tame, AfterTryAcquire, Drained, Enqueued;
    var t := if AfterTryAcquire(s.leases, i).0.None? && s.queue != [] then Drained(s, env) else s;
    TameSelf(s);
    DrainedTame(s, env);
    var (w, l) := AfterTryAcquire(t.leases, i);
    LeasesTame(t, l);
    TameTwice(s, t, t.(leases := l));
    if w.Some? {
      var d := Dispatch(i, t.slots[i].generation, w.value, Retry);
      EnqueuedTame(t.(leases := l), d);
      TameTwice(s, t.(leases := l), Enqueued(t.(leases := l), d));
    }
  }

  lemma {:induction false} RetriedTame(s: Server, i: nat, env: Engine)
    requires Inv(s) && QueueIn(s) && QueuedBelow(s, i) && i <= |s.slots|
    ensures Tame(s, RetriedFrom(s, i, env))
    decreases |s.slots| - i
  {
    hide Inv, Tame, RetryRequested;
    if i == |s.slots| {
      TameSelf(s);
    } else if !s.slots[i].open || s.slots[i].response.Some? {
      RetriedTame(s, i + 1, env);
    } else {
      var t := RetryRequested(s, i, env);
      RetryTame(s, i, env);
      RetryRequestedKeeps(s, i, env);
      RetriedTame(t, i + 1, env);
      TameTwice(s, t, RetriedFrom(t, i + 1, env));
    }
  }

  lemma {:induction false} WaitersWokenTame(s: Server, passes: nat, env: Engine)
    requires Inv(s) && QueueIn(s) && s.queue == []
    ensures Tame(s, WaitersWoken(s, passes, env))
    decreases passes
  {
    hide Inv, Tame, RetriedFrom, Drained, IsQueued;
    if passes == 0 {
      TameSelf(s);
    } else {
      var u := RetriedFrom(s, 0, env);
      RetriedKeeps(s, 0, env);
      RetriedTame(s, 0, env);
      DrainedKeeps(u, env, 0);
      DrainedTame(u, env);
      var t := Drained(u, env);
      var next := t.(tick := t.tick + 1);
      TameTwice(s, u, t);
      TickTame(t);
      TameTwice(s, t, next);
      TickKeeps(t, t.tick + 1);
      if !env(t.tick).stable {
        WaitersWokenTame(next, passes - 1, env);
        TameTwice(s, next, WaitersWoken(next, passes - 1, env));
      }
    }
  }

  lemma TickTame(s: Server)
    ensures Tame(s, s.(tick := s.tick + 1))
  {
    assert s.log + [] == s.log;
    TameBy(s, s.(tick := s.tick + 1), []);
  }

  lemma FinishedAtTame(s: Server, i: nat, failed: bool, env: Engine)
    requires Inv(s) && i < |s.slots|
    ensures Tame(s, FinishedAt(s, i, failed, env))
  {
    hide Tame, Completed, FinishedAt, FlushedSlot, ErrorSlot, ToldSlot, StandingOf, LeasesOk, QueueOk, LogOk;
    var slot, o := s.slots[i], env(s.tick);
    UnfoldFinished(s, i, failed, env);
    if Finishes(slot, s.durable, failed) {
      assert SlotOk(slot, i, i in s.leases.waiters, s.log, s.durable);
      var events := FinishEvents(slot, i, o, s.durable, failed);
      var u := s.(slots := s.slots[i := FlushedSlot(ToldSlot(slot, o, s.durable, failed), o)], tick := s.tick + 1,
                  log := s.log + events);
      ToldShape(slot, o, s.durable, failed);
      TameBy(s, u, events);
      CompletedTame(u, i, o.finish);
      TameTwice(s, u, Completed(u, i, o.finish));
    } else if Panics(slot, s.durable, failed) {
      TameBy(s, FinishedAt(s, i, failed, env), [Panicked(i)]);
    } else {
      TameSelf(s);
    }
  }

  lemma {:induction false} FinishedTame(s: Server, i: nat, failed: bool, env: Engine)
    requires Inv(s) && i <= |s.slots| && s.queue == []
    ensures Tame(s, FinishedFrom(s, i, failed, env))
    decreases |s.slots| - i
  {
    hide Inv, Tame, FinishedAt;
    if i == |s.slots| || s.down {
      TameSelf(s);
    } else {
      var t := FinishedAt(s, i, failed, env);
      FinishedAtTame(s, i, failed, env);
      FinishedAtKeeps(s, i, failed, env);
      FinishedTame(t, i + 1, failed, env);
      TameTwice(s, t, FinishedFrom(t, i + 1, failed, env));
    }
  }

  // ---------------------------------------------------------------- runs

  lemma QuietTame(s: Server, i: nat, n: nat)
    requires i < |s.slots| && s.slots[i].open
    ensures Tame(s, Notified(s, i, n)) && Tame(s, Expelled(s, i, n))
  {
    hide Tame, Appended, Reconciled;
    var slot := s.slots[i];
    var u := s.(slots := s.slots[i := slot.(out := Appended(slot.out, n, Plain))]);
    var v := s.(slots := s.slots[i := slot.(out := Appended(EMPTY, n, Plain), conn := Ended(slot.conn))],
                log := s.log + [Cleared(i)]);
    assert s.log + [] == s.log;
    TameBy(s, u, []);
    TameBy(s, v, [Cleared(i)]);
    CompletedTame(u, i, Continue);
    CompletedTame(v, i, Continue);
    TameTwice(s, u, Reconciled(u, i));
    TameTwice(s, v, Reconciled(v, i));
  }

  lemma SettledTame(s: Server, i: nat)
    requires i < |s.slots| && s.slots[i].detached
    ensures Tame(s, Settled(s, i))
  {
    hide Tame, Released;
    var slot := s.slots[i].(conn := s.slots[i].conn.(staged := None));
    var u := s.(slots := s.slots[i := slot]);
    assert s.log + [] == s.log;
    TameBy(s, u, []);
    ReleasedTame(u, i);
    TameTwice(s, u, Released(u, i));
  }

  /** Every step but accepting a connection only ages connections, and only a read that the gate lets
      through can add to the reads of its connection. */
  lemma StepTame(s: Server, op: Runs.Op, env: Engine)
    requires Inv(s) && QueueIn(s) && Runs.Enabled(s, op) && !op.Accept?
    ensures var t := Runs.Step(s, op, env);
      if op.Socket? then TameBut(s, t, op.slot) && (!LetIn(op, op.slot) ==> Tame(s, t)) else Tame(s, t)
  {
    hide Inv, Tame, TameBut, Dispatched, Drained, WaitersWoken, FinishedFrom, Completed, Settled, Notified, Expelled,
      LetIn;
    TameSelf(s);
    if op.Socket? { TameIsBut(s, s, op.slot); }
    if !s.down {
      match op {
        case Socket(_, _, _, _, _) => DispatchedTame(s, op, env);
        case Drain => DrainedTame(s, env);
        case Wake => WaitersWokenTame(s, |s.slots| + 1, env);
        case Publish(lsn) => PublishedTame(s, lsn);
        case Finish(failed) => FinishedTame(s, 0, failed, env);
        case Sync(i, n) => if i < |s.slots| && s.slots[i].open { QuietTame(s, i, n); }
        case Expel(i, n) => if i < |s.slots| && s.slots[i].open { QuietTame(s, i, n); }
        case Terminate(i) => if i < |s.slots| && s.slots[i].open { CompletedTame(s, i, Close); }
        case Settle(i) => if Runs.MaySettle(s, i) { SettledTame(s, i); }
      }
    }
  }

  lemma PublishedTame(s: Server, lsn: nat)
    ensures Tame(s, Published(s, lsn))
  {
    assert s.log + [] == s.log;
    TameBy(s, Published(s, lsn), []);
  }

  /** How many readable events of the connection found publication ready. */
  function Admissions(ops: seq<Runs.Op>, i: nat): nat
  {
    if ops == [] then 0 else (if LetIn(ops[0], i) then 1 else 0) + Admissions(ops[1..], i)
  }

  lemma StepCounts(s: Server, op: Runs.Op, env: Engine, i: nat)
    requires Inv(s) && QueueIn(s) && Runs.Enabled(s, op)
    ensures Total(Runs.Step(s, op, env), i) <= Total(s, i) + if LetIn(op, i) then 1 else 0
  {
    hide Inv, Runs.Step, Total;
    if op.Accept? { AcceptCounts(s, op, env, i); } else { StepTame(s, op, env); }
  }

  lemma AcceptCounts(s: Server, op: Runs.Op, env: Engine, i: nat)
    requires QueueIn(s) && op.Accept?
    ensures Total(Runs.Step(s, op, env), i) == Total(s, i)
    ensures var t := Runs.Step(s, op, env);
      |t.slots| == |s.slots| && (i < |s.slots| ==> t.slots[i].generation == s.slots[i].generation)
  {
  }

  lemma {:induction false} RunCounts(s: Server, ops: seq<Runs.Op>, env: Engine, i: nat)
    requires Inv(s) && Runs.Legal(s, ops, env)
    ensures Total(Runs.Run(s, ops, env), i) <= Total(s, i) + Admissions(ops, i)
    decreases |ops|
  {
    hide Inv, Runs.Step, Total;
    InvQueueIn(s);
    if ops != [] {
      Runs.StepKeeps(s, ops[0], env);
      StepCounts(s, ops[0], env, i);
      RunCounts(Runs.Step(s, ops[0], env), ops[1..], env, i);
    }
  }

  /** Over every run, a connection has no more reads queued and answered than readable events that found
      publication ready. */
  lemma ReadsAdmitted(connections: nat, workspaces: nat, ops: seq<Runs.Op>, env: Engine, i: nat)
    requires Runs.Possible(connections, workspaces, ops, env)
    ensures var s := Runs.Reached(connections, workspaces, ops, env);
      Reads(s.queue, i) + Answers(s.log, i) <= Admissions(ops, i)
  {
    Runs.StartOk(connections, workspaces);
    RunCounts(Runs.Start(connections, workspaces), ops, env, i);
  }

  /** A step brings a read into the queue only at a readable event for that very connection and generation
      that finds publication ready. */
  lemma ReadEnters(s: Server, op: Runs.Op, env: Engine, d: Dispatch)
    requires Inv(s) && QueueIn(s) && Runs.Enabled(s, op) && d.kind.Readable?
    requires d in Runs.Step(s, op, env).queue && d !in s.queue
    ensures LetIn(op, d.owner) && op.generation == d.generation
    ensures d.owner < |s.slots| && s.slots[d.owner].open && s.slots[d.owner].wantRead && !s.slots[d.owner].pending
  {
    hide Inv, Drained, AfterAcquire, Released, Completed, Written;
    if op.Socket? { SocketQueue(s, op, env, d); } else { StepQueue(s, op, env); }
  }

  lemma SocketQueue(s: Server, op: Runs.Op, env: Engine, d: Dispatch)
    requires QueueIn(s) && op.Socket? && d in Runs.Step(s, op, env).queue && d !in s.queue
    ensures LetIn(op, d.owner) && op.generation == d.generation
    ensures d.owner < |s.slots| && s.slots[d.owner].open && s.slots[d.owner].wantRead && !s.slots[d.owner].pending
  {
    hide Drained, AfterAcquire, Completed, Written;
  }

  lemma StepQueue(s: Server, op: Runs.Op, env: Engine)
    requires QueueIn(s) && !op.Socket? && Runs.Enabled(s, op)
    ensures var t := Runs.Step(s, op, env); t.queue == s.queue || t.queue == []
  {
    hide Drained, WaitersWoken, FinishedFrom, Released;
  }

  // ---------------------------------------------------------------- generations

  /** How often the slot was freed during the run: each time its generation changes. */
  ghost function Freed(s: Server, ops: seq<Runs.Op>, env: Engine, i: nat): nat
    requires Inv(s) && Runs.Legal(s, ops, env) && i < |s.slots|
    decreases |ops|
  {
    InvQueueIn(s);
    if ops == [] then 0
    else
      Runs.StepKeeps(s, ops[0], env);
      SameSlots(s, ops[0], env);
      var t := Runs.Step(s, ops[0], env);
      (if t.slots[i].generation == s.slots[i].generation then 0 else 1) + Freed(t, ops[1..], env, i)
  }

  lemma SameSlots(s: Server, op: Runs.Op, env: Engine)
    requires Inv(s) && QueueIn(s) && Runs.Enabled(s, op)
    ensures |Runs.Step(s, op, env).slots| == |s.slots|
  {
    hide Inv, Runs.Step;
    if op.Accept? { AcceptCounts(s, op, env, 0); } else { StepTame(s, op, env); }
  }

  /** A step moves the generation of a slot by one or not at all, and frees the slot when it does. */
  lemma StepGeneration(s: Server, op: Runs.Op, env: Engine, i: nat)
    requires Inv(s) && QueueIn(s) && Runs.Enabled(s, op) && i < |s.slots|
    ensures var t := Runs.Step(s, op, env);
      && |t.slots| == |s.slots|
      && (t.slots[i].generation == s.slots[i].generation
          || (t.slots[i].generation == Following(s.slots[i].generation) && Used(s.slots[i]) && !Used(t.slots[i])))
  {
    hide Inv, Runs.Step;
    if op.Accept? {
      AcceptCounts(s, op, env, i);
    } else {
      StepTame(s, op, env);
      assert Ages(s.slots[i], Runs.Step(s, op, env).slots[i]);
    }
  }

  lemma FollowingTimes(g: nat, n: nat)
    requires g < GENERATIONS
    ensures Following(g) < GENERATIONS && Following(g) != g
    ensures (Following(g) + n) % GENERATIONS == (g + 1 + n) % GENERATIONS
  {
  }

  /** The generation counts how often the slot was freed, modulo 2^32. */
  lemma {:induction false} GenerationCounts(s: Server, ops: seq<Runs.Op>, env: Engine, i: nat)
    requires Inv(s) && Runs.Legal(s, ops, env) && i < |s.slots| && s.slots[i].generation < GENERATIONS
    ensures |Runs.Run(s, ops, env).slots| == |s.slots|
    ensures Runs.Run(s, ops, env).slots[i].generation == (s.slots[i].generation + Freed(s, ops, env, i)) % GENERATIONS
    decreases |ops|
  {
    hide Inv, Runs.Step, Following;
    InvQueueIn(s);
    if ops != [] {
      var t := Runs.Step(s, ops[0], env);
      Runs.StepKeeps(s, ops[0], env);
      StepGeneration(s, ops[0], env, i);
      var g := s.slots[i].generation;
      FollowingTimes(g, Freed(t, ops[1..], env, i));
      GenerationCounts(t, ops[1..], env, i);
    }
  }

  /** Whatever happens after a connection was on a slot: an event addressed to its generation is ignored
      unless a multiple of 2^32 connections have left the slot since. With none, the slot is still its own. */
  lemma StaleIgnored(s: Server, ops: seq<Runs.Op>, env: Engine, i: nat, readable: bool, writable: bool, ready: bool)
    requires Inv(s) && Runs.Legal(s, ops, env) && i < |s.slots| && s.slots[i].generation < GENERATIONS
    ensures var t := Runs.Run(s, ops, env); var g := s.slots[i].generation;
      && QueueIn(t) && |t.slots| == |s.slots|
      && (t.slots[i].generation == g <==> Freed(s, ops, env, i) % GENERATIONS == 0)
      && (Freed(s, ops, env, i) % GENERATIONS != 0 ==> Dispatched(t, i, g, readable, writable, ready, env) == t)
  {
    hide Inv, Dispatched, Runs.Run;
    var t, g := Runs.Run(s, ops, env), s.slots[i].generation;
    GenerationCounts(s, ops, env, i);
    InvQueueIn(t);
    SameRemainder(g, Freed(s, ops, env, i));
    if t.slots[i].generation != g { EventIgnored(t, i, g, readable, writable, ready, env); }
  }

  lemma SameRemainder(g: nat, n: nat)
    requires g < GENERATIONS
    ensures (g + n) % GENERATIONS == g <==> n % GENERATIONS == 0
  {
  }

  // ---------------------------------------------------------------- the generations run out

  /** n connections come to the only slot of a server, and go. */
  function Visitors(n: nat): seq<Runs.Op>
  {
    if n == 0 then [] else [Runs.Accept(0), Runs.Terminate(0)] + Visitors(n - 1)
  }

  /** A server with one slot and no workspace, between two connections. */
  function Quiet(generation: nat, log: seq<Event>): Server
  {
    Server([VACANT.(generation := generation)], Leases([], [], 0), [], 0, 0, 0, false, log)
  }

  lemma QuietOk(generation: nat, n: nat)
    ensures Inv(Quiet(generation, Goodbyes(n)))
  {
    GoodbyesOk(n);
  }

  function Goodbyes(n: nat): seq<Event>
  {
    seq(n, _ => Gone(0))
  }

  lemma {:induction false} GoodbyesOk(n: nat)
    ensures StandingOf(Goodbyes(n), 0) == Absent && LogOk(Goodbyes(n), 0)
  {
    if n > 0 {
      GoodbyesOk(n - 1);
      assert Goodbyes(n) == Goodbyes(n - 1) + [Gone(0)];
      StandingNext(Goodbyes(n - 1), Gone(0), 0);
      LogGrows(Goodbyes(n - 1), Gone(0), 0);
    }
  }

  lemma OneVisitor(generation: nat, n: nat, env: Engine)
    requires generation < GENERATIONS
    ensures var s := Quiet(generation, Goodbyes(n)); var t := Runs.Step(s, Runs.Accept(0), env);
      && QueueIn(s) && QueueIn(t) && t.queue == [] && !t.down && |t.slots| == 1
      && t.slots[0].open && t.slots[0].wantRead && !t.slots[0].pending && t.slots[0].generation == generation
      && Runs.Step(t, Runs.Terminate(0), env) == Quiet(Following(generation), Goodbyes(n + 1))
  {
    var s := Quiet(generation, Goodbyes(n));
    var t := Runs.Step(s, Runs.Accept(0), env);
    assert AfterCancel(t.leases, 0) == (None, t.leases);
    assert Goodbyes(n) + [Gone(0)] == Goodbyes(n + 1);
    assert t.slots[0 := ClosedSlot(t.slots[0])] == [VACANT.(generation := Following(generation))];
  }

  lemma {:induction false} VisitorsPass(generation: nat, m: nat, n: nat, rest: seq<Runs.Op>, env: Engine)
    requires generation < GENERATIONS
    ensures var s, t := Quiet(generation, Goodbyes(m)), Quiet((generation + n) % GENERATIONS, Goodbyes(m + n));
      && Inv(s) && Inv(t)
      && (Runs.Legal(t, rest, env) ==>
            Runs.Legal(s, Visitors(n) + rest, env) && Runs.Run(s, Visitors(n) + rest, env) == Runs.Run(t, rest, env))
    decreases n
  {
    hide Runs.Step, Inv, LogOk, Following, Goodbyes;
    var s, ops := Quiet(generation, Goodbyes(m)), Visitors(n) + rest;
    QuietOk(generation, m);
    QuietOk((generation + n) % GENERATIONS, m + n);
    if n == 0 {
      assert ops == rest && (generation + n) % GENERATIONS == generation;
    } else {
      OneVisitor(generation, m, env);
      FollowingTimes(generation, n - 1);
      Runs.StepKeeps(s, Runs.Accept(0), env);
      Runs.StepKeeps(Runs.Step(s, Runs.Accept(0), env), Runs.Terminate(0), env);
      VisitorsPass(Following(generation), m + 1, n - 1, rest, env);
      assert ops[0] == Runs.Accept(0) && ops[1..] == [Runs.Terminate(0)] + (Visitors(n - 1) + rest);
      assert ops[1..][0] == Runs.Terminate(0) && ops[1..][1..] == Visitors(n - 1) + rest;
    }
  }

  /** Generations do run out. An event for the first connection of a server closes another connection when
      2^32 connections have left the slot in between. */
  lemma StaleTaken(env: Engine) returns (ops: seq<Runs.Op>)
    ensures Runs.Possible(1, 0, ops, env)
    ensures var s := Runs.Reached(1, 0, ops, env);
      && QueueIn(s) && |s.slots| == 1 && s.slots[0].open && s.slots[0].generation == 0
      && var t := Dispatched(s, 0, 0, true, false, false, env);
         |t.slots| == 1 && !t.slots[0].open
  {
    hide Inv, LogOk, Visitors, Goodbyes, Runs.Legal, Runs.Run, Runs.Step, Dispatched;
    var last := [Runs.Accept(0)];
    ops := Visitors(GENERATIONS) + last;
    VisitorsPass(0, 0, GENERATIONS, last, env);
    var s := Quiet(0, Goodbyes(GENERATIONS));
    OneVisitor(0, GENERATIONS, env);
    LastVisitor(s, env);
    StartIsQuiet();
    var t := Runs.Step(s, Runs.Accept(0), env);
    Runs.StepKeeps(s, Runs.Accept(0), env);
    GateCloses(t, 0, false, env);
  }

  lemma LastVisitor(s: Server, env: Engine)
    requires Inv(s) && !s.down
    ensures QueueIn(s) && Runs.Legal(s, [Runs.Accept(0)], env)
    ensures Runs.Run(s, [Runs.Accept(0)], env) == Runs.Step(s, Runs.Accept(0), env)
  {
    hide Inv, Runs.Step;
    InvQueueIn(s);
    Runs.StepKeeps(s, Runs.Accept(0), env);
  }

  lemma StartIsQuiet()
    ensures Runs.Start(1, 0) == Quiet(0, Goodbyes(0))
  {
  }
}
