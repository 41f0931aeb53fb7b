/** No workspace is leaked: after the waiters are woken, whoever holds one can use it. */
module ServerWake {
  import opened Options
  import opened WorkspaceLeases
  import opened SendBuffers
  import opened ServerCore
  import opened ServerInvariant
  import opened ServerSteps
  import Runs = ServerRuns

  // ---------------------------------------------------------------- only open connections

  predicate InRoster(l: Leases, j: nat)
  {
    Some(j) in l.owners || j in l.waiters
  }

  /** Only open connections hold workspaces or wait for one. */
  ghost predicate Placed(s: Server)
  {
    forall j: nat {:trigger InRoster(s.leases, j)} :: InRoster(s.leases, j) ==> j < |s.slots| && s.slots[j].open
  }

  lemma ReleaseRoster(l: Leases, x: nat, connections: nat, j: nat)
    requires LeasesOk(l, connections)
    ensures InRoster(AfterRelease(l, x).1, j) ==> InRoster(l, j) && (j == x ==> x in l.waiters)
  {
    ReleaseLoses(l, x, connections);
    var (h, m) := AfterRelease(l, x);
    if Some(j) in m.owners {
      var w :| 0 <= w < |m.owners| && m.owners[w] == Some(j);
      if l.owners[w] != Some(j) { assert h.Some? && h.value.owner == j; }
    }
  }

  lemma CancelRoster(l: Leases, x: nat, connections: nat, j: nat)
    requires LeasesOk(l, connections)
    ensures InRoster(AfterCancel(l, x).1, j) ==> InRoster(l, j) && j != x
  {
    WithoutWaiter(l.waiters, x);
    var r := l.(waiters := WithoutOwner(l.waiters, x));
    assert LeasesOk(r, connections) by {
      forall k | 0 <= k < |r.waiters| ensures r.waiters[k] < connections && Some(r.waiters[k]) !in r.owners {
        assert r.waiters[k] in l.waiters;
      }
    }
    ReleaseRoster(r, x, connections, j);
  }

  lemma AcquireRoster(l: Leases, x: nat, connections: nat, j: nat)
    requires LeasesOk(l, connections)
    ensures InRoster(AfterAcquire(l, x).1, j) ==> InRoster(l, j) || j == x
    ensures InRoster(AfterTryAcquire(l, x).1, j) ==> InRoster(l, j) || j == x
  {
    WithoutWaiter(l.waiters, x);
  }

  /** Same connections, and nobody new on the roster. */
  lemma PlacedSame(s: Server, t: Server)
    requires Placed(s) && |t.slots| == |s.slots|
    requires forall j {:trigger t.slots[j]} :: 0 <= j < |s.slots| ==> t.slots[j].open == s.slots[j].open
    requires forall j: nat {:trigger InRoster(t.leases, j)} :: InRoster(t.leases, j) ==> InRoster(s.leases, j)
    ensures Placed(t)
  {
    forall j: nat | InRoster(t.leases, j) ensures j < |t.slots| && t.slots[j].open {
      assert InRoster(s.leases, j);
    }
  }

  lemma {:induction false} WokenPlaced(s: Server, h: Option<Handoff>)
    requires LeasesOk(s.leases, |s.slots|) && Placed(s)
    ensures Placed(Woken(s, h)) && LeasesOk(Woken(s, h).leases, |s.slots|)
    decreases |s.leases.waiters| + (if h.Some? then 1 else 0)
  {
    hide LeasesOk, AfterCancel, InRoster;
    if h.Some? {
      var i := h.value.owner;
      if i >= |s.slots| || !s.slots[i].open || !WantsRead(s.slots[i].conn) {
        var (next, l) := AfterCancel(s.leases, i);
        CancelLoses(s.leases, i, |s.slots|);
        CancelShortens(s.leases, i);
        forall j: nat ensures InRoster(l, j) ==> InRoster(s.leases, j) { CancelRoster(s.leases, i, |s.slots|, j); }
        PlacedSame(s, s.(leases := l));
        WokenPlaced(s.(leases := l), next);
      } else {
        PlacedSame(s, Woken(s, h));
      }
    }
  }

  lemma ReleasedPlaced(s: Server, i: nat)
    requires LeasesOk(s.leases, |s.slots|) && Placed(s) && i < |s.slots|
    ensures Placed(Released(s, i))
  {
    hide LeasesOk, AfterCancel, InRoster;
    var (h, l) := AfterCancel(s.leases, i);
    var t := s.(leases := l, slots := s.slots[i := ClosedSlot(s.slots[i])], log := s.log + [Gone(i)]);
    CancelLoses(s.leases, i, |s.slots|);
    forall j: nat | InRoster(l, j) ensures j < |t.slots| && t.slots[j].open {
      CancelRoster(s.leases, i, |s.slots|, j);
    }
    WokenPlaced(t, h);
  }

  lemma CompletedPlaced(s: Server, i: nat, after: After)
    requires LeasesOk(s.leases, |s.slots|) && Placed(s) && i < |s.slots|
    ensures Placed(Completed(s, i, after))
  {
    hide LeasesOk, InRoster;
    if after.Close? { ReleasedPlaced(s, i); } else { PlacedSame(s, Reconciled(s, i)); }
  }

  lemma InterruptedPlaced(s: Server, o: Outcome)
    requires Placed(s)
    ensures Placed(Interrupted(s, o)) && Interrupted(s, o).leases == s.leases
  {
    hide InRoster, Appended;
    PlacedSame(s, Interrupted(s, o));
  }

  lemma DequeuedPlaced(s: Server, slot: Slot, journal: nat)
    requires LeasesOk(s.leases, |s.slots|) && Placed(s) && s.queue != [] && QueueIn(s)
    requires slot.open == s.slots[s.queue[0].owner].open
    ensures Placed(Dequeued(s, slot, journal))
  {
    hide LeasesOk, AfterRelease, InRoster;
    var i := s.queue[0].owner;
    var (h, l) := AfterRelease(s.leases, i);
    ReleaseLoses(s.leases, i, |s.slots|);
    forall j: nat ensures InRoster(l, j) ==> InRoster(s.leases, j) { ReleaseRoster(s.leases, i, |s.slots|, j); }
    var t := Popped(s, slot, journal).(leases := l);
    PlacedSame(s, t);
    WokenPlaced(t, h);
  }

  lemma ExecutedPlaced(s: Server, env: Engine)
    requires Inv(s) && Placed(s) && s.queue != [] && QueueIn(s)
    ensures Placed(Executed(s, env))
  {
    hide Inv, LeasesOk, Placed, Dequeued, Completed, Interrupted, Flushed, RunSlot, Answer, IsQueued, Untouched,
      StreamEvents, PlaceOf;
    var o, d, i := env(s.tick), s.queue[0], s.queue[0].owner;
    InvLeases(s);
    if Declined(s, o) {
      DequeuedPlaced(s, s.slots[i].(pending := false), s.journal);
    } else {
      var slot, r := RunSlot(s, o), Answer(s, o);
      RunShape(s, o);
      var u := Logged(s, StreamEvents(s, o));
      LoggedPlaced(s, StreamEvents(s, o));
      DequeuedPlaced(u, slot, r.after);
      var t := Dequeued(u, slot, r.after);
      DequeuedLeases(u, slot, r.after);
      AnsweredPlaced(t, i, r, d.kind, PlaceOf(s, o), o);
    }
  }

  lemma LoggedPlaced(s: Server, more: seq<Event>)
    requires Placed(s)
    ensures Placed(Logged(s, more))
  {
    hide InRoster;
    PlacedSame(s, Logged(s, more));
  }

  lemma RunShape(s: Server, o: Outcome)
    requires s.queue != [] && QueueIn(s)
    ensures var (slot, was) := (RunSlot(s, o), s.slots[s.queue[0].owner]);
      slot == was.(pending := false, conn := slot.conn, out := slot.out)
  {
  }

  lemma DequeuedLeases(s: Server, slot: Slot, journal: nat)
    requires LeasesOk(s.leases, |s.slots|) && s.queue != [] && QueueIn(s)
    ensures LeasesOk(Dequeued(s, slot, journal).leases, |s.slots|)
  {
    hide LeasesOk, AfterRelease;
    var i := s.queue[0].owner;
    ReleaseLoses(s.leases, i, |s.slots|);
    WokenLeases(Popped(s, slot, journal).(leases := AfterRelease(s.leases, i).1), AfterRelease(s.leases, i).0);
  }

  lemma {:induction false} WokenLeases(s: Server, h: Option<Handoff>)
    requires LeasesOk(s.leases, |s.slots|)
    ensures LeasesOk(Woken(s, h).leases, |s.slots|)
    decreases |s.leases.waiters| + (if h.Some? then 1 else 0)
  {
    hide LeasesOk, AfterCancel;
    if h.Some? {
      var i := h.value.owner;
      if i >= |s.slots| || !s.slots[i].open || !WantsRead(s.slots[i].conn) {
        var (next, l) := AfterCancel(s.leases, i);
        CancelLoses(s.leases, i, |s.slots|);
        CancelShortens(s.leases, i);
        WokenLeases(s.(leases := l), next);
      }
    }
  }

  lemma AnsweredPlaced(s: Server, i: nat, r: Response, kind: Kind, place: Place, o: Outcome)
    requires LeasesOk(s.leases, |s.slots|) && Placed(s) && i < |s.slots|
    ensures Placed(Answered(s, i, r, kind, place, o))
  {
    hide LeasesOk, InRoster, Completed, FlushedSlot;
    if o.after.Close? {
      var u := Flushed(s, i, o, OnClose);
      FlushedOpen(s.slots[i], o);
      PlacedSame(s, u);
      InterruptedPlaced(u, o);
      CompletedPlaced(Interrupted(u, o), i, o.finish);
    } else {
      var u := Stored(s, i, r, kind, place);
      PlacedSame(s, u);
      InterruptedPlaced(u, o);
    }
  }

  lemma FlushedOpen(slot: Slot, o: Outcome)
    ensures FlushedSlot(slot, o).open == slot.open && FlushedSlot(slot, o).response == slot.response
  {
  }

  lemma {:induction false} DrainedPlaced(s: Server, env: Engine)
    requires Inv(s) && Placed(s) && QueueIn(s)
    ensures Placed(Drained(s, env))
    decreases |s.queue|
  {
    hide Inv, Placed, Executed, IsQueued;
    if s.queue != [] {
      ExecutedKeeps(s, env, s.queue[0].owner);
      ExecutedPlaced(s, env);
      InvQueueIn(Executed(s, env));
      DrainedPlaced(Executed(s, env), env);
    }
  }

  // ---------------------------------------------------------------- holders that can run

  predicate Holds(l: Leases, i: nat)
  {
    Some(i) in l.owners
  }

  /** A holder below `from` is queued, reads, or has a response that waits. */
  ghost predicate Active(s: Server, i: nat)
    requires i < |s.slots|
  {
    IsQueued(s, i) || s.slots[i].wantRead || s.slots[i].response.Some?
  }

  ghost predicate Served(s: Server, from: nat)
  {
    forall i: nat {:trigger Holds(s.leases, i)} :: Holds(s.leases, i) && i < |s.slots| && i < from ==> Active(s, i)
  }

  /** Whoever a workspace is handed to reads. */
  lemma {:induction false} WokenHolders(s: Server, h: Option<Handoff>, j: nat)
    requires LeasesOk(s.leases, |s.slots|) && j < |s.slots|
    requires h.Some? ==>
      h.value.workspace < |s.leases.owners| && s.leases.owners[h.value.workspace] == Some(h.value.owner)
    ensures Holds(Woken(s, h).leases, j) ==>
      Woken(s, h).slots[j].wantRead || (Holds(s.leases, j) && (h.Some? ==> j != h.value.owner))
    decreases |s.leases.waiters| + (if h.Some? then 1 else 0)
  {
    hide LeasesOk, AfterCancel;
    if h.Some? {
      var i := h.value.owner;
      if i >= |s.slots| || !s.slots[i].open || !WantsRead(s.slots[i].conn) {
        var (next, l) := AfterCancel(s.leases, i);
        CancelLoses(s.leases, i, |s.slots|);
        CancelShortens(s.leases, i);
        WokenHolders(s.(leases := l), next, j);
        CancelHolder(s.leases, i, |s.slots|, j);
      }
    }
  }

  lemma CancelHolder(l: Leases, x: nat, connections: nat, j: nat)
    requires LeasesOk(l, connections)
    ensures var (h, m) := AfterCancel(l, x);
      Holds(m, j) ==> j != x && (Holds(l, j) || (h.Some? && h.value.owner == j))
  {
    CancelLoses(l, x, connections);
    CancelRoster(l, x, connections, j);
    var (h, m) := AfterCancel(l, x);
    if Holds(m, j) && !Holds(l, j) {
      var w :| 0 <= w < |m.owners| && m.owners[w] == Some(j);
    }
  }

  lemma ReleaseHolder(l: Leases, x: nat, connections: nat, j: nat)
    requires LeasesOk(l, connections) && x !in l.waiters
    ensures var (h, m) := AfterRelease(l, x);
      Holds(m, j) ==> j != x && (Holds(l, j) || (h.Some? && h.value.owner == j))
  {
    ReleaseRoster(l, x, connections, j);
    var (h, m) := AfterRelease(l, x);
    if Holds(m, j) && !Holds(l, j) {
      var w :| 0 <= w < |m.owners| && m.owners[w] == Some(j);
    }
  }

  /** After a dispatch gives its workspace back, holders other than its owner were holders or read. */
  lemma DequeuedHolder(s: Server, slot: Slot, journal: nat, j: nat)
    requires LeasesOk(s.leases, |s.slots|) && s.queue != [] && QueueIn(s) && j < |s.slots|
    requires s.queue[0].owner !in s.leases.waiters
    ensures var t := Dequeued(s, slot, journal);
      Holds(t.leases, j) ==> t.slots[j].wantRead || (Holds(s.leases, j) && j != s.queue[0].owner)
  {
    hide LeasesOk, AfterRelease;
    var i := s.queue[0].owner;
    var (h, l) := AfterRelease(s.leases, i);
    ReleaseLoses(s.leases, i, |s.slots|);
    ReleaseHolder(s.leases, i, |s.slots|, j);
    WokenHolders(Popped(s, slot, journal).(leases := l), h, j);
  }

  lemma {:induction false} WokenRoster(s: Server, h: Option<Handoff>, j: nat)
    requires LeasesOk(s.leases, |s.slots|)
    ensures InRoster(Woken(s, h).leases, j) ==> InRoster(s.leases, j)
    decreases |s.leases.waiters| + (if h.Some? then 1 else 0)
  {
    hide LeasesOk, AfterCancel, InRoster;
    if h.Some? {
      var i := h.value.owner;
      if i >= |s.slots| || !s.slots[i].open || !WantsRead(s.slots[i].conn) {
        var (next, l) := AfterCancel(s.leases, i);
        CancelLoses(s.leases, i, |s.slots|);
        CancelShortens(s.leases, i);
        CancelRoster(s.leases, i, |s.slots|, j);
        WokenRoster(s.(leases := l), next, j);
      }
    }
  }

  lemma DequeuedOwner(s: Server, slot: Slot, journal: nat)
    requires LeasesOk(s.leases, |s.slots|) && s.queue != [] && QueueIn(s) && s.queue[0].owner !in s.leases.waiters
    ensures !Holds(Dequeued(s, slot, journal).leases, s.queue[0].owner)
  {
    hide LeasesOk, AfterRelease;
    var i := s.queue[0].owner;
    var (h, l) := AfterRelease(s.leases, i);
    ReleaseLoses(s.leases, i, |s.slots|);
    ReleaseRoster(s.leases, i, |s.slots|, i);
    WokenRoster(Popped(s, slot, journal).(leases := l), h, i);
  }

  /** Interrupting a statement takes nothing from a holder: one that reads is not parked. */
  lemma InterruptedHolder(s: Server, o: Outcome, j: nat)
    requires Inv(s) && j < |s.slots| && Active(s, j)
    ensures Active(Interrupted(s, o), j)
  {
    hide LeasesOk, Appended;
    var t := Interrupted(s, o);
    SameQueue(s, t, j);
    assert SlotOk(s.slots[j], j, j in s.leases.waiters, s.log, s.durable);
  }

  lemma ReleasedHolder(s: Server, i: nat, j: nat)
    requires LeasesOk(s.leases, |s.slots|) && i < |s.slots| && j < |s.slots| && j != i
    requires Holds(s.leases, j) ==> Active(s, j)
    ensures Holds(Released(s, i).leases, j) ==> Active(Released(s, i), j)
  {
    hide LeasesOk, AfterCancel;
    var (h, l) := AfterCancel(s.leases, i);
    var u := s.(leases := l, slots := s.slots[i := ClosedSlot(s.slots[i])], log := s.log + [Gone(i)]);
    var t := Woken(u, h);
    CancelLoses(s.leases, i, |s.slots|);
    CancelHolder(s.leases, i, |s.slots|, j);
    WokenHolders(u, h, j);
    WokenSlots(u, h);
    SameQueue(s, t, j);
  }

  lemma ReleasedOwner(s: Server, i: nat)
    requires LeasesOk(s.leases, |s.slots|) && i < |s.slots|
    ensures !Holds(Released(s, i).leases, i)
  {
    hide LeasesOk, AfterCancel;
    var (h, l) := AfterCancel(s.leases, i);
    var u := s.(leases := l, slots := s.slots[i := ClosedSlot(s.slots[i])], log := s.log + [Gone(i)]);
    CancelLoses(s.leases, i, |s.slots|);
    CancelRoster(s.leases, i, |s.slots|, i);
    WokenRoster(u, h, i);
  }

  lemma CompletedHolder(s: Server, i: nat, after: After, j: nat)
    requires LeasesOk(s.leases, |s.slots|) && i < |s.slots| && j < |s.slots| && !Holds(s.leases, i)
    requires Holds(s.leases, j) ==> Active(s, j)
    ensures Holds(Completed(s, i, after).leases, j) ==> Active(Completed(s, i, after), j)
  {
    hide LeasesOk, Holds;
    if after.Close? {
      if j == i { ReleasedOwner(s, i); } else { ReleasedHolder(s, i, j); }
    } else {
      SameQueue(s, Reconciled(s, i), j);
    }
  }

  lemma AnsweredHolder(s: Server, i: nat, r: Response, kind: Kind, place: Place, o: Outcome, j: nat)
    requires Inv(s) && i < |s.slots| && !IsQueued(s, i) && s.slots[i].open
    requires !s.slots[i].wantRead && i !in s.leases.waiters && ResponseOk(r, s.durable)
    requires !StandingOf(s.log, i).Waits? && (StandingOf(s.log, i).Exposed? ==> kind.Readable?)
    requires j < |s.slots| && !Holds(s.leases, i) && (Holds(s.leases, j) ==> Active(s, j))
    ensures var t := Answered(s, i, r, kind, place, o); Holds(t.leases, j) ==> Active(t, j)
  {
    hide Inv, IsQueued, ResponseOk, StandingOf, Completed, Holds, FlushedSlot, Interrupted;
    if o.after.Close? {
      var u := Flushed(s, i, o, OnClose);
      FlushedKeeps(s, i, o, OnClose);
      SameQueue(s, u, j);
      if Holds(s.leases, j) { InterruptedHolder(u, o, j); }
      var t := Interrupted(u, o);
      InterruptedKeeps(u, o, i);
      InvLeases(t);
      CompletedHolder(t, i, o.finish, j);
    } else {
      var u := Stored(s, i, r, kind, place);
      StoredKeeps(s, i, r, kind, place);
      SameQueue(s, u, j);
      if Holds(s.leases, j) { InterruptedHolder(u, o, j); }
    }
  }

  lemma LoggedActive(s: Server, more: seq<Event>, j: nat)
    requires j < |s.slots| && Active(s, j)
    ensures Active(Logged(s, more), j)
  {
    SameQueue(s, Logged(s, more), j);
  }

  /** A holder stays active while another connection gives its workspace back. */
  lemma RunHolder(s: Server, slot: Slot, journal: nat, j: nat)
    requires Inv(s) && s.queue != [] && QueueIn(s) && j < |s.slots| && Runnable(s, slot)
    requires Holds(s.leases, j) && j != s.queue[0].owner ==> Active(s, j)
    ensures var (t, i) := (Dequeued(s, slot, journal), s.queue[0].owner);
      && Inv(t) && !IsQueued(t, i) && i !in t.leases.waiters && t.slots[i] == slot && |t.slots| == |s.slots|
      && t.log == s.log && t.durable == s.durable && !Holds(t.leases, i)
      && (Holds(t.leases, j) ==> Active(t, j))
  {
    hide Inv, LeasesOk, Dequeued, Runnable, Untouched, IsQueued, Holds;
    var i := s.queue[0].owner;
    InvLeases(s);
    HolderNotWaiting(s, i);
    DequeuedHolder(s, slot, journal, j);
    DequeuedOwner(s, slot, journal);
    DequeuedKeeps(s, slot, journal, j);
    if j != i { DequeuedOther(s, slot, journal, j); }
  }

  /** A holder stays active while another connection executes. */
  lemma ExecutedHolder(s: Server, env: Engine, j: nat)
    requires Inv(s) && s.queue != [] && QueueIn(s) && j < |s.slots|
    requires Holds(s.leases, j) && j != s.queue[0].owner ==> Active(s, j)
    ensures Holds(Executed(s, env).leases, j) ==> Active(Executed(s, env), j)
  {
    hide Inv, LeasesOk, Dequeued, RunSlot, Answer, Untouched, IsQueued, StandingOf, Holds, Answered, StreamEvents,
      PlaceOf, Active;
    var o, d, i := env(s.tick), s.queue[0], s.queue[0].owner;
    HolderNotWaiting(s, i);
    RunShape(s, o);
    if Declined(s, o) {
      RunHolder(s, s.slots[i].(pending := false), s.journal, j);
    } else {
      var u := Logged(s, StreamEvents(s, o));
      StreamKeeps(s, o, j);
      if Active(s, j) { LoggedActive(s, StreamEvents(s, o), j); }
      HolderNotWaiting(u, i);
      RunHolder(u, RunSlot(s, o), Answer(s, o).after, j);
      AnswerOk(s, o);
      AnsweredHolder(Dequeued(u, RunSlot(s, o), Answer(s, o).after), i, Answer(s, o), d.kind, PlaceOf(s, o), o, j);
    }
  }

  /** Another slot after a dispatch: its place in the queue, its response and its reading are kept. */
  lemma DequeuedOther(s: Server, slot: Slot, journal: nat, j: nat)
    requires s.queue != [] && QueueIn(s) && j < |s.slots| && j != s.queue[0].owner
    ensures var t := Dequeued(s, slot, journal); Active(s, j) ==> Active(t, j)
  {
    var i, t := s.queue[0].owner, Dequeued(s, slot, journal);
    var (h, l) := AfterRelease(s.leases, i);
    WokenSlots(Popped(s, slot, journal).(leases := l), h);
    PoppedOthersQueued(s, t, j);
  }

  lemma ExecutedServed(s: Server, env: Engine, from: nat)
    requires Inv(s) && s.queue != [] && QueueIn(s) && Served(s, from)
    ensures Served(Executed(s, env), from)
  {
    hide Inv, Executed, Active;
    var t := Executed(s, env);
    forall j: nat | Holds(t.leases, j) && j < |t.slots| && j < from ensures Active(t, j) {
      ExecutedHolder(s, env, j);
    }
  }

  lemma {:induction false} DrainedServed(s: Server, env: Engine, from: nat)
    requires Inv(s) && QueueIn(s) && Served(s, from)
    ensures Served(Drained(s, env), from)
    decreases |s.queue|
  {
    hide Inv, Served, Executed, IsQueued;
    if s.queue != [] {
      ExecutedKeeps(s, env, s.queue[0].owner);
      ExecutedServed(s, env, from);
      InvQueueIn(Executed(s, env));
      DrainedServed(Executed(s, env), env, from);
    }
  }

  // ---------------------------------------------------------------- a retry pass

  /** A slot that has been passed holds a workspace only if it is queued, reads or waits. */
  lemma RetryServed(s: Server, i: nat, env: Engine)
    requires Inv(s) && QueueIn(s) && QueuedBelow(s, i) && i < |s.slots| && Served(s, i) && Placed(s)
    requires s.slots[i].open && s.slots[i].response.None?
    ensures Served(RetryRequested(s, i, env), i + 1) && Placed(RetryRequested(s, i, env))
  {
    hide Inv, LeasesOk, AfterTryAcquire, Drained, Holds, InRoster, Untouched, IsQueued;
    var t := if AfterTryAcquire(s.leases, i).0.None? && s.queue != [] then Drained(s, env) else s;
    if t != s {
      DrainedKeeps(s, env, i);
      DrainedServed(s, env, i);
      DrainedPlaced(s, env);
      NotQueuedNotPending(s, i);
      NotPendingNotQueued(s, i);
      UntouchedOpen(s, t, i);
    }
    InvLeases(t);
    RequestServed(t, i, t.slots[i].generation);
  }

  lemma RequestServed(t: Server, i: nat, generation: nat)
    requires LeasesOk(t.leases, |t.slots|) && i < |t.slots| && Served(t, i) && Placed(t) && t.slots[i].open
    ensures var (w, l) := AfterTryAcquire(t.leases, i);
      var u := if w.None? then t else Enqueued(t.(leases := l), Dispatch(i, generation, w.value, Retry));
      Served(u, i + 1) && Placed(u)
  {
    hide LeasesOk, AfterTryAcquire;
    var (w, l) := AfterTryAcquire(t.leases, i);
    TryAcquireKeeps(t.leases, i, |t.slots|);
    var u := if w.None? then t else Enqueued(t.(leases := l), Dispatch(i, generation, w.value, Retry));
    forall j: nat
      ensures InRoster(l, j) ==> InRoster(t.leases, j) || j == i
    {
      AcquireRoster(t.leases, i, |t.slots|, j);
    }
    forall j: nat | InRoster(u.leases, j) ensures j < |u.slots| && u.slots[j].open {
      assert InRoster(t.leases, j) || j == i;
    }
    forall j: nat | Holds(u.leases, j) && j < |u.slots| && j < i + 1 ensures Active(u, j) {
      if j == i {
        if w.None? { assert false; }
        assert u.queue[|t.queue|].owner == i;
      } else {
        if w.Some? { AcquireHolder(t.leases, i, |t.slots|, j); }
        assert Active(t, j);
        if IsQueued(t, j) {
          var k :| 0 <= k < |t.queue| && t.queue[k].owner == j;
          assert u.queue[k].owner == j;
        }
      }
    }
  }

  lemma AcquireHolder(l: Leases, x: nat, connections: nat, j: nat)
    requires LeasesOk(l, connections) && j != x
    ensures Holds(AfterTryAcquire(l, x).1, j) ==> Holds(l, j)
  {
  }

  lemma {:induction false} RetriedServed(s: Server, i: nat, env: Engine)
    requires Inv(s) && QueueIn(s) && QueuedBelow(s, i) && i <= |s.slots| && Served(s, i) && Placed(s)
    ensures Served(RetriedFrom(s, i, env), |s.slots|) && Placed(RetriedFrom(s, i, env))
    decreases |s.slots| - i
  {
    hide Inv, RetryRequested, Holds, IsQueued;
    if i < |s.slots| {
      if !s.slots[i].open || s.slots[i].response.Some? {
        assert Served(s, i + 1) by { PassedOver(s, i); }
        RetriedServed(s, i + 1, env);
      } else {
        RetryRequestedKeeps(s, i, env);
        RetryServed(s, i, env);
        RetriedServed(RetryRequested(s, i, env), i + 1, env);
      }
    }
  }

  lemma PassedOver(s: Server, i: nat)
    requires i < |s.slots| && Served(s, i) && Placed(s) && (!s.slots[i].open || s.slots[i].response.Some?)
    ensures Served(s, i + 1)
  {
    forall j: nat | Holds(s.leases, j) && j < |s.slots| && j < i + 1 ensures Active(s, j) {
      if j == i { assert InRoster(s.leases, i); }
    }
  }

  /** Every leased workspace belongs to an open connection that reads or has a response that waits. */
  ghost predicate AllUsed(t: Server)
  {
    forall i: nat :: Holds(t.leases, i) ==>
      i < |t.slots| && t.slots[i].open && (t.slots[i].wantRead || t.slots[i].response.Some?)
  }

  /** After a wake, no workspace is leaked. */
  lemma {:induction false} NoneLeaked(s: Server, passes: nat, env: Engine)
    requires Inv(s) && QueueIn(s) && s.queue == [] && Placed(s) && passes > 0
    ensures AllUsed(WaitersWoken(s, passes, env))
    decreases passes
  {
    hide Inv, RetriedFrom, Drained, Served, Placed, IsQueued, Holds, AllUsed;
    var u := RetriedFrom(s, 0, env);
    assert Served(s, 0) by { NoneBelow(s); }
    RetriedKeeps(s, 0, env);
    RetriedServed(s, 0, env);
    DrainedKeeps(u, env, 0);
    DrainedServed(u, env, |s.slots|);
    DrainedPlaced(u, env);
    var t := Drained(u, env).(tick := Drained(u, env).tick + 1);
    Ticked(Drained(u, env), t.tick);
    if env(t.tick - 1).stable || passes == 1 {
      AllServed(t);
    } else {
      TickKeeps(Drained(u, env), t.tick);
      NoneLeaked(t, passes - 1, env);
      assert WaitersWoken(s, passes, env) == WaitersWoken(t, passes - 1, env);
    }
  }

  lemma NoneBelow(s: Server)
    ensures Served(s, 0)
  {
  }

  lemma Ticked(s: Server, tick: nat)
    requires Served(s, |s.slots|) && Placed(s)
    ensures Served(s.(tick := tick), |s.slots|) && Placed(s.(tick := tick))
  {
    var t := s.(tick := tick);
    forall i: nat | Holds(t.leases, i) && i < |t.slots| ensures Active(t, i) {
      assert Holds(s.leases, i) && Active(s, i);
      SameQueue(s, t, i);
    }
    PlacedSame(s, t);
  }

  lemma AllServed(t: Server)
    requires Served(t, |t.slots|) && Placed(t) && t.queue == []
    ensures AllUsed(t)
  {
    forall i: nat | Holds(t.leases, i)
      ensures i < |t.slots| && t.slots[i].open && (t.slots[i].wantRead || t.slots[i].response.Some?)
    {
      assert InRoster(t.leases, i);
      assert Active(t, i);
      EmptyQueue(t, i);
    }
  }

  // ---------------------------------------------------------------- over every run

  lemma RequestedPlaced(s: Server, i: nat, generation: nat)
    requires LeasesOk(s.leases, |s.slots|) && Placed(s) && i < |s.slots| && s.slots[i].open
    ensures Placed(Requested(s, i, generation))
  {
    hide LeasesOk, AfterAcquire, InRoster;
    var t := Requested(s, i, generation);
    forall j: nat | InRoster(t.leases, j) ensures j < |t.slots| && t.slots[j].open {
      AcquireRoster(s.leases, i, |s.slots|, j);
    }
  }

  lemma ReadRequestedPlaced(s: Server, i: nat, generation: nat, env: Engine)
    requires Inv(s) && Placed(s) && QueueIn(s) && Idle(s, i, generation)
    ensures Placed(ReadRequested(s, i, generation, env))
  {
    hide Inv, Placed, LeasesOk, AfterAcquire, StandingOf, Requested, Drained, Untouched;
    var (w, l) := AfterAcquire(s.leases, i);
    InvLeases(s);
    if w.Some? || s.queue == [] {
      RequestedPlaced(s, i, generation);
    } else {
      var t := s.(leases := l);
      AcquireKeeps(s.leases, i, |s.slots|);
      AcquireGains(s.leases, i, |s.slots|);
      GainKeeps(s, l, i);
      AcquiredPlaced(s, i);
      NotPendingNotQueued(t, i);
      DrainedKeeps(t, env, i);
      DrainedPlaced(t, env);
      var u := Drained(t, env);
      StillIdle(t, u, i, generation);
      InvLeases(u);
      RequestedPlaced(u, i, generation);
    }
  }

  lemma AcquiredPlaced(s: Server, i: nat)
    requires LeasesOk(s.leases, |s.slots|) && Placed(s) && i < |s.slots| && s.slots[i].open
    ensures Placed(s.(leases := AfterAcquire(s.leases, i).1))
  {
    hide LeasesOk, AfterAcquire, InRoster;
    forall j: nat | InRoster(AfterAcquire(s.leases, i).1, j) ensures j < |s.slots| && s.slots[j].open {
      AcquireRoster(s.leases, i, |s.slots|, j);
    }
  }

  lemma DispatchedPlaced(s: Server, i: nat, generation: nat, readable: bool, writable: bool, ready: bool, env: Engine)
    requires Inv(s) && Placed(s) && QueueIn(s)
    ensures Placed(Dispatched(s, i, generation, readable, writable, ready, env))
  {
    hide Inv, Placed, LeasesOk, Completed, ReadRequested, Written, StandingOf;
    InvLeases(s);
    if i < |s.slots| && s.slots[i].generation == generation && s.slots[i].open && !s.slots[i].pending {
      if readable && !s.slots[i].wantRead {
      } else if readable && !ready {
        CompletedPlaced(s, i, Close);
      } else if readable {
        ReadingNotParked(s, i);
        ReadRequestedPlaced(s, i, generation, env);
      } else if writable {
        WrittenPlaced(s, i, env(s.tick));
      } else {
        CompletedPlaced(s, i, Continue);
      }
    }
  }

  lemma WrittenPlaced(s: Server, i: nat, o: Outcome)
    requires LeasesOk(s.leases, |s.slots|) && Placed(s) && i < |s.slots|
    ensures Placed(Written(s, i, o))
  {
    hide LeasesOk, InRoster, Completed, Written, Appended, Consumed;
    UnfoldWritten(s, i, o);
    var t := s.(slots := s.slots[i := WrittenSlot(s.slots[i], o)], tick := s.tick + 1,
                log := s.log + [SentEvent(s.slots[i], i, o, OnWritable, s.durable)]);
    PlacedSame(s, t);
    CompletedPlaced(t, i, o.finish);
  }

  lemma {:induction false} WaitersWokenPlaced(s: Server, passes: nat, env: Engine)
    requires Inv(s) && Placed(s) && QueueIn(s) && s.queue == []
    ensures Placed(WaitersWoken(s, passes, env))
    decreases passes
  {
    hide Inv, RetriedFrom, Drained, Served, Placed, IsQueued, Holds;
    if passes > 0 {
      var u := RetriedFrom(s, 0, env);
      NoneBelow(s);
      RetriedKeeps(s, 0, env);
      RetriedServed(s, 0, env);
      DrainedKeeps(u, env, 0);
      DrainedServed(u, env, |s.slots|);
      DrainedPlaced(u, env);
      var d := Drained(u, env);
      Ticked(d, d.tick + 1);
      TickKeeps(d, d.tick + 1);
      WaitersWokenPlaced(d.(tick := d.tick + 1), passes - 1, env);
    }
  }

  lemma FinishedAtPlaced(s: Server, i: nat, failed: bool, env: Engine)
    requires LeasesOk(s.leases, |s.slots|) && Placed(s) && i < |s.slots|
    ensures Placed(FinishedAt(s, i, failed, env))
  {
    hide LeasesOk, InRoster, Completed, FinishedAt, FinishEvents, ErrorSlot, FlushedSlot;
    var slot, o := s.slots[i], env(s.tick);
    UnfoldFinished(s, i, failed, env);
    if Finishes(slot, s.durable, failed) {
      ToldShape(slot, o, s.durable, failed);
      var t := s.(slots := s.slots[i := FlushedSlot(ToldSlot(slot, o, s.durable, failed), o)], tick := s.tick + 1,
                  log := s.log + FinishEvents(slot, i, o, s.durable, failed));
      PlacedSame(s, t);
      CompletedPlaced(t, i, o.finish);
    } else {
      PlacedSame(s, FinishedAt(s, i, failed, env));
    }
  }

  lemma {:induction false} FinishedPlaced(s: Server, i: nat, failed: bool, env: Engine)
    requires Inv(s) && Placed(s) && i <= |s.slots| && s.queue == []
    ensures Placed(FinishedFrom(s, i, failed, env))
    decreases |s.slots| - i
  {
    hide Inv, Placed, FinishedAt, LeasesOk;
    if i < |s.slots| && !s.down {
      InvLeases(s);
      FinishedAtKeeps(s, i, failed, env);
      FinishedAtPlaced(s, i, failed, env);
      FinishedPlaced(FinishedAt(s, i, failed, env), i + 1, failed, env);
    }
  }

  lemma SettledPlaced(s: Server, i: nat)
    requires LeasesOk(s.leases, |s.slots|) && Placed(s) && i < |s.slots|
    ensures Placed(Settled(s, i))
  {
    hide LeasesOk, InRoster;
    var t := s.(slots := s.slots[i := s.slots[i].(conn := s.slots[i].conn.(staged := None))]);
    PlacedSame(s, t);
    ReleasedPlaced(t, i);
  }

  lemma QuietPlaced(s: Server, i: nat, n: nat)
    requires Placed(s) && i < |s.slots|
    ensures Placed(Notified(s, i, n)) && Placed(Expelled(s, i, n)) && Placed(Accepted(s, i))
  {
    hide InRoster, Appended;
    PlacedSame(s, Notified(s, i, n));
    PlacedSame(s, Expelled(s, i, n));
    forall j: nat | InRoster(s.leases, j) ensures j < |s.slots| && Accepted(s, i).slots[j].open { }
  }

  lemma StepPlaced(s: Server, op: Runs.Op, env: Engine)
    requires Inv(s) && Placed(s) && QueueIn(s) && Runs.Enabled(s, op)
    ensures Placed(Runs.Step(s, op, env))
  {
    hide Inv, Placed, LeasesOk, Dispatched, Accepted, Drained, WaitersWoken, FinishedFrom, Completed, Settled,
      Notified, Expelled;
    InvLeases(s);
    if !s.down {
      match op {
        case Socket(i, generation, readable, writable, ready) =>
          DispatchedPlaced(s, i, generation, readable, writable, ready, env);
        case Accept(i) => if i < |s.slots| { QuietPlaced(s, i, 0); }
        case Drain => DrainedPlaced(s, env);
        case Wake => WaitersWokenPlaced(s, |s.slots| + 1, env);
        case Publish(lsn) => PublishedPlaced(s, lsn);
        case Finish(failed) => FinishedPlaced(s, 0, failed, env);
        case Sync(i, n) => if i < |s.slots| { QuietPlaced(s, i, n); }
        case Expel(i, n) => if i < |s.slots| { QuietPlaced(s, i, n); }
        case Terminate(i) => if i < |s.slots| { CompletedPlaced(s, i, Close); }
        case Settle(i) => if i < |s.slots| { SettledPlaced(s, i); }
      }
    }
  }

  lemma PublishedPlaced(s: Server, lsn: nat)
    requires Placed(s)
    ensures Placed(Published(s, lsn))
  {
    PlacedSame(s, Published(s, lsn));
  }

  lemma {:induction false} RunPlaced(s: Server, ops: seq<Runs.Op>, env: Engine)
    requires Inv(s) && Placed(s) && Runs.Legal(s, ops, env)
    ensures Placed(Runs.Run(s, ops, env))
    decreases |ops|
  {
    hide Inv, Placed, Runs.Step;
    InvQueueIn(s);
    if ops != [] {
      Runs.StepKeeps(s, ops[0], env);
      StepPlaced(s, ops[0], env);
      RunPlaced(Runs.Step(s, ops[0], env), ops[1..], env);
    }
  }

  /** In every run, after the waiters are woken no workspace is leaked: each leased one belongs to an
      open connection that reads or has a response that waits. */
  lemma WakeLeaksNothing(connections: nat, workspaces: nat, ops: seq<Runs.Op>, env: Engine)
    requires Runs.Possible(connections, workspaces, ops, env)
    requires var s := Runs.Reached(connections, workspaces, ops, env); s.queue == [] && !s.down
    ensures var s := Runs.Reached(connections, workspaces, ops, env);
      QueueIn(s) && AllUsed(Runs.Step(s, Runs.Wake, env))
  {
    Runs.StartOk(connections, workspaces);
    var start := Runs.Start(connections, workspaces);
    assert Placed(start) by { NobodyPlaced(connections, workspaces); }
    RunPlaced(start, ops, env);
    var s := Runs.Reached(connections, workspaces, ops, env);
    assert Placed(s);
    hide *;
    InvQueueIn(s);
    NoneLeaked(s, |s.slots| + 1, env);
    WakeIs(s, env);
  }

  lemma NobodyPlaced(connections: nat, workspaces: nat)
    ensures Placed(Runs.Start(connections, workspaces))
  {
  }

  lemma WakeIs(s: Server, env: Engine)
    requires QueueIn(s) && !s.down
    ensures Runs.Step(s, Runs.Wake, env) == WaitersWoken(s, |s.slots| + 1, env)
  {
    hide WaitersWoken, Dispatched, Accepted, Drained, FinishedFrom, Completed, Settled, Notified, Expelled;
  }
}
