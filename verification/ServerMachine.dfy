/** The reactor's slots, leases and queue updated in place. Each method is proved equal to the
    function that says what it computes, and each assertion of the source is proved where it stands. */
module ServerMachine {
  import opened Options
  import opened WorkspaceLeases
  import opened DispatchQueues
  import opened SendBuffers
  import opened ServerCore
  import opened ServerInvariant
  import opened ServerSteps
  import opened ServerOutput
  import opened ServerRuns

  class Reactor {
    var slots: seq<Slot>
    const leases: QueryWorkspaceLeases
    const queue: QueryDispatchQueue<Dispatch>
    var journal: nat
    var durable: nat
    /** How many calls the engine and the connections have answered. */
    var tick: nat
    /** After a failed assertion. */
    var down: bool
    ghost var log: seq<Event>

    ghost function View(): Server
      reads this, leases, queue
    {
      Server(slots, leases.View(), queue.queued, journal, durable, tick, down, log)
    }

    /** The parts fit together: one waiter place for a connection, one queue place for a workspace. */
    ghost predicate Parts()
      reads this, leases, queue, queue.slots
    {
      leases.Valid() && leases.connections == |slots| && queue.Valid() && queue.slots.Length == |leases.owners|
    }

    ghost predicate Valid()
      reads this, leases, queue, queue.slots
    {
      Parts() && Inv(View())
    }

    constructor (connections: nat, workspaces: nat)
      ensures Valid() && View() == Start(connections, workspaces)
      ensures fresh(leases) && fresh(queue) && fresh(queue.slots)
    {
      slots := seq(connections, _ => VACANT);
      leases := new QueryWorkspaceLeases(workspaces, connections);
      queue := new QueryDispatchQueue<Dispatch>(workspaces);
      journal, durable, tick, down, log := 0, 0, 0, false, [];
      new;
      StartOk(connections, workspaces);
      assert leases.owners == Start(connections, workspaces).leases.owners;
      assert leases.next == 0;
    }

    // -------------------------------------------------------------- leases and read interest

    method WakeHandoff(offer: Option<Handoff>)
      requires Parts()
      modifies this`slots, leases
      ensures Parts() && View() == Woken(old(View()), offer)
    {
      hide AfterCancel, LeasesOk;
      var h := offer;
      while h.Some?
        invariant Parts() && Woken(View(), h) == Woken(old(View()), offer)
        decreases |leases.waiters| + (if h.Some? then 1 else 0)
      {
        var i := h.value.owner;
        CancelShortens(leases.View(), i);
        if i >= |slots| || !slots[i].open || !WantsRead(slots[i].conn) {
          CancelWidth(leases.View(), i);
          h := leases.Cancel(i);
        } else {
          slots := slots[i := slots[i].(wantRead := true)];
          return;
        }
      }
    }

    method GiveBack(owner: nat, workspace: nat)
      requires Parts() && workspace < |leases.owners| && leases.owners[workspace] == Some(owner)
      modifies this`slots, leases
      ensures Parts() && View() == WithoutLease(old(View()), owner)
    {
      hide LeasesOk;
      var h := leases.Release(owner);
      WakeHandoff(h);
    }

    /** A connection is never released while its dispatch is queued. */
    method Release(i: nat)
      requires Parts() && i < |slots| && !slots[i].pending
      modifies this`slots, this`log, leases
      ensures Parts() && View() == Released(old(View()), i)
    {
      hide LeasesOk, AfterCancel;
      CancelWidth(leases.View(), i);
      var h := leases.Cancel(i);
      var slot := slots[i];
      if slot.conn.staged.Some? {
        slots := slots[i := slot.(open := false, wantRead := false, wantWrite := false, response := None,
                                  detached := true)];
      } else {
        slots := slots[i := slot.(open := false, generation := Following(slot.generation), wantRead := false,
                                  wantWrite := false, pending := false, response := None, detached := false)];
      }
      log := log + [Gone(i)];
      WakeHandoff(h);
    }

    method Reconcile(i: nat)
      requires Parts() && i < |slots|
      modifies this`slots, this`log
      ensures Parts() && View() == Reconciled(old(View()), i)
    {
      hide LeasesOk, QueryDispatchQueue.Valid, QueryWorkspaceLeases.Valid;
      var slot := slots[i];
      var readDesired := WantsRead(slot.conn);
      if readDesired && slot.response.Some? {
        log := log + [Resumed(i)];
      }
      if readDesired != slot.wantRead {
        slot := slot.(wantRead := readDesired);
      }
      var desired := slot.out.bytes != [] || slot.conn.owes;
      if desired != slot.wantWrite {
        slot := slot.(wantWrite := desired);
      }
      assert slot == Interested(slots[i]);
      slots := slots[i := slot];
    }

    /** Sends what the socket accepts and ends a termination whose output is out. */
    method Flush(i: nat, o: Outcome, ghost cause: Cause)
      requires Parts() && i < |slots|
      modifies this`slots, this`log
      ensures Parts() && View() == Flushed(old(View()), i, o, cause)
    {
      var slot := slots[i];
      var n := Taken(o.accepted, slot.out);
      log := log + [Sent(i, cause, Holding(slot, durable), slot.out.bytes[..n], durable)];
      var out := Consumed(slot.out, n);
      var conn := slot.conn.(owes := o.conn.owes);
      if conn.ending.Flushing? && out.bytes == [] && !conn.owes {
        conn := conn.(ending := Draining);
      }
      slots := slots[i := slot.(out := out, conn := conn)];
    }

    method CompleteDispatch(i: nat, after: After)
      requires Parts() && i < |slots| && !slots[i].pending
      modifies this`slots, this`log, leases
      ensures Parts() && View() == Completed(old(View()), i, after)
    {
      if after.Close? { Release(i); } else { Reconcile(i); }
    }

    // -------------------------------------------------------------- executing the queue

    method Enqueue(d: Dispatch)
      requires Valid() && MayQueue(View(), d)
      modifies this`slots, queue, queue.slots
      ensures Parts() && View() == Enqueued(old(View()), d)
    {
      hide LeasesOk;
      PushFits(View(), d);
      assert slots[d.owner].generation == d.generation;
      assert !slots[d.owner].pending;
      slots := slots[d.owner := slots[d.owner].(pending := true)];
      queue.Push(d);
    }

    method Cancel(o: Outcome)
      requires Parts()
      modifies this`slots, this`log
      ensures Parts() && View() == Interrupted(old(View()), o)
    {
      hide LeasesOk, Appended;
      if o.cancel.Some? && o.cancel.value < |slots| {
        var i := o.cancel.value;
        var slot := slots[i];
        if slot.open && slot.conn.parked && slot.conn.staged.None? {
          slots := slots[i := slot.(conn := slot.conn.(parked := false), out := Appended(slot.out, o.notice, Plain))];
          if o.told { Reconcile(i); }
        }
      }
    }

    /** A finished execution: its workspace is free again and its response waits at the barrier. */
    method CompleteExecution(d: Dispatch, response: Response, ghost place: Place, o: Outcome)
      requires Parts() && d.owner < |slots| && slots[d.owner].pending
      requires d.workspace < |leases.owners| && leases.owners[d.workspace] == Some(d.owner)
      requires slots[d.owner].generation == d.generation && slots[d.owner].open
      modifies this`slots, this`log, leases
      ensures Parts()
      ensures var s := old(View());
        View() == Answered(WithoutLease(s.(slots := s.slots[d.owner := s.slots[d.owner].(pending := false)]), d.owner),
                           d.owner, response, d.kind, place, o)
    {
      hide LeasesOk, Woken, AfterCancel, AfterRelease, FlushedSlot, Completed;
      slots := slots[d.owner := slots[d.owner].(pending := false)];
      ghost var freed := View();
      GiveBack(d.owner, d.workspace);
      FreedSlot(freed, d.owner);
      if o.after.Close? {
        Flush(d.owner, o, OnClose);
        FlushedFlag(WithoutLease(freed, d.owner), d.owner, o);
        InterruptedFlag(View(), o, d.owner);
        Cancel(o);
        CompleteDispatch(d.owner, o.finish);
      } else {
        log := log + [Buffered(d.owner, response.id, d.kind, place)];
        slots := slots[d.owner := slots[d.owner].(response := Some(response))];
        Cancel(o);
      }
    }

    /** Runs the input or the parked statement and describes the response. */
    method Describe(d: Dispatch, o: Outcome, id: nat, ghost s: Server) returns (r: Response, conn: Conn)
      requires d.owner < |slots| && s.queue != [] && QueueIn(s) && s.queue[0] == d
      requires s.slots == slots && s.journal == journal && s.durable == durable && s.tick == id
      modifies this`journal
      ensures r == Answer(s, o) && journal == r.after && conn == RunSlot(s, o).conn
    {
      hide Obeyed, Poured;
      var slot, before := slots[d.owner], journal;
      var mark: Option<nat> := None;
      conn := slot.conn;
      if Ran(d, o) {
        mark := Some(End(slot.out));
        journal := journal + o.advance;
        conn := Obeyed(slot.conn, o, durable);
      }
      var required := if journal > before then Some(journal)
                      else if conn.staged.Some? && conn.staged.value.journal then Some(conn.staged.value.lsn)
                      else None;
      r := Response(id, required, mark, before, journal, slot.conn.staged, conn.staged);
    }

    /** The same with its output: what its queries stream leaves at once, the rest stays. */
    method RunDispatch(d: Dispatch, o: Outcome, id: nat, ghost s: Server) returns (r: Response)
      requires d.owner < |slots| && s.queue != [] && QueueIn(s) && s.queue[0] == d && slots[d.owner].pending
      requires s.slots == slots && s.journal == journal && s.durable == durable && s.tick == id
      modifies this`slots, this`journal, this`log
      ensures r == Answer(s, o) && journal == r.after && log == old(log) + StreamEvents(s, o)
      ensures slots == old(slots)[d.owner := RunSlot(s, o).(pending := true)]
    {
      hide Answer, Obeyed, Needs, Holding, Streamed, Appended, Chunks, Rest;
      var conn;
      r, conn := Describe(d, o, id, s);
      var slot, byte := slots[d.owner], OwnByte(r, o);
      var sent, left := Stream(slot.out, Chunks(d, o), byte);
      if sent != [] {
        log := log + [Sent(d.owner, InDispatch(r.id, Needs(r)), Holding(slot, durable), sent, durable)];
      }
      slots := slots[d.owner := slot.(conn := conn, out := Appended(left, Rest(d, o), byte))];
    }

    method ExecuteNext(env: Engine)
      requires Valid() && queue.queued != [] && QueueIn(View())
      modifies this, leases, queue, queue.slots
      ensures Valid() && View() == Executed(old(View()), env)
    {
      hide LeasesOk, Woken, AfterRelease, QueueOk, SlotsOk, LogOk, Answered, WithoutLease, Obeyed, Appended, Answer,
        RunSlot, StreamEvents, PlaceOf;
      ghost var s := View();
      ExecutedKeeps(s, env, s.queue[0].owner);
      FrontHolds(s);
      var popped := queue.Pop();
      var d := popped.value;
      assert d == s.queue[0];
      var slot := slots[d.owner];
      assert slot.generation == d.generation && slot.open && slot.pending;
      var o := env(tick);
      tick := tick + 1;
      if d.kind.Retry? && (!slot.conn.parked || !o.ready) {
        slots := slots[d.owner := slot.(pending := false)];
        assert View() == Popped(s, s.slots[d.owner].(pending := false), s.journal);
        GiveBack(d.owner, d.workspace);
        UnfoldDequeued(s, s.slots[d.owner].(pending := false), s.journal);
      } else {
        RunIsRunnable(s, o);
        var answer := RunDispatch(d, o, tick - 1, s);
        ghost var run := View();
        CompleteExecution(d, answer, PlaceOf(s, o), o);
        ExecutedParts(s, env, run);
      }
    }

    method DrainQueries(env: Engine)
      requires Valid()
      modifies this, leases, queue, queue.slots
      ensures Valid() && QueueIn(old(View())) && View() == Drained(old(View()), env)
    {
      hide Inv, Executed, LeasesOk;
      InvQueueIn(View());
      while queue.len != 0
        invariant Valid() && QueueIn(View()) && Drained(View(), env) == Drained(old(View()), env)
        decreases |queue.queued|
      {
        ExecuteNext(env);
        InvQueueIn(View());
      }
    }

    // -------------------------------------------------------------- socket events

    method Suspend(i: nat)
      requires Parts() && i < |slots|
      modifies this`slots
      ensures Parts() && View() == Suspended(old(View()), i)
    {
      slots := slots[i := slots[i].(wantRead := false)];
    }

    /** With a workspace: stop reading and queue the request. Without one: stop reading and wait. */
    method Admit(i: nat, generation: nat, workspace: Option<nat>)
      requires Valid() && Idle(View(), i, generation)
      requires workspace.Some? ==> workspace.value < |leases.owners| && leases.owners[workspace.value] == Some(i)
      modifies this`slots, queue, queue.slots
      ensures Parts()
      ensures View() == if workspace.Some? then Admitted(old(View()), i, generation, workspace.value)
                        else Suspended(old(View()), i)
    {
      hide LeasesOk, StandingOf;
      if workspace.None? {
        Suspend(i);
      } else if slots[i].wantRead {
        ReadingNotParked(View(), i);
        SuspendedKeeps(View(), i);
        Suspend(i);
        Enqueue(Dispatch(i, generation, workspace.value, Readable));
      }
    }

    method RequestRead(i: nat, generation: nat, env: Engine)
      requires Valid() && Idle(View(), i, generation)
      modifies this, leases, queue, queue.slots
      ensures Valid() && QueueIn(old(View())) && View() == ReadRequested(old(View()), i, generation, env)
    {
      hide Inv, LeasesOk, AfterAcquire, StandingOf, Drained, Untouched;
      ghost var s := View();
      InvQueueIn(s);
      ReadRequestedKeeps(s, i, generation, env);
      AcquireSafe(s, i, generation);
      var workspace := leases.Acquire(i);
      if workspace.None? && queue.len != 0 {
        ghost var t := View();
        NotPendingNotQueued(t, i);
        DrainedKeeps(t, env, i);
        StillIdle(t, Drained(t, env), i, generation);
        DrainQueries(env);
        AcquireSafe(View(), i, generation);
        workspace := leases.Acquire(i);
      }
      Admit(i, generation, workspace);
    }

    method OnEvent(i: nat, generation: nat, readable: bool, writable: bool, publicationReady: bool, env: Engine)
      requires Valid()
      modifies this, leases, queue, queue.slots
      ensures Valid() && QueueIn(old(View()))
      ensures View() == Dispatched(old(View()), i, generation, readable, writable, publicationReady, env)
    {
      hide Inv, LeasesOk, StandingOf, ReadRequested, Completed, Written, WrittenSlot;
      InvQueueIn(View());
      DispatchedKeeps(View(), i, generation, readable, writable, publicationReady, env);
      if i >= |slots| || slots[i].generation != generation || !slots[i].open || slots[i].pending {
        return;
      }
      if readable && !slots[i].wantRead {
        return;
      }
      if readable && !publicationReady {
        CompleteDispatch(i, Close);
        return;
      }
      if readable {
        ReadingNotParked(View(), i);
        RequestRead(i, generation, env);
        return;
      }
      var after := Continue;
      if writable {
        UnfoldWritten(View(), i, env(tick));
        after := FlushWritable(i, env(tick));
      }
      CompleteDispatch(i, after);
    }

    method FlushWritable(i: nat, o: Outcome) returns (after: After)
      requires Parts() && i < |slots|
      modifies this`slots, this`tick, this`log
      ensures Parts() && after == o.finish && slots[i].pending == old(slots[i].pending)
      ensures var s := old(View());
        View() == s.(slots := s.slots[i := WrittenSlot(s.slots[i], o)], tick := s.tick + 1,
                     log := s.log + [SentEvent(s.slots[i], i, o, OnWritable, s.durable)])
    {
      hide FlushedSlot, Appended;
      ghost var s := View();
      var owed := slots[i].conn.owes;
      tick := tick + 1;
      Flush(i, o, OnWritable);
      FlushedFlag(s.(tick := s.tick + 1), i, o);
      if slots[i].out.bytes == [] && owed {
        slots := slots[i := slots[i].(out := Appended(slots[i].out, o.wrote, Plain))];
      }
      NothingAppended(FlushedSlot(s.slots[i], o));
      assert slots == s.slots[i := WrittenSlot(s.slots[i], o)];
      after := o.finish;
    }

    // -------------------------------------------------------------- waking parked statements

    method RequestRetry(i: nat, env: Engine)
      requires Valid() && QueuedBelow(View(), i) && i < |slots| && slots[i].open && slots[i].response.None?
      modifies this, leases, queue, queue.slots
      ensures Valid() && QueuedBelow(View(), i + 1)
      ensures QueueIn(old(View())) && View() == RetryRequested(old(View()), i, env)
    {
      hide Inv, LeasesOk, AfterTryAcquire, StandingOf, Drained, Untouched;
      ghost var s := View();
      InvQueueIn(s);
      RetryRequestedKeeps(s, i, env);
      NotQueuedNotPending(s, i);
      TrySafe(s, i, slots[i].generation);
      var workspace := leases.TryAcquire(i);
      if workspace.None? && queue.len != 0 {
        assert View() == s;
        NotPendingNotQueued(s, i);
        DrainedKeeps(s, env, i);
        StillIdle(s, Drained(s, env), i, slots[i].generation);
        UntouchedResponse(s, Drained(s, env), i);
        DrainQueries(env);
        TrySafe(View(), i, slots[i].generation);
        workspace := leases.TryAcquire(i);
      }
      if workspace.Some? {
        Enqueue(Dispatch(i, slots[i].generation, workspace.value, Retry));
      }
    }

    method RetryAll(env: Engine)
      requires Valid() && queue.queued == []
      modifies this, leases, queue, queue.slots
      ensures Valid() && QueueIn(old(View())) && View() == RetriedFrom(old(View()), 0, env)
    {
      hide Inv, RetryRequested, LeasesOk;
      InvQueueIn(View());
      var i := 0;
      while i < |slots|
        invariant i <= |slots| == |old(slots)| && Valid() && QueueIn(View()) && QueuedBelow(View(), i)
        invariant RetriedFrom(View(), i, env) == RetriedFrom(old(View()), 0, env)
        decreases |slots| - i
      {
        if slots[i].open && slots[i].response.None? {
          RequestRetry(i, env);
          InvQueueIn(View());
        }
        i := i + 1;
      }
    }

    method WakeWaiters(env: Engine)
      requires Valid() && queue.queued == []
      modifies this, leases, queue, queue.slots
      ensures Valid() && QueueIn(old(View())) && View() == WaitersWoken(old(View()), |old(slots)| + 1, env)
    {
      hide Inv, RetriedFrom, Drained, LeasesOk, QueueIn, WaitersWoken;
      InvQueueIn(View());
      var passes := |slots| + 1;
      while passes > 0
        invariant Valid() && QueueIn(View()) && queue.queued == [] && passes >= 0
        invariant WaitersWoken(View(), passes, env) == WaitersWoken(old(View()), |old(slots)| + 1, env)
        decreases passes
      {
        UnfoldWoken(View(), passes, env);
        RetryAll(env);
        InvQueueIn(View());
        DrainQueries(env);
        var stable := env(tick).stable;
        TickKeeps(View(), tick + 1);
        tick := tick + 1;
        if stable {
          return;
        }
        InvQueueIn(View());
        passes := passes - 1;
      }
      UnfoldWoken(View(), 0, env);
    }

    // -------------------------------------------------------------- the barrier

    /** Releases every buffered response that is durable, or all of them once publication failed. */
    method FinishResponses(failed: bool, env: Engine)
      requires Valid() && queue.queued == []
      modifies this`slots, this`tick, this`log, this`down, leases
      ensures Valid() && View() == FinishedFrom(old(View()), 0, failed, env)
    {
      hide Inv, LeasesOk, Completed, FinishedAt;
      var i := 0;
      while i < |slots| && !down
        invariant i <= |slots| && Valid() && queue.queued == []
        invariant FinishedFrom(View(), i, failed, env) == FinishedFrom(old(View()), 0, failed, env)
        decreases |slots| - i
      {
        FinishResponse(i, failed, env);
        i := i + 1;
      }
    }

    /** Takes the response; an error first takes its output back to the mark, where the assertion of
        the truncation may fail. */
    method TakeResponse(i: nat, failed: bool, o: Outcome) returns (ok: bool)
      requires Parts() && i < |slots| && slots[i].response.Some?
      requires failed || !Behind(slots[i].response.value, durable)
      modifies this`slots, this`tick, this`log, this`down
      ensures Parts() && ok == !Panics(old(slots[i]), durable, failed)
      ensures var s := old(View()); var slot := s.slots[i];
        View() ==
        if !ok then s.(down := true, log := s.log + [Panicked(i)])
        else
          var clip := if Errs(slot, s.durable, failed) then Leftover(slot, i) else [];
          s.(slots := s.slots[i := ToldSlot(slot, o, s.durable, failed)], tick := s.tick + 1,
             log := s.log + clip + [Finished(i, slot.response.value, s.durable,
                                             failed && Behind(slot.response.value, s.durable))])
    {
      hide LeasesOk, Leftover, ToldSlot, Panics, Errs, QueryDispatchQueue.Valid, QueryWorkspaceLeases.Valid;
      var slot := slots[i];
      var told;
      ok, told := TakeBack(slot, failed, o, durable);
      if !ok {
        down := true;
        log := log + [Panicked(i)];
        return;
      }
      FinishesWhenOk(slot, failed, durable);
      ghost var clip := if Errs(slot, durable, failed) then Leftover(slot, i) else [];
      slots := slots[i := told];
      log := log + clip + [Finished(i, slot.response.value, durable, failed && Behind(slot.response.value, durable))];
      tick := tick + 1;
    }

    method FinishResponse(i: nat, failed: bool, env: Engine)
      requires Valid() && queue.queued == [] && i < |slots|
      modifies this`slots, this`tick, this`log, this`down, leases
      ensures Valid() && View() == FinishedAt(old(View()), i, failed, env)
    {
      hide Inv, LeasesOk, Completed, FinishedAt, FlushedSlot, ToldSlot, Leftover, FinishEvents, CanTruncate;
      ghost var s := View();
      FinishedAtKeeps(s, i, failed, env);
      UnfoldFinished(s, i, failed, env);
      if slots[i].response.None? {
        return;
      }
      if !failed && Behind(slots[i].response.value, durable) {
        return;
      }
      NoneQueued(s, i);
      var o := env(tick);
      var ok := TakeResponse(i, failed, o);
      if !ok {
        return;
      }
      ToldQuiet(s.slots[i], o, s.durable, failed);
      Flush(i, o, AtBarrier);
      FinishedParts(s, i, o, failed, View());
      CompleteDispatch(i, o.finish);
    }
  }

  /** An error takes the output of its response back to the mark, says what happened, and ends a
      connection whose commit is staged. */
  method TakeBack(slot: Slot, failed: bool, o: Outcome, durable: nat) returns (ok: bool, told: Slot)
    requires slot.response.Some? && (failed || !Behind(slot.response.value, durable))
    ensures ok == !Panics(slot, durable, failed)
    ensures ok ==> told == ToldSlot(slot, o, durable, failed)
  {
    hide Appended, Truncated;
    told := slot;
    var waiting := slot.response.value;
    if failed && waiting.required.Some? && waiting.required.value > durable && waiting.mark.Some? {
      if !CanTruncate(slot.out, waiting.mark.value) {
        return false, told;
      }
      told := told.(out := Appended(Truncated(slot.out, waiting.mark.value), o.wrote, Plain));
      if told.conn.staged.Some? {
        told := told.(conn := Ended(told.conn));
      }
    }
    told := told.(response := None);
    ok := true;
  }

  // ---------------------------------------------------------------- facts the methods use

  lemma FinishesWhenOk(slot: Slot, failed: bool, durable: nat)
    requires slot.response.Some? && (failed || !Behind(slot.response.value, durable)) && !Panics(slot, durable, failed)
    ensures Finishes(slot, durable, failed)
    ensures Errs(slot, durable, failed) ==>
      slot.response.value.mark.Some? && CanTruncate(slot.out, slot.response.value.mark.value)
  {
  }

  lemma CancelWidth(l: Leases, x: nat)
    ensures |AfterCancel(l, x).1.owners| == |l.owners|
  {
  }

  lemma NoneQueued(s: Server, i: nat)
    requires Inv(s) && s.queue == [] && i < |s.slots|
    ensures !s.slots[i].pending
  {
    NotQueuedNotPending(s, i);
  }

  lemma FrontHolds(s: Server)
    requires Inv(s) && s.queue != []
    ensures QueuedOk(s, s.queue[0])
  {
  }

  lemma FreedSlot(s: Server, i: nat)
    requires i < |s.slots| && !s.slots[i].pending
    ensures !WithoutLease(s, i).slots[i].pending && WithoutLease(s, i).slots[i].generation == s.slots[i].generation
    ensures WithoutLease(s, i).slots[i].open == s.slots[i].open
  {
    var (h, l) := AfterRelease(s.leases, i);
    WokenSlots(s.(leases := l), h);
  }

  lemma InterruptedFlag(s: Server, o: Outcome, i: nat)
    requires i < |s.slots|
    ensures Interrupted(s, o).slots[i].pending == s.slots[i].pending
  {
  }

  lemma FlushedFlag(s: Server, i: nat, o: Outcome)
    requires i < |s.slots|
    ensures FlushedSlot(s.slots[i], o).pending == s.slots[i].pending
  {
  }

  lemma ToldQuiet(slot: Slot, o: Outcome, durable: nat, failed: bool)
    requires Finishes(slot, durable, failed)
    ensures FlushedSlot(ToldSlot(slot, o, durable, failed), o).pending == slot.pending
  {
  }

  lemma NothingAppended(slot: Slot)
    ensures slot.(out := Appended(slot.out, 0, Plain)) == slot
  {
  }

  /** The flush of a finished response, as one step. */
  lemma FinishedParts(s: Server, i: nat, o: Outcome, failed: bool, t: Server)
    requires i < |s.slots| && Finishes(s.slots[i], s.durable, failed)
    requires var told := ToldSlot(s.slots[i], o, s.durable, failed);
      var clip := if Errs(s.slots[i], s.durable, failed) then Leftover(s.slots[i], i) else [];
      var done := Finished(i, s.slots[i].response.value, s.durable,
                           failed && Behind(s.slots[i].response.value, s.durable));
      t == Flushed(s.(slots := s.slots[i := told], tick := s.tick + 1, log := s.log + clip + [done]), i, o, AtBarrier)
    ensures t ==
      s.(slots := s.slots[i := FlushedSlot(ToldSlot(s.slots[i], o, s.durable, failed), o)], tick := s.tick + 1,
         log := s.log + FinishEvents(s.slots[i], i, o, s.durable, failed))
  {
    hide FlushedSlot, ToldSlot, Leftover;
    var told := ToldSlot(s.slots[i], o, s.durable, failed);
    var clip := if Errs(s.slots[i], s.durable, failed) then Leftover(s.slots[i], i) else [];
    var done := Finished(i, s.slots[i].response.value, s.durable,
                         failed && Behind(s.slots[i].response.value, s.durable));
    var sent := SentEvent(told, i, o, AtBarrier, s.durable);
    assert s.slots[i := told][i := FlushedSlot(told, o)] == s.slots[i := FlushedSlot(told, o)];
    assert s.log + clip + [done] + [sent] == s.log + (clip + [done] + [sent]);
  }

  /** Running a dispatch and then handing its result over is one execution. */
  lemma ExecutedParts(s: Server, env: Engine, run: Server)
    requires Inv(s) && s.queue != [] && QueueIn(s) && !Declined(s, env(s.tick))
    requires var o, i := env(s.tick), s.queue[0].owner;
      run == s.(slots := s.slots[i := RunSlot(s, o).(pending := true)], queue := s.queue[1..],
                journal := Answer(s, o).after, tick := s.tick + 1, log := s.log + StreamEvents(s, o))
    ensures var o, d := env(s.tick), s.queue[0];
      Executed(s, env) ==
      Answered(WithoutLease(run.(slots := run.slots[d.owner := run.slots[d.owner].(pending := false)]), d.owner),
               d.owner, Answer(s, o), d.kind, PlaceOf(s, o), o)
  {
    hide Answered, WithoutLease, Answer, StreamEvents, PlaceOf, Output;
    var o, i := env(s.tick), s.queue[0].owner;
    HolderNotWaiting(s, i);
    var slot, u := RunSlot(s, o), Logged(s, StreamEvents(s, o));
    StreamKeeps(s, o, i);
    DequeuedKeeps(u, slot, Answer(s, o).after, i);
    UnfoldDequeued(u, slot, Answer(s, o).after);
    assert run.slots[i := run.slots[i].(pending := false)] == Popped(u, slot, Answer(s, o).after).slots;
  }

  /** A query that streams: each time the buffer is full, the socket takes what is unsent. */
  method Stream(o: Out, chunks: seq<Chunk>, b: Byte) returns (sent: seq<Byte>, left: Out)
    ensures (sent, left) == Streamed(o, chunks, b)
  {
    sent, left := [], o;
    var k := 0;
    assert chunks[0..] == chunks && [] + Streamed(o, chunks, b).0 == Streamed(o, chunks, b).0;
    while k < |chunks|
      invariant k <= |chunks|
      invariant var (more, last) := Streamed(left, chunks[k..], b);
        Streamed(o, chunks, b) == (sent + more, last)
    {
      assert chunks[k..][0] == chunks[k] && chunks[k..][1..] == chunks[k + 1..];
      var full := Appended(left, chunks[k].wrote, b);
      var n := Taken(chunks[k].took, full);
      ghost var more := Streamed(Consumed(full, n), chunks[k + 1..], b).0;
      assert sent + (full.bytes[..n] + more) == sent + full.bytes[..n] + more;
      sent, left := sent + full.bytes[..n], Consumed(full, n);
      k := k + 1;
    }
    assert chunks[k..] == [] && sent + [] == sent;
  }

  lemma UnfoldWoken(s: Server, passes: nat, env: Engine)
    requires QueueIn(s)
    ensures var t := Drained(RetriedFrom(s, 0, env), env);
      WaitersWoken(s, passes, env) == if passes == 0 then s
                                      else if env(t.tick).stable then t.(tick := t.tick + 1)
                                      else WaitersWoken(t.(tick := t.tick + 1), passes - 1, env)
  {
    hide RetriedFrom, Drained;
  }

  lemma AcquireSafe(s: Server, i: nat, generation: nat)
    requires Inv(s) && Idle(s, i, generation)
    ensures var (w, l) := AfterAcquire(s.leases, i);
      && Inv(s.(leases := l)) && Idle(s.(leases := l), i, generation) && |l.owners| == |s.leases.owners|
      && (w.Some? ==> w.value < |l.owners| && l.owners[w.value] == Some(i))
  {
    hide LeasesOk, AfterAcquire;
    AcquireKeeps(s.leases, i, |s.slots|);
    AcquireGains(s.leases, i, |s.slots|);
    GainKeeps(s, AfterAcquire(s.leases, i).1, i);
  }

  lemma TrySafe(s: Server, i: nat, generation: nat)
    requires Inv(s) && Idle(s, i, generation)
    ensures var (w, l) := AfterTryAcquire(s.leases, i);
      && Inv(s.(leases := l)) && Idle(s.(leases := l), i, generation) && |l.owners| == |s.leases.owners|
      && (w.Some? ==> w.value < |l.owners| && l.owners[w.value] == Some(i)) && (w.None? ==> l == s.leases)
  {
    hide LeasesOk, AfterTryAcquire;
    TryAcquireKeeps(s.leases, i, |s.slots|);
    AcquireGains(s.leases, i, |s.slots|);
    GainKeeps(s, AfterTryAcquire(s.leases, i).1, i);
  }
}
