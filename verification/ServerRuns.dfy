/** Whole runs of the reactor: the scheduler's invariant and the commit barrier. */
module ServerRuns {
  import opened Options
  import opened WorkspaceLeases
  import opened SendBuffers
  import opened ServerCore
  import opened ServerInvariant
  import opened ServerSteps
  import opened ServerOutput

  /** Between the drain of one turn and the events of the next, the reactor wakes waiters, finishes
      responses, brings interest in line with every connection, notifies and ends connections, and
      settles detached commits. */
  datatype Op =
    | Socket(slot: nat, generation: nat, readable: bool, writable: bool, publicationReady: bool)
    | Accept(slot: nat)
    | Drain
    | Wake
    | Publish(lsn: nat)
    | Finish(failed: bool)
    | Sync(slot: nat, notice: nat)
    | Expel(slot: nat, notice: nat)
    | Terminate(slot: nat)
    | Settle(slot: nat)

  predicate DuringEvents(op: Op)
  {
    op.Socket? || op.Accept?
  }

  /** Everything but socket events happens after the queue has been drained. */
  predicate Enabled(s: Server, op: Op)
  {
    s.down || DuringEvents(op) || op.Drain? || op.Publish? || s.queue == []
  }

  /** A failed assertion ends the run. */
  function Step(s: Server, op: Op, env: Engine): (r: Server)
    requires QueueIn(s)
  {
    if s.down then s else
      match op
      case Socket(i, generation, readable, writable, ready) =>
        Dispatched(s, i, generation, readable, writable, ready, env)
      case Accept(i) => if i < |s.slots| && !s.slots[i].open && !s.slots[i].detached then Accepted(s, i) else s
      case Drain => Drained(s, env)
      case Wake => WaitersWoken(s, |s.slots| + 1, env)
      case Publish(lsn) => Published(s, lsn)
      case Finish(failed) => FinishedFrom(s, 0, failed, env)
      case Sync(i, n) => if i < |s.slots| && s.slots[i].open then Notified(s, i, n) else s
      case Expel(i, n) => if i < |s.slots| && s.slots[i].open then Expelled(s, i, n) else s
      case Terminate(i) => if i < |s.slots| && s.slots[i].open then Completed(s, i, Close) else s
      case Settle(i) => if MaySettle(s, i) then Settled(s, i) else s
  }

  /** The engine completes a journal commit only when it is durable. */
  predicate MaySettle(s: Server, i: nat)
  {
    i < |s.slots| && s.slots[i].detached && !Undurable(s.slots[i].conn.staged, s.durable)
  }

  lemma AcceptedKeeps(s: Server, i: nat)
    requires Inv(s) && i < |s.slots| && !s.slots[i].open && !s.slots[i].detached
    ensures Inv(Accepted(s, i))
  {
    hide LeasesOk;
    forall k | 0 <= k < |s.queue| ensures s.queue[k].owner != i {
      assert QueuedOk(s, s.queue[k]);
    }
    assert SlotOk(s.slots[i], i, i in s.leases.waiters, s.log, s.durable);
    assert s.log + [] == s.log;
    SlotChanges(s, i, Accepted(s, i).slots[i], []);
  }

  lemma SettledKeeps(s: Server, i: nat)
    requires Inv(s) && i < |s.slots| && s.slots[i].detached && s.queue == []
    ensures Inv(Settled(s, i))
  {
    hide LeasesOk;
    EmptyQueue(s, i);
    var slot := s.slots[i].(conn := s.slots[i].conn.(staged := None));
    assert SlotOk(s.slots[i], i, i in s.leases.waiters, s.log, s.durable);
    assert !slot.pending;
    assert s.log + [] == s.log;
    SlotChanges(s, i, slot, []);
    ReleasedKeeps(s.(slots := s.slots[i := slot]), i);
  }

  lemma NotifiedKeeps(s: Server, i: nat, n: nat)
    requires Inv(s) && i < |s.slots| && s.slots[i].open && s.queue == []
    ensures Inv(Notified(s, i, n))
  {
    hide LeasesOk, ResponseOk, Appended;
    EmptyQueue(s, i);
    assert !s.slots[i].pending by { assert QueueOk(s); }
    assert SlotOk(s.slots[i], i, i in s.leases.waiters, s.log, s.durable);
    assert s.log + [] == s.log;
    var slot := s.slots[i].(out := Appended(s.slots[i].out, n, Plain));
    SlotChanges(s, i, slot, []);
    ReconciledKeeps(s.(slots := s.slots[i := slot]), i);
  }

  lemma ExpelledKeeps(s: Server, i: nat, n: nat)
    requires Inv(s) && i < |s.slots| && s.slots[i].open && s.queue == []
    ensures Inv(Expelled(s, i, n))
  {
    hide LeasesOk, ResponseOk, Appended;
    EmptyQueue(s, i);
    assert !s.slots[i].pending by { assert QueueOk(s); }
    assert SlotOk(s.slots[i], i, i in s.leases.waiters, s.log, s.durable);
    var slot := s.slots[i].(out := Appended(EMPTY, n, Plain), conn := Ended(s.slots[i].conn));
    LogGrows(s.log, Cleared(i), s.durable);
    StandingNext(s.log, Cleared(i), i);
    SlotChanges(s, i, slot, [Cleared(i)]);
    ReconciledKeeps(s.(slots := s.slots[i := slot], log := s.log + [Cleared(i)]), i);
  }

  lemma StepKeeps(s: Server, op: Op, env: Engine)
    requires Inv(s) && QueueIn(s) && Enabled(s, op)
    ensures Inv(Step(s, op, env)) && QueueIn(Step(s, op, env))
  {
    hide Inv, Dispatched, Accepted, Drained, WaitersWoken, Published, FinishedFrom, Completed, Settled, Notified,
      Expelled, QueueIn;
    if !s.down {
      match op {
        case Socket(i, generation, readable, writable, ready) =>
          DispatchedKeeps(s, i, generation, readable, writable, ready, env);
        case Accept(i) => if i < |s.slots| && !s.slots[i].open && !s.slots[i].detached { AcceptedKeeps(s, i); }
        case Drain => DrainedKeeps(s, env, 0);
        case Wake => WaitersWokenKeeps(s, |s.slots| + 1, env);
        case Publish(lsn) => PublishedKeeps(s, lsn);
        case Finish(failed) => FinishedKeeps(s, 0, failed, env);
        case Sync(i, n) => if i < |s.slots| && s.slots[i].open { NotifiedKeeps(s, i, n); }
        case Expel(i, n) => if i < |s.slots| && s.slots[i].open { ExpelledKeeps(s, i, n); }
        case Terminate(i) => if i < |s.slots| && s.slots[i].open { EmptyQueue(s, i); CompletedKeeps(s, i, Close); }
        case Settle(i) => if MaySettle(s, i) { SettledKeeps(s, i); }
      }
    }
    InvQueueIn(Step(s, op, env));
  }

  lemma StepGuards(s: Server, op: Op, env: Engine)
    requires Inv(s) && Guarding(s) && QueueIn(s) && Enabled(s, op)
    ensures Guarding(Step(s, op, env))
  {
    hide Inv, Guarding, Dispatched, Accepted, Drained, WaitersWoken, Published, FinishedFrom, Completed, Settled,
      Notified, Expelled;
    if !s.down {
      match op {
        case Socket(i, generation, readable, writable, ready) =>
          DispatchedOut(s, i, generation, readable, writable, ready, env);
        case Accept(i) => if i < |s.slots| && !s.slots[i].open && !s.slots[i].detached { AcceptedOut(s, i); }
        case Drain => DrainedOut(s, env);
        case Wake => WaitersWokenOut(s, |s.slots| + 1, env);
        case Publish(lsn) => PublishedOut(s, lsn);
        case Finish(failed) => FinishedOut(s, 0, failed, env);
        case Sync(i, n) => if i < |s.slots| && s.slots[i].open { NotifiedOut(s, i, n); }
        case Expel(i, n) => if i < |s.slots| && s.slots[i].open { ExpelledOut(s, i, n); }
        case Terminate(i) => if i < |s.slots| && s.slots[i].open { CompletedOut(s, i, Close); }
        case Settle(i) => if MaySettle(s, i) { SettledOut(s, i); }
      }
    }
  }

  lemma PublishedKeeps(s: Server, lsn: nat)
    requires Inv(s)
    ensures Inv(Published(s, lsn))
  {
    if s.durable <= lsn <= s.journal { CountersKeep(s, s.journal, lsn, s.tick); }
  }

  // ---------------------------------------------------------------- runs

  ghost predicate Legal(s: Server, ops: seq<Op>, env: Engine)
    requires Inv(s)
    decreases |ops|
  {
    InvQueueIn(s);
    ops == [] || (Enabled(s, ops[0]) && (StepKeeps(s, ops[0], env); Legal(Step(s, ops[0], env), ops[1..], env)))
  }

  ghost function Run(s: Server, ops: seq<Op>, env: Engine): (r: Server)
    requires Inv(s) && Legal(s, ops, env)
    ensures Inv(r)
    decreases |ops|
  {
    InvQueueIn(s);
    if ops == [] then s else
      StepKeeps(s, ops[0], env);
      Run(Step(s, ops[0], env), ops[1..], env)
  }

  function Start(connections: nat, workspaces: nat): Server
  {
    Server(seq(connections, _ => VACANT), Leases(seq(workspaces, _ => None), [], 0), [], 0, 0, 0, false, [])
  }

  lemma StartOk(connections: nat, workspaces: nat)
    ensures Inv(Start(connections, workspaces)) && Guarding(Start(connections, workspaces))
  {
  }

  /** A run from the start. */
  ghost predicate Possible(connections: nat, workspaces: nat, ops: seq<Op>, env: Engine)
  {
    StartOk(connections, workspaces);
    Legal(Start(connections, workspaces), ops, env)
  }

  ghost function Reached(connections: nat, workspaces: nat, ops: seq<Op>, env: Engine): (s: Server)
    requires Possible(connections, workspaces, ops, env)
    ensures Inv(s)
  {
    StartOk(connections, workspaces);
    Run(Start(connections, workspaces), ops, env)
  }

  lemma {:induction false} RunGuards(s: Server, ops: seq<Op>, env: Engine)
    requires Inv(s) && Guarding(s) && Legal(s, ops, env)
    ensures Guarding(Run(s, ops, env))
    decreases |ops|
  {
    hide Inv, Guarding, Step;
    InvQueueIn(s);
    if ops != [] {
      StepKeeps(s, ops[0], env);
      StepGuards(s, ops[0], env);
      RunGuards(Step(s, ops[0], env), ops[1..], env);
    }
  }

  lemma ReachedGuards(connections: nat, workspaces: nat, ops: seq<Op>, env: Engine)
    requires Possible(connections, workspaces, ops, env)
    ensures Guarding(Reached(connections, workspaces, ops, env))
  {
    StartOk(connections, workspaces);
    RunGuards(Start(connections, workspaces), ops, env);
  }

  /** Every turn of the reactor loop is legal: socket events, then the drain, then the rest in any
      order. So no assertion about the queue and the leases fails in any number of turns. */
  lemma {:induction false} TurnLegal(s: Server, events: seq<Op>, rest: seq<Op>, env: Engine)
    requires Inv(s)
    requires forall k :: 0 <= k < |events| ==> DuringEvents(events[k])
    requires forall k :: 0 <= k < |rest| ==> !rest[k].Socket?
    ensures Legal(s, events + [Drain] + rest, env)
    ensures var t := Run(s, events + [Drain] + rest, env); t.queue == [] || t.down
    decreases |events|
  {
    hide Inv, Step;
    InvQueueIn(s);
    var ops := events + [Drain] + rest;
    StepKeeps(s, ops[0], env);
    var t := Step(s, ops[0], env);
    if events == [] {
      assert ops[1..] == rest;
      assert t.queue == [] || t.down by { DrainEmpties(s, env); }
      QuietLegal(t, rest, env);
    } else {
      assert ops[1..] == events[1..] + [Drain] + rest;
      TurnLegal(t, events[1..], rest, env);
    }
  }

  lemma DrainEmpties(s: Server, env: Engine)
    requires QueueIn(s)
    ensures Step(s, Drain, env).queue == [] || (s.down && Step(s, Drain, env) == s)
  {
  }

  lemma {:induction false} QuietLegal(s: Server, ops: seq<Op>, env: Engine)
    requires Inv(s) && (s.queue == [] || s.down)
    requires forall k :: 0 <= k < |ops| ==> !ops[k].Socket?
    ensures Legal(s, ops, env)
    ensures var t := Run(s, ops, env); t.queue == [] || t.down
    decreases |ops|
  {
    hide Inv, Step;
    InvQueueIn(s);
    if ops != [] {
      StepKeeps(s, ops[0], env);
      StepQuiet(s, ops[0], env);
      QuietLegal(Step(s, ops[0], env), ops[1..], env);
    }
  }

  lemma StepQuiet(s: Server, op: Op, env: Engine)
    requires QueueIn(s) && (s.queue == [] || s.down) && !op.Socket?
    ensures var t := Step(s, op, env); t.queue == [] || t.down
  {
  }

  // ---------------------------------------------------------------- queue and leases

  /** In every reachable state each queued dispatch holds the workspace it names, owners and
      workspaces are distinct, exactly the queued connections are pending, and there is room. */
  lemma SchedulerSafe(connections: nat, workspaces: nat, ops: seq<Op>, env: Engine)
    requires Possible(connections, workspaces, ops, env)
    ensures var s := Reached(connections, workspaces, ops, env);
      && LeasesOk(s.leases, |s.slots|)
      && (forall k :: 0 <= k < |s.queue| ==> QueuedOk(s, s.queue[k]))
      && (forall j, k :: 0 <= j < k < |s.queue| ==>
            s.queue[j].owner != s.queue[k].owner && s.queue[j].workspace != s.queue[k].workspace)
      && (forall i :: 0 <= i < |s.slots| ==> (s.slots[i].pending <==> IsQueued(s, i)))
      && |s.queue| <= |s.leases.owners|
  {
    var s := Reached(connections, workspaces, ops, env);
    WorkspacesDistinct(s);
    forall i | 0 <= i < |s.slots| && IsQueued(s, i) ensures s.slots[i].pending {
      var k :| 0 <= k < |s.queue| && s.queue[k].owner == i;
      assert QueuedOk(s, s.queue[k]);
    }
    QueueFits(s);
  }

  lemma WorkspacesDistinct(s: Server)
    requires Inv(s)
    ensures forall j, k :: 0 <= j < k < |s.queue| ==> s.queue[j].workspace != s.queue[k].workspace
  {
    forall j, k | 0 <= j < k < |s.queue| ensures s.queue[j].workspace != s.queue[k].workspace {
      assert QueuedOk(s, s.queue[j]) && QueuedOk(s, s.queue[k]);
    }
  }

  lemma QueueFits(s: Server)
    requires Inv(s)
    ensures |s.queue| <= |s.leases.owners|
  {
    var held := seq(|s.queue|, k requires 0 <= k < |s.queue| => s.queue[k].workspace);
    WorkspacesDistinct(s);
    forall k | 0 <= k < |held| ensures held[k] < |s.leases.owners| {
      assert QueuedOk(s, s.queue[k]);
    }
    RosterFits(held, |s.leases.owners|);
  }

  /** A dispatch that may be queued finds a free place in the ring. */
  lemma PushFits(s: Server, d: Dispatch)
    requires Inv(s) && MayQueue(s, d)
    ensures |s.queue| < |s.leases.owners|
  {
    EnqueuedKeeps(s, d);
    QueueFits(Enqueued(s, d));
  }

  // ---------------------------------------------------------------- replaced responses

  /** The response of dispatch id was buffered at a, and has neither been finished nor replaced nor
      gone with its connection since. */
  ghost predicate WaitsSince(log: seq<Event>, i: nat, id: nat, a: nat)
  {
    && a < |log| && log[a].Buffered? && log[a].slot == i && log[a].id == id
    && forall c :: a < c < |log| && log[c].slot == i ==> !log[c].Buffered? && !log[c].Finished? && !log[c].Gone?
  }

  ghost predicate ResumedSince(log: seq<Event>, i: nat, a: nat)
  {
    exists b :: a < b < |log| && log[b] == Resumed(i)
  }

  /** The standing of a response, told event by event. */
  lemma {:induction false} StandingTold(log: seq<Event>, i: nat) returns (a: nat)
    ensures var st := StandingOf(log, i);
      if st.Absent? then forall a, id :: !WaitsSince(log, i, id, a)
      else WaitsSince(log, i, st.id, a) && (st.Exposed? <==> ResumedSince(log, i, a))
    decreases |log|
  {
    a := 0;
    if log != [] {
      var n := |log| - 1;
      var e, rest := log[n], log[..n];
      assert log == rest + [e];
      a := StandingTold(rest, i);
      var st, was := StandingOf(log, i), StandingOf(rest, i);
      if e.slot == i && e.Buffered? {
        a := n;
      } else if !st.Absent? {
        StillWaits(rest, e, i, st.id, a);
      } else {
        forall x: nat, id: nat ensures !WaitsSince(log, i, id, x) {
          if WaitsSince(log, i, id, x) {
            assert log[n] == e && log[x].Buffered?;
            WaitedBefore(rest, e, i, id, x);
          }
        }
      }
    }
  }

  lemma WaitedBefore(rest: seq<Event>, e: Event, i: nat, id: nat, a: nat)
    requires WaitsSince(rest + [e], i, id, a) && a < |rest|
    ensures WaitsSince(rest, i, id, a)
    ensures e.slot == i ==> !e.Finished? && !e.Gone?
  {
    var log := rest + [e];
    assert log[|rest|] == e && log[a] == rest[a];
    forall c | a < c < |rest| && rest[c].slot == i
      ensures !rest[c].Buffered? && !rest[c].Finished? && !rest[c].Gone?
    {
      assert log[c] == rest[c];
    }
  }

  lemma StillWaits(rest: seq<Event>, e: Event, i: nat, id: nat, a: nat)
    requires WaitsSince(rest, i, id, a)
    requires e.slot == i ==> !e.Buffered? && !e.Finished? && !e.Gone?
    ensures WaitsSince(rest + [e], i, id, a)
    ensures ResumedSince(rest + [e], i, a) <==> ResumedSince(rest, i, a) || e == Resumed(i)
  {
    var log := rest + [e];
    if ResumedSince(rest, i, a) {
      var b :| a < b < |rest| && rest[b] == Resumed(i);
      assert log[b] == Resumed(i);
    }
    if e == Resumed(i) { assert log[|rest|] == Resumed(i); }
    if ResumedSince(log, i, a) && e != Resumed(i) {
      var b :| a < b < |log| && log[b] == Resumed(i);
      assert rest[b] == Resumed(i);
    }
  }

  /** A response that takes the place of one that still waits answers a read, after the connection was
      found willing to read while the other one waited. */
  lemma ReplacesAfterResume(connections: nat, workspaces: nat, ops: seq<Op>, env: Engine, a: nat, k: nat)
    requires Possible(connections, workspaces, ops, env)
    requires var log := Reached(connections, workspaces, ops, env).log;
      && k < |log| && log[k].Buffered? && a < k && log[a].Buffered?
      && WaitsSince(log[..k], log[k].slot, log[a].id, a)
    ensures var log := Reached(connections, workspaces, ops, env).log;
      log[k].kind.Readable? && ResumedSince(log[..k], log[k].slot, a)
  {
    var s := Reached(connections, workspaces, ops, env);
    hide Reached;
    assert EventOk(s.log, k, s.durable);
    var i, before := s.log[k].slot, s.log[..k];
    var last := StandingTold(before, i);
    assert WaitsSince(before, i, s.log[a].id, a);
    assert before[a].Buffered? && before[a].slot == i;
    assert last == a;
  }

  /** The response buffered at a gave way to a later one, before it was finished and while its
      connection stayed open. */
  ghost predicate Replaced(log: seq<Event>, a: nat)
    requires a < |log| && log[a].Buffered?
  {
    exists k :: a < k < |log| && log[k].Buffered? && log[k].slot == log[a].slot
      && WaitsSince(log[..k], log[a].slot, log[a].id, a)
  }

  /** After the response was buffered at a, its connection was found willing to read, and a read ran
      before the response was finished or its connection gone. */
  ghost predicate ReadMeanwhile(log: seq<Event>, a: nat)
    requires a < |log| && log[a].Buffered?
  {
    var i := log[a].slot;
    exists b, k :: a < b < k < |log| && log[b] == Resumed(i)
      && log[k].Buffered? && log[k].slot == i && log[k].kind.Readable? && NeverEnds(log[..k], i, a)
  }

  ghost predicate NeverEnds(log: seq<Event>, i: nat, a: nat)
  {
    forall c :: a < c < |log| && log[c].slot == i ==> !log[c].Finished? && !log[c].Gone?
  }

  /** The first later response of the slot replaces this one, unless it ends first. */
  lemma {:induction false} FirstReplaces(log: seq<Event>, a: nat, k: nat)
    requires a < k < |log| && log[a].Buffered? && log[k].Buffered? && log[k].slot == log[a].slot
    requires NeverEnds(log[..k], log[a].slot, a)
    ensures Replaced(log, a)
    decreases k
  {
    if c :| a < c < k && log[c].slot == log[a].slot && log[c].Buffered? {
      assert log[..k][..c] == log[..c];
      FirstReplaces(log, a, c);
    } else {
      assert WaitsSince(log[..k], log[a].slot, log[a].id, a);
    }
  }

  /** Over every run: a buffered response is replaced if and only if a read ran while it waited, after
      the connection had been found willing to read. */
  lemma ReplacedExactly(connections: nat, workspaces: nat, ops: seq<Op>, env: Engine, a: nat)
    requires Possible(connections, workspaces, ops, env)
    requires var log := Reached(connections, workspaces, ops, env).log; a < |log| && log[a].Buffered?
    ensures var log := Reached(connections, workspaces, ops, env).log; Replaced(log, a) <==> ReadMeanwhile(log, a)
  {
    var log := Reached(connections, workspaces, ops, env).log;
    var i := log[a].slot;
    if Replaced(log, a) {
      var k :| a < k < |log| && log[k].Buffered? && log[k].slot == i && WaitsSince(log[..k], i, log[a].id, a);
      ReplacesAfterResume(connections, workspaces, ops, env, a, k);
      var b :| a < b < k && log[..k][b] == Resumed(i);
      assert NeverEnds(log[..k], i, a);
    }
    hide Reached;
    if ReadMeanwhile(log, a) {
      var b, k :| a < b < k < |log| && log[b] == Resumed(i)
        && log[k].Buffered? && log[k].slot == i && log[k].kind.Readable? && NeverEnds(log[..k], i, a);
      FirstReplaces(log, a, k);
    }
  }

  // ---------------------------------------------------------------- the commit barrier

  ghost predicate SendsStranded(log: seq<Event>, k: nat)
    requires k < |log| && log[k].Sent?
  {
    exists n :: 0 <= n < |log[k].bytes| && Early(log[k].bytes[n], log[k].durable)
      && Stranded(log[..k], log[k].slot, log[k].bytes[n].id)
  }

  /** Output of the dispatch that is running, sent before what it speaks of is durable. */
  ghost predicate SendsOwnEarly(e: Event)
    requires e.Sent?
  {
    e.cause.InDispatch? && e.cause.lsn > e.durable && Has(e.bytes, e.cause.id)
  }

  /** The commit barrier, over every run and every dispatch. Bytes leave before the LSN of their
      dispatch is durable if and only if they are sent past a response that is held back, on a writable
      event, by a closing answer or by a dispatch that streams; or the dispatch that streams wrote them
      and is not durable itself; or they were stranded before: their response was replaced, or an error
      left them behind. Finishing responses alone sends nothing early. */
  lemma CommitBarrier(connections: nat, workspaces: nat, ops: seq<Op>, env: Engine, k: nat)
    requires Possible(connections, workspaces, ops, env)
    requires var log := Reached(connections, workspaces, ops, env).log; k < |log| && log[k].Sent?
    ensures var log := Reached(connections, workspaces, ops, env).log; var e := log[k];
      && (SomeEarly(e.bytes, e.durable) <==>
            (e.holding.Some? && Has(e.bytes, e.holding.value)) || SendsOwnEarly(e) || SendsStranded(log, k))
      && (e.cause.AtBarrier? ==> e.holding.None?)
  {
    ReachedGuards(connections, workspaces, ops, env);
    var log := Reached(connections, workspaces, ops, env).log;
    hide Reached;
    var e := log[k];
    assert SendOk(log, k);
    if e.holding.Some? && Has(e.bytes, e.holding.value) {
      var n :| 0 <= n < |e.bytes| && Of(e.bytes[n], e.holding.value);
      assert Early(e.bytes[n], e.durable);
    }
    if SendsOwnEarly(e) {
      var n :| 0 <= n < |e.bytes| && Of(e.bytes[n], e.cause.id);
      assert Early(e.bytes[n], e.durable);
    }
    if SomeEarly(e.bytes, e.durable) && !SendsStranded(log, k) {
      var n :| 0 <= n < |e.bytes| && Early(e.bytes[n], e.durable);
      assert Of(e.bytes[n], e.bytes[n].id);
    }
  }

  /** At a dispatch that streams: what leaves is the front of the buffer and of its own output, and some
      of it is early exactly when that front of the buffer holds an early byte, or reaches output of a
      dispatch that is not durable. */
  lemma StreamReaches(s: Server, env: Engine)
    requires s.queue != [] && QueueIn(s) && !Declined(s, env(s.tick))
    requires env(s.tick).after.Continue? && Output(s, env(s.tick)).0 != []
    ensures var (i, o) := (s.queue[0].owner, env(s.tick));
      var (was, sent, r) := (s.slots[i].out.bytes, Output(s, o).0, Answer(s, o));
      && s.log + [Sent(i, InDispatch(r.id, Needs(r)), Holding(s.slots[i], s.durable), sent, s.durable)]
         <= Executed(s, env).log
      && (SomeEarly(sent, s.durable) <==>
            || SomeEarly(was[..Taken(|sent|, s.slots[i].out)], s.durable)
            || (|sent| > |was| && Needs(r) > s.durable))
  {
    hide Output, Answer, Needs;
    var (i, o) := (s.queue[0].owner, env(s.tick));
    var (was, sent, r) := (s.slots[i].out.bytes, Output(s, o).0, Answer(s, o));
    var front := was[..Taken(|sent|, s.slots[i].out)];
    StreamLogged(s, env);
    if SomeEarly(sent, s.durable) {
      var n :| 0 <= n < |sent| && Early(sent[n], s.durable);
      OutputBytes(s, o, n);
      if n < |was| { assert front[n] == sent[n]; }
    }
    if SomeEarly(front, s.durable) {
      var n :| 0 <= n < |front| && Early(front[n], s.durable);
      OutputBytes(s, o, n);
      assert sent[n] == front[n];
    }
    if |sent| > |was| { OutputBytes(s, o, |was|); }
  }

  /** A statement that streams empties the buffer each time it is full. Something then leaves early exactly
      when the buffer held an early byte, or the dispatch wrote before the last time and is not durable. */
  lemma DrainReaches(s: Server, env: Engine)
    requires s.queue != [] && QueueIn(s) && !Declined(s, env(s.tick)) && env(s.tick).after.Continue?
    requires var (d, chunks) := (s.queue[0], Chunks(s.queue[0], env(s.tick)));
      && chunks != []
      && forall k :: 0 <= k < |chunks| ==> chunks[k].took >= |s.slots[d.owner].out.bytes| + Volume(chunks)
    ensures var (d, o) := (s.queue[0], env(s.tick));
      SomeEarly(Output(s, o).0, s.durable) <==>
        || SomeEarly(s.slots[d.owner].out.bytes, s.durable)
        || (Volume(Chunks(d, o)) > 0 && Needs(Answer(s, o)) > s.durable)
  {
    hide Answer, Needs;
    var (d, o) := (s.queue[0], env(s.tick));
    var was := s.slots[d.owner].out;
    DrainsAll(was, Chunks(d, o), OwnByte(Answer(s, o), o));
    hide Streamed;
    if Output(s, o).0 != [] {
      StreamReaches(s, env);
      assert was.bytes[..|was.bytes|] == was.bytes;
    }
  }

  lemma StreamLogged(s: Server, env: Engine)
    requires s.queue != [] && QueueIn(s) && !Declined(s, env(s.tick))
    ensures s.log + StreamEvents(s, env(s.tick)) <= Executed(s, env).log
  {
    hide StreamEvents, RunSlot, Answer, PlaceOf, Woken, AfterRelease, FlushedSlot, AfterCancel;
  }

  // ---------------------------------------------------------------- errors

  /** How many bytes the connection has sent since. */
  function SentSince(log: seq<Event>, i: nat, a: nat): nat
  {
    if |log| <= a + 1 then 0
    else
      var e := log[|log| - 1];
      SentSince(log[..|log| - 1], i, a) + if e.Sent? && e.slot == i then |e.bytes| else 0
  }

  ghost predicate ClearedSince(log: seq<Event>, i: nat, a: nat)
  {
    exists c :: a < c < |log| && log[c] == Cleared(i)
  }

  /** Where the output of a waiting response lies, from where it lay when it was buffered and the bytes
      sent since. */
  ghost function PlaceNow(log: seq<Event>, i: nat, a: nat): Place
    requires a < |log| && log[a].Buffered?
  {
    if ClearedSince(log, i, a) then Place(0, 0, false) else Advanced(log[a].place, SentSince(log, i, a))
  }

  lemma {:induction false} PlaceTold(log: seq<Event>, i: nat, id: nat, a: nat)
    requires WaitsSince(log, i, id, a)
    ensures var st := StandingOf(log, i);
      !st.Absent? && st.id == id && st.place == PlaceNow(log, i, a)
    decreases |log|
  {
    var n := |log| - 1;
    var e, rest := log[n], log[..n];
    assert log == rest + [e];
    if a < n {
      WaitedBefore(rest, e, i, id, a);
      PlaceTold(rest, i, id, a);
      ClearedNext(rest, e, i, a);
      assert log[n] == e && (e.slot == i ==> !e.Buffered?);
      assert rest[a].place == log[a].place;
    } else {
      assert SentSince(log, i, a) == 0;
    }
  }

  lemma ClearedNext(rest: seq<Event>, e: Event, i: nat, a: nat)
    requires a < |rest|
    ensures ClearedSince(rest + [e], i, a) <==> ClearedSince(rest, i, a) || e == Cleared(i)
  {
    var log := rest + [e];
    if ClearedSince(rest, i, a) {
      var c :| a < c < |rest| && rest[c] == Cleared(i);
      assert log[c] == Cleared(i);
    }
    if e == Cleared(i) { assert log[|rest|] == Cleared(i); }
    if ClearedSince(log, i, a) && e != Cleared(i) {
      var c :| a < c < |log| && log[c] == Cleared(i);
      assert rest[c] == Cleared(i);
    }
  }

  /** An error, after every run: it stops the server exactly when its mark lies outside the unsent bytes;
      otherwise it takes nothing of what is ahead of its output, and leaves output behind exactly when
      what is ahead ends before the mark and some output is still there. What is ahead and what is there
      follow from the bytes sent or cleared since the response was buffered. */
  lemma TakenBackExactly(connections: nat, workspaces: nat, ops: seq<Op>, env: Engine, i: nat) returns (a: nat)
    requires Possible(connections, workspaces, ops, env)
    requires var s := Reached(connections, workspaces, ops, env);
      i < |s.slots| && Errs(s.slots[i], s.durable, true)
    ensures var s := Reached(connections, workspaces, ops, env);
      var (out, r) := (s.slots[i].out, s.slots[i].response.value);
      && WaitsSince(s.log, i, r.id, a)
      && var (p, t) := (PlaceNow(s.log, i, a), FinishedAt(s, i, true, env));
        if r.mark.value < out.start || End(out) < r.mark.value then
          t == s.(down := true, log := s.log + [Panicked(i)])
        else
          var kept := Truncated(out, r.mark.value).bytes;
          var clips := p.own > 0 && out.start + p.ahead < r.mark.value;
          && p.ahead <= |kept| && Lies(kept, r.id, p.ahead, Least(p.own, |kept| - p.ahead))
          && s.log + (if clips then [Clipped(i, r.id)] else []) + [Finished(i, r, s.durable, true)] <= t.log
  {
    ReachedGuards(connections, workspaces, ops, env);
    var s := Reached(connections, workspaces, ops, env);
    hide Reached, Inv, FinishedAt;
    ResponseAt(s, i);
    OutAt(s, i);
    var (slot, r) := (s.slots[i], s.slots[i].response.value);
    a := StandingTold(s.log, i);
    PlaceTold(s.log, i, r.id, a);
    var p := PlaceNow(s.log, i, a);
    LeadLies(slot.out.bytes, r.id, p.ahead, p.own);
    UnfoldFinished(s, i, true, env);
    if CanTruncate(slot.out, r.mark.value) {
      LiesWithin(slot.out.bytes, r.id, p.ahead, p.own, r.mark.value - slot.out.start);
      FinishLogged(s, i, env);
    }
  }

  lemma FinishLogged(s: Server, i: nat, env: Engine)
    requires i < |s.slots| && Errs(s.slots[i], s.durable, true) && !Panics(s.slots[i], s.durable, true)
    ensures s.log + Leftover(s.slots[i], i) + [Finished(i, s.slots[i].response.value, s.durable, true)]
         <= FinishedAt(s, i, true, env).log
  {
    hide FinishedAt, FlushedSlot, ErrorSlot, Leftover, Woken, AfterCancel;
    UnfoldFinished(s, i, true, env);
  }

  /** An error fails to take its output back, or to find its mark, only if the output has moved since
      the mark was taken: it was written behind bytes already sent, or bytes were sent or cleared while
      it was written or waited. */
  lemma TakenBackUnlessMoved(connections: nat, workspaces: nat, ops: seq<Op>, env: Engine, k: nat)
    requires Possible(connections, workspaces, ops, env)
    requires var log := Reached(connections, workspaces, ops, env).log;
      k < |log| && (log[k].Clipped? || log[k].Panicked?)
    ensures var log := Reached(connections, workspaces, ops, env).log;
      var st := StandingOf(log[..k], log[k].slot); !st.Absent? && !st.place.exact
  {
    ReachedGuards(connections, workspaces, ops, env);
    var log := Reached(connections, workspaces, ops, env).log;
    hide Reached;
    assert SendOk(log, k);
  }

  /** At a writable event: output of the response that is held back leaves early exactly when the socket
      takes more than the bytes before it. */
  lemma WritableReaches(s: Server, i: nat, o: Outcome)
    requires Inv(s) && Guarding(s) && i < |s.slots| && s.slots[i].response.Some?
    requires Behind(s.slots[i].response.value, s.durable)
    ensures var (slot, e) := (s.slots[i], SentEvent(s.slots[i], i, o, OnWritable, s.durable));
      var id := slot.response.value.id;
      && s.log + [e] <= Written(s, i, o).log
      && (Has(e.bytes, id) <==> Lead(slot.out.bytes, id) < Taken(o.accepted, slot.out))
      && (Has(e.bytes, id) ==> SomeEarly(e.bytes, s.durable))
  {
    hide Inv, OutOk;
    var slot, e := s.slots[i], SentEvent(s.slots[i], i, o, OnWritable, s.durable);
    var id := slot.response.value.id;
    UnfoldWritten(s, i, o);
    LeadReached(slot.out.bytes, id, Taken(o.accepted, slot.out));
    OutAt(s, i);
    ResponseAt(s, i);
    SendingOk(slot, i, o, OnWritable, s.log, s.durable, s.tick);
    if Has(e.bytes, id) {
      var n :| 0 <= n < |e.bytes| && e.bytes[n].Guarded? && e.bytes[n].id == id;
      assert (s.log + [e])[|s.log|] == e && Early(e.bytes[n], s.durable);
    }
  }

  /** At a read: an error that follows finds its mark exactly when no more bytes had been sent, before the
      read and while it ran, than the read wrote. It then leaves as many bytes of its answer behind as
      had been sent before, plus those ahead of the answer that were sent while it ran. */
  lemma ReadMoves(s: Server, o: Outcome)
    requires Guarding(s) && s.queue != [] && QueueIn(s) && s.slots[s.queue[0].owner].open
    requires o.after.Continue? && Ran(s.queue[0], o) && o.wrote > 0
    ensures var (was, sent, out) := (s.slots[s.queue[0].owner].out, |Output(s, o).0|, RunSlot(s, o).out);
      var (r, p) := (Answer(s, o), PlaceOf(s, o));
      && |out.bytes| == p.ahead + p.own
      && (CanTruncate(out, r.mark.value) <==> was.start + sent <= Volume(o.stream) + o.wrote)
      && (CanTruncate(out, r.mark.value) ==>
            var kept := Truncated(out, r.mark.value).bytes;
            Lies(kept, r.id, p.ahead, was.start + Taken(sent, was)) && |kept| == p.ahead + was.start + Taken(sent, was))
  {
    hide Answer, Poured, Guarding;
    var d, r, p := s.queue[0], Answer(s, o), PlaceOf(s, o);
    var was, sent, out := s.slots[d.owner].out, |Output(s, o).0|, RunSlot(s, o).out;
    OwnPlaceOf(s, o);
    AnswerMark(s, o);
    PouredBytes(was, o.stream, o.wrote, OwnByte(r, o));
    RepeatedLength(OwnByte(r, o), Volume(o.stream) + o.wrote);
    FrontAgain(was, o.stream, o.wrote, OwnByte(r, o));
    if CanTruncate(out, r.mark.value) { LiesWithin(out.bytes, r.id, p.ahead, p.own, r.mark.value); }
  }

  lemma OwnPlaceOf(s: Server, o: Outcome)
    requires Guarding(s) && s.queue != [] && QueueIn(s) && o.after.Continue? && s.slots[s.queue[0].owner].open
    ensures PlaceOk(Output(s, o).1, Answer(s, o), PlaceOf(s, o))
  {
    OwnPlace(s, o);
  }

  lemma FrontAgain(was: Out, chunks: seq<Chunk>, wrote: nat, b: Byte)
    requires wrote > 0
    ensures Poured(was, chunks, wrote, b).1.start == 0
  {
  }
}
