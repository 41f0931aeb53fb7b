/** What every step of the query scheduler keeps. */
module ServerInvariant {
  import opened Options
  import opened WorkspaceLeases
  import opened SendBuffers
  import opened ServerCore

  // ---------------------------------------------------------------- the invariant

  /** A queued dispatch holds the very workspace it names, for the connection that queued it. */
  ghost predicate QueuedOk(s: Server, d: Dispatch)
  {
    && d.owner < |s.slots| && d.workspace < |s.leases.owners|
    && s.leases.owners[d.workspace] == Some(d.owner)
    && s.slots[d.owner].open && s.slots[d.owner].pending && s.slots[d.owner].generation == d.generation
    && (d.kind.Readable? ==> !s.slots[d.owner].wantRead && !s.slots[d.owner].conn.parked)
    && (d.kind.Retry? ==> s.slots[d.owner].response.None?)
  }

  ghost predicate IsQueued(s: Server, i: nat)
  {
    exists k :: 0 <= k < |s.queue| && s.queue[k].owner == i
  }

  ghost predicate QueueOk(s: Server)
  {
    && (forall k :: 0 <= k < |s.queue| ==> QueuedOk(s, s.queue[k]))
    && (forall j, k :: 0 <= j < k < |s.queue| ==> s.queue[j].owner != s.queue[k].owner)
    && (forall i {:trigger s.slots[i]} :: 0 <= i < |s.slots| && s.slots[i].pending ==> IsQueued(s, i))
  }

  /** Where the last buffered response of a connection stands: finished or gone with its connection,
      waiting, or waiting after its connection could read again; and where its output lies. */
  datatype Standing = Absent | Waits(id: nat, place: Place) | Exposed(id: nat, place: Place)

  function Moved(st: Standing, place: Place): Standing
  {
    match st
    case Absent => Absent
    case Waits(id, _) => Waits(id, place)
    case Exposed(id, _) => Exposed(id, place)
  }

  /** Sending takes the bytes ahead first. */
  function Advanced(p: Place, sent: nat): Place
  {
    Place(Less(p.ahead, sent), Less(p.own, Less(sent, p.ahead)), p.exact && sent == 0)
  }

  function Next(st: Standing, e: Event): Standing
  {
    match e
    case Buffered(_, id, _, place) => Waits(id, place)
    case Resumed(_) => if st.Waits? then Exposed(st.id, st.place) else st
    case Finished(_, _, _, _) => Absent
    case Gone(_) => Absent
    case Cleared(_) => Moved(st, Place(0, 0, false))
    case Sent(_, _, _, bytes, _) => if st.Absent? then st else Moved(st, Advanced(st.place, |bytes|))
    case Clipped(_, _) => st
    case Panicked(_) => st
  }

  /** Told by the history alone. */
  function StandingOf(log: seq<Event>, i: nat): Standing
  {
    if log == [] then Absent
    else
      var e, st := log[|log| - 1], StandingOf(log[..|log| - 1], i);
      if e.slot == i then Next(st, e) else st
  }

  lemma StandingNext(log: seq<Event>, e: Event, i: nat)
    ensures StandingOf(log + [e], i) == if e.slot == i then Next(StandingOf(log, i), e) else StandingOf(log, i)
  {
    assert (log + [e])[..|log|] == log;
  }

  ghost predicate OnlyOf(events: seq<Event>, i: nat)
  {
    forall k :: 0 <= k < |events| ==> events[k].slot == i
  }

  lemma {:induction false} StandingOther(log: seq<Event>, more: seq<Event>, i: nat, j: nat)
    requires OnlyOf(more, i) && j != i
    ensures StandingOf(log + more, j) == StandingOf(log, j)
    decreases |more|
  {
    if more == [] {
      assert log + more == log;
    } else {
      var n := |more| - 1;
      StandingOther(log, more[..n], i, j);
      assert log + more == (log + more[..n]) + [more[n]];
      StandingNext(log + more[..n], more[n], j);
    }
  }

  /** What a response waits for covers what its output speaks of. */
  ghost predicate ResponseOk(r: Response, durable: nat)
  {
    r.required == RequiredLsn(r.before, r.after, r.staged) && (r.required.None? ==> Needs(r) <= durable)
  }

  /** Only an open connection is read from or holds a response. The history knows the response, and a
      connection that could run again while it waits has been resumed since it was buffered. */
  ghost predicate SlotOk(slot: Slot, i: nat, waiting: bool, log: seq<Event>, durable: nat)
  {
    && (slot.wantRead ==> slot.open && !slot.conn.parked)
    && (slot.open ==> !slot.detached)
    && var st := StandingOf(log, i);
      if slot.response.None? then st.Absent?
      else
        && slot.open && ResponseOk(slot.response.value, durable)
        && !st.Absent? && st.id == slot.response.value.id
        && (slot.wantRead || slot.pending || waiting ==> st.Exposed?)
  }

  ghost predicate SlotsOk(s: Server)
  {
    forall i {:trigger s.slots[i]} :: 0 <= i < |s.slots| ==>
      SlotOk(s.slots[i], i, i in s.leases.waiters, s.log, s.durable)
  }

  /** A response takes the place of another one only on a connection that was resumed while that one
      waited, and only by reading. One finished without an error speaks of nothing undurable. */
  ghost predicate EventOk(log: seq<Event>, k: nat, durable: nat)
    requires k < |log|
  {
    match log[k]
    case Buffered(i, _, kind, _) =>
      var st := StandingOf(log[..k], i);
      !st.Waits? && (st.Exposed? ==> kind.Readable?)
    case Finished(i, r, at, failed) =>
      && at <= durable && (if failed then Behind(r, at) else Needs(r) <= at)
      && var st := StandingOf(log[..k], i);
        !st.Absent? && st.id == r.id
    case _ => true
  }

  ghost predicate LogOk(log: seq<Event>, durable: nat)
  {
    forall k {:trigger EventOk(log, k, durable)} :: 0 <= k < |log| ==> EventOk(log, k, durable)
  }

  ghost predicate Inv(s: Server)
  {
    LeasesOk(s.leases, |s.slots|) && QueueOk(s) && SlotsOk(s) && LogOk(s.log, s.durable)
  }

  // ---------------------------------------------------------------- the log grows

  lemma LogGrows(log: seq<Event>, e: Event, durable: nat)
    requires LogOk(log, durable) && EventOk(log + [e], |log|, durable)
    ensures LogOk(log + [e], durable)
  {
    forall k | 0 <= k < |log + [e]| ensures EventOk(log + [e], k, durable) {
      if k < |log| {
        assert EventOk(log, k, durable) && (log + [e])[..k] == log[..k];
      }
    }
  }

  /** A slot stays well while others make history, fewer wait and more becomes durable. */
  lemma SlotStays(slot: Slot, j: nat, waiting: bool, log: seq<Event>, stillWaiting: bool, i: nat, more: seq<Event>,
                  durable: nat)
    requires SlotOk(slot, j, waiting, log, durable) && (stillWaiting ==> waiting) && OnlyOf(more, i)
      && (j != i || more == [])
    ensures SlotOk(slot, j, stillWaiting, log + more, durable)
  {
    if j != i { StandingOther(log, more, i, j); } else { assert log + more == log; }
  }

  // ---------------------------------------------------------------- leases

  /** Cancelling or releasing x leaves every other lease alone and only shortens the roster. */
  ghost predicate LeaseLost(l: Leases, m: Leases, x: nat, h: Option<Handoff>)
  {
    && |m.owners| == |l.owners|
    && (forall w :: 0 <= w < |l.owners| && l.owners[w].Some? && l.owners[w].value != x ==> m.owners[w] == l.owners[w])
    && (forall y :: y in m.waiters ==> y in l.waiters)
    && (h.Some? ==> h.value.owner in l.waiters && h.value.owner !in m.waiters
                    && h.value.workspace < |m.owners| && m.owners[h.value.workspace] == Some(h.value.owner))
  }

  lemma ReleaseLoses(l: Leases, x: nat, connections: nat)
    requires LeasesOk(l, connections)
    ensures var (h, m) := AfterRelease(l, x);
      LeasesOk(m, connections) && LeaseLost(l, m, x, h)
  {
    ReleaseKeeps(l, x, connections);
    var (h, m) := AfterRelease(l, x);
    if h.Some? {
      assert l.waiters[0] == h.value.owner;
      forall y | y in m.waiters ensures y in l.waiters && y != h.value.owner {
        var k :| 0 <= k < |m.waiters| && m.waiters[k] == y;
        assert y == l.waiters[k + 1];
      }
    }
  }

  lemma CancelLoses(l: Leases, x: nat, connections: nat)
    requires LeasesOk(l, connections)
    ensures var (h, m) := AfterCancel(l, x);
      LeasesOk(m, connections) && LeaseLost(l, m, x, h) && x !in m.waiters
  {
    WithoutWaiter(l.waiters, x);
    var r := l.(waiters := WithoutOwner(l.waiters, x));
    assert LeasesOk(r, connections) by {
      forall k | 0 <= k < |r.waiters| ensures r.waiters[k] < connections && Some(r.waiters[k]) !in r.owners {
        assert r.waiters[k] in l.waiters;
      }
    }
    ReleaseLoses(r, x, connections);
  }

  /** A connection that is not queued can lose its lease. */
  lemma QueueKeepsLeases(s: Server, m: Leases, x: nat, h: Option<Handoff>)
    requires QueueOk(s) && LeaseLost(s.leases, m, x, h) && !IsQueued(s, x)
    ensures QueueOk(s.(leases := m))
  {
    var t := s.(leases := m);
    forall k | 0 <= k < |t.queue| ensures QueuedOk(t, t.queue[k]) {
      assert QueuedOk(s, s.queue[k]);
    }
    forall i | 0 <= i < |t.slots| && t.slots[i].pending ensures IsQueued(t, i) {
      assert IsQueued(s, i);
      var k :| 0 <= k < |s.queue| && s.queue[k].owner == i;
      assert t.queue[k].owner == i;
    }
  }

  lemma SlotsKeepLeases(s: Server, m: Leases)
    requires SlotsOk(s) && forall y :: y in m.waiters ==> y in s.leases.waiters
    ensures SlotsOk(s.(leases := m))
  {
    forall i | 0 <= i < |s.slots| ensures SlotOk(s.slots[i], i, i in m.waiters, s.log, s.durable) {
      SlotStays(s.slots[i], i, i in s.leases.waiters, s.log, i in m.waiters, i, [], s.durable);
      assert s.log + [] == s.log;
    }
  }

  // ---------------------------------------------------------------- changing one slot

  /** A slot that is not queued changes to another one that is not pending. */
  lemma QueueKeepsSlot(s: Server, i: nat, slot: Slot)
    requires QueueOk(s) && i < |s.slots| && !IsQueued(s, i) && !slot.pending
    ensures QueueOk(s.(slots := s.slots[i := slot])) && !IsQueued(s.(slots := s.slots[i := slot]), i)
  {
    var t := s.(slots := s.slots[i := slot]);
    forall k | 0 <= k < |t.queue| ensures QueuedOk(t, t.queue[k]) && t.queue[k].owner != i {
      assert QueuedOk(s, s.queue[k]) && s.queue[k].owner != i;
    }
    forall j | 0 <= j < |t.slots| && t.slots[j].pending ensures IsQueued(t, j) {
      assert IsQueued(s, j);
      var k :| 0 <= k < |s.queue| && s.queue[k].owner == j;
      assert t.queue[k].owner == j;
    }
  }

  lemma SlotsKeepSlot(s: Server, i: nat, slot: Slot, more: seq<Event>)
    requires SlotsOk(s) && i < |s.slots| && OnlyOf(more, i)
    requires SlotOk(slot, i, i in s.leases.waiters, s.log + more, s.durable)
    ensures SlotsOk(s.(slots := s.slots[i := slot], log := s.log + more))
  {
    forall j | 0 <= j < |s.slots|
      ensures SlotOk(s.slots[i := slot][j], j, j in s.leases.waiters, s.log + more, s.durable)
    {
      if j != i {
        SlotStays(s.slots[j], j, j in s.leases.waiters, s.log, j in s.leases.waiters, i, more, s.durable);
      }
    }
  }

  /** The general step: one slot that is not queued changes, and the log notes what happened to it. */
  lemma SlotChanges(s: Server, i: nat, slot: Slot, more: seq<Event>)
    requires Inv(s) && i < |s.slots| && !IsQueued(s, i) && !slot.pending && OnlyOf(more, i)
    requires SlotOk(slot, i, i in s.leases.waiters, s.log + more, s.durable) && LogOk(s.log + more, s.durable)
    ensures Inv(s.(slots := s.slots[i := slot], log := s.log + more))
    ensures !IsQueued(s.(slots := s.slots[i := slot], log := s.log + more), i)
  {
    hide SlotOk, LogOk, LeasesOk, OnlyOf;
    QueueKeepsSlot(s, i, slot);
    QueueKeepsLog(s.(slots := s.slots[i := slot]), s.log + more);
    SlotsKeepSlot(s, i, slot, more);
    assert !IsQueued(s.(slots := s.slots[i := slot], log := s.log + more), i);
  }

  lemma QueueKeepsLog(s: Server, log: seq<Event>)
    requires QueueOk(s)
    ensures QueueOk(s.(log := log))
  {
    var t := s.(log := log);
    forall k | 0 <= k < |t.queue| ensures QueuedOk(t, t.queue[k]) {
      assert QueuedOk(s, s.queue[k]);
    }
    forall j | 0 <= j < |t.slots| && t.slots[j].pending ensures IsQueued(t, j) {
      assert IsQueued(s, j);
      var k :| 0 <= k < |s.queue| && s.queue[k].owner == j;
      assert t.queue[k].owner == j;
    }
  }

  // ---------------------------------------------------------------- handing a workspace on

  /** The connection a workspace has just been handed to: it was waiting, so it is not queued. */
  ghost predicate Offered(s: Server, h: Option<Handoff>)
  {
    h.Some? ==>
      && h.value.owner < |s.slots| && !IsQueued(s, h.value.owner)
      && SlotOk(s.slots[h.value.owner], h.value.owner, true, s.log, s.durable)
  }

  /** What one slot keeps while others are woken: everything, but it may begin to read. */
  ghost predicate SlotsKept(s: Server, t: Server)
  {
    && |t.slots| == |s.slots|
    && forall j {:trigger t.slots[j]} :: 0 <= j < |s.slots| ==>
        t.slots[j] == s.slots[j].(wantRead := t.slots[j].wantRead) && (s.slots[j].wantRead ==> t.slots[j].wantRead)
  }

  /** Losing x's lease, as the scheduler sees it. */
  lemma LeaseStep(s: Server, m: Leases, x: nat, h: Option<Handoff>)
    requires Inv(s) && !IsQueued(s, x) && LeasesOk(m, |s.slots|) && LeaseLost(s.leases, m, x, h)
    ensures Inv(s.(leases := m)) && Offered(s.(leases := m), h)
  {
    QueueKeepsLeases(s, m, x, h);
    SlotsKeepLeases(s, m);
    if h.Some? {
      var y := h.value.owner;
      assert y < |s.slots| && Some(y) !in s.leases.owners by {
        var k :| 0 <= k < |s.leases.waiters| && s.leases.waiters[k] == y;
      }
      forall k | 0 <= k < |s.queue| ensures s.queue[k].owner != y {
        assert QueuedOk(s, s.queue[k]);
      }
      assert SlotOk(s.slots[y], y, true, s.log, s.durable);
    }
  }

  lemma {:induction false} WokenKeeps(s: Server, h: Option<Handoff>)
    requires Inv(s) && Offered(s, h)
    ensures Inv(Woken(s, h)) && SlotsKept(s, Woken(s, h))
    decreases |s.leases.waiters| + (if h.Some? then 1 else 0)
  {
    hide SlotOk, LogOk, LeasesOk, QueueOk, LeaseLost, AfterCancel;
    if h.Some? {
      var i := h.value.owner;
      if !s.slots[i].open || !WantsRead(s.slots[i].conn) {
        var (next, l) := AfterCancel(s.leases, i);
        CancelLoses(s.leases, i, |s.slots|);
        LeaseStep(s, l, i, next);
        CancelShortens(s.leases, i);
        WokenKeeps(s.(leases := l), next);
      } else {
        WakeSlot(s, i);
      }
    }
  }

  lemma CancelShortens(l: Leases, x: nat)
    ensures var (h, m) := AfterCancel(l, x); |m.waiters| + (if h.Some? then 1 else 0) <= |l.waiters|
  {
  }

  lemma WakeSlot(s: Server, i: nat)
    requires Inv(s) && i < |s.slots| && !IsQueued(s, i) && SlotOk(s.slots[i], i, true, s.log, s.durable)
    requires s.slots[i].open && WantsRead(s.slots[i].conn)
    ensures Inv(s.(slots := s.slots[i := s.slots[i].(wantRead := true)]))
  {
    var slot := s.slots[i].(wantRead := true);
    assert !slot.pending by { assert QueueOk(s); }
    assert s.log + [] == s.log;
    SlotChanges(s, i, slot, []);
  }

  lemma WithoutLeaseKeeps(s: Server, x: nat)
    requires Inv(s) && !IsQueued(s, x)
    ensures Inv(WithoutLease(s, x)) && SlotsKept(s, WithoutLease(s, x))
  {
    hide *;
    UnfoldWithoutLease(s, x);
    var (h, l) := AfterRelease(s.leases, x);
    InvLeases(s);
    ReleaseLoses(s.leases, x, |s.slots|);
    LeaseStep(s, l, x, h);
    WokenKeeps(s.(leases := l), h);
    KeptLeases(s, l, Woken(s.(leases := l), h));
  }

  lemma InvLeases(s: Server)
    requires Inv(s)
    ensures LeasesOk(s.leases, |s.slots|)
  {
  }

  lemma KeptLeases(s: Server, l: Leases, t: Server)
    requires SlotsKept(s.(leases := l), t)
    ensures SlotsKept(s, t)
  {
  }

  lemma UnfoldWithoutLease(s: Server, x: nat)
    ensures var (h, l) := AfterRelease(s.leases, x); WithoutLease(s, x) == Woken(s.(leases := l), h)
  {
  }

  // ---------------------------------------------------------------- closing and reconciling

  lemma ReleasedKeeps(s: Server, i: nat)
    requires Inv(s) && i < |s.slots| && !IsQueued(s, i)
    ensures Inv(Released(s, i))
  {
    hide LeasesOk;
    var (h, l) := AfterCancel(s.leases, i);
    InvLeases(s);
    CancelLoses(s.leases, i, |s.slots|);
    var slot, more := ClosedSlot(s.slots[i]), [Gone(i)];
    assert !slot.pending by { assert QueueOk(s); }
    StandingNext(s.log, Gone(i), i);
    LogGrows(s.log, Gone(i), s.durable);
    SlotChanges(s, i, slot, more);
    var t := s.(slots := s.slots[i := slot], log := s.log + more);
    LeaseStep(t, l, i, h);
    assert s.(leases := l, slots := s.slots[i := slot], log := s.log + more) == t.(leases := l);
    WokenKeeps(t.(leases := l), h);
  }

  lemma ReconciledKeeps(s: Server, i: nat)
    requires Inv(s) && i < |s.slots| && !IsQueued(s, i) && s.slots[i].open
    ensures Inv(Reconciled(s, i))
  {
    hide LeasesOk;
    var slot := Interested(s.slots[i]);
    var more := if slot.wantRead && slot.response.Some? then [Resumed(i)] else [];
    assert !slot.pending by { assert QueueOk(s); }
    assert s.log + [] == s.log;
    if more != [] {
      LogGrows(s.log, Resumed(i), s.durable);
      StandingNext(s.log, Resumed(i), i);
    }
    assert SlotOk(slot, i, i in s.leases.waiters, s.log + more, s.durable);
    SlotChanges(s, i, slot, more);
  }

  lemma CompletedKeeps(s: Server, i: nat, after: After)
    requires Inv(s) && i < |s.slots| && !IsQueued(s, i) && s.slots[i].open
    ensures Inv(Completed(s, i, after))
  {
    if after.Close? { ReleasedKeeps(s, i); } else { ReconciledKeeps(s, i); }
  }

  /** The slot's own read interest does not matter to a completion, which decides it anew. */
  lemma CompletedAnew(s: Server, i: nat, after: After)
    requires i < |s.slots|
    ensures Completed(s, i, after) == Completed(Suspended(s, i), i, after)
  {
    var t := Suspended(s, i);
    if after.Close? {
      assert t.slots[i := ClosedSlot(t.slots[i])] == s.slots[i := ClosedSlot(s.slots[i])];
    } else {
      assert t.slots[i := Interested(t.slots[i])] == s.slots[i := Interested(s.slots[i])];
    }
  }

  /** Whatever happened to an idle open slot, then its completion. */
  lemma CallKeeps(s: Server, i: nat, slot: Slot, more: seq<Event>, tick: nat, after: After)
    requires Inv(s) && i < |s.slots| && !IsQueued(s, i) && slot.open && !slot.pending && OnlyOf(more, i)
    requires SlotOk(slot.(wantRead := false), i, i in s.leases.waiters, s.log + more, s.durable)
    requires LogOk(s.log + more, s.durable)
    ensures Inv(Completed(s.(slots := s.slots[i := slot], tick := tick, log := s.log + more), i, after))
  {
    hide SlotOk, LogOk, LeasesOk, QueueOk, SlotsOk, Completed;
    var quiet := slot.(wantRead := false);
    SlotChanges(s, i, quiet, more);
    var t := s.(slots := s.slots[i := slot], tick := tick, log := s.log + more);
    var u := s.(slots := s.slots[i := quiet], log := s.log + more);
    assert Suspended(t, i) == u.(tick := tick) by {
      assert s.slots[i := slot][i := quiet] == s.slots[i := quiet];
    }
    TickKeeps(u, tick);
    CompletedAnew(t, i, after);
    CompletedKeeps(u.(tick := tick), i, after);
  }

  /** The counters play no part in the invariant, as long as the durable LSN does not fall. */
  lemma CountersKeep(s: Server, journal: nat, durable: nat, tick: nat)
    requires Inv(s) && s.durable <= durable
    ensures Inv(s.(journal := journal, durable := durable, tick := tick))
    ensures forall i :: IsQueued(s, i) <==> IsQueued(s.(journal := journal, durable := durable, tick := tick), i)
  {
    var t := s.(journal := journal, durable := durable, tick := tick);
    forall k | 0 <= k < |t.queue| ensures QueuedOk(t, t.queue[k]) {
      assert QueuedOk(s, s.queue[k]);
    }
    forall i: nat ensures IsQueued(s, i) <==> IsQueued(t, i) {
      if IsQueued(s, i) {
        var k :| 0 <= k < |s.queue| && s.queue[k].owner == i;
        assert t.queue[k].owner == i;
      }
      if IsQueued(t, i) {
        var k :| 0 <= k < |t.queue| && t.queue[k].owner == i;
        assert s.queue[k].owner == i;
      }
    }
    forall k | 0 <= k < |t.log| ensures EventOk(t.log, k, durable) {
      assert EventOk(s.log, k, s.durable);
    }
    assert SlotsOk(t) by {
      forall i | 0 <= i < |t.slots| ensures SlotOk(t.slots[i], i, i in t.leases.waiters, t.log, t.durable) {
        assert SlotOk(s.slots[i], i, i in s.leases.waiters, s.log, s.durable);
      }
    }
  }

  lemma TickKeeps(s: Server, tick: nat)
    requires Inv(s)
    ensures Inv(s.(tick := tick)) && forall i :: IsQueued(s, i) <==> IsQueued(s.(tick := tick), i)
  {
    hide Inv, IsQueued;
    CountersKeep(s, s.journal, s.durable, tick);
    assert s.(journal := s.journal, durable := s.durable, tick := tick) == s.(tick := tick);
  }
}
