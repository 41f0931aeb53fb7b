/** Exclusive leases on the query workspaces, with a first-come roster of waiting connections. */
module WorkspaceLeases {
  import opened Options

  datatype Leases = Leases(owners: seq<Option<nat>>, waiters: seq<nat>, next: nat)

  /** A workspace handed from a releasing owner to the oldest waiter. */
  datatype Handoff = Handoff(owner: nat, workspace: nat)

  // ---------------------------------------------------------------- searching

  /** The first position that holds `owner`, or the length. */
  function Position(owners: seq<Option<nat>>, owner: nat): (i: nat)
    ensures i <= |owners| && (i < |owners| ==> owners[i] == Some(owner))
    ensures i == |owners| <==> Some(owner) !in owners
    ensures forall k :: 0 <= k < i ==> owners[k] != Some(owner)
  {
    if owners == [] then 0 else if owners[0] == Some(owner) then 0
    else
      assert owners == [owners[0]] + owners[1..];
      1 + Position(owners[1..], owner)
  }

  function WaiterAt(waiters: seq<nat>, owner: nat): (i: nat)
    ensures i <= |waiters| && (i < |waiters| ==> waiters[i] == owner)
    ensures i == |waiters| <==> owner !in waiters
    ensures forall k :: 0 <= k < i ==> waiters[k] != owner
  {
    if waiters == [] then 0 else if waiters[0] == owner then 0
    else
      assert waiters == [waiters[0]] + waiters[1..];
      1 + WaiterAt(waiters[1..], owner)
  }

  function RoundRobin(l: Leases, offset: nat): (i: nat)
    requires offset < |l.owners|
    ensures i < |l.owners|
  {
    (l.next + offset) % |l.owners|
  }

  /** Round-robin from `next`: the first free workspace, or the length. */
  function FreeFrom(l: Leases, offset: nat): (i: nat)
    requires offset <= |l.owners|
    ensures i <= |l.owners| && (i < |l.owners| ==> l.owners[i] == None)
    decreases |l.owners| - offset
  {
    if offset == |l.owners| then |l.owners|
    else
      var index := RoundRobin(l, offset);
      if l.owners[index].None? then index else FreeFrom(l, offset + 1)
  }

  // ---------------------------------------------------------------- operations

  function Without(waiters: seq<nat>, index: nat): seq<nat>
    requires index < |waiters|
  {
    waiters[..index] + waiters[index + 1..]
  }

  function WithoutOwner(waiters: seq<nat>, owner: nat): seq<nat>
  {
    var i := WaiterAt(waiters, owner);
    if i == |waiters| then waiters else Without(waiters, i)
  }

  function AfterTryAcquire(l: Leases, owner: nat): (Option<nat>, Leases)
  {
    var held, free := Position(l.owners, owner), FreeFrom(l, 0);
    if held < |l.owners| then (Some(held), l)
    else if free < |l.owners| then
      (Some(free), Leases(l.owners[free := Some(owner)], WithoutOwner(l.waiters, owner), (free + 1) % |l.owners|))
    else (None, l)
  }

  function AfterAcquire(l: Leases, owner: nat): (Option<nat>, Leases)
  {
    var (w, m) := AfterTryAcquire(l, owner);
    if w.Some? then (w, m)
    else (None, if owner in l.waiters then l else l.(waiters := l.waiters + [owner]))
  }

  /** Frees `owner`'s workspace, or hands it to the oldest waiter. */
  function AfterRelease(l: Leases, owner: nat): (Option<Handoff>, Leases)
  {
    var w := Position(l.owners, owner);
    if w == |l.owners| then (None, l)
    else if l.waiters == [] then (None, l.(owners := l.owners[w := None]))
    else (Some(Handoff(l.waiters[0], w)), l.(owners := l.owners[w := Some(l.waiters[0])], waiters := l.waiters[1..]))
  }

  function AfterCancel(l: Leases, owner: nat): (Option<Handoff>, Leases)
  {
    AfterRelease(l.(waiters := WithoutOwner(l.waiters, owner)), owner)
  }

  // ---------------------------------------------------------------- invariant

  ghost predicate Distinct(s: seq<nat>)
  {
    forall i, j :: 0 <= i < j < |s| ==> s[i] != s[j]
  }

  /** No owner holds two workspaces; waiters are distinct connections that hold none; and nobody
      waits while a workspace is free. */
  ghost predicate LeasesOk(l: Leases, connections: nat)
  {
    && (forall i, j {:trigger l.owners[i], l.owners[j]} :: 0 <= i < j < |l.owners| && l.owners[i].Some? ==>
          l.owners[i] != l.owners[j])
    && (forall i {:trigger l.owners[i]} :: 0 <= i < |l.owners| && l.owners[i].Some? ==> l.owners[i].value < connections)
    && Distinct(l.waiters)
    && (forall k {:trigger l.waiters[k]} :: 0 <= k < |l.waiters| ==>
          l.waiters[k] < connections && Some(l.waiters[k]) !in l.owners)
    && (l.waiters != [] ==> None !in l.owners)
    && (l.next < |l.owners| || l.next == 0)
  }

  lemma {:induction false} FreeFound(l: Leases, offset: nat, k: nat)
    requires offset <= k < |l.owners| && FreeFrom(l, offset) == |l.owners|
    ensures l.owners[RoundRobin(l, k)].Some?
    decreases |l.owners| - offset
  {
    hide RoundRobin;
    if offset < k {
      FreeFound(l, offset + 1, k);
    }
  }

  lemma WrapOnce(i: nat, n: nat)
    requires i < n
    ensures (i + n) % n == i && i % n == i
  {
  }

  /** Every position is reached from every starting point. */
  lemma RoundRobinReaches(l: Leases, i: nat) returns (k: nat)
    requires i < |l.owners| && l.next < |l.owners|
    ensures k < |l.owners| && RoundRobin(l, k) == i
  {
    k := if l.next <= i then i - l.next else i + |l.owners| - l.next;
    WrapOnce(i, |l.owners|);
  }

  /** When the round-robin search fails, every workspace is taken. */
  lemma NoneFree(l: Leases)
    requires l.next < |l.owners| || l.next == 0
    ensures FreeFrom(l, 0) == |l.owners| <==> None !in l.owners
  {
    hide RoundRobin;
    if FreeFrom(l, 0) == |l.owners| {
      forall i | 0 <= i < |l.owners| ensures l.owners[i] != None {
        var k := RoundRobinReaches(l, i);
        FreeFound(l, 0, k);
      }
    }
  }

  /** A workspace that is found is the first free one in round-robin order. */
  lemma {:induction false} FirstFree(l: Leases, offset: nat) returns (k: nat)
    requires offset <= |l.owners| && FreeFrom(l, offset) < |l.owners|
    ensures offset <= k < |l.owners| && RoundRobin(l, k) == FreeFrom(l, offset)
    ensures forall j :: offset <= j < k ==> l.owners[RoundRobin(l, j)].Some?
    decreases |l.owners| - offset
  {
    hide RoundRobin;
    if l.owners[RoundRobin(l, offset)].None? {
      k := offset;
    } else {
      k := FirstFree(l, offset + 1);
    }
  }

  lemma {:induction false} WithoutWaiter(waiters: seq<nat>, owner: nat)
    requires Distinct(waiters)
    ensures Distinct(WithoutOwner(waiters, owner)) && owner !in WithoutOwner(waiters, owner)
    ensures forall x :: x in WithoutOwner(waiters, owner) <==> x in waiters && x != owner
    ensures owner !in waiters ==> WithoutOwner(waiters, owner) == waiters
  {
    var i := WaiterAt(waiters, owner);
    if i < |waiters| {
      var r := Without(waiters, i);
      assert forall k :: 0 <= k < |r| ==> r[k] == if k < i then waiters[k] else waiters[k + 1];
      forall x | x in waiters && x != owner ensures x in r {
        var k :| 0 <= k < |waiters| && waiters[k] == x;
        assert x == if k < i then r[k] else r[k - 1];
      }
    }
  }

  lemma TryAcquireKeeps(l: Leases, owner: nat, connections: nat)
    requires LeasesOk(l, connections) && owner < connections
    ensures var (w, m) := AfterTryAcquire(l, owner);
      && LeasesOk(m, connections)
      && (w.Some? ==> w.value < |m.owners| && m.owners[w.value] == Some(owner))
      && (w.None? ==> m == l && None !in l.owners && Some(owner) !in l.owners)
      && (Some(owner) !in l.owners && l.waiters != [] ==> w.None?)
  {
    NoneFree(l);
    WithoutWaiter(l.waiters, owner);
  }

  /** A holder keeps its workspace. Anybody else is granted a free one if there is any, and the next search
      starts behind it. */
  lemma TryAcquireGrants(l: Leases, owner: nat, connections: nat)
    requires LeasesOk(l, connections) && owner < connections
    ensures var (w, m) := AfterTryAcquire(l, owner); var n := |l.owners|;
      && (w.Some? <==> Some(owner) in l.owners || None in l.owners) && (w.Some? ==> w.value < n)
      && (Some(owner) in l.owners ==> m == l && l.owners[w.value] == Some(owner))
      && (Some(owner) !in l.owners && None in l.owners ==>
            && l.owners[w.value].None? && m.owners == l.owners[w.value := Some(owner)] && m.waiters == [] == l.waiters
            && m.next == (if w.value + 1 == n then 0 else w.value + 1))
  {
    hide RoundRobin, LeasesOk;
    LeasesNext(l, connections);
    NoneFree(l);
    WithoutWaiter(l.waiters, owner) by { LeasesNext(l, connections); }
    var free := FreeFrom(l, 0);
    if free < |l.owners| { NextPlace(free, |l.owners|); }
  }

  lemma LeasesNext(l: Leases, connections: nat)
    requires LeasesOk(l, connections)
    ensures (l.next < |l.owners| || l.next == 0) && Distinct(l.waiters) && (l.waiters != [] ==> None !in l.owners)
  {
  }

  lemma NextPlace(i: nat, n: nat)
    requires i < n
    ensures (i + 1) % n == if i + 1 == n then 0 else i + 1
  {
    if i + 1 < n { WrapOnce(i + 1, n); }
  }

  /** A distinct list of numbers below n has at most n entries: the roster cannot overflow. */
  lemma {:induction false} RosterFits(s: seq<nat>, n: nat)
    requires Distinct(s) && forall i :: 0 <= i < |s| ==> s[i] < n
    ensures |s| <= n
  {
    if n > 0 {
      WithoutWaiter(s, n - 1);
      var r := WithoutOwner(s, n - 1);
      forall i | 0 <= i < |r| ensures r[i] < n - 1 { assert r[i] in r; }
      RosterFits(r, n - 1);
    }
  }

  lemma AcquireKeeps(l: Leases, owner: nat, connections: nat)
    requires LeasesOk(l, connections) && owner < connections
    ensures var (w, m) := AfterAcquire(l, owner);
      && LeasesOk(m, connections) && |m.waiters| <= connections
      && (w.Some? ==> w.value < |m.owners| && m.owners[w.value] == Some(owner))
      && (w.None? ==> owner in m.waiters && m.owners == l.owners && l.waiters <= m.waiters)
  {
    TryAcquireKeeps(l, owner, connections);
    var (w, m) := AfterAcquire(l, owner);
    RosterFits(m.waiters, connections);
  }

  lemma ReleaseKeeps(l: Leases, owner: nat, connections: nat)
    requires LeasesOk(l, connections)
    ensures var (h, m) := AfterRelease(l, owner);
      && LeasesOk(m, connections)
      && (h.Some? ==> h.value.workspace < |m.owners| && m.owners[h.value.workspace] == Some(h.value.owner)
                      && l.waiters == [h.value.owner] + m.waiters && l.owners[h.value.workspace] == Some(owner))
      && (Some(owner) !in l.owners ==> m == l && h.None?)
      && (h.None? ==> m.waiters == l.waiters && (Some(owner) in l.owners ==> l.waiters == []))
      && |m.owners| == |l.owners| && m.next == l.next
      && (forall k :: 0 <= k < |l.owners| && l.owners[k] != Some(owner) ==> m.owners[k] == l.owners[k])
      && (forall k :: 0 <= k < |l.owners| && l.owners[k] == Some(owner) ==>
            m.owners[k] == if l.waiters == [] then None else Some(l.waiters[0]))
  {
    var w := Position(l.owners, owner);
    var (h, m) := AfterRelease(l, owner);
    if w < |l.owners| && l.waiters != [] {
      var x := l.waiters[0];
      forall k | 0 <= k < |m.waiters| ensures m.waiters[k] < connections && Some(m.waiters[k]) !in m.owners {
        assert m.waiters[k] == l.waiters[k + 1] != x;
      }
      assert l.waiters == [x] + l.waiters[1..];
    }
  }

  lemma CancelKeeps(l: Leases, owner: nat, connections: nat)
    requires LeasesOk(l, connections)
    ensures LeasesOk(AfterCancel(l, owner).1, connections)
  {
    WithoutWaiter(l.waiters, owner);
    ReleaseKeeps(l.(waiters := WithoutOwner(l.waiters, owner)), owner, connections);
  }

  // ---------------------------------------------------------------- service in order

  datatype Op = Acquiring(owner: nat) | Trying(owner: nat) | Releasing(owner: nat) | Cancelling(owner: nat)

  function Step(l: Leases, op: Op): Leases
  {
    match op
    case Acquiring(owner) => AfterAcquire(l, owner).1
    case Trying(owner) => AfterTryAcquire(l, owner).1
    case Releasing(owner) => AfterRelease(l, owner).1
    case Cancelling(owner) => AfterCancel(l, owner).1
  }

  lemma StepKeeps(l: Leases, op: Op, connections: nat)
    requires LeasesOk(l, connections) && op.owner < connections
    ensures LeasesOk(Step(l, op), connections)
  {
    match op
    case Acquiring(owner) => AcquireKeeps(l, owner, connections);
    case Trying(owner) => TryAcquireKeeps(l, owner, connections);
    case Releasing(owner) => ReleaseKeeps(l, owner, connections);
    case Cancelling(owner) => CancelKeeps(l, owner, connections);
  }

  /** Whether the operation gives up a workspace that its owner holds. */
  predicate GivesUp(l: Leases, op: Op)
  {
    (op.Releasing? || op.Cancelling?) && Some(op.owner) in l.owners
  }

  lemma PositionUnique(waiters: seq<nat>, x: nat, k: nat)
    requires Distinct(waiters) && k < |waiters| && waiters[k] == x
    ensures WaiterAt(waiters, x) == k
  {
  }

  lemma WithoutDistinct(waiters: seq<nat>, i: nat)
    requires Distinct(waiters) && i < |waiters|
    ensures Distinct(Without(waiters, i))
  {
    var r := Without(waiters, i);
    assert forall j :: 0 <= j < |r| ==> r[j] == if j < i then waiters[j] else waiters[j + 1];
  }

  lemma PositionWithout(waiters: seq<nat>, i: nat, x: nat)
    requires Distinct(waiters) && i < |waiters| && x in waiters && x != waiters[i]
    ensures x in Without(waiters, i)
    ensures WaiterAt(Without(waiters, i), x) == WaiterAt(waiters, x) - (if i < WaiterAt(waiters, x) then 1 else 0)
  {
    var k, r := WaiterAt(waiters, x), Without(waiters, i);
    WithoutDistinct(waiters, i);
    hide Distinct;
    PositionUnique(r, x, if i < k then k - 1 else k);
  }

  /** A waiter that does not cancel moves only forward, one place for every workspace given up. */
  lemma WaiterMoves(l: Leases, op: Op, x: nat, connections: nat)
    requires LeasesOk(l, connections) && op.owner < connections && x in l.waiters && op != Cancelling(x)
    ensures var m := Step(l, op);
      || Some(x) in m.owners
      || (x in m.waiters && WaiterAt(m.waiters, x) + (if GivesUp(l, op) then 1 else 0) <= WaiterAt(l.waiters, x))
  {
    var k := WaiterAt(l.waiters, x);
    match op
    case Acquiring(owner) => AcquireMoves(l, owner, x, connections);
    case Trying(owner) => TryAcquireKeeps(l, owner, connections);
    case Releasing(owner) => ReleaseMoves(l, owner, x, connections);
    case Cancelling(owner) => CancelMoves(l, owner, x, connections);
  }

  lemma AcquireMoves(l: Leases, owner: nat, x: nat, connections: nat)
    requires LeasesOk(l, connections) && owner < connections && x in l.waiters
    ensures x in AfterAcquire(l, owner).1.waiters
      && WaiterAt(AfterAcquire(l, owner).1.waiters, x) == WaiterAt(l.waiters, x)
  {
    TryAcquireKeeps(l, owner, connections);
    AcquireKeeps(l, owner, connections);
    var m := AfterAcquire(l, owner).1;
    PositionUnique(m.waiters, x, WaiterAt(l.waiters, x));
  }

  lemma ReleaseMoves(l: Leases, owner: nat, x: nat, connections: nat)
    requires LeasesOk(l, connections) && x in l.waiters
    ensures var m := AfterRelease(l, owner).1;
      if Some(owner) !in l.owners then m == l
      else Some(x) in m.owners || (x in m.waiters && WaiterAt(m.waiters, x) == WaiterAt(l.waiters, x) - 1)
  {
    ReleaseKeeps(l, owner, connections);
    var (h, m) := AfterRelease(l, owner);
    if Some(owner) in l.owners {
      assert m.owners[h.value.workspace] == Some(l.waiters[0]);
      if l.waiters[0] != x {
        PositionWithout(l.waiters, 0, x);
        assert Without(l.waiters, 0) == m.waiters;
      }
    }
  }

  lemma CancelMoves(l: Leases, owner: nat, x: nat, connections: nat)
    requires LeasesOk(l, connections) && x in l.waiters && owner != x
    ensures var m := AfterCancel(l, owner).1;
      || Some(x) in m.owners
      || (x in m.waiters
          && WaiterAt(m.waiters, x) + (if Some(owner) in l.owners then 1 else 0) <= WaiterAt(l.waiters, x))
  {
    var i := WaiterAt(l.waiters, owner);
    var r := l.(waiters := WithoutOwner(l.waiters, owner));
    WithoutWaiter(l.waiters, owner);
    if i < |l.waiters| {
      assert Some(owner) !in l.owners by { assert l.waiters[i] == owner; }
      PositionWithout(l.waiters, i, x);
    }
    ReleaseMoves(r, owner, x, connections);
  }

  function GivenUp(l: Leases, ops: seq<Op>): nat
    decreases |ops|
  {
    if ops == [] then 0 else (if GivesUp(l, ops[0]) then 1 else 0) + GivenUp(Step(l, ops[0]), ops[1..])
  }

  predicate ServedDuring(l: Leases, ops: seq<Op>, x: nat)
    decreases |ops|
  {
    Some(x) in l.owners || (ops != [] && ServedDuring(Step(l, ops[0]), ops[1..], x))
  }

  /** A waiter with k others ahead holds a workspace by the time k + 1 workspaces are given up,
      whatever else happens in between. */
  lemma {:induction false} ServedInOrder(l: Leases, ops: seq<Op>, x: nat, connections: nat)
    requires LeasesOk(l, connections) && x in l.waiters
    requires forall k :: 0 <= k < |ops| ==> ops[k].owner < connections && ops[k] != Cancelling(x)
    requires GivenUp(l, ops) > WaiterAt(l.waiters, x)
    ensures ServedDuring(l, ops, x)
    decreases |ops|
  {
    hide Step, GivesUp;
    if ops != [] {
      var m := Step(l, ops[0]);
      WaiterMoves(l, ops[0], x, connections);
      StepKeeps(l, ops[0], connections);
      if Some(x) in m.owners {
        assert ServedDuring(m, ops[1..], x);
      } else {
        ServedInOrder(m, ops[1..], x, connections);
      }
    }
  }

  // ---------------------------------------------------------------- the leases in place

  class QueryWorkspaceLeases {
    var owners: seq<Option<nat>>
    var waiters: seq<nat>
    var next: nat
    const connections: nat

    function View(): Leases
      reads this
    {
      Leases(owners, waiters, next)
    }

    ghost predicate Valid()
      reads this
    {
      LeasesOk(View(), connections)
    }

    constructor (workspaceCount: nat, connectionCount: nat)
      ensures Valid() && connections == connectionCount
      ensures |owners| == workspaceCount && (forall i :: 0 <= i < workspaceCount ==> owners[i] == None)
        && waiters == [] && next == 0
    {
      owners := seq(workspaceCount, _ => None);
      waiters, next := [], 0;
      connections := connectionCount;
    }

    method Find(owner: nat) returns (i: nat)
      ensures i == Position(owners, owner)
    {
      i := 0;
      while i < |owners| && owners[i] != Some(owner)
        invariant i <= |owners| && forall k :: 0 <= k < i ==> owners[k] != Some(owner)
      {
        i := i + 1;
      }
    }

    method RemoveWaiter(owner: nat)
      modifies this`waiters
      ensures waiters == WithoutOwner(old(waiters), owner)
    {
      var i := 0;
      while i < |waiters| && waiters[i] != owner
        invariant i <= |waiters| && forall k :: 0 <= k < i ==> waiters[k] != owner
      {
        i := i + 1;
      }
      if i < |waiters| {
        waiters := waiters[..i] + waiters[i + 1..];
      }
    }

    method TryAcquire(owner: nat) returns (r: Option<nat>)
      requires Valid() && owner < connections
      modifies this
      ensures Valid() && (r, View()) == AfterTryAcquire(old(View()), owner)
    {
      hide LeasesOk, RoundRobin;
      TryAcquireKeeps(View(), owner, connections);
      var held := Find(owner);
      if held < |owners| {
        return Some(held);
      }
      var offset := 0;
      while offset < |owners|
        invariant 0 <= offset <= |owners| && View() == old(View())
        invariant FreeFrom(View(), 0) == FreeFrom(View(), offset)
      {
        var index := RoundRobin(View(), offset);
        if owners[index].None? {
          owners := owners[index := Some(owner)];
          next := (index + 1) % |owners|;
          RemoveWaiter(owner);
          return Some(index);
        }
        offset := offset + 1;
      }
      return None;
    }

    /** The roster push cannot fail: waiters are distinct connections. */
    method Acquire(owner: nat) returns (r: Option<nat>)
      requires Valid() && owner < connections
      modifies this
      ensures Valid() && |waiters| <= connections && (r, View()) == AfterAcquire(old(View()), owner)
    {
      hide LeasesOk;
      AcquireKeeps(View(), owner, connections);
      r := TryAcquire(owner);
      if r.None? && owner !in waiters {
        waiters := waiters + [owner];
      }
    }

    method Release(owner: nat) returns (h: Option<Handoff>)
      requires Valid()
      modifies this
      ensures Valid() && (h, View()) == AfterRelease(old(View()), owner)
    {
      hide LeasesOk;
      ReleaseKeeps(View(), owner, connections);
      var workspace := Find(owner);
      if workspace == |owners| {
        return None;
      }
      owners := owners[workspace := None];
      if waiters == [] {
        return None;
      }
      var nextOwner := waiters[0];
      waiters := waiters[1..];
      owners := owners[workspace := Some(nextOwner)];
      assert owners == old(owners)[workspace := Some(nextOwner)];
      return Some(Handoff(nextOwner, workspace));
    }

    method Cancel(owner: nat) returns (h: Option<Handoff>)
      requires Valid()
      modifies this
      ensures Valid() && (h, View()) == AfterCancel(old(View()), owner)
    {
      WithoutWaiter(waiters, owner);
      ghost var before := View();
      RemoveWaiter(owner);
      assert LeasesOk(View(), connections);
      h := Release(owner);
    }
  }
}
