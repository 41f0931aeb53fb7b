/** What the arena promises of every run. */
module ArenaSafety {
  import opened Options
  import opened Words
  import opened ArenaCore
  import opened ArenaInvariant
  import opened ArenaSteps
  import opened ArenaRuns

  /** Live allocations are in bounds, aligned and hold what was last written to them. */
  ghost predicate BlocksSound(w: World)
  {
    forall a: bool, j {:trigger Live(w, a)[j]} :: 0 <= j < |Live(w, a)| ==>
      var b := Live(w, a)[j];
      && b.lo <= b.at && b.at + |b.data| <= b.hi <= |w.s.mem|
      && ValidAlign(b.align) && b.at % b.align == 0
      && w.s.mem[b.at..b.at + |b.data|] == b.data
  }

  ghost predicate BlocksApart(w: World)
  {
    forall a: bool, j, b: bool, k {:trigger Live(w, a)[j], Live(w, b)[k]} ::
      0 <= j < |Live(w, a)| && 0 <= k < |Live(w, b)| && (a != b || j != k) ==>
        Live(w, a)[j].hi <= Live(w, b)[k].lo || Live(w, b)[k].hi <= Live(w, a)[j].lo
  }

  /** Every open child's frontier is published to its parent, and the owner's tail stays above the
      innermost frontier. */
  ghost predicate FrontiersShared(rs: seq<Region>)
  {
    && rs != []
    && (forall i {:trigger rs[i]} :: 0 < i < |rs| ==> rs[i - 1].offset == rs[i].start + rs[i].offset)
    && rs[Top(rs)].base + rs[Top(rs)].offset <= rs[0].tail <= rs[0].capacity
  }

  lemma InvFrontiers(w: World)
    requires Inv(w)
    ensures FrontiersShared(w.s.regions)
  {
    var rs := w.s.regions;
    forall i | 0 < i < |rs| ensures rs[i - 1].offset == rs[i].start + rs[i].offset {
      assert Nested(rs, i);
      assert rs[i - 1].base + rs[i - 1].offset == rs[i].base + rs[i].offset;
    }
    hide FrontOk, TailOk, HandlesOk, IdentitiesOk, InternOk;
  }

  lemma InvSound(w: World)
    requires Inv(w)
    ensures BlocksSound(w) && BlocksApart(w) && FrontiersShared(w.s.regions)
  {
    hide Inv, FrontiersShared;
    InvFrontiers(w);
    forall a: bool, j | 0 <= j < |Live(w, a)| ensures BlockOk(Live(w, a)[j], w.s.mem) {
      LiveOk(w, a, j);
    }
    forall a: bool, j, b: bool, k | 0 <= j < |Live(w, a)| && 0 <= k < |Live(w, b)| && (a != b || j != k)
      ensures Live(w, a)[j].hi <= Live(w, b)[k].lo || Live(w, b)[k].hi <= Live(w, a)[j].lo
    {
      LiveApart(w, a, j, b, k);
    }
  }

  /** In every run of allocations, writes, marks, rewinds, resets and nested regions. */
  lemma LiveAllocationsSafe(mem: seq<byte>, next: nat, foreign: set<nat>, ops: seq<Op>)
    requires Drew(foreign, next)
    ensures var w := Run(Fresh(mem, next, foreign), ops);
      BlocksSound(w) && BlocksApart(w) && FrontiersShared(w.s.regions)
  {
    ReachableOk(mem, next, foreign, ops);
    InvSound(Run(Fresh(mem, next, foreign), ops));
  }

  // ---------------------------------------------------------------- lifetime of allocations

  /** Whether the operation ends the life of live block j, or writes to it. */
  ghost predicate Touches(w: World, op: Op, durable: bool, j: nat)
    requires j < |Live(w, durable)|
  {
    var b := Live(w, durable)[j];
    match op
    case Write(a, k, _) => a == durable && k == j
    case Replace(d, h, _) => d < |w.s.regions| && b.owner == Held && h.identity == w.s.regions[d].identity
                             && b.depth == d && b.at == w.s.regions[d].base + h.offset && |b.data| == h.size
    case Rewind(d, mark) =>
      && !durable && d < |w.s.regions| && b.depth == d && !Pinned(b.owner)
      && CanRewind(w.s.regions[d], mark) && b.hi > RewindTarget(w.s.regions[d], mark)
    case Close => !durable && b.depth == |w.s.regions| - 1
    case CloseKeeping(_) => !durable && b.depth == |w.s.regions| - 1
    case Recycle => !durable
    case Reset => true
    case _ => false
  }

  lemma PushFrame(w: World, op: Op)
    requires op.Alloc? || op.AllocPersistent? || op.Intern? || op.Retain?
    ensures w.front <= Apply(w, op).front && w.tail <= Apply(w, op).tail
  {
    hide AllocRaw, AllocRawTail, FindInterned, InternLayout, Store, ArenaCore.Alloc, ArenaCore.AllocPersistent,
      AllocInterned, ArenaCore.Retain, NewBlock, DurableBlock;
  }

  lemma WriteFrame(w: World, op: Op, durable: bool, j: nat)
    requires op.Write? || op.Replace?
    requires j < |Live(w, durable)| && !Touches(w, op, durable, j)
    ensures j < |Live(Apply(w, op), durable)| && Live(Apply(w, op), durable)[j] == Live(w, durable)[j]
  {
    hide Store, ReplaceRetained;
  }

  /** A rewind spares the tail, the blocks of outer regions, every pinned block and whatever lies at
      or below the mark; a refused rewind spares everything. */
  lemma RewindFrame(w: World, d: nat, mark: Mark, durable: bool, j: nat)
    requires Inv(w) && d < |w.s.regions| && j < |Live(w, durable)| && !Touches(w, Rewind(d, mark), durable, j)
    ensures j < |Live(DoRewind(w, d, mark), durable)| && Live(DoRewind(w, d, mark), durable)[j] == Live(w, durable)[j]
  {
    hide Inv, Rewound, Ascending, KeptCount;
    if !durable && CanRewind(w.s.regions[d], mark) {
      InvAscending(w);
      InvPlace(w, j);
      RewindAllowed(w, d, mark);
      KeptExactly(w.front, RewindTarget(w.s.regions[d], mark));
      RewoundPinsKept(w, d, Max(mark.offset, w.s.regions[d].retained));
    }
  }

  lemma CloseKeepingFrame(w: World, out: Output)
    requires |w.s.regions| > 1 && Readable(w.s.mem, out)
    ensures DoClose(w).front <= DoCloseKeeping(w, out).front && DoClose(w).tail == DoCloseKeeping(w, out).tail
  {
    hide CloseRegion, ArenaCore.Alloc, NewBlock, OuterCount;
  }

  lemma ScopeFrame(w: World, op: Op, durable: bool, j: nat)
    requires op.Close? || op.CloseKeeping? || op.Rewind?
    requires Inv(w) && Enabled(w, op) && j < |Live(w, durable)| && !Touches(w, op, durable, j)
    ensures j < |Live(Apply(w, op), durable)| && Live(Apply(w, op), durable)[j] == Live(w, durable)[j]
  {
    hide Inv, DoRewind, DoClose, DoCloseKeeping;
    if op.Rewind? {
      RewindFrame(w, op.d, op.mark, durable, j);
    } else {
      CloseFrame(w, durable, j);
      if op.CloseKeeping? { CloseKeepingFrame(w, op.out); }
    }
  }

  lemma OwnerFrame(w: World, op: Op, durable: bool, j: nat)
    requires !Enabled(w, op) || op.Recycle? || op.Reset? || op.Open? || op.Foreign?
    requires j < |Live(w, durable)| && !Touches(w, op, durable, j)
    ensures j < |Live(Apply(w, op), durable)| && Live(Apply(w, op), durable)[j] == Live(w, durable)[j]
  {
    hide OpenRegion, RecycleFront, ArenaCore.Reset;
  }

  /** No operation moves, changes or discards a live allocation that it does not address. */
  lemma LiveUntilTouched(w: World, op: Op, durable: bool, j: nat)
    requires Inv(w) && j < |Live(w, durable)| && !Touches(w, op, durable, j)
    ensures j < |Live(Apply(w, op), durable)| && Live(Apply(w, op), durable)[j] == Live(w, durable)[j]
  {
    hide Inv, Apply, Enabled, Touches;
    if op.Alloc? || op.AllocPersistent? || op.Intern? || op.Retain? {
      PushFrame(w, op);
    } else if op.Write? || op.Replace? {
      WriteFrame(w, op, durable, j);
    } else if Enabled(w, op) && (op.Close? || op.CloseKeeping? || op.Rewind?) {
      ScopeFrame(w, op, durable, j);
    } else {
      OwnerFrame(w, op, durable, j);
    }
  }

  /** No operation of the run addresses the live block at j. */
  ghost predicate Untouched(w: World, ops: seq<Op>, durable: bool, j: nat)
    decreases |ops|
  {
    && j < |Live(w, durable)|
    && (ops != [] ==> !Touches(w, ops[0], durable, j) && Untouched(Apply(w, ops[0]), ops[1..], durable, j))
  }

  /** So it survives the whole run, in the same place and with the same bytes in memory. Rewinds
      never address the durable and retained blocks of a region. */
  lemma {:induction false} LiveThroughRun(w: World, ops: seq<Op>, durable: bool, j: nat)
    requires Inv(w) && Untouched(w, ops, durable, j)
    ensures var (v, b) := (Run(w, ops), Live(w, durable)[j]);
      && j < |Live(v, durable)| && Live(v, durable)[j] == b
      && b.at + |b.data| <= |v.s.mem| && v.s.mem[b.at..b.at + |b.data|] == b.data
    decreases |ops|
  {
    hide Inv, Apply, Touches;
    if ops == [] {
      LiveOk(w, durable, j);
    } else {
      LiveUntilTouched(w, ops[0], durable, j);
      ApplyKeeps(w, ops[0]);
      LiveThroughRun(Apply(w, ops[0]), ops[1..], durable, j);
    }
  }

  lemma CloseFrame(w: World, durable: bool, j: nat)
    requires Inv(w) && |w.s.regions| > 1 && j < |Live(w, durable)|
    requires durable || Live(w, durable)[j].depth != |w.s.regions| - 1
    ensures j < |Live(DoClose(w), durable)| && Live(DoClose(w), durable)[j] == Live(w, durable)[j]
  {
    hide Inv, CloseRegion, Ascending, OuterCount, FrontPlace;
    InvAscending(w);
    if !durable { InvPlace(w, j); }
    OuterExactly(w.front, Top(w.s.regions));
  }

  // ---------------------------------------------------------------- retained handles

  ghost predicate Current(w: World, h: Handle)
  {
    exists i :: 0 <= i < |w.s.regions| && w.s.regions[i].identity == h.identity
  }

  /** A handle reads back the last value stored through it, from the region generation that issued
      it and from no other region. */
  lemma HandleReadsBack(w: World, h: Handle, d: nat)
    requires Inv(w) && h in w.handles && d < |w.s.regions|
    ensures ArenaCore.Retained(w.s, d, h) == if h.identity == w.s.regions[d].identity then Some(w.handles[h]) else None
  {
    if h.identity == w.s.regions[d].identity {
      assert Backed(w, d, h, w.handles[h]);
      hide Inv, Backed;
      BackedReads(w, d, h, w.handles[h]);
    }
  }

  lemma BackedReads(w: World, d: nat, h: Handle, value: seq<byte>)
    requires Inv(w) && d < |w.s.regions| && Backed(w, d, h, value) && h.identity == w.s.regions[d].identity
    ensures ArenaCore.Retained(w.s, d, h) == Some(value)
  {
    hide Inv;
    var k :| 0 <= k < |Durables(w, d)| && Behind(w.s.regions, d, h, value, Durables(w, d)[k]);
    LiveOk(w, d == 0, k);
    assert Live(w, d == 0)[k] == Durables(w, d)[k];
  }

  lemma ForeignHandleRejected(w: World, h: Handle, d: nat, value: seq<byte>)
    requires Inv(w) && h.identity in w.foreign && d < |w.s.regions|
    ensures ArenaCore.Retained(w.s, d, h) == None
    ensures ArenaCore.ReplaceRetained(w.s, d, h, value) == (false, w.s)
  {
    ForeignRejected(w, d, h);
  }

  /** The value behind a handle that is still current changes only by storing through it. */
  lemma HandleValueKept(w: World, op: Op, h: Handle)
    requires Inv(w) && h in w.handles && Current(w, h) && !(op.Replace? && op.h == h)
    ensures h in Apply(w, op).handles && Apply(w, op).handles[h] == w.handles[h]
  {
    if op.Retain? {
      hide Inv, DoRetain;
      if Enabled(w, op) { RetainOtherHandle(w, op.d, op.align, op.data, h); }
    } else {
      hide Inv, AllocRaw, AllocRawTail, FindInterned, InternLayout, Store, ArenaCore.Alloc, ArenaCore.AllocPersistent,
        AllocInterned, NewBlock, DurableBlock, RewindTo, CloseRegion, OpenRegion, RecycleFront, ArenaCore.Reset,
        ReplaceRetained, HeldIndex;
    }
  }

  /** Storage is never handed out twice, so a new handle equals a current one only when both are
      empty. */
  lemma RetainOtherHandle(w: World, d: nat, align: nat, data: seq<byte>, h: Handle)
    requires Inv(w) && d < |w.s.regions| && ValidAlign(align) && h in w.handles && Current(w, h)
    ensures h in DoRetain(w, d, align, data).handles && DoRetain(w, d, align, data).handles[h] == w.handles[h]
  {
    var r := ArenaCore.Retain(w.s, d, align, data).0;
    if r.Ok? && r.value == h {
      SameHandleEmpty(w, d, align, data, h);
    }
    hide Inv, ArenaCore.Retain, ArenaCore.AllocPersistent;
  }

  lemma SameHandleEmpty(w: World, d: nat, align: nat, data: seq<byte>, h: Handle)
    requires Inv(w) && d < |w.s.regions| && ValidAlign(align) && h in w.handles
    requires ArenaCore.Retain(w.s, d, align, data).0 == Ok(h)
    ensures data == w.handles[h] == []
  {
    RetainBehind(w, d, align, data);
    RetainKeeps(w, d, align, data);
    var v := DoRetain(w, d, align, data);
    assert Backed(w, d, h, w.handles[h]);
    assert Durables(v, d) == Durables(w, d) + [DurableBlock(w, d, align, data, Held)];
    hide Inv, ArenaCore.Retain, ArenaCore.AllocPersistent, AllocRawTail, DoRetain;
    var k :| 0 <= k < |Durables(w, d)| && Behind(w.s.regions, d, h, w.handles[h], Durables(w, d)[k]);
    LiveApart(v, d == 0, k, d == 0, |Durables(w, d)|);
    LiveOk(v, d == 0, k);
    LiveOk(v, d == 0, |Durables(w, d)|);
  }

  // ---------------------------------------------------------------- retired identities

  ghost predicate SameIdentity(rs: seq<Region>, ts: seq<Region>)
  {
    |ts| <= |rs| && forall i {:trigger ts[i]} :: 0 <= i < |ts| ==> ts[i].identity == rs[i].identity
  }

  lemma {:induction false} FrontierKeepsIdentity(rs: seq<Region>, d: nat, offset: nat)
    requires d < |rs|
    ensures SameIdentity(rs, SetFrontier(rs, d, offset))
    decreases d
  {
    if d > 0 {
      FrontierKeepsIdentity(rs[d := rs[d].(offset := offset)], d - 1, rs[d].start + offset);
    }
  }

  lemma AllocRawKeepsIdentity(rs: seq<Region>, d: nat, size: nat, align: nat)
    requires d < |rs| && ValidAlign(align)
    ensures SameIdentity(rs, AllocRaw(rs, d, size, align).1)
    ensures SameIdentity(rs, AllocRawTail(rs, d, size, align).1)
  {
    FrontierKeepsIdentity(rs, d, AlignUp(rs[d].offset, align) + size);
    hide SetFrontier, AllocationLimit, AlignUp, AlignDown;
  }

  /** Identities in use after a step were in use at the same depth before, or are new, or zero. */
  ghost predicate Advances(w: World, v: World)
  {
    && w.s.nextIdentity <= v.s.nextIdentity
    && forall i {:trigger v.s.regions[i]} :: 0 <= i < |v.s.regions| ==>
         var id := v.s.regions[i].identity;
         id == 0 || id >= w.s.nextIdentity || (i < |w.s.regions| && id == w.s.regions[i].identity)
  }

  lemma PushAdvances(w: World, op: Op)
    requires op.Alloc? || op.AllocPersistent? || op.Intern? || op.Retain?
    ensures Advances(w, Apply(w, op))
  {
    if Enabled(w, op) {
      if op.Intern? {
        var (_, size, align) := InternLayout(op.header, op.element, op.length);
        AllocRawKeepsIdentity(w.s.regions, op.d, size, align);
      } else {
        AllocRawKeepsIdentity(w.s.regions, op.d, |op.data|, op.align);
      }
    }
    hide AllocRaw, AllocRawTail, FindInterned, InternLayout, Store, NewBlock, DurableBlock;
  }

  lemma CloseAdvances(w: World)
    requires Inv(w) && |w.s.regions| > 1
    ensures Advances(w, DoClose(w)) && |DoClose(w).s.regions| == |w.s.regions| - 1
  {
    CloseDrops(w);
    CloseAt(w.s, 0);
    hide Inv, CloseRegion;
  }

  lemma CloseKeepingAdvances(w: World, out: Output)
    requires Inv(w) && |w.s.regions| > 1 && Readable(w.s.mem, out)
    ensures Advances(w, DoCloseKeeping(w, out))
  {
    hide Inv, CloseRegion, DoAlloc;
    CloseAdvances(w);
    PushAdvances(DoClose(w), Alloc(|w.s.regions| - 2, 1, Produced(w.s.mem, out)));
  }

  lemma OpenAdvances(w: World, d: nat)
    requires Inv(w) && d < |w.s.regions|
    ensures Advances(w, DoOpen(w, d))
  {
    if OpenRegion(w.s, d).0.Ok? {
      OpenScalars(w.s, d, d + 1);
      assert DoOpen(w, d).s.nextIdentity == Drawn(w.s.nextIdentity).1;
      hide Inv, OpenRegion;
      forall i | 0 <= i <= d ensures DoOpen(w, d).s.regions[i].identity == w.s.regions[i].identity {
        OpenScalars(w.s, d, i);
      }
    }
  }

  lemma RewindAdvances(w: World, d: nat, mark: Mark)
    requires Inv(w) && d < |w.s.regions|
    ensures Advances(w, DoRewind(w, d, mark))
  {
    hide Inv, Rewound, KeptCount;
    if CanRewind(w.s.regions[d], mark) {
      RewindAllowed(w, d, mark);
      RewoundDrops(w, d, Max(mark.offset, w.s.regions[d].retained));
    }
  }

  lemma ApplyAdvances(w: World, op: Op)
    requires Inv(w)
    ensures Advances(w, Apply(w, op))
  {
    if Enabled(w, op) {
      if op.Alloc? || op.AllocPersistent? || op.Intern? || op.Retain? {
        PushAdvances(w, op);
      } else if op.Write? || op.Replace? {
        hide Inv, Store, HeldIndex;
      } else if op.Close? {
        CloseAdvances(w);
      } else if op.CloseKeeping? {
        hide DoCloseKeeping;
        CloseKeepingAdvances(w, op.out);
      } else if op.Open? {
        hide DoOpen;
        OpenAdvances(w, op.d);
      } else if op.Rewind? {
        hide DoRewind;
        RewindAdvances(w, op.d, op.mark);
      } else {
        hide Inv;
      }
    }
  }

  ghost predicate Retired(w: World, identity: nat)
  {
    0 < identity < w.s.nextIdentity
    && forall i {:trigger w.s.regions[i]} :: 0 <= i < |w.s.regions| ==> w.s.regions[i].identity != identity
  }

  lemma StaysRetired(w: World, v: World, identity: nat)
    requires Advances(w, v) && Retired(w, identity)
    ensures Retired(v, identity)
  {
  }

  lemma {:induction false} RetiredForever(w: World, ops: seq<Op>, identity: nat)
    requires Inv(w) && Retired(w, identity)
    ensures Retired(Run(w, ops), identity)
    decreases |ops|
  {
    hide Inv, Apply, Retired;
    if ops != [] {
      ApplyAdvances(w, ops[0]);
      ApplyKeeps(w, ops[0]);
      StaysRetired(w, Apply(w, ops[0]), identity);
      RetiredForever(Apply(w, ops[0]), ops[1..], identity);
    }
  }

  lemma RetiredByReset(w: World, identity: nat)
    requires Inv(w) && |w.s.regions| == 1 && identity == w.s.regions[0].identity != 0
    ensures Retired(DoReset(w), identity)
  {
    hide FrontOk, TailOk, InternOk, HandlesOk;
  }

  lemma RetiredByClose(w: World, identity: nat)
    requires Inv(w) && 1 < |w.s.regions| && identity == w.s.regions[|w.s.regions| - 1].identity != 0
    ensures Retired(DoClose(w), identity)
  {
    CloseAdvances(w);
    hide Shape, FrontOk, TailOk, InternOk, HandlesOk, CloseRegion;
  }

  lemma RetiredByKeeping(w: World, out: Output, identity: nat)
    requires Inv(w) && 1 < |w.s.regions| && identity == w.s.regions[|w.s.regions| - 1].identity != 0
    requires Readable(w.s.mem, out)
    ensures Retired(DoCloseKeeping(w, out), identity)
  {
    hide Inv, DoAlloc, Retired, CloseRegion;
    CloseAdvances(w);
    RetiredByClose(w, identity);
    var c, op := DoClose(w), Alloc(|w.s.regions| - 2, 1, Produced(w.s.mem, out));
    PushAdvances(c, op);
    StaysRetired(c, Apply(c, op), identity);
  }

  /** A handle is rejected for good once the owner that issued it is reset, or its region closed:
      reads and stores through it are refused by every region, after any further run, even when identities run out. */
  lemma HandleRetired(w: World, op: Op, ops: seq<Op>, h: Handle, d: nat, value: seq<byte>)
    requires Inv(w) && h in w.handles && Enabled(w, op)
    requires (op.Reset? && h.identity == w.s.regions[0].identity)
          || ((op.Close? || op.CloseKeeping?) && h.identity == w.s.regions[|w.s.regions| - 1].identity)
    requires d < |Run(Apply(w, op), ops).s.regions|
    ensures var s := Run(Apply(w, op), ops).s;
      ArenaCore.Retained(s, d, h) == None && ArenaCore.ReplaceRetained(s, d, h, value) == (false, s)
  {
    assert 0 < h.identity;
    hide Inv, DoReset, DoClose, DoCloseKeeping;
    if op.Reset? {
      RetiredByReset(w, h.identity);
    } else if op.Close? {
      RetiredByClose(w, h.identity);
    } else {
      RetiredByKeeping(w, op.out, h.identity);
    }
    ApplyKeeps(w, op);
    hide Apply;
    RetiredForever(Apply(w, op), ops, h.identity);
  }

  /** Whatever happens in between, a handle that is still accepted reads the value it had. */
  lemma {:induction false} HandleSurvives(w: World, ops: seq<Op>, h: Handle, d: nat)
    requires Inv(w) && h in w.handles && Current(w, h)
    requires forall k :: 0 <= k < |ops| ==> !(ops[k].Replace? && ops[k].h == h)
    requires d < |Run(w, ops).s.regions| && Run(w, ops).s.regions[d].identity == h.identity
    ensures ArenaCore.Retained(Run(w, ops).s, d, h) == Some(w.handles[h])
    decreases |ops|
  {
    if ops == [] {
      HandleReadsBack(w, h, d);
    } else {
      var v := Apply(w, ops[0]);
      HandleValueKept(w, ops[0], h);
      ApplyAdvances(w, ops[0]);
      ApplyKeeps(w, ops[0]);
      assert 0 < h.identity < w.s.nextIdentity;
      hide Inv, Apply;
      assert Run(w, ops) == Run(v, ops[1..]);
      if !Current(v, h) {
        RetiredForever(v, ops[1..], h.identity);
        assert false;
      }
      HandleSurvives(v, ops[1..], h, d);
    }
  }

  // ---------------------------------------------------------------- shared slices

  /** A live shared slice of region d with the given type and contents. */
  ghost predicate SharedSlice(b: Block, d: nat, element: Element, length: nat, data: seq<byte>)
  {
    b.depth == d && b.owner == Shared(element, length) && b.data == data
  }

  /** The outcome of searching the shared slices among the first n front blocks. */
  ghost predicate SearchOk(w: World, n: nat, d: nat, element: Element, length: nat, data: seq<byte>,
                           found: Option<Interned>)
    requires d < |w.s.regions| && n <= |w.front|
  {
    var base := w.s.regions[d].base;
    && (found.Some? <==> exists k :: 0 <= k < n && SharedSlice(w.front[k], d, element, length, data))
    && (found.Some? ==>
        && base + found.value.value + |data| <= Frontier(w.s.regions) <= |w.s.mem|
        && w.s.mem[base + found.value.value..base + found.value.value + |data|] == data)
  }

  lemma SearchExtends(w: World, n: nat, d: nat, element: Element, length: nat, data: seq<byte>, found: Option<Interned>)
    requires d < |w.s.regions| && n < |w.front| && SearchOk(w, n, d, element, length, data, found)
    requires !SharedSlice(w.front[n], d, element, length, data)
    ensures SearchOk(w, n + 1, d, element, length, data, found)
  {
  }

  lemma SearchHit(w: World, n: nat, d: nat, element: Element, length: nat, data: seq<byte>, e: Interned)
    requires Inv(w) && d < |w.s.regions| && n < |w.front| && |data| == ByteCount(element, length)
    requires SharedSlice(w.front[n], d, element, length, data)
    requires var (b, base) := (w.front[n], w.s.regions[d].base);
      e == Interned(element, length, Less(b.at, base), Less(b.hi, base))
    ensures SearchOk(w, n + 1, d, element, length, data, Some(e))
  {
    assert Frontier(w.s.regions) <= |w.s.mem|;
    FindStep(w, n, d, element, length, data);
    LiveOk(w, false, n);
    hide Inv, Frontier;
  }

  lemma FindCons(mem: seq<byte>, base: nat, e: Interned, rest: seq<Interned>, element: Element, length: nat,
                 data: seq<byte>)
    ensures FindInterned(mem, base, [e] + rest, element, length, data)
         == if Matches(mem, base, e, element, length, data) then Some(e)
            else FindInterned(mem, base, rest, element, length, data)
  {
    assert ([e] + rest)[1..] == rest;
  }

  lemma {:induction false} FindAmongShared(w: World, n: nat, d: nat, element: Element, length: nat, data: seq<byte>)
    requires Inv(w) && d < |w.s.regions| && n <= |w.front| && |data| == ByteCount(element, length)
    ensures var base := w.s.regions[d].base;
      SearchOk(w, n, d, element, length, data,
               FindInterned(w.s.mem, base, SharedOf(w.front[..n], d, base), element, length, data))
    decreases n
  {
    if n > 0 {
      var base, b := w.s.regions[d].base, w.front[n - 1];
      FindAmongShared(w, n - 1, d, element, length, data);
      FindStep(w, n - 1, d, element, length, data);
      assert w.front[..n][..n - 1] == w.front[..n - 1];
      var rest := SharedOf(w.front[..n - 1], d, base);
      var e := if b.owner.Shared? then Interned(b.owner.element, b.owner.length, Less(b.at, base), Less(b.hi, base))
               else Interned(element, length, 0, 0);
      assert SharedOf(w.front[..n], d, base) == if b.depth == d && b.owner.Shared? then [e] + rest else rest;
      hide Inv, Matches, FindInterned, SearchOk, SharedOf, Frontier;
      FindCons(w.s.mem, base, e, rest, element, length, data);
      if SharedSlice(b, d, element, length, data) {
        SearchHit(w, n - 1, d, element, length, data, e);
      } else {
        SearchExtends(w, n - 1, d, element, length, data, FindInterned(w.s.mem, base, rest, element, length, data));
      }
    } else {
      assert w.front[..0] == [];
    }
  }

  lemma MatchesBlock(mem: seq<byte>, base: nat, b: Block, e: Interned, element: Element, length: nat, data: seq<byte>)
    requires BlockOk(b, mem) && b.owner.Shared? && |b.data| == ByteCount(b.owner.element, b.owner.length)
    requires e.element == b.owner.element && e.length == b.owner.length && b.at == base + e.value
    requires |data| == ByteCount(element, length)
    ensures Matches(mem, base, e, element, length, data) <==> b.owner == Shared(element, length) && b.data == data
  {
    hide ByteCount;
  }

  /** The newest block decides the search when it is a shared slice of the region. */
  lemma FindStep(w: World, m: nat, d: nat, element: Element, length: nat, data: seq<byte>)
    requires Inv(w) && d < |w.s.regions| && m < |w.front| && |data| == ByteCount(element, length)
    ensures var (b, base) := (w.front[m], w.s.regions[d].base);
      b.depth == d && b.owner.Shared? ==>
        var e := Interned(b.owner.element, b.owner.length, Less(b.at, base), Less(b.hi, base));
        && (Matches(w.s.mem, base, e, element, length, data) <==> SharedSlice(b, d, element, length, data))
        && base + e.value + |b.data| <= Frontier(w.s.regions) && b.at == base + e.value
  {
    var b, base := w.front[m], w.s.regions[d].base;
    if b.depth == d && b.owner.Shared? {
      CeilingBelow(w.s.regions, |w.s.mem|, d);
      assert BlockOk(b, w.s.mem) && FrontPlace(w.s.regions, b);
      hide Inv, Ceiling, Matches;
      var e := Interned(b.owner.element, b.owner.length, Less(b.at, base), Less(b.hi, base));
      MatchesBlock(w.s.mem, base, b, e, element, length, data);
    }
  }

  /** The cache agrees with a search of all live shared slices of the region, and what it returns
      lies below the frontier and holds the requested contents. */
  lemma InternAgrees(w: World, d: nat, element: Element, length: nat, data: seq<byte>)
    requires Inv(w) && d < |w.s.regions| && |data| == ByteCount(element, length)
    ensures var r := w.s.regions[d];
      SearchOk(w, |w.front|, d, element, length, data,
               FindInterned(w.s.mem, r.base, r.interned, element, length, data))
  {
    assert w.s.regions[d].interned == SharedOf(w.front, d, w.s.regions[d].base);
    hide Inv, SearchOk;
    assert w.front[..|w.front|] == w.front;
    FindAmongShared(w, |w.front|, d, element, length, data);
  }

  ghost predicate EndsDescend(chain: seq<Interned>)
  {
    forall i, j :: 0 <= i < j < |chain| ==> chain[i].end > chain[j].end
  }

  /** The chain runs strictly downward, so a rewind can stop at the first entry it keeps. */
  lemma ChainDescends(w: World, d: nat)
    requires Inv(w) && d < |w.s.regions|
    ensures EndsDescend(w.s.regions[d].interned)
  {
    var base := w.s.regions[d].base;
    assert w.s.regions[d].interned == SharedOf(w.front, d, base) && Ascending(w.front);
    forall k | 0 <= k < |w.front| && w.front[k].depth == d && w.front[k].owner.Shared?
      ensures base <= w.front[k].lo < w.front[k].hi
    {
      assert FrontPlace(w.s.regions, w.front[k]);
    }
    hide Inv, Ascending, EndsDescend;
    SharedDescends(w.front, d, base);
  }

  lemma {:induction false} SharedDescends(front: seq<Block>, depth: nat, base: nat)
    requires Ascending(front)
    requires forall k {:trigger front[k]} :: 0 <= k < |front| && front[k].depth == depth && front[k].owner.Shared? ==>
      base <= front[k].lo < front[k].hi
    ensures EndsDescend(SharedOf(front, depth, base))
    ensures forall e :: e in SharedOf(front, depth, base) ==> front != [] && base + e.end <= front[|front| - 1].hi
  {
    if front != [] {
      var n := |front| - 1;
      assert forall k :: 0 <= k < n ==> front[..n][k] == front[k];
      assert n > 0 ==> front[n - 1].hi <= front[n].lo;
      assert front[n].lo <= front[n].hi;
      SharedDescends(front[..n], depth, base);
      var rest := SharedOf(front[..n], depth, base);
      hide Ascending, EndsDescend;
      if SharedOf(front, depth, base) != rest {
        ConsDescends(SharedOf(front, depth, base)[0], rest);
      }
    }
  }

  lemma ConsDescends(e: Interned, rest: seq<Interned>)
    requires EndsDescend(rest) && forall x :: x in rest ==> x.end < e.end
    ensures EndsDescend([e] + rest)
  {
  }
}
