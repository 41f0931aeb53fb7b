/** What the arena answers: when each operation succeeds, where it puts things, and what storage comes
    back. */
module ArenaRoom {
  import opened Options
  import opened Words
  import opened ArenaCore
  import opened ArenaInvariant
  import opened ArenaSteps
  import opened ArenaRuns

  /** The free bytes between the front and the durable tail, which every region shares. */
  ghost function Room(rs: seq<Region>): int
    requires rs != []
  {
    rs[0].tail - Frontier(rs)
  }

  // ---------------------------------------------------------------- allocations

  /** A front allocation goes to the first aligned place at the frontier. It succeeds exactly in the
      innermost region when it then ends at or below the tail; an error tells the free bytes. */
  lemma FrontAnswer(w: World, d: nat, size: nat, align: nat)
    requires Inv(w) && d < |w.s.regions| && ValidAlign(align)
    ensures var (rs, at) := (w.s.regions, AllocRaw(w.s.regions, d, size, align).0);
      var place := rs[d].base + AlignUp(rs[d].offset, align);
      if d == Top(rs) && place + size <= rs[0].tail then at == Ok(place)
      else
        at.ArenaFull? && at.requested == size && at.capacity == rs[d].capacity
        && at.remaining == if d == Top(rs) then Room(rs) else 0
  {
    hide Inv, Shape, Chained, SetFrontier, AllocationLimit, AlignUp, Frontier;
    InvChained(w);
    AllocRawTop(w.s.regions, |w.s.mem|, d, size, align);
    LimitIsTail(w.s.regions, |w.s.mem|, d);
    InvRegion(w, d);
  }

  /** The free bytes an error tells are the most that an unaligned request may ask for. */
  lemma RemainingFits(w: World, size: nat, n: nat, align: nat)
    requires Inv(w) && ValidAlign(align)
    requires AllocRaw(w.s.regions, Top(w.s.regions), size, align).0.ArenaFull?
    ensures AllocRaw(w.s.regions, Top(w.s.regions), n, 1).0.Ok?
       <==> n <= AllocRaw(w.s.regions, Top(w.s.regions), size, align).0.remaining
  {
    hide Inv, AllocRaw;
    var rs := w.s.regions;
    InvChained(w);
    FrontAnswer(w, Top(rs), size, align);
    FrontAnswer(w, Top(rs), n, 1);
    InvRegion(w, Top(rs));
  }

  /** A durable allocation of the owner goes to the last aligned place that ends at or below its tail, at
      any depth of open regions. It succeeds exactly when that place is not below the frontier, and then
      only the tail moves. In a child it is a front allocation that pins all up to its end. */
  lemma DurableAnswer(w: World, d: nat, size: nat, align: nat)
    requires Inv(w) && d < |w.s.regions| && ValidAlign(align)
    ensures var (rs, at, ts) := (w.s.regions, AllocRawTail(w.s.regions, d, size, align).0,
                                 AllocRawTail(w.s.regions, d, size, align).1);
      if d > 0 then
        && at == AllocRaw(rs, d, size, align).0
        && (at.Ok? ==> ts == AllocRaw(rs, d, size, align).1[d := ts[d]]
                       && ts[d].retained == ts[d].offset && ts[d].base + ts[d].offset == at.value + size)
      else if size <= rs[0].tail && AlignDown(rs[0].tail - size, align) >= Frontier(rs) then
        var place := AlignDown(rs[0].tail - size, align);
        at == Ok(place) && ts == rs[0 := rs[0].(tail := place)]
      else
        at == ArenaFull(size, Room(rs), rs[0].capacity)
  {
    hide Inv, Shape, Chained, SetFrontier, Refronted, AllocRaw, AlignDown, Frontier;
    InvChained(w);
    InvRegion(w, 0);
    if d > 0 && AllocRaw(w.s.regions, d, size, align).0.Ok? {
      ChildDurable(w, d, size, align);
    }
  }

  lemma ChildDurable(w: World, d: nat, size: nat, align: nat)
    requires Inv(w) && d < |w.s.regions| && ValidAlign(align) && AllocRaw(w.s.regions, d, size, align).0.Ok?
    ensures var (at, ts) := AllocRaw(w.s.regions, d, size, align);
      |ts| == |w.s.regions| && ts[d].base + ts[d].offset == at.value + size
  {
    hide Inv, Shape, Chained, AllocRaw, Frontier, AlignUp;
    InvChained(w);
    InvRegion(w, d);
    FrontAnswer(w, d, size, align);
    AllocRawRegions(w.s.regions, |w.s.mem|, d, size, align);
    AlignedAbove(w.s.regions[d].offset, align);
  }

  lemma AlignedAbove(x: nat, align: nat)
    requires ValidAlign(align)
    ensures AlignUp(x, align) >= x
  {
  }

  /** Identities are drawn in order until they run out, and then none is. */
  lemma IdentityDrawn(next: nat)
    ensures next < LAST_IDENTITY ==> Drawn(next) == (next, next + 1)
    ensures next >= LAST_IDENTITY ==> Drawn(next) == (0, next)
  {
  }

  /** A value is retained exactly when the region has an identity and a durable allocation succeeds. */
  lemma RetainAnswer(s: State, d: nat, align: nat, value: seq<byte>)
    requires d < |s.regions| && ValidAlign(align)
    ensures var (at, r) := (AllocRawTail(s.regions, d, |value|, align).0, ArenaCore.Retain(s, d, align, value));
      && (r.0.Ok? <==> s.regions[d].identity != 0 && at.Ok?)
      && (r.0.Ok? ==> r.1 == ArenaCore.AllocPersistent(s, d, align, value).1) && (r.0.ArenaFull? ==> r.1 == s)
  {
    hide AllocRawTail, Store;
  }

  /** An empty slice, and one that the cache knows, costs nothing; another one is stored behind a header,
      exactly when both fit. */
  lemma InternAnswer(w: World, d: nat, header: Element, element: Element, length: nat, data: seq<byte>)
    requires Inv(w) && d < |w.s.regions| && ValidAlign(header.align) && ValidAlign(element.align)
    ensures var (r, base) := (w.s.regions[d], w.s.regions[d].base);
      var (answer, found) := (AllocInterned(w.s, d, header, element, length, data),
                              FindInterned(w.s.mem, base, r.interned, element, length, data));
      var (skip, size, align) := InternLayout(header, element, length);
      var at := AllocRaw(w.s.regions, d, size, align).0;
      if length == 0 then answer == (Ok(0), w.s)
      else if found.Some? then answer == (Ok(base + found.value.value), w.s)
      else if at.Ok? then answer.0 == Ok(at.value + skip) && answer.1.mem == Store(w.s.mem, at.value + skip, data)
      else answer == (at, w.s)
  {
    hide Inv, FindInterned, AllocRaw, Store, InternLayout;
  }

  // ---------------------------------------------------------------- reclaiming

  /** A new owner over `size` bytes. */
  function NewOwner(size: nat, identity: nat): Region
  {
    Region(0, size, 0, size, false, 0, 0, 0, identity, [])
  }

  /** A reset leaves the owner as new, with the next identity: front, tail, pins and cache are gone. */
  lemma ResetIsFresh(w: World)
    requires Inv(w) && |w.s.regions| == 1
    ensures var (r, s) := (w.s.regions[0], DoReset(w).s);
      var owner := NewOwner(|w.s.mem|, if w.s.nextIdentity < LAST_IDENTITY then w.s.nextIdentity else 0);
      && s.regions == [owner.(start := r.start, resume := r.resume)] && s.mem == w.s.mem
      && s.nextIdentity == if w.s.nextIdentity < LAST_IDENTITY then w.s.nextIdentity + 1 else w.s.nextIdentity
  {
    InvRegion(w, 0);
    assert w.s.regions[0].capacity == |w.s.mem|;
  }

  /** After a reset everything fits again, from either end. */
  lemma ResetFrees(w: World, align: nat, data: seq<byte>)
    requires Inv(w) && |w.s.regions| == 1 && ValidAlign(align) && |data| <= |w.s.mem|
    ensures ArenaCore.Alloc(DoReset(w).s, 0, align, data).0 == Ok(0)
    ensures ArenaCore.AllocPersistent(DoReset(w).s, 0, align, data).0 == Ok(AlignDown(|w.s.mem| - |data|, align))
  {
    hide Inv;
    var v := DoReset(w);
    ResetIsFresh(w);
    ResetKeeps(w);
    hide DoReset, AllocRaw, AllocRawTail, Store;
    FrontAnswer(v, 0, |data|, align);
    DurableAnswer(v, 0, |data|, align);
  }

  /** Recycling frees the front alone: the next allocation starts at the bottom and may reach the tail. */
  lemma RecycleFrees(w: World, align: nat, data: seq<byte>)
    requires Inv(w) && |w.s.regions| == 1 && ValidAlign(align)
    ensures DoRecycle(w).s == w.s.(regions := [w.s.regions[0].(offset := 0, interned := [])])
    ensures ArenaCore.Alloc(DoRecycle(w).s, 0, align, data).0.Ok? <==> |data| <= w.s.regions[0].tail
    ensures |data| <= w.s.regions[0].tail ==> ArenaCore.Alloc(DoRecycle(w).s, 0, align, data).0 == Ok(0)
  {
    var v := DoRecycle(w);
    InvRegion(w, 0);
    assert v.s.regions[0] == w.s.regions[0].(offset := 0, interned := []);
    hide Inv;
    RecycleKeeps(w);
    hide DoRecycle, AllocRaw, Store;
    FrontAnswer(v, 0, |data|, align);
  }

  // ---------------------------------------------------------------- regions

  /** A region opens exactly in the innermost one while an aligned byte is left, and gets all that is
      free, under the next identity. */
  lemma OpenAnswer(w: World, d: nat)
    requires Inv(w) && d < |w.s.regions|
    ensures var (rs, at, t) := (w.s.regions, OpenRegion(w.s, d).0, OpenRegion(w.s, d).1);
      var place := rs[d].base + AlignUp(rs[d].offset, ARENA_ALIGN);
      if d == Top(rs) && place < rs[0].tail then
        && at == Ok(d + 1) && |t.regions| == |rs| + 1 && t.mem == w.s.mem
        && t.regions[d + 1] == NewOwner(rs[0].tail - place, Drawn(w.s.nextIdentity).0)
             .(base := place, start := place - rs[d].base, resume := rs[d].offset)
      else
        t == w.s && at == ArenaFull(1, if d == Top(rs) then Room(rs) else 0, rs[d].capacity)
  {
    hide Inv, Shape, Chained, SetFrontier, AllocationLimit, AlignUp, Frontier, Moved;
    InvChained(w);
    LimitIsTail(w.s.regions, |w.s.mem|, d);
    InvRegion(w, d);
    AlignedAbove(w.s.regions[d].offset, ARENA_ALIGN);
    if OpenRegion(w.s, d).0.Ok? { OpenAt(w.s, d, 0); }
  }

  /** Opening and closing a region leaves every outer region as it was. */
  lemma OpenCloseRestores(w: World, d: nat)
    requires Inv(w) && d < |w.s.regions| && OpenRegion(w.s, d).0.Ok?
    ensures |DoOpen(w, d).s.regions| > 1
    ensures DoClose(DoOpen(w, d)).s.regions == w.s.regions
  {
    var rs, v := w.s.regions, DoOpen(w, d);
    OpenAt(w.s, d, d);
    OpenKeeps(w, d);
    var ts := CloseRegion(v.s).regions;
    forall i | 0 <= i < |rs| ensures |ts| == |rs| && ts[i] == rs[i] {
      OpenCloseAt(w, d, i);
    }
  }

  lemma OpenCloseAt(w: World, d: nat, i: nat)
    requires Inv(w) && d < |w.s.regions| && OpenRegion(w.s, d).0.Ok? && i < |w.s.regions|
    ensures |DoOpen(w, d).s.regions| > 1
    ensures var ts := CloseRegion(DoOpen(w, d).s).regions; |ts| == |w.s.regions| && ts[i] == w.s.regions[i]
  {
    hide Inv, Shape, Chained, OpenRegion, CloseRegion, Frontier;
    var v := DoOpen(w, d);
    InvChained(w);
    InvRegion(w, i);
    InvRegion(w, d);
    OpenAt(w.s, d, i);
    OpenKeeps(w, d);
    InvChained(v);
    CloseAt(v.s, i);
  }

  // ---------------------------------------------------------------- marks

  /** A rewind is accepted exactly in the innermost region, for a mark of its own generation at or below
      the frontier; it leaves the frontier at the mark, or at the pins if those are higher. */
  lemma RewindAnswer(w: World, d: nat, mark: Mark)
    requires Inv(w) && d < |w.s.regions|
    ensures var (rs, r) := (w.s.regions, RewindTo(w.s, d, mark));
      && (r.0 <==> d == Top(rs) && mark.identity == rs[d].identity != 0 && mark.offset <= rs[d].offset)
      && (r.0 ==> Frontier(r.1.regions) == rs[d].base + Max(mark.offset, rs[d].retained))
      && (!r.0 ==> r.1 == w.s)
  {
    InvRegion(w, d);
    if CanRewind(w.s.regions[d], mark) {
      RewindAllowed(w, d, mark);
      RewoundShape(w, d, Max(mark.offset, w.s.regions[d].retained));
    }
    hide Inv, Rewound, Frontier;
  }

  ghost predicate Scratch(ops: seq<Op>, d: nat)
  {
    forall k :: 0 <= k < |ops| ==> (ops[k].Alloc? || ops[k].Intern?) && ops[k].d == d
  }

  /** The regions with scratch above a mark of the innermost one. */
  ghost predicate Above(rs: seq<Region>, ts: seq<Region>)
  {
    && rs != [] && |ts| == |rs| && Frontier(rs) <= Frontier(ts)
    && (forall i {:trigger ts[i]} :: 0 <= i < Top(rs) ==> ts[i] == Moved(rs[i], Frontier(ts)))
    && var (r, t) := (rs[Top(rs)], ts[Top(rs)]);
      && t == Moved(r, Frontier(ts)).(interned := t.interned)
      && exists n :: 0 <= n <= |t.interned| && t.interned[n..] == r.interned
           && forall k :: 0 <= k < n ==> t.interned[k].end > r.offset
  }

  lemma {:induction false} DroppedAbove(chain: seq<Interned>, n: nat, offset: nat)
    requires n <= |chain| && (forall k :: 0 <= k < n ==> chain[k].end > offset)
    ensures DropEntries(chain, offset) == DropEntries(chain[n..], offset)
    decreases n
  {
    if n > 0 {
      DroppedAbove(chain[1..], n - 1, offset);
      assert chain[1..][n - 1..] == chain[n..];
    }
  }

  /** No entry of the cache ends above the frontier. */
  lemma ChainBelow(w: World)
    requires Inv(w)
    ensures w.s.regions != []
    ensures var r := w.s.regions[Top(w.s.regions)]; DropEntries(r.interned, r.offset) == r.interned
  {
    hide Inv, SharedOf, Frontier, DropEntries, Shape, Chained;
    InvChained(w);
    var rs := w.s.regions;
    var d := Top(rs);
    InvRegion(w, d);
    InvChain(w, d);
    RewoundTopChain(w, d, rs[d].offset);
    AllKept(w);
    assert w.front[..|w.front|] == w.front;
  }

  lemma AllKept(w: World)
    requires Inv(w)
    ensures w.s.regions != [] && KeptCount(w.front, Frontier(w.s.regions)) == |w.front|
  {
    hide Inv, KeptCount, Frontier, Ascending;
    InvAscending(w);
    InvChained(w);
    KeptExactly(w.front, Frontier(w.s.regions));
    var n := KeptCount(w.front, Frontier(w.s.regions));
    if n < |w.front| {
      InvPlace(w, n);
      CeilingBelow(w.s.regions, |w.s.mem|, w.front[n].depth);
    }
  }

  lemma AboveHere(rs: seq<Region>, size: nat)
    requires Shape(rs, size)
    ensures Above(rs, rs)
  {
    var r := rs[Top(rs)];
    assert r.interned[0..] == r.interned;
  }

  /** One more allocation above the mark, with or without a cache entry. */
  lemma AboveMoves(rs: seq<Region>, us: seq<Region>, vs: seq<Region>, frontier: nat, more: seq<Interned>)
    requires Above(rs, us) && Refronted(us, vs, frontier) && Frontier(us) <= frontier == Frontier(vs)
    requires var (u, v) := (us[Top(us)], vs[Top(us)]);
      v.retained == u.retained && v.interned == more + u.interned
    requires forall k :: 0 <= k < |more| ==> more[k].end > rs[Top(rs)].offset
    ensures Above(rs, vs)
  {
    var (r, u, v) := (rs[Top(rs)], us[Top(us)], vs[Top(us)]);
    var n :| 0 <= n <= |u.interned| && u.interned[n..] == r.interned
      && forall k :: 0 <= k < n ==> u.interned[k].end > r.offset;
    assert v.interned[|more| + n..] == r.interned;
    forall k | 0 <= k < |more| + n ensures v.interned[k].end > r.offset {
      if k >= |more| { assert v.interned[k] == u.interned[k - |more|]; }
    }
    forall i | 0 <= i < Top(rs) ensures vs[i] == Moved(rs[i], frontier) {
      assert vs[i] == Moved(us[i], frontier) && us[i] == Moved(rs[i], Frontier(us));
    }
  }

  lemma AboveStays(rs: seq<Region>, w: World, op: Op)
    requires Inv(w) && Above(rs, w.s.regions) && (op.Alloc? || op.Intern?) && op.d == Top(rs)
    requires rs[Top(rs)].base == w.s.regions[Top(rs)].base
    ensures Above(rs, Apply(w, op).s.regions)
    ensures |Apply(w, op).s.regions| == |rs| && Apply(w, op).s.regions[Top(rs)].base == rs[Top(rs)].base
  {
    hide Inv, Above;
    var (us, d) := (w.s.regions, op.d);
    AboveLength(rs, us);
    if Enabled(w, op) {
      if op.Alloc? {
        AllocAbove(rs, w, op);
      } else {
        InternAbove(rs, w, op);
      }
    }
  }

  lemma AboveLength(rs: seq<Region>, us: seq<Region>)
    requires Above(rs, us)
    ensures |us| == |rs| > 0 && Frontier(rs) <= Frontier(us)
  {
  }

  lemma AllocAbove(rs: seq<Region>, w: World, op: Op)
    requires Inv(w) && Above(rs, w.s.regions) && op.Alloc? && Enabled(w, op) && op.d == Top(rs)
    ensures Above(rs, Apply(w, op).s.regions)
    ensures |Apply(w, op).s.regions| == |rs| && Apply(w, op).s.regions[op.d].base == w.s.regions[op.d].base
  {
    hide Inv, Above, AllocRaw, Shape, Chained, Refronted, Store, AlignUp, NewBlock;
    var us := w.s.regions;
    var (at, vs) := AllocRaw(us, op.d, |op.data|, op.align);
    AboveLength(rs, us);
    InvChained(w);
    assert Apply(w, op).s.regions == vs;
    if at.Ok? {
      AllocRawTop(us, |w.s.mem|, op.d, |op.data|, op.align);
      AllocRawRegions(us, |w.s.mem|, op.d, |op.data|, op.align);
      MovedFields(us[op.d], at.value + |op.data|);
      FrontierMoved(us, vs, |w.s.mem|, at.value + |op.data|);
      var none: seq<Interned> := [];
      assert vs[op.d].interned == none + us[op.d].interned;
      AboveMoves(rs, us, vs, at.value + |op.data|, none);
    }
  }

  lemma FrontierMoved(us: seq<Region>, vs: seq<Region>, size: nat, frontier: nat)
    requires Shape(us, size) && Refronted(us, vs, frontier) && Frontier(us) <= frontier
    ensures Frontier(vs) == frontier && |vs| == |us| && vs[Top(us)].base == us[Top(us)].base
  {
  }

  lemma InternAbove(rs: seq<Region>, w: World, op: Op)
    requires Inv(w) && Above(rs, w.s.regions) && op.Intern? && Enabled(w, op) && op.d == Top(rs)
    requires rs[op.d].base == w.s.regions[op.d].base
    ensures Above(rs, Apply(w, op).s.regions)
    ensures |Apply(w, op).s.regions| == |rs| && Apply(w, op).s.regions[op.d].base == w.s.regions[op.d].base
  {
    hide Inv, Above, AllocRaw, Shape, Chained, Refronted, Store, FindInterned, InternLayout, AllocInterned, AlignUp,
      Moved, NewBlock, ByteCount;
    var (us, d) := (w.s.regions, op.d);
    var (skip, size, align) := InternLayout(op.header, op.element, op.length);
    AboveLength(rs, us);
    InvChained(w);
    if Misses(w, d, op.element, op.length, op.data) && AllocRaw(us, d, size, align).0.Ok? {
      var (at, ts) := AllocRaw(us, d, size, align);
      InternRegions(w, d, op.header, op.element, op.length, op.data);
      AllocRawTop(us, |w.s.mem|, d, size, align);
      AllocRawRegions(us, |w.s.mem|, d, size, align);
      MovedFields(us[d], at.value + size);
      FrontierMoved(us, ts, |w.s.mem|, at.value + size);
      var e := Interned(op.element, op.length, ArenaCore.Less(at.value + skip, us[d].base), ts[d].offset);
      var vs := ts[d := ts[d].(interned := [e] + ts[d].interned)];
      assert Apply(w, op).s.regions == vs;
      EntryAbove(rs, us, ts, |w.s.mem|, at.value + size);
      EntryRefronts(us, ts, vs, at.value + size);
      AboveMoves(rs, us, vs, at.value + size, [e]);
    } else {
      assert Apply(w, op).s.regions == us;
    }
  }

  lemma EntryRefronts(us: seq<Region>, ts: seq<Region>, vs: seq<Region>, frontier: nat)
    requires Refronted(us, ts, frontier)
    requires |vs| == |ts| && vs == ts[Top(us) := ts[Top(us)].(interned := vs[Top(us)].interned)]
    ensures Refronted(us, vs, frontier) && Frontier(vs) == Frontier(ts)
  {
  }

  lemma EntryAbove(rs: seq<Region>, us: seq<Region>, ts: seq<Region>, size: nat, frontier: nat)
    requires Above(rs, us) && Shape(us, size) && Refronted(us, ts, frontier) && Frontier(us) < frontier
    ensures ts[Top(rs)].offset > rs[Top(rs)].offset
  {
  }

  lemma {:induction false} ScratchAbove(rs: seq<Region>, w: World, ops: seq<Op>)
    requires Inv(w) && Above(rs, w.s.regions) && Scratch(ops, Top(rs))
    requires rs[Top(rs)].base == w.s.regions[Top(rs)].base
    ensures Above(rs, Run(w, ops).s.regions) && Inv(Run(w, ops))
    decreases |ops|
  {
    hide Inv, Above, Apply;
    if ops != [] {
      AboveLength(rs, w.s.regions);
      AboveStays(rs, w, ops[0]);
      ApplyKeeps(w, ops[0]);
      ScratchAbove(rs, Apply(w, ops[0]), ops[1..]);
    }
  }

  /** Marking, any amount of scratch, and rewinding: every region is as it was at the mark. */
  lemma MarkRewinds(w: World, d: nat, ops: seq<Op>)
    requires Inv(w) && d == Top(w.s.regions) && w.s.regions[d].identity != 0 && Scratch(ops, d)
    ensures var (r, v) := (w.s.regions[d], Run(w, ops));
      && d < |v.s.regions| && RewindTo(v.s, d, Mark(r.identity, r.offset)).0
      && RewindTo(v.s, d, Mark(r.identity, r.offset)).1.regions == w.s.regions
  {
    hide Inv, Run, Above, Shape, Chained, Rewound;
    var rs, v := w.s.regions, Run(w, ops);
    InvChained(w);
    AboveHere(rs, |w.s.mem|);
    ScratchAbove(rs, w, ops);
    InvChained(v);
    AboveTop(w, v);
    ChainBelow(w);
    AboveLength(rs, v.s.regions);
    var back := Rewound(v.s.regions, d, rs[d].offset);
    forall i | 0 <= i < |rs| ensures back[i] == rs[i] {
      RewindsAt(w, v, i);
    }
  }

  /** The innermost region keeps its pins and its generation under scratch. */
  lemma AboveTop(w: World, v: World)
    requires Inv(w) && Inv(v) && Above(w.s.regions, v.s.regions)
    ensures var (r, t) := (w.s.regions[Top(w.s.regions)], v.s.regions[Top(w.s.regions)]);
      && t.identity == r.identity && t.retained == r.retained <= r.offset <= t.offset && !t.active
      && DropEntries(t.interned, r.offset) == DropEntries(r.interned, r.offset)
  {
    var rs, ts := w.s.regions, v.s.regions;
    var d := Top(rs);
    InvRegion(w, d);
    InvRegion(v, d);
    hide Inv;
    var (r, t) := (rs[d], ts[d]);
    var n :| 0 <= n <= |t.interned| && t.interned[n..] == r.interned
      && forall k :: 0 <= k < n ==> t.interned[k].end > r.offset;
    DroppedAbove(t.interned, n, r.offset);
  }

  lemma AboveAt(rs: seq<Region>, ts: seq<Region>, i: nat)
    requires Above(rs, ts) && i < |rs|
    ensures |ts| == |rs| && ts[i] == Moved(rs[i], Frontier(ts)).(interned := ts[i].interned)
    ensures i < Top(rs) ==> ts[i].interned == rs[i].interned
  {
  }

  lemma MovedBack(r: Region, t: Region, frontier: nat)
    requires t == Moved(r, t.base + t.offset).(interned := t.interned) && r.base + r.offset == frontier
    ensures Moved(t, frontier).(interned := r.interned) == r
  {
  }

  lemma RewindsAt(w: World, v: World, i: nat)
    requires Inv(w) && Inv(v) && Above(w.s.regions, v.s.regions) && i < |w.s.regions|
    ensures Top(w.s.regions) < |v.s.regions|
    ensures Rewound(v.s.regions, Top(w.s.regions), w.s.regions[Top(w.s.regions)].offset)[i] == w.s.regions[i]
  {
    hide Inv, Above, Shape, Chained, Rewound, DropEntries, Frontier, Moved;
    var rs, ts := w.s.regions, v.s.regions;
    var d := Top(rs);
    AboveAt(rs, ts, i);
    AboveAt(rs, ts, d);
    InvChained(v);
    InvRegion(w, i);
    InvRegion(w, d);
    InvRegion(v, i);
    InvRegion(v, d);
    AboveTop(w, v);
    ChainBelow(w);
    RewoundAt(ts, d, rs[d].offset, i);
    MovedFields(ts[i], Frontier(rs));
    MovedFields(rs[d], Frontier(ts));
    MovedBack(rs[i], ts[i], Frontier(rs));
  }
}
