/** Region scopes keep the arena invariant; hence the safety of every run of operations. */
module ArenaRuns {
  import opened Options
  import opened Words
  import opened ArenaCore
  import opened ArenaInvariant
  import opened ArenaSteps

  // ---------------------------------------------------------------- closing a region

  /** How many front blocks belong to regions below `depth`. */
  ghost function OuterCount(front: seq<Block>, depth: nat): (n: nat)
    ensures n <= |front|
  {
    if front == [] || front[|front| - 1].depth < depth then |front|
    else OuterCount(front[..|front| - 1], depth)
  }

  lemma {:induction false} OuterExactly(front: seq<Block>, depth: nat)
    requires Ascending(front)
    ensures forall k {:trigger front[k]} :: 0 <= k < |front| ==>
      (k < OuterCount(front, depth) <==> front[k].depth < depth)
  {
    if front != [] {
      var n := |front| - 1;
      if front[n].depth >= depth {
        assert Ascending(front[..n]);
        OuterExactly(front[..n], depth);
        assert forall k :: 0 <= k < n ==> front[..n][k] == front[k];
      } else {
        assert forall k :: 0 <= k < n ==> front[k].depth <= front[n].depth;
      }
    }
  }

  ghost function DoClose(w: World): World
    requires |w.s.regions| > 1
  {
    w.(s := CloseRegion(w.s), front := w.front[..OuterCount(w.front, Top(w.s.regions))])
  }

  /** The regions left by closing the top one: the parent resumes where it was. */
  lemma CloseAt(s: State, i: nat)
    requires Shape(s.regions, |s.mem|) && i < |s.regions| - 1
    ensures var (rs, ts, d) := (s.regions, CloseRegion(s).regions, |s.regions| - 2);
      |ts| == d + 1 && ts[i] == Moved(rs[i], Ceiling(rs, d)).(active := i < d)
  {
    var rs, d := s.regions, |s.regions| - 2;
    ShapeChained(rs, |s.mem|);
    assert rs[i].active;
    assert Chained(rs[..d + 1]);
    hide Shape, Chained;
    PublishAt(rs[..d + 1], d, rs[d + 1].resume, i);
  }

  lemma CloseScalars(s: State, i: nat)
    requires Shape(s.regions, |s.mem|) && i < |s.regions| - 1
    ensures var (rs, ts, d) := (s.regions, CloseRegion(s).regions, |s.regions| - 2);
      && |ts| == d + 1 && ts[i].base == rs[i].base && ts[i].resume == rs[i].resume && ts[i].tail == rs[i].tail
      && ts[i].base % ARENA_ALIGN == 0 && ts[i].base + ts[i].offset == Ceiling(rs, d)
      && ts[i].retained <= ts[i].offset && ts[i].active == (i < d)
  {
    CloseAt(s, i);
    CloseRegionBound(s.regions, |s.mem|, i);
  }

  lemma CloseNested(s: State, i: nat)
    requires Shape(s.regions, |s.mem|) && 0 < i < |s.regions| - 1
    ensures |CloseRegion(s).regions| == |s.regions| - 1 && Nested(CloseRegion(s).regions, i)
  {
    assert Nested(s.regions, i);
    CloseAt(s, 0);
    CloseAt(s, i);
    CloseAt(s, i - 1);
    hide Shape, CloseRegion;
  }

  lemma CloseShape(s: State)
    requires Shape(s.regions, |s.mem|) && |s.regions| > 1
    ensures var (rs, ts) := (s.regions, CloseRegion(s).regions);
      && Shape(ts, |s.mem|) && Frontier(ts) == Ceiling(rs, |rs| - 2)
      && (forall i :: 0 <= i < |ts| ==> Ceiling(ts, i) == Ceiling(rs, i))
  {
    var rs, ts, d := s.regions, CloseRegion(s).regions, |s.regions| - 2;
    CloseAt(s, 0);
    CeilingBelow(rs, |s.mem|, d);
    hide CloseRegion, Nested;
    forall i | 0 <= i < |ts|
      ensures ts[i].base % ARENA_ALIGN == 0 && ts[i].base + ts[i].offset == Ceiling(rs, d)
      ensures ts[i].retained <= ts[i].offset && ts[i].active == (i < d)
      ensures ts[i].base == rs[i].base && ts[i].resume == rs[i].resume
    {
      CloseScalars(s, i);
    }
    forall i | 0 < i < |ts| ensures Nested(ts, i) {
      CloseNested(s, i);
    }
  }

  lemma CloseRegionBound(rs: seq<Region>, mem: nat, i: nat)
    requires Shape(rs, mem) && i < |rs| - 1
    ensures rs[i].base + rs[i].retained <= Ceiling(rs, |rs| - 2)
    ensures rs[i].base % ARENA_ALIGN == 0
  {
    assert Nested(rs, i + 1) && Nested(rs, |rs| - 1);
    BasesAscend(rs, mem, i, |rs| - 2);
  }

  lemma CloseDrops(w: World)
    requires Inv(w) && |w.s.regions| > 1
    ensures Drops(w, DoClose(w), OuterCount(w.front, Top(w.s.regions)))
    ensures DoClose(w).s.regions[0].tail == w.s.regions[0].tail
  {
    var v := DoClose(w);
    OuterExactly(w.front, Top(w.s.regions));
    forall i | 0 <= i < |w.s.regions| - 1
      ensures |v.s.regions| == |w.s.regions| - 1
      ensures v.s.regions[i].identity == w.s.regions[i].identity && v.s.regions[i].base == w.s.regions[i].base
      ensures v.s.regions[i].tail == w.s.regions[i].tail
    {
      CloseAt(w.s, i);
    }
    assert |v.s.regions| == |w.s.regions| - 1 by { CloseAt(w.s, 0); }
    hide Inv, CloseRegion;
  }

  lemma CloseFrontPlace(w: World, k: nat)
    requires Inv(w) && |w.s.regions| > 1 && k < |w.front| && w.front[k].depth < Top(w.s.regions)
    ensures FrontPlace(DoClose(w).s.regions, w.front[k])
  {
    CloseShape(w.s);
    CloseAt(w.s, w.front[k].depth);
    assert FrontPlace(w.s.regions, w.front[k]);
    hide Inv, CloseRegion, Shape;
  }

  lemma CloseIntern(w: World)
    requires Inv(w) && |w.s.regions| > 1
    ensures InternOk(DoClose(w))
  {
    var v, n := DoClose(w), OuterCount(w.front, Top(w.s.regions));
    OuterExactly(w.front, Top(w.s.regions));
    forall i | 0 <= i < |v.s.regions| ensures v.s.regions[i].interned == SharedOf(v.front, i, v.s.regions[i].base) {
      assert |v.s.regions| == |w.s.regions| - 1 by { CloseAt(w.s, 0); }
      CloseAt(w.s, i);
      assert w.s.regions[i].interned == SharedOf(w.front, i, w.s.regions[i].base);
      SharedOfPrefix(w.front, n, i, w.s.regions[i].base);
    }
  }

  lemma CloseKeeps(w: World)
    requires Inv(w) && |w.s.regions| > 1
    ensures Inv(DoClose(w))
  {
    var v, n := DoClose(w), OuterCount(w.front, Top(w.s.regions));
    CloseDrops(w);
    OuterExactly(w.front, Top(w.s.regions));
    forall k | 0 <= k < n ensures FrontPlace(v.s.regions, w.front[k]) {
      CloseFrontPlace(w, k);
    }
    hide FrontOk, TailOk, InternOk, IdentitiesOk, HandlesOk, FrontPlace, Drops, CloseRegion, Shape;
    CloseShape(w.s);
    DropFront(w, v, n);
    DropTail(w, v, n);
    DropHandles(w, v, n);
    CloseIntern(w);
  }

  // ---------------------------------------------------------------- opening a region

  ghost function DoOpen(w: World, d: nat): World
    requires d < |w.s.regions|
  {
    w.(s := OpenRegion(w.s, d).1)
  }

  lemma OpenAt(s: State, d: nat, i: nat)
    requires Shape(s.regions, |s.mem|) && d < |s.regions| && OpenRegion(s, d).0.Ok? && i <= |s.regions|
    ensures d == Top(s.regions)
    ensures var (rs, ts, start) := (s.regions, OpenRegion(s, d).1.regions, AlignUp(s.regions[d].offset, ARENA_ALIGN));
      && |ts| == |rs| + 1
      && (i < |rs| ==> ts[i] == Moved(rs[i], rs[d].base + start).(active := true))
      && rs[d].base + start < rs[0].tail
      && ts[d + 1] == Region(rs[d].base + start, rs[0].tail - rs[d].base - start, 0, rs[0].tail - rs[d].base - start,
                             false, start, rs[d].offset, 0, Drawn(s.nextIdentity).0, [])
  {
    var rs := s.regions;
    var start := AlignUp(rs[d].offset, ARENA_ALIGN);
    LimitIsTail(rs, |s.mem|, d);
    assert rs[d].active == (d < Top(rs));
    assert i < d ==> rs[i].active;
    ShapeChained(rs, |s.mem|);
    ChainedUpdate(rs, d, rs[d].(active := true));
    hide Shape, Chained, AllocationLimit;
    if i < |rs| {
      PublishAt(rs[d := rs[d].(active := true)], d, start, i);
    }
  }

  lemma OpenScalars(s: State, d: nat, i: nat)
    requires Shape(s.regions, |s.mem|) && d < |s.regions| && OpenRegion(s, d).0.Ok? && i <= |s.regions|
    ensures var (rs, ts) := (s.regions, OpenRegion(s, d).1.regions);
      && |ts| == |rs| + 1 && d == Top(rs)
      && ts[i].base % ARENA_ALIGN == 0
      && ts[i].base + ts[i].offset == rs[d].base + AlignUp(rs[d].offset, ARENA_ALIGN)
      && ts[i].retained <= ts[i].offset && ts[i].active == (i <= d)
      && (if i <= d then ts[i].base == rs[i].base && ts[i].resume == rs[i].resume && ts[i].identity == rs[i].identity
          else ts[i].resume == rs[d].offset && ts[i].identity == Drawn(s.nextIdentity).0)
  {
    var rs := s.regions;
    OpenAt(s, d, i);
    hide OpenRegion;
    if i <= d {
      CeilingBelow(rs, |s.mem|, i);
      BasesAscend(rs, |s.mem|, i, d);
      assert rs[i].base + rs[i].offset == rs[d].base + rs[d].offset;
    } else {
      SumAlign(rs[d].base, AlignUp(rs[d].offset, ARENA_ALIGN), ARENA_ALIGN);
    }
  }

  lemma OpenNested(s: State, d: nat, i: nat)
    requires Shape(s.regions, |s.mem|) && d < |s.regions| && OpenRegion(s, d).0.Ok? && 0 < i <= |s.regions|
    ensures |OpenRegion(s, d).1.regions| == |s.regions| + 1 && Nested(OpenRegion(s, d).1.regions, i)
  {
    OpenAt(s, d, 0);
    OpenAt(s, d, i);
    OpenAt(s, d, i - 1);
    assert i <= d ==> Nested(s.regions, i);
    assert s.regions[d].retained <= s.regions[d].offset;
    hide Shape, OpenRegion;
  }

  lemma OpenShape(s: State, d: nat)
    requires Shape(s.regions, |s.mem|) && d < |s.regions| && OpenRegion(s, d).0.Ok?
    ensures var (rs, ts) := (s.regions, OpenRegion(s, d).1.regions);
      && Shape(ts, |s.mem|)
      && (forall i :: 0 <= i < |rs| ==> Ceiling(ts, i) == Ceiling(rs, i))
  {
    var rs, ts := s.regions, OpenRegion(s, d).1.regions;
    var frontier := rs[d].base + AlignUp(rs[d].offset, ARENA_ALIGN);
    OpenAt(s, d, 0);
    hide OpenRegion, Nested, Moved;
    forall i | 0 <= i < |ts|
      ensures ts[i].base % ARENA_ALIGN == 0 && ts[i].base + ts[i].offset == frontier
      ensures ts[i].retained <= ts[i].offset && ts[i].active == (i <= d)
      ensures if i <= d then ts[i].base == rs[i].base && ts[i].resume == rs[i].resume else ts[i].resume == rs[d].offset
    {
      OpenScalars(s, d, i);
    }
    forall i | 0 < i < |ts| ensures Nested(ts, i) {
      OpenNested(s, d, i);
    }
    OwnerAfterOpen(s, d);
  }

  lemma OwnerAfterOpen(s: State, d: nat)
    requires Shape(s.regions, |s.mem|) && d < |s.regions| && OpenRegion(s, d).0.Ok?
    ensures var (r, t) := (s.regions[0], OpenRegion(s, d).1.regions[0]);
      t.base == r.base && t.capacity == r.capacity && t.retained == r.retained && t.tail == r.tail
  {
    OpenAt(s, d, 0);
  }

  lemma {:induction false} NoShared(front: seq<Block>, depth: nat, base: nat)
    requires forall k {:trigger front[k]} :: 0 <= k < |front| ==> front[k].depth < depth
    ensures SharedOf(front, depth, base) == []
  {
    if front != [] {
      assert forall k :: 0 <= k < |front| - 1 ==> front[..|front| - 1][k] == front[k];
      NoShared(front[..|front| - 1], depth, base);
    }
  }

  lemma OpenPlace(w: World, d: nat, k: nat)
    requires Inv(w) && d < |w.s.regions| && OpenRegion(w.s, d).0.Ok? && k < |w.front|
    ensures FrontPlace(OpenRegion(w.s, d).1.regions, w.front[k])
  {
    hide Inv, Shape, Chained, OpenRegion, BlockOk, Frontier;
    InvChained(w);
    InvPlace(w, k);
    OpenShape(w.s, d);
    OpenAt(w.s, d, w.front[k].depth);
  }

  lemma OpenBlocks(w: World, d: nat)
    requires Inv(w) && d < |w.s.regions| && OpenRegion(w.s, d).0.Ok?
    ensures FrontOk(DoOpen(w, d)) && TailOk(DoOpen(w, d))
  {
    var v := DoOpen(w, d);
    OpenAt(w.s, d, 0);
    hide OpenRegion, Shape, BlockOk, FrontPlace, Ascending, Descending;
    forall k | 0 <= k < |w.front| ensures FrontPlace(v.s.regions, w.front[k]) {
      OpenPlace(w, d, k);
    }
  }

  lemma OpenIntern(w: World, d: nat)
    requires Inv(w) && d < |w.s.regions| && OpenRegion(w.s, d).0.Ok?
    ensures InternOk(DoOpen(w, d))
  {
    var v := DoOpen(w, d);
    OpenAt(w.s, d, 0);
    forall i | 0 <= i < |v.s.regions| ensures v.s.regions[i].interned == SharedOf(v.front, i, v.s.regions[i].base) {
      OpenAt(w.s, d, i);
      if i > d {
        NoShared(w.front, i, v.s.regions[i].base);
      }
    }
  }

  lemma DrawnIdentity(w: World, v: World)
    requires IdentitiesOk(w) && |v.s.regions| == |w.s.regions| + 1
    requires forall i {:trigger v.s.regions[i]} :: 0 <= i < |w.s.regions| ==>
      v.s.regions[i].identity == w.s.regions[i].identity
    requires v.s.regions[|w.s.regions|].identity == Drawn(w.s.nextIdentity).0
    requires v.s.nextIdentity == Drawn(w.s.nextIdentity).1 && v.handles == w.handles && v.foreign == w.foreign
    ensures IdentitiesOk(v)
  {
    var rs, ts := w.s.regions, v.s.regions;
    forall i, j | 0 <= i < j < |ts| ensures ts[i].identity != ts[j].identity || ts[i].identity == 0 {
      assert ts[i].identity == rs[i].identity;
      assert j < |rs| ==> ts[j].identity == rs[j].identity;
    }
  }

  lemma OpenIdentities(w: World, d: nat)
    requires Inv(w) && d < |w.s.regions| && OpenRegion(w.s, d).0.Ok?
    ensures IdentitiesOk(DoOpen(w, d))
  {
    var v := DoOpen(w, d);
    var rs, ts := w.s.regions, v.s.regions;
    OpenScalars(w.s, d, d + 1);
    assert v.s.nextIdentity == Drawn(w.s.nextIdentity).1;
    hide Shape, FrontOk, TailOk, InternOk, HandlesOk, IdentitiesOk, OpenRegion, Drawn;
    forall i | 0 <= i < |rs| ensures ts[i].identity == rs[i].identity {
      OpenScalars(w.s, d, i);
    }
    DrawnIdentity(w, v);
  }

  lemma OpenHandles(w: World, d: nat)
    requires Inv(w) && d < |w.s.regions| && OpenRegion(w.s, d).0.Ok?
    ensures HandlesOk(DoOpen(w, d))
  {
    var v := DoOpen(w, d);
    var rs, ts := w.s.regions, v.s.regions;
    OpenScalars(w.s, d, d + 1);
    hide Shape, FrontOk, TailOk, InternOk, Backed, OpenRegion;
    forall h, i | h in v.handles && 0 <= i < |ts| && ts[i].identity == h.identity
      ensures Backed(v, i, h, v.handles[h])
    {
      OpenScalars(w.s, d, i);
      assert Backed(w, i, h, w.handles[h]);
      OldHandle(w, v, h, i, w.handles[h]);
    }
  }

  lemma OpenKeeps(w: World, d: nat)
    requires Inv(w) && d < |w.s.regions|
    ensures Inv(DoOpen(w, d))
  {
    if OpenRegion(w.s, d).0.Ok? {
      hide FrontOk, TailOk, InternOk, IdentitiesOk, HandlesOk, Shape;
      OpenShape(w.s, d);
      OpenBlocks(w, d);
      OpenIntern(w, d);
      OpenIdentities(w, d);
      OpenHandles(w, d);
    }
  }

  // ---------------------------------------------------------------- the owner alone

  ghost function DoRecycle(w: World): World
    requires |w.s.regions| == 1
  {
    w.(s := RecycleFront(w.s), front := [])
  }

  ghost function DoReset(w: World): World
    requires |w.s.regions| == 1
  {
    w.(s := ArenaCore.Reset(w.s), front := [], tail := [])
  }

  /** Another arena of the process draws an identity from the shared counter. */
  ghost function DoForeign(w: World): World
  {
    var (identity, next) := Drawn(w.s.nextIdentity);
    w.(s := w.s.(nextIdentity := next), foreign := if identity == 0 then w.foreign else w.foreign + {identity})
  }

  lemma RecycleKeeps(w: World)
    requires Inv(w) && |w.s.regions| == 1
    ensures Inv(DoRecycle(w))
  {
    var v := DoRecycle(w);
    assert v.s.regions[0] == w.s.regions[0].(interned := [], offset := 0);
    assert Durables(v, 0) == Durables(w, 0);
    hide Backed;
    forall h, i | h in v.handles && 0 <= i < |v.s.regions| && v.s.regions[i].identity == h.identity
      ensures Backed(v, i, h, v.handles[h])
    {
      assert Backed(w, 0, h, w.handles[h]);
      OldHandle(w, v, h, 0, w.handles[h]);
    }
  }

  lemma ResetKeeps(w: World)
    requires Inv(w) && |w.s.regions| == 1
    ensures Inv(DoReset(w))
  {
    var v := DoReset(w);
    assert v.s.regions[0].offset == 0 && v.s.regions[0].interned == [];
  }

  lemma ForeignKeeps(w: World)
    requires Inv(w)
    ensures Inv(DoForeign(w))
  {
    var v := DoForeign(w);
    SameWorldHandles(w, v);
    hide Shape, BlockOk, FrontPlace, SharedOf, Backed, HandlesOk;
  }

  lemma SameWorldHandles(w: World, v: World)
    requires HandlesOk(w) && v.s.regions == w.s.regions && v.front == w.front && v.tail == w.tail
      && v.handles == w.handles
    ensures HandlesOk(v)
  {
    hide Backed;
    forall h, i | h in v.handles && 0 <= i < |v.s.regions| && v.s.regions[i].identity == h.identity
      ensures Backed(v, i, h, v.handles[h])
    {
      assert Backed(w, i, h, w.handles[h]);
      OldHandle(w, v, h, i, w.handles[h]);
    }
  }

  // ---------------------------------------------------------------- keeping a region's output

  ghost function DoCloseKeeping(w: World, out: Output): World
    requires |w.s.regions| > 1 && Readable(w.s.mem, out)
  {
    DoAlloc(DoClose(w), |w.s.regions| - 2, 1, Produced(w.s.mem, out))
  }

  lemma ClosedTop(w: World)
    requires Inv(w) && |w.s.regions| > 1
    ensures var (rs, ts, d) := (w.s.regions, CloseRegion(w.s).regions, |w.s.regions| - 2);
      && |ts| == d + 1 && ts[0].tail == rs[0].tail && !ts[d].active
      && ts[d].base == rs[d].base && ts[d].offset == rs[d + 1].resume
      && Ceiling(rs, d) <= rs[d + 1].base <= Frontier(rs)
  {
    CloseScalars(w.s, |w.s.regions| - 2);
    CloseScalars(w.s, 0);
    CeilingBelow(w.s.regions, |w.s.mem|, |w.s.regions| - 2);
  }

  /** The parent's frontier once its open child is closed. */
  ghost function ResumePoint(rs: seq<Region>): nat
    requires |rs| > 1
  {
    rs[|rs| - 2].base + rs[|rs| - 1].resume
  }

  lemma AllocAtFrontier(rs: seq<Region>, mem: nat, len: nat)
    requires Shape(rs, mem)
    ensures var (at, ts) := AllocRaw(rs, Top(rs), len, 1);
      && (at.Ok? <==> Frontier(rs) + len <= rs[0].tail)
      && (at.Ok? ==> at.value == Frontier(rs) && Frontier(ts) == Frontier(rs) + len)
  {
    var d := Top(rs);
    AllocRawTop(rs, mem, d, len, 1);
    assert AlignUp(rs[d].offset, 1) == rs[d].offset;
    if AllocRaw(rs, d, len, 1).0.Ok? {
      AllocRawRegions(rs, mem, d, len, 1);
    }
    hide Shape, Refronted, AllocationLimit, SetFrontier;
  }

  lemma ClosedFrontier(w: World)
    requires Inv(w) && |w.s.regions| > 1
    ensures var (rs, ts) := (w.s.regions, CloseRegion(w.s).regions);
      && Shape(ts, |w.s.mem|) && Frontier(ts) == ResumePoint(rs) && |ts| == |rs| - 1
      && ts[0].tail == rs[0].tail <= |w.s.mem|
      && ResumePoint(rs) <= rs[|rs| - 1].base && Frontier(rs) <= rs[0].tail
  {
    ClosedTop(w);
    CloseShape(w.s);
  }

  /** Bytes that lie in the innermost region. */
  ghost predicate InChild(rs: seq<Region>, out: Output)
    requires rs != []
  {
    out.Inside? && rs[|rs| - 1].base <= out.source && out.source + out.len <= Frontier(rs)
  }

  lemma KeptPlace(w: World, out: Output)
    requires Inv(w) && |w.s.regions| > 1 && Readable(w.s.mem, out)
    ensures |CloseRegion(w.s).regions| == |w.s.regions| - 1
    ensures var (at, len) := (ResumePoint(w.s.regions), |Produced(w.s.mem, out)|);
      var result := AllocRaw(CloseRegion(w.s).regions, |w.s.regions| - 2, len, 1);
      && (result.0.Ok? <==> at + len <= w.s.regions[0].tail)
      && (result.0.Ok? ==>
          && result.0.value == at && at + len <= |w.s.mem|
          && Frontier(result.1) == at + len)
      && (InChild(w.s.regions, out) ==> result.0.Ok?)
  {
    hide Inv, CloseRegion, Shape, AllocRaw, ResumePoint, Frontier;
    ClosedFrontier(w);
    AllocAtFrontier(CloseRegion(w.s).regions, |w.s.mem|, |Produced(w.s.mem, out)|);
  }

  /** `with_remaining_bytes`: exactly the bytes the body produced end up at the parent's frontier,
      whether or not they overlap their source and wherever they were; outer front blocks and the
      durable tail are untouched, everything else of the child is reclaimed, and the move fails
      exactly when the bytes do not fit between the parent's frontier and the tail, in which case
      the region is closed all the same. Bytes that lie in the child region always fit. */
  lemma KeptBytes(w: World, out: Output)
    requires Inv(w) && |w.s.regions| > 1 && Readable(w.s.mem, out)
    ensures var (v, at, data) := (DoCloseKeeping(w, out), ResumePoint(w.s.regions), Produced(w.s.mem, out));
      var result := CloseKeepingBytes(w.s, out).0;
      && v.s == CloseKeepingBytes(w.s, out).1 && v.tail == w.tail
      && (result.Ok? <==> at + |data| <= w.s.regions[0].tail)
      && (InChild(w.s.regions, out) ==> result.Ok?)
      && (result.ArenaFull? ==> v == DoClose(w))
      && (result.Ok? ==>
          && result.value == at && at + |data| <= |v.s.mem|
          && v.s.mem[at..at + |data|] == data
          && |v.front| == OuterCount(w.front, |w.s.regions| - 1) + 1 && v.front[..|v.front| - 1] <= w.front
          && |v.s.regions| == |w.s.regions| - 1 && Frontier(v.s.regions) == at + |data|)
  {
    KeptPlace(w, out);
    if ResumePoint(w.s.regions) + |Produced(w.s.mem, out)| <= w.s.regions[0].tail {
      StoreAt(w.s.mem, ResumePoint(w.s.regions), Produced(w.s.mem, out));
    }
    assert CloseRegion(w.s).mem == w.s.mem;
    hide Inv, CloseRegion, AllocRaw, Store, OuterCount, Frontier, ResumePoint, InChild, Produced;
  }

  lemma CloseKeepingKeeps(w: World, out: Output)
    requires Inv(w) && |w.s.regions| > 1 && Readable(w.s.mem, out)
    ensures Inv(DoCloseKeeping(w, out))
  {
    CloseKeeps(w);
    ClosedTop(w);
    hide Inv, CloseRegion;
    AllocKeeps(DoClose(w), |w.s.regions| - 2, 1, Produced(w.s.mem, out));
  }

  // ---------------------------------------------------------------- runs

  datatype Op =
    | Alloc(d: nat, align: nat, data: seq<byte>)
    | AllocPersistent(d: nat, align: nat, data: seq<byte>)
    | Intern(d: nat, header: Element, element: Element, length: nat, data: seq<byte>)
    | Write(durable: bool, k: nat, data: seq<byte>)
    | Retain(d: nat, align: nat, data: seq<byte>)
    | Replace(d: nat, h: Handle, data: seq<byte>)
    | Rewind(d: nat, mark: Mark)
    | Recycle
    | Reset
    | Open(d: nat)
    | Close
    | CloseKeeping(out: Output)
    | Foreign

  /** What the borrow rules and types of the source let a caller do. */
  ghost predicate Enabled(w: World, op: Op)
  {
    match op
    case Alloc(d, align, _) => d < |w.s.regions| && ValidAlign(align)
    case AllocPersistent(d, align, _) => d < |w.s.regions| && ValidAlign(align)
    case Retain(d, align, _) => d < |w.s.regions| && ValidAlign(align)
    case Intern(d, header, element, length, data) =>
      && d < |w.s.regions| && ValidAlign(header.align) && ValidAlign(element.align)
      && header.size > 0 && |data| == ByteCount(element, length)
    case Write(durable, k, data) =>
      && k < |Live(w, durable)| && |data| == |Live(w, durable)[k].data|
      && (Live(w, durable)[k].owner == Borrowed || Live(w, durable)[k].owner == Durable)
    case Replace(d, h, data) =>
      d < |w.s.regions| && |data| == h.size && (h in w.handles || h.identity in w.foreign)
    case Rewind(d, _) => d < |w.s.regions|
    case Recycle => |w.s.regions| == 1
    case Reset => |w.s.regions| == 1
    case Open(d) => d < |w.s.regions|
    case Close => |w.s.regions| > 1
    case CloseKeeping(out) => |w.s.regions| > 1 && Readable(w.s.mem, out)
    case Foreign => true
  }

  ghost function Apply(w: World, op: Op): World
  {
    if !Enabled(w, op) then w else
    match op
    case Alloc(d, align, data) => DoAlloc(w, d, align, data)
    case AllocPersistent(d, align, data) => DoAllocPersistent(w, d, align, data)
    case Intern(d, header, element, length, data) => DoIntern(w, d, header, element, length, data)
    case Write(durable, k, data) => DoWrite(w, durable, k, data)
    case Retain(d, align, data) => DoRetain(w, d, align, data)
    case Replace(d, h, data) => DoReplace(w, d, h, data)
    case Rewind(d, mark) => DoRewind(w, d, mark)
    case Recycle => DoRecycle(w)
    case Reset => DoReset(w)
    case Open(d) => DoOpen(w, d)
    case Close => DoClose(w)
    case CloseKeeping(out) => DoCloseKeeping(w, out)
    case Foreign => DoForeign(w)
  }

  lemma ApplyKeeps(w: World, op: Op)
    requires Inv(w)
    ensures Inv(Apply(w, op))
  {
    hide Inv;
    if Enabled(w, op) {
      match op
      case Alloc(d, align, data) => AllocKeeps(w, d, align, data);
      case AllocPersistent(d, align, data) => AllocPersistentKeeps(w, d, align, data);
      case Intern(d, header, element, length, data) => InternKeeps(w, d, header, element, length, data);
      case Write(durable, k, data) => WriteKeeps(w, durable, k, data);
      case Retain(d, align, data) => RetainKeeps(w, d, align, data);
      case Replace(d, h, data) =>
        if h in w.handles { ReplaceKeeps(w, d, h, data); } else { ForeignRejected(w, d, h); }
      case Rewind(d, mark) => RewindKeeps(w, d, mark);
      case Recycle => RecycleKeeps(w);
      case Reset => ResetKeeps(w);
      case Open(d) => OpenKeeps(w, d);
      case Close => CloseKeeps(w);
      case CloseKeeping(out) => CloseKeepingKeeps(w, out);
      case Foreign => ForeignKeeps(w);
    }
  }

  /** No region carries an identity that another arena drew. */
  lemma ForeignRejected(w: World, d: nat, h: Handle)
    requires Inv(w) && d < |w.s.regions| && h.identity in w.foreign
    ensures h.identity != w.s.regions[d].identity
  {
  }

  ghost function Run(w: World, ops: seq<Op>): World
    decreases |ops|
  {
    if ops == [] then w else Run(Apply(w, ops[0]), ops[1..])
  }

  /** A new arena over `mem` in a process where other arenas drew the identities `foreign`. */
  ghost function Fresh(mem: seq<byte>, next: nat, foreign: set<nat>): World
  {
    var (identity, following) := Drawn(next);
    World(State(mem, [Region(0, |mem|, 0, |mem|, false, 0, 0, 0, identity, [])], following), [], [], map[], foreign)
  }

  ghost predicate Drew(foreign: set<nat>, next: nat)
  {
    next > 0 && forall f :: f in foreign ==> 0 < f < next
  }

  lemma {:induction false} RunKeeps(w: World, ops: seq<Op>)
    requires Inv(w)
    ensures Inv(Run(w, ops))
    decreases |ops|
  {
    if ops != [] {
      ApplyKeeps(w, ops[0]);
      hide Inv, Apply;
      RunKeeps(Apply(w, ops[0]), ops[1..]);
    }
  }

  /** Every run of every fresh arena keeps the invariant. */
  lemma ReachableOk(mem: seq<byte>, next: nat, foreign: set<nat>, ops: seq<Op>)
    requires Drew(foreign, next)
    ensures Inv(Run(Fresh(mem, next, foreign), ops))
  {
    assert Inv(Fresh(mem, next, foreign));
    hide Inv;
    RunKeeps(Fresh(mem, next, foreign), ops);
  }
}
