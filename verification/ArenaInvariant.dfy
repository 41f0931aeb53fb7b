/** Live allocations of the arena, the invariant that ties them to its regions, and why pushing a
    block keeps it. */
module ArenaInvariant {
  import opened Options
  import opened Words
  import opened ArenaCore

  /** Who may write a live allocation: its borrower (of a plain or of a durable allocation), the
      holders of a retained handle, or nobody. */
  datatype Owner = Borrowed | Durable | Held | Shared(element: Element, length: nat)

  /** Allocations that a child region pins against rewinds. */
  predicate Pinned(o: Owner) { o.Durable? || o.Held? }

  /** A live allocation: storage [lo, hi) with contents `data` at `at`, all absolute positions. */
  datatype Block = Block(depth: nat, lo: nat, hi: nat, at: nat, align: nat, data: seq<byte>, owner: Owner)

  /** The arena with its history: live front blocks of all regions in address order, live tail
      blocks of the owner in allocation order, the last value stored through each handle issued
      here, and the identities drawn by other arenas of the process. */
  datatype World = World(s: State, front: seq<Block>, tail: seq<Block>,
                         handles: map<Handle, seq<byte>>, foreign: set<nat>)

  // ---------------------------------------------------------------- invariant

  ghost function Frontier(rs: seq<Region>): nat
    requires rs != []
  {
    rs[Top(rs)].base + rs[Top(rs)].offset
  }

  /** Every region publishes the same absolute frontier, and the owner's tail is above it. */
  ghost predicate Shape(rs: seq<Region>, size: nat)
  {
    && rs != []
    && rs[0].base == 0 && rs[0].capacity == size && rs[0].retained == 0
    && Frontier(rs) <= rs[0].tail <= size
    && (forall i {:trigger rs[i]} :: 0 <= i < |rs| ==>
          && rs[i].base % ARENA_ALIGN == 0
          && rs[i].base + rs[i].offset == Frontier(rs)
          && rs[i].retained <= rs[i].offset
          && rs[i].active == (i < Top(rs)))
    && (forall i {:trigger rs[i]} :: 0 < i < |rs| ==> Nested(rs, i))
  }

  ghost predicate Nested(rs: seq<Region>, i: nat)
    requires 0 < i < |rs|
  {
    && rs[i].base == rs[i - 1].base + rs[i].start
    && rs[i - 1].retained <= rs[i].resume <= rs[i].start
    && rs[i].tail == rs[i].capacity
    && rs[0].tail <= rs[i].base + rs[i].capacity
  }

  /** Where the front blocks of region i end at the latest. */
  ghost function Ceiling(rs: seq<Region>, i: nat): nat
    requires i < |rs|
  {
    if i == Top(rs) then Frontier(rs) else rs[i].base + rs[i + 1].resume
  }

  ghost predicate BlockOk(b: Block, mem: seq<byte>)
  {
    && b.lo <= b.at && b.at + |b.data| <= b.hi <= |mem|
    && mem[b.at..b.at + |b.data|] == b.data
    && ValidAlign(b.align) && b.at % b.align == 0
  }

  ghost predicate FrontPlace(rs: seq<Region>, b: Block)
  {
    && b.depth < |rs|
    && rs[b.depth].base <= b.lo && b.hi <= Ceiling(rs, b.depth)
    && (Pinned(b.owner) ==> b.depth > 0 && b.hi <= rs[b.depth].base + rs[b.depth].retained)
    && (b.owner.Shared? ==> |b.data| == ByteCount(b.owner.element, b.owner.length) && b.lo < b.hi)
  }

  ghost predicate Ascending(front: seq<Block>)
  {
    && (forall k {:trigger front[k]} :: 0 <= k < |front| ==> front[k].lo <= front[k].hi)
    && (forall j, k {:trigger front[j], front[k]} :: 0 <= j < k < |front| ==>
          front[j].hi <= front[k].lo && front[j].depth <= front[k].depth)
  }

  ghost predicate FrontOk(w: World)
    requires w.s.regions != []
  {
    && Ascending(w.front)
    && (forall k {:trigger w.front[k]} :: 0 <= k < |w.front| ==>
          BlockOk(w.front[k], w.s.mem) && FrontPlace(w.s.regions, w.front[k]))
  }

  ghost predicate TailPlace(rs: seq<Region>, b: Block)
    requires rs != []
  {
    b.depth == 0 && rs[0].tail <= b.lo && !b.owner.Shared?
  }

  ghost predicate Descending(tail: seq<Block>)
  {
    forall j, k {:trigger tail[j], tail[k]} :: 0 <= j < k < |tail| ==> tail[k].hi <= tail[j].lo
  }

  ghost predicate TailOk(w: World)
    requires w.s.regions != []
  {
    && Descending(w.tail)
    && (forall k {:trigger w.tail[k]} :: 0 <= k < |w.tail| ==>
          BlockOk(w.tail[k], w.s.mem) && TailPlace(w.s.regions, w.tail[k]))
  }

  /** The live shared slices of region `depth`, newest first: what the intern chain must list. */
  ghost function SharedOf(front: seq<Block>, depth: nat, base: nat): seq<Interned>
  {
    if front == [] then []
    else
      var n := |front| - 1;
      var rest := SharedOf(front[..n], depth, base);
      var b := front[n];
      if b.depth == depth && b.owner.Shared? then
        [Interned(b.owner.element, b.owner.length, Less(b.at, base), Less(b.hi, base))] + rest
      else rest
  }

  ghost predicate InternOk(w: World)
  {
    forall i {:trigger w.s.regions[i]} :: 0 <= i < |w.s.regions| ==>
      w.s.regions[i].interned == SharedOf(w.front, i, w.s.regions[i].base)
  }

  ghost predicate IdentitiesOk(w: World)
  {
    var rs := w.s.regions;
    && (forall i {:trigger rs[i]} :: 0 <= i < |rs| && rs[i].identity != 0 ==>
          rs[i].identity < w.s.nextIdentity && rs[i].identity !in w.foreign)
    && (forall i, j {:trigger rs[i], rs[j]} :: 0 <= i < j < |rs| ==>
          rs[i].identity != rs[j].identity || rs[i].identity == 0)
    && (forall f {:trigger f in w.foreign} :: f in w.foreign ==> 0 < f < w.s.nextIdentity)
    && (forall h {:trigger h in w.handles} :: h in w.handles ==>
          0 < h.identity < w.s.nextIdentity && h.identity !in w.foreign)
    && 0 < w.s.nextIdentity
  }

  /** The block behind a handle of region i. */
  ghost predicate Behind(rs: seq<Region>, i: nat, h: Handle, value: seq<byte>, b: Block)
    requires i < |rs|
  {
    b.owner == Held && b.depth == i && b.at == rs[i].base + h.offset && b.data == value && |value| == h.size
  }

  /** The live blocks among which a handle of region i finds its own. */
  ghost function Durables(w: World, i: nat): seq<Block> { if i == 0 then w.tail else w.front }

  ghost predicate Backed(w: World, i: nat, h: Handle, value: seq<byte>)
    requires i < |w.s.regions|
  {
    exists k :: 0 <= k < |Durables(w, i)| && Behind(w.s.regions, i, h, value, Durables(w, i)[k])
  }

  ghost predicate HandlesOk(w: World)
  {
    forall h, i {:trigger h in w.handles, w.s.regions[i]} ::
      h in w.handles && 0 <= i < |w.s.regions| && w.s.regions[i].identity == h.identity ==>
        Backed(w, i, h, w.handles[h])
  }

  ghost predicate Inv(w: World)
  {
    && Shape(w.s.regions, |w.s.mem|)
    && FrontOk(w) && TailOk(w) && InternOk(w) && IdentitiesOk(w) && HandlesOk(w)
  }

  // ---------------------------------------------------------------- parts of the invariant

  lemma InvRegion(w: World, i: nat)
    requires Inv(w) && i < |w.s.regions|
    ensures var (rs, r) := (w.s.regions, w.s.regions[i]);
      && r.base + r.offset == Frontier(rs) <= rs[0].tail <= |w.s.mem|
      && r.retained <= r.offset && r.active == (i < Top(rs)) && (i == 0 ==> r.base == 0 && r.retained == 0)
  {
  }

  lemma InvChained(w: World)
    requires Inv(w)
    ensures w.s.regions != [] && Shape(w.s.regions, |w.s.mem|) && Chained(w.s.regions)
  {
    ShapeChained(w.s.regions, |w.s.mem|);
  }

  lemma InvAscending(w: World)
    requires Inv(w)
    ensures Ascending(w.front) && w.s.regions != []
  {
  }

  lemma InvChain(w: World, i: nat)
    requires Inv(w) && i < |w.s.regions|
    ensures w.s.regions[i].interned == SharedOf(w.front, i, w.s.regions[i].base)
  {
  }

  lemma InvPlace(w: World, k: nat)
    requires Inv(w) && k < |w.front|
    ensures BlockOk(w.front[k], w.s.mem) && FrontPlace(w.s.regions, w.front[k]) && w.front[k].depth < |w.s.regions|
  {
  }

  // ---------------------------------------------------------------- region arithmetic

  lemma {:induction false} LimitIsTail(rs: seq<Region>, size: nat, d: nat)
    requires Shape(rs, size) && d < |rs|
    ensures AllocationLimit(rs, d) == rs[0].tail - rs[d].base
  {
    if d > 0 {
      LimitIsTail(rs, size, d - 1);
      assert Nested(rs, d);
      assert rs[d].base + rs[d].offset == Frontier(rs);
    }
  }

  ghost predicate Chained(rs: seq<Region>)
  {
    forall i {:trigger rs[i]} :: 0 < i < |rs| ==> rs[i].base == rs[i - 1].base + rs[i].start
  }

  ghost function Moved(r: Region, frontier: nat): Region
  {
    r.(offset := Less(frontier, r.base))
  }

  lemma ChainedUpdate(rs: seq<Region>, d: nat, r: Region)
    requires d < |rs| && Chained(rs) && r.base == rs[d].base && r.start == rs[d].start
    ensures Chained(rs[d := r])
  {
  }

  /** Publishing from region d moves the frontier of regions 0..d to one absolute position. */
  lemma {:induction false} PublishAt(rs: seq<Region>, d: nat, offset: nat, i: nat)
    requires d < |rs| && i < |rs| && Chained(rs)
    ensures SetFrontier(rs, d, offset)[i] == if i <= d then Moved(rs[i], rs[d].base + offset) else rs[i]
    decreases d
  {
    var top := rs[d].(offset := offset);
    assert top == Moved(rs[d], rs[d].base + offset);
    if d > 0 {
      ChainedUpdate(rs, d, top);
      assert rs[d].base == rs[d - 1].base + rs[d].start;
      hide Chained, Moved;
      PublishAt(rs[d := top], d - 1, rs[d].start + offset, i);
    }
  }

  lemma PublishFrontier(rs: seq<Region>, d: nat, offset: nat)
    requires d < |rs| && Chained(rs)
    ensures forall i {:trigger SetFrontier(rs, d, offset)[i]} :: 0 <= i < |rs| ==>
      SetFrontier(rs, d, offset)[i] == if i <= d then Moved(rs[i], rs[d].base + offset) else rs[i]
  {
    forall i | 0 <= i < |rs|
      ensures SetFrontier(rs, d, offset)[i] == if i <= d then Moved(rs[i], rs[d].base + offset) else rs[i]
    {
      PublishAt(rs, d, offset, i);
    }
  }

  lemma {:induction false} BasesAscend(rs: seq<Region>, size: nat, i: nat, j: nat)
    requires Shape(rs, size) && i <= j < |rs|
    ensures rs[i].base <= rs[j].base
    ensures i < j ==> rs[i].base + rs[i + 1].resume <= rs[j].base
    decreases j - i
  {
    if i < j {
      assert Nested(rs, i + 1);
      BasesAscend(rs, size, i + 1, j);
    }
  }

  lemma CeilingBelow(rs: seq<Region>, size: nat, i: nat)
    requires Shape(rs, size) && i < |rs|
    ensures rs[i].base + rs[i].retained <= Ceiling(rs, i) <= Frontier(rs)
    ensures i < Top(rs) ==> Ceiling(rs, i) <= rs[Top(rs)].base
  {
    assert rs[i].base + rs[i].offset == Frontier(rs);
    if i < Top(rs) {
      assert Nested(rs, i + 1);
      BasesAscend(rs, size, i, Top(rs));
    }
  }

  /** All regions of rs at a new common frontier, the top one also with new pins and chain. */
  ghost predicate Refronted(rs: seq<Region>, ts: seq<Region>, frontier: nat)
  {
    && rs != [] && |ts| == |rs|
    && (forall i {:trigger ts[i]} :: 0 <= i < Top(rs) ==> ts[i] == Moved(rs[i], frontier))
    && var (r, t) := (rs[Top(rs)], ts[Top(rs)]);
       t == Moved(r, frontier).(retained := t.retained, interned := t.interned)
  }

  lemma RefrontedAt(rs: seq<Region>, ts: seq<Region>, size: nat, frontier: nat, i: nat)
    requires Shape(rs, size) && Refronted(rs, ts, frontier) && i < |rs|
    requires rs[Top(rs)].base + ts[Top(rs)].retained <= frontier <= rs[0].tail
    ensures ts[i].base == rs[i].base && ts[i].identity == rs[i].identity && ts[i].resume == rs[i].resume
    ensures ts[i].base + ts[i].offset == frontier && ts[i].retained <= ts[i].offset
    ensures ts[i].base % ARENA_ALIGN == 0 && ts[i].active == (i < Top(rs))
    ensures ts[i].tail == rs[i].tail && ts[i].capacity == rs[i].capacity && ts[i].start == rs[i].start
    ensures i < Top(rs) ==> ts[i].retained == rs[i].retained
  {
    BasesAscend(rs, size, i, Top(rs));
    if i < Top(rs) {
      assert ts[i] == Moved(rs[i], frontier);
      assert Nested(rs, i + 1);
    }
  }

  lemma RefrontedShape(rs: seq<Region>, ts: seq<Region>, size: nat, frontier: nat)
    requires Shape(rs, size) && Refronted(rs, ts, frontier)
    requires rs[Top(rs)].base + ts[Top(rs)].retained <= frontier <= rs[0].tail
    requires |rs| == 1 ==> ts[0].retained == 0
    ensures Shape(ts, size) && Frontier(ts) == frontier
    ensures forall i :: 0 <= i < Top(rs) ==> Ceiling(ts, i) == Ceiling(rs, i)
  {
    assert |ts| == |rs|;
    hide Moved, Refronted;
    RefrontedAt(rs, ts, size, frontier, 0);
    RefrontedAt(rs, ts, size, frontier, Top(rs));
    forall i | 0 <= i < |rs|
      ensures ts[i].base % ARENA_ALIGN == 0
      ensures ts[i].base + ts[i].offset == frontier && ts[i].retained <= ts[i].offset
      ensures ts[i].active == (i < Top(rs))
    {
      RefrontedAt(rs, ts, size, frontier, i);
    }
    forall i | 0 < i < |rs| ensures Nested(ts, i) {
      assert Nested(rs, i);
      RefrontedAt(rs, ts, size, frontier, i - 1);
      RefrontedAt(rs, ts, size, frontier, i);
    }
    forall i | 0 <= i < Top(rs) ensures Ceiling(ts, i) == Ceiling(rs, i) {
      RefrontedAt(rs, ts, size, frontier, i);
      RefrontedAt(rs, ts, size, frontier, i + 1);
    }
  }

  // ---------------------------------------------------------------- blocks

  /** Two memories that agree outside [lo, hi). */
  ghost predicate SameOutside(mem: seq<byte>, new_: seq<byte>, lo: nat, hi: nat)
  {
    |new_| == |mem| && forall i {:trigger new_[i]} :: 0 <= i < |mem| && !(lo <= i < hi) ==> new_[i] == mem[i]
  }

  lemma BlockKept(b: Block, mem: seq<byte>, new_: seq<byte>, lo: nat, hi: nat)
    requires BlockOk(b, mem) && SameOutside(mem, new_, lo, hi)
    requires b.hi <= lo || hi <= b.lo
    ensures BlockOk(b, new_)
  {
    assert new_[b.at..b.at + |b.data|] == mem[b.at..b.at + |b.data|];
  }

  lemma StoreAt(mem: seq<byte>, at: nat, data: seq<byte>)
    requires at + |data| <= |mem|
    ensures SameOutside(mem, Store(mem, at, data), at, at + |data|)
    ensures Store(mem, at, data)[at..at + |data|] == data
  {
  }

  /** The regions after pushing a block of the top region above the frontier. */
  ghost predicate PushRegions(rs: seq<Region>, ts: seq<Region>, b: Block)
  {
    && Refronted(rs, ts, b.hi)
    && var d := Top(rs);
       && b.depth == d && Frontier(rs) <= b.lo <= b.hi <= rs[0].tail
       && rs[d].retained <= ts[d].retained && rs[d].base + ts[d].retained <= b.hi
       && (d == 0 ==> ts[0].retained == 0)
       && (Pinned(b.owner) ==> d > 0 && rs[d].base + ts[d].retained == b.hi)
  }

  ghost predicate PushMemory(mem: seq<byte>, new_: seq<byte>, b: Block)
  {
    && BlockOk(b, new_) && SameOutside(mem, new_, b.lo, b.hi)
    && (b.owner.Shared? ==> |b.data| == ByteCount(b.owner.element, b.owner.length) && b.lo < b.hi)
  }

  ghost predicate Pushes(w: World, v: World, b: Block)
    requires w.s.regions != []
  {
    var rs, ts := w.s.regions, v.s.regions;
    && PushRegions(rs, ts, b) && PushMemory(w.s.mem, v.s.mem, b)
    && ts[Top(rs)].interned == SharedOf(w.front + [b], Top(rs), rs[Top(rs)].base)
    && v.front == w.front + [b] && v.tail == w.tail
    && v.foreign == w.foreign && v.s.nextIdentity == w.s.nextIdentity
  }

  lemma PushFrontAt(w: World, v: World, b: Block, k: nat)
    requires Inv(w) && Pushes(w, v, b) && k < |w.front|
    ensures BlockOk(w.front[k], v.s.mem) && FrontPlace(v.s.regions, w.front[k])
    ensures w.front[k].hi <= b.lo && w.front[k].depth <= b.depth
  {
    var rs, ts, c := w.s.regions, v.s.regions, w.front[k];
    CeilingBelow(rs, |w.s.mem|, c.depth);
    BlockKept(c, w.s.mem, v.s.mem, b.lo, b.hi);
    RefrontedShape(rs, ts, |w.s.mem|, b.hi);
    RefrontedAt(rs, ts, |w.s.mem|, b.hi, c.depth);
  }

  lemma AscendingPush(front: seq<Block>, b: Block)
    requires Ascending(front) && b.lo <= b.hi
    requires forall k {:trigger front[k]} :: 0 <= k < |front| ==> front[k].hi <= b.lo && front[k].depth <= b.depth
    ensures Ascending(front + [b])
  {
  }

  lemma PushTopPlace(w: World, v: World, b: Block)
    requires Inv(w) && Pushes(w, v, b)
    ensures Shape(v.s.regions, |v.s.mem|) && FrontPlace(v.s.regions, b)
  {
    var rs, ts := w.s.regions, v.s.regions;
    RefrontedShape(rs, ts, |w.s.mem|, b.hi);
    RefrontedAt(rs, ts, |w.s.mem|, b.hi, b.depth);
  }

  lemma PushFrontOk(w: World, v: World, b: Block)
    requires Inv(w) && Pushes(w, v, b)
    ensures Shape(v.s.regions, |v.s.mem|) && FrontOk(v)
  {
    hide Shape, Refronted, BlockOk, FrontPlace;
    PushTopPlace(w, v, b);
    forall k | 0 <= k < |w.front|
      ensures BlockOk(w.front[k], v.s.mem) && FrontPlace(v.s.regions, w.front[k])
      ensures w.front[k].hi <= b.lo && w.front[k].depth <= b.depth
    {
      PushFrontAt(w, v, b, k);
    }
    AscendingPush(w.front, b);
  }

  lemma PushTailOk(w: World, v: World, b: Block)
    requires Inv(w) && Pushes(w, v, b)
    ensures TailOk(v)
  {
    forall k | 0 <= k < |w.tail| ensures BlockOk(v.tail[k], v.s.mem) && TailPlace(v.s.regions, v.tail[k]) {
      BlockKept(w.tail[k], w.s.mem, v.s.mem, b.lo, b.hi);
    }
  }

  lemma SharedOfPush(front: seq<Block>, b: Block, depth: nat, base: nat)
    requires b.depth != depth || !b.owner.Shared?
    ensures SharedOf(front + [b], depth, base) == SharedOf(front, depth, base)
  {
    assert (front + [b])[..|front|] == front;
  }

  lemma PushInternOk(w: World, v: World, b: Block)
    requires Inv(w) && Pushes(w, v, b)
    ensures InternOk(v)
  {
    var rs, ts := w.s.regions, v.s.regions;
    assert |ts| == |rs|;
    forall i | 0 <= i < |ts| ensures ts[i].interned == SharedOf(v.front, i, ts[i].base) {
      PushInternAt(w, v, b, i);
    }
    hide Inv, Pushes;
  }

  lemma PushInternAt(w: World, v: World, b: Block, i: nat)
    requires Inv(w) && Pushes(w, v, b) && i < |v.s.regions|
    ensures v.s.regions[i].interned == SharedOf(v.front, i, v.s.regions[i].base)
  {
    hide Inv, PushMemory, SharedOf;
    var rs := w.s.regions;
    InvChain(w, i);
    if i < Top(rs) {
      SharedOfPush(w.front, b, i, rs[i].base);
    }
  }

  /** Handles are unchanged, or the block is behind one new handle of the top region. */
  ghost predicate Issues(w: World, v: World, b: Block)
    requires Inv(w)
  {
    var rs, d := w.s.regions, Top(w.s.regions);
    || v.handles == w.handles
    || exists h, value ::
         v.handles == w.handles[h := value] && h.identity == rs[d].identity != 0 && Behind(rs, d, h, value, b)
  }

  /** A handle stays backed when the durable blocks stay where they are. */
  lemma OldHandle(w: World, v: World, h: Handle, i: nat, value: seq<byte>)
    requires i < |w.s.regions| && i < |v.s.regions| && v.s.regions[i].base == w.s.regions[i].base
    requires Backed(w, i, h, value) && Durables(w, i) <= Durables(v, i)
    ensures Backed(v, i, h, value)
  {
    var k :| 0 <= k < |Durables(w, i)| && Behind(w.s.regions, i, h, value, Durables(w, i)[k]);
    assert Behind(v.s.regions, i, h, value, Durables(v, i)[k]);
  }

  lemma NewHandle(w: World, i: nat, h: Handle, value: seq<byte>, k: nat)
    requires i < |w.s.regions| && k < |Durables(w, i)| && Behind(w.s.regions, i, h, value, Durables(w, i)[k])
    ensures Backed(w, i, h, value)
  {
  }

  lemma OneRegion(w: World, i: nat, j: nat)
    requires IdentitiesOk(w) && i < |w.s.regions| && j < |w.s.regions|
    requires w.s.regions[i].identity == w.s.regions[j].identity != 0
    ensures i == j
  {
  }

  lemma PushHandleAt(w: World, v: World, b: Block, h: Handle, i: nat)
    requires Inv(w) && Pushes(w, v, b) && Issues(w, v, b)
    requires h in v.handles && i < |v.s.regions| && v.s.regions[i].identity == h.identity
    ensures Backed(v, i, h, v.handles[h])
  {
    var rs, ts, d := w.s.regions, v.s.regions, Top(w.s.regions);
    RefrontedAt(rs, ts, |w.s.mem|, b.hi, i);
    RefrontedAt(rs, ts, |w.s.mem|, b.hi, d);
    assert h in w.handles ==> Backed(w, i, h, w.handles[h]);
    hide Shape, FrontOk, TailOk, InternOk, IdentitiesOk, HandlesOk, PushRegions, PushMemory, SharedOf, Backed;
    if h in w.handles && v.handles[h] == w.handles[h] {
      OldHandle(w, v, h, i, w.handles[h]);
    } else {
      var g, value :| v.handles == w.handles[g := value] && g.identity == rs[d].identity != 0
        && Behind(rs, d, g, value, b);
      assert h == g;
      OneRegion(w, i, d);
      NewHandle(v, i, h, value, |w.front|);
    }
  }

  lemma PushHandlesOk(w: World, v: World, b: Block)
    requires Inv(w) && Pushes(w, v, b) && Issues(w, v, b)
    ensures HandlesOk(v)
  {
    forall h, i | h in v.handles && 0 <= i < |v.s.regions| && v.s.regions[i].identity == h.identity
      ensures Backed(v, i, h, v.handles[h])
    {
      PushHandleAt(w, v, b, h, i);
    }
  }

  lemma SameIdentities(w: World, v: World)
    requires IdentitiesOk(w) && |v.s.regions| <= |w.s.regions|
    requires forall i {:trigger v.s.regions[i]} :: 0 <= i < |v.s.regions| ==>
      v.s.regions[i].identity == w.s.regions[i].identity
    requires v.foreign == w.foreign && v.s.nextIdentity == w.s.nextIdentity
    requires forall h :: h in v.handles ==>
      h in w.handles || exists i :: 0 <= i < |w.s.regions| && h.identity == w.s.regions[i].identity != 0
    ensures IdentitiesOk(v)
  {
    var rs := v.s.regions;
    forall i, j | 0 <= i < j < |rs| ensures rs[i].identity != rs[j].identity || rs[i].identity == 0 {
      assert rs[i].identity == w.s.regions[i].identity && rs[j].identity == w.s.regions[j].identity;
    }
  }

  lemma PushIdentitiesOk(w: World, v: World, b: Block)
    requires Inv(w) && Pushes(w, v, b) && Issues(w, v, b)
    ensures IdentitiesOk(v)
  {
    var rs, ts := w.s.regions, v.s.regions;
    forall i | 0 <= i < |ts| ensures ts[i].identity == rs[i].identity {
      RefrontedAt(rs, ts, |w.s.mem|, b.hi, i);
    }
    hide Shape, Refronted, HandlesOk, FrontOk, TailOk, InternOk, IdentitiesOk;
    SameIdentities(w, v);
  }

  lemma PushKeeps(w: World, v: World, b: Block)
    requires Inv(w) && Pushes(w, v, b) && Issues(w, v, b)
    ensures Inv(v)
  {
    PushFrontOk(w, v, b);
    PushTailOk(w, v, b);
    PushInternOk(w, v, b);
    PushIdentitiesOk(w, v, b);
    PushHandlesOk(w, v, b);
  }

  // ---------------------------------------------------------------- steps

  lemma ShapeChained(rs: seq<Region>, mem: nat)
    requires Shape(rs, mem)
    ensures Chained(rs)
  {
    forall i | 0 < i < |rs| ensures rs[i].base == rs[i - 1].base + rs[i].start {
      assert Nested(rs, i);
    }
  }

  lemma PublishTop(rs: seq<Region>, mem: nat, offset: nat)
    requires Shape(rs, mem)
    ensures Refronted(rs, SetFrontier(rs, Top(rs), offset), rs[Top(rs)].base + offset)
    ensures SetFrontier(rs, Top(rs), offset)[Top(rs)] == Moved(rs[Top(rs)], rs[Top(rs)].base + offset)
  {
    ShapeChained(rs, mem);
    hide Shape, SetFrontier, Moved;
    PublishFrontier(rs, Top(rs), offset);
    var t, m := SetFrontier(rs, Top(rs), offset)[Top(rs)], Moved(rs[Top(rs)], rs[Top(rs)].base + offset);
    assert m == m.(retained := t.retained, interned := t.interned);
  }

  /** A front allocation succeeds exactly in the top region when the aligned block fits below the
      owner's tail; it then starts at or above every live front block. */
  lemma AllocRawTop(rs: seq<Region>, mem: nat, d: nat, size: nat, align: nat)
    requires Shape(rs, mem) && d < |rs| && ValidAlign(align)
    ensures var at := AllocRaw(rs, d, size, align).0;
      && (at.Ok? <==> d == Top(rs) && AlignUp(rs[d].offset, align) + size <= rs[0].tail - rs[d].base)
      && (at.Ok? ==> Frontier(rs) <= at.value && at.value % align == 0 && at.value + size <= rs[0].tail)
  {
    LimitIsTail(rs, mem, d);
    assert rs[d].active == (d < Top(rs));
    AlignedSum(rs[d].base, AlignUp(rs[d].offset, align), align);
    hide SetFrontier, AllocationLimit;
  }

  lemma AllocRawRegions(rs: seq<Region>, mem: nat, d: nat, size: nat, align: nat)
    requires Shape(rs, mem) && d < |rs| && ValidAlign(align) && AllocRaw(rs, d, size, align).0.Ok?
    ensures var (at, ts) := AllocRaw(rs, d, size, align);
      Refronted(rs, ts, at.value + size) && ts[d] == Moved(rs[d], at.value + size)
  {
    AllocRawTop(rs, mem, d, size, align);
    PublishTop(rs, mem, AlignUp(rs[d].offset, align) + size);
  }

  lemma AlignedSum(base: nat, start: nat, align: nat)
    requires ValidAlign(align) && base % ARENA_ALIGN == 0 && start % align == 0
    ensures (base + start) % align == 0
  {
    CoarserAlign(base, ARENA_ALIGN, align);
    SumAlign(base, start, align);
  }

  lemma HalfAlign(x: nat, align: nat)
    requires ValidAlign(align) && align > 1 && x % align == 0
    ensures x % (align / 2) == 0
  {
    if align == 4 {
      assert x == 2 * (2 * (x / 4));
    } else if align == 8 {
      assert x == 4 * (2 * (x / 8));
    } else if align == 16 {
      assert x == 8 * (2 * (x / 16));
    }
  }

  lemma {:induction false} CoarserAlign(x: nat, coarse: nat, fine: nat)
    requires ValidAlign(coarse) && ValidAlign(fine) && fine <= coarse && x % coarse == 0
    ensures x % fine == 0
  {
    if fine < coarse {
      HalfAlign(x, coarse);
      CoarserAlign(x, coarse / 2, fine);
    }
  }

  lemma SumAlign(x: nat, y: nat, align: nat)
    requires ValidAlign(align) && x % align == 0 && y % align == 0
    ensures (x + y) % align == 0
  {
    if align == 1 {
    } else if align == 2 {
      assert (x + y) % 2 == 0;
    } else if align == 4 {
      assert (x + y) % 4 == 0;
    } else if align == 8 {
      assert (x + y) % 8 == 0;
    } else {
      assert align == 16;
      assert (x + y) % 16 == 0;
    }
  }

  /** The block that `alloc_raw` of `size` bytes makes in region d when it can, with its contents
      `skip` bytes in. */
  ghost function NewBlock(rs: seq<Region>, d: nat, size: nat, align: nat, skip: nat, unit: nat,
                          data: seq<byte>, owner: Owner): Block
    requires d < |rs| && ValidAlign(align) && AllocRaw(rs, d, size, align).0.Ok?
  {
    var lo := AllocRaw(rs, d, size, align).0.value;
    Block(d, lo, lo + size, lo + skip, unit, data, owner)
  }

  /** Region d after it pushed block b: pinned up to the frontier, and chained if shared. */
  ghost function Pushed(r: Region, b: Block, pin: bool): Region
  {
    r.(retained := if pin then r.offset else r.retained,
       interned := if b.owner.Shared? then
         [Interned(b.owner.element, b.owner.length, Less(b.at, r.base), r.offset)] + r.interned
       else r.interned)
  }

  /** The world after pushing a front block in region d. */
  ghost predicate FrontPush(w: World, v: World, d: nat, size: nat, align: nat, b: Block, pin: bool)
  {
    && d < |w.s.regions| && ValidAlign(align)
    && var (at, ts) := AllocRaw(w.s.regions, d, size, align);
       && at.Ok? && b.lo == at.value && b.hi == b.lo + size && b.depth == d
       && v.s.regions == ts[d := Pushed(ts[d], b, pin)]
       && v.s.mem == Store(w.s.mem, b.at, b.data)
       && v.front == w.front + [b] && v.tail == w.tail
       && v.foreign == w.foreign && v.s.nextIdentity == w.s.nextIdentity
  }

  /** What the caller of a push sees to: the contents fit and are aligned, and only children pin. */
  ghost predicate Fits(b: Block, d: nat, pin: bool)
  {
    && b.lo <= b.at && b.at + |b.data| <= b.hi && ValidAlign(b.align) && b.at % b.align == 0
    && (pin ==> d > 0) && (Pinned(b.owner) ==> pin)
    && (b.owner.Shared? ==> |b.data| == ByteCount(b.owner.element, b.owner.length) && b.lo < b.hi)
  }

  lemma PushedRegions(rs: seq<Region>, ts: seq<Region>, d: nat, b: Block, pin: bool)
    requires Refronted(rs, ts, b.hi) && d == Top(rs) && ts[d] == Moved(rs[d], b.hi) && b.depth == d
    requires Frontier(rs) <= b.lo <= b.hi <= rs[0].tail && rs[d].retained <= rs[d].offset
    requires d == 0 ==> !pin && rs[0].retained == 0
    requires Pinned(b.owner) ==> pin
    ensures PushRegions(rs, ts[d := Pushed(ts[d], b, pin)], b)
  {
  }

  lemma FrontPushRegions(w: World, v: World, d: nat, size: nat, align: nat, b: Block, pin: bool)
    requires Inv(w) && FrontPush(w, v, d, size, align, b, pin) && Fits(b, d, pin)
    ensures PushRegions(w.s.regions, v.s.regions, b) && d == Top(w.s.regions)
    ensures v.s.regions[d] == Pushed(Moved(w.s.regions[d], b.hi), b, pin)
  {
    var rs := w.s.regions;
    AllocRawTop(rs, |w.s.mem|, d, size, align);
    AllocRawRegions(rs, |w.s.mem|, d, size, align);
    assert rs[d].retained <= rs[d].offset;
    assert d == 0 ==> rs[0].retained == 0;
    hide Inv, AllocRaw, Refronted, PushRegions, Frontier, Pushed, Moved;
    PushedRegions(rs, AllocRaw(rs, d, size, align).1, d, b, pin);
  }

  lemma SharedPush(front: seq<Block>, b: Block, base: nat)
    requires b.owner.Shared?
    ensures SharedOf(front + [b], b.depth, base)
         == [Interned(b.owner.element, b.owner.length, Less(b.at, base), Less(b.hi, base))]
            + SharedOf(front, b.depth, base)
  {
    assert (front + [b])[..|front|] == front;
  }

  lemma FrontPushChain(w: World, v: World, d: nat, size: nat, align: nat, b: Block, pin: bool)
    requires Inv(w) && FrontPush(w, v, d, size, align, b, pin) && Fits(b, d, pin)
    ensures v.s.regions[d].interned == SharedOf(w.front + [b], d, w.s.regions[d].base)
  {
    var r := w.s.regions[d];
    FrontPushRegions(w, v, d, size, align, b, pin);
    assert r.interned == SharedOf(w.front, d, r.base);
    assert r.base <= b.hi by { assert r.base + r.offset == Frontier(w.s.regions); }
    hide Inv, FrontPush, PushRegions, SharedOf;
    if b.owner.Shared? {
      SharedPush(w.front, b, r.base);
    } else {
      SharedOfPush(w.front, b, d, r.base);
    }
  }

  lemma FrontPushMemory(w: World, v: World, d: nat, size: nat, align: nat, b: Block, pin: bool)
    requires Inv(w) && FrontPush(w, v, d, size, align, b, pin) && Fits(b, d, pin)
    ensures PushMemory(w.s.mem, v.s.mem, b)
  {
    AllocRawTop(w.s.regions, |w.s.mem|, d, size, align);
    assert w.s.regions[0].tail <= |w.s.mem|;
    hide Inv, AllocRaw;
    StoreAt(w.s.mem, b.at, b.data);
  }

  lemma FrontPushKeeps(w: World, v: World, d: nat, size: nat, align: nat, b: Block, pin: bool)
    requires Inv(w) && FrontPush(w, v, d, size, align, b, pin) && Fits(b, d, pin) && Issues(w, v, b)
    ensures Inv(v)
  {
    assert w.s.regions != [];
    hide Inv, PushRegions, PushMemory, SharedOf, AllocRaw, Issues, Fits;
    FrontPushRegions(w, v, d, size, align, b, pin);
    FrontPushChain(w, v, d, size, align, b, pin);
    FrontPushMemory(w, v, d, size, align, b, pin);
    assert Pushes(w, v, b);
    PushKeeps(w, v, b);
  }

  // ---------------------------------------------------------------- front steps

  ghost function DoAlloc(w: World, d: nat, align: nat, data: seq<byte>): World
    requires d < |w.s.regions| && ValidAlign(align)
  {
    var (at, s) := Alloc(w.s, d, align, data);
    if at.ArenaFull? then w
    else w.(s := s, front := w.front + [NewBlock(w.s.regions, d, |data|, align, 0, align, data, Borrowed)])
  }

  lemma AllocKeeps(w: World, d: nat, align: nat, data: seq<byte>)
    requires Inv(w) && d < |w.s.regions| && ValidAlign(align)
    ensures Inv(DoAlloc(w, d, align, data))
  {
    var (at, ts) := AllocRaw(w.s.regions, d, |data|, align);
    if at.Ok? {
      AllocRawTop(w.s.regions, |w.s.mem|, d, |data|, align);
      var b := NewBlock(w.s.regions, d, |data|, align, 0, align, data, Borrowed);
      hide Inv, AllocRaw;
      assert ts[d := Pushed(ts[d], b, false)] == ts;
      FrontPushKeeps(w, DoAlloc(w, d, align, data), d, |data|, align, b, false);
    }
  }

  ghost function DoIntern(w: World, d: nat, header: Element, element: Element, length: nat, data: seq<byte>): World
    requires d < |w.s.regions| && ValidAlign(header.align) && ValidAlign(element.align)
  {
    var r := w.s.regions[d];
    var (at, s) := AllocInterned(w.s, d, header, element, length, data);
    var (skip, size, align) := InternLayout(header, element, length);
    if length == 0 || FindInterned(w.s.mem, r.base, r.interned, element, length, data).Some? then w
    else if AllocRaw(w.s.regions, d, size, align).0.ArenaFull? then w
    else w.(s := s, front := w.front +
      [NewBlock(w.s.regions, d, size, align, skip, element.align, data, Shared(element, length))])
  }

  ghost predicate Misses(w: World, d: nat, element: Element, length: nat, data: seq<byte>)
    requires d < |w.s.regions|
  {
    var r := w.s.regions[d];
    length != 0 && FindInterned(w.s.mem, r.base, r.interned, element, length, data).None?
  }

  ghost function InternBlock(w: World, d: nat, header: Element, element: Element, length: nat, data: seq<byte>): Block
    requires d < |w.s.regions| && ValidAlign(header.align) && ValidAlign(element.align)
    requires var (_, size, align) := InternLayout(header, element, length); AllocRaw(w.s.regions, d, size, align).0.Ok?
  {
    var (skip, size, align) := InternLayout(header, element, length);
    NewBlock(w.s.regions, d, size, align, skip, element.align, data, Shared(element, length))
  }

  lemma InternFits(w: World, d: nat, header: Element, element: Element, length: nat, data: seq<byte>)
    requires Inv(w) && d < |w.s.regions| && ValidAlign(header.align) && ValidAlign(element.align)
    requires header.size > 0 && |data| == ByteCount(element, length)
    requires var (_, size, align) := InternLayout(header, element, length); AllocRaw(w.s.regions, d, size, align).0.Ok?
    ensures Fits(InternBlock(w, d, header, element, length, data), d, false)
  {
    var (skip, size, align) := InternLayout(header, element, length);
    AllocRawTop(w.s.regions, |w.s.mem|, d, size, align);
    hide Inv, AllocRaw;
    InternAlignment(InternBlock(w, d, header, element, length, data).lo, skip, header, element);
  }

  lemma InternRegions(w: World, d: nat, header: Element, element: Element, length: nat, data: seq<byte>)
    requires d < |w.s.regions| && ValidAlign(header.align) && ValidAlign(element.align)
    requires var (_, size, align) := InternLayout(header, element, length); AllocRaw(w.s.regions, d, size, align).0.Ok?
    requires Misses(w, d, element, length, data)
    ensures var (skip, size, align) := InternLayout(header, element, length);
      var (at, ts) := AllocRaw(w.s.regions, d, size, align);
      AllocInterned(w.s, d, header, element, length, data).1 ==
        w.s.(regions := ts[d := ts[d].(interned :=
               [Interned(element, length, Less(at.value + skip, w.s.regions[d].base), ts[d].offset)] + ts[d].interned)],
             mem := Store(w.s.mem, at.value + skip, data))
  {
    hide AllocRaw, InternLayout, FindInterned, Store;
  }

  lemma InternPush(w: World, d: nat, header: Element, element: Element, length: nat, data: seq<byte>)
    requires Inv(w) && d < |w.s.regions| && ValidAlign(header.align) && ValidAlign(element.align)
    requires var (_, size, align) := InternLayout(header, element, length); AllocRaw(w.s.regions, d, size, align).0.Ok?
    requires Misses(w, d, element, length, data)
    ensures var (_, size, align) := InternLayout(header, element, length);
      FrontPush(w, DoIntern(w, d, header, element, length, data), d, size, align,
                InternBlock(w, d, header, element, length, data), false)
  {
    hide Inv, Shape, Chained, AllocRaw, InternLayout, FindInterned, Store, AllocInterned, Refronted;
    var (skip, size, align) := InternLayout(header, element, length);
    InvChained(w);
    AllocRawRegions(w.s.regions, |w.s.mem|, d, size, align);
    InternRegions(w, d, header, element, length, data);
    var b := InternBlock(w, d, header, element, length, data);
    var r := AllocRaw(w.s.regions, d, size, align).1[d];
    assert Pushed(r, b, false)
      == r.(interned := [Interned(element, length, Less(b.at, r.base), r.offset)] + r.interned);
  }

  lemma InternKeeps(w: World, d: nat, header: Element, element: Element, length: nat, data: seq<byte>)
    requires Inv(w) && d < |w.s.regions| && ValidAlign(header.align) && ValidAlign(element.align)
    requires header.size > 0 && |data| == ByteCount(element, length)
    ensures Inv(DoIntern(w, d, header, element, length, data))
  {
    hide Inv, AllocRaw, InternLayout, FindInterned, Store, AllocInterned, FrontPush, Fits;
    var (_, size, align) := InternLayout(header, element, length);
    if Misses(w, d, element, length, data) && AllocRaw(w.s.regions, d, size, align).0.Ok? {
      InternPush(w, d, header, element, length, data);
      InternFits(w, d, header, element, length, data);
      FrontPushKeeps(w, DoIntern(w, d, header, element, length, data), d, size, align,
                     InternBlock(w, d, header, element, length, data), false);
    }
  }

  lemma InternAlignment(lo: nat, skip: nat, header: Element, element: Element)
    requires ValidAlign(header.align) && ValidAlign(element.align)
    requires lo % Max(header.align, element.align) == 0 && skip % element.align == 0
    ensures (lo + skip) % element.align == 0
  {
    CoarserAlign(lo, Max(header.align, element.align), element.align);
    SumAlign(lo, skip, element.align);
  }

  // ---------------------------------------------------------------- durable steps

  /** The owner's tail moving down to a new block. */
  ghost predicate TailPush(w: World, v: World, b: Block)
  {
    && w.s.regions != []
    && Frontier(w.s.regions) <= b.lo && b.hi <= w.s.regions[0].tail && b.depth == 0 && !b.owner.Shared?
    && BlockOk(b, v.s.mem) && SameOutside(w.s.mem, v.s.mem, b.lo, b.hi)
    && v.s.regions == w.s.regions[0 := w.s.regions[0].(tail := b.lo)]
    && v.tail == w.tail + [b] && v.front == w.front
    && v.foreign == w.foreign && v.s.nextIdentity == w.s.nextIdentity
  }

  lemma TailPushShape(w: World, v: World, b: Block)
    requires Inv(w) && TailPush(w, v, b)
    ensures Shape(v.s.regions, |v.s.mem|)
    ensures forall i :: 0 <= i < |w.s.regions| ==> Ceiling(v.s.regions, i) == Ceiling(w.s.regions, i)
  {
    var rs, ts := w.s.regions, v.s.regions;
    forall i | 0 < i < |rs| ensures Nested(ts, i) {
      assert Nested(rs, i);
    }
  }

  lemma TailPushFront(w: World, v: World, b: Block)
    requires Inv(w) && TailPush(w, v, b)
    ensures FrontOk(v)
  {
    TailPushShape(w, v, b);
    forall k | 0 <= k < |w.front| ensures BlockOk(v.front[k], v.s.mem) && FrontPlace(v.s.regions, v.front[k]) {
      CeilingBelow(w.s.regions, |w.s.mem|, w.front[k].depth);
      BlockKept(w.front[k], w.s.mem, v.s.mem, b.lo, b.hi);
    }
  }

  lemma TailPushTail(w: World, v: World, b: Block)
    requires Inv(w) && TailPush(w, v, b)
    ensures TailOk(v) && InternOk(v)
  {
    forall k | 0 <= k < |w.tail| ensures BlockOk(w.tail[k], v.s.mem) && TailPlace(v.s.regions, w.tail[k]) {
      BlockKept(w.tail[k], w.s.mem, v.s.mem, b.lo, b.hi);
    }
  }

  ghost predicate TailIssues(w: World, v: World, b: Block)
  {
    && w.s.regions != []
    && (|| v.handles == w.handles
        || exists h, value ::
             v.handles == w.handles[h := value] && h.identity == w.s.regions[0].identity != 0
             && Behind(w.s.regions, 0, h, value, b))
  }

  lemma TailPushHandle(w: World, v: World, b: Block, h: Handle, i: nat)
    requires Inv(w) && TailPush(w, v, b) && TailIssues(w, v, b)
    requires h in v.handles && i < |v.s.regions| && v.s.regions[i].identity == h.identity
    ensures Backed(v, i, h, v.handles[h])
  {
    var rs, ts := w.s.regions, v.s.regions;
    assert ts[i].base == rs[i].base && ts[i].identity == rs[i].identity && ts[0].base == rs[0].base;
    assert h in w.handles ==> Backed(w, i, h, w.handles[h]);
    hide Shape, FrontOk, TailOk, InternOk, IdentitiesOk, HandlesOk, BlockOk, SameOutside, Backed;
    if h in w.handles && v.handles[h] == w.handles[h] {
      OldHandle(w, v, h, i, w.handles[h]);
    } else {
      var g, value :| v.handles == w.handles[g := value] && g.identity == rs[0].identity != 0
        && Behind(rs, 0, g, value, b);
      assert h == g;
      OneRegion(w, i, 0);
      NewHandle(v, i, h, value, |w.tail|);
    }
  }

  lemma TailPushIdentities(w: World, v: World, b: Block)
    requires Inv(w) && TailPush(w, v, b) && TailIssues(w, v, b)
    ensures IdentitiesOk(v)
  {
    hide Shape, HandlesOk, FrontOk, TailOk, InternOk, IdentitiesOk;
    SameIdentities(w, v);
  }

  lemma TailPushKeeps(w: World, v: World, b: Block)
    requires Inv(w) && TailPush(w, v, b) && TailIssues(w, v, b)
    ensures Inv(v)
  {
    TailPushShape(w, v, b);
    TailPushFront(w, v, b);
    TailPushTail(w, v, b);
    TailPushIdentities(w, v, b);
    assert HandlesOk(v) by {
      forall h, i | h in v.handles && 0 <= i < |v.s.regions| && v.s.regions[i].identity == h.identity
        ensures Backed(v, i, h, v.handles[h])
      {
        TailPushHandle(w, v, b, h, i);
      }
    }
  }

  /** The block of a durable allocation that succeeded. */
  ghost function DurableBlock(w: World, d: nat, align: nat, data: seq<byte>, owner: Owner): Block
    requires d < |w.s.regions| && ValidAlign(align) && AllocRawTail(w.s.regions, d, |data|, align).0.Ok?
  {
    var at := AllocRawTail(w.s.regions, d, |data|, align).0.value;
    Block(d, at, at + |data|, at, align, data, owner)
  }

  /** The world with a durable block, `handles` being the handles known afterwards. */
  ghost function WithDurable(w: World, d: nat, align: nat, data: seq<byte>, owner: Owner,
                             handles: map<Handle, seq<byte>>): World
    requires d < |w.s.regions| && ValidAlign(align) && AllocRawTail(w.s.regions, d, |data|, align).0.Ok?
  {
    var s := AllocPersistent(w.s, d, align, data).1;
    var b := DurableBlock(w, d, align, data, owner);
    if d == 0 then w.(s := s, tail := w.tail + [b], handles := handles)
    else w.(s := s, front := w.front + [b], handles := handles)
  }

  ghost function DoAllocPersistent(w: World, d: nat, align: nat, data: seq<byte>): World
    requires d < |w.s.regions| && ValidAlign(align)
  {
    if AllocPersistent(w.s, d, align, data).0.ArenaFull? then w
    else WithDurable(w, d, align, data, Durable, w.handles)
  }

  ghost function DoRetain(w: World, d: nat, align: nat, value: seq<byte>): World
    requires d < |w.s.regions| && ValidAlign(align)
  {
    match Retain(w.s, d, align, value).0
    case ArenaFull(_, _, _) => w
    case Ok(h) => WithDurable(w, d, align, value, Held, w.handles[h := value])
  }

  lemma DurableChild(w: World, d: nat, align: nat, data: seq<byte>, owner: Owner, handles: map<Handle, seq<byte>>)
    requires Inv(w) && 0 < d < |w.s.regions| && ValidAlign(align) && !owner.Shared?
    requires AllocRawTail(w.s.regions, d, |data|, align).0.Ok?
    requires Issues(w, WithDurable(w, d, align, data, owner, handles), DurableBlock(w, d, align, data, owner))
    ensures Inv(WithDurable(w, d, align, data, owner, handles))
  {
    var b, v := DurableBlock(w, d, align, data, owner), WithDurable(w, d, align, data, owner, handles);
    AllocRawTop(w.s.regions, |w.s.mem|, d, |data|, align);
    hide Inv, AllocRaw, Issues, Store;
    assert FrontPush(w, v, d, |data|, align, b, true);
    FrontPushKeeps(w, v, d, |data|, align, b, true);
  }

  lemma DurableOwner(w: World, align: nat, data: seq<byte>, owner: Owner, handles: map<Handle, seq<byte>>)
    requires Inv(w) && ValidAlign(align) && !owner.Shared?
    requires AllocRawTail(w.s.regions, 0, |data|, align).0.Ok?
    requires TailIssues(w, WithDurable(w, 0, align, data, owner, handles), DurableBlock(w, 0, align, data, owner))
    ensures Inv(WithDurable(w, 0, align, data, owner, handles))
  {
    var b, v := DurableBlock(w, 0, align, data, owner), WithDurable(w, 0, align, data, owner, handles);
    assert w.s.regions[0].base == 0 && w.s.regions[0].tail <= |w.s.mem|;
    assert w.s.regions[0].offset == Frontier(w.s.regions);
    StoreAt(w.s.mem, b.at, data);
    hide Inv, TailIssues, Store, Frontier;
    assert TailPush(w, v, b);
    TailPushKeeps(w, v, b);
  }

  lemma AllocPersistentKeeps(w: World, d: nat, align: nat, data: seq<byte>)
    requires Inv(w) && d < |w.s.regions| && ValidAlign(align)
    ensures Inv(DoAllocPersistent(w, d, align, data))
  {
    hide Inv;
    if AllocPersistent(w.s, d, align, data).0.Ok? {
      if d == 0 {
        DurableOwner(w, align, data, Durable, w.handles);
      } else {
        DurableChild(w, d, align, data, Durable, w.handles);
      }
    }
  }
}
