/** Retained values, writes in place and rewinds keep the arena invariant. */
module ArenaSteps {
  import opened Options
  import opened Words
  import opened ArenaCore
  import opened ArenaInvariant

  // ---------------------------------------------------------------- retained values

  lemma RetainKeeps(w: World, d: nat, align: nat, value: seq<byte>)
    requires Inv(w) && d < |w.s.regions| && ValidAlign(align)
    ensures Inv(DoRetain(w, d, align, value))
  {
    var (r, _) := Retain(w.s, d, align, value);
    if r.Ok? {
      var h := r.value;
      var v := WithDurable(w, d, align, value, Held, w.handles[h := value]);
      var b := DurableBlock(w, d, align, value, Held);
      RetainBehind(w, d, align, value);
      hide Inv, AllocRawTail;
      if d == 0 {
        assert TailIssues(w, v, b);
        DurableOwner(w, align, value, Held, w.handles[h := value]);
      } else {
        assert Issues(w, v, b);
        DurableChild(w, d, align, value, Held, w.handles[h := value]);
      }
    }
  }

  /** The new handle names the new block, and only the top region or the owner can issue it. */
  lemma RetainBehind(w: World, d: nat, align: nat, value: seq<byte>)
    requires Inv(w) && d < |w.s.regions| && ValidAlign(align) && Retain(w.s, d, align, value).0.Ok?
    ensures var h := Retain(w.s, d, align, value).0.value;
      && h.identity == w.s.regions[d].identity != 0
      && Behind(w.s.regions, d, h, value, DurableBlock(w, d, align, value, Held))
      && (d > 0 ==> d == Top(w.s.regions))
  {
    AllocRawTop(w.s.regions, |w.s.mem|, d, |value|, align);
    assert w.s.regions[d].base + w.s.regions[d].offset == Frontier(w.s.regions);
    assert w.s.regions[0].base == 0;
    hide Inv, AllocRaw;
  }

  // ---------------------------------------------------------------- writes in place

  ghost function Live(w: World, durable: bool): seq<Block> { if durable then w.tail else w.front }

  ghost function WithLive(w: World, durable: bool, live: seq<Block>): World
  {
    if durable then w.(tail := live) else w.(front := live)
  }

  /** One live block overwritten in place. */
  ghost function DoWrite(w: World, durable: bool, k: nat, data: seq<byte>): World
    requires k < |Live(w, durable)| && |data| == |Live(w, durable)[k].data|
  {
    var b := Live(w, durable)[k];
    WithLive(w.(s := w.s.(mem := Store(w.s.mem, b.at, data))), durable, Live(w, durable)[k := b.(data := data)])
  }

  lemma LiveApart(w: World, a: bool, j: nat, b: bool, k: nat)
    requires Inv(w) && j < |Live(w, a)| && k < |Live(w, b)| && (a != b || j != k)
    ensures var (x, y) := (Live(w, a)[j], Live(w, b)[k]); x.hi <= y.lo || y.hi <= x.lo
  {
    if !a { CeilingBelow(w.s.regions, |w.s.mem|, w.front[j].depth); }
    if !b { CeilingBelow(w.s.regions, |w.s.mem|, w.front[k].depth); }
    if a != b {
      assert TailPlace(w.s.regions, if a then w.tail[j] else w.tail[k]);
    }
  }

  lemma LiveOk(w: World, a: bool, j: nat)
    requires Inv(w) && j < |Live(w, a)|
    ensures BlockOk(Live(w, a)[j], w.s.mem)
  {
  }

  lemma WriteBlockOk(w: World, b: bool, k: nat, data: seq<byte>, a: bool, j: nat)
    requires Inv(w) && k < |Live(w, b)| && |data| == |Live(w, b)[k].data| && j < |Live(w, a)|
    ensures BlockOk(Live(DoWrite(w, b, k, data), a)[j], DoWrite(w, b, k, data).s.mem)
  {
    var x, y := Live(w, b)[k], Live(w, a)[j];
    LiveOk(w, b, k);
    LiveOk(w, a, j);
    StoreAt(w.s.mem, x.at, data);
    var mem := DoWrite(w, b, k, data).s.mem;
    if a != b || j != k {
      LiveApart(w, a, j, b, k);
      hide Inv, Store;
      assert SameOutside(w.s.mem, mem, x.lo, x.hi);
      BlockKept(y, w.s.mem, mem, x.lo, x.hi);
    }
  }

  lemma {:induction false} SharedOfRewrite(front: seq<Block>, k: nat, data: seq<byte>, depth: nat, base: nat)
    requires k < |front|
    ensures SharedOf(front[k := front[k].(data := data)], depth, base) == SharedOf(front, depth, base)
  {
    var n := |front| - 1;
    var new_ := front[k := front[k].(data := data)];
    if k < n {
      assert new_[..n] == front[..n][k := front[k].(data := data)];
      SharedOfRewrite(front[..n], k, data, depth, base);
    } else {
      assert new_[..n] == front[..n];
    }
  }

  lemma WriteIntern(w: World, durable: bool, k: nat, data: seq<byte>)
    requires Inv(w) && k < |Live(w, durable)| && |data| == |Live(w, durable)[k].data|
    ensures InternOk(DoWrite(w, durable, k, data))
  {
    if !durable {
      forall i | 0 <= i < |w.s.regions|
        ensures w.s.regions[i].interned == SharedOf(w.front[k := w.front[k].(data := data)], i, w.s.regions[i].base)
      {
        SharedOfRewrite(w.front, k, data, i, w.s.regions[i].base);
      }
    }
  }

  lemma WriteFrontOk(w: World, durable: bool, k: nat, data: seq<byte>)
    requires Inv(w) && k < |Live(w, durable)| && |data| == |Live(w, durable)[k].data|
    ensures FrontOk(DoWrite(w, durable, k, data))
  {
    var v := DoWrite(w, durable, k, data);
    forall j | 0 <= j < |w.front| ensures BlockOk(v.front[j], v.s.mem) {
      WriteBlockOk(w, durable, k, data, false, j);
    }
    hide BlockOk, Shape, TailOk, InternOk, HandlesOk, IdentitiesOk;
  }

  lemma WriteTailOk(w: World, durable: bool, k: nat, data: seq<byte>)
    requires Inv(w) && k < |Live(w, durable)| && |data| == |Live(w, durable)[k].data|
    ensures TailOk(DoWrite(w, durable, k, data))
  {
    var v := DoWrite(w, durable, k, data);
    forall j | 0 <= j < |w.tail| ensures BlockOk(v.tail[j], v.s.mem) {
      WriteBlockOk(w, durable, k, data, true, j);
    }
    hide BlockOk, Shape, FrontOk, InternOk, HandlesOk, IdentitiesOk;
  }

  lemma WriteBlocks(w: World, durable: bool, k: nat, data: seq<byte>)
    requires Inv(w) && k < |Live(w, durable)| && |data| == |Live(w, durable)[k].data|
    ensures var v := DoWrite(w, durable, k, data);
      Shape(v.s.regions, |v.s.mem|) && FrontOk(v) && TailOk(v)
  {
    WriteFrontOk(w, durable, k, data);
    WriteTailOk(w, durable, k, data);
    hide BlockOk, Shape, FrontOk, TailOk, InternOk, HandlesOk, IdentitiesOk;
  }

  /** Handles survive a write to a block that is not behind them. */
  lemma WriteHandle(w: World, durable: bool, k: nat, data: seq<byte>, h: Handle, i: nat, value: seq<byte>)
    requires k < |Live(w, durable)| && |data| == |Live(w, durable)[k].data|
    requires i < |w.s.regions| && Backed(w, i, h, value)
    requires durable == (i == 0) ==> !Behind(w.s.regions, i, h, value, Live(w, durable)[k])
    ensures Backed(DoWrite(w, durable, k, data), i, h, value)
  {
    var v := DoWrite(w, durable, k, data);
    var j :| 0 <= j < |Durables(w, i)| && Behind(w.s.regions, i, h, value, Durables(w, i)[j]);
    assert Durables(v, i)[j] == Durables(w, i)[j];
    assert Behind(v.s.regions, i, h, value, Durables(v, i)[j]);
  }

  lemma WriteHandles(w: World, durable: bool, k: nat, data: seq<byte>)
    requires IdentitiesOk(w) && HandlesOk(w) && k < |Live(w, durable)| && |data| == |Live(w, durable)[k].data|
    requires Live(w, durable)[k].owner != Held
    ensures IdentitiesOk(DoWrite(w, durable, k, data)) && HandlesOk(DoWrite(w, durable, k, data))
  {
    var v := DoWrite(w, durable, k, data);
    hide Backed;
    assert v.s.regions == w.s.regions && v.handles == w.handles;
    forall h, i | h in v.handles && 0 <= i < |v.s.regions| && v.s.regions[i].identity == h.identity
      ensures Backed(v, i, h, v.handles[h])
    {
      assert Backed(w, i, h, w.handles[h]);
      WriteHandle(w, durable, k, data, h, i, w.handles[h]);
    }
  }

  lemma WriteKeeps(w: World, durable: bool, k: nat, data: seq<byte>)
    requires Inv(w) && k < |Live(w, durable)| && |data| == |Live(w, durable)[k].data|
    requires Live(w, durable)[k].owner != Held
    ensures Inv(DoWrite(w, durable, k, data))
  {
    hide Shape, FrontOk, TailOk, InternOk, IdentitiesOk, HandlesOk;
    WriteBlocks(w, durable, k, data);
    WriteIntern(w, durable, k, data);
    WriteHandles(w, durable, k, data);
  }

  /** The position of the held block at `at`, or the length of `live`. */
  ghost function HeldIndex(live: seq<Block>, depth: nat, at: nat, size: nat): (k: nat)
    ensures k <= |live|
    ensures k < |live| ==> live[k].owner == Held && live[k].depth == depth && live[k].at == at && |live[k].data| == size
    ensures k == |live| ==> forall j {:trigger live[j]} :: 0 <= j < |live| ==>
      !(live[j].owner == Held && live[j].depth == depth && live[j].at == at && |live[j].data| == size)
  {
    if live == [] then 0
    else if live[0].owner == Held && live[0].depth == depth && live[0].at == at && |live[0].data| == size then 0
    else
      assert forall j :: 0 < j < |live| ==> live[j] == live[1..][j - 1];
      1 + HeldIndex(live[1..], depth, at, size)
  }

  /** A value stored through a handle that this arena issued. */
  ghost function DoReplace(w: World, d: nat, h: Handle, value: seq<byte>): World
    requires d < |w.s.regions| && |value| == h.size
  {
    var k := HeldIndex(Live(w, d == 0), d, w.s.regions[d].base + h.offset, h.size);
    if h.identity != w.s.regions[d].identity || k == |Live(w, d == 0)| then w
    else DoWrite(w, d == 0, k, value).(s := ReplaceRetained(w.s, d, h, value).1, handles := w.handles[h := value])
  }

  /** The block behind a current handle is found where the handle says. */
  lemma HeldFound(w: World, d: nat, h: Handle)
    requires d < |w.s.regions| && h in w.handles && Backed(w, d, h, w.handles[h])
    ensures HeldIndex(Live(w, d == 0), d, w.s.regions[d].base + h.offset, h.size) < |Live(w, d == 0)|
  {
    var j :| 0 <= j < |Durables(w, d)| && Behind(w.s.regions, d, h, w.handles[h], Durables(w, d)[j]);
  }

  lemma ReplaceOwnHandle(w: World, d: nat, h: Handle, value: seq<byte>)
    requires d < |w.s.regions| && |value| == h.size && h.identity == w.s.regions[d].identity
    requires h in w.handles && Backed(w, d, h, w.handles[h])
    ensures Backed(DoReplace(w, d, h, value), d, h, value)
  {
    HeldFound(w, d, h);
    var k := HeldIndex(Live(w, d == 0), d, w.s.regions[d].base + h.offset, h.size);
    var v := DoReplace(w, d, h, value);
    assert Behind(v.s.regions, d, h, value, Durables(v, d)[k]);
  }

  lemma ReplaceOtherHandle(w: World, d: nat, h: Handle, value: seq<byte>, g: Handle, i: nat)
    requires d < |w.s.regions| && |value| == h.size && h.identity == w.s.regions[d].identity
    requires h in w.handles && Backed(w, d, h, w.handles[h])
    requires g in w.handles && i < |w.s.regions| && w.s.regions[i].identity == g.identity && g != h
    requires Backed(w, i, g, w.handles[g])
    ensures Backed(DoReplace(w, d, h, value), i, g, w.handles[g])
  {
    HeldFound(w, d, h);
    var k := HeldIndex(Live(w, d == 0), d, w.s.regions[d].base + h.offset, h.size);
    WriteHandle(w, d == 0, k, value, g, i, w.handles[g]);
    var v, u := DoReplace(w, d, h, value), DoWrite(w, d == 0, k, value);
    hide HeldIndex;
    assert Durables(v, i) == Durables(u, i) && v.s.regions == u.s.regions;
  }

  lemma ReplaceHandles(w: World, d: nat, h: Handle, value: seq<byte>)
    requires IdentitiesOk(w) && HandlesOk(w)
    requires d < |w.s.regions| && |value| == h.size && h in w.handles && h.identity == w.s.regions[d].identity
    ensures HandlesOk(DoReplace(w, d, h, value))
  {
    var v := DoReplace(w, d, h, value);
    assert Backed(w, d, h, w.handles[h]);
    HeldFound(w, d, h);
    assert v.handles == w.handles[h := value] && v.s.regions == w.s.regions;
    hide Backed, DoReplace;
    forall g, i | g in v.handles && 0 <= i < |v.s.regions| && v.s.regions[i].identity == g.identity
      ensures Backed(v, i, g, v.handles[g])
    {
      assert Backed(w, i, g, w.handles[g]);
      if g == h {
        OneRegion(w, i, d);
        ReplaceOwnHandle(w, d, h, value);
      } else {
        ReplaceOtherHandle(w, d, h, value, g, i);
      }
    }
  }

  lemma SameBlocks(u: World, v: World)
    requires v.s == u.s && v.front == u.front && v.tail == u.tail && u.s.regions != []
    ensures FrontOk(u) == FrontOk(v) && TailOk(u) == TailOk(v) && InternOk(u) == InternOk(v)
  {
    hide Ascending, Descending, BlockOk, FrontPlace, TailPlace, SharedOf;
  }

  lemma ReplaceIsWrite(w: World, d: nat, h: Handle, value: seq<byte>) returns (k: nat)
    requires HandlesOk(w) && d < |w.s.regions| && |value| == h.size && h in w.handles
    requires h.identity == w.s.regions[d].identity
    ensures k < |Live(w, d == 0)| && |Live(w, d == 0)[k].data| == |value|
    ensures DoReplace(w, d, h, value) == DoWrite(w, d == 0, k, value).(handles := w.handles[h := value])
  {
    assert Backed(w, d, h, w.handles[h]);
    HeldFound(w, d, h);
    k := HeldIndex(Live(w, d == 0), d, w.s.regions[d].base + h.offset, h.size);
  }

  lemma ReplaceKeeps(w: World, d: nat, h: Handle, value: seq<byte>)
    requires Inv(w) && d < |w.s.regions| && |value| == h.size && h in w.handles
    ensures Inv(DoReplace(w, d, h, value))
  {
    assert w.s.regions != [];
    hide Shape, FrontOk, TailOk, InternOk, IdentitiesOk, HandlesOk;
    if h.identity == w.s.regions[d].identity {
      var k := ReplaceIsWrite(w, d, h, value);
      var v := DoReplace(w, d, h, value);
      hide DoReplace;
      WriteBlocks(w, d == 0, k, value);
      WriteIntern(w, d == 0, k, value);
      SameBlocks(DoWrite(w, d == 0, k, value), v);
      ReplaceHandles(w, d, h, value);
      SameIdentities(w, v);
    }
  }

  // ---------------------------------------------------------------- discarding front blocks

  /** How many front blocks end at or below `limit`, dropping from the newest. */
  ghost function KeptCount(front: seq<Block>, limit: nat): (n: nat)
    ensures n <= |front|
  {
    if front == [] || front[|front| - 1].hi <= limit then |front|
    else KeptCount(front[..|front| - 1], limit)
  }

  lemma {:induction false} KeptExactly(front: seq<Block>, limit: nat)
    requires Ascending(front)
    ensures forall k {:trigger front[k]} :: 0 <= k < |front| ==> (k < KeptCount(front, limit) <==> front[k].hi <= limit)
  {
    if front != [] {
      var n := |front| - 1;
      if front[n].hi > limit {
        assert Ascending(front[..n]);
        KeptExactly(front[..n], limit);
        assert forall k :: 0 <= k < n ==> front[..n][k] == front[k];
      } else {
        assert forall k :: 0 <= k < n ==> front[k].hi <= front[n].lo;
      }
    }
  }

  lemma {:induction false} ChainAllKept(front: seq<Block>, depth: nat, base: nat, limit: nat)
    requires base <= limit && forall k {:trigger front[k]} :: 0 <= k < |front| ==> front[k].hi <= limit
    ensures DropEntries(SharedOf(front, depth, base), limit - base) == SharedOf(front, depth, base)
  {
    if front != [] {
      var n := |front| - 1;
      assert forall k :: 0 <= k < n ==> front[..n][k] == front[k];
      ChainAllKept(front[..n], depth, base, limit);
    }
  }

  /** A rewind drops from the chain exactly the entries whose slices it discards. */
  lemma {:induction false} ChainFollowsFront(front: seq<Block>, depth: nat, base: nat, limit: nat)
    requires Ascending(front) && base <= limit
    ensures DropEntries(SharedOf(front, depth, base), limit - base)
         == SharedOf(front[..KeptCount(front, limit)], depth, base)
  {
    KeptExactly(front, limit);
    if front == [] || front[|front| - 1].hi <= limit {
      assert front[..|front|] == front;
      ChainAllKept(front, depth, base, limit);
    } else {
      var n := |front| - 1;
      assert Ascending(front[..n]);
      ChainFollowsFront(front[..n], depth, base, limit);
      assert front[..n][..KeptCount(front[..n], limit)] == front[..KeptCount(front, limit)];
    }
  }

  lemma {:induction false} SharedOfPrefix(front: seq<Block>, n: nat, depth: nat, base: nat)
    requires n <= |front| && forall k {:trigger front[k]} :: n <= k < |front| ==> front[k].depth != depth
    ensures SharedOf(front[..n], depth, base) == SharedOf(front, depth, base)
  {
    if n == |front| {
      assert front[..n] == front;
    } else {
      var m := |front| - 1;
      assert forall k :: 0 <= k < m ==> front[..m][k] == front[k];
      SharedOfPrefix(front[..m], n, depth, base);
      assert front[..m][..n] == front[..n];
    }
  }

  /** Blocks [n..] of the front are discarded; the rest stay in place, as do all pinned blocks of the
      regions that remain. */
  ghost predicate Drops(w: World, v: World, n: nat)
  {
    && n <= |w.front| && v.front == w.front[..n] && v.tail == w.tail
    && v.s.mem == w.s.mem && v.s.nextIdentity == w.s.nextIdentity
    && v.handles == w.handles && v.foreign == w.foreign
    && 0 < |v.s.regions| <= |w.s.regions|
    && (forall i {:trigger v.s.regions[i]} :: 0 <= i < |v.s.regions| ==>
          v.s.regions[i].identity == w.s.regions[i].identity && v.s.regions[i].base == w.s.regions[i].base)
    && (forall k {:trigger w.front[k]} :: n <= k < |w.front| ==>
          !Pinned(w.front[k].owner) || w.front[k].depth >= |v.s.regions|)
  }

  lemma DropHandle(w: World, v: World, n: nat, h: Handle, i: nat, value: seq<byte>)
    requires Drops(w, v, n) && i < |v.s.regions| && Backed(w, i, h, value)
    ensures Backed(v, i, h, value)
  {
    var k :| 0 <= k < |Durables(w, i)| && Behind(w.s.regions, i, h, value, Durables(w, i)[k]);
    assert i > 0 ==> k < n;
    NewHandle(v, i, h, value, k);
  }

  lemma DropHandles(w: World, v: World, n: nat)
    requires Drops(w, v, n) && IdentitiesOk(w) && HandlesOk(w)
    ensures IdentitiesOk(v) && HandlesOk(v)
  {
    SameIdentities(w, v);
    hide Backed, IdentitiesOk;
    forall h, i | h in v.handles && 0 <= i < |v.s.regions| && v.s.regions[i].identity == h.identity
      ensures Backed(v, i, h, v.handles[h])
    {
      assert w.s.regions[i].identity == h.identity;
      assert Backed(w, i, h, w.handles[h]);
      DropHandle(w, v, n, h, i, w.handles[h]);
    }
  }

  lemma DropFront(w: World, v: World, n: nat)
    requires Drops(w, v, n) && w.s.regions != [] && FrontOk(w)
    requires forall k {:trigger w.front[k]} :: 0 <= k < n ==> FrontPlace(v.s.regions, w.front[k])
    ensures FrontOk(v)
  {
    hide FrontPlace, BlockOk;
    assert forall k :: 0 <= k < n ==> v.front[k] == w.front[k];
  }

  lemma DropTail(w: World, v: World, n: nat)
    requires Drops(w, v, n) && w.s.regions != [] && TailOk(w) && v.s.regions[0].tail == w.s.regions[0].tail
    ensures TailOk(v)
  {
    hide BlockOk;
  }

  // ---------------------------------------------------------------- rewind

  /** The absolute frontier that a rewind to `mark` leaves. */
  ghost function RewindTarget(r: Region, mark: Mark): nat { r.base + Max(mark.offset, r.retained) }

  ghost function DoRewind(w: World, d: nat, mark: Mark): World
    requires d < |w.s.regions|
  {
    if !CanRewind(w.s.regions[d], mark) then w
    else RewoundWorld(w, d, Max(mark.offset, w.s.regions[d].retained))
  }

  ghost function RewoundWorld(w: World, d: nat, offset: nat): World
    requires d < |w.s.regions|
  {
    w.(s := w.s.(regions := Rewound(w.s.regions, d, offset)),
       front := w.front[..KeptCount(w.front, w.s.regions[d].base + offset)])
  }

  /** A frontier of the top region at or above its pins. */
  ghost predicate CanFallTo(w: World, d: nat, offset: nat)
  {
    d < |w.s.regions| && d == Top(w.s.regions) && w.s.regions[d].retained <= offset <= w.s.regions[d].offset
  }

  lemma RewoundAt(rs: seq<Region>, d: nat, offset: nat, i: nat)
    requires d < |rs| && i <= d && Chained(rs)
    ensures Rewound(rs, d, offset)[i] == if i < d then Moved(rs[i], rs[d].base + offset)
      else Moved(rs[d], rs[d].base + offset).(interned := DropEntries(rs[d].interned, offset))
  {
    hide Chained, SetFrontier, DropEntries;
    var r := rs[d].(interned := DropEntries(rs[d].interned, offset));
    ChainedUpdate(rs, d, r);
    PublishAt(rs[d := r], d, offset, i);
  }

  lemma RewoundRefronts(rs: seq<Region>, offset: nat)
    requires rs != [] && Chained(rs)
    ensures var (d, ts) := (Top(rs), Rewound(rs, Top(rs), offset));
      && Refronted(rs, ts, rs[d].base + offset)
      && ts[d].retained == rs[d].retained && ts[d].interned == DropEntries(rs[d].interned, offset)
  {
    hide Rewound, Chained, DropEntries, Moved;
    var d, ts := Top(rs), Rewound(rs, Top(rs), offset);
    forall i | 0 <= i < d ensures ts[i] == Moved(rs[i], rs[d].base + offset) {
      RewoundAt(rs, d, offset, i);
    }
    RewoundAt(rs, d, offset, d);
    MovedFields(rs[d], rs[d].base + offset);
  }

  lemma MovedFields(r: Region, frontier: nat)
    ensures Moved(r, frontier).retained == r.retained && Moved(r, frontier).interned == r.interned
    ensures Moved(r, frontier).identity == r.identity && Moved(r, frontier).base == r.base
      && Moved(r, frontier).tail == r.tail
  {
  }

  lemma RewoundShape(w: World, d: nat, offset: nat)
    requires Inv(w) && CanFallTo(w, d, offset)
    ensures var (rs, ts) := (w.s.regions, Rewound(w.s.regions, d, offset));
      && Shape(ts, |w.s.mem|) && Frontier(ts) == rs[d].base + offset
      && (forall i :: 0 <= i < d ==> Ceiling(ts, i) == Ceiling(rs, i))
  {
    hide Inv, Shape, Rewound, Refronted, Chained, Frontier;
    var rs := w.s.regions;
    InvRegion(w, d);
    InvChained(w);
    RewoundRefronts(rs, offset);
    RefrontedShape(rs, Rewound(rs, d, offset), |w.s.mem|, rs[d].base + offset);
  }

  lemma RewoundScalars(w: World, d: nat, offset: nat, i: nat)
    requires Inv(w) && CanFallTo(w, d, offset) && i <= d
    ensures var (r, t) := (w.s.regions[i], Rewound(w.s.regions, d, offset)[i]);
      t.identity == r.identity && t.base == r.base && t.tail == r.tail && t.retained == r.retained
  {
    hide Inv, Shape, Chained, Rewound, DropEntries, Moved;
    InvChained(w);
    RewoundAt(w.s.regions, d, offset, i);
    MovedFields(w.s.regions[i], w.s.regions[d].base + offset);
  }

  /** At or below a frontier the region can fall to: everything of outer regions and everything
      pinned. */
  lemma RewoundKeeps(w: World, d: nat, offset: nat, k: nat)
    requires Inv(w) && CanFallTo(w, d, offset) && k < |w.front|
    requires w.front[k].depth < d || Pinned(w.front[k].owner)
    ensures w.front[k].hi <= w.s.regions[d].base + offset
  {
    CeilingBelow(w.s.regions, |w.s.mem|, w.front[k].depth);
  }

  lemma RewoundPinsKept(w: World, d: nat, offset: nat)
    requires Inv(w) && CanFallTo(w, d, offset)
    ensures forall k {:trigger w.front[k]} :: KeptCount(w.front, w.s.regions[d].base + offset) <= k < |w.front| ==>
      !Pinned(w.front[k].owner) && w.front[k].depth >= d
  {
    hide Inv, Ascending, KeptCount;
    var target := w.s.regions[d].base + offset;
    InvAscending(w);
    KeptExactly(w.front, target);
    forall k | KeptCount(w.front, target) <= k < |w.front|
      ensures !Pinned(w.front[k].owner) && w.front[k].depth >= d
    {
      if Pinned(w.front[k].owner) || w.front[k].depth < d {
        RewoundKeeps(w, d, offset, k);
        assert false;
      }
    }
  }

  lemma RewoundDrops(w: World, d: nat, offset: nat)
    requires Inv(w) && CanFallTo(w, d, offset)
    ensures Drops(w, RewoundWorld(w, d, offset), KeptCount(w.front, w.s.regions[d].base + offset))
    ensures RewoundWorld(w, d, offset).s.regions[0].tail == w.s.regions[0].tail
  {
    hide Inv, KeptCount, Rewound;
    RewoundPinsKept(w, d, offset);
    forall i | 0 <= i <= d
      ensures var (r, t) := (w.s.regions[i], Rewound(w.s.regions, d, offset)[i]);
        t.identity == r.identity && t.base == r.base && t.tail == r.tail
    {
      RewoundScalars(w, d, offset, i);
    }
  }

  lemma RewoundPlace(w: World, d: nat, offset: nat, k: nat)
    requires Inv(w) && CanFallTo(w, d, offset) && k < |w.front| && w.front[k].hi <= w.s.regions[d].base + offset
    ensures FrontPlace(Rewound(w.s.regions, d, offset), w.front[k])
  {
    hide Inv, Shape, Rewound, Frontier, BlockOk;
    InvPlace(w, k);
    RewoundShape(w, d, offset);
    RewoundScalars(w, d, offset, w.front[k].depth);
  }

  lemma RewoundOuterChain(w: World, d: nat, offset: nat, i: nat)
    requires Inv(w) && CanFallTo(w, d, offset) && i < d
    ensures w.s.regions[i].interned
         == SharedOf(w.front[..KeptCount(w.front, w.s.regions[d].base + offset)], i, w.s.regions[i].base)
  {
    hide Inv, SharedOf, KeptCount;
    InvChain(w, i);
    RewoundPinsKept(w, d, offset);
    SharedOfPrefix(w.front, KeptCount(w.front, w.s.regions[d].base + offset), i, w.s.regions[i].base);
  }

  lemma RewoundTopChain(w: World, d: nat, offset: nat)
    requires Inv(w) && CanFallTo(w, d, offset)
    ensures DropEntries(w.s.regions[d].interned, offset)
         == SharedOf(w.front[..KeptCount(w.front, w.s.regions[d].base + offset)], d, w.s.regions[d].base)
  {
    hide Inv, SharedOf, KeptCount, DropEntries, Ascending;
    InvChain(w, d);
    InvAscending(w);
    ChainFollowsFront(w.front, d, w.s.regions[d].base, w.s.regions[d].base + offset);
  }

  lemma RewoundChain(w: World, d: nat, offset: nat, i: nat)
    requires Inv(w) && CanFallTo(w, d, offset) && i <= d
    ensures Rewound(w.s.regions, d, offset)[i].interned
         == SharedOf(w.front[..KeptCount(w.front, w.s.regions[d].base + offset)], i, w.s.regions[i].base)
  {
    hide Inv, Rewound, SharedOf, KeptCount, DropEntries, Chained, Shape, Moved;
    InvChained(w);
    RewoundAt(w.s.regions, d, offset, i);
    if i == d {
      RewoundTopChain(w, d, offset);
    } else {
      RewoundOuterChain(w, d, offset, i);
      MovedFields(w.s.regions[i], w.s.regions[d].base + offset);
    }
  }

  lemma RewoundInternOk(w: World, d: nat, offset: nat)
    requires Inv(w) && CanFallTo(w, d, offset)
    ensures InternOk(RewoundWorld(w, d, offset))
  {
    hide Inv, Rewound, SharedOf, KeptCount;
    var v := RewoundWorld(w, d, offset);
    forall i | 0 <= i < |v.s.regions| ensures v.s.regions[i].interned == SharedOf(v.front, i, v.s.regions[i].base) {
      RewoundChain(w, d, offset, i);
      RewoundScalars(w, d, offset, i);
    }
  }

  lemma RewoundPlaces(w: World, d: nat, offset: nat)
    requires Inv(w) && CanFallTo(w, d, offset)
    ensures forall k {:trigger w.front[k]} :: 0 <= k < KeptCount(w.front, w.s.regions[d].base + offset) ==>
      FrontPlace(Rewound(w.s.regions, d, offset), w.front[k])
  {
    hide Inv, Rewound, KeptCount, FrontPlace, Ascending;
    InvAscending(w);
    KeptExactly(w.front, w.s.regions[d].base + offset);
    forall k | 0 <= k < KeptCount(w.front, w.s.regions[d].base + offset)
      ensures FrontPlace(Rewound(w.s.regions, d, offset), w.front[k])
    {
      RewoundPlace(w, d, offset, k);
    }
  }

  lemma RewoundInv(w: World, d: nat, offset: nat)
    requires Inv(w) && CanFallTo(w, d, offset)
    ensures Inv(RewoundWorld(w, d, offset))
  {
    hide Shape, FrontOk, TailOk, InternOk, IdentitiesOk, HandlesOk, FrontPlace, Drops, Rewound, KeptCount;
    var v, n := RewoundWorld(w, d, offset), KeptCount(w.front, w.s.regions[d].base + offset);
    RewoundShape(w, d, offset);
    RewoundDrops(w, d, offset);
    RewoundPlaces(w, d, offset);
    DropFront(w, v, n);
    DropTail(w, v, n);
    DropHandles(w, v, n);
    RewoundInternOk(w, d, offset);
  }

  lemma RewindAllowed(w: World, d: nat, mark: Mark)
    requires Inv(w) && d < |w.s.regions| && CanRewind(w.s.regions[d], mark)
    ensures CanFallTo(w, d, Max(mark.offset, w.s.regions[d].retained))
  {
    assert w.s.regions[d].active == (d < Top(w.s.regions)) && w.s.regions[d].retained <= w.s.regions[d].offset;
  }

  lemma RewindKeeps(w: World, d: nat, mark: Mark)
    requires Inv(w) && d < |w.s.regions|
    ensures Inv(DoRewind(w, d, mark)) && DoRewind(w, d, mark).s == RewindTo(w.s, d, mark).1
  {
    hide Inv, Rewound, KeptCount;
    if CanRewind(w.s.regions[d], mark) {
      RewindAllowed(w, d, mark);
      RewoundInv(w, d, Max(mark.offset, w.s.regions[d].retained));
    }
  }
}
