/** The arena as the source runs it: cells updated in place over one block of bytes. Each method is
    one operation of `ArenaRuns`, so every sequence of calls is a run. */
module ArenaMachine {
  import opened Options
  import opened Words
  import opened ArenaCore
  import opened ArenaInvariant
  import opened ArenaSteps
  import opened ArenaRuns
  import opened ArenaSafety

  class Arena {
    const mem: array<byte>
    var regions: seq<Region>
    var nextIdentity: nat
    /** The same state with its history. */
    ghost var world: World

    ghost predicate Valid()
      reads this, mem
    {
      world.s == State(mem[..], regions, nextIdentity) && Inv(world)
    }

    /** `next` is the process-wide identity counter; `foreign` are the identities other arenas drew. */
    constructor (capacity: nat, next: nat, ghost foreign: set<nat>)
      requires Drew(foreign, next)
      ensures Valid() && world == Fresh(mem[..], next, foreign) && mem.Length == capacity && fresh(mem)
    {
      var (identity, following) := Drawn(next);
      mem := new byte[capacity](_ => 0);
      regions := [Region(0, capacity, 0, capacity, false, 0, 0, 0, identity, [])];
      nextIdentity := following;
      new;
      world := Fresh(mem[..], next, foreign);
      ReachableOk(mem[..], next, foreign, []);
    }

    // -------------------------------------------------------------- shared helpers

    /** Walks up to the owner, as `allocation_limit` does by recursion. */
    method Limit(d: nat) returns (limit: nat)
      requires d < |regions|
      ensures limit == AllocationLimit(regions, d)
    {
      limit := regions[0].tail;
      var i := 0;
      while i < d
        invariant i <= d && limit == AllocationLimit(regions, i)
      {
        i := i + 1;
        limit := Min(Less(limit, regions[i].start), regions[i].tail);
      }
    }

    /** Publishes a frontier to every ancestor of region d. */
    method Publish(d: nat, frontier: nat)
      requires d < |regions|
      modifies this`regions
      ensures regions == SetFrontier(old(regions), d, frontier)
    {
      var i, offset := d, frontier;
      FrontierAgain(regions, i, offset);
      regions := regions[i := regions[i].(offset := offset)];
      while i > 0
        invariant 0 <= i <= d < |regions| && regions[i].offset == offset
        invariant SetFrontier(regions, i, offset) == SetFrontier(old(regions), d, frontier)
      {
        FrontierStep(regions, i);
        offset := regions[i].start + offset;
        i := i - 1;
        FrontierAgain(regions, i, offset);
        regions := regions[i := regions[i].(offset := offset)];
      }
      assert regions[0 := regions[0].(offset := offset)] == regions;
    }

    static lemma FrontierStep(rs: seq<Region>, i: nat)
      requires 0 < i < |rs|
      ensures SetFrontier(rs, i, rs[i].offset) == SetFrontier(rs, i - 1, rs[i].start + rs[i].offset)
    {
      assert rs[i := rs[i].(offset := rs[i].offset)] == rs;
    }

    static lemma FrontierAgain(rs: seq<Region>, i: nat, offset: nat)
      requires i < |rs|
      ensures SetFrontier(rs[i := rs[i].(offset := offset)], i, offset) == SetFrontier(rs, i, offset)
    {
      var r := rs[i := rs[i].(offset := offset)];
      assert r[i := r[i].(offset := offset)] == r;
    }

    /** memmove: the bytes at `source` end up at `destination`, overlapping or not. */
    method Move(source: nat, destination: nat, len: nat)
      requires source + len <= mem.Length && destination + len <= mem.Length
      modifies mem
      ensures mem[..] == Splice(old(mem[..]), destination, old(mem[source..source + len]))
    {
      if destination <= source {
        var i := 0;
        while i < len
          invariant i <= len
          invariant forall k {:trigger mem[k]} :: 0 <= k < mem.Length ==>
            mem[k] == if destination <= k < destination + i then old(mem[source + (k - destination)]) else old(mem[k])
        {
          mem[destination + i] := mem[source + i];
          i := i + 1;
        }
      } else {
        var i := len;
        while i > 0
          invariant 0 <= i <= len
          invariant forall k {:trigger mem[k]} :: 0 <= k < mem.Length ==>
            mem[k] == if destination + i <= k < destination + len then old(mem[source + (k - destination)])
                      else old(mem[k])
        {
          i := i - 1;
          mem[destination + i] := mem[source + i];
        }
      }
      assert mem[..] == Splice(old(mem[..]), destination, old(mem[source..source + len]));
    }

    method Fill(at: nat, data: seq<byte>)
      requires at + |data| <= mem.Length
      modifies mem
      ensures mem[..] == Store(old(mem[..]), at, data)
    {
      var i := 0;
      while i < |data|
        invariant i <= |data|
        invariant forall k {:trigger mem[k]} :: 0 <= k < mem.Length ==>
          mem[k] == if at <= k < at + i then data[k - at] else old(mem[k])
      {
        mem[at + i] := data[i];
        i := i + 1;
      }
      assert mem[..] == Splice(old(mem[..]), at, data);
    }

    // -------------------------------------------------------------- operations

    /** `alloc_raw`: reserves front storage in region d. */
    method Reserve(d: nat, size: nat, align: nat) returns (r: Result<nat>)
      requires d < |regions| && ValidAlign(align)
      modifies this`regions
      ensures (r, regions) == AllocRaw(old(regions), d, size, align)
    {
      var limit := Limit(d);
      var region := regions[d];
      if region.active {
        return ArenaFull(size, 0, region.capacity);
      }
      var start := AlignUp(region.offset, align);
      if start + size > limit {
        return ArenaFull(size, Less(limit, region.offset), region.capacity);
      }
      Publish(d, start + size);
      return Ok(region.base + start);
    }

    /** `alloc_raw_tail` */
    method ReserveTail(d: nat, size: nat, align: nat) returns (r: Result<nat>)
      requires d < |regions| && ValidAlign(align)
      modifies this`regions
      ensures (r, regions) == AllocRawTail(old(regions), d, size, align)
    {
      var limit := Limit(d);
      if d > 0 {
        r := Reserve(d, size, align);
        if r.Ok? {
          regions := regions[d := regions[d].(retained := regions[d].offset)];
        }
        return;
      }
      var owner := regions[0];
      if owner.tail < size {
        return ArenaFull(size, Less(limit, owner.offset), owner.capacity);
      }
      var start := AlignDown(owner.tail - size, align);
      if start < owner.offset {
        return ArenaFull(size, Less(limit, owner.offset), owner.capacity);
      }
      regions := regions[0 := owner.(tail := start)];
      return Ok(owner.base + start);
    }

    /** `alloc_slice_copy` and the other plain front allocations. */
    method Alloc(d: nat, align: nat, data: seq<byte>) returns (r: Result<nat>)
      requires Valid() && d < |regions| && ValidAlign(align)
      modifies this, mem
      ensures Valid() && world == DoAlloc(old(world), d, align, data)
      ensures r == ArenaCore.Alloc(old(world.s), d, align, data).0
    {
      hide Inv, AllocRaw, NewBlock;
      AllocKeeps(world, d, align, data);
      FrontRoom(world, d, |data|, align);
      r := Reserve(d, |data|, align);
      if r.Ok? {
        Fill(r.value, data);
      }
      world := DoAlloc(world, d, align, data);
    }

    /** `alloc_persistent_slice_with` */
    method AllocPersistent(d: nat, align: nat, data: seq<byte>) returns (r: Result<nat>)
      requires Valid() && d < |regions| && ValidAlign(align)
      modifies this, mem
      ensures Valid() && world == DoAllocPersistent(old(world), d, align, data)
      ensures r == ArenaCore.AllocPersistent(old(world.s), d, align, data).0
    {
      hide Inv, AllocRawTail, DurableBlock;
      AllocPersistentKeeps(world, d, align, data);
      TailRoom(world, d, |data|, align);
      r := ReserveTail(d, |data|, align);
      if r.Ok? {
        Fill(r.value, data);
      }
      world := DoAllocPersistent(world, d, align, data);
    }

    method Retain(d: nat, align: nat, value: seq<byte>) returns (r: Result<Handle>)
      requires Valid() && d < |regions| && ValidAlign(align)
      modifies this, mem
      ensures Valid() && world == DoRetain(old(world), d, align, value)
      ensures r == ArenaCore.Retain(old(world.s), d, align, value).0
    {
      hide Inv, AllocRawTail, DurableBlock;
      RetainKeeps(world, d, align, value);
      TailRoom(world, d, |value|, align);
      var region := regions[d];
      if region.identity == 0 {
        return ArenaFull(1, 0, 0);
      }
      ghost var before := world;
      var at := ReserveTail(d, |value|, align);
      match at {
        case ArenaFull(q, m, c) => r := ArenaFull(q, m, c);
        case Ok(p) =>
          Fill(p, value);
          r := Ok(Handle(region.identity, Less(p, region.base), |value|));
      }
      world := DoRetain(before, d, align, value);
    }

    /** Handles of other arenas, earlier generations and closed regions are rejected. */
    method Retained(d: nat, h: Handle) returns (r: Option<seq<byte>>)
      requires Valid() && d < |regions| && (h in world.handles || h.identity in world.foreign)
      ensures r == if h in world.handles && h.identity == regions[d].identity then Some(world.handles[h]) else None
    {
      hide Inv, HeldIndex;
      var region := regions[d];
      if h.identity != region.identity {
        return None;
      }
      CurrentHandle(world, d, h);
      r := Some(mem[region.base + h.offset..region.base + h.offset + h.size]);
    }

    method ReplaceRetained(d: nat, h: Handle, value: seq<byte>) returns (done: bool)
      requires Valid() && d < |regions| && (h in world.handles || h.identity in world.foreign) && |value| == h.size
      modifies this`world, mem
      ensures Valid() && done == (h.identity == regions[d].identity)
      ensures world == DoReplace(old(world), d, h, value)
    {
      hide Inv, HeldIndex, Store;
      ReplaceStep(world, d, h, value);
      var region := regions[d];
      done := h.identity == region.identity;
      if done {
        CurrentHandle(world, d, h);
        Fill(region.base + h.offset, value);
      }
      world := DoReplace(world, d, h, value);
    }

    method Mark(d: nat) returns (m: ArenaCore.Mark)
      requires d < |regions|
      ensures m.identity == regions[d].identity && m.offset == regions[d].offset
    {
      m := ArenaCore.Mark(regions[d].identity, regions[d].offset);
    }

    /** `rewind_to`; `done` is false where the source's assertions would stop the process. */
    method RewindTo(d: nat, mark: ArenaCore.Mark) returns (done: bool)
      requires Valid() && d < |regions|
      modifies this
      ensures Valid() && done == CanRewind(old(regions[d]), mark)
      ensures world == DoRewind(old(world), d, mark)
    {
      hide Inv, KeptCount, SetFrontier;
      RewindKeeps(world, d, mark);
      var region := regions[d];
      if region.active || mark.identity == 0 || mark.identity != region.identity || mark.offset > region.offset {
        return false;
      }
      var offset := Max(mark.offset, region.retained);
      var chain := region.interned;
      while chain != [] && chain[0].end > offset
        invariant DropEntries(chain, offset) == DropEntries(region.interned, offset)
      {
        chain := chain[1..];
      }
      regions := regions[d := region.(interned := chain)];
      Publish(d, offset);
      world := DoRewind(world, d, mark);
      return true;
    }

    method RecycleFront()
      requires Valid() && |regions| == 1
      modifies this
      ensures Valid() && world == DoRecycle(old(world))
    {
      RecycleKeeps(world);
      regions := regions[0 := regions[0].(interned := [])];
      Publish(0, regions[0].retained);
      world := DoRecycle(world);
    }

    method Reset()
      requires Valid() && |regions| == 1
      modifies this
      ensures Valid() && world == DoReset(old(world))
    {
      ResetKeeps(world);
      ghost var before := world;
      regions := regions[0 := regions[0].(retained := 0)];
      regions := regions[0 := regions[0].(interned := [])];
      Publish(0, regions[0].retained);
      var (identity, next) := Drawn(nextIdentity);
      regions := regions[0 := regions[0].(tail := regions[0].capacity, identity := identity)];
      nextIdentity := next;
      world := DoReset(before);
    }

    /** `with_remaining_region` up to its body; the new region is the last one. */
    method OpenRegion(d: nat) returns (r: Result<nat>)
      requires Valid() && d < |regions|
      modifies this
      ensures Valid() && world == DoOpen(old(world), d) && r == ArenaCore.OpenRegion(old(world.s), d).0
    {
      hide Inv, SetFrontier, AllocationLimit, AlignUp;
      OpenKeeps(world, d);
      ghost var before := world;
      var region := regions[d];
      var limit := Limit(d);
      var start := AlignUp(region.offset, ARENA_ALIGN);
      if region.active {
        return ArenaFull(1, 0, region.capacity);
      }
      if start >= limit {
        return ArenaFull(1, Less(limit, region.offset), region.capacity);
      }
      var (identity, next) := Drawn(nextIdentity);
      nextIdentity := next;
      regions := regions[d := region.(active := true)];
      Publish(d, start);
      regions := regions + [Region(region.base + start, limit - start, 0, limit - start, false,
                                   start, region.offset, 0, identity, [])];
      world := DoOpen(before, d);
      return Ok(d + 1);
    }

    /** The guard of the innermost region is dropped. */
    method CloseRegion()
      requires Valid() && |regions| > 1
      modifies this
      ensures Valid() && world == DoClose(old(world))
    {
      hide Inv, ArenaCore.CloseRegion, OuterCount;
      CloseKeeps(world);
      ghost var before := world;
      EndRegion();
      world := DoClose(before);
    }

    method EndRegion()
      requires |regions| > 1
      modifies this`regions
      ensures forall m, n :: State(m, regions, n) == ArenaCore.CloseRegion(State(m, old(regions), n))
    {
      var d := |regions| - 2;
      var resume := regions[d + 1].resume;
      regions := regions[..d + 1];
      Publish(d, resume);
      regions := regions[d := regions[d].(active := false)];
    }

    /** `with_remaining_bytes` after its body: the region ends, and its output moves down. */
    method CloseKeepingBytes(out: Output) returns (r: Result<nat>)
      requires Valid() && |regions| > 1 && Readable(mem[..], out)
      modifies this, mem
      ensures Valid() && world == DoCloseKeeping(old(world), out)
      ensures r == ArenaCore.CloseKeepingBytes(old(world.s), out).0
    {
      hide Inv, ArenaCore.CloseRegion, OuterCount, AllocRaw, NewBlock;
      ghost var before := world;
      var d := |regions| - 2;
      var len := if out.Inside? then out.len else |out.bytes|;
      CloseKeepingKeeps(world, out);
      CloseKeeps(world);
      ClosedTop(world);
      EndRegion();
      world := DoClose(before);
      FrontRoom(world, d, len, 1);
      r := Reserve(d, len, 1);
      if r.Ok? {
        match out
        case Inside(source, _) => Move(source, r.value, len);
        case Outside(bytes) => Fill(r.value, bytes);
      }
      world := DoCloseKeeping(before, out);
    }

    /** Another arena of the process draws an identity. */
    method DrawElsewhere()
      requires Valid()
      modifies this
      ensures Valid() && world == DoForeign(old(world))
    {
      ForeignKeeps(world);
      var (_, next) := Drawn(nextIdentity);
      nextIdentity := next;
      world := DoForeign(world);
    }

    /** Walks the chain for an equal slice before allocating header and elements together. */
    method AllocInterned(d: nat, header: Element, element: Element, length: nat, data: seq<byte>)
      returns (r: Result<nat>)
      requires Valid() && d < |regions| && ValidAlign(header.align) && ValidAlign(element.align)
      requires header.size > 0 && |data| == ByteCount(element, length)
      modifies this, mem
      ensures Valid() && world == DoIntern(old(world), d, header, element, length, data)
      ensures r == ArenaCore.AllocInterned(old(world.s), d, header, element, length, data).0
    {
      hide Inv, AllocRaw, InternLayout, FindInterned, Store;
      InternKeeps(world, d, header, element, length, data);
      if length == 0 {
        return Ok(0);
      }
      var region := regions[d];
      var found := FindShared(region, element, length, data);
      if found.Some? {
        return Ok(region.base + found.value.value);
      }
      ghost var before := world;
      var (at, size, align) := InternLayout(header, element, length);
      FrontRoom(world, d, size, align);
      var block := Reserve(d, size, align);
      match block {
        case ArenaFull(q, m, c) => r := ArenaFull(q, m, c);
        case Ok(p) =>
          Fill(p + at, data);
          var e := Interned(element, length, Less(p + at, region.base), regions[d].offset);
          regions := regions[d := regions[d].(interned := [e] + regions[d].interned)];
          r := Ok(p + at);
      }
      world := DoIntern(before, d, header, element, length, data);
    }

    method FindShared(region: Region, element: Element, length: nat, data: seq<byte>) returns (r: Option<Interned>)
      ensures r == FindInterned(mem[..], region.base, region.interned, element, length, data)
    {
      var cursor := region.interned;
      while cursor != []
        invariant FindInterned(mem[..], region.base, cursor, element, length, data)
               == FindInterned(mem[..], region.base, region.interned, element, length, data)
      {
        if Matches(mem[..], region.base, cursor[0], element, length, data) {
          return Some(cursor[0]);
        }
        cursor := cursor[1..];
      }
      return None;
    }
  }

  /** An accepted handle names bytes of the arena, and they are its value. */
  lemma CurrentHandle(w: World, d: nat, h: Handle)
    requires Inv(w) && d < |w.s.regions| && h.identity == w.s.regions[d].identity
    requires h in w.handles || h.identity in w.foreign
    ensures h in w.handles && w.s.regions[d].base + h.offset + h.size <= |w.s.mem|
    ensures var at := w.s.regions[d].base + h.offset; w.s.mem[at..at + h.size] == w.handles[h]
    ensures HeldIndex(Live(w, d == 0), d, w.s.regions[d].base + h.offset, h.size) < |Live(w, d == 0)|
  {
    hide Inv, Backed, HeldIndex;
    if h.identity in w.foreign {
      ForeignRejected(w, d, h);
      assert false;
    }
    HandleReadsBack(w, h, d);
    CurrentBacked(w, d, h);
    HeldFound(w, d, h);
  }

  lemma ReplaceStep(w: World, d: nat, h: Handle, value: seq<byte>)
    requires Inv(w) && d < |w.s.regions| && |value| == h.size && (h in w.handles || h.identity in w.foreign)
    ensures Inv(DoReplace(w, d, h, value))
      && DoReplace(w, d, h, value).s == ArenaCore.ReplaceRetained(w.s, d, h, value).1
  {
    hide Inv, HeldIndex;
    if h.identity == w.s.regions[d].identity {
      CurrentHandle(w, d, h);
    }
    ApplyKeeps(w, Replace(d, h, value));
  }

  lemma CurrentBacked(w: World, d: nat, h: Handle)
    requires Inv(w) && d < |w.s.regions| && h.identity == w.s.regions[d].identity && h in w.handles
    ensures Backed(w, d, h, w.handles[h])
  {
  }

  lemma FrontRoom(w: World, d: nat, size: nat, align: nat)
    requires Inv(w) && d < |w.s.regions| && ValidAlign(align)
    ensures var at := AllocRaw(w.s.regions, d, size, align).0; at.Ok? ==> at.value + size <= |w.s.mem|
  {
    hide Inv, AllocRaw, Shape, Chained;
    InvChained(w);
    InvRegion(w, 0);
    AllocRawTop(w.s.regions, |w.s.mem|, d, size, align);
  }

  lemma TailRoom(w: World, d: nat, size: nat, align: nat)
    requires Inv(w) && d < |w.s.regions| && ValidAlign(align)
    ensures var at := AllocRawTail(w.s.regions, d, size, align).0; at.Ok? ==> at.value + size <= |w.s.mem|
  {
    hide Inv, AllocRaw;
    FrontRoom(w, d, size, align);
    InvRegion(w, 0);
  }
}
