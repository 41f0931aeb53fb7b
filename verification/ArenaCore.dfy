/** The two-ended bump arena and its stack of borrowed regions.

    Region 0 is the owning arena; region i + 1 is the scoped child that region i is lending its
    remaining storage to. Region fields are the source's cells. The class `ArenaMachine.Arena`
    updates them in place; the functions here say what each operation computes. */
module ArenaCore {
  import opened Options
  import opened Words

  const ARENA_ALIGN: nat := 16
  const LAST_IDENTITY: nat := 0xFFFF_FFFF_FFFF_FFFF

  /** `ArenaFull` is the source's error value. */
  datatype Result<+T> = Ok(value: T) | ArenaFull(requested: nat, remaining: nat, capacity: nat)

  /** The element type of a slice: its TypeId and layout. */
  datatype Element = Element(id: nat, size: nat, align: nat)

  /** One link of the intern chain; `value` and `end` are offsets in the region. */
  datatype Interned = Interned(element: Element, length: nat, value: nat, end: nat)

  /** `start` is where a borrowed region begins in its parent and `resume` the parent frontier that
      closing it restores; both are unused in region 0. */
  datatype Region = Region(
    base: nat, capacity: nat, offset: nat, tail: nat, active: bool,
    start: nat, resume: nat, retained: nat, identity: nat, interned: seq<Interned>)

  /** `identity` names the arena generation that issued the handle. */
  datatype Handle = Handle(identity: nat, offset: nat, size: nat)
  datatype Mark = Mark(identity: nat, offset: nat)

  datatype State = State(mem: seq<byte>, regions: seq<Region>, nextIdentity: nat)

  // ---------------------------------------------------------------- layout arithmetic

  predicate ValidAlign(align: nat) { align in {1, 2, 4, 8, 16} }

  function Max(a: nat, b: nat): nat { if a < b then b else a }
  function Min(a: nat, b: nat): nat { if a < b then a else b }
  function Less(a: nat, b: nat): nat { if a < b then 0 else a - b }

  /** usize::next_multiple_of */
  function AlignUp(x: nat, align: nat): (y: nat)
    requires ValidAlign(align)
    ensures x <= y < x + align && y % align == 0
  {
    if x % align == 0 then x else x + (align - x % align)
  }

  /** x & !(align - 1) */
  function AlignDown(x: nat, align: nat): (y: nat)
    requires ValidAlign(align)
    ensures y <= x < y + align && y % align == 0
  {
    x - x % align
  }

  function ByteCount(element: Element, length: nat): nat { element.size * length }

  // ---------------------------------------------------------------- the regions

  function Top(regions: seq<Region>): nat
    requires regions != []
  {
    |regions| - 1
  }

  /** Only the owner's tail can move, so every child asks its parent for the shared limit. */
  function AllocationLimit(regions: seq<Region>, d: nat): nat
    requires d < |regions|
  {
    if d == 0 then regions[0].tail
    else Min(Less(AllocationLimit(regions, d - 1), regions[d].start), regions[d].tail)
  }

  /** A child publishes its frontier to its parent, and so on up to the owner. */
  function SetFrontier(regions: seq<Region>, d: nat, offset: nat): (r: seq<Region>)
    requires d < |regions|
    ensures |r| == |regions|
    decreases d
  {
    var r := regions[d := regions[d].(offset := offset)];
    if d == 0 then r else SetFrontier(r, d - 1, regions[d].start + offset)
  }

  function Full<T>(regions: seq<Region>, d: nat, requested: nat): Result<T>
    requires d < |regions|
  {
    ArenaFull(requested, Less(AllocationLimit(regions, d), regions[d].offset), regions[d].capacity)
  }

  function Drawn(next: nat): (nat, nat)
  {
    if next >= LAST_IDENTITY then (0, next) else (next, next + 1)
  }

  // ---------------------------------------------------------------- operations

  /** The absolute position of the new front allocation, and the regions with it. */
  function AllocRaw(regions: seq<Region>, d: nat, size: nat, align: nat): (r: (Result<nat>, seq<Region>))
    requires d < |regions| && ValidAlign(align)
    ensures |r.1| == |regions| && (r.0.ArenaFull? ==> r.1 == regions)
  {
    if regions[d].active then
      (ArenaFull(size, 0, regions[d].capacity), regions)
    else
      var start := AlignUp(regions[d].offset, align);
      if start + size > AllocationLimit(regions, d) then (Full(regions, d, size), regions)
      else (Ok(regions[d].base + start), SetFrontier(regions, d, start + size))
  }

  /** Durable storage: downward from the owner's tail, or forward and pinned in a child. */
  function AllocRawTail(regions: seq<Region>, d: nat, size: nat, align: nat): (r: (Result<nat>, seq<Region>))
    requires d < |regions| && ValidAlign(align)
    ensures |r.1| == |regions| && (r.0.ArenaFull? ==> r.1 == regions)
  {
    if d > 0 then
      var (at, rs) := AllocRaw(regions, d, size, align);
      if at.ArenaFull? then (at, regions)
      else (at, rs[d := rs[d].(retained := rs[d].offset)])
    else if regions[0].tail < size then
      (Full(regions, 0, size), regions)
    else
      var start := AlignDown(regions[0].tail - size, align);
      if start < regions[0].offset then (Full(regions, 0, size), regions)
      else (Ok(regions[0].base + start), regions[0 := regions[0].(tail := start)])
  }

  function Splice(mem: seq<byte>, at: nat, data: seq<byte>): (m: seq<byte>)
    requires at + |data| <= |mem|
    ensures |m| == |mem|
    ensures forall i {:trigger m[i]} :: 0 <= i < |mem| ==>
      m[i] == if at <= i < at + |data| then data[i - at] else mem[i]
  {
    mem[..at] + data + mem[at + |data|..]
  }

  /** A write that fits; a position beyond the storage does not arise in reachable states. */
  function Store(mem: seq<byte>, at: nat, data: seq<byte>): (m: seq<byte>)
    ensures |m| == |mem|
  {
    if at + |data| <= |mem| then Splice(mem, at, data) else mem
  }

  function Alloc(s: State, d: nat, align: nat, data: seq<byte>): (Result<nat>, State)
    requires d < |s.regions| && ValidAlign(align)
  {
    var (at, rs) := AllocRaw(s.regions, d, |data|, align);
    if at.ArenaFull? then (at, s) else (at, s.(regions := rs, mem := Store(s.mem, at.value, data)))
  }

  function AllocPersistent(s: State, d: nat, align: nat, data: seq<byte>): (Result<nat>, State)
    requires d < |s.regions| && ValidAlign(align)
  {
    var (at, rs) := AllocRawTail(s.regions, d, |data|, align);
    if at.ArenaFull? then (at, s) else (at, s.(regions := rs, mem := Store(s.mem, at.value, data)))
  }

  function Retain(s: State, d: nat, align: nat, value: seq<byte>): (Result<Handle>, State)
    requires d < |s.regions| && ValidAlign(align)
  {
    if s.regions[d].identity == 0 then (ArenaFull(1, 0, 0), s)
    else
      var (at, t) := AllocPersistent(s, d, align, value);
      match at
      case ArenaFull(q, r, c) => (ArenaFull(q, r, c), s)
      case Ok(p) => (Ok(Handle(s.regions[d].identity, Less(p, s.regions[d].base), |value|)), t)
  }

  function Retained(s: State, d: nat, h: Handle): Option<seq<byte>>
    requires d < |s.regions|
  {
    var at := s.regions[d].base + h.offset;
    if h.identity != s.regions[d].identity || at + h.size > |s.mem| then None
    else Some(s.mem[at..at + h.size])
  }

  function ReplaceRetained(s: State, d: nat, h: Handle, value: seq<byte>): (bool, State)
    requires d < |s.regions|
  {
    if h.identity != s.regions[d].identity then (false, s)
    else (true, s.(mem := Store(s.mem, s.regions[d].base + h.offset, value)))
  }

  /** The chain entries that end at or below `offset`, walking from the newest. */
  function DropEntries(chain: seq<Interned>, offset: nat): seq<Interned>
  {
    if chain == [] || chain[0].end <= offset then chain else DropEntries(chain[1..], offset)
  }

  predicate CanRewind(r: Region, mark: Mark)
  {
    !r.active && mark.identity != 0 && mark.identity == r.identity && mark.offset <= r.offset
  }

  /** Region d moved back to `offset`, without the chain entries above it. */
  function Rewound(regions: seq<Region>, d: nat, offset: nat): (r: seq<Region>)
    requires d < |regions|
    ensures |r| == |regions|
  {
    var r := regions[d].(interned := DropEntries(regions[d].interned, offset));
    SetFrontier(regions[d := r], d, offset)
  }

  /** False where the source's assertions would stop the process. */
  function RewindTo(s: State, d: nat, mark: Mark): (bool, State)
    requires d < |s.regions|
  {
    var r := s.regions[d];
    if !CanRewind(r, mark) then (false, s)
    else (true, s.(regions := Rewound(s.regions, d, Max(mark.offset, r.retained))))
  }

  /** `recycle_front` and `reset` take the owner exclusively: no region can be open. */
  function RecycleFront(s: State): State
    requires |s.regions| == 1
  {
    var rs := s.regions[0 := s.regions[0].(interned := [])];
    s.(regions := SetFrontier(rs, 0, s.regions[0].retained))
  }

  function Reset(s: State): State
    requires |s.regions| == 1
  {
    var t := RecycleFront(s.(regions := s.regions[0 := s.regions[0].(retained := 0)]));
    var (identity, next) := Drawn(s.nextIdentity);
    t.(regions := t.regions[0 := t.regions[0].(tail := t.regions[0].capacity, identity := identity)],
       nextIdentity := next)
  }

  /** `with_remaining_region` up to the call of its body. */
  function OpenRegion(s: State, d: nat): (Result<nat>, State)
    requires d < |s.regions|
  {
    var r := s.regions[d];
    var start := AlignUp(r.offset, ARENA_ALIGN);
    var limit := AllocationLimit(s.regions, d);
    if r.active then (ArenaFull(1, 0, r.capacity), s)
    else if start >= limit then (Full(s.regions, d, 1), s)
    else
      var (identity, next) := Drawn(s.nextIdentity);
      var child := Region(r.base + start, limit - start, 0, limit - start, false,
                          start, r.offset, 0, identity, []);
      var rs := SetFrontier(s.regions[d := r.(active := true)], d, start);
      (Ok(d + 1), s.(regions := rs + [child], nextIdentity := next))
  }

  /** The end of the innermost region's scope. */
  function CloseRegion(s: State): State
    requires |s.regions| > 1
  {
    var d := |s.regions| - 2;
    var rs := SetFrontier(s.regions[..d + 1], d, s.regions[d + 1].resume);
    s.(regions := rs[d := rs[d].(active := false)])
  }

  /** The bytes a body hands out of its region: `len` bytes at absolute position `source` of the
      arena's storage, or bytes that live elsewhere. */
  datatype Output = Inside(source: nat, len: nat) | Outside(bytes: seq<byte>)

  predicate Readable(mem: seq<byte>, out: Output)
  {
    out.Inside? ==> out.source + out.len <= |mem|
  }

  function Produced(mem: seq<byte>, out: Output): seq<byte>
    requires Readable(mem, out)
  {
    match out
    case Inside(source, len) => mem[source..source + len]
    case Outside(bytes) => bytes
  }

  /** `with_remaining_bytes` after its body returned `out`: the region ends, then the bytes move to
      the parent's front. */
  function CloseKeepingBytes(s: State, out: Output): (Result<nat>, State)
    requires |s.regions| > 1 && Readable(s.mem, out)
  {
    Alloc(CloseRegion(s), |s.regions| - 2, 1, Produced(s.mem, out))
  }

  /** The newest chain entry with the same element type and contents. */
  function FindInterned(mem: seq<byte>, base: nat, chain: seq<Interned>, element: Element, length: nat,
                        data: seq<byte>): Option<Interned>
  {
    if chain == [] then None
    else if Matches(mem, base, chain[0], element, length, data) then Some(chain[0])
    else FindInterned(mem, base, chain[1..], element, length, data)
  }

  predicate Matches(mem: seq<byte>, base: nat, e: Interned, element: Element, length: nat, data: seq<byte>)
  {
    && e.element == element && e.length == length
    && base + e.value + ByteCount(element, length) <= |mem|
    && mem[base + e.value..base + e.value + ByteCount(element, length)] == data
  }

  /** Layout::extend of the cache header by the elements, padded to its alignment. */
  function InternLayout(header: Element, element: Element, length: nat): (l: (nat, nat, nat))
    requires ValidAlign(header.align) && ValidAlign(element.align)
    ensures l.0 <= l.0 + ByteCount(element, length) <= l.1 && header.size <= l.0
    ensures ValidAlign(l.2) && l.0 % element.align == 0
  {
    var align := Max(header.align, element.align);
    var at := AlignUp(header.size, element.align);
    (at, AlignUp(at + ByteCount(element, length), align), align)
  }

  /** The absolute position of a shared slice equal to `data`. An empty slice is a constant
      and needs no storage. */
  function AllocInterned(s: State, d: nat, header: Element, element: Element, length: nat,
                         data: seq<byte>): (Result<nat>, State)
    requires d < |s.regions| && ValidAlign(header.align) && ValidAlign(element.align)
  {
    var r := s.regions[d];
    if length == 0 then (Ok(0), s)
    else match FindInterned(s.mem, r.base, r.interned, element, length, data)
      case Some(e) => (Ok(r.base + e.value), s)
      case None =>
        var (at, size, align) := InternLayout(header, element, length);
        var (block, rs) := AllocRaw(s.regions, d, size, align);
        match block
        case ArenaFull(q, m, c) => (ArenaFull(q, m, c), s)
        case Ok(p) =>
          var e := Interned(element, length, Less(p + at, r.base), rs[d].offset);
          (Ok(p + at), s.(
            regions := rs[d := rs[d].(interned := [e] + rs[d].interned)],
            mem := Store(s.mem, p + at, data)))
  }
}
