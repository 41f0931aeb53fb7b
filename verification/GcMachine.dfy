/** The collector's fields updated in place. Each method is proved equal to the function that says
    what it computes. */
module GcMachine {
  import opened Options
  import opened GcStore
  import opened GcKeep
  import opened GcCore
  import opened GcInvariant

  // ---------------------------------------------------------------- the keep-set

  class BlockKeepSet {
    var blocks: seq<Mark>
    var seen: map<nat, nat>
    const capacity: nat

    /** `seen` gives the place of every block. */
    ghost predicate Valid()
      reads this
    {
      && (forall id :: id in seen ==> seen[id] < |blocks| && blocks[seen[id]].id == id)
      && (forall i :: 0 <= i < |blocks| ==> blocks[i].id in seen && seen[blocks[i].id] == i)
    }

    constructor (capacity: nat)
      ensures Valid() && blocks == [] && this.capacity == capacity
    {
      this.capacity := capacity;
      blocks, seen := [], map[];
    }

    method Clear()
      modifies this
      ensures Valid() && blocks == []
    {
      blocks, seen := [], map[];
    }

    method Insert(id: nat) returns (ok: bool)
      requires Valid()
      modifies this
      ensures Valid() && (ok, blocks) == Inserted(old(blocks), id, capacity)
      ensures ok ==> id in seen
    {
      if id in seen {
        assert blocks[seen[id]].id == id;
        return true;
      }
      assert Find(blocks, id) == |blocks|;
      if |blocks| >= capacity {
        return false;
      }
      seen := seen[id := |blocks|];
      blocks := blocks + [Mark(id, None)];
      return true;
    }

    method InsertRoot(id: nat, kind: Kind) returns (ok: bool)
      requires Valid()
      modifies this
      ensures Valid() && (ok, blocks) == RootInserted(old(blocks), id, kind, capacity)
    {
      ok := Insert(id);
      if !ok {
        return;
      }
      var position := seen[id];
      assert Find(blocks, id) == position;
      if blocks[position].kind.Some? && blocks[position].kind.value != kind {
        return false;
      }
      blocks := blocks[position := Mark(id, Some(kind))];
    }

    method InsertAll(marks: seq<Mark>) returns (ok: bool)
      requires Valid()
      modifies this
      ensures Valid() && (ok, blocks) == Retained(old(blocks), marks, capacity)
    {
      hide RootInserted, Inserted;
      var i := 0;
      ok := true;
      while i < |marks|
        invariant 0 <= i <= |marks| && Valid()
        invariant Retained(blocks, marks[i..], capacity) == Retained(old(blocks), marks, capacity)
      {
        assert marks[i..][1..] == marks[i + 1..];
        if marks[i].kind.Some? {
          ok := InsertRoot(marks[i].id, marks[i].kind.value);
        } else {
          ok := Insert(marks[i].id);
        }
        if !ok {
          return;
        }
        i := i + 1;
      }
      assert marks[i..] == [];
      ok := true;
    }
  }

  ghost predicate SortedById(s: seq<Mark>)
  {
    forall i, j :: 0 <= i < j < |s| ==> s[i].id <= s[j].id
  }

  lemma {:induction false} InsertByIdSorted(m: Mark, s: seq<Mark>)
    requires SortedById(s)
    ensures SortedById(InsertById(m, s))
  {
    if s != [] && m.id > s[0].id {
      InsertByIdSorted(m, s[1..]);
      var t := InsertById(m, s[1..]);
      forall i | 0 <= i < |t| ensures s[0].id <= t[i].id {
        assert Keeps(t, t[i].id);
        InsertByIdHas(m, s[1..], t[i].id);
        if Keeps(s[1..], t[i].id) {
          var j :| 0 <= j < |s[1..]| && s[1..][j].id == t[i].id;
          assert s[j + 1].id == t[i].id;
        }
      }
    }
  }

  lemma {:induction false} ByIdSorted(s: seq<Mark>)
    ensures SortedById(ById(s))
  {
    if s != [] {
      ByIdSorted(s[1..]);
      InsertByIdSorted(s[0], ById(s[1..]));
    }
  }

  /** The binary search of the sweep. */
  method Search(keep: seq<Mark>, id: nat) returns (found: bool)
    requires SortedById(keep)
    ensures found <==> Keeps(keep, id)
  {
    var low, high := 0, |keep|;
    while low < high
      invariant 0 <= low <= high <= |keep|
      invariant forall i :: 0 <= i < low ==> keep[i].id < id
      invariant forall i :: high <= i < |keep| ==> id < keep[i].id
    {
      var mid := (low + high) / 2;
      if keep[mid].id == id {
        return true;
      }
      if keep[mid].id < id { low := mid + 1; } else { high := mid; }
    }
    return false;
  }

  // ---------------------------------------------------------------- the request

  class MetadataIo {
    var state: State
    var keys: seq<Key>
    var draining: bool
    /** The bucket behind the client. */
    var bucket: Bucket

    /** Which objects have been read, in order. */
    ghost var log: seq<Object>

    ghost function View(): Io
      reads this
    {
      Io(state, keys, draining, log)
    }

    constructor (bucket: Bucket)
      ensures View() == Io(Idle, [], false, []) && this.bucket == bucket
    {
      state, keys, draining, log := Idle, [], false, [];
      this.bucket := bucket;
    }

    /** One bounded page, in key order. */
    method ListBatch(objects: seq<Key>, after: Cursor, limit: nat) returns (page: seq<Key>)
      ensures page == Page(objects, after, limit)
    {
      page := [];
      var i := 0;
      while i < |objects|
        invariant 0 <= i <= |objects| && |page| <= limit
        invariant page + Page(objects[i..], after, limit - |page|) == Page(objects, after, limit)
      {
        assert objects[i..][1..] == objects[i + 1..];
        if Past(objects[i], after) && |page| < limit {
          page := page + [objects[i]];
        }
        i := i + 1;
      }
      assert objects[i..] == [];
    }

    method Advance(v: Verdict)
      modifies this
      ensures (View(), bucket) == Advanced(old(View()), old(bucket), v)
    {
      if !state.Active? || v.WouldBlock? {
        return;
      }
      var request := state.request;
      var result: Option<Answer> := None;
      match v {
        case Refused(applied) =>
          if applied && request.Delete? { bucket := bucket.(blocks := Removed(bucket.blocks, request.key)); }
          keys := [];
        case Served =>
          match request {
            case Get(wanted) =>
              log := log + [wanted];
              result := Some(Body);
            case Delete(key) =>
              bucket := bucket.(blocks := Removed(bucket.blocks, key));
              result := Some(Gone);
            case List(space, cursor, limit) =>
              keys := ListBatch(Listing(bucket, space), cursor, limit);
              result := Some(Listed(NextCursor(keys, limit)));
          }
      }
      state := Complete(request, result);
    }

    method Poll(request: Request, v: Verdict) returns (r: Poll)
      modifies this
      ensures (r, View(), bucket) == Polled(old(View()), old(bucket), request, v)
    {
      if state.Idle? {
        if draining {
          return Pending;
        }
        keys := [];
        state := Active(request);
      }
      if state.request != request {
        return Changed;
      }
      Advance(v);
      if state.Complete? {
        var result := state.result;
        state := Idle;
        return if result.Some? then Ready(result.value) else Failed;
      }
      return Pending;
    }

    method Cancel()
      modifies this
      ensures View() == Cancelled(old(View())) && bucket == old(bucket)
    {
      keys := [];
      state := Idle;
    }
  }

  // ---------------------------------------------------------------- the collector

  class FileGc {
    var progress: Progress
    const keep: BlockKeepSet
    var names: seq<nat>
    var rosterLoaded: bool
    var loaded: bool
    var doomed: seq<Key>
    var walk: Option<nat>
    const io: MetadataIo
    var tick: nat
    const cfg: Settings

    ghost function View(): Gc
      reads this, keep, io
    {
      Gc(progress, keep.blocks, names, rosterLoaded, loaded, doomed, walk, io.View(), tick)
    }

    /** The keep-set is indexed while marking and sorted while sweeping. */
    ghost predicate Valid()
      reads this, keep, io
    {
      && keep.capacity == cfg.limits.keep
      && (progress.Backing? || progress.Manifests? || progress.Walk? ==> keep.Valid())
      && (loaded <==> progress.Sweeping? || progress.Deleting?) && (loaded ==> SortedById(keep.blocks))
      && (progress.Walk? ==> progress.position <= |keep.blocks|)
    }

    constructor (cfg: Settings, bucket: Bucket)
      ensures Valid() && this.cfg == cfg && io.bucket == bucket && fresh(io) && fresh(keep)
      ensures View() == Gc(Unloaded, [], [], false, false, [], None, Io(Idle, [], false, []), 0)
    {
      this.cfg := cfg;
      progress, names, rosterLoaded, loaded, doomed, walk, tick := Unloaded, [], false, false, [], None, 0;
      keep := new BlockKeepSet(cfg.limits.keep);
      io := new MetadataIo(bucket);
    }

    method ResetFileGc()
      requires keep.capacity == cfg.limits.keep
      modifies this, io
      ensures Valid() && View() == Reset(old(View())) && io.bucket == old(io.bucket)
    {
      io.Cancel();
      progress, walk, names := Unloaded, None, [];
      rosterLoaded, loaded, doomed := false, false, [];
    }

    method Ask(request: Request, store: Store) returns (r: Poll)
      modifies this`tick, io
      ensures (r, View(), io.bucket) == Asked(old(View()), old(io.bucket), request, store)
    {
      r := io.Poll(request, store(tick).verdict);
      tick := tick + 1;
    }

    method CaptureRoots(s: Sources) returns (ok: bool)
      requires keep.capacity == cfg.limits.keep
      modifies keep
      ensures keep.Valid() && (ok, keep.blocks) == Captured(s, cfg.limits)
    {
      hide Retained, AsRoots, Missing, SstInventory, IndexInventory;
      keep.Clear();
      ok := keep.InsertAll(AsRoots(if s.merging then s.mergeOutput else [], None));
      var ssts := SstInventory(s, cfg.limits);
      if !ok || ssts.None? {
        return false;
      }
      ok := keep.InsertAll(AsRoots(ssts.value, Some(SstRoster)));
      if ok { ok := keep.InsertAll(AsRoots(Missing(s.installed, ssts.value), Some(SstRoster))); }
      if ok {
        ok := keep.InsertAll(AsRoots(if s.merging then Missing(s.mergeSources, ssts.value) else [], Some(SstRoster)));
      }
      var indexes := IndexInventory(s, cfg.limits);
      if !ok || indexes.None? {
        return false;
      }
      ok := keep.InsertAll(AsRoots(indexes.value, Some(IndexRoster)));
    }

    method AddNames(page: seq<Key>, cat: Catalog) returns (invalid: bool)
      modifies this`names
      ensures (invalid, names) == Named(old(names), page, cat, cfg.maxBackups)
    {
      invalid := false;
      var i := 0;
      while i < |page|
        invariant 0 <= i <= |page|
        invariant var rest := Named(names, page[i..], cat, cfg.maxBackups);
          (invalid || rest.0, rest.1) == Named(old(names), page, cat, cfg.maxBackups)
      {
        assert page[i..][1..] == page[i + 1..];
        var name := cat.nameOf(page[i]);
        if name.Some? {
          if !cat.nameOk(name.value) || |names| >= cfg.maxBackups {
            invalid := true;
          } else {
            names := names + [name.value];
          }
        }
        i := i + 1;
      }
      assert page[i..] == [];
    }

    method ReadBackups(cursor: Cursor, cat: Catalog, store: Store) returns (r: Result)
      requires Valid() && progress == Backing(cursor)
      modifies this, io
      ensures if r.Erred? then !loaded else Valid()
      ensures keep.capacity == cfg.limits.keep
        && (r, View(), io.bucket) == Backed(old(View()), old(io.bucket), cursor, cat, cfg, store)
    {
      if cfg.pageKeys == 0 {
        return Erred;
      }
      var p := Ask(List(Backups, cursor, cfg.pageKeys), store);
      if p.Pending? {
        return Waiting;
      }
      if !p.Ready? || !p.answer.Listed? {
        return Erred;
      }
      var invalid := AddNames(io.keys, cat);
      io.keys := [];
      if invalid {
        return Erred;
      }
      if p.answer.next.Some? {
        progress := Backing(p.answer.next);
      } else {
        names := SortedDistinct(names);
        rosterLoaded := true;
        progress := Manifests(0);
      }
      return Moved;
    }

    method ReadManifest(index: nat, cat: Catalog, store: Store) returns (r: Result)
      requires Valid() && progress == Manifests(index)
      modifies this, io, keep
      ensures if r.Erred? then !loaded else Valid()
      ensures keep.capacity == cfg.limits.keep
        && (r, View(), io.bucket) == Read(old(View()), old(io.bucket), index, cat, cfg, store)
    {
      hide Retained, Polled;
      if index > |names| {
        progress := Walk(0);
        return Moved;
      }
      if index != 0 || cat.manifestPresent {
        var corrupt := store(tick).corrupt;
        var p := Ask(Get(ManifestObject(names, index)), store);
        if p.Pending? {
          return Waiting;
        }
        if !p.Ready? || corrupt {
          return Erred;
        }
        var ok := keep.InsertAll(ManifestMarks(cat, names, index));
        if !ok {
          return Erred;
        }
      }
      progress := Manifests(index + 1);
      return Moved;
    }

    method Fetch(id: nat, store: Store) returns (r: Poll)
      modifies this`tick, io
      ensures (r, View(), io.bucket) == Fetched(old(View()), old(io.bucket), id, store)
    {
      if io.state.Idle? && store(tick).cached {
        tick := tick + 1;
        io.log := io.log + [Block(id)];
        return Ready(Body);
      }
      r := Ask(Get(Block(id)), store);
    }

    /** Keeps the children of a roster whose block has been read. */
    method Take(read: Poll, corrupt: bool, ids: seq<nat>, nextWalk: Option<nat>, next: Progress) returns (r: Result)
      requires Valid() && progress.Walk? && next.Walk? && next.position <= |keep.blocks|
      modifies this`walk, this`progress, keep
      ensures if r.Erred? then !loaded else Valid()
      ensures keep.capacity == cfg.limits.keep && io.bucket == old(io.bucket) && io.View() == old(io.View())
      ensures (r, View(), io.bucket) == Taken((read, old(View()), io.bucket), corrupt, ids, nextWalk, next, cfg)
    {
      hide Retained, AsRoots;
      if read.Pending? {
        return Waiting;
      }
      if !read.Ready? || corrupt {
        return Erred;
      }
      ghost var before := keep.blocks;
      var ok := keep.InsertAll(AsRoots(ids, None));
      if !ok {
        return Erred;
      }
      RetainedGrows(before, AsRoots(ids, None), keep.capacity);
      walk := nextWalk;
      progress := next;
      return Moved;
    }

    /** The first roster at or past the position. */
    method Skip(position: nat) returns (p: nat)
      requires position <= |keep.blocks|
      ensures p == Skipped(keep.blocks, position)
    {
      p := position;
      while p < |keep.blocks| && keep.blocks[p].kind.None?
        invariant position <= p <= |keep.blocks| && Skipped(keep.blocks, p) == Skipped(keep.blocks, position)
      {
        p := p + 1;
      }
    }

    method WalkRosters(position: nat, cat: Catalog, store: Store) returns (r: Result)
      requires Valid() && progress == Walk(position)
      modifies this, io, keep
      ensures if r.Erred? then !loaded else Valid()
      ensures keep.capacity == cfg.limits.keep
        && (r, View(), io.bucket) == Walked(old(View()), old(io.bucket), position, cat, cfg, store)
    {
      hide RowsWalked, IndexWalked, ById, Skipped, SortedById;
      var p := Skip(position);
      if p == |keep.blocks| {
        ByIdSorted(keep.blocks);
        keep.blocks := ById(keep.blocks);
        loaded := true;
        progress := Sweeping(None);
        return Moved;
      }
      progress := Walk(p);
      if keep.blocks[p].kind == Some(SstRoster) {
        r := VisitRows(p, cat, store);
      } else {
        r := VisitIndex(p, cat, store);
      }
    }

    method VisitRows(p: nat, cat: Catalog, store: Store) returns (r: Result)
      requires Valid() && progress == Walk(p) && p < |keep.blocks|
      modifies this, io, keep
      ensures if r.Erred? then !loaded else Valid()
      ensures keep.capacity == cfg.limits.keep
        && (r, View(), io.bucket) == RowsWalked(old(View()), old(io.bucket), p, cat, cfg, store)
    {
      hide Fetched, Taken, SortedById;
      var corrupt, id := store(tick).corrupt, keep.blocks[p].id;
      FetchedShape(View(), io.bucket, id, store);
      var read := Fetch(id, store);
      r := Take(read, corrupt, cat.rows(id), walk, Walk(p + 1));
    }

    method VisitIndex(p: nat, cat: Catalog, store: Store) returns (r: Result)
      requires Valid() && progress == Walk(p) && p < |keep.blocks|
      modifies this, io, keep
      ensures if r.Erred? then !loaded else Valid()
      ensures keep.capacity == cfg.limits.keep
        && (r, View(), io.bucket) == IndexWalked(old(View()), old(io.bucket), p, cat, cfg, store)
    {
      hide Visiting, Taken, SortedById;
      var plan := cat.plan(keep.blocks[p].id);
      var n := if walk.Some? then walk.value else 0;
      if n >= |plan| {
        walk := None;
        progress := Walk(p + 1);
        return Moved;
      }
      r := VisitNext(p, plan, n, store(tick).corrupt, store);
    }

    method VisitNext(p: nat, plan: seq<Visit>, n: nat, corrupt: bool, store: Store) returns (r: Result)
      requires Valid() && progress == Walk(p) && p < |keep.blocks| && n < |plan|
      modifies this, io, keep
      ensures if r.Erred? then !loaded else Valid()
      ensures var last := n + 1 >= |plan|;
        && keep.capacity == cfg.limits.keep
        && (r, View(), io.bucket) ==
           Taken(Visiting(old(View()), old(io.bucket), plan[n], n, store), corrupt, plan[n].kept,
                 if last then None else Some(n + 1), if last then Walk(p + 1) else Walk(p), cfg)
    {
      hide Fetched, Taken, SortedById;
      walk := Some(n);
      var read := Ready(Body);
      if plan[n].read.Some? {
        FetchedShape(View(), io.bucket, plan[n].read.value, store);
        read := Fetch(plan[n].read.value, store);
      } else {
        tick := tick + 1;
      }
      var last := n + 1 >= |plan|;
      r := Take(read, corrupt, plan[n].kept, if last then None else Some(n + 1), if last then Walk(p + 1) else Walk(p));
    }

    /** Stages the unkept keys of a page; false when a key names no block. */
    method Doom(page: seq<Key>, cat: Catalog) returns (ok: bool)
      requires SortedById(keep.blocks)
      modifies this`doomed
      ensures ok == AllParse(page, cat) && (ok ==> doomed == old(doomed) + Unkept(keep.blocks, page, cat))
    {
      hide Keeps, SortedById, Unkept, AllParse;
      ok := true;
      var i := 0;
      PageEnds(keep.blocks, page, cat);
      while i < |page|
        invariant 0 <= i <= |page| && ok == AllParse(page[..i], cat)
        invariant doomed + Unkept(keep.blocks, page[i..], cat) == old(doomed) + Unkept(keep.blocks, page, cat)
      {
        PageStep(keep.blocks, page, i, cat);
        var id := cat.parse(page[i]);
        if id.None? {
          ok := false;
        } else {
          var kept := Search(keep.blocks, id.value);
          if !kept { doomed := doomed + [page[i]]; }
        }
        i := i + 1;
      }
    }

    method SweepPage(cursor: Cursor, cat: Catalog, store: Store) returns (r: Result)
      requires Valid() && progress == Sweeping(cursor)
      modifies this, io
      ensures Valid() && loaded
      ensures (r, View(), io.bucket) == Swept(old(View()), old(io.bucket), cursor, cat, cfg, store)
    {
      hide Unkept, AllParse, SortedById, Polled;
      var limit := SweepLimit(cfg);
      if limit == 0 {
        return Erred;
      }
      var p := Ask(List(Blocks, cursor, limit), store);
      if p.Pending? {
        return Waiting;
      }
      if !p.Ready? || !p.answer.Listed? {
        return Erred;
      }
      var ok := Doom(io.keys, cat);
      io.keys := [];
      if !ok {
        doomed := [];
        return Erred;
      }
      progress := Deleting(p.answer.next);
      return Moved;
    }

    /** A key leaves the list only once its deletion is confirmed. */
    method DeleteDoomed(count: nat, store: Store) returns (r: Result)
      requires count <= |doomed|
      modifies this`doomed, this`tick, io
      ensures (r, View(), io.bucket) == Deleted(old(View()), old(io.bucket), count, store)
    {
      hide Polled;
      var left := count;
      while left > 0
        invariant 0 <= left <= |doomed|
        invariant Deleted(View(), io.bucket, left, store) == Deleted(old(View()), old(io.bucket), count, store)
      {
        var last := |doomed| - 1;
        var p := Ask(Delete(doomed[last]), store);
        if p.Pending? {
          return Waiting;
        }
        if !p.Ready? {
          return Erred;
        }
        doomed := doomed[..last];
        left := left - 1;
      }
      return Moved;
    }

    method PurgePage(next: Option<Key>, store: Store) returns (r: Result)
      requires Valid() && progress == Deleting(next)
      modifies this, io
      ensures Valid() && (loaded || r.Done?)
      ensures (r, View(), io.bucket) == Purged(old(View()), old(io.bucket), next, cfg, store)
    {
      hide Deleted, SortedById;
      r := DeleteDoomed(if cfg.perBeat < |doomed| then cfg.perBeat else |doomed|, store);
      if !r.Moved? || doomed != [] {
        return;
      }
      if next.Some? {
        progress := Sweeping(next);
      } else {
        progress := Unloaded;
        loaded := false;
        return Done;
      }
    }

    method Begin(cat: Catalog) returns (r: Result)
      requires Valid() && progress.Unloaded?
      modifies this, keep
      ensures if r.Erred? then !loaded else Valid()
      ensures keep.capacity == cfg.limits.keep && (r, View()) == Begun(old(View()), cat, cfg)
    {
      hide Captured;
      var ok := CaptureRoots(cat.sources);
      if !ok {
        return Erred;
      }
      walk := None;
      if rosterLoaded {
        progress := Manifests(0);
      } else {
        names := [];
        progress := Backing(None);
      }
      return Moved;
    }

    method AdvanceFileGc(cat: Catalog, store: Store) returns (r: Result)
      requires Valid()
      modifies this, io, keep
      ensures keep.capacity == cfg.limits.keep && (r != Erred || loaded ==> Valid())
      ensures (r, View(), io.bucket) == Stepped(old(View()), old(io.bucket), cat, cfg, store)
    {
      hide Begun, Backed, Read, Walked, Swept, Purged, SortedById;
      match progress {
        case Unloaded => r := Begin(cat);
        case Backing(cursor) => r := ReadBackups(cursor, cat, store);
        case Manifests(index) => r := ReadManifest(index, cat, store);
        case Walk(position) => r := WalkRosters(position, cat, store);
        case Sweeping(cursor) => r := SweepPage(cursor, cat, store);
        case Deleting(next) => r := PurgePage(next, store);
      }
    }

    method CollectBlockGarbageBatch(cat: Catalog, store: Store) returns (r: Result)
      requires Valid()
      modifies this, io, keep
      ensures Valid() && (r, View(), io.bucket) == Beaten(old(View()), old(io.bucket), cat, cfg, store)
    {
      hide Stepped, SortedById;
      r := AdvanceFileGc(cat, store);
      if r.Erred? && !loaded {
        ResetFileGc();
      }
    }
  }

  lemma {:induction false} RetainedGrows(keep: seq<Mark>, marks: seq<Mark>, capacity: nat)
    ensures |keep| <= |Retained(keep, marks, capacity).1|
    decreases |marks|
  {
    if marks != [] { RetainedGrows(MarkInserted(keep, marks[0], capacity).1, marks[1..], capacity); }
  }

  lemma FetchedShape(gc: Gc, b: Bucket, id: nat, store: Store)
    ensures var g := Fetched(gc, b, id, store).1; g == gc.(io := g.io, tick := g.tick)
  {
  }

  lemma PageEnds(keep: seq<Mark>, page: seq<Key>, cat: Catalog)
    ensures page[..0] == [] && page[0..] == page && page[..|page|] == page && page[|page|..] == []
    ensures AllParse([], cat) && Unkept(keep, [], cat) == []
  {
  }

  lemma PageStep(keep: seq<Mark>, page: seq<Key>, i: nat, cat: Catalog)
    requires i < |page|
    ensures var id := cat.parse(page[i]);
      && AllParse(page[..i + 1], cat) == (AllParse(page[..i], cat) && id.Some?)
      && Unkept(keep, page[i..], cat)
         == (if id.Some? && !Keeps(keep, id.value) then [page[i]] else []) + Unkept(keep, page[i + 1..], cat)
  {
    hide Keeps;
    assert page[i..][1..] == page[i + 1..];
    assert page[..i + 1] == page[..i] + [page[i]];
  }
}
