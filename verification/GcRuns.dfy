/** Whole runs of the collector: what it deletes, what a finished cycle leaves, and that it ends. */
module GcRuns {
  import opened Options
  import opened GcStore
  import opened GcKeep
  import opened GcCore
  import opened GcInvariant
  import opened GcSteps

  // ---------------------------------------------------------------- deleting

  /** A deletion keeps the collector's cursor, and drops a key only once the key is gone. An error
      leaves the very key that failed to be asked for again. */
  lemma {:induction false} DeletedKeeps(w: World, cfg: Settings, count: nat, store: Store)
    requires Inv(w, cfg) && w.gc.progress.Deleting? && count <= |w.gc.doomed|
    ensures var (r, g, c) := Deleted(w.gc, w.bucket, count, store);
      && Inv(Now(w, g, c), cfg) && g.progress == w.gc.progress && g.loaded && c.backups == w.bucket.backups && !r.Done?
      && g.doomed <= w.gc.doomed && |g.doomed| + count >= |w.gc.doomed|
      && (r.Moved? ==> |g.doomed| + count == |w.gc.doomed|)
      && (r.Erred? ==> |g.doomed| + count > |w.gc.doomed| && g.io.state.Idle?)
      && (forall k :: k in w.bucket.blocks && k !in c.blocks ==> k in w.gc.doomed)
    decreases count
  {
    hide Inv, Asked;
    DeletingLoaded(w, cfg);
    if count > 0 {
      var gc, n := w.gc, |w.gc.doomed| - 1;
      var last := gc.doomed[n];
      var (r, g, c) := Asked(gc, w.bucket, Delete(last), store);
      AskedDeletes(w, cfg, store);
      if r.Ready? {
        var h := g.(doomed := gc.doomed[..n]);
        PoppedKeeps(Now(w, g, c), cfg, h);
        DeletedKeeps(Now(w, h, c), cfg, count - 1, store);
      }
    }
  }

  lemma DeletingLoaded(w: World, cfg: Settings)
    requires Inv(w, cfg) && w.gc.progress.Deleting?
    ensures w.gc.loaded && Now(w, w.gc, w.bucket) == w
  {
  }

  lemma AskedDeletes(w: World, cfg: Settings, store: Store)
    requires Inv(w, cfg) && w.gc.progress.Deleting? && w.gc.doomed != []
    ensures var last := w.gc.doomed[|w.gc.doomed| - 1];
      var (r, g, c) := Asked(w.gc, w.bucket, Delete(last), store);
      && Inv(Now(w, g, c), cfg) && g == w.gc.(io := g.io, tick := w.gc.tick + 1) && c.backups == w.bucket.backups
      && !r.Changed?
      && (r.Ready? || r.Failed? ==> g.io.state.Idle?) && (r.Ready? ==> last !in c.blocks)
      && (forall k :: k in w.bucket.blocks && k !in c.blocks ==> k == last)
  {
    hide SweepOk, NamesExact, KeepExact;
    var last := w.gc.doomed[|w.gc.doomed| - 1];
    PolledKeeps(w.gc.io, w.bucket, Delete(last), store(w.gc.tick).verdict);
    RemovedAscends(w.bucket.blocks, last);
    SweepLoses(w, last);
    var (r, g, c) := Asked(w.gc, w.bucket, Delete(last), store);
    SweepIgnores(w, g, c);
    assert Expected(g, w.cat, cfg) == Expected(w.gc, w.cat, cfg);
  }

  lemma SweepIgnores(w: World, g: Gc, c: Bucket)
    requires g == w.gc.(io := g.io, tick := g.tick) && SweepOk(w.(bucket := c))
    ensures SweepOk(Now(w, g, c))
  {
  }

  lemma PoppedKeeps(w: World, cfg: Settings, h: Gc)
    requires Inv(w, cfg) && w.gc.progress.Deleting? && w.gc.doomed != [] && w.gc.io.state.Idle?
    requires w.gc.doomed[|w.gc.doomed| - 1] !in w.bucket.blocks
    requires h == w.gc.(doomed := w.gc.doomed[..|w.gc.doomed| - 1])
    ensures Inv(Now(w, h, w.bucket), cfg)
  {
    hide LiveKey, NamesExact, KeepExact;
    var n := |w.gc.doomed| - 1;
    assert w.gc.doomed == h.doomed + [w.gc.doomed[n]];
  }

  /** When the last page is purged, exactly the live blocks of the cycle are left. */
  ghost predicate Collected(w: World, c: Bucket)
  {
    && w.swept == w.before
    && forall k :: k in c.blocks <==> k in w.before && LiveKey(w.cat, c.backups, k)
  }

  lemma PurgedKeeps(w: World, cfg: Settings, store: Store)
    requires Inv(w, cfg) && w.gc.progress.Deleting?
    ensures var (r, g, c) := Purged(w.gc, w.bucket, w.gc.progress.next, cfg, store);
      && Inv(Now(w, g, c), cfg)
      && (r.Done? ==> Collected(w, c) && g.progress.Unloaded?)
      && (!r.Done? ==> g.loaded)
      && (r.Erred? ==> g.progress == w.gc.progress && g.doomed != [] && g.doomed <= w.gc.doomed && g.io.state.Idle?)
      && (forall k :: k in w.bucket.blocks && k !in c.blocks ==> k in w.gc.doomed)
  {
    hide SweepOk, NamesExact, KeepExact, IoOk, Ascending, LiveKey, Deleted;
    var gc, next := w.gc, w.gc.progress.next;
    var count := if cfg.perBeat < |gc.doomed| then cfg.perBeat else |gc.doomed|;
    DeletedKeeps(w, cfg, count, store);
    var (r, g, c) := Deleted(gc, w.bucket, count, store);
    if r.Moved? && g.doomed == [] {
      PageFinished(Now(w, g, c), cfg);
      if next.None? {
        CycleFinished(Now(w, g, c), cfg);
      }
    }
  }

  lemma PageFinished(w: World, cfg: Settings)
    requires Inv(w, cfg) && w.gc.progress.Deleting? && w.gc.doomed == []
    ensures w.gc.progress.next.Some? ==> Inv(Now(w, w.gc.(progress := Sweeping(w.gc.progress.next)), w.bucket), cfg)
    ensures w.gc.progress.next.None? ==> Inv(Now(w, w.gc.(progress := Unloaded, loaded := false), w.bucket), cfg)
  {
    hide LiveKey, NamesExact, KeepExact, Ascending;
    NoRequest(w.gc.io, w.bucket);
  }

  lemma CycleFinished(w: World, cfg: Settings)
    requires Inv(w, cfg) && w.gc.progress == Deleting(None) && w.gc.doomed == []
    ensures Collected(w, w.bucket)
  {
    hide LiveKey, NamesExact, KeepExact;
    forall k ensures k in w.swept <==> k in w.before { assert Within(k, None); }
    AscendingUnique(w.swept, w.before);
    forall k ensures k in w.bucket.blocks <==> k in w.before && LiveKey(w.cat, w.bucket.backups, k) {
      assert Decided(k, w.gc.progress);
    }
  }

  // ---------------------------------------------------------------- one beat

  function Beat(w: World, cfg: Settings, store: Store): (Result, World)
    requires w.gc.progress.Walk? ==> w.gc.progress.position <= |w.gc.keep|
  {
    var (r, g, c) := Beaten(w.gc, w.bucket, w.cat, cfg, store);
    var t := Now(w, g, c);
    if r.Moved? && w.gc.progress.Unloaded? then (r, t.(before := w.bucket.blocks, swept := [], from := |w.gc.io.log|))
    else if r.Moved? && w.gc.progress.Sweeping?
    then (r, t.(swept := w.swept + Page(w.bucket.blocks, w.gc.progress.cursor, SweepLimit(cfg))))
    else (r, t)
  }

  lemma InvWalk(w: World, cfg: Settings)
    requires Inv(w, cfg)
    ensures w.gc.progress.Walk? ==> w.gc.progress.position <= |w.gc.keep|
  {
  }

  lemma ResetKeeps(w: World, cfg: Settings, g: Gc, b: Bucket)
    requires Ascending(b.blocks) && Ascending(b.backups) && Ascending(w.before)
    ensures Inv(Now(w, Reset(g), b), cfg)
  {
  }

  /** Before the sweep a beat deletes nothing, and an error discards the cycle. */
  lemma MarkingBeat(w: World, cfg: Settings, store: Store)
    requires Inv(w, cfg) && !w.gc.progress.Sweeping? && !w.gc.progress.Deleting?
    ensures w.gc.progress.Walk? ==> w.gc.progress.position <= |w.gc.keep|
    ensures var (r, t) := Beat(w, cfg, store); Inv(t, cfg) && !r.Done? && t.bucket == w.bucket
    ensures var (r, t) := Beat(w, cfg, store); r.Erred? ==> t.gc.progress.Unloaded? && !t.gc.rosterLoaded
  {
    hide Inv, Backed, Read, Walked, Begun;
    InvWalk(w, cfg);
    InvSorted(w, cfg);
    var (r, g, c) := Stepped(w.gc, w.bucket, w.cat, cfg, store);
    match w.gc.progress {
      case Unloaded => BegunKeeps(w, cfg);
      case Backing(_) => BackedKeeps(w, cfg, store);
      case Manifests(_) => ReadKeeps(w, cfg, store);
      case Walk(_) => WalkedKeeps(w, cfg, store);
    }
    if r.Erred? { ResetKeeps(w, cfg, g, c); }
  }

  lemma InvSorted(w: World, cfg: Settings)
    requires Inv(w, cfg)
    ensures Ascending(w.bucket.blocks) && Ascending(w.bucket.backups) && Ascending(w.before)
  {
  }

  /** A beat keeps the invariant, and never asks for another object than the one it waits for. */
  lemma BeatKeeps(w: World, cfg: Settings, store: Store)
    requires Inv(w, cfg)
    ensures w.gc.progress.Walk? ==> w.gc.progress.position <= |w.gc.keep|
    ensures Inv(Beat(w, cfg, store).1, cfg)
  {
    hide Inv, Swept, Purged, Backed, Read, Walked, Begun;
    InvWalk(w, cfg);
    if w.gc.progress.Sweeping? {
      SweptKeeps(w, cfg, store);
    } else if w.gc.progress.Deleting? {
      PurgedKeeps(w, cfg, store);
    } else {
      MarkingBeat(w, cfg, store);
    }
  }

  // ---------------------------------------------------------------- safety

  /** GC safety. A beat removes a stored block only while it purges, after marking is complete, and
      only a block that is neither a root nor a child of one. */
  lemma BeatDeletesGarbage(w: World, cfg: Settings, store: Store, k: Key)
    requires Inv(w, cfg)
    requires w.gc.progress.Walk? ==> w.gc.progress.position <= |w.gc.keep|
    requires k in w.bucket.blocks && k !in Beat(w, cfg, store).1.bucket.blocks
    ensures w.gc.progress.Deleting? && w.gc.loaded
    ensures w.cat.parse(k).Some? && !IsLive(w.cat, w.bucket.backups, w.cat.parse(k).value)
  {
    hide Swept, Purged, Backed, Read, Walked, Begun, IsLive;
    if w.gc.progress.Sweeping? {
      SweptKeeps(w, cfg, store);
    } else if w.gc.progress.Deleting? {
      PurgedKeeps(w, cfg, store);
      assert k in w.gc.doomed;
    } else {
      MarkingBeat(w, cfg, store);
    }
  }

  /** A finished cycle leaves exactly the blocks stored at its start that are live, and it has listed
      each of them once. */
  lemma CycleLeavesLive(w: World, cfg: Settings, store: Store)
    requires Inv(w, cfg)
    requires w.gc.progress.Walk? ==> w.gc.progress.position <= |w.gc.keep|
    requires Beat(w, cfg, store).0.Done?
    ensures var c := Beat(w, cfg, store).1.bucket;
      && w.swept == w.before && Ascending(w.swept)
      && (forall k :: k in w.before ==> w.cat.parse(k).Some?)
      && (forall k :: k in c.blocks <==> k in w.before && IsLive(w.cat, c.backups, w.cat.parse(k).value))
  {
    hide Swept, Purged, Backed, Read, Walked, Begun, IsLive;
    if w.gc.progress.Sweeping? {
      SweptKeeps(w, cfg, store);
      assert false;
    } else if w.gc.progress.Deleting? {
      PurgedKeeps(w, cfg, store);
    } else {
      MarkingBeat(w, cfg, store);
      assert false;
    }
  }

  /** A failed deletion keeps the key it was for and the cursor of the next page. */
  lemma FailureKeepsPlace(w: World, cfg: Settings, store: Store)
    requires Inv(w, cfg) && w.gc.loaded
    requires w.gc.progress.Walk? ==> w.gc.progress.position <= |w.gc.keep|
    requires Beat(w, cfg, store).0.Erred?
    ensures var g := Beat(w, cfg, store).1.gc;
      && g.progress == w.gc.progress && g.loaded
      && (w.gc.progress.Sweeping? ==> g.doomed == [])
      && (w.gc.progress.Deleting? ==> g.doomed != [] && g.doomed <= w.gc.doomed && g.io.state.Idle?)
  {
    hide Swept, Purged, Backed, Read, Walked, Begun;
    if w.gc.progress.Sweeping? { SweptKeeps(w, cfg, store); } else { PurgedKeeps(w, cfg, store); }
  }

  // ---------------------------------------------------------------- runs

  /** A beat with the store's replies; the reactor driving the request; credential renewal draining or
      reopening admission; a reset when the backup roster changed; and, between cycles, whatever
      the durable writers did. An interrupted deletion may have taken effect. */
  datatype Op =
    | Collect(store: Store)
    | Drive(verdict: Verdict)
    | Admit(draining: bool, applied: bool)
    | Restart(applied: bool)
    | Write(cat: Catalog, bucket: Bucket)

  function Interrupted(w: World, applied: bool): Bucket
  {
    if applied && w.gc.io.state.Active? then AfterDelete(w.bucket, w.gc.io.state.request) else w.bucket
  }

  /** Writers run only between cycles. They change the backups that a loaded roster names only
      together with a reset. */
  ghost predicate MayWrite(w: World, cat: Catalog, b: Bucket)
  {
    && w.gc.progress.Unloaded? && Ascending(b.blocks) && Ascending(b.backups)
    && (w.gc.rosterLoaded ==> NamesExact(cat, b.backups, w.gc.names))
  }

  ghost function Step(w: World, cfg: Settings, op: Op): World
    requires w.gc.progress.Walk? ==> w.gc.progress.position <= |w.gc.keep|
  {
    match op
    case Collect(store) => Beat(w, cfg, store).1
    case Drive(verdict) =>
      var (io, c) := Advanced(w.gc.io, w.bucket, verdict);
      Now(w, w.gc.(io := io), c)
    case Admit(draining, applied) =>
      if draining then Now(w, w.gc.(io := Cancelled(w.gc.io).(draining := true)), Interrupted(w, applied))
      else Now(w, w.gc.(io := w.gc.io.(draining := false)), w.bucket)
    case Restart(applied) => Now(w, Reset(w.gc), Interrupted(w, applied))
    case Write(cat, bucket) => if MayWrite(w, cat, bucket) then w.(cat := cat, bucket := bucket) else w
  }

  /** The only request that can change the bucket is the deletion of a doomed key. */
  lemma OutstandingDelete(w: World, cfg: Settings)
    requires Inv(w, cfg) && !w.gc.io.state.Idle? && w.gc.io.state.request.Delete?
    ensures w.gc.progress.Deleting? && w.gc.loaded && w.gc.io.state.request.key in w.gc.doomed
  {
  }

  lemma BucketLoses(w: World, cfg: Settings, io: Io, c: Bucket)
    requires Inv(w, cfg) && IoOk(io, c, Expected(w.gc, w.cat, cfg))
    requires c == w.bucket
      || (w.gc.io.state.Active? && w.gc.io.state.request.Delete? && c == AfterDelete(w.bucket, w.gc.io.state.request))
    ensures Inv(Now(w, w.gc.(io := io), c), cfg)
  {
    hide SweepOk, NamesExact, KeepExact, Marked, Captured, CapturedMarks, RootsTo, KidsBefore, KidsPart;
    var g := w.gc.(io := io);
    assert Expected(g, w.cat, cfg) == Expected(w.gc, w.cat, cfg);
    if c != w.bucket {
      OutstandingDelete(w, cfg);
      var key := w.gc.io.state.request.key;
      RemovedAscends(w.bucket.blocks, key);
      SweepLoses(w, key);
      SweepIgnores(w, g, c);
    } else if w.gc.loaded {
      SweepSame(w, g);
    }
  }

  lemma SweepSame(w: World, g: Gc)
    requires g == w.gc.(io := g.io, tick := g.tick)
    ensures SweepOk(w) ==> SweepOk(Now(w, g, w.bucket))
  {
  }

  lemma StepKeeps(w: World, cfg: Settings, op: Op)
    requires Inv(w, cfg)
    ensures w.gc.progress.Walk? ==> w.gc.progress.position <= |w.gc.keep|
    ensures Inv(Step(w, cfg, op), cfg)
  {
    hide Inv, Beat, SweepOk;
    InvWalk(w, cfg);
    InvSorted(w, cfg);
    InvIo(w, cfg);
    var wanted := Expected(w.gc, w.cat, cfg);
    match op {
      case Collect(store) => BeatKeeps(w, cfg, store);
      case Drive(verdict) =>
        AdvancedKeeps(w.gc.io, w.bucket, wanted, verdict);
        var (io, c) := Advanced(w.gc.io, w.bucket, verdict);
        BucketLoses(w, cfg, io, c);
      case Admit(draining, applied) =>
        var io := if draining then Cancelled(w.gc.io).(draining := true) else w.gc.io.(draining := false);
        BucketLoses(w, cfg, io, if draining then Interrupted(w, applied) else w.bucket);
      case Restart(applied) =>
        var c := Interrupted(w, applied);
        if c != w.bucket { RemovedAscends(w.bucket.blocks, w.gc.io.state.request.key); }
        ResetKeeps(w, cfg, w.gc, c);
      case Write(cat, bucket) => if MayWrite(w, cat, bucket) { WriteKeeps(w, cfg, cat, bucket); }
    }
  }

  lemma WriteKeeps(w: World, cfg: Settings, cat: Catalog, b: Bucket)
    requires Inv(w, cfg) && MayWrite(w, cat, b)
    ensures Inv(w.(cat := cat, bucket := b), cfg)
  {
    NoRequest(w.gc.io, w.bucket);
  }

  ghost function Run(w: World, cfg: Settings, ops: seq<Op>): (t: World)
    requires Inv(w, cfg)
    ensures Inv(t, cfg)
    decreases |ops|
  {
    if ops == [] then w else
      StepKeeps(w, cfg, ops[0]);
      Run(Step(w, cfg, ops[0]), cfg, ops[1..])
  }

  function Start(cat: Catalog, bucket: Bucket): World
  {
    World(Gc(Unloaded, [], [], false, false, [], None, Io(Idle, [], false, []), 0), bucket, cat, [], [], 0)
  }

  lemma StartOk(cat: Catalog, bucket: Bucket, cfg: Settings)
    requires Ascending(bucket.blocks) && Ascending(bucket.backups)
    ensures Inv(Start(cat, bucket), cfg)
  {
  }

  /** The collector of a process that started over this bucket, after any run. */
  ghost function Reached(cat: Catalog, bucket: Bucket, cfg: Settings, ops: seq<Op>): (w: World)
    requires Ascending(bucket.blocks) && Ascending(bucket.backups)
    ensures Inv(w, cfg) && (w.gc.progress.Walk? ==> w.gc.progress.position <= |w.gc.keep|)
  {
    StartOk(cat, bucket, cfg);
    var w := Run(Start(cat, bucket), cfg, ops);
    InvWalk(w, cfg);
    w
  }

  /** Over every run with waits, errors, timeouts, resets and retries: whatever step comes next, a
      stored block that the collector removes was decided against after marking completed, and is
      outside the roots in memory, the live manifest, every backup and all their rosters. */
  lemma CollectorSafe(cat: Catalog, bucket: Bucket, cfg: Settings, ops: seq<Op>, op: Op, k: Key)
    requires Ascending(bucket.blocks) && Ascending(bucket.backups) && !op.Write?
    requires var w := Reached(cat, bucket, cfg, ops);
      k in w.bucket.blocks && k !in Step(w, cfg, op).bucket.blocks
    ensures var w := Reached(cat, bucket, cfg, ops);
      && w.gc.progress.Deleting? && w.gc.loaded
      && w.cat.parse(k).Some? && !IsLive(w.cat, w.bucket.backups, w.cat.parse(k).value)
  {
    hide Beat, IsLive, Reached, Inv;
    var w := Reached(cat, bucket, cfg, ops);
    if op.Collect? {
      BeatDeletesGarbage(w, cfg, op.store, k);
    } else {
      assert w.gc.io.state.Active? && w.gc.io.state.request.Delete?;
      OutstandingDelete(w, cfg);
      assert k == w.gc.io.state.request.key;
      DoomedIsGarbage(w, cfg, k);
    }
  }

  lemma DoomedIsGarbage(w: World, cfg: Settings, k: Key)
    requires Inv(w, cfg) && w.gc.progress.Deleting? && k in w.gc.doomed
    ensures w.cat.parse(k).Some? && !IsLive(w.cat, w.bucket.backups, w.cat.parse(k).value)
  {
    hide IsLive, NamesExact, KeepExact, IoOk;
  }

  /** The doomed list is empty whenever a page is listed, and it never outgrows its reservation. */
  lemma DoomedFits(cat: Catalog, bucket: Bucket, cfg: Settings, ops: seq<Op>)
    requires Ascending(bucket.blocks) && Ascending(bucket.backups)
    ensures var g := Reached(cat, bucket, cfg, ops).gc;
      |g.doomed| <= cfg.doomedCapacity && (g.progress.Sweeping? ==> g.doomed == []) && (g.doomed != [] ==> g.loaded)
  {
    hide Reached, SweepOk, KeepExact, NamesExact, IoOk;
  }

  // ---------------------------------------------------------------- progress

  function CountPast(objects: seq<Key>, cursor: Cursor): nat
  {
    if objects == [] then 0 else (if Past(objects[0], cursor) then 1 else 0) + CountPast(objects[1..], cursor)
  }

  lemma {:induction false} CountPastFalls(objects: seq<Key>, cursor: Cursor, next: Key)
    requires Past(next, cursor)
    ensures CountPast(objects, Some(next)) + (if next in objects then 1 else 0) <= CountPast(objects, cursor)
  {
    if objects != [] {
      assert objects == [objects[0]] + objects[1..];
      CountPastFalls(objects[1..], cursor, next);
    }
  }

  lemma {:induction false} CountPastRemoved(objects: seq<Key>, key: Key, cursor: Cursor)
    ensures CountPast(Removed(objects, key), cursor) <= CountPast(objects, cursor)
    decreases |objects|
  {
    if objects != [] {
      CountPastRemoved(objects[1..], key, cursor);
      if objects[0] != key {
        var r := [objects[0]] + Removed(objects[1..], key);
        assert r[1..] == Removed(objects[1..], key);
      }
    }
  }

  /** Rosters still to be walked. */
  function Rosters(keep: seq<Mark>, p: nat): nat
    requires p <= |keep|
    decreases |keep| - p
  {
    if p == |keep| then 0 else (if keep[p].kind.Some? then 1 else 0) + Rosters(keep, p + 1)
  }

  lemma {:induction false} RostersSkipped(keep: seq<Mark>, p: nat, q: nat)
    requires p <= q <= |keep| && forall k :: p <= k < q ==> keep[k].kind.None?
    ensures Rosters(keep, q) == Rosters(keep, p)
    decreases q - p
  {
    if p < q { RostersSkipped(keep, p + 1, q); }
  }

  lemma {:induction false} RostersAppended(keep: seq<Mark>, k: seq<Mark>, p: nat)
    requires p <= |keep| && keep <= k && forall i :: |keep| <= i < |k| ==> k[i].kind.None?
    ensures Rosters(k, p) == Rosters(keep, p)
    decreases |keep| - p
  {
    if p < |keep| { RostersAppended(keep, k, p + 1); } else { RostersSkipped(k, p, |k|); }
  }

  datatype Rank = Rank(phase: nat, major: nat, minor: nat)

  predicate Below(a: Rank, b: Rank)
  {
    a.phase < b.phase || (a.phase == b.phase && (a.major < b.major || (a.major == b.major && a.minor < b.minor)))
  }

  /** How much of the cycle is left. */
  function Left(w: World): Rank
    requires w.gc.progress.Walk? ==> w.gc.progress.position <= |w.gc.keep|
  {
    match w.gc.progress
    case Unloaded => Rank(5, 0, 0)
    case Backing(cursor) => Rank(4, CountPast(w.bucket.backups, cursor), 0)
    case Manifests(index) => Rank(3, if index <= |w.gc.names| then |w.gc.names| + 1 - index else 0, 0)
    case Walk(position) => WalkRank(w.gc.keep, position, w.gc.walk, w.cat)
    case Sweeping(cursor) => Rank(1, CountPast(w.bucket.blocks, cursor) + 1, 0)
    case Deleting(next) => Rank(1, if next.Some? then CountPast(w.bucket.blocks, next) + 1 else 0, |w.gc.doomed| + 1)
  }

  function WalkRank(keep: seq<Mark>, position: nat, walk: Option<nat>, cat: Catalog): (r: Rank)
    requires position <= |keep|
    ensures r.phase == 2
  {
    Rank(2, Rosters(keep, position), VisitsLeft(keep, position, walk, cat))
  }

  function VisitsLeft(keep: seq<Mark>, position: nat, walk: Option<nat>, cat: Catalog): nat
    requires position <= |keep|
  {
    var p := Skipped(keep, position);
    if p == |keep| then 0
    else
      var n, visits := if walk.Some? then walk.value else 0, |cat.plan(keep[p].id)|;
      if n < visits then visits - n else 0
  }
}
