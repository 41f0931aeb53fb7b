/** Every beat that neither waits nor fails brings a collection cycle closer to its end. */
module GcProgress {
  import opened Options
  import opened GcStore
  import opened GcKeep
  import opened GcCore
  import opened GcInvariant
  import opened GcSteps
  import opened GcRuns

  lemma {:induction false} ChildrenArePlain(keep: seq<Mark>, ids: seq<nat>, capacity: nat)
    ensures var k := Retained(keep, AsRoots(ids, None), capacity).1;
      keep <= k && forall i :: |keep| <= i < |k| ==> k[i].kind.None?
    decreases |ids|
  {
    if ids != [] {
      assert AsRoots(ids, None)[0] == Mark(ids[0], None) && AsRoots(ids, None)[1..] == AsRoots(ids[1..], None);
      ChildrenArePlain(Inserted(keep, ids[0], capacity).1, ids[1..], capacity);
    }
  }

  /** A poll takes no key from a listing but by deleting one. */
  lemma AskedCounts(gc: Gc, b: Bucket, request: Request, store: Store, cursor: Cursor)
    requires gc.io.state.Idle? || gc.io.state.request == request
    ensures CountPast(Asked(gc, b, request, store).2.blocks, cursor) <= CountPast(b.blocks, cursor)
    ensures Asked(gc, b, request, store).1 == gc.(io := Asked(gc, b, request, store).1.io, tick := gc.tick + 1)
    ensures Asked(gc, b, request, store).0.Ready? ==> Asked(gc, b, request, store).1.io.state.Idle?
  {
    if request.Delete? { CountPastRemoved(b.blocks, request.key, cursor); }
  }

  lemma {:induction false} DeletedCounts(gc: Gc, b: Bucket, count: nat, store: Store, cursor: Cursor)
    requires count <= |gc.doomed|
    requires count > 0 ==> gc.io.state.Idle? || gc.io.state.request == Delete(gc.doomed[|gc.doomed| - 1])
    ensures var (r, g, c) := Deleted(gc, b, count, store);
      && CountPast(c.blocks, cursor) <= CountPast(b.blocks, cursor) && |g.doomed| <= |gc.doomed|
      && (r.Moved? ==> |g.doomed| + count == |gc.doomed|) && g.progress == gc.progress && !r.Done?
    decreases count
  {
    hide Asked;
    if count > 0 {
      var n := |gc.doomed| - 1;
      var request := Delete(gc.doomed[n]);
      AskedCounts(gc, b, request, store, cursor);
      var (r, g, c) := Asked(gc, b, request, store);
      if r.Ready? { DeletedCounts(g.(doomed := gc.doomed[..n]), c, count - 1, store, cursor); }
    }
  }

  lemma PurgedShrinks(w: World, cfg: Settings, store: Store)
    requires Inv(w, cfg) && w.gc.progress.Deleting? && cfg.perBeat > 0
    ensures var (r, g, c) := Purged(w.gc, w.bucket, w.gc.progress.next, cfg, store);
      && !g.progress.Walk?
      && (r.Moved? ==> Below(Left(Now(w, g, c)), Left(w)))
      && (r.Waiting? ==> !Below(Left(w), Left(Now(w, g, c))))
  {
    hide SweepOk, NamesExact, KeepExact, Ascending, Deleted, CountPast;
    var gc, next := w.gc, w.gc.progress.next;
    var count := if cfg.perBeat < |gc.doomed| then cfg.perBeat else |gc.doomed|;
    DeletedCounts(gc, w.bucket, count, store, next);
  }

  lemma SweptShrinks(w: World, cfg: Settings, store: Store)
    requires Inv(w, cfg) && w.gc.progress.Sweeping?
    ensures var (r, g, c) := Swept(w.gc, w.bucket, w.gc.progress.cursor, w.cat, cfg, store);
      && (r.Moved? ==> Below(Left(Now(w, g, c)), Left(w)))
      && (r.Waiting? ==> !Below(Left(w), Left(Now(w, g, c))))
  {
    hide SweepOk, NamesExact, KeepExact, IoOk, AllParse, Unkept, CountPast;
    var cursor, limit := w.gc.progress.cursor, SweepLimit(cfg);
    if limit > 0 {
      AskedReads(w.gc, w.bucket, List(Blocks, cursor, limit), store);
      NextFalls(w.bucket.blocks, cursor, limit);
    }
  }

  lemma NextFalls(objects: seq<Key>, cursor: Cursor, limit: nat)
    requires Ascending(objects) && limit > 0
    ensures var next := NextCursor(Page(objects, cursor, limit), limit);
      next.Some? ==> CountPast(objects, next) < CountPast(objects, cursor)
  {
    PageWhole(objects, cursor, limit);
    var page := Page(objects, cursor, limit);
    var next := NextCursor(page, limit);
    if next.Some? {
      assert next.value in page;
      CountPastFalls(objects, cursor, next.value);
    }
  }

  lemma BackedShrinks(w: World, cfg: Settings, store: Store)
    requires Inv(w, cfg) && w.gc.progress.Backing?
    ensures var (r, g, c) := Backed(w.gc, w.bucket, w.gc.progress.cursor, w.cat, cfg, store);
      && !g.progress.Walk?
      && (r.Moved? ==> Below(Left(Now(w, g, c)), Left(w)))
      && (r.Waiting? ==> !Below(Left(w), Left(Now(w, g, c))))
  {
    hide Marked, Captured, CapturedMarks, NamesTo, NamesExact, IoOk, Named, SortedDistinct, CountPast;
    var cursor := w.gc.progress.cursor;
    if cfg.pageKeys > 0 {
      AskedReads(w.gc, w.bucket, List(Backups, cursor, cfg.pageKeys), store);
      NextFalls(w.bucket.backups, cursor, cfg.pageKeys);
    }
  }

  lemma ReadShrinks(w: World, cfg: Settings, store: Store)
    requires Inv(w, cfg) && w.gc.progress.Manifests?
    ensures var (r, g, c) := Read(w.gc, w.bucket, w.gc.progress.index, w.cat, cfg, store);
      && (g.progress.Walk? ==> g.progress.position <= |g.keep|)
      && (r.Moved? ==> Below(Left(Now(w, g, c)), Left(w)))
      && (r.Waiting? ==> !Below(Left(w), Left(Now(w, g, c))))
  {
    hide Marked, Captured, CapturedMarks, NamesExact, IoOk, Retained, RootsTo;
    var index := w.gc.progress.index;
    if index <= |w.gc.names| && (index > 0 || w.cat.manifestPresent) {
      AskedReads(w.gc, w.bucket, Get(ManifestObject(w.gc.names, index)), store);
    }
  }

  /** The rank of a walk at one of its rosters. */
  lemma LeftAt(w: World, p: nat)
    requires w.gc.progress.Walk? && w.gc.progress.position <= |w.gc.keep|
    requires p == Skipped(w.gc.keep, w.gc.progress.position) < |w.gc.keep|
    ensures Left(w) == Left(Now(w, w.gc.(progress := Walk(p)), w.bucket))
  {
    RostersSkipped(w.gc.keep, w.gc.progress.position, p);
    assert Skipped(w.gc.keep, p) == p;
  }

  /** Appending plain entries and finishing a roster or one of its visits. */
  lemma WalkRankFalls(keep: seq<Mark>, k: seq<Mark>, p: nat, walk: Option<nat>, after: Option<nat>, cat: Catalog)
    requires p < |keep| && keep[p].kind.Some? && keep <= k && forall i :: |keep| <= i < |k| ==> k[i].kind.None?
    ensures Below(WalkRank(k, p + 1, after, cat), WalkRank(keep, p, walk, cat))
    ensures
      (after.Some? && (if walk.Some? then walk.value else 0) < after.value <= |cat.plan(keep[p].id)|) ==>
      Below(WalkRank(k, p, after, cat), WalkRank(keep, p, walk, cat))
    ensures walk.None? && after == Some(0) && k == keep ==> WalkRank(k, p, after, cat) == WalkRank(keep, p, walk, cat)
  {
    RostersAppended(keep, k, p);
    RostersAppended(keep, k, p + 1);
    assert keep[p] == k[p] && Skipped(k, p) == p == Skipped(keep, p);
  }

  /** Taking in children moves the walk on without adding rosters. */
  lemma TakenShrinks(w: World, cfg: Settings, p: nat, read: (Poll, Gc, Bucket), corrupt: bool, ids: seq<nat>,
                     walk: Option<nat>, progress: Progress)
    requires w.gc.progress == Walk(p) && p < |w.gc.keep| && w.gc.keep[p].kind.Some?
    requires read.1 == w.gc.(io := read.1.io, tick := read.1.tick, walk := read.1.walk)
    requires read.1.walk == w.gc.walk || (w.gc.walk.None? && read.1.walk == Some(0))
    requires progress == Walk(p + 1)
      || (progress == Walk(p) && walk.Some? && walk.value <= |w.cat.plan(w.gc.keep[p].id)|
                                         && walk.value > if w.gc.walk.Some? then w.gc.walk.value else 0)
    ensures var (r, g, c) := Taken(read, corrupt, ids, walk, progress, cfg);
      && g.progress.Walk? && g.progress.position <= |g.keep|
      && (r.Moved? ==> Below(Left(Now(w, g, c)), Left(w)))
      && (r.Waiting? ==> !Below(Left(w), Left(Now(w, g, c))))
  {
    hide Retained, AsRoots, WalkRank;
    var keep := Retained(w.gc.keep, AsRoots(ids, None), cfg.limits.keep).1;
    ChildrenArePlain(w.gc.keep, ids, cfg.limits.keep);
    WalkRankFalls(w.gc.keep, keep, p, w.gc.walk, walk, w.cat);
    WalkRankFalls(w.gc.keep, w.gc.keep, p, w.gc.walk, read.1.walk, w.cat);
  }

  lemma RowsWalkedShrinks(w: World, cfg: Settings, p: nat, store: Store)
    requires Inv(w, cfg) && w.gc.progress == Walk(p) && p < |w.gc.keep| && w.gc.keep[p].kind == Some(SstRoster)
    ensures var (r, g, c) := RowsWalked(w.gc, w.bucket, p, w.cat, cfg, store);
      && g.progress.Walk? && g.progress.position <= |g.keep|
      && (r.Moved? ==> Below(Left(Now(w, g, c)), Left(w)))
      && (r.Waiting? ==> !Below(Left(w), Left(Now(w, g, c))))
  {
    hide Inv, IoOk, Taken, Fetched, Left, Below;
    WalkFacts(w, cfg);
    var id := w.gc.keep[p].id;
    FetchedReads(w.gc, w.bucket, id, store);
    TakenShrinks(w, cfg, p, Fetched(w.gc, w.bucket, id, store), store(w.gc.tick).corrupt, w.cat.rows(id), w.gc.walk,
                 Walk(p + 1));
  }

  lemma VisitingShape(gc: Gc, b: Bucket, v: Visit, n: nat, store: Store)
    ensures var g := Visiting(gc, b, v, n, store).1; g == gc.(io := g.io, tick := g.tick, walk := Some(n))
  {
  }

  lemma IndexWalkedShrinks(w: World, cfg: Settings, p: nat, store: Store)
    requires Inv(w, cfg) && w.gc.progress == Walk(p) && p < |w.gc.keep| && w.gc.keep[p].kind == Some(IndexRoster)
    ensures var (r, g, c) := IndexWalked(w.gc, w.bucket, p, w.cat, cfg, store);
      && g.progress.Walk? && g.progress.position <= |g.keep|
      && (r.Moved? ==> Below(Left(Now(w, g, c)), Left(w)))
      && (r.Waiting? ==> !Below(Left(w), Left(Now(w, g, c))))
  {
    hide Inv, IoOk, Taken, Visiting, WalkRank;
    WalkFacts(w, cfg);
    var gc, plan := w.gc, w.cat.plan(w.gc.keep[p].id);
    var n := if gc.walk.Some? then gc.walk.value else 0;
    if n < |plan| {
      VisitingShape(gc, w.bucket, plan[n], n, store);
      var last := n + 1 >= |plan|;
      TakenShrinks(w, cfg, p, Visiting(gc, w.bucket, plan[n], n, store), store(gc.tick).corrupt, plan[n].kept,
                   if last then None else Some(n + 1), if last then Walk(p + 1) else Walk(p));
    } else {
      WalkRankFalls(gc.keep, gc.keep, p, gc.walk, None, w.cat);
    }
  }

  lemma WalkedShrinks(w: World, cfg: Settings, store: Store)
    requires Inv(w, cfg) && w.gc.progress.Walk? && w.gc.progress.position <= |w.gc.keep|
    ensures var (r, g, c) := Walked(w.gc, w.bucket, w.gc.progress.position, w.cat, cfg, store);
      && (g.progress.Walk? ==> g.progress.position <= |g.keep|)
      && (r.Moved? ==> Below(Left(Now(w, g, c)), Left(w)))
      && (r.Waiting? ==> !Below(Left(w), Left(Now(w, g, c))))
  {
    hide Inv, RowsWalked, IndexWalked, ById, WalkRank;
    var p := Skipped(w.gc.keep, w.gc.progress.position);
    if p < |w.gc.keep| {
      SkipKeeps(w, cfg);
      LeftAt(w, p);
      var v := Now(w, w.gc.(progress := Walk(p)), w.bucket);
      if w.gc.keep[p].kind == Some(SstRoster) {
        RowsWalkedShrinks(v, cfg, p, store);
      } else {
        assert w.gc.keep[p].kind.value.IndexRoster?;
        IndexWalkedShrinks(v, cfg, p, store);
      }
    }
  }

  /** A lexicographic measure falls with every beat that moves, and does not rise with one that waits.
      So a cycle of beats that neither wait nor fail ends. */
  lemma BeatProgresses(w: World, cfg: Settings, store: Store)
    requires Inv(w, cfg) && cfg.perBeat > 0
    requires w.gc.progress.Walk? ==> w.gc.progress.position <= |w.gc.keep|
    ensures var (r, t) := Beat(w, cfg, store);
      && (t.gc.progress.Walk? ==> t.gc.progress.position <= |t.gc.keep|)
      && (r.Moved? ==> Below(Left(t), Left(w)))
      && (r.Waiting? ==> !Below(Left(w), Left(t)))
  {
    hide Inv, Swept, Purged, Backed, Read, Walked, CountPast, WalkRank;
    BeatKeeps(w, cfg, store);
    InvWalk(Beat(w, cfg, store).1, cfg);
    match w.gc.progress {
      case Unloaded =>
      case Backing(_) => BackedShrinks(w, cfg, store);
      case Manifests(_) => ReadShrinks(w, cfg, store);
      case Walk(_) => WalkedShrinks(w, cfg, store);
      case Sweeping(_) => SweptShrinks(w, cfg, store);
      case Deleting(_) => PurgedShrinks(w, cfg, store);
    }
  }

  /** The world after n beats, the first with the replies of `stores(i)`. */
  ghost function Beats(w: World, cfg: Settings, stores: nat -> Store, i: nat, n: nat): (t: World)
    requires Inv(w, cfg)
    ensures Inv(t, cfg)
    decreases n
  {
    if n == 0 then w else
      BeatKeeps(w, cfg, stores(i));
      Beats(Beat(w, cfg, stores(i)).1, cfg, stores, i + 1, n - 1)
  }

  ghost predicate Advances(w: World, cfg: Settings, stores: nat -> Store, i: nat, n: nat)
    requires Inv(w, cfg)
  {
    var t := Beats(w, cfg, stores, i, n);
    InvWalk(t, cfg);
    var r := Beat(t, cfg, stores(i + n)).0;
    r.Moved? || r.Done?
  }

  ghost predicate Ends(w: World, cfg: Settings, stores: nat -> Store, i: nat, n: nat)
    requires Inv(w, cfg)
  {
    var t := Beats(w, cfg, stores, i, n);
    InvWalk(t, cfg);
    Beat(t, cfg, stores(i + n)).0.Done?
  }

  ghost predicate Ended(w: World, cfg: Settings, stores: nat -> Store, i: nat, n: nat)
    requires Inv(w, cfg)
  {
    exists m: nat :: m < n && Ends(w, cfg, stores, i, m)
  }

  /** From every state: if no beat waits or fails until the cycle ends, some beat ends it. */
  lemma {:induction false} CycleEnds(w: World, cfg: Settings, stores: nat -> Store, i: nat) returns (n: nat)
    requires Inv(w, cfg) && cfg.perBeat > 0
    requires w.gc.progress.Walk? ==> w.gc.progress.position <= |w.gc.keep|
    requires forall m: nat :: Ended(w, cfg, stores, i, m) || Advances(w, cfg, stores, i, m)
    ensures Ends(w, cfg, stores, i, n)
    decreases Left(w).phase, Left(w).major, Left(w).minor
  {
    hide Inv, Beat, Left;
    assert Ended(w, cfg, stores, i, 0) || Advances(w, cfg, stores, i, 0);
    var (r, t) := Beat(w, cfg, stores(i));
    if r.Done? {
      n := 0;
    } else {
      BeatKeeps(w, cfg, stores(i));
      BeatProgresses(w, cfg, stores(i));
      var j := i + 1;
      forall m: nat ensures Ended(t, cfg, stores, j, m) || Advances(t, cfg, stores, j, m) {
        assert Beats(w, cfg, stores, i, m + 1) == Beats(t, cfg, stores, j, m);
        if Ended(w, cfg, stores, i, m + 1) {
          var k: nat :| k < m + 1 && Ends(w, cfg, stores, i, k);
          assert Beats(w, cfg, stores, i, k) == Beats(t, cfg, stores, j, k - 1);
          assert Ends(t, cfg, stores, j, k - 1);
        } else {
          assert Advances(w, cfg, stores, i, m + 1);
        }
      }
      var later := CycleEnds(t, cfg, stores, j);
      n := later + 1;
      assert Beats(w, cfg, stores, i, n) == Beats(t, cfg, stores, j, later);
    }
  }
}
