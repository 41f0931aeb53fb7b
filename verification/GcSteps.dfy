/** Every beat of the collector keeps what it knows about its cycle. */
module GcSteps {
  import opened Options
  import opened GcStore
  import opened GcKeep
  import opened GcCore
  import opened GcInvariant

  /** The collector and bucket after a step, with the cycle's history unchanged. */
  function Now(w: World, g: Gc, c: Bucket): World
  {
    w.(gc := g, bucket := c)
  }

  lemma IdleOk(io: Io, b: Bucket, wanted: Option<Request>)
    requires io.state.Idle?
    ensures IoOk(io, b, wanted)
  {
  }

  /** Asking for something other than a deletion leaves the bucket alone. */
  lemma AskedReads(gc: Gc, b: Bucket, request: Request, store: Store)
    requires IoOk(gc.io, b, Some(request)) && !request.Delete?
    ensures var (r, g, c) := Asked(gc, b, request, store);
      && c == b && g == gc.(io := g.io, tick := gc.tick + 1) && IoOk(g.io, b, Some(request)) && !r.Changed?
      && (r.Ready? || r.Failed? ==> g.io.state.Idle?)
      && (r.Ready? && request.List? ==>
            g.io.keys == Page(Listing(b, request.space), request.cursor, request.limit)
            && r.answer == Listed(NextCursor(g.io.keys, request.limit)))
  {
    PolledKeeps(gc.io, b, request, store(gc.tick).verdict);
  }

  lemma FetchedReads(gc: Gc, b: Bucket, id: nat, store: Store)
    requires IoOk(gc.io, b, Some(Get(Block(id))))
    ensures var (r, g, c) := Fetched(gc, b, id, store);
      && c == b && g == gc.(io := g.io, tick := gc.tick + 1) && IoOk(g.io, b, Some(Get(Block(id)))) && !r.Changed?
      && (r.Ready? || r.Failed? ==> g.io.state.Idle?)
  {
    if !(gc.io.state.Idle? && store(gc.tick).cached) { AskedReads(gc, b, Get(Block(id)), store); }
  }

  // ---------------------------------------------------------------- roots and backups

  /** Only the request and the clock moved. */
  lemma WaitingKeeps(w: World, cfg: Settings, g: Gc)
    requires Inv(w, cfg) && g == w.gc.(io := g.io, tick := g.tick) && IoOk(g.io, w.bucket, Expected(w.gc, w.cat, cfg))
    ensures Inv(Now(w, g, w.bucket), cfg)
  {
    assert Expected(g, w.cat, cfg) == Expected(w.gc, w.cat, cfg);
  }

  lemma BegunKeeps(w: World, cfg: Settings)
    requires Inv(w, cfg) && w.gc.progress.Unloaded?
    ensures var (r, g) := Begun(w.gc, w.cat, cfg);
      if r.Moved? then Inv(Now(w, g, w.bucket).(before := w.bucket.blocks, swept := [], from := |w.gc.io.log|), cfg)
      else r.Erred? && !g.loaded && Inv(Now(w, g, w.bucket), cfg)
  {
    hide Marked, Captured, CapturedMarks;
    if Captured(w.cat.sources, cfg.limits).0 { CaptureExact(w.cat.sources, cfg.limits); }
  }

  lemma {:induction false} NamedHas(names: seq<nat>, page: seq<Key>, cat: Catalog, capacity: nat, n: nat)
    requires !Named(names, page, cat, capacity).0
    ensures n in Named(names, page, cat, capacity).1
      <==> n in names || exists k :: k in page && cat.nameOf(k) == Some(n)
    decreases |page|
  {
    if page != [] {
      var name := cat.nameOf(page[0]);
      assert page == [page[0]] + page[1..];
      NamedHas(if name.Some? then names + [name.value] else names, page[1..], cat, capacity, n);
      if name == Some(n) { assert page[0] in page && cat.nameOf(page[0]) == Some(n); }
    }
  }

  /** The names in a page are those of the backups it lists. */
  lemma NamesGrow(w: World, cfg: Settings, cursor: Cursor, names: seq<nat>)
    requires Ascending(w.bucket.backups) && NamesTo(w.cat, w.bucket.backups, w.gc.names, cursor) && cfg.pageKeys > 0
    requires var page := Page(w.bucket.backups, cursor, cfg.pageKeys);
      Named(w.gc.names, page, w.cat, cfg.maxBackups) == (false, names)
    ensures var next := NextCursor(Page(w.bucket.backups, cursor, cfg.pageKeys), cfg.pageKeys);
      if next.Some? then NamesTo(w.cat, w.bucket.backups, names, next) else NamesExact(w.cat, w.bucket.backups, names)
  {
    var backups, cat := w.bucket.backups, w.cat;
    var page := Page(backups, cursor, cfg.pageKeys);
    var next := NextCursor(page, cfg.pageKeys);
    PageWhole(backups, cursor, cfg.pageKeys);
    if next.Some? { assert next.value in page && Past(next.value, cursor); }
    forall n ensures n in names <==> exists k :: k in backups && Within(k, next) && cat.nameOf(k) == Some(n) {
      NamedHas(w.gc.names, page, cat, cfg.maxBackups, n);
      if k :| k in backups && !Past(k, cursor) && cat.nameOf(k) == Some(n) { assert Within(k, next); }
      if k :| k in page && cat.nameOf(k) == Some(n) { assert k in backups && Within(k, next); }
      if k :| k in backups && Within(k, next) && cat.nameOf(k) == Some(n) {
        assert k in page || !Past(k, cursor);
      }
    }
    if next.None? {
      forall n ensures n in names <==> IsName(cat, backups, n) {
        if k :| k in backups && cat.nameOf(k) == Some(n) { assert Within(k, next); }
      }
    } else {
      forall n ensures n in names <==> exists k :: k in backups && !Past(k, next) && cat.nameOf(k) == Some(n) {
        if k :| k in backups && Within(k, next) && cat.nameOf(k) == Some(n) { assert !Past(k, next); }
        if k :| k in backups && !Past(k, next) && cat.nameOf(k) == Some(n) { assert Within(k, next); }
      }
    }
  }

  lemma SortedNames(cat: Catalog, backups: seq<Key>, names: seq<nat>)
    requires NamesExact(cat, backups, names)
    ensures NamesExact(cat, backups, SortedDistinct(names))
  {
    forall n ensures n in SortedDistinct(names) <==> IsName(cat, backups, n) { SortedDistinctHas(names, n); }
  }

  /** An error in a phase before the sweep leaves the bucket alone, and the cycle is then discarded. */
  lemma BackedKeeps(w: World, cfg: Settings, store: Store)
    requires Inv(w, cfg) && w.gc.progress.Backing?
    ensures var (r, g, c) := Backed(w.gc, w.bucket, w.gc.progress.cursor, w.cat, cfg, store);
      c == w.bucket && !r.Done? && if r.Erred? then !g.loaded else Inv(Now(w, g, c), cfg)
  {
    hide Marked, Captured, CapturedMarks, NamesTo, NamesExact, Ascending, IoOk, Named, SortedDistinct, RootsTo;
    if cfg.pageKeys > 0 {
      var cursor := w.gc.progress.cursor;
      var request := List(Backups, cursor, cfg.pageKeys);
      AskedReads(w.gc, w.bucket, request, store);
      var (r, g, c) := Asked(w.gc, w.bucket, request, store);
      if r.Pending? {
        WaitingKeeps(w, cfg, g);
      } else if r.Ready? && r.answer.Listed? {
        var (invalid, names) := Named(g.names, g.io.keys, w.cat, cfg.maxBackups);
        if !invalid {
          NamesGrow(w, cfg, cursor, names);
          if r.answer.next.None? { SortedNames(w.cat, w.bucket.backups, names); }
          var h := Backed(w.gc, w.bucket, cursor, w.cat, cfg, store).1;
          IdleOk(h.io, c, Expected(h, w.cat, cfg));
          RootsStart(w.cat, cfg, h.names);
        }
      }
    }
  }

  lemma RootsStart(cat: Catalog, cfg: Settings, names: seq<nat>)
    requires Captured(cat.sources, cfg.limits).0
    ensures RootsTo(cat, cfg, names, 0) == CapturedMarks(cat.sources, cfg.limits)
  {
  }

  // ---------------------------------------------------------------- manifests

  lemma ReadKeeps(w: World, cfg: Settings, store: Store)
    requires Inv(w, cfg) && w.gc.progress.Manifests?
    ensures var (r, g, c) := Read(w.gc, w.bucket, w.gc.progress.index, w.cat, cfg, store);
      c == w.bucket && !r.Done? && if r.Erred? then !g.loaded else Inv(Now(w, g, c), cfg)
  {
    hide Marked, Captured, CapturedMarks, NamesTo, NamesExact, Ascending, IoOk, Retained, MarkSet;
    var gc, index := w.gc, w.gc.progress.index;
    if index > |gc.names| {
      IdleOk(gc.io, w.bucket, Expected(gc.(progress := Walk(0)), w.cat, cfg)) by { NoRequest(gc.io, w.bucket); }
      var h := gc.(progress := Walk(0));
      assert KidsBefore(w.cat, h.keep, 0) + KidsPart(w.cat, h.keep, 0, h.walk) == {};
      assert index == |gc.names| + 1;
    } else if index == 0 && !w.cat.manifestPresent {
      NoManifest(w, cfg);
    } else {
      var request := Get(ManifestObject(gc.names, index));
      AskedReads(gc, w.bucket, request, store);
      var (r, g, c) := Asked(gc, w.bucket, request, store);
      if r.Pending? {
        WaitingKeeps(w, cfg, g);
      } else if r.Ready? && !store(gc.tick).corrupt {
        var marks := ManifestMarks(w.cat, gc.names, index);
        if Retained(gc.keep, marks, cfg.limits.keep).0 {
          RetainedKeeps(gc.keep, marks, cfg.limits.keep, RootsTo(w.cat, cfg, gc.names, index), {});
          var h := Read(gc, w.bucket, index, w.cat, cfg, store).1;
          IdleOk(h.io, c, Expected(h, w.cat, cfg));
        }
      }
    }
  }

  lemma NoRequest(io: Io, b: Bucket)
    requires IoOk(io, b, None)
    ensures io.state.Idle?
  {
  }

  /** Without a live manifest nothing is read and nothing is owed. */
  lemma NoManifest(w: World, cfg: Settings)
    requires Inv(w, cfg) && w.gc.progress == Manifests(0) && !w.cat.manifestPresent
    ensures Inv(Now(w, w.gc.(progress := Manifests(1)), w.bucket), cfg)
  {
    assert MarkSet(ManifestMarks(w.cat, w.gc.names, 0)) == {};
    assert RootsTo(w.cat, cfg, w.gc.names, 1) == RootsTo(w.cat, cfg, w.gc.names, 0);
  }

  // ---------------------------------------------------------------- walking

  /** Skipping plain entries changes nothing that is known. */
  lemma SkipKeeps(w: World, cfg: Settings)
    requires Inv(w, cfg) && w.gc.progress.Walk?
    ensures var p := Skipped(w.gc.keep, w.gc.progress.position);
      && (p < |w.gc.keep| ==> Inv(Now(w, w.gc.(progress := Walk(p)), w.bucket), cfg))
      && (p == |w.gc.keep| ==> w.gc.io.state.Idle? && w.gc.walk.None?)
      && (p == |w.gc.keep| ==>
            Marked(w.gc.keep, RootsTo(w.cat, cfg, w.gc.names, |w.gc.names| + 1), KidsBefore(w.cat, w.gc.keep, p)))
  {
    hide Marked, Captured, RootsTo, NamesExact, Ascending, PlanKids;
    var gc, p := w.gc, Skipped(w.gc.keep, w.gc.progress.position);
    KidsBeforeSkips(w.cat, gc.keep, gc.progress.position, p);
    if p != gc.progress.position {
      assert gc.walk.None?;
      assert KidsPart(w.cat, gc.keep, p, gc.walk) == {} == KidsPart(w.cat, gc.keep, gc.progress.position, gc.walk);
    }
    if p == |gc.keep| {
      assert KidsPart(w.cat, gc.keep, gc.progress.position, gc.walk) == {};
      assert KidsBefore(w.cat, gc.keep, p) + {} == KidsBefore(w.cat, gc.keep, p);
    }
  }

  /** Marking is complete: the keep-set is exactly the live blocks, and the sweep starts. */
  lemma MarkedKeeps(w: World, cfg: Settings)
    requires Inv(w, cfg) && w.gc.progress.Walk? && Skipped(w.gc.keep, w.gc.progress.position) == |w.gc.keep|
    ensures Inv(Now(w, w.gc.(keep := ById(w.gc.keep), loaded := true, progress := Sweeping(None)), w.bucket), cfg)
  {
    hide Marked, Captured, RootsTo, NamesExact, Keeps, IsLive, LiveKey, ById;
    SkipKeeps(w, cfg);
    var gc, backups := w.gc, w.bucket.backups;
    MarkedIsLive(w.cat, cfg, gc.names, backups, gc.keep);
    forall id ensures Keeps(ById(gc.keep), id) <==> IsLive(w.cat, backups, id) { ByIdHas(gc.keep, id); }
  }

  /** The children that one read brings in. */
  lemma ChildrenMarked(w: World, cfg: Settings, p: nat, ids: seq<nat>, part: set<nat>)
    requires Inv(w, cfg) && w.gc.progress == Walk(p) && p < |w.gc.keep|
    requires Retained(w.gc.keep, AsRoots(ids, None), cfg.limits.keep).0
    requires part == KidsPart(w.cat, w.gc.keep, p, w.gc.walk) + IdSet(ids)
    ensures var keep := Retained(w.gc.keep, AsRoots(ids, None), cfg.limits.keep).1;
      w.gc.keep <= keep
        && Marked(keep, RootsTo(w.cat, cfg, w.gc.names, |w.gc.names| + 1), KidsBefore(w.cat, keep, p) + part)
  {
    hide Marked, Captured, RootsTo, NamesExact, Retained, AsRoots, PlanKids, IdSet, KidsOf, Ascending, IoOk;
    var gc, cat := w.gc, w.cat;
    var keep := Retained(gc.keep, AsRoots(ids, None), cfg.limits.keep).1;
    var roots, kids := RootsTo(cat, cfg, gc.names, |gc.names| + 1), KidsBefore(cat, gc.keep, p);
    KidsKept(gc.keep, ids, cfg.limits.keep, roots, kids + KidsPart(cat, gc.keep, p, gc.walk));
    KidsBeforeStays(cat, gc.keep, keep, p);
    assert kids + KidsPart(cat, gc.keep, p, gc.walk) + IdSet(ids) == kids + part;
  }

  lemma RosterDone(w: World, cfg: Settings, g: Gc, p: nat, keep: seq<Mark>)
    requires Inv(w, cfg) && w.gc.progress == Walk(p) && p < |w.gc.keep| && w.gc.keep <= keep
    requires g == w.gc.(io := g.io, tick := g.tick, keep := keep, walk := None, progress := Walk(p + 1))
      && g.io.state.Idle?
    requires Marked(keep, RootsTo(w.cat, cfg, w.gc.names, |w.gc.names| + 1),
                    KidsBefore(w.cat, keep, p) + KidsOf(w.cat, keep[p]))
    ensures Inv(Now(w, g, w.bucket), cfg)
  {
    hide Marked, Captured, RootsTo, NamesExact, PlanKids, KidsOf, Ascending;
    assert KidsBefore(w.cat, keep, p + 1) + KidsPart(w.cat, keep, p + 1, None)
      == KidsBefore(w.cat, keep, p) + KidsOf(w.cat, keep[p]);
  }

  lemma VisitDone(w: World, cfg: Settings, g: Gc, p: nat, keep: seq<Mark>, n: nat)
    requires Inv(w, cfg) && w.gc.progress == Walk(p) && p < |w.gc.keep| && w.gc.keep <= keep
    requires g == w.gc.(io := g.io, tick := g.tick, keep := keep, walk := Some(n)) && g.io.state.Idle?
    requires keep[p].kind == Some(IndexRoster) && n <= |w.cat.plan(keep[p].id)|
    requires Marked(keep, RootsTo(w.cat, cfg, w.gc.names, |w.gc.names| + 1),
                    KidsBefore(w.cat, keep, p) + PlanKids(w.cat.plan(keep[p].id), n))
    ensures Inv(Now(w, g, w.bucket), cfg)
  {
    hide Marked, Captured, RootsTo, NamesExact, PlanKids, KidsBefore, Ascending;
  }

  /** A read that waits, fails or delivers children while a roster is walked. */
  ghost predicate ReadDone(w: World, cfg: Settings, read: (Poll, Gc, Bucket))
  {
    && read.2 == w.bucket && read.1 == w.gc.(io := read.1.io, tick := read.1.tick)
    && IoOk(read.1.io, w.bucket, Expected(w.gc, w.cat, cfg)) && (read.0.Ready? ==> read.1.io.state.Idle?)
  }

  lemma TakenKeeps(w: World, cfg: Settings, p: nat, read: (Poll, Gc, Bucket), corrupt: bool, ids: seq<nat>,
                   walk: Option<nat>, progress: Progress)
    requires Inv(w, cfg) && w.gc.progress == Walk(p) && p < |w.gc.keep| && ReadDone(w, cfg, read)
    requires walk.None? && progress == Walk(p + 1) ==>
      KidsPart(w.cat, w.gc.keep, p, w.gc.walk) + IdSet(ids) == KidsOf(w.cat, w.gc.keep[p])
    requires walk.Some? && progress == Walk(p) ==>
      && w.gc.keep[p].kind == Some(IndexRoster) && walk.value <= |w.cat.plan(w.gc.keep[p].id)|
      && KidsPart(w.cat, w.gc.keep, p, w.gc.walk) + IdSet(ids) == PlanKids(w.cat.plan(w.gc.keep[p].id), walk.value)
    requires if walk.None? then progress == Walk(p + 1) else progress == Walk(p)
    ensures var (r, g, c) := Taken(read, corrupt, ids, walk, progress, cfg);
      c == w.bucket && !r.Done? && if r.Erred? then !g.loaded else Inv(Now(w, g, c), cfg)
  {
    hide Inv, Retained, AsRoots, IoOk, PlanKids, KidsPart, KidsOf, IdSet, KidsBefore, Marked, RootsTo, Expected;
    WalkFacts(w, cfg);
    var g := read.1;
    if read.0.Pending? {
      WaitingKeeps(w, cfg, g);
    } else if read.0.Ready? && !corrupt {
      var (ok, keep) := Retained(w.gc.keep, AsRoots(ids, None), cfg.limits.keep);
      if ok {
        var h := g.(keep := keep, walk := walk, progress := progress);
        ChildrenMarked(w, cfg, p, ids, KidsPart(w.cat, w.gc.keep, p, w.gc.walk) + IdSet(ids));
        if walk.None? { RosterDone(w, cfg, h, p, keep); } else { VisitDone(w, cfg, h, p, keep, walk.value); }
      }
    }
  }

  lemma WalkFacts(w: World, cfg: Settings)
    requires Inv(w, cfg) && w.gc.progress.Walk?
    ensures !w.gc.loaded && Captured(w.cat.sources, cfg.limits).0 && w.gc.progress.position <= |w.gc.keep|
    ensures IoOk(w.gc.io, w.bucket, Expected(w.gc, w.cat, cfg))
    ensures w.gc.walk.Some? ==> w.gc.progress.position < |w.gc.keep|
    ensures w.gc.walk.Some? ==> w.gc.keep[w.gc.progress.position].kind == Some(IndexRoster)
  {
  }

  lemma RowsWalkedKeeps(w: World, cfg: Settings, p: nat, store: Store)
    requires Inv(w, cfg) && w.gc.progress == Walk(p) && p < |w.gc.keep| && w.gc.keep[p].kind == Some(SstRoster)
    ensures var (r, g, c) := RowsWalked(w.gc, w.bucket, p, w.cat, cfg, store);
      c == w.bucket && !r.Done? && if r.Erred? then !g.loaded else Inv(Now(w, g, c), cfg)
  {
    hide Inv, IoOk, Taken, Fetched;
    WalkFacts(w, cfg);
    var id := w.gc.keep[p].id;
    FetchedReads(w.gc, w.bucket, id, store);
    assert KidsPart(w.cat, w.gc.keep, p, w.gc.walk) + IdSet(w.cat.rows(id)) == KidsOf(w.cat, w.gc.keep[p]);
    TakenKeeps(w, cfg, p, Fetched(w.gc, w.bucket, id, store), store(w.gc.tick).corrupt, w.cat.rows(id), None,
               Walk(p + 1));
  }

  lemma StartWalk(w: World, cfg: Settings, p: nat)
    requires Inv(w, cfg) && w.gc.progress == Walk(p) && p < |w.gc.keep| && w.gc.keep[p].kind == Some(IndexRoster)
    requires w.gc.walk.None?
    ensures Inv(Now(w, w.gc.(walk := Some(0)), w.bucket), cfg)
  {
    hide Marked, Captured, RootsTo, NamesExact, Ascending, IoOk;
    assert KidsPart(w.cat, w.gc.keep, p, Some(0)) == {} == KidsPart(w.cat, w.gc.keep, p, None);
  }

  lemma IndexWalkedKeeps(w: World, cfg: Settings, p: nat, store: Store)
    requires Inv(w, cfg) && w.gc.progress == Walk(p) && p < |w.gc.keep| && w.gc.keep[p].kind == Some(IndexRoster)
    ensures var (r, g, c) := IndexWalked(w.gc, w.bucket, p, w.cat, cfg, store);
      c == w.bucket && !r.Done? && if r.Erred? then !g.loaded else Inv(Now(w, g, c), cfg)
  {
    hide Inv, Retained, AsRoots;
    var n := if w.gc.walk.Some? then w.gc.walk.value else 0;
    if w.gc.walk.None? { StartWalk(w, cfg, p); }
    var v := Now(w, w.gc.(walk := Some(n)), w.bucket);
    assert w.gc.walk.Some? ==> v == w;
    VisitKeeps(v, cfg, p, n, store);
    assert IndexWalked(w.gc, w.bucket, p, w.cat, cfg, store) == IndexWalked(v.gc, v.bucket, p, v.cat, cfg, store) by {
      assert w.gc.(walk := Some(n)) == v.gc;
      assert w.gc.(walk := None) == v.gc.(walk := None);
    }
  }

  lemma VisitKeeps(w: World, cfg: Settings, p: nat, n: nat, store: Store)
    requires Inv(w, cfg) && w.gc.progress == Walk(p) && p < |w.gc.keep| && w.gc.keep[p].kind == Some(IndexRoster)
    requires w.gc.walk == Some(n)
    ensures var (r, g, c) := IndexWalked(w.gc, w.bucket, p, w.cat, cfg, store);
      c == w.bucket && !r.Done? && if r.Erred? then !g.loaded else Inv(Now(w, g, c), cfg)
  {
    hide Inv, IoOk, Taken, Visiting, PlanKids, KidsPart, KidsOf, IdSet;
    WalkFacts(w, cfg);
    var gc, plan := w.gc, w.cat.plan(w.gc.keep[p].id);
    if n >= |plan| {
      EndWalk(w, cfg, p);
    } else {
      VisitingReads(w, cfg, p, n, store);
      PlanGrows(w.cat, gc.keep, p, n);
      var last := n + 1 >= |plan|;
      TakenKeeps(w, cfg, p, Visiting(gc, w.bucket, plan[n], n, store), store(gc.tick).corrupt, plan[n].kept,
                 if last then None else Some(n + 1), if last then Walk(p + 1) else Walk(p));
    }
  }

  lemma VisitingReads(w: World, cfg: Settings, p: nat, n: nat, store: Store)
    requires Inv(w, cfg) && w.gc.progress == Walk(p) && p < |w.gc.keep| && w.gc.keep[p].kind == Some(IndexRoster)
    requires w.gc.walk == Some(n) && n < |w.cat.plan(w.gc.keep[p].id)|
    ensures ReadDone(w, cfg, Visiting(w.gc, w.bucket, w.cat.plan(w.gc.keep[p].id)[n], n, store))
  {
    hide Inv, IoOk, Fetched;
    WalkFacts(w, cfg);
    var v := w.cat.plan(w.gc.keep[p].id)[n];
    assert w.gc.(walk := Some(n)) == w.gc;
    if v.read.Some? { FetchedReads(w.gc, w.bucket, v.read.value, store); } else { NoRequest(w.gc.io, w.bucket); }
  }

  lemma InvIo(w: World, cfg: Settings)
    requires Inv(w, cfg)
    ensures IoOk(w.gc.io, w.bucket, Expected(w.gc, w.cat, cfg))
    ensures w.gc.progress.Walk? ==> Captured(w.cat.sources, cfg.limits).0 && w.gc.progress.position <= |w.gc.keep|
  {
  }

  lemma PlanGrows(cat: Catalog, keep: seq<Mark>, p: nat, n: nat)
    requires p < |keep| && keep[p].kind == Some(IndexRoster) && n < |cat.plan(keep[p].id)|
    ensures var plan := cat.plan(keep[p].id);
      && PlanKids(plan, n + 1) == KidsPart(cat, keep, p, Some(n)) + IdSet(plan[n].kept)
      && (n + 1 == |plan| ==> PlanKids(plan, n + 1) == KidsOf(cat, keep[p]))
  {
  }

  lemma EndWalk(w: World, cfg: Settings, p: nat)
    requires Inv(w, cfg) && w.gc.progress == Walk(p) && p < |w.gc.keep| && w.gc.keep[p].kind == Some(IndexRoster)
    requires w.gc.walk.Some? && w.gc.walk.value >= |w.cat.plan(w.gc.keep[p].id)|
    ensures Inv(Now(w, w.gc.(walk := None, progress := Walk(p + 1)), w.bucket), cfg)
  {
    hide Marked, Captured, RootsTo, NamesExact, Ascending;
    var keep, cat := w.gc.keep, w.cat;
    NoRequest(w.gc.io, w.bucket);
    assert KidsPart(cat, keep, p, w.gc.walk) == KidsOf(cat, keep[p]);
    assert KidsBefore(cat, keep, p + 1) + KidsPart(cat, keep, p + 1, None)
      == KidsBefore(cat, keep, p) + KidsPart(cat, keep, p, w.gc.walk);
  }

  lemma WalkedKeeps(w: World, cfg: Settings, store: Store)
    requires Inv(w, cfg) && w.gc.progress.Walk?
    ensures w.gc.progress.position <= |w.gc.keep|
    ensures var (r, g, c) := Walked(w.gc, w.bucket, w.gc.progress.position, w.cat, cfg, store);
      c == w.bucket && !r.Done? && if r.Erred? then !g.loaded else Inv(Now(w, g, c), cfg)
  {
    hide Inv, RowsWalked, IndexWalked, ById;
    WalkBounds(w, cfg);
    var p := Skipped(w.gc.keep, w.gc.progress.position);
    if p == |w.gc.keep| {
      MarkedKeeps(w, cfg);
    } else {
      SkipKeeps(w, cfg);
      var v := Now(w, w.gc.(progress := Walk(p)), w.bucket);
      if w.gc.keep[p].kind == Some(SstRoster) { RowsWalkedKeeps(v, cfg, p, store); }
      else {
        assert w.gc.keep[p].kind.value.IndexRoster?;
        IndexWalkedKeeps(v, cfg, p, store);
      }
    }
  }

  lemma WalkBounds(w: World, cfg: Settings)
    requires Inv(w, cfg) && w.gc.progress.Walk?
    ensures w.gc.progress.position <= |w.gc.keep|
  {
  }

  // ---------------------------------------------------------------- sweeping

  /** A listed page decides about its keys: the unkept ones are doomed, all of them fit. */
  lemma PageDecides(w: World, cfg: Settings, g: Gc, page: seq<Key>)
    requires Inv(w, cfg) && w.gc.progress.Sweeping? && SweepLimit(cfg) > 0
    requires page == Page(w.bucket.blocks, w.gc.progress.cursor, SweepLimit(cfg)) && AllParse(page, w.cat)
    requires g == w.gc.(io := g.io, tick := g.tick, doomed := Unkept(w.gc.keep, page, w.cat),
                        progress := Deleting(NextCursor(page, SweepLimit(cfg))))
    ensures |g.doomed| <= cfg.doomedCapacity
    ensures SweepOk(Now(w, g, w.bucket).(swept := w.swept + page))
  {
    hide LiveKey, IsLive, Keeps, Page, Unkept, NamesExact;
    var cursor, next := w.gc.progress.cursor, NextCursor(page, SweepLimit(cfg));
    PageWhole(w.bucket.blocks, cursor, SweepLimit(cfg));
    UnkeptHas(w.gc.keep, page, w.cat, 0);
    if next.Some? { assert next.value in page && Past(next.value, cursor); }
    forall k | k in w.before ensures Within(k, next) <==> !Past(k, cursor) || k in page {
      assert Past(k, cursor) ==> k in w.bucket.blocks;
    }
    forall k ensures k in g.doomed <==> k in page && !LiveKey(w.cat, w.bucket.backups, k) {
      UnkeptHas(w.gc.keep, page, w.cat, k);
      if k in page {
        ParsedPage(page, w.cat, k);
        LiveIsKept(w, k);
      }
    }
    JoinAscends(w.swept, page, cursor);
    forall k ensures k in w.swept + page <==> k in w.before && Within(k, next) { }
    forall k | k in page ensures w.cat.parse(k).Some? { ParsedPage(page, w.cat, k); }
  }

  lemma ParsedPage(page: seq<Key>, cat: Catalog, k: Key)
    requires AllParse(page, cat) && k in page
    ensures cat.parse(k).Some?
  {
  }

  lemma LiveIsKept(w: World, k: Key)
    requires KeepExact(w.gc.keep, w.cat, w.bucket.backups) && w.cat.parse(k).Some?
    ensures LiveKey(w.cat, w.bucket.backups, k) <==> Keeps(w.gc.keep, w.cat.parse(k).value)
  {
  }

  lemma JoinAscends(a: seq<Key>, b: seq<Key>, cursor: Cursor)
    requires Ascending(a) && Ascending(b)
    requires forall k :: k in a ==> !Past(k, cursor)
    requires forall k :: k in b ==> Past(k, cursor)
    ensures Ascending(a + b)
  {
    forall i, j | 0 <= i < j < |a + b| ensures (a + b)[i] < (a + b)[j] {
      if i < |a| <= j { assert a[i] in a && b[j - |a|] in b; }
    }
  }

  lemma SweptKeeps(w: World, cfg: Settings, store: Store)
    requires Inv(w, cfg) && w.gc.progress.Sweeping?
    ensures var (r, g, c) := Swept(w.gc, w.bucket, w.gc.progress.cursor, w.cat, cfg, store);
      && c == w.bucket && !r.Done? && g.loaded
      && if r.Moved?
         then SweepLimit(cfg) > 0
              && Inv(Now(w, g, c).(swept := w.swept + Page(w.bucket.blocks, w.gc.progress.cursor, SweepLimit(cfg))),
                     cfg)
         else Inv(Now(w, g, c), cfg) && g.progress == w.gc.progress && g.doomed == []
  {
    hide SweepOk, LiveKey, NamesExact, KeepExact, Ascending, Unkept, Page, AllParse, IoOk;
    var gc, cursor, limit := w.gc, w.gc.progress.cursor, SweepLimit(cfg);
    if limit > 0 {
      var request := List(Blocks, cursor, limit);
      AskedReads(gc, w.bucket, request, store);
      var (r, g, c) := Asked(gc, w.bucket, request, store);
      if r.Pending? || !r.Ready? {
        WaitingKeeps(w, cfg, g);
      } else {
        var page := g.io.keys;
        var h := g.(io := g.io.(keys := []));
        IdleOk(h.io, c, Expected(gc, w.cat, cfg));
        if !AllParse(page, w.cat) {
          WaitingKeeps(w, cfg, h);
          assert h.(doomed := []) == h;
        } else {
          assert gc.doomed + Unkept(gc.keep, page, w.cat) == Unkept(gc.keep, page, w.cat);
          var t := h.(doomed := Unkept(gc.keep, page, w.cat), progress := Deleting(r.answer.next));
          PageDecides(w, cfg, t, page);
          IdleOk(t.io, c, Expected(t, w.cat, cfg));
        }
      }
    }
  }
}
