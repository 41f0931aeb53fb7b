/** What a cycle has read. Nothing is removed before every manifest and every roster was served. */
module GcReads {
  import opened Options
  import opened GcStore
  import opened GcKeep
  import opened GcCore
  import opened GcInvariant
  import opened GcSteps
  import opened GcRuns
  import Answers = GcAnswers

  /** The objects read since the cycle began. */
  function Since(w: World): seq<Object>
  {
    if w.from <= |w.gc.io.log| then w.gc.io.log[w.from..] else []
  }

  ghost predicate ManifestRead(w: World, index: nat)
    requires index <= |w.gc.names|
  {
    (index == 0 && !w.cat.manifestPresent) || ManifestObject(w.gc.names, index) in Since(w)
  }

  ghost predicate ManifestsRead(w: World, index: nat)
    requires index <= |w.gc.names| + 1
  {
    forall j :: 0 <= j < index ==> ManifestRead(w, j)
  }

  ghost predicate VisitsRead(w: World, plan: seq<Visit>, n: nat)
  {
    forall i :: 0 <= i < n && i < |plan| && plan[i].read.Some? ==> Block(plan[i].read.value) in Since(w)
  }

  /** The blocks that a roster's children come from. */
  ghost predicate RosterRead(w: World, m: Mark)
  {
    match m.kind
    case None => true
    case Some(SstRoster) => Block(m.id) in Since(w)
    case Some(IndexRoster) => VisitsRead(w, w.cat.plan(m.id), |w.cat.plan(m.id)|)
  }

  ghost predicate RostersRead(w: World, p: nat)
    requires p <= |w.gc.keep|
  {
    forall i :: 0 <= i < p ==> RosterRead(w, w.gc.keep[i])
  }

  /** The live manifest, the manifest of every stored backup, and every roster they or memory name. */
  ghost predicate AllRead(w: World)
  {
    && (w.cat.manifestPresent ==> LiveManifest in Since(w))
    && (forall name :: IsName(w.cat, w.bucket.backups, name) ==> BackupManifest(name) in Since(w))
    && (forall m :: IsRoot(w.cat, w.bucket.backups, m) ==> RosterRead(w, m))
  }

  ghost predicate PhaseRead(w: World)
  {
    match w.gc.progress
    case Unloaded => true
    case Backing(_) => true
    case Manifests(index) => index <= |w.gc.names| + 1 && ManifestsRead(w, index)
    case Walk(p) =>
      && p <= |w.gc.keep| && ManifestsRead(w, |w.gc.names| + 1) && RostersRead(w, p)
      && (w.gc.walk.Some? ==> p < |w.gc.keep| && VisitsRead(w, w.cat.plan(w.gc.keep[p].id), w.gc.walk.value))
    case Sweeping(_) => AllRead(w)
    case Deleting(_) => AllRead(w)
  }

  /** A GET that has a result was served. */
  ghost predicate ResultRead(io: Io, since: seq<Object>)
  {
    io.state.Complete? && io.state.result.Some? && io.state.request.Get? ==> io.state.request.target in since
  }

  ghost predicate ReadOk(w: World)
  {
    w.from <= |w.gc.io.log| && ResultRead(w.gc.io, Since(w)) && PhaseRead(w)
  }

  // ---------------------------------------------------------------- the log only grows

  /** The same cycle, with more objects read. */
  ghost predicate Later(w: World, t: World)
  {
    w.from == t.from <= |w.gc.io.log| && w.gc.io.log <= t.gc.io.log && w.cat == t.cat
      && w.bucket.backups == t.bucket.backups
  }

  lemma LaterHas(w: World, t: World, o: Object)
    requires Later(w, t) && o in Since(w)
    ensures o in Since(t)
  {
    var i :| 0 <= i < |Since(w)| && Since(w)[i] == o;
    assert Since(t)[i] == o;
  }

  lemma ManifestsStay(w: World, t: World, index: nat)
    requires Later(w, t) && w.gc.names == t.gc.names && index <= |w.gc.names| + 1 && ManifestsRead(w, index)
    ensures ManifestsRead(t, index)
  {
    forall j | 0 <= j < index ensures ManifestRead(t, j) {
      assert ManifestRead(w, j);
      if !(j == 0 && !w.cat.manifestPresent) { LaterHas(w, t, ManifestObject(w.gc.names, j)); }
    }
  }

  lemma VisitsStay(w: World, t: World, plan: seq<Visit>, n: nat)
    requires Later(w, t) && VisitsRead(w, plan, n)
    ensures VisitsRead(t, plan, n)
  {
    forall i | 0 <= i < n && i < |plan| && plan[i].read.Some? ensures Block(plan[i].read.value) in Since(t) {
      LaterHas(w, t, Block(plan[i].read.value));
    }
  }

  lemma RosterStays(w: World, t: World, m: Mark)
    requires Later(w, t) && RosterRead(w, m)
    ensures RosterRead(t, m)
  {
    if m.kind == Some(SstRoster) { LaterHas(w, t, Block(m.id)); }
    else if m.kind.Some? { VisitsStay(w, t, w.cat.plan(m.id), |w.cat.plan(m.id)|); }
  }

  lemma RostersStay(w: World, t: World, p: nat)
    requires Later(w, t) && p <= |w.gc.keep| && w.gc.keep <= t.gc.keep && RostersRead(w, p)
    ensures RostersRead(t, p)
  {
    forall i | 0 <= i < p ensures RosterRead(t, t.gc.keep[i]) {
      RosterStays(w, t, w.gc.keep[i]);
    }
  }

  lemma AllStays(w: World, t: World)
    requires Later(w, t) && AllRead(w)
    ensures AllRead(t)
  {
    if w.cat.manifestPresent { LaterHas(w, t, LiveManifest); }
    forall name | IsName(t.cat, t.bucket.backups, name) ensures BackupManifest(name) in Since(t) {
      LaterHas(w, t, BackupManifest(name));
    }
    forall m | IsRoot(t.cat, t.bucket.backups, m) ensures RosterRead(t, m) { RosterStays(w, t, m); }
  }

  /** A step that stays in its place forgets nothing that was read. */
  lemma PlaceKeeps(w: World, t: World)
    requires ReadOk(w) && Later(w, t) && t.gc.progress == w.gc.progress && t.gc.names == w.gc.names
    requires t.gc.keep == w.gc.keep && t.gc.walk == w.gc.walk
    ensures PhaseRead(t)
  {
    hide ManifestsRead, RostersRead, VisitsRead, AllRead;
    match w.gc.progress {
      case Unloaded =>
      case Backing(_) =>
      case Manifests(index) => ManifestsStay(w, t, index);
      case Walk(p) =>
        ManifestsStay(w, t, |w.gc.names| + 1);
        RostersStay(w, t, p);
        if w.gc.walk.Some? { VisitsStay(w, t, w.cat.plan(w.gc.keep[p].id), w.gc.walk.value); }
      case Sweeping(_) => AllStays(w, t);
      case Deleting(_) => AllStays(w, t);
    }
  }

  // ---------------------------------------------------------------- reads

  /** A poll for an object is ready only once the object was served since the cycle began, and it leaves
      no result behind. */
  lemma AskedHears(w: World, target: Object, store: Store)
    requires ReadOk(w) && IoOk(w.gc.io, w.bucket, Some(Get(target)))
    ensures var (r, g, c) := Asked(w.gc, w.bucket, Get(target), store);
      && Later(w, Now(w, g, c)) && !g.io.state.Complete? && g == w.gc.(io := g.io, tick := g.tick)
      && (r.Ready? ==> target in Since(Now(w, g, c)))
  {
    var v := store(w.gc.tick).verdict;
    PolledKeeps(w.gc.io, w.bucket, Get(target), v);
    var (r, g, c) := Asked(w.gc, w.bucket, Get(target), store);
    var t := Now(w, g, c);
    if r.Ready? {
      if w.gc.io.state.Complete? { LaterHas(w, t, target); } else { JustRead(w, t, target); }
    }
  }

  lemma JustRead(w: World, t: World, o: Object)
    requires w.from == t.from <= |w.gc.io.log| && t.gc.io.log == w.gc.io.log + [o]
    ensures o in Since(t)
  {
    assert Since(t)[|w.gc.io.log| - w.from] == o;
  }

  lemma FetchedHears(w: World, id: nat, store: Store)
    requires ReadOk(w) && IoOk(w.gc.io, w.bucket, Some(Get(Block(id))))
    ensures var (r, g, c) := Fetched(w.gc, w.bucket, id, store);
      && Later(w, Now(w, g, c)) && !g.io.state.Complete? && g == w.gc.(io := g.io, tick := g.tick)
      && (r.Ready? ==> Block(id) in Since(Now(w, g, c)))
  {
    if w.gc.io.state.Idle? && store(w.gc.tick).cached {
      JustRead(w, Now(w, Fetched(w.gc, w.bucket, id, store).1, w.bucket), Block(id));
    } else {
      AskedHears(w, Block(id), store);
    }
  }

  /** A listing or a deletion reads no object. */
  lemma AskedReadsNothing(gc: Gc, b: Bucket, request: Request, store: Store)
    requires IoOk(gc.io, b, Some(request)) && !request.Get?
    ensures var (r, g, c) := Asked(gc, b, request, store);
      && g == gc.(io := g.io, tick := g.tick) && g.io.log == gc.io.log && !g.io.state.Complete?
      && c.backups == b.backups
  {
    PolledKeeps(gc.io, b, request, store(gc.tick).verdict);
    assert gc.io.log + [] == gc.io.log;
  }

  // ---------------------------------------------------------------- one phase at a time

  /** The request and the clock moved, and no result is left waiting. */
  lemma StillRead(w: World, g: Gc, b: Bucket)
    requires ReadOk(w) && Later(w, Now(w, g, b)) && ResultRead(g.io, Since(Now(w, g, b)))
    requires g.progress == w.gc.progress && g.names == w.gc.names && g.keep == w.gc.keep && g.walk == w.gc.walk
    ensures ReadOk(Now(w, g, b))
  {
    PlaceKeeps(w, Now(w, g, b));
  }

  lemma BackedReads(w: World, cfg: Settings, store: Store)
    requires Inv(w, cfg) && ReadOk(w) && w.gc.progress.Backing?
    ensures var (r, g, c) := Backed(w.gc, w.bucket, w.gc.progress.cursor, w.cat, cfg, store);
      g.io.log == w.gc.io.log && (!r.Erred? ==> ReadOk(Now(w, g, c)))
  {
    hide Named, SortedDistinct, PhaseOk, Ascending;
    if cfg.pageKeys > 0 {
      AskedReadsNothing(w.gc, w.bucket, List(Backups, w.gc.progress.cursor, cfg.pageKeys), store);
    }
  }

  lemma ReadReads(w: World, cfg: Settings, store: Store)
    requires Inv(w, cfg) && ReadOk(w) && w.gc.progress.Manifests?
    ensures var (r, g, c) := Read(w.gc, w.bucket, w.gc.progress.index, w.cat, cfg, store);
      w.gc.io.log <= g.io.log && (!r.Erred? ==> ReadOk(Now(w, g, c)))
  {
    hide Retained, PhaseOk, Ascending, Since, Later, IoOk;
    var gc, index := w.gc, w.gc.progress.index;
    InvIo(w, cfg);
    var (r, h, c) := Read(gc, w.bucket, index, w.cat, cfg, store);
    var t := Now(w, h, c);
    if index > |gc.names| {
      SameLog(w, t);
      NoRequest(gc.io, w.bucket);
      NoWalk(w, cfg);
      ManifestsStay(w, t, index);
    } else if index == 0 && !w.cat.manifestPresent {
      SameLog(w, t);
      NoRequest(gc.io, w.bucket);
    } else {
      var target := ManifestObject(gc.names, index);
      AskedHears(w, target, store);
      var (s, g, d) := Asked(gc, w.bucket, Get(target), store);
      var u := Now(w, g, d);
      LaterLog(w, u);
      if r.Waiting? {
        StillRead(w, g, d);
      } else if r.Moved? {
        SameLog(u, t);
        LaterTwice(w, u, t);
        ManifestsStay(w, t, index);
        LaterHas(u, t, target);
      }
    }
  }

  lemma NoWalk(w: World, cfg: Settings)
    requires Inv(w, cfg) && w.gc.progress.Manifests?
    ensures w.gc.walk.None?
  {
  }

  lemma SameLog(w: World, t: World)
    requires w.from == t.from <= |w.gc.io.log| && w.gc.io.log == t.gc.io.log && w.cat == t.cat
    requires w.bucket.backups == t.bucket.backups
    ensures Later(w, t) && Since(t) == Since(w)
  {
  }

  lemma LaterLog(w: World, t: World)
    requires Later(w, t)
    ensures w.from == t.from <= |t.gc.io.log| && w.gc.io.log <= t.gc.io.log && w.cat == t.cat
  {
  }

  lemma LaterTwice(w: World, u: World, t: World)
    requires Later(w, u) && Later(u, t)
    ensures Later(w, t)
  {
  }

  /** A visit or roster whose read was taken in. */
  lemma TakenReads(w: World, cfg: Settings, p: nat, read: (Poll, Gc, Bucket), corrupt: bool, ids: seq<nat>,
                   walk: Option<nat>, progress: Progress)
    requires ReadOk(w) && w.gc.progress == Walk(p) && p < |w.gc.keep|
    requires var u := Now(w, read.1, read.2);
      && Later(w, u) && !u.gc.io.state.Complete? && u.gc == w.gc.(io := u.gc.io, tick := u.gc.tick)
      && (read.0.Ready? ==>
            if walk.None? then RosterRead(u, w.gc.keep[p])
            else VisitsRead(u, w.cat.plan(w.gc.keep[p].id), walk.value))
    requires progress == if walk.None? then Walk(p + 1) else Walk(p)
    requires Retained(w.gc.keep, AsRoots(ids, None), cfg.limits.keep).0 ==>
      w.gc.keep <= Retained(w.gc.keep, AsRoots(ids, None), cfg.limits.keep).1
    ensures var (r, g, c) := Taken(read, corrupt, ids, walk, progress, cfg);
      w.gc.io.log <= g.io.log && (!r.Erred? ==> ReadOk(Now(w, g, c)))
  {
    hide Retained, AsRoots, RosterRead, VisitsRead, ManifestsRead, RostersRead, Since;
    var u := Now(w, read.1, read.2);
    if read.0.Pending? {
      StillRead(w, read.1, read.2);
    } else if read.0.Ready? && !corrupt && Retained(w.gc.keep, AsRoots(ids, None), cfg.limits.keep).0 {
      var t := Now(w, Taken(read, corrupt, ids, walk, progress, cfg).1, read.2);
      SameLog(u, t);
      ManifestsStay(w, t, |w.gc.names| + 1);
      RostersStay(w, t, p);
      if walk.None? {
        RosterStays(u, t, w.gc.keep[p]);
        OneMoreRoster(t, p);
      } else {
        VisitsStay(u, t, w.cat.plan(w.gc.keep[p].id), walk.value);
      }
    }
  }

  lemma OneMoreRoster(w: World, p: nat)
    requires p < |w.gc.keep| && RostersRead(w, p) && RosterRead(w, w.gc.keep[p])
    ensures RostersRead(w, p + 1)
  {
  }

  lemma {:induction false} ChildrenAppend(keep: seq<Mark>, ids: seq<nat>, capacity: nat)
    ensures var (ok, k) := Retained(keep, AsRoots(ids, None), capacity); ok ==> keep <= k
    decreases |ids|
  {
    if ids != [] {
      assert AsRoots(ids, None)[1..] == AsRoots(ids[1..], None);
      ChildrenAppend(Inserted(keep, ids[0], capacity).1, ids[1..], capacity);
    }
  }

  lemma RowsWalkedReads(w: World, cfg: Settings, p: nat, store: Store)
    requires Inv(w, cfg) && ReadOk(w)
    requires w.gc.progress == Walk(p) && p < |w.gc.keep| && w.gc.keep[p].kind == Some(SstRoster)
    ensures var (r, g, c) := RowsWalked(w.gc, w.bucket, p, w.cat, cfg, store);
      w.gc.io.log <= g.io.log && (!r.Erred? ==> ReadOk(Now(w, g, c)))
  {
    hide Inv, ReadOk, IoOk, Taken, Fetched, Retained, AsRoots, Since, Later;
    WalkFacts(w, cfg);
    var id := w.gc.keep[p].id;
    FetchedHears(w, id, store);
    ChildrenAppend(w.gc.keep, w.cat.rows(id), cfg.limits.keep);
    TakenReads(w, cfg, p, Fetched(w.gc, w.bucket, id, store), store(w.gc.tick).corrupt, w.cat.rows(id), None,
               Walk(p + 1));
  }

  lemma VisitingHears(w: World, cfg: Settings, p: nat, n: nat, store: Store)
    requires Inv(w, cfg) && ReadOk(w)
    requires w.gc.progress == Walk(p) && p < |w.gc.keep| && w.gc.keep[p].kind == Some(IndexRoster)
    requires w.gc.walk == Some(n) && n < |w.cat.plan(w.gc.keep[p].id)|
    ensures var plan := w.cat.plan(w.gc.keep[p].id);
      var (r, g, c) := Visiting(w.gc, w.bucket, plan[n], n, store);
      var u := Now(w, g, c);
      && Later(w, u) && !g.io.state.Complete? && g == w.gc.(io := g.io, tick := g.tick)
      && (r.Ready? ==> VisitsRead(u, plan, n + 1))
  {
    hide Inv, ReadOk, IoOk, Fetched, Since;
    WalkFacts(w, cfg);
    var plan := w.cat.plan(w.gc.keep[p].id);
    assert w.gc.(walk := Some(n)) == w.gc;
    var (r, g, c) := Visiting(w.gc, w.bucket, plan[n], n, store);
    var u := Now(w, g, c);
    VisitedSoFar(w, p);
    if plan[n].read.Some? { FetchedHears(w, plan[n].read.value, store); }
    else { NoRequest(w.gc.io, w.bucket); }
    VisitsStay(w, u, plan, n);
  }

  lemma VisitedSoFar(w: World, p: nat)
    requires ReadOk(w) && w.gc.progress == Walk(p) && w.gc.walk.Some?
    ensures p < |w.gc.keep| && VisitsRead(w, w.cat.plan(w.gc.keep[p].id), w.gc.walk.value)
    ensures w.from <= |w.gc.io.log|
  {
  }

  lemma VisitReads(w: World, cfg: Settings, p: nat, n: nat, store: Store)
    requires Inv(w, cfg) && ReadOk(w)
    requires w.gc.progress == Walk(p) && p < |w.gc.keep| && w.gc.keep[p].kind == Some(IndexRoster)
    requires w.gc.walk == Some(n)
    ensures var (r, g, c) := IndexWalked(w.gc, w.bucket, p, w.cat, cfg, store);
      w.gc.io.log <= g.io.log && (!r.Erred? ==> ReadOk(Now(w, g, c)))
  {
    hide Inv, IoOk, Taken, Visiting, Retained, AsRoots, Since, VisitsRead, ManifestsRead, RostersRead;
    var gc, plan := w.gc, w.cat.plan(w.gc.keep[p].id);
    if n >= |plan| {
      var t := Now(w, gc.(walk := None, progress := Walk(p + 1)), w.bucket);
      SameLog(w, t);
      ManifestsStay(w, t, |gc.names| + 1);
      RostersStay(w, t, p);
      AllVisits(w, plan, n);
      RosterStays(w, t, gc.keep[p]);
      OneMoreRoster(t, p);
    } else {
      VisitingHears(w, cfg, p, n, store);
      ChildrenAppend(gc.keep, plan[n].kept, cfg.limits.keep);
      var last := n + 1 >= |plan|;
      TakenReads(w, cfg, p, Visiting(gc, w.bucket, plan[n], n, store), store(gc.tick).corrupt, plan[n].kept,
                 if last then None else Some(n + 1), if last then Walk(p + 1) else Walk(p));
    }
  }

  lemma AllVisits(w: World, plan: seq<Visit>, n: nat)
    requires VisitsRead(w, plan, n) && n >= |plan|
    ensures VisitsRead(w, plan, |plan|)
  {
  }

  lemma IndexWalkedReads(w: World, cfg: Settings, p: nat, store: Store)
    requires Inv(w, cfg) && ReadOk(w)
    requires w.gc.progress == Walk(p) && p < |w.gc.keep| && w.gc.keep[p].kind == Some(IndexRoster)
    ensures var (r, g, c) := IndexWalked(w.gc, w.bucket, p, w.cat, cfg, store);
      w.gc.io.log <= g.io.log && (!r.Erred? ==> ReadOk(Now(w, g, c)))
  {
    hide Inv, Retained, AsRoots, RostersRead, ManifestsRead;
    var n := if w.gc.walk.Some? then w.gc.walk.value else 0;
    if w.gc.walk.None? { StartWalk(w, cfg, p); }
    var v := Now(w, w.gc.(walk := Some(n)), w.bucket);
    assert w.gc.walk.Some? ==> v == w;
    if w.gc.walk.None? { SameLog(w, v); ManifestsStay(w, v, |w.gc.names| + 1); RostersStay(w, v, p); }
    VisitReads(v, cfg, p, n, store);
    assert IndexWalked(w.gc, w.bucket, p, w.cat, cfg, store) == IndexWalked(v.gc, v.bucket, p, v.cat, cfg, store) by {
      assert w.gc.(walk := Some(n)) == v.gc;
      assert w.gc.(walk := None) == v.gc.(walk := None);
    }
  }

  /** Every root has a place in the keep-set, so the rosters walked are all of them. */
  lemma EverythingRead(w: World, cfg: Settings)
    requires Inv(w, cfg) && ReadOk(w)
    requires w.gc.progress.Walk? && Skipped(w.gc.keep, w.gc.progress.position) == |w.gc.keep|
    ensures AllRead(w)
  {
    hide Since, Captured, RootsTo, KidsBefore, KidsPart, IsRoot, Ascending, IoOk, Expected, Known, PlanKids;
    var gc, roots := w.gc, RootsTo(w.cat, cfg, w.gc.names, |w.gc.names| + 1);
    if w.cat.manifestPresent { assert ManifestRead(w, 0); }
    forall name | IsName(w.cat, w.bucket.backups, name) ensures BackupManifest(name) in Since(w) {
      assert name in gc.names;
      var j :| 0 <= j < |gc.names| && gc.names[j] == name;
      assert ManifestRead(w, j + 1);
    }
    forall m | IsRoot(w.cat, w.bucket.backups, m) ensures RosterRead(w, m) {
      RootsAreAll(w.cat, cfg, gc.names, w.bucket.backups, m);
      assert HasMark(gc.keep, m);
      var i :| 0 <= i < |gc.keep| && gc.keep[i].id == m.id && (m.kind.Some? ==> gc.keep[i].kind == m.kind);
      if m.kind.Some? {
        assert gc.keep[i] == m;
        assert i < gc.progress.position;
        assert RosterRead(w, gc.keep[i]);
      }
    }
  }

  lemma WalkedReads(w: World, cfg: Settings, store: Store)
    requires Inv(w, cfg) && ReadOk(w) && w.gc.progress.Walk?
    ensures w.gc.progress.position <= |w.gc.keep|
    ensures var (r, g, c) := Walked(w.gc, w.bucket, w.gc.progress.position, w.cat, cfg, store);
      w.gc.io.log <= g.io.log && (!r.Erred? ==> ReadOk(Now(w, g, c)))
  {
    hide Inv, RowsWalked, IndexWalked, ById, ManifestsRead, RostersRead, AllRead;
    WalkBounds(w, cfg);
    var p := Skipped(w.gc.keep, w.gc.progress.position);
    SkipKeeps(w, cfg);
    if p == |w.gc.keep| {
      EverythingRead(w, cfg);
      var t := Now(w, Walked(w.gc, w.bucket, w.gc.progress.position, w.cat, cfg, store).1, w.bucket);
      SameLog(w, t);
      AllStays(w, t);
    } else {
      var v := Now(w, w.gc.(progress := Walk(p)), w.bucket);
      SkipReads(w, cfg, p);
      if w.gc.keep[p].kind == Some(SstRoster) { RowsWalkedReads(v, cfg, p, store); }
      else {
        assert w.gc.keep[p].kind.value.IndexRoster?;
        IndexWalkedReads(v, cfg, p, store);
      }
    }
  }

  /** Plain entries have nothing to read. */
  lemma SkipReads(w: World, cfg: Settings, p: nat)
    requires Inv(w, cfg) && ReadOk(w) && w.gc.progress.Walk? && w.gc.progress.position <= |w.gc.keep|
    requires p == Skipped(w.gc.keep, w.gc.progress.position) < |w.gc.keep|
    ensures ReadOk(Now(w, w.gc.(progress := Walk(p)), w.bucket))
  {
    hide VisitsRead, Since, Marked, Ascending, RootsTo, KidsBefore, KidsPart, IoOk;
    var t := Now(w, w.gc.(progress := Walk(p)), w.bucket);
    SameLog(w, t);
    ManifestsStay(w, t, |w.gc.names| + 1);
    RostersStay(w, t, w.gc.progress.position);
    forall i | 0 <= i < p ensures RosterRead(t, t.gc.keep[i]) { }
    if w.gc.walk.Some? { VisitsStay(w, t, w.cat.plan(w.gc.keep[p].id), w.gc.walk.value); }
  }

  lemma SweptReads(w: World, cfg: Settings, store: Store)
    requires Inv(w, cfg) && ReadOk(w) && w.gc.progress.Sweeping?
    ensures var (r, g, c) := Swept(w.gc, w.bucket, w.gc.progress.cursor, w.cat, cfg, store);
      g.loaded && g.io.log == w.gc.io.log && ReadOk(Now(w, g, c))
  {
    hide Unkept, AllParse, SweepOk, NamesExact, KeepExact, Ascending, AllRead;
    if SweepLimit(cfg) > 0 {
      AskedReadsNothing(w.gc, w.bucket, List(Blocks, w.gc.progress.cursor, SweepLimit(cfg)), store);
    }
    var (r, g, c) := Swept(w.gc, w.bucket, w.gc.progress.cursor, w.cat, cfg, store);
    SameLog(w, Now(w, g, c));
    AllStays(w, Now(w, g, c));
  }

  /** While doomed keys are deleted nothing is read, and nothing read is forgotten. */
  lemma SameRead(w: World, t: World)
    requires ReadOk(w) && w.gc.progress.Deleting? && t.gc.progress.Deleting? && t.from == w.from && t.cat == w.cat
    requires t.gc.io.log == w.gc.io.log && !t.gc.io.state.Complete? && t.bucket.backups == w.bucket.backups
    ensures ReadOk(t)
  {
    hide AllRead;
    SameLog(w, t);
    AllStays(w, t);
  }

  lemma {:induction false} DeletedReads(w: World, cfg: Settings, count: nat, store: Store)
    requires Inv(w, cfg) && ReadOk(w) && w.gc.progress.Deleting? && count <= |w.gc.doomed|
    ensures var (r, g, c) := Deleted(w.gc, w.bucket, count, store);
      g.io.log == w.gc.io.log && c.backups == w.bucket.backups && g.progress == w.gc.progress
        && ReadOk(Now(w, g, c))
    decreases count
  {
    hide Inv, Asked, ReadOk, IoOk;
    if count > 0 {
      var gc, n := w.gc, |w.gc.doomed| - 1;
      var last := gc.doomed[n];
      var (r, g, c) := Asked(gc, w.bucket, Delete(last), store);
      InvIo(w, cfg);
      AskedReadsNothing(gc, w.bucket, Delete(last), store);
      AskedDeletes(w, cfg, store);
      SameRead(w, Now(w, g, c));
      if r.Ready? {
        var h := g.(doomed := gc.doomed[..n]);
        SameRead(w, Now(w, h, c));
        PoppedKeeps(Now(w, g, c), cfg, h);
        DeletedReads(Now(w, h, c), cfg, count - 1, store);
      }
    } else {
      assert Now(w, w.gc, w.bucket) == w;
    }
  }

  lemma PurgedReads(w: World, cfg: Settings, store: Store)
    requires Inv(w, cfg) && ReadOk(w) && w.gc.progress.Deleting?
    ensures var (r, g, c) := Purged(w.gc, w.bucket, w.gc.progress.next, cfg, store);
      ReadOk(Now(w, g, c))
  {
    hide Inv, Deleted, AllRead;
    var count := if cfg.perBeat < |w.gc.doomed| then cfg.perBeat else |w.gc.doomed|;
    DeletedReads(w, cfg, count, store);
    DeletedKeeps(w, cfg, count, store);
    var (r, g, c) := Deleted(w.gc, w.bucket, count, store);
    var t := Now(w, Purged(w.gc, w.bucket, w.gc.progress.next, cfg, store).1, c);
    SameLog(Now(w, g, c), t);
    AllStays(Now(w, g, c), t);
  }

  // ---------------------------------------------------------------- runs

  lemma BeatReads(w: World, cfg: Settings, store: Store)
    requires Inv(w, cfg) && ReadOk(w)
    requires w.gc.progress.Walk? ==> w.gc.progress.position <= |w.gc.keep|
    ensures ReadOk(Beat(w, cfg, store).1)
  {
    hide Inv, Swept, Purged, Backed, Read, Walked, Captured, AllRead, ManifestsRead, RostersRead;
    if w.gc.progress.Sweeping? {
      SweptReads(w, cfg, store);
      var (r, t) := Beat(w, cfg, store);
      var u := t.(swept := w.swept);
      SameLog(u, t);
      PlaceKeeps(u, t);
    } else if w.gc.progress.Deleting? {
      PurgedReads(w, cfg, store);
      PurgedKeeps(w, cfg, store);
    } else if w.gc.progress.Unloaded? {
      BeginReads(w, cfg, store);
    } else {
      MarkingReads(w, cfg, store);
    }
  }

  /** A cycle begins with nothing read. */
  lemma BeginReads(w: World, cfg: Settings, store: Store)
    requires Inv(w, cfg) && ReadOk(w) && w.gc.progress.Unloaded?
    ensures ReadOk(Beat(w, cfg, store).1)
    ensures var (r, t) := Beat(w, cfg, store); r.Moved? ==> Since(t) == []
  {
    hide Captured;
    InvIo(w, cfg);
    NoRequest(w.gc.io, w.bucket);
  }

  lemma MarkingReads(w: World, cfg: Settings, store: Store)
    requires Inv(w, cfg) && ReadOk(w) && (w.gc.progress.Backing? || w.gc.progress.Manifests? || w.gc.progress.Walk?)
    requires w.gc.progress.Walk? ==> w.gc.progress.position <= |w.gc.keep|
    ensures ReadOk(Beat(w, cfg, store).1)
  {
    hide Inv, Backed, Read, Walked, AllRead, ManifestsRead, RostersRead;
    match w.gc.progress {
      case Backing(_) =>
        BackedReads(w, cfg, store);
        BackedKeeps(w, cfg, store);
      case Manifests(_) =>
        ReadReads(w, cfg, store);
        ReadKeeps(w, cfg, store);
      case Walk(_) =>
        WalkedReads(w, cfg, store);
        WalkedKeeps(w, cfg, store);
    }
  }

  lemma StepReads(w: World, cfg: Settings, op: Op)
    requires Inv(w, cfg) && ReadOk(w)
    requires w.gc.progress.Walk? ==> w.gc.progress.position <= |w.gc.keep|
    ensures ReadOk(Step(w, cfg, op))
  {
    hide Inv, Beat, AllRead, ManifestsRead, RostersRead;
    var t := Step(w, cfg, op);
    match op {
      case Collect(store) => BeatReads(w, cfg, store);
      case Drive(verdict) =>
        InvIo(w, cfg);
        AdvancedKeeps(w.gc.io, w.bucket, Expected(w.gc, w.cat, cfg), verdict);
        if w.gc.io.state.Active? && verdict.Served? && w.gc.io.state.request.Get? {
          JustRead(w, t, w.gc.io.state.request.target);
        } else {
          SameLog(w, t);
        }
        PlaceKeeps(w, t);
      case Admit(draining, applied) =>
        SameLog(w, t);
        PlaceKeeps(w, t);
      case Restart(_) =>
      case Write(_, _) =>
        InvIo(w, cfg);
    }
  }

  lemma {:induction false} RunReads(w: World, cfg: Settings, ops: seq<Op>)
    requires Inv(w, cfg) && ReadOk(w)
    ensures ReadOk(Run(w, cfg, ops))
    decreases |ops|
  {
    hide Inv, ReadOk, Step;
    if ops != [] {
      StepKeeps(w, cfg, ops[0]);
      StepReads(w, cfg, ops[0]);
      RunReads(Step(w, cfg, ops[0]), cfg, ops[1..]);
    }
  }

  /** Over every run, whatever step comes next: when a stored block is removed, the live manifest, the
      manifest of every stored backup and every roster block under the roots have been served or
      found in the cache since this cycle began. */
  lemma RemovedAfterReading(cat: Catalog, bucket: Bucket, cfg: Settings, ops: seq<Op>, op: Op, k: Key)
    requires Ascending(bucket.blocks) && Ascending(bucket.backups) && !op.Write?
    requires var w := Reached(cat, bucket, cfg, ops);
      k in w.bucket.blocks && k !in Step(w, cfg, op).bucket.blocks
    ensures AllRead(Reached(cat, bucket, cfg, ops))
  {
    hide Inv, Run, Step, AllRead, Ascending;
    var w := Reached(cat, bucket, cfg, ops);
    CollectorSafe(cat, bucket, cfg, ops, op, k);
    StartOk(cat, bucket, cfg);
    RunReads(Start(cat, bucket), cfg, ops);
  }

  /** In every run: by the time it walks, a cycle has read every manifest since it began, and of the rosters
      all those it has passed; by the time it sweeps, all of them. */
  lemma ReadSoFar(cat: Catalog, bucket: Bucket, cfg: Settings, ops: seq<Op>)
    requires Ascending(bucket.blocks) && Ascending(bucket.backups)
    ensures var w := Reached(cat, bucket, cfg, ops);
      && (w.gc.progress.Walk? ==>
            && w.gc.progress.position <= |w.gc.keep| && ManifestsRead(w, |w.gc.names| + 1)
            && RostersRead(w, w.gc.progress.position))
      && (w.gc.progress.Sweeping? || w.gc.progress.Deleting? ==> AllRead(w))
  {
    hide Inv, Run, AllRead, Ascending, ManifestsRead, RostersRead;
    StartOk(cat, bucket, cfg);
    RunReads(Start(cat, bucket), cfg, ops);
  }

  // ---------------------------------------------------------------- what counts as read

  lemma {:induction false} DeletedLog(w: World, cfg: Settings, count: nat, store: Store)
    requires Inv(w, cfg) && w.gc.progress.Deleting? && count <= |w.gc.doomed|
    ensures Deleted(w.gc, w.bucket, count, store).1.io.log == w.gc.io.log
    decreases count
  {
    hide Inv, Asked, IoOk;
    if count > 0 {
      var gc, n := w.gc, |w.gc.doomed| - 1;
      var (r, g, c) := Asked(gc, w.bucket, Delete(gc.doomed[n]), store);
      InvIo(w, cfg);
      AskedReadsNothing(gc, w.bucket, Delete(gc.doomed[n]), store);
      AskedDeletes(w, cfg, store);
      if r.Ready? {
        var h := g.(doomed := gc.doomed[..n]);
        PoppedKeeps(Now(w, g, c), cfg, h);
        DeletedLog(Now(w, h, c), cfg, count - 1, store);
      }
    }
  }

  /** The object that a step reads: the one outstanding when the reactor is told that it was served; or the
      one the beat asks for, when that is served or cached. */
  ghost function ReadBy(w: World, cfg: Settings, op: Op): seq<Object>
    requires w.gc.progress.Walk? ==> w.gc.progress.position <= |w.gc.keep|
  {
    match op
    case Collect(store) => if w.gc.progress.Deleting? then [] else Answers.ReadsNow(w, cfg, store)
    case Drive(verdict) => if w.gc.io.state.Active? then Delivered(w.gc.io.state.request, verdict) else []
    case _ => []
  }

  /** Beats without a request read nothing. */
  lemma IdleBeat(w: World, cfg: Settings, store: Store)
    requires Inv(w, cfg) && !w.gc.progress.Deleting?
    requires w.gc.progress.Walk? ==> w.gc.progress.position <= |w.gc.keep|
    requires var wanted := Answers.Wanted(w, cfg); wanted.None? || (wanted.value.List? && wanted.value.limit == 0)
    ensures Beat(w, cfg, store).1.gc.io.log == w.gc.io.log
  {
    hide Inv, Retained, AsRoots, Captured, Polled, Walked;
    if w.gc.progress.Walk? { IdleWalk(w, cfg, store); }
  }

  lemma IdleWalk(w: World, cfg: Settings, store: Store)
    requires w.gc.progress.Walk? && w.gc.progress.position <= |w.gc.keep| && Answers.Wanted(w, cfg).None?
    ensures Walked(w.gc, w.bucket, w.gc.progress.position, w.cat, cfg, store).1.io.log == w.gc.io.log
  {
    hide Retained, ById, AsRoots, Fetched;
    var p := Skipped(w.gc.keep, w.gc.progress.position);
    if p < |w.gc.keep| && w.gc.keep[p].kind != Some(SstRoster) { assert w.gc.keep[p].kind.value.IndexRoster?; }
  }

  /** Over every step, the objects read grow by just that one. */
  lemma ReadIsServed(w: World, cfg: Settings, op: Op)
    requires Inv(w, cfg) && |w.gc.keep| <= cfg.limits.keep
    requires w.gc.progress.Walk? ==> w.gc.progress.position <= |w.gc.keep|
    ensures Step(w, cfg, op).gc.io.log == w.gc.io.log + ReadBy(w, cfg, op)
  {
    hide Inv, Beat, Answers.Wanted, Answers.ReadsNow;
    var log := w.gc.io.log;
    assert log + [] == log;
    match op {
      case Collect(store) =>
        if w.gc.progress.Deleting? {
          PurgedLog(w, cfg, store);
        } else {
          var wanted := Answers.Wanted(w, cfg);
          if wanted.None? || (wanted.value.List? && wanted.value.limit == 0) {
            IdleBeat(w, cfg, store);
            assert Answers.ReadsNow(w, cfg, store) == [] by { NothingWanted(w, cfg, store); }
          } else {
            Answers.BeatHears(w, cfg, store);
          }
        }
      case Drive(verdict) =>
        InvIo(w, cfg);
        AdvancedKeeps(w.gc.io, w.bucket, Expected(w.gc, w.cat, cfg), verdict);
      case Admit(_, _) =>
      case Restart(_) =>
      case Write(_, _) =>
    }
  }

  lemma NothingWanted(w: World, cfg: Settings, store: Store)
    requires w.gc.progress.Walk? ==> w.gc.progress.position <= |w.gc.keep|
    requires var wanted := Answers.Wanted(w, cfg); wanted.None? || wanted.value.List?
    ensures Answers.ReadsNow(w, cfg, store) == []
  {
  }

  lemma PurgedLog(w: World, cfg: Settings, store: Store)
    requires Inv(w, cfg) && w.gc.progress.Deleting?
    ensures Beat(w, cfg, store).1.gc.io.log == w.gc.io.log
  {
    hide Inv, Deleted;
    var count := if cfg.perBeat < |w.gc.doomed| then cfg.perBeat else |w.gc.doomed|;
    DeletedLog(w, cfg, count, store);
  }
}
