/** What a beat makes of the store's answers. */
module GcAnswers {
  import opened Options
  import opened GcStore
  import opened GcKeep
  import opened GcCore
  import opened GcInvariant
  import opened GcSteps
  import opened GcRuns

  // ---------------------------------------------------------------- what can be taken in

  /** The blocks fit the keep-set, and none is a roster of both kinds. */
  ghost predicate Fits(keep: seq<Mark>, marks: seq<Mark>, capacity: nat)
  {
    |IdsOf(keep) + IdsOf(marks)| <= capacity && OneKind(Kinded(keep) + Kinded(marks))
  }

  lemma FitsRetains(keep: seq<Mark>, marks: seq<Mark>, capacity: nat)
    requires Distinct(keep) && |keep| <= capacity
    ensures Retained(keep, marks, capacity).0 <==> Fits(keep, marks, capacity)
  {
    hide IdsOf, Kinded, OneKind, Distinct;
    RetainFits(keep, marks, capacity);
  }

  /** The backups that a page names. */
  function PageNames(page: seq<Key>, cat: Catalog): seq<nat>
  {
    if page == [] then []
    else
      (if cat.nameOf(page[0]).Some? then [cat.nameOf(page[0]).value] else []) + PageNames(page[1..], cat)
  }

  /** Every name is valid, and all of them fit. */
  predicate NamesFit(names: seq<nat>, more: seq<nat>, cat: Catalog, capacity: nat)
  {
    (forall i :: 0 <= i < |more| ==> cat.nameOk(more[i])) && (more == [] || |names| + |more| <= capacity)
  }

  lemma {:induction false} NamedFits(names: seq<nat>, page: seq<Key>, cat: Catalog, capacity: nat)
    ensures var (invalid, all) := Named(names, page, cat, capacity);
      && (!invalid <==> NamesFit(names, PageNames(page, cat), cat, capacity))
      && (!invalid ==> all == names + PageNames(page, cat))
    decreases |page|
  {
    var more := PageNames(page, cat);
    if page != [] {
      var name, rest := cat.nameOf(page[0]), PageNames(page[1..], cat);
      if name.None? {
        NamedFits(names, page[1..], cat, capacity);
        assert more == rest;
      } else {
        assert more == [name.value] + rest;
        if cat.nameOk(name.value) && |names| < capacity {
          NamedFits(names + [name.value], page[1..], cat, capacity);
          assert names + [name.value] + rest == names + more;
          assert forall i :: 0 <= i < |rest| ==> more[i + 1] == rest[i];
        } else {
          assert more[0] == name.value;
        }
      }
    }
  }

  // ---------------------------------------------------------------- one beat and one answer

  /** The collector at the roster it is about to walk. */
  ghost function AtRoster(w: World): Gc
    requires w.gc.progress.Walk? ==> w.gc.progress.position <= |w.gc.keep|
  {
    if w.gc.progress.Walk? then w.gc.(progress := Walk(Skipped(w.gc.keep, w.gc.progress.position))) else w.gc
  }

  /** The request that this beat is about. */
  ghost function Wanted(w: World, cfg: Settings): Option<Request>
    requires w.gc.progress.Walk? ==> w.gc.progress.position <= |w.gc.keep|
  {
    Expected(AtRoster(w), w.cat, cfg)
  }

  /** Roster blocks come from the cache when nothing is outstanding. */
  predicate FromCache(w: World, store: Store)
  {
    w.gc.progress.Walk? && w.gc.io.state.Idle? && store(w.gc.tick).cached
  }

  predicate BeatWaits(w: World, store: Store)
  {
    !FromCache(w, store) && Waits(w.gc.io, store(w.gc.tick).verdict)
  }

  predicate BeatRefused(w: World, store: Store)
  {
    !FromCache(w, store) && Fails(w.gc.io, store(w.gc.tick).verdict)
  }

  /** The answer came, and it cannot be used: corrupt bytes, a backup name that is invalid or one too many,
      marks that do not fit, or a stored key that is no block. */
  ghost predicate Unusable(w: World, cfg: Settings, store: Store)
    requires w.gc.progress.Walk? ==> w.gc.progress.position <= |w.gc.keep|
  {
    match w.gc.progress
    case Backing(cursor) =>
      !NamesFit(w.gc.names, PageNames(Page(w.bucket.backups, cursor, cfg.pageKeys), w.cat), w.cat, cfg.maxBackups)
    case Manifests(index) =>
      store(w.gc.tick).corrupt
        || (index <= |w.gc.names| && !Fits(w.gc.keep, ManifestMarks(w.cat, w.gc.names, index), cfg.limits.keep))
    case Walk(position) =>
      store(w.gc.tick).corrupt || !Fits(w.gc.keep, AsRoots(ChildrenNext(w), None), cfg.limits.keep)
    case Sweeping(cursor) => !AllParse(Page(w.bucket.blocks, cursor, SweepLimit(cfg)), w.cat)
    case _ => false
  }

  /** The children that the walk takes in next. */
  ghost function ChildrenNext(w: World): seq<nat>
    requires w.gc.progress.Walk? && w.gc.progress.position <= |w.gc.keep|
  {
    var p := Skipped(w.gc.keep, w.gc.progress.position);
    if p == |w.gc.keep| then []
    else if w.gc.keep[p].kind == Some(SstRoster) then w.cat.rows(w.gc.keep[p].id)
    else
      var n, plan := if w.gc.walk.Some? then w.gc.walk.value else 0, w.cat.plan(w.gc.keep[p].id);
      if n < |plan| then plan[n].kept else []
  }

  /** Which object the beat reads now. */
  ghost function ReadsNow(w: World, cfg: Settings, store: Store): seq<Object>
    requires w.gc.progress.Walk? ==> w.gc.progress.position <= |w.gc.keep|
  {
    var wanted := Wanted(w, cfg);
    if wanted.None? || !wanted.value.Get? then []
    else if FromCache(w, store) then [wanted.value.target]
    else Reads(w.gc.io, wanted.value, store(w.gc.tick).verdict)
  }

  /** A beat waits exactly while its request does. A refused request and an unusable answer are errors,
      and nothing else is. */
  ghost predicate Answered(w: World, cfg: Settings, store: Store, r: Result, log: seq<Object>)
    requires w.gc.progress.Walk? ==> w.gc.progress.position <= |w.gc.keep|
  {
    && (r.Waiting? <==> BeatWaits(w, store))
    && (r.Erred? <==> BeatRefused(w, store) || (!BeatWaits(w, store) && Unusable(w, cfg, store)))
    && log == w.gc.io.log + ReadsNow(w, cfg, store)
  }

  lemma KeepDistinct(w: World, cfg: Settings)
    requires Inv(w, cfg) && (w.gc.progress.Manifests? || w.gc.progress.Walk?)
    ensures Distinct(w.gc.keep)
  {
  }

  lemma AskedAnswers(gc: Gc, b: Bucket, request: Request, store: Store)
    requires IoOk(gc.io, b, Some(request)) && !request.Delete?
    ensures var (r, g, c) := Asked(gc, b, request, store); var v := store(gc.tick).verdict;
      && (r.Pending? <==> Waits(gc.io, v)) && (r.Failed? <==> Fails(gc.io, v)) && !r.Changed?
      && g.io.log == gc.io.log + Reads(gc.io, request, v)
      && (r.Ready? && request.List? ==> r.answer.Listed? && g.io.keys == Page(Listing(b, request.space),
                                                                             request.cursor, request.limit))
  {
    PolledKeeps(gc.io, b, request, store(gc.tick).verdict);
  }

  lemma BackedAnswers(w: World, cfg: Settings, store: Store)
    requires Inv(w, cfg) && w.gc.progress.Backing? && cfg.pageKeys > 0
    ensures var (r, g, c) := Backed(w.gc, w.bucket, w.gc.progress.cursor, w.cat, cfg, store);
      Answered(w, cfg, store, r, g.io.log)
  {
    hide Named, SortedDistinct, PhaseOk, Ascending, IoOk, NamesFit, PageNames;
    InvIo(w, cfg);
    NamedFits(w.gc.names, Page(w.bucket.backups, w.gc.progress.cursor, cfg.pageKeys), w.cat, cfg.maxBackups);
    AskedAnswers(w.gc, w.bucket, List(Backups, w.gc.progress.cursor, cfg.pageKeys), store);
    AskedReads(w.gc, w.bucket, List(Backups, w.gc.progress.cursor, cfg.pageKeys), store);
  }

  lemma ReadAnswers(w: World, cfg: Settings, store: Store)
    requires Inv(w, cfg) && w.gc.progress.Manifests? && Wanted(w, cfg).Some? && |w.gc.keep| <= cfg.limits.keep
    ensures var (r, g, c) := Read(w.gc, w.bucket, w.gc.progress.index, w.cat, cfg, store);
      Answered(w, cfg, store, r, g.io.log)
  {
    hide Retained, PhaseOk, Ascending, IoOk, Fits, Distinct;
    InvIo(w, cfg);
    KeepDistinct(w, cfg);
    FitsRetains(w.gc.keep, ManifestMarks(w.cat, w.gc.names, w.gc.progress.index), cfg.limits.keep);
    AskedAnswers(w.gc, w.bucket, Wanted(w, cfg).value, store);
    AskedReads(w.gc, w.bucket, Wanted(w, cfg).value, store);
  }

  lemma SweptAnswers(w: World, cfg: Settings, store: Store)
    requires Inv(w, cfg) && w.gc.progress.Sweeping? && SweepLimit(cfg) > 0
    ensures var (r, g, c) := Swept(w.gc, w.bucket, w.gc.progress.cursor, w.cat, cfg, store);
      Answered(w, cfg, store, r, g.io.log)
  {
    hide Unkept, PhaseOk, Ascending, IoOk;
    InvIo(w, cfg);
    AskedAnswers(w.gc, w.bucket, List(Blocks, w.gc.progress.cursor, SweepLimit(cfg)), store);
    AskedReads(w.gc, w.bucket, List(Blocks, w.gc.progress.cursor, SweepLimit(cfg)), store);
  }

  lemma FetchedAnswers(w: World, id: nat, store: Store)
    requires IoOk(w.gc.io, w.bucket, Some(Get(Block(id)))) && w.gc.progress.Walk?
    ensures var (r, g, c) := Fetched(w.gc, w.bucket, id, store); var v := store(w.gc.tick).verdict;
      && (r.Pending? <==> BeatWaits(w, store)) && (r.Failed? <==> BeatRefused(w, store)) && !r.Changed?
      && g.keep == w.gc.keep
      && g.io.log == w.gc.io.log + if FromCache(w, store) then [Block(id)] else Reads(w.gc.io, Get(Block(id)), v)
  {
    hide IoOk;
    if !FromCache(w, store) { AskedAnswers(w.gc, w.bucket, Get(Block(id)), store); }
  }

  lemma TakenAnswers(read: (Poll, Gc, Bucket), corrupt: bool, ids: seq<nat>, walk: Option<nat>, progress: Progress,
                     cfg: Settings)
    ensures var (r, g, c) := Taken(read, corrupt, ids, walk, progress, cfg);
      && (r.Waiting? <==> read.0.Pending?) && g.io == read.1.io
      && (r.Erred? <==>
            (!read.0.Pending?
             && (!read.0.Ready? || corrupt || !Retained(read.1.keep, AsRoots(ids, None), cfg.limits.keep).0)))
  {
    hide Retained, AsRoots;
  }

  /** The walk has come to a roster, and asks for a block of it. */
  lemma RosterAnswers(w: World, cfg: Settings, p: nat, store: Store)
    requires Inv(w, cfg) && w.gc.progress == Walk(p) && p < |w.gc.keep| && w.gc.keep[p].kind.Some?
    requires Wanted(w, cfg).Some? && |w.gc.keep| <= cfg.limits.keep
    ensures var (r, g, c) := Walked(w.gc, w.bucket, p, w.cat, cfg, store);
      Answered(w, cfg, store, r, g.io.log)
  {
    hide Inv, Retained, AsRoots, IoOk, Fetched, Taken, Fits, Distinct, BeatWaits, BeatRefused, FromCache;
    KeepDistinct(w, cfg);
    FitsRetains(w.gc.keep, AsRoots(ChildrenNext(w), None), cfg.limits.keep);
    InvIo(w, cfg);
    var m := w.gc.keep[p];
    assert w.gc.(progress := Walk(p)) == w.gc;
    if m.kind == Some(SstRoster) {
      FetchedAnswers(w, m.id, store);
      TakenAnswers(Fetched(w.gc, w.bucket, m.id, store), store(w.gc.tick).corrupt, w.cat.rows(m.id), w.gc.walk,
                   Walk(p + 1), cfg);
    } else {
      assert m.kind.value.IndexRoster?;
      VisitAnswers(w, cfg, p, store);
    }
  }

  lemma VisitAnswers(w: World, cfg: Settings, p: nat, store: Store)
    requires w.gc.progress == Walk(p) && p < |w.gc.keep| && w.gc.keep[p].kind == Some(IndexRoster)
    requires Wanted(w, cfg).Some? && IoOk(w.gc.io, w.bucket, Wanted(w, cfg))
    requires Retained(w.gc.keep, AsRoots(ChildrenNext(w), None), cfg.limits.keep).0
      <==> Fits(w.gc.keep, AsRoots(ChildrenNext(w), None), cfg.limits.keep)
    ensures var (r, g, c) := Walked(w.gc, w.bucket, p, w.cat, cfg, store);
      Answered(w, cfg, store, r, g.io.log)
  {
    hide Retained, AsRoots, IoOk, Fetched, Taken, Fits;
    assert w.gc.(progress := Walk(p)) == w.gc;
    var n, plan := if w.gc.walk.Some? then w.gc.walk.value else 0, w.cat.plan(w.gc.keep[p].id);
    var g := w.gc.(walk := Some(n));
    FetchedAnswers(Now(w, g, w.bucket), plan[n].read.value, store);
    var last := n + 1 >= |plan|;
    TakenAnswers(Fetched(g, w.bucket, plan[n].read.value, store), store(w.gc.tick).corrupt, plan[n].kept,
                 if last then None else Some(n + 1), if last then Walk(p + 1) else Walk(p), cfg);
  }

  lemma WalkedAnswers(w: World, cfg: Settings, store: Store)
    requires Inv(w, cfg) && w.gc.progress.Walk? && w.gc.progress.position <= |w.gc.keep| && Wanted(w, cfg).Some?
    requires |w.gc.keep| <= cfg.limits.keep
    ensures var (r, g, c) := Walked(w.gc, w.bucket, w.gc.progress.position, w.cat, cfg, store);
      Answered(w, cfg, store, r, g.io.log)
  {
    hide Inv, RowsWalked, IndexWalked, Fits, AsRoots;
    SkipKeeps(w, cfg);
    var p := Skipped(w.gc.keep, w.gc.progress.position);
    var v := Now(w, AtRoster(w), w.bucket);
    assert p < |w.gc.keep|;
    assert Skipped(w.gc.keep, p) == p;
    RosterAnswers(v, cfg, p, store);
  }

  /** Over one beat that has something to ask for, before the sweep deletes: it waits exactly while the
      store makes it wait; it errs exactly when its request was refused or the answer is unusable; and
      it has read the object it asked for exactly when that was served or cached. */
  lemma BeatHears(w: World, cfg: Settings, store: Store)
    requires Inv(w, cfg) && !w.gc.progress.Deleting? && |w.gc.keep| <= cfg.limits.keep
    requires w.gc.progress.Walk? ==> w.gc.progress.position <= |w.gc.keep|
    requires Wanted(w, cfg).Some? && (Wanted(w, cfg).value.List? ==> Wanted(w, cfg).value.limit > 0)
    ensures var (r, t) := Beat(w, cfg, store); Answered(w, cfg, store, r, t.gc.io.log)
  {
    hide Inv, Answered, Backed, Read, Walked, Swept;
    match w.gc.progress {
      case Unloaded =>
      case Backing(_) => BackedAnswers(w, cfg, store);
      case Manifests(_) => ReadAnswers(w, cfg, store);
      case Walk(_) => WalkedAnswers(w, cfg, store);
      case Sweeping(_) => SweptAnswers(w, cfg, store);
    }
  }

  /** A new cycle starts exactly when its roots can be captured; a roster of backups that is already
      loaded is not listed again. */
  lemma BeginAnswers(w: World, cfg: Settings, store: Store)
    requires Inv(w, cfg) && w.gc.progress.Unloaded?
    ensures var (r, t) := Beat(w, cfg, store); var s, l := w.cat.sources, cfg.limits;
      && r == (if |s.retainedSsts| + |Published(s)| <= l.ssts
                  && |s.retainedIndexes| + |NewlyBound(s.retainedIndexes, s.boundIndexes)| <= l.indexes
                  && Fits([], AllSources(s), l.keep) then Moved else Erred)
      && (r.Moved? ==> t.gc.progress == if w.gc.rosterLoaded then Manifests(0) else Backing(None))
      && (r.Moved? ==> t.gc.names == if w.gc.rosterLoaded then w.gc.names else [])
      && t.bucket == w.bucket
  {
    hide Captured, IdsOf, Kinded, OneKind, AllSources;
    CaptureFits(w.cat.sources, cfg.limits);
    NoMarks();
    var ids, kinds := IdsOf(AllSources(w.cat.sources)), Kinded(AllSources(w.cat.sources));
    assert {} + ids == ids && {} + kinds == kinds;
  }

  // ---------------------------------------------------------------- the keep-set and the doomed list

  lemma {:induction false} RetainedBounded(keep: seq<Mark>, marks: seq<Mark>, capacity: nat)
    requires |keep| <= capacity
    ensures |Retained(keep, marks, capacity).1| <= capacity
    decreases |marks|
  {
    if marks != [] {
      var (ok, k) := MarkInserted(keep, marks[0], capacity);
      if ok { RetainedBounded(k, marks[1..], capacity); }
    }
  }

  lemma CapturedBounded(s: Sources, l: Limits)
    ensures |Captured(s, l).1| <= l.keep
  {
    hide Retained, SstInventory, IndexInventory, AsRoots, Missing;
    var merge := Retained([], AsRoots(if s.merging then s.mergeOutput else [], None), l.keep);
    RetainedBounded([], AsRoots(if s.merging then s.mergeOutput else [], None), l.keep);
    if merge.0 && SstInventory(s, l).Some? {
      var inventory := SstInventory(s, l).value;
      var b := AsRoots(inventory, Some(SstRoster));
      var c := AsRoots(Missing(s.installed, inventory), Some(SstRoster));
      var d := AsRoots(if s.merging then Missing(s.mergeSources, inventory) else [], Some(SstRoster));
      RetainedBounded(merge.1, b, l.keep);
      var r2 := AlsoRetained(merge, b, l.keep);
      RetainedBounded(r2.1, c, l.keep);
      var r3 := AlsoRetained(r2, c, l.keep);
      RetainedBounded(r3.1, d, l.keep);
      var r4 := AlsoRetained(r3, d, l.keep);
      if IndexInventory(s, l).Some? {
        RetainedBounded(r4.1, AsRoots(IndexInventory(s, l).value, Some(IndexRoster)), l.keep);
      }
    }
  }

  lemma {:induction false} InsertByIdSize(m: Mark, s: seq<Mark>)
    ensures |InsertById(m, s)| == |s| + 1
  {
    if s != [] && m.id > s[0].id { InsertByIdSize(m, s[1..]); }
  }

  lemma {:induction false} ByIdSize(s: seq<Mark>)
    ensures |ById(s)| == |s|
  {
    if s != [] {
      ByIdSize(s[1..]);
      InsertByIdSize(s[0], ById(s[1..]));
    }
  }

  lemma AskedSame(gc: Gc, b: Bucket, request: Request, store: Store)
    ensures var g := Asked(gc, b, request, store).1; g.keep == gc.keep && g.doomed == gc.doomed
  {
    hide Polled;
  }

  lemma {:induction false} DeletedSameKeep(gc: Gc, b: Bucket, count: nat, store: Store)
    requires count <= |gc.doomed|
    ensures Deleted(gc, b, count, store).1.keep == gc.keep
    decreases count
  {
    hide Asked;
    if count > 0 {
      var n := |gc.doomed| - 1;
      AskedSame(gc, b, Delete(gc.doomed[n]), store);
      var (r, g, c) := Asked(gc, b, Delete(gc.doomed[n]), store);
      if r.Ready? { DeletedSameKeep(g.(doomed := gc.doomed[..n]), c, count - 1, store); }
    }
  }

  lemma StepBounded(w: World, cfg: Settings, op: Op)
    requires |w.gc.keep| <= cfg.limits.keep
    requires w.gc.progress.Walk? ==> w.gc.progress.position <= |w.gc.keep|
    ensures |Step(w, cfg, op).gc.keep| <= cfg.limits.keep
  {
    hide Captured, Retained, ById, Deleted, Fetched, Polled, Swept, Backed, AsRoots;
    if op.Collect? {
      var gc := w.gc;
      match gc.progress {
        case Unloaded => CapturedBounded(w.cat.sources, cfg.limits);
        case Backing(cursor) =>
          BackedSameKeep(gc, w.bucket, cursor, w.cat, cfg, op.store);
        case Manifests(index) =>
          if index <= |gc.names| {
            RetainedBounded(gc.keep, ManifestMarks(w.cat, gc.names, index), cfg.limits.keep);
          }
        case Walk(position) => WalkedBounded(w, cfg, op.store);
        case Sweeping(cursor) => SweptSameKeep(gc, w.bucket, cursor, w.cat, cfg, op.store);
        case Deleting(_) =>
          DeletedSameKeep(gc, w.bucket, if cfg.perBeat < |gc.doomed| then cfg.perBeat else |gc.doomed|, op.store);
      }
    }
  }

  lemma BackedSameKeep(gc: Gc, b: Bucket, cursor: Cursor, cat: Catalog, cfg: Settings, store: Store)
    ensures Backed(gc, b, cursor, cat, cfg, store).1.keep == gc.keep
  {
    hide Polled, Named, SortedDistinct;
  }

  lemma SweptSameKeep(gc: Gc, b: Bucket, cursor: Cursor, cat: Catalog, cfg: Settings, store: Store)
    ensures Swept(gc, b, cursor, cat, cfg, store).1.keep == gc.keep
  {
    hide Polled, Unkept, AllParse;
  }

  lemma WalkedBounded(w: World, cfg: Settings, store: Store)
    requires |w.gc.keep| <= cfg.limits.keep && w.gc.progress.Walk? && w.gc.progress.position <= |w.gc.keep|
    ensures |Walked(w.gc, w.bucket, w.gc.progress.position, w.cat, cfg, store).1.keep| <= cfg.limits.keep
  {
    hide Retained, ById, Fetched, AsRoots, Taken;
    ByIdSize(w.gc.keep);
    var p := Skipped(w.gc.keep, w.gc.progress.position);
    if p < |w.gc.keep| {
      var gc, corrupt := w.gc.(progress := Walk(p)), store(w.gc.tick).corrupt;
      var id := gc.keep[p].id;
      if gc.keep[p].kind == Some(SstRoster) {
        FetchedSame(gc, w.bucket, id, store);
        TakenBounded(Fetched(gc, w.bucket, id, store), corrupt, w.cat.rows(id), gc.walk, Walk(p + 1), cfg);
      } else {
        var n, plan := if gc.walk.Some? then gc.walk.value else 0, w.cat.plan(id);
        if n < |plan| {
          var last, g := n + 1 >= |plan|, gc.(walk := Some(n));
          if plan[n].read.Some? { FetchedSame(g, w.bucket, plan[n].read.value, store); }
          TakenBounded(Visiting(gc, w.bucket, plan[n], n, store), corrupt, plan[n].kept,
                       if last then None else Some(n + 1), if last then Walk(p + 1) else Walk(p), cfg);
        }
      }
    }
  }

  lemma FetchedSame(gc: Gc, b: Bucket, id: nat, store: Store)
    ensures Fetched(gc, b, id, store).1.keep == gc.keep
  {
    hide Polled;
  }

  lemma TakenBounded(read: (Poll, Gc, Bucket), corrupt: bool, ids: seq<nat>, walk: Option<nat>, progress: Progress,
                     cfg: Settings)
    requires |read.1.keep| <= cfg.limits.keep
    ensures |Taken(read, corrupt, ids, walk, progress, cfg).1.keep| <= cfg.limits.keep
  {
    hide Retained, AsRoots;
    RetainedBounded(read.1.keep, AsRoots(ids, None), cfg.limits.keep);
  }

  lemma {:induction false} RunBounded(w: World, cfg: Settings, ops: seq<Op>)
    requires Inv(w, cfg) && |w.gc.keep| <= cfg.limits.keep
    ensures |Run(w, cfg, ops).gc.keep| <= cfg.limits.keep
    decreases |ops|
  {
    hide Inv, Step;
    if ops != [] {
      StepKeeps(w, cfg, ops[0]);
      StepBounded(w, cfg, ops[0]);
      RunBounded(Step(w, cfg, ops[0]), cfg, ops[1..]);
    }
  }

  /** The keep-set never outgrows its reservation. */
  lemma KeepFits(cat: Catalog, bucket: Bucket, cfg: Settings, ops: seq<Op>)
    requires Ascending(bucket.blocks) && Ascending(bucket.backups)
    ensures |Reached(cat, bucket, cfg, ops).gc.keep| <= cfg.limits.keep
  {
    hide Inv, Run;
    StartOk(cat, bucket, cfg);
    RunBounded(Start(cat, bucket), cfg, ops);
  }

  /** Only keys at the end of the doomed list were removed: all those after `left`, which are gone, and
      possibly the one before, which was asked for last. */
  ghost predicate Dropped(doomed: seq<Key>, left: nat, asked: bool, b: seq<Key>, c: seq<Key>)
  {
    && left <= |doomed|
    && (forall k :: k in c ==> k in b)
    && (forall i :: left <= i < |doomed| ==> doomed[i] !in c)
    && (forall k :: k in b && k !in c ==>
          exists i :: 0 <= i < |doomed| && left <= (if asked then i + 1 else i) && doomed[i] == k)
  }

  lemma DropsMore(doomed: seq<Key>, left: nat, asked: bool, b: seq<Key>, mid: seq<Key>, c: seq<Key>)
    requires doomed != [] && Dropped(doomed[..|doomed| - 1], left, asked, mid, c)
    requires (forall k :: k in mid ==> k in b) && doomed[|doomed| - 1] !in mid
    requires forall k :: k in b && k !in mid ==> k == doomed[|doomed| - 1]
    ensures Dropped(doomed, left, asked, b, c)
  {
    var n := |doomed| - 1;
    forall k | k in b && k !in c
      ensures exists i :: 0 <= i < |doomed| && left <= (if asked then i + 1 else i) && doomed[i] == k
    {
      if k in mid {
        var i :| 0 <= i < n && left <= (if asked then i + 1 else i) && doomed[..n][i] == k;
        assert doomed[i] == k;
      } else {
        assert doomed[n] == k;
      }
    }
    forall i | left <= i < |doomed| ensures doomed[i] !in c {
      if i < n { assert doomed[i] == doomed[..n][i]; }
    }
  }

  /** A deletion takes keys from the end of the doomed list, and drops a key only once it is gone. */
  lemma {:induction false} DeletedDrops(w: World, cfg: Settings, count: nat, store: Store)
    requires Inv(w, cfg) && w.gc.progress.Deleting? && count <= |w.gc.doomed|
    ensures var (r, g, c) := Deleted(w.gc, w.bucket, count, store);
      Dropped(w.gc.doomed, |g.doomed|, !r.Moved?, w.bucket.blocks, c.blocks)
    decreases count
  {
    hide Inv, Asked, Dropped;
    if count == 0 {
      NothingDropped(w.gc.doomed, w.bucket.blocks);
    } else {
      var gc, n := w.gc, |w.gc.doomed| - 1;
      var last := gc.doomed[n];
      var (r, g, c) := Asked(gc, w.bucket, Delete(last), store);
      AskedDeletes(w, cfg, store);
      InvIo(w, cfg);
      AskedShrinks(gc, w.bucket, last, store);
      if r.Ready? {
        var h := g.(doomed := gc.doomed[..n]);
        PoppedKeeps(Now(w, g, c), cfg, h);
        DeletedDrops(Now(w, h, c), cfg, count - 1, store);
        var (q, f, d) := Deleted(h, c, count - 1, store);
        DropsMore(gc.doomed, |f.doomed|, !q.Moved?, w.bucket.blocks, c.blocks, d.blocks);
      } else {
        LastAsked(gc.doomed, w.bucket.blocks, c.blocks);
      }
    }
  }

  lemma NothingDropped(doomed: seq<Key>, b: seq<Key>)
    ensures Dropped(doomed, |doomed|, false, b, b)
  {
  }

  lemma LastAsked(doomed: seq<Key>, b: seq<Key>, c: seq<Key>)
    requires doomed != [] && (forall k :: k in c ==> k in b)
    requires forall k :: k in b && k !in c ==> k == doomed[|doomed| - 1]
    ensures Dropped(doomed, |doomed|, true, b, c)
  {
  }

  /** One beat removes at most as many keys as it may, from the end of the doomed list. */
  lemma PurgeBounded(w: World, cfg: Settings, store: Store)
    requires Inv(w, cfg) && w.gc.progress.Deleting?
    ensures var (r, t) := Beat(w, cfg, store); var left := |t.gc.doomed|;
      && Dropped(w.gc.doomed, left, r.Waiting? || r.Erred?, w.bucket.blocks, t.bucket.blocks)
      && |w.gc.doomed| <= left + cfg.perBeat
      && (r.Waiting? || r.Erred? ==> |w.gc.doomed| < left + cfg.perBeat)
  {
    hide Inv, Deleted, Dropped;
    var count := if cfg.perBeat < |w.gc.doomed| then cfg.perBeat else |w.gc.doomed|;
    DeletedDrops(w, cfg, count, store);
    DeletedKeeps(w, cfg, count, store);
    DeletedWaits(w.gc, w.bucket, count, store);
  }

  lemma {:induction false} DeletedWaits(gc: Gc, b: Bucket, count: nat, store: Store)
    requires count <= |gc.doomed|
    ensures var (r, g, c) := Deleted(gc, b, count, store);
      !r.Moved? ==> |g.doomed| + count > |gc.doomed|
    decreases count
  {
    hide Polled;
    if count > 0 {
      var n := |gc.doomed| - 1;
      var (r, g, c) := Asked(gc, b, Delete(gc.doomed[n]), store);
      if r.Ready? { DeletedWaits(g.(doomed := gc.doomed[..n]), c, count - 1, store); }
    }
  }

  lemma AskedShrinks(gc: Gc, b: Bucket, key: Key, store: Store)
    requires IoOk(gc.io, b, Some(Delete(key)))
    ensures forall k :: k in Asked(gc, b, Delete(key), store).2.blocks ==> k in b.blocks
  {
    PolledKeeps(gc.io, b, Delete(key), store(gc.tick).verdict);
  }

  // ---------------------------------------------------------------- the roster of backups

  lemma {:induction false} InsertSortedAscends(x: nat, s: seq<nat>)
    requires Ascending(s)
    ensures Ascending(InsertSorted(x, s))
  {
    hide Ascending;
    if s == [] {
      AscendingEmpty();
      AscendingPrepend(x, []);
    } else {
      AscendingTail(s);
      if x < s[0] {
        AscendingPrepend(x, s);
      } else if x > s[0] {
        InsertSortedAscends(x, s[1..]);
        forall k | k in InsertSorted(x, s[1..]) ensures s[0] < k { InsertSortedHas(x, s[1..], k); }
        AscendingPrepend(s[0], InsertSorted(x, s[1..]));
      }
    }
  }

  lemma {:induction false} SortedDistinctAscends(s: seq<nat>)
    ensures Ascending(SortedDistinct(s))
  {
    if s != [] {
      SortedDistinctAscends(s[1..]);
      InsertSortedAscends(s[0], SortedDistinct(s[1..]));
    }
  }

  /** A loaded roster names every backup once, in order. */
  ghost predicate RosterOk(gc: Gc)
  {
    gc.rosterLoaded ==> Ascending(gc.names)
  }

  lemma {:induction false} DeletedSameRoster(gc: Gc, b: Bucket, count: nat, store: Store)
    requires count <= |gc.doomed|
    ensures var g := Deleted(gc, b, count, store).1; g.names == gc.names && g.rosterLoaded == gc.rosterLoaded
    decreases count
  {
    hide Polled;
    if count > 0 {
      var n := |gc.doomed| - 1;
      var (r, g, c) := Asked(gc, b, Delete(gc.doomed[n]), store);
      if r.Ready? { DeletedSameRoster(g.(doomed := gc.doomed[..n]), c, count - 1, store); }
    }
  }

  lemma WalkedSameRoster(gc: Gc, b: Bucket, position: nat, cat: Catalog, cfg: Settings, store: Store)
    requires position <= |gc.keep|
    ensures var g := Walked(gc, b, position, cat, cfg, store).1;
      g.names == gc.names && g.rosterLoaded == gc.rosterLoaded
  {
    hide Polled, Retained, AsRoots, ById;
  }

  lemma StepRoster(w: World, cfg: Settings, op: Op)
    requires Inv(w, cfg) && RosterOk(w.gc)
    requires w.gc.progress.Walk? ==> w.gc.progress.position <= |w.gc.keep|
    ensures RosterOk(Step(w, cfg, op).gc)
  {
    hide Inv, Captured, Retained, ById, Deleted, Fetched, Polled, AsRoots, Walked, Ascending, SortedDistinct, Named,
      Unkept, AllParse;
    if op.Collect? {
      var gc := w.gc;
      match gc.progress {
        case Unloaded =>
        case Backing(cursor) =>
          StillListing(w, cfg);
          BackedRoster(gc, w.bucket, cursor, w.cat, cfg, op.store);
        case Manifests(index) =>
        case Walk(position) => WalkedSameRoster(gc, w.bucket, position, w.cat, cfg, op.store);
        case Sweeping(cursor) =>
        case Deleting(_) =>
          DeletedSameRoster(gc, w.bucket, if cfg.perBeat < |gc.doomed| then cfg.perBeat else |gc.doomed|, op.store);
      }
    }
    assert Ascending([]) by { AscendingEmpty(); }
  }

  lemma StillListing(w: World, cfg: Settings)
    requires Inv(w, cfg) && w.gc.progress.Backing?
    ensures !w.gc.rosterLoaded
  {
  }

  lemma BackedRoster(gc: Gc, b: Bucket, cursor: Cursor, cat: Catalog, cfg: Settings, store: Store)
    requires !gc.rosterLoaded
    ensures var (r, g, c) := Backed(gc, b, cursor, cat, cfg, store); !r.Erred? ==> RosterOk(g)
  {
    hide Polled, Named, SortedDistinct, Ascending;
    if cfg.pageKeys > 0 {
      var (r, g, c) := Asked(gc, b, List(Backups, cursor, cfg.pageKeys), store);
      SortedDistinctAscends(Named(g.names, g.io.keys, cat, cfg.maxBackups).1);
    }
  }

  lemma {:induction false} RunRoster(w: World, cfg: Settings, ops: seq<Op>)
    requires Inv(w, cfg) && RosterOk(w.gc)
    ensures RosterOk(Run(w, cfg, ops).gc)
    decreases |ops|
  {
    hide Inv, Step, RosterOk;
    if ops != [] {
      StepKeeps(w, cfg, ops[0]);
      StepRoster(w, cfg, ops[0]);
      RunRoster(Step(w, cfg, ops[0]), cfg, ops[1..]);
    }
  }

  /** Over every run, a loaded roster names every stored backup exactly once, in ascending order. */
  lemma RosterExact(cat: Catalog, bucket: Bucket, cfg: Settings, ops: seq<Op>)
    requires Ascending(bucket.blocks) && Ascending(bucket.backups)
    ensures var w := Reached(cat, bucket, cfg, ops);
      w.gc.rosterLoaded ==> Ascending(w.gc.names) && NamesExact(w.cat, w.bucket.backups, w.gc.names)
  {
    hide Run, IoOk, SweepOk, KeepExact, Marked, Captured, RootsTo, KidsBefore, KidsPart;
    StartOk(cat, bucket, cfg);
    RunRoster(Start(cat, bucket), cfg, ops);
  }

  /** The roster of backups outlives the cycle: the next one reads their manifests without listing them. */
  lemma DoneKeepsRoster(w: World, cfg: Settings, store: Store)
    requires Inv(w, cfg) && (w.gc.progress.Walk? ==> w.gc.progress.position <= |w.gc.keep|)
    requires Beat(w, cfg, store).0.Done?
    ensures var g := Beat(w, cfg, store).1.gc;
      g.progress.Unloaded? && !g.loaded && g.doomed == [] && g.rosterLoaded && g.names == w.gc.names
  {
    hide Deleted, SweepOk, NamesExact, KeepExact, IoOk, Swept, Backed, Read, Walked, Begun;
    if w.gc.progress.Deleting? {
      var count := if cfg.perBeat < |w.gc.doomed| then cfg.perBeat else |w.gc.doomed|;
      DeletedSameRoster(w.gc, w.bucket, count, store);
      DeletedKeeps(w, cfg, count, store);
    } else if w.gc.progress.Sweeping? {
      SweptKeeps(w, cfg, store);
      assert false;
    } else {
      MarkingBeat(w, cfg, store);
      assert false;
    }
  }
}
