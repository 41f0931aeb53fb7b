/** What the garbage collector knows in each phase of a cycle. */
module GcInvariant {
  import opened Options
  import opened GcStore
  import opened GcKeep
  import opened GcCore

  // ---------------------------------------------------------------- which blocks are live

  ghost predicate IsName(cat: Catalog, backups: seq<Key>, name: nat)
  {
    exists k :: k in backups && cat.nameOf(k) == Some(name)
  }

  /** A root in memory, in the live manifest or in the manifest of a stored backup. */
  ghost predicate IsRoot(cat: Catalog, backups: seq<Key>, m: Mark)
  {
    || IsSource(cat.sources, m)
    || (cat.manifestPresent && m in cat.manifest)
    || (exists name :: IsName(cat, backups, name) && m in cat.backupManifest(name))
  }

  function IdSet(ids: seq<nat>): set<nat>
  {
    set x | x in ids
  }

  function PlanKids(plan: seq<Visit>, n: nat): set<nat>
    requires n <= |plan|
  {
    if n == 0 then {} else PlanKids(plan, n - 1) + IdSet(plan[n - 1].kept)
  }

  function KidsOf(cat: Catalog, m: Mark): set<nat>
  {
    match m.kind
    case None => {}
    case Some(SstRoster) => IdSet(cat.rows(m.id))
    case Some(IndexRoster) => PlanKids(cat.plan(m.id), |cat.plan(m.id)|)
  }

  /** A root, or a child in the roster of one. */
  ghost predicate IsLive(cat: Catalog, backups: seq<Key>, id: nat)
  {
    exists m :: IsRoot(cat, backups, m) && (m.id == id || id in KidsOf(cat, m))
  }

  ghost predicate LiveKey(cat: Catalog, backups: seq<Key>, k: Key)
  {
    cat.parse(k).Some? && IsLive(cat, backups, cat.parse(k).value)
  }

  // ---------------------------------------------------------------- worlds

  /** The collector with its bucket and catalog. `before` is what was stored when the cycle started,
      `swept` the block keys listed since, and `from` how many objects had been read by then. */
  datatype World = World(gc: Gc, bucket: Bucket, cat: Catalog, before: seq<Key>, swept: seq<Key>, from: nat)

  ghost function Expected(gc: Gc, cat: Catalog, cfg: Settings): Option<Request>
  {
    match gc.progress
    case Unloaded => None
    case Backing(cursor) => Some(List(Backups, cursor, cfg.pageKeys))
    case Manifests(index) =>
      if index <= |gc.names| && (index > 0 || cat.manifestPresent)
      then Some(Get(ManifestObject(gc.names, index))) else None
    case Walk(p) => if p < |gc.keep| then WalkRequest(gc.keep[p], gc.walk, cat) else None
    case Sweeping(cursor) => Some(List(Blocks, cursor, SweepLimit(cfg)))
    case Deleting(_) => if gc.doomed != [] then Some(Delete(gc.doomed[|gc.doomed| - 1])) else None
  }

  ghost function WalkRequest(m: Mark, walk: Option<nat>, cat: Catalog): Option<Request>
  {
    if m.kind == Some(SstRoster) then Some(Get(Block(m.id)))
    else if m.kind == Some(IndexRoster) then
      var n := if walk.Some? then walk.value else 0;
      if n < |cat.plan(m.id)| && cat.plan(m.id)[n].read.Some?
      then Some(Get(Block(cat.plan(m.id)[n].read.value))) else None
    else None
  }

  ghost predicate NamesTo(cat: Catalog, backups: seq<Key>, names: seq<nat>, cursor: Cursor)
  {
    forall n :: n in names <==> exists k :: k in backups && !Past(k, cursor) && cat.nameOf(k) == Some(n)
  }

  ghost predicate NamesExact(cat: Catalog, backups: seq<Key>, names: seq<nat>)
  {
    forall n :: n in names <==> IsName(cat, backups, n)
  }

  /** The roots read by the time `index` manifests have been read. */
  ghost function RootsTo(cat: Catalog, cfg: Settings, names: seq<nat>, index: nat): set<Mark>
    requires Captured(cat.sources, cfg.limits).0 && index <= |names| + 1
  {
    if index == 0 then CapturedMarks(cat.sources, cfg.limits)
    else RootsTo(cat, cfg, names, index - 1) + MarkSet(ManifestMarks(cat, names, index - 1))
  }

  ghost function KidsBefore(cat: Catalog, keep: seq<Mark>, p: nat): set<nat>
    requires p <= |keep|
  {
    if p == 0 then {} else KidsBefore(cat, keep, p - 1) + KidsOf(cat, keep[p - 1])
  }

  ghost function KidsPart(cat: Catalog, keep: seq<Mark>, p: nat, walk: Option<nat>): set<nat>
  {
    if p < |keep| && walk.Some? && walk.value <= |cat.plan(keep[p].id)|
    then PlanKids(cat.plan(keep[p].id), walk.value) else {}
  }

  ghost predicate KeepExact(keep: seq<Mark>, cat: Catalog, backups: seq<Key>)
  {
    forall id :: Keeps(keep, id) <==> IsLive(cat, backups, id)
  }

  /** Whether the sweep has decided about a key. */
  ghost predicate Decided(k: Key, progress: Progress)
  {
    match progress
    case Sweeping(cursor) => !Past(k, cursor)
    case Deleting(next) => Within(k, next)
    case _ => false
  }

  /** Nothing live is lost; what the sweep has decided against is gone or doomed; the rest is as it was. */
  ghost predicate SweepOk(w: World)
  {
    && (forall k :: k in w.bucket.blocks ==> k in w.before)
    && (forall k :: k in w.before && (Decided(k, w.gc.progress) ==> LiveKey(w.cat, w.bucket.backups, k)) ==>
          k in w.bucket.blocks)
    && (forall k :: k in w.bucket.blocks && Decided(k, w.gc.progress) ==>
          LiveKey(w.cat, w.bucket.backups, k) || k in w.gc.doomed)
    && (forall k :: k in w.gc.doomed ==>
          k in w.before && w.cat.parse(k).Some? && !LiveKey(w.cat, w.bucket.backups, k) && Decided(k, w.gc.progress))
    && Ascending(w.swept)
    && (forall k :: k in w.swept <==> k in w.before && Decided(k, w.gc.progress))
    && (forall k :: k in w.swept ==> w.cat.parse(k).Some?)
  }

  ghost predicate Marking(w: World, cfg: Settings)
  {
    && !w.gc.loaded && w.gc.doomed == [] && Captured(w.cat.sources, cfg.limits).0
    && w.before == w.bucket.blocks && w.swept == []
  }

  ghost predicate PhaseOk(w: World, cfg: Settings)
  {
    var (gc, cat, backups) := (w.gc, w.cat, w.bucket.backups);
    match gc.progress
    case Unloaded =>
      !gc.loaded && gc.doomed == [] && gc.walk.None? && (gc.rosterLoaded ==> NamesExact(cat, backups, gc.names))
    case Backing(cursor) =>
      && Marking(w, cfg) && !gc.rosterLoaded && gc.walk.None? && NamesTo(cat, backups, gc.names, cursor)
      && Marked(gc.keep, CapturedMarks(cat.sources, cfg.limits), {})
    case Manifests(index) =>
      && Marking(w, cfg) && gc.rosterLoaded && gc.walk.None? && NamesExact(cat, backups, gc.names)
      && index <= |gc.names| + 1
      && Marked(gc.keep, RootsTo(cat, cfg, gc.names, index), {})
    case Walk(p) =>
      && Marking(w, cfg) && gc.rosterLoaded && NamesExact(cat, backups, gc.names) && p <= |gc.keep|
      && (gc.walk.Some? ==>
            p < |gc.keep| && gc.keep[p].kind == Some(IndexRoster) && gc.walk.value <= |cat.plan(gc.keep[p].id)|)
      && Marked(gc.keep, RootsTo(cat, cfg, gc.names, |gc.names| + 1),
                KidsBefore(cat, gc.keep, p) + KidsPart(cat, gc.keep, p, gc.walk))
    case Sweeping(_) =>
      && gc.loaded && gc.rosterLoaded && gc.walk.None?
      && NamesExact(cat, backups, gc.names) && KeepExact(gc.keep, cat, backups)
      && gc.doomed == [] && SweepOk(w)
    case Deleting(_) =>
      && gc.loaded && gc.rosterLoaded && gc.walk.None?
      && NamesExact(cat, backups, gc.names) && KeepExact(gc.keep, cat, backups)
      && |gc.doomed| <= cfg.doomedCapacity && SweepOk(w)
  }

  ghost predicate Inv(w: World, cfg: Settings)
  {
    && Ascending(w.bucket.blocks) && Ascending(w.bucket.backups) && Ascending(w.before)
    && IoOk(w.gc.io, w.bucket, Expected(w.gc, w.cat, cfg))
    && PhaseOk(w, cfg)
  }

  // ---------------------------------------------------------------- reading manifests

  lemma {:induction false} RootsToAre(cat: Catalog, cfg: Settings, names: seq<nat>, index: nat, m: Mark)
    requires Captured(cat.sources, cfg.limits).0 && index <= |names| + 1
    ensures m in RootsTo(cat, cfg, names, index) <==>
      || IsSource(cat.sources, m)
      || (index > 0 && cat.manifestPresent && m in cat.manifest)
      || (exists j :: 0 <= j < index - 1 && m in cat.backupManifest(names[j]))
    decreases index
  {
    if index == 0 {
      CapturedMarksAre(cat.sources, cfg.limits, m);
    } else {
      RootsToAre(cat, cfg, names, index - 1, m);
      if index > 1 && m in ManifestMarks(cat, names, index - 1) {
        assert m in cat.backupManifest(names[index - 2]);
      }
    }
  }

  /** Once every manifest has been read, the roots are all the roots. */
  lemma RootsAreAll(cat: Catalog, cfg: Settings, names: seq<nat>, backups: seq<Key>, m: Mark)
    requires Captured(cat.sources, cfg.limits).0 && NamesExact(cat, backups, names)
    ensures m in RootsTo(cat, cfg, names, |names| + 1) <==> IsRoot(cat, backups, m)
  {
    RootsToAre(cat, cfg, names, |names| + 1, m);
    if j :| 0 <= j < |names| && m in cat.backupManifest(names[j]) {
      assert names[j] in names && IsName(cat, backups, names[j]);
    }
    if name :| IsName(cat, backups, name) && m in cat.backupManifest(name) {
      assert name in names;
      var j :| 0 <= j < |names| && names[j] == name;
      assert m in cat.backupManifest(names[j]);
    }
  }

  // ---------------------------------------------------------------- walking rosters

  lemma {:induction false} KidsBeforeStays(cat: Catalog, keep: seq<Mark>, k: seq<Mark>, p: nat)
    requires keep <= k && p <= |keep|
    ensures KidsBefore(cat, k, p) == KidsBefore(cat, keep, p)
  {
    if p > 0 { KidsBeforeStays(cat, keep, k, p - 1); }
  }

  lemma {:induction false} KidsBeforeHas(cat: Catalog, keep: seq<Mark>, p: nat, x: nat)
    requires p <= |keep|
    ensures x in KidsBefore(cat, keep, p) <==> exists i :: 0 <= i < p && x in KidsOf(cat, keep[i])
  {
    if p > 0 {
      KidsBeforeHas(cat, keep, p - 1, x);
      if x in KidsOf(cat, keep[p - 1]) { assert 0 <= p - 1 < p; }
    }
  }

  /** Plain entries have no children. */
  lemma {:induction false} KidsBeforeSkips(cat: Catalog, keep: seq<Mark>, p: nat, q: nat)
    requires p <= q <= |keep| && forall k :: p <= k < q ==> keep[k].kind.None?
    ensures KidsBefore(cat, keep, q) == KidsBefore(cat, keep, p)
    decreases q
  {
    if p < q { KidsBeforeSkips(cat, keep, p, q - 1); }
  }

  /** Keeping children only appends plain entries. */
  lemma {:induction false} KidsKept(keep: seq<Mark>, ids: seq<nat>, capacity: nat, roots: set<Mark>, kids: set<nat>)
    requires Marked(keep, roots, kids) && Retained(keep, AsRoots(ids, None), capacity).0
    ensures var k := Retained(keep, AsRoots(ids, None), capacity).1;
      keep <= k && Marked(k, roots, kids + IdSet(ids)) && forall i :: |keep| <= i < |k| ==> k[i].kind.None?
    decreases |ids|
  {
    hide Marked, Inserted;
    var marks := AsRoots(ids, None);
    if ids == [] {
      assert kids + IdSet(ids) == kids;
    } else {
      assert marks[0] == Mark(ids[0], None) && marks[1..] == AsRoots(ids[1..], None);
      var k := Inserted(keep, ids[0], capacity).1;
      InsertedKeeps(keep, ids[0], capacity, roots, kids, false);
      KidsKept(k, ids[1..], capacity, roots, kids + {ids[0]});
      assert kids + {ids[0]} + IdSet(ids[1..]) == kids + IdSet(ids) by { assert ids == [ids[0]] + ids[1..]; }
    }
  }

  /** When no roster is left to walk, the keep-set is exactly the live blocks. */
  lemma MarkedIsLive(cat: Catalog, cfg: Settings, names: seq<nat>, backups: seq<Key>, keep: seq<Mark>)
    requires Captured(cat.sources, cfg.limits).0 && NamesExact(cat, backups, names)
    requires Marked(keep, RootsTo(cat, cfg, names, |names| + 1), KidsBefore(cat, keep, |keep|))
    ensures KeepExact(keep, cat, backups)
  {
    var roots := RootsTo(cat, cfg, names, |names| + 1);
    forall id | IsLive(cat, backups, id) ensures Keeps(keep, id) {
      var m :| IsRoot(cat, backups, m) && (m.id == id || id in KidsOf(cat, m));
      RootsAreAll(cat, cfg, names, backups, m);
      assert HasMark(keep, m);
      if m.id != id {
        var i :| 0 <= i < |keep| && keep[i].id == m.id && (m.kind.Some? ==> keep[i].kind == m.kind);
        assert keep[i] == m;
        KidsBeforeHas(cat, keep, |keep|, id);
      }
    }
    forall id | Keeps(keep, id) ensures IsLive(cat, backups, id) {
      var i :| 0 <= i < |keep| && keep[i].id == id;
      assert Known(keep[i], roots, KidsBefore(cat, keep, |keep|));
      if id in KidsBefore(cat, keep, |keep|) {
        KidsBeforeHas(cat, keep, |keep|, id);
        var j :| 0 <= j < |keep| && id in KidsOf(cat, keep[j]);
        assert Known(keep[j], roots, KidsBefore(cat, keep, |keep|));
        RootsAreAll(cat, cfg, names, backups, keep[j]);
      } else {
        var r :| r in roots && r.id == id;
        RootsAreAll(cat, cfg, names, backups, r);
      }
    }
  }

  lemma {:induction false} InsertByIdHas(m: Mark, s: seq<Mark>, id: nat)
    ensures Keeps(InsertById(m, s), id) <==> m.id == id || Keeps(s, id)
  {
    if s == [] || m.id <= s[0].id {
      KeepsCons(m, s, id);
    } else {
      InsertByIdHas(m, s[1..], id);
      KeepsCons(s[0], InsertById(m, s[1..]), id);
      KeepsCons(s[0], s[1..], id);
      assert s == [s[0]] + s[1..];
    }
  }

  lemma KeepsCons(m: Mark, s: seq<Mark>, id: nat)
    ensures Keeps([m] + s, id) <==> m.id == id || Keeps(s, id)
  {
    var t := [m] + s;
    if m.id == id { assert t[0].id == id; }
    if Keeps(s, id) {
      var i :| 0 <= i < |s| && s[i].id == id;
      assert t[i + 1].id == id;
    }
    if Keeps(t, id) && m.id != id {
      var i :| 0 <= i < |t| && t[i].id == id;
      assert s[i - 1].id == id;
    }
  }

  /** Sorting the keep-set for the binary search loses nothing. */
  lemma {:induction false} ByIdHas(s: seq<Mark>, id: nat)
    ensures Keeps(ById(s), id) <==> Keeps(s, id)
  {
    if s != [] {
      ByIdHas(s[1..], id);
      InsertByIdHas(s[0], ById(s[1..]), id);
      KeepsCons(s[0], s[1..], id);
      assert s == [s[0]] + s[1..];
    }
  }

  // ---------------------------------------------------------------- sweeping

  lemma {:induction false} UnkeptHas(keep: seq<Mark>, page: seq<Key>, cat: Catalog, k: Key)
    ensures k in Unkept(keep, page, cat) <==> k in page && cat.parse(k).Some? && !Keeps(keep, cat.parse(k).value)
    ensures |Unkept(keep, page, cat)| <= |page|
  {
    if page != [] {
      UnkeptHas(keep, page[1..], cat, k);
      assert page == [page[0]] + page[1..];
    }
  }

  /** The bucket may lose a doomed key at any time. */
  lemma SweepLoses(w: World, key: Key)
    requires SweepOk(w) && key in w.gc.doomed
    ensures SweepOk(w.(bucket := w.bucket.(blocks := Removed(w.bucket.blocks, key))))
  {
    assert !LiveKey(w.cat, w.bucket.backups, key) && Decided(key, w.gc.progress);
  }
}
