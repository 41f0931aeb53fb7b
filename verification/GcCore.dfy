/** The resumable mark and sweep over stored blocks, one beat at a time. */
module GcCore {
  import opened Options
  import opened GcStore
  import opened GcKeep

  /** One step of a value-index roster walk: the block it reads, if any, and the blocks it keeps. */
  datatype Visit = Visit(read: Option<nat>, kept: seq<nat>)

  /** The durable state a cycle looks at. It does not change while a keep-set is in use. Block contents
      are fixed by their identities: the children in a row roster and the walk of an index roster. */
  datatype Catalog = Catalog(sources: Sources, manifestPresent: bool, manifest: seq<Mark>,
                             backupManifest: nat -> seq<Mark>, nameOf: Key -> Option<nat>, nameOk: nat -> bool,
                             parse: Key -> Option<nat>, rows: nat -> seq<nat>, plan: nat -> seq<Visit>)

  /** Startup reservations. */
  datatype Settings = Settings(limits: Limits, maxBackups: nat, pageKeys: nat, doomedCapacity: nat, perBeat: nat)

  datatype Progress =
    | Unloaded
    | Backing(cursor: Cursor)
    | Manifests(index: nat)
    | Walk(position: nat)
    | Sweeping(cursor: Cursor)
    | Deleting(next: Option<Key>)

  datatype Gc = Gc(progress: Progress, keep: seq<Mark>, names: seq<nat>, rosterLoaded: bool, loaded: bool,
                   doomed: seq<Key>, walk: Option<nat>, io: Io, tick: nat)

  type Store = nat -> Reply

  /** How a beat ended: waiting for a request, with an error, one step further, or with the cycle done. */
  datatype Result = Waiting | Erred | Moved | Done

  function Reset(gc: Gc): Gc
  {
    gc.(progress := Unloaded, names := [], rosterLoaded := false, loaded := false, doomed := [], walk := None,
        io := Cancelled(gc.io))
  }

  function Asked(gc: Gc, b: Bucket, request: Request, store: Store): (Poll, Gc, Bucket)
  {
    var (r, io, c) := Polled(gc.io, b, request, store(gc.tick).verdict);
    (r, gc.(io := io, tick := gc.tick + 1), c)
  }

  // ---------------------------------------------------------------- marking

  function Begun(gc: Gc, cat: Catalog, cfg: Settings): (Result, Gc)
  {
    var (ok, keep) := Captured(cat.sources, cfg.limits);
    if !ok then (Erred, gc.(keep := keep))
    else if gc.rosterLoaded then (Moved, gc.(keep := keep, walk := None, progress := Manifests(0)))
    else (Moved, gc.(keep := keep, walk := None, names := [], progress := Backing(None)))
  }

  /** Collects the backup names of a page; true when one is invalid or does not fit. */
  function Named(names: seq<nat>, page: seq<Key>, cat: Catalog, capacity: nat): (bool, seq<nat>)
    decreases |page|
  {
    if page == [] then (false, names)
    else
      var name := cat.nameOf(page[0]);
      if name.None? then Named(names, page[1..], cat, capacity)
      else if !cat.nameOk(name.value) || |names| >= capacity then (true, Named(names, page[1..], cat, capacity).1)
      else Named(names + [name.value], page[1..], cat, capacity)
  }

  function Backed(gc: Gc, b: Bucket, cursor: Cursor, cat: Catalog, cfg: Settings, store: Store): (Result, Gc, Bucket)
  {
    if cfg.pageKeys == 0 then (Erred, gc, b)
    else
      var (r, g, c) := Asked(gc, b, List(Backups, cursor, cfg.pageKeys), store);
      if r.Pending? then (Waiting, g, c)
      else if !r.Ready? || !r.answer.Listed? then (Erred, g, c)
      else
        var (invalid, names) := Named(g.names, g.io.keys, cat, cfg.maxBackups);
        var h := g.(names := names, io := g.io.(keys := []));
        if invalid then (Erred, h, c)
        else if r.answer.next.Some? then (Moved, h.(progress := Backing(r.answer.next)), c)
        else (Moved, h.(names := SortedDistinct(names), rosterLoaded := true, progress := Manifests(0)), c)
  }

  function ManifestObject(names: seq<nat>, index: nat): Object
    requires index <= |names|
  {
    if index == 0 then LiveManifest else BackupManifest(names[index - 1])
  }

  function ManifestMarks(cat: Catalog, names: seq<nat>, index: nat): seq<Mark>
    requires index <= |names|
  {
    if index == 0 then (if cat.manifestPresent then cat.manifest else []) else cat.backupManifest(names[index - 1])
  }

  function Read(gc: Gc, b: Bucket, index: nat, cat: Catalog, cfg: Settings, store: Store): (Result, Gc, Bucket)
  {
    if index > |gc.names| then (Moved, gc.(progress := Walk(0)), b)
    else if index == 0 && !cat.manifestPresent then (Moved, gc.(progress := Manifests(1)), b)
    else
      var (r, g, c) := Asked(gc, b, Get(ManifestObject(gc.names, index)), store);
      if r.Pending? then (Waiting, g, c)
      else if !r.Ready? || store(gc.tick).corrupt then (Erred, g, c)
      else
        var (ok, keep) := Retained(g.keep, ManifestMarks(cat, gc.names, index), cfg.limits.keep);
        (if ok then Moved else Erred, g.(keep := keep, progress := if ok then Manifests(index + 1) else g.progress), c)
  }

  /** A block from the cache when no request is outstanding, and otherwise from the store. */
  function Fetched(gc: Gc, b: Bucket, id: nat, store: Store): (Poll, Gc, Bucket)
  {
    if gc.io.state.Idle? && store(gc.tick).cached
    then (Ready(Body), gc.(tick := gc.tick + 1, io := gc.io.(log := gc.io.log + [Block(id)])), b)
    else Asked(gc, b, Get(Block(id)), store)
  }

  /** The first roster at or past the position. */
  function Skipped(keep: seq<Mark>, position: nat): (p: nat)
    requires position <= |keep|
    ensures position <= p <= |keep| && (p < |keep| ==> keep[p].kind.Some?)
    ensures forall k :: position <= k < p ==> keep[k].kind.None?
    decreases |keep| - position
  {
    if position == |keep| || keep[position].kind.Some? then position else Skipped(keep, position + 1)
  }

  function Walked(gc: Gc, b: Bucket, position: nat, cat: Catalog, cfg: Settings, store: Store): (Result, Gc, Bucket)
    requires position <= |gc.keep|
  {
    var p := Skipped(gc.keep, position);
    if p == |gc.keep| then (Moved, gc.(keep := ById(gc.keep), loaded := true, progress := Sweeping(None)), b)
    else if gc.keep[p].kind == Some(SstRoster) then RowsWalked(gc.(progress := Walk(p)), b, p, cat, cfg, store)
    else IndexWalked(gc.(progress := Walk(p)), b, p, cat, cfg, store)
  }

  /** What a read brings in: the ids to keep, and then the place the walk moves to. */
  function Taken(read: (Poll, Gc, Bucket), corrupt: bool, ids: seq<nat>, walk: Option<nat>, progress: Progress,
                 cfg: Settings): (Result, Gc, Bucket)
  {
    var (r, g, c) := read;
    if r.Pending? then (Waiting, g, c)
    else if !r.Ready? || corrupt then (Erred, g, c)
    else
      var (ok, keep) := Retained(g.keep, AsRoots(ids, None), cfg.limits.keep);
      if ok then (Moved, g.(keep := keep, walk := walk, progress := progress), c) else (Erred, g.(keep := keep), c)
  }

  function RowsWalked(gc: Gc, b: Bucket, p: nat, cat: Catalog, cfg: Settings, store: Store): (Result, Gc, Bucket)
    requires p < |gc.keep|
  {
    var id := gc.keep[p].id;
    Taken(Fetched(gc, b, id, store), store(gc.tick).corrupt, cat.rows(id), gc.walk, Walk(p + 1), cfg)
  }

  function Visiting(gc: Gc, b: Bucket, v: Visit, n: nat, store: Store): (Poll, Gc, Bucket)
  {
    var g := gc.(walk := Some(n));
    if v.read.Some? then Fetched(g, b, v.read.value, store) else (Ready(Body), g.(tick := gc.tick + 1), b)
  }

  /** A walk keeps its place while a read waits. Each step takes in one visit, and the last ends it. */
  function IndexWalked(gc: Gc, b: Bucket, p: nat, cat: Catalog, cfg: Settings, store: Store): (Result, Gc, Bucket)
    requires p < |gc.keep|
  {
    var plan := cat.plan(gc.keep[p].id);
    var n := if gc.walk.Some? then gc.walk.value else 0;
    if n >= |plan| then (Moved, gc.(walk := None, progress := Walk(p + 1)), b)
    else
      var last := n + 1 >= |plan|;
      Taken(Visiting(gc, b, plan[n], n, store), store(gc.tick).corrupt, plan[n].kept,
            if last then None else Some(n + 1), if last then Walk(p + 1) else Walk(p), cfg)
  }

  function InsertById(m: Mark, s: seq<Mark>): seq<Mark>
  {
    if s == [] || m.id <= s[0].id then [m] + s else [s[0]] + InsertById(m, s[1..])
  }

  function ById(s: seq<Mark>): seq<Mark>
  {
    if s == [] then [] else InsertById(s[0], ById(s[1..]))
  }

  // ---------------------------------------------------------------- sweeping

  /** The keys of a page whose blocks are not kept. */
  function Unkept(keep: seq<Mark>, page: seq<Key>, cat: Catalog): seq<Key>
  {
    if page == [] then []
    else
      var id := cat.parse(page[0]);
      (if id.Some? && !Keeps(keep, id.value) then [page[0]] else []) + Unkept(keep, page[1..], cat)
  }

  predicate AllParse(page: seq<Key>, cat: Catalog)
  {
    forall i :: 0 <= i < |page| ==> cat.parse(page[i]).Some?
  }

  function SweepLimit(cfg: Settings): nat
  {
    if cfg.pageKeys < cfg.doomedCapacity then cfg.pageKeys else cfg.doomedCapacity
  }

  function Swept(gc: Gc, b: Bucket, cursor: Cursor, cat: Catalog, cfg: Settings, store: Store): (Result, Gc, Bucket)
  {
    if SweepLimit(cfg) == 0 then (Erred, gc, b)
    else
      var (r, g, c) := Asked(gc, b, List(Blocks, cursor, SweepLimit(cfg)), store);
      if r.Pending? then (Waiting, g, c)
      else if !r.Ready? || !r.answer.Listed? then (Erred, g, c)
      else
        var page := g.io.keys;
        var h := g.(io := g.io.(keys := []));
        if !AllParse(page, cat) then (Erred, h.(doomed := []), c)
        else (Moved, h.(doomed := g.doomed + Unkept(g.keep, page, cat), progress := Deleting(r.answer.next)), c)
  }

  function Deleted(gc: Gc, b: Bucket, count: nat, store: Store): (r: (Result, Gc, Bucket))
    requires count <= |gc.doomed|
    decreases count
  {
    if count == 0 then (Moved, gc, b)
    else
      var last := gc.doomed[|gc.doomed| - 1];
      var (r, g, c) := Asked(gc, b, Delete(last), store);
      if r.Pending? then (Waiting, g, c)
      else if !r.Ready? then (Erred, g, c)
      else Deleted(g.(doomed := gc.doomed[..|gc.doomed| - 1]), c, count - 1, store)
  }

  function Purged(gc: Gc, b: Bucket, next: Option<Key>, cfg: Settings, store: Store): (Result, Gc, Bucket)
  {
    var count := if cfg.perBeat < |gc.doomed| then cfg.perBeat else |gc.doomed|;
    var (r, g, c) := Deleted(gc, b, count, store);
    if !r.Moved? || g.doomed != [] then (r, g, c)
    else if next.Some? then (Moved, g.(progress := Sweeping(next)), c)
    else (Done, g.(progress := Unloaded, loaded := false), c)
  }

  // ---------------------------------------------------------------- one beat

  function Stepped(gc: Gc, b: Bucket, cat: Catalog, cfg: Settings, store: Store): (Result, Gc, Bucket)
    requires gc.progress.Walk? ==> gc.progress.position <= |gc.keep|
  {
    match gc.progress
    case Unloaded => var (r, g) := Begun(gc, cat, cfg); (r, g, b)
    case Backing(cursor) => Backed(gc, b, cursor, cat, cfg, store)
    case Manifests(index) => Read(gc, b, index, cat, cfg, store)
    case Walk(position) => Walked(gc, b, position, cat, cfg, store)
    case Sweeping(cursor) => Swept(gc, b, cursor, cat, cfg, store)
    case Deleting(next) => Purged(gc, b, next, cfg, store)
  }

  /** An error before marking completes discards the cycle; a later one keeps its key and cursor. */
  function Beaten(gc: Gc, b: Bucket, cat: Catalog, cfg: Settings, store: Store): (Result, Gc, Bucket)
    requires gc.progress.Walk? ==> gc.progress.position <= |gc.keep|
  {
    var (r, g, c) := Stepped(gc, b, cat, cfg, store);
    (r, if r.Erred? && !g.loaded then Reset(g) else g, c)
  }
}
