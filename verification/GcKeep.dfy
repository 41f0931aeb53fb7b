/** The keep-set of the block garbage collector and the roots that a cycle captures. */
module GcKeep {
  import opened Options

  datatype Kind = SstRoster | IndexRoster

  /** A block to keep; with a kind it is a roster whose children are kept too. */
  datatype Mark = Mark(id: nat, kind: Option<Kind>)

  // ---------------------------------------------------------------- the append-only set

  function Find(keep: seq<Mark>, id: nat): (i: nat)
    ensures i <= |keep| && (i < |keep| ==> keep[i].id == id)
    ensures forall k :: 0 <= k < i ==> keep[k].id != id
  {
    if keep == [] || keep[0].id == id then 0 else 1 + Find(keep[1..], id)
  }

  predicate Keeps(keep: seq<Mark>, id: nat)
  {
    exists i :: 0 <= i < |keep| && keep[i].id == id
  }

  /** False when the reserved capacity is exhausted. */
  function Inserted(keep: seq<Mark>, id: nat, capacity: nat): (bool, seq<Mark>)
  {
    if Find(keep, id) < |keep| then (true, keep)
    else if |keep| >= capacity then (false, keep)
    else (true, keep + [Mark(id, None)])
  }

  /** Also false when the block is already a root of another kind. */
  function RootInserted(keep: seq<Mark>, id: nat, kind: Kind, capacity: nat): (bool, seq<Mark>)
  {
    var (ok, k) := Inserted(keep, id, capacity);
    var i := Find(k, id);
    if !ok || i == |k| then (false, k)
    else if k[i].kind.Some? && k[i].kind.value != kind then (false, k)
    else (true, k[i := Mark(id, Some(kind))])
  }

  function MarkInserted(keep: seq<Mark>, m: Mark, capacity: nat): (bool, seq<Mark>)
  {
    if m.kind.Some? then RootInserted(keep, m.id, m.kind.value, capacity) else Inserted(keep, m.id, capacity)
  }

  function Retained(keep: seq<Mark>, marks: seq<Mark>, capacity: nat): (bool, seq<Mark>)
    decreases |marks|
  {
    if marks == [] then (true, keep)
    else
      var (ok, k) := MarkInserted(keep, marks[0], capacity);
      if ok then Retained(k, marks[1..], capacity) else (false, k)
  }

  // ---------------------------------------------------------------- what the set stands for

  ghost predicate HasMark(keep: seq<Mark>, m: Mark)
  {
    exists i :: 0 <= i < |keep| && keep[i].id == m.id && (m.kind.Some? ==> keep[i].kind == m.kind)
  }

  ghost predicate Known(m: Mark, roots: set<Mark>, kids: set<nat>)
  {
    && (m.kind.Some? ==> m in roots)
    && (m.id in kids || exists r :: r in roots && r.id == m.id)
  }

  /** `keep` names each block once, and stands for exactly these roots and children. */
  ghost predicate Marked(keep: seq<Mark>, roots: set<Mark>, kids: set<nat>)
  {
    && (forall i, j :: 0 <= i < j < |keep| ==> keep[i].id != keep[j].id)
    && (forall r :: r in roots ==> HasMark(keep, r))
    && (forall x :: x in kids ==> Keeps(keep, x))
    && (forall i :: 0 <= i < |keep| ==> Known(keep[i], roots, kids))
  }

  lemma FindFinds(keep: seq<Mark>, id: nat)
    ensures Find(keep, id) < |keep| <==> Keeps(keep, id)
  {
  }

  /** One entry more, or one entry that became a root, keeps every earlier mark. */
  ghost predicate Extends(keep: seq<Mark>, k: seq<Mark>)
  {
    && |keep| <= |k|
    && forall i :: 0 <= i < |keep| ==> k[i].id == keep[i].id && (keep[i].kind.Some? ==> k[i].kind == keep[i].kind)
  }

  lemma ExtendsKeeps(keep: seq<Mark>, k: seq<Mark>, m: Mark)
    requires Extends(keep, k) && HasMark(keep, m)
    ensures HasMark(k, m)
  {
    var i :| 0 <= i < |keep| && keep[i].id == m.id && (m.kind.Some? ==> keep[i].kind == m.kind);
    assert k[i].id == m.id;
  }

  lemma KeepsExtends(keep: seq<Mark>, k: seq<Mark>, x: nat)
    requires Extends(keep, k) && Keeps(keep, x)
    ensures Keeps(k, x)
  {
    var i :| 0 <= i < |keep| && keep[i].id == x;
    assert k[i].id == x;
  }

  lemma KnownMore(m: Mark, roots: set<Mark>, kids: set<nat>, moreRoots: set<Mark>, moreKids: set<nat>)
    requires Known(m, roots, kids)
    ensures Known(m, roots + moreRoots, kids + moreKids)
  {
    if m.id !in kids {
      var r :| r in roots && r.id == m.id;
      assert r in roots + moreRoots;
    }
  }

  /** Inserting a plain block keeps every entry where it is. */
  lemma InsertedKeeps(keep: seq<Mark>, id: nat, capacity: nat, roots: set<Mark>, kids: set<nat>, asRoot: bool)
    requires Marked(keep, roots, kids) && Inserted(keep, id, capacity).0
    ensures var k := Inserted(keep, id, capacity).1;
      && keep <= k && Keeps(k, id) && (k == keep || k == keep + [Mark(id, None)])
      && Marked(k, if asRoot then roots + {Mark(id, None)} else roots, if asRoot then kids else kids + {id})
  {
    hide Known, HasMark;
    FindFinds(keep, id);
    var k := Inserted(keep, id, capacity).1;
    var moreRoots: set<Mark> := if asRoot then {Mark(id, None)} else {};
    var moreKids: set<nat> := if asRoot then {} else {id};
    assert Extends(keep, k);
    assert Keeps(k, id) by { if k != keep { assert k[|keep|].id == id; } }
    forall r | r in roots + moreRoots ensures HasMark(k, r) {
      if r in roots { ExtendsKeeps(keep, k, r); } else { PlainMark(k, id); }
    }
    forall x | x in kids + moreKids ensures Keeps(k, x) {
      if x in kids { KeepsExtends(keep, k, x); }
    }
    forall i | 0 <= i < |k| ensures Known(k[i], roots + moreRoots, kids + moreKids) {
      if i < |keep| { KnownMore(keep[i], roots, kids, moreRoots, moreKids); }
      else { PlainKnown(id, roots + moreRoots, kids + moreKids); }
    }
    assert roots + {} == roots && kids + {} == kids;
    assert forall i :: 0 <= i < |keep| ==> k[i].id == keep[i].id;
  }

  lemma PlainMark(keep: seq<Mark>, id: nat)
    requires Keeps(keep, id)
    ensures HasMark(keep, Mark(id, None))
  {
  }

  lemma PlainKnown(id: nat, roots: set<Mark>, kids: set<nat>)
    requires Mark(id, None) in roots || id in kids
    ensures Known(Mark(id, None), roots, kids)
  {
  }

  lemma RootInsertedKeeps(keep: seq<Mark>, id: nat, kind: Kind, capacity: nat, roots: set<Mark>, kids: set<nat>)
    requires Marked(keep, roots, kids) && RootInserted(keep, id, kind, capacity).0
    ensures Marked(RootInserted(keep, id, kind, capacity).1, roots + {Mark(id, Some(kind))}, kids)
  {
    hide Known, HasMark;
    var k := Inserted(keep, id, capacity).1;
    InsertedKeeps(keep, id, capacity, roots, kids, true);
    var i, m := Find(k, id), Mark(id, Some(kind));
    var t := k[i := m];
    assert Extends(k, t);
    forall r | r in roots + {m} ensures HasMark(t, r) {
      if r in roots { ExtendsKeeps(k, t, r); } else { assert HasMark(t, r) by { RootMark(t, i, m); } }
    }
    forall x | x in kids ensures Keeps(t, x) { KeepsExtends(k, t, x); }
    forall j | 0 <= j < |t| ensures Known(t[j], roots + {m}, kids) {
      if j == i { RootKnown(m, roots + {m}, kids); }
      else { OtherKnown(k[j], id, roots, kids); KnownMore(k[j], roots, kids, {m}, {}); assert kids + {} == kids; }
    }
  }

  lemma RootMark(keep: seq<Mark>, i: nat, m: Mark)
    requires i < |keep| && keep[i] == m
    ensures HasMark(keep, m)
  {
  }

  lemma RootKnown(m: Mark, roots: set<Mark>, kids: set<nat>)
    requires m in roots
    ensures Known(m, roots, kids)
  {
  }

  lemma OtherKnown(m: Mark, id: nat, roots: set<Mark>, kids: set<nat>)
    requires m.id != id && Known(m, roots + {Mark(id, None)}, kids)
    ensures Known(m, roots, kids)
  {
    if m.id !in kids {
      var r :| r in roots + {Mark(id, None)} && r.id == m.id;
      assert r in roots;
    }
  }

  function MarkSet(marks: seq<Mark>): set<Mark>
  {
    set m | m in marks
  }

  lemma {:induction false} RetainedKeeps(keep: seq<Mark>, marks: seq<Mark>, capacity: nat, roots: set<Mark>,
                                         kids: set<nat>)
    requires Marked(keep, roots, kids) && Retained(keep, marks, capacity).0
    ensures Marked(Retained(keep, marks, capacity).1, roots + MarkSet(marks), kids)
    decreases |marks|
  {
    hide Marked;
    if marks == [] {
      assert roots + MarkSet(marks) == roots;
    } else {
      var m, k := marks[0], MarkInserted(keep, marks[0], capacity).1;
      if m.kind.Some? { RootInsertedKeeps(keep, m.id, m.kind.value, capacity, roots, kids); }
      else { InsertedKeeps(keep, m.id, capacity, roots, kids, true); }
      RetainedKeeps(k, marks[1..], capacity, roots + {m}, kids);
      assert roots + {m} + MarkSet(marks[1..]) == roots + MarkSet(marks) by {
        assert marks == [m] + marks[1..];
      }
    }
  }

  // ---------------------------------------------------------------- what fits

  function IdsOf(marks: seq<Mark>): set<nat>
  {
    set m | m in marks :: m.id
  }

  function Kinded(marks: seq<Mark>): set<Mark>
  {
    set m | m in marks && m.kind.Some?
  }

  /** No block is a roster of both kinds. */
  ghost predicate OneKind(marks: set<Mark>)
  {
    forall a, b :: a in marks && b in marks && a.id == b.id ==> a == b
  }

  ghost predicate Distinct(keep: seq<Mark>)
  {
    forall i, j :: 0 <= i < j < |keep| ==> keep[i].id != keep[j].id
  }

  lemma {:induction false} DistinctIds(keep: seq<Mark>)
    requires Distinct(keep)
    ensures |IdsOf(keep)| == |keep|
  {
    if keep == [] {
      assert IdsOf(keep) == {};
    } else {
      var n := |keep| - 1;
      DistinctIds(keep[..n]);
      assert keep == keep[..n] + [keep[n]];
      assert IdsOf(keep) == IdsOf(keep[..n]) + {keep[n].id};
      assert keep[n].id !in IdsOf(keep[..n]);
    }
  }

  lemma InsertedFits(keep: seq<Mark>, id: nat, capacity: nat)
    requires Distinct(keep) && |keep| <= capacity
    ensures var (ok, k) := Inserted(keep, id, capacity);
      && (ok <==> |IdsOf(keep) + {id}| <= capacity)
      && Distinct(k) && |k| <= capacity && Kinded(k) == Kinded(keep)
      && (ok ==> IdsOf(k) == IdsOf(keep) + {id})
  {
    FindFinds(keep, id);
    DistinctIds(keep);
    if Keeps(keep, id) {
      var i :| 0 <= i < |keep| && keep[i].id == id;
      assert keep[i] in keep;
      assert IdsOf(keep) + {id} == IdsOf(keep);
    } else {
      assert id !in IdsOf(keep);
      if |keep| < capacity {
        var k := keep + [Mark(id, None)];
        assert forall m :: m in k <==> m in keep || m == Mark(id, None);
        assert IdsOf(k) == IdsOf(keep) + {id};
      }
    }
  }

  /** A mark fits when its block does and is not yet a roster of the other kind. */
  lemma MarkFits(keep: seq<Mark>, m: Mark, capacity: nat)
    requires Distinct(keep) && |keep| <= capacity
    ensures var (ok, k) := MarkInserted(keep, m, capacity);
      && (ok <==> |IdsOf(keep) + {m.id}| <= capacity && OneKind(Kinded(keep) + Kinded([m])))
      && Distinct(k) && |k| <= capacity
      && (ok ==> IdsOf(k) == IdsOf(keep) + {m.id} && Kinded(k) == Kinded(keep) + Kinded([m]))
  {
    InsertedFits(keep, m.id, capacity);
    if m.kind.None? {
      assert Kinded(keep) + Kinded([m]) == Kinded(keep);
      DistinctOneKind(keep);
    } else {
      var k := Inserted(keep, m.id, capacity).1;
      if Inserted(keep, m.id, capacity).0 {
        var i := Find(k, m.id);
        assert i < |k| by { assert m.id in IdsOf(k); }
        RootFits(k, i, m);
        assert Kinded([m]) == {m};
      }
    }
  }

  lemma DistinctOneKind(keep: seq<Mark>)
    requires Distinct(keep)
    ensures OneKind(Kinded(keep))
  {
  }

  lemma RootFits(k: seq<Mark>, i: nat, m: Mark)
    requires Distinct(k) && i < |k| && k[i].id == m.id && m.kind.Some?
    ensures OneKind(Kinded(k) + {m}) <==> k[i].kind.None? || k[i].kind == m.kind
    ensures var t := k[i := m];
      && Distinct(t) && IdsOf(t) == IdsOf(k)
      && (k[i].kind.None? || k[i].kind == m.kind ==> Kinded(t) == Kinded(k) + {m})
  {
    var t := k[i := m];
    if k[i].kind.Some? && k[i].kind != m.kind {
      assert k[i] in Kinded(k) + {m} && m in Kinded(k) + {m};
    }
    forall x ensures x in t <==> x == m || exists j :: 0 <= j < |k| && j != i && k[j] == x {
      if x in t { var j :| 0 <= j < |t| && t[j] == x; }
      if x == m { assert t[i] == m; }
      if j :| 0 <= j < |k| && j != i && k[j] == x { assert t[j] == x; }
    }
    forall id ensures id in IdsOf(t) <==> id in IdsOf(k) {
      if id in IdsOf(t) {
        var j :| 0 <= j < |t| && t[j].id == id;
        assert k[j].id == id && k[j] in k;
      }
      if id in IdsOf(k) {
        var j :| 0 <= j < |k| && k[j].id == id;
        assert t[j].id == id && t[j] in t;
      }
    }
    if k[i].kind.None? || k[i].kind == m.kind {
      forall x ensures x in Kinded(t) <==> x in Kinded(k) + {m} {
        if x in Kinded(k) { var j :| 0 <= j < |k| && k[j] == x; assert t[j] == x; }
      }
    }
  }

  /** Marks are retained exactly when the blocks fit the reserved capacity and none is claimed as a
      roster of both kinds. */
  lemma {:induction false} RetainFits(keep: seq<Mark>, marks: seq<Mark>, capacity: nat)
    requires Distinct(keep) && |keep| <= capacity
    ensures var (ok, k) := Retained(keep, marks, capacity);
      && (ok <==> |IdsOf(keep) + IdsOf(marks)| <= capacity && OneKind(Kinded(keep) + Kinded(marks)))
      && Distinct(k) && |k| <= capacity
      && (ok ==> IdsOf(k) == IdsOf(keep) + IdsOf(marks) && Kinded(k) == Kinded(keep) + Kinded(marks))
    decreases |marks|
  {
    hide Distinct, MarkInserted, IdsOf, Kinded, OneKind;
    if marks == [] {
      NoMarks();
      assert IdsOf(keep) + {} == IdsOf(keep) && Kinded(keep) + {} == Kinded(keep);
      DistinctIds(keep);
      DistinctOneKind(keep);
    } else {
      var m, rest := marks[0], marks[1..];
      FirstMark(marks);
      MarkFits(keep, m, capacity);
      var (ok, k) := MarkInserted(keep, m, capacity);
      assert IdsOf(keep) + {m.id} + IdsOf(rest) == IdsOf(keep) + IdsOf(marks);
      assert Kinded(keep) + Kinded([m]) + Kinded(rest) == Kinded(keep) + Kinded(marks);
      if ok {
        RetainFits(k, rest, capacity);
      } else if |IdsOf(keep) + {m.id}| > capacity {
        SubsetSize(IdsOf(keep) + {m.id}, IdsOf(keep) + IdsOf(marks));
      } else {
        SubsetOneKind(Kinded(keep) + Kinded([m]), Kinded(keep) + Kinded(marks));
      }
    }
  }

  lemma NoMarks()
    ensures IdsOf([]) == {} && Kinded([]) == {}
  {
  }

  lemma FirstMark(marks: seq<Mark>)
    requires marks != []
    ensures IdsOf(marks) == {marks[0].id} + IdsOf(marks[1..])
    ensures Kinded(marks) == Kinded([marks[0]]) + Kinded(marks[1..])
  {
    assert marks == [marks[0]] + marks[1..];
  }

  lemma SubsetOneKind(a: set<Mark>, b: set<Mark>)
    requires a <= b
    ensures OneKind(b) ==> OneKind(a)
  {
  }

  lemma SubsetSize(a: set<nat>, b: set<nat>)
    requires a <= b
    ensures |a| <= |b|
  {
    assert b == a + (b - a);
  }

  // ---------------------------------------------------------------- sorted lists without repeats

  function InsertSorted(x: nat, s: seq<nat>): seq<nat>
  {
    if s == [] || x < s[0] then [x] + s else if x == s[0] then s else [s[0]] + InsertSorted(x, s[1..])
  }

  function SortedDistinct(s: seq<nat>): seq<nat>
  {
    if s == [] then [] else InsertSorted(s[0], SortedDistinct(s[1..]))
  }

  lemma {:induction false} InsertSortedHas(x: nat, s: seq<nat>, y: nat)
    ensures y in InsertSorted(x, s) <==> y == x || y in s
  {
    if s != [] && x > s[0] {
      InsertSortedHas(x, s[1..], y);
      assert s == [s[0]] + s[1..];
    }
  }

  lemma {:induction false} SortedDistinctHas(s: seq<nat>, y: nat)
    ensures y in SortedDistinct(s) <==> y in s
  {
    if s != [] {
      SortedDistinctHas(s[1..], y);
      InsertSortedHas(s[0], SortedDistinct(s[1..]), y);
      assert s == [s[0]] + s[1..];
    }
  }

  // ---------------------------------------------------------------- capturing the roots

  /** What a cycle finds in memory: the running merge and its output, SSTs retained for readers, those
      of the last manifest, results of completed and finishing merges, SSTs installed in live
      tables, the sources of the running merge, and index roots retained or bound to columns. */
  datatype Sources = Sources(merging: bool, mergeOutput: seq<nat>, retainedSsts: seq<nat>, previous: seq<nat>,
                             completed: seq<Option<nat>>, finishing: Option<nat>, installed: seq<nat>,
                             mergeSources: seq<nat>, retainedIndexes: seq<nat>, boundIndexes: seq<Option<nat>>)

  /** Reserved capacities: the keep-set and the two root inventories. */
  datatype Limits = Limits(keep: nat, ssts: nat, indexes: nat)

  function Present(s: seq<Option<nat>>): seq<nat>
  {
    if s == [] then [] else (if s[0].Some? then [s[0].value] else []) + Present(s[1..])
  }

  function AsRoots(ids: seq<nat>, kind: Option<Kind>): seq<Mark>
  {
    seq(|ids|, i requires 0 <= i < |ids| => Mark(ids[i], kind))
  }

  /** The ids not already in the sorted inventory. */
  function Missing(ids: seq<nat>, inventory: seq<nat>): seq<nat>
  {
    if ids == [] then []
    else (if ids[0] in inventory then [] else [ids[0]]) + Missing(ids[1..], inventory)
  }

  function Published(s: Sources): seq<nat>
  {
    s.previous + Present(s.completed) + (if s.merging && s.finishing.Some? then [s.finishing.value] else [])
  }

  function SstInventory(s: Sources, l: Limits): Option<seq<nat>>
  {
    if |s.retainedSsts| + |Published(s)| > l.ssts then None else Some(SortedDistinct(s.retainedSsts + Published(s)))
  }

  /** Bound roots join the retained ones, each once; none when they do not fit. */
  function Bound(inventory: seq<nat>, bound: seq<Option<nat>>, capacity: nat): Option<seq<nat>>
    decreases |bound|
  {
    if bound == [] then Some(inventory)
    else if bound[0].None? || bound[0].value in inventory then Bound(inventory, bound[1..], capacity)
    else if |inventory| >= capacity then None
    else Bound(inventory + [bound[0].value], bound[1..], capacity)
  }

  function IndexInventory(s: Sources, l: Limits): Option<seq<nat>>
  {
    if |s.retainedIndexes| > l.indexes then None
    else
      var all := Bound(s.retainedIndexes, s.boundIndexes, l.indexes);
      if all.Some? then Some(SortedDistinct(all.value)) else None
  }

  function AlsoRetained(r: (bool, seq<Mark>), marks: seq<Mark>, capacity: nat): (bool, seq<Mark>)
  {
    if r.0 then Retained(r.1, marks, capacity) else r
  }

  function CapturedSsts(s: Sources, l: Limits, inventory: seq<nat>, start: (bool, seq<Mark>)): (bool, seq<Mark>)
  {
    var published := AlsoRetained(start, AsRoots(inventory, Some(SstRoster)), l.keep);
    var installed := AlsoRetained(published, AsRoots(Missing(s.installed, inventory), Some(SstRoster)), l.keep);
    AlsoRetained(installed, AsRoots(if s.merging then Missing(s.mergeSources, inventory) else [], Some(SstRoster)),
                 l.keep)
  }

  /** The keep-set of a new cycle. */
  function Captured(s: Sources, l: Limits): (bool, seq<Mark>)
  {
    var merge := Retained([], AsRoots(if s.merging then s.mergeOutput else [], None), l.keep);
    var ssts := SstInventory(s, l);
    if !merge.0 || ssts.None? then (false, merge.1)
    else
      var rows := CapturedSsts(s, l, ssts.value, merge);
      var indexes := IndexInventory(s, l);
      if !rows.0 || indexes.None? then (false, rows.1)
      else Retained(rows.1, AsRoots(indexes.value, Some(IndexRoster)), l.keep)
  }

  /** Every root named above, without the inventories' order, repeats and skips. */
  ghost predicate IsSource(s: Sources, m: Mark)
  {
    match m.kind
    case None => s.merging && m.id in s.mergeOutput
    case Some(SstRoster) =>
      || m.id in s.retainedSsts || m.id in s.previous || Some(m.id) in s.completed
      || (s.merging && s.finishing == Some(m.id)) || m.id in s.installed || (s.merging && m.id in s.mergeSources)
    case Some(IndexRoster) => m.id in s.retainedIndexes || Some(m.id) in s.boundIndexes
  }

  lemma {:induction false} PresentHas(s: seq<Option<nat>>, x: nat)
    ensures x in Present(s) <==> Some(x) in s
  {
    if s != [] {
      PresentHas(s[1..], x);
      assert s == [s[0]] + s[1..];
    }
  }

  lemma {:induction false} MissingHas(ids: seq<nat>, inventory: seq<nat>, x: nat)
    ensures x in Missing(ids, inventory) <==> x in ids && x !in inventory
  {
    if ids != [] {
      MissingHas(ids[1..], inventory, x);
      assert ids == [ids[0]] + ids[1..];
    }
  }

  lemma {:induction false} BoundHas(inventory: seq<nat>, bound: seq<Option<nat>>, capacity: nat, x: nat)
    requires Bound(inventory, bound, capacity).Some?
    ensures x in Bound(inventory, bound, capacity).value <==> x in inventory || Some(x) in bound
    decreases |bound|
  {
    if bound != [] {
      assert bound == [bound[0]] + bound[1..];
      if bound[0].None? || bound[0].value in inventory { BoundHas(inventory, bound[1..], capacity, x); }
      else { BoundHas(inventory + [bound[0].value], bound[1..], capacity, x); }
    }
  }

  lemma AsRootsHas(ids: seq<nat>, kind: Option<Kind>, m: Mark)
    ensures m in MarkSet(AsRoots(ids, kind)) <==> m.kind == kind && m.id in ids
  {
    if m.kind == kind && m.id in ids {
      var i :| 0 <= i < |ids| && ids[i] == m.id;
      assert AsRoots(ids, kind)[i] == m;
    }
  }

  /** The marks a successful capture asked for. */
  ghost function CapturedMarks(s: Sources, l: Limits): set<Mark>
    requires Captured(s, l).0
  {
    var inventory := SstInventory(s, l).value;
    MarkSet(AsRoots(if s.merging then s.mergeOutput else [], None))
    + MarkSet(AsRoots(inventory, Some(SstRoster)))
    + MarkSet(AsRoots(Missing(s.installed, inventory), Some(SstRoster)))
    + MarkSet(AsRoots(if s.merging then Missing(s.mergeSources, inventory) else [], Some(SstRoster)))
    + MarkSet(AsRoots(IndexInventory(s, l).value, Some(IndexRoster)))
  }

  /** The marks of the five groups are the roots in memory. */
  lemma InventoriesAre(s: Sources, l: Limits, m: Mark)
    requires SstInventory(s, l).Some? && IndexInventory(s, l).Some?
    ensures var inventory := SstInventory(s, l).value;
      || m in MarkSet(AsRoots(if s.merging then s.mergeOutput else [], None))
      || m in MarkSet(AsRoots(inventory, Some(SstRoster)))
      || m in MarkSet(AsRoots(Missing(s.installed, inventory), Some(SstRoster)))
      || m in MarkSet(AsRoots(if s.merging then Missing(s.mergeSources, inventory) else [], Some(SstRoster)))
      || m in MarkSet(AsRoots(IndexInventory(s, l).value, Some(IndexRoster)))
      <==> IsSource(s, m)
  {
    var inventory := SstInventory(s, l).value;
    AsRootsHas(if s.merging then s.mergeOutput else [], None, m);
    AsRootsHas(inventory, Some(SstRoster), m);
    AsRootsHas(Missing(s.installed, inventory), Some(SstRoster), m);
    AsRootsHas(if s.merging then Missing(s.mergeSources, inventory) else [], Some(SstRoster), m);
    AsRootsHas(IndexInventory(s, l).value, Some(IndexRoster), m);
    SortedDistinctHas(s.retainedSsts + Published(s), m.id);
    PresentHas(s.completed, m.id);
    MissingHas(s.installed, inventory, m.id);
    MissingHas(s.mergeSources, inventory, m.id);
    var all := Bound(s.retainedIndexes, s.boundIndexes, l.indexes).value;
    SortedDistinctHas(all, m.id);
    BoundHas(s.retainedIndexes, s.boundIndexes, l.indexes, m.id);
  }

  lemma CapturedMarksAre(s: Sources, l: Limits, m: Mark)
    requires Captured(s, l).0
    ensures m in CapturedMarks(s, l) <==> IsSource(s, m)
  {
    hide IsSource, SstInventory, IndexInventory, AsRoots, Missing, MarkSet;
    InventoriesAre(s, l, m);
  }

  /** A captured keep-set stands for exactly the roots in memory. */
  lemma CaptureExact(s: Sources, l: Limits)
    requires Captured(s, l).0
    ensures Marked(Captured(s, l).1, CapturedMarks(s, l), {})
    ensures forall m :: m in CapturedMarks(s, l) <==> IsSource(s, m)
  {
    hide Marked, IsSource, Retained, SstInventory, IndexInventory, MarkSet, AsRoots, Missing;
    var inventory := SstInventory(s, l).value;
    var a := AsRoots(if s.merging then s.mergeOutput else [], None);
    var b := AsRoots(inventory, Some(SstRoster));
    var c := AsRoots(Missing(s.installed, inventory), Some(SstRoster));
    var d := AsRoots(if s.merging then Missing(s.mergeSources, inventory) else [], Some(SstRoster));
    var e := AsRoots(IndexInventory(s, l).value, Some(IndexRoster));
    MarkedEmpty();
    RetainedKeeps([], a, l.keep, {}, {});
    var k1 := Retained([], a, l.keep).1;
    RetainedKeeps(k1, b, l.keep, {} + MarkSet(a), {});
    var k2 := Retained(k1, b, l.keep).1;
    RetainedKeeps(k2, c, l.keep, {} + MarkSet(a) + MarkSet(b), {});
    var k3 := Retained(k2, c, l.keep).1;
    RetainedKeeps(k3, d, l.keep, {} + MarkSet(a) + MarkSet(b) + MarkSet(c), {});
    var k4 := Retained(k3, d, l.keep).1;
    RetainedKeeps(k4, e, l.keep, {} + MarkSet(a) + MarkSet(b) + MarkSet(c) + MarkSet(d), {});
    var roots := CapturedMarks(s, l);
    assert roots == {} + MarkSet(a) + MarkSet(b) + MarkSet(c) + MarkSet(d) + MarkSet(e);
    forall m ensures m in roots <==> IsSource(s, m) { CapturedMarksAre(s, l, m); }
  }

  lemma MarkedEmpty()
    ensures Marked([], {}, {})
  {
  }

  // ---------------------------------------------------------------- when a capture succeeds

  /** Every root in memory, with repeats. */
  function AllSources(s: Sources): seq<Mark>
  {
    AsRoots(if s.merging then s.mergeOutput else [], None)
    + AsRoots(s.retainedSsts + Published(s) + s.installed + (if s.merging then s.mergeSources else []),
              Some(SstRoster))
    + AsRoots(s.retainedIndexes + Present(s.boundIndexes), Some(IndexRoster))
  }

  /** Index roots bound to columns and not retained by a reader. */
  function NewlyBound(inventory: seq<nat>, bound: seq<Option<nat>>): set<nat>
  {
    set x | x in Present(bound) && x !in inventory
  }

  /** Bound roots fit exactly when the retained ones leave room for those that are new. */
  lemma {:induction false} BoundFits(inventory: seq<nat>, bound: seq<Option<nat>>, capacity: nat)
    requires |inventory| <= capacity
    ensures Bound(inventory, bound, capacity).Some? <==> |inventory| + |NewlyBound(inventory, bound)| <= capacity
    decreases |bound|
  {
    var extra := NewlyBound(inventory, bound);
    if bound == [] {
      assert extra == {};
    } else if bound[0].None? || bound[0].value in inventory {
      BoundFits(inventory, bound[1..], capacity);
      assert extra == NewlyBound(inventory, bound[1..]);
    } else {
      var x, next := bound[0].value, inventory + [bound[0].value];
      assert x in extra;
      assert extra == {x} + NewlyBound(next, bound[1..]);
      assert x !in NewlyBound(next, bound[1..]);
      if |inventory| < capacity { BoundFits(next, bound[1..], capacity); }
    }
  }

  /** What was retained so far fits, and stands for these blocks and rosters. */
  ghost predicate Holding(r: (bool, seq<Mark>), ids: set<nat>, kinds: set<Mark>, capacity: nat)
  {
    && Distinct(r.1) && |r.1| <= capacity
    && (r.0 <==> |ids| <= capacity && OneKind(kinds))
    && (r.0 ==> IdsOf(r.1) == ids && Kinded(r.1) == kinds)
  }

  lemma AlsoHolding(r: (bool, seq<Mark>), ids: set<nat>, kinds: set<Mark>, marks: seq<Mark>, capacity: nat)
    requires Holding(r, ids, kinds, capacity)
    ensures Holding(AlsoRetained(r, marks, capacity), ids + IdsOf(marks), kinds + Kinded(marks), capacity)
  {
    hide Retained, Distinct, IdsOf, Kinded, OneKind;
    if r.0 {
      RetainFits(r.1, marks, capacity);
    } else {
      SubsetSize(ids, ids + IdsOf(marks));
      SubsetOneKind(kinds, kinds + Kinded(marks));
    }
  }

  lemma SameMarks(a: seq<Mark>, b: seq<Mark>)
    requires forall m :: m in a <==> m in b
    ensures IdsOf(a) == IdsOf(b) && Kinded(a) == Kinded(b)
  {
  }

  /** A cycle captures its roots exactly when each inventory fits its reservation, all the blocks fit the
      keep-set, and none is a row roster and an index roster at once. */
  lemma CaptureFits(s: Sources, l: Limits)
    ensures Captured(s, l).0 <==>
      && |s.retainedSsts| + |Published(s)| <= l.ssts
      && |s.retainedIndexes| + |NewlyBound(s.retainedIndexes, s.boundIndexes)| <= l.indexes
      && |IdsOf(AllSources(s))| <= l.keep && OneKind(Kinded(AllSources(s)))
  {
    hide Holding, Retained, IdsOf, Kinded, OneKind, Missing, Published, Bound, AsRoots, AllSources, SortedDistinct;
    if |s.retainedIndexes| <= l.indexes { BoundFits(s.retainedIndexes, s.boundIndexes, l.indexes); }
    if SstInventory(s, l).Some? && IndexInventory(s, l).Some? { CaptureHolds(s, l); }
  }

  lemma CaptureHolds(s: Sources, l: Limits)
    requires SstInventory(s, l).Some? && IndexInventory(s, l).Some?
    ensures Captured(s, l).0 <==> |IdsOf(AllSources(s))| <= l.keep && OneKind(Kinded(AllSources(s)))
  {
    hide Retained, IdsOf, Kinded, OneKind, Missing, SstInventory, IndexInventory, AsRoots, AllSources, Distinct;
    var inventory := SstInventory(s, l).value;
    var a := AsRoots(if s.merging then s.mergeOutput else [], None);
    var b := AsRoots(inventory, Some(SstRoster));
    var c := AsRoots(Missing(s.installed, inventory), Some(SstRoster));
    var d := AsRoots(if s.merging then Missing(s.mergeSources, inventory) else [], Some(SstRoster));
    var e := AsRoots(IndexInventory(s, l).value, Some(IndexRoster));
    NoMarks();
    DistinctNone(l.keep);
    var r0: (bool, seq<Mark>) := (true, []);
    AlsoHolding(r0, {}, {}, a, l.keep);
    var r1 := AlsoRetained(r0, a, l.keep);
    AlsoHolding(r1, {} + IdsOf(a), {} + Kinded(a), b, l.keep);
    var r2 := AlsoRetained(r1, b, l.keep);
    AlsoHolding(r2, {} + IdsOf(a) + IdsOf(b), {} + Kinded(a) + Kinded(b), c, l.keep);
    var r3 := AlsoRetained(r2, c, l.keep);
    AlsoHolding(r3, {} + IdsOf(a) + IdsOf(b) + IdsOf(c), {} + Kinded(a) + Kinded(b) + Kinded(c), d, l.keep);
    var r4 := AlsoRetained(r3, d, l.keep);
    AlsoHolding(r4, {} + IdsOf(a) + IdsOf(b) + IdsOf(c) + IdsOf(d),
                {} + Kinded(a) + Kinded(b) + Kinded(c) + Kinded(d), e, l.keep);
    assert Captured(s, l).0 == AlsoRetained(r4, e, l.keep).0;
    PlusMarks(a, b);
    PlusMarks(a + b, c);
    PlusMarks(a + b + c, d);
    PlusMarks(a + b + c + d, e);
    forall m ensures m in a + b + c + d + e <==> m in AllSources(s) {
      InventoriesAre(s, l, m);
      AllSourcesAre(s, m);
    }
    SameMarks(a + b + c + d + e, AllSources(s));
  }

  lemma PlusMarks(a: seq<Mark>, b: seq<Mark>)
    ensures IdsOf(a + b) == IdsOf(a) + IdsOf(b) && Kinded(a + b) == Kinded(a) + Kinded(b)
  {
  }

  lemma AllSourcesAre(s: Sources, m: Mark)
    ensures m in AllSources(s) <==> IsSource(s, m)
  {
    var ssts := s.retainedSsts + Published(s) + s.installed + if s.merging then s.mergeSources else [];
    AsRootsHas(if s.merging then s.mergeOutput else [], None, m);
    AsRootsHas(ssts, Some(SstRoster), m);
    AsRootsHas(s.retainedIndexes + Present(s.boundIndexes), Some(IndexRoster), m);
    PresentHas(s.completed, m.id);
    PresentHas(s.boundIndexes, m.id);
  }

  lemma DistinctNone(capacity: nat)
    ensures Holding((true, []), {}, {}, capacity)
  {
    NoMarks();
  }
}
