/** A stable sort that stages a permutation of 32-bit indices and applies it in place by following
    cycles. */
module StableSorting {

  /** How many different values a u32 index has. */
  const INDEX_VALUES: nat := 0x1_0000_0000

  ghost predicate TotalPreorder<T(!new)>(le: (T, T) -> bool)
  {
    && (forall x, y :: le(x, y) || le(y, x))
    && (forall x, y, z :: le(x, y) && le(y, z) ==> le(x, z))
  }

  // ---------------------------------------------------------------- ordering the indices

  /** The comparator of the index sort: by element, then by original position. */
  predicate Before<T>(items: seq<T>, le: (T, T) -> bool, a: nat, b: nat)
    requires a < |items| && b < |items|
  {
    le(items[a], items[b]) && (!le(items[b], items[a]) || a < b)
  }

  predicate Indices(perm: seq<nat>, n: nat)
  {
    forall i :: 0 <= i < |perm| ==> perm[i] < n
  }

  ghost predicate Ordered<T>(items: seq<T>, le: (T, T) -> bool, perm: seq<nat>)
    requires Indices(perm, |items|)
  {
    forall i, j :: 0 <= i < j < |perm| ==> perm[i] == perm[j] || Before(items, le, perm[i], perm[j])
  }

  function Insert<T>(items: seq<T>, le: (T, T) -> bool, x: nat, perm: seq<nat>): (r: seq<nat>)
    requires x < |items| && Indices(perm, |items|)
    ensures Indices(r, |items|) && multiset(r) == multiset(perm) + multiset{x}
  {
    if perm == [] then [x]
    else if Before(items, le, x, perm[0]) then
      assert [x] + perm == [x] + perm[..];
      [x] + perm
    else
      assert perm == [perm[0]] + perm[1..];
      [perm[0]] + Insert(items, le, x, perm[1..])
  }

  /** A sort of the indices. */
  function SortIndices<T>(items: seq<T>, le: (T, T) -> bool, raw: seq<nat>): (r: seq<nat>)
    requires Indices(raw, |items|)
    ensures Indices(r, |items|) && multiset(r) == multiset(raw) && |r| == |raw|
  {
    if raw == [] then []
    else
      assert raw == [raw[0]] + raw[1..];
      var rest := SortIndices(items, le, raw[1..]);
      var r := Insert(items, le, raw[0], rest);
      assert |multiset(r)| == |r| && |multiset(rest)| == |rest|;
      r
  }

  lemma BeforeOrder<T(!new)>(items: seq<T>, le: (T, T) -> bool, a: nat, b: nat, c: nat)
    requires TotalPreorder(le) && a < |items| && b < |items| && c < |items|
    ensures a != b ==> Before(items, le, a, b) || Before(items, le, b, a)
    ensures Before(items, le, a, b) && Before(items, le, b, c) ==> Before(items, le, a, c)
    ensures !(Before(items, le, a, b) && Before(items, le, b, a))
  {
  }

  lemma {:induction false} InsertOrdered<T(!new)>(items: seq<T>, le: (T, T) -> bool, x: nat, perm: seq<nat>)
    requires TotalPreorder(le) && x < |items| && Indices(perm, |items|) && Ordered(items, le, perm)
    ensures Ordered(items, le, Insert(items, le, x, perm))
  {
    if perm == [] {
    } else if Before(items, le, x, perm[0]) {
      forall j | 0 <= j < |perm| ensures x == perm[j] || Before(items, le, x, perm[j]) {
        BeforeOrder(items, le, x, perm[0], perm[j]);
      }
    } else {
      InsertOrdered(items, le, x, perm[1..]);
      var rest := Insert(items, le, x, perm[1..]);
      forall j | 0 <= j < |rest| ensures perm[0] == rest[j] || Before(items, le, perm[0], rest[j]) {
        assert rest[j] in multiset(rest);
        if rest[j] == x {
          BeforeOrder(items, le, x, perm[0], x);
        } else {
          assert rest[j] in multiset(perm[1..]);
        }
      }
    }
  }

  lemma {:induction false} SortIndicesOrdered<T(!new)>(items: seq<T>, le: (T, T) -> bool, raw: seq<nat>)
    requires TotalPreorder(le) && Indices(raw, |items|)
    ensures Ordered(items, le, SortIndices(items, le, raw))
  {
    if raw != [] {
      SortIndicesOrdered(items, le, raw[1..]);
      InsertOrdered(items, le, raw[0], SortIndices(items, le, raw[1..]));
    }
  }

  lemma SameTail(a: seq<nat>, b: seq<nat>)
    requires multiset(a) == multiset(b) && a != [] && b != [] && a[0] == b[0]
    ensures multiset(a[1..]) == multiset(b[1..])
  {
    assert a == [a[0]] + a[1..] && b == [b[0]] + b[1..];
    assert multiset(a[1..]) == multiset(a) - multiset{a[0]};
    assert multiset(b[1..]) == multiset(b) - multiset{b[0]};
  }

  lemma OrderedTail<T(!new)>(items: seq<T>, le: (T, T) -> bool, perm: seq<nat>)
    requires Indices(perm, |items|) && perm != [] && Ordered(items, le, perm)
    ensures Indices(perm[1..], |items|) && Ordered(items, le, perm[1..])
  {
  }

  lemma FirstIsLeast<T(!new)>(items: seq<T>, le: (T, T) -> bool, perm: seq<nat>, x: nat)
    requires Indices(perm, |items|) && Ordered(items, le, perm) && x in perm
    ensures x == perm[0] || Before(items, le, perm[0], x)
  {
    var i :| 0 <= i < |perm| && perm[i] == x;
  }

  lemma {:induction false} OrderedUnique<T(!new)>(items: seq<T>, le: (T, T) -> bool, a: seq<nat>, b: seq<nat>)
    requires TotalPreorder(le) && Indices(a, |items|) && Indices(b, |items|) && multiset(a) == multiset(b)
    requires Ordered(items, le, a) && Ordered(items, le, b)
    ensures a == b
  {
    assert |multiset(a)| == |a| && |multiset(b)| == |b|;
    if a != [] {
      assert a[0] in multiset(b) && b[0] in multiset(a);
      OrderedTail(items, le, a);
      OrderedTail(items, le, b);
      FirstIsLeast(items, le, a, b[0]);
      FirstIsLeast(items, le, b, a[0]);
      BeforeOrder(items, le, a[0], b[0], a[0]);
      hide Ordered, TotalPreorder, Before, Indices;
      SameTail(a, b);
      OrderedUnique(items, le, a[1..], b[1..]);
    }
  }

  /** The order is total, so every correct sort of the indices, stable or not, has this result. */
  lemma SortIndicesUnique<T(!new)>(items: seq<T>, le: (T, T) -> bool, raw: seq<nat>, perm: seq<nat>)
    requires TotalPreorder(le) && Indices(raw, |items|)
    ensures perm == SortIndices(items, le, raw)
       <==> multiset(perm) == multiset(raw) && Indices(perm, |items|) && Ordered(items, le, perm)
  {
    SortIndicesOrdered(items, le, raw);
    if multiset(perm) == multiset(raw) && Indices(perm, |items|) && Ordered(items, le, perm) {
      OrderedUnique(items, le, perm, SortIndices(items, le, raw));
    }
  }

  // ---------------------------------------------------------------- applying a permutation

  function Swap<T>(s: seq<T>, i: nat, j: nat): (r: seq<T>)
    requires i < |s| && j < |s|
    ensures |r| == |s| && multiset(r) == multiset(s)
  {
    s[i := s[j]][j := s[i]]
  }

  function Unvisited(visited: seq<bool>): nat
  {
    if visited == [] then 0 else (if visited[0] then 0 else 1) + Unvisited(visited[1..])
  }

  lemma {:induction false} VisitDecreases(visited: seq<bool>, at: nat)
    requires at < |visited| && !visited[at]
    ensures Unvisited(visited[at := true]) < Unvisited(visited)
  {
    if at > 0 {
      VisitDecreases(visited[1..], at - 1);
      assert visited[at := true][1..] == visited[1..][at - 1 := true];
    } else {
      assert visited[at := true][1..] == visited[1..];
    }
  }

  /** One cycle, from `at` back to `start` or to a visited position. */
  function FollowCycle<T>(items: seq<T>, perm: seq<nat>, visited: seq<bool>, start: nat,
                          at: nat): (r: (seq<T>, seq<bool>))
    requires |perm| == |visited| == |items| && Indices(perm, |items|)
    requires start < |items| && at < |items| && !visited[at]
    ensures |r.0| == |items| == |r.1| && multiset(r.0) == multiset(items)
    ensures r.1[at] && forall i :: 0 <= i < |items| && visited[i] ==> r.1[i]
    decreases Unvisited(visited)
  {
    VisitDecreases(visited, at);
    var seen := visited[at := true];
    var from := perm[at];
    if from == start then (items, seen)
    else
      var moved := Swap(items, at, from);
      if seen[from] then (moved, seen) else FollowCycle(moved, perm, seen, start, from)
  }

  /** All cycles that start at `start` or later. */
  function ApplyFrom<T>(items: seq<T>, perm: seq<nat>, visited: seq<bool>, start: nat): (r: seq<T>)
    requires |perm| == |visited| == |items| && Indices(perm, |items|) && start <= |items|
    ensures |r| == |items| && multiset(r) == multiset(items)
    decreases |items| - start
  {
    if start == |items| then items
    else if visited[start] || perm[start] == start then ApplyFrom(items, perm, visited[start := true], start + 1)
    else
      var (moved, seen) := FollowCycle(items, perm, visited, start, start);
      ApplyFrom(moved, perm, seen, start + 1)
  }

  ghost predicate Injective(perm: seq<nat>)
  {
    forall i, j :: 0 <= i < j < |perm| ==> perm[i] != perm[j]
  }

  /** Between cycles: visited positions are whole cycles and hold their final elements. */
  ghost predicate CyclesDone<T>(orig: seq<T>, items: seq<T>, perm: seq<nat>, visited: seq<bool>)
    requires |perm| == |visited| == |items| == |orig| && Indices(perm, |items|)
  {
    && (forall i :: 0 <= i < |perm| ==> visited[i] == visited[perm[i]])
    && (forall i :: 0 <= i < |perm| ==> items[i] == if visited[i] then orig[perm[i]] else orig[i])
  }

  /** Within a cycle: `at` carries the element of `start`; the cycle is open from `at` to `start`. */
  ghost predicate CycleOpen<T>(orig: seq<T>, items: seq<T>, perm: seq<nat>, visited: seq<bool>, start: nat, at: nat)
    requires |perm| == |visited| == |items| == |orig| && Indices(perm, |items|)
    requires start < |items| && at < |items|
  {
    && !visited[at] && (at != start ==> visited[start])
    && (forall i :: 0 <= i < |perm| && visited[i] ==> visited[perm[i]] || perm[i] == at)
    && (forall i :: 0 <= i < |perm| && visited[perm[i]] ==> visited[i] || perm[i] == start)
    && (at != start ==> forall i :: 0 <= i < |perm| && perm[i] == at ==> visited[i])
    && (forall i :: 0 <= i < |perm| ==>
          items[i] == if visited[i] then orig[perm[i]] else if i == at then orig[start] else orig[i])
  }

  lemma {:induction false} FollowCompletes<T>(orig: seq<T>, items: seq<T>, perm: seq<nat>, visited: seq<bool>,
                                              start: nat, at: nat)
    requires |perm| == |visited| == |items| == |orig| && Indices(perm, |items|) && Injective(perm)
    requires start < |items| && at < |items| && CycleOpen(orig, items, perm, visited, start, at)
    ensures var (moved, seen) := FollowCycle(items, perm, visited, start, at);
      CyclesDone(orig, moved, perm, seen)
    decreases Unvisited(visited)
  {
    var seen, from := visited[at := true], perm[at];
    if from == start {
      assert CyclesDone(orig, items, perm, seen);
    } else {
      assert !visited[from] && from != at;
      var moved := Swap(items, at, from);
      assert CycleOpen(orig, moved, perm, seen, start, from);
      VisitDecreases(visited, at);
      FollowCompletes(orig, moved, perm, seen, start, from);
    }
  }

  function Permuted<T>(items: seq<T>, perm: seq<nat>): seq<T>
    requires |perm| == |items| && Indices(perm, |items|)
  {
    seq(|items|, i requires 0 <= i < |items| => items[perm[i]])
  }

  lemma AllVisited<T>(orig: seq<T>, items: seq<T>, perm: seq<nat>, visited: seq<bool>)
    requires |perm| == |visited| == |items| == |orig| && Indices(perm, |items|)
    requires CyclesDone(orig, items, perm, visited) && forall i :: 0 <= i < |items| ==> visited[i]
    ensures items == Permuted(orig, perm)
  {
  }

  lemma SkipVisited<T>(orig: seq<T>, items: seq<T>, perm: seq<nat>, visited: seq<bool>, start: nat)
    requires |perm| == |visited| == |items| == |orig| && Indices(perm, |items|) && Injective(perm) && start < |items|
    requires CyclesDone(orig, items, perm, visited) && (visited[start] || perm[start] == start)
    ensures CyclesDone(orig, items, perm, visited[start := true])
  {
  }

  lemma CycleStarts<T>(orig: seq<T>, items: seq<T>, perm: seq<nat>, visited: seq<bool>, start: nat)
    requires |perm| == |visited| == |items| == |orig| && Indices(perm, |items|) && start < |items|
    requires CyclesDone(orig, items, perm, visited) && !visited[start]
    ensures CycleOpen(orig, items, perm, visited, start, start)
  {
  }

  lemma {:induction false} ApplyCompletes<T>(orig: seq<T>, items: seq<T>, perm: seq<nat>, visited: seq<bool>,
                                             start: nat)
    requires |perm| == |visited| == |items| == |orig| && Indices(perm, |items|) && Injective(perm) && start <= |items|
    requires CyclesDone(orig, items, perm, visited) && forall i :: 0 <= i < start ==> visited[i]
    ensures ApplyFrom(items, perm, visited, start) == Permuted(orig, perm)
    decreases |items| - start
  {
    hide CyclesDone, CycleOpen, Permuted, Injective, FollowCycle;
    if start == |items| {
      AllVisited(orig, items, perm, visited);
    } else if visited[start] || perm[start] == start {
      SkipVisited(orig, items, perm, visited, start);
      ApplyCompletes(orig, items, perm, visited[start := true], start + 1);
    } else {
      CycleStarts(orig, items, perm, visited, start);
      FollowCompletes(orig, items, perm, visited, start, start);
      var (moved, seen) := FollowCycle(items, perm, visited, start, start);
      ApplyCompletes(orig, moved, perm, seen, start + 1);
    }
  }

  /** In-place application by cycles puts `items[perm[i]]` at every position i. */
  lemma ApplyPermutation<T>(items: seq<T>, perm: seq<nat>)
    requires |perm| == |items| && Indices(perm, |items|) && Injective(perm)
    ensures ApplyFrom(items, perm, seq(|items|, _ => false), 0) == Permuted(items, perm)
  {
    ApplyCompletes(items, items, perm, seq(|items|, _ => false), 0);
  }

  // ---------------------------------------------------------------- the sort

  function Wrapped(i: nat, values: nat): (r: nat)
    requires values > 0
    ensures r <= i && r < values && (i < values ==> r == i)
  {
    i % values
  }

  /** The staged indices `i as u32`, which wrap when there are more items than index values. */
  function RawIndices(n: nat, values: nat): (r: seq<nat>)
    requires values > 0
    ensures |r| == n && Indices(r, n)
  {
    seq(n, i requires 0 <= i < n => Wrapped(i, values))
  }

  /** `stable_sort_via` once both scratch slices are allocated, with `values` index values. */
  function SortVia<T>(items: seq<T>, le: (T, T) -> bool, values: nat): (r: seq<T>)
    requires values > 0
    ensures |r| == |items| && multiset(r) == multiset(items)
  {
    if |items| < 2 then items
    else ApplyFrom(items, SortIndices(items, le, RawIndices(|items|, values)), seq(|items|, _ => false), 0)
  }

  ghost predicate Sorted<T>(s: seq<T>, le: (T, T) -> bool)
  {
    forall i, j :: 0 <= i < j < |s| ==> le(s[i], s[j])
  }

  /** `r` is `items` rearranged by `perm`, in order, with equal elements in their original order. */
  ghost predicate StablySorted<T>(items: seq<T>, r: seq<T>, le: (T, T) -> bool, perm: seq<nat>)
  {
    && |perm| == |items| && Indices(perm, |items|) && Injective(perm)
    && r == Permuted(items, perm) && Sorted(r, le)
    && (forall i, j :: 0 <= i < j < |r| && le(r[j], r[i]) ==> perm[i] < perm[j])
  }

  lemma {:induction false} OrderedDistinct<T(!new)>(items: seq<T>, le: (T, T) -> bool, raw: seq<nat>)
    requires TotalPreorder(le) && Indices(raw, |items|) && Injective(raw)
    ensures Injective(SortIndices(items, le, raw))
  {
    var r := SortIndices(items, le, raw);
    forall i, j | 0 <= i < j < |r| ensures r[i] != r[j] {
      if r[i] == r[j] {
        TwoOccurrences(r, i, j);
        OneOccurrence(raw, r[i]);
        assert false;
      }
    }
  }

  lemma TwoOccurrences(s: seq<nat>, i: nat, j: nat)
    requires i < j < |s| && s[i] == s[j]
    ensures multiset(s)[s[i]] >= 2
  {
    assert s == s[..j] + [s[j]] + s[j + 1..];
    assert s[i] in s[..j];
  }

  lemma {:induction false} OneOccurrence(s: seq<nat>, x: nat)
    requires Injective(s)
    ensures multiset(s)[x] <= 1
  {
    if s != [] {
      OneOccurrence(s[1..], x);
      assert s == [s[0]] + s[1..];
      if x == s[0] {
        assert x !in s[1..];
      }
    }
  }

  /** With at most 2^32 items the sort is stable and correct for every total preorder. */
  lemma SortViaStable<T(!new)>(items: seq<T>, le: (T, T) -> bool, values: nat) returns (perm: seq<nat>)
    requires TotalPreorder(le) && 0 < values && |items| <= values
    ensures StablySorted(items, SortVia(items, le, values), le, perm)
  {
    var raw := RawIndices(|items|, values);
    assert forall i :: 0 <= i < |raw| ==> raw[i] == i;
    if |items| < 2 {
      perm := raw;
      assert Permuted(items, perm) == items;
    } else {
      perm := SortIndices(items, le, raw);
      SortIndicesOrdered(items, le, raw);
      OrderedDistinct(items, le, raw);
      ApplyPermutation(items, perm);
    }
  }

  // ---------------------------------------------------------------- more items than index values

  predicate IntLe(x: int, y: int) { x <= y }

  /** Ones, then a single zero at the end. */
  function Descent(n: nat): (s: seq<int>)
    requires n > 0
    ensures |s| == n && s[n - 1] == 0 && forall i :: 0 <= i < n - 1 ==> s[i] == 1
  {
    seq(n, i requires 0 <= i < n => if i == n - 1 then 0 else 1)
  }

  /** Cycles that start below the last position leave it alone when no index names it. */
  lemma {:induction false} FollowBelow(n: nat, items: seq<int>, perm: seq<nat>, visited: seq<bool>, start: nat, at: nat)
    requires n > 0 && |perm| == |visited| == n && Indices(perm, n - 1) && items == Descent(n)
    requires start < n - 1 && at < n - 1 && !visited[at]
    ensures FollowCycle(items, perm, visited, start, at).0 == Descent(n)
    ensures FollowCycle(items, perm, visited, start, at).1[n - 1] == visited[n - 1]
    decreases Unvisited(visited)
  {
    var seen, from := visited[at := true], perm[at];
    if from != start {
      assert Swap(items, at, from) == items;
      if !seen[from] {
        VisitDecreases(visited, at);
        FollowBelow(n, items, perm, seen, start, from);
      }
    }
  }

  /** The last cycle meets a visited position at once. */
  lemma LastCycle(n: nat, perm: seq<nat>, visited: seq<bool>)
    requires n > 1 && |perm| == |visited| == n && Indices(perm, n - 1)
    requires !visited[n - 1] && forall i :: 0 <= i < n - 1 ==> visited[i]
    ensures ApplyFrom(Descent(n), perm, visited, n - 1) == Swap(Descent(n), n - 1, perm[n - 1])
  {
    hide Descent, Swap;
    var at := n - 1;
    var seen := visited[at := true];
    assert perm[at] < at && seen[perm[at]];
    assert FollowCycle(Descent(n), perm, visited, at, at) == (Swap(Descent(n), at, perm[at]), seen);
  }

  lemma {:induction false} ApplyBelow(n: nat, perm: seq<nat>, visited: seq<bool>, start: nat)
    requires n > 1 && |perm| == |visited| == n && Indices(perm, n - 1) && start < n
    requires !visited[n - 1] && forall i :: 0 <= i < start ==> visited[i]
    ensures ApplyFrom(Descent(n), perm, visited, start) == Swap(Descent(n), n - 1, perm[n - 1])
    decreases n - start
  {
    hide Descent, Swap, FollowCycle;
    if start == n - 1 {
      LastCycle(n, perm, visited);
    } else if visited[start] || perm[start] == start {
      ApplyBelow(n, perm, visited[start := true], start + 1);
    } else {
      FollowBelow(n, Descent(n), perm, visited, start, start);
      ApplyBelow(n, perm, FollowCycle(Descent(n), perm, visited, start, start).1, start + 1);
    }
  }

  lemma RawBounds(n: nat, values: nat)
    requires 1 < values < n
    ensures Indices(RawIndices(n, values), n - 1) && 1 in RawIndices(n, values)
  {
    assert RawIndices(n, values)[1] == 1;
  }

  /** The last index of the order is the largest one, which is not zero. */
  lemma LastIndexPositive(n: nat, values: nat)
    requires 1 < values < n
    ensures var perm := SortIndices(Descent(n), IntLe, RawIndices(n, values));
      Indices(perm, n - 1) && perm[n - 1] > 0
  {
    hide SortIndices, RawIndices;
    var items, raw := Descent(n), RawIndices(n, values);
    var perm := SortIndices(items, IntLe, raw);
    RawBounds(n, values);
    forall i | 0 <= i < n ensures perm[i] < n - 1 {
      assert perm[i] in multiset(raw) by { assert perm[i] in multiset(perm); }
    }
    SortIndicesOrdered(items, IntLe, raw);
    assert 1 in multiset(perm) by { assert 1 in multiset(raw); }
    var k :| 0 <= k < n && perm[k] == 1;
    assert k < n - 1 && perm[n - 1] != 1 ==> Before(items, IntLe, 1, perm[n - 1]);
  }

  /** One item too many: the zero that should come first is left in the middle. */
  lemma WideInputUnsorted(n: nat, values: nat)
    requires 1 < values < n
    ensures !Sorted(SortVia(Descent(n), IntLe, values), IntLe)
  {
    var items := Descent(n);
    var perm := SortIndices(items, IntLe, RawIndices(n, values));
    LastIndexPositive(n, values);
    ApplyBelow(n, perm, seq(n, _ => false), 0);
    var r := SortVia(items, IntLe, values);
    assert r[0] == 1 && r[perm[n - 1]] == 0;
  }

  /** The sort is correct on all inputs of a length exactly when a u32 can index that length. */
  lemma SortsExactlyIndexable(n: nat)
    ensures (forall items: seq<int> :: |items| == n ==> Sorted(SortVia(items, IntLe, INDEX_VALUES), IntLe))
       <==> n <= INDEX_VALUES
  {
    if n <= INDEX_VALUES {
      forall items: seq<int> | |items| == n ensures Sorted(SortVia(items, IntLe, INDEX_VALUES), IntLe) {
        var perm := SortViaStable(items, IntLe, INDEX_VALUES);
      }
    } else {
      WideInputUnsorted(n, INDEX_VALUES);
      assert |Descent(n)| == n;
    }
  }

  // ---------------------------------------------------------------- in place

  /** `stable_sort_via`. The two flags say whether the arena has room for the index slice and for
      the visited marks; without room the items are untouched. */
  method StableSortVia<T(!new)>(items: array<T>, le: (T, T) -> bool, indexRoom: bool, markRoom: bool) returns (ok: bool)
    modifies items
    ensures ok == (items.Length < 2 || (indexRoom && markRoom))
    ensures items[..] == if ok then SortVia(old(items[..]), le, INDEX_VALUES) else old(items[..])
  {
    hide SortIndices, RawIndices, ApplyFrom;
    var n := items.Length;
    if n < 2 {
      return true;
    }
    if !indexRoom {
      return false;
    }
    var perm := SortIndices(items[..], le, RawIndices(n, INDEX_VALUES));
    if !markRoom {
      return false;
    }
    ApplyInPlace(items, perm);
    return true;
  }

  /** The outer loop over cycle starts. */
  method ApplyInPlace<T>(items: array<T>, perm: seq<nat>)
    requires |perm| == items.Length && Indices(perm, items.Length)
    modifies items
    ensures items[..] == ApplyFrom(old(items[..]), perm, seq(items.Length, _ => false), 0)
  {
    var n := items.Length;
    var visited := seq(n, _ => false);
    var start := 0;
    while start < n
      invariant 0 <= start <= n && |visited| == n
      invariant ApplyFrom(items[..], perm, visited, start)
             == ApplyFrom(old(items[..]), perm, seq(n, _ => false), 0)
    {
      if visited[start] || perm[start] == start {
        visited := visited[start := true];
      } else {
        visited := Cycle(items, perm, visited, start);
      }
      start := start + 1;
    }
  }

  /** The inner loop: each element of the cycle moves once. */
  method Cycle<T>(items: array<T>, perm: seq<nat>, marks: seq<bool>, start: nat) returns (visited: seq<bool>)
    requires |perm| == |marks| == items.Length && Indices(perm, items.Length) && start < items.Length && !marks[start]
    modifies items
    ensures (items[..], visited) == FollowCycle(old(items[..]), perm, marks, start, start)
  {
    visited := marks;
    var at: nat := start;
    while true
      invariant at < items.Length && |visited| == items.Length && !visited[at]
      invariant FollowCycle(items[..], perm, visited, start, at)
        == FollowCycle(old(items[..]), perm, marks, start, start)
      decreases Unvisited(visited)
    {
      ghost var before := items[..];
      VisitDecreases(visited, at);
      visited := visited[at := true];
      var from := perm[at];
      if from == start {
        break;
      }
      items[at], items[from] := items[from], items[at];
      assert items[..] == Swap(before, at, from);
      at := from;
      if visited[at] {
        break;
      }
    }
  }
}
