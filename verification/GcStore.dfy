/** The bucket as maintenance sees it: keys in ascending order, pages of a listing, and the one
    request that is kept until its result is consumed. */
module GcStore {
  import opened Options

  /** Object keys in their lexicographic order. */
  type Key = nat

  // ---------------------------------------------------------------- pages

  /** Nothing, or the last key of the page before. */
  type Cursor = Option<Key>

  predicate Past(k: Key, after: Cursor)
  {
    after.None? || k > after.value
  }

  ghost predicate Ascending(s: seq<Key>)
  {
    forall i, j :: 0 <= i < j < |s| ==> s[i] < s[j]
  }

  /** At most `limit` of the keys past the cursor, in order. */
  function Page(objects: seq<Key>, after: Cursor, limit: nat): (page: seq<Key>)
    ensures |page| <= limit
    decreases |objects|
  {
    if objects == [] || limit == 0 then []
    else if Past(objects[0], after) then [objects[0]] + Page(objects[1..], after, limit - 1)
    else Page(objects[1..], after, limit)
  }

  /** A full page has a successor that starts past its last key. */
  function NextCursor(page: seq<Key>, limit: nat): Option<Key>
  {
    if page != [] && |page| == limit then Some(page[|page| - 1]) else None
  }

  ghost predicate Within(k: Key, bound: Option<Key>)
  {
    bound.Some? ==> k <= bound.value
  }

  lemma AscendingTail(s: seq<Key>)
    requires Ascending(s) && s != []
    ensures Ascending(s[1..]) && s[0] !in s[1..]
    ensures forall k :: k in s[1..] ==> k > s[0]
    ensures forall k :: k in s <==> k == s[0] || k in s[1..]
  {
    assert s == [s[0]] + s[1..];
    assert forall i :: 0 <= i < |s| - 1 ==> s[1..][i] == s[i + 1];
  }

  lemma AscendingPrepend(x: Key, s: seq<Key>)
    requires Ascending(s) && forall k :: k in s ==> x < k
    ensures Ascending([x] + s)
  {
    var t := [x] + s;
    forall i, j | 0 <= i < j < |t| ensures t[i] < t[j] {
      assert t[j] == s[j - 1] && s[j - 1] in s;
    }
  }

  /** A page is exactly the stored keys past the cursor and up to the next cursor, in order. */
  lemma {:induction false} PageWhole(objects: seq<Key>, after: Cursor, limit: nat)
    requires Ascending(objects) && limit > 0
    ensures var page := Page(objects, after, limit);
      && Ascending(page)
      && (forall k :: k in page <==> k in objects && Past(k, after) && Within(k, NextCursor(page, limit)))
    decreases |objects|
  {
    hide Ascending;
    if objects != [] {
      var x, rest := objects[0], objects[1..];
      AscendingTail(objects);
      if !Past(x, after) {
        PageWhole(rest, after, limit);
      } else if limit == 1 {
        assert Page(rest, after, 0) == [];
        assert Page(objects, after, 1) == [x];
        AscendingPrepend(x, []) by { assert Ascending([]) by { AscendingEmpty(); } }
      } else {
        PageWhole(rest, after, limit - 1);
        var tail := Page(rest, after, limit - 1);
        assert Page(objects, after, limit) == [x] + tail;
        AscendingPrepend(x, tail);
        assert NextCursor([x] + tail, limit) == NextCursor(tail, limit - 1);
      }
    } else {
      AscendingEmpty();
    }
  }

  lemma AscendingEmpty()
    ensures Ascending([])
  {
  }

  function Removed(objects: seq<Key>, key: Key): (r: seq<Key>)
    ensures forall k :: k in r <==> k in objects && k != key
    decreases |objects|
  {
    if objects == [] then []
    else
      assert objects == [objects[0]] + objects[1..];
      if objects[0] == key then Removed(objects[1..], key) else [objects[0]] + Removed(objects[1..], key)
  }

  lemma {:induction false} RemovedAscends(objects: seq<Key>, key: Key)
    requires Ascending(objects)
    ensures Ascending(Removed(objects, key)) && |Removed(objects, key)| <= |objects|
    decreases |objects|
  {
    if objects != [] {
      AscendingTail(objects);
      RemovedAscends(objects[1..], key);
      AscendingPrepend(objects[0], Removed(objects[1..], key));
    }
  }

  /** Ascending lists with the same keys are the same list. */
  lemma {:induction false} AscendingUnique(a: seq<Key>, b: seq<Key>)
    requires Ascending(a) && Ascending(b) && forall k :: k in a <==> k in b
    ensures a == b
    decreases |a|
  {
    if a == [] {
      assert forall i :: 0 <= i < |b| ==> b[i] in a;
    } else {
      assert a[0] in b;
      AscendingTail(a);
      AscendingTail(b);
      assert a[0] == b[0] by { assert b[0] in a; }
      AscendingUnique(a[1..], b[1..]);
      assert a == [a[0]] + a[1..] && b == [b[0]] + b[1..];
    }
  }

  // ---------------------------------------------------------------- the one request

  datatype Space = Blocks | Backups

  datatype Object = LiveManifest | BackupManifest(name: nat) | Block(id: nat)

  datatype Request = Get(target: Object) | Delete(key: Key) | List(space: Space, cursor: Cursor, limit: nat)

  datatype Answer = Body | Gone | Listed(next: Option<Key>)

  /** A complete request holds its answer, or nothing when it failed. */
  datatype State = Idle | Active(request: Request) | Complete(request: Request, result: Option<Answer>)

  /** The request, the page it listed, whether admission is closed, and which objects have been read, in
      order. */
  datatype Io = Io(state: State, keys: seq<Key>, draining: bool, log: seq<Object>)

  /** What the store says to one call: not yet, an error or a timeout that may have taken effect, or
      done. `cached` is whether the block cache has the wanted block and `corrupt` whether the bytes
      that came back are unusable. */
  datatype Verdict = WouldBlock | Refused(applied: bool) | Served
  datatype Reply = Reply(verdict: Verdict, cached: bool, corrupt: bool)

  datatype Bucket = Bucket(blocks: seq<Key>, backups: seq<Key>)

  function Listing(b: Bucket, space: Space): seq<Key>
  {
    if space.Blocks? then b.blocks else b.backups
  }

  function AfterDelete(b: Bucket, request: Request): Bucket
  {
    if request.Delete? then b.(blocks := Removed(b.blocks, request.key)) else b
  }

  /** Drives an active request one step. */
  function Advanced(io: Io, b: Bucket, v: Verdict): (Io, Bucket)
  {
    if !io.state.Active? || v.WouldBlock? then (io, b)
    else
      var request := io.state.request;
      match v
      case Refused(applied) =>
        (io.(state := Complete(request, None), keys := []), if applied then AfterDelete(b, request) else b)
      case Served =>
        match request
        case Get(wanted) => (io.(state := Complete(request, Some(Body)), log := io.log + [wanted]), b)
        case Delete(_) => (io.(state := Complete(request, Some(Gone))), AfterDelete(b, request))
        case List(space, cursor, limit) =>
          var page := Page(Listing(b, space), cursor, limit);
          (io.(state := Complete(request, Some(Listed(NextCursor(page, limit)))), keys := page), b)
  }

  datatype Poll = Pending | Ready(answer: Answer) | Failed | Changed

  /** Starts the request when nothing is outstanding, drives it, and consumes its result. */
  function Polled(io: Io, b: Bucket, request: Request, v: Verdict): (Poll, Io, Bucket)
  {
    if io.state.Idle? && io.draining then (Pending, io, b)
    else
      var started := if io.state.Idle? then io.(state := Active(request), keys := []) else io;
      if started.state.request != request then (Changed, started, b)
      else
        var (next, c) := Advanced(started, b, v);
        if !next.state.Complete? then (Pending, next, c)
        else (if next.state.result.Some? then Ready(next.state.result.value) else Failed, next.(state := Idle), c)
  }

  function Cancelled(io: Io): Io
  {
    io.(state := Idle, keys := [])
  }

  /** What is outstanding: the wanted request, with the page it listed if it is complete. */
  ghost predicate IoOk(io: Io, b: Bucket, wanted: Option<Request>)
  {
    && (!io.state.Idle? ==> Some(io.state.request) == wanted)
    && (io.state.Complete? && io.state.result.Some? ==>
          match io.state.request
          case Get(_) => io.state.result.value.Body?
          case Delete(key) => io.state.result.value.Gone? && key !in b.blocks
          case List(space, cursor, limit) =>
            io.keys == Page(Listing(b, space), cursor, limit)
              && io.state.result.value == Listed(NextCursor(io.keys, limit)))
  }

  /** What a call into the store adds to the objects read: the wanted one, if it was served. */
  function Delivered(request: Request, v: Verdict): seq<Object>
  {
    if request.Get? && v.Served? then [request.target] else []
  }

  /** A call moves an active request unless the store is not ready. The request then has a result exactly
      when it was served, and an object has been read exactly when its GET was. Only a deletion changes
      the bucket: one that is served, or one that is refused and took effect all the same. */
  lemma AdvancedKeeps(io: Io, b: Bucket, wanted: Option<Request>, v: Verdict)
    requires IoOk(io, b, wanted)
    ensures var (next, c) := Advanced(io, b, v);
      && IoOk(next, c, wanted) && c.backups == b.backups && next.draining == io.draining
      && (c == b || (io.state.Active? && io.state.request.Delete? && c == AfterDelete(b, io.state.request)))
      && if io.state.Active? && !v.WouldBlock? then
           && next.state.Complete? && next.state.request == io.state.request
           && (next.state.result.Some? <==> v.Served?)
           && next.log == io.log + Delivered(io.state.request, v)
           && (io.state.request.Delete? && v != Refused(false) ==> c == AfterDelete(b, io.state.request))
           && (v == Refused(false) ==> c == b)
         else next == io && c == b
  {
  }

  /** A poll waits while nothing may start, or while the store is not ready. */
  predicate Waits(io: Io, v: Verdict)
  {
    !io.state.Complete? && ((io.state.Idle? && io.draining) || v.WouldBlock?)
  }

  /** A poll fails when its request failed before, or is refused now. */
  predicate Fails(io: Io, v: Verdict)
  {
    if io.state.Complete? then io.state.result.None? else !Waits(io, v) && v.Refused?
  }

  /** Which object a poll reads now. */
  function Reads(io: Io, request: Request, v: Verdict): seq<Object>
  {
    if io.state.Complete? || (io.state.Idle? && io.draining) then [] else Delivered(request, v)
  }

  /** A poll for the wanted request is never told that the request changed. It waits, fails or is ready as
      the store has answered: a refused request fails. A result is consumed once and is the request's own:
      a served listing is the whole page of the bucket as it stands. */
  lemma PolledKeeps(io: Io, b: Bucket, request: Request, v: Verdict)
    requires IoOk(io, b, Some(request))
    ensures var (r, next, c) := Polled(io, b, request, v);
      && !r.Changed? && IoOk(next, c, Some(request)) && c.backups == b.backups
      && (r.Ready? || r.Failed? ==> next.state.Idle?)
      && (c == b || (request.Delete? && c == AfterDelete(b, request)))
      && (r.Pending? <==> Waits(io, v)) && (r.Failed? <==> Fails(io, v))
      && next.log == io.log + Reads(io, request, v) && next.draining == io.draining
      && (r.Pending? ==> next == (if io.state.Idle? && !io.draining then io.(state := Active(request), keys := [])
                                  else io) && c == b)
      && (r.Ready? && request.Get? ==> r.answer.Body?)
      && (r.Ready? && request.Delete? ==> r.answer.Gone? && request.key !in c.blocks)
      && (r.Ready? && request.List? ==>
            next.keys == Page(Listing(c, request.space), request.cursor, request.limit)
            && r.answer == Listed(NextCursor(next.keys, request.limit)))
  {
    if !(io.state.Idle? && io.draining) {
      var started := if io.state.Idle? then io.(state := Active(request), keys := []) else io;
      assert IoOk(started, b, Some(request));
      AdvancedKeeps(started, b, Some(request), v);
    }
  }

  /** A poll for another request than the outstanding one is told so, and touches nothing. */
  lemma PolledChanged(io: Io, b: Bucket, request: Request, v: Verdict)
    requires !io.state.Idle? && io.state.request != request
    ensures Polled(io, b, request, v) == (Changed, io, b)
  {
  }
}
