/** A growing list in an arena whose published slices never change.

    A buffer is a fresh array: the arena hands out disjoint storage (see `ArenaSafety`). Whether an
    arena allocation succeeds is the caller-visible parameter `room`. */
module ArenaLists {

  /** A slice that `as_slice` returned: the first `len` entries of a buffer, and what they were. */
  datatype Published<T> = Published(buffer: array<T>, len: nat, contents: seq<T>)

  class ArenaList<T> {
    var entries: array?<T>
    var len: nat
    var capacity: nat
    var exposed: bool
    /** Every nonempty slice ever returned. */
    ghost var published: set<Published<T>>

    /** Slices of the current buffer end at or below `len`, unless the buffer is closed to appends. */
    ghost predicate Appendable(p: Published<T>)
      reads this
    {
      p.buffer == entries ==> exposed && (p.len <= len || len == capacity)
    }

    ghost predicate Valid()
      reads this, entries, set p | p in published :: p.buffer
    {
      && len <= capacity
      && (entries == null ==> capacity == 0 && !exposed)
      && (entries != null ==> capacity <= entries.Length)
      && (forall p :: p in published ==>
            && p.len <= p.buffer.Length && p.buffer[..p.len] == p.contents
            && Appendable(p))
    }

    ghost function Contents(): seq<T>
      requires Valid()
      reads this, entries, set p | p in published :: p.buffer
    {
      if entries == null then [] else entries[..len]
    }

    constructor ()
      ensures Valid() && Contents() == [] && published == {}
    {
      entries, len, capacity, exposed := null, 0, 0, false;
      published := {};
    }

    /** A buffer of `size` copies of `value` that starts with the current entries. */
    method Copied(size: nat, value: T) returns (buffer: array<T>)
      requires Valid() && len <= size
      ensures fresh(buffer) && buffer.Length == size && buffer[..len] == Contents()
    {
      buffer := new T[size](_ => value);
      var i := 0;
      while i < len
        invariant i <= len
        invariant entries != null ==> buffer[..i] == entries[..i]
      {
        buffer[i] := entries[i];
        i := i + 1;
      }
    }

    method Push(value: T, room: bool) returns (ok: bool)
      requires Valid()
      modifies this, entries
      ensures Valid() && published == old(published)
      ensures ok == (old(len) < old(capacity) || room)
      ensures Contents() == if ok then old(Contents()) + [value] else old(Contents())
      ensures if ok && old(len) == old(capacity)
        then fresh(entries) && !exposed && capacity == if old(capacity) < 2 then 4 else 2 * old(capacity)
        else entries == old(entries) && capacity == old(capacity) && exposed == old(exposed)
    {
      if len == capacity {
        if !room {
          return false;
        }
        var size := if capacity * 2 < 4 then 4 else capacity * 2;
        entries := Copied(size, value);
        capacity := size;
        exposed := false;
      }
      entries[len] := value;
      len := len + 1;
      return true;
    }

    method Truncate(n: nat)
      requires Valid() && n <= len
      modifies this
      ensures Valid() && published == old(published)
      ensures Contents() == old(Contents())[..n] && entries == old(entries) && exposed == old(exposed)
      ensures capacity == if exposed && n < old(len) then n else old(capacity)
    {
      if n < len && exposed {
        capacity := n;
      }
      len := n;
    }

    /** The slice stays as it is for the arena's lifetime; an empty one needs no storage. */
    method AsSlice() returns (slice: seq<T>)
      requires Valid()
      modifies this
      ensures Valid() && Contents() == old(Contents()) && slice == Contents()
      ensures entries == old(entries) && capacity == old(capacity) && exposed == (old(exposed) || slice != [])
      ensures published == if slice == [] then old(published) else old(published) + {Published(entries, len, slice)}
    {
      if len == 0 {
        return [];
      }
      exposed := true;
      slice := entries[..len];
      published := published + {Published(entries, len, slice)};
    }

    method MakeUnique(room: bool) returns (ok: bool)
      requires Valid()
      modifies this
      ensures Valid() && published == old(published) && Contents() == old(Contents())
      ensures ok == (!old(exposed) || old(len) == 0 || room)
      ensures ok ==> !exposed && forall p :: p in published ==> p.buffer != entries
      ensures !ok || !old(exposed) ==> unchanged(this)
      ensures ok && old(exposed) ==> if len == 0 then entries == null else fresh(entries) && capacity == old(capacity)
      ensures entries != null ==> entries == old(entries) || fresh(entries)
    {
      if !exposed {
        return true;
      }
      if len == 0 {
        entries, capacity := null, 0;
      } else {
        if !room {
          return false;
        }
        entries := Copied(capacity, entries[0]);
      }
      exposed := false;
      return true;
    }

    /** An edit through `as_mut_slice`. */
    method Edit(index: nat, value: T, room: bool) returns (ok: bool)
      requires Valid() && index < len
      modifies this, entries
      ensures Valid() && published == old(published)
      ensures ok == (!old(exposed) || room)
      ensures Contents() == if ok then old(Contents())[index := value] else old(Contents())
    {
      ok := MakeUnique(room);
      if ok {
        entries[index] := value;
      }
    }

    /** `into_mut_slice`: the consumer may write its slice, which shares nothing published. */
    method IntoMutSlice(room: bool) returns (ok: bool, buffer: array?<T>, n: nat)
      requires Valid()
      modifies this
      ensures Valid() && published == old(published)
      ensures ok == (!old(exposed) || old(len) == 0 || room)
      ensures ok && buffer != null ==>
        n <= buffer.Length && buffer[..n] == old(Contents()) && forall p :: p in published ==> p.buffer != buffer
      ensures ok && buffer == null ==> n == 0 && old(Contents()) == []
    {
      ok := MakeUnique(room);
      buffer, n := entries, len;
    }
  }
}
