/** The query scheduler: connection slots, workspace leases, the dispatch queue, the responses
    buffered behind the publication barrier and the output they guard. The engine and the sockets
    are an oracle. */
module ServerCore {
  import opened Options
  import opened WorkspaceLeases
  import opened SendBuffers

  // ---------------------------------------------------------------- connections

  /** A commit staged in a transaction; `journal` when its barrier is the journal. */
  datatype Staged = Staged(lsn: nat, journal: bool)

  datatype Ending = Running | Flushing | Draining

  /** `owes` is output outside the send buffer: ciphertext or a replication completion. */
  datatype AnyConn = AnyConn(parked: bool, ending: Ending, staged: Option<Staged>, owes: bool)

  /** Termination ends a parked wait, so only a running connection is parked. */
  type Conn = c: AnyConn | c.parked ==> c.ending.Running? witness AnyConn(false, Running, None, false)

  const IDLE: Conn := AnyConn(false, Running, None, false)

  predicate WantsRead(c: Conn)
  {
    c.ending.Draining? || (!c.parked && c.ending.Running?)
  }

  predicate Undurable(staged: Option<Staged>, durable: nat)
  {
    staged.Some? && staged.value.journal && staged.value.lsn > durable
  }

  function Ended(c: Conn): Conn
  {
    c.(parked := false, ending := if c.ending.Running? then Flushing else c.ending)
  }

  /** A buffered response: the dispatch it answers, the LSN it waits for, the place where its output
      starts if an error may take that output back, the journal before and after the dispatch, and
      the commit staged before and after it. */
  datatype Response = Response(id: nat, required: Option<nat>, mark: Option<nat>, before: nat, after: nat,
                               held: Option<Staged>, staged: Option<Staged>)

  datatype Slot = Slot(open: bool, generation: nat, wantRead: bool, wantWrite: bool, pending: bool,
                       response: Option<Response>, detached: bool, conn: Conn, out: Out)

  /** Slot generations are 32-bit and wrap around. */
  const GENERATIONS: nat := 0x1_0000_0000

  function Following(generation: nat): nat
  {
    (generation + 1) % GENERATIONS
  }

  const VACANT := Slot(false, 0, false, false, false, None, false, IDLE, EMPTY)

  datatype Kind = Readable | Retry

  datatype Dispatch = Dispatch(owner: nat, generation: nat, workspace: nat, kind: Kind)

  datatype After = Close | Continue

  /** What one call into a connection and the engine gives back. `ready` is whether a parked
      statement is retried, `guarded` whether the input reached the engine, `advance` how far the
      journal grew, `ailing` whether the engine can no longer complete commits, `stream` what queries
      with a large result wrote and sent while they ran, `wrote` how many bytes were written after
      that, `accepted` how many the socket takes, `finish` what the transport says, `cancel` the slot
      that a cancel request names, with the bytes that tell it and whether they fit, and `stable`
      whether a retry pass changed no lock generation. */
  datatype Outcome = Outcome(ready: bool, after: After, guarded: bool, advance: nat, conn: Conn, ailing: bool,
                             stream: seq<Chunk>, wrote: nat, accepted: nat, finish: After,
                             cancel: Option<nat>, notice: nat, told: bool, stable: bool)

  type Engine = nat -> Outcome

  /** What the engine promises of a connection it has worked for: a journal commit is completed only
      when it is durable, and until then the statement parks. */
  function Obeyed(was: Conn, o: Outcome, durable: nat): Conn
  {
    var c := o.conn.(staged := if Undurable(was.staged, durable) then was.staged else o.conn.staged);
    if Undurable(c.staged, durable) && !o.ailing && c.ending.Running? then c.(parked := true) else c
  }

  // ---------------------------------------------------------------- history

  /** Bytes leave when responses are finished, on a writable event, with a closing answer, or while a
      dispatch runs, whose own output speaks of `lsn`. */
  datatype Cause = AtBarrier | OnWritable | OnClose | InDispatch(id: nat, lsn: nat)

  /** Where the unsent output of a response lies: how many bytes are ahead of it, how many are its own,
      and whether it is still `exact` that it starts at its mark. */
  datatype Place = Place(ahead: nat, own: nat, exact: bool)

  /** A response is buffered; its connection may read again; it is finished; the connection ends, is
      cleared of output, or sends bytes, perhaps while `holding` back a response; an error leaves output
      behind, or its truncation fails. */
  datatype Event =
    | Buffered(slot: nat, id: nat, kind: Kind, place: Place)
    | Resumed(slot: nat)
    | Finished(slot: nat, response: Response, durable: nat, failed: bool)
    | Gone(slot: nat)
    | Cleared(slot: nat)
    | Sent(slot: nat, cause: Cause, holding: Option<nat>, bytes: seq<Byte>, durable: nat)
    | Clipped(slot: nat, id: nat)
    | Panicked(slot: nat)

  /** `tick` counts the calls made to the oracle; `log` is the history; `down` after a failed assertion. */
  datatype Server = Server(slots: seq<Slot>, leases: Leases, queue: seq<Dispatch>,
                           journal: nat, durable: nat, tick: nat, down: bool, log: seq<Event>)

  predicate QueueIn(s: Server)
  {
    forall k :: 0 <= k < |s.queue| ==> s.queue[k].owner < |s.slots|
  }

  // ---------------------------------------------------------------- leases and read interest

  /** Offers a handed-over workspace along the roster until a connection that can read takes it. */
  function Woken(s: Server, h: Option<Handoff>): (r: Server)
    ensures r == s.(slots := r.slots, leases := r.leases) && |r.slots| == |s.slots|
    decreases |s.leases.waiters| + (if h.Some? then 1 else 0)
  {
    if h.None? then s
    else
      var i := h.value.owner;
      if i >= |s.slots| || !s.slots[i].open || !WantsRead(s.slots[i].conn) then
        var (next, l) := AfterCancel(s.leases, i);
        Woken(s.(leases := l), next)
      else s.(slots := s.slots[i := s.slots[i].(wantRead := true)])
  }

  function WithoutLease(s: Server, owner: nat): (r: Server)
    ensures r == s.(slots := r.slots, leases := r.leases) && |r.slots| == |s.slots|
  {
    var (h, l) := AfterRelease(s.leases, owner);
    Woken(s.(leases := l), h)
  }

  function ClosedSlot(slot: Slot): Slot
  {
    var closed := slot.(open := false, wantRead := false, wantWrite := false, response := None);
    if slot.conn.staged.Some? then closed.(detached := true)
    else closed.(detached := false, pending := false, generation := Following(slot.generation))
  }

  /** Every transport exit: a staged commit keeps its slot until the commit is settled. */
  function Released(s: Server, i: nat): (r: Server)
    requires i < |s.slots|
    ensures r == s.(slots := r.slots, leases := r.leases, log := s.log + [Gone(i)]) && |r.slots| == |s.slots|
  {
    var (h, l) := AfterCancel(s.leases, i);
    Woken(s.(leases := l, slots := s.slots[i := ClosedSlot(s.slots[i])], log := s.log + [Gone(i)]), h)
  }

  function Interested(slot: Slot): Slot
  {
    slot.(wantRead := WantsRead(slot.conn), wantWrite := slot.out.bytes != [] || slot.conn.owes)
  }

  /** Interest follows the connection, also while a response is buffered. */
  function Reconciled(s: Server, i: nat): (r: Server)
    requires i < |s.slots|
    ensures r == s.(slots := r.slots, log := r.log) && |r.slots| == |s.slots|
  {
    var slot := s.slots[i];
    s.(slots := s.slots[i := Interested(slot)],
       log := if WantsRead(slot.conn) && slot.response.Some? then s.log + [Resumed(i)] else s.log)
  }

  function Completed(s: Server, i: nat, after: After): (r: Server)
    requires i < |s.slots|
    ensures |r.slots| == |s.slots| && r.queue == s.queue && r == s.(slots := r.slots, leases := r.leases, log := r.log)
  {
    if after.Close? then Released(s, i) else Reconciled(s, i)
  }

  // ---------------------------------------------------------------- the barrier

  /** What a response must wait for. */
  function RequiredLsn(before: nat, after: nat, staged: Option<Staged>): Option<nat>
  {
    if after > before then Some(after)
    else if staged.Some? && staged.value.journal then Some(staged.value.lsn)
    else None
  }

  /** What the output of a dispatch speaks of: the journal it wrote, the commit it has staged, or the
      staged commit that it completed. */
  function Needs(r: Response): nat
  {
    if r.after > r.before then r.after
    else if r.staged.Some? && r.staged.value.journal then r.staged.value.lsn
    else if r.held.Some? && r.held.value.journal then r.held.value.lsn
    else 0
  }

  predicate Behind(response: Response, durable: nat)
  {
    response.required.Some? && response.required.value > durable
  }

  /** The response that a flush of this slot would run ahead of. */
  function Holding(slot: Slot, durable: nat): Option<nat>
  {
    if slot.response.Some? && Behind(slot.response.value, durable) then Some(slot.response.value.id) else None
  }

  function FlushedSlot(slot: Slot, o: Outcome): Slot
  {
    var out := Consumed(slot.out, Taken(o.accepted, slot.out));
    var ended := slot.conn.ending.Flushing? && out.bytes == [] && !o.conn.owes;
    slot.(out := out, conn := slot.conn.(owes := o.conn.owes, ending := if ended then Draining else slot.conn.ending))
  }

  /** Sends what the socket accepts, whatever it belongs to. */
  function Flushed(s: Server, i: nat, o: Outcome, cause: Cause): (r: Server)
    requires i < |s.slots|
    ensures r == s.(slots := r.slots, log := r.log) && |r.slots| == |s.slots|
  {
    var slot := s.slots[i];
    s.(slots := s.slots[i := FlushedSlot(slot, o)],
       log := s.log + [Sent(i, cause, Holding(slot, s.durable), slot.out.bytes[..Taken(o.accepted, slot.out)],
                            s.durable)])
  }

  // ---------------------------------------------------------------- executing the queue

  /** A cancel request interrupts a statement that is parked and has staged no commit. */
  function Interrupted(s: Server, o: Outcome): (r: Server)
    ensures |r.slots| == |s.slots| && r.queue == s.queue && r == s.(slots := r.slots, log := r.log)
  {
    if o.cancel.None? || o.cancel.value >= |s.slots| then s
    else
      var i := o.cancel.value;
      var slot := s.slots[i];
      if !slot.open || !slot.conn.parked || slot.conn.staged.Some? then s
      else
        var t := s.(slots := s.slots[i := slot.(conn := slot.conn.(parked := false),
                                                out := Appended(slot.out, o.notice, Plain))]);
        if o.told then Reconciled(t, i) else t
  }

  predicate Declined(s: Server, o: Outcome)
    requires s.queue != [] && QueueIn(s)
  {
    s.queue[0].kind.Retry? && (!s.slots[s.queue[0].owner].conn.parked || !o.ready)
  }

  /** Whether the dispatch reached the engine, so that an error may take its output back. */
  predicate Ran(d: Dispatch, o: Outcome)
  {
    d.kind.Retry? || o.guarded
  }

  function Answer(s: Server, o: Outcome): Response
    requires s.queue != [] && QueueIn(s)
  {
    var d, slot := s.queue[0], s.slots[s.queue[0].owner];
    var after := s.journal + if Ran(d, o) then o.advance else 0;
    var staged := if Ran(d, o) then Obeyed(slot.conn, o, s.durable).staged else slot.conn.staged;
    Response(s.tick, RequiredLsn(s.journal, after, staged), if Ran(d, o) then Some(End(slot.out)) else None,
             s.journal, after, slot.conn.staged, staged)
  }

  /** What the dispatch streams. Only input that reaches the engine does. */
  function Chunks(d: Dispatch, o: Outcome): seq<Chunk>
  {
    if Ran(d, o) then o.stream else []
  }

  /** What the dispatch writes last. Input that does not reach the engine writes only when it closes. */
  function Rest(d: Dispatch, o: Outcome): nat
  {
    if Ran(d, o) || o.after.Close? then o.wrote else 0
  }

  /** The output of a closing dispatch may always leave. */
  function OwnByte(r: Response, o: Outcome): Byte
  {
    if o.after.Close? then Plain else Guarded(r.id, Needs(r))
  }

  /** The bytes that leave while the dispatch runs, and the buffer afterwards. */
  function Output(s: Server, o: Outcome): (seq<Byte>, Out)
    requires s.queue != [] && QueueIn(s)
  {
    var d := s.queue[0];
    Poured(s.slots[d.owner].out, Chunks(d, o), Rest(d, o), OwnByte(Answer(s, o), o))
  }

  /** The slot after its dispatch. */
  function RunSlot(s: Server, o: Outcome): Slot
    requires s.queue != [] && QueueIn(s)
  {
    var d, slot := s.queue[0], s.slots[s.queue[0].owner];
    slot.(pending := false, conn := if Ran(d, o) then Obeyed(slot.conn, o, s.durable) else slot.conn,
          out := Output(s, o).1)
  }

  /** What is sent while a dispatch runs leaves past whatever response is held back. */
  function StreamEvents(s: Server, o: Outcome): seq<Event>
    requires s.queue != [] && QueueIn(s)
  {
    var i, r, sent := s.queue[0].owner, Answer(s, o), Output(s, o).0;
    if sent == [] then []
    else [Sent(i, InDispatch(r.id, Needs(r)), Holding(s.slots[i], s.durable), sent, s.durable)]
  }

  function Logged(s: Server, more: seq<Event>): Server
  {
    s.(log := s.log + more)
  }

  /** Where the output of the dispatch then lies. Its mark was taken before it ran; it is still exact if
      nothing was sent since the buffer was last at its front. */
  function PlaceOf(s: Server, o: Outcome): Place
    requires s.queue != [] && QueueIn(s)
  {
    var d, was, sent := s.queue[0], s.slots[s.queue[0].owner].out, |Output(s, o).0|;
    Place(Less(|was.bytes|, sent), Less(Volume(Chunks(d, o)) + Rest(d, o), Less(sent, |was.bytes|)),
          was.start == 0 && sent == 0)
  }

  /** The front dispatch taken off the queue, and its workspace given back. */
  function Dequeued(s: Server, slot: Slot, journal: nat): (r: Server)
    requires s.queue != [] && QueueIn(s)
    ensures |r.slots| == |s.slots| && r.queue == s.queue[1..] && r.log == s.log
    ensures r == s.(slots := r.slots, leases := r.leases, queue := r.queue, journal := journal, tick := s.tick + 1)
  {
    var i := s.queue[0].owner;
    WithoutLease(s.(slots := s.slots[i := slot], queue := s.queue[1..], journal := journal, tick := s.tick + 1), i)
  }

  function Stored(s: Server, i: nat, response: Response, kind: Kind, place: Place): (r: Server)
    requires i < |s.slots|
    ensures r == s.(slots := r.slots, log := r.log) && |r.slots| == |s.slots|
  {
    s.(slots := s.slots[i := s.slots[i].(response := Some(response))],
       log := s.log + [Buffered(i, response.id, kind, place)])
  }

  /** The response of a closing dispatch is finished at once; any other one is buffered. */
  function Answered(s: Server, i: nat, response: Response, kind: Kind, place: Place, o: Outcome): (r: Server)
    requires i < |s.slots|
    ensures |r.slots| == |s.slots| && r.queue == s.queue && r == s.(slots := r.slots, leases := r.leases, log := r.log)
  {
    if o.after.Close? then Completed(Interrupted(Flushed(s, i, o, OnClose), o), i, o.finish)
    else Interrupted(Stored(s, i, response, kind, place), o)
  }

  function Executed(s: Server, env: Engine): (r: Server)
    requires s.queue != [] && QueueIn(s)
    ensures |r.slots| == |s.slots| && r.queue == s.queue[1..] && r.durable == s.durable && r.down == s.down
  {
    var o, d := env(s.tick), s.queue[0];
    if Declined(s, o) then Dequeued(s, s.slots[d.owner].(pending := false), s.journal)
    else
      var t := Dequeued(Logged(s, StreamEvents(s, o)), RunSlot(s, o), Answer(s, o).after);
      if t.slots[d.owner].generation != d.generation || !t.slots[d.owner].open then t
      else Answered(t, d.owner, Answer(s, o), d.kind, PlaceOf(s, o), o)
  }

  function Drained(s: Server, env: Engine): (r: Server)
    requires QueueIn(s)
    ensures |r.slots| == |s.slots| && r.queue == [] && r.durable == s.durable && r.down == s.down
    decreases |s.queue|
  {
    if s.queue == [] then s else Drained(Executed(s, env), env)
  }

  // ---------------------------------------------------------------- socket events

  function Enqueued(s: Server, d: Dispatch): Server
    requires d.owner < |s.slots|
  {
    s.(slots := s.slots[d.owner := s.slots[d.owner].(pending := true)], queue := s.queue + [d])
  }

  function Suspended(s: Server, i: nat): Server
    requires i < |s.slots|
  {
    s.(slots := s.slots[i := s.slots[i].(wantRead := false)])
  }

  /** A workspace was found: queue the read unless read interest has gone meanwhile. */
  function Admitted(s: Server, i: nat, generation: nat, workspace: nat): Server
    requires i < |s.slots|
  {
    if !s.slots[i].wantRead then s
    else Enqueued(Suspended(s, i), Dispatch(i, generation, workspace, Readable))
  }

  function Requested(s: Server, i: nat, generation: nat): (r: Server)
    requires i < |s.slots|
  {
    var (w, l) := AfterAcquire(s.leases, i);
    var t := s.(leases := l);
    if w.Some? then Admitted(t, i, generation, w.value) else Suspended(t, i)
  }

  /** When every workspace is leased, a nonempty queue is drained and the request made again. */
  function ReadRequested(s: Server, i: nat, generation: nat, env: Engine): (r: Server)
    requires i < |s.slots| && QueueIn(s)
  {
    var (w, l) := AfterAcquire(s.leases, i);
    if w.Some? || s.queue == [] then Requested(s, i, generation)
    else Requested(Drained(s.(leases := l), env), i, generation)
  }

  /** The writable branch: flush, and append what was due once everything is out. */
  function Written(s: Server, i: nat, o: Outcome): (r: Server)
    requires i < |s.slots|
    ensures |r.slots| == |s.slots| && r.queue == s.queue
  {
    var t := Flushed(s.(tick := s.tick + 1), i, o, OnWritable);
    var slot := t.slots[i];
    var due := if slot.out.bytes == [] && s.slots[i].conn.owes then o.wrote else 0;
    Completed(t.(slots := t.slots[i := slot.(out := Appended(slot.out, due, Plain))]), i, o.finish)
  }

  function Dispatched(s: Server, i: nat, generation: nat, readable: bool, writable: bool,
                      publicationReady: bool, env: Engine): (r: Server)
    requires QueueIn(s)
  {
    if i >= |s.slots| || s.slots[i].generation != generation || !s.slots[i].open || s.slots[i].pending then s
    else if readable && !s.slots[i].wantRead then s
    else if readable && !publicationReady then Completed(s, i, Close)
    else if readable then ReadRequested(s, i, generation, env)
    else if writable then Written(s, i, env(s.tick))
    else Completed(s, i, Continue)
  }

  // ---------------------------------------------------------------- waking parked statements

  function RetryRequested(s: Server, i: nat, env: Engine): (r: Server)
    requires i < |s.slots| && QueueIn(s)
    ensures |r.slots| == |s.slots| && QueueIn(r)
  {
    var t := if AfterTryAcquire(s.leases, i).0.None? && s.queue != [] then Drained(s, env) else s;
    var (w, l) := AfterTryAcquire(t.leases, i);
    if w.None? then t
    else Enqueued(t.(leases := l), Dispatch(i, t.slots[i].generation, w.value, Retry))
  }

  function RetriedFrom(s: Server, i: nat, env: Engine): (r: Server)
    requires i <= |s.slots| && QueueIn(s)
    ensures |r.slots| == |s.slots| && QueueIn(r)
    decreases |s.slots| - i
  {
    if i == |s.slots| then s
    else if !s.slots[i].open || s.slots[i].response.Some? then RetriedFrom(s, i + 1, env)
    else RetriedFrom(RetryRequested(s, i, env), i + 1, env)
  }

  /** Passes over the slots until one leaves the lock and read-capacity generations alone. */
  function WaitersWoken(s: Server, passes: nat, env: Engine): (r: Server)
    requires QueueIn(s)
    ensures |r.slots| == |s.slots| && QueueIn(r) && (passes > 0 ==> r.queue == [])
    decreases passes
  {
    if passes == 0 then s
    else
      var t := Drained(RetriedFrom(s, 0, env), env);
      if env(t.tick).stable then t.(tick := t.tick + 1) else WaitersWoken(t.(tick := t.tick + 1), passes - 1, env)
  }

  // ---------------------------------------------------------------- finishing responses

  /** The output of a failed dispatch taken back to its mark, and the error in its place. */
  function ErrorSlot(slot: Slot, o: Outcome): Slot
    requires slot.response.Some? && slot.response.value.mark.Some?
      && CanTruncate(slot.out, slot.response.value.mark.value)
  {
    slot.(out := Appended(Truncated(slot.out, slot.response.value.mark.value), o.wrote, Plain),
          conn := if slot.conn.staged.Some? then Ended(slot.conn) else slot.conn)
  }

  function Leftover(slot: Slot, i: nat): seq<Event>
    requires slot.response.Some? && slot.response.value.mark.Some?
      && CanTruncate(slot.out, slot.response.value.mark.value)
  {
    var r := slot.response.value;
    if Lead(slot.out.bytes, r.id) < r.mark.value - slot.out.start then [Clipped(i, r.id)] else []
  }

  /** One slot of the batch: a response still behind the barrier stays unless publication failed. */
  function FinishedAt(s: Server, i: nat, failed: bool, env: Engine): (r: Server)
    requires i < |s.slots|
    ensures |r.slots| == |s.slots| && r.queue == s.queue && r.durable == s.durable
  {
    var slot := s.slots[i];
    if slot.response.None? || (!failed && Behind(slot.response.value, s.durable)) then s
    else
      var o, r := env(s.tick), slot.response.value;
      var error := failed && Behind(r, s.durable) && r.mark.Some?;
      if error && !CanTruncate(slot.out, r.mark.value) then s.(down := true, log := s.log + [Panicked(i)])
      else
        var told := if error then ErrorSlot(slot, o) else slot;
        var cut := if error then Leftover(slot, i) else [];
        var events := cut + [Finished(i, r, s.durable, failed && Behind(r, s.durable))];
        Completed(Flushed(s.(slots := s.slots[i := told.(response := None)], tick := s.tick + 1, log := s.log + events),
                          i, o, AtBarrier), i, o.finish)
  }

  function FinishedFrom(s: Server, i: nat, failed: bool, env: Engine): (r: Server)
    requires i <= |s.slots|
    ensures |r.slots| == |s.slots| && r.queue == s.queue && r.durable == s.durable
    decreases |s.slots| - i
  {
    if i == |s.slots| || s.down then s else FinishedFrom(FinishedAt(s, i, failed, env), i + 1, failed, env)
  }

  // ---------------------------------------------------------------- the rest of a turn

  function Published(s: Server, lsn: nat): Server
  {
    if s.durable <= lsn <= s.journal then s.(durable := lsn) else s
  }

  /** A new connection on a free slot. */
  function Accepted(s: Server, i: nat): Server
    requires i < |s.slots|
  {
    s.(slots := s.slots[i := s.slots[i].(open := true, wantRead := true, wantWrite := false, conn := IDLE,
                                         out := EMPTY)])
  }

  /** Interest is brought in line with the connection in every turn, and after a notification of n
      bytes. */
  function Notified(s: Server, i: nat, n: nat): Server
    requires i < |s.slots|
  {
    Reconciled(s.(slots := s.slots[i := s.slots[i].(out := Appended(s.slots[i].out, n, Plain))]), i)
  }

  /** An administrator ends the connection: unsent output makes way for n bytes that say so. */
  function Expelled(s: Server, i: nat, n: nat): Server
    requires i < |s.slots|
  {
    Reconciled(s.(slots := s.slots[i := s.slots[i].(out := Appended(EMPTY, n, Plain), conn := Ended(s.slots[i].conn))],
                  log := s.log + [Cleared(i)]), i)
  }

  /** The staged commit of a closed connection has been settled. */
  function Settled(s: Server, i: nat): Server
    requires i < |s.slots|
  {
    Released(s.(slots := s.slots[i := s.slots[i].(conn := s.slots[i].conn.(staged := None))]), i)
  }
}
