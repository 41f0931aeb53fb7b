/** Runs in which output leaves before it is durable: one connection, one workspace, and a journal write
    that no transaction stages, such as a logical message outside a transaction. Every socket event
    was asked for. */
module ServerExamples {
  import opened Options
  import W = WorkspaceLeases
  import opened SendBuffers
  import opened ServerCore
  import opened ServerInvariant
  import opened ServerSteps
  import opened ServerOutput
  import opened ServerRuns

  /** The reactor reports only what the slot has registered for. */
  predicate AskedFor(s: Server, op: Op)
  {
    op.Socket? && op.slot < |s.slots| ==>
      && (op.readable ==> s.slots[op.slot].wantRead) && (op.writable ==> s.slots[op.slot].wantWrite)
  }

  ghost predicate AllAskedFor(s: Server, ops: seq<Op>, env: Engine)
    requires Inv(s) && Legal(s, ops, env)
    decreases |ops|
  {
    InvQueueIn(s);
    ops == [] || (AskedFor(s, ops[0]) && (StepKeeps(s, ops[0], env); AllAskedFor(Step(s, ops[0], env), ops[1..], env)))
  }

  /** A call that reaches the engine, grows the journal, writes bytes and finds the socket willing. */
  function Call(advance: nat, wrote: nat, accepted: nat): Outcome
  {
    Outcome(true, Continue, true, advance, IDLE, false, [], wrote, accepted, Continue, None, 0, false, true)
  }

  function Solo(slot: Slot, journal: nat, tick: nat, log: seq<Event>): Server
  {
    Server([slot], W.Leases([None], [], 0), [], journal, 0, tick, false, log)
  }

  function Client(reading: bool, writing: bool, response: Option<Response>, out: Out): Slot
  {
    Slot(true, 0, reading, writing, false, response, false, IDLE, out)
  }

  function Reply(id: nat, journal: nat, advance: nat, out: Out): Response
  {
    Response(id, RequiredLsn(journal, journal + advance, None), Some(End(out)), journal, journal + advance, None, None)
  }

  const READ := Socket(0, 0, true, false, true)
  const WRITE := Socket(0, 0, false, true, true)

  // ---------------------------------------------------------------- the steps of one client

  lemma SoloLease()
    ensures W.AfterAcquire(W.Leases([None], [], 0), 0) == (Some(0), W.Leases([Some(0)], [], 0))
    ensures W.AfterRelease(W.Leases([Some(0)], [], 0), 0) == (None, W.Leases([None], [], 0))
  {
    var l := W.Leases([None], [], 0);
    assert W.RoundRobin(l, 0) == 0;
    assert W.FreeFrom(l, 0) == 0;
    assert [None][0 := Some(0)] == [Some(0)];
    assert W.Position([Some(0)], 0) == 0;
    assert [Some(0)][0 := None] == [None];
  }

  function Busy(writing: bool, response: Option<Response>, out: Out, journal: nat, tick: nat, log: seq<Event>): Server
  {
    Server([Client(false, writing, response, out).(pending := true)], W.Leases([Some(0)], [], 0),
           [Dispatch(0, 0, 0, Readable)], journal, 0, tick, false, log)
  }

  lemma ReadStep(writing: bool, response: Option<Response>, out: Out, journal: nat, tick: nat, log: seq<Event>,
                 env: Engine)
    ensures Step(Solo(Client(true, writing, response, out), journal, tick, log), READ, env)
         == Busy(writing, response, out, journal, tick, log)
  {
    SoloLease();
  }

  /** A read executes, and its response waits behind whatever was written before. */
  lemma DrainStep(writing: bool, response: Option<Response>, out: Out, journal: nat, tick: nat, log: seq<Event>,
                  env: Engine, advance: nat, wrote: nat, accepted: nat)
    requires env(tick) == Call(advance, wrote, accepted)
    ensures var r := Reply(tick, journal, advance, out);
      Step(Busy(writing, response, out, journal, tick, log), Drain, env)
      == Solo(Client(false, writing, Some(r), Appended(out, wrote, Guarded(tick, Needs(r)))), journal + advance,
              tick + 1, log + [Buffered(0, tick, Readable, Place(|out.bytes|, wrote, out.start == 0))])
  {
    hide Appended;
    SoloLease();
    var s, o, r := Busy(writing, response, out, journal, tick, log), env(tick), Reply(tick, journal, advance, out);
    assert Answer(s, o) == r;
    var slot := Client(false, writing, response, Appended(out, wrote, Guarded(tick, Needs(r))));
    assert RunSlot(s, o) == slot && StreamEvents(s, o) == [] && Logged(s, []) == s;
    var t := Dequeued(s, slot, r.after);
    assert t == Solo(slot, journal + advance, tick + 1, log);
    var u := Stored(t, 0, r, Readable, Place(|out.bytes|, wrote, out.start == 0));
    assert Executed(s, env) == u;
    assert Drained(s, env) == u;
  }

  lemma SyncStep(writing: bool, r: Response, out: Out, journal: nat, tick: nat, log: seq<Event>, env: Engine)
    ensures Step(Solo(Client(false, writing, Some(r), out), journal, tick, log), Sync(0, 0), env)
         == Solo(Client(true, out.bytes != [], Some(r), out), journal, tick, log + [Resumed(0)])
  {
  }

  lemma WriteStep(reading: bool, r: Response, out: Out, journal: nat, tick: nat, log: seq<Event>, env: Engine,
                  accepted: nat)
    requires env(tick) == Call(0, 0, accepted) && accepted <= |out.bytes|
    ensures var left := Consumed(out, accepted);
      Step(Solo(Client(reading, true, Some(r), out), journal, tick, log), WRITE, env)
      == Solo(Client(true, left.bytes != [], Some(r), left), journal, tick + 1,
              log + [Sent(0, OnWritable, if Behind(r, 0) then Some(r.id) else None, out.bytes[..accepted], 0)]
                  + [Resumed(0)])
  {
    hide Consumed;
    var s := Solo(Client(reading, true, Some(r), out), journal, tick, log);
    UnfoldWritten(s, 0, env(tick));
  }

  lemma FinishStep(reading: bool, writing: bool, r: Response, out: Out, journal: nat, tick: nat, log: seq<Event>,
                   env: Engine, accepted: nat)
    requires env(tick) == Call(0, 0, accepted) && accepted <= |out.bytes| && !Behind(r, 0)
    ensures var left := Consumed(out, accepted);
      Step(Solo(Client(reading, writing, Some(r), out), journal, tick, log), Finish(false), env)
      == Solo(Client(true, left.bytes != [], None, left), journal, tick + 1,
              log + [Finished(0, r, 0, false)] + [Sent(0, AtBarrier, None, out.bytes[..accepted], 0)])
  {
    hide Consumed;
    var s := Solo(Client(reading, writing, Some(r), out), journal, tick, log);
    UnfoldFinished(s, 0, false, env);
    var t := FinishedAt(s, 0, false, env);
    assert FinishedFrom(s, 0, false, env) == FinishedFrom(t, 1, false, env) == t;
    var none: seq<Event> := [];
    assert log + (none + [Finished(0, r, 0, false)] + [Sent(0, AtBarrier, None, out.bytes[..accepted], 0)])
        == log + [Finished(0, r, 0, false)] + [Sent(0, AtBarrier, None, out.bytes[..accepted], 0)];
  }

  /** Publication fails: the output is cut at its mark, and the error follows. */
  lemma FailStep(reading: bool, writing: bool, r: Response, out: Out, journal: nat, tick: nat, log: seq<Event>,
                 env: Engine, accepted: nat)
    requires env(tick) == Call(0, 1, accepted) && Behind(r, 0) && r.mark.Some? && CanTruncate(out, r.mark.value)
    requires Lead(out.bytes, r.id) < r.mark.value - out.start && accepted == r.mark.value - out.start + 1
    ensures var said := out.bytes[..r.mark.value - out.start] + [Plain];
      Step(Solo(Client(reading, writing, Some(r), out), journal, tick, log), Finish(true), env)
      == Solo(Client(true, false, None, EMPTY), journal, tick + 1,
              log + [Clipped(0, r.id)] + [Finished(0, r, 0, true)] + [Sent(0, AtBarrier, None, said, 0)])
  {
    var s := Solo(Client(reading, writing, Some(r), out), journal, tick, log);
    var said := out.bytes[..r.mark.value - out.start] + [Plain];
    var cut := Appended(Truncated(out, r.mark.value), 1, Plain);
    assert cut == Out(0, said) by { assert seq(1, _ => Plain) == [Plain]; }
    UnfoldFinished(s, 0, true, env);
    var t := FinishedAt(s, 0, true, env);
    assert FinishedFrom(s, 0, true, env) == FinishedFrom(t, 1, true, env) == t;
    assert said[..|said|] == said;
    assert log + ([Clipped(0, r.id)] + [Finished(0, r, 0, true)] + [Sent(0, AtBarrier, None, said, 0)])
        == log + [Clipped(0, r.id)] + [Finished(0, r, 0, true)] + [Sent(0, AtBarrier, None, said, 0)];
  }

  lemma AcceptStep(env: Engine)
    ensures Step(Start(1, 1), Accept(0), env) == Solo(Client(true, false, None, EMPTY), 0, 0, [])
  {
    assert Start(1, 1).leases.owners == [None];
  }

  // ---------------------------------------------------------------- whole runs

  /** A run that ends in `last`, every event of which was asked for. */
  ghost predicate Leads(s: Server, ops: seq<Op>, env: Engine, last: Server)
  {
    Inv(s) && Legal(s, ops, env) && AllAskedFor(s, ops, env) && Run(s, ops, env) == last
  }

  lemma LeadsHere(s: Server, env: Engine)
    requires Inv(s)
    ensures Leads(s, [], env, s)
  {
  }

  lemma LeadsOn(s: Server, op: Op, ops: seq<Op>, env: Engine, last: Server)
    requires Inv(s) && QueueIn(s) && Enabled(s, op) && AskedFor(s, op) && Leads(Step(s, op, env), ops, env, last)
    ensures Leads(s, [op] + ops, env, last)
  {
    hide Inv, Step;
    assert ([op] + ops)[0] == op && ([op] + ops)[1..] == ops;
  }

  lemma Kept(s: Server, op: Op, env: Engine, t: Server)
    requires Inv(s) && Enabled(s, op) && QueueIn(s) && Step(s, op, env) == t
    ensures Inv(t) && QueueIn(t)
  {
    StepKeeps(s, op, env);
  }

  function Script(t: nat, calls: seq<Outcome>): Outcome
  {
    if t < |calls| then calls[t] else Call(0, 0, 0)
  }

  function Waiting(advance: nat, wrote: nat): Out
  {
    Appended(EMPTY, wrote, Guarded(0, Needs(Reply(0, 0, advance, EMPTY))))
  }

  function Opened(wrote: nat): Event
  {
    Buffered(0, 0, Readable, Place(0, wrote, true))
  }

  /** The message is written to the journal at LSN 1 and its answer waits. */
  lemma Opening(env: Engine, wrote: nat, accepted: nat)
    requires env(0) == Call(1, wrote, accepted) && wrote > 0
    ensures var (r, out) := (Reply(0, 0, 1, EMPTY), Waiting(1, wrote));
      var s := Solo(Client(true, true, Some(r), out), 1, 1, [Opened(wrote)] + [Resumed(0)]);
      && Inv(s) && QueueIn(s)
      && forall ops, last :: Leads(s, ops, env, last) ==>
          Leads(Start(1, 1), [Accept(0), READ, Drain, Sync(0, 0)] + ops, env, last)
  {
    hide Inv, Step, Legal, Run, AllAskedFor;
    var r, out := Reply(0, 0, 1, EMPTY), Waiting(1, wrote);
    var s0 := Start(1, 1);
    var s1 := Solo(Client(true, false, None, EMPTY), 0, 0, []);
    var s2 := Busy(false, None, EMPTY, 0, 0, []);
    var s3 := Solo(Client(false, false, Some(r), out), 1, 1, [Opened(wrote)]);
    var s := Solo(Client(true, true, Some(r), out), 1, 1, [Opened(wrote)] + [Resumed(0)]);
    var none: seq<Event> := [];
    assert none + [Opened(wrote)] == [Opened(wrote)];
    StartOk(1, 1);
    InvQueueIn(s0);
    AcceptStep(env);
    Kept(s0, Accept(0), env, s1);
    ReadStep(false, None, EMPTY, 0, 0, [], env);
    Kept(s1, READ, env, s2);
    DrainStep(false, None, EMPTY, 0, 0, [], env, 1, wrote, accepted);
    Kept(s2, Drain, env, s3);
    SyncStep(false, r, out, 1, 1, s3.log, env);
    Kept(s3, Sync(0, 0), env, s);
    forall ops, last | Leads(s, ops, env, last)
      ensures Leads(s0, [Accept(0), READ, Drain, Sync(0, 0)] + ops, env, last)
    {
      LeadsOn(s3, Sync(0, 0), ops, env, last);
      LeadsOn(s2, Drain, [Sync(0, 0)] + ops, env, last);
      LeadsOn(s1, READ, [Drain] + ([Sync(0, 0)] + ops), env, last);
      LeadsOn(s0, Accept(0), [READ] + ([Drain] + ([Sync(0, 0)] + ops)), env, last);
      assert [Accept(0)] + ([READ] + ([Drain] + ([Sync(0, 0)] + ops))) == [Accept(0), READ, Drain, Sync(0, 0)] + ops;
    }
  }

  /** While the answer waits for LSN 1, interest is brought in line with the connection, as in every
      turn. The socket becomes writable and the answer leaves at durable LSN 0. */
  lemma EarlyAnswer() returns (ops: seq<Op>, env: Engine, last: Server, k: nat)
    ensures Leads(Start(1, 1), ops, env, last)
    ensures k < |last.log| && last.log[k] == Sent(0, OnWritable, Some(0), [Guarded(0, 1), Guarded(0, 1)], 0)
    ensures Early(Guarded(0, 1), 0)
  {
    hide Inv, Step, Legal, Run, AllAskedFor, Start;
    env := (t: nat) => Script(t, [Call(1, 2, 0), Call(0, 0, 2)]);
    var r, out := Reply(0, 0, 1, EMPTY), Waiting(1, 2);
    assert out == Out(0, [Guarded(0, 1), Guarded(0, 1)]) by {
      assert seq(2, _ => Guarded(0, 1)) == [Guarded(0, 1), Guarded(0, 1)];
    }
    Opening(env, 2, 0);
    var log := [Opened(2)] + [Resumed(0)];
    var s := Solo(Client(true, true, Some(r), out), 1, 1, log);
    WriteStep(true, r, out, 1, 1, log, env, 2);
    assert out.bytes[..2] == out.bytes;
    last := Step(s, WRITE, env);
    Kept(s, WRITE, env, last);
    LeadsHere(last, env);
    LeadsOn(s, WRITE, [], env, last);
    ops := [Accept(0), READ, Drain, Sync(0, 0)] + ([WRITE] + []);
    k := 2;
  }

  const OPENED := [Opened(1)] + [Resumed(0)]
  const FIRST := Out(0, [Guarded(0, 1)])
  const BOTH := Out(0, [Guarded(0, 1), Guarded(1, 0)])

  /** A further request, read while the first answer waits. */
  lemma Interloper(env: Engine)
    requires env(1) == Call(0, 1, 0)
    requires Inv(Solo(Client(true, true, Some(Reply(0, 0, 1, EMPTY)), FIRST), 1, 1, OPENED))
    ensures var s := Solo(Client(true, true, Some(Reply(0, 0, 1, EMPTY)), FIRST), 1, 1, OPENED);
      var u := Solo(Client(false, true, Some(Reply(1, 1, 0, FIRST)), BOTH), 1, 2,
                    OPENED + [Buffered(0, 1, Readable, Place(1, 1, true))]);
      && Inv(u) && QueueIn(u)
      && forall ops, last :: Leads(u, ops, env, last) ==> Leads(s, [READ, Drain] + ops, env, last)
  {
    hide Inv, Step, Legal, Run, AllAskedFor;
    var r := Reply(0, 0, 1, EMPTY);
    var s := Solo(Client(true, true, Some(r), FIRST), 1, 1, OPENED);
    var t := Busy(true, Some(r), FIRST, 1, 1, OPENED);
    var u := Solo(Client(false, true, Some(Reply(1, 1, 0, FIRST)), BOTH), 1, 2,
                  OPENED + [Buffered(0, 1, Readable, Place(1, 1, true))]);
    ReadStep(true, Some(r), FIRST, 1, 1, OPENED, env);
    Kept(s, READ, env, t);
    DrainStep(true, Some(r), FIRST, 1, 1, OPENED, env, 0, 1, 0);
    assert Appended(FIRST, 1, Guarded(1, 0)) == BOTH by { assert seq(1, _ => Guarded(1, 0)) == [Guarded(1, 0)]; }
    Kept(t, Drain, env, u);
    forall ops, last | Leads(u, ops, env, last) ensures Leads(s, [READ, Drain] + ops, env, last) {
      LeadsOn(t, Drain, ops, env, last);
      LeadsOn(s, READ, [Drain] + ops, env, last);
      assert [READ] + ([Drain] + ops) == [READ, Drain] + ops;
    }
  }

  lemma Replacing()
    ensures Stranded(OPENED + [Buffered(0, 1, Readable, Place(1, 1, true))], 0, 0)
  {
    StandingNext([Opened(1)], Resumed(0), 0);
    Stranding(OPENED, Buffered(0, 1, Readable, Place(1, 1, true)), 0, 0);
  }

  /** A further request is read instead, its response replaces the one that waits, and finishing it
      sends both answers at durable LSN 0. */
  lemma ReplacedAnswer() returns (ops: seq<Op>, env: Engine, last: Server, k: nat)
    ensures Leads(Start(1, 1), ops, env, last)
    ensures k < |last.log| && last.log[k] == Sent(0, AtBarrier, None, [Guarded(0, 1), Guarded(1, 0)], 0)
    ensures Stranded(last.log[..k], 0, 0) && Early(Guarded(0, 1), 0)
  {
    hide Inv, Step, Legal, Run, AllAskedFor, Start, Stranded, Leads;
    env := (t: nat) => Script(t, [Call(1, 1, 0), Call(0, 1, 0), Call(0, 0, 2)]);
    assert Waiting(1, 1) == FIRST by { assert seq(1, _ => Guarded(0, 1)) == [Guarded(0, 1)]; }
    Opening(env, 1, 0);
    Interloper(env);
    var r, log := Reply(1, 1, 0, FIRST), OPENED + [Buffered(0, 1, Readable, Place(1, 1, true))];
    var u := Solo(Client(false, true, Some(r), BOTH), 1, 2, log);
    FinishStep(false, true, r, BOTH, 1, 2, log, env, 2);
    assert BOTH.bytes[..2] == BOTH.bytes;
    last := Step(u, Finish(false), env);
    Kept(u, Finish(false), env, last);
    LeadsHere(last, env);
    LeadsOn(u, Finish(false), [], env, last);
    ops := [Accept(0), READ, Drain, Sync(0, 0)] + ([READ, Drain] + ([Finish(false)] + []));
    k := 4;
    assert last.log[..k] == log + [Finished(0, r, 0, false)];
    Replacing();
    StrandedStays(log, [Finished(0, r, 0, false)], 0, 0);
  }

  // ---------------------------------------------------------------- an error that takes too little back

  const HALF := Out(1, [Guarded(0, 0)])
  const LATER := Out(0, [Guarded(0, 0), Guarded(2, 1), Guarded(2, 1)])
  const ANSWERED := [Opened(2), Finished(0, Reply(0, 0, 0, EMPTY), 0, false),
                     Sent(0, AtBarrier, None, [Guarded(0, 0)], 0)]

  /** The first answer writes two bytes, of which the socket takes one. */
  lemma HalfSent(env: Engine)
    requires env(0) == Call(0, 2, 0) && env(1) == Call(0, 0, 1)
    ensures var s := Solo(Client(true, true, None, HALF), 0, 2, ANSWERED);
      && Inv(s) && QueueIn(s)
      && forall ops, last :: Leads(s, ops, env, last) ==>
          Leads(Start(1, 1), [Accept(0), READ, Drain, Finish(false)] + ops, env, last)
  {
    hide Inv, Step, Legal, Run, AllAskedFor;
    var r, out := Reply(0, 0, 0, EMPTY), Out(0, [Guarded(0, 0), Guarded(0, 0)]);
    assert Appended(EMPTY, 2, Guarded(0, 0)) == out by {
      assert seq(2, _ => Guarded(0, 0)) == [Guarded(0, 0), Guarded(0, 0)];
    }
    var log := [Opened(2)];
    var s0 := Start(1, 1);
    var s1 := Solo(Client(true, false, None, EMPTY), 0, 0, []);
    var s2 := Busy(false, None, EMPTY, 0, 0, []);
    var s3 := Solo(Client(false, false, Some(r), out), 0, 1, log);
    var s := Solo(Client(true, true, None, HALF), 0, 2, ANSWERED);
    var none: seq<Event> := [];
    assert none + log == log;
    StartOk(1, 1);
    InvQueueIn(s0);
    AcceptStep(env);
    Kept(s0, Accept(0), env, s1);
    ReadStep(false, None, EMPTY, 0, 0, [], env);
    Kept(s1, READ, env, s2);
    DrainStep(false, None, EMPTY, 0, 0, [], env, 0, 2, 0);
    Kept(s2, Drain, env, s3);
    FinishStep(false, false, r, out, 0, 1, log, env, 1);
    assert out.bytes[..1] == [Guarded(0, 0)] && Consumed(out, 1) == HALF;
    assert log + [Finished(0, r, 0, false)] + [Sent(0, AtBarrier, None, [Guarded(0, 0)], 0)] == ANSWERED;
    Kept(s3, Finish(false), env, s);
    forall ops, last | Leads(s, ops, env, last)
      ensures Leads(s0, [Accept(0), READ, Drain, Finish(false)] + ops, env, last)
    {
      LeadsOn(s3, Finish(false), ops, env, last);
      LeadsOn(s2, Drain, [Finish(false)] + ops, env, last);
      LeadsOn(s1, READ, [Drain] + ([Finish(false)] + ops), env, last);
      LeadsOn(s0, Accept(0), [READ] + ([Drain] + ([Finish(false)] + ops)), env, last);
      assert [Accept(0)] + ([READ] + ([Drain] + ([Finish(false)] + ops)))
        == [Accept(0), READ, Drain, Finish(false)] + ops;
    }
  }

  /** The second request writes to the journal behind the byte that is left. */
  lemma SecondWrite(env: Engine)
    requires env(2) == Call(1, 2, 0) && Inv(Solo(Client(true, true, None, HALF), 0, 2, ANSWERED))
    ensures var s := Solo(Client(true, true, None, HALF), 0, 2, ANSWERED);
      var u := Solo(Client(false, true, Some(Reply(2, 0, 1, HALF)), LATER), 1, 3,
                    ANSWERED + [Buffered(0, 2, Readable, Place(1, 2, false))]);
      && Inv(u) && QueueIn(u)
      && forall ops, last :: Leads(u, ops, env, last) ==> Leads(s, [READ, Drain] + ops, env, last)
  {
    hide Inv, Step, Legal, Run, AllAskedFor;
    var s := Solo(Client(true, true, None, HALF), 0, 2, ANSWERED);
    var t := Busy(true, None, HALF, 0, 2, ANSWERED);
    var u := Solo(Client(false, true, Some(Reply(2, 0, 1, HALF)), LATER), 1, 3,
                  ANSWERED + [Buffered(0, 2, Readable, Place(1, 2, false))]);
    ReadStep(true, None, HALF, 0, 2, ANSWERED, env);
    Kept(s, READ, env, t);
    DrainStep(true, None, HALF, 0, 2, ANSWERED, env, 1, 2, 0);
    assert Appended(HALF, 2, Guarded(2, 1)) == LATER by {
      assert seq(2, _ => Guarded(2, 1)) == [Guarded(2, 1), Guarded(2, 1)];
    }
    Kept(t, Drain, env, u);
    forall ops, last | Leads(u, ops, env, last) ensures Leads(s, [READ, Drain] + ops, env, last) {
      LeadsOn(t, Drain, ops, env, last);
      LeadsOn(s, READ, [Drain] + ops, env, last);
      assert [READ] + ([Drain] + ops) == [READ, Drain] + ops;
    }
  }

  /** Publication fails. The mark of the second answer was taken before the byte that was left moved
      to the front, so the truncation keeps one byte of that answer, and it leaves at durable LSN 0. */
  lemma ClippedAnswer() returns (ops: seq<Op>, env: Engine, last: Server, k: nat)
    ensures Leads(Start(1, 1), ops, env, last)
    ensures k < |last.log| && last.log[k] == Sent(0, AtBarrier, None, [Guarded(0, 0), Guarded(2, 1), Plain], 0)
    ensures Early(Guarded(2, 1), 0)
  {
    hide Inv, Step, Legal, Run, AllAskedFor, Start, Leads;
    env := (t: nat) => Script(t, [Call(0, 2, 0), Call(0, 0, 1), Call(1, 2, 0), Call(0, 1, 3)]);
    HalfSent(env);
    SecondWrite(env);
    var r, log := Reply(2, 0, 1, HALF), ANSWERED + [Buffered(0, 2, Readable, Place(1, 2, false))];
    var u := Solo(Client(false, true, Some(r), LATER), 1, 3, log);
    assert Lead(LATER.bytes, 2) == 1 by { assert LATER.bytes[1] == Guarded(2, 1); }
    FailStep(false, true, r, LATER, 1, 3, log, env, 3);
    assert LATER.bytes[..2] + [Plain] == [Guarded(0, 0), Guarded(2, 1), Plain];
    last := Step(u, Finish(true), env);
    Kept(u, Finish(true), env, last);
    LeadsHere(last, env);
    LeadsOn(u, Finish(true), [], env, last);
    ops := [Accept(0), READ, Drain, Finish(false)] + ([READ, Drain] + ([Finish(true)] + []));
    k := 6;
  }

  // ---------------------------------------------------------------- a read that streams

  /** A call that reaches the engine and grows the journal. A query with a large result finds the buffer
      full once `first` bytes are written, sends all that is unsent, and writes `wrote` bytes more. */
  function Flood(advance: nat, first: nat, took: nat, wrote: nat): Outcome
  {
    Call(advance, wrote, 0).(stream := [Chunk(first, took)])
  }

  function Ahead(response: Option<Response>): Option<nat>
  {
    if response.Some? && Behind(response.value, 0) then Some(response.value.id) else None
  }

  lemma FloodOutput(out: Out, first: nat, took: nat, wrote: nat, b: Byte)
    requires first > 0 && took == |out.bytes| + first
    ensures Poured(out, [Chunk(first, took)], wrote, b) ==
      (out.bytes + Repeated(b, first), Appended(EMPTY, wrote, b))
  {
    var full := Appended(out, first, b);
    AppendedBytes(out, first, b);
    RepeatedLength(b, first);
    assert Taken(took, full) == took == |full.bytes| && full.bytes[..took] == full.bytes;
    assert Consumed(full, took) == EMPTY;
    var none: seq<Byte> := [];
    assert Streamed(EMPTY, [], b) == (none, EMPTY);
    assert full.bytes + none == full.bytes;
    assert [Chunk(first, took)][1..] == [];
    assert Streamed(out, [Chunk(first, took)], b) == (full.bytes, EMPTY);
  }

  lemma FloodStep(writing: bool, response: Option<Response>, out: Out, journal: nat, tick: nat, log: seq<Event>,
                  env: Engine, advance: nat, first: nat, wrote: nat)
    requires env(tick) == Flood(advance, first, |out.bytes| + first, wrote) && first > 0
    ensures var r := Reply(tick, journal, advance, out);
      var b := Guarded(tick, Needs(r));
      Step(Busy(writing, response, out, journal, tick, log), Drain, env)
      == Solo(Client(false, writing, Some(r), Appended(EMPTY, wrote, b)), journal + advance, tick + 1,
              log + [Sent(0, InDispatch(tick, Needs(r)), Ahead(response), out.bytes + Repeated(b, first), 0)]
                  + [Buffered(0, tick, Readable, Place(0, wrote, false))])
  {
    hide Appended, Poured, Repeated;
    SoloLease();
    var s, o, r := Busy(writing, response, out, journal, tick, log), env(tick), Reply(tick, journal, advance, out);
    assert Answer(s, o) == r;
    var b := Guarded(tick, Needs(r));
    FloodOutput(out, first, |out.bytes| + first, wrote, b);
    RepeatedLength(b, first);
    var slot := Client(false, writing, response, Appended(EMPTY, wrote, b));
    var sent := Sent(0, InDispatch(tick, Needs(r)), Ahead(response), out.bytes + Repeated(b, first), 0);
    assert Output(s, o) == (out.bytes + Repeated(b, first), Appended(EMPTY, wrote, b));
    assert RunSlot(s, o) == slot && StreamEvents(s, o) == [sent];
    assert Volume(o.stream) == first by { assert o.stream[1..] == []; }
    assert PlaceOf(s, o) == Place(0, wrote, false);
    var t := Dequeued(Logged(s, [sent]), slot, r.after);
    assert t == Solo(slot, journal + advance, tick + 1, log + [sent]);
    var u := Stored(t, 0, r, Readable, Place(0, wrote, false));
    assert Executed(s, env) == u;
    assert Drained(s, env) == u;
  }

  /** One read holds two requests: the first writes to the journal at LSN 1, and the second has a large
      result. The second empties the buffer while it runs, and the answer to the first leaves at durable
      LSN 0 with no response held back and none replaced. */
  lemma StreamedAnswer() returns (ops: seq<Op>, env: Engine, last: Server)
    ensures Leads(Start(1, 1), ops, env, last)
    ensures |last.log| == 2 && last.log[0] == Sent(0, InDispatch(0, 1), None, [Guarded(0, 1), Guarded(0, 1)], 0)
    ensures SendsOwnEarly(last.log[0])
  {
    hide Inv, Step, Legal, Run, AllAskedFor, Start, Leads;
    env := (t: nat) => Script(t, [Flood(1, 2, 2, 1)]);
    var b := Guarded(0, 1);
    assert Repeated(b, 2) == [b, b];
    var s0, s1, s2 := Start(1, 1), Solo(Client(true, false, None, EMPTY), 0, 0, []), Busy(false, None, EMPTY, 0, 0, []);
    StartOk(1, 1);
    InvQueueIn(s0);
    AcceptStep(env);
    Kept(s0, Accept(0), env, s1);
    ReadStep(false, None, EMPTY, 0, 0, [], env);
    Kept(s1, READ, env, s2);
    FloodStep(false, None, EMPTY, 0, 0, [], env, 1, 2, 1);
    last := Step(s2, Drain, env);
    Kept(s2, Drain, env, last);
    LeadsHere(last, env);
    LeadsOn(s2, Drain, [], env, last);
    LeadsOn(s1, READ, [Drain] + [], env, last);
    LeadsOn(s0, Accept(0), [READ] + ([Drain] + []), env, last);
    ops := [Accept(0)] + ([READ] + ([Drain] + []));
    assert Of(last.log[0].bytes[0], 0);
  }

  /** An answer waits at the barrier, and its connection is found willing to read. A further request with
      a large result sends the waiting answer while it runs, before any response takes its place. */
  lemma OvertakenAnswer() returns (ops: seq<Op>, env: Engine, last: Server, k: nat)
    ensures Leads(Start(1, 1), ops, env, last)
    ensures k < |last.log| && last.log[k] == Sent(0, InDispatch(1, 0), Some(0), [Guarded(0, 1), Guarded(1, 0)], 0)
    ensures Early(Guarded(0, 1), 0)
  {
    hide Inv, Step, Legal, Run, AllAskedFor, Start, Leads;
    env := (t: nat) => Script(t, [Call(1, 1, 0), Flood(0, 1, 2, 1)]);
    assert Waiting(1, 1) == FIRST by { assert seq(1, _ => Guarded(0, 1)) == [Guarded(0, 1)]; }
    Opening(env, 1, 0);
    var r := Reply(0, 0, 1, EMPTY);
    var s, t := Solo(Client(true, true, Some(r), FIRST), 1, 1, OPENED), Busy(true, Some(r), FIRST, 1, 1, OPENED);
    ReadStep(true, Some(r), FIRST, 1, 1, OPENED, env);
    Kept(s, READ, env, t);
    FloodStep(true, Some(r), FIRST, 1, 1, OPENED, env, 0, 1, 1);
    assert FIRST.bytes + Repeated(Guarded(1, 0), 1) == [Guarded(0, 1), Guarded(1, 0)];
    last := Step(t, Drain, env);
    Kept(t, Drain, env, last);
    LeadsHere(last, env);
    LeadsOn(t, Drain, [], env, last);
    LeadsOn(s, READ, [Drain] + [], env, last);
    ops := [Accept(0), READ, Drain, Sync(0, 0)] + ([READ] + ([Drain] + []));
    k := 2;
  }
}
