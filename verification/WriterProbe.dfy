/** The shared writer-ownership probe: one retried GET whose outcome every waiting request shares.

    The object-store client is an oracle: each GET or poll of a GET is answered by a `Reply`. Instants
    are milliseconds. */
module WriterProbes {

  const ATTEMPTS: nat := 3
  const REQUEST_TIMEOUT: nat := 30_000
  const LAST_GENERATION: nat := 0xFFFF_FFFF_FFFF_FFFF

  datatype Ticket = Ticket(generation: nat, owner: nat)

  datatype Outcome = Owned | FencedOut | Unverified

  datatype Phase =
    | Idle
    | Releasing
    | Queued(at: nat, attempts: nat)
    | Active(deadline: nat, attempts: nat)
    | Complete(outcome: Outcome)

  /** What the client says: not yet, a body that is or is not this writer's record, or an error. */
  datatype Reply = WouldBlock | Body(matches: bool) | Failed(retryable: bool)

  datatype Probe = Probe(phase: Phase, generation: nat, consumers: nat, owners: seq<bool>, fenced: bool, draining: bool)

  datatype Requested = Granted(ticket: Ticket) | Later | TooManyOwners | AlreadyOwner | Exhausted

  /** What happened, in order: a ticket was issued, a GET was sent at some instant, the client was asked
      for its result and said something, the probe was fenced, a generation completed, and a ticket was
      answered. */
  datatype Event =
    | Issued(ticket: Ticket)
    | Got(generation: nat, at: nat)
    | Heard(generation: nat, at: nat, reply: Reply)
    | Fenced
    | Completed(generation: nat, outcome: Outcome)
    | Answered(ticket: Ticket, outcome: Outcome)

  // ---------------------------------------------------------------- the operations

  function AfterRequest(p: Probe, owner: nat, now: nat): (Requested, Probe)
  {
    if owner >= |p.owners| then (TooManyOwners, p)
    else if p.owners[owner] then (AlreadyOwner, p)
    else if p.draining || p.phase.Complete? || p.phase.Releasing? then (Later, p)
    else if p.phase.Idle? && p.generation >= LAST_GENERATION then (Exhausted, p)
    else
      var q := if p.phase.Idle? then p.(generation := p.generation + 1, phase := Queued(now, 0)) else p;
      (Granted(Ticket(q.generation, owner)),
       q.(consumers := q.consumers + 1, owners := q.owners[owner := true]))
  }

  /** The assertion that a receipt belongs to its retained request. */
  predicate Accepts(p: Probe, t: Ticket)
  {
    t.generation == p.generation && t.owner < |p.owners| && p.owners[t.owner] && p.consumers != 0
  }

  function AfterRelease(p: Probe, owner: nat): Probe
    requires owner < |p.owners| && p.consumers != 0
  {
    var q := p.(owners := p.owners[owner := false], consumers := p.consumers - 1);
    if q.consumers == 0 then q.(phase := Releasing) else q
  }

  function AfterTake(p: Probe, t: Ticket): (bool, Probe)
    requires Accepts(p, t)
  {
    if p.phase.Complete? then (true, AfterRelease(p, t.owner)) else (false, p)
  }

  /** Whether this turn starts a GET. */
  predicate Issues(p: Probe, now: nat)
  {
    !p.fenced && p.phase.Queued? && p.phase.at <= now
  }

  /** Whether this turn asks the client. */
  predicate Polls(p: Probe, now: nat)
  {
    !p.fenced && (p.phase.Active? || (p.phase.Queued? && p.phase.at <= now))
  }

  function Delay(attempts: nat): nat { if attempts == 0 then 100 else 2 * Delay(attempts - 1) }

  /** The outcome of one GET or poll after `attempts` GETs. */
  function Settle(p: Probe, now: nat, attempts: nat, reply: Reply): Probe
  {
    match reply
    case WouldBlock => p
    case Body(true) => p.(phase := Complete(Owned))
    case Body(false) => p.(phase := Complete(FencedOut), fenced := true)
    case Failed(retryable) =>
      if retryable && attempts < ATTEMPTS then p.(phase := Queued(now + Delay(attempts), attempts))
      else p.(phase := Complete(Unverified))
  }

  function AfterAdvance(p: Probe, now: nat, reply: Reply): Probe
  {
    match p.phase
    case Releasing => p.(phase := Idle)
    case Idle => p
    case Complete(_) => p
    case Queued(at, attempts) =>
      if p.fenced then p.(phase := Complete(FencedOut))
      else if at > now then p
      else Settle(p.(phase := Active(now + REQUEST_TIMEOUT, attempts + 1)), now, attempts + 1, reply)
    case Active(deadline, attempts) =>
      if p.fenced then p.(phase := Complete(FencedOut))
      else Settle(p, now, attempts, if deadline <= now then Failed(true) else reply)
  }

  // ---------------------------------------------------------------- runs

  datatype Op =
    | DoRequest(owner: nat, now: nat)
    | DoTake(ticket: Ticket)
    | DoCancel(ticket: Ticket)
    | DoAdvance(now: nat, reply: Reply)
    | DoFence
    | DoAdmission(draining: bool)

  /** The probe with its history: the tickets held, where each was issued, where the current
      completion happened. */
  datatype World = World(p: Probe, log: seq<Event>, held: map<Ticket, nat>, completedAt: nat)

  function AdvanceEvents(p: Probe, now: nat, reply: Reply): seq<Event>
  {
    var q := AfterAdvance(p, now, reply);
    (if Issues(p, now) then [Got(p.generation, now)] else [])
    + (if Polls(p, now) then [Heard(p.generation, now, reply)] else [])
    + (if q.fenced && !p.fenced then [Fenced] else [])
    + (if q.phase.Complete? && !p.phase.Complete? then [Completed(p.generation, q.phase.outcome)] else [])
  }

  function Apply(w: World, op: Op): World
  {
    match op
    case DoRequest(owner, now) =>
      var (r, p) := AfterRequest(w.p, owner, now);
      if r.Granted? then w.(p := p, log := w.log + [Issued(r.ticket)], held := w.held[r.ticket := |w.log|])
      else w.(p := p)
    case DoTake(t) =>
      if t !in w.held || !Accepts(w.p, t) then w
      else
        var (done, p) := AfterTake(w.p, t);
        if done then w.(p := p, log := w.log + [Answered(t, w.p.phase.outcome)], held := w.held - {t})
        else w
    case DoCancel(t) =>
      if t !in w.held || !Accepts(w.p, t) then w
      else w.(p := AfterRelease(w.p, t.owner), held := w.held - {t})
    case DoAdvance(now, reply) =>
      var p := AfterAdvance(w.p, now, reply);
      var log := w.log + AdvanceEvents(w.p, now, reply);
      var completed := p.phase.Complete? && !w.p.phase.Complete?;
      w.(p := p, log := log, completedAt := if completed then |log| - 1 else w.completedAt)
    case DoFence =>
      w.(p := w.p.(fenced := true), log := if w.p.fenced then w.log else w.log + [Fenced])
    case DoAdmission(draining) => w.(p := w.p.(draining := draining))
  }

  function Run(w: World, ops: seq<Op>): World
    decreases |ops|
  {
    if ops == [] then w else Run(Apply(w, ops[0]), ops[1..])
  }

  function Fresh(slots: nat): World
  {
    World(Probe(Idle, 0, 0, seq(slots, _ => false), false, false), [], map[], 0)
  }

  // ---------------------------------------------------------------- invariant

  function Held(owners: seq<bool>): nat
  {
    if owners == [] then 0 else (if owners[0] then 1 else 0) + Held(owners[1..])
  }

  predicate Working(p: Probe) { p.phase.Queued? || p.phase.Active? || p.phase.Complete? }

  /** The consumer count is the number of owning slots, positive exactly while a probe is shared. */
  predicate CountOk(p: Probe)
  {
    && p.consumers == Held(p.owners) && (p.consumers > 0 <==> Working(p))
    && (p.phase.Queued? ==> p.phase.attempts < ATTEMPTS)
    && (p.phase.Active? ==> 0 < p.phase.attempts <= ATTEMPTS)
    && p.generation <= LAST_GENERATION && (Working(p) ==> p.generation > 0)
  }

  /** Held tickets are exactly the owning slots, all of the current generation. */
  ghost predicate TicketsOk(w: World)
  {
    && (forall t {:trigger t in w.held} :: t in w.held ==>
          && t.generation == w.p.generation && t.owner < |w.p.owners| && w.p.owners[t.owner]
          && w.held[t] < |w.log| && w.log[w.held[t]] == Issued(t))
    && (forall i {:trigger w.p.owners[i]} :: 0 <= i < |w.p.owners| && w.p.owners[i] ==>
          Ticket(w.p.generation, i) in w.held)
  }

  /** A completion that can be taken happened after every held ticket was issued. */
  ghost predicate CompletionOk(w: World)
  {
    w.p.phase.Complete? ==>
      && w.completedAt < |w.log| && w.log[w.completedAt] == Completed(w.p.generation, w.p.phase.outcome)
      && forall t {:trigger w.held[t]} :: t in w.held ==> w.held[t] < w.completedAt
  }

  function Gets(log: seq<Event>, generation: nat): nat
  {
    if log == [] then 0
    else
      var e := log[|log| - 1];
      (if e.Got? && e.generation == generation then 1 else 0) + Gets(log[..|log| - 1], generation)
  }

  function Attempts(p: Probe): nat
  {
    match p.phase
    case Queued(_, attempts) => attempts
    case Active(_, attempts) => attempts
    case _ => ATTEMPTS
  }

  ghost predicate GetsOk(w: World)
  {
    forall g: nat {:trigger Gets(w.log, g)} ::
      Gets(w.log, g) <= if g < w.p.generation then ATTEMPTS else if g == w.p.generation then Attempts(w.p) else 0
  }

  /** An answer repeats a completion of its generation that came after the ticket was issued. */
  ghost predicate Justified(log: seq<Event>, k: nat)
    requires k < |log| && log[k].Answered?
  {
    exists i, c :: 0 <= i < c < k && log[i] == Issued(log[k].ticket)
      && log[c] == Completed(log[k].ticket.generation, log[k].outcome)
  }

  ghost predicate AnswersOk(log: seq<Event>)
  {
    forall k {:trigger log[k]} :: 0 <= k < |log| && log[k].Answered? ==> Justified(log, k)
  }

  /** Once fenced: no further GET, and the client is not asked. */
  ghost predicate Quiet(log: seq<Event>, from: nat)
  {
    forall k {:trigger log[k]} :: from <= k < |log| ==> !log[k].Got? && !log[k].Heard?
  }

  /** A generation completes as fenced out exactly when the fence came before its completion. */
  ghost predicate OrderOk(log: seq<Event>)
  {
    forall c {:trigger log[c]} :: 0 <= c < |log| && log[c].Completed? ==>
      (log[c].outcome == FencedOut <==> Fenced in log[..c])
  }

  /** No generation completes twice, and the current one not before it has been asked. */
  ghost predicate OnceOk(p: Probe, log: seq<Event>)
  {
    && (forall c {:trigger log[c]} :: 0 <= c < |log| && log[c].Completed? ==>
          log[c].generation <= p.generation
            && (log[c].generation == p.generation ==> !p.phase.Queued? && !p.phase.Active?))
    && (forall c, d {:trigger log[c], log[d]} :: 0 <= c < d < |log| && log[c].Completed? && log[d].Completed? ==>
          log[c].generation != log[d].generation)
  }

  ghost predicate FencesOk(w: World)
  {
    && (w.p.fenced <==> Fenced in w.log)
    && (forall k {:trigger w.log[k]} :: 0 <= k < |w.log| && w.log[k] == Fenced ==> Quiet(w.log, k))
    && OrderOk(w.log)
  }

  ghost predicate Inv(w: World)
  {
    CountOk(w.p) && TicketsOk(w) && CompletionOk(w) && GetsOk(w) && AnswersOk(w.log) && FencesOk(w)
  }

  // ---------------------------------------------------------------- every step keeps it

  lemma {:induction false} HeldUpdate(owners: seq<bool>, i: nat, value: bool)
    requires i < |owners|
    ensures Held(owners[i := value]) == Held(owners) - (if owners[i] then 1 else 0) + (if value then 1 else 0)
  {
    if i > 0 {
      HeldUpdate(owners[1..], i - 1, value);
      assert owners[i := value][1..] == owners[1..][i - 1 := value];
    } else {
      assert owners[i := value][1..] == owners[1..];
    }
  }

  lemma {:induction false} HeldPositive(owners: seq<bool>, i: nat)
    requires i < |owners| && owners[i]
    ensures Held(owners) > 0
  {
    if i > 0 { HeldPositive(owners[1..], i - 1); }
  }

  lemma GetsAppend(log: seq<Event>, e: Event, g: nat)
    ensures Gets(log + [e], g) == Gets(log, g) + (if e.Got? && e.generation == g then 1 else 0)
  {
    assert (log + [e])[..|log|] == log;
  }

  /** Appending an event that is no answer keeps the answers, and quiet periods stay quiet unless the
      event breaks them. */
  lemma AppendKeeps(log: seq<Event>, e: Event)
    requires AnswersOk(log) && (e.Answered? ==> Justified(log + [e], |log|))
    requires forall k {:trigger log[k]} :: 0 <= k < |log| && log[k] == Fenced ==> Quiet(log, k)
    requires OrderOk(log) && (e.Completed? ==> (e.outcome == FencedOut <==> Fenced in log))
    requires e.Got? || e.Heard? ==> Fenced !in log
    ensures AnswersOk(log + [e]) && OrderOk(log + [e])
    ensures forall k {:trigger (log + [e])[k]} :: 0 <= k < |log| + 1 && (log + [e])[k] == Fenced ==> Quiet(log + [e], k)
  {
    var l := log + [e];
    forall k | 0 <= k < |l| && l[k].Answered? ensures Justified(l, k) {
      if k < |log| {
        assert Justified(log, k);
        var i, c :| 0 <= i < c < k && log[i] == Issued(log[k].ticket)
          && log[c] == Completed(log[k].ticket.generation, log[k].outcome);
        assert l[i] == log[i] && l[c] == log[c] && l[k] == log[k];
      }
    }
    forall k | 0 <= k < |l| && l[k] == Fenced ensures Quiet(l, k) {
      if k < |log| { assert log[k] == Fenced && Quiet(log, k); }
    }
    forall c | 0 <= c < |l| && l[c].Completed? ensures l[c].outcome == FencedOut <==> Fenced in l[..c] {
      if c < |log| { assert l[c] == log[c] && l[..c] == log[..c]; } else { assert l[..c] == log; }
    }
  }

  lemma RequestKeeps(w: World, owner: nat, now: nat)
    requires Inv(w)
    ensures Inv(Apply(w, DoRequest(owner, now)))
  {
    var (r, p) := AfterRequest(w.p, owner, now);
    if r.Granted? {
      var e, v := Issued(r.ticket), Apply(w, DoRequest(owner, now));
      HeldUpdate(w.p.owners, owner, true);
      assert CountOk(p);
      AppendKeeps(w.log, e);
      forall g: nat
        ensures Gets(v.log, g) <= if g < p.generation then ATTEMPTS else if g == p.generation then Attempts(p) else 0
      {
        GetsAppend(w.log, e, g);
      }
      IdleHoldsNothing(w);
      assert TicketsOk(v);
    }
  }

  lemma IdleHoldsNothing(w: World)
    requires CountOk(w.p) && TicketsOk(w)
    ensures !Working(w.p) ==> w.held == map[]
  {
    if t :| t in w.held {
      HeldPositive(w.p.owners, t.owner);
    }
  }

  lemma ReleaseKeeps(w: World, t: Ticket, log: seq<Event>)
    requires Inv(w) && t in w.held && w.log <= log
    requires forall g :: Gets(log, g) == Gets(w.log, g)
    requires AnswersOk(log) && FencesOk(w.(log := log))
    ensures Accepts(w.p, t)
    ensures Inv(w.(p := AfterRelease(w.p, t.owner), held := w.held - {t}, log := log))
  {
    HeldPositive(w.p.owners, t.owner);
    HeldUpdate(w.p.owners, t.owner, false);
    var v := w.(p := AfterRelease(w.p, t.owner), held := w.held - {t}, log := log);
    assert CountOk(v.p);
    assert TicketsOk(v);
  }

  lemma CancelKeeps(w: World, t: Ticket)
    requires Inv(w)
    ensures Inv(Apply(w, DoCancel(t)))
  {
    if t in w.held {
      ReleaseKeeps(w, t, w.log);
    }
  }

  lemma TakeKeeps(w: World, t: Ticket)
    requires Inv(w)
    ensures Inv(Apply(w, DoTake(t)))
  {
    if t in w.held && w.p.phase.Complete? {
      var e := Answered(t, w.p.phase.outcome);
      var log := w.log + [e];
      assert Justified(log, |w.log|) by {
        assert log[w.held[t]] == Issued(t) && log[w.completedAt] == Completed(t.generation, e.outcome);
      }
      AppendKeeps(w.log, e);
      forall g ensures Gets(log, g) == Gets(w.log, g) { GetsAppend(w.log, e, g); }
      ReleaseKeeps(w, t, log);
    }
  }

  lemma FenceKeeps(w: World)
    requires Inv(w)
    ensures Inv(Apply(w, DoFence))
  {
    if !w.p.fenced {
      AppendKeeps(w.log, Fenced);
      forall g: nat ensures Gets(w.log + [Fenced], g) == Gets(w.log, g) { GetsAppend(w.log, Fenced, g); }
    }
  }

  /** The log after one more event, with what later proofs need of it. */
  ghost predicate Extends(w: World, log: seq<Event>, got: bool, fenced: bool)
  {
    && w.log <= log && AnswersOk(log)
    && (fenced <==> Fenced in log)
    && (forall k {:trigger log[k]} :: 0 <= k < |log| && log[k] == Fenced ==> Quiet(log, k))
    && OrderOk(log)
    && (forall g: nat {:trigger Gets(log, g)} ::
          Gets(log, g) == Gets(w.log, g) + (if got && g == w.p.generation then 1 else 0))
  }

  lemma ExtendBy(w: World, log: seq<Event>, e: Event, got: bool, fenced: bool)
    requires Extends(w, log, got, fenced) && !e.Answered?
    requires (e.Got? || e.Heard? ==> !fenced) && (e.Completed? ==> (e.outcome == FencedOut <==> fenced))
    requires e.Got? ==> !got && e.generation == w.p.generation
    ensures Extends(w, log + [e], got || e.Got?, fenced || e == Fenced)
  {
    AppendKeeps(log, e);
    forall g: nat
      ensures Gets(log + [e], g) == Gets(w.log, g) + (if (got || e.Got?) && g == w.p.generation then 1 else 0)
    {
      GetsAppend(log, e, g);
    }
  }

  lemma ExtendMaybe(w: World, log: seq<Event>, happens: bool, e: Event, got: bool, fenced: bool)
    requires Extends(w, log, got, fenced) && !e.Answered?
    requires happens ==> (e.Got? || e.Heard? ==> !fenced) && (e.Completed? ==> (e.outcome == FencedOut <==> fenced))
    requires happens && e.Got? ==> !got && e.generation == w.p.generation
    ensures Extends(w, log + (if happens then [e] else []), got || (happens && e.Got?),
                    fenced || (happens && e == Fenced))
  {
    hide Extends;
    if happens {
      ExtendBy(w, log, e, got, fenced);
    } else {
      assert log + [] == log;
    }
  }

  lemma ExtendsHere(w: World)
    requires Inv(w)
    ensures Extends(w, w.log, false, w.p.fenced)
  {
  }

  lemma AdvanceLog(w: World, now: nat, reply: Reply)
    requires Inv(w)
    ensures Extends(w, w.log + AdvanceEvents(w.p, now, reply), Issues(w.p, now), AfterAdvance(w.p, now, reply).fenced)
  {
    hide Inv, Extends, Delay;
    ExtendsHere(w);
    var q := AfterAdvance(w.p, now, reply);
    var fences, completes := q.fenced && !w.p.fenced, q.phase.Complete? && !w.p.phase.Complete?;
    var one := w.log + (if Issues(w.p, now) then [Got(w.p.generation, now)] else []);
    var heard := one + (if Polls(w.p, now) then [Heard(w.p.generation, now, reply)] else []);
    var two := heard + (if fences then [Fenced] else []);
    var outcome := if q.phase.Complete? then q.phase.outcome else Unverified;
    var three := two + (if completes then [Completed(w.p.generation, outcome)] else []);
    assert w.log + AdvanceEvents(w.p, now, reply) == three;
    ExtendMaybe(w, w.log, Issues(w.p, now), Got(w.p.generation, now), false, w.p.fenced);
    ExtendMaybe(w, one, Polls(w.p, now), Heard(w.p.generation, now, reply), Issues(w.p, now), w.p.fenced);
    ExtendMaybe(w, heard, fences, Fenced, Issues(w.p, now), w.p.fenced);
    ExtendMaybe(w, two, completes, Completed(w.p.generation, outcome), Issues(w.p, now), q.fenced);
  }

  lemma AdvanceProbe(p: Probe, now: nat, reply: Reply)
    requires CountOk(p)
    ensures var q := AfterAdvance(p, now, reply);
      && CountOk(q) && q.owners == p.owners && q.generation == p.generation && (p.fenced ==> q.fenced)
      && (q.phase.Complete? && !p.phase.Complete? ==> Working(p))
      && Attempts(q) >= Attempts(p) + (if Issues(p, now) then 1 else 0)
  {
  }

  lemma TicketsKept(w: World, v: World)
    requires TicketsOk(w) && w.log <= v.log && v.held == w.held
    requires v.p.owners == w.p.owners && v.p.generation == w.p.generation
    ensures TicketsOk(v)
  {
  }

  lemma CompletionKept(w: World, v: World)
    requires CompletionOk(w) && TicketsOk(w) && w.log <= v.log && v.held == w.held && v.p.generation == w.p.generation
    requires w.p.phase.Complete? ==> v.p.phase == w.p.phase && v.completedAt == w.completedAt
    requires v.p.phase.Complete? && !w.p.phase.Complete? ==>
      |w.log| < |v.log| && v.completedAt == |v.log| - 1
        && v.log[v.completedAt] == Completed(v.p.generation, v.p.phase.outcome)
    ensures CompletionOk(v)
  {
  }

  lemma AdvanceEventsEnd(w: World, now: nat, reply: Reply)
    ensures var v := Apply(w, DoAdvance(now, reply));
      && (w.p.phase.Complete? ==> v.p.phase == w.p.phase && v.completedAt == w.completedAt)
      && (v.p.phase.Complete? && !w.p.phase.Complete? ==>
            |w.log| < |v.log| && v.completedAt == |v.log| - 1
              && v.log[v.completedAt] == Completed(w.p.generation, v.p.phase.outcome))
  {
  }

  lemma AdvanceKeeps(w: World, now: nat, reply: Reply)
    requires Inv(w)
    ensures Inv(Apply(w, DoAdvance(now, reply)))
  {
    hide AfterAdvance, AdvanceEvents, TicketsOk, CompletionOk, AnswersOk, Justified, Quiet, CountOk, Attempts;
    var v := Apply(w, DoAdvance(now, reply));
    AdvanceLog(w, now, reply);
    AdvanceProbe(w.p, now, reply);
    TicketsKept(w, v);
    AdvanceEventsEnd(w, now, reply);
    CompletionKept(w, v);
    assert GetsOk(v);
  }

  lemma ApplyKeeps(w: World, op: Op)
    requires Inv(w)
    ensures Inv(Apply(w, op))
  {
    match op
    case DoRequest(owner, now) => RequestKeeps(w, owner, now);
    case DoTake(t) => TakeKeeps(w, t);
    case DoCancel(t) => CancelKeeps(w, t);
    case DoAdvance(now, reply) => AdvanceKeeps(w, now, reply);
    case DoFence => FenceKeeps(w);
    case DoAdmission(draining) =>
  }

  lemma {:induction false} RunKeeps(w: World, ops: seq<Op>)
    requires Inv(w)
    ensures Inv(Run(w, ops))
    decreases |ops|
  {
    hide Inv, Apply;
    if ops != [] {
      ApplyKeeps(w, ops[0]);
      RunKeeps(Apply(w, ops[0]), ops[1..]);
    }
  }

  // ---------------------------------------------------------------- completions and the fence

  lemma OnceAppends(p: Probe, q: Probe, log: seq<Event>, e: Event)
    requires OnceOk(p, log) && p.generation <= q.generation
    requires p.generation == q.generation && (q.phase.Queued? || q.phase.Active?) ==> p.phase.Queued? || p.phase.Active?
    requires e.Completed? ==> e.generation == p.generation == q.generation && (p.phase.Queued? || p.phase.Active?)
    requires e.Completed? ==> q.phase.Complete?
    ensures OnceOk(q, log + [e])
  {
    var l := log + [e];
    forall c | 0 <= c < |l| && l[c].Completed?
      ensures l[c].generation <= q.generation
        && (l[c].generation == q.generation ==> !q.phase.Queued? && !q.phase.Active?)
    {
      if c < |log| { assert l[c] == log[c]; }
    }
    forall c, d | 0 <= c < d < |l| && l[c].Completed? && l[d].Completed? ensures l[c].generation != l[d].generation {
      assert l[c] == log[c];
      if d < |log| { assert l[d] == log[d]; }
    }
  }

  lemma OnceMoves(p: Probe, q: Probe, log: seq<Event>)
    requires OnceOk(p, log) && p.generation <= q.generation
    requires p.generation == q.generation && (q.phase.Queued? || q.phase.Active?) ==> p.phase.Queued? || p.phase.Active?
    ensures OnceOk(q, log)
  {
  }

  lemma AdvanceOnce(w: World, now: nat, reply: Reply)
    requires OnceOk(w.p, w.log)
    ensures OnceOk(AfterAdvance(w.p, now, reply), w.log + AdvanceEvents(w.p, now, reply))
  {
    hide OnceOk;
    var p, q := w.p, AfterAdvance(w.p, now, reply);
    var one := w.log + (if Issues(p, now) then [Got(p.generation, now)] else []);
    var heard := one + (if Polls(p, now) then [Heard(p.generation, now, reply)] else []);
    var two := heard + (if q.fenced && !p.fenced then [Fenced] else []);
    if Issues(p, now) { OnceAppends(p, p, w.log, Got(p.generation, now)); } else { assert one == w.log; }
    if Polls(p, now) { OnceAppends(p, p, one, Heard(p.generation, now, reply)); } else { assert heard == one; }
    if q.fenced && !p.fenced { OnceAppends(p, p, heard, Fenced); } else { assert two == heard; }
    if q.phase.Complete? && !p.phase.Complete? {
      var e := Completed(p.generation, q.phase.outcome);
      assert w.log + AdvanceEvents(p, now, reply) == two + [e];
      OnceAppends(p, q, two, e);
    } else {
      assert w.log + AdvanceEvents(p, now, reply) == two;
      OnceMoves(p, q, two);
    }
  }

  lemma ApplyOnce(w: World, op: Op)
    requires OnceOk(w.p, w.log)
    ensures OnceOk(Apply(w, op).p, Apply(w, op).log)
  {
    hide OnceOk;
    var v := Apply(w, op);
    if op.DoAdvance? {
      AdvanceOnce(w, op.now, op.reply);
    } else if v.log != w.log {
      OnceAppends(w.p, v.p, w.log, v.log[|w.log|]);
      assert v.log == w.log + [v.log[|w.log|]];
    } else {
      OnceMoves(w.p, v.p, w.log);
    }
  }

  lemma {:induction false} RunOnce(w: World, ops: seq<Op>)
    requires OnceOk(w.p, w.log)
    ensures OnceOk(Run(w, ops).p, Run(w, ops).log)
    decreases |ops|
  {
    hide OnceOk, Apply;
    if ops != [] {
      ApplyOnce(w, ops[0]);
      RunOnce(Apply(w, ops[0]), ops[1..]);
    }
  }

  /** Every answer repeats the one completion of its generation. It reports the fence if and only if
      the fence came before that completion: a result completed earlier is still given out as it is. */
  lemma AnswerKnowsFence(slots: nat, ops: seq<Op>, k: nat) returns (c: nat)
    requires var log := Run(Fresh(slots), ops).log; k < |log| && log[k].Answered?
    ensures var log := Run(Fresh(slots), ops).log; var g := log[k].ticket.generation;
      && c < k && log[c] == Completed(g, log[k].outcome)
      && (forall d :: 0 <= d < |log| && log[d].Completed? && log[d].generation == g ==> d == c)
      && (log[k].outcome == FencedOut <==> Fenced in log[..c])
  {
    FreshOk(slots);
    RunKeeps(Fresh(slots), ops);
    RunOnce(Fresh(slots), ops);
    var log := Run(Fresh(slots), ops).log;
    hide Run;
    assert Justified(log, k);
    var i, d :| 0 <= i < d < k && log[i] == Issued(log[k].ticket)
      && log[d] == Completed(log[k].ticket.generation, log[k].outcome);
    c := d;
  }

  // ---------------------------------------------------------------- what every run promises

  lemma FreshOk(slots: nat)
    ensures Inv(Fresh(slots))
  {
    NoneHeld(seq(slots, _ => false));
  }

  lemma {:induction false} NoneHeld(owners: seq<bool>)
    requires forall i :: 0 <= i < |owners| ==> !owners[i]
    ensures Held(owners) == 0
  {
    if owners != [] { NoneHeld(owners[1..]); }
  }

  /** No answer is older than its ticket; no GET follows a fence and no completion after it finds the
      writer in possession; no generation issues more than three GETs; and every held ticket passes
      the receipt assertion. */
  lemma RunPromises(slots: nat, ops: seq<Op>)
    ensures var w := Run(Fresh(slots), ops);
      && AnswersOk(w.log)
      && (forall k {:trigger w.log[k]} :: 0 <= k < |w.log| && w.log[k] == Fenced ==> Quiet(w.log, k))
      && OrderOk(w.log)
      && (forall g: nat :: Gets(w.log, g) <= ATTEMPTS)
      && (forall t :: t in w.held ==> Accepts(w.p, t))
      && w.p.consumers == Held(w.p.owners) && (w.p.consumers > 0 <==> Working(w.p))
  {
    FreshOk(slots);
    RunKeeps(Fresh(slots), ops);
    var w := Run(Fresh(slots), ops);
    hide Run;
    forall t | t in w.held ensures Accepts(w.p, t) {
      HeldPositive(w.p.owners, t.owner);
    }
  }

  /** Only another writer's record or an explicit fence fences; in particular no transport error. */
  lemma FencedOnlyByRecord(w: World, op: Op)
    requires !w.p.fenced && Apply(w, op).p.fenced
    ensures op.DoFence? || (op.DoAdvance? && op.reply == Body(false))
  {
  }

  // ---------------------------------------------------------------- progress

  /** What `deadline()` asks the reactor to wait for. */
  predicate Due(p: Probe, now: nat)
  {
    match p.phase
    case Releasing => true
    case Queued(at, _) => at <= now
    case Active(deadline, _) => deadline <= now
    case _ => false
  }

  function Rank(p: Probe): nat
  {
    match p.phase
    case Queued(_, attempts) => if attempts < ATTEMPTS then 2 * (ATTEMPTS - attempts) else 0
    case Active(_, attempts) => if attempts <= ATTEMPTS then 2 * (ATTEMPTS - attempts) + 1 else 0
    case _ => 0
  }

  lemma DueAdvances(p: Probe, now: nat, reply: Reply)
    requires CountOk(p) && Working(p) && !p.phase.Complete? && Due(p, now)
    ensures AfterAdvance(p, now, reply).phase.Complete? || Rank(AfterAdvance(p, now, reply)) < Rank(p)
  {
  }

  /** The turns of a probe that is advanced whenever it is due, whatever the client replies. */
  function Turns(p: Probe, turns: seq<(nat, Reply)>): Probe
    decreases |turns|
  {
    if turns == [] then p else Turns(AfterAdvance(p, turns[0].0, turns[0].1), turns[1..])
  }

  predicate AllDue(p: Probe, turns: seq<(nat, Reply)>)
    decreases |turns|
  {
    turns != [] ==>
      (p.phase.Complete? || Due(p, turns[0].0)) && AllDue(AfterAdvance(p, turns[0].0, turns[0].1), turns[1..])
  }

  /** Six deadline-driven turns complete any shared probe. */
  lemma {:induction false} CompletesWhenDue(p: Probe, turns: seq<(nat, Reply)>)
    requires CountOk(p) && Working(p) && AllDue(p, turns)
    requires p.phase.Complete? || |turns| >= Rank(p)
    ensures Turns(p, turns).phase.Complete?
    decreases |turns|
  {
    if turns != [] {
      var q := AfterAdvance(p, turns[0].0, turns[0].1);
      AdvanceProbe(p, turns[0].0, turns[0].1);
      if !p.phase.Complete? { DueAdvances(p, turns[0].0, turns[0].1); }
      CompletesWhenDue(q, turns[1..]);
    }
  }

  lemma RankBound(p: Probe)
    requires CountOk(p)
    ensures Rank(p) <= 2 * ATTEMPTS
  {
  }

  // ---------------------------------------------------------------- the probe in place

  class WriterProbe {
    var phase: Phase
    var generation: nat
    var consumers: nat
    var owners: seq<bool>
    var fenced: bool
    var draining: bool
    /** The same probe with its history. */
    ghost var world: World

    ghost predicate Valid()
      reads this
    {
      world.p == Probe(phase, generation, consumers, owners, fenced, draining) && Inv(world)
    }

    constructor (slots: nat)
      ensures Valid() && world == Fresh(slots)
    {
      phase, generation, consumers := Idle, 0, 0;
      owners, fenced, draining := seq(slots, _ => false), false, false;
      world := Fresh(slots);
      new;
      FreshOk(slots);
    }

    method Request(owner: nat, now: nat) returns (r: Requested)
      requires Valid()
      modifies this
      ensures Valid() && world == Apply(old(world), DoRequest(owner, now))
      ensures r == AfterRequest(old(world.p), owner, now).0
    {
      hide Inv;
      RequestKeeps(world, owner, now);
      world := Apply(world, DoRequest(owner, now));
      if owner >= |owners| {
        return TooManyOwners;
      }
      if owners[owner] {
        return AlreadyOwner;
      }
      if draining {
        return Later;
      }
      if phase.Complete? || phase.Releasing? {
        return Later;
      }
      if phase.Idle? {
        if generation >= LAST_GENERATION {
          return Exhausted;
        }
        generation := generation + 1;
        phase := Queued(now, 0);
      }
      consumers := consumers + 1;
      owners := owners[owner := true];
      return Granted(Ticket(generation, owner));
    }

    /** The receipt assertion holds for every held ticket, so it is not a precondition. */
    method Take(t: Ticket) returns (r: seq<Outcome>)
      requires Valid() && t in world.held
      modifies this
      ensures Valid() && world == Apply(old(world), DoTake(t))
      ensures r == if old(phase).Complete? then [old(phase).outcome] else []
    {
      hide Inv;
      TakeKeeps(world, t);
      HeldAccepted(world, t);
      assert Accepts(world.p, t);
      world := Apply(world, DoTake(t));
      if !phase.Complete? {
        return [];
      }
      r := [phase.outcome];
      ReleaseOwner(t.owner);
    }

    method Cancel(t: Ticket)
      requires Valid() && t in world.held
      modifies this
      ensures Valid() && world == Apply(old(world), DoCancel(t))
    {
      hide Inv;
      CancelKeeps(world, t);
      HeldAccepted(world, t);
      world := Apply(world, DoCancel(t));
      ReleaseOwner(t.owner);
    }

    method ReleaseOwner(owner: nat)
      requires owner < |owners| && consumers != 0
      modifies this`owners, this`consumers, this`phase
      ensures Probe(phase, generation, consumers, owners, fenced, draining)
           == AfterRelease(old(Probe(phase, generation, consumers, owners, fenced, draining)), owner)
    {
      owners := owners[owner := false];
      consumers := consumers - 1;
      if consumers == 0 {
        phase := Releasing;
      }
    }

    method Advance(now: nat, reply: Reply)
      requires Valid()
      modifies this
      ensures Valid() && world == Apply(old(world), DoAdvance(now, reply))
    {
      hide Inv, Issues;
      AdvanceKeeps(world, now, reply);
      world := Apply(world, DoAdvance(now, reply));
      if phase.Releasing? {
        phase := Idle;
        return;
      }
      if phase.Idle? || phase.Complete? {
        return;
      }
      if fenced {
        phase := Complete(FencedOut);
        return;
      }
      var attempts, result := 0, reply;
      if phase.Queued? && phase.at <= now {
        attempts := phase.attempts + 1;
        phase := Active(now + REQUEST_TIMEOUT, attempts);
      } else if phase.Active? {
        attempts := phase.attempts;
        if phase.deadline <= now {
          result := Failed(true);
        }
      } else {
        return;
      }
      match result
      case WouldBlock =>
      case Body(matches) =>
        if matches {
          phase := Complete(Owned);
        } else {
          fenced := true;
          phase := Complete(FencedOut);
        }
      case Failed(retryable) =>
        if retryable && attempts < ATTEMPTS {
          phase := Queued(now + Delay(attempts), attempts);
        } else {
          phase := Complete(Unverified);
        }
    }

    method Fence()
      requires Valid()
      modifies this
      ensures Valid() && world == Apply(old(world), DoFence)
    {
      hide Inv;
      FenceKeeps(world);
      world := Apply(world, DoFence);
      fenced := true;
    }
  }

  lemma HeldAccepted(w: World, t: Ticket)
    requires Inv(w) && t in w.held
    ensures Accepts(w.p, t)
  {
    HeldPositive(w.p.owners, t.owner);
  }
}
