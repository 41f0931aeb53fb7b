/** What the history of the writer probe means: which reply an answer stands for, and when the next GET
    is sent. */
module ProbeHistory {
  import opened Options
  import opened Words
  import opened WriterProbes

  // ---------------------------------------------------------------- reading the history

  /** When the last GET of the generation was sent, and when the client was last asked about it. */
  function LastGot(log: seq<Event>, g: nat): Option<nat>
  {
    if log == [] then None
    else
      var e := log[|log| - 1];
      if e.Got? && e.generation == g then Some(e.at) else LastGot(log[..|log| - 1], g)
  }

  function LastHeard(log: seq<Event>, g: nat): Option<nat>
  {
    if log == [] then None
    else
      var e := log[|log| - 1];
      if e.Heard? && e.generation == g then Some(e.at) else LastHeard(log[..|log| - 1], g)
  }

  lemma LastAppends(log: seq<Event>, e: Event, g: nat)
    ensures LastGot(log + [e], g) == if e.Got? && e.generation == g then Some(e.at) else LastGot(log, g)
    ensures LastHeard(log + [e], g) == if e.Heard? && e.generation == g then Some(e.at) else LastHeard(log, g)
  {
    assert (log + [e])[..|log|] == log;
  }

  /** The client was asked within thirty seconds of the last GET. */
  predicate Timely(log: seq<Event>, k: nat)
    requires k < |log| && log[k].Heard?
  {
    var got := LastGot(log[..k], log[k].generation);
    got.Some? && log[k].at < got.value + 30_000
  }

  /** The reply was an error, or came too late. */
  predicate Fails(log: seq<Event>, k: nat)
    requires k < |log| && log[k].Heard?
  {
    !Timely(log, k) || log[k].reply.Failed?
  }

  /** No further GET is worth it: the error is not transient, or the three attempts are used up. */
  predicate Final(log: seq<Event>, k: nat)
    requires k < |log| && log[k].Heard?
  {
    || (Timely(log, k) && log[k].reply == Failed(false))
    || Gets(log[..k], log[k].generation) >= 3
  }

  /** A decisive reply completes its generation at once, as what it says. */
  ghost predicate Decides(log: seq<Event>, k: nat)
    requires k < |log| && log[k].Heard?
  {
    var (g, reply) := (log[k].generation, log[k].reply);
    && (Timely(log, k) && reply == Body(true) ==> k + 1 < |log| && log[k + 1] == Completed(g, Owned))
    && (Timely(log, k) && reply == Body(false) ==>
          k + 2 < |log| && log[k + 1] == Fenced && log[k + 2] == Completed(g, FencedOut))
    && (Fails(log, k) && Final(log, k) ==> k + 1 < |log| && log[k + 1] == Completed(g, Unverified))
  }

  /** A generation that completes unfenced was decided by the reply just heard: possession by this
      writer's record read in time, and failure by an error or a timeout that ends the attempts. */
  ghost predicate Decided(log: seq<Event>, c: nat)
    requires c < |log| && log[c].Completed?
  {
    log[c].outcome != FencedOut ==>
      && c > 0 && log[c - 1].Heard? && log[c - 1].generation == log[c].generation
      && (log[c].outcome == Owned ==> Timely(log, c - 1) && log[c - 1].reply == Body(true))
      && (log[c].outcome == Unverified ==> Fails(log, c - 1) && Final(log, c - 1))
  }

  /** A GET is one of the allowed attempts, and a further one waits 100 ms doubled for each before it. */
  ghost predicate Spaced(log: seq<Event>, k: nat)
    requires k < |log| && log[k].Got?
  {
    var (g, m) := (log[k].generation, Gets(log[..k], log[k].generation));
    && m < 3
    && (m > 0 ==> var heard := LastHeard(log[..k], g); heard.Some? && log[k].at >= heard.value + 100 * Pow2(m))
  }

  /** The first n replies have been acted on. */
  ghost predicate LogTells(log: seq<Event>, n: nat)
  {
    && (forall k {:trigger Decides(log, k)} :: 0 <= k < n && k < |log| && log[k].Heard? ==> Decides(log, k))
    && (forall c {:trigger Decided(log, c)} :: 0 <= c < |log| && log[c].Completed? ==> Decided(log, c))
    && (forall k {:trigger Spaced(log, k)} :: 0 <= k < |log| && log[k].Got? ==> Spaced(log, k))
  }

  /** The phase of the probe is what its history says. */
  ghost predicate PhaseTold(p: Probe, log: seq<Event>)
  {
    match p.phase
    case Queued(at, attempts) =>
      && Gets(log, p.generation) == attempts
      && (attempts > 0 ==> LastHeard(log, p.generation).Some?
                           && at == LastHeard(log, p.generation).value + 100 * Pow2(attempts))
    case Active(deadline, attempts) =>
      && Gets(log, p.generation) == attempts
      && LastGot(log, p.generation).Some? && deadline == LastGot(log, p.generation).value + REQUEST_TIMEOUT
    case _ => true
  }

  ghost predicate Tells(w: World)
  {
    PhaseTold(w.p, w.log) && LogTells(w.log, |w.log|)
  }

  // ---------------------------------------------------------------- the history grows

  lemma {:induction false} DelayDoubles(attempts: nat)
    ensures Delay(attempts) == 100 * Pow2(attempts)
  {
    if attempts > 0 { DelayDoubles(attempts - 1); }
  }

  lemma SameBefore(log: seq<Event>, more: seq<Event>, k: nat)
    requires k < |log|
    ensures (log + more)[k] == log[k] && (log + more)[..k] == log[..k]
  {
  }

  lemma DecidesOn(log: seq<Event>, e: Event, k: nat)
    requires k < |log| && log[k].Heard? && Decides(log, k)
    ensures (log + [e])[k].Heard? && Decides(log + [e], k)
  {
    SameBefore(log, [e], k);
    if k + 1 < |log| { SameBefore(log, [e], k + 1); }
    if k + 2 < |log| { SameBefore(log, [e], k + 2); }
  }

  /** One more event: what it says of itself is to be shown, and a reply before it may now be decided. */
  lemma TellsOn(log: seq<Event>, n: nat, e: Event)
    requires LogTells(log, n) && n <= |log|
    requires e.Completed? ==> Decided(log + [e], |log|)
    requires e.Got? ==> Spaced(log + [e], |log|)
    ensures LogTells(log + [e], n)
  {
    var l := log + [e];
    forall k | 0 <= k < n && k < |l| && l[k].Heard? ensures Decides(l, k) {
      assert log[k].Heard?;
      DecidesOn(log, e, k);
    }
    forall c | 0 <= c < |l| && l[c].Completed? ensures Decided(l, c) {
      if c < |log| {
        SameBefore(log, [e], c);
        if c > 0 { SameBefore(log, [e], c - 1); }
        assert Decided(log, c);
      }
    }
    forall k | 0 <= k < |l| && l[k].Got? ensures Spaced(l, k) {
      if k < |log| {
        SameBefore(log, [e], k);
        assert Spaced(log, k);
      }
    }
  }

  lemma TellsMore(log: seq<Event>, n: nat, m: nat)
    requires LogTells(log, n) && n <= m
    requires forall k {:trigger Decides(log, k)} :: n <= k < m && k < |log| && log[k].Heard? ==> Decides(log, k)
    ensures LogTells(log, m)
  {
  }

  /** An event that is neither a reply, a GET nor an unfenced completion. */
  lemma TellsPlain(log: seq<Event>, e: Event)
    requires LogTells(log, |log|) && !e.Heard? && !e.Got? && (e.Completed? ==> e.outcome == FencedOut)
    ensures LogTells(log + [e], |log| + 1)
  {
    TellsOn(log, |log|, e);
    TellsMore(log + [e], |log|, |log| + 1);
  }

  /** Sending a GET. */
  lemma TellsGet(p: Probe, log: seq<Event>, now: nat)
    requires LogTells(log, |log|) && PhaseTold(p, log) && p.phase.Queued? && p.phase.at <= now
    requires p.phase.attempts < ATTEMPTS
    ensures var one := log + [Got(p.generation, now)];
      && LogTells(one, |one|) && Gets(one, p.generation) == p.phase.attempts + 1
      && LastGot(one, p.generation) == Some(now)
  {
    var e := Got(p.generation, now);
    assert (log + [e])[..|log|] == log;
    GetsAppend(log, e, p.generation);
    LastAppends(log, e, p.generation);
    TellsOn(log, |log|, e);
    TellsMore(log + [e], |log|, |log| + 1);
  }

  /** Asking the client: `tries` GETs have been sent, the last at `sent`. */
  lemma TellsReply(log: seq<Event>, g: nat, now: nat, reply: Reply, sent: nat, tries: nat, next: Probe, was: Probe)
    requires LogTells(log, |log|) && LastGot(log, g) == Some(sent) && Gets(log, g) == tries
    requires was.generation == g && was.phase.Active? && was.phase.deadline == sent + REQUEST_TIMEOUT
    requires was.phase.attempts == tries && !was.fenced
    requires next == Settle(was, now, tries, if was.phase.deadline <= now then Failed(true) else reply)
    ensures var heard := log + [Heard(g, now, reply)];
      var two := heard + (if next.fenced then [Fenced] else []);
      var all := two + (if next.phase.Complete? then [Completed(g, next.phase.outcome)] else []);
      LogTells(all, |all|) && PhaseTold(next, all)
  {
    var h := Heard(g, now, reply);
    var heard := log + [h];
    var n := |log|;
    assert heard[..n] == log && heard[n] == h;
    TellsOn(log, n, h);
    GetsAppend(log, h, g);
    LastAppends(log, h, g);
    DelayDoubles(tries);
    if next.phase.Complete? {
      Completing(log, h, next, if next.fenced then [Fenced] else []);
    } else {
      assert heard + [] + [] == heard;
      TellsMore(heard, n, n + 1);
    }
  }

  lemma Completing(log: seq<Event>, h: Event, next: Probe, fence: seq<Event>)
    requires h.Heard? && LogTells(log + [h], |log|) && next.phase.Complete?
    requires fence == if next.fenced then [Fenced] else []
    requires var (outcome, l) := (next.phase.outcome, log + [h]);
      && (next.fenced <==> outcome == FencedOut)
      && (Timely(l, |log|) && h.reply == Body(true) <==> outcome == Owned)
      && (Timely(l, |log|) && h.reply == Body(false) <==> outcome == FencedOut)
      && (Fails(l, |log|) && Final(l, |log|) <==> outcome == Unverified)
    ensures var all := log + [h] + fence + [Completed(h.generation, next.phase.outcome)];
      LogTells(all, |all|)
  {
    var (n, e) := (|log|, Completed(h.generation, next.phase.outcome));
    var two := log + [h] + fence;
    var all := two + [e];
    if fence != [] {
      TellsOn(log + [h], n, Fenced);
    } else {
      assert two == log + [h];
    }
    SameBefore(two, [e], n);
    assert two[n] == h && two[..n] == log && (log + [h])[..n] == log;
    if e.outcome != FencedOut { assert all[|two| - 1] == h && all[..|two| - 1] == log; }
    TellsOn(two, n, e);
    assert Decides(all, n);
    TellsMore(all, n, |all|);
  }

  // ---------------------------------------------------------------- every step

  lemma PollTells(p: Probe, log: seq<Event>, now: nat, reply: Reply)
    requires CountOk(p) && PhaseTold(p, log) && LogTells(log, |log|) && Polls(p, now)
    ensures var (q, all) := (AfterAdvance(p, now, reply), log + AdvanceEvents(p, now, reply));
      PhaseTold(q, all) && LogTells(all, |all|)
  {
    hide LogTells, Delay, CountOk;
    var (g, q) := (p.generation, AfterAdvance(p, now, reply));
    var one := if p.phase.Queued? then log + [Got(g, now)] else log;
    var tries := if p.phase.Queued? then p.phase.attempts + 1 else p.phase.attempts;
    var was := if p.phase.Queued? then p.(phase := Active(now + REQUEST_TIMEOUT, tries)) else p;
    var sent := if p.phase.Queued? then now else LastGot(log, g).value;
    if p.phase.Queued? {
      assert p.phase.attempts < ATTEMPTS by { FewAttempts(p); }
      TellsGet(p, log, now);
    }
    hide PhaseTold;
    TellsReply(one, g, now, reply, sent, tries, q, was);
    var heard := one + [Heard(g, now, reply)];
    assert log + AdvanceEvents(p, now, reply) == heard + (if q.fenced then [Fenced] else [])
      + (if q.phase.Complete? then [Completed(g, q.phase.outcome)] else []);
  }

  lemma FewAttempts(p: Probe)
    requires CountOk(p) && p.phase.Queued?
    ensures p.phase.attempts < ATTEMPTS
  {
  }

  lemma AdvanceTells(w: World, now: nat, reply: Reply)
    requires Inv(w) && Tells(w)
    ensures Tells(Apply(w, DoAdvance(now, reply)))
  {
    assert CountOk(w.p);
    hide Inv, LogTells, PhaseTold, Delay, Settle;
    var (p, q) := (w.p, AfterAdvance(w.p, now, reply));
    var events := AdvanceEvents(p, now, reply);
    if Polls(p, now) {
      PollTells(w.p, w.log, now, reply);
      assert Apply(w, DoAdvance(now, reply)).log == w.log + events;
    } else if q.phase.Complete? && !p.phase.Complete? {
      assert events == [Completed(p.generation, FencedOut)];
      TellsPlain(w.log, events[0]);
      Settled(q, w.log + events);
    } else {
      assert events == [] && w.log + events == w.log;
      if q.phase != p.phase { Settled(q, w.log); } else { PhaseSame(p, q, w.log); }
    }
  }

  lemma Settled(p: Probe, log: seq<Event>)
    requires !p.phase.Queued? && !p.phase.Active?
    ensures PhaseTold(p, log)
  {
  }

  lemma PhaseSame(p: Probe, q: Probe, log: seq<Event>)
    requires PhaseTold(p, log) && q.phase == p.phase && q.generation == p.generation
    ensures PhaseTold(q, log)
  {
  }

  lemma FreshGeneration(w: World)
    requires Inv(w)
    ensures Gets(w.log, w.p.generation + 1) == 0
  {
  }

  /** An event that no phase depends on, or the same phase. */
  lemma PhaseStays(p: Probe, q: Probe, log: seq<Event>, e: Event)
    requires PhaseTold(p, log) && !e.Got? && !e.Heard? && q.generation == p.generation
    requires q.phase == p.phase || q.phase.Releasing?
    ensures PhaseTold(q, log + [e])
  {
    GetsAppend(log, e, p.generation);
    LastAppends(log, e, p.generation);
  }

  lemma RequestTells(w: World, owner: nat, now: nat)
    requires Inv(w) && Tells(w)
    ensures Tells(Apply(w, DoRequest(owner, now)))
  {
    hide Inv, LogTells, PhaseTold, Gets;
    FreshGeneration(w);
    var (r, p) := AfterRequest(w.p, owner, now);
    if r.Granted? {
      var e := Issued(r.ticket);
      TellsPlain(w.log, e);
      GetsAppend(w.log, e, p.generation);
      if w.p.phase.Idle? { FirstTold(p, w.log + [e]); } else { PhaseStays(w.p, p, w.log, e); }
    }
  }

  lemma FirstTold(p: Probe, log: seq<Event>)
    requires p.phase.Queued? && p.phase.attempts == 0 && Gets(log, p.generation) == 0
    ensures PhaseTold(p, log)
  {
  }

  lemma ApplyTells(w: World, op: Op)
    requires Inv(w) && Tells(w)
    ensures Tells(Apply(w, op))
  {
    if op.DoAdvance? {
      AdvanceTells(w, op.now, op.reply);
    } else if op.DoRequest? {
      RequestTells(w, op.owner, op.now);
    } else {
      hide Inv, LogTells, Accepts;
      var v := Apply(w, op);
      if v.log != w.log {
        var e := v.log[|w.log|];
        assert v.log == w.log + [e];
        TellsPlain(w.log, e);
        PhaseStays(w.p, v.p, w.log, e);
      }
    }
  }

  lemma {:induction false} RunTells(w: World, ops: seq<Op>)
    requires Inv(w) && Tells(w)
    ensures Tells(Run(w, ops))
    decreases |ops|
  {
    hide Inv, Tells, Apply;
    if ops != [] {
      ApplyKeeps(w, ops[0]);
      ApplyTells(w, ops[0]);
      RunTells(Apply(w, ops[0]), ops[1..]);
    }
  }

  lemma RunHistory(slots: nat, ops: seq<Op>)
    ensures Inv(Run(Fresh(slots), ops)) && Tells(Run(Fresh(slots), ops))
  {
    FreshOk(slots);
    hide Run;
    RunKeeps(Fresh(slots), ops);
    RunTells(Fresh(slots), ops);
  }

  // ---------------------------------------------------------------- what every run promises

  /** Over every run, each answer is tied to the reply that decided it. It says that the writer owns the
      store if and only if the probe was unfenced and the reply that completed its generation was this
      writer's record, read before the deadline. It says that ownership could not be verified if and
      only if that reply was an error or came too late, and ended the attempts. */
  lemma AnswerMeans(slots: nat, ops: seq<Op>, k: nat) returns (c: nat)
    requires var log := Run(Fresh(slots), ops).log; k < |log| && log[k].Answered?
    ensures var log := Run(Fresh(slots), ops).log; var (g, outcome) := (log[k].ticket.generation, log[k].outcome);
      && c < k && log[c] == Completed(g, outcome)
      && var heard := c > 0 && log[c - 1].Heard? && log[c - 1].generation == g;
        && (outcome == Owned <==> heard && Timely(log, c - 1) && log[c - 1].reply == Body(true))
        && (outcome == Unverified <==> heard && Fails(log, c - 1) && Final(log, c - 1))
        && (outcome == FencedOut <==> Fenced in log[..c])
  {
    c := AnswerKnowsFence(slots, ops, k);
    RunHistory(slots, ops);
    var log := Run(Fresh(slots), ops).log;
    hide Run;
    assert Decided(log, c);
    if c > 0 && log[c - 1].Heard? { assert Decides(log, c - 1); }
  }

  /** Over every run, a decisive reply is acted on at once: this writer's record completes its generation
      as owned, another's fences, and an error that ends the attempts completes it as unverified. */
  lemma RepliesDecide(slots: nat, ops: seq<Op>, k: nat)
    requires var log := Run(Fresh(slots), ops).log; k < |log| && log[k].Heard?
    ensures Decides(Run(Fresh(slots), ops).log, k)
  {
    RunHistory(slots, ops);
    hide Run;
  }

  /** Over every run, GETs are spaced by a doubling delay. */
  lemma GetsSpaced(slots: nat, ops: seq<Op>, k: nat)
    requires var log := Run(Fresh(slots), ops).log; k < |log| && log[k].Got?
    ensures Spaced(Run(Fresh(slots), ops).log, k)
  {
    RunHistory(slots, ops);
    hide Run;
  }

  // ---------------------------------------------------------------- requests and turns

  /** A request is granted exactly to a slot that holds no ticket, while the probe admits requests and is
      idle or under way; it joins the generation under way, or starts the next one at once. */
  lemma RequestAnswer(w: World, owner: nat, now: nat)
    requires Inv(w)
    ensures var (r, q) := AfterRequest(w.p, owner, now);
      var (p, g) := (w.p, if w.p.phase.Idle? then w.p.generation + 1 else w.p.generation);
      && (r.Granted? <==>
            && owner < |p.owners| && Ticket(p.generation, owner) !in w.held && !p.draining
            && (p.phase.Queued? || p.phase.Active? || (p.phase.Idle? && p.generation < LAST_GENERATION)))
      && (r.Granted? ==>
            && r.ticket == Ticket(g, owner) && Apply(w, DoRequest(owner, now)).held == w.held[r.ticket := |w.log|]
            && q.phase == (if p.phase.Idle? then Queued(now, 0) else p.phase) && q.generation == g
            && q.fenced == p.fenced && q.draining == p.draining)
      && (!r.Granted? ==> q == p)
      && (r == TooManyOwners <==> owner >= |p.owners|)
      && (r == AlreadyOwner <==> owner < |p.owners| && Ticket(p.generation, owner) in w.held)
      && (r == Exhausted ==> p.phase.Idle? && p.generation == LAST_GENERATION)
  {
  }

  /** When the last ticket is given back the probe is released, and the next turn makes it idle. */
  lemma ReleasedTurns(w: World, t: Ticket, now: nat, reply: Reply)
    requires Inv(w) && t in w.held
    ensures var v := Apply(w, DoCancel(t));
      && v.held == w.held - {t} && v.log == w.log
      && (v.held == map[] ==> v.p.phase.Releasing? && Apply(v, DoAdvance(now, reply)).p.phase.Idle?)
      && (v.held != map[] ==> v.p.phase == w.p.phase)
  {
    var v := Apply(w, DoCancel(t));
    HeldAccepted(w, t);
    CancelKeeps(w, t);
    if v.held != map[] {
      var u :| u in v.held;
      HeldPositive(v.p.owners, u.owner);
    } else {
      NoneOwn(v);
    }
  }

  lemma NoneOwn(w: World)
    requires Inv(w) && w.held == map[]
    ensures w.p.consumers == 0
  {
    assert TicketsOk(w);
    NoneHeld(w.p.owners);
  }

  /** A completed generation is given out once to each ticket, and to no other. */
  lemma TakeAnswers(w: World, t: Ticket)
    requires Inv(w)
    ensures var v := Apply(w, DoTake(t));
      if t in w.held && w.p.phase.Complete?
      then v.log == w.log + [Answered(t, w.p.phase.outcome)] && v.held == w.held - {t}
      else v == w
  {
    if t in w.held { HeldAccepted(w, t); }
  }
}
