/** What every event of the delivery pipeline keeps. */
module QueueInvariants {
  import opened Sequences
  import Backpressure
  import opened QueuePipeline

  // ------------------------------------------------------------ places in the polls

  predicate Past(polls: seq<Poll>, d: Delivery) {
    d.poll < |polls| && d.unit < polls[d.poll].pos
  }

  predicate AtPos(polls: seq<Poll>, d: Delivery) {
    d.poll < |polls| && d.unit == polls[d.poll].pos
  }

  predicate Holds(phase: Phase) {
    phase != Idle && phase != Waiting && phase != Overflowed
  }

  predicate Ran(phase: Phase) {
    phase == Handling || phase == Settling(Succeeded) || phase == Settling(Failed)
  }

  ghost predicate Positions(polls: seq<Poll>) {
    forall p :: 0 <= p < |polls| ==>
      && polls[p].pos <= |polls[p].units|
      && (polls[p].phase != Idle ==> polls[p].pos < |polls[p].units|)
  }

  ghost predicate SamePlaces(a: seq<Poll>, b: seq<Poll>) {
    |a| == |b| && forall p :: 0 <= p < |a| ==> a[p].pos == b[p].pos && a[p].units == b[p].units
  }

  /** The event settles a unit: a body that does not decode, or the end of a try block. */
  predicate Finishes(s: State, e: Event) {
    || (e.Enter? && InPhase(s, e.poll, Admitted)
        && (!e.decodes || Unit(s.polls, Current(s, e.poll)) == []))
    || (e.Settle? && e.poll < |s.polls| && s.polls[e.poll].phase.Settling?
        && s.polls[e.poll].pos < |s.polls[e.poll].units|)
  }

  function FinishVerdict(s: State, e: Event): Verdict
    requires Finishes(s, e)
  {
    if e.Enter? then Failed else s.polls[e.poll].phase.verdict
  }

  /** Nobody moves on, and nothing is settled. */
  ghost predicate StaysPut(s: State, t: State) {
    SamePlaces(s.polls, t.polls) && t.finished == s.finished && t.results == s.results && t.calls == s.calls
  }

  lemma FinishShape(cfg: Config, s: State, e: Event)
    requires Finishes(s, e)
    ensures Step(cfg, s, e) == Finish(cfg, s, e.poll, FinishVerdict(s, e))
  {
  }

  lemma BeginStaysPut(cfg: Config, s: State, p: nat)
    requires p < |s.polls|
    ensures StaysPut(s, Begin(cfg, s, p))
  {
  }

  lemma EnterStaysPut(cfg: Config, s: State, p: nat, now: int)
    requires p < |s.polls|
    ensures StaysPut(s, EnterBody(cfg, s, p, now))
  {
  }

  lemma ReturnStaysPut(cfg: Config, s: State, p: nat, now: int, ok: bool)
    requires p < |s.polls|
    ensures StaysPut(s, Return(cfg, s, p, now, ok))
  {
  }

  lemma InnerStaysPut(cfg: Config, s: State, e: Event)
    requires !e.Arrive? && !Finishes(s, e)
    ensures StaysPut(s, Step(cfg, s, e))
  {
    if e.poll < |s.polls| {
      match e
      case Start(p) => BeginStaysPut(cfg, s, p);
      case Enter(p, now, _) => EnterStaysPut(cfg, s, p, now);
      case Returned(p, now, ok) => ReturnStaysPut(cfg, s, p, now, ok);
      case Validated(_, _) =>
      case DeadLettered(_) =>
      case Settle(_) =>
    }
  }

  lemma StepShape(cfg: Config, s: State, e: Event)
    ensures Finishes(s, e) ==> Step(cfg, s, e) == Finish(cfg, s, e.poll, FinishVerdict(s, e))
    ensures !e.Arrive? && !Finishes(s, e) ==> StaysPut(s, Step(cfg, s, e))
  {
    if Finishes(s, e) {
      FinishShape(cfg, s, e);
    } else if !e.Arrive? {
      InnerStaysPut(cfg, s, e);
    }
  }

  // ------------------------------------------------------------ finished units

  /** A unit is finished exactly when its callback has moved past it, and only once. */
  ghost predicate FinishedOnce(s: State) {
    && Positions(s.polls)
    && |s.results| == |s.finished|
    && Distinct(s.finished)
    && (forall d :: d in s.finished <==> Past(s.polls, d))
    && (forall i :: 0 <= i < |s.finished| ==> s.results[i].size == |Unit(s.polls, s.finished[i])|)
  }

  function Advance(polls: seq<Poll>, p: nat): seq<Poll>
    requires p < |polls|
  {
    polls[p := polls[p].(pos := polls[p].pos + 1, phase := Idle)]
  }

  lemma WakePlaces(polls: seq<Poll>, queue: seq<Delivery>)
    ensures SamePlaces(polls, Wake(polls, queue))
  {
  }

  /** Whoever is in the semaphore's queue is a callback that waits for the permit of its
      current unit, and nobody else waits. */
  ghost predicate Waiters(polls: seq<Poll>, queue: seq<Delivery>) {
    && Distinct(queue)
    && (forall d :: d in queue ==> AtPos(polls, d) && polls[d.poll].phase == Waiting)
    && (forall p :: 0 <= p < |polls| && polls[p].phase == Waiting ==>
          Backpressure.Delivery(p, polls[p].pos) in queue)
  }

  ghost predicate WaitersConsistent(cfg: Config, s: State) {
    Waiters(s.polls, s.sem.queue) && (cfg.limit.None? ==> s.sem.queue == [])
  }

  lemma AdvancePositions(polls: seq<Poll>, queue: seq<Delivery>, p: nat)
    requires Positions(polls) && Waiters(polls, queue)
    requires p < |polls| && polls[p].pos < |polls[p].units| && Holds(polls[p].phase)
    ensures Positions(Advance(polls, p))
    ensures Positions(Wake(Advance(polls, p), queue))
  {
    if queue != [] {
      assert queue[0] in queue;
    }
  }

  lemma FinishFinishedOnce(cfg: Config, s: State, p: nat, verdict: Verdict)
    requires FinishedOnce(s) && WaitersConsistent(cfg, s)
    requires p < |s.polls| && s.polls[p].pos < |s.polls[p].units| && Holds(s.polls[p].phase)
    ensures FinishedOnce(Finish(cfg, s, p, verdict))
  {
    var t, d := Finish(cfg, s, p, verdict), Current(s, p);
    var polls := Advance(s.polls, p);
    AdvancePositions(s.polls, s.sem.queue, p);
    WakePlaces(polls, s.sem.queue);
    assert SamePlaces(polls, t.polls);
    assert !Past(s.polls, d);
    forall x ensures x in t.finished <==> Past(t.polls, x) {
      assert x in t.finished <==> x in s.finished || x == d;
      assert Past(t.polls, x) <==> Past(polls, x);
    }
    assert forall x :: Unit(t.polls, x) == Unit(s.polls, x);
  }

  lemma LocalFinishedOnce(s: State, t: State)
    requires FinishedOnce(s) && SamePlaces(s.polls, t.polls) && Positions(t.polls)
    requires t.finished == s.finished && t.results == s.results
    ensures FinishedOnce(t)
  {
    assert forall d :: Past(t.polls, d) <==> Past(s.polls, d);
    assert forall d :: Unit(t.polls, d) == Unit(s.polls, d);
  }

  lemma ArriveFinishedOnce(cfg: Config, s: State, messages: seq<Message>)
    requires FinishedOnce(s)
    ensures FinishedOnce(Step(cfg, s, Arrive(messages)))
  {
    var t := Step(cfg, s, Arrive(messages));
    assert forall d :: Past(t.polls, d) <==> Past(s.polls, d);
    assert forall d :: Past(s.polls, d) ==> Unit(t.polls, d) == Unit(s.polls, d);
    assert forall i :: 0 <= i < |s.finished| ==> s.finished[i] in s.finished;
  }

  lemma StepFinishedOnce(cfg: Config, s: State, e: Event)
    requires FinishedOnce(s) && WaitersConsistent(cfg, s)
    ensures FinishedOnce(Step(cfg, s, e))
  {
    StepShape(cfg, s, e);
    if Finishes(s, e) {
      FinishFinishedOnce(cfg, s, e.poll, FinishVerdict(s, e));
    } else if e.Arrive? {
      ArriveFinishedOnce(cfg, s, e.messages);
    } else {
      LocalFinishedOnce(s, Step(cfg, s, e));
    }
  }

  // ------------------------------------------------------------ waiters

  lemma BeginWaiters(cfg: Config, s: State, p: nat)
    requires WaitersConsistent(cfg, s) && InPhase(s, p, Idle)
    ensures WaitersConsistent(cfg, Begin(cfg, s, p))
  {
    var t, d := Begin(cfg, s, p), Current(s, p);
    assert d !in s.sem.queue;
    forall x ensures x in t.sem.queue ==> AtPos(t.polls, x) && t.polls[x.poll].phase == Waiting {
      assert x in t.sem.queue ==> x in s.sem.queue || x == d;
    }
  }

  lemma LocalWaiters(cfg: Config, s: State, t: State, p: nat)
    requires WaitersConsistent(cfg, s) && t.sem == s.sem && p < |s.polls|
    requires Holds(s.polls[p].phase) && SamePlaces(s.polls, t.polls)
    requires forall q :: 0 <= q < |s.polls| && q != p ==> t.polls[q] == s.polls[q]
    requires Holds(t.polls[p].phase)
    ensures WaitersConsistent(cfg, t)
  {
  }

  lemma AdvanceWaiters(polls: seq<Poll>, queue: seq<Delivery>, p: nat)
    requires Waiters(polls, queue) && p < |polls| && Holds(polls[p].phase)
    ensures Waiters(Advance(polls, p), queue)
  {
  }

  lemma WakeWaiters(polls: seq<Poll>, queue: seq<Delivery>)
    requires Waiters(polls, queue) && queue != []
    ensures Waiters(Wake(polls, queue), queue[1..])
  {
    assert queue[0] in queue;
    TailOfDistinct(queue);
  }

  lemma FinishWaiters(cfg: Config, s: State, p: nat, verdict: Verdict)
    requires WaitersConsistent(cfg, s) && p < |s.polls| && Holds(s.polls[p].phase)
    ensures WaitersConsistent(cfg, Finish(cfg, s, p, verdict))
  {
    AdvanceWaiters(s.polls, s.sem.queue, p);
    if s.sem.queue != [] {
      WakeWaiters(Advance(s.polls, p), s.sem.queue);
    }
  }

  /** An event of a callback that holds its permit and keeps it. */
  predicate Inner(s: State, e: Event) {
    && !e.Arrive? && !e.Start? && !Finishes(s, e)
    && e.poll < |s.polls| && Holds(s.polls[e.poll].phase) && s.polls[e.poll].pos < |s.polls[e.poll].units|
  }

  ghost predicate OnlyInner(s: State, t: State, p: nat) {
    && |t.polls| == |s.polls| && p < |s.polls|
    && t.sem == s.sem && SamePlaces(s.polls, t.polls) && Holds(t.polls[p].phase)
    && (forall q :: 0 <= q < |s.polls| && q != p ==> t.polls[q] == s.polls[q])
  }

  lemma EnterIsInner(cfg: Config, s: State, p: nat, now: int)
    requires p < |s.polls| && Holds(s.polls[p].phase)
    ensures OnlyInner(s, EnterBody(cfg, s, p, now), p)
  {
  }

  lemma ReturnIsInner(cfg: Config, s: State, p: nat, now: int, ok: bool)
    requires p < |s.polls| && Holds(s.polls[p].phase)
    ensures OnlyInner(s, Return(cfg, s, p, now, ok), p)
  {
  }

  lemma InnerIsInner(cfg: Config, s: State, e: Event)
    requires Inner(s, e)
    ensures OnlyInner(s, Step(cfg, s, e), e.poll)
  {
    match e
    case Enter(p, now, _) => EnterIsInner(cfg, s, p, now);
    case Returned(p, now, ok) => ReturnIsInner(cfg, s, p, now, ok);
    case Validated(_, _) =>
    case DeadLettered(_) =>
    case Settle(_) =>
  }

  lemma InnerShape(cfg: Config, s: State, e: Event)
    ensures e.Arrive? || Finishes(s, e) || Inner(s, e) || Step(cfg, s, e) == s
            || (e.Start? && InPhase(s, e.poll, Idle) && Step(cfg, s, e) == Begin(cfg, s, e.poll))
    ensures Inner(s, e) ==> OnlyInner(s, Step(cfg, s, e), e.poll)
  {
    if Inner(s, e) {
      InnerIsInner(cfg, s, e);
    }
  }

  lemma StepWaiters(cfg: Config, s: State, e: Event)
    requires WaitersConsistent(cfg, s)
    ensures WaitersConsistent(cfg, Step(cfg, s, e))
  {
    StepShape(cfg, s, e);
    InnerShape(cfg, s, e);
    if Finishes(s, e) {
      FinishWaiters(cfg, s, e.poll, FinishVerdict(s, e));
    } else if Inner(s, e) {
      LocalWaiters(cfg, s, Step(cfg, s, e), e.poll);
    } else if e.Start? && InPhase(s, e.poll, Idle) {
      BeginWaiters(cfg, s, e.poll);
    }
  }

  // ------------------------------------------------------------ permits

  /** Each permit belongs to one unit: a unit is granted one exactly when it has got into the
      try block, gives it back exactly when it is finished, and never gets one when its
      callback was turned away. */
  ghost predicate PermitsExact(limits: Backpressure.Limits, s: State) {
    && Backpressure.Fifo(limits, s.sem)
    && Backpressure.Conserved(s.sem)
    && s.sem.released == s.finished
    && Distinct(s.sem.granted)
    && (forall d :: d in s.sem.granted <==>
          Past(s.polls, d) || (AtPos(s.polls, d) && Holds(s.polls[d.poll].phase)))
    && (forall d :: d in s.sem.rejected <==>
          AtPos(s.polls, d) && s.polls[d.poll].phase == Overflowed)
  }

  lemma BeginPermits(cfg: Config, s: State, p: nat)
    requires cfg.limit.Some? && PermitsExact(cfg.limit.value, s) && InPhase(s, p, Idle)
    ensures PermitsExact(cfg.limit.value, Begin(cfg, s, p))
  {
    var limits, t, d := cfg.limit.value, Begin(cfg, s, p), Current(s, p);
    Backpressure.ApplyFifo(limits, s.sem, Backpressure.Acquire(d));
    assert forall x :: Past(t.polls, x) <==> Past(s.polls, x);
    assert d !in s.sem.granted && d !in s.sem.rejected;
    forall x ensures x in t.sem.granted <==>
          Past(t.polls, x) || (AtPos(t.polls, x) && Holds(t.polls[x.poll].phase))
    {
      assert x in t.sem.granted <==> x in s.sem.granted || (x == d && t.polls[p].phase == Admitted);
    }
    forall x ensures x in t.sem.rejected <==> AtPos(t.polls, x) && t.polls[x.poll].phase == Overflowed {
      assert x in t.sem.rejected <==> x in s.sem.rejected || (x == d && t.polls[p].phase == Overflowed);
    }
  }

  lemma FinishPermits(cfg: Config, s: State, p: nat, verdict: Verdict)
    requires cfg.limit.Some? && PermitsExact(cfg.limit.value, s)
    requires FinishedOnce(s) && WaitersConsistent(cfg, s)
    requires p < |s.polls| && Holds(s.polls[p].phase)
    ensures s.sem.running >= 1
    ensures PermitsExact(cfg.limit.value, Finish(cfg, s, p, verdict))
  {
    var t, d := Finish(cfg, s, p, verdict), Current(s, p);
    MissingEntry(s.finished, s.sem.granted, d);
    Backpressure.ReleaseConserves(s.sem, d);
    Backpressure.ApplyFifo(cfg.limit.value, s.sem, Backpressure.Release(d));
    forall x ensures x in t.sem.granted <==>
          Past(t.polls, x) || (AtPos(t.polls, x) && Holds(t.polls[x.poll].phase))
    {
      assert x in t.sem.granted <==> x in s.sem.granted || (s.sem.queue != [] && x == s.sem.queue[0]);
      if s.sem.queue != [] {
        assert s.sem.queue[0] in s.sem.queue;
      }
    }
    if s.sem.queue != [] {
      assert s.sem.queue[0] in s.sem.queue;
      assert s.sem.queue[0] !in s.sem.granted;
    }
  }

  lemma LocalPermits(limits: Backpressure.Limits, s: State, t: State, p: nat)
    requires PermitsExact(limits, s) && t.sem == s.sem && t.finished == s.finished
    requires p < |s.polls| && Holds(s.polls[p].phase) && SamePlaces(s.polls, t.polls)
    requires forall q :: 0 <= q < |s.polls| && q != p ==> t.polls[q] == s.polls[q]
    requires Holds(t.polls[p].phase)
    ensures PermitsExact(limits, t)
  {
    assert forall x :: Past(t.polls, x) <==> Past(s.polls, x);
  }

  lemma ArrivePermits(cfg: Config, s: State, messages: seq<Message>)
    requires cfg.limit.Some? && PermitsExact(cfg.limit.value, s)
    ensures PermitsExact(cfg.limit.value, Step(cfg, s, Arrive(messages)))
  {
    var t := Step(cfg, s, Arrive(messages));
    assert forall x :: Past(t.polls, x) <==> Past(s.polls, x);
  }

  lemma StepPermits(cfg: Config, s: State, e: Event)
    requires cfg.limit.Some? && PermitsExact(cfg.limit.value, s)
    requires FinishedOnce(s) && WaitersConsistent(cfg, s)
    ensures PermitsExact(cfg.limit.value, Step(cfg, s, e))
  {
    StepShape(cfg, s, e);
    InnerShape(cfg, s, e);
    if Finishes(s, e) {
      FinishPermits(cfg, s, e.poll, FinishVerdict(s, e));
    } else if Inner(s, e) {
      LocalPermits(cfg.limit.value, s, Step(cfg, s, e), e.poll);
    } else if e.Start? && InPhase(s, e.poll, Idle) {
      BeginPermits(cfg, s, e.poll);
    } else if e.Arrive? {
      ArrivePermits(cfg, s, e.messages);
    }
  }
}
