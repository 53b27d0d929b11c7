/** What the delivery pipeline guarantees over every run. */
module QueueTheorems {
  import opened Sequences
  import opened QueuePipeline
  import opened QueueInvariants
  import opened QueueSettlement
  import Backpressure

  ghost predicate Sound(cfg: Config, s: State) {
    && FinishedOnce(s)
    && WaitersConsistent(cfg, s)
    && (cfg.limit.Some? ==> PermitsExact(cfg.limit.value, s))
    && HandledOnce(s)
    && HandlingKnown(s)
    && VerdictsHonest(s)
    && CallsAccounted(cfg, s)
    && KeysRecorded(s)
  }

  /** The assumption on the configuration: a limit, if there is one, lets somebody in. */
  predicate Sensible(cfg: Config) {
    cfg.limit.Some? ==> cfg.limit.value.maxConcurrent >= 1
  }

  /** The decorator can violate it only with a negative number, which nothing checks. */
  lemma SensibleUnlessNegative(o: HandlerOptions)
    ensures Sensible(Configured(o)) <==> EffectiveLimit(o) >= 0
    ensures EffectiveLimit(o) < 0 <==>
              if o.concurrency.Some? then o.concurrency.value < 0
              else o.maxConcurrent.Some? && o.maxConcurrent.value < 0
  {
  }

  ghost predicate NobodyInside(s: State) {
    && s.sem.granted == [] && s.sem.running == 0 && s.handled == [] && s.calls == []
    && (forall p :: 0 <= p < |s.polls| ==> !Holds(s.polls[p].phase))
  }

  lemma StepNobodyInside(cfg: Config, s: State, e: Event)
    requires !Sensible(cfg) && NobodyInside(s)
    ensures NobodyInside(Step(cfg, s, e))
  {
    if !e.Arrive? && e.poll < |s.polls| {
      assert !Holds(s.polls[e.poll].phase);
    }
  }

  /** And then the handler never runs and no message is ever settled. */
  lemma {:induction false} NegativeLimitAdmitsNobody(cfg: Config, events: seq<Event>)
    requires !Sensible(cfg)
    ensures NobodyInside(Run(cfg, INITIAL, events))
  {
    if events != [] {
      NegativeLimitAdmitsNobody(cfg, events[..|events| - 1]);
      StepNobodyInside(cfg, Run(cfg, INITIAL, events[..|events| - 1]), events[|events| - 1]);
    }
  }

  lemma StepSound(cfg: Config, s: State, e: Event)
    requires Sound(cfg, s)
    ensures Sound(cfg, Step(cfg, s, e))
  {
    StepFinishedOnce(cfg, s, e);
    StepWaiters(cfg, s, e);
    if cfg.limit.Some? {
      StepPermits(cfg, s, e);
    }
    StepHandledOnce(cfg, s, e);
    StepVerdictsHonest(cfg, s, e);
    StepCalls(cfg, s, e);
    StepKeysRecorded(cfg, s, e);
  }

  lemma {:induction false} RunStaysSound(cfg: Config, s: State, events: seq<Event>)
    requires Sound(cfg, s)
    ensures Sound(cfg, Run(cfg, s, events))
  {
    if events != [] {
      RunStaysSound(cfg, s, events[..|events| - 1]);
      StepSound(cfg, Run(cfg, s, events[..|events| - 1]), events[|events| - 1]);
    }
  }

  /** Every interleaving of any number of callbacks keeps all the invariants. */
  lemma RunSound(cfg: Config, events: seq<Event>)
    requires Sensible(cfg)
    ensures Sound(cfg, Run(cfg, INITIAL, events))
  {
    RunStaysSound(cfg, INITIAL, events);
  }

  // ------------------------------------------------------------ permits

  /** The units between the grant of their permit and its release. */
  function Inside(polls: seq<Poll>): set<Delivery> {
    set p | 0 <= p < |polls| && Holds(polls[p].phase) :: Backpressure.Delivery(p, polls[p].pos)
  }

  lemma InsideCounted(limits: Backpressure.Limits, s: State)
    requires PermitsExact(limits, s) && FinishedOnce(s)
    ensures |Inside(s.polls)| == s.sem.running
  {
    var inside := Inside(s.polls);
    forall d ensures d in inside <==> AtPos(s.polls, d) && Holds(s.polls[d.poll].phase) {
      if AtPos(s.polls, d) {
        assert d == Backpressure.Delivery(d.poll, s.polls[d.poll].pos);
      }
    }
    assert Elements(s.sem.granted) == Elements(s.finished) + inside;
    assert Elements(s.finished) !! inside;
    DistinctCardinality(s.sem.granted);
    DistinctCardinality(s.finished);
  }

  /** At most maxConcurrent units are inside at any time; `running` counts them exactly; and
      the accepted callers are the granted ones followed by those who wait. */
  lemma ConcurrencyBounded(cfg: Config, events: seq<Event>)
    requires Sensible(cfg) && cfg.limit.Some?
    ensures var s := Run(cfg, INITIAL, events);
            && |Inside(s.polls)| == s.sem.running <= cfg.limit.value.maxConcurrent
            && s.sem.accepted == s.sem.granted + s.sem.queue
            && (s.sem.queue != [] ==> |Inside(s.polls)| == cfg.limit.value.maxConcurrent)
  {
    RunSound(cfg, events);
    InsideCounted(cfg.limit.value, Run(cfg, INITIAL, events));
  }

  /** Over every run each permit is granted once and released once, in the order in which the
      units finish; what is granted and not released is inside; a unit whose acquire was
      rejected neither gets a permit nor releases one. */
  lemma PermitsReturnedOnce(cfg: Config, events: seq<Event>, d: Delivery)
    requires Sensible(cfg) && cfg.limit.Some?
    ensures var s := Run(cfg, INITIAL, events);
            && Distinct(s.sem.granted) && Distinct(s.sem.released)
            && (d in s.sem.released ==> d in s.sem.granted)
            && (d in s.sem.granted && d !in s.sem.released <==> d in Inside(s.polls))
            && (d in s.sem.rejected ==> d !in s.sem.granted && d !in s.sem.released)
  {
    RunSound(cfg, events);
    var s := Run(cfg, INITIAL, events);
    if AtPos(s.polls, d) {
      assert d == Backpressure.Delivery(d.poll, s.polls[d.poll].pos);
    }
  }

  /** Whenever a callback releases its permit, the counter is positive. */
  lemma ClampNeverUsed(cfg: Config, events: seq<Event>, e: Event)
    requires Sensible(cfg) && cfg.limit.Some?
    requires Finishes(Run(cfg, INITIAL, events), e)
    ensures Run(cfg, INITIAL, events).sem.running >= 1
  {
    RunSound(cfg, events);
    var s := Run(cfg, INITIAL, events);
    FinishPermits(cfg, s, e.poll, FinishVerdict(s, e));
  }

  // ------------------------------------------------------------ settlements

  /** The verdict decides the settlement: everything but a failure is acknowledged, duplicates
      and refused messages included. */
  lemma VerdictDecidesSettlement(cfg: Config, s: State, p: nat, message: nat)
    requires Sound(cfg, s) && !cfg.manualAck
    requires p < |s.polls| && s.polls[p].phase.Settling? && message < |Unit(s.polls, Current(s, p))|
    ensures var d, t := Current(s, p), Step(cfg, s, Settle(p));
            Settlements(t.calls, d, message) == [s.polls[p].phase.verdict != Failed]
  {
    var d, t := Current(s, p), Step(cfg, s, Settle(p));
    var r := Result(|Unit(s.polls, d)|, s.polls[p].phase.verdict);
    assert !Past(s.polls, d);
    assert t.calls == s.calls + CallsFor(cfg, d, r);
    SettlementsAppend(s.calls, CallsFor(cfg, d, r), d, message);
    AllCallsSkip(cfg, s.finished, s.results, d, message);
    CallsForSettle(cfg, d, r, d, message);
  }

  /** All messages of a unit, that is of a whole poll in batch mode, are settled alike. */
  lemma UnitSettledAlike(cfg: Config, events: seq<Event>, d: Delivery, m: nat, n: nat)
    requires Sensible(cfg)
    requires m < |Unit(Run(cfg, INITIAL, events).polls, d)| && n < |Unit(Run(cfg, INITIAL, events).polls, d)|
    ensures var s := Run(cfg, INITIAL, events);
            Settlements(s.calls, d, m) == Settlements(s.calls, d, n)
  {
    RunSound(cfg, events);
    var s := Run(cfg, INITIAL, events);
    if d in s.finished {
      var i :| 0 <= i < |s.finished| && s.finished[i] == d;
      AllCallsSettle(cfg, s.finished, s.results, i, m);
      AllCallsSettle(cfg, s.finished, s.results, i, n);
    } else {
      AllCallsSkip(cfg, s.finished, s.results, d, m);
      AllCallsSkip(cfg, s.finished, s.results, d, n);
    }
  }

  /** In manual mode the transport settles nothing. */
  lemma ManualModeSettlesNothing(cfg: Config, events: seq<Event>, d: Delivery, message: nat)
    requires Sensible(cfg) && cfg.manualAck
    ensures Settlements(Run(cfg, INITIAL, events).calls, d, message) == []
  {
    RunSound(cfg, events);
    var s := Run(cfg, INITIAL, events);
    if d in s.finished {
      var i :| 0 <= i < |s.finished| && s.finished[i] == d;
      AllCallsSettle(cfg, s.finished, s.results, i, message);
    } else {
      AllCallsSkip(cfg, s.finished, s.results, d, message);
    }
  }

  /** The handler of a unit runs at most once; it runs only inside, and a unit of a callback
      that was turned away at the semaphore never runs. */
  lemma HandlerRunsAtMostOnce(cfg: Config, events: seq<Event>, d: Delivery)
    requires Sensible(cfg)
    ensures var s := Run(cfg, INITIAL, events);
            && Distinct(s.handled)
            && (d in s.handled ==> Past(s.polls, d) || (AtPos(s.polls, d) && Holds(s.polls[d.poll].phase)))
            && (d in s.sem.rejected && cfg.limit.Some? ==> d !in s.handled)
  {
    RunSound(cfg, events);
  }

  /** A key gets into the cache only through a handler that succeeded. */
  lemma FailedHandlerNeverRecordsItsKey(cfg: Config, events: seq<Event>, key: string)
    requires Sensible(cfg)
    requires key in Run(cfg, INITIAL, events).cache.entries
    ensures var s := Run(cfg, INITIAL, events);
            exists d :: d in s.succeeded && LeadKey(s.polls, d) == key
  {
    RunSound(cfg, events);
    assert Vouched(Run(cfg, INITIAL, events), key);
  }

  // ------------------------------------------------------------ nothing gets stuck

  /** No callback can go on: only a new poll could change the state. */
  ghost predicate Quiescent(cfg: Config, s: State) {
    forall e: Event :: !e.Arrive? ==> Step(cfg, s, e) == s
  }

  lemma FinishAdvances(cfg: Config, s: State, p: nat, verdict: Verdict)
    requires WaitersConsistent(cfg, s) && p < |s.polls| && Holds(s.polls[p].phase)
    ensures Finish(cfg, s, p, verdict) != s
  {
    if s.sem.queue != [] {
      assert s.sem.queue[0] in s.sem.queue;
    }
    assert Finish(cfg, s, p, verdict).polls[p].pos != s.polls[p].pos;
  }

  lemma HolderCanGoOn(cfg: Config, s: State, p: nat)
    requires Positions(s.polls) && WaitersConsistent(cfg, s)
    requires p < |s.polls| && Holds(s.polls[p].phase)
    ensures !Quiescent(cfg, s)
  {
    match s.polls[p].phase
    case Admitted =>
      FinishAdvances(cfg, s, p, Failed);
      assert Step(cfg, s, Enter(p, 0, false)) != s;
    case Settling(verdict) =>
      FinishAdvances(cfg, s, p, verdict);
      assert Step(cfg, s, Settle(p)) != s;
    case Validating =>
      assert Step(cfg, s, Validated(p, Threw)).polls[p] != s.polls[p];
    case DeadLettering =>
      assert Step(cfg, s, DeadLettered(p)).polls[p] != s.polls[p];
    case Handling =>
      assert Step(cfg, s, Returned(p, 0, false)).polls[p] != s.polls[p];
  }

  lemma WaiterHasHolder(cfg: Config, s: State, p: nat) returns (q: nat)
    requires Sensible(cfg) && Sound(cfg, s) && p < |s.polls| && s.polls[p].phase == Waiting
    ensures q < |s.polls| && Holds(s.polls[q].phase)
  {
    assert Current(s, p) in s.sem.queue;
    InsideCounted(cfg.limit.value, s);
    var d :| d in Inside(s.polls);
    q := d.poll;
  }

  lemma IdleCanStart(cfg: Config, s: State, p: nat)
    requires InPhase(s, p, Idle)
    ensures !Quiescent(cfg, s)
  {
    assert Step(cfg, s, Start(p)).polls[p] != s.polls[p];
  }

  /** No wake-up is lost: when no callback can go on, every callback has finished all its
      units or was turned away by an overflow; nobody waits for a permit. */
  lemma QuiescentMeansDone(cfg: Config, events: seq<Event>, p: nat)
    requires Sensible(cfg) && Quiescent(cfg, Run(cfg, INITIAL, events))
    requires p < |Run(cfg, INITIAL, events).polls|
    ensures var poll := Run(cfg, INITIAL, events).polls[p];
            (poll.phase == Idle && poll.pos == |poll.units|) || poll.phase == Overflowed
  {
    RunSound(cfg, events);
    var s := Run(cfg, INITIAL, events);
    SoundQuiescentDone(cfg, s, p);
  }

  lemma SoundQuiescentDone(cfg: Config, s: State, p: nat)
    requires Sensible(cfg) && Sound(cfg, s) && Quiescent(cfg, s) && p < |s.polls|
    ensures (s.polls[p].phase == Idle && s.polls[p].pos == |s.polls[p].units|) || s.polls[p].phase == Overflowed
  {
    match s.polls[p].phase
    case Idle =>
      if s.polls[p].pos < |s.polls[p].units| {
        IdleCanStart(cfg, s, p);
      }
    case Waiting =>
      var q := WaiterHasHolder(cfg, s, p);
      HolderCanGoOn(cfg, s, q);
    case Overflowed =>
    case _ =>
      HolderCanGoOn(cfg, s, p);
  }

  // ------------------------------------------------------------ single messages

  ghost predicate Singles(polls: seq<Poll>) {
    forall p, u :: 0 <= p < |polls| && 0 <= u < |polls[p].units| ==> |polls[p].units[u]| == 1
  }

  lemma SameNumber(cfg: Config, s: State, e: Event)
    requires !e.Arrive?
    ensures |Step(cfg, s, e).polls| == |s.polls|
  {
    StepShape(cfg, s, e);
    if Finishes(s, e) {
      WakePlaces(Advance(s.polls, e.poll), s.sem.queue);
    }
  }

  lemma StepSingles(cfg: Config, s: State, e: Event)
    requires !cfg.batch && Singles(s.polls)
    ensures Singles(Step(cfg, s, e).polls)
  {
    var t := Step(cfg, s, e);
    StepKeepsUnits(cfg, s, e);
    if e.Arrive? {
      assert t.polls == s.polls + [Poll(Units(cfg, e.messages), 0, Idle)];
    } else {
      SameNumber(cfg, s, e);
    }
    forall p, u | 0 <= p < |t.polls| && 0 <= u < |t.polls[p].units| ensures |t.polls[p].units[u]| == 1 {
      if p < |s.polls| {
        assert t.polls[p].units == s.polls[p].units;
      }
    }
  }

  lemma {:induction false} RunSingles(cfg: Config, events: seq<Event>)
    requires !cfg.batch
    ensures Singles(Run(cfg, INITIAL, events).polls)
  {
    if events != [] {
      RunSingles(cfg, events[..|events| - 1]);
      StepSingles(cfg, Run(cfg, INITIAL, events[..|events| - 1]), events[|events| - 1]);
    }
  }
}
