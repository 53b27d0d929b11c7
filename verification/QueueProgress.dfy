/** Every run of the delivery pipeline ends, and what has been settled then. */
module QueueProgress {
  import opened Sequences
  import opened QueuePipeline
  import opened QueueInvariants
  import opened QueueSettlement
  import opened QueueTheorems
  import opened QueueHistory
  import Backpressure

  function Rank(phase: Phase): nat {
    match phase
    case Idle => 6
    case Waiting => 5
    case Admitted => 4
    case Validating => 3
    case DeadLettering => 2
    case Handling => 2
    case Settling(_) => 1
    case Overflowed => 0
  }

  /** How many events the callback can still take. */
  function Work(poll: Poll): nat {
    if poll.pos < |poll.units| then 7 * (|poll.units| - poll.pos - 1) + Rank(poll.phase) else 0
  }

  function TotalWork(polls: seq<Poll>): nat {
    if polls == [] then 0 else TotalWork(polls[..|polls| - 1]) + Work(polls[|polls| - 1])
  }

  lemma {:induction false} TotalWorkUpdate(polls: seq<Poll>, p: nat, poll: Poll)
    requires p < |polls|
    ensures TotalWork(polls[p := poll]) == TotalWork(polls) - Work(polls[p]) + Work(poll)
  {
    var n := |polls| - 1;
    if p == n {
      assert polls[p := poll][..n] == polls[..n];
    } else {
      assert polls[p := poll][..n] == polls[..n][p := poll];
      TotalWorkUpdate(polls[..n], p, poll);
    }
  }

  lemma MoveDecreases(s: State, p: nat, phase: Phase)
    requires p < |s.polls| && s.polls[p].pos < |s.polls[p].units| && Rank(phase) < Rank(s.polls[p].phase)
    ensures TotalWork(Move(s, p, phase).polls) < TotalWork(s.polls)
  {
    TotalWorkUpdate(s.polls, p, s.polls[p].(phase := phase));
  }

  lemma AdvanceDecreases(polls: seq<Poll>, p: nat)
    requires p < |polls| && polls[p].pos < |polls[p].units| && Holds(polls[p].phase)
    ensures TotalWork(Advance(polls, p)) < TotalWork(polls)
  {
    TotalWorkUpdate(polls, p, Advance(polls, p)[p]);
  }

  lemma WakeDoesNotIncrease(polls: seq<Poll>, queue: seq<Delivery>)
    requires Waiters(polls, queue)
    ensures TotalWork(Wake(polls, queue)) <= TotalWork(polls)
  {
    if queue != [] {
      assert queue[0] in queue;
      TotalWorkUpdate(polls, queue[0].poll, polls[queue[0].poll].(phase := Admitted));
    }
  }

  lemma FinishDecreases(cfg: Config, s: State, p: nat, verdict: Verdict)
    requires WaitersConsistent(cfg, s)
    requires p < |s.polls| && s.polls[p].pos < |s.polls[p].units| && Holds(s.polls[p].phase)
    ensures TotalWork(Finish(cfg, s, p, verdict).polls) < TotalWork(s.polls)
  {
    var polls := Advance(s.polls, p);
    AdvanceDecreases(s.polls, p);
    AdvanceWaiters(s.polls, s.sem.queue, p);
    WakeDoesNotIncrease(polls, s.sem.queue);
    assert Finish(cfg, s, p, verdict).polls == if cfg.limit.None? then polls else Wake(polls, s.sem.queue);
  }

  ghost predicate MovesDown(s: State, t: State, p: nat) {
    && p < |s.polls| && p < |t.polls| && s.polls[p].pos < |s.polls[p].units|
    && t.polls == Move(s, p, t.polls[p].phase).polls
    && Rank(t.polls[p].phase) < Rank(s.polls[p].phase)
  }

  lemma EnterMovesDown(cfg: Config, s: State, e: Event)
    requires e.Enter? && InPhase(s, e.poll, Admitted) && !Finishes(s, e)
    ensures MovesDown(s, Step(cfg, s, e), e.poll)
  {
  }

  lemma LaterEventMovesDown(cfg: Config, s: State, e: Event)
    requires e.Validated? || e.DeadLettered? || e.Returned?
    requires Step(cfg, s, e) != s
    ensures MovesDown(s, Step(cfg, s, e), e.poll)
  {
  }

  lemma StepDecreases(cfg: Config, s: State, e: Event)
    requires Sound(cfg, s) && !e.Arrive? && Step(cfg, s, e) != s
    ensures TotalWork(Step(cfg, s, e).polls) < TotalWork(s.polls)
  {
    StepShape(cfg, s, e);
    var t := Step(cfg, s, e);
    if Finishes(s, e) {
      FinishDecreases(cfg, s, e.poll, FinishVerdict(s, e));
    } else {
      if e.Enter? {
        EnterMovesDown(cfg, s, e);
      } else if !e.Start? {
        LaterEventMovesDown(cfg, s, e);
      }
      assert MovesDown(s, t, e.poll);
      MoveDecreases(s, e.poll, t.polls[e.poll].phase);
    }
  }

  /** Each event is one that some callback can really take. */
  ghost predicate Effective(cfg: Config, s: State, events: seq<Event>) {
    forall i :: 0 <= i < |events| ==>
      !events[i].Arrive? && Step(cfg, Run(cfg, s, events[..i]), events[i]) != Run(cfg, s, events[..i])
  }

  /** When no further poll arrives, every schedule runs dry after a bounded number of events:
      no callback can keep the others from finishing. */
  lemma {:induction false} EveryScheduleRunsDry(cfg: Config, s: State, events: seq<Event>)
    requires Sound(cfg, s) && Effective(cfg, s, events)
    ensures Sound(cfg, Run(cfg, s, events))
    ensures |events| + TotalWork(Run(cfg, s, events).polls) <= TotalWork(s.polls)
  {
    if events != [] {
      var before, e := events[..|events| - 1], events[|events| - 1];
      var m := Run(cfg, s, before);
      assert Effective(cfg, s, before) by {
        forall i | 0 <= i < |before|
          ensures !before[i].Arrive? && Step(cfg, Run(cfg, s, before[..i]), before[i]) != Run(cfg, s, before[..i])
        {
          assert events[..i] == before[..i];
        }
      }
      EveryScheduleRunsDry(cfg, s, before);
      StepSound(cfg, m, e);
      StepDecreases(cfg, m, e);
    }
  }

  function Flatten(units: seq<seq<Message>>): seq<Message> {
    if units == [] then [] else Flatten(units[..|units| - 1]) + units[|units| - 1]
  }

  lemma {:induction false} SingletonsFlatten(units: seq<seq<Message>>, messages: seq<Message>)
    requires |units| == |messages| && forall i :: 0 <= i < |units| ==> units[i] == [messages[i]]
    ensures Flatten(units) == messages
  {
    if units != [] {
      var n := |units| - 1;
      SingletonsFlatten(units[..n], messages[..n]);
      assert messages == messages[..n] + [messages[n]];
    }
  }

  /** A new callback has all messages of its poll before it, in order: one by one, or all of
      them as one unit in batch mode.  The other callbacks are not affected. */
  lemma PollIsCutIntoUnits(cfg: Config, s: State, messages: seq<Message>)
    ensures var t := Step(cfg, s, Arrive(messages));
            && |t.polls| == |s.polls| + 1 && t.polls[..|s.polls|] == s.polls
            && Flatten(t.polls[|s.polls|].units) == messages
            && |t.polls[|s.polls|].units| == (if cfg.batch then 1 else |messages|)
            && t.polls[|s.polls|].pos == 0
  {
    var units := Units(cfg, messages);
    if cfg.batch {
      assert units[..0] == [];
      assert [] + messages == messages;
    } else {
      SingletonsFlatten(units, messages);
    }
  }

  /** A callback that was turned away at the semaphore stays where it is. */
  lemma {:induction false} OverflowIsFinal(cfg: Config, s: State, events: seq<Event>, p: nat)
    requires Sound(cfg, s) && p < |s.polls| && s.polls[p].phase == Overflowed
    ensures var t := Run(cfg, s, events);
            Sound(cfg, t) && p < |t.polls| && t.polls[p] == s.polls[p]
  {
    if events != [] {
      var before, e := events[..|events| - 1], events[|events| - 1];
      OverflowIsFinal(cfg, s, before, p);
      StepSound(cfg, Run(cfg, s, before), e);
      StepKeepsOverflowed(cfg, Run(cfg, s, before), e, p);
    }
  }

  lemma StepKeepsOverflowed(cfg: Config, s: State, e: Event, p: nat)
    requires WaitersConsistent(cfg, s) && p < |s.polls| && s.polls[p].phase == Overflowed
    ensures p < |Step(cfg, s, e).polls| && Step(cfg, s, e).polls[p] == s.polls[p]
  {
    StepShape(cfg, s, e);
    InnerShape(cfg, s, e);
    if s.sem.queue != [] {
      assert s.sem.queue[0] in s.sem.queue;
    }
  }

  // ------------------------------------------------------------ who is turned away

  /** The units that wait for a permit. */
  function Outside(polls: seq<Poll>): set<Delivery> {
    set p | 0 <= p < |polls| && polls[p].phase == Waiting :: Backpressure.Delivery(p, polls[p].pos)
  }

  lemma OutsideCounted(polls: seq<Poll>, queue: seq<Delivery>)
    requires Waiters(polls, queue)
    ensures |Outside(polls)| == |queue|
  {
    forall d ensures d in Outside(polls) <==> d in queue {
      if d in queue {
        assert d == Backpressure.Delivery(d.poll, polls[d.poll].pos);
      }
    }
    assert Outside(polls) == Elements(queue);
    DistinctCardinality(queue);
  }

  /** As many units are inside as there are permits, and as many wait as there is room for. */
  predicate Full(cfg: Config, s: State) {
    && cfg.limit.Some?
    && |Inside(s.polls)| == cfg.limit.value.maxConcurrent
    && |Outside(s.polls)| == Backpressure.Depth(cfg.limit.value)
  }

  lemma StartOverflowsIffFull(cfg: Config, s: State, p: nat)
    requires Sound(cfg, s) && InPhase(s, p, Idle)
    ensures Step(cfg, s, Start(p)).polls[p].phase == Overflowed <==> Full(cfg, s)
  {
    if cfg.limit.Some? {
      InsideCounted(cfg.limit.value, s);
      OutsideCounted(s.polls, s.sem.queue);
      Backpressure.TurnedAwayOnlyWhenFull(cfg.limit.value, s.sem);
    }
  }

  /** In the run, the callback asked for a permit for the unit when everything was full. */
  ghost predicate TurnedAway(cfg: Config, events: seq<Event>, d: Delivery) {
    exists i :: 0 <= i < |events| && AsksInVain(cfg, Run(cfg, INITIAL, events[..i]), events[i], d)
  }

  predicate AsksInVain(cfg: Config, s: State, e: Event, d: Delivery) {
    e == Start(d.poll) && InPhase(s, d.poll, Idle) && AtPos(s.polls, d) && Full(cfg, s)
  }

  predicate Stopped(s: State, d: Delivery) {
    AtPos(s.polls, d) && s.polls[d.poll].phase == Overflowed
  }

  lemma StepStops(cfg: Config, s: State, e: Event, d: Delivery)
    requires Sound(cfg, s)
    ensures Stopped(Step(cfg, s, e), d) <==> Stopped(s, d) || AsksInVain(cfg, s, e, d)
  {
    if Stopped(s, d) {
      StepKeepsOverflowed(cfg, s, e, d.poll);
    } else if e.Start? && InPhase(s, e.poll, Idle) {
      StartOverflowsIffFull(cfg, s, e.poll);
    } else if Stopped(Step(cfg, s, e), d) {
      OnlyStartStops(cfg, s, e, d);
    }
  }

  lemma OnlyStartStops(cfg: Config, s: State, e: Event, d: Delivery)
    requires WaitersConsistent(cfg, s) && Stopped(Step(cfg, s, e), d)
    requires !(e.Start? && InPhase(s, e.poll, Idle))
    ensures Stopped(s, d)
  {
    StepShape(cfg, s, e);
    if s.sem.queue != [] {
      assert s.sem.queue[0] in s.sem.queue;
    }
  }

  lemma TurnedAwaySnoc(cfg: Config, events: seq<Event>, e: Event, d: Delivery)
    ensures TurnedAway(cfg, events + [e], d) <==>
              TurnedAway(cfg, events, d) || AsksInVain(cfg, Run(cfg, INITIAL, events), e, d)
  {
    var all := events + [e];
    assert all[..|events|] == events;
    forall i | 0 <= i < |events| ensures all[..i] == events[..i] && all[i] == events[i] {
    }
    if TurnedAway(cfg, events, d) {
      var i :| 0 <= i < |events| && AsksInVain(cfg, Run(cfg, INITIAL, events[..i]), events[i], d);
      assert AsksInVain(cfg, Run(cfg, INITIAL, all[..i]), all[i], d);
    }
    if AsksInVain(cfg, Run(cfg, INITIAL, events), e, d) {
      assert AsksInVain(cfg, Run(cfg, INITIAL, all[..|events|]), all[|events|], d);
    }
  }

  /** A callback has stopped at a unit if and only if it asked for the unit's permit when every
      permit was out and the queue was full. */
  lemma {:induction false} StoppedIffTurnedAway(cfg: Config, events: seq<Event>, d: Delivery)
    requires Sensible(cfg)
    ensures Stopped(Run(cfg, INITIAL, events), d) <==> TurnedAway(cfg, events, d)
  {
    if events != [] {
      var before, e := events[..|events| - 1], events[|events| - 1];
      assert events == before + [e];
      StoppedIffTurnedAway(cfg, before, d);
      TurnedAwaySnoc(cfg, before, e, d);
      RunSound(cfg, before);
      StepStops(cfg, Run(cfg, INITIAL, before), e, d);
    }
  }

  /** What is settled in the end.  When no callback can go on, a message in auto-ack mode has
      been settled exactly once, unless its callback asked for the permit of that unit or of an
      earlier one when everything was full; then it has not been settled at all. */
  lemma SettledInTheEnd(cfg: Config, events: seq<Event>, d: Delivery, message: nat)
    requires Sensible(cfg) && !cfg.manualAck && Quiescent(cfg, Run(cfg, INITIAL, events))
    requires message < |Unit(Run(cfg, INITIAL, events).polls, d)|
    ensures var n := |Settlements(Run(cfg, INITIAL, events).calls, d, message)|;
            && n <= 1
            && (n == 0 <==> exists u :: 0 <= u <= d.unit && TurnedAway(cfg, events, Backpressure.Delivery(d.poll, u)))
  {
    var s := Run(cfg, INITIAL, events);
    QuiescentMeansDone(cfg, events, d.poll);
    SettledExactlyOnce(cfg, events, d, message);
    var poll := s.polls[d.poll];
    var at := Backpressure.Delivery(d.poll, poll.pos);
    StoppedIffTurnedAway(cfg, events, at);
    if poll.phase == Overflowed && poll.pos <= d.unit {
      assert TurnedAway(cfg, events, at);
    }
    forall u | 0 <= u <= d.unit && TurnedAway(cfg, events, Backpressure.Delivery(d.poll, u))
      ensures poll.phase == Overflowed && poll.pos == u
    {
      StoppedIffTurnedAway(cfg, events, Backpressure.Delivery(d.poll, u));
    }
  }

  // ------------------------------------------------------------ overflow can happen

  /** One poll after the other asks for a permit. */
  function Crowd(n: nat): seq<Event> {
    if n == 0 then [] else Crowd(n - 1) + [Arrive([Message(0, "")])] + [Start(n - 1)]
  }

  /** Permits and waiting places. */
  function Room(limits: Backpressure.Limits): nat {
    (if limits.maxConcurrent < 0 then 0 else limits.maxConcurrent) + Backpressure.Depth(limits)
  }

  ghost predicate Crowded(limits: Backpressure.Limits, s: State, n: nat) {
    && |s.polls| == n
    && s.sem.running == (if n < limits.maxConcurrent then n else limits.maxConcurrent)
    && |s.sem.queue| == n - s.sem.running
  }

  lemma OneMoreAsks(cfg: Config, s: State, n: nat)
    requires Sensible(cfg) && cfg.limit.Some? && Crowded(cfg.limit.value, s, n)
    requires n < Room(cfg.limit.value)
    ensures Crowded(cfg.limit.value, Step(cfg, Step(cfg, s, Arrive([Message(0, "")])), Start(n)), n + 1)
  {
    var m := Step(cfg, s, Arrive([Message(0, "")]));
    assert |m.polls[n].units| == 1;
  }

  lemma OneTooMany(cfg: Config, s: State)
    requires Sensible(cfg) && cfg.limit.Some? && Crowded(cfg.limit.value, s, Room(cfg.limit.value))
    ensures var n := Room(cfg.limit.value);
            var t := Step(cfg, Step(cfg, s, Arrive([Message(0, "")])), Start(n));
            n < |t.polls| && t.polls[n].phase == Overflowed
  {
    var m := Step(cfg, s, Arrive([Message(0, "")]));
    assert |m.polls[Room(cfg.limit.value)].units| == 1;
  }

  /** The state that the crowd leads to. */
  function AfterCrowd(cfg: Config, n: nat): State {
    Run(cfg, INITIAL, Crowd(n))
  }

  lemma CrowdSnoc(cfg: Config, n: nat)
    ensures AfterCrowd(cfg, n + 1) ==
            Step(cfg, Step(cfg, AfterCrowd(cfg, n), Arrive([Message(0, "")])), Start(n))
  {
    RunSnoc(cfg, INITIAL, Crowd(n), Arrive([Message(0, "")]));
    RunSnoc(cfg, INITIAL, Crowd(n) + [Arrive([Message(0, "")])], Start(n));
  }

  lemma NobodyCrowds(cfg: Config)
    requires Sensible(cfg) && cfg.limit.Some?
    ensures Crowded(cfg.limit.value, AfterCrowd(cfg, 0), 0)
  {
    assert AfterCrowd(cfg, 0) == INITIAL;
  }

  lemma CrowdGrows(cfg: Config, n: nat)
    requires Sensible(cfg) && cfg.limit.Some? && n < Room(cfg.limit.value)
    requires Crowded(cfg.limit.value, AfterCrowd(cfg, n), n)
    ensures Crowded(cfg.limit.value, AfterCrowd(cfg, n + 1), n + 1)
  {
    CrowdSnoc(cfg, n);
    OneMoreAsks(cfg, AfterCrowd(cfg, n), n);
  }

  lemma {:induction false} CrowdFills(cfg: Config, n: nat)
    requires Sensible(cfg) && cfg.limit.Some? && n <= Room(cfg.limit.value)
    ensures Crowded(cfg.limit.value, AfterCrowd(cfg, n), n)
  {
    if n == 0 {
      NobodyCrowds(cfg);
    } else {
      CrowdFills(cfg, n - 1);
      CrowdGrows(cfg, n - 1);
    }
  }

  /** Under every limit there is a run in which a callback is turned away: one poll more than
      permits and waiting places arrives before any of them is done. */
  lemma OverflowIsReachable(cfg: Config)
    requires Sensible(cfg) && cfg.limit.Some?
    ensures var n := Room(cfg.limit.value);
            var s := Run(cfg, INITIAL, Crowd(n + 1));
            n < |s.polls| && s.polls[n].phase == Overflowed
  {
    var n := Room(cfg.limit.value);
    CrowdFills(cfg, n);
    CrowdSnoc(cfg, n);
    OneTooMany(cfg, AfterCrowd(cfg, n));
  }
}
