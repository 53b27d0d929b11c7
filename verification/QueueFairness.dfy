/**
 The semaphore inside the delivery pipeline.  A run of the pipeline is a run of its semaphore,
 so first come, first served carries over to the units.
 */
module QueueFairness {
  import opened Options
  import opened QueuePipeline
  import opened QueueInvariants
  import opened QueueTheorems
  import Backpressure

  /** What an event of the pipeline does to the semaphore. */
  function SemaphoreOp(cfg: Config, s: State, e: Event): Option<Backpressure.Op> {
    if cfg.limit.None? then None
    else if e.Start? && InPhase(s, e.poll, Idle) then Some(Backpressure.Acquire(Current(s, e.poll)))
    else if Finishes(s, e) then Some(Backpressure.Release(Current(s, e.poll)))
    else None
  }

  function WithOp(ops: seq<Backpressure.Op>, op: Option<Backpressure.Op>): seq<Backpressure.Op> {
    if op.None? then ops else ops + [op.value]
  }

  function SemaphoreOps(cfg: Config, s: State, events: seq<Event>): seq<Backpressure.Op> {
    if events == [] then [] else
      var before := events[..|events| - 1];
      WithOp(SemaphoreOps(cfg, s, before), SemaphoreOp(cfg, Run(cfg, s, before), events[|events| - 1]))
  }

  lemma FinishReleases(cfg: Config, s: State, e: Event)
    requires cfg.limit.Some? && Finishes(s, e)
    ensures Step(cfg, s, e).sem == Backpressure.Released(s.sem, Current(s, e.poll))
  {
    StepShape(cfg, s, e);
  }

  lemma StepRunsSemaphore(cfg: Config, s: State, e: Event)
    requires cfg.limit.Some?
    ensures var op := SemaphoreOp(cfg, s, e);
            Step(cfg, s, e).sem == if op.None? then s.sem else Backpressure.Apply(cfg.limit.value, s.sem, op.value)
  {
    InnerShape(cfg, s, e);
    if Finishes(s, e) {
      FinishReleases(cfg, s, e);
    }
  }

  lemma WithOpRuns(
    limits: Backpressure.Limits, sem: Backpressure.Semaphore, ops: seq<Backpressure.Op>, op: Option<Backpressure.Op>)
    ensures var before := Backpressure.Run(limits, sem, ops);
            Backpressure.Run(limits, sem, WithOp(ops, op)) ==
              if op.None? then before else Backpressure.Apply(limits, before, op.value)
    ensures Backpressure.Releases(WithOp(ops, op)) ==
            Backpressure.Releases(ops) + if op.Some? && op.value.Release? then 1 else 0
  {
    if op.Some? {
      assert (ops + [op.value])[..|ops|] == ops;
    }
  }

  /** A run of the pipeline is a run of its semaphore, so all that holds over every run of the
      semaphore holds for the queue handler. */
  lemma {:induction false} PipelineRunsItsSemaphore(cfg: Config, s: State, events: seq<Event>)
    requires cfg.limit.Some?
    ensures Run(cfg, s, events).sem == Backpressure.Run(cfg.limit.value, s.sem, SemaphoreOps(cfg, s, events))
  {
    if events != [] {
      var before, e := events[..|events| - 1], events[|events| - 1];
      PipelineRunsItsSemaphore(cfg, s, before);
      StepRunsSemaphore(cfg, Run(cfg, s, before), e);
      WithOpRuns(
        cfg.limit.value, s.sem, SemaphoreOps(cfg, s, before), SemaphoreOp(cfg, Run(cfg, s, before), e));
    }
  }

  /** How many units end in the run. */
  function Endings(cfg: Config, s: State, events: seq<Event>): nat {
    if events == [] then 0 else
      var before := events[..|events| - 1];
      Endings(cfg, s, before) + if Finishes(Run(cfg, s, before), events[|events| - 1]) then 1 else 0
  }

  lemma EndingIsRelease(cfg: Config, s: State, e: Event)
    requires cfg.limit.Some?
    ensures var op := SemaphoreOp(cfg, s, e); (op.Some? && op.value.Release?) <==> Finishes(s, e)
  {
  }

  lemma {:induction false} EndingsAreReleases(cfg: Config, s: State, events: seq<Event>)
    requires cfg.limit.Some?
    ensures Backpressure.Releases(SemaphoreOps(cfg, s, events)) == Endings(cfg, s, events)
  {
    if events != [] {
      var before, e := events[..|events| - 1], events[|events| - 1];
      EndingsAreReleases(cfg, s, before);
      EndingIsRelease(cfg, Run(cfg, s, before), e);
      WithOpRuns(
        cfg.limit.value, s.sem, SemaphoreOps(cfg, s, before), SemaphoreOp(cfg, Run(cfg, s, before), e));
    }
  }

  /** The unit has been given a permit. */
  predicate LetIn(s: State, d: Delivery) {
    Past(s.polls, d) || (AtPos(s.polls, d) && Holds(s.polls[d.poll].phase))
  }

  lemma GrantedIsLetIn(cfg: Config, s: State, d: Delivery)
    requires Sound(cfg, s) && cfg.limit.Some?
    ensures d in s.sem.granted <==> LetIn(s, d)
    ensures d in s.sem.queue ==> !LetIn(s, d)
  {
  }

  lemma WaiterGranted(cfg: Config, s: State, events: seq<Event>, i: nat)
    requires cfg.limit.Some? && Backpressure.Fifo(cfg.limit.value, s.sem) && i < |s.sem.queue|
    ensures var t, d := Run(cfg, s, events).sem, s.sem.queue[i];
            if Endings(cfg, s, events) > i then d in t.granted else d in t.queue
  {
    var t, n := Run(cfg, s, events).sem, Endings(cfg, s, events);
    PipelineRunsItsSemaphore(cfg, s, events);
    EndingsAreReleases(cfg, s, events);
    Backpressure.WaiterGrantedByItsRelease(cfg.limit.value, s.sem, SemaphoreOps(cfg, s, events), i);
    assert n > i ==> t.granted[|s.sem.granted| + i] in t.granted;
    assert n <= i ==> t.queue[i - n] in t.queue;
  }

  /** The unit that waits at position i is let in by exactly the (i + 1)th unit that ends, in
      every interleaving and whatever other callbacks arrive. */
  lemma WaiterLetInByItsEnding(cfg: Config, s: State, events: seq<Event>, i: nat)
    requires Sound(cfg, s) && cfg.limit.Some? && i < |s.sem.queue|
    ensures LetIn(Run(cfg, s, events), s.sem.queue[i]) <==> Endings(cfg, s, events) > i
  {
    SoundMeansFifo(cfg, s);
    WaiterGranted(cfg, s, events, i);
    RunStaysSound(cfg, s, events);
    GrantedIsLetIn(cfg, Run(cfg, s, events), s.sem.queue[i]);
  }

  lemma SoundMeansFifo(cfg: Config, s: State)
    requires Sound(cfg, s) && cfg.limit.Some?
    ensures Backpressure.Fifo(cfg.limit.value, s.sem)
  {
  }
}
