/**
 The FIFO semaphore in front of a queue handler.  Callers are deliveries; the logs record
 every answer the semaphore ever gave.
 */
module Backpressure {

  /** One unit of work of one poll callback. */
  datatype Delivery = Delivery(poll: nat, unit: nat)

  datatype Limits = Limits(maxConcurrent: int, maxQueueDepth: int)

  datatype Answer = Granted | Queued | Rejected

  datatype Semaphore = Semaphore(
    running: int,
    queue: seq<Delivery>,
    accepted: seq<Delivery>,
    granted: seq<Delivery>,
    rejected: seq<Delivery>,
    released: seq<Delivery>)

  const FRESH := Semaphore(0, [], [], [], [], [])

  datatype Op = Acquire(who: Delivery) | Release(who: Delivery)

  function Ask(cfg: Limits, s: Semaphore): Answer {
    if s.running < cfg.maxConcurrent then Granted
    else if |s.queue| >= cfg.maxQueueDepth then Rejected
    else Queued
  }

  function Acquired(cfg: Limits, s: Semaphore, d: Delivery): Semaphore {
    match Ask(cfg, s)
    case Granted => s.(running := s.running + 1, accepted := s.accepted + [d], granted := s.granted + [d])
    case Rejected => s.(rejected := s.rejected + [d])
    case Queued => s.(queue := s.queue + [d], accepted := s.accepted + [d])
  }

  function Released(s: Semaphore, d: Delivery): Semaphore {
    if s.queue != [] then
      s.(queue := s.queue[1..], granted := s.granted + [s.queue[0]], released := s.released + [d])
    else
      s.(running := if s.running - 1 > 0 then s.running - 1 else 0, released := s.released + [d])
  }

  function Apply(cfg: Limits, s: Semaphore, op: Op): Semaphore {
    match op
    case Acquire(d) => Acquired(cfg, s, d)
    case Release(d) => Released(s, d)
  }

  function Run(cfg: Limits, s: Semaphore, ops: seq<Op>): Semaphore {
    if ops == [] then s else Apply(cfg, Run(cfg, s, ops[..|ops| - 1]), ops[|ops| - 1])
  }

  /** Nobody waits while a permit is free, the bound holds, and the accepted callers are the
      granted ones followed by the waiting ones: no newcomer overtakes a waiter. */
  ghost predicate Fifo(cfg: Limits, s: Semaphore) {
    && 0 <= s.running <= cfg.maxConcurrent
    && (s.queue != [] ==> s.running == cfg.maxConcurrent)
    && s.accepted == s.granted + s.queue
    && |s.queue| <= Depth(cfg)
  }

  function Depth(cfg: Limits): nat {
    if cfg.maxQueueDepth < 0 then 0 else cfg.maxQueueDepth
  }

  /** A caller is turned away exactly when every permit is out and the queue is full, and it
      waits exactly when every permit is out and there is room to wait. */
  lemma TurnedAwayOnlyWhenFull(cfg: Limits, s: Semaphore)
    requires Fifo(cfg, s)
    ensures Ask(cfg, s) == Rejected <==> s.running == cfg.maxConcurrent && |s.queue| == Depth(cfg)
    ensures Ask(cfg, s) == Queued <==> s.running == cfg.maxConcurrent && |s.queue| < Depth(cfg)
    ensures Ask(cfg, s) == Granted ==> s.queue == []
  {
  }

  /** Every permit in use was granted and not yet given back. */
  ghost predicate Conserved(s: Semaphore) {
    s.running == |s.granted| - |s.released|
  }

  lemma ApplyFifo(cfg: Limits, s: Semaphore, op: Op)
    requires Fifo(cfg, s)
    ensures Fifo(cfg, Apply(cfg, s, op))
    ensures s.accepted <= Apply(cfg, s, op).accepted
    ensures s.granted <= Apply(cfg, s, op).granted
  {
    if op.Release? && s.queue != [] {
      assert s.queue == [s.queue[0]] + s.queue[1..];
    }
  }

  /** First come, first served over every run, however releases and acquires interleave. */
  lemma {:induction false} RunFifo(cfg: Limits, s: Semaphore, ops: seq<Op>)
    requires Fifo(cfg, s)
    ensures Fifo(cfg, Run(cfg, s, ops))
    ensures s.accepted <= Run(cfg, s, ops).accepted
    ensures s.granted <= Run(cfg, s, ops).granted
  {
    if ops != [] {
      RunFifo(cfg, s, ops[..|ops| - 1]);
      ApplyFifo(cfg, Run(cfg, s, ops[..|ops| - 1]), ops[|ops| - 1]);
    }
  }

  /** A release by the holder of a permit keeps the count; the clamp at zero is not used. */
  lemma ReleaseConserves(s: Semaphore, d: Delivery)
    requires Conserved(s) && s.running >= 1
    ensures Conserved(Released(s, d))
    ensures s.queue == [] ==> Released(s, d).running == s.running - 1
  {
  }

  function Releases(ops: seq<Op>): nat {
    if ops == [] then 0 else Releases(ops[..|ops| - 1]) + if ops[|ops| - 1].Release? then 1 else 0
  }

  lemma {:induction false} GrantsFollowReleases(cfg: Limits, s: Semaphore, ops: seq<Op>)
    requires Fifo(cfg, s) && s.queue != []
    ensures var t := Run(cfg, s, ops);
            && (Releases(ops) <= |s.queue| ==>
                  |t.granted| == |s.granted| + Releases(ops) && t.running == cfg.maxConcurrent)
            && (Releases(ops) > |s.queue| ==> |t.granted| >= |s.granted| + |s.queue|)
  {
    if ops != [] {
      var before := ops[..|ops| - 1];
      GrantsFollowReleases(cfg, s, before);
      RunFifo(cfg, s, before);
      ApplyFifo(cfg, Run(cfg, s, before), ops[|ops| - 1]);
    }
  }

  /** The waiter at position i gets its permit from exactly the (i + 1)th release: after i
      releases it still waits, after i + 1 it has been granted. */
  lemma WaiterGrantedByItsRelease(cfg: Limits, s: Semaphore, ops: seq<Op>, i: nat)
    requires Fifo(cfg, s) && i < |s.queue|
    ensures var t := Run(cfg, s, ops);
            && (|s.granted| + i < |t.granted| <==> Releases(ops) > i)
            && (Releases(ops) > i ==> t.granted[|s.granted| + i] == s.queue[i])
            && (Releases(ops) <= i ==>
                  i - Releases(ops) < |t.queue| && t.queue[i - Releases(ops)] == s.queue[i])
  {
    var t := Run(cfg, s, ops);
    GrantsFollowReleases(cfg, s, ops);
    RunFifo(cfg, s, ops);
    var at := |s.granted| + i;
    assert s.accepted[at] == s.queue[i];
    assert t.accepted[at] == s.accepted[at];
  }

  // ------------------------------------------------------------------ the implementation

  class BackpressureSemaphore {
    var running: int
    var queue: seq<Delivery>
    const cfg: Limits
    ghost var accepted: seq<Delivery>
    ghost var granted: seq<Delivery>
    ghost var rejected: seq<Delivery>
    ghost var released: seq<Delivery>

    constructor (cfg: Limits)
      ensures this.cfg == cfg && View() == FRESH
    {
      this.cfg := cfg;
      running, queue := 0, [];
      accepted, granted, rejected, released := [], [], [], [];
    }

    ghost function View(): Semaphore
      reads this
    {
      Semaphore(running, queue, accepted, granted, rejected, released)
    }

    /** `Queued` stands for the pending promise that a later release resolves. */
    method TryAcquire(d: Delivery) returns (answer: Answer)
      modifies this
      ensures answer == Ask(cfg, old(View()))
      ensures View() == Acquired(cfg, old(View()), d)
    {
      if running < cfg.maxConcurrent {
        running := running + 1;
        accepted, granted := accepted + [d], granted + [d];
        return Granted;
      }
      if |queue| >= cfg.maxQueueDepth {
        rejected := rejected + [d];
        return Rejected;
      }
      queue := queue + [d];
      accepted := accepted + [d];
      return Queued;
    }

    /** Returns the waiters whose promise the release resolves: none or one. */
    method GiveBack(d: Delivery) returns (woken: seq<Delivery>)
      modifies this
      ensures View() == Released(old(View()), d)
      ensures old(queue) == woken + queue
      ensures |woken| <= 1 && (woken == [] <==> old(queue) == [])
    {
      woken := [];
      if |queue| > 0 {
        var next := queue[0];
        queue := queue[1..];
        woken := [next];
        granted := granted + [next];
      } else {
        running := if running - 1 > 0 then running - 1 else 0;
      }
      released := released + [d];
    }
  }
}
