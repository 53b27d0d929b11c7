/**
 The queue handler binding: the code between two awaits of the poll callback, working on the
 semaphore and the cache that the binding owns.  Each method is one event of the pipeline.
 */
module QueueSubscription {
  import opened Options
  import opened QueuePipeline
  import Backpressure
  import Idempotency

  class QueueSubscriber {
    const cfg: Config
    const sem: Backpressure.BackpressureSemaphore?
    const cache: Idempotency.IdempotencyCache?
    var polls: seq<Poll>
    var calls: seq<Call>
    ghost var handled: seq<Delivery>
    ghost var succeeded: seq<Delivery>
    ghost var finished: seq<Delivery>
    ghost var results: seq<Result>
    ghost var letters: seq<Letter>

    ghost predicate Valid()
      reads this
    {
      && (cfg.limit.Some? <==> sem != null)
      && (cfg.dedup.Some? <==> cache != null)
      && (sem != null ==> sem.cfg == cfg.limit.value)
      && (cache != null ==> cache.cfg == cfg.dedup.value)
    }

    ghost function View(): State
      reads this, sem, cache
    {
      State(
        polls,
        if sem == null then Backpressure.FRESH else sem.View(),
        if cache == null then Idempotency.EMPTY else cache.View(),
        handled, succeeded, finished, results, calls, letters)
    }

    /** The part of `bindHandler` that sets up a queue handler. */
    constructor (options: HandlerOptions)
      ensures Valid() && cfg == Configured(options) && View() == INITIAL
      ensures sem != null ==> fresh(sem)
      ensures cache != null ==> fresh(cache)
    {
      var effective := if options.concurrency.Some? then options.concurrency else options.maxConcurrent;
      var limit: Option<Backpressure.Limits>, dedup: Option<Idempotency.Config> := None, None;
      if effective.Some? && effective.value != 0 {
        limit := Some(Backpressure.Limits(effective.value, OrElse(options.maxQueueDepth, 1000)));
        sem := new Backpressure.BackpressureSemaphore(limit.value);
      } else {
        sem := null;
      }
      if options.idempotency.Some? {
        dedup := Some(Idempotency.Config(OrElse(options.idempotency.value.maxCacheSize, 10_000),
                                         OrElse(options.idempotency.value.ttlSeconds, 300) * 1000));
        cache := new Idempotency.IdempotencyCache(dedup.value);
      } else {
        cache := null;
      }
      cfg := Config(limit, dedup, options.manualAck, options.batch, options.validates, options.deadLetters);
      polls, calls := [], [];
      handled, succeeded, finished, results, letters := [], [], [], [], [];
    }

    method OnMessages(messages: seq<Message>)
      requires Valid()
      modifies this
      ensures Valid() && View() == Step(cfg, old(View()), Arrive(messages))
    {
      polls := polls + [Poll(Units(cfg, messages), 0, Idle)];
    }

    method SetPhase(p: nat, phase: Phase)
      requires p < |polls|
      modifies this`polls
      ensures View() == Move(old(View()), p, phase)
    {
      polls := polls[p := polls[p].(phase := phase)];
    }

    method StartUnit(p: nat)
      requires Valid() && InPhase(View(), p, Idle)
      modifies this, sem
      ensures Valid() && View() == Step(cfg, old(View()), Start(p))
    {
      if sem == null {
        SetPhase(p, Admitted);
      } else {
        var answer := sem.TryAcquire(Backpressure.Delivery(p, polls[p].pos));
        match answer
        case Granted => SetPhase(p, Admitted);
        case Queued => SetPhase(p, Waiting);
        case Rejected => SetPhase(p, Overflowed);
      }
    }

    method CallHandler(p: nat)
      requires p < |polls|
      modifies this
      ensures View() == Handle(old(View()), p)
    {
      handled := handled + [Current(View(), p)];
      SetPhase(p, Handling);
    }

    method EnterTry(p: nat, now: int, decodes: bool)
      requires Valid() && InPhase(View(), p, Admitted)
      modifies this, sem, cache
      ensures Valid() && View() == Step(cfg, old(View()), Enter(p, now, decodes))
    {
      var unit := polls[p].units[polls[p].pos];
      if !decodes || unit == [] {
        FinishUnit(p, Failed);
        return;
      }
      var key := unit[0].key;
      if cache != null && key != "" {
        var seen := cache.Contains(now, key);
        if seen {
          SetPhase(p, Settling(Duplicate));
          return;
        }
      }
      if cfg.validates {
        SetPhase(p, Validating);
      } else {
        CallHandler(p);
      }
    }

    method OnValidated(p: nat, validation: Validation)
      requires Valid() && InPhase(View(), p, Validating)
      modifies this
      ensures Valid() && View() == Step(cfg, old(View()), Validated(p, validation))
    {
      match validation
      case Accepted => CallHandler(p);
      case Invalid =>
        if cfg.deadLetters {
          letters := letters + LetterFor(polls, Backpressure.Delivery(p, polls[p].pos));
          SetPhase(p, DeadLettering);
        } else {
          SetPhase(p, Settling(Refused));
        }
      case Threw => SetPhase(p, Settling(Failed));
    }

    method OnDeadLettered(p: nat)
      requires Valid() && InPhase(View(), p, DeadLettering)
      modifies this
      ensures Valid() && View() == Step(cfg, old(View()), DeadLettered(p))
    {
      SetPhase(p, Settling(Refused));
    }

    method OnReturned(p: nat, now: int, ok: bool)
      requires Valid() && InPhase(View(), p, Handling)
      modifies this, cache
      ensures Valid() && View() == Step(cfg, old(View()), Returned(p, now, ok))
    {
      if !ok {
        SetPhase(p, Settling(Failed));
        return;
      }
      succeeded := succeeded + [Current(View(), p)];
      var unit := polls[p].units[polls[p].pos];
      if cache != null && unit != [] && unit[0].key != "" {
        cache.Remember(now, unit[0].key);
      }
      SetPhase(p, Settling(Succeeded));
    }

    method SettleUnit(p: nat)
      requires Valid() && p < |polls| && polls[p].phase.Settling? && InPhase(View(), p, polls[p].phase)
      modifies this, sem
      ensures Valid() && View() == Step(cfg, old(View()), Settle(p))
    {
      FinishUnit(p, polls[p].phase.verdict);
    }

    /** Calls `ack` or `nack` on every message of the unit. */
    method CallAll(d: Delivery, size: nat, ack: bool)
      modifies this`calls
      ensures calls == old(calls) + Repeat(d, size, ack)
    {
      for i := 0 to size
        invariant calls == old(calls) + Repeat(d, i, ack)
      {
        calls := calls + [Call(d, i, ack)];
      }
    }

    method ReleasePermit(d: Delivery)
      requires Valid()
      modifies this`polls, sem
      ensures Valid() && View() == PermitBack(cfg, old(View()), d)
    {
      if sem != null {
        var woken := sem.GiveBack(d);
        if |woken| > 0 && woken[0].poll < |polls| {
          polls := polls[woken[0].poll := polls[woken[0].poll].(phase := Admitted)];
        }
      }
    }

    /** The end of the try block: settles the messages and steps to the next unit. */
    method ConcludeUnit(p: nat, verdict: Verdict)
      requires Valid() && p < |polls| && polls[p].pos < |polls[p].units|
      modifies this`calls, this`finished, this`results, this`polls
      ensures View() == Concluded(cfg, old(View()), p, verdict)
    {
      var d := Backpressure.Delivery(p, polls[p].pos);
      var size := |polls[p].units[polls[p].pos]|;
      if !cfg.manualAck {
        CallAll(d, size, verdict != Failed);
      }
      finished, results := finished + [d], results + [Result(size, verdict)];
      polls := polls[p := polls[p].(pos := polls[p].pos + 1, phase := Idle)];
    }

    method FinishUnit(p: nat, verdict: Verdict)
      requires Valid() && p < |polls| && polls[p].pos < |polls[p].units|
      modifies this, sem
      ensures Valid() && View() == Finish(cfg, old(View()), p, verdict)
    {
      var d := Backpressure.Delivery(p, polls[p].pos);
      ConcludeUnit(p, verdict);
      ReleasePermit(d);
    }
  }
}
