/**
 How the client proxy uses its circuit breaker: `publish` for commands and queries,
 `dispatchEvent` for events and queue messages.  A request takes a probe before anything
 else is checked, so it can be spent without ever reporting an outcome.
 */
module ClientRequests {
  import opened Options
  import opened CircuitBreaking
  import opened Timers

  /** `rpcs` and `sends` are the requests handed to the SDK whose promise is still pending.
      `catching` counts the replies whose `then` callback has thrown because the body did not
      decode, and whose `catch` callback is still to run: it is a job of its own, and other
      jobs can come in between. */
  datatype Proxy = Proxy(breaker: Breaker, rpcs: nat, catching: nat, sends: nat)

  const START := Proxy(FRESH, 0, 0, 0)

  datatype Reply = Answered | Undecodable | Rejected

  datatype Event =
    | Publish(connected: bool, serializes: bool)
    | Replied(now: int, reply: Reply)
    | Caught(now: int)
    | Dispatch(connected: bool, serializes: bool)
    | Dispatched(now: int, ok: bool)
    | ResetTimer(id: nat, now: int)
    | Close

  function Step(cfg: Config, p: Proxy, e: Event): Proxy {
    match e
    case Publish(connected, serializes) =>
      var sent := Admits(p.breaker) && connected && serializes;
      p.(breaker := Guarded(p.breaker), rpcs := if sent then p.rpcs + 1 else p.rpcs)
    case Dispatch(connected, serializes) =>
      var sent := Admits(p.breaker) && connected && serializes;
      p.(breaker := Guarded(p.breaker), sends := if sent then p.sends + 1 else p.sends)
    case Replied(now, reply) =>
      if p.rpcs == 0 then p else
        p.(breaker := if reply == Rejected then Failed(cfg, p.breaker, now) else Succeeded(cfg, p.breaker, now),
           rpcs := p.rpcs - 1,
           catching := if reply == Undecodable then p.catching + 1 else p.catching)
    case Caught(now) =>
      if p.catching == 0 then p
      else p.(breaker := Failed(cfg, p.breaker, now), catching := p.catching - 1)
    case Dispatched(now, ok) =>
      if p.sends == 0 then p else
        p.(breaker := if ok then Succeeded(cfg, p.breaker, now) else Failed(cfg, p.breaker, now),
           sends := p.sends - 1)
    case ResetTimer(id, now) => p.(breaker := Fired(cfg, p.breaker, id, now))
    case Close => p.(breaker := Disarmed(p.breaker))
  }

  function Run(cfg: Config, p: Proxy, events: seq<Event>): Proxy {
    if events == [] then p else Step(cfg, Run(cfg, p, events[..|events| - 1]), events[|events| - 1])
  }

  lemma RunSnoc(cfg: Config, p: Proxy, events: seq<Event>, e: Event)
    ensures Run(cfg, p, events + [e]) == Step(cfg, Run(cfg, p, events), e)
  {
    assert (events + [e])[..|events|] == events;
  }

  lemma {:induction false} RunAppend(cfg: Config, p: Proxy, first: seq<Event>, second: seq<Event>)
    ensures Run(cfg, p, first + second) == Run(cfg, Run(cfg, p, first), second)
  {
    if second == [] {
      assert first + second == first;
    } else {
      var n := |second| - 1;
      assert (first + second)[..|first + second| - 1] == first + second[..n];
      RunAppend(cfg, p, first, second[..n]);
    }
  }

  /** The event n times over. */
  function Times(e: Event, n: nat): seq<Event> {
    seq(n, _ => e)
  }

  lemma RunOnceMore(cfg: Config, p: Proxy, e: Event, n: nat)
    ensures Run(cfg, p, Times(e, n + 1)) == Step(cfg, Run(cfg, p, Times(e, n)), e)
  {
    assert Times(e, n + 1) == Times(e, n) + [e];
    RunSnoc(cfg, p, Times(e, n), e);
  }

  /** Half-open; as in every run, no timer is pending then. */
  predicate Waiting(p: Proxy) {
    p.breaker.status == HalfOpen && p.breaker.timers.pending == map[]
  }

  /** No request can still report an outcome. */
  predicate Settled(p: Proxy) {
    p.rpcs == 0 && p.catching == 0 && p.sends == 0
  }

  /** Half-open, no probe left and no request that could still report an outcome. */
  predicate Stranded(p: Proxy) {
    Waiting(p) && p.breaker.allowed <= 0 && Settled(p)
  }

  /** A stranded proxy stays as it is and rejects every request, for ever. */
  lemma {:induction false} StrandedForever(cfg: Config, p: Proxy, events: seq<Event>)
    requires Stranded(p)
    ensures Stranded(Run(cfg, p, events)) && !Admits(Run(cfg, p, events).breaker)
  {
    if events != [] {
      StrandedForever(cfg, p, events[..|events| - 1]);
    }
  }

  ghost predicate CanLeaveHalfOpen(cfg: Config, p: Proxy) {
    exists events :: Run(cfg, p, events).breaker.status != HalfOpen
  }

  /** The event reports an outcome of a request of the proxy. */
  predicate Reports(p: Proxy, e: Event) {
    || (e.Replied? && p.rpcs > 0)
    || (e.Caught? && p.catching > 0)
    || (e.Dispatched? && p.sends > 0)
  }

  lemma ReportLeavesHalfOpen(cfg: Config, p: Proxy, e: Event)
    requires p.breaker.status == HalfOpen && Reports(p, e)
    ensures Step(cfg, p, e).breaker.status != HalfOpen
  {
  }

  lemma LeavesAfter(cfg: Config, p: Proxy, first: seq<Event>, e: Event)
    requires Run(cfg, p, first).breaker.status == HalfOpen && Reports(Run(cfg, p, first), e)
    ensures CanLeaveHalfOpen(cfg, p)
  {
    RunSnoc(cfg, p, first, e);
    ReportLeavesHalfOpen(cfg, Run(cfg, p, first), e);
  }

  /** The half-open state can be left if and only if a probe is left or a request can still
      report an outcome. */
  lemma HalfOpenLeftIffProbeOrPending(cfg: Config, p: Proxy)
    requires Waiting(p)
    ensures CanLeaveHalfOpen(cfg, p) <==> p.breaker.allowed > 0 || !Settled(p)
  {
    if Stranded(p) {
      forall events ensures Run(cfg, p, events).breaker.status == HalfOpen {
        StrandedForever(cfg, p, events);
      }
    } else if Settled(p) {
      RunSnoc(cfg, p, [], Publish(true, true));
      LeavesAfter(cfg, p, [] + [Publish(true, true)], Replied(0, Answered));
    } else {
      var e := if p.rpcs > 0 then Replied(0, Answered) else if p.sends > 0 then Dispatched(0, true) else Caught(0);
      LeavesAfter(cfg, p, [], e);
    }
  }

  const UNSERIALIZABLE := Publish(true, false)

  lemma {:induction false} FailedSerializationsSpend(cfg: Config, p: Proxy, n: nat)
    requires p.breaker.status == HalfOpen && n <= p.breaker.allowed
    ensures Run(cfg, p, Times(UNSERIALIZABLE, n)) ==
            p.(breaker := p.breaker.(allowed := p.breaker.allowed - n))
  {
    if n > 0 {
      FailedSerializationsSpend(cfg, p, n - 1);
      RunOnceMore(cfg, p, UNSERIALIZABLE, n - 1);
    }
  }

  /** Recovery is not guaranteed: as many bodies that do not serialize as there are probes
      leave the proxy stranded, although the broker may be healthy again. */
  lemma FailedSerializationsStrand(cfg: Config, p: Proxy)
    requires Waiting(p) && p.breaker.allowed >= 0
    requires Settled(p)
    ensures Stranded(Run(cfg, p, Times(UNSERIALIZABLE, p.breaker.allowed)))
    ensures !CanLeaveHalfOpen(cfg, Run(cfg, p, Times(UNSERIALIZABLE, p.breaker.allowed)))
  {
    FailedSerializationsSpend(cfg, p, p.breaker.allowed);
    HalfOpenLeftIffProbeOrPending(cfg, Run(cfg, p, Times(UNSERIALIZABLE, p.breaker.allowed)));
  }

  /** As many rejected requests as it takes to open the breaker. */
  function Rejections(n: nat): seq<Event> {
    if n == 0 then [] else Rejections(n - 1) + [Publish(true, true)] + [Replied(0, Rejected)]
  }

  function Needed(cfg: Config): nat {
    if cfg.failureThreshold < 1 then 1 else cfg.failureThreshold
  }

  function Counting(n: nat): Proxy {
    START.(breaker := FRESH.(failures := n))
  }

  function OpenAfter(cfg: Config, n: nat): Proxy {
    START.(breaker :=
      Breaker(Open, n, 0, Some(0), Timers(map[0 := cfg.resetTimeout], 1), [Notice(Open, n)]))
  }

  lemma RejectionCounts(cfg: Config, n: nat)
    ensures Step(cfg, Step(cfg, Counting(n), Publish(true, true)), Replied(0, Rejected)) ==
            if n + 1 < cfg.failureThreshold then Counting(n + 1) else OpenAfter(cfg, n + 1)
  {
  }

  lemma {:induction false} RejectionsAddUp(cfg: Config, n: nat)
    requires n < Needed(cfg)
    ensures Run(cfg, START, Rejections(n)) == Counting(n)
  {
    if n > 0 {
      var start := START;
      RejectionsAddUp(cfg, n - 1);
      RunSnoc(cfg, start, Rejections(n - 1), Publish(true, true));
      RunSnoc(cfg, start, Rejections(n - 1) + [Publish(true, true)], Replied(0, Rejected));
      RejectionCounts(cfg, n - 1);
    }
  }

  lemma RejectionsOpen(cfg: Config)
    ensures Run(cfg, START, Rejections(Needed(cfg))) ==
            OpenAfter(cfg, Needed(cfg))
  {
    var start, before := START, Rejections(Needed(cfg) - 1);
    RejectionsAddUp(cfg, Needed(cfg) - 1);
    RunSnoc(cfg, start, before, Publish(true, true));
    RunSnoc(cfg, start, before + [Publish(true, true)], Replied(0, Rejected));
    RejectionCounts(cfg, Needed(cfg) - 1);
  }

  /** Such a state can be reached from the start under every configuration: the requests are
      rejected until the breaker opens, the timer makes it half-open, and as many bodies as it
      allows probes do not serialize. */
  lemma StrandedFromTheStart(cfg: Config)
    requires cfg.halfOpenRequests >= 0
    ensures var events := Rejections(Needed(cfg)) + [ResetTimer(0, cfg.resetTimeout)]
                          + Times(UNSERIALIZABLE, cfg.halfOpenRequests);
            && Stranded(Run(cfg, START, events))
            && !CanLeaveHalfOpen(cfg, Run(cfg, START, events))
  {
    var before := Rejections(Needed(cfg)) + [ResetTimer(0, cfg.resetTimeout)];
    ProbesAllowed(cfg);
    FailedSerializationsStrand(cfg, Run(cfg, START, before));
    RunAppend(cfg, START, before, Times(UNSERIALIZABLE, cfg.halfOpenRequests));
  }

  lemma ProbesAllowed(cfg: Config)
    ensures var p := Run(cfg, START, Rejections(Needed(cfg)) + [ResetTimer(0, cfg.resetTimeout)]);
            Waiting(p) && p.breaker.allowed == cfg.halfOpenRequests && Settled(p)
  {
    RejectionsOpen(cfg);
    RunSnoc(cfg, START, Rejections(Needed(cfg)), ResetTimer(0, cfg.resetTimeout));
    OpenAfterFires(cfg, Needed(cfg));
  }

  lemma OpenAfterFires(cfg: Config, n: nat)
    ensures var p := Step(cfg, OpenAfter(cfg, n), ResetTimer(0, cfg.resetTimeout));
            Waiting(p) && p.breaker.allowed == cfg.halfOpenRequests && Settled(p)
  {
  }

  predicate RecordsFailureOnly(e: Event) {
    (e.Replied? && e.reply == Rejected) || (e.Dispatched? && !e.ok)
  }

  ghost predicate OnlyUndecodableFailures(events: seq<Event>) {
    forall i :: 0 <= i < |events| ==> !RecordsFailureOnly(events[i])
  }

  const THEN := Replied(0, Undecodable)
  const CATCH := Caught(0)

  lemma {:induction false} ThensReset(cfg: Config, p: Proxy, n: nat)
    requires 1 <= n <= p.rpcs
    ensures var q := Run(cfg, p, Times(THEN, n));
            && q.rpcs == p.rpcs - n && q.catching == p.catching + n
            && q.breaker.failures == 0
            && q.breaker.status == if p.breaker.status == Open then Open else Closed
  {
    RunOnceMore(cfg, p, THEN, n - 1);
    if n > 1 {
      ThensReset(cfg, p, n - 1);
    } else {
      assert Times(THEN, 0) == [];
    }
  }

  lemma {:induction false} CatchesAddUp(cfg: Config, p: Proxy, n: nat)
    requires n <= p.catching && p.breaker.failures == 0 && p.breaker.status != HalfOpen
    ensures var q := Run(cfg, p, Times(CATCH, n));
            && q.rpcs == p.rpcs && q.catching == p.catching - n
            && q.breaker.failures == n
            && q.breaker.status == if p.breaker.status == Open || (n >= 1 && n >= cfg.failureThreshold) then Open
                                   else Closed
  {
    if n > 0 {
      CatchesAddUp(cfg, p, n - 1);
      RunOnceMore(cfg, p, CATCH, n - 1);
    }
  }

  /** A reply that does not decode is recorded as a success and, in a later job, as a failure.
      When n such replies settle together, all the successes come first and the failures add up:
      they leave the breaker open if and only if it was open before or n reaches the threshold. */
  lemma TogetherTheyAddUp(cfg: Config, p: Proxy, n: nat)
    requires 1 <= n <= p.rpcs && p.catching == 0
    ensures var q := Run(cfg, p, Times(THEN, n) + Times(CATCH, n));
            && q.rpcs == p.rpcs - n && q.catching == 0
            && q.breaker.failures == n
            && q.breaker.status == if p.breaker.status == Open || n >= cfg.failureThreshold then Open else Closed
  {
    ThensReset(cfg, p, n);
    CatchesAddUp(cfg, Run(cfg, p, Times(THEN, n)), n);
    RunAppend(cfg, p, Times(THEN, n), Times(CATCH, n));
  }

  /** n such replies, each of them caught before the next one settles. */
  function OneByOne(n: nat): seq<Event> {
    if n == 0 then [] else OneByOne(n - 1) + [THEN] + [CATCH]
  }

  lemma UndecodableReply(cfg: Config, p: Proxy)
    requires p.rpcs > 0 && p.catching == 0
    ensures var q := Step(cfg, Step(cfg, p, THEN), CATCH);
            && q.rpcs == p.rpcs - 1 && q.catching == 0
            && q.breaker.failures == 1
            && q.breaker.status == if p.breaker.status == Open || cfg.failureThreshold <= 1 then Open else Closed
  {
  }

  /** One by one they do not add up: however many there are, they leave the breaker open if and
      only if it was open before or one failure is enough. */
  lemma {:induction false} OneByOneTheyDoNotAddUp(cfg: Config, p: Proxy, n: nat)
    requires 1 <= n <= p.rpcs && p.catching == 0
    ensures var q := Run(cfg, p, OneByOne(n));
            && q.rpcs == p.rpcs - n && q.catching == 0
            && q.breaker.failures == 1
            && q.breaker.status == if p.breaker.status == Open || cfg.failureThreshold <= 1 then Open else Closed
  {
    if n > 1 {
      OneByOneTheyDoNotAddUp(cfg, p, n - 1);
    }
    OneReplyMore(cfg, p, n - 1);
    UndecodableReply(cfg, Run(cfg, p, OneByOne(n - 1)));
  }

  lemma OneReplyMore(cfg: Config, p: Proxy, n: nat)
    ensures Run(cfg, p, OneByOne(n + 1)) == Step(cfg, Step(cfg, Run(cfg, p, OneByOne(n)), THEN), CATCH)
  {
    RunSnoc(cfg, p, OneByOne(n), THEN);
    RunSnoc(cfg, p, OneByOne(n) + [THEN], CATCH);
  }

  function Max(a: nat, b: nat): nat {
    if a < b then b else a
  }

  /** The largest number of `catch` callbacks that are outstanding at once in the run. */
  function MostCatching(cfg: Config, p: Proxy, events: seq<Event>): nat {
    if events == [] then p.catching
    else Max(MostCatching(cfg, p, events[..|events| - 1]), Run(cfg, p, events).catching)
  }

  /** At no time of the run more than k `catch` callbacks are outstanding. */
  predicate AtMost(cfg: Config, p: Proxy, events: seq<Event>, k: nat) {
    MostCatching(cfg, p, events) <= k
  }

  /** Not open, and what is still to be caught keeps the count of failures within k. */
  predicate WithinReach(p: Proxy, k: nat) {
    && p.breaker.status != Open && p.breaker.timers.pending == map[]
    && (p.catching > 0 ==> p.breaker.status == Closed && p.breaker.failures + p.catching <= k)
  }

  lemma StepWithinReach(cfg: Config, p: Proxy, e: Event, k: nat)
    requires cfg.failureThreshold > k && !RecordsFailureOnly(e)
    requires WithinReach(p, k) && Step(cfg, p, e).catching <= k
    ensures WithinReach(Step(cfg, p, e), k)
  {
  }

  lemma {:induction false} RunWithinReach(cfg: Config, p: Proxy, events: seq<Event>, k: nat)
    requires cfg.failureThreshold > k && OnlyUndecodableFailures(events)
    requires WithinReach(p, k) && AtMost(cfg, p, events, k)
    ensures WithinReach(Run(cfg, p, events), k)
  {
    if events != [] {
      var before, e := events[..|events| - 1], events[|events| - 1];
      RunWithinReach(cfg, p, before, k);
      StepWithinReach(cfg, Run(cfg, p, before), e, k);
    }
  }

  lemma AtMostSnoc(cfg: Config, p: Proxy, events: seq<Event>, e: Event, k: nat)
    ensures AtMost(cfg, p, events + [e], k) <==>
              AtMost(cfg, p, events, k) && Step(cfg, Run(cfg, p, events), e).catching <= k
  {
    assert (events + [e])[..|events|] == events;
  }

  lemma {:induction false} AtMostAppend(cfg: Config, p: Proxy, first: seq<Event>, second: seq<Event>, k: nat)
    requires AtMost(cfg, p, first, k) && AtMost(cfg, Run(cfg, p, first), second, k)
    ensures AtMost(cfg, p, first + second, k)
  {
    if second == [] {
      assert first + second == first;
    } else {
      var n := |second| - 1;
      assert second == second[..n] + [second[n]];
      assert first + second == (first + second[..n]) + [second[n]];
      AtMostSnoc(cfg, Run(cfg, p, first), second[..n], second[n], k);
      AtMostAppend(cfg, p, first, second[..n], k);
      RunAppend(cfg, p, first, second[..n]);
      AtMostSnoc(cfg, p, first + second[..n], second[n], k);
    }
  }

  lemma {:induction false} AtMostTimes(cfg: Config, p: Proxy, e: Event, n: nat, k: nat)
    requires e == THEN || e == CATCH || e.Publish?
    requires p.catching + (if e == THEN then n else 0) <= k
    ensures AtMost(cfg, p, Times(e, n), k)
    ensures Run(cfg, p, Times(e, n)).catching <= p.catching + if e == THEN then n else 0
  {
    if n > 0 {
      AtMostTimes(cfg, p, e, n - 1, k);
      RunOnceMore(cfg, p, e, n - 1);
      assert Times(e, n) == Times(e, n - 1) + [e];
      AtMostSnoc(cfg, p, Times(e, n - 1), e, k);
    } else {
      assert Times(e, 0) == [];
    }
  }

  lemma {:induction false} PublishesWait(cfg: Config, p: Proxy, n: nat)
    requires p.breaker.status == Closed
    ensures Run(cfg, p, Times(Publish(true, true), n)) == p.(rpcs := p.rpcs + n)
  {
    if n > 0 {
      PublishesWait(cfg, p, n - 1);
      RunOnceMore(cfg, p, Publish(true, true), n - 1);
    }
  }

  /** k replies of which none decodes and which settle together, from a closed proxy. */
  function Burst(k: nat): seq<Event> {
    Times(Publish(true, true), k) + (Times(THEN, k) + Times(CATCH, k))
  }

  lemma BurstOpens(cfg: Config, p: Proxy, k: nat)
    requires p.breaker.status == Closed && p.catching == 0 && 1 <= k && cfg.failureThreshold <= k
    ensures Run(cfg, p, Burst(k)).breaker.status == Open
  {
    PublishesWait(cfg, p, k);
    RunAppend(cfg, p, Times(Publish(true, true), k), Times(THEN, k) + Times(CATCH, k));
    TogetherTheyAddUp(cfg, p.(rpcs := p.rpcs + k), k);
  }

  lemma RepliesStayWithin(cfg: Config, p: Proxy, k: nat)
    requires p.catching == 0
    ensures AtMost(cfg, p, Times(THEN, k) + Times(CATCH, k), k)
  {
    AtMostTimes(cfg, p, THEN, k, k);
    AtMostTimes(cfg, Run(cfg, p, Times(THEN, k)), CATCH, k, k);
    AtMostAppend(cfg, p, Times(THEN, k), Times(CATCH, k), k);
  }

  lemma BurstStaysWithin(cfg: Config, p: Proxy, k: nat)
    requires p.breaker.status == Closed && p.catching == 0
    ensures AtMost(cfg, p, Burst(k), k)
    ensures OnlyUndecodableFailures(Burst(k))
  {
    PublishesWait(cfg, p, k);
    AtMostTimes(cfg, p, Publish(true, true), k, k);
    RepliesStayWithin(cfg, p.(rpcs := p.rpcs + k), k);
    AtMostAppend(cfg, p, Times(Publish(true, true), k), Times(THEN, k) + Times(CATCH, k), k);
  }

  /** A request of a half-open proxy is answered. */
  function Recovery(p: Proxy): seq<Event> {
    (if p.rpcs > 0 then [] else [Publish(true, true)]) + [Replied(0, Answered)]
  }

  lemma RecoveryCloses(cfg: Config, p: Proxy, k: nat)
    requires p.breaker.status != Open && p.catching == 0 && (p.rpcs > 0 || Admits(p.breaker))
    ensures var q := Run(cfg, p, Recovery(p)); q.breaker.status == Closed && q.catching == 0
    ensures AtMost(cfg, p, Recovery(p), k)
    ensures OnlyUndecodableFailures(Recovery(p))
  {
    var first := if p.rpcs > 0 then [] else [Publish(true, true)];
    assert Recovery(p) == first + [Replied(0, Answered)];
    RequestPending(cfg, p, k);
    RunSnoc(cfg, p, first, Replied(0, Answered));
    AtMostSnoc(cfg, p, first, Replied(0, Answered), k);
  }

  lemma RequestPending(cfg: Config, p: Proxy, k: nat)
    requires p.breaker.status != Open && p.catching == 0 && (p.rpcs > 0 || Admits(p.breaker))
    ensures var first := if p.rpcs > 0 then [] else [Publish(true, true)];
            var q := Run(cfg, p, first);
            q.breaker.status == p.breaker.status && q.catching == 0 && q.rpcs > 0 && AtMost(cfg, p, first, k)
  {
    if p.rpcs == 0 {
      assert [Publish(true, true)] == [] + [Publish(true, true)];
      RunSnoc(cfg, p, [], Publish(true, true));
      AtMostSnoc(cfg, p, [], Publish(true, true), k);
    }
  }

  lemma BurstAfterRecovery(cfg: Config, p: Proxy, k: nat)
    requires p.breaker.status != Open && p.catching == 0 && (p.rpcs > 0 || Admits(p.breaker))
    requires k >= 1 && cfg.failureThreshold <= k
    ensures OnlyUndecodableFailures(Recovery(p) + Burst(k))
    ensures AtMost(cfg, p, Recovery(p) + Burst(k), k)
    ensures Run(cfg, p, Recovery(p) + Burst(k)).breaker.status == Open
  {
    var q := Run(cfg, p, Recovery(p));
    RecoveryCloses(cfg, p, k);
    BurstOpens(cfg, q, k);
    BurstStaysWithin(cfg, q, k);
    RunAppend(cfg, p, Recovery(p), Burst(k));
    AtMostAppend(cfg, p, Recovery(p), Burst(k), k);
  }

  ghost predicate UndecodableNeverOpen(cfg: Config, p: Proxy, k: nat) {
    forall events :: OnlyUndecodableFailures(events) && AtMost(cfg, p, events, k) ==>
      Run(cfg, p, events).breaker.status != Open
  }

  /** Over all runs in which no request fails otherwise and at most k decoding failures are
      outstanding at once, replies that do not decode never open the breaker if and only if its
      threshold is above k.  One after the other (k = 1) they do not add up; but as nothing
      limits the number of pending requests, no threshold excludes that they open it. */
  lemma UndecodableRepliesNeverOpen(cfg: Config, p: Proxy, k: nat)
    requires p.breaker.status != Open && p.breaker.timers.pending == map[] && p.catching == 0 && k >= 1
    requires p.rpcs > 0 || Admits(p.breaker)
    ensures UndecodableNeverOpen(cfg, p, k) <==> cfg.failureThreshold > k
  {
    if cfg.failureThreshold > k {
      forall events | OnlyUndecodableFailures(events) && AtMost(cfg, p, events, k)
        ensures Run(cfg, p, events).breaker.status != Open
      {
        RunWithinReach(cfg, p, events, k);
      }
    } else {
      BurstAfterRecovery(cfg, p, k);
    }
  }

  /** Under every configuration there is a run from the start in which every request is answered
      and yet the breaker opens, because the answers do not decode. */
  lemma NoThresholdIsSafe(cfg: Config)
    ensures OnlyUndecodableFailures(Burst(Needed(cfg)))
    ensures Run(cfg, START, Burst(Needed(cfg))).breaker.status == Open
  {
    BurstOpens(cfg, START, Needed(cfg));
    BurstStaysWithin(cfg, START, Needed(cfg));
  }

  /** Every request that a run lets through and hands to the SDK is pending, waits for its
      `catch` callback, or is done. */
  lemma {:induction false} RequestsConserved(cfg: Config, p: Proxy, events: seq<Event>)
    ensures var q := Run(cfg, p, events);
            q.rpcs + q.catching + q.sends + Done(cfg, p, events) ==
              p.rpcs + p.catching + p.sends + Sent(cfg, p, events)
  {
    if events != [] {
      RequestsConserved(cfg, p, events[..|events| - 1]);
      StepConserves(cfg, Run(cfg, p, events[..|events| - 1]), events[|events| - 1]);
    }
  }

  predicate Sends(p: Proxy, e: Event) {
    Admits(p.breaker) && (e.Publish? || e.Dispatch?) && e.connected && e.serializes
  }

  /** The last outcome of a request; the success of a reply that does not decode is not. */
  predicate Ends(p: Proxy, e: Event) {
    Reports(p, e) && !(e.Replied? && e.reply == Undecodable)
  }

  lemma StepConserves(cfg: Config, p: Proxy, e: Event)
    ensures var q := Step(cfg, p, e);
            q.rpcs + q.catching + q.sends + (if Ends(p, e) then 1 else 0) ==
              p.rpcs + p.catching + p.sends + if Sends(p, e) then 1 else 0
  {
  }

  function Sent(cfg: Config, p: Proxy, events: seq<Event>): nat {
    if events == [] then 0 else
      var before, e := events[..|events| - 1], events[|events| - 1];
      Sent(cfg, p, before) + if Sends(Run(cfg, p, before), e) then 1 else 0
  }

  function Done(cfg: Config, p: Proxy, events: seq<Event>): nat {
    if events == [] then 0 else
      var before, e := events[..|events| - 1], events[|events| - 1];
      Done(cfg, p, before) + if Ends(Run(cfg, p, before), e) then 1 else 0
  }

  /** What an event of the proxy does to its breaker. */
  function BreakerOps(p: Proxy, e: Event): seq<Op> {
    match e
    case Publish(_, _) => [Guard]
    case Dispatch(_, _) => [Guard]
    case Replied(now, reply) =>
      if p.rpcs == 0 then [] else if reply == Rejected then [Failure(now)] else [Success(now)]
    case Caught(now) => if p.catching == 0 then [] else [Failure(now)]
    case Dispatched(now, ok) => if p.sends == 0 then [] else if ok then [Success(now)] else [Failure(now)]
    case ResetTimer(id, now) => [TimerDue(id, now)]
    case Close => [Destroy]
  }

  function AllBreakerOps(cfg: Config, p: Proxy, events: seq<Event>): seq<Op> {
    if events == [] then [] else
      var before := events[..|events| - 1];
      AllBreakerOps(cfg, p, before) + BreakerOps(Run(cfg, p, before), events[|events| - 1])
  }

  lemma StepRunsBreaker(cfg: Config, p: Proxy, e: Event)
    ensures Step(cfg, p, e).breaker == CircuitBreaking.Run(cfg, p.breaker, BreakerOps(p, e))
  {
    var ops := BreakerOps(p, e);
    if ops != [] {
      RunSingle(cfg, p.breaker, ops[0]);
    }
  }

  lemma RunSingle(cfg: Config, b: Breaker, op: Op)
    ensures CircuitBreaking.Run(cfg, b, [op]) == Apply(cfg, b, op)
  {
    assert [op][..0] == [];
  }

  /** A run of the proxy is a run of its breaker, so all that holds over every run of the
      breaker holds for the client. */
  lemma {:induction false} ProxyRunsItsBreaker(cfg: Config, p: Proxy, events: seq<Event>)
    ensures Run(cfg, p, events).breaker == CircuitBreaking.Run(cfg, p.breaker, AllBreakerOps(cfg, p, events))
  {
    if events != [] {
      var before, e := events[..|events| - 1], events[|events| - 1];
      ProxyRunsItsBreaker(cfg, p, before);
      StepRunsBreaker(cfg, Run(cfg, p, before), e);
      RunConcat(cfg, p.breaker, AllBreakerOps(cfg, p, before), BreakerOps(Run(cfg, p, before), e));
    }
  }

  /** From the failure that opens the breaker until resetTimeout has passed, the client hands
      no request to the SDK, whatever replies come in late. */
  lemma NothingSentWhileOpen(cfg: Config, p: Proxy, events: seq<Event>, e: Event)
    requires p.breaker.status == Open
    requires NoneDue(p.breaker, AllBreakerOps(cfg, p, events))
    ensures var q := Run(cfg, p, events);
            Step(cfg, q, e).rpcs <= q.rpcs && Step(cfg, q, e).sends <= q.sends
  {
    ProxyRunsItsBreaker(cfg, p, events);
    OpenIntervalRejects(cfg, p.breaker, AllBreakerOps(cfg, p, events));
    RejectingSendsNothing(cfg, Run(cfg, p, events), e);
  }

  lemma RejectingSendsNothing(cfg: Config, p: Proxy, e: Event)
    requires !Admits(p.breaker)
    ensures Step(cfg, p, e).rpcs <= p.rpcs && Step(cfg, p, e).sends <= p.sends
  {
  }

  // ------------------------------------------------------------------ the implementation

  class RequestPath {
    const breaker: CircuitBreaker
    var rpcs: nat
    var catching: nat
    var sends: nat

    constructor (cfg: Config)
      ensures fresh(breaker) && breaker.cfg == cfg && View() == START
    {
      breaker := new CircuitBreaker(cfg);
      rpcs, catching, sends := 0, 0, 0;
    }

    ghost function View(): Proxy
      reads this, breaker
    {
      Proxy(breaker.View(), rpcs, catching, sends)
    }

    /** Returns true when the request was handed to the SDK, false when the caller got an error. */
    method PublishRequest(connected: bool, serializes: bool) returns (sent: bool)
      modifies this, breaker
      ensures sent == (Admits(old(View()).breaker) && connected && serializes)
      ensures View() == Step(breaker.cfg, old(View()), Publish(connected, serializes))
    {
      var admitted := breaker.Guard();
      if !admitted || !connected || !serializes {
        return false;
      }
      rpcs := rpcs + 1;
      return true;
    }

    /** The promise of the SDK settles: `then` runs for a reply, and throws when it does not
        decode; `catch` runs for a rejection. */
    method OnReply(now: int, reply: Reply)
      requires rpcs > 0
      modifies this, breaker
      ensures View() == Step(breaker.cfg, old(View()), Replied(now, reply))
    {
      rpcs := rpcs - 1;
      if reply == Rejected {
        breaker.RecordFailure(now);
        return;
      }
      breaker.RecordSuccess(now);
      if reply == Undecodable {
        catching := catching + 1;
      }
    }

    /** `catch` runs for a `then` callback that threw. */
    method OnCaught(now: int)
      requires catching > 0
      modifies this, breaker
      ensures View() == Step(breaker.cfg, old(View()), Caught(now))
    {
      catching := catching - 1;
      breaker.RecordFailure(now);
    }

    method DispatchRequest(connected: bool, serializes: bool) returns (sent: bool)
      modifies this, breaker
      ensures sent == (Admits(old(View()).breaker) && connected && serializes)
      ensures View() == Step(breaker.cfg, old(View()), Dispatch(connected, serializes))
    {
      var admitted := breaker.Guard();
      if !admitted || !connected || !serializes {
        return false;
      }
      sends := sends + 1;
      return true;
    }

    method OnDispatched(now: int, ok: bool)
      requires sends > 0
      modifies this, breaker
      ensures View() == Step(breaker.cfg, old(View()), Dispatched(now, ok))
    {
      sends := sends - 1;
      if ok {
        breaker.RecordSuccess(now);
      } else {
        breaker.RecordFailure(now);
      }
    }

    method OnResetTimer(id: nat, now: int)
      requires id in breaker.timers.pending && now >= breaker.timers.pending[id]
      modifies breaker
      ensures View() == Step(breaker.cfg, old(View()), ResetTimer(id, now))
    {
      breaker.OnResetTimer(id, now);
    }

    /** The first thing that closing the client does. */
    method CloseBreaker()
      modifies breaker
      ensures View() == Step(breaker.cfg, old(View()), Close)
    {
      breaker.Shutdown();
    }
  }
}
