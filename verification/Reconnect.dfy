/**
 The reconnect loop of the server: a timer, then an attempt to connect, then another timer,
 until an attempt succeeds, the attempts are exhausted or the server is closing.  The manager
 remembers the id of its last timer; any pending timer can fire.
 */
module Reconnecting {
  import opened Options
  import opened Backoff
  import opened Timers

  /** The fields of the manager and what it has done so far. */
  datatype Manager = Manager(
    timer: Option<nat>,
    timers: Timers<real>,
    attempt: nat,
    closing: bool,
    delays: seq<real>,
    inFlight: nat,
    started: nat,
    failed: nat,
    succeeded: nat,
    exhausted: nat)

  const INITIAL := Manager(None, Timers(map[], 0), 0, false, [], 0, 0, 0, 0, 0)

  datatype Event = StartLoop | TimerFires(id: nat) | Connected | ConnectFailed | CancelLoop | MarkClosing

  /** The policy allows no further attempt; a negative number allows any. */
  predicate GivesUp(p: Policy, s: Manager) {
    p.maxAttempts >= 0 && s.attempt >= p.maxAttempts
  }

  function ScheduleRetry(p: Policy, s: Manager): Manager {
    if GivesUp(p, s) then
      s.(exhausted := s.exhausted + 1)
    else
      s.(timer := Some(s.timers.next),
         timers := Armed(s.timers, Delay(p, s.attempt)),
         delays := s.delays + [Delay(p, s.attempt)])
  }

  function Step(p: Policy, s: Manager, e: Event): Manager {
    match e
    case StartLoop => if s.closing then s else ScheduleRetry(p, s)
    case TimerFires(id) =>
      if id !in s.timers.pending then s else
        var t := s.(timers := Without(s.timers, id), timer := None);
        if t.closing then t else t.(started := s.started + 1, inFlight := s.inFlight + 1)
    case Connected =>
      if s.inFlight == 0 then s
      else s.(inFlight := s.inFlight - 1, attempt := 0, succeeded := s.succeeded + 1)
    case ConnectFailed =>
      if s.inFlight == 0 then s else
        var t := s.(inFlight := s.inFlight - 1, attempt := s.attempt + 1, failed := s.failed + 1);
        if t.closing then t else ScheduleRetry(p, t)
    case CancelLoop =>
      if s.timer.Some? then s.(timers := Without(s.timers, s.timer.value), timer := None, closing := true)
      else s.(closing := true)
    case MarkClosing => s.(closing := true)
  }

  function Run(p: Policy, s: Manager, events: seq<Event>): Manager {
    if events == [] then s else Step(p, Run(p, s, events[..|events| - 1]), events[|events| - 1])
  }

  lemma RunSnoc(p: Policy, s: Manager, events: seq<Event>, e: Event)
    ensures Run(p, s, events + [e]) == Step(p, Run(p, s, events), e)
  {
    assert (events + [e])[..|events|] == events;
  }

  /** A run of the loop that `listen` starts after its first failure. */
  function Loop(p: Policy, events: seq<Event>): Manager {
    Run(p, Step(p, INITIAL, StartLoop), events)
  }

  /** Pending timers and attempts in flight. */
  function Active(s: Manager): nat {
    |s.timers.pending| + s.inFlight
  }

  /** The timers that are pending are the one the manager remembers, and no other. */
  predicate NoStrayTimer(s: Manager) {
    s.timers.pending.Keys == if s.timer.Some? then {s.timer.value} else {}
  }

  lemma PendingCounted(s: Manager)
    requires NoStrayTimer(s)
    ensures |s.timers.pending| == if s.timer.Some? then 1 else 0
    ensures s.timer.Some? ==> s.timer.value in s.timers.pending
  {
    assert |s.timers.pending| == |s.timers.pending.Keys|;
  }

  /** Everything that holds while one loop runs. */
  ghost predicate OneLoop(p: Policy, s: Manager) {
    && NoStrayTimer(s)
    && Busy(s) + s.succeeded + s.exhausted <= 1
    && s.started == s.failed + s.succeeded + s.inFlight
    && s.attempt == (if s.succeeded == 0 then s.failed else 0)
    && |s.delays| == s.started + (if s.timer.Some? then 1 else 0) + Dropped(s)
    && (forall i :: 0 <= i < |s.delays| ==> s.delays[i] == Delay(p, i))
    && (forall id :: id in s.timers.pending ==>
          |s.delays| > 0 && s.timers.pending[id] == s.delays[|s.delays| - 1])
    && (p.maxAttempts >= 0 ==>
          && s.failed + Busy(s) + s.succeeded <= p.maxAttempts
          && |s.delays| <= p.maxAttempts)
    && (s.exhausted > 0 ==> s.failed == p.maxAttempts)
    && (!s.closing ==> Busy(s) + s.succeeded + s.exhausted == 1)
  }

  function Busy(s: Manager): nat {
    s.inFlight + if s.timer.Some? then 1 else 0
  }

  /** A timer that was armed and cleared, or that fired into a closing server. */
  function Dropped(s: Manager): nat {
    if s.closing && |s.delays| > s.started && s.timer.None? then 1 else 0
  }

  lemma TimerOneLoop(p: Policy, s: Manager, id: nat)
    requires OneLoop(p, s)
    ensures OneLoop(p, Step(p, s, TimerFires(id)))
  {
  }

  lemma FailureOneLoop(p: Policy, s: Manager)
    requires OneLoop(p, s)
    ensures OneLoop(p, Step(p, s, ConnectFailed))
  {
  }

  lemma StepOneLoop(p: Policy, s: Manager, e: Event)
    requires OneLoop(p, s) && e != StartLoop
    ensures OneLoop(p, Step(p, s, e))
  {
    match e
    case TimerFires(id) => TimerOneLoop(p, s, id);
    case ConnectFailed => FailureOneLoop(p, s);
    case Connected =>
    case CancelLoop =>
    case MarkClosing =>
  }

  lemma {:induction false} LoopInvariant(p: Policy, events: seq<Event>)
    requires StartLoop !in events
    ensures OneLoop(p, Loop(p, events))
  {
    if events != [] {
      assert events == events[..|events| - 1] + [events[|events| - 1]];
      LoopInvariant(p, events[..|events| - 1]);
      StepOneLoop(p, Loop(p, events[..|events| - 1]), events[|events| - 1]);
    }
  }

  /** Timers pending in the runtime and attempts in flight never add up to more than one, and
      the pending timer is the one the manager can clear; a bounded policy starts at most
      maxAttempts attempts; and exhaustion is reported at most once, only after exactly
      maxAttempts failures, when nothing is pending any more.  The attempt counter is the number
      of failures, and a success sets it back. */
  lemma LoopIsSafe(p: Policy, events: seq<Event>)
    requires StartLoop !in events
    ensures var s := Loop(p, events);
            && Active(s) <= 1
            && (forall id :: id in s.timers.pending <==> s.timer == Some(id))
            && (p.maxAttempts >= 0 ==> s.started <= p.maxAttempts)
            && s.exhausted <= 1
            && (s.exhausted == 1 ==> s.failed == s.started == p.maxAttempts && Active(s) == 0)
            && s.attempt == (if s.succeeded == 0 then s.failed else 0)
  {
    LoopInvariant(p, events);
    PendingCounted(Loop(p, events));
  }

  // ------------------------------------------------------------ when the loop may be started

  /** The runtime has not handed out the next id yet. */
  predicate NextIdIsNew(s: Manager) {
    forall id :: id in s.timers.pending ==> id < s.timers.next
  }

  /** At most one timer or attempt, and the timer is the one that can be cleared. */
  ghost predicate Single(s: Manager) {
    NoStrayTimer(s) && NextIdIsNew(s) && Active(s) <= 1
  }

  predicate SafeStart(p: Policy, s: Manager) {
    s.closing || GivesUp(p, s) || Active(s) == 0
  }

  lemma ArmingAddsOne(p: Policy, s: Manager)
    requires NextIdIsNew(s) && !GivesUp(p, s)
    ensures Active(ScheduleRetry(p, s)) == Active(s) + 1
    ensures NextIdIsNew(ScheduleRetry(p, s))
    ensures s.timers.pending == map[] ==> NoStrayTimer(ScheduleRetry(p, s))
  {
    var t := ScheduleRetry(p, s);
    assert t.timers.pending.Keys == s.timers.pending.Keys + {s.timers.next};
    assert |t.timers.pending| == |t.timers.pending.Keys| && |s.timers.pending| == |s.timers.pending.Keys|;
  }

  /** The manager does not clear a pending timer when it sets the next one.  So starting the loop
      keeps to one timer or attempt if and only if the server is closing, or the attempts are
      used up, or nothing is pending. */
  lemma StartIsSafeIff(p: Policy, s: Manager)
    requires Single(s)
    ensures Active(Step(p, s, StartLoop)) <= 1 <==> SafeStart(p, s)
    ensures SafeStart(p, s) ==> Single(Step(p, s, StartLoop))
  {
    PendingCounted(s);
    if !s.closing && !GivesUp(p, s) {
      ArmingAddsOne(p, s);
    }
  }

  lemma TimerStaysSingle(p: Policy, s: Manager, id: nat)
    requires Single(s)
    ensures Single(Step(p, s, TimerFires(id)))
  {
    PendingCounted(s);
    PendingCounted(Step(p, s, TimerFires(id)));
  }

  lemma FailureStaysSingle(p: Policy, s: Manager)
    requires Single(s)
    ensures Single(Step(p, s, ConnectFailed))
  {
    PendingCounted(s);
    if s.inFlight > 0 {
      var t := s.(inFlight := s.inFlight - 1, attempt := s.attempt + 1, failed := s.failed + 1);
      if !t.closing && !GivesUp(p, t) {
        ArmingAddsOne(p, t);
      }
    }
  }

  lemma CancelStaysSingle(p: Policy, s: Manager)
    requires Single(s)
    ensures Single(Step(p, s, CancelLoop))
  {
    PendingCounted(s);
    PendingCounted(Step(p, s, CancelLoop));
  }

  lemma StepStaysSingle(p: Policy, s: Manager, e: Event)
    requires Single(s) && e != StartLoop
    ensures Single(Step(p, s, e))
  {
    match e
    case TimerFires(id) => TimerStaysSingle(p, s, id);
    case ConnectFailed => FailureStaysSingle(p, s);
    case CancelLoop => CancelStaysSingle(p, s);
    case Connected =>
    case MarkClosing =>
  }

  /** How many starts of the run happen when it is not safe. */
  function UnsafeStarts(p: Policy, s: Manager, events: seq<Event>): nat {
    if events == [] then 0 else
      var before, e := events[..|events| - 1], events[|events| - 1];
      UnsafeStarts(p, s, before) + if e == StartLoop && !SafeStart(p, Run(p, s, before)) then 1 else 0
  }

  /** The largest number of timers and attempts at one time of the run. */
  function MostActive(p: Policy, s: Manager, events: seq<Event>): nat {
    if events == [] then Active(s) else
      var before, now := MostActive(p, s, events[..|events| - 1]), Active(Run(p, s, events));
      if before < now then now else before
  }

  lemma StepSingle(p: Policy, s: Manager, e: Event)
    requires Single(s)
    ensures Active(Step(p, s, e)) <= 1 <==> (e == StartLoop ==> SafeStart(p, s))
    ensures Active(Step(p, s, e)) <= 1 ==> Single(Step(p, s, e))
  {
    if e == StartLoop {
      StartIsSafeIff(p, s);
    } else {
      StepStaysSingle(p, s, e);
    }
  }

  /** Over every run from a new manager, with any number of starts: timers and attempts never
      overlap if and only if every start comes at a safe moment. */
  lemma {:induction false} SingleIffStartsAreSafe(p: Policy, events: seq<Event>)
    ensures MostActive(p, INITIAL, events) <= 1 <==> UnsafeStarts(p, INITIAL, events) == 0
    ensures UnsafeStarts(p, INITIAL, events) == 0 ==> Single(Run(p, INITIAL, events))
  {
    if events != [] {
      var before, e := events[..|events| - 1], events[|events| - 1];
      SingleIffStartsAreSafe(p, before);
      if UnsafeStarts(p, INITIAL, before) == 0 {
        StepSingle(p, Run(p, INITIAL, before), e);
      }
    }
  }

  /** With a policy that allows any attempt, starting the loop twice at once leaves two timers,
      and they become two attempts in flight. */
  lemma SecondStartForks(p: Policy)
    requires p.maxAttempts != 0
    ensures var s := Loop(p, [StartLoop]); s.timers.pending.Keys == {0, 1} && s.timer == Some(1)
    ensures Loop(p, [StartLoop] + [TimerFires(0)] + [TimerFires(1)]).inFlight == 2
  {
    var start := Step(p, INITIAL, StartLoop);
    RunSnoc(p, start, [], StartLoop);
    assert [] + [StartLoop] == [StartLoop];
    RunSnoc(p, start, [StartLoop], TimerFires(0));
    RunSnoc(p, start, [StartLoop] + [TimerFires(0)], TimerFires(1));
  }

  /** The loop comes to rest for one of three reasons only: an attempt succeeded, the attempts
      were exhausted, or the server is closing.  It never just stops. */
  lemma RestHasAReason(p: Policy, events: seq<Event>)
    requires StartLoop !in events && Active(Loop(p, events)) == 0
    ensures var s := Loop(p, events);
            s.closing || s.succeeded + s.exhausted == 1
  {
    LoopInvariant(p, events);
    PendingCounted(Loop(p, events));
  }

  /** The timers that a run sets are the delays of the policy from the start, in order, and the
      pending one is the last of them. */
  lemma WaitsFollowThePolicy(p: Policy, events: seq<Event>)
    requires StartLoop !in events
    ensures var s := Loop(p, events);
            && (forall i :: 0 <= i < |s.delays| ==> s.delays[i] == Delay(p, i))
            && (forall id :: id in s.timers.pending ==>
                  |s.delays| > 0 && s.timers.pending[id] == s.delays[|s.delays| - 1])
            && Sum(s.delays) == TotalDelay(p, |s.delays|)
  {
    LoopInvariant(p, events);
    SumOfDelays(p, Loop(p, events).delays);
  }

  lemma WaitsCounted(p: Policy, events: seq<Event>)
    requires StartLoop !in events && p.maxAttempts >= 0
    ensures |Loop(p, events).delays| <= p.maxAttempts
  {
    LoopInvariant(p, events);
  }

  /** A bounded loop waits at most maxAttempts times the cap in all. */
  lemma WaitBounded(p: Policy, events: seq<Event>)
    requires StartLoop !in events && p.maxAttempts >= 0 && p.maxDelay >= 0.0
    ensures Sum(Loop(p, events).delays) <= p.maxAttempts as real * p.maxDelay
  {
    WaitsCounted(p, events);
    WaitsFollowThePolicy(p, events);
    TotalWithin(p, |Loop(p, events).delays|, p.maxAttempts);
  }

  function Sum(xs: seq<real>): real {
    if xs == [] then 0.0 else Sum(xs[..|xs| - 1]) + xs[|xs| - 1]
  }

  lemma {:induction false} SumOfDelays(p: Policy, xs: seq<real>)
    requires forall i :: 0 <= i < |xs| ==> xs[i] == Delay(p, i)
    ensures Sum(xs) == TotalDelay(p, |xs|)
  {
    if xs != [] {
      SumOfDelays(p, xs[..|xs| - 1]);
    }
  }

  /** Once the server is closing, no attempt starts any more, and nothing is reported. */
  lemma {:induction false} NoAttemptAfterClosing(p: Policy, s: Manager, events: seq<Event>)
    requires s.closing
    ensures var t := Run(p, s, events);
            && t.closing && t.started == s.started && t.inFlight <= s.inFlight
            && t.exhausted == s.exhausted && t.delays == s.delays
  {
    if events != [] {
      NoAttemptAfterClosing(p, s, events[..|events| - 1]);
    }
  }

  /** The manager is closing if and only if it was told to, and then for good. */
  lemma {:induction false} ClosingIffTold(p: Policy, events: seq<Event>)
    ensures Run(p, INITIAL, events).closing <==> CancelLoop in events || MarkClosing in events
  {
    if events != [] {
      var before, e := events[..|events| - 1], events[|events| - 1];
      assert events == before + [e];
      ClosingIffTold(p, before);
    }
  }

  lemma {:induction false} QuietStaysQuiet(p: Policy, s: Manager, events: seq<Event>)
    requires s.closing && s.timers.pending == map[]
    ensures var t := Run(p, s, events); t.closing && t.timers.pending == map[]
  {
    if events != [] {
      QuietStaysQuiet(p, s, events[..|events| - 1]);
    }
  }

  /** Cancelling stops the loop: from then on no timer is pending, and no attempt starts
      whatever happens. */
  lemma CancelStopsTheLoop(p: Policy, before: seq<Event>, after: seq<Event>)
    requires StartLoop !in before
    ensures var s := Loop(p, before);
            var t := Run(p, Step(p, s, CancelLoop), after);
            t.timers.pending == map[] && t.started == s.started && t.inFlight <= s.inFlight
  {
    var s := Loop(p, before);
    LoopInvariant(p, before);
    QuietStaysQuiet(p, Step(p, s, CancelLoop), after);
    NoAttemptAfterClosing(p, Step(p, s, CancelLoop), after);
  }

  /** What is left to do in a bounded loop. */
  function Remaining(p: Policy, s: Manager): int {
    if s.timers.pending != map[] then 2 * (p.maxAttempts - s.attempt)
    else if s.inFlight > 0 then 2 * (p.maxAttempts - s.attempt) - 1
    else 0
  }

  predicate Progresses(p: Policy, s: Manager, e: Event) {
    (e.TimerFires? || e == Connected || e == ConnectFailed) && Step(p, s, e) != s
  }

  lemma ProgressDecreases(p: Policy, s: Manager, e: Event)
    requires OneLoop(p, s) && p.maxAttempts >= 0 && Progresses(p, s, e)
    ensures 0 <= Remaining(p, Step(p, s, e)) < Remaining(p, s)
  {
    PendingCounted(s);
  }

  /** How many events of the run do not move the loop on. */
  function IdleEvents(p: Policy, s: Manager, events: seq<Event>): nat {
    if events == [] then 0 else
      var before := events[..|events| - 1];
      IdleEvents(p, s, before) + if Progresses(p, Run(p, s, before), events[|events| - 1]) then 0 else 1
  }

  lemma ProgressStep(p: Policy, s: Manager, e: Event)
    requires OneLoop(p, s) && p.maxAttempts >= 0 && Progresses(p, s, e)
    ensures OneLoop(p, Step(p, s, e))
    ensures 0 <= Remaining(p, Step(p, s, e)) < Remaining(p, s)
  {
    StepOneLoop(p, s, e);
    ProgressDecreases(p, s, e);
  }

  /** A bounded loop always ends: after at most 2 * maxAttempts timer and connect events
      nothing is pending. */
  lemma {:induction false} BoundedLoopEnds(p: Policy, events: seq<Event>)
    requires p.maxAttempts >= 0
    requires IdleEvents(p, Step(p, INITIAL, StartLoop), events) == 0
    ensures OneLoop(p, Loop(p, events))
    ensures 0 <= Remaining(p, Loop(p, events)) <= 2 * p.maxAttempts - |events|
  {
    if events != [] {
      var before, e := events[..|events| - 1], events[|events| - 1];
      BoundedLoopEnds(p, before);
      ProgressStep(p, Loop(p, before), e);
    }
  }

  // ------------------------------------------------------------------ the implementation

  class ReconnectManager {
    const policy: Policy
    var timer: Option<nat>
    /** The part of the runtime that the manager uses. */
    var timers: Timers<real>
    var attempt: nat
    var closing: bool
    ghost var delays: seq<real>
    ghost var inFlight: nat
    ghost var started: nat
    ghost var failed: nat
    ghost var succeeded: nat
    ghost var exhausted: nat

    /** A server that was given no policy uses the default one. */
    constructor (user: Option<Policy>)
      ensures policy == (if user.Some? then user.value else DEFAULT_POLICY) && View() == INITIAL
    {
      policy := if user.Some? then user.value else DEFAULT_POLICY;
      timer, attempt, closing := None, 0, false;
      timers := Timers(map[], 0);
      delays, inFlight, started, failed, succeeded, exhausted := [], 0, 0, 0, 0, 0;
    }

    ghost function View(): Manager
      reads this
    {
      Manager(timer, timers, attempt, closing, delays, inFlight, started, failed, succeeded, exhausted)
    }

    method Start() returns (reportsExhausted: bool)
      modifies this
      ensures View() == Step(policy, old(View()), StartLoop)
      ensures reportsExhausted <==> exhausted == old(exhausted) + 1
    {
      if closing {
        return false;
      }
      reportsExhausted := Schedule();
    }

    /** Arms the next timer, or returns true where the source calls `onExhausted`. */
    method Schedule() returns (reportsExhausted: bool)
      modifies this
      ensures View() == ScheduleRetry(policy, old(View()))
      ensures reportsExhausted <==> exhausted == old(exhausted) + 1
    {
      if policy.maxAttempts >= 0 && attempt >= policy.maxAttempts {
        exhausted := exhausted + 1;
        return true;
      }
      var delay := Delay(policy, attempt);
      timer := Some(timers.next);
      timers := Armed(timers, delay);
      delays := delays + [delay];
      return false;
    }

    /** The runtime fires a pending timer; returns true where the source calls `connectFn`. */
    method OnTimer(id: nat) returns (connects: bool)
      requires id in timers.pending
      modifies this
      ensures View() == Step(policy, old(View()), TimerFires(id))
      ensures connects <==> started == old(started) + 1
    {
      timers := Without(timers, id);
      timer := None;
      if closing {
        return false;
      }
      started, inFlight := started + 1, inFlight + 1;
      return true;
    }

    method OnConnected()
      requires inFlight > 0
      modifies this
      ensures View() == Step(policy, old(View()), Connected)
    {
      attempt := 0;
      inFlight, succeeded := inFlight - 1, succeeded + 1;
    }

    method OnConnectFailed() returns (reportsExhausted: bool)
      requires inFlight > 0
      modifies this
      ensures View() == Step(policy, old(View()), ConnectFailed)
      ensures reportsExhausted <==> exhausted == old(exhausted) + 1
    {
      inFlight, failed := inFlight - 1, failed + 1;
      attempt := attempt + 1;
      if closing {
        return false;
      }
      reportsExhausted := Schedule();
    }

    method Cancel()
      modifies this
      ensures View() == Step(policy, old(View()), CancelLoop)
    {
      if timer.Some? {
        timers := Without(timers, timer.value);
        timer := None;
      }
      closing := true;
    }

    method Mark()
      modifies this
      ensures View() == Step(policy, old(View()), MarkClosing)
    {
      closing := true;
    }
  }
}
