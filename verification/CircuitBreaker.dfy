/**
 The circuit breaker of the client: a timed machine with three states.  Outcomes may be
 recorded late, in any state.  The breaker remembers the id of its reset timer; which timers
 are pending is up to the runtime, and any pending timer fires once it is due.
 */
module CircuitBreaking {
  import opened Options
  import opened Timers

  datatype Config = Config(failureThreshold: int, resetTimeout: int, halfOpenRequests: int)

  datatype Status = Closed | Open | HalfOpen

  datatype Notice = Notice(status: Status, failures: int)

  datatype Breaker = Breaker(
    status: Status,
    failures: int,
    allowed: int,
    timer: Option<nat>,
    timers: Timers<int>,
    notices: seq<Notice>)

  const FRESH := Breaker(Closed, 0, 0, None, Timers(map[], 0), [])

  datatype Op =
    | Guard
    | Success(now: int)
    | Failure(now: int)
    | TimerDue(id: nat, now: int)
    | Destroy

  predicate Admits(b: Breaker) {
    b.status == Closed || (b.status == HalfOpen && b.allowed > 0)
  }

  function Guarded(b: Breaker): Breaker {
    if b.status == HalfOpen && b.allowed > 0 then b.(allowed := b.allowed - 1) else b
  }

  /** Clears the timer that the breaker remembers, and forgets it. */
  function Disarmed(b: Breaker): Breaker {
    if b.timer.Some? then b.(timers := Without(b.timers, b.timer.value), timer := None) else b
  }

  function Rearmed(b: Breaker, due: int): Breaker {
    b.(timer := Some(b.timers.next), timers := Armed(b.timers, due))
  }

  function TransitionTo(cfg: Config, b: Breaker, status: Status, now: int): Breaker {
    if b.status == status then b else
      var failures := if status == Closed then 0 else b.failures;
      var c := if status == Open then Rearmed(Disarmed(b), now + cfg.resetTimeout) else Disarmed(b);
      c.(status := status, failures := failures, notices := b.notices + [Notice(status, failures)])
  }

  function Succeeded(cfg: Config, b: Breaker, now: int): Breaker {
    (if b.status == HalfOpen then TransitionTo(cfg, b, Closed, now) else b).(failures := 0)
  }

  function Failed(cfg: Config, b: Breaker, now: int): Breaker {
    var c := b.(failures := b.failures + 1);
    if c.status == HalfOpen || (c.status == Closed && c.failures >= cfg.failureThreshold) then
      TransitionTo(cfg, c, Open, now)
    else
      c
  }

  predicate TimerFires(b: Breaker, id: nat, now: int) {
    id in b.timers.pending && now >= b.timers.pending[id]
  }

  /** Any pending timer runs the callback when it is due, also one that was forgotten. */
  function Fired(cfg: Config, b: Breaker, id: nat, now: int): Breaker {
    if TimerFires(b, id, now) then
      TransitionTo(cfg, b.(timers := Without(b.timers, id), allowed := cfg.halfOpenRequests), HalfOpen, now)
    else
      b
  }

  function Apply(cfg: Config, b: Breaker, op: Op): Breaker {
    match op
    case Guard => Guarded(b)
    case Success(now) => Succeeded(cfg, b, now)
    case Failure(now) => Failed(cfg, b, now)
    case TimerDue(id, now) => Fired(cfg, b, id, now)
    case Destroy => Disarmed(b)
  }

  function Run(cfg: Config, b: Breaker, ops: seq<Op>): Breaker {
    if ops == [] then b else Apply(cfg, Run(cfg, b, ops[..|ops| - 1]), ops[|ops| - 1])
  }

  lemma {:induction false} RunConcat(cfg: Config, b: Breaker, first: seq<Op>, second: seq<Op>)
    ensures Run(cfg, b, first + second) == Run(cfg, Run(cfg, b, first), second)
  {
    if second == [] {
      assert first + second == first;
    } else {
      var n := |second| - 1;
      assert (first + second)[..|first + second| - 1] == first + second[..n];
      RunConcat(cfg, b, first, second[..n]);
    }
  }

  lemma RunSnoc(cfg: Config, b: Breaker, ops: seq<Op>, op: Op)
    ensures Run(cfg, b, ops + [op]) == Apply(cfg, Run(cfg, b, ops), op)
  {
    assert (ops + [op])[..|ops|] == ops;
  }

  // ------------------------------------------------------------ observers of a run

  function Recorded(op: Op): seq<bool> {
    if op.Success? then [true] else if op.Failure? then [false] else []
  }

  /** The recorded outcomes in order: true for a success. */
  function Outcomes(ops: seq<Op>): seq<bool> {
    if ops == [] then [] else Outcomes(ops[..|ops| - 1]) + Recorded(ops[|ops| - 1])
  }

  /** The length of the longest suffix without a success. */
  function TrailingFailures(outcomes: seq<bool>): nat {
    if outcomes == [] || outcomes[|outcomes| - 1] then 0 else TrailingFailures(outcomes[..|outcomes| - 1]) + 1
  }

  /** Requests let through while the breaker was not closed. */
  function Probes(cfg: Config, ops: seq<Op>): nat {
    if ops == [] then 0 else
      var before := Run(cfg, FRESH, ops[..|ops| - 1]);
      Probes(cfg, ops[..|ops| - 1])
        + if ops[|ops| - 1].Guard? && Admits(before) && before.status != Closed then 1 else 0
  }

  function Firings(cfg: Config, ops: seq<Op>): nat {
    if ops == [] then 0 else
      var op := ops[|ops| - 1];
      Firings(cfg, ops[..|ops| - 1])
        + if op.TimerDue? && TimerFires(Run(cfg, FRESH, ops[..|ops| - 1]), op.id, op.now) then 1 else 0
  }

  /** Requests let through since the reset timer last fired. */
  function EpisodeProbes(cfg: Config, ops: seq<Op>): nat {
    if ops == [] then 0 else
      var before, op := Run(cfg, FRESH, ops[..|ops| - 1]), ops[|ops| - 1];
      if op.TimerDue? && TimerFires(before, op.id, op.now) then 0
      else EpisodeProbes(cfg, ops[..|ops| - 1])
             + if op.Guard? && Admits(before) && before.status != Closed then 1 else 0
  }

  predicate Destroyed(ops: seq<Op>) {
    Destroy in ops
  }

  // ------------------------------------------------------------ failure history

  lemma TrailingSnoc(outcomes: seq<bool>, outcome: bool)
    ensures TrailingFailures(outcomes + [outcome]) == if outcome then 0 else TrailingFailures(outcomes) + 1
  {
    assert (outcomes + [outcome])[..|outcomes|] == outcomes;
  }

  lemma CountStep(cfg: Config, b: Breaker, op: Op)
    ensures Apply(cfg, b, op).failures ==
            if op.Success? then 0 else if op.Failure? then b.failures + 1 else b.failures
  {
  }

  predicate BelowThreshold(cfg: Config, b: Breaker) {
    cfg.failureThreshold >= 1 && b.status == Closed ==> b.failures < cfg.failureThreshold
  }

  lemma BelowThresholdStep(cfg: Config, b: Breaker, op: Op)
    requires BelowThreshold(cfg, b)
    ensures BelowThreshold(cfg, Apply(cfg, b, op))
  {
  }

  lemma TrailingStep(outcomes: seq<bool>, op: Op)
    ensures TrailingFailures(outcomes + Recorded(op)) ==
            if op.Success? then 0
            else if op.Failure? then TrailingFailures(outcomes) + 1
            else TrailingFailures(outcomes)
  {
    if op.Success? {
      TrailingSnoc(outcomes, true);
    } else if op.Failure? {
      TrailingSnoc(outcomes, false);
    } else {
      assert outcomes + [] == outcomes;
    }
  }

  /** `failures` is the length of the trailing run of failures, whatever the states in
      between; and a closed breaker has seen fewer of them than a positive threshold. */
  lemma {:induction false} FailuresCountTrailingRun(cfg: Config, ops: seq<Op>)
    ensures var b := Run(cfg, FRESH, ops);
            && b.failures == TrailingFailures(Outcomes(ops))
            && BelowThreshold(cfg, b)
  {
    if ops != [] {
      var before := ops[..|ops| - 1];
      FailuresCountTrailingRun(cfg, before);
      CountStep(cfg, Run(cfg, FRESH, before), ops[|ops| - 1]);
      BelowThresholdStep(cfg, Run(cfg, FRESH, before), ops[|ops| - 1]);
      TrailingStep(Outcomes(before), ops[|ops| - 1]);
    }
  }

  /** A closed breaker opens at exactly the outcome that completes a run of
      failureThreshold failures, and at nothing else; the listener is told that number. */
  lemma OpensExactlyAtThreshold(cfg: Config, ops: seq<Op>, op: Op)
    requires cfg.failureThreshold >= 1
    requires Run(cfg, FRESH, ops).status == Closed
    ensures Run(cfg, FRESH, ops + [op]).status ==
            if op.Failure? && TrailingFailures(Outcomes(ops + [op])) == cfg.failureThreshold then Open else Closed
    ensures Run(cfg, FRESH, ops + [op]).notices ==
            Run(cfg, FRESH, ops).notices
            + if Run(cfg, FRESH, ops + [op]).status == Open then [Notice(Open, cfg.failureThreshold)] else []
  {
    assert (ops + [op])[..|ops|] == ops;
    FailuresCountTrailingRun(cfg, ops);
    FailuresCountTrailingRun(cfg, ops + [op]);
    TimerDiscipline(cfg, ops);
    OpeningStep(cfg, Run(cfg, FRESH, ops), op);
  }

  lemma OpeningStep(cfg: Config, b: Breaker, op: Op)
    requires b.status == Closed && b.failures < cfg.failureThreshold && b.timers.pending == map[]
    ensures var c := Apply(cfg, b, op);
            && (c.status == Open <==> op.Failure? && c.failures == cfg.failureThreshold)
            && (c.status != Open ==> c.status == Closed)
            && c.notices == b.notices + if c.status == Open then [Notice(Open, cfg.failureThreshold)] else []
  {
    assert b.notices + [] == b.notices;
  }

  // ------------------------------------------------------------ timer discipline

  /** The timers that are pending are the one the breaker remembers, and no other. */
  predicate NoStrayTimer(b: Breaker) {
    b.timers.pending.Keys == if b.timer.Some? then {b.timer.value} else {}
  }

  lemma StepTimers(cfg: Config, b: Breaker, op: Op)
    requires NoStrayTimer(b) && (b.timer.Some? ==> b.status == Open)
    ensures var c := Apply(cfg, b, op);
            && NoStrayTimer(c) && (c.timer.Some? ==> c.status == Open)
            && (op != Destroy && (b.status == Open ==> b.timer.Some?) && c.status == Open ==> c.timer.Some?)
  {
  }

  lemma {:induction false} TimerDiscipline(cfg: Config, ops: seq<Op>)
    ensures var b := Run(cfg, FRESH, ops);
            && NoStrayTimer(b)
            && (b.timer.Some? ==> b.status == Open)
            && (b.status != Open ==> b.timers.pending == map[])
            && (!Destroyed(ops) && b.status == Open ==> b.timer.Some?)
  {
    if ops != [] {
      var before, op := ops[..|ops| - 1], ops[|ops| - 1];
      assert ops == before + [op];
      TimerDiscipline(cfg, before);
      StepTimers(cfg, Run(cfg, FRESH, before), op);
    }
  }

  /** Over every run at most one reset timer is pending, it is the one the breaker remembers,
      and until `destroy` there is one exactly while the breaker is open. */
  lemma TimerPendingIffOpen(cfg: Config, ops: seq<Op>)
    ensures var b := Run(cfg, FRESH, ops);
            && |b.timers.pending| <= 1
            && (forall id :: id in b.timers.pending <==> b.timer == Some(id))
            && (b.timers.pending != map[] ==> b.status == Open)
            && (!Destroyed(ops) ==> (b.timers.pending != map[] <==> b.status == Open))
  {
    TimerDiscipline(cfg, ops);
    var b := Run(cfg, FRESH, ops);
    assert |b.timers.pending| == |b.timers.pending.Keys|;
    if b.timer.Some? {
      assert b.timer.value in b.timers.pending;
    }
  }

  function TimeOf(op: Op): Option<int> {
    match op
    case Success(now) => Some(now)
    case Failure(now) => Some(now)
    case TimerDue(_, now) => Some(now)
    case Guard => None
    case Destroy => None
  }

  /** No event of the run happens at `due` or later. */
  ghost predicate AllBefore(ops: seq<Op>, due: int) {
    forall i :: 0 <= i < |ops| && TimeOf(ops[i]).Some? ==> TimeOf(ops[i]).value < due
  }

  /** No pending timer is due during the run. */
  ghost predicate NoneDue(b: Breaker, ops: seq<Op>) {
    forall id :: id in b.timers.pending ==> AllBefore(ops, b.timers.pending[id])
  }

  /** While no pending timer is due, an open breaker stays open and rejects every request, for
      every sequence of outcomes, and also when it is destroyed meanwhile. */
  lemma {:induction false} OpenIntervalRejects(cfg: Config, b: Breaker, ops: seq<Op>)
    requires b.status == Open && NoneDue(b, ops)
    ensures var c := Run(cfg, b, ops);
            && c.status == Open && !Admits(c)
            && c.timers.pending.Keys <= b.timers.pending.Keys
            && (forall id :: id in c.timers.pending ==> c.timers.pending[id] == b.timers.pending[id])
            && (Destroy !in ops ==> c.timer == b.timer && c.timers == b.timers)
  {
    if ops != [] {
      var before, op := ops[..|ops| - 1], ops[|ops| - 1];
      assert ops == before + [op];
      assert NoneDue(b, before);
      OpenIntervalRejects(cfg, b, before);
    }
  }

  /** The failure that opens the breaker leaves one timer pending, due after resetTimeout. */
  lemma OpeningArmsTimer(cfg: Config, ops: seq<Op>, now: int)
    requires Run(cfg, FRESH, ops).status != Open
    requires Run(cfg, FRESH, ops + [Failure(now)]).status == Open
    ensures var b := Run(cfg, FRESH, ops + [Failure(now)]);
            b.timer.Some? && b.timers.pending == map[b.timer.value := now + cfg.resetTimeout]
  {
    assert (ops + [Failure(now)])[..|ops|] == ops;
    TimerDiscipline(cfg, ops);
  }

  /** The failure that opens the breaker at time `now` buys a full resetTimeout of rejections:
      no timer of an earlier interval cuts it short. */
  lemma FailureThatOpensRejects(cfg: Config, ops: seq<Op>, now: int, later: seq<Op>)
    requires Run(cfg, FRESH, ops).status != Open
    requires Run(cfg, FRESH, ops + [Failure(now)]).status == Open
    requires AllBefore(later, now + cfg.resetTimeout)
    ensures !Admits(Run(cfg, Run(cfg, FRESH, ops + [Failure(now)]), later))
  {
    OpeningArmsTimer(cfg, ops, now);
    OpenIntervalRejects(cfg, Run(cfg, FRESH, ops + [Failure(now)]), later);
  }

  /** And not longer: unless the breaker was destroyed, its timer is still pending then and,
      at resetTimeout or later, makes it half-open with its full budget of probes. */
  lemma HalfOpenAfterTimeout(cfg: Config, ops: seq<Op>, now: int, later: seq<Op>, due: int)
    requires Run(cfg, FRESH, ops).status != Open
    requires Run(cfg, FRESH, ops + [Failure(now)]).status == Open
    requires AllBefore(later, now + cfg.resetTimeout) && due >= now + cfg.resetTimeout && Destroy !in later
    ensures var b := Run(cfg, Run(cfg, FRESH, ops + [Failure(now)]), later);
            && b.timer.Some? && TimerFires(b, b.timer.value, due)
            && var c := Apply(cfg, b, TimerDue(b.timer.value, due));
               c.status == HalfOpen && c.allowed == cfg.halfOpenRequests && c.timers.pending == map[]
  {
    OpeningArmsTimer(cfg, ops, now);
    OpenIntervalRejects(cfg, Run(cfg, FRESH, ops + [Failure(now)]), later);
  }

  /** A breaker that is destroyed while open never lets a request through again. */
  lemma DestroyedWhileOpenIsFinal(cfg: Config, before: seq<Op>, ops: seq<Op>)
    requires Run(cfg, FRESH, before).status == Open
    ensures !Admits(Run(cfg, Apply(cfg, Run(cfg, FRESH, before), Destroy), ops))
  {
    TimerDiscipline(cfg, before);
    OpenIntervalRejects(cfg, Apply(cfg, Run(cfg, FRESH, before), Destroy), ops);
  }

  /** The first outcome decides a half-open episode: until it comes in the breaker stays
      half-open, a success closes it with a clean count, and a failure opens it again for a
      full resetTimeout, however many probes are still out. */
  lemma FirstOutcomeDecides(cfg: Config, b: Breaker, ops: seq<Op>, op: Op)
    requires b.status == HalfOpen && NoStrayTimer(b) && b.timer.None? && Outcomes(ops) == []
    ensures Run(cfg, b, ops).status == HalfOpen
    ensures var c := Run(cfg, b, ops + [op]);
            && (op.Success? ==> c.status == Closed && c.failures == 0 && c.timers.pending == map[])
            && (op.Failure? ==> c.status == Open && c.failures == b.failures + 1 && c.timer.Some?
                                && c.timers.pending == map[c.timer.value := op.now + cfg.resetTimeout])
  {
    StaysHalfOpen(cfg, b, ops);
    RunSnoc(cfg, b, ops, op);
    OutcomeEnds(cfg, Run(cfg, b, ops), op);
  }

  lemma OutcomeEnds(cfg: Config, b: Breaker, op: Op)
    requires b.status == HalfOpen && NoStrayTimer(b) && b.timer.None?
    ensures var c := Apply(cfg, b, op);
            && (op.Success? ==> c.status == Closed && c.failures == 0 && c.timers.pending == map[])
            && (op.Failure? ==> c.status == Open && c.failures == b.failures + 1 && c.timer.Some?
                                && c.timers.pending == map[c.timer.value := op.now + cfg.resetTimeout])
  {
  }

  lemma {:induction false} StaysHalfOpen(cfg: Config, b: Breaker, ops: seq<Op>)
    requires b.status == HalfOpen && NoStrayTimer(b) && b.timer.None? && Outcomes(ops) == []
    ensures var c := Run(cfg, b, ops);
            c.status == HalfOpen && NoStrayTimer(c) && c.timer.None? && c.failures == b.failures
  {
    if ops != [] {
      assert Outcomes(ops[..|ops| - 1]) == [];
      StaysHalfOpen(cfg, b, ops[..|ops| - 1]);
    }
  }

  // ------------------------------------------------------------ admission

  /** Inside one half-open episode the requests let through and those still allowed add up to
      halfOpenRequests, whatever outcomes come in late. */
  lemma {:induction false} EpisodeBudget(cfg: Config, ops: seq<Op>)
    requires cfg.halfOpenRequests >= 0
    ensures var b := Run(cfg, FRESH, ops);
            && (b.status == HalfOpen ==> EpisodeProbes(cfg, ops) + b.allowed == cfg.halfOpenRequests && b.allowed >= 0)
            && EpisodeProbes(cfg, ops) <= cfg.halfOpenRequests
            && (Firings(cfg, ops) == 0 ==> EpisodeProbes(cfg, ops) == 0 && b.status != HalfOpen)
  {
    if ops != [] {
      EpisodeBudget(cfg, ops[..|ops| - 1]);
    }
  }

  /** The budget of n episodes. */
  function Budget(h: int, n: nat): int {
    if n == 0 then 0 else Budget(h, n - 1) + h
  }

  lemma {:induction false} BudgetIsProduct(h: int, n: nat)
    ensures Budget(h, n) == h * n
  {
    if n > 0 {
      BudgetIsProduct(h, n - 1);
      assert h * n == h * (n - 1) + h;
    }
  }

  /** What one operation adds to the counts. */
  lemma CountsStep(cfg: Config, ops: seq<Op>)
    requires ops != []
    ensures var before, op := ops[..|ops| - 1], ops[|ops| - 1];
            var b := Run(cfg, FRESH, before);
            var probe := if op.Guard? && b.status == HalfOpen && b.allowed > 0 then 1 else 0;
            && Probes(cfg, ops) == Probes(cfg, before) + probe
            && (|| (Firings(cfg, ops) == Firings(cfg, before) + 1 && EpisodeProbes(cfg, ops) == 0 && probe == 0)
                || (Firings(cfg, ops) == Firings(cfg, before)
                    && EpisodeProbes(cfg, ops) == EpisodeProbes(cfg, before) + probe))
  {
  }

  /** What the current episode may still admit. */
  function Unused(cfg: Config, ops: seq<Op>): int {
    if Firings(cfg, ops) == 0 then 0 else cfg.halfOpenRequests - EpisodeProbes(cfg, ops)
  }

  lemma {:induction false} ProbesInEpisodes(cfg: Config, ops: seq<Op>)
    requires cfg.halfOpenRequests >= 0
    ensures Probes(cfg, ops) + Unused(cfg, ops) <= Budget(cfg.halfOpenRequests, Firings(cfg, ops))
  {
    if ops != [] {
      var before := ops[..|ops| - 1];
      ProbesInEpisodes(cfg, before);
      EpisodeBudget(cfg, before);
      CountsStep(cfg, ops);
    }
  }

  /** Over any run, at most halfOpenRequests requests per firing of the reset timer get
      through while the breaker is not closed. */
  lemma AdmissionBounded(cfg: Config, ops: seq<Op>)
    requires cfg.halfOpenRequests >= 0
    ensures Probes(cfg, ops) <= cfg.halfOpenRequests * Firings(cfg, ops)
  {
    ProbesInEpisodes(cfg, ops);
    EpisodeBudget(cfg, ops);
    BudgetIsProduct(cfg.halfOpenRequests, Firings(cfg, ops));
  }

  // ------------------------------------------------------------ notifications

  predicate Follows(before: Status, after: Status) {
    match before
    case Closed => after == Open
    case Open => after == HalfOpen
    case HalfOpen => after == Open || after == Closed
  }

  function LastStatus(notices: seq<Notice>): Status {
    if notices == [] then Closed else notices[|notices| - 1].status
  }

  ghost predicate LegalPath(notices: seq<Notice>) {
    forall i :: 0 <= i < |notices| ==> Follows(LastStatus(notices[..i]), notices[i].status)
  }

  lemma LegalPathSnoc(notices: seq<Notice>, notice: Notice)
    requires LegalPath(notices) && Follows(LastStatus(notices), notice.status)
    ensures LegalPath(notices + [notice])
  {
    var longer := notices + [notice];
    forall i | 0 <= i < |longer| ensures Follows(LastStatus(longer[..i]), longer[i].status) {
      assert longer[..i] == notices[..i];
      assert notices[..|notices|] == notices;
    }
  }

  /** The listener sees every change of state, in order: consecutive notices follow the cycle
      closed, open, half-open, and the last one is the current state. */
  lemma {:induction false} NoticesTraceTheState(cfg: Config, ops: seq<Op>)
    ensures var b := Run(cfg, FRESH, ops);
            LastStatus(b.notices) == b.status && LegalPath(b.notices)
  {
    if ops != [] {
      var before := Run(cfg, FRESH, ops[..|ops| - 1]);
      var b := Run(cfg, FRESH, ops);
      NoticesTraceTheState(cfg, ops[..|ops| - 1]);
      TimerDiscipline(cfg, ops[..|ops| - 1]);
      StepNotices(cfg, before, ops[|ops| - 1]);
      if b.status != before.status {
        LegalPathSnoc(before.notices, b.notices[|before.notices|]);
      }
    }
  }

  /** Every change of state is noticed, and nothing else is; a notice tells the new state and
      the length of the trailing run of failures, the outcome just recorded included. */
  lemma EveryChangeIsNoticed(cfg: Config, ops: seq<Op>, op: Op)
    ensures var b, c := Run(cfg, FRESH, ops), Run(cfg, FRESH, ops + [op]);
            c.notices == b.notices
              + if c.status == b.status then [] else [Notice(c.status, TrailingFailures(Outcomes(ops + [op])))]
  {
    var b := Run(cfg, FRESH, ops);
    RunSnoc(cfg, FRESH, ops, op);
    TimerDiscipline(cfg, ops);
    StepNotices(cfg, b, op);
    FailuresCountTrailingRun(cfg, ops + [op]);
    assert b.notices + [] == b.notices;
  }

  lemma StepNotices(cfg: Config, b: Breaker, op: Op)
    requires b.status != Open ==> b.timers.pending == map[]
    ensures var c := Apply(cfg, b, op);
            if c.status == b.status then c.notices == b.notices
            else c.notices == b.notices + [Notice(c.status, c.failures)] && Follows(b.status, c.status)
  {
  }

  // ------------------------------------------------------------ the implementation

  class CircuitBreaker {
    const cfg: Config
    var status: Status
    var failures: int
    var allowed: int
    var timer: Option<nat>
    /** The part of the runtime that the breaker uses. */
    var timers: Timers<int>
    ghost var notices: seq<Notice>

    constructor (cfg: Config)
      ensures this.cfg == cfg && View() == FRESH
    {
      this.cfg := cfg;
      status, failures, allowed, timer := Closed, 0, 0, None;
      timers := Timers(map[], 0);
      notices := [];
    }

    ghost function View(): Breaker
      reads this
    {
      Breaker(status, failures, allowed, timer, timers, notices)
    }

    /** Returns false where the source throws `CircuitBreakerOpenError`. */
    method Guard() returns (admitted: bool)
      modifies this
      ensures admitted == Admits(old(View()))
      ensures View() == Apply(cfg, old(View()), Op.Guard)
    {
      if status == Open {
        return false;
      }
      if status == HalfOpen {
        if allowed <= 0 {
          return false;
        }
        allowed := allowed - 1;
      }
      return true;
    }

    method RecordSuccess(now: int)
      modifies this
      ensures View() == Apply(cfg, old(View()), Success(now))
    {
      if status == HalfOpen {
        ChangeTo(Closed, now);
      }
      failures := 0;
    }

    method RecordFailure(now: int)
      modifies this
      ensures View() == Apply(cfg, old(View()), Failure(now))
    {
      failures := failures + 1;
      if status == HalfOpen {
        ChangeTo(Open, now);
        return;
      }
      if status == Closed && failures >= cfg.failureThreshold {
        ChangeTo(Open, now);
      }
    }

    /** The runtime fires a pending timer and runs its callback. */
    method OnResetTimer(id: nat, now: int)
      requires id in timers.pending && now >= timers.pending[id]
      modifies this
      ensures View() == Apply(cfg, old(View()), TimerDue(id, now))
    {
      timers := Without(timers, id);
      allowed := cfg.halfOpenRequests;
      ChangeTo(HalfOpen, now);
    }

    method Shutdown()
      modifies this
      ensures View() == Apply(cfg, old(View()), Destroy)
    {
      if timer.Some? {
        timers := Without(timers, timer.value);
        timer := None;
      }
    }

    method ChangeTo(next: Status, now: int)
      modifies this
      ensures View() == TransitionTo(cfg, old(View()), next, now)
    {
      if status == next {
        return;
      }
      status := next;
      if timer.Some? {
        timers := Without(timers, timer.value);
        timer := None;
      }
      if next == Open {
        timer := Some(timers.next);
        timers := Armed(timers, now + cfg.resetTimeout);
      }
      if next == Closed {
        failures := 0;
      }
      notices := notices + [Notice(next, failures)];
    }
  }
}
