/**
 The delivery pipeline of a queue handler.  Any number of poll callbacks run concurrently;
 each one works through its messages, one unit after the other, and gives up control at
 every `await`.  An event is the code between two awaits, executed by one callback.  An
 event that is not enabled leaves the state as it is, so a run is any sequence of events.
 */
module QueuePipeline {
  import opened Options
  import Backpressure
  import Idempotency

  type Delivery = Backpressure.Delivery

  datatype Config = Config(
    limit: Option<Backpressure.Limits>,
    dedup: Option<Idempotency.Config>,
    manualAck: bool,
    batch: bool,
    validates: bool,
    deadLetters: bool)

  datatype IdempotencyOptions = IdempotencyOptions(maxCacheSize: Option<int>, ttlSeconds: Option<int>)

  /** What the decorator of a queue handler may set. */
  datatype HandlerOptions = HandlerOptions(
    concurrency: Option<int>,
    maxConcurrent: Option<int>,
    maxQueueDepth: Option<int>,
    idempotency: Option<IdempotencyOptions>,
    manualAck: bool,
    batch: bool,
    validates: bool,
    deadLetters: bool)

  function OrElse(x: Option<int>, default: int): int {
    if x.Some? then x.value else default
  }

  /** `concurrency` is preferred to its alias also when it is 0, and 0 means no limit. */
  function EffectiveLimit(o: HandlerOptions): int {
    OrElse(o.concurrency, OrElse(o.maxConcurrent, 0))
  }

  function Configured(o: HandlerOptions): Config {
    Config(
      if EffectiveLimit(o) == 0 then None
      else Some(Backpressure.Limits(EffectiveLimit(o), OrElse(o.maxQueueDepth, 1000))),
      if o.idempotency.None? then None
      else Some(Idempotency.Config(OrElse(o.idempotency.value.maxCacheSize, 10_000),
                                   OrElse(o.idempotency.value.ttlSeconds, 300) * 1000)),
      o.manualAck, o.batch, o.validates, o.deadLetters)
  }

  /** The first of the two options that is given decides: 0 means no limit, anything else is the
      limit, with the depth that is given or 1000. */
  lemma LimitByOptions(o: HandlerOptions)
    ensures var limit := Configured(o).limit;
            && (o.concurrency.Some? && o.concurrency.value != 0 ==>
                  limit.Some? && limit.value.maxConcurrent == o.concurrency.value)
            && (o.concurrency == Some(0) ==> limit == None)
            && (o.concurrency == None && o.maxConcurrent.Some? && o.maxConcurrent.value != 0 ==>
                  limit.Some? && limit.value.maxConcurrent == o.maxConcurrent.value)
            && (o.concurrency == None && (o.maxConcurrent == None || o.maxConcurrent == Some(0)) ==> limit == None)
            && (limit.Some? && o.maxQueueDepth.Some? ==> limit.value.maxQueueDepth == o.maxQueueDepth.value)
            && (limit.Some? && o.maxQueueDepth.None? ==> limit.value.maxQueueDepth == 1000)
  {
  }

  /** Deduplication is on exactly if the option is given; it remembers 10000 keys for five
      minutes unless the option says otherwise, in keys and in seconds. */
  lemma DedupByOptions(o: HandlerOptions)
    ensures Configured(o).dedup.Some? <==> o.idempotency.Some?
    ensures o.idempotency.Some? ==>
              var given, dedup := o.idempotency.value, Configured(o).dedup.value;
              && (given.maxCacheSize.Some? ==> dedup.maxSize == given.maxCacheSize.value)
              && (given.maxCacheSize.None? ==> dedup.maxSize == 10_000)
              && (given.ttlSeconds.Some? ==> dedup.ttlMs == 1000 * given.ttlSeconds.value)
              && (given.ttlSeconds.None? ==> dedup.ttlMs == 300_000)
  {
  }

  /** `key` is the idempotency tag; an absent tag is the empty string. */
  datatype Message = Message(id: nat, key: string)

  datatype Verdict = Succeeded | Duplicate | Refused | Failed

  datatype Phase =
    | Idle
    | Waiting
    | Admitted
    | Validating
    | DeadLettering
    | Handling
    | Settling(verdict: Verdict)
    | Overflowed

  /** A poll callback.  A unit is one message, or the whole poll in batch mode. */
  datatype Poll = Poll(units: seq<seq<Message>>, pos: nat, phase: Phase)

  datatype Call = Call(delivery: Delivery, message: nat, ack: bool)

  /** A dead letter that the transport itself sends for a unit. */
  datatype Letter = Letter(delivery: Delivery, message: Message)

  datatype Result = Result(size: nat, verdict: Verdict)

  datatype State = State(
    polls: seq<Poll>,
    sem: Backpressure.Semaphore,
    cache: Idempotency.Cache,
    handled: seq<Delivery>,
    succeeded: seq<Delivery>,
    finished: seq<Delivery>,
    results: seq<Result>,
    calls: seq<Call>,
    letters: seq<Letter>)

  datatype Validation = Accepted | Invalid | Threw

  datatype Event =
    | Arrive(messages: seq<Message>)
    | Start(poll: nat)
    | Enter(poll: nat, now: int, decodes: bool)
    | Validated(poll: nat, validation: Validation)
    | DeadLettered(poll: nat)
    | Returned(poll: nat, now: int, ok: bool)
    | Settle(poll: nat)

  const INITIAL := State([], Backpressure.FRESH, Idempotency.EMPTY, [], [], [], [], [], [])

  function Units(cfg: Config, messages: seq<Message>): seq<seq<Message>> {
    if cfg.batch then [messages] else seq(|messages|, i requires 0 <= i < |messages| => [messages[i]])
  }

  function Unit(polls: seq<Poll>, d: Delivery): seq<Message> {
    if d.poll < |polls| && d.unit < |polls[d.poll].units| then polls[d.poll].units[d.unit] else []
  }

  /** Only the first message of a unit is consulted for its key. */
  function LeadKey(polls: seq<Poll>, d: Delivery): string {
    var unit := Unit(polls, d);
    if unit == [] then "" else unit[0].key
  }

  function Current(s: State, p: nat): Delivery
    requires p < |s.polls|
  {
    Backpressure.Delivery(p, s.polls[p].pos)
  }

  function Move(s: State, p: nat, phase: Phase): State
    requires p < |s.polls|
  {
    s.(polls := s.polls[p := s.polls[p].(phase := phase)])
  }

  predicate InPhase(s: State, p: nat, phase: Phase) {
    p < |s.polls| && s.polls[p].phase == phase && s.polls[p].pos < |s.polls[p].units|
  }

  function Begin(cfg: Config, s: State, p: nat): State
    requires p < |s.polls|
  {
    if cfg.limit.None? then
      Move(s, p, Admitted)
    else
      var d := Current(s, p);
      var next := match Backpressure.Ask(cfg.limit.value, s.sem)
                  case Granted => Admitted
                  case Queued => Waiting
                  case Rejected => Overflowed;
      Move(s, p, next).(sem := Backpressure.Acquired(cfg.limit.value, s.sem, d))
  }

  function Handle(s: State, p: nat): State
    requires p < |s.polls|
  {
    Move(s, p, Handling).(handled := s.handled + [Current(s, p)])
  }

  /** The body that goes to the dead-letter channel is that of the unit's first message. */
  function LetterFor(polls: seq<Poll>, d: Delivery): seq<Letter> {
    var unit := Unit(polls, d);
    if unit == [] then [] else [Letter(d, unit[0])]
  }

  function Refuse(cfg: Config, s: State, p: nat): State
    requires p < |s.polls|
  {
    if cfg.deadLetters then
      Move(s, p, DeadLettering).(letters := s.letters + LetterFor(s.polls, Current(s, p)))
    else
      Move(s, p, Settling(Refused))
  }

  function Deduplicates(cfg: Config, key: string): bool {
    cfg.dedup.Some? && key != ""
  }

  function EnterBody(cfg: Config, s: State, p: nat, now: int): State
    requires p < |s.polls|
  {
    var key := LeadKey(s.polls, Current(s, p));
    if Deduplicates(cfg, key) && Idempotency.Present(s.cache, now, key) then
      Move(s, p, Settling(Duplicate))
    else
      var t := if Deduplicates(cfg, key) then s.(cache := Idempotency.Lookup(s.cache, now, key)) else s;
      if cfg.validates then Move(t, p, Validating) else Handle(t, p)
  }

  function Return(cfg: Config, s: State, p: nat, now: int, ok: bool): State
    requires p < |s.polls|
  {
    var d := Current(s, p);
    var key := LeadKey(s.polls, d);
    if !ok then
      Move(s, p, Settling(Failed))
    else if Deduplicates(cfg, key) then
      Move(s, p, Settling(Succeeded)).(
        succeeded := s.succeeded + [d],
        cache := Idempotency.Insert(cfg.dedup.value, s.cache, now, key))
    else
      Move(s, p, Settling(Succeeded)).(succeeded := s.succeeded + [d])
  }

  /** One `ack` or `nack` for each message of the unit, unless the handler does it. */
  function CallsFor(cfg: Config, d: Delivery, r: Result): seq<Call> {
    if cfg.manualAck then [] else Repeat(d, r.size, r.verdict != Failed)
  }

  function Repeat(d: Delivery, n: nat, ack: bool): seq<Call> {
    if n == 0 then [] else Repeat(d, n - 1, ack) + [Call(d, n - 1, ack)]
  }

  function Wake(polls: seq<Poll>, queue: seq<Delivery>): seq<Poll> {
    if queue != [] && queue[0].poll < |polls| then
      polls[queue[0].poll := polls[queue[0].poll].(phase := Admitted)]
    else
      polls
  }

  /** Settles the unit and goes on to the next one. */
  function Concluded(cfg: Config, s: State, p: nat, verdict: Verdict): State
    requires p < |s.polls|
  {
    var d := Current(s, p);
    var r := Result(|Unit(s.polls, d)|, verdict);
    s.(polls := s.polls[p := s.polls[p].(pos := s.polls[p].pos + 1, phase := Idle)],
       finished := s.finished + [d],
       results := s.results + [r],
       calls := s.calls + CallsFor(cfg, d, r))
  }

  /** Returns the permit of the unit, to the oldest waiter if there is one. */
  function PermitBack(cfg: Config, s: State, d: Delivery): State {
    if cfg.limit.None? then s
    else s.(polls := Wake(s.polls, s.sem.queue), sem := Backpressure.Released(s.sem, d))
  }

  /** Concludes the unit and returns its permit. */
  function Finish(cfg: Config, s: State, p: nat, verdict: Verdict): State
    requires p < |s.polls|
  {
    PermitBack(cfg, Concluded(cfg, s, p, verdict), Current(s, p))
  }

  function Step(cfg: Config, s: State, e: Event): State {
    match e
    case Arrive(messages) =>
      s.(polls := s.polls + [Poll(Units(cfg, messages), 0, Idle)])
    case Start(p) =>
      if InPhase(s, p, Idle) then Begin(cfg, s, p) else s
    case Enter(p, now, decodes) =>
      if !InPhase(s, p, Admitted) then s
      else if !decodes || Unit(s.polls, Current(s, p)) == [] then Finish(cfg, s, p, Failed)
      else EnterBody(cfg, s, p, now)
    case Validated(p, validation) =>
      if !InPhase(s, p, Validating) then s else
        (match validation
         case Accepted => Handle(s, p)
         case Invalid => Refuse(cfg, s, p)
         case Threw => Move(s, p, Settling(Failed)))
    case DeadLettered(p) =>
      if InPhase(s, p, DeadLettering) then Move(s, p, Settling(Refused)) else s
    case Returned(p, now, ok) =>
      if InPhase(s, p, Handling) then Return(cfg, s, p, now, ok) else s
    case Settle(p) =>
      if p < |s.polls| && s.polls[p].phase.Settling? && InPhase(s, p, s.polls[p].phase) then
        Finish(cfg, s, p, s.polls[p].phase.verdict)
      else s
  }

  function Run(cfg: Config, s: State, events: seq<Event>): State {
    if events == [] then s else Step(cfg, Run(cfg, s, events[..|events| - 1]), events[|events| - 1])
  }

  lemma RunSnoc(cfg: Config, s: State, events: seq<Event>, e: Event)
    ensures Run(cfg, s, events + [e]) == Step(cfg, Run(cfg, s, events), e)
  {
    assert (events + [e])[..|events|] == events;
  }
}
