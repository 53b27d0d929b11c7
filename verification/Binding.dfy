/**
 All-or-nothing binding: one attempt creates a client and binds every registered handler, or
 takes back whatever it has created.  A handle is a subscription or a queue stream.
 */
module Binding {
  import opened Constants
  import opened Options

  /** A registered handler with the metadata of its decorator. */
  datatype Handler = Handler(
    wildcard: bool,
    metaType: Option<PatternType>,
    query: bool,
    store: bool,
    queue: bool,
    isEventHandler: bool,
    startPositionValid: bool,
    limited: bool,
    deduplicates: bool)

  datatype Handle = Handle(client: nat, handler: nat)

  /** What the environment does to one attempt: the SDK may fail to create the client or to
      bind a handler, and the server may start closing before or during the creation. */
  datatype Environment = Environment(
    closingBefore: bool,
    creates: bool,
    closingAfter: bool,
    sdkFails: set<nat>)

  datatype Outcome = Skipped | CreateFailed | ClosedEarly | Bound | BindFailed

  /** The lists and the client of the server, the semaphores and caches of its queue handlers,
      and the logs of what was created and given up.  A semaphore or a cache is named after the
      client of the attempt that created it. */
  datatype Server = Server(
    client: Option<nat>,
    subscriptions: seq<Handle>,
    queueStreams: seq<Handle>,
    semaphores: map<nat, nat>,
    caches: map<nat, nat>,
    clients: nat,
    closedClients: seq<nat>,
    handles: seq<Handle>,
    cancelled: seq<Handle>)

  const INITIAL := Server(None, [], [], map[], map[], 0, [], [], [])

  function ResolvePatternType(h: Handler): PatternType {
    if h.metaType.Some? then h.metaType.value
    else if h.query then Query
    else if h.store then EventStore
    else if h.queue then Queue
    else if h.isEventHandler then PlainEvent
    else Command
  }

  predicate Binds(env: Environment, handlers: seq<Handler>, i: nat)
    requires i < |handlers|
  {
    var kind := ResolvePatternType(handlers[i]);
    && (handlers[i].wildcard ==> kind == PlainEvent)
    && (kind == EventStore ==> handlers[i].startPositionValid)
    && i !in env.sdkFails
  }

  /** A queue handler gets its semaphore and its cache before its stream, and also when creating
      the stream then fails. */
  predicate Wants(h: Handler, cache: bool) {
    ResolvePatternType(h) == Queue && !h.wildcard && if cache then h.deduplicates else h.limited
  }

  /** The semaphores, or the caches, after those of the first n handlers have been created. */
  function Equipment(base: map<nat, nat>, handlers: seq<Handler>, c: nat, n: nat, cache: bool): map<nat, nat>
    requires n <= |handlers|
  {
    if n == 0 then base else
      var before := Equipment(base, handlers, c, n - 1, cache);
      if Wants(handlers[n - 1], cache) then before[n - 1 := c] else before
  }

  function Equipped(s: Server, h: Handler, c: nat, i: nat): Server {
    s.(semaphores := if Wants(h, false) then s.semaphores[i := c] else s.semaphores,
       caches := if Wants(h, true) then s.caches[i := c] else s.caches)
  }

  /** How many handlers are bound before the first one that throws. */
  function BoundCount(env: Environment, handlers: seq<Handler>, from: nat): (n: nat)
    requires from <= |handlers|
    ensures from <= n <= |handlers|
    ensures forall i :: from <= i < n ==> Binds(env, handlers, i)
    ensures n < |handlers| ==> !Binds(env, handlers, n)
    decreases |handlers| - from
  {
    if from < |handlers| && Binds(env, handlers, from) then BoundCount(env, handlers, from + 1) else from
  }

  /** The handles of the first n handlers that are queue handlers, or that are not. */
  function HandlesOf(c: nat, handlers: seq<Handler>, n: nat, queues: bool): seq<Handle>
    requires n <= |handlers|
  {
    if n == 0 then [] else
      var before := HandlesOf(c, handlers, n - 1, queues);
      if (ResolvePatternType(handlers[n - 1]) == Queue) == queues then before + [Handle(c, n - 1)] else before
  }

  /** The handles of the first n handlers, in order. */
  function AllHandles(c: nat, n: nat): seq<Handle> {
    if n == 0 then [] else AllHandles(c, n - 1) + [Handle(c, n - 1)]
  }

  function OutcomeOf(env: Environment, handlers: seq<Handler>): Outcome {
    if env.closingBefore then Skipped
    else if !env.creates then CreateFailed
    else if env.closingAfter then ClosedEarly
    else if BoundCount(env, handlers, 0) == |handlers| then Bound
    else BindFailed
  }

  function RolledBack(s: Server): Server {
    s.(client := None, subscriptions := [], queueStreams := [],
       cancelled := s.cancelled + s.subscriptions + s.queueStreams,
       closedClients := if s.client.Some? then s.closedClients + [s.client.value] else s.closedClients)
  }

  /** The server after its first n handlers have been bound to client c. */
  function WithHandlers(s: Server, c: nat, handlers: seq<Handler>, n: nat): Server
    requires n <= |handlers|
  {
    s.(client := Some(c), clients := s.clients + 1,
       semaphores := Equipment(s.semaphores, handlers, c, n, false),
       caches := Equipment(s.caches, handlers, c, n, true),
       subscriptions := s.subscriptions + HandlesOf(c, handlers, n, false),
       queueStreams := s.queueStreams + HandlesOf(c, handlers, n, true),
       handles := s.handles + AllHandles(c, n))
  }

  /** One call of `connectAndBindHandlers`. */
  function Attempt(s: Server, handlers: seq<Handler>, env: Environment): Server {
    match OutcomeOf(env, handlers)
    case Skipped => s
    case CreateFailed => s
    case ClosedEarly => s.(clients := s.clients + 1, closedClients := s.closedClients + [s.clients])
    case Bound => WithHandlers(s, s.clients, handlers, |handlers|)
    case BindFailed =>
      var n := BoundCount(env, handlers, 0);
      RolledBack(Equipped(WithHandlers(s, s.clients, handlers, n), handlers[n], s.clients, n))
  }

  /** The retry loop: attempts follow each other until one does not throw. */
  function RetryLoop(s: Server, handlers: seq<Handler>, envs: seq<Environment>): Server
    decreases |envs|
  {
    if envs == [] then s else
      var t := Attempt(s, handlers, envs[0]);
      if OutcomeOf(envs[0], handlers) == CreateFailed || OutcomeOf(envs[0], handlers) == BindFailed then
        RetryLoop(t, handlers, envs[1..])
      else t
  }

  // ------------------------------------------------------------------ what the decorator asks for

  /** The handler has the type: its decorator names it, or names none and the older flags come
      out at it. */
  predicate Declared(h: Handler, kind: PatternType, flags: bool) {
    if h.metaType.Some? then h.metaType.value == kind else flags
  }

  predicate IsQueryHandler(h: Handler) {
    Declared(h, Query, h.query)
  }

  predicate IsEventStoreHandler(h: Handler) {
    Declared(h, EventStore, h.store && !h.query)
  }

  predicate IsQueueHandler(h: Handler) {
    Declared(h, Queue, h.queue && !h.store && !h.query)
  }

  predicate IsPlainEventHandler(h: Handler) {
    Declared(h, PlainEvent, h.isEventHandler && !h.queue && !h.store && !h.query)
  }

  predicate IsCommandHandler(h: Handler) {
    Declared(h, Command, !h.isEventHandler && !h.queue && !h.store && !h.query)
  }

  /** The pattern type in terms of the handler's fields: the decorator's type wins, then the
      flags for query, store and queue in this order, then the kind of the handler.  Every
      handler has exactly one type. */
  lemma PatternTypeByFields(h: Handler)
    ensures ResolvePatternType(h) == Query <==> IsQueryHandler(h)
    ensures ResolvePatternType(h) == EventStore <==> IsEventStoreHandler(h)
    ensures ResolvePatternType(h) == Queue <==> IsQueueHandler(h)
    ensures ResolvePatternType(h) == PlainEvent <==> IsPlainEventHandler(h)
    ensures ResolvePatternType(h) == Command <==> IsCommandHandler(h)
  {
  }

  /** Only a plain event handler may have a wildcard, and an event-store handler needs a valid
      start position. */
  predicate MayBind(h: Handler) {
    (h.wildcard ==> IsPlainEventHandler(h)) && (IsEventStoreHandler(h) ==> h.startPositionValid)
  }

  // ------------------------------------------------------------------ properties

  predicate Empty(s: Server) {
    s.client.None? && s.subscriptions == [] && s.queueStreams == []
  }

  /** Every handle is active or was cancelled, and exactly one of the two, once. */
  ghost predicate HandlesConserved(s: Server) {
    multiset(s.handles) == multiset(s.subscriptions) + multiset(s.queueStreams) + multiset(s.cancelled)
  }

  /** Every client is the current one or was closed, and exactly one of the two, once. */
  ghost predicate ClientsConserved(s: Server) {
    forall c: nat :: multiset(s.closedClients)[c] + (if s.client == Some(c) then 1 else 0)
                     == if c < s.clients then 1 else 0
  }

  /** Handles carry the number of their client, so none is created twice. */
  ghost predicate HandlesFresh(s: Server) {
    && (forall h :: h in multiset(s.handles) ==> h.client < s.clients && multiset(s.handles)[h] == 1)
  }

  lemma MultisetSnoc(hs: seq<Handle>, h: Handle)
    ensures multiset(hs + [h]) == multiset(hs) + multiset{h}
  {
  }

  lemma {:induction false} HandlesOfSplit(c: nat, handlers: seq<Handler>, n: nat)
    requires n <= |handlers|
    ensures multiset(AllHandles(c, n)) ==
            multiset(HandlesOf(c, handlers, n, false)) + multiset(HandlesOf(c, handlers, n, true))
  {
    if n > 0 {
      HandlesOfSplit(c, handlers, n - 1);
      var subscribed, streamed := HandlesOf(c, handlers, n - 1, false), HandlesOf(c, handlers, n - 1, true);
      MultisetSnoc(AllHandles(c, n - 1), Handle(c, n - 1));
      MultisetSnoc(subscribed, Handle(c, n - 1));
      MultisetSnoc(streamed, Handle(c, n - 1));
    }
  }

  lemma {:induction false} AllHandlesCount(c: nat, n: nat, h: Handle)
    ensures multiset(AllHandles(c, n))[h] == if h.client == c && h.handler < n then 1 else 0
  {
    if n > 0 {
      AllHandlesCount(c, n - 1, h);
    }
  }

  lemma WithHandlersConserves(s: Server, handlers: seq<Handler>, n: nat)
    requires n <= |handlers| && HandlesConserved(s) && HandlesFresh(s)
    ensures HandlesConserved(WithHandlers(s, s.clients, handlers, n))
    ensures HandlesFresh(WithHandlers(s, s.clients, handlers, n))
  {
    HandlesOfSplit(s.clients, handlers, n);
    forall h: Handle
      ensures multiset(AllHandles(s.clients, n))[h] == if h.client == s.clients && h.handler < n then 1 else 0
    {
      AllHandlesCount(s.clients, n, h);
    }
  }

  lemma RolledBackConserves(s: Server)
    requires HandlesConserved(s) && HandlesFresh(s)
    ensures HandlesConserved(RolledBack(s)) && HandlesFresh(RolledBack(s))
  {
  }

  lemma AttemptConserves(s: Server, handlers: seq<Handler>, env: Environment)
    requires HandlesConserved(s) && HandlesFresh(s)
    ensures HandlesConserved(Attempt(s, handlers, env)) && HandlesFresh(Attempt(s, handlers, env))
  {
    match OutcomeOf(env, handlers)
    case Bound =>
      WithHandlersConserves(s, handlers, |handlers|);
    case BindFailed =>
      var n := BoundCount(env, handlers, 0);
      WithHandlersConserves(s, handlers, n);
      RolledBackConserves(Equipped(WithHandlers(s, s.clients, handlers, n), handlers[n], s.clients, n));
    case _ =>
  }

  lemma AttemptConservesClients(s: Server, handlers: seq<Handler>, env: Environment)
    requires ClientsConserved(s) && s.client.None?
    ensures ClientsConserved(Attempt(s, handlers, env))
  {
  }

  lemma BoundIffAllBind(handlers: seq<Handler>, env: Environment)
    requires !env.closingBefore && env.creates && !env.closingAfter
    ensures OutcomeOf(env, handlers) ==
            if AllBind(env, handlers) then Bound else BindFailed
  {
    forall i | 0 <= i < |handlers| ensures Binds(env, handlers, i) <==> MayBind(handlers[i]) && i !in env.sdkFails {
      BindsByFields(env, handlers, i);
    }
  }

  /** Every handler may be bound, and the SDK lets it. */
  predicate AllBind(env: Environment, handlers: seq<Handler>) {
    forall i :: 0 <= i < |handlers| ==> MayBind(handlers[i]) && i !in env.sdkFails
  }

  lemma BindsByFields(env: Environment, handlers: seq<Handler>, i: nat)
    requires i < |handlers|
    ensures Binds(env, handlers, i) <==> MayBind(handlers[i]) && i !in env.sdkFails
  {
    PatternTypeByFields(handlers[i]);
  }

  /** An attempt from an empty server either binds every handler or leaves it empty; the
      attempt succeeds if and only if nothing stood in the way of any handler. */
  lemma AttemptAllOrNothing(s: Server, handlers: seq<Handler>, env: Environment)
    requires Empty(s) && !env.closingBefore && env.creates && !env.closingAfter
    ensures var t := Attempt(s, handlers, env);
            if AllBind(env, handlers) then
              && t.client == Some(s.clients)
              && multiset(t.subscriptions) + multiset(t.queueStreams) == multiset(AllHandles(s.clients, |handlers|))
              && t.cancelled == s.cancelled && t.closedClients == s.closedClients
              && OwnEquipment(t, handlers) && HandlesInPlace(t, handlers, s.clients)
            else
              Empty(t) && t.closedClients == s.closedClients + [s.clients]
  {
    BoundIffAllBind(handlers, env);
    HandlesOfSplit(s.clients, handlers, |handlers|);
    if OutcomeOf(env, handlers) == Bound {
      EmptyPlus(s, s.clients, handlers, |handlers|);
      OwnAfterAll(s, handlers);
      InPlaceAfterAll(s, handlers);
    }
  }

  /** Each queue handler has a stream and each other handler a subscription. */
  ghost predicate HandlesInPlace(s: Server, handlers: seq<Handler>, c: nat) {
    forall i :: 0 <= i < |handlers| ==>
      && (Handle(c, i) in s.queueStreams <==> IsQueueHandler(handlers[i]))
      && (Handle(c, i) in s.subscriptions <==> !IsQueueHandler(handlers[i]))
  }

  lemma InPlaceAfterAll(s: Server, handlers: seq<Handler>)
    requires Empty(s)
    ensures HandlesInPlace(WithHandlers(s, s.clients, handlers, |handlers|), handlers, s.clients)
  {
    EmptyPlus(s, s.clients, handlers, |handlers|);
    forall i, queues | 0 <= i < |handlers|
      ensures Handle(s.clients, i) in HandlesOf(s.clients, handlers, |handlers|, queues) <==>
                IsQueueHandler(handlers[i]) == queues
    {
      HandlesOfMember(s.clients, handlers, |handlers|, queues, Handle(s.clients, i));
    }
  }

  /** The other attempts: a closing server, or one for which the SDK creates no client, stays as
      it is; a server that finds itself closing after the creation closes that client. */
  lemma AttemptWithoutBinding(s: Server, handlers: seq<Handler>, env: Environment)
    requires env.closingBefore || !env.creates || env.closingAfter
    ensures var t := Attempt(s, handlers, env);
            if env.closingBefore || !env.creates then t == s
            else t == s.(clients := s.clients + 1, closedClients := s.closedClients + [s.clients])
  {
  }

  /** An attempt is repeated if and only if it was made on an open server and the SDK created no
      client, or some handler could not be bound. */
  lemma RetriedIff(s: Server, handlers: seq<Handler>, envs: seq<Environment>)
    requires envs != []
    ensures RetryLoop(s, handlers, envs) ==
            if !envs[0].closingBefore && (!envs[0].creates || (!envs[0].closingAfter && !AllBind(envs[0], handlers)))
            then RetryLoop(Attempt(s, handlers, envs[0]), handlers, envs[1..])
            else Attempt(s, handlers, envs[0])
  {
    if !envs[0].closingBefore && envs[0].creates && !envs[0].closingAfter {
      BoundIffAllBind(handlers, envs[0]);
    }
  }

  /** The semaphores and the caches of the queue handlers are those of the current attempt: no
      permit of a delivery that an earlier client left behind counts against them. */
  ghost predicate OwnEquipment(s: Server, handlers: seq<Handler>) {
    && s.client.Some?
    && forall i :: 0 <= i < |handlers| ==>
         IsQueueHandler(handlers[i]) && !handlers[i].wildcard ==>
           && (handlers[i].limited ==> i in s.semaphores && s.semaphores[i] == s.client.value)
           && (handlers[i].deduplicates ==> i in s.caches && s.caches[i] == s.client.value)
  }

  /** A queue handler that asks for a limit, or for deduplication. */
  predicate AsksFor(h: Handler, cache: bool) {
    IsQueueHandler(h) && !h.wildcard && if cache then h.deduplicates else h.limited
  }

  function Held(equipment: map<nat, nat>, i: nat): Option<nat> {
    if i in equipment then Some(equipment[i]) else None
  }

  lemma {:induction false} EquipmentAt(
    base: map<nat, nat>, handlers: seq<Handler>, c: nat, n: nat, cache: bool, i: nat)
    requires n <= |handlers| && i < |handlers|
    ensures Held(Equipment(base, handlers, c, n, cache), i) ==
            if i < n && AsksFor(handlers[i], cache) then Some(c) else Held(base, i)
  {
    if n > 0 {
      EquipmentAt(base, handlers, c, n - 1, cache, i);
      PatternTypeByFields(handlers[i]);
    }
  }

  lemma OwnAfterAll(s: Server, handlers: seq<Handler>)
    ensures OwnEquipment(WithHandlers(s, s.clients, handlers, |handlers|), handlers)
  {
    forall i, cache | 0 <= i < |handlers|
      ensures var base := if cache then s.caches else s.semaphores;
              Held(Equipment(base, handlers, s.clients, |handlers|, cache), i) ==
              if AsksFor(handlers[i], cache) then Some(s.clients) else Held(base, i)
    {
      EquipmentAt(if cache then s.caches else s.semaphores, handlers, s.clients, |handlers|, cache, i);
    }
    assert forall i :: 0 <= i < |handlers| && IsQueueHandler(handlers[i]) && !handlers[i].wildcard ==>
        && (handlers[i].limited ==> AsksFor(handlers[i], false))
        && (handlers[i].deduplicates ==> AsksFor(handlers[i], true));
  }

  /** The loop over the handlers comes to this one: all before it were bound. */
  ghost predicate Reached(env: Environment, handlers: seq<Handler>, i: nat)
    requires i <= |handlers|
  {
    forall j :: 0 <= j < i ==> MayBind(handlers[j]) && j !in env.sdkFails
  }

  lemma ReachedIff(env: Environment, handlers: seq<Handler>, i: nat)
    requires i <= |handlers|
    ensures Reached(env, handlers, i) <==> i <= BoundCount(env, handlers, 0)
  {
    forall j | 0 <= j < |handlers| ensures Binds(env, handlers, j) <==> MayBind(handlers[j]) && j !in env.sdkFails {
      BindsByFields(env, handlers, j);
    }
  }

  /** The handlers that an attempt comes to, if n of them bind. */
  function Tried(handlers: seq<Handler>, n: nat): nat {
    if n < |handlers| then n + 1 else |handlers|
  }

  lemma LogsOfAttempt(s: Server, handlers: seq<Handler>, env: Environment)
    requires !env.closingBefore && env.creates && !env.closingAfter
    ensures var t, c, n := Attempt(s, handlers, env), s.clients, BoundCount(env, handlers, 0);
            && t.semaphores == Equipment(s.semaphores, handlers, c, Tried(handlers, n), false)
            && t.caches == Equipment(s.caches, handlers, c, Tried(handlers, n), true)
            && t.handles == s.handles + AllHandles(c, n)
  {
  }

  /** How far an attempt gets.  The handlers up to the first that cannot be bound have had their
      handles created, and cancelled if there is such a handler; that one included, the queue
      handlers have got what they ask for, and keep it; all else is as before. */
  lemma AttemptGoesAsFar(s: Server, handlers: seq<Handler>, env: Environment, i: nat)
    requires !env.closingBefore && env.creates && !env.closingAfter && i < |handlers|
    ensures var t, c := Attempt(s, handlers, env), s.clients;
            && Held(t.semaphores, i) == (if Reached(env, handlers, i) && AsksFor(handlers[i], false) then Some(c)
                                         else Held(s.semaphores, i))
            && Held(t.caches, i) == (if Reached(env, handlers, i) && AsksFor(handlers[i], true) then Some(c)
                                     else Held(s.caches, i))
            && (Handle(c, i) in t.handles <==> Handle(c, i) in s.handles || Reached(env, handlers, i + 1))
  {
    var n := BoundCount(env, handlers, 0);
    LogsOfAttempt(s, handlers, env);
    ReachedIff(env, handlers, i);
    ReachedIff(env, handlers, i + 1);
    EquipmentAt(s.semaphores, handlers, s.clients, Tried(handlers, n), false, i);
    EquipmentAt(s.caches, handlers, s.clients, Tried(handlers, n), true, i);
    AllHandlesMember(s.clients, n, Handle(s.clients, i));
  }

  lemma AllHandlesMember(c: nat, n: nat, h: Handle)
    ensures h in AllHandles(c, n) <==> h.client == c && h.handler < n
  {
    AllHandlesCount(c, n, h);
    assert h in AllHandles(c, n) <==> multiset(AllHandles(c, n))[h] > 0;
  }

  lemma EmptyPlus(s: Server, c: nat, handlers: seq<Handler>, n: nat)
    requires Empty(s) && n <= |handlers|
    ensures WithHandlers(s, c, handlers, n).subscriptions == HandlesOf(c, handlers, n, false)
    ensures WithHandlers(s, c, handlers, n).queueStreams == HandlesOf(c, handlers, n, true)
  {
  }

  /** A handler is bound to a stream if it is a queue handler, else to a subscription. */
  lemma {:induction false} HandlesOfMember(c: nat, handlers: seq<Handler>, n: nat, queues: bool, h: Handle)
    requires n <= |handlers|
    ensures h in HandlesOf(c, handlers, n, queues) <==>
              h.client == c && h.handler < n && IsQueueHandler(handlers[h.handler]) == queues
  {
    if n > 0 {
      PatternTypeByFields(handlers[n - 1]);
      HandlesOfMember(c, handlers, n - 1, queues, h);
    }
  }

  /** Over any run of the retry loop at most one client is live; every handle that was ever
      created is either bound now or was cancelled exactly once; and a server that ends up
      without a client has cancelled all its handles and closed all its clients. */
  lemma {:induction false} RetryLoopConserves(s: Server, handlers: seq<Handler>, envs: seq<Environment>)
    requires HandlesConserved(s) && HandlesFresh(s) && ClientsConserved(s) && Empty(s)
    ensures var t := RetryLoop(s, handlers, envs);
            && HandlesConserved(t) && HandlesFresh(t) && ClientsConserved(t)
            && (t.client.None? ==> Empty(t))
    decreases |envs|
  {
    if envs != [] {
      var t := Attempt(s, handlers, envs[0]);
      AttemptConserves(s, handlers, envs[0]);
      AttemptConservesClients(s, handlers, envs[0]);
      if OutcomeOf(envs[0], handlers) == CreateFailed || OutcomeOf(envs[0], handlers) == BindFailed {
        RetryLoopConserves(t, handlers, envs[1..]);
      }
    }
  }

  lemma RetryLoopLeavesNothingBehind(handlers: seq<Handler>, envs: seq<Environment>, c: nat, h: Handle)
    ensures var t := RetryLoop(INITIAL, handlers, envs);
            && (t.client.None? ==> multiset(t.cancelled) == multiset(t.handles))
            && (c < t.clients && t.client != Some(c) ==> multiset(t.closedClients)[c] == 1)
            && multiset(t.cancelled)[h] <= 1
            && (h in t.cancelled ==> h !in t.subscriptions && h !in t.queueStreams)
  {
    var t := RetryLoop(INITIAL, handlers, envs);
    RetryLoopConserves(INITIAL, handlers, envs);
    assert h in multiset(t.handles) ==> multiset(t.handles)[h] == 1;
    assert multiset(t.handles)[h] ==
           multiset(t.subscriptions)[h] + multiset(t.queueStreams)[h] + multiset(t.cancelled)[h];
  }

  lemma NoHandlersYet(s: Server, c: nat, handlers: seq<Handler>)
    ensures WithHandlers(s, c, handlers, 0) == s.(client := Some(c), clients := s.clients + 1)
  {
  }

  /** The server after one handler was bound, or failed to be. */
  function HandlerBound(s: Server, h: Handler, c: nat, i: nat, bound: bool): Server {
    var t := Equipped(s, h, c, i);
    if !bound then t
    else if ResolvePatternType(h) == Queue then
      t.(handles := t.handles + [Handle(c, i)], queueStreams := t.queueStreams + [Handle(c, i)])
    else
      t.(handles := t.handles + [Handle(c, i)], subscriptions := t.subscriptions + [Handle(c, i)])
  }

  lemma OneMoreHandler(s: Server, c: nat, handlers: seq<Handler>, i: nat)
    requires i < |handlers|
    ensures WithHandlers(s, c, handlers, i + 1) ==
            HandlerBound(WithHandlers(s, c, handlers, i), handlers[i], c, i, true)
  {
  }

  /** Shutting the server down after any run of the retry loop cancels every handle that was
      ever created and closes every client, each exactly once. */
  lemma ShutdownReleasesEverything(handlers: seq<Handler>, envs: seq<Environment>, c: nat)
    ensures var t := RolledBack(RetryLoop(INITIAL, handlers, envs));
            && Empty(t)
            && multiset(t.cancelled) == multiset(t.handles)
            && multiset(t.closedClients)[c] == if c < t.clients then 1 else 0
  {
    RetryLoopConserves(INITIAL, handlers, envs);
    RolledBackConserves(RetryLoop(INITIAL, handlers, envs));
  }

  // ------------------------------------------------------------------ the implementation

  class KubeMQServer {
    var client: Option<nat>
    var subscriptions: seq<Handle>
    var queueStreams: seq<Handle>
    var semaphores: map<nat, nat>
    var caches: map<nat, nat>
    var clients: nat
    ghost var closedClients: seq<nat>
    ghost var handles: seq<Handle>
    ghost var cancelled: seq<Handle>

    constructor ()
      ensures View() == INITIAL
    {
      client, subscriptions, queueStreams := None, [], [];
      semaphores, caches := map[], map[];
      clients, closedClients, handles, cancelled := 0, [], [], [];
    }

    ghost function View(): Server
      reads this
    {
      Server(client, subscriptions, queueStreams, semaphores, caches, clients, closedClients, handles, cancelled)
    }

    method ConnectAndBindHandlers(handlers: seq<Handler>, env: Environment) returns (outcome: Outcome)
      modifies this
      ensures outcome == OutcomeOf(env, handlers)
      ensures View() == Attempt(old(View()), handlers, env)
    {
      if env.closingBefore {
        return Skipped;
      }
      if !env.creates {
        return CreateFailed;
      }
      var newClient := clients;
      clients := clients + 1;
      if env.closingAfter {
        closedClients := closedClients + [newClient];
        return ClosedEarly;
      }
      client := Some(newClient);
      NoHandlersYet(old(View()), newClient, handlers);
      var bound := BindAll(handlers, env, newClient, old(View()));
      if !bound {
        RollbackBindings();
        return BindFailed;
      }
      return Bound;
    }

    /** The loop inside the try block; returns false at the first handler that throws. */
    method BindAll(handlers: seq<Handler>, env: Environment, c: nat, ghost before: Server) returns (bound: bool)
      requires View() == WithHandlers(before, c, handlers, 0)
      modifies this`subscriptions, this`queueStreams, this`semaphores, this`caches, this`handles
      ensures bound <==> BoundCount(env, handlers, 0) == |handlers|
      ensures var n := BoundCount(env, handlers, 0);
              var t := WithHandlers(before, c, handlers, n);
              View() == if bound then t else Equipped(t, handlers[n], c, n)
    {
      for i := 0 to |handlers|
        invariant View() == WithHandlers(before, c, handlers, i)
        invariant i <= BoundCount(env, handlers, 0)
      {
        bound := BindHandler(handlers, env, i, c);
        if !bound {
          return;
        }
        OneMoreHandler(before, c, handlers, i);
      }
      return true;
    }

    /** Returns false where the source throws. */
    method BindHandler(handlers: seq<Handler>, env: Environment, i: nat, c: nat) returns (bound: bool)
      requires i < |handlers|
      modifies this`subscriptions, this`queueStreams, this`semaphores, this`caches, this`handles
      ensures bound == Binds(env, handlers, i)
      ensures View() == HandlerBound(old(View()), handlers[i], c, i, bound)
    {
      var kind := ResolvePatternType(handlers[i]);
      if handlers[i].wildcard && kind != PlainEvent {
        return false;
      }
      if kind == Queue && handlers[i].limited {
        semaphores := semaphores[i := c];
      }
      if kind == Queue && handlers[i].deduplicates {
        caches := caches[i := c];
      }
      if kind == EventStore && !handlers[i].startPositionValid {
        return false;
      }
      if i in env.sdkFails {
        return false;
      }
      handles := handles + [Handle(c, i)];
      if kind == Queue {
        queueStreams := queueStreams + [Handle(c, i)];
      } else {
        subscriptions := subscriptions + [Handle(c, i)];
      }
      return true;
    }

    method RollbackBindings()
      modifies this
      ensures View() == RolledBack(old(View()))
    {
      for i := 0 to |subscriptions|
        invariant subscriptions == old(subscriptions) && queueStreams == old(queueStreams) && client == old(client)
        invariant clients == old(clients) && closedClients == old(closedClients) && handles == old(handles)
        invariant cancelled == old(cancelled) + subscriptions[..i]
        invariant semaphores == old(semaphores) && caches == old(caches)
      {
        cancelled := cancelled + [subscriptions[i]];
      }
      subscriptions := [];
      for i := 0 to |queueStreams|
        invariant subscriptions == [] && queueStreams == old(queueStreams) && client == old(client)
        invariant clients == old(clients) && closedClients == old(closedClients) && handles == old(handles)
        invariant cancelled == old(cancelled) + old(subscriptions) + queueStreams[..i]
        invariant semaphores == old(semaphores) && caches == old(caches)
      {
        cancelled := cancelled + [queueStreams[i]];
      }
      queueStreams := [];
      if client.Some? {
        closedClients := closedClients + [client.value];
        client := None;
      }
    }
  }
}
