/**
 The reconnect loop together with what each of its attempts does to the server.  `listen` makes
 the first attempt; when that throws, the loop makes the others.  An attempt is in flight from
 the firing of its timer until `connectAndBindHandlers` settles, and takes effect on the server
 within that time.
 */
module ReconnectBinding {
  import opened Backoff
  import Binding
  import Reconnecting

  type Handlers = seq<Binding.Handler>

  datatype System = System(
    manager: Reconnecting.Manager,
    server: Binding.Server,
    envs: seq<Binding.Environment>)

  datatype Event =
    | TimerFires(id: nat)
    | AttemptSettled(env: Binding.Environment)
    | CancelLoop
    | MarkClosing

  predicate Throws(handlers: Handlers, env: Binding.Environment) {
    var outcome := Binding.OutcomeOf(env, handlers);
    outcome == Binding.CreateFailed || outcome == Binding.BindFailed
  }

  /** The timer callback has just checked that the server is not closing; and an attempt finds
      it closing later on only if it is. */
  predicate Possible(m: Reconnecting.Manager, env: Binding.Environment) {
    m.inFlight > 0 && !env.closingBefore && (env.closingAfter ==> m.closing)
  }

  function Step(p: Policy, handlers: Handlers, s: System, e: Event): System {
    match e
    case TimerFires(id) => s.(manager := Reconnecting.Step(p, s.manager, Reconnecting.TimerFires(id)))
    case CancelLoop => s.(manager := Reconnecting.Step(p, s.manager, Reconnecting.CancelLoop))
    case MarkClosing => s.(manager := Reconnecting.Step(p, s.manager, Reconnecting.MarkClosing))
    case AttemptSettled(env) =>
      if !Possible(s.manager, env) then s else
        System(
          Reconnecting.Step(
            p, s.manager, if Throws(handlers, env) then Reconnecting.ConnectFailed else Reconnecting.Connected),
          Binding.Attempt(s.server, handlers, env),
          s.envs + [env])
  }

  function Run(p: Policy, handlers: Handlers, s: System, events: seq<Event>): System {
    if events == [] then s
    else Step(p, handlers, Run(p, handlers, s, events[..|events| - 1]), events[|events| - 1])
  }

  /** After `listen` has failed with the first environment and has started the loop. */
  function Listening(p: Policy, handlers: Handlers, first: Binding.Environment): System {
    System(
      Reconnecting.Step(p, Reconnecting.INITIAL, Reconnecting.StartLoop),
      Binding.Attempt(Binding.INITIAL, handlers, first),
      [first])
  }

  ghost predicate AllThrow(handlers: Handlers, envs: seq<Binding.Environment>) {
    forall i :: 0 <= i < |envs| ==> Throws(handlers, envs[i])
  }

  lemma {:induction false} RetryLoopSnoc(
    s: Binding.Server, handlers: Handlers, envs: seq<Binding.Environment>, env: Binding.Environment)
    requires AllThrow(handlers, envs)
    ensures Binding.RetryLoop(s, handlers, envs + [env]) ==
            Binding.Attempt(Binding.RetryLoop(s, handlers, envs), handlers, env)
    decreases |envs|
  {
    if envs == [] {
      assert [] + [env] == [env];
    } else {
      assert (envs + [env])[1..] == envs[1..] + [env];
      RetryLoopSnoc(Binding.Attempt(s, handlers, envs[0]), handlers, envs[1..], env);
    }
  }

  /** The attempts form one retry loop, of which only the last can have been successful. */
  ghost predicate Composed(p: Policy, handlers: Handlers, s: System) {
    && Reconnecting.OneLoop(p, s.manager)
    && s.server == Binding.RetryLoop(Binding.INITIAL, handlers, s.envs)
    && |s.envs| == 1 + s.manager.failed + s.manager.succeeded
    && (s.manager.succeeded == 0 ==> AllThrow(handlers, s.envs))
    && (s.manager.succeeded > 0 ==> !Throws(handlers, s.envs[|s.envs| - 1]))
  }

  lemma AttemptComposed(p: Policy, handlers: Handlers, s: System, env: Binding.Environment)
    requires Composed(p, handlers, s) && Possible(s.manager, env)
    ensures Composed(p, handlers, Step(p, handlers, s, AttemptSettled(env)))
  {
    var e := if Throws(handlers, env) then Reconnecting.ConnectFailed else Reconnecting.Connected;
    Reconnecting.StepOneLoop(p, s.manager, e);
    RetryLoopSnoc(Binding.INITIAL, handlers, s.envs, env);
  }

  /** An event of the manager that no attempt takes part in. */
  lemma ManagerComposed(p: Policy, handlers: Handlers, s: System, e: Reconnecting.Event)
    requires Composed(p, handlers, s)
    requires e.TimerFires? || e == Reconnecting.CancelLoop || e == Reconnecting.MarkClosing
    ensures Composed(p, handlers, s.(manager := Reconnecting.Step(p, s.manager, e)))
  {
    Reconnecting.StepOneLoop(p, s.manager, e);
  }

  lemma StepComposed(p: Policy, handlers: Handlers, s: System, e: Event)
    requires Composed(p, handlers, s)
    ensures Composed(p, handlers, Step(p, handlers, s, e))
  {
    match e
    case TimerFires(id) => ManagerComposed(p, handlers, s, Reconnecting.TimerFires(id));
    case CancelLoop => ManagerComposed(p, handlers, s, Reconnecting.CancelLoop);
    case MarkClosing => ManagerComposed(p, handlers, s, Reconnecting.MarkClosing);
    case AttemptSettled(env) =>
      if Possible(s.manager, env) {
        AttemptComposed(p, handlers, s, env);
      }
  }

  /** Over every interleaving of timers, settling attempts and shutdowns, the attempts do not
      overlap, and the server is as a plain sequential retry loop over the same attempts leaves
      it: each one follows the rollback of the one before. */
  lemma {:induction false} LoopRefinesRetryLoop(
    p: Policy, handlers: Handlers, first: Binding.Environment, events: seq<Event>)
    requires Throws(handlers, first)
    ensures var s := Run(p, handlers, Listening(p, handlers, first), events);
            && Composed(p, handlers, s)
            && s.manager.inFlight <= 1
            && s.server == Binding.RetryLoop(Binding.INITIAL, handlers, s.envs)
  {
    if events == [] {
      Reconnecting.LoopInvariant(p, []);
      assert [first][1..] == [];
    } else {
      var before := events[..|events| - 1];
      LoopRefinesRetryLoop(p, handlers, first, before);
      StepComposed(p, handlers, Run(p, handlers, Listening(p, handlers, first), before), events[|events| - 1]);
    }
  }

  /** So at any time at most one client is live and no handle is left without it; a bounded
      policy makes at most maxAttempts attempts after the first; and once the handlers are
      bound nothing is pending any more, so no later attempt can replace them. */
  lemma ReconnectingLeavesNothingBehind(
    p: Policy, handlers: Handlers, first: Binding.Environment, events: seq<Event>, c: nat, h: Binding.Handle)
    requires Throws(handlers, first)
    ensures var s := Run(p, handlers, Listening(p, handlers, first), events);
            var t := s.server;
            && (t.client.None? ==> multiset(t.cancelled) == multiset(t.handles))
            && (c < t.clients && t.client.None? ==> multiset(t.closedClients)[c] == 1)
            && (c < t.clients && t.client.Some? && t.client.value != c ==> multiset(t.closedClients)[c] == 1)
            && multiset(t.cancelled)[h] <= 1
            && (t.client.Some? ==> s.manager.succeeded == 1 && Reconnecting.Active(s.manager) == 0)
            && (p.maxAttempts >= 0 ==> |s.envs| <= 1 + p.maxAttempts)
  {
    var s := Run(p, handlers, Listening(p, handlers, first), events);
    LoopRefinesRetryLoop(p, handlers, first, events);
    Binding.RetryLoopLeavesNothingBehind(handlers, s.envs, c, h);
    Reconnecting.PendingCounted(s.manager);
    if s.manager.succeeded == 0 {
      ThrownMeansNoClient(handlers, Binding.INITIAL, s.envs);
    }
  }

  lemma {:induction false} ThrownMeansNoClient(
    handlers: Handlers, s: Binding.Server, envs: seq<Binding.Environment>)
    requires s.client.None? && AllThrow(handlers, envs)
    ensures Binding.RetryLoop(s, handlers, envs).client.None?
    decreases |envs|
  {
    if envs != [] {
      ThrownMeansNoClient(handlers, Binding.Attempt(s, handlers, envs[0]), envs[1..]);
    }
  }
}
