/**
 The race between `connect` and `close` on the client proxy.  An attempt is one call of
 `doConnect`; its number also names the promise it returns and the SDK client it creates.
 Any number of connect and close calls overlap; each event is the code between two awaits.
 */
module ConnectRace {
  import opened Options

  datatype Attempt = Creating | ClosingOrphan | Initializing | Settled(ok: bool)

  datatype Caller =
    | Connecting(attempt: nat, owner: bool)
    | ConnectDone(ok: bool)
    | ClosePending(attempt: nat)
    | ClosingClient(client: nat)
    | CloseDone

  /** The fields of the proxy, and what has happened to the clients that were created. */
  datatype State = State(
    client: Option<nat>,
    promise: Option<nat>,
    closing: bool,
    attempts: seq<Attempt>,
    callers: seq<Caller>,
    created: set<nat>,
    installed: seq<nat>,
    closeCalled: set<nat>)

  const INITIAL := State(None, None, false, [], [], {}, [], {})

  datatype Event =
    | CallConnect
    | Created(attempt: nat)
    | CreateFailed(attempt: nat)
    | OrphanClosed(attempt: nat)
    | Initialized(attempt: nat)
    | Resume(caller: nat)
    | CallClose
    | ClientClosed(caller: nat)

  predicate AttemptIs(s: State, a: nat, phase: Attempt) {
    a < |s.attempts| && s.attempts[a] == phase
  }

  predicate InFlight(s: State, a: nat) {
    a < |s.attempts| && !s.attempts[a].Settled?
  }

  function SetAttempt(s: State, a: nat, phase: Attempt): State
    requires a < |s.attempts|
  {
    s.(attempts := s.attempts[a := phase])
  }

  /** `connect` up to its first await.  An owner starts a new attempt. */
  function ConnectCalled(s: State): State {
    if s.closing then
      s.(callers := s.callers + [ConnectDone(false)])
    else if s.client.Some? then
      s.(callers := s.callers + [ConnectDone(true)])
    else if s.promise.Some? then
      s.(callers := s.callers + [Connecting(s.promise.value, false)])
    else
      s.(promise := Some(|s.attempts|),
         attempts := s.attempts + [Creating],
         callers := s.callers + [Connecting(|s.attempts|, true)])
  }

  /** The SDK client exists: an orphan if the proxy is closing, else installed. */
  function CreateResolved(s: State, a: nat): State
    requires a < |s.attempts|
  {
    if s.closing then
      SetAttempt(s, a, ClosingOrphan).(created := s.created + {a}, closeCalled := s.closeCalled + {a})
    else
      SetAttempt(s, a, Initializing).(created := s.created + {a}, client := Some(a), installed := s.installed + [a])
  }

  /** What `close` does once it awaits no attempt: it closes the client, if there is one. */
  function Closer(s: State): Caller {
    if s.client.Some? then ClosingClient(s.client.value) else CloseDone
  }

  function Closed(s: State): set<nat> {
    if s.client.Some? then s.closeCalled + {s.client.value} else s.closeCalled
  }

  /** `close` up to its first await. */
  function CloseCalled(s: State): State {
    if s.promise.Some? then
      s.(closing := true, callers := s.callers + [ClosePending(s.promise.value)])
    else
      s.(closing := true, callers := s.callers + [Closer(s)], closeCalled := Closed(s))
  }

  function Resumed(s: State, i: nat): State
    requires i < |s.callers|
  {
    match s.callers[i]
    case Connecting(a, owner) =>
      if a >= |s.attempts| || !s.attempts[a].Settled? then s
      else s.(callers := s.callers[i := ConnectDone(s.attempts[a].ok)], promise := if owner then None else s.promise)
    case ClosePending(a) =>
      if a >= |s.attempts| || !s.attempts[a].Settled? then s
      else s.(callers := s.callers[i := Closer(s)], closeCalled := Closed(s))
    case _ => s
  }

  function Step(s: State, e: Event): State {
    match e
    case CallConnect => ConnectCalled(s)
    case Created(a) => if AttemptIs(s, a, Creating) then CreateResolved(s, a) else s
    case CreateFailed(a) => if AttemptIs(s, a, Creating) then SetAttempt(s, a, Settled(false)) else s
    case OrphanClosed(a) => if AttemptIs(s, a, ClosingOrphan) then SetAttempt(s, a, Settled(true)) else s
    case Initialized(a) => if AttemptIs(s, a, Initializing) then SetAttempt(s, a, Settled(true)) else s
    case Resume(i) => if i < |s.callers| then Resumed(s, i) else s
    case CallClose => CloseCalled(s)
    case ClientClosed(i) =>
      if i < |s.callers| && s.callers[i].ClosingClient? then
        s.(callers := s.callers[i := CloseDone], client := None)
      else s
  }

  function Run(s: State, events: seq<Event>): State {
    if events == [] then s else Step(Run(s, events[..|events| - 1]), events[|events| - 1])
  }

  // ------------------------------------------------------------------ single flight

  predicate IsOwner(c: Caller) {
    c.Connecting? && c.owner
  }

  /** Only the attempt behind `connectPromise` can be unsettled, and only its one owner may
      clear the field. */
  ghost predicate SingleFlight(s: State) {
    && (forall a: nat :: InFlight(s, a) ==> s.promise == Some(a))
    && (s.promise.Some? ==> s.promise.value < |s.attempts|)
    && (forall i :: 0 <= i < |s.callers| && IsOwner(s.callers[i]) ==> s.promise == Some(s.callers[i].attempt))
    && (forall i, j :: 0 <= i < j < |s.callers| ==> !(IsOwner(s.callers[i]) && IsOwner(s.callers[j])))
  }

  lemma AttemptStepSingleFlight(s: State, t: State, a: nat)
    requires SingleFlight(s) && InFlight(s, a)
    requires |t.attempts| == |s.attempts| && t.attempts == s.attempts[a := t.attempts[a]]
    requires t.promise == s.promise && t.callers == s.callers
    ensures SingleFlight(t)
  {
    assert forall b: nat :: InFlight(t, b) ==> b == a || InFlight(s, b);
  }

  lemma CallerStepSingleFlight(s: State, t: State)
    requires SingleFlight(s)
    requires t.attempts == s.attempts && t.promise == s.promise
    requires |s.callers| <= |t.callers|
    requires forall i :: 0 <= i < |t.callers| && IsOwner(t.callers[i]) ==>
               i < |s.callers| && t.callers[i] == s.callers[i]
    ensures SingleFlight(t)
  {
    assert forall a: nat :: InFlight(t, a) <==> InFlight(s, a);
  }

  lemma OwnerStepSingleFlight(s: State, i: nat)
    requires SingleFlight(s) && i < |s.callers| && IsOwner(s.callers[i])
    ensures SingleFlight(Resumed(s, i))
  {
    var t := Resumed(s, i);
    assert forall a: nat :: InFlight(t, a) <==> InFlight(s, a);
  }

  lemma ConnectSingleFlight(s: State)
    requires SingleFlight(s)
    ensures SingleFlight(ConnectCalled(s))
  {
    var t := ConnectCalled(s);
    if t.promise == s.promise {
      CallerStepSingleFlight(s, t);
    } else {
      assert forall a: nat :: InFlight(t, a) ==> a == |s.attempts| || InFlight(s, a);
    }
  }

  lemma StepSingleFlight(s: State, e: Event)
    requires SingleFlight(s)
    ensures SingleFlight(Step(s, e))
  {
    var t := Step(s, e);
    match e
    case CallConnect => ConnectSingleFlight(s);
    case CallClose => CallerStepSingleFlight(s, t);
    case ClientClosed(i) => CallerStepSingleFlight(s, t);
    case Resume(i) =>
      if i < |s.callers| && IsOwner(s.callers[i]) {
        OwnerStepSingleFlight(s, i);
      } else {
        CallerStepSingleFlight(s, t);
      }
    case _ =>
      if t != s {
        AttemptStepSingleFlight(s, t, e.attempt);
      }
  }

  // ------------------------------------------------------------------ clients

  /** While the proxy is open a client is installed at most once; a client that is not
      installed any more, or never was, has had its close called. */
  ghost predicate ClientsTracked(s: State) {
    && |s.installed| <= 1
    && (s.client.Some? ==> s.installed == [s.client.value])
    && (!s.closing && s.client.None? ==> s.installed == [])
    && (forall a :: a in s.created ==> a in s.closeCalled || s.client == Some(a))
    && (!s.closing ==> forall a: nat :: AttemptIs(s, a, Creating) ==> s.client.None?)
    && (!s.closing ==>
          forall a: nat :: a < |s.attempts| && (s.attempts[a] == Initializing || s.attempts[a] == Settled(true)) ==>
            s.client.Some?)
    && (s.closing || forall a: nat :: !AttemptIs(s, a, ClosingOrphan))
  }

  lemma AttemptStepClients(s: State, e: Event)
    requires SingleFlight(s) && ClientsTracked(s)
    requires e.Created? || e.CreateFailed? || e.OrphanClosed? || e.Initialized?
    ensures ClientsTracked(Step(s, e))
  {
    var t := Step(s, e);
    if t != s {
      assert InFlight(s, e.attempt);
      assert forall b: nat :: b < |s.attempts| && b != e.attempt ==> t.attempts[b] == s.attempts[b];
      assert forall b: nat :: b < |s.attempts| && b != e.attempt ==> s.attempts[b].Settled?
      by {
        forall b | 0 <= b < |s.attempts| && b != e.attempt ensures s.attempts[b].Settled? {
          assert InFlight(s, b) || s.attempts[b].Settled?;
        }
      }
    }
  }

  lemma CallerStepClients(s: State, e: Event)
    requires ClientsTracked(s) && ClosersTracked(s)
    requires e.CallConnect? || e.Resume? || e.CallClose? || e.ClientClosed?
    ensures ClientsTracked(Step(s, e))
  {
    var t := Step(s, e);
    assert forall a: nat :: AttemptIs(t, a, Creating) ==>
        AttemptIs(s, a, Creating) || (a == |s.attempts| && s.client.None?);
    assert forall a: nat :: AttemptIs(t, a, ClosingOrphan) ==> AttemptIs(s, a, ClosingOrphan);
  }

  // ------------------------------------------------------------------ close calls

  predicate IsCloser(c: Caller) {
    c.ClosePending? || c.ClosingClient? || c.CloseDone?
  }

  ghost predicate NothingInFlight(s: State) {
    forall a: nat :: !InFlight(s, a)
  }

  ghost predicate CloserFits(s: State, c: Caller) {
    match c
    case ClosePending(a) => s.closing && forall b: nat :: InFlight(s, b) ==> b == a
    case ClosingClient(a) =>
      s.closing && NothingInFlight(s) && a in s.closeCalled && (s.client.None? || s.client == Some(a))
    case CloseDone => s.closing && NothingInFlight(s) && s.client.None?
    case _ => true
  }

  ghost predicate ClosersTracked(s: State) {
    forall i :: 0 <= i < |s.callers| ==> CloserFits(s, s.callers[i])
  }

  /** Once the proxy is closing, no event starts an attempt or installs a client, so what a
      close call has reached stays. */
  lemma CloserKeepsFitting(s: State, e: Event, c: Caller)
    requires IsCloser(c) && CloserFits(s, c) && SingleFlight(s)
    ensures CloserFits(Step(s, e), c)
  {
    var t := Step(s, e);
    assert forall b: nat :: InFlight(t, b) ==> InFlight(s, b);
  }

  lemma NewCloserFits(s: State)
    requires SingleFlight(s)
    ensures var t := CloseCalled(s); CloserFits(t, t.callers[|s.callers|])
  {
    var t := CloseCalled(s);
    assert forall b: nat :: InFlight(t, b) <==> InFlight(s, b);
  }

  lemma ResumedCallerFits(s: State, i: nat)
    requires SingleFlight(s) && ClosersTracked(s) && i < |s.callers|
    ensures CloserFits(Resumed(s, i), Resumed(s, i).callers[i])
  {
    var t := Resumed(s, i);
    assert CloserFits(s, s.callers[i]);
    assert forall b: nat :: InFlight(t, b) <==> InFlight(s, b);
  }

  lemma StepClosersTracked(s: State, e: Event)
    requires SingleFlight(s) && ClosersTracked(s)
    ensures ClosersTracked(Step(s, e))
  {
    var t := Step(s, e);
    forall i | 0 <= i < |t.callers| ensures CloserFits(t, t.callers[i]) {
      if i < |s.callers| && t.callers[i] == s.callers[i] {
        assert CloserFits(s, s.callers[i]);
        if IsCloser(s.callers[i]) {
          CloserKeepsFitting(s, e, s.callers[i]);
        }
      } else if e.Resume? {
        ResumedCallerFits(s, i);
      } else if e.CallClose? {
        NewCloserFits(s);
      } else if e.ClientClosed? {
        assert CloserFits(s, s.callers[i]);
        assert forall b: nat :: InFlight(t, b) <==> InFlight(s, b);
      }
    }
  }

  // ------------------------------------------------------------------ theorems

  ghost predicate Sound(s: State) {
    SingleFlight(s) && ClientsTracked(s) && ClosersTracked(s)
  }

  lemma {:induction false} RunSound(events: seq<Event>)
    ensures Sound(Run(INITIAL, events))
  {
    if events != [] {
      var s, e := Run(INITIAL, events[..|events| - 1]), events[|events| - 1];
      RunSound(events[..|events| - 1]);
      StepSingleFlight(s, e);
      StepClosersTracked(s, e);
      if e.Created? || e.CreateFailed? || e.OrphanClosed? || e.Initialized? {
        AttemptStepClients(s, e);
      } else {
        CallerStepClients(s, e);
      }
    }
  }

  /** Over every interleaving of connect and close calls, at most one attempt is in flight. */
  lemma AtMostOneAttemptInFlight(events: seq<Event>, a: nat, b: nat)
    requires InFlight(Run(INITIAL, events), a) && InFlight(Run(INITIAL, events), b)
    ensures a == b
  {
    RunSound(events);
  }

  /** At most one client is ever installed in the proxy. */
  lemma AtMostOneClientInstalled(events: seq<Event>)
    ensures |Run(INITIAL, events).installed| <= 1
    ensures Run(INITIAL, events).client.Some? ==> Run(INITIAL, events).installed == [Run(INITIAL, events).client.value]
  {
    RunSound(events);
  }

  /** Once any close call has completed, the proxy has no client, nothing is in flight, and
      every client that was ever created has had its close called.  This holds then and at
      every later moment of the run. */
  lemma CloseLeavesNothingBehind(events: seq<Event>, i: nat)
    requires i < |Run(INITIAL, events).callers| && Run(INITIAL, events).callers[i] == CloseDone
    ensures var s := Run(INITIAL, events);
            && s.client.None? && NothingInFlight(s) && s.created <= s.closeCalled
  {
    RunSound(events);
    var s := Run(INITIAL, events);
    assert CloserFits(s, s.callers[i]);
  }

  /** No client leaks while the proxy is open either: a created client is the installed one or
      has had its close called. */
  lemma NoClientLeaks(events: seq<Event>, a: nat)
    requires a in Run(INITIAL, events).created
    ensures var s := Run(INITIAL, events); s.client == Some(a) || a in s.closeCalled
  {
    RunSound(events);
  }

  /** As long as the proxy is not closing, a settled successful attempt has left a client. */
  lemma SuccessfulAttemptInstalls(events: seq<Event>, a: nat)
    requires AttemptIs(Run(INITIAL, events), a, Settled(true)) && !Run(INITIAL, events).closing
    ensures Run(INITIAL, events).client.Some?
  {
    RunSound(events);
  }

  // ------------------------------------------------------------------ what connect answers

  /** The caller still awaits the attempt, or has been told how the attempt settled. */
  predicate AnswersFor(s: State, i: nat, a: nat, owner: bool) {
    i < |s.callers| && a < |s.attempts| &&
    match s.callers[i]
    case Connecting(b, o) => b == a && o == owner
    case ConnectDone(ok) => s.attempts[a] == Settled(ok)
    case _ => false
  }

  lemma StepAnswersFor(s: State, e: Event, i: nat, a: nat, owner: bool)
    requires AnswersFor(s, i, a, owner)
    ensures AnswersFor(Step(s, e), i, a, owner)
  {
  }

  lemma {:induction false} RunAnswersFor(s: State, events: seq<Event>, i: nat, a: nat, owner: bool)
    requires AnswersFor(s, i, a, owner)
    ensures AnswersFor(Run(s, events), i, a, owner)
  {
    if events != [] {
      RunAnswersFor(s, events[..|events| - 1], i, a, owner);
      StepAnswersFor(Run(s, events[..|events| - 1]), events[|events| - 1], i, a, owner);
    }
  }

  lemma {:induction false} AnswerIsFinal(s: State, events: seq<Event>, i: nat)
    requires i < |s.callers| && s.callers[i].ConnectDone?
    ensures i < |Run(s, events).callers| && Run(s, events).callers[i] == s.callers[i]
  {
    if events != [] {
      AnswerIsFinal(s, events[..|events| - 1], i);
    }
  }

  /** The fate of a connect call, at every later time of every run.  A call on a closing proxy is
      refused; a call while a client is installed succeeds at once; any other call awaits one
      attempt, the one in flight if there is one and a new one else, and is told exactly how
      that attempt settled. */
  lemma ConnectIsAnswered(before: seq<Event>, after: seq<Event>)
    ensures var s := Run(INITIAL, before);
            var t, i := Run(Step(s, CallConnect), after), |s.callers|;
            && i < |t.callers|
            && (s.closing ==> t.callers[i] == ConnectDone(false))
            && (!s.closing && s.client.Some? ==> t.callers[i] == ConnectDone(true))
            && (!s.closing && s.client.None? && s.promise.Some? ==> AnswersFor(t, i, s.promise.value, false))
            && (!s.closing && s.client.None? && s.promise.None? ==>
                  NothingInFlight(s) && AnswersFor(t, i, |s.attempts|, true))
  {
    RunSound(before);
    var s := Run(INITIAL, before);
    var t, i := Step(s, CallConnect), |s.callers|;
    if t.callers[i].ConnectDone? {
      AnswerIsFinal(t, after, i);
    } else {
      RunAnswersFor(t, after, i, t.callers[i].attempt, t.callers[i].owner);
    }
  }

  /** Whoever was told that connecting succeeded finds a client, while the proxy is open. */
  ghost predicate ToldTheTruth(s: State) {
    !s.closing ==> forall i :: 0 <= i < |s.callers| && s.callers[i] == ConnectDone(true) ==> s.client.Some?
  }

  lemma StepToldTheTruth(s: State, e: Event)
    requires Sound(s) && ToldTheTruth(s)
    ensures ToldTheTruth(Step(s, e))
  {
    var t := Step(s, e);
    if e.ClientClosed? && t != s {
      assert CloserFits(s, s.callers[e.caller]);
    }
    forall i | 0 <= i < |t.callers| && t.callers[i] == ConnectDone(true) && !t.closing ensures t.client.Some? {
      if i < |s.callers| && t.callers[i] == s.callers[i] {
        assert s.callers[i] == ConnectDone(true);
      }
    }
  }

  lemma SuccessfulConnectFindsClient(events: seq<Event>, i: nat)
    requires i < |Run(INITIAL, events).callers| && Run(INITIAL, events).callers[i] == ConnectDone(true)
    requires !Run(INITIAL, events).closing
    ensures Run(INITIAL, events).client.Some?
  {
    RunToldTheTruth(events);
  }

  lemma {:induction false} RunToldTheTruth(events: seq<Event>)
    ensures ToldTheTruth(Run(INITIAL, events))
  {
    if events != [] {
      RunToldTheTruth(events[..|events| - 1]);
      RunSound(events[..|events| - 1]);
      StepToldTheTruth(Run(INITIAL, events[..|events| - 1]), events[|events| - 1]);
    }
  }

  /** An attempt past the creation of its client, however it goes on. */
  predicate PastCreation(phase: Attempt) {
    phase.ClosingOrphan? || phase.Initializing? || phase == Settled(true)
  }

  ghost predicate CreatedTracked(s: State) {
    forall a: nat :: a in s.created <==> a < |s.attempts| && PastCreation(s.attempts[a])
  }

  lemma StepCreatedTracked(s: State, e: Event)
    requires CreatedTracked(s)
    ensures CreatedTracked(Step(s, e))
  {
  }

  lemma {:induction false} RunCreatedTracked(events: seq<Event>)
    ensures CreatedTracked(Run(INITIAL, events))
  {
    if events != [] {
      RunCreatedTracked(events[..|events| - 1]);
      StepCreatedTracked(Run(INITIAL, events[..|events| - 1]), events[|events| - 1]);
    }
  }

  /** An attempt settles with success exactly if its client was created; so a connect fails
      only because the client could not be created, also when the proxy closes meanwhile. */
  lemma AttemptSucceedsIffCreated(events: seq<Event>, a: nat)
    requires a < |Run(INITIAL, events).attempts| && Run(INITIAL, events).attempts[a].Settled?
    ensures Run(INITIAL, events).attempts[a].ok <==> a in Run(INITIAL, events).created
  {
    RunCreatedTracked(events);
  }

  /** The promise of an attempt is kept only as long as the call that started it is waiting. */
  ghost predicate PromiseOwned(s: State) {
    s.promise.Some? ==> exists i :: 0 <= i < |s.callers| && s.callers[i] == Connecting(s.promise.value, true)
  }

  lemma StepPromiseOwned(s: State, e: Event)
    requires PromiseOwned(s)
    ensures PromiseOwned(Step(s, e))
  {
    var t := Step(s, e);
    if t.promise.Some? && t.promise == s.promise {
      var i :| 0 <= i < |s.callers| && s.callers[i] == Connecting(s.promise.value, true);
      assert t.callers[i] == s.callers[i];
    } else if t.promise.Some? {
      assert t.callers[|s.callers|] == Connecting(t.promise.value, true);
    }
  }

  lemma {:induction false} RunPromiseOwned(events: seq<Event>)
    ensures PromiseOwned(Run(INITIAL, events))
  {
    if events != [] {
      RunPromiseOwned(events[..|events| - 1]);
      StepPromiseOwned(Run(INITIAL, events[..|events| - 1]), events[|events| - 1]);
    }
  }

  /** A failure is not remembered: once no connect call is waiting, the next one on an open
      proxy without a client starts an attempt of its own. */
  lemma NextConnectTriesAgain(events: seq<Event>)
    requires var s := Run(INITIAL, events);
             && !s.closing && s.client.None?
             && forall i :: 0 <= i < |s.callers| ==> !s.callers[i].Connecting?
    ensures var s := Run(INITIAL, events);
            var t := Step(s, CallConnect);
            && t.attempts == s.attempts + [Creating]
            && t.callers == s.callers + [Connecting(|s.attempts|, true)]
  {
    RunPromiseOwned(events);
  }

  // ------------------------------------------------------------------ nobody hangs

  ghost predicate AttemptsKnown(s: State) {
    forall i :: 0 <= i < |s.callers| ==>
      match s.callers[i]
      case Connecting(a, _) => a < |s.attempts|
      case ClosePending(a) => a < |s.attempts|
      case _ => true
  }

  lemma {:induction false} RunAttemptsKnown(events: seq<Event>)
    ensures AttemptsKnown(Run(INITIAL, events))
  {
    if events != [] {
      RunAttemptsKnown(events[..|events| - 1]);
      RunSound(events[..|events| - 1]);
      StepAttemptsKnown(Run(INITIAL, events[..|events| - 1]), events[|events| - 1]);
    }
  }

  lemma StepAttemptsKnown(s: State, e: Event)
    requires AttemptsKnown(s) && SingleFlight(s)
    ensures AttemptsKnown(Step(s, e))
  {
    var t := Step(s, e);
    forall i | 0 <= i < |t.callers|
      ensures match t.callers[i]
              case Connecting(a, _) => a < |t.attempts|
              case ClosePending(a) => a < |t.attempts|
              case _ => true
    {
    }
  }

  /** Nothing is left to do but new calls. */
  ghost predicate Quiescent(s: State) {
    forall e: Event :: !e.CallConnect? && !e.CallClose? ==> Step(s, e) == s
  }

  lemma InFlightCanGoOn(s: State, a: nat)
    requires InFlight(s, a)
    ensures !Quiescent(s)
  {
    var e := match s.attempts[a]
      case Creating => CreateFailed(a)
      case ClosingOrphan => OrphanClosed(a)
      case _ => Initialized(a);
    assert Step(s, e).attempts[a] != s.attempts[a];
  }

  predicate Pending(c: Caller) {
    c.Connecting? || c.ClosePending? || c.ClosingClient?
  }

  lemma PendingCallCanGoOn(s: State, i: nat)
    requires AttemptsKnown(s) && i < |s.callers| && Pending(s.callers[i])
    ensures !Quiescent(s)
  {
    if s.callers[i].ClosingClient? {
      assert Step(s, ClientClosed(i)).callers[i] != s.callers[i];
    } else if InFlight(s, s.callers[i].attempt) {
      InFlightCanGoOn(s, s.callers[i].attempt);
    } else {
      assert Step(s, Resume(i)).callers[i] != s.callers[i];
    }
  }

  /** No connect or close call hangs: when nothing is left to do, all of them are done. */
  lemma QuiescentMeansDone(events: seq<Event>, i: nat)
    requires Quiescent(Run(INITIAL, events)) && i < |Run(INITIAL, events).callers|
    ensures !Pending(Run(INITIAL, events).callers[i])
  {
    RunAttemptsKnown(events);
    if Pending(Run(INITIAL, events).callers[i]) {
      PendingCallCanGoOn(Run(INITIAL, events), i);
    }
  }

  // ------------------------------------------------------------------ the implementation

  /** The connection part of the client proxy.  A method is the code between two awaits; the
      pending promises are the attempts and callers that the runtime keeps. */
  class ClientConnection {
    var client: Option<nat>
    var connectPromise: Option<nat>
    var closing: bool
    var attempts: seq<Attempt>
    var callers: seq<Caller>
    ghost var created: set<nat>
    ghost var installed: seq<nat>
    ghost var closeCalled: set<nat>

    constructor ()
      ensures View() == INITIAL
    {
      client, connectPromise, closing := None, None, false;
      attempts, callers := [], [];
      created, installed, closeCalled := {}, [], {};
    }

    ghost function View(): State
      reads this
    {
      State(client, connectPromise, closing, attempts, callers, created, installed, closeCalled)
    }

    method Connect()
      modifies this
      ensures View() == Step(old(View()), CallConnect)
    {
      if closing {
        callers := callers + [ConnectDone(false)];
        return;
      }
      if client.Some? {
        callers := callers + [ConnectDone(true)];
        return;
      }
      if connectPromise.Some? {
        callers := callers + [Connecting(connectPromise.value, false)];
        return;
      }
      var a := |attempts|;
      attempts := attempts + [Creating];
      connectPromise := Some(a);
      callers := callers + [Connecting(a, true)];
    }

    method OnCreated(a: nat)
      requires a < |attempts| && attempts[a] == Creating
      modifies this
      ensures View() == Step(old(View()), Created(a))
    {
      created := created + {a};
      if closing {
        closeCalled := closeCalled + {a};
        attempts := attempts[a := ClosingOrphan];
        return;
      }
      client := Some(a);
      installed := installed + [a];
      attempts := attempts[a := Initializing];
    }

    /** `doConnect` returns or throws. */
    method OnAttemptSettled(a: nat, ok: bool)
      requires a < |attempts|
      requires if ok then attempts[a] == ClosingOrphan || attempts[a] == Initializing else attempts[a] == Creating
      modifies this
      ensures View() == Step(old(View()), if !ok then CreateFailed(a)
                                          else if old(attempts)[a] == Initializing then Initialized(a)
                                          else OrphanClosed(a))
    {
      attempts := attempts[a := Settled(ok)];
    }

    method OnConnectResumed(i: nat)
      requires i < |callers| && callers[i].Connecting?
      requires callers[i].attempt < |attempts| && attempts[callers[i].attempt].Settled?
      modifies this
      ensures View() == Step(old(View()), Resume(i))
    {
      var c := callers[i];
      callers := callers[i := ConnectDone(attempts[c.attempt].ok)];
      if c.owner {
        connectPromise := None;
      }
    }

    method Close()
      modifies this
      ensures View() == Step(old(View()), CallClose)
    {
      closing := true;
      if connectPromise.Some? {
        callers := callers + [ClosePending(connectPromise.value)];
      } else {
        var c := CloseClient();
        callers := callers + [c];
      }
    }

    method OnCloseResumed(i: nat)
      requires i < |callers| && callers[i].ClosePending?
      requires callers[i].attempt < |attempts| && attempts[callers[i].attempt].Settled?
      modifies this
      ensures View() == Step(old(View()), Resume(i))
    {
      var c := CloseClient();
      callers := callers[i := c];
    }

    method CloseClient() returns (c: Caller)
      modifies this`closeCalled
      ensures c == Closer(old(View())) && closeCalled == Closed(old(View()))
    {
      if client.Some? {
        closeCalled := closeCalled + {client.value};
        return ClosingClient(client.value);
      }
      return CloseDone;
    }

    method OnClientClosed(i: nat)
      requires i < |callers| && callers[i].ClosingClient?
      modifies this
      ensures View() == Step(old(View()), ClientClosed(i))
    {
      client := None;
      callers := callers[i := CloseDone];
    }
  }
}
