/**
 What the deduplication of a queue handler promises over whole runs, and exactly where batch
 mode falls short of it.
 */
module QueueDeduplication {
  import opened Options
  import opened QueuePipeline
  import opened QueueInvariants
  import opened QueueSettlement
  import opened QueueTheorems
  import opened QueueHistory
  import Backpressure
  import Idempotency

  /** The event puts a new key into the cache.  Units without a key, and keys that are present
      already, add nothing. */
  predicate Adds(cfg: Config, s: State, e: Event) {
    && e.Returned? && e.ok && InPhase(s, e.poll, Handling)
    && var key := LeadKey(s.polls, Current(s, e.poll));
       Deduplicates(cfg, key) && key !in s.cache.entries
  }

  function Additions(cfg: Config, s: State, events: seq<Event>): nat {
    if events == [] then 0 else
      var before := events[..|events| - 1];
      Additions(cfg, s, before) + if Adds(cfg, Run(cfg, s, before), events[|events| - 1]) then 1 else 0
  }

  /** The event looks up the key of a unit, and the key is `key`. */
  predicate LooksUp(s: State, e: Event, key: string) {
    e.Enter? && InPhase(s, e.poll, Admitted) && LeadKey(s.polls, Current(s, e.poll)) == key
  }

  /** No event of the run looks the key up after it expired. */
  ghost predicate LookupsInTime(cfg: Config, s: State, events: seq<Event>, key: string, expiry: int) {
    forall i :: 0 <= i < |events| ==>
      LooksUp(Run(cfg, s, events[..i]), events[i], key) ==> events[i].now <= expiry
  }

  /** How many events of the run do. */
  function LateLookups(cfg: Config, s: State, events: seq<Event>, key: string, expiry: int): nat {
    if events == [] then 0 else
      var before, e := events[..|events| - 1], events[|events| - 1];
      LateLookups(cfg, s, before, key, expiry) + if LooksUp(Run(cfg, s, before), e, key) && e.now > expiry then 1 else 0
  }

  /** The cache holds the key and will hold it for at least `slack` more additions. */
  ghost predicate KeyHeld(cfg: Config, s: State, key: string, expiry: int, slack: int) {
    && cfg.dedup.Some? && Idempotency.WellFormed(s.cache)
    && key in s.cache.entries && s.cache.entries[key] == expiry
    && Idempotency.Window(cfg.dedup.value, s.cache, key) >= slack
  }

  // ------------------------------------------------------------ the key stays

  lemma StepKeepsKey(cfg: Config, s: State, e: Event, key: string, expiry: int, slack: int)
    requires KeyHeld(cfg, s, key, expiry, slack)
    requires LooksUp(s, e, key) ==> e.now <= expiry
    requires Adds(cfg, s, e) ==> slack >= 1
    ensures KeyHeld(cfg, Step(cfg, s, e), key, expiry, if Adds(cfg, s, e) then slack - 1 else slack)
  {
    StepCache(cfg, s, e);
    var t := Step(cfg, s, e);
    if t.cache != s.cache {
      var x := LeadKey(s.polls, Current(s, e.poll));
      var op := if e.Enter? then Idempotency.Has(e.now, x) else Idempotency.Add(e.now, x);
      Idempotency.ApplyKeepsWindow(cfg.dedup.value, s.cache, op, key);
      Idempotency.ApplyShape(cfg.dedup.value, s.cache, op);
    }
  }

  lemma {:induction false} NoLateLookups(cfg: Config, s: State, events: seq<Event>, key: string, expiry: int)
    requires LookupsInTime(cfg, s, events, key, expiry)
    ensures LateLookups(cfg, s, events, key, expiry) == 0
  {
    if events != [] {
      var before := events[..|events| - 1];
      forall i | 0 <= i < |before|
        ensures LooksUp(Run(cfg, s, before[..i]), before[i], key) ==> before[i].now <= expiry
      {
        assert before[..i] == events[..i];
      }
      NoLateLookups(cfg, s, before, key, expiry);
    }
  }

  lemma AdditionsSnoc(cfg: Config, s: State, events: seq<Event>, e: Event)
    ensures Additions(cfg, s, events + [e]) ==
            Additions(cfg, s, events) + if Adds(cfg, Run(cfg, s, events), e) then 1 else 0
  {
    assert (events + [e])[..|events|] == events;
  }

  ghost predicate Within(cfg: Config, s: State, events: seq<Event>, slack: int) {
    Additions(cfg, s, events) == 0 || Additions(cfg, s, events) <= slack
  }

  lemma WithinBefore(cfg: Config, s: State, before: seq<Event>, e: Event, slack: int)
    requires Within(cfg, s, before + [e], slack)
    ensures Within(cfg, s, before, slack)
  {
    AdditionsSnoc(cfg, s, before, e);
  }

  ghost predicate StillHeld(cfg: Config, s: State, events: seq<Event>, key: string, expiry: int, slack: int) {
    KeyHeld(cfg, Run(cfg, s, events), key, expiry, slack - Additions(cfg, s, events))
  }

  lemma KeySnoc(cfg: Config, s: State, before: seq<Event>, e: Event, key: string, expiry: int, slack: int)
    requires StillHeld(cfg, s, before, key, expiry, slack)
    requires LooksUp(Run(cfg, s, before), e, key) ==> e.now <= expiry
    requires Within(cfg, s, before + [e], slack)
    ensures StillHeld(cfg, s, before + [e], key, expiry, slack)
  {
    AdditionsSnoc(cfg, s, before, e);
    RunSnoc(cfg, s, before, e);
    StepKeepsKey(cfg, Run(cfg, s, before), e, key, expiry, slack - Additions(cfg, s, before));
  }

  lemma {:induction false} RunKeepsKey(
    cfg: Config, s: State, events: seq<Event>, key: string, expiry: int, slack: int)
    requires KeyHeld(cfg, s, key, expiry, slack)
    requires LateLookups(cfg, s, events, key, expiry) == 0
    requires Within(cfg, s, events, slack)
    ensures StillHeld(cfg, s, events, key, expiry, slack)
    decreases |events|
  {
    if events != [] {
      var before, e := events[..|events| - 1], events[|events| - 1];
      assert events == before + [e];
      WithinBefore(cfg, s, before, e, slack);
      RunKeepsKey(cfg, s, before, key, expiry, slack);
      KeySnoc(cfg, s, before, e, key, expiry, slack);
    }
  }

  lemma {:induction false} PrefixWithin(cfg: Config, s: State, events: seq<Event>, i: nat, slack: int)
    requires i <= |events| && Within(cfg, s, events, slack)
    ensures Within(cfg, s, events[..i], slack)
  {
    if i < |events| {
      var before := events[..|events| - 1];
      assert before[..i] == events[..i];
      PrefixWithin(cfg, s, before, i, slack);
    } else {
      assert events[..i] == events;
    }
  }

  lemma {:induction false} PrefixNotLate(
    cfg: Config, s: State, events: seq<Event>, i: nat, key: string, expiry: int)
    requires i < |events| && LateLookups(cfg, s, events, key, expiry) == 0
    ensures LateLookups(cfg, s, events[..i], key, expiry) == 0
    ensures LooksUp(Run(cfg, s, events[..i]), events[i], key) ==> events[i].now <= expiry
  {
    var before := events[..|events| - 1];
    if i < |before| {
      assert before[..i] == events[..i];
      PrefixNotLate(cfg, s, before, i, key, expiry);
    }
  }

  // ------------------------------------------------------------ no second run

  lemma {:induction false} RunKeepsUnits(cfg: Config, s: State, events: seq<Event>, i: nat)
    requires i <= |events|
    ensures UnitsKept(Run(cfg, s, events[..i]).polls, Run(cfg, s, events).polls)
  {
    if i < |events| {
      var before := events[..|events| - 1];
      assert before[..i] == events[..i];
      RunKeepsUnits(cfg, s, before, i);
      StepKeepsUnits(cfg, Run(cfg, s, before), events[|events| - 1]);
    } else {
      assert events[..i] == events;
    }
  }

  lemma HeldKeyIsSeen(cfg: Config, s: State, e: Event, d: Delivery, key: string, expiry: int, slack: int)
    requires KeyHeld(cfg, s, key, expiry, slack) && key != "" && LeadKey(s.polls, d) == key
    requires LooksUp(s, e, key) ==> e.now <= expiry
    ensures FactOf(cfg, s, e, d) != Some(Unseen)
  {
  }

  lemma NeverUnseen(
    cfg: Config, s: State, events: seq<Event>, d: Delivery, key: string, expiry: int, slack: int)
    requires KeyHeld(cfg, s, key, expiry, slack) && key != "" && LeadKey(Run(cfg, s, events).polls, d) == key
    requires LateLookups(cfg, s, events, key, expiry) == 0
    requires Within(cfg, s, events, slack)
    ensures !Happened(cfg, s, events, d, Unseen)
  {
    forall i | 0 <= i < |events|
      ensures FactOf(cfg, Run(cfg, s, events[..i]), events[i], d) != Some(Unseen)
    {
      PrefixWithin(cfg, s, events, i, slack);
      PrefixNotLate(cfg, s, events, i, key, expiry);
      RunKeepsKey(cfg, s, events[..i], key, expiry, slack);
      RunKeepsUnits(cfg, s, events, i);
      var m := Run(cfg, s, events[..i]);
      if AtPos(m.polls, d) {
        assert LeadKey(m.polls, d) == key;
        HeldKeyIsSeen(cfg, m, events[i], d, key, expiry, slack - Additions(cfg, s, events[..i]));
      }
    }
  }

  lemma UnseenDecides(cfg: Config, s: State, d: Delivery, h: seq<Fact>)
    requires Told(cfg, s, d, h) && Unseen !in h
    ensures !(Started(cfg) <= h)
    ensures Past(s.polls, d) ==> (Acked(h) <==> Undecodable !in h) && (Acked(h) <==> Seen in h)
  {
    StartIsTold(cfg, s, d, h);
    assert Started(cfg)[0] == Unseen;
    if Past(s.polls, d) {
      var verdict :| Ends(cfg, verdict, h);
    }
  }

  /** The unit was past its lookup and waited for its validator. */
  predicate OnTheWay(s: State, d: Delivery) {
    AtPos(s.polls, d) && s.polls[d.poll].phase == Validating
  }

  predicate Decided(s: State, d: Delivery) {
    !NotEntered(s, d) && !OnTheWay(s, d)
  }

  lemma StepKeepsDecided(cfg: Config, s: State, e: Event, d: Delivery)
    requires WaitersConsistent(cfg, s) && Decided(s, d) && HandlingKnown(s)
    ensures Decided(Step(cfg, s, e), d)
    ensures d in Step(cfg, s, e).handled ==> d in s.handled
  {
    if Finishes(s, e) {
      FinishMovesPast(cfg, s, e, d);
    } else {
      InnerShape(cfg, s, e);
    }
  }

  lemma {:induction false} RunKeepsDecided(cfg: Config, s: State, events: seq<Event>, d: Delivery)
    requires Sound(cfg, s) && Decided(s, d)
    ensures Decided(Run(cfg, s, events), d)
    ensures d in Run(cfg, s, events).handled ==> d in s.handled
  {
    if events != [] {
      var before := events[..|events| - 1];
      RunKeepsDecided(cfg, s, before, d);
      RunStaysSound(cfg, s, before);
      StepKeepsDecided(cfg, Run(cfg, s, before), events[|events| - 1], d);
    }
  }

  lemma StepOnTheWay(cfg: Config, s: State, e: Event, d: Delivery)
    requires WaitersConsistent(cfg, s) && OnTheWay(s, d) && d !in s.handled
    ensures var t, passed := Step(cfg, s, e), FactOf(cfg, s, e, d) == Some(Passed);
            || (OnTheWay(t, d) && d !in t.handled && !passed)
            || (Decided(t, d) && (d in t.handled <==> passed))
  {
    if Finishes(s, e) {
      FinishMovesPast(cfg, s, e, d);
    }
  }

  lemma DecidedIsNotAsked(cfg: Config, s: State, e: Event, d: Delivery)
    requires Decided(s, d)
    ensures FactOf(cfg, s, e, d) != Some(Passed)
  {
  }

  lemma {:induction false} RunOnTheWay(cfg: Config, s: State, events: seq<Event>, d: Delivery)
    requires Sound(cfg, s) && OnTheWay(s, d)
    ensures var t, h := Run(cfg, s, events), History(cfg, s, events, d);
            || (OnTheWay(t, d) && d !in t.handled && Passed !in h)
            || (Decided(t, d) && (d in t.handled <==> Passed in h))
  {
    if events != [] {
      var before, e := events[..|events| - 1], events[|events| - 1];
      var m := Run(cfg, s, before);
      RunOnTheWay(cfg, s, before, d);
      RunStaysSound(cfg, s, before);
      if OnTheWay(m, d) {
        StepOnTheWay(cfg, m, e, d);
      } else {
        StepKeepsDecided(cfg, m, e, d);
        DecidedIsNotAsked(cfg, m, e, d);
        StepSucceeded(cfg, m, e);
      }
    }
  }

  /** What the events after `s` do for a unit whose key the cache holds: its handler does not
      start unless it was past its lookup already, and then exactly if the validator accepts it;
      and if it still had to enter its try block, it is acknowledged in the end, exactly if its
      body decodes. */
  ghost predicate ShieldedBy(cfg: Config, s: State, events: seq<Event>, d: Delivery, message: nat) {
    var t := Run(cfg, s, events);
    && (d in t.handled ==> d in s.handled || OnTheWay(s, d))
    && (OnTheWay(s, d) ==> (d in t.handled <==> Happened(cfg, s, events, d, Passed)))
    && (NotEntered(s, d) ==>
          && d !in t.handled
          && !Happened(cfg, s, events, d, Unseen)
          && (Done(t, d, message) && !cfg.manualAck ==>
                Settlements(t.calls, d, message) == [!Happened(cfg, s, events, d, Undecodable)]))
  }

  lemma UnseenShields(cfg: Config, s: State, events: seq<Event>, d: Delivery, message: nat)
    requires Sound(cfg, s) && NotEntered(s, d) && !Happened(cfg, s, events, d, Unseen)
    ensures ShieldedBy(cfg, s, events, d, message)
  {
    RunTold(cfg, s, events, d, message);
    HistoryIsWhatHappened(cfg, s, events, d, Unseen);
    HistoryIsWhatHappened(cfg, s, events, d, Undecodable);
    UnseenDecides(cfg, Run(cfg, s, events), d, History(cfg, s, events, d));
  }

  lemma EnteredShields(cfg: Config, s: State, events: seq<Event>, d: Delivery, message: nat)
    requires Sound(cfg, s) && !NotEntered(s, d)
    ensures ShieldedBy(cfg, s, events, d, message)
  {
    if OnTheWay(s, d) {
      RunOnTheWay(cfg, s, events, d);
      HistoryIsWhatHappened(cfg, s, events, d, Passed);
    } else {
      RunKeepsDecided(cfg, s, events, d);
    }
  }

  /** While the cache holds a key, as long as no more new keys are added than it is sure to
      outlive, and its lookups come before it expires, every unit with that key is shielded. */
  lemma NoSecondRun(
    cfg: Config, s: State, events: seq<Event>, key: string, expiry: int, d: Delivery, message: nat)
    requires Sound(cfg, s) && cfg.dedup.Some? && key != ""
    requires key in s.cache.entries && s.cache.entries[key] == expiry
    requires LookupsInTime(cfg, s, events, key, expiry)
    requires Within(cfg, s, events, Idempotency.Window(cfg.dedup.value, s.cache, key))
    requires LeadKey(Run(cfg, s, events).polls, d) == key
    ensures ShieldedBy(cfg, s, events, d, message)
  {
    var slack := Idempotency.Window(cfg.dedup.value, s.cache, key);
    if NotEntered(s, d) {
      NoLateLookups(cfg, s, events, key, expiry);
      NeverUnseen(cfg, s, events, d, key, expiry, slack);
      UnseenShields(cfg, s, events, d, message);
    } else {
      EnteredShields(cfg, s, events, d, message);
    }
  }

  // ------------------------------------------------------------ what a success records

  /** A lookup that lets the unit pass leaves no trace of its key in the map: an entry that has
      expired is purged, and so it cannot keep a later success from being recorded. */
  lemma UnseenKeyIsGone(cfg: Config, s: State, e: Event, d: Delivery)
    requires FactOf(cfg, s, e, d) == Some(Unseen) && Deduplicates(cfg, LeadKey(s.polls, d))
    ensures LeadKey(s.polls, d) !in Step(cfg, s, e).cache.entries
  {
  }

  /** The handler of a unit with the key succeeds. */
  predicate SucceedsFor(s: State, e: Event, key: string) {
    e.Returned? && e.ok && InPhase(s, e.poll, Handling) && LeadKey(s.polls, Current(s, e.poll)) == key
  }

  function SuccessesFor(cfg: Config, s: State, events: seq<Event>, key: string): nat {
    if events == [] then 0 else
      var before := events[..|events| - 1];
      SuccessesFor(cfg, s, before, key) + if SucceedsFor(Run(cfg, s, before), events[|events| - 1], key) then 1 else 0
  }

  lemma StepKeepsAbsent(cfg: Config, s: State, e: Event, key: string)
    requires Idempotency.WellFormed(s.cache) && key !in s.cache.entries && !SucceedsFor(s, e, key)
    ensures key !in Step(cfg, s, e).cache.entries
  {
    StepCache(cfg, s, e);
    if e.Returned? && cfg.dedup.Some? {
      Idempotency.EvictShape(cfg.dedup.value, s.cache);
    }
  }

  lemma {:induction false} RunKeepsAbsent(cfg: Config, s: State, events: seq<Event>, key: string)
    requires Sound(cfg, s) && key !in s.cache.entries && SuccessesFor(cfg, s, events, key) == 0
    ensures key !in Run(cfg, s, events).cache.entries
  {
    if events != [] {
      var before := events[..|events| - 1];
      RunKeepsAbsent(cfg, s, before, key);
      RunStaysSound(cfg, s, before);
      StepKeepsAbsent(cfg, Run(cfg, s, before), events[|events| - 1], key);
    }
  }

  /** A unit with the key passes its lookup with the event `look`, and after the events
      `between` its handler is running; no unit with that key has succeeded in between. */
  ghost predicate LookedUpAndRunning(
    cfg: Config, s: State, look: Event, between: seq<Event>, d: Delivery, key: string)
  {
    var m := Step(cfg, s, look);
    var t := Run(cfg, m, between);
    && FactOf(cfg, s, look, d) == Some(Unseen)
    && key == LeadKey(s.polls, d) && Deduplicates(cfg, key)
    && SuccessesFor(cfg, m, between, key) == 0
    && AtPos(t.polls, d) && InPhase(t, d.poll, Handling)
  }

  lemma RunningKeyIsGone(cfg: Config, s: State, look: Event, between: seq<Event>, d: Delivery, key: string)
    requires Sound(cfg, s) && LookedUpAndRunning(cfg, s, look, between, d, key)
    ensures var t := Run(cfg, Step(cfg, s, look), between);
            key !in t.cache.entries && LeadKey(t.polls, d) == key && Sound(cfg, t)
  {
    var m := Step(cfg, s, look);
    UnseenKeyIsGone(cfg, s, look, d);
    StepSound(cfg, s, look);
    RunKeepsAbsent(cfg, m, between, key);
    RunStaysSound(cfg, m, between);
    StepKeepsUnits(cfg, s, look);
    RunKeepsUnits(cfg, m, between, 0);
    assert between[..0] == [];
  }

  lemma SuccessInserts(cfg: Config, t: State, d: Delivery, now: int, key: string)
    requires AtPos(t.polls, d) && InPhase(t, d.poll, Handling) && LeadKey(t.polls, d) == key
    requires Deduplicates(cfg, key) && key !in t.cache.entries
    ensures Step(cfg, t, Returned(d.poll, now, true)).cache ==
            Idempotency.Insert(cfg.dedup.value, t.cache, now, key)
    ensures var u := Step(cfg, t, Returned(d.poll, now, true));
            key in u.cache.entries && u.cache.entries[key] == now + cfg.dedup.value.ttlMs
  {
  }

  /** A success is recorded.  When the handler of a unit that was looked up in the run succeeds,
      and no other unit with its key has succeeded since that lookup, the cache holds the key
      for a full TTL, whatever it held before. */
  lemma SuccessIsRecorded(
    cfg: Config, s: State, look: Event, between: seq<Event>, d: Delivery, now: int, key: string)
    requires Sound(cfg, s) && LookedUpAndRunning(cfg, s, look, between, d, key)
    ensures var u := Step(cfg, Run(cfg, Step(cfg, s, look), between), Returned(d.poll, now, true));
            key in u.cache.entries && u.cache.entries[key] == now + cfg.dedup.value.ttlMs
  {
    RunningKeyIsGone(cfg, s, look, between, d, key);
    SuccessInserts(cfg, Run(cfg, Step(cfg, s, look), between), d, now, key);
  }

  ghost predicate JustRecorded(cfg: Config, t: State, key: string, expiry: int) {
    && Sound(cfg, t) && cfg.dedup.Some? && key != ""
    && key in t.cache.entries && t.cache.entries[key] == expiry
    && Idempotency.Window(cfg.dedup.value, t.cache, key) == cfg.dedup.value.maxSize - 1
  }

  lemma SuccessJustRecorded(
    cfg: Config, s: State, look: Event, between: seq<Event>, d: Delivery, now: int, key: string)
    requires Sound(cfg, s) && LookedUpAndRunning(cfg, s, look, between, d, key)
    requires cfg.dedup.value.maxSize >= 1
    requires Idempotency.NoLiveKeyBehindTwin(
               cfg.dedup.value, Run(cfg, Step(cfg, s, look), between).cache, key)
    ensures JustRecorded(
              cfg, Step(cfg, Run(cfg, Step(cfg, s, look), between), Returned(d.poll, now, true)), key,
              now + cfg.dedup.value.ttlMs)
  {
    var t := Run(cfg, Step(cfg, s, look), between);
    RunningKeyIsGone(cfg, s, look, between, d, key);
    SuccessInserts(cfg, t, d, now, key);
    StepSound(cfg, t, Returned(d.poll, now, true));
    Idempotency.PromiseIffNoStaleTwin(cfg.dedup.value, t.cache, now, key);
  }

  lemma RecordedIsShielded(
    cfg: Config, t: State, key: string, expiry: int, after: seq<Event>, d: Delivery, message: nat)
    requires JustRecorded(cfg, t, key, expiry)
    requires LookupsInTime(cfg, t, after, key, expiry)
    requires Additions(cfg, t, after) <= cfg.dedup.value.maxSize - 1
    requires LeadKey(Run(cfg, t, after).polls, d) == key
    ensures ShieldedBy(cfg, t, after, d, message)
  {
    NoSecondRun(cfg, t, after, key, expiry, d, message);
  }

  /** The promise of idempotent queue handlers.  In any run, let a unit with the key be looked up
      in state s, let no other unit with that key succeed until its own handler does, at time
      `now`, and let no stale twin of the key stand in front of a live key then.  From that
      state u on, within the TTL and the next maxSize - 1 additions, the handler does not start
      again for that key, except for a unit that was past its lookup; and every later unit with
      the key is acknowledged without a run, exactly if its body decodes. */
  lemma SuccessShieldsItsKey(
    cfg: Config, before: seq<Event>, look: Event, between: seq<Event>, first: Delivery, now: int, key: string,
    u: State, after: seq<Event>, d: Delivery, message: nat)
    requires Sensible(cfg)
    requires LookedUpAndRunning(cfg, Run(cfg, INITIAL, before), look, between, first, key)
    requires var t := Run(cfg, Step(cfg, Run(cfg, INITIAL, before), look), between);
             && cfg.dedup.value.maxSize >= 1
             && Idempotency.NoLiveKeyBehindTwin(cfg.dedup.value, t.cache, key)
             && u == Step(cfg, t, Returned(first.poll, now, true))
    requires LookupsInTime(cfg, u, after, key, now + cfg.dedup.value.ttlMs)
    requires Additions(cfg, u, after) <= cfg.dedup.value.maxSize - 1
    requires LeadKey(Run(cfg, u, after).polls, d) == key
    ensures ShieldedBy(cfg, u, after, d, message)
  {
    RunSound(cfg, before);
    SuccessJustRecorded(cfg, Run(cfg, INITIAL, before), look, between, first, now, key);
    RecordedIsShielded(cfg, u, key, now + cfg.dedup.value.ttlMs, after, d, message);
  }

  // ------------------------------------------------------------ overlapping units

  predicate LetsTwoIn(cfg: Config) {
    cfg.validates && cfg.dedup.Some? && (cfg.limit.Some? ==> cfg.limit.value.maxConcurrent >= 2)
  }

  /** Two polls with one message each, both with key "a". */
  ghost predicate Overlapping(s: State, first: Phase, second: Phase) {
    s.polls == [Poll([[Message(1, "a")]], 0, first), Poll([[Message(2, "a")]], 0, second)]
    && (first != Settling(Succeeded) ==> s.cache == Idempotency.EMPTY)
  }

  function TwoPolls(): seq<Event> {
    [Arrive([Message(1, "a")])] + [Arrive([Message(2, "a")])] + [Start(0)] + [Start(1)]
  }

  /** Both are looked up before the first has succeeded. */
  function FirstSucceeds(): seq<Event> {
    TwoPolls() + [Enter(0, 0, true)] + [Enter(1, 0, true)] + [Validated(0, Accepted)] + [Returned(0, 0, true)]
  }

  lemma BothStart(cfg: Config)
    requires LetsTwoIn(cfg)
    ensures Overlapping(Run(cfg, INITIAL, TwoPolls()), Admitted, Admitted)
  {
    var a, b := Arrive([Message(1, "a")]), Arrive([Message(2, "a")]);
    RunSnoc(cfg, INITIAL, [], a);
    assert [] + [a] == [a];
    RunSnoc(cfg, INITIAL, [a], b);
    RunSnoc(cfg, INITIAL, [a] + [b], Start(0));
    RunSnoc(cfg, INITIAL, [a] + [b] + [Start(0)], Start(1));
    TwoArrive(cfg);
    TwoAcquire(cfg, Run(cfg, INITIAL, [a] + [b]));
  }

  ghost predicate NobodyYet(s: State) {
    s.sem.running == 0 && s.sem.queue == []
  }

  lemma TwoArrive(cfg: Config)
    ensures var s := Step(cfg, Step(cfg, INITIAL, Arrive([Message(1, "a")])), Arrive([Message(2, "a")]));
            Overlapping(s, Idle, Idle) && NobodyYet(s)
  {
    assert Units(cfg, [Message(1, "a")]) == [[Message(1, "a")]];
    assert Units(cfg, [Message(2, "a")]) == [[Message(2, "a")]];
  }

  lemma TwoAcquire(cfg: Config, s: State)
    requires LetsTwoIn(cfg) && Overlapping(s, Idle, Idle) && NobodyYet(s)
    ensures Overlapping(Step(cfg, Step(cfg, s, Start(0)), Start(1)), Admitted, Admitted)
  {
  }

  lemma BothUnseen(cfg: Config, s: State)
    requires LetsTwoIn(cfg) && Overlapping(s, Admitted, Admitted)
    ensures Overlapping(Step(cfg, Step(cfg, s, Enter(0, 0, true)), Enter(1, 0, true)), Validating, Validating)
  {
  }

  lemma FirstReturns(cfg: Config, s: State)
    requires LetsTwoIn(cfg) && Overlapping(s, Validating, Validating)
    ensures var t := Step(cfg, Step(cfg, s, Validated(0, Accepted)), Returned(0, 0, true));
            && Overlapping(t, Settling(Succeeded), Validating)
            && "a" in t.cache.entries && Backpressure.Delivery(0, 0) in t.succeeded
  {
  }

  lemma SecondReturns(cfg: Config, s: State)
    requires LetsTwoIn(cfg) && Overlapping(s, Settling(Succeeded), Validating)
    requires Backpressure.Delivery(0, 0) in s.succeeded
    ensures var t := Step(cfg, Step(cfg, s, Validated(1, Accepted)), Returned(1, 0, true));
            Backpressure.Delivery(0, 0) in t.succeeded && Backpressure.Delivery(1, 0) in t.succeeded
  {
  }

  lemma FirstSucceedsRuns(cfg: Config)
    requires LetsTwoIn(cfg)
    ensures var s := Run(cfg, INITIAL, FirstSucceeds());
            && Overlapping(s, Settling(Succeeded), Validating)
            && "a" in s.cache.entries && Backpressure.Delivery(0, 0) in s.succeeded
  {
    var e2 := TwoPolls() + [Enter(0, 0, true)];
    var e3 := e2 + [Enter(1, 0, true)];
    BothStart(cfg);
    RunSnoc(cfg, INITIAL, TwoPolls(), Enter(0, 0, true));
    RunSnoc(cfg, INITIAL, e2, Enter(1, 0, true));
    BothUnseen(cfg, Run(cfg, INITIAL, TwoPolls()));
    RunSnoc(cfg, INITIAL, e3, Validated(0, Accepted));
    RunSnoc(cfg, INITIAL, e3 + [Validated(0, Accepted)], Returned(0, 0, true));
    FirstReturns(cfg, Run(cfg, INITIAL, e3));
  }

  /** The exception is real.  Under every configuration with a validator that lets two units in,
      there is a run in which a unit is looked up before another one with its key succeeds, and
      then succeeds a second time while the cache holds the key. */
  lemma OverlappingUnitsBothSucceed(cfg: Config)
    requires LetsTwoIn(cfg)
    ensures var s := Run(cfg, INITIAL, FirstSucceeds());
            && "a" in s.cache.entries && OnTheWay(s, Backpressure.Delivery(1, 0))
            && LeadKey(s.polls, Backpressure.Delivery(1, 0)) == "a"
    ensures var t := Run(cfg, INITIAL, FirstSucceeds() + [Validated(1, Accepted)] + [Returned(1, 0, true)]);
            Backpressure.Delivery(0, 0) in t.succeeded && Backpressure.Delivery(1, 0) in t.succeeded
  {
    FirstSucceedsRuns(cfg);
    RunSnoc(cfg, INITIAL, FirstSucceeds(), Validated(1, Accepted));
    RunSnoc(cfg, INITIAL, FirstSucceeds() + [Validated(1, Accepted)], Returned(1, 0, true));
    SecondReturns(cfg, Run(cfg, INITIAL, FirstSucceeds()));
  }

  // ------------------------------------------------------------ batches

  /** The callback enters its try block with a body that decodes. */
  predicate EntersWith(s: State, e: Event, message: nat) {
    e.Enter? && e.decodes && InPhase(s, e.poll, Admitted) && message < |Unit(s.polls, Current(s, e.poll))|
  }

  predicate MessageHeld(cfg: Config, s: State, e: Event, message: nat)
    requires EntersWith(s, e, message)
  {
    HeldNow(cfg, s, e.now, Unit(s.polls, Current(s, e.poll))[message].key)
  }

  /** For a message whose key is held the deduplication works, that is, its unit is settled as
      a duplicate, if and only if the key of the first message of the unit is held; otherwise
      the unit goes on to its validator or its handler. */
  lemma HeldKeyCoveredIff(cfg: Config, s: State, e: Event, message: nat)
    requires EntersWith(s, e, message) && MessageHeld(cfg, s, e, message)
    ensures var p, t := e.poll, Step(cfg, s, e);
            && (t == Move(s, p, Settling(Duplicate)) <==> MessageHeld(cfg, s, e, 0))
            && (!MessageHeld(cfg, s, e, 0) ==>
                  t.polls[p].phase == if cfg.validates then Validating else Handling)
  {
    assert LeadKey(s.polls, Current(s, e.poll)) == Unit(s.polls, Current(s, e.poll))[0].key;
    assert Step(cfg, s, e) == EnterBody(cfg, s, e.poll, e.now);
    assert Move(s, e.poll, Settling(Duplicate)).polls[e.poll].phase == Settling(Duplicate);
  }

  ghost predicate Covered(cfg: Config, s: State, e: Event, message: nat) {
    EntersWith(s, e, message) && MessageHeld(cfg, s, e, message) ==>
      Step(cfg, s, e) == Move(s, e.poll, Settling(Duplicate))
  }

  /** In every run, every message whose key is held is kept from the handler. */
  ghost predicate CoversEveryMessage(cfg: Config) {
    forall events, e, message :: Covered(cfg, Run(cfg, INITIAL, events), e, message)
  }

  lemma SinglesAreCovered(cfg: Config, events: seq<Event>, e: Event, message: nat)
    requires !cfg.batch
    ensures Covered(cfg, Run(cfg, INITIAL, events), e, message)
  {
    RunSingles(cfg, events);
    var s := Run(cfg, INITIAL, events);
    if EntersWith(s, e, message) && MessageHeld(cfg, s, e, message) {
      assert message == 0;
      HeldKeyCoveredIff(cfg, s, e, message);
    }
  }

  /** After a unit with key "a" has been through. */
  function FirstUnit(): seq<Event> {
    [Arrive([Message(1, "a")])] + [Start(0)] + [Enter(0, 0, true)] + [Validated(0, Accepted)]
    + [Returned(0, 0, true)] + [Settle(0)]
  }

  ghost predicate FirstUnitDone(cfg: Config, s: State) {
    && cfg.dedup.Some?
    && s.polls == [Poll([[Message(1, "a")]], 1, Idle)]
    && s.cache == Idempotency.Cache(map["a" := cfg.dedup.value.ttlMs], ["a"])
    && s.sem.running == 0 && s.sem.queue == []
  }

  function Running(cfg: Config, phase: Phase): State {
    INITIAL.(
      polls := [Poll([[Message(1, "a")]], 0, phase)],
      sem := if cfg.limit.None? then INITIAL.sem
             else Backpressure.Acquired(cfg.limit.value, INITIAL.sem, Backpressure.Delivery(0, 0)))
  }

  lemma FirstUnitStarts(cfg: Config)
    requires Sensible(cfg) && cfg.dedup.Some? && cfg.batch
    ensures Run(cfg, INITIAL, [Arrive([Message(1, "a")])] + [Start(0)]) == Running(cfg, Admitted)
  {
    var arrive := Arrive([Message(1, "a")]);
    RunSnoc(cfg, INITIAL, [], arrive);
    assert [] + [arrive] == [arrive];
    RunSnoc(cfg, INITIAL, [arrive], Start(0));
  }

  lemma FirstUnitHandled(cfg: Config)
    requires Sensible(cfg) && cfg.dedup.Some? && cfg.batch
    ensures var t := Step(cfg, Step(cfg, Running(cfg, Admitted), Enter(0, 0, true)), Validated(0, Accepted));
            t == Running(cfg, Handling).(handled := [Backpressure.Delivery(0, 0)])
  {
  }

  lemma FirstUnitSettled(cfg: Config, s: State)
    requires Sensible(cfg) && cfg.dedup.Some? && cfg.batch
    requires s == Running(cfg, Handling).(handled := [Backpressure.Delivery(0, 0)])
    ensures FirstUnitDone(cfg, Step(cfg, Step(cfg, s, Returned(0, 0, true)), Settle(0)))
  {
  }

  lemma FirstUnitRuns(cfg: Config)
    requires Sensible(cfg) && cfg.dedup.Some? && cfg.batch
    ensures FirstUnitDone(cfg, Run(cfg, INITIAL, FirstUnit()))
  {
    var e2 := [Arrive([Message(1, "a")])] + [Start(0)];
    FirstUnitStarts(cfg);
    RunSnoc(cfg, INITIAL, e2, Enter(0, 0, true));
    RunSnoc(cfg, INITIAL, e2 + [Enter(0, 0, true)], Validated(0, Accepted));
    var e4 := e2 + [Enter(0, 0, true)] + [Validated(0, Accepted)];
    FirstUnitHandled(cfg);
    RunSnoc(cfg, INITIAL, e4, Returned(0, 0, true));
    RunSnoc(cfg, INITIAL, e4 + [Returned(0, 0, true)], Settle(0));
    FirstUnitSettled(cfg, Run(cfg, INITIAL, e4));
  }

  /** The gap exists under every configuration with batches: after a unit with key "a" has
      succeeded, a batch that is led by "b" and carries another "a" goes on to the handler,
      while "a" is still in the cache. */
  lemma BatchHidesDuplicates(cfg: Config)
    requires Sensible(cfg) && cfg.dedup.Some? && cfg.dedup.value.ttlMs >= 0 && cfg.batch
    ensures var s := Run(cfg, INITIAL, FirstUnit() + [Arrive([Message(2, "b"), Message(3, "a")])] + [Start(1)]);
            var e := Enter(1, 0, true);
            && EntersWith(s, e, 1) && MessageHeld(cfg, s, e, 1)
            && Step(cfg, s, e).polls[1].phase == if cfg.validates then Validating else Handling
  {
    var arrive := Arrive([Message(2, "b"), Message(3, "a")]);
    FirstUnitRuns(cfg);
    RunSnoc(cfg, INITIAL, FirstUnit(), arrive);
    RunSnoc(cfg, INITIAL, FirstUnit() + [arrive], Start(1));
    var s := Run(cfg, INITIAL, FirstUnit() + [arrive] + [Start(1)]);
    assert s.polls[1] == Poll([[Message(2, "b"), Message(3, "a")]], 0, Admitted);
    HeldKeyCoveredIff(cfg, s, Enter(1, 0, true), 1);
  }

  /** Deduplication covers every message if and only if the handler does not take batches. */
  lemma CoversEveryMessageIffSingle(cfg: Config)
    requires Sensible(cfg) && cfg.dedup.Some? && cfg.dedup.value.ttlMs >= 0
    ensures CoversEveryMessage(cfg) <==> !cfg.batch
  {
    if cfg.batch {
      BatchHidesDuplicates(cfg);
      var s := Run(cfg, INITIAL, FirstUnit() + [Arrive([Message(2, "b"), Message(3, "a")])] + [Start(1)]);
      assert !Covered(cfg, s, Enter(1, 0, true), 1);
    } else {
      forall events, e, message ensures Covered(cfg, Run(cfg, INITIAL, events), e, message) {
        SinglesAreCovered(cfg, events, e, message);
      }
    }
  }
}
