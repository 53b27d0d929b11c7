/**
 Why each message is settled as it is.  The history of a unit is what the events of a run say
 about it: whether its body decoded, whether its key was held, what the validator said and how
 its handler ended.  The history decides the settlement, and nothing else does.
 */
module QueueHistory {
  import opened Options
  import opened QueuePipeline
  import opened QueueInvariants
  import opened QueueSettlement
  import opened QueueTheorems
  import Idempotency

  datatype Fact =
    | Undecodable
    | Seen
    | Unseen
    | Passed
    | Declined
    | Faulted
    | Buried
    | Worked
    | Broke

  /** The key counts for deduplication and the cache holds it. */
  predicate HeldNow(cfg: Config, s: State, now: int, key: string) {
    Deduplicates(cfg, key) && Idempotency.Present(s.cache, now, key)
  }

  /** What the event says about the unit, if it is the unit's turn. */
  function FactOf(cfg: Config, s: State, e: Event, d: Delivery): Option<Fact> {
    if e.Arrive? || e.poll != d.poll || !AtPos(s.polls, d) then None else
      match e
      case Enter(p, now, decodes) =>
        if !InPhase(s, p, Admitted) then None
        else if !decodes || Unit(s.polls, d) == [] then Some(Undecodable)
        else if HeldNow(cfg, s, now, LeadKey(s.polls, d)) then Some(Seen)
        else Some(Unseen)
      case Validated(p, validation) =>
        if !InPhase(s, p, Validating) then None
        else if validation == Accepted then Some(Passed)
        else if validation == Invalid then Some(Declined)
        else Some(Faulted)
      case DeadLettered(p) => if InPhase(s, p, DeadLettering) then Some(Buried) else None
      case Returned(p, _, ok) =>
        if !InPhase(s, p, Handling) then None else if ok then Some(Worked) else Some(Broke)
      case Start(_) => None
      case Settle(_) => None
  }

  function Noted(fact: Option<Fact>): seq<Fact> {
    if fact.None? then [] else [fact.value]
  }

  function History(cfg: Config, s: State, events: seq<Event>, d: Delivery): seq<Fact> {
    if events == [] then [] else
      var before := events[..|events| - 1];
      History(cfg, s, before, d) + Noted(FactOf(cfg, Run(cfg, s, before), events[|events| - 1], d))
  }

  /** The event of the run that says so. */
  ghost predicate Happened(cfg: Config, s: State, events: seq<Event>, d: Delivery, fact: Fact) {
    exists i :: 0 <= i < |events| && FactOf(cfg, Run(cfg, s, events[..i]), events[i], d) == Some(fact)
  }

  lemma {:induction false} NotedFactHappened(cfg: Config, s: State, events: seq<Event>, d: Delivery, fact: Fact)
    returns (i: nat)
    requires fact in History(cfg, s, events, d)
    ensures i < |events| && FactOf(cfg, Run(cfg, s, events[..i]), events[i], d) == Some(fact)
  {
    i := |events| - 1;
    var before := events[..i];
    if FactOf(cfg, Run(cfg, s, before), events[i], d) != Some(fact) {
      i := NotedFactHappened(cfg, s, before, d, fact);
      assert before[..i] == events[..i];
    }
  }

  lemma LastIsNoted(cfg: Config, s: State, before: seq<Event>, e: Event, d: Delivery)
    ensures History(cfg, s, before + [e], d) ==
            History(cfg, s, before, d) + Noted(FactOf(cfg, Run(cfg, s, before), e, d))
  {
    assert (before + [e])[..|before|] == before;
  }

  lemma {:induction false} HistoryGrows(cfg: Config, s: State, events: seq<Event>, i: nat, d: Delivery)
    requires i <= |events|
    ensures History(cfg, s, events[..i], d) <= History(cfg, s, events, d)
  {
    if i < |events| {
      var before := events[..|events| - 1];
      assert before[..i] == events[..i];
      HistoryGrows(cfg, s, before, i, d);
    } else {
      assert events[..i] == events;
    }
  }

  lemma FactIsNoted(cfg: Config, s: State, events: seq<Event>, i: nat, d: Delivery, fact: Fact)
    requires i < |events| && FactOf(cfg, Run(cfg, s, events[..i]), events[i], d) == Some(fact)
    ensures fact in History(cfg, s, events, d)
  {
    LastFactIsNoted(cfg, s, events[..i], events[i], d, fact);
    assert events[..i + 1] == events[..i] + [events[i]];
    HistoryGrows(cfg, s, events, i + 1, d);
  }

  lemma LastFactIsNoted(cfg: Config, s: State, before: seq<Event>, e: Event, d: Delivery, fact: Fact)
    requires FactOf(cfg, Run(cfg, s, before), e, d) == Some(fact)
    ensures fact in History(cfg, s, before + [e], d)
  {
    LastIsNoted(cfg, s, before, e, d);
  }

  /** The history holds exactly what happened. */
  lemma HistoryIsWhatHappened(cfg: Config, s: State, events: seq<Event>, d: Delivery, fact: Fact)
    ensures fact in History(cfg, s, events, d) <==> Happened(cfg, s, events, d, fact)
  {
    if fact in History(cfg, s, events, d) {
      var i := NotedFactHappened(cfg, s, events, d, fact);
    }
    if Happened(cfg, s, events, d, fact) {
      var i :| 0 <= i < |events| && FactOf(cfg, Run(cfg, s, events[..i]), events[i], d) == Some(fact);
      FactIsNoted(cfg, s, events, i, d, fact);
    }
  }

  // ------------------------------------------------------------ the course of a unit

  function Started(cfg: Config): seq<Fact> {
    if cfg.validates then [Unseen, Passed] else [Unseen]
  }

  function TurnedDown(cfg: Config): seq<Fact> {
    if cfg.deadLetters then [Unseen, Declined, Buried] else [Unseen, Declined]
  }

  /** The histories that end with the verdict. */
  predicate Ends(cfg: Config, verdict: Verdict, h: seq<Fact>) {
    match verdict
    case Succeeded => h == Started(cfg) + [Worked]
    case Duplicate => h == [Seen]
    case Refused => cfg.validates && h == TurnedDown(cfg)
    case Failed =>
      h == [Undecodable] || h == Started(cfg) + [Broke] || (cfg.validates && h == [Unseen, Faulted])
  }

  predicate Untold(phase: Phase) {
    phase == Idle || phase == Waiting || phase == Admitted || phase == Overflowed
  }

  predicate PhaseTells(cfg: Config, phase: Phase, h: seq<Fact>) {
    match phase
    case Validating => cfg.validates && h == [Unseen]
    case DeadLettering => cfg.validates && cfg.deadLetters && h == [Unseen, Declined]
    case Handling => h == Started(cfg)
    case Settling(verdict) => Ends(cfg, verdict, h)
    case Idle => h == []
    case Waiting => h == []
    case Admitted => h == []
    case Overflowed => h == []
  }

  ghost predicate Over(cfg: Config, h: seq<Fact>) {
    exists verdict :: Ends(cfg, verdict, h)
  }

  /** The place of the unit fits its history. */
  ghost predicate Told(cfg: Config, s: State, d: Delivery, h: seq<Fact>) {
    if Past(s.polls, d) then Over(cfg, h)
    else if AtPos(s.polls, d) then PhaseTells(cfg, s.polls[d.poll].phase, h)
    else h == []
  }

  predicate About(s: State, e: Event, d: Delivery) {
    !e.Arrive? && e.poll == d.poll && AtPos(s.polls, d)
  }

  lemma FactMoves(cfg: Config, s: State, e: Event, d: Delivery, h: seq<Fact>)
    requires FactOf(cfg, s, e, d).Some? && !Finishes(s, e) && PhaseTells(cfg, s.polls[d.poll].phase, h)
    ensures var t := Step(cfg, s, e);
            AtPos(t.polls, d) && PhaseTells(cfg, t.polls[d.poll].phase, h + Noted(FactOf(cfg, s, e, d)))
  {
    if e.Enter? {
      EnterTells(cfg, s, e.poll, e.now);
      assert h + Noted(FactOf(cfg, s, e, d)) == Noted(FactOf(cfg, s, e, d));
    }
  }

  lemma EnterTells(cfg: Config, s: State, p: nat, now: int)
    requires p < |s.polls|
    ensures var t, held := EnterBody(cfg, s, p, now), HeldNow(cfg, s, now, LeadKey(s.polls, Current(s, p)));
            && |t.polls| == |s.polls| && t.polls[p].pos == s.polls[p].pos
            && t.polls[p].phase == if held then Settling(Duplicate) else if cfg.validates then Validating else Handling
  {
  }

  lemma FinishTells(cfg: Config, s: State, e: Event, d: Delivery, h: seq<Fact>)
    requires Finishes(s, e) && About(s, e, d) && PhaseTells(cfg, s.polls[d.poll].phase, h)
    ensures Ends(cfg, FinishVerdict(s, e), h + Noted(FactOf(cfg, s, e, d)))
  {
  }

  lemma FinishMovesPast(cfg: Config, s: State, e: Event, d: Delivery)
    requires Finishes(s, e) && WaitersConsistent(cfg, s)
    ensures var t := Step(cfg, s, e);
            && (Past(t.polls, d) <==> Past(s.polls, d) || About(s, e, d))
            && (AtPos(t.polls, d) && !Untold(t.polls[d.poll].phase) ==>
                  AtPos(s.polls, d) && t.polls[d.poll] == s.polls[d.poll])
            && (AtPos(s.polls, d) && !About(s, e, d) && !Untold(s.polls[d.poll].phase) ==>
                  AtPos(t.polls, d) && t.polls[d.poll] == s.polls[d.poll])
  {
    StepShape(cfg, s, e);
    if s.sem.queue != [] {
      assert s.sem.queue[0] in s.sem.queue;
    }
  }

  lemma QuietEvent(cfg: Config, s: State, e: Event, d: Delivery)
    requires FactOf(cfg, s, e, d).None? && !Finishes(s, e)
    ensures var t := Step(cfg, s, e);
            && (Past(t.polls, d) <==> Past(s.polls, d))
            && (AtPos(s.polls, d) ==> AtPos(t.polls, d))
            && (AtPos(t.polls, d) && !AtPos(s.polls, d) ==> Untold(t.polls[d.poll].phase))
            && (AtPos(s.polls, d) ==>
                  || t.polls[d.poll].phase == s.polls[d.poll].phase
                  || (Untold(t.polls[d.poll].phase) && Untold(s.polls[d.poll].phase)))
  {
  }

  lemma StepTold(cfg: Config, s: State, e: Event, d: Delivery, h: seq<Fact>)
    requires Told(cfg, s, d, h) && WaitersConsistent(cfg, s)
    ensures Told(cfg, Step(cfg, s, e), d, h + Noted(FactOf(cfg, s, e, d)))
  {
    assert h + [] == h;
    if Finishes(s, e) {
      FinishMovesPast(cfg, s, e, d);
      if About(s, e, d) {
        FinishTells(cfg, s, e, d, h);
      }
    } else if FactOf(cfg, s, e, d).Some? {
      FactMoves(cfg, s, e, d, h);
    } else {
      QuietEvent(cfg, s, e, d);
    }
  }

  // ------------------------------------------------------------ handler runs

  /** The handler of the unit has started, or succeeded, as its history says. */
  predicate RunsTold(cfg: Config, s: State, d: Delivery, h: seq<Fact>) {
    && (d in s.handled <==> Started(cfg) <= h)
    && (d in s.succeeded <==> h == Started(cfg) + [Worked])
  }

  /** The fact with which the handler starts. */
  function Go(cfg: Config): Fact {
    if cfg.validates then Passed else Unseen
  }

  lemma StepLogs(cfg: Config, s: State, e: Event, d: Delivery, h: seq<Fact>)
    requires Told(cfg, s, d, h)
    ensures var t := Step(cfg, s, e);
            && (d in t.handled <==> d in s.handled || FactOf(cfg, s, e, d) == Some(Go(cfg)))
            && (d in t.succeeded <==> d in s.succeeded || FactOf(cfg, s, e, d) == Some(Worked))
  {
  }

  lemma HistoryStarts(cfg: Config, phase: Phase, h: seq<Fact>, fact: Fact)
    requires PhaseTells(cfg, phase, h)
    requires fact == Undecodable || fact == Seen || fact == Unseen ==> phase == Admitted
    requires fact == Passed || fact == Declined || fact == Faulted ==> phase == Validating
    requires fact == Buried ==> phase == DeadLettering
    requires fact == Worked || fact == Broke ==> phase == Handling
    ensures Started(cfg) <= h + [fact] <==> Started(cfg) <= h || fact == Go(cfg)
    ensures h + [fact] == Started(cfg) + [Worked] <==> fact == Worked
    ensures h != Started(cfg) + [Worked]
  {
    var all, done := h + [fact], Started(cfg) + [Worked];
    assert all[|all| - 1] == fact && done[|done| - 1] == Worked;
    if fact == Unseen || fact == Passed {
      assert all == if fact == Unseen then [Unseen] else [Unseen, Passed];
    }
  }

  lemma StepRunsTold(cfg: Config, s: State, e: Event, d: Delivery, h: seq<Fact>)
    requires Told(cfg, s, d, h) && RunsTold(cfg, s, d, h)
    ensures RunsTold(cfg, Step(cfg, s, e), d, h + Noted(FactOf(cfg, s, e, d)))
  {
    StepLogs(cfg, s, e, d, h);
    assert h + [] == h;
    var fact := FactOf(cfg, s, e, d);
    if fact.Some? {
      HistoryStarts(cfg, s.polls[d.poll].phase, h, fact.value);
    }
  }

  // ------------------------------------------------------------ settlements

  /** The last word of the history is one that is acknowledged. */
  predicate Acked(h: seq<Fact>) {
    h != [] && var last := h[|h| - 1];
               last == Seen || last == Worked || last == Declined || last == Buried
  }

  lemma EndsAcked(cfg: Config, verdict: Verdict, h: seq<Fact>)
    requires Ends(cfg, verdict, h)
    ensures Acked(h) <==> verdict != Failed
  {
  }

  predicate SettledAs(cfg: Config, s: State, d: Delivery, message: nat, h: seq<Fact>) {
    Settlements(s.calls, d, message) ==
      if cfg.manualAck || !Past(s.polls, d) || message >= |Unit(s.polls, d)| then [] else [Acked(h)]
  }

  lemma FinishSettles(cfg: Config, s: State, e: Event, d: Delivery, message: nat)
    requires Finishes(s, e)
    ensures Settlements(Step(cfg, s, e).calls, d, message) ==
            Settlements(s.calls, d, message)
            + if cfg.manualAck || !About(s, e, d) || message >= |Unit(s.polls, d)| then []
              else [FinishVerdict(s, e) != Failed]
  {
    StepShape(cfg, s, e);
    var who := Current(s, e.poll);
    var r := Result(|Unit(s.polls, who)|, FinishVerdict(s, e));
    SettlementsAppend(s.calls, CallsFor(cfg, who, r), d, message);
    CallsForSettle(cfg, who, r, d, message);
  }

  lemma PastUnitStays(cfg: Config, s: State, e: Event, d: Delivery)
    requires d.poll < |s.polls|
    ensures d.poll < |Step(cfg, s, e).polls| && Unit(Step(cfg, s, e).polls, d) == Unit(s.polls, d)
  {
    StepKeepsUnits(cfg, s, e);
  }

  lemma StepSettledAs(cfg: Config, s: State, e: Event, d: Delivery, message: nat, h: seq<Fact>)
    requires Told(cfg, s, d, h) && WaitersConsistent(cfg, s) && SettledAs(cfg, s, d, message, h)
    ensures SettledAs(cfg, Step(cfg, s, e), d, message, h + Noted(FactOf(cfg, s, e, d)))
  {
    assert h + [] == h;
    StepShape(cfg, s, e);
    if d.poll < |s.polls| {
      PastUnitStays(cfg, s, e, d);
    }
    if Finishes(s, e) {
      FinishMovesPast(cfg, s, e, d);
      FinishSettles(cfg, s, e, d, message);
      if About(s, e, d) {
        FinishTells(cfg, s, e, d, h);
        EndsAcked(cfg, FinishVerdict(s, e), h + Noted(FactOf(cfg, s, e, d)));
      }
    } else {
      PlacesStay(cfg, s, e, d);
    }
  }

  lemma PlacesStay(cfg: Config, s: State, e: Event, d: Delivery)
    requires !Finishes(s, e)
    ensures Step(cfg, s, e).calls == s.calls
    ensures Past(Step(cfg, s, e).polls, d) <==> Past(s.polls, d)
    ensures Past(s.polls, d) ==> FactOf(cfg, s, e, d).None?
  {
    StepShape(cfg, s, e);
  }

  // ------------------------------------------------------------ over every run

  /** The unit has not got into its try block yet. */
  predicate NotEntered(s: State, d: Delivery) {
    !Past(s.polls, d) && (AtPos(s.polls, d) ==> Untold(s.polls[d.poll].phase))
  }

  /** From any reachable state on, the history of a unit that is still to come fits its place,
      the log of handler runs, and its settlements. */
  lemma {:induction false} RunTold(cfg: Config, s: State, events: seq<Event>, d: Delivery, message: nat)
    requires Sound(cfg, s) && NotEntered(s, d)
    ensures var t, h := Run(cfg, s, events), History(cfg, s, events, d);
            Told(cfg, t, d, h) && RunsTold(cfg, t, d, h) && SettledAs(cfg, t, d, message, h)
  {
    if events == [] {
      NotYetSettled(cfg, s, d, message);
    } else {
      var before, e := events[..|events| - 1], events[|events| - 1];
      var m, h := Run(cfg, s, before), History(cfg, s, before, d);
      RunTold(cfg, s, before, d, message);
      RunWaiters(cfg, s, before);
      StepTold(cfg, m, e, d, h);
      StepRunsTold(cfg, m, e, d, h);
      StepSettledAs(cfg, m, e, d, message, h);
    }
  }

  lemma RunWaiters(cfg: Config, s: State, events: seq<Event>)
    requires Sound(cfg, s)
    ensures WaitersConsistent(cfg, Run(cfg, s, events))
  {
    RunStaysSound(cfg, s, events);
  }

  lemma NotYetSettled(cfg: Config, s: State, d: Delivery, message: nat)
    requires Sound(cfg, s) && NotEntered(s, d)
    ensures Settlements(s.calls, d, message) == []
    ensures d !in s.handled && d !in s.succeeded
  {
    AllCallsSkip(cfg, s.finished, s.results, d, message);
  }

  /** The unit is over, and the message is one of its own. */
  predicate Done(s: State, d: Delivery, message: nat) {
    Past(s.polls, d) && message < |Unit(s.polls, d)|
  }

  lemma EndingsTell(cfg: Config, h: seq<Fact>)
    requires Over(cfg, h)
    ensures Acked(h) <==> Worked in h || Seen in h || Declined in h
    ensures !Acked(h) <==> Undecodable in h || Faulted in h || Broke in h
    ensures h == Started(cfg) + [Worked] <==> Worked in h
    ensures !(Worked in h && Seen in h) && !(Worked in h && Declined in h) && !(Seen in h && Declined in h)
    ensures cfg.deadLetters && Declined in h ==> Buried in h
  {
    var verdict :| Ends(cfg, verdict, h);
  }

  /** In auto-ack mode a message is settled exactly once when its unit is over and never before.
      It is acknowledged if and only if its handler succeeded, or its body decoded while its
      unit's key was held, or the validator refused it; it is rejected if and only if its body
      did not decode, or the validator threw, or its handler failed.  Each reason is an event
      of the run. */
  lemma SettledExactlyOnce(cfg: Config, events: seq<Event>, d: Delivery, message: nat)
    requires Sensible(cfg) && !cfg.manualAck
    ensures var s := Run(cfg, INITIAL, events);
            var settled := Settlements(s.calls, d, message);
            && (settled != [] <==> Done(s, d, message))
            && |settled| <= 1
            && (settled == [true] <==>
                  && Done(s, d, message)
                  && (|| d in s.succeeded
                      || Happened(cfg, INITIAL, events, d, Seen)
                      || Happened(cfg, INITIAL, events, d, Declined)))
            && (settled == [false] <==>
                  && Done(s, d, message)
                  && (|| Happened(cfg, INITIAL, events, d, Undecodable)
                      || Happened(cfg, INITIAL, events, d, Faulted)
                      || Happened(cfg, INITIAL, events, d, Broke)))
  {
    RunSound(cfg, []);
    RunTold(cfg, INITIAL, events, d, message);
    if Past(Run(cfg, INITIAL, events).polls, d) {
      EndingsTell(cfg, History(cfg, INITIAL, events, d));
      forall fact ensures fact in History(cfg, INITIAL, events, d) <==> Happened(cfg, INITIAL, events, d, fact) {
        HistoryIsWhatHappened(cfg, INITIAL, events, d, fact);
      }
    }
  }

  lemma StartIsTold(cfg: Config, s: State, d: Delivery, h: seq<Fact>)
    requires Told(cfg, s, d, h)
    ensures Started(cfg) <= h <==> Go(cfg) in h
    ensures Go(cfg) in h ==> Unseen in h && Seen !in h && Undecodable !in h && Declined !in h && Faulted !in h
    ensures h == Started(cfg) + [Worked] <==> Worked in h
    ensures Past(s.polls, d) && cfg.deadLetters && Declined in h ==> Buried in h
  {
    var started := Started(cfg);
    assert started[|started| - 1] == Go(cfg);
    assert (started + [Worked])[|started| - 1] == Go(cfg) && (started + [Broke])[|started| - 1] == Go(cfg);
    if Past(s.polls, d) {
      var verdict :| Ends(cfg, verdict, h);
    }
  }

  /** A handler runs if and only if its unit's body decoded while the key was not held and, if
      there is a validator, the validator accepted it.  It does not run for a duplicate, for a
      body that does not decode, or for one that the validator refused or threw at. */
  lemma HandlerRunsOnlyWhenDue(cfg: Config, events: seq<Event>, d: Delivery)
    requires Sensible(cfg)
    ensures var s := Run(cfg, INITIAL, events);
            && (d in s.handled <==> Happened(cfg, INITIAL, events, d, if cfg.validates then Passed else Unseen))
            && (d in s.handled ==> Happened(cfg, INITIAL, events, d, Unseen))
            && (d in s.handled ==>
                  && !Happened(cfg, INITIAL, events, d, Seen)
                  && !Happened(cfg, INITIAL, events, d, Undecodable)
                  && !Happened(cfg, INITIAL, events, d, Declined)
                  && !Happened(cfg, INITIAL, events, d, Faulted))
            && (d in s.succeeded <==> Happened(cfg, INITIAL, events, d, Worked))
  {
    RunSound(cfg, []);
    RunTold(cfg, INITIAL, events, d, 0);
    StartIsTold(cfg, Run(cfg, INITIAL, events), d, History(cfg, INITIAL, events, d));
    forall fact ensures fact in History(cfg, INITIAL, events, d) <==> Happened(cfg, INITIAL, events, d, fact) {
      HistoryIsWhatHappened(cfg, INITIAL, events, d, fact);
    }
  }

  /** A message that the validator refuses is acknowledged only once its dead letter has been
      dealt with, if there is a dead-letter channel. */
  lemma RefusedIsBuriedFirst(cfg: Config, events: seq<Event>, d: Delivery)
    requires Sensible(cfg) && cfg.deadLetters
    requires Past(Run(cfg, INITIAL, events).polls, d) && Happened(cfg, INITIAL, events, d, Declined)
    ensures Happened(cfg, INITIAL, events, d, Buried)
    ensures d !in Run(cfg, INITIAL, events).handled
  {
    RunSound(cfg, []);
    RunTold(cfg, INITIAL, events, d, 0);
    HistoryIsWhatHappened(cfg, INITIAL, events, d, Declined);
    HistoryIsWhatHappened(cfg, INITIAL, events, d, Buried);
    StartIsTold(cfg, Run(cfg, INITIAL, events), d, History(cfg, INITIAL, events, d));
  }
}
