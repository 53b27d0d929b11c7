/**
 Queue messages that the validator refuses.  The transport sends a dead letter for the first
 message of a refused unit and acknowledges all of them.
 */
module QueueRefusals {
  import opened Options
  import opened QueuePipeline
  import opened QueueInvariants
  import opened QueueSettlement
  import opened QueueTheorems
  import opened QueueHistory
  import Backpressure

  /** The messages of the unit that went to the dead-letter channel, in order. */
  function LettersOf(letters: seq<Letter>, d: Delivery): seq<Message> {
    if letters == [] then [] else
      var last := letters[|letters| - 1];
      LettersOf(letters[..|letters| - 1], d) + if last.delivery == d then [last.message] else []
  }

  function Lead(unit: seq<Message>): seq<Message> {
    if unit == [] then [] else [unit[0]]
  }

  /** A refused unit has sent its first message to the dead-letter channel; nothing else has. */
  predicate LettersTold(cfg: Config, s: State, d: Delivery, h: seq<Fact>) {
    LettersOf(s.letters, d) == if cfg.deadLetters && Declined in h then Lead(Unit(s.polls, d)) else []
  }

  lemma StepLetters(cfg: Config, s: State, e: Event, d: Delivery)
    ensures var t := Step(cfg, s, e);
            LettersOf(t.letters, d) ==
              LettersOf(s.letters, d)
              + if cfg.deadLetters && FactOf(cfg, s, e, d) == Some(Declined) then Lead(Unit(s.polls, d)) else []
  {
    RefusalSendsLetter(cfg, s, e, d);
    assert LettersOf(s.letters, d) + [] == LettersOf(s.letters, d) && s.letters + [] == s.letters;
    if Declines(cfg, s, e) && LetterFor(s.polls, Current(s, e.poll)) != [] {
      LettersOfSnoc(s.letters, LetterFor(s.polls, Current(s, e.poll))[0], d);
    }
  }

  lemma LettersOfSnoc(letters: seq<Letter>, letter: Letter, d: Delivery)
    ensures LettersOf(letters + [letter], d) ==
            LettersOf(letters, d) + if letter.delivery == d then [letter.message] else []
  {
    assert (letters + [letter])[..|letters|] == letters;
  }

  predicate Declines(cfg: Config, s: State, e: Event) {
    cfg.deadLetters && e.Validated? && e.validation == Invalid && InPhase(s, e.poll, Validating)
  }

  lemma RefusalSendsLetter(cfg: Config, s: State, e: Event, d: Delivery)
    ensures Step(cfg, s, e).letters ==
            s.letters + if Declines(cfg, s, e) then LetterFor(s.polls, Current(s, e.poll)) else []
    ensures cfg.deadLetters && FactOf(cfg, s, e, d) == Some(Declined) <==>
              Declines(cfg, s, e) && Current(s, e.poll) == d
  {
  }

  lemma StepLettersTold(cfg: Config, s: State, e: Event, d: Delivery, h: seq<Fact>)
    requires Told(cfg, s, d, h) && LettersTold(cfg, s, d, h)
    ensures LettersTold(cfg, Step(cfg, s, e), d, h + Noted(FactOf(cfg, s, e, d)))
  {
    StepLetters(cfg, s, e, d);
    if d.poll < |s.polls| {
      PastUnitStays(cfg, s, e, d);
    }
    if FactOf(cfg, s, e, d) == Some(Declined) {
      assert h == [Unseen];
    }
  }

  lemma {:induction false} RunLetters(cfg: Config, events: seq<Event>, d: Delivery)
    requires Sensible(cfg)
    ensures LettersTold(cfg, Run(cfg, INITIAL, events), d, History(cfg, INITIAL, events, d))
  {
    if events != [] {
      var before, e := events[..|events| - 1], events[|events| - 1];
      RunLetters(cfg, before, d);
      RunSound(cfg, []);
      RunTold(cfg, INITIAL, before, d, 0);
      StepLettersTold(cfg, Run(cfg, INITIAL, before), e, d, History(cfg, INITIAL, before, d));
    }
  }

  /** A unit that the validator refuses is acknowledged as a whole, but only its first message
      goes to the dead-letter channel, once.  So in batch mode the other messages of a refused
      poll are gone: acknowledged, never handled, and not dead-lettered. */
  lemma RefusedUnitKeepsOnlyItsLead(cfg: Config, events: seq<Event>, d: Delivery, message: nat)
    requires Sensible(cfg) && cfg.deadLetters && !cfg.manualAck
    requires Happened(cfg, INITIAL, events, d, Declined) && Done(Run(cfg, INITIAL, events), d, message)
    ensures var s := Run(cfg, INITIAL, events);
            && Settlements(s.calls, d, message) == [true]
            && d !in s.handled
            && LettersOf(s.letters, d) == [Unit(s.polls, d)[0]]
  {
    SettledExactlyOnce(cfg, events, d, message);
    RefusedIsBuriedFirst(cfg, events, d);
    RunLetters(cfg, events, d);
    HistoryIsWhatHappened(cfg, INITIAL, events, d, Declined);
  }

  /** And nothing is dead-lettered by the transport but a unit that the validator refused. */
  lemma OnlyRefusedUnitsAreDeadLettered(cfg: Config, events: seq<Event>, d: Delivery)
    requires Sensible(cfg) && LettersOf(Run(cfg, INITIAL, events).letters, d) != []
    ensures cfg.deadLetters && Happened(cfg, INITIAL, events, d, Declined)
  {
    RunLetters(cfg, events, d);
    HistoryIsWhatHappened(cfg, INITIAL, events, d, Declined);
  }

  // ------------------------------------------------------------ refused batches

  /** In every run every message of a refused unit goes to the dead-letter channel, once. */
  ghost predicate DeadLettersEveryMessage(cfg: Config) {
    forall events, d :: KeepsAll(cfg, events, d)
  }

  ghost predicate KeepsAll(cfg: Config, events: seq<Event>, d: Delivery) {
    var s := Run(cfg, INITIAL, events);
    Past(s.polls, d) && Happened(cfg, INITIAL, events, d, Declined) ==>
      LettersOf(s.letters, d) == Unit(s.polls, d)
  }

  lemma SinglesAreKept(cfg: Config, events: seq<Event>, d: Delivery)
    requires Sensible(cfg) && cfg.deadLetters && !cfg.batch
    ensures KeepsAll(cfg, events, d)
  {
    var s := Run(cfg, INITIAL, events);
    if Past(s.polls, d) && Happened(cfg, INITIAL, events, d, Declined) {
      RunLetters(cfg, events, d);
      HistoryIsWhatHappened(cfg, INITIAL, events, d, Declined);
      RunSingles(cfg, events);
      RunSound(cfg, events);
      var unit := Unit(s.polls, d);
      assert unit == [unit[0]];
    }
  }

  const REFUSED_BATCH := [Message(1, ""), Message(2, "")]

  function Before(): seq<Event> {
    [Arrive(REFUSED_BATCH)] + [Start(0)] + [Enter(0, 0, true)]
  }

  /** A batch of two messages arrives, is refused, and is settled. */
  function RefusedRun(): seq<Event> {
    Before() + [Validated(0, Invalid)] + [DeadLettered(0)] + [Settle(0)]
  }

  predicate Refusing(cfg: Config) {
    Sensible(cfg) && cfg.batch && cfg.validates && cfg.deadLetters
  }

  /** The only poll of the run, at the place where its batch has a permit. */
  ghost predicate BatchIn(s: State, phase: Phase, letters: seq<Letter>) {
    s.polls == [Poll([REFUSED_BATCH], 0, phase)] && s.letters == letters && s.sem.queue == []
  }

  lemma BatchAdmitted(cfg: Config)
    requires Refusing(cfg)
    ensures BatchIn(Run(cfg, INITIAL, [Arrive(REFUSED_BATCH)] + [Start(0)]), Admitted, [])
  {
    var arrive := Arrive(REFUSED_BATCH);
    RunSnoc(cfg, INITIAL, [], arrive);
    assert [] + [arrive] == [arrive];
    RunSnoc(cfg, INITIAL, [arrive], Start(0));
  }

  lemma BatchAsksValidator(cfg: Config, s: State)
    requires Refusing(cfg) && BatchIn(s, Admitted, [])
    ensures BatchIn(Step(cfg, s, Enter(0, 0, true)), Validating, [])
  {
  }

  lemma BatchRefused(cfg: Config, s: State)
    requires Refusing(cfg) && BatchIn(s, Validating, [])
    ensures BatchIn(Step(cfg, s, Validated(0, Invalid)), DeadLettering,
                    [Letter(Backpressure.Delivery(0, 0), Message(1, ""))])
    ensures FactOf(cfg, s, Validated(0, Invalid), Backpressure.Delivery(0, 0)) == Some(Declined)
  {
  }

  lemma BatchSettled(cfg: Config, s: State, letters: seq<Letter>)
    requires Refusing(cfg) && BatchIn(s, DeadLettering, letters)
    ensures var t := Step(cfg, Step(cfg, s, DeadLettered(0)), Settle(0));
            t.polls == [Poll([REFUSED_BATCH], 1, Idle)] && t.letters == letters
  {
  }

  lemma RefusedRunEnds(cfg: Config)
    requires Refusing(cfg)
    ensures var s := Run(cfg, INITIAL, RefusedRun());
            && s.polls == [Poll([REFUSED_BATCH], 1, Idle)]
            && s.letters == [Letter(Backpressure.Delivery(0, 0), Message(1, ""))]
    ensures Happened(cfg, INITIAL, RefusedRun(), Backpressure.Delivery(0, 0), Declined)
  {
    var refuse := Validated(0, Invalid);
    var two := [Arrive(REFUSED_BATCH)] + [Start(0)];
    BatchAdmitted(cfg);
    RunSnoc(cfg, INITIAL, two, Enter(0, 0, true));
    BatchAsksValidator(cfg, Run(cfg, INITIAL, two));
    var s := Run(cfg, INITIAL, Before());
    RunSnoc(cfg, INITIAL, Before(), refuse);
    BatchRefused(cfg, s);
    RunSnoc(cfg, INITIAL, Before() + [refuse], DeadLettered(0));
    RunSnoc(cfg, INITIAL, Before() + [refuse] + [DeadLettered(0)], Settle(0));
    BatchSettled(cfg, Step(cfg, s, refuse), [Letter(Backpressure.Delivery(0, 0), Message(1, ""))]);
    assert RefusedRun()[..3] == Before() && RefusedRun()[3] == refuse;
  }

  /** Under every configuration with batches, a validator and a dead-letter channel there is a
      run in which the second message of a poll is acknowledged, although it was neither handled
      nor dead-lettered. */
  lemma RefusedBatchLosesMessages(cfg: Config)
    requires Refusing(cfg) && !cfg.manualAck
    ensures var s, d := Run(cfg, INITIAL, RefusedRun()), Backpressure.Delivery(0, 0);
            && Unit(s.polls, d) == REFUSED_BATCH
            && Settlements(s.calls, d, 1) == [true]
            && d !in s.handled
            && LettersOf(s.letters, d) == [REFUSED_BATCH[0]]
  {
    RefusedRunEnds(cfg);
    RefusedUnitKeepsOnlyItsLead(cfg, RefusedRun(), Backpressure.Delivery(0, 0), 1);
  }

  lemma RefusedBatchNotKept(cfg: Config)
    requires Refusing(cfg)
    ensures !KeepsAll(cfg, RefusedRun(), Backpressure.Delivery(0, 0))
  {
    var s, d := Run(cfg, INITIAL, RefusedRun()), Backpressure.Delivery(0, 0);
    RefusedRunEnds(cfg);
    RunLetters(cfg, RefusedRun(), d);
    assert Unit(s.polls, d) == REFUSED_BATCH && |LettersOf(s.letters, d)| <= 1;
  }

  /** Every refused message is dead-lettered in every run if and only if the handler does not
      take batches. */
  lemma DeadLettersEveryMessageIffSingle(cfg: Config)
    requires Sensible(cfg) && cfg.validates && cfg.deadLetters
    ensures DeadLettersEveryMessage(cfg) <==> !cfg.batch
  {
    if cfg.batch {
      RefusedBatchNotKept(cfg);
    } else {
      forall events, d ensures KeepsAll(cfg, events, d) {
        SinglesAreKept(cfg, events, d);
      }
    }
  }
}
