/** Handler runs, verdicts, settlements and the keys that the cache learns. */
module QueueSettlement {
  import opened Sequences
  import opened QueuePipeline
  import opened QueueInvariants
  import Idempotency

  // ------------------------------------------------------------ handler runs and verdicts

  ghost predicate HandledOnce(s: State) {
    && Distinct(s.handled)
    && (forall d :: d in s.handled ==>
          Past(s.polls, d) || (AtPos(s.polls, d) && Ran(s.polls[d.poll].phase)))
    && (forall d :: d in s.succeeded ==>
          d in s.handled
          && (Past(s.polls, d) || (AtPos(s.polls, d) && s.polls[d.poll].phase == Settling(Succeeded))))
    && (forall p :: 0 <= p < |s.polls| && s.polls[p].phase == Settling(Succeeded) ==>
          Current(s, p) in s.succeeded)
  }

  /** The verdict of a finished unit tells what happened to it. */
  predicate Honest(s: State, d: Delivery, verdict: Verdict) {
    && (verdict == Succeeded <==> d in s.succeeded)
    && (verdict == Duplicate || verdict == Refused ==> d !in s.handled)
  }

  ghost predicate VerdictsHonest(s: State) {
    |s.results| == |s.finished|
    && forall i :: 0 <= i < |s.finished| ==> Honest(s, s.finished[i], s.results[i].verdict)
  }

  predicate ReadyToFinish(s: State, p: nat, verdict: Verdict) {
    p < |s.polls|
    && (s.polls[p].phase == Settling(verdict) || (s.polls[p].phase == Admitted && verdict == Failed))
  }

  lemma FinishHandledOnce(cfg: Config, s: State, p: nat, verdict: Verdict)
    requires HandledOnce(s) && WaitersConsistent(cfg, s) && ReadyToFinish(s, p, verdict)
    ensures HandledOnce(Finish(cfg, s, p, verdict))
  {
    var t := Finish(cfg, s, p, verdict);
    if s.sem.queue != [] {
      assert s.sem.queue[0] in s.sem.queue;
    }
    assert forall q :: 0 <= q < |t.polls| && t.polls[q].phase == Settling(Succeeded) ==>
        q != p && t.polls[q] == s.polls[q];
  }

  lemma FinishVerdictsHonest(cfg: Config, s: State, p: nat, verdict: Verdict)
    requires VerdictsHonest(s) && HandledOnce(s) && ReadyToFinish(s, p, verdict)
    ensures VerdictsHonest(Finish(cfg, s, p, verdict))
  {
    var t := Finish(cfg, s, p, verdict);
    assert Honest(s, Current(s, p), verdict);
    forall i | 0 <= i < |t.finished| ensures Honest(t, t.finished[i], t.results[i].verdict) {
      if i < |s.finished| {
        assert Honest(s, s.finished[i], s.results[i].verdict);
      }
    }
  }

  /** What an inner event may log: that the handler starts, or that it succeeded. */
  predicate InnerLogs(s: State, t: State, p: nat)
    requires p < |s.polls| && p < |t.polls|
  {
    var d, before, after := Current(s, p), s.polls[p].phase, t.polls[p].phase;
    && (|| (t.handled == s.handled + [d] && after == Handling && !Ran(before))
        || (t.handled == s.handled && (Ran(before) ==> Ran(after)) && (after == Handling ==> before == Handling)))
    && (|| (t.succeeded == s.succeeded + [d] && before == Handling && after == Settling(Succeeded))
        || (t.succeeded == s.succeeded && (after == Settling(Succeeded) <==> before == Settling(Succeeded))))
  }

  lemma InnerEventLogs(cfg: Config, s: State, e: Event)
    requires Inner(s, e)
    ensures var t := Step(cfg, s, e); e.poll < |t.polls| && InnerLogs(s, t, e.poll)
  {
  }

  ghost predicate OnlyPollMoves(s: State, t: State, p: nat) {
    && p < |s.polls| && SamePlaces(s.polls, t.polls)
    && (forall q :: 0 <= q < |s.polls| && q != p ==> t.polls[q] == s.polls[q])
  }

  ghost predicate HandlingKnown(s: State) {
    forall p :: 0 <= p < |s.polls| && s.polls[p].phase == Handling ==> Current(s, p) in s.handled
  }

  lemma InnerHandledOnce(s: State, t: State, p: nat)
    requires HandledOnce(s) && HandlingKnown(s) && OnlyPollMoves(s, t, p) && InnerLogs(s, t, p)
    ensures HandledOnce(t)
    ensures HandlingKnown(t)
  {
    var d := Current(s, p);
    assert forall x :: Past(t.polls, x) <==> Past(s.polls, x);
    assert forall q :: 0 <= q < |s.polls| ==> Current(t, q) == Current(s, q);
    if t.handled != s.handled {
      assert d !in s.handled;
      assert forall x :: x in t.handled <==> x in s.handled || x == d;
    }
    assert forall x :: x in t.succeeded ==> x in s.succeeded || (x == d && t.polls[p].phase == Settling(Succeeded));
    assert forall x :: x in s.succeeded ==> x in t.succeeded;
    assert t.polls[p].phase == Settling(Succeeded) ==> d in t.succeeded;
  }

  lemma InnerVerdictsHonest(s: State, t: State, p: nat)
    requires VerdictsHonest(s) && FinishedOnce(s) && OnlyPollMoves(s, t, p) && InnerLogs(s, t, p)
    requires t.finished == s.finished && t.results == s.results
    ensures VerdictsHonest(t)
  {
    var d := Current(s, p);
    assert !Past(s.polls, d);
    forall i | 0 <= i < |t.finished| ensures Honest(t, t.finished[i], t.results[i].verdict) {
      assert s.finished[i] in s.finished && s.finished[i] != d;
      assert Honest(s, s.finished[i], s.results[i].verdict);
    }
  }

  lemma FinishHandlingKnown(cfg: Config, s: State, p: nat, verdict: Verdict)
    requires HandlingKnown(s) && p < |s.polls|
    ensures HandlingKnown(Finish(cfg, s, p, verdict))
  {
    var t := Finish(cfg, s, p, verdict);
    assert forall q :: 0 <= q < |t.polls| && t.polls[q].phase == Handling ==> t.polls[q] == s.polls[q];
  }

  lemma StepHandledOnce(cfg: Config, s: State, e: Event)
    requires HandledOnce(s) && HandlingKnown(s) && WaitersConsistent(cfg, s)
    ensures HandledOnce(Step(cfg, s, e)) && HandlingKnown(Step(cfg, s, e))
  {
    StepShape(cfg, s, e);
    InnerShape(cfg, s, e);
    if Finishes(s, e) {
      FinishHandledOnce(cfg, s, e.poll, FinishVerdict(s, e));
      FinishHandlingKnown(cfg, s, e.poll, FinishVerdict(s, e));
    } else if Inner(s, e) {
      InnerEventLogs(cfg, s, e);
      InnerHandledOnce(s, Step(cfg, s, e), e.poll);
    } else if e.Start? && InPhase(s, e.poll, Idle) {
      BeginHandledOnce(cfg, s, e.poll);
    }
  }

  lemma BeginHandledOnce(cfg: Config, s: State, p: nat)
    requires HandledOnce(s) && HandlingKnown(s) && InPhase(s, p, Idle)
    ensures HandledOnce(Begin(cfg, s, p)) && HandlingKnown(Begin(cfg, s, p))
  {
    var t := Begin(cfg, s, p);
    assert forall x :: Past(t.polls, x) <==> Past(s.polls, x);
    assert forall q :: 0 <= q < |s.polls| && q != p ==> t.polls[q] == s.polls[q];
  }

  lemma StepVerdictsHonest(cfg: Config, s: State, e: Event)
    requires VerdictsHonest(s) && HandledOnce(s) && FinishedOnce(s)
    ensures VerdictsHonest(Step(cfg, s, e))
  {
    StepShape(cfg, s, e);
    InnerShape(cfg, s, e);
    var t := Step(cfg, s, e);
    if Finishes(s, e) {
      FinishVerdictsHonest(cfg, s, e.poll, FinishVerdict(s, e));
    } else if Inner(s, e) {
      InnerEventLogs(cfg, s, e);
      InnerVerdictsHonest(s, t, e.poll);
    } else {
      assert t.handled == s.handled && t.succeeded == s.succeeded && t.finished == s.finished;
      forall i | 0 <= i < |t.finished| ensures Honest(t, t.finished[i], t.results[i].verdict) {
        assert Honest(s, s.finished[i], s.results[i].verdict);
      }
    }
  }

  // ------------------------------------------------------------ settlement calls

  function AllCalls(cfg: Config, finished: seq<Delivery>, results: seq<Result>): seq<Call>
    requires |finished| == |results|
  {
    if finished == [] then [] else
      var n := |finished| - 1;
      AllCalls(cfg, finished[..n], results[..n]) + CallsFor(cfg, finished[n], results[n])
  }

  ghost predicate CallsAccounted(cfg: Config, s: State) {
    |s.results| == |s.finished| && s.calls == AllCalls(cfg, s.finished, s.results)
  }

  lemma StepCalls(cfg: Config, s: State, e: Event)
    requires CallsAccounted(cfg, s)
    ensures CallsAccounted(cfg, Step(cfg, s, e))
  {
    StepShape(cfg, s, e);
    var t := Step(cfg, s, e);
    if Finishes(s, e) {
      assert t.finished[..|s.finished|] == s.finished;
      assert t.results[..|s.results|] == s.results;
    }
  }

  /** The settlements that one message received, in order: true for `ack`, false for `nack`. */
  function Settlements(calls: seq<Call>, d: Delivery, message: nat): seq<bool> {
    if calls == [] then [] else
      var c := calls[|calls| - 1];
      Settlements(calls[..|calls| - 1], d, message)
        + if c.delivery == d && c.message == message then [c.ack] else []
  }

  lemma {:induction false} SettlementsAppend(a: seq<Call>, b: seq<Call>, d: Delivery, message: nat)
    ensures Settlements(a + b, d, message) == Settlements(a, d, message) + Settlements(b, d, message)
  {
    if b == [] {
      assert a + b == a;
    } else {
      var n := |b| - 1;
      assert (a + b)[..|a + b| - 1] == a + b[..n];
      SettlementsAppend(a, b[..n], d, message);
    }
  }

  lemma SettlementsSnoc(calls: seq<Call>, c: Call, d: Delivery, message: nat)
    ensures Settlements(calls + [c], d, message) ==
            Settlements(calls, d, message) + if c.delivery == d && c.message == message then [c.ack] else []
  {
    assert (calls + [c])[..|calls|] == calls;
  }

  lemma {:induction false} RepeatSettles(who: Delivery, n: nat, ack: bool, d: Delivery, message: nat)
    ensures Settlements(Repeat(who, n, ack), d, message) == if who == d && message < n then [ack] else []
  {
    if n > 0 {
      RepeatSettles(who, n - 1, ack, d, message);
      SettlementsSnoc(Repeat(who, n - 1, ack), Call(who, n - 1, ack), d, message);
    }
  }

  lemma CallsForSettle(cfg: Config, who: Delivery, r: Result, d: Delivery, message: nat)
    ensures Settlements(CallsFor(cfg, who, r), d, message) ==
            if cfg.manualAck || who != d || message >= r.size then [] else [r.verdict != Failed]
  {
    RepeatSettles(who, r.size, r.verdict != Failed, d, message);
  }

  lemma {:induction false} AllCallsSkip(
    cfg: Config, finished: seq<Delivery>, results: seq<Result>, d: Delivery, message: nat)
    requires |finished| == |results| && d !in finished
    ensures Settlements(AllCalls(cfg, finished, results), d, message) == []
  {
    if finished != [] {
      var n := |finished| - 1;
      assert finished == finished[..n] + [finished[n]];
      AllCallsSkip(cfg, finished[..n], results[..n], d, message);
      CallsForSettle(cfg, finished[n], results[n], d, message);
      SettlementsAppend(AllCalls(cfg, finished[..n], results[..n]), CallsFor(cfg, finished[n], results[n]), d, message);
    }
  }

  lemma {:induction false} AllCallsSettle(
    cfg: Config, finished: seq<Delivery>, results: seq<Result>, i: nat, message: nat)
    requires |finished| == |results| && Distinct(finished) && i < |finished|
    ensures Settlements(AllCalls(cfg, finished, results), finished[i], message) ==
            if cfg.manualAck || message >= results[i].size then [] else [results[i].verdict != Failed]
  {
    var n := |finished| - 1;
    SettlementsAppend(
      AllCalls(cfg, finished[..n], results[..n]), CallsFor(cfg, finished[n], results[n]), finished[i], message);
    CallsForSettle(cfg, finished[n], results[n], finished[i], message);
    if i == n {
      AllCallsSkip(cfg, finished[..n], results[..n], finished[n], message);
    } else {
      AllCallsSettle(cfg, finished[..n], results[..n], i, message);
    }
  }

  // ------------------------------------------------------------ the keys in the cache

  /** The cache knows only keys of units whose handler succeeded. */
  ghost predicate KeysRecorded(s: State) {
    && Idempotency.WellFormed(s.cache)
    && forall k :: k in s.cache.entries ==> Vouched(s, k)
  }

  ghost predicate Vouched(s: State, key: string) {
    exists d :: d in s.succeeded && LeadKey(s.polls, d) == key
  }

  /** Units never change: later polls only add to them. */
  ghost predicate UnitsKept(a: seq<Poll>, b: seq<Poll>) {
    |a| <= |b| && forall p :: 0 <= p < |a| ==> a[p].units == b[p].units
  }

  lemma StepKeepsUnits(cfg: Config, s: State, e: Event)
    ensures UnitsKept(s.polls, Step(cfg, s, e).polls)
  {
    StepShape(cfg, s, e);
    if Finishes(s, e) {
      WakePlaces(Advance(s.polls, e.poll), s.sem.queue);
    }
  }

  lemma VouchedKept(s: State, t: State, key: string)
    requires Vouched(s, key) && UnitsKept(s.polls, t.polls)
    requires forall d :: d in s.succeeded ==> d in t.succeeded && d.poll < |s.polls|
    ensures Vouched(t, key)
  {
    var d :| d in s.succeeded && LeadKey(s.polls, d) == key;
    assert LeadKey(t.polls, d) == key;
  }

  /** The three things an event can do to the cache. */
  lemma StepCache(cfg: Config, s: State, e: Event)
    ensures var t := Step(cfg, s, e);
            || t.cache == s.cache
            || (e.Enter? && InPhase(s, e.poll, Admitted) && cfg.dedup.Some?
                && var key := LeadKey(s.polls, Current(s, e.poll));
                   t.cache == Idempotency.Lookup(s.cache, e.now, key))
            || (e.Returned? && InPhase(s, e.poll, Handling) && cfg.dedup.Some?
                && var key := LeadKey(s.polls, Current(s, e.poll));
                   key != "" && t.succeeded == s.succeeded + [Current(s, e.poll)]
                   && t.cache == Idempotency.Insert(cfg.dedup.value, s.cache, e.now, key))
  {
  }

  lemma StepSucceeded(cfg: Config, s: State, e: Event)
    ensures s.succeeded <= Step(cfg, s, e).succeeded
    ensures s.handled <= Step(cfg, s, e).handled
  {
  }

  lemma StepKeysRecorded(cfg: Config, s: State, e: Event)
    requires KeysRecorded(s) && HandledOnce(s)
    ensures KeysRecorded(Step(cfg, s, e))
  {
    var t := Step(cfg, s, e);
    StepCache(cfg, s, e);
    StepSucceeded(cfg, s, e);
    StepKeepsUnits(cfg, s, e);
    if t.cache != s.cache && e.Returned? {
      Idempotency.ApplyShape(cfg.dedup.value, s.cache, Idempotency.Add(e.now, LeadKey(s.polls, Current(s, e.poll))));
      Idempotency.EvictShape(cfg.dedup.value, s.cache);
    }
    forall k | k in t.cache.entries ensures Vouched(t, k) {
      if k in s.cache.entries {
        VouchedKept(s, t, k);
      } else {
        var d := Current(s, e.poll);
        assert t.succeeded[|s.succeeded|] == d;
        assert d in t.succeeded && LeadKey(t.polls, d) == k;
      }
    }
  }
}
