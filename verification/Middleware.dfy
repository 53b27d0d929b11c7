/**
 What happens to a message that is not a queue message: validation, the retry loop, the
 dead-letter channel, and for requests the reply.
 */
module Middleware {
  import opened Constants
  import opened Options

  /** Queue messages are not retried here. */
  type DirectPattern = t: PatternType | t != Queue witness Command

  datatype Error = Error(name: string, message: string)

  /** `undefined` is None. */
  type Value = Option<nat>

  datatype Outcome = Returned(value: Value) | Threw(error: Error)

  datatype Validation = NotConfigured | Valid | Invalid(error: Error) | ValidatorThrew(error: Error)

  /** An absent dead-letter channel is the empty string. */
  datatype Metadata = Metadata(maxRetries: Option<int>, deadLetterChannel: string)

  /** What the binding hands on; only a request has a reply channel. */
  datatype Message = Message(
    channel: string,
    id: string,
    replyChannel: string,
    patternType: DirectPattern,
    body: seq<bv8>)

  // ------------------------------------------------------------------ dead letters

  datatype Route = Route(
    sourceChannel: string,
    dlqChannel: string,
    patternType: PatternType,
    messageId: string,
    body: seq<bv8>,
    retryCount: int,
    error: Error)

  datatype DeadLetter = DeadLetter(
    channel: string,
    dlqChannel: string,
    messageId: string,
    error: string,
    retryCount: int,
    sendError: Option<string>)

  /** What the broker does with the message for the dead-letter channel. */
  datatype SendResult = NoClient | Sent | SendFailed(message: string)

  /** The time at which a route is taken, as text, and what becomes of it. */
  datatype Sending = Sending(timestamp: string, result: SendResult)

  /** A message for the dead-letter channel. */
  datatype Parcel = Parcel(channel: string, body: seq<bv8>, tags: map<string, string>)

  datatype Dlq = Dlq(routedCount: nat, sends: seq<Parcel>, events: seq<DeadLetter>)

  const NOT_CONNECTED := "KubeMQ client not connected \U{2014} cannot send to DLQ"

  function SendErrorOf(result: SendResult): Option<string> {
    match result
    case NoClient => Some(NOT_CONNECTED)
    case Sent => None
    case SendFailed(message) => Some(message)
  }

  const DIGITS := "0123456789"

  function Digits(n: nat): string {
    if n < 10 then [DIGITS[n]] else Digits(n / 10) + [DIGITS[n % 10]]
  }

  function Decimal(n: int): string {
    if n < 0 then "-" + Digits(-n) else Digits(n)
  }

  /** The number that the digits stand for. */
  function NumberOf(text: string): int {
    if text == "" then 0
    else 10 * NumberOf(text[..|text| - 1]) + (text[|text| - 1] as int - '0' as int)
  }

  lemma DigitIs(n: nat)
    requires n < 10
    ensures '0' <= DIGITS[n] <= '9' && DIGITS[n] as int - '0' as int == n
  {
  }

  /** `Digits` is the decimal numeral: only digits, standing for the number, without a leading
      zero except for zero itself. */
  lemma DecimalStandsFor(n: int)
    ensures n >= 0 ==> NumberOf(Decimal(n)) == n && Decimal(n)[0] != '-'
    ensures n < 0 ==> Decimal(n)[0] == '-' && NumberOf(Decimal(n)[1..]) == -n
  {
    var k: nat := if n < 0 then -n else n;
    DigitsStandFor(k);
    assert Digits(k)[0] in Digits(k);
  }

  lemma {:induction false} DigitsStandFor(n: nat)
    ensures forall c :: c in Digits(n) ==> '0' <= c <= '9'
    ensures NumberOf(Digits(n)) == n
    ensures Digits(n) != "" && (n > 0 ==> Digits(n)[0] != '0')
  {
    if n < 10 {
      DigitIs(n);
      assert Digits(n)[..0] == "";
    } else {
      DigitsStandFor(n / 10);
      DigitIs(n % 10);
      assert Digits(n)[..|Digits(n)| - 1] == Digits(n / 10);
    }
  }

  function DlqTags(r: Route, timestamp: string): map<string, string> {
    map["x-dlq-source-channel" := r.sourceChannel,
        "x-dlq-source-pattern-type" := PatternName(r.patternType),
        "x-dlq-source-id" := r.messageId,
        "x-dlq-failure-reason" := r.error.message,
        "x-dlq-retry-count" := Decimal(r.retryCount),
        "x-dlq-timestamp" := timestamp]
  }

  function Packed(r: Route, timestamp: string): Parcel {
    Parcel(r.dlqChannel, r.body, DlqTags(r, timestamp))
  }

  function EventOf(r: Route, result: SendResult): DeadLetter {
    DeadLetter(r.sourceChannel, r.dlqChannel, r.messageId, r.error.message, r.retryCount, SendErrorOf(result))
  }

  function Routed(d: Dlq, r: Route, sending: Sending): Dlq {
    Dlq(
      if sending.result == Sent then d.routedCount + 1 else d.routedCount,
      if sending.result == NoClient then d.sends else d.sends + [Packed(r, sending.timestamp)],
      d.events + [EventOf(r, sending.result)])
  }

  function RoutedAll(routes: seq<(Route, Sending)>): Dlq {
    if routes == [] then Dlq(0, [], []) else
      var last := routes[|routes| - 1];
      Routed(RoutedAll(routes[..|routes| - 1]), last.0, last.1)
  }

  function Unsent(events: seq<DeadLetter>): nat {
    if events == [] then 0 else
      Unsent(events[..|events| - 1]) + if events[|events| - 1].sendError.Some? then 1 else 0
  }

  /** The event tells the story of the call. */
  predicate Reports(event: DeadLetter, r: Route) {
    event.channel == r.sourceChannel && event.dlqChannel == r.dlqChannel && event.messageId == r.messageId
    && event.error == r.error.message && event.retryCount == r.retryCount
  }

  /** No error exactly for a message that was sent, and else the right one. */
  predicate ToldError(event: DeadLetter, result: SendResult) {
    && (event.sendError == None <==> result == Sent)
    && (result.SendFailed? ==> event.sendError == Some(result.message))
    && (result.NoClient? ==> event.sendError == Some("KubeMQ client not connected \U{2014} cannot send to DLQ"))
  }

  /** The parcel holds the original body and says where it comes from, and when. */
  predicate Identifies(parcel: Parcel, r: Route, timestamp: string) {
    && parcel.channel == r.dlqChannel && parcel.body == r.body
    && Tagged(parcel, "x-dlq-source-channel", r.sourceChannel)
    && Tagged(parcel, "x-dlq-source-id", r.messageId)
    && Tagged(parcel, "x-dlq-failure-reason", r.error.message)
    && Tagged(parcel, "x-dlq-retry-count", Decimal(r.retryCount))
    && Tagged(parcel, "x-dlq-source-pattern-type", PatternName(r.patternType))
    && Tagged(parcel, "x-dlq-timestamp", timestamp)
  }

  predicate Tagged(parcel: Parcel, key: string, value: string) {
    key in parcel.tags && parcel.tags[key] == value
  }

  lemma DlqTagsIdentify(r: Route, timestamp: string)
    ensures Identifies(Packed(r, timestamp), r, timestamp)
  {
    var keys := ["x-dlq-source-channel", "x-dlq-source-pattern-type", "x-dlq-source-id",
                 "x-dlq-failure-reason", "x-dlq-retry-count", "x-dlq-timestamp"];
    assert |keys[0]| == 20 && |keys[1]| == 25 && |keys[2]| == 15;
    assert |keys[3]| == 20 && |keys[4]| == 17 && |keys[5]| == 15;
    assert keys[0][6] != keys[3][6] && keys[2][6] != keys[5][6];
  }

  lemma {:induction false} UnsentCounted(routes: seq<(Route, Sending)>)
    ensures var d := RoutedAll(routes);
            |d.events| == |routes| && d.routedCount + Unsent(d.events) == |routes| && d.routedCount <= |d.sends|
  {
    if routes != [] {
      UnsentCounted(routes[..|routes| - 1]);
      assert RoutedAll(routes).events[..|routes| - 1] == RoutedAll(routes[..|routes| - 1]).events;
    }
  }

  lemma {:induction false} EventAt(routes: seq<(Route, Sending)>, i: nat)
    requires i < |routes| == |RoutedAll(routes).events|
    ensures RoutedAll(routes).events[i] == EventOf(routes[i].0, routes[i].1.result)
  {
    var n := |routes| - 1;
    UnsentCounted(routes[..n]);
    assert RoutedAll(routes).events == RoutedAll(routes[..n]).events + [EventOf(routes[n].0, routes[n].1.result)];
    if i < n {
      EventAt(routes[..n], i);
    }
  }

  lemma EventReports(r: Route, result: SendResult)
    ensures Reports(EventOf(r, result), r)
    ensures ToldError(EventOf(r, result), result)
  {
  }

  /** Over any history every call emitted one event about its own message, and the events
      without a send error are exactly as many as the messages counted as routed. */
  lemma DeadLettersAccounted(routes: seq<(Route, Sending)>)
    ensures var d := RoutedAll(routes);
            && |d.events| == |routes|
            && d.routedCount + Unsent(d.events) == |routes|
            && d.routedCount <= |d.sends|
            && (forall i :: 0 <= i < |routes| ==>
                  Reports(d.events[i], routes[i].0)
                  && ToldError(d.events[i], routes[i].1.result))
  {
    UnsentCounted(routes);
    forall i | 0 <= i < |routes|
      ensures Reports(RoutedAll(routes).events[i], routes[i].0)
      ensures ToldError(RoutedAll(routes).events[i], routes[i].1.result)
    {
      EventAt(routes, i);
      EventReports(routes[i].0, routes[i].1.result);
    }
  }

  /** The calls that found a client. */
  function Posted(routes: seq<(Route, Sending)>): nat {
    if routes == [] then 0 else
      Posted(routes[..|routes| - 1]) + if routes[|routes| - 1].1.result == NoClient then 0 else 1
  }

  lemma {:induction false} PostedMonotone(routes: seq<(Route, Sending)>, i: nat)
    requires i < |routes| && routes[i].1.result != NoClient
    ensures Posted(routes[..i]) < Posted(routes)
  {
    var n := |routes| - 1;
    if i < n {
      PostedMonotone(routes[..n], i);
      assert routes[..n][..i] == routes[..i];
    }
  }

  lemma {:induction false} SendsCounted(routes: seq<(Route, Sending)>)
    ensures |RoutedAll(routes).sends| == Posted(routes)
  {
    if routes != [] {
      SendsCounted(routes[..|routes| - 1]);
    }
  }

  /** Every call that finds a client sends exactly one parcel, in the order of the calls, with
      the original body and the tags of its own message; a call without a client sends nothing. */
  lemma {:induction false} ParcelsIdentifyTheirMessage(routes: seq<(Route, Sending)>, i: nat)
    requires i < |routes| && routes[i].1.result != NoClient
    ensures var sends, k := RoutedAll(routes).sends, Posted(routes[..i]);
            && k < |sends| == Posted(routes)
            && Identifies(sends[k], routes[i].0, routes[i].1.timestamp)
  {
    var n := |routes| - 1;
    SendsCounted(routes);
    SendsCounted(routes[..n]);
    PostedMonotone(routes, i);
    if i < n {
      ParcelsIdentifyTheirMessage(routes[..n], i);
      assert routes[..n][..i] == routes[..i];
    } else {
      DlqTagsIdentify(routes[n].0, routes[n].1.timestamp);
    }
  }

  // ------------------------------------------------------------------ the retry loop

  function ResolveMaxRetries(m: Metadata): int {
    if m.maxRetries.Some? then m.maxRetries.value
    else if m.deadLetterChannel != "" then 3
    else 0
  }

  /** How often the handler may run: not at all if `maxRetries` is negative. */
  function Tries(m: Metadata): nat {
    if ResolveMaxRetries(m) < 0 then 0 else ResolveMaxRetries(m) + 1
  }

  /** The first attempt before n that succeeds, or n. */
  function FirstSuccess(attempts: nat -> Outcome, n: nat): (k: nat)
    ensures k <= n
    ensures forall i :: 0 <= i < k ==> attempts(i).Threw?
    ensures k < n ==> attempts(k).Returned?
  {
    if n == 0 then 0 else
      var k := FirstSuccess(attempts, n - 1);
      if k < n - 1 then k
      else if attempts(n - 1).Returned? then n - 1
      else n
  }

  lemma FirstSuccessIsFirst(attempts: nat -> Outcome, n: nat, k: nat)
    requires k < n && attempts(k).Returned?
    requires forall i :: 0 <= i < k ==> attempts(i).Threw?
    ensures FirstSuccess(attempts, n) == k
  {
    var f := FirstSuccess(attempts, n);
    assert f == n || attempts(f).Returned?;
  }

  /** The result of the middleware, how often the handler ran, and what was dead-lettered. */
  datatype Execution = Execution(result: Outcome, runs: nat, route: Option<Route>)

  function RouteOf(msg: Message, m: Metadata, retryCount: int, error: Error): Option<Route> {
    if m.deadLetterChannel == "" then None
    else Some(Route(msg.channel, m.deadLetterChannel, msg.patternType, msg.id, msg.body, retryCount, error))
  }

  /** The loop, as the attempt at which it stops. */
  function Retried(msg: Message, m: Metadata, attempts: nat -> Outcome): Execution {
    var n := Tries(m);
    var k := FirstSuccess(attempts, n);
    if n == 0 then Execution(Returned(None), 0, None)
    else if k < n then Execution(attempts(k), k + 1, None)
    else Execution(attempts(n - 1), n, RouteOf(msg, m, n - 1, attempts(n - 1).error))
  }

  predicate IsRequest(msg: Message) {
    msg.patternType == Command || msg.patternType == Query
  }

  function Executed(msg: Message, m: Metadata, validation: Validation, attempts: nat -> Outcome): Execution {
    match validation
    case ValidatorThrew(error) => Execution(Threw(error), 0, None)
    case Invalid(error) =>
      if IsRequest(msg) then Execution(Threw(error), 0, None)
      else Execution(Returned(None), 0, RouteOf(msg, m, 0, error))
    case _ => Retried(msg, m, attempts)
  }

  /** The handler runs up to its first success, at most maxRetries + 1 times; the result is
      that success, or else the last error is thrown again; and the original body goes to the
      dead-letter channel exactly when there is one and every attempt failed. */
  lemma RetriesStopAtFirstSuccess(msg: Message, m: Metadata, attempts: nat -> Outcome)
    requires ResolveMaxRetries(m) >= 0
    ensures var x := Retried(msg, m, attempts);
            && 1 <= x.runs <= ResolveMaxRetries(m) + 1
            && (forall i :: 0 <= i < x.runs - 1 ==> attempts(i).Threw?)
            && x.result == attempts(x.runs - 1)
            && (x.result.Returned? <==> exists i :: 0 <= i <= ResolveMaxRetries(m) && attempts(i).Returned?)
            && (x.result.Threw? ==> x.runs == ResolveMaxRetries(m) + 1)
            && (x.route.Some? <==> x.result.Threw? && m.deadLetterChannel != "")
            && (x.route.Some? ==>
                  x.route.value.body == msg.body && x.route.value.messageId == msg.id
                  && x.route.value.retryCount == ResolveMaxRetries(m)
                  && x.route.value.error == x.result.error)
  {
    var n := Tries(m);
    if i :| 0 <= i < n && attempts(i).Returned? {
      assert FirstSuccess(attempts, n) <= i;
    }
  }

  /** A message goes to the dead-letter channel exactly when there is one and the transport
      gives the message up: every allowed attempt of a valid message failed, or an event that
      needs no reply was refused by the validator.  The handler runs at all for a valid message,
      unless `maxRetries` is negative. */
  lemma DeadLetteredWhenGivenUp(msg: Message, m: Metadata, validation: Validation, attempts: nat -> Outcome)
    ensures var x := Executed(msg, m, validation, attempts);
            var valid := validation == NotConfigured || validation == Valid;
            && (x.route.Some? <==>
                  && m.deadLetterChannel != ""
                  && (|| (valid && ResolveMaxRetries(m) >= 0
                          && forall i :: 0 <= i <= ResolveMaxRetries(m) ==> attempts(i).Threw?)
                      || (validation.Invalid? && (msg.patternType == PlainEvent || msg.patternType == EventStore))))
            && (x.route.Some? ==> x.route.value.body == msg.body && x.route.value.dlqChannel == m.deadLetterChannel)
            && (x.runs > 0 <==> valid && ResolveMaxRetries(m) >= 0)
  {
    if ResolveMaxRetries(m) >= 0 {
      RetriesStopAtFirstSuccess(msg, m, attempts);
    }
  }

  /** The dead letter of a message is about that message: where it came from, which type of
      handler it was for, and its body; and it says why it was given up: after how many retries
      and with which error, the validator's without any retry. */
  lemma RouteIsAboutTheMessage(msg: Message, m: Metadata, validation: Validation, attempts: nat -> Outcome)
    requires Executed(msg, m, validation, attempts).route.Some?
    ensures var r := Executed(msg, m, validation, attempts).route.value;
            && r.sourceChannel == msg.channel && r.dlqChannel == m.deadLetterChannel
            && r.patternType == msg.patternType && r.messageId == msg.id && r.body == msg.body
            && (validation.Invalid? ==> r.retryCount == 0 && r.error == validation.error)
            && (!validation.Invalid? ==>
                  && r.retryCount == ResolveMaxRetries(m) >= 0
                  && attempts(r.retryCount) == Threw(r.error))
  {
    if ResolveMaxRetries(m) >= 0 {
      RetriesStopAtFirstSuccess(msg, m, attempts);
    }
  }

  /** An error comes out of the middleware exactly in three cases: the validator itself threw it,
      the validator refused a request with it, or all allowed attempts of a valid message failed
      and it is the last one's. */
  lemma ErrorsComeOut(
    msg: Message, m: Metadata, validation: Validation, attempts: nat -> Outcome, error: Error)
    ensures var retries := ResolveMaxRetries(m);
            Executed(msg, m, validation, attempts).result == Threw(error) <==>
              || validation == ValidatorThrew(error)
              || (validation == Invalid(error) && (msg.patternType == Command || msg.patternType == Query))
              || ((validation == NotConfigured || validation == Valid)
                  && retries >= 0 && attempts(retries) == Threw(error)
                  && forall i :: 0 <= i <= retries ==> attempts(i).Threw?)
  {
    if ResolveMaxRetries(m) >= 0 {
      RetriesStopAtFirstSuccess(msg, m, attempts);
    }
  }

  /** A message is lost without a trace, that is, its handler does not run and there is neither
      an error nor a dead letter, if and only if it is valid and `maxRetries` is negative, or it
      is an event that the validator refuses and there is no dead-letter channel. */
  lemma LostWithoutATraceIff(msg: Message, m: Metadata, validation: Validation, attempts: nat -> Outcome)
    ensures Executed(msg, m, validation, attempts) == Execution(Returned(None), 0, None) <==>
              || ((validation == NotConfigured || validation == Valid) && ResolveMaxRetries(m) < 0)
              || (validation.Invalid? && !IsRequest(msg) && m.deadLetterChannel == "")
  {
    if ResolveMaxRetries(m) >= 0 {
      RetriesStopAtFirstSuccess(msg, m, attempts);
    }
  }

  /** An explicit `maxRetries` is taken as it is: the handler of a message that always fails runs
      once more than that, and not at all if it is negative. */
  lemma ExplicitRetries(msg: Message, m: Metadata, attempts: nat -> Outcome, v: int)
    requires m.maxRetries == Some(v) && forall i :: attempts(i).Threw?
    ensures Retried(msg, m, attempts).runs == if v < 0 then 0 else v + 1
  {
    if v >= 0 {
      RetriesStopAtFirstSuccess(msg, m, attempts);
    }
  }

  /** The default: three retries with a dead-letter channel, none without. */
  lemma DefaultRetries(msg: Message, m: Metadata, attempts: nat -> Outcome)
    requires m.maxRetries.None? && forall i :: attempts(i).Threw?
    ensures Retried(msg, m, attempts).runs == if m.deadLetterChannel == "" then 1 else 4
  {
    RetriesStopAtFirstSuccess(msg, m, attempts);
  }

  // ------------------------------------------------------------------ replies

  /** An absent content type is the empty string. */
  datatype ServerOptions = ServerOptions(verbose: bool, clientId: string, contentType: string)

  datatype Response = Response(
    id: string,
    replyChannel: string,
    clientId: string,
    executed: bool,
    error: Option<string>,
    body: Value,
    tags: Option<map<string, string>>)

  const INTERNAL_ERROR := "Internal handler error"

  function Describe(e: Error): string {
    if e.name == "EmptyError" then "Handler completed without emitting a response"
    else if e.name == "TimeoutError" then "Handler timed out"
    else if e.message == "" then "Unknown handler error"
    else e.message
  }

  function Sanitized(verbose: bool, error: string): string {
    if verbose then error else INTERNAL_ERROR
  }

  /** What the environment does to one request. */
  datatype Request = Request(
    decodeError: Option<string>,
    serializeError: Option<string>,
    sends: nat -> Option<string>)

  function ReplyTags(o: ServerOptions, msg: Message): map<string, string> {
    var tags := map[TAG_PATTERN := msg.channel, TAG_ID := msg.id];
    if o.contentType != "" then tags[TAG_CONTENT_TYPE := o.contentType] else tags
  }

  function ErrorReply(o: ServerOptions, msg: Message, error: string): Response {
    Response(msg.id, msg.replyChannel, o.clientId, false, Some(Sanitized(o.verbose, error)), None, None)
  }

  function FirstReply(o: ServerOptions, msg: Message, result: Outcome): Response {
    var tags := Some(ReplyTags(o, msg));
    match result
    case Returned(value) => Response(msg.id, msg.replyChannel, o.clientId, true, None, value, tags)
    case Threw(error) =>
      Response(msg.id, msg.replyChannel, o.clientId, false, Some(Sanitized(o.verbose, Describe(error))), None, tags)
  }

  /** The calls of `sendResponse` for a request whose middleware yields `result`. */
  function Replies(o: ServerOptions, r: Request, msg: Message, result: Outcome): seq<Response> {
    if r.decodeError.Some? then
      [ErrorReply(o, msg, r.decodeError.value)]
    else if result.Returned? && result.value.Some? && r.serializeError.Some? then
      [ErrorReply(o, msg, r.serializeError.value)]
    else if r.sends(0).Some? then
      [FirstReply(o, msg, result), ErrorReply(o, msg, r.sends(0).value)]
    else
      [FirstReply(o, msg, result)]
  }

  /** A call of `sendResponse` that the broker took. */
  predicate Delivered(r: Request, replies: seq<Response>, i: nat) {
    i < |replies| && r.sends(i).None?
  }

  /** The reply reports on the handler; else it reports on something that went wrong around it. */
  predicate OnHandler(r: Request, result: Outcome, i: nat) {
    i == 0 && r.decodeError.None? && !(result.Returned? && result.value.Some? && r.serializeError.Some?)
  }

  /** Every request is answered by one or two calls, two exactly if the broker rejected a reply
      about the handler, so the broker takes at most one; the requester learns of a failure
      exactly when the reply is not a success, and sees its text only in verbose mode. */
  lemma RepliedAtMostOnce(o: ServerOptions, r: Request, msg: Message, result: Outcome, i: nat, j: nat)
    ensures var replies := Replies(o, r, msg, result);
            && 1 <= |replies| <= 2
            && (|replies| == 2 <==> OnHandler(r, result, 0) && r.sends(0).Some?)
            && (Delivered(r, replies, i) && Delivered(r, replies, j) ==> i == j)
            && (i < |replies| ==> (replies[i].executed <==> replies[i].error == None))
            && (i < |replies| && !o.verbose ==> replies[i].executed || replies[i].error == Some(INTERNAL_ERROR))
  {
  }

  /** Every reply is addressed to the request and names the client; a reply about the handler
      carries the transport's tags, with the content type exactly if there is one, and any other
      reply carries none. */
  lemma RepliesAreAddressed(o: ServerOptions, r: Request, msg: Message, result: Outcome, i: nat)
    requires i < |Replies(o, r, msg, result)|
    ensures var reply := Replies(o, r, msg, result)[i];
            && reply.id == msg.id && reply.replyChannel == msg.replyChannel && reply.clientId == o.clientId
            && (reply.tags.Some? <==> OnHandler(r, result, i))
            && (reply.tags.Some? ==>
                  && TaggedWith(reply.tags.value, "nestjs:pattern", Some(msg.channel))
                  && TaggedWith(reply.tags.value, "nestjs:id", Some(msg.id))
                  && TaggedWith(reply.tags.value, "nestjs:content-type",
                                if o.contentType == "" then None else Some(o.contentType))
                  && reply.tags.value.Keys <= {"nestjs:pattern", "nestjs:id", "nestjs:content-type"})
  {
    assert |TAG_PATTERN| == 14 && |TAG_ID| == 9 && |TAG_CONTENT_TYPE| == 19;
  }

  predicate TaggedWith(tags: map<string, string>, key: string, value: Option<string>) {
    if value.None? then key !in tags else key in tags && tags[key] == value.value
  }

  /** In verbose mode each failure has its text: the decoder's, the serializer's or the broker's,
      or the handler's own, with a fixed text for an error that has none. */
  lemma FailureTexts(o: ServerOptions, r: Request, msg: Message, result: Outcome, i: nat)
    requires o.verbose && i < |Replies(o, r, msg, result)|
    ensures var error := Replies(o, r, msg, result)[i].error;
            && (i == 1 ==> error == r.sends(0))
            && (i == 0 && r.decodeError.Some? ==> error == r.decodeError)
            && (i == 0 && r.decodeError.None? && !OnHandler(r, result, 0) ==> error == r.serializeError)
            && (OnHandler(r, result, i) && result.Returned? ==> error == None)
            && (OnHandler(r, result, i) && result.Threw? ==>
                  var e := result.error;
                  && (e.name == "EmptyError" ==> error == Some("Handler completed without emitting a response"))
                  && (e.name == "TimeoutError" ==> error == Some("Handler timed out"))
                  && (e.name != "EmptyError" && e.name != "TimeoutError" ==>
                        error == Some(if e.message == "" then "Unknown handler error" else e.message)))
  {
    assert |"EmptyError"| != |"TimeoutError"|;
  }

  /** The value of the first attempt that succeeded. */
  predicate IsFirstSuccess(m: Metadata, attempts: nat -> Outcome, k: nat) {
    k <= ResolveMaxRetries(m) && attempts(k).Returned? && forall j :: 0 <= j < k ==> attempts(j).Threw?
  }

  /** An executed reply carries exactly the value of the first attempt that succeeded, and none
      only if that value is undefined or no attempt was allowed.  Any other reply carries none. */
  lemma ReplyCarriesTheValue(
    o: ServerOptions, r: Request, msg: Message, m: Metadata,
    validation: Validation, attempts: nat -> Outcome, i: nat)
    requires IsRequest(msg)
    requires i < |Replies(o, r, msg, Executed(msg, m, validation, attempts).result)|
    ensures var reply := Replies(o, r, msg, Executed(msg, m, validation, attempts).result)[i];
            && (!reply.executed ==> reply.body == None)
            && (reply.executed && ResolveMaxRetries(m) < 0 ==> reply.body == None)
            && (reply.executed && ResolveMaxRetries(m) >= 0 ==>
                  exists k :: IsFirstSuccess(m, attempts, k) && reply.body == attempts(k).value)
  {
    if ResolveMaxRetries(m) >= 0 {
      RetriesStopAtFirstSuccess(msg, m, attempts);
      var x := Retried(msg, m, attempts);
      if x.result.Returned? {
        assert IsFirstSuccess(m, attempts, x.runs - 1);
      }
    }
  }

  /** A delivered reply says executed = true if and only if the body decoded, the message was
      valid, some allowed attempt succeeded (or none was allowed) and the result serialized.
      An error with an empty message is a failure like any other. */
  lemma ExecutedMeansHandled(
    o: ServerOptions, r: Request, msg: Message, m: Metadata,
    validation: Validation, attempts: nat -> Outcome, i: nat)
    requires IsRequest(msg)
    requires Delivered(r, Replies(o, r, msg, Executed(msg, m, validation, attempts).result), i)
    ensures var result := Executed(msg, m, validation, attempts).result;
            Replies(o, r, msg, result)[i].executed <==>
              && i == 0
              && r.decodeError.None?
              && (validation == NotConfigured || validation == Valid)
              && (ResolveMaxRetries(m) < 0 || exists k :: 0 <= k <= ResolveMaxRetries(m) && attempts(k).Returned?)
              && (r.serializeError.None? || result == Returned(None))
  {
    if ResolveMaxRetries(m) >= 0 {
      RetriesStopAtFirstSuccess(msg, m, attempts);
    }
  }

  // ------------------------------------------------------------------ the implementation

  class DlqHandler {
    var routedCount: nat
    var events: seq<DeadLetter>
    var sends: seq<Parcel>

    constructor ()
      ensures View() == RoutedAll([])
    {
      routedCount, events, sends := 0, [], [];
    }

    function View(): Dlq
      reads this
    {
      Dlq(routedCount, sends, events)
    }

    /** One event for each call, with a send error unless the message was routed. */
    method RouteToDlq(r: Route, sending: Sending)
      modifies this
      ensures View() == Routed(old(View()), r, sending)
      ensures |events| == |old(events)| + 1
      ensures events[|old(events)|].sendError.Some? <==> routedCount == old(routedCount)
    {
      var tags := DlqTags(r, sending.timestamp);
      var event := DeadLetter(r.sourceChannel, r.dlqChannel, r.messageId, r.error.message, r.retryCount, None);
      if sending.result == NoClient {
        events := events + [event.(sendError := Some(NOT_CONNECTED))];
        return;
      }
      sends := sends + [Parcel(r.dlqChannel, r.body, tags)];
      if sending.result == Sent {
        routedCount := routedCount + 1;
      } else {
        event := event.(sendError := Some(sending.result.message));
      }
      events := events + [event];
    }
  }

  class MessageExecutor {
    const dlq: DlqHandler
    const options: ServerOptions
    var runs: nat
    var responses: seq<Response>

    constructor (options: ServerOptions)
      ensures fresh(dlq) && this.options == options && runs == 0 && responses == []
    {
      dlq := new DlqHandler();
      this.options := options;
      runs, responses := 0, [];
    }

    ghost predicate RoutedAs(before: Dlq, route: Option<Route>, sending: Sending)
      reads dlq
    {
      dlq.View() == if route.None? then before else Routed(before, route.value, sending)
    }

    method RunWithRetries(msg: Message, m: Metadata, attempts: nat -> Outcome, sending: Sending)
      returns (outcome: Outcome)
      modifies this`runs, dlq
      ensures var x := Retried(msg, m, attempts);
              outcome == x.result && runs == old(runs) + x.runs && RoutedAs(old(dlq.View()), x.route, sending)
    {
      var maxRetries := ResolveMaxRetries(m);
      var lastError: Option<Error> := None;
      var attempt := 0;
      while attempt <= maxRetries
        invariant 0 <= attempt <= Tries(m)
        invariant FirstSuccess(attempts, attempt) == attempt
        invariant lastError == if attempt == 0 then None else Some(attempts(attempt - 1).error)
        invariant runs == old(runs) + attempt && dlq.View() == old(dlq.View())
        decreases maxRetries - attempt
      {
        runs := runs + 1;
        outcome := attempts(attempt);
        if outcome.Returned? {
          FirstSuccessIsFirst(attempts, Tries(m), attempt);
          return;
        }
        lastError := Some(outcome.error);
        attempt := attempt + 1;
      }
      if lastError.None? {
        return Returned(None);
      }
      if m.deadLetterChannel != "" {
        dlq.RouteToDlq(
          Route(msg.channel, m.deadLetterChannel, msg.patternType, msg.id, msg.body, maxRetries, lastError.value),
          sending);
      }
      return Threw(lastError.value);
    }

    method Execute(
      msg: Message, m: Metadata, validation: Validation, attempts: nat -> Outcome, sending: Sending)
      returns (outcome: Outcome)
      modifies this`runs, dlq
      ensures var x := Executed(msg, m, validation, attempts);
              outcome == x.result && runs == old(runs) + x.runs && RoutedAs(old(dlq.View()), x.route, sending)
    {
      if validation.ValidatorThrew? {
        return Threw(validation.error);
      }
      if validation.Invalid? {
        if IsRequest(msg) {
          return Threw(validation.error);
        }
        if m.deadLetterChannel != "" {
          dlq.RouteToDlq(
            Route(msg.channel, m.deadLetterChannel, msg.patternType, msg.id, msg.body, 0, validation.error),
            sending);
        }
        return Returned(None);
      }
      outcome := RunWithRetries(msg, m, attempts, sending);
    }

    /** Calls `sendResponse`; false when it rejects. */
    method Send(r: Request, index: nat, response: Response) returns (sent: bool)
      modifies this`responses
      ensures responses == old(responses) + [response]
      ensures sent == r.sends(index).None?
    {
      responses := responses + [response];
      sent := r.sends(index).None?;
    }

    method HandleRequest(
      r: Request, msg: Message, m: Metadata, validation: Validation, attempts: nat -> Outcome, sending: Sending)
      requires IsRequest(msg)
      modifies this, dlq
      ensures var x := Executed(msg, m, validation, attempts);
              && responses == old(responses) + Replies(options, r, msg, x.result)
              && runs == old(runs) + (if r.decodeError.Some? then 0 else x.runs)
              && RoutedAs(old(dlq.View()), if r.decodeError.Some? then None else x.route, sending)
    {
      var failure: Option<string> := r.decodeError;
      var index := 0;
      if failure.None? {
        var outcome := Execute(msg, m, validation, attempts, sending);
        var error: Option<string> := if outcome.Threw? then Some(Describe(outcome.error)) else None;
        if outcome.Returned? && outcome.value.Some? && r.serializeError.Some? {
          failure := r.serializeError;
        } else {
          var tags := map[TAG_PATTERN := msg.channel, TAG_ID := msg.id];
          if options.contentType != "" {
            tags := tags[TAG_CONTENT_TYPE := options.contentType];
          }
          var sent := Send(r, 0, Response(
            msg.id, msg.replyChannel, options.clientId,
            error.None?,
            if error.Some? then Some(Sanitized(options.verbose, error.value)) else None,
            if outcome.Returned? then outcome.value else None,
            Some(tags)));
          index := 1;
          failure := r.sends(0);
        }
      }
      if failure.Some? {
        var _ := Send(r, index, ErrorReply(options, msg, failure.value));
      }
    }
  }
}
