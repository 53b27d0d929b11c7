/** The names that the transport and the client share. */
module Constants {

  datatype PatternType = Command | Query | PlainEvent | EventStore | Queue

  function PatternName(patternType: PatternType): string {
    match patternType
    case Command => "command"
    case Query => "query"
    case PlainEvent => "event"
    case EventStore => "event_store"
    case Queue => "queue"
  }

  /** The names on the wire, which are all different. */
  lemma PatternNames(a: PatternType, b: PatternType)
    ensures PatternName(Command) == "command" && PatternName(Query) == "query"
    ensures PatternName(PlainEvent) == "event" && PatternName(EventStore) == "event_store"
    ensures PatternName(Queue) == "queue"
    ensures PatternName(a) == PatternName(b) ==> a == b
  {
    assert |"command"| == 7 && |"query"| == 5 && |"event"| == 5 && |"event_store"| == 11 && |"queue"| == 5;
    assert "query"[3] != "queue"[3] && "query"[0] != "event"[0] && "queue"[0] != "event"[0];
  }

  const TAG_PREFIX := "nestjs:"
  const TAG_PATTERN := "nestjs:pattern"
  const TAG_ID := "nestjs:id"
  const TAG_TYPE := "nestjs:type"
  const TAG_CONTENT_TYPE := "nestjs:content-type"
  const TAG_CORRELATION_ID := "x-correlation-id"
  const TAG_CAUSATION_ID := "x-causation-id"
  const TAG_IDEMPOTENCY_KEY := "x-idempotency-key"
}
