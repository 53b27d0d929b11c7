/**
 The record builder and the tags that a message carries on the wire.  Tags whose key starts
 with "nestjs:" belong to the transport.
 */
module Records {
  import opened Constants
  import opened Options

  type Tags = map<string, string>

  /** A metadata value: an object, a number, or anything else. */
  datatype Meta = Fields(fields: map<string, Meta>) | Number(value: real) | Scalar(text: string)

  /** What a record can be marked as. */
  type Kind = t: PatternType | t == Query || t == EventStore || t == Queue witness Query

  datatype Record = Record(kind: Option<Kind>, metadata: map<string, Meta>, tags: Tags)

  datatype Op =
    | As(kind: Kind)
    | WithMetadata(meta: map<string, Meta>)
    | WithTags(tags: Tags)
    | WithDelay(seconds: real)
    | WithIdempotencyKey(key: string)
    | WithCorrelationId(id: string)

  const FRESH := Record(None, map[], map[])

  predicate Reserved(key: string) {
    TAG_PREFIX <= key
  }

  function Unreserved(tags: Tags): Tags {
    map k | k in tags && !Reserved(k) :: tags[k]
  }

  function Delayed(metadata: map<string, Meta>, seconds: real): map<string, Meta> {
    var policy := if "policy" in metadata && metadata["policy"].Fields? then metadata["policy"].fields else map[];
    metadata["policy" := Fields(policy["delaySeconds" := Number(seconds)])]
  }

  function Apply(r: Record, op: Op): Record {
    match op
    case As(kind) => r.(kind := Some(kind))
    case WithMetadata(meta) => r.(metadata := r.metadata + (meta - {"type"}))
    case WithTags(tags) => r.(tags := r.tags + Unreserved(tags))
    case WithDelay(seconds) => r.(metadata := Delayed(r.metadata, seconds))
    case WithIdempotencyKey(key) => r.(tags := r.tags[TAG_IDEMPOTENCY_KEY := key])
    case WithCorrelationId(id) => r.(tags := r.tags[TAG_CORRELATION_ID := id])
  }

  function Build(ops: seq<Op>): Record {
    if ops == [] then FRESH else Apply(Build(ops[..|ops| - 1]), ops[|ops| - 1])
  }

  /** `extractPacketMetadata`: the own metadata is spread after the type. */
  function Extract(r: Record): map<string, Meta> {
    if r.kind.Some? then map["type" := Scalar(PatternName(r.kind.value))] + r.metadata else r.metadata
  }

  function DispatchedType(r: Record): Option<Meta> {
    if "type" in Extract(r) then Some(Extract(r)["type"]) else None
  }

  function MergeWireTags(base: Tags, user: Tags): Tags {
    base + Unreserved(user)
  }

  datatype Correlation = Correlation(correlationId: string, causationId: string)

  predicate Filled(tags: Tags, key: string) {
    key in tags && tags[key] != ""
  }

  /** The ids of the current context fill the gaps. */
  function Correlated(tags: Tags, context: Option<Correlation>): Tags {
    if context.None? then tags else
      var t := if Filled(tags, TAG_CORRELATION_ID) then tags
               else tags[TAG_CORRELATION_ID := context.value.correlationId];
      if Filled(t, TAG_CAUSATION_ID) then t else t[TAG_CAUSATION_ID := context.value.causationId]
  }

  function TypeTag(request: bool, dispatched: Option<Meta>): string {
    if request then
      if dispatched == Some(Scalar("query")) then "query" else "command"
    else if dispatched == Some(Scalar("queue")) then "queue"
    else if dispatched == Some(Scalar("event_store")) then "event_store"
    else "event"
  }

  function BaseTags(channel: string, contentType: string, typeTag: string): Tags {
    map[TAG_PATTERN := channel, TAG_TYPE := typeTag, TAG_CONTENT_TYPE := contentType]
  }

  /** The tags of a message sent by `publish` (a request) or by `dispatchEvent`. */
  function WireTags(
    r: Record, request: bool, channel: string, contentType: string, context: Option<Correlation>): Tags
  {
    Correlated(
      MergeWireTags(BaseTags(channel, contentType, TypeTag(request, DispatchedType(r))), r.tags),
      context)
  }

  // ------------------------------------------------------------------ reference definitions

  /** The kind of the last `as` call of the chain. */
  function LastMark(ops: seq<Op>): Option<Kind> {
    if ops == [] then None
    else if ops[|ops| - 1].As? then Some(ops[|ops| - 1].kind)
    else LastMark(ops[..|ops| - 1])
  }

  /** What the operation writes to the tag, if it writes it. */
  function Written(op: Op, key: string): Option<string> {
    match op
    case WithTags(tags) => if key in tags && !Reserved(key) then Some(tags[key]) else None
    case WithIdempotencyKey(k) => if key == TAG_IDEMPOTENCY_KEY then Some(k) else None
    case WithCorrelationId(id) => if key == TAG_CORRELATION_ID then Some(id) else None
    case _ => None
  }

  /** The value that the last writer of the tag gave it. */
  function LastWritten(ops: seq<Op>, key: string): Option<string> {
    if ops == [] then None
    else if Written(ops[|ops| - 1], key).Some? then Written(ops[|ops| - 1], key)
    else LastWritten(ops[..|ops| - 1], key)
  }

  function Get(tags: Tags, key: string): Option<string> {
    if key in tags then Some(tags[key]) else None
  }

  // ------------------------------------------------------------------ properties

  lemma {:induction false} MetadataHasNoType(ops: seq<Op>)
    ensures "type" !in Build(ops).metadata
    ensures Build(ops).kind == LastMark(ops)
  {
    if ops != [] {
      MetadataHasNoType(ops[..|ops| - 1]);
    }
  }

  /** The dispatched type is that of the last `as` call, whatever metadata was attached. */
  lemma TypeIsTheLastMark(ops: seq<Op>)
    ensures DispatchedType(Build(ops)) ==
            if LastMark(ops).None? then None else Some(Scalar(PatternName(LastMark(ops).value)))
  {
    MetadataHasNoType(ops);
  }

  /** A tag holds what its last writer gave it, and no chain ever sets a reserved tag. */
  lemma {:induction false} TagsAreTheLastWritten(ops: seq<Op>, key: string)
    ensures Get(Build(ops).tags, key) == LastWritten(ops, key)
    ensures Reserved(key) ==> LastWritten(ops, key).None?
  {
    if ops != [] {
      TagsAreTheLastWritten(ops[..|ops| - 1], key);
      PlainKeys();
    }
  }

  lemma PlainKeys()
    ensures !Reserved(TAG_IDEMPOTENCY_KEY) && !Reserved(TAG_CORRELATION_ID) && !Reserved(TAG_CAUSATION_ID)
    ensures Reserved(TAG_PATTERN) && Reserved(TAG_TYPE) && Reserved(TAG_CONTENT_TYPE)
  {
    assert TAG_IDEMPOTENCY_KEY[0] != TAG_PREFIX[0];
    assert TAG_CORRELATION_ID[0] != TAG_PREFIX[0];
    assert TAG_CAUSATION_ID[0] != TAG_PREFIX[0];
    assert TAG_PATTERN[..7] == TAG_PREFIX && TAG_TYPE[..7] == TAG_PREFIX && TAG_CONTENT_TYPE[..7] == TAG_PREFIX;
  }

  /** Merging keeps the transport's value of every reserved tag, also against a caller who
      smuggles one in; for any other tag the caller wins. */
  lemma MergePrecedence(base: Tags, user: Tags, key: string)
    ensures Get(MergeWireTags(base, user), key) ==
            if Reserved(key) || key !in user then Get(base, key) else Some(user[key])
  {
  }

  /** On the wire every reserved tag is the transport's own, for every chain of builder calls:
      the type tag is the last mark that fits the verb, or the verb's default. */
  lemma ReservedTagsSurvive(
    ops: seq<Op>, request: bool, channel: string, contentType: string, context: Option<Correlation>, key: string)
    requires Reserved(key)
    ensures var tags := WireTags(Build(ops), request, channel, contentType, context);
            Get(tags, key) ==
              if key == TAG_PATTERN then Some(channel)
              else if key == TAG_CONTENT_TYPE then Some(contentType)
              else if key == TAG_TYPE then Some(ExpectedType(request, LastMark(ops)))
              else None
  {
    TypeIsTheLastMark(ops);
    PlainKeys();
    var base := BaseTags(channel, contentType, TypeTag(request, DispatchedType(Build(ops))));
    MergePrecedence(base, Build(ops).tags, key);
    TypeTagIsExpected(request, LastMark(ops));
    CorrelationKeepsReserved(MergeWireTags(base, Build(ops).tags), context, key);
  }

  lemma CorrelationKeepsReserved(tags: Tags, context: Option<Correlation>, key: string)
    requires Reserved(key)
    ensures Get(Correlated(tags, context), key) == Get(tags, key)
  {
    PlainKeys();
  }

  function ExpectedType(request: bool, mark: Option<Kind>): string {
    if request then
      if mark == Some(Query) then "query" else "command"
    else if mark == Some(Queue) then "queue"
    else if mark == Some(EventStore) then "event_store"
    else "event"
  }

  lemma TypeTagIsExpected(request: bool, mark: Option<Kind>)
    ensures TypeTag(request, if mark.None? then None else Some(Scalar(PatternName(mark.value)))) ==
            ExpectedType(request, mark)
  {
    assert |"query"| == 5 && |"queue"| == 5 && "query"[3] != "queue"[3];
    assert |"event_store"| == 11;
  }

  /** The correlation id on the wire: the last one the caller gave, unless it is empty; else
      the one of the current context. */
  lemma CorrelationIdPrecedence(
    ops: seq<Op>, request: bool, channel: string, contentType: string, context: Option<Correlation>)
    ensures var own := LastWritten(ops, TAG_CORRELATION_ID);
            Get(WireTags(Build(ops), request, channel, contentType, context), TAG_CORRELATION_ID) ==
              if own.Some? && own.value != "" then own
              else if context.Some? then Some(context.value.correlationId)
              else own
  {
    TagsAreTheLastWritten(ops, TAG_CORRELATION_ID);
    PlainKeys();
    var base := BaseTags(channel, contentType, TypeTag(request, DispatchedType(Build(ops))));
    MergePrecedence(base, Build(ops).tags, TAG_CORRELATION_ID);
    assert TAG_CORRELATION_ID !in base;
    CorrelatedId(MergeWireTags(base, Build(ops).tags), context);
  }

  lemma CorrelatedId(tags: Tags, context: Option<Correlation>)
    ensures Get(Correlated(tags, context), TAG_CORRELATION_ID) ==
            if Filled(tags, TAG_CORRELATION_ID) || context.None? then Get(tags, TAG_CORRELATION_ID)
            else Some(context.value.correlationId)
  {
    assert |TAG_CORRELATION_ID| != |TAG_CAUSATION_ID|;
  }

  /** What the builder attaches to the policy: the delay of the last `withDelay`, unless later
      metadata brought its own policy. */
  function LastDelay(ops: seq<Op>): Option<real> {
    if ops == [] then None else
      match ops[|ops| - 1]
      case WithDelay(seconds) => Some(seconds)
      case WithMetadata(meta) =>
        if "policy" in meta then PolicyDelay(meta) else LastDelay(ops[..|ops| - 1])
      case _ => LastDelay(ops[..|ops| - 1])
  }

  function PolicyDelay(metadata: map<string, Meta>): Option<real> {
    if "policy" in metadata && metadata["policy"].Fields? && "delaySeconds" in metadata["policy"].fields
       && metadata["policy"].fields["delaySeconds"].Number?
    then Some(metadata["policy"].fields["delaySeconds"].value)
    else None
  }

  /** The delay that a queue message is sent with is the last one given. */
  lemma {:induction false} DelayIsTheLastGiven(ops: seq<Op>)
    ensures PolicyDelay(Build(ops).metadata) == LastDelay(ops)
  {
    if ops != [] {
      DelayIsTheLastGiven(ops[..|ops| - 1]);
      assert "policy" != "type" by {
        assert |"policy"| != |"type"|;
      }
    }
  }

  // ------------------------------------------------------------------ the rest of the metadata

  function Field(metadata: map<string, Meta>, key: string): Option<Meta> {
    if key in metadata then Some(metadata[key]) else None
  }

  /** What the last `withMetadata` that mentions the key gave it. */
  function LastGiven(ops: seq<Op>, key: string): Option<Meta> {
    if ops == [] then None
    else
      var op := ops[|ops| - 1];
      if op.WithMetadata? && key in op.meta then Some(op.meta[key]) else LastGiven(ops[..|ops| - 1], key)
  }

  /** Every other metadata key keeps what it was last given. */
  lemma {:induction false} OtherMetadataIsTheLastGiven(ops: seq<Op>, key: string)
    requires key != "type" && key != "policy"
    ensures Field(Build(ops).metadata, key) == LastGiven(ops, key)
  {
    if ops != [] {
      OtherMetadataIsTheLastGiven(ops[..|ops| - 1], key);
    }
  }

  function PolicyField(metadata: map<string, Meta>, key: string): Option<Meta> {
    if "policy" in metadata && metadata["policy"].Fields? then Field(metadata["policy"].fields, key) else None
  }

  /** The field of the last policy that was given as metadata. */
  function LastPolicyField(ops: seq<Op>, key: string): Option<Meta> {
    if ops == [] then None
    else
      var op := ops[|ops| - 1];
      if op.WithMetadata? && "policy" in op.meta then PolicyField(op.meta, key)
      else LastPolicyField(ops[..|ops| - 1], key)
  }

  /** Setting a delay leaves the other fields of the policy alone. */
  lemma {:induction false} OtherPolicyFieldsStay(ops: seq<Op>, key: string)
    requires key != "delaySeconds"
    ensures PolicyField(Build(ops).metadata, key) == LastPolicyField(ops, key)
  {
    if ops != [] {
      OtherPolicyFieldsStay(ops[..|ops| - 1], key);
      assert "policy" != "type" by {
        assert |"policy"| != |"type"|;
      }
    }
  }

  // ------------------------------------------------------------------ the other tags on the wire

  /** The causation id on the wire: the last one the caller gave as a tag, unless it is empty;
      else the one of the current context. */
  lemma CausationIdPrecedence(
    ops: seq<Op>, request: bool, channel: string, contentType: string, context: Option<Correlation>)
    ensures var own := LastWritten(ops, TAG_CAUSATION_ID);
            Get(WireTags(Build(ops), request, channel, contentType, context), TAG_CAUSATION_ID) ==
              if own.Some? && own.value != "" then own
              else if context.Some? then Some(context.value.causationId)
              else own
  {
    TagsAreTheLastWritten(ops, TAG_CAUSATION_ID);
    PlainKeys();
    var base := BaseTags(channel, contentType, TypeTag(request, DispatchedType(Build(ops))));
    MergePrecedence(base, Build(ops).tags, TAG_CAUSATION_ID);
    assert TAG_CAUSATION_ID !in base;
    CausedId(MergeWireTags(base, Build(ops).tags), context);
  }

  lemma CausedId(tags: Tags, context: Option<Correlation>)
    ensures Get(Correlated(tags, context), TAG_CAUSATION_ID) ==
            if Filled(tags, TAG_CAUSATION_ID) || context.None? then Get(tags, TAG_CAUSATION_ID)
            else Some(context.value.causationId)
  {
    assert |TAG_CORRELATION_ID| != |TAG_CAUSATION_ID|;
  }

  /** Every other tag on the wire is the caller's last. */
  lemma OtherTagsReachTheWire(
    ops: seq<Op>, request: bool, channel: string, contentType: string, context: Option<Correlation>, key: string)
    requires !Reserved(key) && key != TAG_CORRELATION_ID && key != TAG_CAUSATION_ID
    ensures Get(WireTags(Build(ops), request, channel, contentType, context), key) == LastWritten(ops, key)
  {
    TagsAreTheLastWritten(ops, key);
    PlainKeys();
    var base := BaseTags(channel, contentType, TypeTag(request, DispatchedType(Build(ops))));
    MergePrecedence(base, Build(ops).tags, key);
  }

  // ------------------------------------------------------------------ the implementation

  /** A tag object on the heap: the caller may keep a reference to it. */
  class TagObject {
    var entries: Tags

    constructor (entries: Tags)
      ensures this.entries == entries
    {
      this.entries := entries;
    }
  }

  class KubeMQRecord {
    var kind: Option<Kind>
    var metadata: map<string, Meta>
    var tags: TagObject

    constructor ()
      ensures View() == FRESH && fresh(tags)
    {
      kind, metadata := None, map[];
      tags := new TagObject(map[]);
    }

    function View(): Record
      reads this, tags
    {
      Record(kind, metadata, tags.entries)
    }

    method Mark(k: Kind)
      modifies this`kind
      ensures View() == Apply(old(View()), As(k))
    {
      kind := Some(k);
    }

    method AddMetadata(meta: map<string, Meta>)
      modifies this`metadata
      ensures View() == Apply(old(View()), WithMetadata(meta))
    {
      metadata := metadata + (meta - {"type"});
    }

    method SetDelay(seconds: real)
      modifies this`metadata
      ensures View() == Apply(old(View()), WithDelay(seconds))
    {
      var policy := map[];
      if "policy" in metadata && metadata["policy"].Fields? {
        policy := metadata["policy"].fields;
      }
      metadata := metadata["policy" := Fields(policy["delaySeconds" := Number(seconds)])];
    }

    /** The record gets a fresh tag object; neither the caller's object nor the record's former
        one changes, even if they are the same. */
    method AddTags(from: TagObject)
      modifies this`tags
      ensures View() == Apply(old(View()), WithTags(from.entries))
      ensures fresh(tags)
    {
      var next := MergeTags(tags.entries, Some(from.entries));
      tags := new TagObject(next);
    }

    method Take(call: BuilderCall)
      modifies this, tags
      ensures View() == Apply(old(View()), old(Meaning(call)))
      ensures tags == old(tags) || fresh(tags)
    {
      match call
      case Tagging(from) => AddTags(from);
      case Plain(op) =>
        match op
        case As(k) => Mark(k);
        case WithMetadata(meta) => AddMetadata(meta);
        case WithTags(entries) =>
          var literal := new TagObject(entries);
          AddTags(literal);
        case WithDelay(seconds) => SetDelay(seconds);
        case WithIdempotencyKey(key) => SetIdempotencyKey(key);
        case WithCorrelationId(id) => SetCorrelationId(id);
    }

    /** These two write into the record's own tag object. */
    method SetIdempotencyKey(key: string)
      modifies tags
      ensures View() == Apply(old(View()), Op.WithIdempotencyKey(key))
    {
      tags.entries := tags.entries[TAG_IDEMPOTENCY_KEY := key];
    }

    method SetCorrelationId(id: string)
      modifies tags
      ensures View() == Apply(old(View()), Op.WithCorrelationId(id))
    {
      tags.entries := tags.entries[TAG_CORRELATION_ID := id];
    }
  }

  /** A builder call as the caller writes it: tags come as an object that the caller keeps. */
  datatype BuilderCall = Tagging(from: TagObject) | Plain(op: Op)

  function Meaning(call: BuilderCall): Op
    reads if call.Tagging? then {call.from} else {}
  {
    match call
    case Tagging(from) => WithTags(from.entries)
    case Plain(op) => op
  }

  function Given(calls: seq<BuilderCall>): set<object> {
    set call | call in calls && call.Tagging? :: call.from
  }

  function Meanings(calls: seq<BuilderCall>): seq<Op>
    reads Given(calls)
  {
    if calls == [] then [] else
      var n := |calls| - 1;
      assert calls[n] in calls;
      Meanings(calls[..n]) + [Meaning(calls[n])]
  }

  /** Any chain of builder calls on a new record.  No object that existed before is modified, so
      the tag objects that the caller passed in are as they were, also after later calls have
      written to the record's own tags; and the record holds what the chain builds. */
  method BuildRecord(calls: seq<BuilderCall>) returns (r: KubeMQRecord)
    ensures fresh(r) && fresh(r.tags)
    ensures forall call :: call in calls && call.Tagging? ==> call.from.entries == old(call.from.entries)
    ensures r.View() == Build(old(Meanings(calls)))
  {
    ghost var ops := Meanings(calls);
    MeaningsAt(calls);
    r := new KubeMQRecord();
    for i := 0 to |calls|
      invariant fresh(r) && fresh(r.tags)
      invariant r.View() == Build(ops[..i])
    {
      assert old(Meaning(calls[i])) == ops[i];
      r.Take(calls[i]);
      assert ops[..i + 1][..i] == ops[..i];
    }
    assert ops[..|calls|] == ops;
  }

  lemma {:induction false} MeaningsAt(calls: seq<BuilderCall>)
    ensures |Meanings(calls)| == |calls|
    ensures forall i :: 0 <= i < |calls| ==> Meanings(calls)[i] == Meaning(calls[i])
  {
    if calls != [] {
      MeaningsAt(calls[..|calls| - 1]);
    }
  }

  lemma UnreservedGrows(all: Tags, todo: set<string>, k: string)
    requires k in all && k !in todo
    ensures Unreserved(all - todo) ==
            if Reserved(k) then Unreserved(all - (todo + {k})) else Unreserved(all - (todo + {k}))[k := all[k]]
  {
  }

  /** Copies the user's tags over the base, key by key, and passes over the reserved ones; the
      builder and the client proxy contain the same loop. */
  method MergeTags(base: Tags, user: Option<Tags>) returns (out: Tags)
    ensures out == if user.None? then base else MergeWireTags(base, user.value)
  {
    out := base;
    if user.None? {
      return;
    }
    var todo := user.value.Keys;
    while todo != {}
      invariant todo <= user.value.Keys
      invariant out == base + Unreserved(user.value - todo)
      decreases |todo|
    {
      var k :| k in todo;
      UnreservedGrows(user.value, todo - {k}, k);
      assert todo - {k} + {k} == todo;
      todo := todo - {k};
      if !Reserved(k) {
        out := out[k := user.value[k]];
      }
    }
    assert user.value - {} == user.value;
  }
}
