/**
 The deduplication cache of a queue handler: a map from keys to expiry times and an
 eviction list.  The two drift apart, because a lookup purges an expired key from the map
 and leaves it in the list; a key that is added again then sits in the list twice.
 */
module Idempotency {
  import opened Sequences

  datatype Config = Config(maxSize: int, ttlMs: int)

  /** `entries` maps a key to the time at which it expires. */
  datatype Cache = Cache(entries: map<string, int>, order: seq<string>)

  const EMPTY := Cache(map[], [])

  datatype Op = Has(now: int, key: string) | Add(now: int, key: string) | Clear

  /** Every live key is still in the eviction list; the converse fails after a purge. */
  ghost predicate WellFormed(c: Cache) {
    c.entries.Keys <= Elements(c.order)
  }

  predicate Present(c: Cache, now: int, key: string) {
    key in c.entries && now <= c.entries[key]
  }

  function Lookup(c: Cache, now: int, key: string): Cache {
    if key in c.entries && now > c.entries[key] then c.(entries := c.entries - {key}) else c
  }

  /** Drops the oldest list elements until the map is below its bound. */
  function Evict(cfg: Config, c: Cache): Cache
    decreases |c.order|
  {
    if |c.entries| >= cfg.maxSize && |c.order| > 0 then
      Evict(cfg, Cache(c.entries - {c.order[0]}, c.order[1..]))
    else
      c
  }

  function Insert(cfg: Config, c: Cache, now: int, key: string): Cache {
    if key in c.entries then
      c
    else
      var room := Evict(cfg, c);
      Cache(room.entries[key := now + cfg.ttlMs], room.order + [key])
  }

  function Apply(cfg: Config, c: Cache, op: Op): Cache {
    match op
    case Has(now, key) => Lookup(c, now, key)
    case Add(now, key) => Insert(cfg, c, now, key)
    case Clear => EMPTY
  }

  function Run(cfg: Config, c: Cache, ops: seq<Op>): Cache {
    if ops == [] then c else Apply(cfg, Run(cfg, c, ops[..|ops| - 1]), ops[|ops| - 1])
  }

  // ---------------------------------------------------------------- structure of the list

  /** The keys that the eviction list reaches before the first occurrence of `key`. */
  function Ahead(order: seq<string>, key: string): (ahead: set<string>)
    ensures ahead <= Elements(order)
    ensures key !in ahead
    ensures key !in order ==> ahead == Elements(order)
  {
    if order == [] || order[0] == key then
      {}
    else
      assert order == [order[0]] + order[1..];
      {order[0]} + Ahead(order[1..], key)
  }

  lemma {:induction false} AheadSnoc(order: seq<string>, x: string, key: string)
    requires key in order || x == key
    ensures Ahead(order + [x], key) == Ahead(order, key)
  {
    if order == [] {
      assert order + [x] == [x];
    } else if order[0] != key {
      assert (order + [x])[1..] == order[1..] + [x];
      AheadSnoc(order[1..], x, key);
    }
  }

  /** How many live keys are left when everything ahead of `key` has gone. */
  function Behind(live: set<string>, order: seq<string>, key: string): nat {
    if order == [] || order[0] == key then |live| else Behind(live - {order[0]}, order[1..], key)
  }

  /** How many further insertions `key` is sure to outlive. */
  function Window(cfg: Config, c: Cache, key: string): int {
    cfg.maxSize - Behind(c.entries.Keys, c.order, key)
  }

  lemma {:induction false} BehindIsTheRest(live: set<string>, order: seq<string>, key: string)
    ensures Behind(live, order, key) == |live - Ahead(order, key)|
  {
    if order == [] || order[0] == key {
      assert live - {} == live;
    } else {
      BehindIsTheRest(live - {order[0]}, order[1..], key);
      assert live - {order[0]} - Ahead(order[1..], key) == live - Ahead(order, key);
    }
  }

  lemma BehindAtMost(live: set<string>, order: seq<string>, key: string)
    ensures Behind(live, order, key) <= |live|
  {
    BehindIsTheRest(live, order, key);
    SubsetCardinality(live - Ahead(order, key), live);
  }

  /** A key that is purged cannot shrink the window of another one. */
  lemma BehindWithout(live: set<string>, order: seq<string>, key: string, x: string)
    ensures Behind(live - {x}, order, key) <= Behind(live, order, key)
  {
    BehindIsTheRest(live, order, key);
    BehindIsTheRest(live - {x}, order, key);
    SubsetCardinality(live - {x} - Ahead(order, key), live - Ahead(order, key));
  }

  /** A new key at the end of the list costs at most one, and exactly one if it is not listed. */
  lemma BehindWith(live: set<string>, order: seq<string>, key: string, x: string)
    requires key in order && x !in live
    ensures Behind(live + {x}, order + [x], key) <= Behind(live, order, key) + 1
    ensures x !in order ==> Behind(live + {x}, order + [x], key) == Behind(live, order, key) + 1
  {
    var ahead := Ahead(order, key);
    AheadSnoc(order, x, key);
    BehindIsTheRest(live, order, key);
    BehindIsTheRest(live + {x}, order + [x], key);
    OneMoreLeft(live, ahead, x);
  }

  lemma OneMoreLeft<T>(live: set<T>, ahead: set<T>, x: T)
    requires x !in live
    ensures |live + {x} - ahead| == |live - ahead| + if x in ahead then 0 else 1
  {
    if x in ahead {
      assert live + {x} - ahead == live - ahead;
    } else {
      assert live + {x} - ahead == (live - ahead) + {x};
    }
  }

  lemma NothingLeft<T>(live: set<T>, ahead: set<T>)
    ensures |live - ahead| == 0 <==> live <= ahead
  {
    if live <= ahead {
      assert live - ahead == {};
    } else {
      var x :| x in live && x !in ahead;
      assert x in live - ahead;
    }
  }

  lemma {:induction false} EvictShape(cfg: Config, c: Cache)
    requires WellFormed(c)
    ensures WellFormed(Evict(cfg, c))
    ensures Evict(cfg, c).entries.Keys <= c.entries.Keys
    ensures forall k :: k in Evict(cfg, c).entries ==> Evict(cfg, c).entries[k] == c.entries[k]
    ensures Elements(Evict(cfg, c).order) <= Elements(c.order)
    ensures |Evict(cfg, c).entries| < cfg.maxSize || Evict(cfg, c) == EMPTY
    decreases |c.order|
  {
    if |c.entries| >= cfg.maxSize && |c.order| > 0 {
      assert c.order == [c.order[0]] + c.order[1..];
      EvictShape(cfg, Cache(c.entries - {c.order[0]}, c.order[1..]));
    } else if c.order == [] {
      assert c.entries.Keys == {};
      assert c == EMPTY;
    }
  }

  /** One element leaves the list without touching the window of a key further back. */
  lemma PopKeepsWindow(cfg: Config, c: Cache, key: string)
    requires WellFormed(c) && key in c.entries && c.order != [] && c.order[0] != key
    ensures var popped := Cache(c.entries - {c.order[0]}, c.order[1..]);
            WellFormed(popped) && key in popped.entries && Window(cfg, popped, key) == Window(cfg, c, key)
  {
    var x := c.order[0];
    var popped := Cache(c.entries - {x}, c.order[1..]);
    assert c.order == [x] + c.order[1..];
    assert popped.entries.Keys == c.entries.Keys - {x};
  }

  lemma {:induction false} EvictKeepsWindow(cfg: Config, c: Cache, key: string)
    requires WellFormed(c) && key in c.entries && Window(cfg, c, key) >= 1
    ensures key in Evict(cfg, c).entries
    ensures Window(cfg, Evict(cfg, c), key) == Window(cfg, c, key)
    decreases |c.order|
  {
    if |c.entries| >= cfg.maxSize && |c.order| > 0 {
      assert |c.entries| == |c.entries.Keys|;
      PopKeepsWindow(cfg, c, key);
      EvictKeepsWindow(cfg, Cache(c.entries - {c.order[0]}, c.order[1..]), key);
    }
  }

  lemma {:induction false} EvictRemovesSpent(cfg: Config, c: Cache, key: string)
    requires WellFormed(c) && key in c.entries && Window(cfg, c, key) <= 0
    ensures key !in Evict(cfg, c).entries
    decreases |c.order|
  {
    var popped := Cache(c.entries - {c.order[0]}, c.order[1..]);
    assert c.order == [c.order[0]] + c.order[1..];
    BehindAtMost(c.entries.Keys, c.order, key);
    assert |c.entries| == |c.entries.Keys|;
    if c.order[0] == key {
      EvictShape(cfg, popped);
    } else {
      PopKeepsWindow(cfg, c, key);
      EvictRemovesSpent(cfg, popped, key);
    }
  }

  // ------------------------------------------------------------------------ runs

  lemma RunSnoc(cfg: Config, c: Cache, ops: seq<Op>, op: Op)
    ensures Run(cfg, c, ops + [op]) == Apply(cfg, Run(cfg, c, ops), op)
  {
    assert (ops + [op])[..|ops|] == ops;
  }

  lemma {:induction false} RunShape(cfg: Config, c: Cache, ops: seq<Op>)
    requires WellFormed(c)
    ensures WellFormed(Run(cfg, c, ops))
  {
    if ops != [] {
      RunShape(cfg, c, ops[..|ops| - 1]);
      ApplyShape(cfg, Run(cfg, c, ops[..|ops| - 1]), ops[|ops| - 1]);
    }
  }

  lemma ApplyShape(cfg: Config, c: Cache, op: Op)
    requires WellFormed(c)
    ensures WellFormed(Apply(cfg, c, op))
    ensures |c.entries| <= Bound(cfg) ==> |Apply(cfg, c, op).entries| <= Bound(cfg)
  {
    EvictShape(cfg, c);
    match op
    case Has(now, key) =>
      SubsetCardinality(Lookup(c, now, key).entries.Keys, c.entries.Keys);
    case Add(now, key) =>
      var room := Evict(cfg, c);
      assert Elements(room.order + [key]) == Elements(room.order) + {key};
    case Clear =>
  }

  function Bound(cfg: Config): int {
    if cfg.maxSize < 1 then 1 else cfg.maxSize
  }

  /** The cache never holds more than max(1, maxSize) keys. */
  lemma {:induction false} SizeBounded(cfg: Config, ops: seq<Op>)
    ensures |Run(cfg, EMPTY, ops).entries| <= Bound(cfg)
  {
    if ops != [] {
      var before := ops[..|ops| - 1];
      SizeBounded(cfg, before);
      RunShape(cfg, EMPTY, before);
      ApplyShape(cfg, Run(cfg, EMPTY, before), ops[|ops| - 1]);
    }
  }

  predicate Inserts(cfg: Config, ops: seq<Op>, i: nat, key: string)
    requires i < |ops|
  {
    ops[i].Add? && ops[i].key == key && key !in Run(cfg, EMPTY, ops[..i]).entries
  }

  ghost predicate IsOrigin(cfg: Config, ops: seq<Op>, i: nat, key: string, expiry: int) {
    && i < |ops|
    && Inserts(cfg, ops, i, key)
    && expiry == ops[i].now + cfg.ttlMs
    && (forall j :: i < j < |ops| ==> !ops[j].Clear?)
  }

  lemma OriginExtends(cfg: Config, ops: seq<Op>, op: Op, i: nat, key: string, expiry: int)
    requires IsOrigin(cfg, ops, i, key, expiry) && !op.Clear?
    ensures IsOrigin(cfg, ops + [op], i, key, expiry)
  {
    assert (ops + [op])[..i] == ops[..i];
  }

  lemma EntryIsInsertedOrKept(cfg: Config, c: Cache, op: Op, key: string)
    requires WellFormed(c) && key in Apply(cfg, c, op).entries
    ensures !op.Clear?
    ensures key in c.entries ==> Apply(cfg, c, op).entries[key] == c.entries[key]
    ensures key !in c.entries ==> op.Add? && op.key == key
                                  && Apply(cfg, c, op).entries[key] == op.now + cfg.ttlMs
  {
    EvictShape(cfg, c);
  }

  lemma {:induction false} EntryHasOrigin(cfg: Config, ops: seq<Op>, key: string)
    requires key in Run(cfg, EMPTY, ops).entries
    ensures exists i :: IsOrigin(cfg, ops, i, key, Run(cfg, EMPTY, ops).entries[key])
  {
    var n := |ops| - 1;
    var before, op := ops[..n], ops[n];
    var c := Run(cfg, EMPTY, before);
    RunShape(cfg, EMPTY, before);
    EntryIsInsertedOrKept(cfg, c, op, key);
    if key in c.entries {
      EntryHasOrigin(cfg, before, key);
      var i :| IsOrigin(cfg, before, i, key, c.entries[key]);
      OriginExtends(cfg, before, op, i, key, c.entries[key]);
      assert ops == before + [op];
    } else {
      assert IsOrigin(cfg, ops, n, key, Run(cfg, EMPTY, ops).entries[key]);
    }
  }

  /** A lookup that says "seen" is never wrong: the key was inserted at most one TTL ago,
      and the cache has not been cleared since. */
  lemma PresentMeansRecentlyInserted(cfg: Config, ops: seq<Op>, now: int, key: string)
    requires Present(Run(cfg, EMPTY, ops), now, key)
    ensures exists i ::
              0 <= i < |ops| && Inserts(cfg, ops, i, key) && now <= ops[i].now + cfg.ttlMs
              && forall j :: i < j < |ops| ==> !ops[j].Clear?
  {
    EntryHasOrigin(cfg, ops, key);
    var i :| IsOrigin(cfg, ops, i, key, Run(cfg, EMPTY, ops).entries[key]);
    assert Inserts(cfg, ops, i, key);
  }

  // -------------------------------------------------------------- the retention window

  /** The operation inserts a key; `add` does nothing for a key that is present. */
  predicate Inserting(c: Cache, op: Op) {
    op.Add? && op.key !in c.entries
  }

  /** How many of the operations insert a key. */
  function InsertCount(cfg: Config, c: Cache, ops: seq<Op>): nat {
    if ops == [] then 0 else
      var before := ops[..|ops| - 1];
      InsertCount(cfg, c, before) + if Inserting(Run(cfg, c, before), ops[|ops| - 1]) then 1 else 0
  }

  /** The operation neither clears the cache nor looks `key` up after it expired. */
  predicate Spares(op: Op, key: string, expiry: int) {
    !op.Clear? && (op.Has? && op.key == key ==> op.now <= expiry)
  }

  ghost predicate AllSpare(ops: seq<Op>, key: string, expiry: int) {
    forall i :: 0 <= i < |ops| ==> Spares(ops[i], key, expiry)
  }

  function Placed(room: Cache, key: string, expiry: int): Cache {
    Cache(room.entries[key := expiry], room.order + [key])
  }

  lemma LookupKeepsWindow(cfg: Config, c: Cache, now: int, x: string, key: string)
    ensures Window(cfg, Lookup(c, now, x), key) >= Window(cfg, c, key)
  {
    if Lookup(c, now, x) != c {
      BehindWithout(c.entries.Keys, c.order, key, x);
      assert Lookup(c, now, x).entries.Keys == c.entries.Keys - {x};
    }
  }

  lemma PlacedKeepsWindow(cfg: Config, room: Cache, x: string, expiry: int, key: string)
    requires WellFormed(room) && key in room.entries && x !in room.entries
    ensures Window(cfg, Placed(room, x, expiry), key) >= Window(cfg, room, key) - 1
    ensures x !in room.order ==> Window(cfg, Placed(room, x, expiry), key) == Window(cfg, room, key) - 1
  {
    BehindWith(room.entries.Keys, room.order, key, x);
    assert Placed(room, x, expiry).entries.Keys == room.entries.Keys + {x};
  }

  lemma OrderShrinks(cfg: Config, c: Cache, x: string)
    requires WellFormed(c) && x !in c.order
    ensures x !in Evict(cfg, c).order && x !in c.entries
  {
    EvictShape(cfg, c);
    assert x !in Elements(c.order);
  }

  lemma InsertKeepsWindow(cfg: Config, c: Cache, now: int, x: string, key: string)
    requires WellFormed(c) && key in c.entries && x !in c.entries && Window(cfg, c, key) >= 1
    ensures var d := Insert(cfg, c, now, x);
            && key in d.entries && d.entries[key] == c.entries[key]
            && Window(cfg, d, key) >= Window(cfg, c, key) - 1
            && (x !in c.order ==> Window(cfg, d, key) == Window(cfg, c, key) - 1)
  {
    EvictKeepsWindow(cfg, c, key);
    EvictShape(cfg, c);
    PlacedKeepsWindow(cfg, Evict(cfg, c), x, now + cfg.ttlMs, key);
    if x !in c.order {
      OrderShrinks(cfg, c, x);
    }
  }

  lemma UnlistedKeyInserts(c: Cache, x: string)
    requires WellFormed(c) && x !in c.order
    ensures x !in c.entries
  {
    assert x !in Elements(c.order);
  }

  /** An insertion costs the window at most one; a lookup and an `add` of a present key cost
      nothing. */
  lemma ApplyKeepsWindow(cfg: Config, c: Cache, op: Op, key: string)
    requires WellFormed(c) && key in c.entries && Spares(op, key, c.entries[key])
    requires Inserting(c, op) ==> Window(cfg, c, key) >= 1
    ensures var d := Apply(cfg, c, op);
            && key in d.entries && d.entries[key] == c.entries[key]
            && Window(cfg, d, key) >= Window(cfg, c, key) - (if Inserting(c, op) then 1 else 0)
    ensures op.Add? && op.key !in c.order ==>
              Window(cfg, Apply(cfg, c, op), key) == Window(cfg, c, key) - 1
  {
    match op
    case Has(now, x) =>
      LookupKeepsWindow(cfg, c, now, x, key);
    case Add(now, x) =>
      if x !in c.entries {
        InsertKeepsWindow(cfg, c, now, x, key);
      } else if x !in c.order {
        UnlistedKeyInserts(c, x);
      }
  }

  lemma {:induction false} RunKeepsWindow(cfg: Config, c: Cache, ops: seq<Op>, key: string)
    requires WellFormed(c) && key in c.entries
    requires AllSpare(ops, key, c.entries[key])
    requires InsertCount(cfg, c, ops) == 0 || InsertCount(cfg, c, ops) <= Window(cfg, c, key)
    ensures var d := Run(cfg, c, ops);
            && key in d.entries && d.entries[key] == c.entries[key]
            && Window(cfg, d, key) >= Window(cfg, c, key) - InsertCount(cfg, c, ops)
  {
    if ops != [] {
      var before := ops[..|ops| - 1];
      RunKeepsWindow(cfg, c, before, key);
      RunShape(cfg, c, before);
      ApplyKeepsWindow(cfg, Run(cfg, c, before), ops[|ops| - 1], key);
    }
  }

  function Longer(keys: seq<string>): (r: string)
    ensures forall k :: k in keys ==> |k| < |r|
  {
    if keys == [] then "x" else
      var rest := Longer(keys[1..]);
      assert keys == [keys[0]] + keys[1..];
      if |keys[0]| < |rest| then rest else keys[0] + "x"
  }

  /** The adversary: `n` insertions of keys the list has never seen. */
  function Flood(cfg: Config, c: Cache, n: nat): (ops: seq<Op>)
    ensures |ops| == n
  {
    if n == 0 then [] else
      var before := Flood(cfg, c, n - 1);
      before + [Add(0, Longer(Run(cfg, c, before).order))]
  }

  lemma {:induction false} FloodSpares(cfg: Config, c: Cache, n: nat, key: string, expiry: int)
    requires WellFormed(c)
    ensures InsertCount(cfg, c, Flood(cfg, c, n)) == n
    ensures AllSpare(Flood(cfg, c, n), key, expiry)
  {
    if n > 0 {
      FloodSpares(cfg, c, n - 1, key, expiry);
      RunShape(cfg, c, Flood(cfg, c, n - 1));
      assert Flood(cfg, c, n)[..n - 1] == Flood(cfg, c, n - 1);
    }
  }

  lemma {:induction false} FloodSpendsWindow(cfg: Config, c: Cache, n: nat, key: string)
    requires WellFormed(c) && key in c.entries
    requires n == 0 || n <= Window(cfg, c, key)
    ensures key in Run(cfg, c, Flood(cfg, c, n)).entries
    ensures Window(cfg, Run(cfg, c, Flood(cfg, c, n)), key) == Window(cfg, c, key) - n
  {
    if n > 0 {
      var before := Flood(cfg, c, n - 1);
      FloodSpendsWindow(cfg, c, n - 1, key);
      assert Flood(cfg, c, n)[..n - 1] == before;
      RunShape(cfg, c, before);
      ApplyKeepsWindow(cfg, Run(cfg, c, before), Flood(cfg, c, n)[n - 1], key);
    }
  }

  lemma FloodEvicts(cfg: Config, c: Cache, n: nat, key: string)
    requires WellFormed(c) && key in c.entries
    requires n == if Window(cfg, c, key) < 0 then 0 else Window(cfg, c, key)
    ensures key !in Run(cfg, c, Flood(cfg, c, n + 1)).entries
  {
    FloodSpendsWindow(cfg, c, n, key);
    var before := Flood(cfg, c, n);
    var d := Run(cfg, c, before);
    RunShape(cfg, c, before);
    NewKeyEvicts(cfg, d, key);
    RunSnoc(cfg, c, before, Add(0, Longer(d.order)));
  }

  lemma NewKeyEvicts(cfg: Config, c: Cache, key: string)
    requires WellFormed(c) && key in c.entries && Window(cfg, c, key) <= 0
    ensures key !in Insert(cfg, c, 0, Longer(c.order)).entries
  {
    EvictRemovesSpent(cfg, c, key);
    assert key in c.order;
  }

  /** Whatever the lookups and insertions of other keys, `key` outlives `n` insertions. */
  ghost predicate Survives(cfg: Config, c: Cache, key: string, n: int)
    requires key in c.entries
  {
    forall ops ::
      AllSpare(ops, key, c.entries[key]) && InsertCount(cfg, c, ops) <= n ==> key in Run(cfg, c, ops).entries
  }

  /** The retention guarantee of the cache, exactly: `Window` is the largest number of
      insertions that every schedule lets the key survive. */
  lemma SurvivesExactlyTheWindow(cfg: Config, c: Cache, key: string, n: nat)
    requires WellFormed(c) && key in c.entries
    ensures Survives(cfg, c, key, n) <==> n == 0 || n <= Window(cfg, c, key)
  {
    if n == 0 || n <= Window(cfg, c, key) {
      forall ops | AllSpare(ops, key, c.entries[key]) && InsertCount(cfg, c, ops) <= n
        ensures key in Run(cfg, c, ops).entries
      {
        RunKeepsWindow(cfg, c, ops, key);
      }
    } else {
      var m := if Window(cfg, c, key) < 0 then 0 else Window(cfg, c, key);
      FloodEvicts(cfg, c, m, key);
      FloodSpares(cfg, c, m + 1, key, c.entries[key]);
    }
  }

  /** After room was made, the first occurrence of the new key comes after every live key. */
  ghost predicate NoLiveKeyBehindTwin(cfg: Config, c: Cache, key: string) {
    var room := Evict(cfg, c);
    room.entries.Keys <= Ahead(room.order + [key], key)
  }

  lemma FreshWindow(cfg: Config, room: Cache, key: string, expiry: int)
    requires key !in room.entries
    ensures Window(cfg, Placed(room, key, expiry), key) <= cfg.maxSize - 1
    ensures Window(cfg, Placed(room, key, expiry), key) == cfg.maxSize - 1 <==>
              room.entries.Keys <= Ahead(room.order + [key], key)
  {
    var live, ahead := room.entries.Keys, Ahead(room.order + [key], key);
    BehindIsTheRest(live + {key}, room.order + [key], key);
    OneMoreLeft(live, ahead, key);
    NothingLeft(live, ahead);
    assert Placed(room, key, expiry).entries.Keys == live + {key};
  }

  lemma PlacedPromise(cfg: Config, room: Cache, d: Cache, key: string, expiry: int)
    requires WellFormed(room) && key !in room.entries && |room.entries| < cfg.maxSize
    requires d == Placed(room, key, expiry)
    ensures key in d.entries
    ensures Survives(cfg, d, key, cfg.maxSize - 1) <==> room.entries.Keys <= Ahead(room.order + [key], key)
    ensures room.entries.Keys <= Ahead(room.order + [key], key) ==> Window(cfg, d, key) == cfg.maxSize - 1
  {
    assert Elements(d.order) == Elements(room.order) + {key};
    SurvivesExactlyTheWindow(cfg, d, key, cfg.maxSize - 1);
    FreshWindow(cfg, room, key, expiry);
    if cfg.maxSize == 1 {
      assert room.entries == map[];
    }
  }

  lemma InsertPlaces(cfg: Config, c: Cache, now: int, key: string)
    requires WellFormed(c) && key !in c.entries && cfg.maxSize >= 1
    ensures var room := Evict(cfg, c);
            && WellFormed(room) && key !in room.entries && |room.entries| < cfg.maxSize
            && Insert(cfg, c, now, key) == Placed(room, key, now + cfg.ttlMs)
            && Elements(room.order) <= Elements(c.order)
  {
    EvictShape(cfg, c);
  }

  /** The promise "at least the next maxSize - 1 insertions" is kept for a new key if and
      only if no stale twin of it stands in front of a live key. */
  lemma PromiseIffNoStaleTwin(cfg: Config, c: Cache, now: int, key: string)
    requires WellFormed(c) && key !in c.entries && cfg.maxSize >= 1
    ensures key in Insert(cfg, c, now, key).entries
    ensures Survives(cfg, Insert(cfg, c, now, key), key, cfg.maxSize - 1) <==>
              NoLiveKeyBehindTwin(cfg, c, key)
    ensures NoLiveKeyBehindTwin(cfg, c, key) ==>
              Window(cfg, Insert(cfg, c, now, key), key) == cfg.maxSize - 1
  {
    InsertPlaces(cfg, c, now, key);
    PlacedPromise(cfg, Evict(cfg, c), Insert(cfg, c, now, key), key, now + cfg.ttlMs);
  }

  lemma UnlistedKeyHasNoTwin(cfg: Config, c: Cache, key: string)
    requires WellFormed(c) && key !in c.order
    ensures NoLiveKeyBehindTwin(cfg, c, key)
  {
    var room := Evict(cfg, c);
    EvictShape(cfg, c);
    assert key !in Elements(c.order);
    AheadSnoc(room.order, key, key);
    assert Ahead(room.order, key) == Elements(room.order);
  }

  /** The dedup window: a key that the list does not hold yet survives the next
      maxSize - 1 insertions. */
  lemma CleanInsertionSurvives(cfg: Config, c: Cache, now: int, key: string)
    requires WellFormed(c) && key !in c.order && cfg.maxSize >= 1
    ensures key in Insert(cfg, c, now, key).entries
    ensures Insert(cfg, c, now, key).entries[key] == now + cfg.ttlMs
    ensures Survives(cfg, Insert(cfg, c, now, key), key, cfg.maxSize - 1)
    ensures Window(cfg, Insert(cfg, c, now, key), key) == cfg.maxSize - 1
  {
    assert key !in Elements(c.order);
    InsertPlaces(cfg, c, now, key);
    UnlistedKeyHasNoTwin(cfg, c, key);
    PromiseIffNoStaleTwin(cfg, c, now, key);
  }

  /** Without that condition the promise is false.  With room for three keys, "a" expires at
      time 10, is purged and added again at time 11, and is gone two insertions later, while
      the older "b" is still live. */
  lemma StaleTwinEvictedEarly()
    ensures var cfg := Config(3, 10);
            var before := [Add(0, "a"), Add(5, "b"), Has(11, "a"), Add(11, "a")];
            var after := before + [Add(11, "c")] + [Add(11, "d")];
            && Present(Run(cfg, EMPTY, before), 11, "a")
            && !Present(Run(cfg, EMPTY, after), 11, "a")
            && Present(Run(cfg, EMPTY, after), 11, "b")
  {
    var cfg := Config(3, 10);
    var before := [Add(0, "a"), Add(5, "b"), Has(11, "a"), Add(11, "a")];
    StaleTwinArises(cfg);
    RunSnoc(cfg, EMPTY, before, Add(11, "c"));
    RunSnoc(cfg, EMPTY, before + [Add(11, "c")], Add(11, "d"));
    var c := Cache(map["a" := 21, "b" := 15, "c" := 21], ["a", "b", "a", "c"]);
    assert Run(cfg, EMPTY, before + [Add(11, "c")]) == c;
    TwinIsEvictedFirst(cfg, c);
  }

  lemma StaleTwinArises(cfg: Config)
    requires cfg == Config(3, 10)
    ensures Run(cfg, EMPTY, [Add(0, "a"), Add(5, "b"), Has(11, "a"), Add(11, "a")])
            == Cache(map["a" := 21, "b" := 15], ["a", "b", "a"])
  {
    var o2 := [] + [Add(0, "a")] + [Add(5, "b")];
    RunSnoc(cfg, EMPTY, [], Add(0, "a"));
    RunSnoc(cfg, EMPTY, [] + [Add(0, "a")], Add(5, "b"));
    RunSnoc(cfg, EMPTY, o2, Has(11, "a"));
    RunSnoc(cfg, EMPTY, o2 + [Has(11, "a")], Add(11, "a"));
    assert Run(cfg, EMPTY, o2 + [Has(11, "a")]) == Cache(map["b" := 15], ["a", "b"]);
    assert o2 + [Has(11, "a")] + [Add(11, "a")] == [Add(0, "a"), Add(5, "b"), Has(11, "a"), Add(11, "a")];
  }

  lemma TwinIsEvictedFirst(cfg: Config, c: Cache)
    requires cfg.maxSize == 3
    requires c == Cache(map["a" := 21, "b" := 15, "c" := 21], ["a", "b", "a", "c"])
    ensures Evict(cfg, c) == Cache(map["b" := 15, "c" := 21], ["b", "a", "c"])
  {
    var d := Cache(map["b" := 15, "c" := 21], ["b", "a", "c"]);
    assert c.entries - {"a"} == d.entries && c.order[1..] == d.order;
    assert d.entries.Keys == {"b", "c"} && c.entries.Keys == {"a", "b", "c"};
    assert |d.entries| == 2 && |c.entries| == 3;
  }

  // -------------------------------------------------- first in, first out while nothing expires

  ghost predicate NothingPurged(cfg: Config, ops: seq<Op>) {
    forall i :: 0 <= i < |ops| && ops[i].Has? ==>
      Lookup(Run(cfg, EMPTY, ops[..i]), ops[i].now, ops[i].key) == Run(cfg, EMPTY, ops[..i])
  }

  function Noted(c: Cache, inserted: seq<string>, op: Op): seq<string> {
    match op
    case Has(_, _) => inserted
    case Add(_, key) => if key in c.entries then inserted else inserted + [key]
    case Clear => []
  }

  /** The keys inserted since the last clear, oldest first. */
  function Insertions(cfg: Config, ops: seq<Op>): seq<string> {
    if ops == [] then [] else
      var before := ops[..|ops| - 1];
      Noted(Run(cfg, EMPTY, before), Insertions(cfg, before), ops[|ops| - 1])
  }

  function Last<T>(s: seq<T>, n: int): seq<T>
    requires n >= 0
  {
    if |s| <= n then s else s[|s| - n..]
  }

  ghost predicate InStep(c: Cache) {
    c.entries.Keys == Elements(c.order) && Distinct(c.order)
  }

  lemma EvictInStep(cfg: Config, c: Cache)
    requires InStep(c) && |c.order| <= Bound(cfg)
    ensures InStep(Evict(cfg, c))
    ensures Evict(cfg, c).order == if |c.order| < Bound(cfg) then c.order else c.order[1..]
  {
    DistinctCardinality(c.order);
    if |c.order| > 0 && |c.entries| >= cfg.maxSize {
      var popped := Cache(c.entries - {c.order[0]}, c.order[1..]);
      assert c.order == [c.order[0]] + popped.order;
      assert popped.entries.Keys == Elements(popped.order);
      DistinctCardinality(popped.order);
      assert |popped.entries| == |popped.order|;
      assert Evict(cfg, popped) == popped;
    }
  }

  lemma PlacedInStep(room: Cache, key: string, expiry: int)
    requires InStep(room) && key !in room.entries
    ensures InStep(Placed(room, key, expiry))
  {
    assert key !in Elements(room.order);
    assert Elements(room.order + [key]) == Elements(room.order) + {key};
  }

  lemma InsertInStep(cfg: Config, c: Cache, now: int, key: string)
    requires InStep(c) && |c.order| <= Bound(cfg) && key !in c.entries
    ensures InStep(Insert(cfg, c, now, key))
    ensures Insert(cfg, c, now, key).order ==
            (if |c.order| < Bound(cfg) then c.order else c.order[1..]) + [key]
  {
    EvictInStep(cfg, c);
    EvictShape(cfg, c);
    PlacedInStep(Evict(cfg, c), key, now + cfg.ttlMs);
  }

  lemma NothingPurgedBefore(cfg: Config, ops: seq<Op>, op: Op)
    requires NothingPurged(cfg, ops + [op])
    ensures NothingPurged(cfg, ops)
    ensures op.Has? ==> Lookup(Run(cfg, EMPTY, ops), op.now, op.key) == Run(cfg, EMPTY, ops)
  {
    assert (ops + [op])[..|ops|] == ops;
    forall i | 0 <= i < |ops| && ops[i].Has?
      ensures Lookup(Run(cfg, EMPTY, ops[..i]), ops[i].now, ops[i].key) == Run(cfg, EMPTY, ops[..i])
    {
      assert (ops + [op])[..i] == ops[..i] && (ops + [op])[i] == ops[i];
    }
  }

  lemma LastAppend<T>(s: seq<T>, x: T, n: int)
    requires n >= 1
    ensures Last(s + [x], n) == (if |Last(s, n)| < n then Last(s, n) else Last(s, n)[1..]) + [x]
  {
  }

  lemma FifoStep(cfg: Config, c: Cache, inserted: seq<string>, op: Op)
    requires InStep(c) && c.order == Last(inserted, Bound(cfg))
    requires op.Has? ==> Lookup(c, op.now, op.key) == c
    ensures InStep(Apply(cfg, c, op))
    ensures Apply(cfg, c, op).order == Last(Noted(c, inserted, op), Bound(cfg))
  {
    if op.Add? && op.key !in c.entries {
      InsertInStep(cfg, c, op.now, op.key);
      LastAppend(inserted, op.key, Bound(cfg));
    }
  }

  /** While no lookup has purged an expired key, the list has no duplicates, it agrees with
      the map, and both hold exactly the last max(1, maxSize) insertions, in order. */
  lemma {:induction false} UnpurgedCacheIsFifo(cfg: Config, ops: seq<Op>)
    requires NothingPurged(cfg, ops)
    ensures InStep(Run(cfg, EMPTY, ops))
    ensures Run(cfg, EMPTY, ops).order == Last(Insertions(cfg, ops), Bound(cfg))
  {
    if ops != [] {
      var before, op := ops[..|ops| - 1], ops[|ops| - 1];
      assert ops == before + [op];
      NothingPurgedBefore(cfg, before, op);
      UnpurgedCacheIsFifo(cfg, before);
      FifoStep(cfg, Run(cfg, EMPTY, before), Insertions(cfg, before), op);
    }
  }

  // ------------------------------------------------------------------ the implementation

  class IdempotencyCache {
    var entries: map<string, int>
    var order: seq<string>
    const cfg: Config

    constructor (cfg: Config)
      ensures this.cfg == cfg && View() == EMPTY
    {
      this.cfg := cfg;
      entries, order := map[], [];
    }

    function View(): Cache
      reads this
    {
      Cache(entries, order)
    }

    method Contains(now: int, key: string) returns (seen: bool)
      modifies this
      ensures seen == Present(old(View()), now, key)
      ensures View() == Apply(cfg, old(View()), Has(now, key))
    {
      if key !in entries {
        return false;
      }
      if now > entries[key] {
        entries := entries - {key};
        return false;
      }
      return true;
    }

    method Remember(now: int, key: string)
      modifies this
      ensures View() == Apply(cfg, old(View()), Add(now, key))
    {
      if key in entries {
        return;
      }
      while |entries| >= cfg.maxSize && |order| > 0
        invariant Evict(cfg, View()) == Evict(cfg, old(View()))
        decreases |order|
      {
        var oldest := order[0];
        order := order[1..];
        entries := entries - {oldest};
      }
      entries := entries[key := now + cfg.ttlMs];
      order := order + [key];
    }

    method Reset()
      modifies this
      ensures View() == Apply(cfg, old(View()), Clear)
    {
      entries := map[];
      order := [];
    }
  }
}
