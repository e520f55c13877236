// The daemon's cache of finished sends, and the queue that keeps lookups out of running sends.
module ResultCache {
  import opened Rows

  type Key = nat

  const SEND_CACHE_LIMIT: nat := 16
  const ATTEMPT_LIMIT: nat := 64

  // ------------------------------------------------------------------ a map that keeps insertion order

  datatype Ordered<V> = Ordered(order: seq<Key>, vals: map<Key, V>)

  predicate Distinct(keys: seq<Key>) {
    forall i, j :: 0 <= i < j < |keys| ==> keys[i] != keys[j]
  }

  ghost predicate OrderedOk<V>(m: Ordered<V>) {
    Distinct(m.order) && forall k :: k in m.vals <==> k in m.order
  }

  function Remove(keys: seq<Key>, key: Key): seq<Key> {
    if keys == [] then [] else if keys[0] == key then keys[1..] else [keys[0]] + Remove(keys[1..], key)
  }

  lemma {:induction false} RemoveMeaning(keys: seq<Key>, key: Key)
    requires Distinct(keys)
    ensures Distinct(Remove(keys, key)) && key !in Remove(keys, key)
    ensures forall k :: k != key ==> (k in Remove(keys, key) <==> k in keys)
    ensures |Remove(keys, key)| == (if key in keys then |keys| - 1 else |keys|)
  {
    if keys != [] {
      assert forall k :: k in keys <==> k == keys[0] || k in keys[1..];
      assert keys[0] !in keys[1..];
      if keys[0] != key {
        RemoveMeaning(keys[1..], key);
      }
    }
  }

  /** A key that is already there keeps its place. */
  function Put<V>(m: Ordered<V>, key: Key, value: V): Ordered<V> {
    Ordered(if key in m.vals then m.order else m.order + [key], m.vals[key := value])
  }

  function Drop<V>(m: Ordered<V>, key: Key): Ordered<V> {
    Ordered(Remove(m.order, key), m.vals - {key})
  }

  lemma PutOk<V>(m: Ordered<V>, key: Key, value: V)
    requires OrderedOk(m)
    ensures OrderedOk(Put(m, key, value)) && |Put(m, key, value).order| <= |m.order| + 1
  {
  }

  lemma DropOk<V>(m: Ordered<V>, key: Key)
    requires OrderedOk(m)
    ensures OrderedOk(Drop(m, key)) && |Drop(m, key).order| <= |m.order|
    ensures key in m.vals ==> |Drop(m, key).order| == |m.order| - 1
  {
    RemoveMeaning(m.order, key);
  }

  function Behead<V>(m: Ordered<V>): Ordered<V>
    requires m.order != []
  {
    Ordered(m.order[1..], m.vals - {m.order[0]})
  }

  lemma BeheadOk<V>(m: Ordered<V>)
    requires OrderedOk(m) && m.order != []
    ensures OrderedOk(Behead(m)) && m.order[0] in m.vals && m.order[0] !in Behead(m).vals
  {
    assert forall k :: k in m.order <==> k == m.order[0] || k in m.order[1..];
    assert m.order[0] !in m.order[1..];
  }

  // ------------------------------------------------------------------ what the cache does

  datatype Cache = Cache(attempts: Ordered<nat>, entries: Ordered<SendResult>)

  const EMPTY := Cache(Ordered([], map[]), Ordered([], map[]))

  function CountOf(c: Cache, key: Key): nat {
    if key in c.attempts.vals then c.attempts.vals[key] else 0
  }

  /** Forgets the oldest keys, with their results, until the attempts fit. */
  function TrimAttempts(c: Cache): Cache
    decreases |c.attempts.order|
  {
    if |c.attempts.order| <= ATTEMPT_LIMIT then c
    else
      var oldest := c.attempts.order[0];
      TrimAttempts(Cache(Behead(c.attempts), Drop(c.entries, oldest)))
  }

  function TrimEntries(entries: Ordered<SendResult>): Ordered<SendResult>
    decreases |entries.order|
  {
    if |entries.order| <= SEND_CACHE_LIMIT then entries
    else TrimEntries(Behead(entries))
  }

  function Begin(c: Cache, key: Key): Cache {
    var counted := Put(c.attempts, key, CountOf(c, key) + 1);
    TrimAttempts(Cache(counted, if CountOf(c, key) + 1 > 1 then Drop(c.entries, key) else c.entries))
  }

  function Store(c: Cache, key: Key, result: SendResult): Cache {
    if CountOf(c, key) != 1 then c
    else c.(entries := TrimEntries(Put(Drop(c.entries, key), key, result)))
  }

  function Lookup(c: Cache, key: Key): Option<SendResult> {
    if key in c.entries.vals then Some(c.entries.vals[key]) else None
  }

  // ------------------------------------------------------------------ the invariant

  ghost predicate Agrees(attempts: map<Key, nat>, entries: map<Key, SendResult>) {
    && (forall k :: k in entries ==> k in attempts && attempts[k] == 1)
    && (forall k :: k in attempts ==> attempts[k] >= 1)
  }

  ghost predicate Valid(c: Cache) {
    && OrderedOk(c.attempts) && |c.attempts.order| <= ATTEMPT_LIMIT
    && OrderedOk(c.entries) && |c.entries.order| <= SEND_CACHE_LIMIT
    && Agrees(c.attempts.vals, c.entries.vals)
  }

  /** The cache right after a start was counted, before old keys are forgotten. */
  function Counted(c: Cache, key: Key): Cache {
    Cache(Put(c.attempts, key, CountOf(c, key) + 1),
          if CountOf(c, key) + 1 > 1 then Drop(c.entries, key) else c.entries)
  }

  lemma CountedOk(c: Cache, key: Key)
    requires Valid(c)
    ensures var counted := Counted(c, key);
            && OrderedOk(counted.attempts) && |counted.attempts.order| <= ATTEMPT_LIMIT + 1
            && OrderedOk(counted.entries) && |counted.entries.order| <= SEND_CACHE_LIMIT
            && Agrees(counted.attempts.vals, counted.entries.vals)
            && CountOf(counted, key) == CountOf(c, key) + 1
            && (CountOf(c, key) >= 1 ==> key !in counted.entries.vals)
  {
    PutOk(c.attempts, key, CountOf(c, key) + 1);
    DropOk(c.entries, key);
  }

  lemma TrimmedOk(c: Cache, key: Key)
    requires OrderedOk(c.attempts) && |c.attempts.order| <= ATTEMPT_LIMIT + 1
    requires OrderedOk(c.entries) && |c.entries.order| <= SEND_CACHE_LIMIT && Agrees(c.attempts.vals, c.entries.vals)
    ensures Valid(TrimAttempts(c))
    ensures TrimAttempts(c) == if |c.attempts.order| <= ATTEMPT_LIMIT then c
                               else Cache(Behead(c.attempts), Drop(c.entries, c.attempts.order[0]))
  {
    if |c.attempts.order| > ATTEMPT_LIMIT {
      BeheadOk(c.attempts);
      DropOk(c.entries, c.attempts.order[0]);
      var trimmed := Cache(Behead(c.attempts), Drop(c.entries, c.attempts.order[0]));
      assert TrimAttempts(trimmed) == trimmed;
    }
  }

  /** A start is counted, keeps the bounds, and a second one makes the key unanswerable. */
  lemma BeginKeepsValid(c: Cache, key: Key)
    requires Valid(c)
    ensures Valid(Begin(c, key))
    ensures CountOf(Begin(c, key), key) == CountOf(c, key) + 1
    ensures CountOf(c, key) >= 1 ==> Lookup(Begin(c, key), key) == None
  {
    hide OrderedOk, Agrees;
    var counted := Counted(c, key);
    CountedOk(c, key);
    TrimmedOk(counted, key);
    if |counted.attempts.order| > ATTEMPT_LIMIT {
      NewestIsNotOldest(c, key);
    }
  }

  lemma NewestIsNotOldest(c: Cache, key: Key)
    requires OrderedOk(c.attempts) && |c.attempts.order| <= ATTEMPT_LIMIT && |Counted(c, key).attempts.order| > ATTEMPT_LIMIT
    ensures key !in c.attempts.vals && Counted(c, key).attempts.order[0] != key
    ensures Counted(c, key).attempts.order == c.attempts.order + [key]
  {
  }

  lemma StoredOk(entries: Ordered<SendResult>, key: Key, result: SendResult)
    requires OrderedOk(entries) && |entries.order| <= SEND_CACHE_LIMIT
    ensures var stored := TrimEntries(Put(Drop(entries, key), key, result));
            && OrderedOk(stored) && |stored.order| <= SEND_CACHE_LIMIT
            && key in stored.vals && stored.vals[key] == result
            && (forall k :: k in stored.vals && k != key ==> k in entries.vals && stored.vals[k] == entries.vals[k])
  {
    DropOk(entries, key);
    RemoveMeaning(entries.order, key);
    var put := Put(Drop(entries, key), key, result);
    PutOk(Drop(entries, key), key, result);
    if |put.order| > SEND_CACHE_LIMIT {
      BeheadOk(put);
      assert put.order[|put.order| - 1] == key;
      assert TrimEntries(Behead(put)) == Behead(put);
    }
  }

  /** A result is kept exactly when its prompt was started once. */
  lemma StoreKeepsValid(c: Cache, key: Key, result: SendResult)
    requires Valid(c)
    ensures Valid(Store(c, key, result))
    ensures Store(c, key, result).attempts == c.attempts
    ensures Lookup(Store(c, key, result), key) == if CountOf(c, key) == 1 then Some(result) else Lookup(c, key)
  {
    hide OrderedOk;
    StoredOk(c.entries, key, result);
  }

  // ------------------------------------------------------------------ how long a prompt stays ambiguous

  function IndexOf(keys: seq<Key>, key: Key): (i: nat)
    requires key in keys
    ensures i < |keys| && keys[i] == key
  {
    if keys[0] == key then 0 else 1 + IndexOf(keys[1..], key)
  }

  predicate Known(c: Cache, key: Key) {
    key in c.attempts.vals && key in c.attempts.order
  }

  /** How many keys were first started after this one. */
  function Newer(c: Cache, key: Key): nat
    requires Known(c, key)
  {
    |c.attempts.order| - 1 - IndexOf(c.attempts.order, key)
  }

  /** What a start makes of the order of the keys. */
  lemma BegunOrder(c: Cache, started: Key)
    requires Valid(c)
    ensures var order := Begin(c, started).attempts.order;
            if started in c.attempts.vals then order == c.attempts.order
            else if |c.attempts.order| < ATTEMPT_LIMIT then order == c.attempts.order + [started]
            else order == c.attempts.order[1..] + [started]
  {
    hide OrderedOk, Agrees;
    CountedOk(c, started);
    TrimmedOk(Counted(c, started), started);
    if |Counted(c, started).attempts.order| > ATTEMPT_LIMIT {
      NewestIsNotOldest(c, started);
      assert (c.attempts.order + [started])[1..] == c.attempts.order[1..] + [started];
    }
  }

  /** Known keys are those in the order, and none is there twice. */
  lemma KnownIs(c: Cache, key: Key)
    requires Valid(c)
    ensures Known(c, key) <==> key in c.attempts.order
    ensures Known(c, key) <==> key in c.attempts.vals
    ensures Distinct(c.attempts.order) && (key in c.entries.vals ==> Known(c, key))
  {
  }

  lemma {:induction false} IndexInPrefix(keys: seq<Key>, key: Key, more: seq<Key>)
    requires key in keys
    ensures key in keys + more && IndexOf(keys + more, key) == IndexOf(keys, key)
  {
    if keys[0] != key {
      assert (keys + more)[1..] == keys[1..] + more;
      IndexInPrefix(keys[1..], key, more);
    }
  }

  /** A start of a new key ages every other key by one, and the 64th pushes a key out, whatever its count. */
  lemma BeginAges(c: Cache, key: Key, started: Key)
    requires Valid(c) && Known(c, key)
    ensures var c' := Begin(c, started);
            if Known(c, started) then Known(c', key) && Newer(c', key) == Newer(c, key)
            else if Newer(c, key) == ATTEMPT_LIMIT - 1 then key !in c'.attempts.vals && key !in c'.entries.vals
            else Known(c', key) && Newer(c', key) == Newer(c, key) + 1
  {
    hide Valid, Begin, Known, Distinct;
    var c' := Begin(c, started);
    BegunOrder(c, started);
    BeginKeepsValid(c, started);
    KnownIs(c, key);
    KnownIs(c, started);
    KnownIs(c', key);
    AgedOrder(c.attempts.order, key, started);
    AtMostSixtyFour(c);
  }

  lemma AtMostSixtyFour(c: Cache)
    requires Valid(c)
    ensures |c.attempts.order| <= ATTEMPT_LIMIT
  {
  }

  lemma AgedOrder(order: seq<Key>, key: Key, started: Key)
    requires Distinct(order) && key in order
    ensures key in order + [started] && IndexOf(order + [started], key) == IndexOf(order, key)
    ensures var aged := order[1..] + [started];
            if IndexOf(order, key) == 0 then key in aged ==> key == started
            else key in aged && IndexOf(aged, key) == IndexOf(order, key) - 1
  {
    IndexInPrefix(order, key, [started]);
    if IndexOf(order, key) == 0 {
      assert forall i :: 1 <= i < |order| ==> order[i] != order[0];
    } else {
      IndexInPrefix(order[1..], key, [started]);
    }
  }

  /** The start of one key leaves the counts of the keys that stay known. */
  lemma BeginCounts(c: Cache, key: Key, started: Key)
    requires Valid(c) && key in c.attempts.vals && key in Begin(c, started).attempts.vals
    ensures CountOf(Begin(c, started), key) == CountOf(c, key) + (if key == started then 1 else 0)
  {
    hide OrderedOk, Agrees;
    CountedOk(c, started);
    TrimmedOk(Counted(c, started), started);
  }

  datatype Op = BeginOp(key: Key) | StoreOp(key: Key, result: SendResult)

  function Apply(c: Cache, op: Op): Cache {
    match op
    case BeginOp(key) => Begin(c, key)
    case StoreOp(key, result) => Store(c, key, result)
  }

  function Run(c: Cache, ops: seq<Op>): Cache {
    if ops == [] then c else Apply(Run(c, ops[..|ops| - 1]), ops[|ops| - 1])
  }

  /** The starts of keys that were not known at the time. */
  function NewKeys(c: Cache, ops: seq<Op>): nat {
    if ops == [] then 0
    else
      var n := |ops| - 1;
      NewKeys(c, ops[..n]) + (if ops[n].BeginOp? && !Known(Run(c, ops[..n]), ops[n].key) then 1 else 0)
  }

  lemma {:induction false} RunKeepsValid(c: Cache, ops: seq<Op>)
    requires Valid(c)
    ensures Valid(Run(c, ops))
  {
    if ops != [] {
      var n := |ops| - 1;
      RunKeepsValid(c, ops[..n]);
      match ops[n]
      case BeginOp(key) => BeginKeepsValid(Run(c, ops[..n]), key);
      case StoreOp(key, result) => StoreKeepsValid(Run(c, ops[..n]), key, result);
    }
  }

  /** From an empty cache on: at most 64 keys and 16 results, and a result only for a prompt started exactly once. */
  lemma CacheStaysSmall(ops: seq<Op>)
    ensures var c := Run(EMPTY, ops);
            && |c.attempts.order| <= 64 && |c.entries.order| <= 16
            && forall k :: k in c.entries.vals ==> CountOf(c, k) == 1
  {
    assert Valid(EMPTY);
    RunKeepsValid(EMPTY, ops);
  }

  /** A prompt started twice is not answered from the cache while fewer than 64 keys are newer than its first start. */
  lemma {:induction false} AmbiguousUntilPushedOut(c: Cache, key: Key, ops: seq<Op>)
    requires Valid(c) && Known(c, key) && CountOf(c, key) >= 2 && Newer(c, key) + NewKeys(c, ops) < ATTEMPT_LIMIT
    ensures var c' := Run(c, ops);
            && Known(c', key) && CountOf(c', key) >= 2 && Newer(c', key) == Newer(c, key) + NewKeys(c, ops)
            && Lookup(c', key) == None
  {
    hide OrderedOk, Newer, Begin, Store;
    RunKeepsValid(c, ops);
    if ops != [] {
      var n := |ops| - 1;
      var before := Run(c, ops[..n]);
      AmbiguousUntilPushedOut(c, key, ops[..n]);
      RunKeepsValid(c, ops[..n]);
      match ops[n]
      case BeginOp(started) =>
        BeginAges(before, key, started);
        BeginCounts(before, key, started);
      case StoreOp(stored, result) =>
        StoreKeepsValid(before, stored, result);
        SameAttempts(before, Store(before, stored, result), key);
    }
  }

  lemma SameAttempts(c: Cache, c': Cache, key: Key)
    requires c'.attempts == c.attempts
    ensures Known(c', key) <==> Known(c, key)
    ensures CountOf(c', key) == CountOf(c, key) && (Known(c, key) ==> Newer(c', key) == Newer(c, key))
  {
  }

  ghost predicate NeverStarts(ops: seq<Op>, key: Key) {
    forall i :: 0 <= i < |ops| ==> ops[i] != BeginOp(key)
  }

  /** A key that is not started again is forgotten exactly when 64 keys are newer. */
  lemma {:induction false} KnownIffYoung(c: Cache, key: Key, ops: seq<Op>)
    requires Valid(c) && Known(c, key) && NeverStarts(ops, key)
    ensures var c' := Run(c, ops);
            && (Known(c', key) <==> Newer(c, key) + NewKeys(c, ops) < ATTEMPT_LIMIT)
            && (Known(c', key) ==> Newer(c', key) == Newer(c, key) + NewKeys(c, ops))
  {
    hide Valid, Newer, Begin, Store, Known;
    if ops != [] {
      var n := |ops| - 1;
      var before := Run(c, ops[..n]);
      KnownIffYoung(c, key, ops[..n]);
      RunKeepsValid(c, ops[..n]);
      RunKeepsValid(c, ops);
      match ops[n]
      case BeginOp(started) =>
        if Known(before, key) {
          BeginAges(before, key, started);
          NewerIsBounded(before, key);
          KnownIs(Run(c, ops), key);
        } else {
          StaysUnknown(before, key, started);
        }
      case StoreOp(stored, result) =>
        StoreKeepsValid(before, stored, result);
        SameAttempts(before, Store(before, stored, result), key);
    } else {
      NewerIsBounded(c, key);
    }
  }

  lemma NewerIsBounded(c: Cache, key: Key)
    requires Valid(c) && Known(c, key)
    ensures Newer(c, key) < ATTEMPT_LIMIT
  {
  }

  lemma StaysUnknown(c: Cache, key: Key, started: Key)
    requires Valid(c) && !Known(c, key) && started != key
    ensures !Known(Begin(c, started), key)
  {
    hide Begin, Valid;
    BegunOrder(c, started);
    BeginKeepsValid(c, started);
    KnownIs(c, key);
    KnownIs(Begin(c, started), key);
  }

  lemma RunTwoMore(c: Cache, ops: seq<Op>, a: Op, b: Op)
    ensures Run(c, ops + [a, b]) == Apply(Apply(Run(c, ops), a), b)
  {
    hide Begin, Store;
    assert (ops + [a, b])[..|ops| + 1] == ops + [a];
    assert (ops + [a])[..|ops|] == ops;
  }

  /**
   * The comment at the cache calls a prompt started twice ambiguous for good. The code answers its next send again
   * exactly when at least 64 keys have become newer than its first start.
   */
  lemma AnsweredAgainIff(c: Cache, key: Key, ops: seq<Op>, result: SendResult)
    requires Valid(c) && Known(c, key) && CountOf(c, key) >= 2 && NeverStarts(ops, key)
    ensures Lookup(Run(c, ops + [BeginOp(key), StoreOp(key, result)]), key)
            == if Newer(c, key) + NewKeys(c, ops) >= ATTEMPT_LIMIT then Some(result) else None
  {
    hide Valid, Newer, Known, Begin, Store, Run, Lookup, CountOf;
    var before := Run(c, ops);
    RunTwoMore(c, ops, BeginOp(key), StoreOp(key, result));
    RunKeepsValid(c, ops);
    BeginKeepsValid(before, key);
    StoreKeepsValid(Begin(before, key), key, result);
    KnownIffYoung(c, key, ops);
    if Newer(c, key) + NewKeys(c, ops) < ATTEMPT_LIMIT {
      AmbiguousUntilPushedOut(c, key, ops);
    } else {
      UnknownIsUncounted(before, key);
    }
  }

  lemma UnknownIsUncounted(c: Cache, key: Key)
    requires Valid(c) && !Known(c, key)
    ensures CountOf(c, key) == 0
  {
  }

  // ------------------------------------------------------------------ such a run

  function Starts(keys: seq<Key>): seq<Op> {
    seq(|keys|, i requires 0 <= i < |keys| => BeginOp(keys[i]))
  }

  /** Only keys that were known or started are known. */
  lemma {:induction false} KnownWasStarted(c: Cache, keys: seq<Key>, key: Key)
    requires Valid(c) && Known(Run(c, Starts(keys)), key)
    ensures Known(c, key) || key in keys
  {
    hide Valid, Begin, Known;
    if keys != [] {
      var n := |keys| - 1;
      assert Starts(keys)[..n] == Starts(keys[..n]);
      RunKeepsValid(c, Starts(keys[..n]));
      if key != keys[n] {
        var before := Run(c, Starts(keys[..n]));
        if !Known(before, key) {
          StaysUnknown(before, key, keys[n]);
        }
        KnownWasStarted(c, keys[..n], key);
      }
    }
  }

  /** Distinct keys that are not known are all new. */
  lemma {:induction false} AllAreNew(c: Cache, keys: seq<Key>)
    requires Valid(c) && Distinct(keys) && forall i :: 0 <= i < |keys| ==> !Known(c, keys[i])
    ensures NewKeys(c, Starts(keys)) == |keys|
  {
    hide Valid, Begin, Known;
    if keys != [] {
      var n := |keys| - 1;
      assert Starts(keys)[..n] == Starts(keys[..n]);
      AllAreNew(c, keys[..n]);
      if Known(Run(c, Starts(keys[..n])), keys[n]) {
        KnownWasStarted(c, keys[..n], keys[n]);
      }
    }
  }

  lemma StartedTwice(key: Key)
    ensures var c := Run(EMPTY, Starts([key, key]));
            && Valid(c) && Known(c, key) && CountOf(c, key) == 2 && Newer(c, key) == 0
            && forall other :: other != key ==> !Known(c, other)
  {
    var ops := Starts([key, key]);
    assert ops == [] + [BeginOp(key), BeginOp(key)];
    RunTwoMore(EMPTY, [], BeginOp(key), BeginOp(key));
    var once := Begin(EMPTY, key);
    assert once == Cache(Ordered([key], map[key := 1]), Ordered([], map[]));
    assert Begin(once, key).attempts == Ordered([key], map[key := 2]);
    RunKeepsValid(EMPTY, ops);
  }

  lemma {:induction false} RunConcat(c: Cache, a: seq<Op>, b: seq<Op>)
    ensures Run(c, a + b) == Run(Run(c, a), b)
  {
    if b == [] {
      assert a + b == a;
    } else {
      RunConcat(c, a, b[..|b| - 1]);
      assert (a + b)[..|a + b| - 1] == a + b[..|b| - 1];
    }
  }

  /**
   * From an empty cache, a prompt started twice and then any distinct other prompts: a further send of it is
   * answered from the cache when there were 64 others, and is not when there were fewer.
   */
  lemma ForgottenAfterSixtyFour(key: Key, others: seq<Key>, result: SendResult)
    requires Distinct(others) && key !in others
    ensures Lookup(Run(EMPTY, Starts([key, key]) + Starts(others) + [BeginOp(key), StoreOp(key, result)]), key)
            == if |others| >= 64 then Some(result) else None
  {
    hide Valid, Newer, Known, Run, Lookup, CountOf, Distinct;
    var c := Run(EMPTY, Starts([key, key]));
    StartedTwice(key);
    AllAreNew(c, others);
    AnsweredAgainIff(c, key, Starts(others), result);
    var tail := [BeginOp(key), StoreOp(key, result)];
    RunConcat(EMPTY, Starts([key, key]), Starts(others) + tail);
    assert Starts([key, key]) + (Starts(others) + tail) == Starts([key, key]) + Starts(others) + tail;
  }

  // ------------------------------------------------------------------ how long a result is kept

  function Later(order: seq<Key>, key: Key): nat
    requires key in order
  {
    if order[0] == key then |order| - 1 else Later(order[1..], key)
  }

  lemma {:induction false} LaterWithout(order: seq<Key>, key: Key, other: Key)
    requires key in order && key != other
    ensures key in Remove(order, other) && Later(Remove(order, other), key) <= Later(order, key)
  {
    RemovedLength(order, other);
    if order[0] != other && order[0] != key {
      LaterWithout(order[1..], key, other);
      assert Remove(order, other)[1..] == Remove(order[1..], other);
    }
  }

  lemma {:induction false} RemovedLength(order: seq<Key>, other: Key)
    ensures |Remove(order, other)| <= |order|
  {
    if order != [] && order[0] != other {
      RemovedLength(order[1..], other);
    }
  }

  lemma {:induction false} LaterWithNew(order: seq<Key>, key: Key, other: Key)
    requires key in order
    ensures Later(order + [other], key) == Later(order, key) + 1
  {
    if order[0] != key {
      LaterWithNew(order[1..], key, other);
      assert (order + [other])[1..] == order[1..] + [other];
    }
  }

  lemma {:induction false} LaterIsShort(order: seq<Key>, key: Key)
    requires key in order
    ensures Later(order, key) < |order|
    ensures order[0] == key <==> Later(order, key) == |order| - 1
  {
    if order[0] != key {
      LaterIsShort(order[1..], key);
    }
  }

  /** The results that are stored after this one. */
  predicate HasResult(c: Cache, key: Key, result: SendResult, later: nat) {
    key in c.entries.order && key in c.entries.vals && c.entries.vals[key] == result && Later(c.entries.order, key) <= later
  }

  lemma DropLeaves(entries: Ordered<SendResult>, key: Key, other: Key)
    requires OrderedOk(entries) && key in entries.order && key != other
    ensures var rest := Drop(entries, other);
            && key in rest.order && key in rest.vals && rest.vals[key] == entries.vals[key]
            && Later(rest.order, key) <= Later(entries.order, key)
  {
    LaterWithout(entries.order, key, other);
  }

  lemma StoreLeaves(c: Cache, key: Key, result: SendResult, later: nat, stored: Key, r: SendResult)
    requires Valid(c) && HasResult(c, key, result, later) && stored != key && later < SEND_CACHE_LIMIT - 1
    ensures HasResult(Store(c, stored, r), key, result, later + 1)
  {
    if CountOf(c, stored) == 1 {
      DropLeaves(c.entries, key, stored);
      DropOk(c.entries, stored);
      RemoveMeaning(c.entries.order, stored);
      var rest := Drop(c.entries, stored);
      LaterWithNew(rest.order, key, stored);
      var put := Put(rest, stored, r);
      assert put.order == rest.order + [stored];
      if |put.order| > SEND_CACHE_LIMIT {
        LaterIsShort(put.order, key);
        assert TrimEntries(put) == TrimEntries(Behead(put)) == Behead(put);
      }
    }
  }

  lemma BeginLeaves(c: Cache, key: Key, result: SendResult, later: nat, started: Key)
    requires Valid(c) && HasResult(c, key, result, later) && started != key && Known(Begin(c, started), key)
    ensures HasResult(Begin(c, started), key, result, later)
  {
    hide Agrees;
    var counted := Counted(c, started);
    CountedOk(c, started);
    TrimmedOk(counted, started);
    DropLeaves(c.entries, key, started);
    if |counted.attempts.order| > ATTEMPT_LIMIT {
      var oldest := counted.attempts.order[0];
      BeheadOk(counted.attempts);
      DropLeaves(counted.entries, key, oldest);
    }
  }

  /** The results of other prompts that are stored. */
  function Stores(ops: seq<Op>): nat {
    if ops == [] then 0 else Stores(ops[..|ops| - 1]) + (if ops[|ops| - 1].StoreOp? then 1 else 0)
  }

  ghost predicate NeverStores(ops: seq<Op>, key: Key) {
    forall i :: 0 <= i < |ops| && ops[i].StoreOp? ==> ops[i].key != key
  }

  /**
   * A stored result stays for its prompt while fewer than 16 results are stored after it, its prompt is not started
   * again, and fewer than 64 keys are newer.
   */
  lemma {:induction false} ResultSurvives(c: Cache, key: Key, result: SendResult, later: nat, ops: seq<Op>)
    requires Valid(c) && HasResult(c, key, result, later) && Known(c, key)
    requires NeverStarts(ops, key) && NeverStores(ops, key)
    requires later + Stores(ops) < 16 && Newer(c, key) + NewKeys(c, ops) < 64
    ensures HasResult(Run(c, ops), key, result, later + Stores(ops))
    ensures Lookup(Run(c, ops), key) == Some(result)
  {
    hide Valid, Newer, Begin, Store, Known, HasResult;
    if ops != [] {
      var n := |ops| - 1;
      var before := Run(c, ops[..n]);
      ResultSurvives(c, key, result, later, ops[..n]);
      RunKeepsValid(c, ops[..n]);
      KnownIffYoung(c, key, ops);
      match ops[n]
      case BeginOp(started) => BeginLeaves(before, key, result, later + Stores(ops[..n]), started);
      case StoreOp(stored, r) => StoreLeaves(before, key, result, later + Stores(ops[..n]), stored, r);
    }
    AnsweredIfHeld(Run(c, ops), key, result, later + Stores(ops));
  }

  lemma AnsweredIfHeld(c: Cache, key: Key, result: SendResult, later: nat)
    requires HasResult(c, key, result, later)
    ensures Lookup(c, key) == Some(result)
  {
  }

  // ------------------------------------------------------------------ different prompts, each sent once

  function Sends(keys: seq<Key>, result: Key -> SendResult): seq<Op> {
    if keys == [] then []
    else
      var key := keys[|keys| - 1];
      Sends(keys[..|keys| - 1], result) + [BeginOp(key), StoreOp(key, result(key))]
  }

  function LastOf(keys: seq<Key>, n: nat): seq<Key> {
    if |keys| <= n then keys else keys[|keys| - n..]
  }

  lemma LastOfMore(keys: seq<Key>, key: Key, n: nat)
    requires n > 0
    ensures var last := LastOf(keys, n);
            LastOf(keys + [key], n) == (if |last| < n then last + [key] else last[1..] + [key])
  {
  }

  lemma {:induction false} RemoveAbsent(keys: seq<Key>, key: Key)
    requires key !in keys
    ensures Remove(keys, key) == keys
  {
    if keys != [] {
      RemoveAbsent(keys[1..], key);
    }
  }

  lemma SendNew(c: Cache, key: Key, result: SendResult)
    requires Valid(c) && key !in c.attempts.order
    requires |c.attempts.order| == ATTEMPT_LIMIT ==> c.attempts.order[0] !in c.entries.order
    ensures var sent, e := Store(Begin(c, key), key, result), c.entries.order;
            && Valid(sent)
            && sent.attempts.order == (if |c.attempts.order| < ATTEMPT_LIMIT then c.attempts.order + [key] else c.attempts.order[1..] + [key])
            && sent.entries.order == (if |e| < SEND_CACHE_LIMIT then e + [key] else e[1..] + [key])
            && (forall k :: k in sent.entries.vals ==>
                  if k == key then sent.entries.vals[k] == result else k in c.entries.vals && sent.entries.vals[k] == c.entries.vals[k])
  {
    hide Begin, Valid, TrimEntries, Remove;
    var begun := Begin(c, key);
    KnownIs(c, key);
    BegunOrder(c, key);
    BeginKeepsValid(c, key);
    AtMostSixtyFour(c);
    StoreKeepsValid(begun, key, result);
    BegunEntries(c, key);
    StoreNew(begun, key, result);
  }

  /** A result of a prompt that has none goes to the end, and over sixteen the first one leaves. */
  lemma StoreNew(c: Cache, key: Key, result: SendResult)
    requires Valid(c) && key !in c.entries.order && CountOf(c, key) == 1
    ensures var stored, e := Store(c, key, result).entries, c.entries.order;
            && stored.order == (if |e| < SEND_CACHE_LIMIT then e + [key] else e[1..] + [key])
            && forall k :: k in stored.vals ==>
                 if k == key then stored.vals[k] == result else k in c.entries.vals && stored.vals[k] == c.entries.vals[k]
  {
    StoredOk(c.entries, key, result);
    RemoveAbsent(c.entries.order, key);
    var put := Put(Drop(c.entries, key), key, result);
    if |put.order| > SEND_CACHE_LIMIT {
      assert TrimEntries(put) == TrimEntries(Behead(put)) == Behead(put);
    }
  }

  lemma BegunEntries(c: Cache, key: Key)
    requires Valid(c)
    ensures forall k :: k in Begin(c, key).entries.vals ==> k in c.entries.vals && Begin(c, key).entries.vals[k] == c.entries.vals[k]
    ensures key !in c.attempts.order && (|c.attempts.order| == ATTEMPT_LIMIT ==> c.attempts.order[0] !in c.entries.order) ==>
              Begin(c, key).entries.order == c.entries.order && key !in c.entries.order
  {
    CountedOk(c, key);
    TrimmedOk(Counted(c, key), key);
    if |c.attempts.order| == ATTEMPT_LIMIT && c.attempts.order[0] !in c.entries.order {
      RemoveAbsent(c.entries.order, c.attempts.order[0]);
    }
  }

  lemma {:induction false} SentOnce(keys: seq<Key>, result: Key -> SendResult)
    requires Distinct(keys)
    ensures var c := Run(EMPTY, Sends(keys, result));
            && Valid(c) && c.attempts.order == LastOf(keys, 64) && c.entries.order == LastOf(keys, 16)
            && forall k :: k in c.entries.vals ==> c.entries.vals[k] == result(k)
  {
    hide Begin, Store, OrderedOk, Agrees;
    if keys != [] {
      var n := |keys| - 1;
      var before, key := Run(EMPTY, Sends(keys[..n], result)), keys[n];
      SentOnce(keys[..n], result);
      RunTwoMore(EMPTY, Sends(keys[..n], result), BeginOp(key), StoreOp(key, result(key)));
      assert keys[..n] + [key] == keys;
      LastOfMore(keys[..n], key, 64);
      LastOfMore(keys[..n], key, 16);
      SendNew(before, key, result(key));
    } else {
      assert Valid(EMPTY) by { EmptyIsValid(); }
    }
  }

  lemma EmptyIsValid()
    ensures Valid(EMPTY)
  {
  }

  /** From an empty cache, of different prompts sent once each exactly the sixteen last ones are answered. */
  lemma NewestSixteenAreAnswered(keys: seq<Key>, result: Key -> SendResult, i: nat)
    requires Distinct(keys) && i < |keys|
    ensures Lookup(Run(EMPTY, Sends(keys, result)), keys[i]) == if |keys| - i <= 16 then Some(result(keys[i])) else None
  {
    SentOnce(keys, result);
    var c := Run(EMPTY, Sends(keys, result));
    assert keys[i] in c.entries.order <==> |keys| - i <= 16 by {
      if |keys| - i <= 16 && |keys| > 16 {
        assert keys[|keys| - 16..][i - (|keys| - 16)] == keys[i];
      }
    }
  }

  // ------------------------------------------------------------------ the class

  class SendResultCache {
    var attempts: Ordered<nat>
    var entries: Ordered<SendResult>

    function View(): Cache
      reads this
    {
      Cache(attempts, entries)
    }

    constructor ()
      ensures View() == EMPTY
    {
      attempts, entries := Ordered([], map[]), Ordered([], map[]);
    }

    method BeginAttempt(promptSha256: Key)
      modifies this
      ensures View() == Begin(old(View()), promptSha256)
    {
      var count := (if promptSha256 in attempts.vals then attempts.vals[promptSha256] else 0) + 1;
      attempts := Put(attempts, promptSha256, count);
      if count > 1 {
        entries := Drop(entries, promptSha256);
      }
      while |attempts.order| > ATTEMPT_LIMIT
        invariant TrimAttempts(View()) == Begin(old(View()), promptSha256)
        decreases |attempts.order|
      {
        var oldest := attempts.order[0];
        attempts := Behead(attempts);
        entries := Drop(entries, oldest);
      }
    }

    method Set(promptSha256: Key, result: SendResult)
      modifies this`entries
      ensures View() == Store(old(View()), promptSha256, result)
    {
      if promptSha256 !in attempts.vals || attempts.vals[promptSha256] != 1 {
        return;
      }
      entries := Put(Drop(entries, promptSha256), promptSha256, result);
      while |entries.order| > SEND_CACHE_LIMIT
        invariant TrimEntries(entries) == Store(old(View()), promptSha256, result).entries
        decreases |entries.order|
      {
        entries := Behead(entries);
      }
    }

    method Get(promptSha256: Key) returns (result: Option<SendResult>)
      ensures result == Lookup(View(), promptSha256)
    {
      result := if promptSha256 in entries.vals then Some(entries.vals[promptSha256]) else None;
    }
  }

  // ------------------------------------------------------------------ the mutation queue

  datatype Work = SendWork(key: Key) | ReconcileWork(key: Key) | OtherWork

  datatype Phase = Waiting | Running | Done

  /** Operations in the order they were enqueued; each waits for the one before it to settle. */
  datatype Queue = Queue(works: seq<Work>, phases: seq<Phase>, cache: Cache)

  datatype QueueStep = Enqueue(work: Work) | Start(i: nat) | Finish(i: nat, sent: Option<SendResult>)

  /** A send is counted when it starts and its result stored when it succeeds; a reconcile looks up when it starts. */
  predicate QueueNext(q: Queue, step: QueueStep, q': Queue) {
    |q.works| == |q.phases| &&
    match step
    case Enqueue(work) => q' == q.(works := q.works + [work], phases := q.phases + [Waiting])
    case Start(i) =>
      && i < |q.works| && q.phases[i] == Waiting && (i > 0 ==> q.phases[i - 1] == Done)
      && q' == q.(phases := q.phases[i := Running],
                  cache := if q.works[i].SendWork? then Begin(q.cache, q.works[i].key) else q.cache)
    case Finish(i, sent) =>
      && i < |q.works| && q.phases[i] == Running
      && q' == q.(phases := q.phases[i := Done],
                  cache := if q.works[i].SendWork? && sent.Some? then Store(q.cache, q.works[i].key, sent.value) else q.cache)
  }

  ghost predicate IsQueueRun(states: seq<Queue>, steps: seq<QueueStep>) {
    && |states| == |steps| + 1 && states[0] == Queue([], [], EMPTY)
    && forall i :: 0 <= i < |steps| ==> QueueNext(states[i], steps[i], states[i + 1])
  }

  /** What one send does to the cache: it is counted, and its result stored if it has one. */
  function Ran(key: Key, sent: Option<SendResult>): seq<Op> {
    if sent.Some? then [BeginOp(key), StoreOp(key, sent.value)] else [BeginOp(key)]
  }

  /** The operations, run one after another in the order they were enqueued, may do this to the cache. */
  ghost predicate Serial(works: seq<Work>, ops: seq<Op>) {
    if works == [] then ops == []
    else
      var n := |works| - 1;
      match works[n]
      case SendWork(key) => exists before, sent :: Serial(works[..n], before) && ops == before + Ran(key, sent)
      case _ => Serial(works[..n], ops)
  }

  /** The first d operations are done and the later ones wait, but for one that may be at work. */
  ghost predicate InOrder(q: Queue, d: nat) {
    && d <= |q.works| == |q.phases| && (forall j :: 0 <= j < d ==> q.phases[j] == Done)
    && (forall j :: d < j < |q.phases| ==> q.phases[j] == Waiting) && (d < |q.phases| ==> q.phases[d] != Done)
  }

  /** What is done has left the cache of a serial run, and a send at work has been counted. */
  ghost predicate CacheIs(q: Queue, d: nat, ops: seq<Op>) {
    && InOrder(q, d) && Serial(q.works[..d], ops)
    && q.cache == if d < |q.works| && q.phases[d] == Running && q.works[d].SendWork? then Begin(Run(EMPTY, ops), q.works[d].key)
                  else Run(EMPTY, ops)
  }

  lemma StartKeepsCache(q: Queue, i: nat, q': Queue, d: nat, ops: seq<Op>)
    requires CacheIs(q, d, ops) && QueueNext(q, Start(i), q')
    ensures i == d && q.cache == Run(EMPTY, ops) && CacheIs(q', d, ops)
  {
    hide Begin, Store, Serial, Run;
  }

  lemma RunRan(c: Cache, ops: seq<Op>, key: Key, sent: Option<SendResult>)
    ensures Run(c, ops + Ran(key, sent)) == if sent.Some? then Store(Begin(Run(c, ops), key), key, sent.value) else Begin(Run(c, ops), key)
  {
    hide Begin, Store;
    if sent.Some? {
      RunTwoMore(c, ops, BeginOp(key), StoreOp(key, sent.value));
    } else {
      assert (ops + [BeginOp(key)])[..|ops|] == ops;
    }
  }

  lemma FinishKeepsCache(q: Queue, i: nat, sent: Option<SendResult>, q': Queue, d: nat, ops: seq<Op>) returns (after: seq<Op>)
    requires CacheIs(q, d, ops) && QueueNext(q, Finish(i, sent), q')
    ensures CacheIs(q', d + 1, after)
  {
    hide Begin, Store, Run;
    assert i == d;
    assert q.works[..d + 1][..d] == q.works[..d];
    after := ops;
    if q.works[d].SendWork? {
      after := ops + Ran(q.works[d].key, sent);
      RunRan(EMPTY, ops, q.works[d].key, sent);
    }
  }

  lemma {:induction false} CacheIsSerial(states: seq<Queue>, steps: seq<QueueStep>, n: nat) returns (d: nat, ops: seq<Op>)
    requires IsQueueRun(states, steps) && n <= |steps|
    ensures CacheIs(states[n], d, ops)
  {
    d, ops := 0, [];
    if n > 0 {
      d, ops := CacheIsSerial(states, steps, n - 1);
      var q, q' := states[n - 1], states[n];
      assert QueueNext(q, steps[n - 1], q');
      match steps[n - 1]
      case Enqueue(work) => assert q'.works[..d] == q.works[..d];
      case Start(i) => StartKeepsCache(q, i, q', d, ops);
      case Finish(i, sent) =>
        ops := FinishKeepsCache(q, i, sent, q', d, ops);
        d := d + 1;
    }
  }

  /**
   * When an operation starts, everything enqueued before it is done and nothing else is at work: a reconcile looks up
   * in the cache that the earlier operations leave when they are run one after another.
   */
  lemma LookupsSeeFinishedSends(states: seq<Queue>, steps: seq<QueueStep>, n: nat, i: nat) returns (ops: seq<Op>)
    requires IsQueueRun(states, steps) && n < |steps| && steps[n] == Start(i)
    ensures i < |states[n].works| == |states[n].phases|
    ensures forall j :: 0 <= j < |states[n].phases| ==> states[n].phases[j] == if j < i then Done else Waiting
    ensures Serial(states[n].works[..i], ops) && states[n].cache == Run(EMPTY, ops)
    ensures states[n + 1].phases == states[n].phases[i := Running]
  {
    hide Begin, Store, Run, Serial;
    var d;
    d, ops := CacheIsSerial(states, steps, n);
    assert QueueNext(states[n], steps[n], states[n + 1]);
    StartKeepsCache(states[n], i, states[n + 1], d, ops);
  }
}
