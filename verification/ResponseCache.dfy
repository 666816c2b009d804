/** The response cache: FIFO eviction, a time to live, hit counters, and the 32-bit prompt hash of its keys. */
module ResponseCache {
  import opened Wrappers
  import opened JsMap

  datatype Completion = Completion(content: string, cached: bool)
  datatype CacheEntry = CacheEntry(result: Completion, timestamp: int)

  datatype State = State(cache: Entries<string, CacheEntry>, hits: nat, misses: nat)

  const EMPTY := State([], 0, 0)

  datatype Op =
    | GetOp(key: string, now: int)
    | SetOp(key: string, result: Completion, now: int)
    | ClearOp

  function Get(s: State, ttl: int, key: string, now: int): (State, Option<Completion>) {
    match Lookup(s.cache, key)
    case None => (s.(misses := s.misses + 1), None)
    case Some(e) =>
      if now - e.timestamp < ttl then (s.(hits := s.hits + 1), Some(e.result.(cached := true)))
      else (s.(cache := Delete(s.cache, key), misses := s.misses + 1), None)
  }

  function Evicted(cache: Entries<string, CacheEntry>, maxSize: int): Entries<string, CacheEntry> {
    if |cache| >= maxSize && cache != [] then cache[1..] else cache
  }

  /** A set always stores, whatever the bound it is given. */
  function Bound(maxSize: int): nat {
    if maxSize > 1 then maxSize else 1
  }

  function Set(s: State, maxSize: int, key: string, result: Completion, now: int): State {
    s.(cache := Put(Evicted(s.cache, maxSize), key, CacheEntry(result, now)))
  }

  function Step(s: State, maxSize: int, ttl: int, op: Op): State {
    match op
    case GetOp(key, now) => Get(s, ttl, key, now).0
    case SetOp(key, result, now) => Set(s, maxSize, key, result, now)
    case ClearOp => EMPTY
  }

  class LLMCache {
    var cache: Entries<string, CacheEntry>
    var hits: nat
    var misses: nat
    const maxSize: int
    const ttlMs: int

    ghost predicate Ok()
      reads this
    {
      Distinct(cache)
    }

    function Now(): State
      reads this
    {
      State(cache, hits, misses)
    }

    constructor (maxSize: int, ttlMs: int)
      ensures Ok() && Now() == EMPTY && this.maxSize == maxSize && this.ttlMs == ttlMs
    {
      this.maxSize, this.ttlMs := maxSize, ttlMs;
      cache, hits, misses := [], 0, 0;
    }

    method GetResult(key: string, now: int) returns (result: Option<Completion>)
      requires Ok()
      modifies this
      ensures Ok() && (Now(), result) == Get(old(Now()), ttlMs, key, now)
    {
      var entry := Lookup(cache, key);
      if entry.Some? && now - entry.value.timestamp < ttlMs {
        hits := hits + 1;
        return Some(entry.value.result.(cached := true));
      }
      if entry.Some? {
        DeleteEffect(cache, key);
        cache := Delete(cache, key);
      }
      misses := misses + 1;
      return None;
    }

    method SetResult(key: string, result: Completion, now: int)
      requires Ok()
      modifies this
      ensures Ok() && Now() == Set(old(Now()), maxSize, key, result, now)
    {
      if |cache| >= maxSize {
        if cache != [] {
          DeleteEffect(cache[1..], cache[0].0);
          cache := Delete(cache, cache[0].0);
        }
      }
      PutEffect(cache, key, CacheEntry(result, now));
      cache := Put(cache, key, CacheEntry(result, now));
    }

    method Clear()
      modifies this
      ensures Ok() && Now() == EMPTY
    {
      cache, hits, misses := [], 0, 0;
    }
  }

  // ── Whole runs, seen through the history of calls alone ────────────────────

  function Run(maxSize: int, ttl: int, ops: seq<Op>): State {
    if ops == [] then EMPTY else Step(Run(maxSize, ttl, ops[..|ops| - 1]), maxSize, ttl, ops[|ops| - 1])
  }

  /** The last thing stored under a key since the last clear. */
  ghost function LatestSet(ops: seq<Op>, key: string): Option<CacheEntry> {
    if ops == [] then None
    else
      match ops[|ops| - 1]
      case ClearOp => None
      case SetOp(k, result, now) => if k == key then Some(CacheEntry(result, now)) else LatestSet(ops[..|ops| - 1], key)
      case GetOp(_, _) => LatestSet(ops[..|ops| - 1], key)
  }

  ghost function GetsSinceClear(ops: seq<Op>): nat {
    if ops == [] || ops[|ops| - 1].ClearOp? then 0
    else GetsSinceClear(ops[..|ops| - 1]) + if ops[|ops| - 1].GetOp? then 1 else 0
  }

  lemma {:induction false} EvictedEffect(cache: Entries<string, CacheEntry>, maxSize: int)
    requires Distinct(cache)
    ensures Distinct(Evicted(cache, maxSize))
    ensures forall k :: Lookup(Evicted(cache, maxSize), k).Some? ==>
      Lookup(Evicted(cache, maxSize), k) == Lookup(cache, k)
  {
    if |cache| >= maxSize && cache != [] {
      LookupKeys(cache[1..], cache[0].0);
    }
  }

  /**
   Over every run: nothing in the cache but the latest value set under its key, the size within the bound,
   and every get counted once.
   */
  lemma {:induction false} RunInvariant(maxSize: int, ttl: int, ops: seq<Op>)
    ensures var s := Run(maxSize, ttl, ops);
      && Distinct(s.cache)
      && (forall k :: Lookup(s.cache, k).Some? ==> Lookup(s.cache, k) == LatestSet(ops, k))
      && |s.cache| <= Bound(maxSize)
      && s.hits + s.misses == GetsSinceClear(ops)
  {
    if ops != [] {
      var before, op := ops[..|ops| - 1], ops[|ops| - 1];
      RunInvariant(maxSize, ttl, before);
      var s := Run(maxSize, ttl, before);
      match op {
        case GetOp(key, now) =>
          DeleteEffect(s.cache, key);
        case SetOp(key, result, now) =>
          EvictedEffect(s.cache, maxSize);
          PutEffect(Evicted(s.cache, maxSize), key, CacheEntry(result, now));
        case ClearOp =>
      }
    }
  }

  /** So a hit is the latest value stored under that key, marked cached, and younger than the time to live. */
  lemma {:induction false} HitIsLatest(maxSize: int, ttl: int, ops: seq<Op>, key: string, now: int)
    ensures match Get(Run(maxSize, ttl, ops), ttl, key, now).1
      case None => true
      case Some(r) => LatestSet(ops, key).Some? && now - LatestSet(ops, key).value.timestamp < ttl
                      && r == LatestSet(ops, key).value.result.(cached := true)
  {
    RunInvariant(maxSize, ttl, ops);
  }

  /** The gets answered, and those not answered, since the last clear. */
  ghost function Answered(maxSize: int, ttl: int, ops: seq<Op>, hit: bool): nat {
    if ops == [] || ops[|ops| - 1].ClearOp? then 0
    else
      var before, op := ops[..|ops| - 1], ops[|ops| - 1];
      Answered(maxSize, ttl, before, hit)
        + if op.GetOp? && (hit <==> Get(Run(maxSize, ttl, before), ttl, op.key, op.now).1.Some?) then 1 else 0
  }

  /** Each get is counted on its own side: a hit when it is answered, a miss when it is not. */
  lemma {:induction false} CountersTell(maxSize: int, ttl: int, ops: seq<Op>)
    ensures var s := Run(maxSize, ttl, ops);
      s.hits == Answered(maxSize, ttl, ops, true) && s.misses == Answered(maxSize, ttl, ops, false)
  {
    if ops != [] {
      CountersTell(maxSize, ttl, ops[..|ops| - 1]);
    }
  }

  // ── First in, first out ────────────────────────────────────────────────────

  function RunFrom(s: State, maxSize: int, ttl: int, ops: seq<Op>): State
    decreases |ops|
  {
    if ops == [] then s else RunFrom(Step(s, maxSize, ttl, ops[0]), maxSize, ttl, ops[1..])
  }

  function Sets(ops: seq<Op>): nat {
    if ops == [] then 0 else (if ops[0].SetOp? then 1 else 0) + Sets(ops[1..])
  }

  ghost predicate LeavesAlone(op: Op, key: string) {
    (op.GetOp? || op.SetOp?) && op.key != key
  }

  lemma {:induction false} PutAround(front: Entries<string, CacheEntry>, key: string, e: CacheEntry,
      newer: Entries<string, CacheEntry>, other: string, v: CacheEntry)
    returns (front': Entries<string, CacheEntry>, newer': Entries<string, CacheEntry>)
    requires other != key
    ensures Put(front + [(key, e)] + newer, other, v) == front' + [(key, e)] + newer'
    ensures |newer| <= |newer'| <= |newer| + 1
  {
    var m := front + [(key, e)] + newer;
    if front == [] {
      PutEffect(newer, other, v);
      front', newer' := [], Put(newer, other, v);
      assert m[0] == (key, e) && m[1..] == newer;
    } else if front[0].0 == other {
      front', newer' := [(other, v)] + front[1..], newer;
      assert m[1..] == front[1..] + [(key, e)] + newer;
    } else {
      var f, n := PutAround(front[1..], key, e, newer, other, v);
      front', newer' := [front[0]] + f, n;
      assert m[1..] == front[1..] + [(key, e)] + newer;
    }
  }

  /** One operation on another key costs an entry at most one place in the queue, and only a set does. */
  lemma {:induction false} GetKeepsPlace(s: State, ttl: int, other: string, now: int, key: string, e: CacheEntry,
                                         older: Entries<string, CacheEntry>, newer: Entries<string, CacheEntry>)
    returns (older': Entries<string, CacheEntry>, newer': Entries<string, CacheEntry>)
    requires s.cache == older + [(key, e)] + newer && Distinct(s.cache) && other != key
    ensures var c := Get(s, ttl, other, now).0.cache;
      c == older' + [(key, e)] + newer' && Distinct(c) && |c| <= |s.cache| && |newer'| <= |newer|
  {
    older', newer' := older, newer;
    if Lookup(s.cache, other).Some? && now - Lookup(s.cache, other).value.timestamp >= ttl {
      older', newer' := Delete(older, other), Delete(newer, other);
      DeleteAround(older, key, e, newer, other);
      assert |newer'| <= |newer| by { DeleteEffect(newer, other); }
      DeleteEffect(s.cache, other);
    }
  }

  lemma {:induction false} SetKeepsPlace(s: State, maxSize: int, other: string, result: Completion, now: int,
      key: string, e: CacheEntry, older: Entries<string, CacheEntry>, newer: Entries<string, CacheEntry>)
    returns (older': Entries<string, CacheEntry>, newer': Entries<string, CacheEntry>)
    requires s.cache == older + [(key, e)] + newer && Distinct(s.cache) && |s.cache| <= maxSize
    requires other != key && |newer| + 1 < maxSize
    ensures var c := Set(s, maxSize, other, result, now).cache;
      c == older' + [(key, e)] + newer' && Distinct(c) && |c| <= maxSize && |newer'| <= |newer| + 1
  {
    var cut, v := Evicted(s.cache, maxSize), CacheEntry(result, now);
    var front := if |s.cache| >= maxSize then older[1..] else older;
    assert cut == front + [(key, e)] + newer;
    older', newer' := PutAround(front, key, e, newer, other, v);
    EvictedEffect(s.cache, maxSize);
    PutEffect(cut, other, v);
  }

  lemma {:induction false} KeepsPlace(s: State, maxSize: int, ttl: int, ops: seq<Op>, key: string, e: CacheEntry,
                                      older: Entries<string, CacheEntry>, newer: Entries<string, CacheEntry>)
    requires s.cache == older + [(key, e)] + newer && Distinct(s.cache) && |s.cache| <= maxSize
    requires forall op :: op in ops ==> LeavesAlone(op, key)
    requires |newer| + 1 + Sets(ops) <= maxSize
    ensures Lookup(RunFrom(s, maxSize, ttl, ops).cache, key) == Some(e)
    decreases |ops|
  {
    if ops == [] {
      assert (key, e) in s.cache;
      LookupOnly(s.cache, (key, e));
    } else {
      assert ops[0] in ops;
      var older', newer';
      match ops[0] {
        case GetOp(other, now) => older', newer' := GetKeepsPlace(s, ttl, other, now, key, e, older, newer);
        case SetOp(other, result, now) =>
          older', newer' := SetKeepsPlace(s, maxSize, other, result, now, key, e, older, newer);
      }
      KeepsPlace(Step(s, maxSize, ttl, ops[0]), maxSize, ttl, ops[1..], key, e, older', newer');
    }
  }

  /**
   A value stored under a key the cache did not hold stays there until `maxSize` more sets have
   happened: before that, a get returns it exactly while it is younger than the time to live.
   */
  lemma {:induction false} StoredUntilPushedOut(s: State, maxSize: int, ttl: int, key: string, result: Completion,
      at: int, ops: seq<Op>, now: int)
    requires Distinct(s.cache) && |s.cache| <= maxSize && key !in Keys(s.cache)
    requires forall op :: op in ops ==> LeavesAlone(op, key)
    requires Sets(ops) < maxSize
    ensures Get(RunFrom(Set(s, maxSize, key, result, at), maxSize, ttl, ops), ttl, key, now).1
         == if now - at < ttl then Some(result.(cached := true)) else None
  {
    var cut := Evicted(s.cache, maxSize);
    EvictedEffect(s.cache, maxSize);
    LookupKeys(s.cache, key);
    LookupKeys(cut, key);
    PutEffect(cut, key, CacheEntry(result, at));
    var s1 := Set(s, maxSize, key, result, at);
    assert s1.cache == cut + [(key, CacheEntry(result, at))] + [];
    KeepsPlace(s1, maxSize, ttl, ops, key, CacheEntry(result, at), cut, []);
  }

  // ── And out it goes ────────────────────────────────────────────────────────

  /** Every operation is a set under a key the cache does not hold at that moment. */
  ghost predicate NewSets(s: State, maxSize: int, ttl: int, ops: seq<Op>)
    decreases |ops|
  {
    ops != [] ==>
      ops[0].SetOp? && ops[0].key !in Keys(s.cache) && NewSets(Step(s, maxSize, ttl, ops[0]), maxSize, ttl, ops[1..])
  }

  /** What the sets put in, in order. */
  ghost function Entered(ops: seq<Op>): Entries<string, CacheEntry> {
    if ops == [] then []
    else match ops[0]
      case SetOp(key, result, now) => [(key, CacheEntry(result, now))] + Entered(ops[1..])
      case _ => Entered(ops[1..])
  }

  function Newest<T>(queue: seq<T>, n: nat): seq<T> {
    if |queue| <= n then queue else queue[|queue| - n..]
  }

  lemma {:induction false} NewestStep<T>(queue: seq<T>, x: T, one: seq<T>, more: seq<T>, n: nat)
    requires n > 0 && |queue| <= n && one == Newest(queue + [x], n)
    ensures Newest(one + more, n) == Newest(queue + ([x] + more), n)
  {
    var all := queue + ([x] + more);
    assert all == queue + [x] + more;
    if |queue| == n {
      assert one + more == all[1..];
    }
  }

  lemma {:induction false} SetGoesLast(s: State, maxSize: int, key: string, result: Completion, now: int)
    requires Distinct(s.cache) && |s.cache| <= Bound(maxSize) && key !in Keys(s.cache)
    ensures var c := Set(s, maxSize, key, result, now).cache;
      Distinct(c) && |c| <= Bound(maxSize) && c == Newest(s.cache + [(key, CacheEntry(result, now))], Bound(maxSize))
  {
    var cut, e := Evicted(s.cache, maxSize), CacheEntry(result, now);
    EvictedEffect(s.cache, maxSize);
    LookupKeys(s.cache, key);
    LookupKeys(cut, key);
    PutEffect(cut, key, e);
    if |s.cache| == Bound(maxSize) {
      assert (s.cache + [(key, e)])[1..] == cut + [(key, e)];
    }
  }

  /**
   First in, first out: however many new keys are set, what is left is the newest `maxSize` of the
   old entries and the new ones, in the order they came.
   */
  lemma {:induction false} FirstInFirstOut(s: State, maxSize: int, ttl: int, ops: seq<Op>)
    requires Distinct(s.cache) && |s.cache| <= Bound(maxSize) && NewSets(s, maxSize, ttl, ops)
    ensures RunFrom(s, maxSize, ttl, ops).cache == Newest(s.cache + Entered(ops), Bound(maxSize))
    ensures Distinct(RunFrom(s, maxSize, ttl, ops).cache)
    decreases |ops|
  {
    if ops == [] {
      assert s.cache + [] == s.cache;
    } else {
      var op, s1, later := ops[0], Step(s, maxSize, ttl, ops[0]), Entered(ops[1..]);
      var e := (op.key, CacheEntry(op.result, op.now));
      assert Distinct(s1.cache) && |s1.cache| <= Bound(maxSize) && s1.cache == Newest(s.cache + [e], Bound(maxSize))
      by {
        SetGoesLast(s, maxSize, op.key, op.result, op.now);
      }
      FirstInFirstOut(s1, maxSize, ttl, ops[1..]);
      NewestStep(s.cache, e, s1.cache, later, Bound(maxSize));
      assert Entered(ops) == [e] + later;
    }
  }

  lemma {:induction false} EnteredKeys(ops: seq<Op>, key: string)
    requires forall op :: op in ops ==> op.SetOp? && op.key != key
    ensures |Entered(ops)| == |ops| && key !in Keys(Entered(ops))
  {
    if ops != [] {
      assert ops[0] in ops;
      EnteredKeys(ops[1..], key);
    }
  }

  lemma {:induction false} NotInSuffix(queue: Entries<string, CacheEntry>, k: nat, key: string)
    requires k <= |queue| && key !in Keys(queue)
    ensures key !in Keys(queue[k..])
  {
    if k > 0 {
      NotInSuffix(queue[1..], k - 1, key);
      assert queue[1..][k - 1..] == queue[k..];
    } else {
      assert queue[0..] == queue;
    }
  }

  /** The entry is among the newest `n` exactly while fewer than `n` came after it. */
  lemma {:induction false} HeldInQueue(front: Entries<string, CacheEntry>, key: string, e: CacheEntry,
                                       later: Entries<string, CacheEntry>, n: nat)
    requires key !in Keys(later) && Distinct(Newest(front + [(key, e)] + later, n))
    ensures Lookup(Newest(front + [(key, e)] + later, n), key) == if |later| < n then Some(e) else None
  {
    var queue := front + [(key, e)] + later;
    var end := Newest(queue, n);
    if |later| < n {
      assert end[|end| - 1 - |later|] == (key, e);
      assert (key, e) in end;
      LookupOnly(end, (key, e));
    } else {
      AllLater(front + [(key, e)], later, n);
      NotInSuffix(later, |later| - n, key);
      LookupKeys(end, key);
    }
  }

  lemma {:induction false} AllLater<T>(front: seq<T>, later: seq<T>, n: nat)
    requires n <= |later|
    ensures Newest(front + later, n) == later[|later| - n..]
  {
    if |front + later| <= n {
      assert front == [];
    }
  }

  /**
   Both directions: after a set under a new key, and any sets under other new keys, the entry is still
   there exactly while fewer than `maxSize` of those have happened.
   */
  lemma {:induction false} HeldIffFewerSets(s: State, maxSize: int, ttl: int, key: string, result: Completion,
      at: int, ops: seq<Op>)
    requires Distinct(s.cache) && |s.cache| <= Bound(maxSize) && key !in Keys(s.cache)
    requires NewSets(Set(s, maxSize, key, result, at), maxSize, ttl, ops)
    requires forall op :: op in ops ==> op.SetOp? && op.key != key
    ensures Lookup(RunFrom(Set(s, maxSize, key, result, at), maxSize, ttl, ops).cache, key)
         == if |ops| < Bound(maxSize) then Some(CacheEntry(result, at)) else None
  {
    var s1, e := Set(s, maxSize, key, result, at), CacheEntry(result, at);
    SetGoesLast(s, maxSize, key, result, at);
    var front, later := s1.cache[..|s1.cache| - 1], Entered(ops);
    assert s1.cache == front + [(key, e)];
    FirstInFirstOut(s1, maxSize, ttl, ops);
    EnteredKeys(ops, key);
    HeldInQueue(front, key, e, later, Bound(maxSize));
  }

  /**
   Eviction looks only at the size, so overwriting a key that is there can drop another entry: it
   drops none exactly when the cache is not full or the key is the oldest one itself.
   */
  lemma {:induction false} OverwriteKeepsAllIff(s: State, maxSize: int, key: string, result: Completion, now: int)
    requires Distinct(s.cache) && key in Keys(s.cache)
    ensures (forall k :: k in Keys(s.cache) ==> k in Keys(Set(s, maxSize, key, result, now).cache))
        <==> |s.cache| < maxSize || s.cache[0].0 == key
  {
    PutEffect(Evicted(s.cache, maxSize), key, CacheEntry(result, now));
  }

  /** The smallest instance: two entries, the newer one overwritten, the older one gone. */
  lemma {:induction false} OverwriteEvictsAnother(a: CacheEntry, b: CacheEntry, result: Completion, now: int)
    ensures Set(State([("a", a), ("b", b)], 0, 0), 2, "b", result, now).cache == [("b", CacheEntry(result, now))]
  {
    var cut := Evicted([("a", a), ("b", b)], 2);
    assert cut == [("b", b)];
    assert cut[1..] == [];
  }

  // ── The prompt hash ────────────────────────────────────────────────────────

  const TWO32: int := 0x1_0000_0000
  const TWO31: int := 0x8000_0000

  /** ECMAScript ToInt32, the value every bitwise operator works on. */
  function ToInt32(x: int): int {
    (x + TWO31) % TWO32 - TWO31
  }

  type CodeUnit = n: nat | n < 0x1_0000 witness 0

  function Pow31(n: nat): nat {
    if n == 0 then 1 else 31 * Pow31(n - 1)
  }

  /** The base-31 polynomial of a string, most significant character first. */
  function Polynomial(str: seq<CodeUnit>): nat {
    if str == [] then 0 else str[0] * Pow31(|str| - 1) + Polynomial(str[1..])
  }

  lemma {:induction false} Horner(str: seq<CodeUnit>, c: CodeUnit)
    ensures Polynomial(str + [c]) == 31 * Polynomial(str) + c
  {
    if str == [] {
      assert str + [c] == [c];
      assert [c][1..] == [];
      assert Polynomial([c]) == c * Pow31(0) + Polynomial([]);
    } else {
      Horner(str[1..], c);
      assert (str + [c])[1..] == str[1..] + [c];
      assert str[0] * Pow31(|str|) == 31 * (str[0] * Pow31(|str| - 1));
    }
  }

  /** Two numbers have the same signed 32-bit residue exactly when they differ by a multiple of 2^32. */
  lemma {:induction false} SameResidue(x: int, y: int)
    ensures ToInt32(x) == ToInt32(y) <==> (x - y) % TWO32 == 0
  {
  }

  lemma {:induction false} ResidueOf(x: int) returns (k: int)
    ensures ToInt32(x) == x + k * TWO32
  {
    k := -((x + TWO31) / TWO32);
  }

  lemma {:induction false} WholeTurns(z: int)
    ensures (z * TWO32) % TWO32 == 0
  {
  }

  lemma {:induction false} HashStep(poly: nat, hash: int, c: CodeUnit)
    requires hash == ToInt32(poly)
    ensures ToInt32(ToInt32(hash * 32) - hash + c) == ToInt32(31 * poly + c)
  {
    var j := ResidueOf(poly);
    var shifted := hash * 32;
    var k := ResidueOf(shifted);
    var x, y := shifted + k * TWO32 - hash + c, 31 * poly + c;
    assert x - y == (31 * j + k) * TWO32;
    WholeTurns(31 * j + k);
    SameResidue(x, y);
  }

  method SimpleHash(str: seq<CodeUnit>) returns (hash: int)
    ensures hash == ToInt32(Polynomial(str))
    ensures -TWO31 <= hash < TWO31
  {
    hash := 0;
    var i := 0;
    while i < |str|
      invariant 0 <= i <= |str|
      invariant hash == ToInt32(Polynomial(str[..i]))
    {
      var unit := str[i];
      HashStep(Polynomial(str[..i]), hash, unit);
      Horner(str[..i], unit);
      assert str[..i + 1] == str[..i] + [unit];
      hash := ToInt32(hash * 32) - hash + unit;
      hash := ToInt32(hash);
      i := i + 1;
    }
    assert str[..i] == str;
  }

  /** `<operation or default>:<hash>`; `decimal` writes a number down. */
  function CacheKey(decimal: int -> string, operation: string, prompt: seq<CodeUnit>): string {
    (if operation == "" then "default" else operation) + ":" + decimal(ToInt32(Polynomial(prompt)))
  }

  /** The decimal form tells numbers apart and has no colon in it. */
  ghost predicate Decimal(decimal: int -> string) {
    && (forall x, y :: decimal(x) == decimal(y) ==> x == y)
    && (forall x :: ':' !in decimal(x))
  }

  /** No operation and the operation called `default` are one. */
  ghost predicate SameOperation(a: string, b: string) {
    a == b || (a == "" && b == "default") || (a == "default" && b == "")
  }

  lemma {:induction false} LastColon(a: string, x: string, b: string, y: string)
    requires ':' !in x && ':' !in y && a + ":" + x == b + ":" + y
    ensures a == b && x == y
  {
    var s, t := a + ":" + x, b + ":" + y;
    assert s[|a|] == ':' && t[|b|] == ':';
    assert forall i :: |a| < i < |s| ==> s[i] == x[i - |a| - 1];
    assert forall i :: |b| < i < |t| ==> t[i] == y[i - |b| - 1];
    assert |a| == |b|;
    assert s[..|a|] == a && s[|a| + 1..] == x && t[..|b|] == b && t[|b| + 1..] == y;
  }

  /**
   Two calls share a cache key exactly when the operation is the same and the prompts' polynomials agree
   modulo 2^32.
   */
  lemma {:induction false} SameKeyIff(decimal: int -> string, one: string, a: seq<CodeUnit>, other: string,
      b: seq<CodeUnit>)
    requires Decimal(decimal)
    ensures CacheKey(decimal, one, a) == CacheKey(decimal, other, b) <==>
      SameOperation(one, other) && (Polynomial(a) - Polynomial(b)) % TWO32 == 0
  {
    SameResidue(Polynomial(a), Polynomial(b));
    var p, q := if one == "" then "default" else one, if other == "" then "default" else other;
    var x, y := decimal(ToInt32(Polynomial(a))), decimal(ToInt32(Polynomial(b)));
    if p + ":" + x == q + ":" + y {
      LastColon(p, x, q, y);
    }
  }

  const AA: seq<CodeUnit> := [65, 97]
  const BB: seq<CodeUnit> := [66, 66]

  lemma {:induction false} PolynomialAppend(a: seq<CodeUnit>, b: seq<CodeUnit>)
    ensures Polynomial(a + b) == Polynomial(a) * Pow31(|b|) + Polynomial(b)
  {
    if b == [] {
      assert a + b == a;
    } else {
      var before, last := b[..|b| - 1], b[|b| - 1];
      PolynomialAppend(a, before);
      Horner(a + before, last);
      Horner(before, last);
      assert a + b == a + before + [last] && b == before + [last];
      assert 31 * (Polynomial(a) * Pow31(|before|)) == Polynomial(a) * (31 * Pow31(|before|));
    }
  }

  lemma {:induction false} SameInContext(a: seq<CodeUnit>, b: seq<CodeUnit>, front: seq<CodeUnit>, back: seq<CodeUnit>)
    requires Polynomial(a) == Polynomial(b) && |a| == |b|
    ensures Polynomial(front + a + back) == Polynomial(front + b + back)
  {
    PolynomialAppend(front, a);
    PolynomialAppend(front, b);
    PolynomialAppend(front + a, back);
    PolynomialAppend(front + b, back);
  }

  /**
   The cost of a 32-bit key: "Aa" and "BB" can be exchanged anywhere in a prompt, and the answer
   stored for the one prompt is then returned for the other.
   */
  lemma {:induction false} OtherPromptsAnswer(s: State, maxSize: int, ttl: int, decimal: int -> string,
      operation: string, front: seq<CodeUnit>, back: seq<CodeUnit>, result: Completion, at: int, now: int)
    requires Distinct(s.cache)
    ensures var a, b := front + AA + back, front + BB + back;
      && a != b
      && Get(Set(s, maxSize, CacheKey(decimal, operation, a), result, at), ttl, CacheKey(decimal, operation, b), now).1
           == if now - at < ttl then Some(result.(cached := true)) else None
  {
    var a, b := front + AA + back, front + BB + back;
    assert a[|front|] == 65 && b[|front|] == 66;
    assert AA == [] + [65] + [97] && BB == [] + [66] + [66];
    Horner([65], 97);
    Horner([66], 66);
    Horner([], 65);
    Horner([], 66);
    assert [] + [65] == [65] && [] + [66] == [66];
    assert Polynomial(AA) == 2112 && Polynomial(BB) == 2112;
    SameInContext(AA, BB, front, back);
    var key := CacheKey(decimal, operation, a);
    EvictedEffect(s.cache, maxSize);
    PutEffect(Evicted(s.cache, maxSize), key, CacheEntry(result, at));
  }
}
