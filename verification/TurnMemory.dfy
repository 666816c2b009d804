/**
 The bounded, expiring memory of what a turn's first call decided: an ordered map that forgets its
 least recently touched key beyond a cap, and any key silent for longer than a time to live.
 */
module TurnMemory {
  import opened Wrappers
  import opened JsMap
  import opened FiniteSets

  datatype Stamped<+R> = Stamped(record: R, at: int)

  type Memory<R> = Entries<string, Stamped<R>>

  // ── What one operation does ────────────────────────────────────────────────

  function Remember<R>(m: Memory<R>, cap: nat, key: string, record: R, now: int): Memory<R> {
    if key == "" then m
    else
      var grown := Put(Delete(m, key), key, Stamped(record, now));
      if |grown| <= cap then grown else grown[|grown| - cap..]
  }

  /** `asked` and `touched` are the two clock readings of one recall. */
  function Recall<R>(m: Memory<R>, ttl: int, key: string, asked: int, touched: int): (r: (Memory<R>, Option<R>)) {
    if key == "" then (m, None)
    else
      match Lookup(m, key)
      case None => (m, None)
      case Some(e) =>
        if asked - e.at > ttl then (Delete(m, key), None)
        else (Put(Delete(m, key), key, Stamped(e.record, touched)), Some(e.record))
  }

  ghost predicate Valid<R>(m: Memory<R>, cap: nat) {
    cap >= 1 && Distinct(m) && |m| <= cap && "" !in Keys(m)
  }

  lemma {:induction false} SuffixDistinct<R>(m: Memory<R>, n: nat)
    requires Distinct(m) && n <= |m|
    ensures Distinct(m[n..]) && Keys(m[n..]) <= Keys(m)
  {
    assert m == m[..n] + m[n..];
    DistinctAppend(m[..n], m[n..]);
  }

  lemma {:induction false} TouchValid<R>(m: Memory<R>, key: string, v: Stamped<R>)
    requires Distinct(m)
    ensures Distinct(Put(Delete(m, key), key, v))
    ensures Put(Delete(m, key), key, v) == Delete(m, key) + [(key, v)]
    ensures Keys(Put(Delete(m, key), key, v)) == Keys(m) + {key}
    ensures |Delete(m, key)| == if key in Keys(m) then |m| - 1 else |m|
  {
    DeleteEffect(m, key);
    PutEffect(Delete(m, key), key, v);
  }

  lemma {:induction false} RememberValid<R>(m: Memory<R>, cap: nat, key: string, record: R, now: int)
    requires Valid(m, cap)
    ensures Valid(Remember(m, cap, key, record, now), cap)
  {
    if key != "" {
      DeleteEffect(m, key);
      PutEffect(Delete(m, key), key, Stamped(record, now));
      var grown := Put(Delete(m, key), key, Stamped(record, now));
      if |grown| > cap {
        SuffixDistinct(grown, |grown| - cap);
      }
    }
  }

  lemma {:induction false} RecallValid<R>(m: Memory<R>, cap: nat, ttl: int, key: string, asked: int, touched: int)
    requires Valid(m, cap)
    ensures Valid(Recall(m, ttl, key, asked, touched).0, cap)
  {
    LookupKeys(m, key);
    DeleteEffect(m, key);
    match Lookup(m, key) {
      case None =>
      case Some(e) =>
        PutEffect(Delete(m, key), key, Stamped(e.record, touched));
    }
  }

  // ── What is on record under a key ──────────────────────────────────────────

  ghost function RecordAt<R>(m: Memory<R>, key: string): Option<R> {
    match Lookup(m, key)
    case None => None
    case Some(e) => Some(e.record)
  }

  lemma {:induction false} SuffixLookup<R>(m: Memory<R>, n: nat, key: string)
    requires Distinct(m) && n <= |m|
    ensures Lookup(m[n..], key).Some? ==> Lookup(m[n..], key) == Lookup(m, key)
    ensures n < |m| && key == m[|m| - 1].0 ==> Lookup(m[n..], key) == Some(m[|m| - 1].1)
  {
    assert m == m[..n] + m[n..];
    LookupAppend(m[..n], m[n..], key);
    DistinctAppend(m[..n], m[n..]);
    LookupKeys(m[n..], key);
    if n < |m| && key == m[|m| - 1].0 {
      assert m[n..][|m| - n - 1] == m[|m| - 1];
      LookupOnly(m[n..], m[|m| - 1]);
    }
  }

  /** After remembering: the new record under its key, and under any other key what was there or nothing. */
  lemma {:induction false} RememberRecords<R>(m: Memory<R>, cap: nat, key: string, record: R, now: int, other: string)
    requires Valid(m, cap)
    ensures var after := RecordAt(Remember(m, cap, key, record, now), other);
      && (other == key && key != "" ==> after == Some(record))
      && (other != key ==> after == RecordAt(m, other) || after == None)
  {
    if key != "" {
      var v := Stamped(record, now);
      TouchValid(m, key, v);
      DeleteEffect(m, key);
      PutEffect(Delete(m, key), key, v);
      var grown := Put(Delete(m, key), key, v);
      SuffixLookup(grown, if |grown| <= cap then 0 else |grown| - cap, other);
      assert grown[0..] == grown;
    }
  }

  /** Recalling invents nothing: it answers what was on record, which then stays, and elsewhere changes nothing. */
  lemma {:induction false} RecallRecords<R>(m: Memory<R>, cap: nat, ttl: int, key: string, asked: int, touched: int,
      other: string)
    requires Valid(m, cap)
    ensures var (after, answer) := Recall(m, ttl, key, asked, touched);
      && (answer.Some? ==> answer == RecordAt(m, key))
      && (other == key ==> RecordAt(after, other) == answer)
      && (other != key ==> RecordAt(after, other) == RecordAt(m, other))
  {
    LookupKeys(m, key);
    LookupKeys(m, "");
    DeleteEffect(m, key);
    match Lookup(m, key) {
      case None =>
      case Some(e) =>
        PutEffect(Delete(m, key), key, Stamped(e.record, touched));
    }
  }

  // ── The object ─────────────────────────────────────────────────────────────

  class TurnBandMemory<R(==)> {
    var entries: Memory<R>
    const cap: nat
    const ttlMs: int

    ghost predicate Ok()
      reads this
    {
      Valid(entries, cap)
    }

    constructor (maxEntries: int, ttlMs: int)
      ensures Ok() && entries == []
      ensures cap == (if maxEntries < 1 then 1 else maxEntries) && this.ttlMs == ttlMs
    {
      cap := if maxEntries < 1 then 1 else maxEntries;
      this.ttlMs := ttlMs;
      entries := [];
    }

    method RememberRecord(key: string, record: R, now: int)
      requires Ok()
      modifies this
      ensures Ok() && entries == Remember(old(entries), cap, key, record, now)
    {
      RememberValid(entries, cap, key, record, now);
      if key == "" {
        return;
      }
      ghost var grown := Put(Delete(entries, key), key, Stamped(record, now));
      TouchValid(entries, key, Stamped(record, now));
      entries := Delete(entries, key);
      entries := Put(entries, key, Stamped(record, now));
      while |entries| > cap
        invariant |entries| <= |grown| && entries == grown[|grown| - |entries|..]
        invariant |entries| >= cap || entries == grown
        invariant Distinct(entries)
        decreases |entries|
      {
        DropFirst(entries);
        entries := Delete(entries, entries[0].0);
      }
    }

    method RecallRecord(key: string, asked: int, touched: int) returns (record: Option<R>)
      requires Ok()
      modifies this
      ensures Ok() && (entries, record) == Recall(old(entries), ttlMs, key, asked, touched)
    {
      RecallValid(entries, cap, ttlMs, key, asked, touched);
      if key == "" {
        return None;
      }
      var e := Lookup(entries, key);
      if e.None? {
        return None;
      }
      if asked - e.value.at > ttlMs {
        entries := Delete(entries, key);
        return None;
      }
      entries := Delete(entries, key);
      entries := Put(entries, key, Stamped(e.value.record, touched));
      return Some(e.value.record);
    }
  }

  lemma {:induction false} DropFirst<R>(m: Memory<R>)
    requires Distinct(m) && m != []
    ensures Delete(m, m[0].0) == m[1..]
  {
    DeleteEffect(m[1..], m[0].0);
  }

  // ── Whole runs ─────────────────────────────────────────────────────────────

  datatype Op<+R> =
    | RememberOp(key: string, record: R, now: int)
    | RecallOp(key: string, asked: int, touched: int)

  function Step<R>(m: Memory<R>, cap: nat, ttl: int, op: Op<R>): (Memory<R>, Option<R>) {
    match op
    case RememberOp(key, record, now) => (Remember(m, cap, key, record, now), None)
    case RecallOp(key, asked, touched) => Recall(m, ttl, key, asked, touched)
  }

  function Run<R>(m: Memory<R>, cap: nat, ttl: int, ops: seq<Op<R>>): Memory<R>
    decreases |ops|
  {
    if ops == [] then m else Run(Step(m, cap, ttl, ops[0]).0, cap, ttl, ops[1..])
  }

  lemma {:induction false} StepValid<R>(m: Memory<R>, cap: nat, ttl: int, op: Op<R>)
    requires Valid(m, cap)
    ensures Valid(Step(m, cap, ttl, op).0, cap)
  {
    match op {
      case RememberOp(key, record, now) => RememberValid(m, cap, key, record, now);
      case RecallOp(key, asked, touched) => RecallValid(m, cap, ttl, key, asked, touched);
    }
  }

  /** The keys a run touched; the empty key is never stored. */
  ghost function Touched<R>(ops: seq<Op<R>>): set<string> {
    if ops == [] then {} else (if ops[0].key == "" then {} else {ops[0].key}) + Touched(ops[1..])
  }

  /** The state of a key that was the last one touched, before and after other keys are touched. */
  ghost predicate HeldBehind<R>(m: Memory<R>, key: string, e: Stamped<R>, older: Memory<R>, newer: Memory<R>) {
    m == older + [(key, e)] + newer
  }

  lemma {:induction false} HeldFacts<R>(m: Memory<R>, cap: nat, key: string, e: Stamped<R>, older: Memory<R>,
      newer: Memory<R>)
    requires Valid(m, cap) && HeldBehind(m, key, e, older, newer)
    ensures Distinct(older) && Distinct(newer) && |Keys(newer)| == |newer| < cap
    ensures key !in Keys(older) && key !in Keys(newer) && Keys(m) == Keys(older) + {key} + Keys(newer)
    ensures Lookup(m, key) == Some(e)
  {
    DistinctAppend(older + [(key, e)], newer);
    DistinctAppend(older, [(key, e)]);
    assert [(key, e)][1..] == [];
    DistinctCard(newer);
    LookupOnly(m, (key, e));
  }

  /** The keys touched since, with one more of them touched. */
  lemma {:induction false} NewerTail<R>(newer: Memory<R>, other: string, v: Stamped<R>)
    requires Distinct(newer)
    ensures Distinct(Delete(newer, other) + [(other, v)])
    ensures Keys(Delete(newer, other) + [(other, v)]) == Keys(newer) + {other}
    ensures |Delete(newer, other)| + 1 == |Keys(newer) + {other}|
    ensures Keys(Delete(newer, other)) <= Keys(newer)
  {
    TouchValid(newer, other, v);
    DistinctCard(Delete(newer, other) + [(other, v)]);
    DeleteEffect(newer, other);
  }

  /** Touching another key takes it out of its place and puts it last. */
  lemma {:induction false} TouchShape<R>(m: Memory<R>, cap: nat, key: string, e: Stamped<R>, older: Memory<R>,
      newer: Memory<R>, other: string, v: Stamped<R>)
    requires Valid(m, cap) && HeldBehind(m, key, e, older, newer) && other != key
    ensures Put(Delete(m, other), other, v) == Delete(older, other) + [(key, e)] + (Delete(newer, other) + [(other, v)])
    ensures Delete(m, other) == Delete(older, other) + [(key, e)] + Delete(newer, other)
    ensures Distinct(newer)
  {
    assert Distinct(newer) by { HeldFacts(m, cap, key, e, older, newer); }
    assert Put(Delete(m, other), other, v) == Delete(m, other) + [(other, v)] by { TouchValid(m, other, v); }
    assert Delete(m, other) == Delete(older, other) + [(key, e)] + Delete(newer, other)
        by { DeleteAround(older, key, e, newer, other); }
    var a, b, c := Delete(older, other) + [(key, e)], Delete(newer, other), [(other, v)];
    assert (a + b) + c == a + (b + c);
  }

  lemma {:induction false} RememberOther<R>(m: Memory<R>, cap: nat, key: string, e: Stamped<R>, older: Memory<R>,
      newer: Memory<R>, other: string, v: Stamped<R>)
    returns (older': Memory<R>, newer': Memory<R>)
    requires Valid(m, cap) && HeldBehind(m, key, e, older, newer)
    requires other != key && other != "" && |Keys(newer) + {other}| < cap
    ensures HeldBehind(Remember(m, cap, other, v.record, v.at), key, e, older', newer')
    ensures Keys(newer') == Keys(newer) + {other}
  {
    TouchShape(m, cap, key, e, older, newer, other, v);
    NewerTail(newer, other, v);
    var front, tail := Delete(older, other), Delete(newer, other) + [(other, v)];
    var grown := front + [(key, e)] + tail;
    var drop := if |grown| > cap then |grown| - cap else 0;
    older', newer' := front[drop..], tail;
    assert grown[drop..] == older' + [(key, e)] + tail;
  }

  lemma {:induction false} RecallOther<R>(m: Memory<R>, cap: nat, ttl: int, key: string, e: Stamped<R>,
      older: Memory<R>, newer: Memory<R>, other: string, asked: int, touched: int)
    returns (older': Memory<R>, newer': Memory<R>)
    requires Valid(m, cap) && HeldBehind(m, key, e, older, newer)
    requires other != key && other != ""
    ensures HeldBehind(Recall(m, ttl, other, asked, touched).0, key, e, older', newer')
    ensures Keys(newer') <= Keys(newer) + {other}
  {
    older', newer' := older, newer;
    var found := Lookup(m, other);
    if found.Some? {
      var v := Stamped(found.value.record, touched);
      TouchShape(m, cap, key, e, older, newer, other, v);
      NewerTail(newer, other, v);
      if asked - found.value.at > ttl {
        older', newer' := Delete(older, other), Delete(newer, other);
      } else {
        older', newer' := Delete(older, other), Delete(newer, other) + [(other, v)];
      }
    }
  }

  /** Another key's touch leaves this one where it was, behind the keys touched since. */
  lemma {:induction false} TouchOther<R>(m: Memory<R>, cap: nat, ttl: int, op: Op<R>, key: string, e: Stamped<R>,
                                         older: Memory<R>, newer: Memory<R>)
    returns (older': Memory<R>, newer': Memory<R>)
    requires Valid(m, cap) && HeldBehind(m, key, e, older, newer) && op.key != key
    requires |Keys(newer) + Touched([op])| < cap
    ensures HeldBehind(Step(m, cap, ttl, op).0, key, e, older', newer')
    ensures Keys(newer') <= Keys(newer) + Touched([op])
    ensures op.RememberOp? ==> Keys(newer') == Keys(newer) + Touched([op])
  {
    TouchedOne(op);
    if op.key == "" {
      older', newer' := older, newer;
    } else if op.RememberOp? {
      older', newer' := RememberOther(m, cap, key, e, older, newer, op.key, Stamped(op.record, op.now));
    } else {
      older', newer' := RecallOther(m, cap, ttl, key, e, older, newer, op.key, op.asked, op.touched);
    }
  }

  lemma {:induction false} TouchedOne<R>(op: Op<R>)
    ensures Touched([op]) == if op.key == "" then {} else {op.key}
  {
    assert [op][1..] == [];
    assert Touched([op][1..]) == {};
  }

  lemma {:induction false} TouchedHead<R>(ops: seq<Op<R>>)
    requires ops != []
    ensures Touched(ops) == Touched([ops[0]]) + Touched(ops[1..])
  {
    TouchedOne(ops[0]);
  }

  lemma {:induction false} SurvivesQuietRun<R>(m: Memory<R>, cap: nat, ttl: int, ops: seq<Op<R>>, key: string,
      e: Stamped<R>, older: Memory<R>, newer: Memory<R>)
    requires Valid(m, cap) && HeldBehind(m, key, e, older, newer)
    requires forall op :: op in ops ==> op.key != key
    requires |Keys(newer) + Touched(ops)| < cap
    ensures Lookup(Run(m, cap, ttl, ops), key) == Some(e)
    decreases |ops|
  {
    if ops == [] {
      HeldFacts(m, cap, key, e, older, newer);
    } else {
      TouchedHead(ops);
      SubsetCard(Keys(newer) + Touched([ops[0]]), Keys(newer) + Touched(ops));
      var older', newer' := TouchOther(m, cap, ttl, ops[0], key, e, older, newer);
      StepValid(m, cap, ttl, ops[0]);
      SubsetCard(Keys(newer') + Touched(ops[1..]), Keys(newer) + Touched(ops));
      SurvivesQuietRun(Step(m, cap, ttl, ops[0]).0, cap, ttl, ops[1..], key, e, older', newer');
    }
  }

  /**
   The promise of the memory: a key just remembered (or just recalled) comes back with its exact
   record as long as fewer than `cap` other keys were touched since and it is not older than the
   time to live; past that age it is dropped.
   */
  lemma {:induction false} RecallAfter<R>(m: Memory<R>, cap: nat, ttl: int, touch: Op<R>, ops: seq<Op<R>>, record: R,
      at: int, asked: int, touched: int)
    requires Valid(m, cap) && touch.key != ""
    requires touch.RememberOp? ==> touch.record == record && touch.now == at
    requires touch.RecallOp? ==> Step(m, cap, ttl, touch).1 == Some(record) && touch.touched == at
    requires forall op :: op in ops ==> op.key != touch.key
    requires |Touched(ops)| < cap
    ensures Recall(Run(Step(m, cap, ttl, touch).0, cap, ttl, ops), ttl, touch.key, asked, touched).1
         == if asked - at <= ttl then Some(record) else None
  {
    var m1, e := Step(m, cap, ttl, touch).0, Stamped(record, at);
    var older := TouchGoesLast(m, cap, ttl, touch, record, at);
    assert Valid(m1, cap) by { StepValid(m, cap, ttl, touch); }
    assert m1 == older + [(touch.key, e)] + [];
    assert Lookup(Run(m1, cap, ttl, ops), touch.key) == Some(e) by {
      assert Keys<string, Stamped<R>>([]) + Touched(ops) == Touched(ops);
      SurvivesQuietRun(m1, cap, ttl, ops, touch.key, e, older, []);
    }
  }

  lemma {:induction false} TouchGoesLast<R>(m: Memory<R>, cap: nat, ttl: int, touch: Op<R>, record: R, at: int)
    returns (older: Memory<R>)
    requires Valid(m, cap) && touch.key != ""
    requires touch.RememberOp? ==> touch.record == record && touch.now == at
    requires touch.RecallOp? ==> Step(m, cap, ttl, touch).1 == Some(record) && touch.touched == at
    ensures Step(m, cap, ttl, touch).0 == older + [(touch.key, Stamped(record, at))]
  {
    var cut := Delete(m, touch.key);
    DeleteEffect(m, touch.key);
    PutEffect(cut, touch.key, Stamped(record, at));
    var grown := cut + [(touch.key, Stamped(record, at))];
    var drop := if touch.RememberOp? && |grown| > cap then |grown| - cap else 0;
    older := cut[drop..];
    assert grown[drop..] == older + [(touch.key, Stamped(record, at))];
  }

  /** The other direction: `cap` other keys remembered since push the key out. */
  lemma {:induction false} PushedOut<R>(m: Memory<R>, cap: nat, ttl: int, ops: seq<Op<R>>, key: string, e: Stamped<R>,
                                        older: Memory<R>, newer: Memory<R>)
    requires Valid(m, cap) && HeldBehind(m, key, e, older, newer)
    requires forall op :: op in ops ==> op.RememberOp? && op.key != key
    requires |Keys(newer) + Touched(ops)| >= cap
    ensures Lookup(Run(m, cap, ttl, ops), key) == None
    decreases |ops|
  {
    if ops == [] {
      assert Keys(newer) + Touched(ops) == Keys(newer);
      HeldFacts(m, cap, key, e, older, newer);
    } else {
      var op, rest := ops[0], ops[1..];
      var m1 := Step(m, cap, ttl, op).0;
      assert op in ops && forall o :: o in rest ==> o in ops;
      StepValid(m, cap, ttl, op);
      if |Keys(newer) + Touched([op])| < cap {
        var older', newer' := TouchOther(m, cap, ttl, op, key, e, older, newer);
        assert Keys(newer') + Touched(rest) == Keys(newer) + Touched(ops) by { TouchedHead(ops); }
        PushedOut(m1, cap, ttl, rest, key, e, older', newer');
      } else {
        LastStraw(m, cap, ttl, op, key, e, older, newer);
        StaysAbsent(m1, cap, ttl, rest, key);
      }
    }
  }

  lemma {:induction false} LastStraw<R>(m: Memory<R>, cap: nat, ttl: int, op: Op<R>, key: string, e: Stamped<R>,
      older: Memory<R>, newer: Memory<R>)
    requires Valid(m, cap) && HeldBehind(m, key, e, older, newer)
    requires op.RememberOp? && op.key != key && |Keys(newer) + Touched([op])| >= cap
    ensures key !in Keys(Step(m, cap, ttl, op).0)
  {
    TouchedOne(op);
    HeldFacts(m, cap, key, e, older, newer);
    assert Keys(newer) + {} == Keys(newer);
    KeyDropped(m, cap, key, e, older, newer, op.key, op.record, op.now);
  }

  lemma {:induction false} KeyDropped<R>(m: Memory<R>, cap: nat, key: string, e: Stamped<R>, older: Memory<R>,
      newer: Memory<R>, other: string, record: R, now: int)
    requires Valid(m, cap) && HeldBehind(m, key, e, older, newer)
    requires other != key && other != "" && |Keys(newer) + {other}| >= cap
    ensures key !in Keys(Remember(m, cap, other, record, now))
  {
    var v := Stamped(record, now);
    var front, tail := Delete(older, other) + [(key, e)], Delete(newer, other) + [(other, v)];
    assert Put(Delete(m, other), other, v) == front + tail by { TouchShape(m, cap, key, e, older, newer, other, v); }
    assert key !in Keys(newer) && Distinct(newer) by { HeldFacts(m, cap, key, e, older, newer); }
    assert Distinct(tail) && key !in Keys(tail) && |tail| >= cap by { NewerTail(newer, other, v); }
    SuffixOfSum(front, tail, cap);
    assert Remember(m, cap, other, record, now) == tail[|tail| - cap..];
    SuffixDistinct(tail, |tail| - cap);
  }

  lemma {:induction false} SuffixOfSum<T>(a: seq<T>, b: seq<T>, n: nat)
    requires n <= |b|
    ensures (a + b)[|a + b| - n..] == b[|b| - n..]
  {
  }

  lemma {:induction false} StaysAbsent<R>(m: Memory<R>, cap: nat, ttl: int, ops: seq<Op<R>>, key: string)
    requires Valid(m, cap) && key !in Keys(m)
    requires forall op :: op in ops ==> op.RememberOp? && op.key != key
    ensures Lookup(Run(m, cap, ttl, ops), key) == None
    decreases |ops|
  {
    if ops == [] {
      LookupKeys(m, key);
    } else {
      var op := ops[0];
      StepValid(m, cap, ttl, op);
      if op.key != "" {
        DeleteEffect(m, op.key);
        PutEffect(Delete(m, op.key), op.key, Stamped(op.record, op.now));
        var grown := Put(Delete(m, op.key), op.key, Stamped(op.record, op.now));
        if |grown| > cap {
          SuffixDistinct(grown, |grown| - cap);
        }
      }
      StaysAbsent(Step(m, cap, ttl, op).0, cap, ttl, ops[1..], key);
    }
  }

  /**
   When only remembers intervene, both directions: the record is recalled exactly when fewer than `cap` other
   keys came after it and it is young enough.
   */
  lemma {:induction false} RecalledIff<R>(m: Memory<R>, cap: nat, ttl: int, key: string, record: R, at: int,
      ops: seq<Op<R>>, asked: int, touched: int)
    requires Valid(m, cap) && key != ""
    requires forall op :: op in ops ==> op.RememberOp? && op.key != key
    ensures Recall(Run(Remember(m, cap, key, record, at), cap, ttl, ops), ttl, key, asked, touched).1
         == if |Touched(ops)| < cap && asked - at <= ttl then Some(record) else None
  {
    var touch := RememberOp(key, record, at);
    if |Touched(ops)| < cap {
      RecallAfter(m, cap, ttl, touch, ops, record, at, asked, touched);
    } else {
      var older := TouchGoesLast(m, cap, ttl, touch, record, at);
      StepValid(m, cap, ttl, touch);
      assert HeldBehind(Step(m, cap, ttl, touch).0, key, Stamped(record, at), older, []);
      assert Keys<string, Stamped<R>>([]) + Touched(ops) == Touched(ops);
      PushedOut(Step(m, cap, ttl, touch).0, cap, ttl, ops, key, Stamped(record, at), older, []);
    }
  }

  // ── The timestamped abstract map it refines ────────────────────────────────

  datatype Timed<+R> = Timed(record: R, at: int, stamp: nat)

  /** An unordered map in which every entry carries the number of the operation that last touched it. */
  type TimedMap<R> = map<string, Timed<R>>

  ghost predicate IsOldest<R>(a: TimedMap<R>, key: string) {
    key in a && forall j :: j in a ==> a[key].stamp <= a[j].stamp
  }

  /** One abstract operation: evict by oldest stamp, expire by age. */
  ghost predicate AbstractStep<R>(a: TimedMap<R>, cap: nat, ttl: int, clock: nat, op: Op<R>, answer: Option<R>,
      a': TimedMap<R>) {
    match op
    case RememberOp(key, record, now) =>
      answer.None? &&
      if key == "" then a' == a
      else
        var grown := a[key := Timed(record, now, clock)];
        if |grown| <= cap then a' == grown
        else exists k :: IsOldest(grown, k) && a' == grown - {k}
    case RecallOp(key, asked, touched) =>
      if key !in a then answer.None? && a' == a
      else if asked - a[key].at > ttl then answer.None? && a' == a - {key}
      else answer == Some(a[key].record) && a' == a[key := Timed(a[key].record, touched, clock)]
  }

  ghost predicate ByStamp<R>(m: Memory<R>, a: TimedMap<R>)
    requires Keys(m) <= a.Keys
  {
    m == [] || ((forall k :: k in Keys(m[1..]) ==> a[m[0].0].stamp < a[k].stamp) && ByStamp(m[1..], a))
  }

  /** Same keys, same records and ages, and the iteration order is the order of last touch. */
  ghost predicate Refines<R>(m: Memory<R>, a: TimedMap<R>, clock: nat) {
    && Keys(m) == a.Keys
    && (forall k :: k in a ==> Lookup(m, k) == Some(Stamped(a[k].record, a[k].at)) && a[k].stamp < clock)
    && ByStamp(m, a)
  }

  lemma {:induction false} ByStampDelete<R>(m: Memory<R>, a: TimedMap<R>, b: TimedMap<R>, key: string)
    requires Keys(m) <= a.Keys && ByStamp(m, a) && Keys(m) - {key} <= b.Keys
    requires forall k :: k in Keys(m) && k != key ==> b[k].stamp == a[k].stamp
    ensures Keys(Delete(m, key)) <= b.Keys && ByStamp(Delete(m, key), b)
  {
    DeleteEffect(m, key);
    if m != [] {
      DeleteEffect(m[1..], key);
      ByStampDelete(m[1..], a, b, key);
      if m[0].0 != key {
        assert Delete(m, key)[1..] == Delete(m[1..], key);
      }
    }
  }

  lemma {:induction false} ByStampAppend<R>(m: Memory<R>, a: TimedMap<R>, key: string, v: Stamped<R>)
    requires Keys(m) + {key} <= a.Keys && ByStamp(m, a)
    requires forall k :: k in Keys(m) ==> a[k].stamp < a[key].stamp
    ensures Keys(m + [(key, v)]) == Keys(m) + {key} && ByStamp(m + [(key, v)], a)
  {
    if m == [] {
      assert m + [(key, v)] == [(key, v)];
      assert [(key, v)][1..] == [];
    } else {
      ByStampAppend(m[1..], a, key, v);
      assert (m + [(key, v)])[1..] == m[1..] + [(key, v)];
    }
  }

  /** A touch moves the key to the end of the iteration order and to the newest stamp. */
  lemma {:induction false} TouchRefines<R>(m: Memory<R>, a: TimedMap<R>, clock: nat, key: string, v: Stamped<R>)
    requires Refines(m, a, clock) && Distinct(m)
    ensures Refines(Put(Delete(m, key), key, v), a[key := Timed(v.record, v.at, clock)], clock + 1)
  {
    var b := a[key := Timed(v.record, v.at, clock)];
    DeleteEffect(m, key);
    PutEffect(Delete(m, key), key, v);
    ByStampDelete(m, a, b, key);
    ByStampAppend(Delete(m, key), b, key, v);
  }

  /** Dropping the first key of the iteration drops the oldest stamp. */
  lemma {:induction false} EvictRefines<R>(m: Memory<R>, a: TimedMap<R>, clock: nat)
    requires Refines(m, a, clock) && Distinct(m) && m != []
    ensures IsOldest(a, m[0].0) && Refines(m[1..], a - {m[0].0}, clock)
  {
    DropFirst(m);
    DeleteEffect(m, m[0].0);
    ByStampDelete(m, a, a - {m[0].0}, m[0].0);
  }

  lemma {:induction false} MapCard<R>(m: Memory<R>, a: TimedMap<R>)
    requires Distinct(m) && Keys(m) == a.Keys
    ensures |m| == |a|
  {
    DistinctCard(m);
  }

  lemma {:induction false} RememberRefines<R>(m: Memory<R>, a: TimedMap<R>, cap: nat, ttl: int, clock: nat, op: Op<R>)
      returns (a': TimedMap<R>)
    requires Valid(m, cap) && Refines(m, a, clock) && op.RememberOp? && op.key != ""
    ensures AbstractStep(a, cap, ttl, clock, op, None, a')
    ensures Refines(Remember(m, cap, op.key, op.record, op.now), a', clock + 1)
  {
    var v := Stamped(op.record, op.now);
    var grown := Put(Delete(m, op.key), op.key, v);
    TouchRefines(m, a, clock, op.key, v);
    TouchValid(m, op.key, v);
    a' := a[op.key := Timed(op.record, op.now, clock)];
    MapCard(grown, a');
    if |grown| > cap {
      assert |grown| <= cap + 1;
      EvictRefines(grown, a', clock + 1);
      a' := a' - {grown[0].0};
    }
  }

  /** Forgetting an expired key. */
  lemma {:induction false} ForgetRefines<R>(m: Memory<R>, a: TimedMap<R>, clock: nat, key: string)
    requires Refines(m, a, clock) && key in a
    ensures Refines(Delete(m, key), a - {key}, clock + 1)
  {
    DeleteEffect(m, key);
    ByStampDelete(m, a, a - {key}, key);
  }

  lemma {:induction false} RecallRefines<R>(m: Memory<R>, a: TimedMap<R>, cap: nat, ttl: int, clock: nat, op: Op<R>)
      returns (a': TimedMap<R>)
    requires Valid(m, cap) && Refines(m, a, clock) && op.RecallOp?
    ensures AbstractStep(a, cap, ttl, clock, op, Step(m, cap, ttl, op).1, a')
    ensures Refines(Step(m, cap, ttl, op).0, a', clock + 1)
  {
    a' := a;
    LookupKeys(m, op.key);
    if op.key in a {
      if op.asked - a[op.key].at > ttl {
        a' := a - {op.key};
        ForgetRefines(m, a, clock, op.key);
      } else {
        a' := a[op.key := Timed(a[op.key].record, op.touched, clock)];
        TouchRefines(m, a, clock, op.key, Stamped(a[op.key].record, op.touched));
      }
    }
  }

  lemma {:induction false} StepRefines<R>(m: Memory<R>, a: TimedMap<R>, cap: nat, ttl: int, clock: nat, op: Op<R>)
      returns (a': TimedMap<R>)
    requires Valid(m, cap) && Refines(m, a, clock)
    ensures AbstractStep(a, cap, ttl, clock, op, Step(m, cap, ttl, op).1, a')
    ensures Refines(Step(m, cap, ttl, op).0, a', clock + 1)
  {
    if op.RecallOp? {
      a' := RecallRefines(m, a, cap, ttl, clock, op);
    } else if op.key != "" {
      a' := RememberRefines(m, a, cap, ttl, clock, op);
    } else {
      a' := a;
    }
  }

  /** What a run of the object answers, one answer per operation. */
  function Answers<R>(m: Memory<R>, cap: nat, ttl: int, ops: seq<Op<R>>): seq<Option<R>>
    decreases |ops|
  {
    if ops == [] then []
    else [Step(m, cap, ttl, ops[0]).1] + Answers(Step(m, cap, ttl, ops[0]).0, cap, ttl, ops[1..])
  }

  ghost predicate AbstractRun<R(!new)>(a: TimedMap<R>, cap: nat, ttl: int, clock: nat, ops: seq<Op<R>>,
      answers: seq<Option<R>>, a': TimedMap<R>)
    decreases |ops|
  {
    |answers| == |ops| &&
    if ops == [] then a' == a
    else exists mid :: AbstractStep(a, cap, ttl, clock, ops[0], answers[0], mid)
                    && AbstractRun(mid, cap, ttl, clock + 1, ops[1..], answers[1..], a')
  }

  /** Every run of the ordered map is a run of the timestamped map with the same answers, and stays within the cap. */
  lemma {:induction false} RunRefines<R(!new)>(m: Memory<R>, a: TimedMap<R>, cap: nat, ttl: int, clock: nat,
      ops: seq<Op<R>>) returns (a': TimedMap<R>)
    requires Valid(m, cap) && Refines(m, a, clock)
    ensures AbstractRun(a, cap, ttl, clock, ops, Answers(m, cap, ttl, ops), a')
    ensures Valid(Run(m, cap, ttl, ops), cap) && Refines(Run(m, cap, ttl, ops), a', clock + |ops|)
    decreases |ops|
  {
    if ops == [] {
      a' := a;
    } else {
      var op, rest := ops[0], ops[1..];
      var m1 := Step(m, cap, ttl, op).0;
      var mid := StepRefines(m, a, cap, ttl, clock, op);
      StepValid(m, cap, ttl, op);
      a' := RunRefines(m1, mid, cap, ttl, clock + 1, rest);
      var answers := Answers(m, cap, ttl, ops);
      assert answers[0] == Step(m, cap, ttl, op).1 && answers[1..] == Answers(m1, cap, ttl, rest);
      assert AbstractRun(a, cap, ttl, clock, ops, answers, a');
      assert clock + |ops| == clock + 1 + |rest|;
    }
  }
}
