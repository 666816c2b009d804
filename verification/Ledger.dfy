/** The token-usage table: one row per call, two unique constraints, and a second writer. */
module Ledger {
  import opened Wrappers
  import opened FiniteSets

  /** The columns of one row besides its key; `callId` is "" for a call without a request id. */
  datatype Row = Row(timestampMs: int, provider: string, model: string, process: string, subscription: string,
      input: int, output: int, total: int, latencyMs: int, preview: string, estimated: int, modelRaw: string,
      callId: string, cacheRead: nat, cacheWrite: nat, reasoning: nat)

  datatype Key = Key(hash: string, id: int)

  type Table = map<Key, Row>

  /** The partial unique index on (user_hash, tool_call_id); the primary key is the map's own. */
  ghost predicate Valid(t: Table) {
    forall a, b :: a in t && b in t && a.hash == b.hash && t[a].callId != "" && t[a].callId == t[b].callId ==> a == b
  }

  // ── The statements ─────────────────────────────────────────────────────────

  function Ids(t: Table, hash: string): set<int> {
    set k | k in t && k.hash == hash :: k.id
  }

  /** SELECT COALESCE(MAX(id), 0) + 1 */
  function NextId(t: Table, hash: string): int {
    if Ids(t, hash) == {} then 1 else Max(Ids(t, hash)) + 1
  }

  /** The next id is one above the highest there is, or 1; so no row has it. */
  lemma {:induction false} NextIdFree(t: Table, hash: string)
    ensures Key(hash, NextId(t, hash)) !in t
    ensures forall k :: k in t && k.hash == hash ==> k.id < NextId(t, hash)
    ensures Key(hash, NextId(t, hash) - 1) in t || (NextId(t, hash) == 1 && forall k :: k in t ==> k.hash != hash)
  {
    var next := NextId(t, hash);
    assert Key(hash, next) in t ==> next in Ids(t, hash);
    forall k | k in t && k.hash == hash ensures k.id < next {
      assert k.id in Ids(t, hash);
    }
    if Ids(t, hash) == {} {
      assert forall k :: k in t && k.hash == hash ==> k.id in Ids(t, hash);
    } else {
      var k :| k in t && k.hash == hash && k.id == Max(Ids(t, hash));
      assert k == Key(hash, next - 1);
    }
  }

  ghost predicate SameRequest(t: Table, k: Key, hash: string, callId: string) {
    k in t && k.hash == hash && t[k].callId == callId
  }

  /** A row for this request is there; an empty id is not an identity. */
  predicate IsDup(t: Table, hash: string, callId: string) {
    callId != "" && exists k | k in t :: k.hash == hash && t[k].callId == callId
  }

  predicate CanInsert(t: Table, hash: string, id: int, row: Row) {
    Key(hash, id) !in t && !IsDup(t, hash, row.callId)
  }

  predicate CacheLess(row: Row) {
    row.cacheRead + row.cacheWrite == 0
  }

  function MaxNat(x: nat, y: nat): nat {
    if x < y then y else x
  }

  function Filled(existing: Row, row: Row): Row {
    existing.(cacheRead := row.cacheRead, cacheWrite := row.cacheWrite,
        reasoning := MaxNat(existing.reasoning, row.reasoning))
  }

  /** UPDATE ... WHERE user_hash = ? AND tool_call_id = ? */
  function FillRequest(t: Table, hash: string, row: Row): Table {
    map k | k in t :: if k.hash == hash && t[k].callId == row.callId then Filled(t[k], row) else t[k]
  }

  /** The incoming duplicate is worth merging into what was read. */
  predicate Richer(existing: Row, row: Row) {
    CacheLess(existing) && (!CacheLess(row) || row.reasoning > 0)
  }

  /** SELECT ... LIMIT 1 of the request's row. */
  function Existing(t: Table, hash: string, callId: string): Option<Row>
    requires Valid(t) && callId != ""
  {
    if IsDup(t, hash, callId) then
      var k :| k in t && k.hash == hash && t[k].callId == callId;
      Some(t[k])
    else None
  }

  /** A row but for the counts an enrichment may fill in. */
  function Identity(row: Row): Row {
    row.(cacheRead := 0, cacheWrite := 0, reasoning := 0)
  }

  /**
   Nothing is lost from one table to the next: every row keeps its key and everything but its cache and
   reasoning counts.
   */
  ghost predicate Keeps(t: Table, t': Table) {
    forall k :: k in t ==> k in t' && Identity(t'[k]) == Identity(t[k])
  }

  // ── One logged call, statement by statement ────────────────────────────────

  datatype Call = Call(hash: string, row: Row)

  datatype Outcome = Inserted(id: int, attempt: nat) | Duplicate | Failed

  datatype Pc =
    | Probe
    | ReadExisting
    | Enrich(existing: Option<Row>)
    | Allocate(attempt: nat)
    | Insert(attempt: nat, id: int)
    | Reprobe(attempt: nat)
    | Done(outcome: Outcome)

  const MAX_ID_RETRIES: nat := 5

  /**
   The shared table, this process's id counter, and where the call stands; `foreign` counts the rows other
   writers added under the call's hash meanwhile.
   */
  datatype Sys = Sys(table: Table, counter: int, pc: Pc, foreign: nat)

  function Begin(t: Table, counter: int): Sys {
    Sys(t, counter, Probe, 0)
  }

  /** One statement of the call. */
  function Own(s: Sys, call: Call, machine: string): Sys
    requires Valid(s.table)
  {
    var h, row := call.hash, call.row;
    match s.pc
    case Probe => s.(pc := if IsDup(s.table, h, row.callId) then ReadExisting else Allocate(0))
    case ReadExisting => s.(pc := Enrich(if row.callId == "" then None else Existing(s.table, h, row.callId)))
    case Enrich(existing) =>
      s.(table := if existing.Some? && Richer(existing.value, row) then FillRequest(s.table, h, row) else s.table,
          pc := Done(Duplicate))
    case Allocate(attempt) =>
      if h == machine && attempt == 0 then s.(counter := s.counter + 1, pc := Insert(attempt, s.counter))
      else s.(pc := Insert(attempt, NextId(s.table, h)))
    case Insert(attempt, id) =>
      if CanInsert(s.table, h, id, row) then
        s.(table := s.table[Key(h, id) := row],
           counter := if h == machine && id >= s.counter then id + 1 else s.counter,
           pc := Done(Inserted(id, attempt)))
      else s.(pc := Reprobe(attempt))
    case Reprobe(attempt) =>
      s.(pc := if IsDup(s.table, h, row.callId) then ReadExisting
               else if attempt < MAX_ID_RETRIES - 1 then Allocate(attempt + 1)
               else Done(Failed))
    case Done(_) => s
  }

  /**
   What other writers may do between two statements: add rows and enrich existing ones, under the same
   constraints.
   */
  ghost predicate Rely(t: Table, t': Table) {
    Valid(t') && Keeps(t, t')
  }

  datatype Action = Mine | Theirs(after: Table)

  ghost predicate Legal(s: Sys, a: Action) {
    a.Theirs? ==> Rely(s.table, a.after)
  }

  lemma {:induction false} KeepsIds(t: Table, t': Table, hash: string)
    requires Keeps(t, t')
    ensures Ids(t, hash) <= Ids(t', hash) && |Ids(t, hash)| <= |Ids(t', hash)|
  {
    SubsetCard(Ids(t, hash), Ids(t', hash));
  }

  ghost function Take(s: Sys, call: Call, machine: string, a: Action): Sys
    requires Valid(s.table) && Legal(s, a)
  {
    match a
    case Mine => Own(s, call, machine)
    case Theirs(after) =>
      KeepsIds(s.table, after, call.hash);
      s.(table := after, foreign := s.foreign + |Ids(after, call.hash)| - |Ids(s.table, call.hash)|)
  }

  // ── Safety under every interleaving ────────────────────────────────────────

  /**
   Collisions the call can meet without any foreign row: the machine hash's first id comes from a counter
   that may be stale.
   */
  ghost function Free(call: Call, machine: string): nat {
    if call.hash == machine then 1 else 0
  }

  ghost predicate Inv(s: Sys, call: Call, machine: string) {
    && Valid(s.table)
    && match s.pc
       case Probe => true
       case ReadExisting => IsDup(s.table, call.hash, call.row.callId)
       case Enrich(_) => IsDup(s.table, call.hash, call.row.callId)
       case Allocate(a) => a < MAX_ID_RETRIES && a <= s.foreign + Free(call, machine)
       case Insert(a, id) =>
         a < MAX_ID_RETRIES && a <= s.foreign + Free(call, machine)
         && (Key(call.hash, id) in s.table ==> a + 1 <= s.foreign + Free(call, machine))
       case Reprobe(a) =>
         a < MAX_ID_RETRIES && (IsDup(s.table, call.hash, call.row.callId) || a + 1 <= s.foreign + Free(call, machine))
       case Done(Inserted(id, a)) =>
         a < MAX_ID_RETRIES && a <= s.foreign + Free(call, machine)
         && Keeps(map[Key(call.hash, id) := call.row], s.table)
         && (call.hash == machine ==> s.counter > id)
       case Done(Duplicate) => IsDup(s.table, call.hash, call.row.callId)
       case Done(Failed) => MAX_ID_RETRIES <= s.foreign + Free(call, machine)
  }

  lemma {:induction false} KeepsDup(t: Table, t': Table, hash: string, callId: string)
    requires Keeps(t, t') && IsDup(t, hash, callId)
    ensures IsDup(t', hash, callId)
  {
    var k :| k in t && k.hash == hash && t[k].callId == callId;
    assert k in t' && t'[k].callId == Identity(t'[k]).callId;
  }

  lemma {:induction false} KeepsTrans(a: Table, b: Table, c: Table)
    requires Keeps(a, b) && Keeps(b, c)
    ensures Keeps(a, c)
  {
  }

  lemma {:induction false} FillKeeps(t: Table, hash: string, row: Row)
    requires Valid(t)
    ensures Valid(FillRequest(t, hash, row)) && Keeps(t, FillRequest(t, hash, row))
  {
    var u := FillRequest(t, hash, row);
    assert forall k :: k in t ==> u[k].callId == t[k].callId;
  }

  lemma {:induction false} InsertKeeps(t: Table, hash: string, id: int, row: Row)
    requires Valid(t) && CanInsert(t, hash, id, row)
    ensures Valid(t[Key(hash, id) := row]) && Keeps(t, t[Key(hash, id) := row])
    ensures Keeps(map[Key(hash, id) := row], t[Key(hash, id) := row])
  {
    var u, k := t[Key(hash, id) := row], Key(hash, id);
    forall a, b | a in u && b in u && a.hash == b.hash && u[a].callId != "" && u[a].callId == u[b].callId
      ensures a == b
    {
      assert a in t && a.hash == hash ==> t[a].callId != row.callId || row.callId == "";
      assert b in t && b.hash == hash ==> t[b].callId != row.callId || row.callId == "";
    }
  }

  lemma {:induction false} OwnStep(s: Sys, call: Call, machine: string)
    requires Inv(s, call, machine)
    ensures Inv(Own(s, call, machine), call, machine)
    ensures Keeps(s.table, Own(s, call, machine).table)
    ensures Own(s, call, machine).counter >= s.counter && Own(s, call, machine).foreign == s.foreign
  {
    match s.pc {
      case Enrich(existing) =>
        FillKeeps(s.table, call.hash, call.row);
        KeepsDup(s.table, Own(s, call, machine).table, call.hash, call.row.callId);
      case Allocate(a) =>
        NextIdFree(s.table, call.hash);
      case Insert(a, id) =>
        if CanInsert(s.table, call.hash, id, call.row) {
          InsertKeeps(s.table, call.hash, id, call.row);
        }
      case _ =>
    }
  }

  lemma {:induction false} NewKeyCounts(t: Table, t': Table, key: Key)
    requires Keeps(t, t') && key !in t && key in t'
    ensures |Ids(t', key.hash)| > |Ids(t, key.hash)|
  {
    var a, b := Ids(t, key.hash), Ids(t', key.hash);
    KeepsIds(t, t', key.hash);
    assert key.id in b && key.id !in a;
    SubsetCard(a, b - {key.id});
  }

  lemma {:induction false} TheirStep(s: Sys, call: Call, machine: string, after: Table)
    requires Inv(s, call, machine) && Rely(s.table, after)
    ensures Inv(Take(s, call, machine, Theirs(after)), call, machine)
    ensures Take(s, call, machine, Theirs(after)).foreign >= s.foreign
  {
    KeepsIds(s.table, after, call.hash);
    if IsDup(s.table, call.hash, call.row.callId) {
      KeepsDup(s.table, after, call.hash, call.row.callId);
    }
    if s.pc.Insert? && Key(call.hash, s.pc.id) !in s.table && Key(call.hash, s.pc.id) in after {
      NewKeyCounts(s.table, after, Key(call.hash, s.pc.id));
    }
    if s.pc.Done? && s.pc.outcome.Inserted? {
      KeepsTrans(map[Key(call.hash, s.pc.outcome.id) := call.row], s.table, after);
    }
  }

  ghost predicate LegalRun(s: Sys, call: Call, machine: string, actions: seq<Action>)
    requires Valid(s.table)
    decreases |actions|
  {
    actions == [] ||
    (Legal(s, actions[0]) && Valid(Take(s, call, machine, actions[0]).table)
     && LegalRun(Take(s, call, machine, actions[0]), call, machine, actions[1..]))
  }

  ghost function TakeAll(s: Sys, call: Call, machine: string, actions: seq<Action>): Sys
    requires Valid(s.table) && LegalRun(s, call, machine, actions)
    decreases |actions|
  {
    if actions == [] then s else TakeAll(Take(s, call, machine, actions[0]), call, machine, actions[1..])
  }

  /**
   Under every interleaving with other writers: both uniqueness constraints hold, no row is lost, the
   local counter never goes back, and what the outcome says is so: an inserted row is there, a
   duplicate means the request's row is there, and a failure means five id collisions.
   */
  lemma {:induction false} EveryInterleaving(s: Sys, call: Call, machine: string, actions: seq<Action>)
    requires Inv(s, call, machine) && LegalRun(s, call, machine, actions)
    ensures var e := TakeAll(s, call, machine, actions);
      Inv(e, call, machine) && Keeps(s.table, e.table) && e.counter >= s.counter && e.foreign >= s.foreign
    decreases |actions|
  {
    if actions != [] {
      var a := actions[0];
      if a.Mine? {
        OwnStep(s, call, machine);
      } else {
        TheirStep(s, call, machine, a.after);
      }
      var s1 := Take(s, call, machine, a);
      EveryInterleaving(s1, call, machine, actions[1..]);
      KeepsTrans(s.table, s1.table, TakeAll(s, call, machine, actions).table);
    }
  }

  /**
   A call gives up only after five collisions, which take five foreign rows, or four when the first id came
   from the counter; with none, two attempts are enough.
   */
  lemma {:induction false} LandsUnlessCrowded(t: Table, counter: int, call: Call, machine: string, actions: seq<Action>)
    requires Valid(t) && LegalRun(Begin(t, counter), call, machine, actions)
    ensures var e := TakeAll(Begin(t, counter), call, machine, actions);
      && (e.pc == Done(Failed) ==> e.foreign >= if call.hash == machine then 4 else 5)
      && (e.pc.Done? && e.pc.outcome.Inserted? && e.foreign == 0
          ==> e.pc.outcome.attempt <= if call.hash == machine then 1 else 0)
  {
    EveryInterleaving(Begin(t, counter), call, machine, actions);
  }

  // ── The local counter ──────────────────────────────────────────────────────

  /**
   The counter of a call that began at `start`: only a call under the machine's hash moves it, by one when
   it allocates, and past the id it landed on.
   */
  ghost predicate CounterFrom(s: Sys, call: Call, machine: string, start: int) {
    match s.pc
    case Probe => s.counter == start
    case Allocate(a) => s.counter == if call.hash == machine && a > 0 then start + 1 else start
    case Insert(_, _) => s.counter == if call.hash == machine then start + 1 else start
    case Reprobe(_) => s.counter == if call.hash == machine then start + 1 else start
    case Done(Inserted(id, _)) =>
      s.counter == if call.hash != machine then start else if id > start then id + 1 else start + 1
    case Done(Failed) => s.counter == if call.hash == machine then start + 1 else start
    case _ => s.counter == start || (call.hash == machine && s.counter == start + 1)
  }

  lemma {:induction false} CounterStep(s: Sys, call: Call, machine: string, start: int)
    requires Inv(s, call, machine) && CounterFrom(s, call, machine, start)
    ensures CounterFrom(Own(s, call, machine), call, machine, start)
  {
  }

  /** Over every interleaving: exactly how far the call moves the counter. */
  lemma {:induction false} CounterRun(s: Sys, call: Call, machine: string, actions: seq<Action>, start: int)
    requires Inv(s, call, machine) && LegalRun(s, call, machine, actions) && CounterFrom(s, call, machine, start)
    ensures CounterFrom(TakeAll(s, call, machine, actions), call, machine, start)
    decreases |actions|
  {
    if actions != [] {
      var a := actions[0];
      if a.Mine? {
        OwnStep(s, call, machine);
        CounterStep(s, call, machine, start);
      } else {
        TheirStep(s, call, machine, a.after);
      }
      CounterRun(Take(s, call, machine, a), call, machine, actions[1..], start);
    }
  }

  // ── It always ends ─────────────────────────────────────────────────────────

  function Remaining(pc: Pc): int {
    match pc
    case Probe => 18
    case ReadExisting => 2
    case Enrich(_) => 1
    case Allocate(a) => 3 * (5 - a) + 2
    case Insert(a, _) => 3 * (5 - a) + 1
    case Reprobe(a) => 3 * (5 - a)
    case Done(_) => 0
  }

  ghost function OwnCount(actions: seq<Action>): nat {
    if actions == [] then 0 else (if actions[0].Mine? then 1 else 0) + OwnCount(actions[1..])
  }

  /** Whatever others do, the call is over after at most eighteen statements of its own. */
  lemma {:induction false} EndsWithin(s: Sys, call: Call, machine: string, actions: seq<Action>)
    requires Inv(s, call, machine) && LegalRun(s, call, machine, actions)
    requires OwnCount(actions) >= Remaining(s.pc)
    ensures TakeAll(s, call, machine, actions).pc.Done?
    decreases |actions|
  {
    if actions != [] {
      var a := actions[0];
      if a.Mine? {
        OwnStep(s, call, machine);
      } else {
        TheirStep(s, call, machine, a.after);
      }
      EndsWithin(Take(s, call, machine, a), call, machine, actions[1..]);
    }
  }

  /** What a finished call may say of the table. */
  ghost predicate OutcomeHolds(t: Table, call: Call, machine: string, foreign: nat, outcome: Outcome) {
    match outcome
    case Inserted(id, _) => Key(call.hash, id) in t && Identity(t[Key(call.hash, id)]) == Identity(call.row)
    case Duplicate => call.row.callId != "" && exists k :: SameRequest(t, k, call.hash, call.row.callId)
    case Failed => foreign >= if call.hash == machine then 4 else 5
  }

  /**
   The whole promise of one logged call against any second writer: it ends; both constraints hold and
   no row is lost; its row is in the table, or the request's row already was, or it was crowded out.
   */
  lemma {:induction false} CallEnds(t: Table, counter: int, call: Call, machine: string, actions: seq<Action>)
    requires Valid(t) && LegalRun(Begin(t, counter), call, machine, actions)
    requires OwnCount(actions) >= 18
    ensures var e := TakeAll(Begin(t, counter), call, machine, actions);
      && Valid(e.table) && Keeps(t, e.table) && e.counter >= counter
      && e.pc.Done? && OutcomeHolds(e.table, call, machine, e.foreign, e.pc.outcome)
      && (e.pc.outcome.Inserted? && call.hash == machine ==> e.counter > e.pc.outcome.id)
      && CounterFrom(e, call, machine, counter)
  {
    var s := Begin(t, counter);
    EveryInterleaving(s, call, machine, actions);
    EndsWithin(s, call, machine, actions);
    CounterRun(s, call, machine, actions, counter);
    var e := TakeAll(s, call, machine, actions);
    match e.pc.outcome {
      case Inserted(id, _) =>
        assert Key(call.hash, id) in map[Key(call.hash, id) := call.row];
      case Duplicate =>
        var k :| k in e.table && k.hash == call.hash && e.table[k].callId == call.row.callId;
        assert SameRequest(e.table, k, call.hash, call.row.callId);
      case Failed =>
    }
  }
}
