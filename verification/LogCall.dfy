/** `logCall` on its own, the bound on foreign rows it survives, and what a list of duplicates leaves behind. */
module LogCall {
  import opened Wrappers
  import opened Ledger

  // ── Run alone ──────────────────────────────────────────────────────────────

  /** The call's own statements until it is over. */
  function Settle(s: Sys, call: Call, machine: string): (e: Sys)
    requires Inv(s, call, machine)
    ensures e.pc.Done? && Inv(e, call, machine)
    decreases Remaining(s.pc)
  {
    if s.pc.Done? then s
    else
      OwnStep(s, call, machine);
      Settle(Own(s, call, machine), call, machine)
  }

  class TokenUsageDb {
    var table: Table
    var localIdSeq: int
    const userHash: string

    constructor (userHash: string, table: Table)
      ensures this.userHash == userHash && this.table == table && localIdSeq == NextId(table, userHash)
    {
      this.userHash, this.table, localIdSeq := userHash, table, NextId(table, userHash);
    }

    method LogCall(call: Call) returns (outcome: Outcome)
      requires Valid(table)
      modifies this
      ensures Valid(table)
      ensures Settle(Begin(old(table), old(localIdSeq)), call, userHash) == Sys(table, localIdSeq, Done(outcome), 0)
    {
      ghost var goal := Settle(Begin(table, localIdSeq), call, userHash);
      var h, row := call.hash, call.row;
      if IsDup(table, h, row.callId) {
        SettleStep(Begin(table, localIdSeq), call, userHash);
        MergeOnCache(call);
        return Duplicate;
      }
      var attempt := 0;
      SettleStep(Begin(table, localIdSeq), call, userHash);
      while attempt < MAX_ID_RETRIES
        invariant attempt < MAX_ID_RETRIES && Inv(Sys(table, localIdSeq, Allocate(attempt), 0), call, userHash)
        invariant goal == Settle(Sys(table, localIdSeq, Allocate(attempt), 0), call, userHash)
      {
        SettleStep(Sys(table, localIdSeq, Allocate(attempt), 0), call, userHash);
        var id;
        if h == userHash && attempt == 0 {
          id := localIdSeq;
          localIdSeq := localIdSeq + 1;
        } else {
          id := NextId(table, h);
        }
        ghost var inserting := Sys(table, localIdSeq, Insert(attempt, id), 0);
        assert goal == Settle(inserting, call, userHash);
        SettleStep(inserting, call, userHash);
        if CanInsert(table, h, id, row) {
          table := table[Key(h, id) := row];
          if h == userHash && id >= localIdSeq {
            localIdSeq := id + 1;
          }
          assert Own(inserting, call, userHash) == Sys(table, localIdSeq, Done(Inserted(id, attempt)), 0);
          return Inserted(id, attempt);
        }
        SettleStep(Sys(table, localIdSeq, Reprobe(attempt), 0), call, userHash);
        if IsDup(table, h, row.callId) {
          MergeOnCache(call);
          return Duplicate;
        }
        if attempt == MAX_ID_RETRIES - 1 { // without other writers a fifth collision cannot happen
          assert false;
        }
        attempt := attempt + 1;
      }
      assert false;
    }

    /** Enrich the row already there, or leave it. */
    method MergeOnCache(call: Call)
      requires Valid(table) && IsDup(table, call.hash, call.row.callId)
      modifies `table
      ensures Valid(table)
      ensures Inv(Sys(old(table), localIdSeq, ReadExisting, 0), call, userHash)
      ensures Settle(Sys(old(table), localIdSeq, ReadExisting, 0), call, userHash)
          == Sys(table, localIdSeq, Done(Duplicate), 0)
    {
      ghost var s := Sys(table, localIdSeq, ReadExisting, 0);
      SettleStep(s, call, userHash);
      var existing := Existing(table, call.hash, call.row.callId);
      ghost var s1 := s.(pc := Enrich(existing));
      assert Own(s, call, userHash) == s1;
      SettleStep(s1, call, userHash);
      if existing.Some? && Richer(existing.value, call.row) {
        table := FillRequest(table, call.hash, call.row);
      }
      assert Own(s1, call, userHash) == Sys(table, localIdSeq, Done(Duplicate), 0);
    }
  }

  lemma {:induction false} SettleStep(s: Sys, call: Call, machine: string)
    requires Inv(s, call, machine) && !s.pc.Done?
    ensures Inv(Own(s, call, machine), call, machine)
    ensures Settle(s, call, machine) == Settle(Own(s, call, machine), call, machine)
  {
    OwnStep(s, call, machine);
  }

  /** A repeated request id enriches the one row it has, and touches nothing else. */
  lemma {:induction false} DuplicateAlone(t: Table, counter: int, call: Call, machine: string, k: Key)
    requires Valid(t) && call.row.callId != "" && SameRequest(t, k, call.hash, call.row.callId)
    ensures Settle(Begin(t, counter), call, machine)
         == Sys(if Richer(t[k], call.row) then t[k := Filled(t[k], call.row)] else t, counter, Done(Duplicate), 0)
  {
    var s := Begin(t, counter);
    SettleStep(s, call, machine);
    var s1 := s.(pc := ReadExisting);
    assert Own(s, call, machine) == s1;
    SettleStep(s1, call, machine);
    assert Existing(t, call.hash, call.row.callId) == Some(t[k]);
    var s2 := s.(pc := Enrich(Some(t[k])));
    assert Own(s1, call, machine) == s2;
    SettleStep(s2, call, machine);
    assert FillRequest(t, call.hash, call.row) == t[k := Filled(t[k], call.row)];
  }

  /**
   A new request adds its row under a free id: the counter's when that is free, one above the highest there
   is otherwise, on the first attempt or, with a counter that is taken, the second. The counter ends past it.
   */
  lemma {:induction false} InsertAlone(t: Table, counter: int, call: Call, machine: string) returns (id: int)
    requires Valid(t) && !IsDup(t, call.hash, call.row.callId)
    ensures id == if call.hash == machine && Key(machine, counter) !in t then counter else NextId(t, call.hash)
    ensures var e := Settle(Begin(t, counter), call, machine);
      && e.table == t[Key(call.hash, id) := call.row] && Key(call.hash, id) !in t
      && e.pc == Done(Inserted(id, if call.hash == machine && Key(machine, counter) in t then 1 else 0))
      && e.counter == (if call.hash != machine then counter else if id > counter then id + 1 else counter + 1)
  {
    var s := Begin(t, counter);
    SettleStep(s, call, machine);
    var s1 := s.(pc := Allocate(0));
    assert Own(s, call, machine) == s1;
    if call.hash == machine {
      var s2 := s1.(counter := counter + 1, pc := Insert(0, counter));
      assert Inv(s2, call, machine) && Settle(s1, call, machine) == Settle(s2, call, machine) by {
        SettleStep(s1, call, machine);
      }
      id := FromCounter(s2, call, machine);
    } else {
      id := FromTable(s1, call, machine);
    }
  }

  lemma {:induction false} FromCounter(s: Sys, call: Call, machine: string) returns (id: int)
    requires Inv(s, call, machine) && s.pc == Insert(0, s.counter - 1) && call.hash == machine
    requires !IsDup(s.table, machine, call.row.callId)
    ensures var at, t, e := s.counter - 1, s.table, Settle(s, call, machine);
      && id == (if Key(machine, at) !in t then at else NextId(t, machine))
      && e.table == t[Key(machine, id) := call.row] && Key(machine, id) !in t
      && e.pc == Done(Inserted(id, if Key(machine, at) in t then 1 else 0))
      && e.counter == if id > at then id + 1 else at + 1
  {
    SettleStep(s, call, machine);
    id := s.counter - 1;
    if Key(machine, id) in s.table {
      var s1 := s.(pc := Reprobe(0));
      assert Own(s, call, machine) == s1;
      SettleStep(s1, call, machine);
      id := FromTable(s1.(pc := Allocate(1)), call, machine);
    }
  }

  lemma {:induction false} FromTable(s: Sys, call: Call, machine: string) returns (id: int)
    requires Inv(s, call, machine) && s.pc.Allocate? && (call.hash == machine ==> s.pc.attempt != 0)
    requires !IsDup(s.table, call.hash, call.row.callId)
    ensures id == NextId(s.table, call.hash)
    ensures var e := Settle(s, call, machine);
      && e.table == s.table[Key(call.hash, id) := call.row] && Key(call.hash, id) !in s.table
      && e.pc == Done(Inserted(id, s.pc.attempt))
      && e.counter == if call.hash == machine && id >= s.counter then id + 1 else s.counter
  {
    id := NextId(s.table, call.hash);
    NextIdFree(s.table, call.hash);
    SettleStep(s, call, machine);
    var s1 := s.(pc := Insert(s.pc.attempt, id));
    assert Own(s, call, machine) == s1;
    SettleStep(s1, call, machine);
  }

  // ── A counter that is ahead stays ahead ────────────────────────────────────

  /** Every id the machine's hash has is below the counter. */
  ghost predicate Ahead(t: Table, counter: int, machine: string) {
    forall k :: k in t && k.hash == machine ==> k.id < counter
  }

  /** As it starts. */
  lemma {:induction false} AheadAtStart(t: Table, machine: string)
    ensures Ahead(t, NextId(t, machine), machine)
  {
    NextIdFree(t, machine);
  }

  /**
   With no other writer every call leaves it ahead, and a new request under the machine's hash lands at once,
   on the counter's id.
   */
  lemma {:induction false} AheadStays(t: Table, counter: int, call: Call, machine: string)
    requires Valid(t) && Ahead(t, counter, machine)
    ensures var e := Settle(Begin(t, counter), call, machine);
      && Ahead(e.table, e.counter, machine)
      && (call.hash == machine && !IsDup(t, machine, call.row.callId) ==>
            e.pc == Done(Inserted(counter, 0)) && e.counter == counter + 1)
  {
    if IsDup(t, call.hash, call.row.callId) {
      var k :| k in t && k.hash == call.hash && t[k].callId == call.row.callId;
      DuplicateAlone(t, counter, call, machine, k);
    } else {
      var id := InsertAlone(t, counter, call, machine);
    }
  }

  /** After a retry the counter is ahead again, however far behind it was: the lag costs one call one attempt. */
  lemma {:induction false} RetryCatchesUp(t: Table, counter: int, call: Call, machine: string, next: Call)
    requires Valid(t) && call.hash == machine && !IsDup(t, machine, call.row.callId)
    requires Key(machine, counter) in t
    ensures var e := Settle(Begin(t, counter), call, machine);
      && Ahead(e.table, e.counter, machine)
      && (next.hash == machine && !IsDup(e.table, machine, next.row.callId) ==>
            Settle(Begin(e.table, e.counter), next, machine).pc == Done(Inserted(e.counter, 0)))
  {
    var id := InsertAlone(t, counter, call, machine);
    NextIdFree(t, machine);
    var e := Settle(Begin(t, counter), call, machine);
    AheadStays(e.table, e.counter, next, machine);
  }

  // ── The bound is tight ─────────────────────────────────────────────────────

  const FOREIGN_ROW := Row(0, "", "", "", "", 0, 0, 0, 0, "", 0, "", "", 0, 0, 0)

  lemma {:induction false} FirstAction(s: Sys, call: Call, machine: string, a: Action, rest: seq<Action>)
    requires Valid(s.table) && Legal(s, a) && Valid(Take(s, call, machine, a).table)
    requires LegalRun(Take(s, call, machine, a), call, machine, rest)
    ensures LegalRun(s, call, machine, [a] + rest)
    ensures TakeAll(s, call, machine, [a] + rest) == TakeAll(Take(s, call, machine, a), call, machine, rest)
  {
    assert ([a] + rest)[1..] == rest;
  }

  /** Another writer takes exactly the id just allocated. */
  lemma {:induction false} Snatch(s: Sys, call: Call, machine: string) returns (after: Table)
    requires Valid(s.table) && s.pc.Insert? && Key(call.hash, s.pc.id) !in s.table
        && !IsDup(s.table, call.hash, call.row.callId)
    ensures Legal(s, Theirs(after))
    ensures var s1 := Take(s, call, machine, Theirs(after));
      && Valid(s1.table) && s1.pc == s.pc && s1.foreign == s.foreign + 1 && s1.counter == s.counter
      && Key(call.hash, s.pc.id) in s1.table && !IsDup(s1.table, call.hash, call.row.callId)
  {
    after := s.table[Key(call.hash, s.pc.id) := FOREIGN_ROW];
    InsertKeeps(s.table, call.hash, s.pc.id, FOREIGN_ROW);
    assert Ids(after, call.hash) == Ids(s.table, call.hash) + {s.pc.id};
    assert s.pc.id !in Ids(s.table, call.hash);
  }

  lemma {:induction false} CrowdedFrom(s: Sys, call: Call, machine: string) returns (actions: seq<Action>)
    requires Valid(s.table) && s.pc.Allocate? && s.pc.attempt < MAX_ID_RETRIES
    requires (call.hash == machine ==> s.pc.attempt > 0) && !IsDup(s.table, call.hash, call.row.callId)
    ensures LegalRun(s, call, machine, actions)
    ensures var e := TakeAll(s, call, machine, actions);
      e.pc == Done(Failed) && e.foreign == s.foreign + MAX_ID_RETRIES - s.pc.attempt
    decreases MAX_ID_RETRIES - s.pc.attempt
  {
    var s1 := Take(s, call, machine, Mine);
    NextIdFree(s.table, call.hash);
    var after := Snatch(s1, call, machine);
    var s2 := Take(s1, call, machine, Theirs(after));
    var s3 := Take(s2, call, machine, Mine);
    assert s3 == s2.(pc := Reprobe(s.pc.attempt));
    var s4 := Take(s3, call, machine, Mine);
    var rest: seq<Action> := [];
    if s.pc.attempt < MAX_ID_RETRIES - 1 {
      rest := CrowdedFrom(s4, call, machine);
    }
    FirstAction(s3, call, machine, Mine, rest);
    FirstAction(s2, call, machine, Mine, [Mine] + rest);
    FirstAction(s1, call, machine, Theirs(after), [Mine] + ([Mine] + rest));
    FirstAction(s, call, machine, Mine, [Theirs(after)] + ([Mine] + ([Mine] + rest)));
    actions := [Mine] + ([Theirs(after)] + ([Mine] + ([Mine] + rest)));
  }

  /** One foreign row more than the call is sure to survive can be enough to make it give up. */
  lemma {:induction false} BoundIsTight(t: Table, counter: int, call: Call, machine: string)
      returns (actions: seq<Action>)
    requires Valid(t) && !IsDup(t, call.hash, call.row.callId)
    requires call.hash == machine ==> Key(machine, counter) in t
    ensures LegalRun(Begin(t, counter), call, machine, actions)
    ensures var e := TakeAll(Begin(t, counter), call, machine, actions);
      e.pc == Done(Failed) && e.foreign == if call.hash == machine then 4 else 5
  {
    var s := Begin(t, counter);
    var s1 := Take(s, call, machine, Mine);
    if call.hash == machine {
      var s2 := Take(s1, call, machine, Mine);
      var s3 := Take(s2, call, machine, Mine);
      var s4 := Take(s3, call, machine, Mine);
      var rest := CrowdedFrom(s4, call, machine);
      FirstAction(s3, call, machine, Mine, rest);
      FirstAction(s2, call, machine, Mine, [Mine] + rest);
      FirstAction(s1, call, machine, Mine, [Mine] + ([Mine] + rest));
      FirstAction(s, call, machine, Mine, [Mine] + ([Mine] + ([Mine] + rest)));
      actions := [Mine] + ([Mine] + ([Mine] + ([Mine] + rest)));
    } else {
      var rest := CrowdedFrom(s1, call, machine);
      FirstAction(s, call, machine, Mine, rest);
      actions := [Mine] + rest;
    }
  }

  // ── What a list of duplicates leaves behind ────────────────────────────────

  /** The first row that carries a cache split, or the number of rows when none does. */
  function FirstBearing(rows: seq<Row>): (f: nat)
    ensures f <= |rows|
    ensures f < |rows| ==> !CacheLess(rows[f])
    ensures forall i :: 0 <= i < f ==> CacheLess(rows[i])
  {
    if rows == [] then 0
    else
      var f := FirstBearing(rows[..|rows| - 1]);
      assert forall i :: 0 <= i < |rows| - 1 ==> rows[..|rows| - 1][i] == rows[i];
      if f < |rows| - 1 || !CacheLess(rows[|rows| - 1]) then f else |rows|
  }

  function MaxReasoning(rows: seq<Row>): nat {
    if rows == [] then 0 else MaxNat(MaxReasoning(rows[..|rows| - 1]), rows[|rows| - 1].reasoning)
  }

  function Until(rows: seq<Row>): seq<Row> {
    var f := FirstBearing(rows);
    if f < |rows| then rows[..f + 1] else rows
  }

  /**
   The first arrival, with the cache split of the first one that has any, never a sum, and the highest
   reasoning count up to that one.
   */
  function ClosedForm(rows: seq<Row>): Row
    requires rows != []
  {
    var f := FirstBearing(rows);
    rows[0].(cacheRead := if f < |rows| then rows[f].cacheRead else 0,
             cacheWrite := if f < |rows| then rows[f].cacheWrite else 0,
             reasoning := MaxReasoning(Until(rows)))
  }

  /** The arrivals of one request, one after the other. */
  function ArriveAll(t: Table, counter: int, hash: string, rows: seq<Row>, machine: string): (e: (Table, int))
    requires Valid(t)
    ensures Valid(e.0)
  {
    if rows == [] then (t, counter)
    else
      var before := ArriveAll(t, counter, hash, rows[..|rows| - 1], machine);
      var e := Settle(Begin(before.0, before.1), Call(hash, rows[|rows| - 1]), machine);
      (e.table, e.counter)
  }

  lemma {:induction false} FilledClosedForm(rows: seq<Row>, row: Row)
    requires rows != []
    ensures var was := ClosedForm(rows);
      ClosedForm(rows + [row]) == if Richer(was, row) then Filled(was, row) else was
  {
    var all := rows + [row];
    assert all[..|rows|] == rows;
    var f, g := FirstBearing(rows), FirstBearing(all);
    if f < |rows| {
      assert g == f && Until(all) == Until(rows);
    } else {
      assert Until(rows) == rows && Until(all) == all;
      assert all[..|all| - 1] == rows;
    }
  }

  lemma {:induction false} OneArrival(row: Row)
    ensures ClosedForm([row]) == row
  {
    var rows := [row];
    assert rows[..0] == [];
    assert Until(rows) == rows;
    assert MaxReasoning(rows) == MaxNat(MaxReasoning([]), row.reasoning);
  }

  lemma {:induction false} LaterArrival(t: Table, counter: int, k: Key, rows: seq<Row>, row: Row, machine: string)
    requires Valid(t) && rows != [] && row.callId != "" && k in t && t[k] == ClosedForm(rows)
        && rows[0].callId == row.callId
    ensures Settle(Begin(t, counter), Call(k.hash, row), machine).table == t[k := ClosedForm(rows + [row])]
  {
    assert SameRequest(t, k, k.hash, row.callId);
    DuplicateAlone(t, counter, Call(k.hash, row), machine, k);
    FilledClosedForm(rows, row);
    assert t[k := t[k]] == t;
  }

  lemma {:induction false} FirstArrival(t: Table, counter: int, hash: string, row: Row, machine: string)
      returns (id: int)
    requires Valid(t) && !IsDup(t, hash, row.callId)
    ensures Key(hash, id) !in t
    ensures ArriveAll(t, counter, hash, [row], machine).0 == t[Key(hash, id) := ClosedForm([row])]
  {
    id := InsertAlone(t, counter, Call(hash, row), machine);
    OneArrival(row);
    assert [row][..0] == [];
  }

  lemma {:induction false} Overwritten(t: Table, k: Key, a: Row, b: Row)
    ensures t[k := a][k := b] == t[k := b]
  {
  }

  /**
   For any list of same-request arrivals handled one at a time, the table gains exactly one row, and it is
   the closed form.
   */
  lemma {:induction false} EnrichmentClosedForm(t: Table, counter: int, hash: string, rows: seq<Row>, machine: string,
      callId: string) returns (id: int)
    requires Valid(t) && callId != "" && !IsDup(t, hash, callId)
    requires rows != [] && forall i :: 0 <= i < |rows| ==> rows[i].callId == callId
    ensures Key(hash, id) !in t
    ensures ArriveAll(t, counter, hash, rows, machine).0 == t[Key(hash, id) := ClosedForm(rows)]
  {
    var before, row := rows[..|rows| - 1], rows[|rows| - 1];
    assert rows == before + [row];
    if before == [] {
      id := FirstArrival(t, counter, hash, row, machine);
      assert rows == [row];
    } else {
      assert before[0] == rows[0];
      id := EnrichmentClosedForm(t, counter, hash, before, machine, callId);
      var k := Key(hash, id);
      var (t1, c1) := ArriveAll(t, counter, hash, before, machine);
      assert ArriveAll(t, counter, hash, rows, machine).0 == t1[k := ClosedForm(rows)] by {
        LaterArrival(t1, c1, k, before, row, machine);
      }
      Overwritten(t, k, ClosedForm(before), ClosedForm(rows));
    }
  }
}
