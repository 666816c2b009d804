/** `transaction(fn)` over node:sqlite: BEGIN/COMMIT at depth 0, a named savepoint below it. */
module NestedTransactions {

  /** A run of wrapped functions: what a function does up to its return or throw, and which nested throws it catches. */
  datatype Prog<W> =
    | Return
    | Throw
    | Write(w: W, rest: Prog<W>)
    | Call(child: Prog<W>, catches: bool, rest: Prog<W>)

  // ── The meaning asked for: control flow alone decides which writes survive ──

  predicate Throws<W>(p: Prog<W>) {
    match p
    case Return => false
    case Throw => true
    case Write(_, rest) => Throws(rest)
    case Call(child, catches, rest) => (Throws(child) && !catches) || Throws(rest)
  }

  /** Every write in the order performed, marked with whether its function and all its ancestors returned. */
  function Performed<W>(p: Prog<W>, live: bool): seq<(W, bool)> {
    match p
    case Return => []
    case Throw => []
    case Write(w, rest) => [(w, live)] + Performed(rest, live)
    case Call(child, catches, rest) =>
      Performed(child, live && !Throws(child))
      + if Throws(child) && !catches then [] else Performed(rest, live)
  }

  function Surviving<W>(writes: seq<(W, bool)>): seq<W> {
    if writes == [] then []
    else if writes[0].1 then [writes[0].0] + Surviving(writes[1..])
    else Surviving(writes[1..])
  }

  lemma {:induction false} SurvivingCons<W>(w: W, live: bool, writes: seq<(W, bool)>)
    ensures Surviving([(w, live)] + writes) == if live then [w] + Surviving(writes) else Surviving(writes)
  {
    assert ([(w, live)] + writes)[1..] == writes;
  }

  lemma {:induction false} SurvivingAppend<W>(a: seq<(W, bool)>, b: seq<(W, bool)>)
    ensures Surviving(a + b) == Surviving(a) + Surviving(b)
  {
    if a == [] {
      assert a + b == b;
    } else {
      var (w, live) := a[0];
      var tail := a[1..];
      SurvivingAppend(tail, b);
      assert a + b == [(w, live)] + (tail + b);
      SurvivingCons(w, live, tail + b);
      assert [w] + (Surviving(tail) + Surviving(b)) == [w] + Surviving(tail) + Surviving(b);
    }
  }

  lemma {:induction false} LogGrows<W>(log: seq<W>, a: seq<(W, bool)>, b: seq<(W, bool)>)
    ensures log + Surviving(a) + Surviving(b) == log + Surviving(a + b)
  {
    SurvivingAppend(a, b);
    assert log + Surviving(a) + Surviving(b) == log + (Surviving(a) + Surviving(b));
  }

  /** Nothing survives below a function that threw. */
  lemma {:induction false} NoneSurvive<W>(p: Prog<W>)
    ensures Surviving(Performed(p, false)) == []
  {
    match p {
      case Return =>
      case Throw =>
      case Write(w, rest) =>
        NoneSurvive(rest);
        SurvivingCons(w, false, Performed(rest, false));
      case Call(child, catches, rest) =>
        NoneSurvive(child);
        NoneSurvive(rest);
        SurvivingAppend(Performed(child, false), if Throws(child) && !catches then [] else Performed(rest, false));
    }
  }

  // ── The database underneath ────────────────────────────────────────────────

  datatype Savepoint<W> = Savepoint(name: nat, saved: seq<W>)

  /**
   One connection. The content of the database is the log of the writes applied to it; `base` is what other
   connections see during a transaction.
   */
  datatype Connection<W> = Connection(log: seq<W>, inTransaction: bool, base: seq<W>, savepoints: seq<Savepoint<W>>) {

    function Begin(): Connection<W>
      requires !inTransaction
    {
      Connection(log, true, log, [])
    }

    function Commit(): Connection<W>
      requires inTransaction
    {
      Connection(log, false, log, [])
    }

    function Rollback(): Connection<W>
      requires inTransaction
    {
      Connection(base, false, base, [])
    }

    function Mark(name: nat): Connection<W> {
      this.(savepoints := savepoints + [Savepoint(name, log)])
    }

    function Release(name: nat): Connection<W>
      requires Latest(savepoints, name) < |savepoints|
    {
      this.(savepoints := savepoints[..Latest(savepoints, name)])
    }

    function RollbackTo(name: nat): Connection<W>
      requires Latest(savepoints, name) < |savepoints|
    {
      var k := Latest(savepoints, name);
      this.(log := savepoints[k].saved, savepoints := savepoints[..k + 1])
    }

    /** What another connection reads. */
    function Durable(): seq<W> {
      if inTransaction then base else log
    }
  }

  /** The most recent savepoint of that name, or the number of savepoints when there is none. */
  function Latest<W>(savepoints: seq<Savepoint<W>>, name: nat): (k: nat)
    ensures k <= |savepoints|
    ensures k < |savepoints| ==>
      savepoints[k].name == name && forall j :: k < j < |savepoints| ==> savepoints[j].name != name
    ensures k == |savepoints| ==> forall j :: 0 <= j < |savepoints| ==> savepoints[j].name != name
  {
    if savepoints == [] then 0
    else
      var last := |savepoints| - 1;
      if savepoints[last].name == name then last
      else
        var k := Latest(savepoints[..last], name);
        assert forall j :: 0 <= j < last ==> savepoints[..last][j] == savepoints[j];
        if k == last then |savepoints| else k
  }

  /**
   A counter agrees with the database: depth 0 outside a transaction, and one savepoint per level below the
   first, each named by its level.
   */
  ghost predicate Agrees<W>(db: Connection<W>, depth: nat) {
    && (db.inTransaction <==> depth > 0)
    && |db.savepoints| == (if depth > 0 then depth - 1 else 0)
    && forall i :: 0 <= i < |db.savepoints| ==> db.savepoints[i].name == i + 1
  }

  lemma {:induction false} Entered<W>(db: Connection<W>, depth: nat)
    requires Agrees(db, depth)
    ensures Agrees(if depth == 0 then db.Begin() else db.Mark(depth), depth + 1)
  {
  }

  /** A savepoint released keeps what was written since; rolled back to and released, it leaves no trace. */
  lemma {:induction false} MarkUndone<W>(entry: Connection<W>, name: nat, log: seq<W>)
    ensures var mid := entry.Mark(name).(log := log);
      && Latest(mid.savepoints, name) < |mid.savepoints|
      && mid.Release(name) == entry.(log := log)
      && Latest(mid.RollbackTo(name).savepoints, name) < |mid.RollbackTo(name).savepoints|
      && mid.RollbackTo(name).Release(name) == entry
  {
    var mid := entry.Mark(name).(log := log);
    assert Latest(mid.savepoints, name) == |entry.savepoints|;
    assert mid.savepoints[..|entry.savepoints|] == entry.savepoints;
    assert mid.RollbackTo(name).savepoints == mid.savepoints;
  }

  // ── The wrapper ────────────────────────────────────────────────────────────

  class NodeDb<W> {
    var depth: nat
    var db: Connection<W>

    ghost predicate Valid()
      reads this
    {
      Agrees(db, depth)
    }

    constructor (content: seq<W>)
      ensures Valid() && depth == 0 && db.log == content && !db.inTransaction
    {
      depth := 0;
      db := Connection(content, false, content, []);
    }

    /**
     Calling a wrapped function: it throws exactly when its control flow says so, the counter is back
     at its entry value, the database holds exactly the writes of functions that returned under
     returning ancestors, and nothing becomes visible outside before the outermost function is done.
     */
    method Transaction(fn: Prog<W>) returns (threw: bool)
      requires Valid()
      modifies this
      decreases fn, 1
      ensures Valid() && depth == old(depth)
      ensures threw == Throws(fn)
      ensures db == old(db).(log := old(db.log) + Surviving(Performed(fn, !Throws(fn))),
                             base := if old(depth) == 0 then db.base else old(db.base))
      ensures db.Durable() == if old(depth) == 0 then db.log else old(db.Durable())
    {
      var sp := depth;
      ghost var entry := db;
      Entered(entry, sp);
      db := if depth == 0 then db.Begin() else db.Mark(sp);
      depth := depth + 1;
      threw := Body(fn);
      ghost var log := entry.log + Surviving(Performed(fn, true));
      assert db == (if sp == 0 then entry.Begin() else entry.Mark(sp)).(log := log);
      NoneSurvive(fn);
      assert entry.log + [] == entry.log;
      MarkUndone(entry, sp, log);
      depth := depth - 1;
      if !threw {
        db := if depth == 0 then db.Commit() else db.Release(sp);
      } else if depth == 0 {
        db := db.Rollback();
      } else {
        db := db.RollbackTo(sp);
        db := db.Release(sp);
      }
    }

    /** The function's own code, inside its transaction or savepoint. */
    method Body(fn: Prog<W>) returns (threw: bool)
      requires Valid() && depth > 0
      modifies this
      decreases fn, 0
      ensures Valid() && depth == old(depth)
      ensures threw == Throws(fn)
      ensures db == old(db).(log := old(db.log) + Surviving(Performed(fn, true)))
    {
      match fn {
        case Return =>
          threw := false;
          assert db.log + [] == db.log;
        case Throw =>
          threw := true;
          assert db.log + [] == db.log;
        case Write(w, rest) =>
          ghost var before, outer := db.log, Performed(rest, true);
          db := db.(log := db.log + [w]);
          threw := Body(rest);
          SurvivingCons(w, true, outer);
          assert before + [w] + Surviving(outer) == before + ([w] + Surviving(outer));
        case Call(child, catches, rest) =>
          ghost var before := db.log;
          ghost var inner, outer := Performed(child, !Throws(child)), Performed(rest, true);
          threw := Transaction(child);
          if threw && !catches {
            assert inner + [] == inner;
            return;
          }
          threw := Body(rest);
          LogGrows(before, inner, outer);
      }
    }
  }
}
