/** The one-shot repair before the request-id index is built: one row per request, enriched from the ones that go. */
module LegacyRepair {
  import opened Ledger
  import opened LogCall

  /** A row of the old table; the table is a sequence in rowid order. */
  datatype Stored = Stored(hash: string, row: Row)

  predicate SameKey(a: Stored, b: Stored) {
    a.hash == b.hash && a.row.callId == b.row.callId
  }

  /** MIN(rowid) of its group; a row without a request id stands for itself. */
  predicate IsFirst(rows: seq<Stored>, i: nat)
    requires i < |rows|
  {
    rows[i].row.callId == "" || forall j | 0 <= j < i :: !SameKey(rows[j], rows[i])
  }

  /** The rows of one request, earliest first. */
  function Group(rows: seq<Stored>, key: Stored): seq<Row> {
    if rows == [] then []
    else
      var last := rows[|rows| - 1];
      Group(rows[..|rows| - 1], key) + if SameKey(last, key) then [last.row] else []
  }

  /** The survivor of a group, gap-filled from the rows about to be deleted. */
  function Survivor(group: seq<Row>): Row
    requires group != []
  {
    var survivor, doomed := group[0], group[1..];
    var donor := FirstBearing(doomed);
    var fill := CacheLess(survivor) && donor < |doomed|;
    if fill || MaxReasoning(doomed) > survivor.reasoning then
      survivor.(cacheRead := if fill then doomed[donor].cacheRead else survivor.cacheRead,
                cacheWrite := if fill then doomed[donor].cacheWrite else survivor.cacheWrite,
                reasoning := MaxNat(survivor.reasoning, MaxReasoning(doomed)))
    else survivor
  }

  lemma {:induction false} GroupHasFirst(rows: seq<Stored>, i: nat)
    requires i < |rows|
    ensures Group(rows, rows[i]) != []
    ensures (forall j :: 0 <= j < i ==> !SameKey(rows[j], rows[i])) ==> Group(rows, rows[i])[0] == rows[i].row
    decreases |rows|
  {
    var before := rows[..|rows| - 1];
    if i < |before| {
      GroupHasFirst(before, i);
    } else {
      NoGroup(before, rows[i]);
    }
  }

  lemma {:induction false} NoGroup(rows: seq<Stored>, key: Stored)
    ensures (forall j :: 0 <= j < |rows| ==> !SameKey(rows[j], key)) ==> Group(rows, key) == []
  {
    if rows != [] {
      NoGroup(rows[..|rows| - 1], key);
    }
  }

  function Merged(rows: seq<Stored>, i: nat): Stored
    requires i < |rows|
  {
    if rows[i].row.callId == "" then rows[i]
    else
      GroupHasFirst(rows, i);
      rows[i].(row := Survivor(Group(rows, rows[i])))
  }

  /** The table after the repair: the first row of every group, merged, in place of the group. */
  function RepairedUpTo(rows: seq<Stored>, n: nat): seq<Stored>
    requires n <= |rows|
  {
    if n == 0 then []
    else RepairedUpTo(rows, n - 1) + if IsFirst(rows, n - 1) then [Merged(rows, n - 1)] else []
  }

  function Repaired(rows: seq<Stored>): seq<Stored> {
    RepairedUpTo(rows, |rows|)
  }

  /**
   The survivor as the update leaves it: the earliest row with the cache split of the first row of its
   group that has one, and the highest reasoning count of the whole group.
   */
  method MergeGroup(group: seq<Row>) returns (survivor: Row)
    requires group != []
    ensures var f := FirstBearing(group);
      survivor == group[0].(cacheRead := if f < |group| then group[f].cacheRead else 0,
                            cacheWrite := if f < |group| then group[f].cacheWrite else 0,
                            reasoning := MaxReasoning(group))
  {
    SurvivorClosedForm(group);
    survivor := group[0];
    var doomed := group[1..];
    var donor := FirstBearing(doomed);
    var maxDoomed := MaxReasoning(doomed);
    var fill := CacheLess(survivor) && donor < |doomed|;
    if fill || maxDoomed > survivor.reasoning {
      survivor := survivor.(
        cacheRead := if fill then doomed[donor].cacheRead else survivor.cacheRead,
        cacheWrite := if fill then doomed[donor].cacheWrite else survivor.cacheWrite,
        reasoning := MaxNat(survivor.reasoning, maxDoomed));
    }
  }

  ghost function Updated(rows: seq<Stored>, k: nat): Stored
    requires k < |rows|
  {
    if IsFirst(rows, k) then Merged(rows, k) else rows[k]
  }

  /** Every group's survivor is enriched before the rest of its group is deleted. */
  method EnrichSurvivors(rows: seq<Stored>) returns (merged: seq<Stored>)
    ensures |merged| == |rows| && forall k :: 0 <= k < |rows| ==> merged[k] == Updated(rows, k)
  {
    merged := rows;
    for i := 0 to |rows|
      invariant |merged| == |rows|
      invariant forall k :: 0 <= k < i ==> merged[k] == Updated(rows, k)
      invariant forall k :: i <= k < |rows| ==> merged[k] == rows[k]
    {
      if rows[i].row.callId != "" && IsFirst(rows, i) {
        GroupHasFirst(rows, i);
        SurvivorClosedForm(Group(rows, rows[i]));
        var survivor := MergeGroup(Group(rows, rows[i]));
        merged := merged[i := Stored(rows[i].hash, survivor)];
      }
    }
  }

  method RepairDuplicates(rows: seq<Stored>) returns (table: seq<Stored>)
    ensures table == Repaired(rows)
  {
    var merged := EnrichSurvivors(rows);
    table := [];
    for i := 0 to |rows|
      invariant table == RepairedUpTo(rows, i)
    {
      assert merged[i] == Updated(rows, i);
      if IsFirst(rows, i) {
        table := table + [merged[i]];
      }
    }
  }

  // ── What is left ───────────────────────────────────────────────────────────

  lemma {:induction false} MaxReasoningSplit(a: seq<Row>, b: seq<Row>)
    ensures MaxReasoning(a + b) == MaxNat(MaxReasoning(a), MaxReasoning(b))
  {
    if b == [] {
      assert a + b == a;
    } else {
      assert (a + b)[..|a + b| - 1] == a + b[..|b| - 1];
      MaxReasoningSplit(a, b[..|b| - 1]);
    }
  }

  /**
   The survivor is the earliest row with the cache split of the first row of the group that has any, and the
   highest reasoning count of the whole group.
   */
  lemma {:induction false} SurvivorClosedForm(group: seq<Row>)
    requires group != []
    ensures var f := FirstBearing(group);
      Survivor(group) == group[0].(cacheRead := if f < |group| then group[f].cacheRead else 0,
                                   cacheWrite := if f < |group| then group[f].cacheWrite else 0,
                                   reasoning := MaxReasoning(group))
  {
    var doomed := group[1..];
    var f, g := FirstBearing(group), FirstBearing(doomed);
    assert group == [group[0]] + doomed;
    assert [group[0]][..0] == [];
    MaxReasoningSplit([group[0]], doomed);
    assert MaxReasoning([group[0]]) == group[0].reasoning;
    assert forall i :: 0 <= i < |doomed| ==> doomed[i] == group[i + 1];
    if CacheLess(group[0]) {
      assert f == g + 1 by {
        assert forall i :: 1 <= i < g + 1 ==> CacheLess(doomed[i - 1]) && CacheLess(group[i]);
        assert g < |doomed| ==> group[g + 1] == doomed[g];
      }
    }
  }

  /**
   So collapsing the old duplicates gives the cache split they would have left by arriving one after the
   other, and never less reasoning.
   */
  lemma {:induction false} RepairAgreesWithArrivals(group: seq<Row>)
    requires group != []
    ensures var repaired, arrived := Survivor(group), ClosedForm(group);
      repaired.cacheRead == arrived.cacheRead && repaired.cacheWrite == arrived.cacheWrite
      && repaired.reasoning >= arrived.reasoning && Identity(repaired) == Identity(arrived)
  {
    SurvivorClosedForm(group);
    var until := Until(group);
    assert group == until + group[|until|..];
    MaxReasoningSplit(until, group[|until|..]);
  }

  lemma {:induction false} MergedKey(rows: seq<Stored>, i: nat)
    requires i < |rows| && IsFirst(rows, i)
    ensures SameKey(Merged(rows, i), rows[i])
  {
    if rows[i].row.callId != "" {
      GroupHasFirst(rows, i);
      SurvivorClosedForm(Group(rows, rows[i]));
    }
  }

  /** Every repaired row comes from the first row of a group. */
  lemma {:induction false} ComesFrom(rows: seq<Stored>, n: nat, p: nat) returns (i: nat)
    requires n <= |rows| && p < |RepairedUpTo(rows, n)|
    ensures i < n && IsFirst(rows, i) && RepairedUpTo(rows, n)[p] == Merged(rows, i) && p == |RepairedUpTo(rows, i)|
  {
    if p < |RepairedUpTo(rows, n - 1)| {
      i := ComesFrom(rows, n - 1, p);
    } else {
      i := n - 1;
    }
  }

  ghost predicate Unique(rows: seq<Stored>) {
    forall p, q :: 0 <= p < q < |rows| && rows[q].row.callId != "" ==> !SameKey(rows[p], rows[q])
  }

  /** One row per request id is left, so the unique index can be built. */
  lemma {:induction false} RepairedUnique(rows: seq<Stored>)
    ensures Unique(Repaired(rows))
  {
    var out := Repaired(rows);
    forall p, q | 0 <= p < q < |out| && out[q].row.callId != ""
      ensures !SameKey(out[p], out[q])
    {
      var i := ComesFrom(rows, |rows|, p);
      var j := ComesFrom(rows, |rows|, q);
      MergedKey(rows, i);
      MergedKey(rows, j);
      if i > j {
        Grows(rows, j, i);
      }
    }
  }

  lemma {:induction false} Grows(rows: seq<Stored>, i: nat, n: nat)
    requires i <= n <= |rows|
    ensures |RepairedUpTo(rows, i)| <= |RepairedUpTo(rows, n)|
    decreases n
  {
    if i < n {
      Grows(rows, i, n - 1);
    }
  }

  /**
   No request disappears: every row's key is still there, carried by the first row of its group with the
   group's closed form.
   */
  lemma {:induction false} NothingLost(rows: seq<Stored>, i: nat) returns (first: nat)
    requires i < |rows|
    ensures first <= i && SameKey(rows[first], rows[i]) && IsFirst(rows, first)
    ensures Merged(rows, first) in Repaired(rows) && SameKey(Merged(rows, first), rows[i])
    ensures rows[i].row.callId == "" ==> first == i && Merged(rows, first) == rows[i]
  {
    first := i;
    if rows[i].row.callId != "" {
      first := EarliestOf(rows, i);
    }
    MergedKey(rows, first);
    Kept(rows, first, |rows|);
  }

  lemma {:induction false} EarliestOf(rows: seq<Stored>, i: nat) returns (first: nat)
    requires i < |rows|
    ensures first <= i && SameKey(rows[first], rows[i]) && forall j :: 0 <= j < first ==> !SameKey(rows[j], rows[first])
    decreases i
  {
    if exists j :: 0 <= j < i && SameKey(rows[j], rows[i]) {
      var j :| 0 <= j < i && SameKey(rows[j], rows[i]);
      first := EarliestOf(rows, j);
    } else {
      first := i;
    }
  }

  lemma {:induction false} Kept(rows: seq<Stored>, i: nat, n: nat)
    requires i < n <= |rows| && IsFirst(rows, i)
    ensures Merged(rows, i) in RepairedUpTo(rows, n)
  {
    if i < n - 1 {
      Kept(rows, i, n - 1);
    }
  }

  function WithoutId(rows: seq<Stored>): seq<Stored> {
    if rows == [] then []
    else WithoutId(rows[..|rows| - 1]) + if rows[|rows| - 1].row.callId == "" then [rows[|rows| - 1]] else []
  }

  lemma {:induction false} WithoutIdUpTo(rows: seq<Stored>, n: nat)
    requires n <= |rows|
    ensures WithoutId(RepairedUpTo(rows, n)) == WithoutId(rows[..n])
  {
    if n > 0 {
      WithoutIdUpTo(rows, n - 1);
      assert rows[..n][..n - 1] == rows[..n - 1];
      if IsFirst(rows, n - 1) {
        MergedKey(rows, n - 1);
        var out := RepairedUpTo(rows, n);
        assert out[..|out| - 1] == RepairedUpTo(rows, n - 1);
        assert out[|out| - 1] == Merged(rows, n - 1);
      } else {
        assert RepairedUpTo(rows, n) == RepairedUpTo(rows, n - 1);
      }
      assert rows[..n][n - 1] == rows[n - 1];
    }
  }

  /** Rows without a request id are all kept, in order, untouched. */
  lemma {:induction false} EmptyIdsUntouched(rows: seq<Stored>)
    ensures WithoutId(Repaired(rows)) == WithoutId(rows)
  {
    WithoutIdUpTo(rows, |rows|);
    assert rows[..|rows|] == rows;
  }

  lemma {:induction false} AloneInGroup(rows: seq<Stored>, i: nat)
    requires i < |rows| && Unique(rows) && rows[i].row.callId != ""
    ensures Group(rows, rows[i]) == [rows[i].row]
    decreases |rows|
  {
    var before, last := rows[..|rows| - 1], rows[|rows| - 1];
    if i < |before| {
      assert Unique(before) && before[i] == rows[i];
      AloneInGroup(before, i);
      assert !SameKey(rows[i], last);
    } else {
      forall j | 0 <= j < |before| ensures !SameKey(before[j], rows[i]) {
        assert before[j] == rows[j];
      }
      NoGroup(before, rows[i]);
    }
  }

  lemma {:induction false} AloneUnchanged(rows: seq<Stored>, i: nat)
    requires i < |rows| && Unique(rows)
    ensures Merged(rows, i) == rows[i]
  {
    if rows[i].row.callId != "" {
      AloneInGroup(rows, i);
      LoneSurvivor(rows[i].row);
    }
  }

  lemma {:induction false} UniqueUnchanged(rows: seq<Stored>, n: nat)
    requires n <= |rows| && Unique(rows)
    ensures RepairedUpTo(rows, n) == rows[..n]
  {
    if n > 0 {
      UniqueUnchanged(rows, n - 1);
      assert IsFirst(rows, n - 1);
      AloneUnchanged(rows, n - 1);
      assert rows[..n] == rows[..n - 1] + [rows[n - 1]];
    }
  }

  lemma {:induction false} LoneSurvivor(row: Row)
    ensures Survivor([row]) == row
  {
    assert [row][1..] == [];
  }

  /** Running it again would change nothing. */
  lemma {:induction false} RepairIdempotent(rows: seq<Stored>)
    ensures Repaired(Repaired(rows)) == Repaired(rows)
  {
    RepairedUnique(rows);
    UniqueUnchanged(Repaired(rows), |Repaired(rows)|);
  }

  // ── The repaired row, read off the old table ───────────────────────────────

  lemma {:induction false} GroupGrows(rows: seq<Stored>, key: Stored, n: nat)
    requires n <= |rows|
    ensures Group(rows[..n], key) <= Group(rows, key)
    decreases |rows| - n
  {
    if n == |rows| {
      assert rows[..n] == rows;
    } else {
      GroupGrows(rows, key, n + 1);
      assert rows[..n + 1][..n] == rows[..n];
    }
  }

  /** Where a row stands in its group: behind the rows of its request before it. */
  lemma {:induction false} PlaceInGroup(rows: seq<Stored>, key: Stored, j: nat)
    requires j < |rows| && SameKey(rows[j], key)
    ensures var g := |Group(rows[..j], key)|; g < |Group(rows, key)| && Group(rows, key)[g] == rows[j].row
  {
    var upTo := rows[..j + 1];
    assert upTo[..j] == rows[..j] && upTo[j] == rows[j];
    GroupGrows(rows, key, j + 1);
  }

  lemma {:induction false} PlacesInOrder(rows: seq<Stored>, key: Stored, j: nat, k: nat)
    requires j <= k <= |rows|
    ensures |Group(rows[..j], key)| <= |Group(rows[..k], key)|
  {
    GroupGrows(rows[..k], key, j);
    assert rows[..k][..j] == rows[..j];
  }

  /** And the row that stands at a place. */
  lemma {:induction false} RowAtPlace(rows: seq<Stored>, key: Stored, g: nat) returns (j: nat)
    requires g < |Group(rows, key)|
    ensures j < |rows| && SameKey(rows[j], key) && Group(rows, key)[g] == rows[j].row && g == |Group(rows[..j], key)|
  {
    var before := rows[..|rows| - 1];
    if g < |Group(before, key)| {
      j := RowAtPlace(before, key, g);
      assert before[..j] == rows[..j];
    } else {
      j := |rows| - 1;
    }
  }

  lemma {:induction false} MaxReasoningIs(group: seq<Row>)
    requires group != []
    ensures forall g :: 0 <= g < |group| ==> group[g].reasoning <= MaxReasoning(group)
    ensures exists g :: 0 <= g < |group| && group[g].reasoning == MaxReasoning(group)
  {
    var before, last := group[..|group| - 1], group[|group| - 1];
    assert group[|group| - 1] == last;
    if before != [] {
      MaxReasoningIs(before);
      assert forall g :: 0 <= g < |before| ==> before[g] == group[g];
      var g :| 0 <= g < |before| && before[g].reasoning == MaxReasoning(before);
      assert group[g].reasoning == MaxReasoning(before);
    }
  }

  /** Two rows of one request: the same hash and the same request id. */
  ghost predicate SameCall(a: Stored, b: Stored) {
    a.hash == b.hash && a.row.callId == b.row.callId
  }

  ghost predicate FirstOfCall(rows: seq<Stored>, i: nat) {
    i < |rows| && rows[i].row.callId != "" && forall j :: 0 <= j < i ==> !SameCall(rows[j], rows[i])
  }

  ghost predicate Bears(rows: seq<Stored>, i: nat, j: int)
    requires i < |rows|
  {
    0 <= j < |rows| && SameCall(rows[j], rows[i]) && rows[j].row.cacheRead + rows[j].row.cacheWrite > 0
  }

  /** The first row of the request, in table order, that has a cache split. */
  ghost predicate FirstBears(rows: seq<Stored>, i: nat, j: int)
    requires i < |rows|
  {
    Bears(rows, i, j) && forall k :: Bears(rows, i, k) ==> j <= k
  }

  lemma {:induction false} SplitIs(rows: seq<Stored>, i: nat, j: nat)
    requires FirstOfCall(rows, i) && FirstBears(rows, i, j)
    ensures Merged(rows, i).row.cacheRead == rows[j].row.cacheRead
    ensures Merged(rows, i).row.cacheWrite == rows[j].row.cacheWrite
  {
    var group := Group(rows, rows[i]);
    GroupHasFirst(rows, i);
    SurvivorClosedForm(group);
    PlaceInGroup(rows, rows[i], j);
    var f, g := FirstBearing(group), |Group(rows[..j], rows[i])|;
    assert f <= g;
    var k := RowAtPlace(rows, rows[i], f);
    assert Bears(rows, i, k);
    PlacesInOrder(rows, rows[i], j, k);
    assert f == g;
  }

  lemma {:induction false} NoSplit(rows: seq<Stored>, i: nat)
    requires FirstOfCall(rows, i) && forall k :: !Bears(rows, i, k)
    ensures Merged(rows, i).row.cacheRead == 0 && Merged(rows, i).row.cacheWrite == 0
  {
    var group := Group(rows, rows[i]);
    GroupHasFirst(rows, i);
    SurvivorClosedForm(group);
    if FirstBearing(group) < |group| {
      var k := RowAtPlace(rows, rows[i], FirstBearing(group));
      assert Bears(rows, i, k);
      assert false;
    }
  }

  lemma {:induction false} ReasoningIs(rows: seq<Stored>, i: nat)
    requires FirstOfCall(rows, i)
    ensures forall j :: 0 <= j < |rows| && SameCall(rows[j], rows[i]) ==>
      rows[j].row.reasoning <= Merged(rows, i).row.reasoning
    ensures exists j ::
      0 <= j < |rows| && SameCall(rows[j], rows[i]) && rows[j].row.reasoning == Merged(rows, i).row.reasoning
  {
    var group := Group(rows, rows[i]);
    GroupHasFirst(rows, i);
    SurvivorClosedForm(group);
    MaxReasoningIs(group);
    forall j | 0 <= j < |rows| && SameCall(rows[j], rows[i])
      ensures rows[j].row.reasoning <= Merged(rows, i).row.reasoning
    {
      PlaceInGroup(rows, rows[i], j);
    }
    var g :| 0 <= g < |group| && group[g].reasoning == MaxReasoning(group);
    var j := RowAtPlace(rows, rows[i], g);
    assert SameCall(rows[j], rows[i]);
  }

  /**
   The row the repair leaves for a request, said on the old table: the first row of the request, with the
   cache split of the first of its rows, in table order, that has one, none when none has, and the highest
   reasoning count of them all.
   */
  lemma {:induction false} RepairedRowIs(rows: seq<Stored>, i: nat)
    requires FirstOfCall(rows, i)
    ensures var m := Merged(rows, i);
      && m in Repaired(rows) && m.hash == rows[i].hash && Identity(m.row) == Identity(rows[i].row)
      && (forall j :: FirstBears(rows, i, j) ==>
            m.row.cacheRead == rows[j].row.cacheRead && m.row.cacheWrite == rows[j].row.cacheWrite)
      && ((forall k :: !Bears(rows, i, k)) ==> m.row.cacheRead == 0 && m.row.cacheWrite == 0)
      && (forall j :: 0 <= j < |rows| && SameCall(rows[j], rows[i]) ==> rows[j].row.reasoning <= m.row.reasoning)
      && (exists j :: 0 <= j < |rows| && SameCall(rows[j], rows[i]) && rows[j].row.reasoning == m.row.reasoning)
  {
    assert IsFirst(rows, i) by {
      assert forall j :: 0 <= j < i ==> !SameCall(rows[j], rows[i]);
    }
    var first := NothingLost(rows, i);
    assert first == i;
    GroupHasFirst(rows, i);
    SurvivorClosedForm(Group(rows, rows[i]));
    forall j | FirstBears(rows, i, j)
      ensures Merged(rows, i).row.cacheRead == rows[j].row.cacheRead
      ensures Merged(rows, i).row.cacheWrite == rows[j].row.cacheWrite
    {
      SplitIs(rows, i, j);
    }
    if forall k :: !Bears(rows, i, k) {
      NoSplit(rows, i);
    }
    ReasoningIs(rows, i);
  }
}
