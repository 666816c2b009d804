/** The hourly JSON export of the table, and hydrating a table from such files. */
module ExportFiles {
  import opened Wrappers
  import opened Ledger

  /** One object of an export file; fields an older file may lack are optional. */
  datatype FileRow = FileRow(hash: Option<string>, id: Option<int>, timestampMs: int, provider: string, model: string,
                             process: Option<string>, subscription: Option<string>,
                             input: Option<int>, output: Option<int>, total: Option<int>, latencyMs: Option<int>,
                             preview: Option<string>, estimated: Option<int>, modelRaw: Option<string>,
                             cacheRead: Option<nat>, cacheWrite: Option<nat>)

  function ToFile(k: Key, row: Row): FileRow {
    FileRow(Some(k.hash), Some(k.id), row.timestampMs, row.provider, row.model,
            Some(row.process), Some(row.subscription),
            Some(row.input), Some(row.output), Some(row.total), Some(row.latencyMs), Some(row.preview),
            Some(row.estimated), Some(row.modelRaw), Some(row.cacheRead), Some(row.cacheWrite))
  }

  // ── Export ─────────────────────────────────────────────────────────────────

  type FileKey = (string, Option<int>)

  function KeyIn(r: FileRow, machine: string): FileKey {
    (r.hash.GetOr(machine), r.id)
  }

  predicate Names(rows: seq<FileRow>, key: FileKey, machine: string) {
    exists i | 0 <= i < |rows| :: KeyIn(rows[i], machine) == key
  }

  /** The rows of the old file that the database does not have. */
  function Preserved(existing: seq<FileRow>, dbRows: seq<FileRow>, machine: string): seq<FileRow> {
    if existing == [] then []
    else
      var later := Preserved(existing[1..], dbRows, machine);
      if Names(dbRows, KeyIn(existing[0], machine), machine) then later else [existing[0]] + later
  }

  /** What the export writes over `existing`, which is empty when there is no readable file. */
  function Merge(existing: seq<FileRow>, dbRows: seq<FileRow>, machine: string): seq<FileRow> {
    Preserved(existing, dbRows, machine) + dbRows
  }

  lemma {:induction false} PreservedMembers(existing: seq<FileRow>, dbRows: seq<FileRow>, machine: string, r: FileRow)
    ensures r in Preserved(existing, dbRows, machine) <==> r in existing && !Names(dbRows, KeyIn(r, machine), machine)
  {
    if existing != [] {
      PreservedMembers(existing[1..], dbRows, machine, r);
      assert existing == [existing[0]] + existing[1..];
    }
  }

  /** Two rows of one key: the same id, under the same hash, which is the machine's where a row has none. */
  ghost predicate SameRow(a: FileRow, b: FileRow, machine: string) {
    a.id == b.id
    && (match a.hash case Some(h) => h case None => machine) == (match b.hash case Some(h) => h case None => machine)
  }

  ghost predicate Holding(rows: seq<FileRow>, r: FileRow, machine: string) {
    exists i :: 0 <= i < |rows| && SameRow(rows[i], r, machine)
  }

  lemma {:induction false} NamesIs(rows: seq<FileRow>, r: FileRow, machine: string)
    ensures Names(rows, KeyIn(r, machine), machine) <==> Holding(rows, r, machine)
  {
    if Names(rows, KeyIn(r, machine), machine) {
      var i :| 0 <= i < |rows| && KeyIn(rows[i], machine) == KeyIn(r, machine);
      assert SameRow(rows[i], r, machine);
    }
    if i :| 0 <= i < |rows| && SameRow(rows[i], r, machine) {
      assert KeyIn(rows[i], machine) == KeyIn(r, machine);
    }
  }

  /** The safety merge forgets no key of the old file, keeps the database's rows, and lets them win on a shared key. */
  lemma {:induction false} MergeKeepsAndPrefers(existing: seq<FileRow>, dbRows: seq<FileRow>, machine: string,
      r: FileRow)
    ensures var merged := Merge(existing, dbRows, machine);
      && (r in existing ==> Holding(merged, r, machine))
      && (r in dbRows ==> r in merged)
      && (r in merged <==> r in dbRows || (r in existing && !Holding(dbRows, r, machine)))
  {
    PreservedMembers(existing, dbRows, machine, r);
    NamesIs(dbRows, r, machine);
    var merged, kept := Merge(existing, dbRows, machine), Preserved(existing, dbRows, machine);
    if r in existing {
      if Holding(dbRows, r, machine) {
        var i :| 0 <= i < |dbRows| && SameRow(dbRows[i], r, machine);
        assert merged[|kept| + i] == dbRows[i];
      } else {
        assert r in merged;
        var i :| 0 <= i < |merged| && merged[i] == r;
        assert SameRow(merged[i], r, machine);
      }
    }
  }

  /** One old row alone: it goes in front of the database's rows unless they have its key. */
  lemma {:induction false} MergeOne(r: FileRow, dbRows: seq<FileRow>, machine: string)
    ensures Merge([], dbRows, machine) == dbRows
    ensures Merge([r], dbRows, machine) == if Holding(dbRows, r, machine) then dbRows else [r] + dbRows
  {
    assert [] + dbRows == dbRows;
    NamesIs(dbRows, r, machine);
    PreservedCons(r, [], dbRows, machine);
    assert [r] + [] == [r];
  }

  /**
   More of them: each is treated by itself, and those that stay come first, in their order and as often as
   they were there.
   */
  lemma {:induction false} MergeOrder(a: seq<FileRow>, b: seq<FileRow>, dbRows: seq<FileRow>, machine: string)
      returns (kept: seq<FileRow>)
    ensures Merge(a, dbRows, machine) == kept + dbRows
    ensures Merge(a + b, dbRows, machine) == kept + Merge(b, dbRows, machine)
  {
    kept := Preserved(a, dbRows, machine);
    var more := Preserved(b, dbRows, machine);
    assert Preserved(a + b, dbRows, machine) == kept + more by { PreservedAppend(a, b, dbRows, machine); }
    assert kept + more + dbRows == kept + (more + dbRows);
  }

  lemma {:induction false} PreservedCons(r: FileRow, later: seq<FileRow>, dbRows: seq<FileRow>, machine: string)
    ensures Preserved([r] + later, dbRows, machine)
         == if Names(dbRows, KeyIn(r, machine), machine) then Preserved(later, dbRows, machine)
             else [r] + Preserved(later, dbRows, machine)
  {
    assert ([r] + later)[1..] == later;
  }

  lemma {:induction false} PreservedAppend(a: seq<FileRow>, b: seq<FileRow>, dbRows: seq<FileRow>, machine: string)
    ensures Preserved(a + b, dbRows, machine) == Preserved(a, dbRows, machine) + Preserved(b, dbRows, machine)
  {
    if a == [] {
      assert a + b == b;
    } else {
      var r, tail := a[0], a[1..];
      PreservedAppend(tail, b, dbRows, machine);
      assert a + b == [r] + (tail + b);
      PreservedCons(r, tail + b, dbRows, machine);
      var kept, more := Preserved(tail, dbRows, machine), Preserved(b, dbRows, machine);
      assert [r] + (kept + more) == [r] + kept + more;
    }
  }

  lemma {:induction false} PreservedNone(rows: seq<FileRow>, dbRows: seq<FileRow>, machine: string)
    requires forall i :: 0 <= i < |rows| ==> Names(dbRows, KeyIn(rows[i], machine), machine)
    ensures Preserved(rows, dbRows, machine) == []
  {
    if rows != [] {
      PreservedNone(rows[1..], dbRows, machine);
    }
  }

  lemma {:induction false} PreservedAgain(existing: seq<FileRow>, dbRows: seq<FileRow>, machine: string)
    ensures Preserved(Preserved(existing, dbRows, machine), dbRows, machine) == Preserved(existing, dbRows, machine)
  {
    if existing != [] {
      PreservedAgain(existing[1..], dbRows, machine);
      PreservedCons(existing[0], Preserved(existing[1..], dbRows, machine), dbRows, machine);
    }
  }

  /** Exporting an unchanged database a second time writes the same file. */
  lemma {:induction false} ExportTwice(existing: seq<FileRow>, dbRows: seq<FileRow>, machine: string)
    ensures Merge(Merge(existing, dbRows, machine), dbRows, machine) == Merge(existing, dbRows, machine)
  {
    PreservedAppend(Preserved(existing, dbRows, machine), dbRows, dbRows, machine);
    PreservedAgain(existing, dbRows, machine);
    PreservedNone(dbRows, dbRows, machine);
  }

  // ── Hydrate ────────────────────────────────────────────────────────────────

  /** `[a-z][a-z0-9]{5}` */
  predicate UserHash(s: string) {
    |s| == 6 && 'a' <= s[0] <= 'z' && forall i | 0 <= i < 6 :: 'a' <= s[i] <= 'z' || '0' <= s[i] <= '9'
  }

  /** `value || 'unknown'`: an empty string counts as absent. */
  function OrUnknown(v: Option<string>): string {
    if v.GetOr("") == "" then "unknown" else v.value
  }

  /** Columns the file does not have get the table's defaults. */
  function FromFile(r: FileRow): Row {
    Row(r.timestampMs, r.provider, r.model, OrUnknown(r.process), OrUnknown(r.subscription),
        r.input.GetOr(0), r.output.GetOr(0), r.total.GetOr(0), r.latencyMs.GetOr(0), r.preview.GetOr(""),
        r.estimated.GetOr(0),
        r.modelRaw.GetOr(r.model), "", r.cacheRead.GetOr(0), r.cacheWrite.GetOr(0), 0)
  }

  function HashFor(r: FileRow, fileHash: string): string {
    if UserHash(r.hash.GetOr("")) then r.hash.value else fileHash
  }

  /** INSERT OR IGNORE: a row whose key is taken, or which has no id, is skipped. */
  function HydrateRow(t: Table, r: FileRow, fileHash: string): Table {
    if r.id.None? || Key(HashFor(r, fileHash), r.id.value) in t then t
    else t[Key(HashFor(r, fileHash), r.id.value) := FromFile(r)]
  }

  function HydrateRows(t: Table, rows: seq<FileRow>, fileHash: string): Table {
    if rows == [] then t else HydrateRow(HydrateRows(t, rows[..|rows| - 1], fileHash), rows[|rows| - 1], fileHash)
  }

  ghost predicate Letter(ch: char) {
    'a' <= ch <= 'z'
  }

  ghost predicate Digit(ch: char) {
    '0' <= ch <= '9'
  }

  /**
   The row's own hash where it is one, six characters of a small letter and then small letters or digits;
   else the file's.
   */
  lemma {:induction false} HashIs(r: FileRow, fileHash: string)
    ensures HashFor(r, fileHash)
         == if r.hash.Some? && |r.hash.value| == 6 && Letter(r.hash.value[0])
               && forall i :: 0 <= i < 6 ==> Letter(r.hash.value[i]) || Digit(r.hash.value[i])
            then r.hash.value else fileHash
  {
  }

  /**
   A column the file has is taken as it is, one it lacks gets the table's default; the request id and
   reasoning are never in a file.
   */
  lemma {:induction false} ColumnsAre(r: FileRow)
    ensures var row := FromFile(r);
      && row.timestampMs == r.timestampMs && row.provider == r.provider && row.model == r.model
      && (forall s :: r.process == Some(s) && s != "" ==> row.process == s)
      && (r.process == None || r.process == Some("") ==> row.process == "unknown")
      && (forall s :: r.subscription == Some(s) && s != "" ==> row.subscription == s)
      && (r.subscription == None || r.subscription == Some("") ==> row.subscription == "unknown")
      && (forall n :: r.input == Some(n) ==> row.input == n) && (r.input == None ==> row.input == 0)
      && (forall n :: r.output == Some(n) ==> row.output == n) && (r.output == None ==> row.output == 0)
      && (forall n :: r.total == Some(n) ==> row.total == n) && (r.total == None ==> row.total == 0)
      && (forall n :: r.latencyMs == Some(n) ==> row.latencyMs == n) && (r.latencyMs == None ==> row.latencyMs == 0)
      && (forall s :: r.preview == Some(s) ==> row.preview == s) && (r.preview == None ==> row.preview == "")
      && (forall n :: r.estimated == Some(n) ==> row.estimated == n) && (r.estimated == None ==> row.estimated == 0)
      && (forall s :: r.modelRaw == Some(s) ==> row.modelRaw == s) && (r.modelRaw == None ==> row.modelRaw == r.model)
      && (forall n :: r.cacheRead == Some(n) ==> row.cacheRead == n) && (r.cacheRead == None ==> row.cacheRead == 0)
      && (forall n :: r.cacheWrite == Some(n) ==> row.cacheWrite == n) && (r.cacheWrite == None ==> row.cacheWrite == 0)
      && row.callId == "" && row.reasoning == 0
  {
  }

  ghost predicate Gives(r: FileRow, fileHash: string, k: Key) {
    r.id == Some(k.id) && HashFor(r, fileHash) == k.hash
  }

  lemma {:induction false} HydratedLast(t: Table, rows: seq<FileRow>, fileHash: string, k: Key)
    requires rows != []
    ensures var h, last := HydrateRows(t, rows[..|rows| - 1], fileHash), rows[|rows| - 1];
      var after := HydrateRows(t, rows, fileHash);
      && (k in h ==> k in after && after[k] == h[k])
      && (k !in h && Gives(last, fileHash, k) ==> k in after && after[k] == FromFile(last))
      && (k !in h && !Gives(last, fileHash, k) ==> k !in after)
  {
    var last := rows[|rows| - 1];
    assert Gives(last, fileHash, k) <==> last.id.Some? && Key(HashFor(last, fileHash), last.id.value) == k;
  }

  /** A key the table did not have gets the file's first row for it, and only keys the file gives are added. */
  lemma {:induction false} HydratedFirst(t: Table, rows: seq<FileRow>, fileHash: string, k: Key, i: nat)
    requires k !in t && i <= |rows| && forall j :: 0 <= j < i ==> !Gives(rows[j], fileHash, k)
    ensures var h := HydrateRows(t, rows, fileHash);
      && (i == |rows| ==> k !in h)
      && (i < |rows| && Gives(rows[i], fileHash, k) ==> k in h && h[k] == FromFile(rows[i]))
    decreases |rows|
  {
    if rows != [] {
      var before := rows[..|rows| - 1];
      assert forall j :: 0 <= j < |before| ==> before[j] == rows[j];
      HydratedLast(t, rows, fileHash, k);
      HydratedFirst(t, before, fileHash, k, if i == |rows| then i - 1 else i);
    }
  }

  datatype File = File(rows: seq<FileRow>, hash: string)

  function HydrateFiles(t: Table, files: seq<File>): Table {
    if files == [] then t
    else HydrateRows(HydrateFiles(t, files[..|files| - 1]), files[|files| - 1].rows, files[|files| - 1].hash)
  }

  method HydrateFromExports(t: Table, files: seq<File>) returns (table: Table)
    ensures table == HydrateFiles(t, files)
  {
    table := t;
    for f := 0 to |files|
      invariant table == HydrateFiles(t, files[..f])
    {
      assert files[..f + 1][..f] == files[..f];
      var rows, fileHash := files[f].rows, files[f].hash;
      ghost var before := table;
      for i := 0 to |rows|
        invariant table == HydrateRows(before, rows[..i], fileHash)
      {
        assert rows[..i + 1][..i] == rows[..i];
        var r := rows[i];
        var userHash := if UserHash(r.hash.GetOr("")) then r.hash.value else fileHash;
        if r.id.Some? && Key(userHash, r.id.value) !in table {
          table := table[Key(userHash, r.id.value) := FromFile(r)];
        }
      }
      assert rows[..|rows|] == rows;
    }
    assert files[..|files|] == files;
  }

  /** `t'` has every row of `t`, unchanged. */
  ghost predicate Extends(t: Table, t': Table) {
    forall k :: k in t ==> k in t' && t'[k] == t[k]
  }

  lemma {:induction false} RowsExtend(t: Table, rows: seq<FileRow>, fileHash: string)
    ensures Extends(t, HydrateRows(t, rows, fileHash))
    ensures forall i :: 0 <= i < |rows| && rows[i].id.Some? ==>
      Key(HashFor(rows[i], fileHash), rows[i].id.value) in HydrateRows(t, rows, fileHash)
  {
    if rows != [] {
      RowsExtend(t, rows[..|rows| - 1], fileHash);
      var before := rows[..|rows| - 1];
      assert forall i :: 0 <= i < |before| ==> before[i] == rows[i];
    }
  }

  /** All of a file's keys are there already. */
  ghost predicate Covers(t: Table, rows: seq<FileRow>, fileHash: string) {
    forall i :: 0 <= i < |rows| && rows[i].id.Some? ==> Key(HashFor(rows[i], fileHash), rows[i].id.value) in t
  }

  lemma {:induction false} CoveredUnchanged(t: Table, rows: seq<FileRow>, fileHash: string)
    requires Covers(t, rows, fileHash)
    ensures HydrateRows(t, rows, fileHash) == t
  {
    if rows != [] {
      var before := rows[..|rows| - 1];
      assert forall i :: 0 <= i < |before| ==> before[i] == rows[i];
      CoveredUnchanged(t, before, fileHash);
    }
  }

  /** Hydration never changes a row that is there, and leaves every file's keys covered. */
  lemma {:induction false} HydrationOnlyAdds(t: Table, files: seq<File>)
    ensures Extends(t, HydrateFiles(t, files))
    ensures forall f :: 0 <= f < |files| ==> Covers(HydrateFiles(t, files), files[f].rows, files[f].hash)
  {
    if files != [] {
      var before, last := files[..|files| - 1], files[|files| - 1];
      HydrationOnlyAdds(t, before);
      var mid := HydrateFiles(t, before);
      RowsExtend(mid, last.rows, last.hash);
      forall f | 0 <= f < |before| ensures Covers(HydrateFiles(t, files), files[f].rows, files[f].hash) {
        assert before[f] == files[f];
        assert Covers(mid, before[f].rows, before[f].hash);
      }
    }
  }

  lemma {:induction false} AllCoveredUnchanged(t: Table, files: seq<File>)
    requires forall f :: 0 <= f < |files| ==> Covers(t, files[f].rows, files[f].hash)
    ensures HydrateFiles(t, files) == t
  {
    if files != [] {
      var before := files[..|files| - 1];
      assert forall f :: 0 <= f < |before| ==> before[f] == files[f];
      AllCoveredUnchanged(t, before);
      CoveredUnchanged(t, files[|files| - 1].rows, files[|files| - 1].hash);
    }
  }

  /** Hydrating twice is hydrating once. */
  lemma {:induction false} HydrateTwice(t: Table, files: seq<File>)
    ensures HydrateFiles(HydrateFiles(t, files), files) == HydrateFiles(t, files)
  {
    HydrationOnlyAdds(t, files);
    AllCoveredUnchanged(HydrateFiles(t, files), files);
  }

  ghost predicate FileGives(file: File, k: Key) {
    exists i :: 0 <= i < |file.rows| && Gives(file.rows[i], file.hash, k)
  }

  /** Across files the first one that gives a key wins, and of that file the first row. */
  lemma {:induction false} FirstFileWins(t: Table, files: seq<File>, k: Key, f: nat, i: nat)
    requires k !in t && f < |files| && i < |files[f].rows| && Gives(files[f].rows[i], files[f].hash, k)
    requires forall j :: 0 <= j < i ==> !Gives(files[f].rows[j], files[f].hash, k)
    requires forall g :: 0 <= g < f ==> !FileGives(files[g], k)
    ensures k in HydrateFiles(t, files) && HydrateFiles(t, files)[k] == FromFile(files[f].rows[i])
    decreases |files|
  {
    var before, last := files[..|files| - 1], files[|files| - 1];
    var h := HydrateFiles(t, before);
    if f < |before| {
      assert before[f] == files[f];
      assert forall g :: 0 <= g < f ==> before[g] == files[g];
      FirstFileWins(t, before, k, f, i);
      RowsExtend(h, last.rows, last.hash);
    } else {
      assert forall g :: 0 <= g < |before| ==> before[g] == files[g];
      NoFileGives(t, before, k);
      HydratedFirst(h, last.rows, last.hash, k, i);
    }
  }

  /** And a key no file gives is not added. */
  lemma {:induction false} NoFileGives(t: Table, files: seq<File>, k: Key)
    requires k !in t && forall g :: 0 <= g < |files| ==> !FileGives(files[g], k)
    ensures k !in HydrateFiles(t, files)
  {
    if files != [] {
      var before, last := files[..|files| - 1], files[|files| - 1];
      assert forall g :: 0 <= g < |before| ==> before[g] == files[g];
      NoFileGives(t, before, k);
      assert !FileGives(last, k);
      HydratedFirst(HydrateFiles(t, before), last.rows, last.hash, k, |last.rows|);
    }
  }

  // ── Out and back in ────────────────────────────────────────────────────────

  /** The rows of one export window, by ascending id. */
  ghost predicate IsWindow(t: Table, machine: string, start: int, end: int, ids: seq<int>) {
    && (forall i, j :: 0 <= i < j < |ids| ==> ids[i] < ids[j])
    && (forall i :: 0 <= i < |ids| ==> InWindow(t, Key(machine, ids[i]), start, end))
    && (forall k: Key :: k.hash == machine && InWindow(t, k, start, end) ==> k.id in ids)
  }

  ghost predicate InWindow(t: Table, k: Key, start: int, end: int) {
    k in t && start <= t[k].timestampMs < end
  }

  ghost function WindowRows(t: Table, machine: string, ids: seq<int>): seq<FileRow>
    requires forall i :: 0 <= i < |ids| ==> Key(machine, ids[i]) in t
  {
    seq(|ids|, i requires 0 <= i < |ids| => ToFile(Key(machine, ids[i]), t[Key(machine, ids[i])]))
  }

  /** The row on the exported columns. */
  function Exported(row: Row): Row {
    row.(callId := "", reasoning := 0)
  }

  function Restored(row: Row): Row {
    Exported(row).(process := if row.process == "" then "unknown" else row.process,
                   subscription := if row.subscription == "" then "unknown" else row.subscription)
  }

  /**
   Writing a row out and reading it back gives its restored form, under its own key: the file's name does not
   matter when the row's hash is one.
   */
  lemma {:induction false} RowRestored(t: Table, machine: string, id: int, fileHash: string)
    requires Key(machine, id) in t
    ensures var r := ToFile(Key(machine, id), t[Key(machine, id)]);
      && r.id == Some(id) && FromFile(r) == Restored(t[Key(machine, id)])
      && (UserHash(machine) || fileHash == machine ==> HashFor(r, fileHash) == machine)
  {
  }

  ghost predicate Holds(h: Table, t: Table, machine: string, ids: seq<int>) {
    && (forall k :: k in h ==> k.hash == machine && k.id in ids)
    && (forall id :: id in ids ==>
          Key(machine, id) in t && Key(machine, id) in h && h[Key(machine, id)] == Restored(t[Key(machine, id)]))
  }

  lemma {:induction false} HoldsOneMore(h: Table, t: Table, machine: string, before: seq<int>, id: int)
    requires Holds(h, t, machine, before) && id !in before && Key(machine, id) in t
    ensures Key(machine, id) !in h
    ensures Holds(h[Key(machine, id) := Restored(t[Key(machine, id)])], t, machine, before + [id])
  {
  }

  lemma {:induction false} WindowHydrated(t: Table, machine: string, ids: seq<int>)
    requires forall i :: 0 <= i < |ids| ==> Key(machine, ids[i]) in t
    requires forall i, j :: 0 <= i < j < |ids| ==> ids[i] < ids[j]
    ensures Holds(HydrateRows(map[], WindowRows(t, machine, ids), machine), t, machine, ids)
  {
    if ids != [] {
      var before, last := ids[..|ids| - 1], ids[|ids| - 1];
      assert ids == before + [last];
      WindowHydrated(t, machine, before);
      var rows := WindowRows(t, machine, ids);
      assert rows[..|rows| - 1] == WindowRows(t, machine, before);
      RowRestored(t, machine, last, machine);
      HoldsOneMore(HydrateRows(map[], WindowRows(t, machine, before), machine), t, machine, before, last);
    }
  }

  /**
   A window exported and hydrated into an empty table restores exactly its rows; each agrees with the
   original on the exported columns if and only if its process and subscription were not empty,
   because the reader takes an empty one for a missing one.
   */
  lemma {:induction false} ExportHydrateRoundTrip(t: Table, machine: string, start: int, end: int, ids: seq<int>)
    requires IsWindow(t, machine, start, end, ids)
    ensures var h := HydrateFiles(map[], [File(Merge([], WindowRows(t, machine, ids), machine), machine)]);
      && (forall k :: k in h <==> k.hash == machine && InWindow(t, k, start, end))
      && (forall k :: k in h ==> k in t)
      && (forall k :: k in h ==> (Exported(h[k]) == Exported(t[k]) <==> t[k].process != "" && t[k].subscription != ""))
  {
    var rows := WindowRows(t, machine, ids);
    assert Merge([], rows, machine) == rows;
    var files := [File(rows, machine)];
    assert files[..0] == [];
    WindowHydrated(t, machine, ids);
    var h := HydrateFiles(map[], files);
    assert HydrateFiles(map[], files[..0]) == map[];
    assert h == HydrateRows(HydrateFiles(map[], files[..|files| - 1]), files[0].rows, files[0].hash);
    assert h == HydrateRows(map[], rows, machine);
    forall k: Key | k.hash == machine && InWindow(t, k, start, end) ensures k in h {
      assert k == Key(machine, k.id);
    }
    forall k | k in h
      ensures k in t && (Exported(h[k]) == Exported(t[k]) <==> t[k].process != "" && t[k].subscription != "")
    {
      assert k == Key(machine, k.id);
      assert h[k] == Restored(t[k]);
    }
  }
}
