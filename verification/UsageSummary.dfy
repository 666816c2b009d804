/** The few facts about multiples and quotients the buckets need. */
module Multiples {
  lemma {:induction false} Above(a: int, b: int, w: int)
    requires w > 0 && a < b
    ensures a * w + w <= b * w
  {
    var d := b - a - 1;
    assert d * w >= 0;
    assert b * w == (a + 1 + d) * w == a * w + w + d * w;
  }

  lemma {:induction false} Ordered(a: int, b: int, w: int)
    requires w > 0
    ensures a <= b <==> a * w <= b * w
    ensures a < b ==> a * w + w <= b * w
  {
    if a < b {
      Above(a, b, w);
    } else if b < a {
      Above(b, a, w);
    }
  }

  lemma {:induction false} Quotient(x: int, w: int, q: int)
    requires w > 0 && q * w <= x < q * w + w
    ensures x / w == q
  {
    var d := x / w;
    assert d * w <= x < d * w + w;
    Ordered(d, q, w);
    Ordered(q, d, w);
  }

  lemma {:induction false} Multiple(q: int, w: int)
    requires w > 0
    ensures (q * w) % w == 0
  {
    Quotient(q * w, w, q);
  }

  lemma {:induction false} QuotientOrdered(x: int, y: int, w: int)
    requires w > 0 && x <= y
    ensures x / w <= y / w
  {
    assert (x / w) * w <= x && y < (y / w) * w + w;
    Ordered(y / w, x / w, w);
  }

  lemma {:induction false} Shifted(x: int, w: int, k: int)
    requires w > 0
    ensures (x + k * w) / w == x / w + k
  {
    assert (x / w + k) * w == (x / w) * w + k * w;
    Quotient(x + k * w, w, x / w + k);
  }

  /** Counting steps of `w` from one multiple to another. */
  lemma {:induction false} Steps(a: int, b: int, w: int)
    requires w > 0
    ensures (b * w - a * w) / w == b - a
  {
    assert b * w - a * w == (b - a) * w;
    Quotient((b - a) * w, w, b - a);
  }
}

/** The summary over a window: grouped sums, zero-filled series, stacked pivots and priceable cells. */
module UsageSummary {
  import opened Ledger
  import opened Multiples

  // ── Sums ───────────────────────────────────────────────────────────────────

  /** A selected row with its bucket column: where its bucket starts, in seconds. */
  datatype Selected = Selected(bucket: int, row: Row)

  /** What a query adds up; the stacked charts add input, output and both cache counts. */
  datatype Count = Calls | Input | Output | CacheRead | CacheWrite | Stack

  function Amount(r: Selected, count: Count): int {
    match count
    case Calls => 1
    case Input => r.row.input
    case Output => r.row.output
    case CacheRead => r.row.cacheRead
    case CacheWrite => r.row.cacheWrite
    case Stack => r.row.input + r.row.output + r.row.cacheRead + r.row.cacheWrite
  }

  /** SELECT SUM(...) FROM rows */
  function Total(rows: seq<Selected>, count: Count): int {
    if rows == [] then 0 else Total(rows[..|rows| - 1], count) + Amount(rows[|rows| - 1], count)
  }

  // ── Grouping ───────────────────────────────────────────────────────────────

  datatype Column = ByProcess | ByModel | ByProvider

  /** GROUP BY bucket; bucket and one column; bucket, process, provider and model. */
  datatype Grouping = Buckets | BucketAnd(column: Column) | Cells

  /** A group, with "" in the columns that are not grouped by. */
  datatype Group = Group(bucket: int, process: string, provider: string, model: string)

  function ColumnOf(row: Row, column: Column): string {
    match column
    case ByProcess => row.process
    case ByModel => row.model
    case ByProvider => row.provider
  }

  function BucketGroup(bucket: int): Group {
    Group(bucket, "", "", "")
  }

  function ColumnGroup(column: Column, bucket: int, name: string): Group {
    match column
    case ByProcess => Group(bucket, name, "", "")
    case ByProvider => Group(bucket, "", name, "")
    case ByModel => Group(bucket, "", "", name)
  }

  function GroupOf(how: Grouping, r: Selected): Group {
    match how
    case Buckets => BucketGroup(r.bucket)
    case BucketAnd(column) => ColumnGroup(column, r.bucket, ColumnOf(r.row, column))
    case Cells => Group(r.bucket, r.row.process, r.row.provider, r.row.model)
  }

  /** SUM(...) of one group. */
  function GroupSum(rows: seq<Selected>, how: Grouping, g: Group, count: Count): int {
    if rows == [] then 0
    else
      var before := GroupSum(rows[..|rows| - 1], how, g, count);
      if GroupOf(how, rows[|rows| - 1]) == g then before + Amount(rows[|rows| - 1], count) else before
  }

  function AllGroups(rows: seq<Selected>, how: Grouping, groups: seq<Group>, count: Count): int {
    if groups == [] then 0
    else AllGroups(rows, how, groups[..|groups| - 1], count) + GroupSum(rows, how, groups[|groups| - 1], count)
  }

  /** The rows whose group is on a list. */
  function InGroups(rows: seq<Selected>, how: Grouping, groups: seq<Group>, count: Count): int {
    if rows == [] then 0
    else
      var before := InGroups(rows[..|rows| - 1], how, groups, count);
      if GroupOf(how, rows[|rows| - 1]) in groups then before + Amount(rows[|rows| - 1], count) else before
  }

  ghost predicate Distinct<T(!new)>(list: seq<T>) {
    forall i, j :: 0 <= i < j < |list| ==> list[i] != list[j]
  }

  lemma {:induction false} NoRowsNoSum(how: Grouping, groups: seq<Group>, count: Count)
    ensures AllGroups([], how, groups, count) == 0
  {
    if groups != [] {
      NoRowsNoSum(how, groups[..|groups| - 1], count);
    }
  }

  lemma {:induction false} GroupSumAppend(rows: seq<Selected>, r: Selected, how: Grouping, g: Group, count: Count)
    ensures GroupSum(rows + [r], how, g, count)
        == GroupSum(rows, how, g, count) + if GroupOf(how, r) == g then Amount(r, count) else 0
  {
    assert (rows + [r])[..|rows|] == rows;
  }

  /** One more row adds itself to exactly one group of a duplicate-free list, if its group is on it. */
  lemma {:induction false} OneMoreRow(rows: seq<Selected>, r: Selected, how: Grouping, groups: seq<Group>, count: Count)
    requires Distinct(groups)
    ensures AllGroups(rows + [r], how, groups, count)
         == AllGroups(rows, how, groups, count) + if GroupOf(how, r) in groups then Amount(r, count) else 0
  {
    if groups != [] {
      var before, last := groups[..|groups| - 1], groups[|groups| - 1];
      assert groups == before + [last] && last !in before;
      OneMoreRow(rows, r, how, before, count);
      GroupSumAppend(rows, r, how, last, count);
    }
  }

  /**
   Adding up the groups of a duplicate-free list is adding up the rows that belong to them: nothing counted
   twice, nothing missed.
   */
  lemma {:induction false} GroupsConserve(rows: seq<Selected>, how: Grouping, groups: seq<Group>, count: Count)
    requires Distinct(groups)
    ensures AllGroups(rows, how, groups, count) == InGroups(rows, how, groups, count)
  {
    if rows == [] {
      NoRowsNoSum(how, groups, count);
    } else {
      var before, last := rows[..|rows| - 1], rows[|rows| - 1];
      GroupsConserve(before, how, groups, count);
      OneMoreRow(before, last, how, groups, count);
      assert rows == before + [last];
    }
  }

  datatype Sums = Sums(calls: int, input: int, output: int, cacheRead: int, cacheWrite: int)

  const ZERO := Sums(0, 0, 0, 0, 0)

  function AmountOf(s: Sums, count: Count): int {
    match count
    case Calls => s.calls
    case Input => s.input
    case Output => s.output
    case CacheRead => s.cacheRead
    case CacheWrite => s.cacheWrite
    case Stack => s.input + s.output + s.cacheRead + s.cacheWrite
  }

  function GroupSums(rows: seq<Selected>, how: Grouping, g: Group): Sums {
    Sums(GroupSum(rows, how, g, Calls), GroupSum(rows, how, g, Input), GroupSum(rows, how, g, Output),
         GroupSum(rows, how, g, CacheRead), GroupSum(rows, how, g, CacheWrite))
  }

  /** The stacked count of a group is the sum of the four it stacks. */
  lemma {:induction false} StackOfGroup(rows: seq<Selected>, how: Grouping, g: Group)
    ensures GroupSum(rows, how, g, Stack)
         == GroupSum(rows, how, g, Input) + GroupSum(rows, how, g, Output)
            + GroupSum(rows, how, g, CacheRead) + GroupSum(rows, how, g, CacheWrite)
  {
    if rows != [] {
      StackOfGroup(rows[..|rows| - 1], how, g);
    }
  }

  lemma {:induction false} AmountOfGroup(rows: seq<Selected>, how: Grouping, g: Group, count: Count)
    ensures AmountOf(GroupSums(rows, how, g), count) == GroupSum(rows, how, g, count)
  {
    StackOfGroup(rows, how, g);
  }

  /** One line of a GROUP BY query. */
  datatype Populated = Populated(group: Group, sums: Sums)

  /** What a GROUP BY answers: one line for every group that has rows, no group twice, each with the group's sums. */
  ghost predicate GroupedBy(rows: seq<Selected>, how: Grouping, lines: seq<Populated>) {
    && (forall i, j :: 0 <= i < j < |lines| ==> lines[i].group != lines[j].group)
    && (forall i :: 0 <= i < |lines| ==> lines[i].sums == GroupSums(rows, how, lines[i].group))
    && (forall i :: 0 <= i < |lines| ==> HasRow(rows, how, lines[i].group))
    && (forall r :: r in rows ==> Listed(lines, GroupOf(how, r)))
  }

  ghost predicate HasRow(rows: seq<Selected>, how: Grouping, g: Group) {
    exists r :: r in rows && g == GroupOf(how, r)
  }

  ghost predicate Listed(lines: seq<Populated>, g: Group) {
    exists i :: 0 <= i < |lines| && lines[i].group == g
  }

  /** A group that no row belongs to sums to zero. */
  lemma {:induction false} Unpopulated(rows: seq<Selected>, how: Grouping, g: Group, count: Count)
    requires forall r :: r in rows ==> GroupOf(how, r) != g
    ensures GroupSum(rows, how, g, count) == 0
  {
    if rows != [] {
      assert rows[|rows| - 1] in rows;
      Unpopulated(rows[..|rows| - 1], how, g, count);
    }
  }

  lemma {:induction false} NoSums(rows: seq<Selected>, how: Grouping, g: Group)
    requires forall r :: r in rows ==> GroupOf(how, r) != g
    ensures GroupSums(rows, how, g) == ZERO
  {
    Unpopulated(rows, how, g, Calls);
    Unpopulated(rows, how, g, Input);
    Unpopulated(rows, how, g, Output);
    Unpopulated(rows, how, g, CacheRead);
    Unpopulated(rows, how, g, CacheWrite);
  }

  // ── Buckets ────────────────────────────────────────────────────────────────

  /** Where the bucket of a moment starts, in seconds, for buckets of `width` seconds. */
  function Floor(ms: int, width: int): int
    requires width > 0
  {
    ms / 1000 / width * width
  }

  /** The rows of the window, each with its bucket. */
  ghost predicate InWindow(rows: seq<Selected>, since: int, width: int)
    requires width > 0
  {
    forall i :: 0 <= i < |rows| ==>
      rows[i].bucket == Floor(rows[i].row.timestampMs, width) && rows[i].row.timestampMs >= since
  }

  function BucketCount(since: int, now: int, width: int): nat
    requires width > 0
  {
    var start, end := Floor(since, width), Floor(now, width);
    if end < start then 0 else (end - start) / width + 1
  }

  lemma {:induction false} CountOf(since: int, now: int, width: int, a: int, b: int)
    requires width > 0 && a == since / 1000 / width && b == now / 1000 / width
    ensures Floor(since, width) == a * width && Floor(now, width) == b * width
    ensures BucketCount(since, now, width) == if b < a then 0 else b - a + 1
  {
    Ordered(a, b, width);
    Ordered(b, a, width);
    Steps(a, b, width);
  }

  /** The loop over bucket starts runs exactly as often as there are buckets. */
  lemma {:induction false} FloorStep(since: int, now: int, width: int, s: int, i: nat)
    requires width > 0 && s == Floor(since, width) + i * width
    ensures s <= Floor(now, width) <==> i < BucketCount(since, now, width)
  {
    var a, b := since / 1000 / width, now / 1000 / width;
    CountOf(since, now, width, a, b);
    assert s == (a + i) * width;
    Ordered(a + i, b, width);
  }

  /**
   Buckets are consecutive multiples of the width, and every moment from since to now falls into exactly the
   one its floor names.
   */
  lemma {:induction false} BucketsTile(since: int, now: int, width: int, ms: int) returns (i: nat)
    requires width > 0 && since <= ms <= now
    ensures i < BucketCount(since, now, width)
    ensures var s := Floor(since, width) + i * width;
      s == Floor(ms, width) && s * 1000 <= ms < (s + width) * 1000 && s % width == 0
  {
    var a, b, c := since / 1000 / width, now / 1000 / width, ms / 1000 / width;
    CountOf(since, now, width, a, b);
    QuotientOrdered(since, ms, 1000);
    QuotientOrdered(ms, now, 1000);
    QuotientOrdered(since / 1000, ms / 1000, width);
    QuotientOrdered(ms / 1000, now / 1000, width);
    i := c - a;
    assert a * width + i * width == c * width;
    assert c * width <= ms / 1000 < c * width + width;
    Multiple(c, width);
  }

  // ── The zero-filled series ─────────────────────────────────────────────────

  datatype Point = Point(start: int, sums: Sums)

  function PointAt(rows: seq<Selected>, s: int): Point {
    Point(s, GroupSums(rows, Buckets, BucketGroup(s)))
  }

  /** `n` points from `start`, one every `width` seconds. */
  function Series(rows: seq<Selected>, start: int, width: int, n: nat): seq<Point> {
    seq(n, i requires 0 <= i < n => PointAt(rows, start + i * width))
  }

  /** bucketMap.get(s) or zeros, for every s. */
  ghost predicate FilledFrom(rows: seq<Selected>, buckets: map<int, Sums>) {
    forall s :: (if s in buckets then buckets[s] else ZERO) == GroupSums(rows, Buckets, BucketGroup(s))
  }

  method BucketMap(ghost rows: seq<Selected>, populated: seq<Populated>) returns (buckets: map<int, Sums>)
    requires GroupedBy(rows, Buckets, populated)
    ensures FilledFrom(rows, buckets)
  {
    buckets := map[];
    for k := 0 to |populated|
      invariant forall j :: 0 <= j < k ==> populated[j].group.bucket in buckets
      invariant forall s :: s in buckets ==> buckets[s] == GroupSums(rows, Buckets, BucketGroup(s))
    {
      buckets := buckets[populated[k].group.bucket := populated[k].sums];
    }
    forall s | s !in buckets ensures GroupSums(rows, Buckets, BucketGroup(s)) == ZERO {
      assert forall r :: r in rows ==> Listed(populated, GroupOf(Buckets, r));
      NoSums(rows, Buckets, BucketGroup(s));
    }
  }

  method ByHour(ghost rows: seq<Selected>, populated: seq<Populated>, since: int, now: int, width: int)
      returns (series: seq<Point>)
    requires width > 0 && GroupedBy(rows, Buckets, populated)
    ensures series == Series(rows, Floor(since, width), width, BucketCount(since, now, width))
  {
    var buckets := BucketMap(rows, populated);
    series := [];
    var start, end := Floor(since, width), Floor(now, width);
    var s := start;
    ghost var n := 0;
    FloorStep(since, now, width, s, n);
    while s <= end
      invariant s == start + n * width
      invariant s <= end <==> n < BucketCount(since, now, width)
      invariant n <= BucketCount(since, now, width)
      invariant series == Series(rows, start, width, n)
      decreases end - s + width
    {
      series := series + [Point(s, if s in buckets then buckets[s] else ZERO)];
      assert series == Series(rows, start, width, n + 1);
      s := s + width;
      n := n + 1;
      FloorStep(since, now, width, s, n);
    }
  }

  // ── The stacked pivots ─────────────────────────────────────────────────────

  datatype StackedPoint = StackedPoint(start: int, values: seq<int>)

  /** One value a column name, in the order of the names. */
  function Values(rows: seq<Selected>, column: Column, keys: seq<string>, s: int): seq<int> {
    if keys == [] then []
    else Values(rows, column, keys[..|keys| - 1], s)
         + [GroupSum(rows, BucketAnd(column), ColumnGroup(column, s, keys[|keys| - 1]), Stack)]
  }

  function Stacked(rows: seq<Selected>, column: Column, keys: seq<string>, start: int, width: int,
      n: nat): seq<StackedPoint> {
    seq(n, i requires 0 <= i < n => StackedPoint(start + i * width, Values(rows, column, keys, start + i * width)))
  }

  function NameOf(column: Column, g: Group): string {
    match column
    case ByProcess => g.process
    case ByProvider => g.provider
    case ByModel => g.model
  }

  type Slots = map<int, map<string, int>>

  /** slot[k] || 0, where the bucket may have no slot. */
  function SlotValue(slots: Slots, s: int, k: string): int {
    if s in slots && k in slots[s] then slots[s][k] else 0
  }

  ghost predicate StackedFrom(rows: seq<Selected>, column: Column, slots: Slots) {
    forall s, k :: SlotValue(slots, s, k) == GroupSum(rows, BucketAnd(column), ColumnGroup(column, s, k), Stack)
  }

  /** The slots hold the lines taken so far and nothing else. */
  ghost predicate Taken(column: Column, lines: seq<Populated>, slots: Slots) {
    && (forall j :: 0 <= j < |lines| ==>
          SlotValue(slots, lines[j].group.bucket, NameOf(column, lines[j].group)) == AmountOf(lines[j].sums, Stack))
    && (forall s, k :: SlotValue(slots, s, k) != 0 ==>
          exists j :: 0 <= j < |lines| && lines[j].group == ColumnGroup(column, s, k))
  }

  method SlotMap(ghost rows: seq<Selected>, column: Column, lines: seq<Populated>) returns (slots: Slots)
    requires GroupedBy(rows, BucketAnd(column), lines)
    ensures StackedFrom(rows, column, slots)
  {
    slots := map[];
    for i := 0 to |lines|
      invariant Taken(column, lines[..i], slots)
    {
      var s, k := lines[i].group.bucket, NameOf(column, lines[i].group);
      assert lines[i].group == ColumnGroup(column, s, k);
      ghost var was := slots;
      assert SlotValue(was, s, k) == 0;
      if s !in slots {
        slots := slots[s := map[]];
      }
      slots := slots[s := slots[s][k := (if k in slots[s] then slots[s][k] else 0) + AmountOf(lines[i].sums, Stack)]];
      OneMoreLine(column, lines, i, was, slots, s, k);
    }
    assert lines[..|lines|] == lines;
    AllTaken(rows, column, lines, slots);
  }

  lemma {:induction false} OneMoreLine(column: Column, lines: seq<Populated>, i: nat, was: Slots, slots: Slots,
      s: int, k: string)
    requires i < |lines| && forall j :: 0 <= j < i ==> lines[j].group != lines[i].group
    requires forall j :: 0 <= j <= i ==>
      lines[j].group == ColumnGroup(column, lines[j].group.bucket, NameOf(column, lines[j].group))
    requires Taken(column, lines[..i], was) && lines[i].group == ColumnGroup(column, s, k)
    requires SlotValue(slots, s, k) == AmountOf(lines[i].sums, Stack)
    requires forall t, m :: t != s || m != k ==> SlotValue(slots, t, m) == SlotValue(was, t, m)
    ensures Taken(column, lines[..i + 1], slots)
  {
    var taken := lines[..i + 1];
    forall t, m | SlotValue(slots, t, m) != 0
      ensures exists j :: 0 <= j < |taken| && taken[j].group == ColumnGroup(column, t, m)
    {
      if t == s && m == k {
        assert taken[i].group == ColumnGroup(column, t, m);
      } else {
        var j :| 0 <= j < i && lines[..i][j].group == ColumnGroup(column, t, m);
        assert taken[j].group == ColumnGroup(column, t, m);
      }
    }
  }

  lemma {:induction false} AllTaken(rows: seq<Selected>, column: Column, lines: seq<Populated>, slots: Slots)
    requires GroupedBy(rows, BucketAnd(column), lines) && Taken(column, lines, slots)
    ensures StackedFrom(rows, column, slots)
  {
    forall s, k ensures SlotValue(slots, s, k) == GroupSum(rows, BucketAnd(column), ColumnGroup(column, s, k), Stack) {
      var g := ColumnGroup(column, s, k);
      if j :| 0 <= j < |lines| && lines[j].group == g {
        AmountOfGroup(rows, BucketAnd(column), g, Stack);
      } else {
        Unpopulated(rows, BucketAnd(column), g, Stack);
      }
    }
  }

  method ByColumnHour(ghost rows: seq<Selected>, column: Column, keys: seq<string>, lines: seq<Populated>, since: int,
      now: int, width: int) returns (series: seq<StackedPoint>)
    requires width > 0 && GroupedBy(rows, BucketAnd(column), lines)
    ensures series == Stacked(rows, column, keys, Floor(since, width), width, BucketCount(since, now, width))
  {
    var slots := SlotMap(rows, column, lines);
    series := [];
    var start, end := Floor(since, width), Floor(now, width);
    var s := start;
    ghost var n := 0;
    FloorStep(since, now, width, s, n);
    while s <= end
      invariant s == start + n * width
      invariant s <= end <==> n < BucketCount(since, now, width)
      invariant n <= BucketCount(since, now, width)
      invariant series == Stacked(rows, column, keys, start, width, n)
      decreases end - s + width
    {
      var values := RowOfSlots(rows, column, keys, slots, s);
      series := series + [StackedPoint(s, values)];
      assert series == Stacked(rows, column, keys, start, width, n + 1);
      s := s + width;
      n := n + 1;
      FloorStep(since, now, width, s, n);
    }
  }

  method RowOfSlots(ghost rows: seq<Selected>, column: Column, keys: seq<string>, slots: Slots, s: int)
      returns (values: seq<int>)
    requires StackedFrom(rows, column, slots)
    ensures values == Values(rows, column, keys, s)
  {
    values := [];
    for k := 0 to |keys|
      invariant values == Values(rows, column, keys[..k], s)
    {
      assert keys[..k + 1][..k] == keys[..k];
      values := values + [SlotValue(slots, s, keys[k])];
    }
    assert keys[..|keys|] == keys;
  }

  // ── Conservation ───────────────────────────────────────────────────────────

  /** The column sum of the first `n` points. */
  function SeriesUpTo(series: seq<Point>, n: nat, count: Count): int
    requires n <= |series|
  {
    if n == 0 then 0 else SeriesUpTo(series, n - 1, count) + AmountOf(series[n - 1].sums, count)
  }

  function SeriesTotal(series: seq<Point>, count: Count): int {
    SeriesUpTo(series, |series|, count)
  }

  function ValuesTotal(values: seq<int>): int {
    if values == [] then 0 else ValuesTotal(values[..|values| - 1]) + values[|values| - 1]
  }

  /** Everything stacked in the first `n` points. */
  function StackedUpTo(series: seq<StackedPoint>, n: nat): int
    requires n <= |series|
  {
    if n == 0 then 0 else StackedUpTo(series, n - 1) + ValuesTotal(series[n - 1].values)
  }

  function StackedTotal(series: seq<StackedPoint>): int {
    StackedUpTo(series, |series|)
  }

  /** Rows stamped in a later bucket than now; the series end before them. */
  function Late(rows: seq<Selected>, end: int, count: Count): int {
    if rows == [] then 0
    else
      var before := Late(rows[..|rows| - 1], end, count);
      if rows[|rows| - 1].bucket > end then before + Amount(rows[|rows| - 1], count) else before
  }

  /** The column names of a pivot: each once, and all that occur. */
  ghost predicate NamesAll(rows: seq<Selected>, column: Column, keys: seq<string>) {
    Distinct(keys) && forall i :: 0 <= i < |rows| ==> ColumnOf(rows[i].row, column) in keys
  }

  ghost function BucketGroups(start: int, width: int, n: nat): seq<Group> {
    seq(n, i requires 0 <= i < n => BucketGroup(start + i * width))
  }

  lemma {:induction false} BucketGroupsDistinct(start: int, width: int, n: nat)
    requires width > 0
    ensures Distinct(BucketGroups(start, width, n))
  {
    forall i, j | 0 <= i < j < n ensures BucketGroups(start, width, n)[i] != BucketGroups(start, width, n)[j] {
      Ordered(i, j, width);
    }
  }

  lemma {:induction false} SeriesIsAllGroups(rows: seq<Selected>, start: int, width: int, n: nat, k: nat, count: Count)
    requires k <= n
    ensures SeriesUpTo(Series(rows, start, width, n), k, count)
        == AllGroups(rows, Buckets, BucketGroups(start, width, k), count)
  {
    if k > 0 {
      SeriesIsAllGroups(rows, start, width, n, k - 1, count);
      var groups := BucketGroups(start, width, k);
      assert groups[..k - 1] == BucketGroups(start, width, k - 1);
      AmountOfGroup(rows, Buckets, groups[k - 1], count);
    }
  }

  ghost predicate OnTime(r: Selected, groups: seq<Group>, end: int) {
    GroupOf(Buckets, r) in groups <==> r.bucket <= end
  }

  /** A row's bucket is on the series exactly when it is not later than now's. */
  lemma {:induction false} RowOnTime(r: Selected, since: int, now: int, width: int)
    requires width > 0 && r.bucket == Floor(r.row.timestampMs, width) && r.row.timestampMs >= since
    ensures OnTime(r, BucketGroups(Floor(since, width), width, BucketCount(since, now, width)), Floor(now, width))
  {
    var n := BucketCount(since, now, width);
    var a, b, c := since / 1000 / width, now / 1000 / width, r.row.timestampMs / 1000 / width;
    CountOf(since, now, width, a, b);
    QuotientOrdered(since, r.row.timestampMs, 1000);
    QuotientOrdered(since / 1000, r.row.timestampMs / 1000, width);
    Ordered(c, b, width);
    var groups := BucketGroups(a * width, width, n);
    if c <= b {
      assert a * width + (c - a) * width == c * width;
      assert groups[c - a] == BucketGroup(r.bucket);
    } else {
      forall i | 0 <= i < n ensures groups[i] != BucketGroup(r.bucket) {
        assert a * width + i * width == (a + i) * width;
        Ordered(a + i, c, width);
      }
    }
  }

  lemma {:induction false} OnTimeAndLate(rows: seq<Selected>, groups: seq<Group>, end: int, count: Count)
    requires forall i :: 0 <= i < |rows| ==> OnTime(rows[i], groups, end)
    ensures InGroups(rows, Buckets, groups, count) + Late(rows, end, count) == Total(rows, count)
  {
    if rows != [] {
      OnTimeAndLate(rows[..|rows| - 1], groups, end, count);
      assert OnTime(rows[|rows| - 1], groups, end);
    }
  }

  /** The column sums of the series and the rows later than it are exactly the totals. */
  lemma {:induction false} SeriesConserve(rows: seq<Selected>, since: int, now: int, width: int, count: Count)
    requires width > 0 && InWindow(rows, since, width)
    ensures SeriesTotal(Series(rows, Floor(since, width), width, BucketCount(since, now, width)), count)
            + Late(rows, Floor(now, width), count)
         == Total(rows, count)
  {
    var start, n := Floor(since, width), BucketCount(since, now, width);
    var groups := BucketGroups(start, width, n);
    SeriesIsAllGroups(rows, start, width, n, n, count);
    BucketGroupsDistinct(start, width, n);
    GroupsConserve(rows, Buckets, groups, count);
    forall i | 0 <= i < |rows| ensures OnTime(rows[i], groups, Floor(now, width)) {
      RowOnTime(rows[i], since, now, width);
    }
    OnTimeAndLate(rows, groups, Floor(now, width), count);
  }

  // ── Pivots ─────────────────────────────────────────────────────────────────

  ghost function ColumnGroups(column: Column, s: int, keys: seq<string>): seq<Group> {
    seq(|keys|, k requires 0 <= k < |keys| => ColumnGroup(column, s, keys[k]))
  }

  lemma {:induction false} ValuesAreAllGroups(rows: seq<Selected>, column: Column, keys: seq<string>, s: int)
    ensures ValuesTotal(Values(rows, column, keys, s))
        == AllGroups(rows, BucketAnd(column), ColumnGroups(column, s, keys), Stack)
  {
    if keys != [] {
      var before, groups := keys[..|keys| - 1], ColumnGroups(column, s, keys);
      ValuesAreAllGroups(rows, column, before, s);
      var values := Values(rows, column, keys, s);
      assert values[..|values| - 1] == Values(rows, column, before, s);
      assert groups[..|groups| - 1] == ColumnGroups(column, s, before);
    }
  }

  lemma {:induction false} RowInColumn(r: Selected, column: Column, keys: seq<string>, s: int)
    requires ColumnOf(r.row, column) in keys
    ensures GroupOf(BucketAnd(column), r) in ColumnGroups(column, s, keys) <==> r.bucket == s
  {
    var groups := ColumnGroups(column, s, keys);
    var k :| 0 <= k < |keys| && keys[k] == ColumnOf(r.row, column);
    assert groups[k] == ColumnGroup(column, s, ColumnOf(r.row, column));
  }

  lemma {:induction false} ColumnRows(rows: seq<Selected>, column: Column, keys: seq<string>, s: int)
    requires forall i :: 0 <= i < |rows| ==> ColumnOf(rows[i].row, column) in keys
    ensures InGroups(rows, BucketAnd(column), ColumnGroups(column, s, keys), Stack)
        == GroupSum(rows, Buckets, BucketGroup(s), Stack)
  {
    if rows != [] {
      ColumnRows(rows[..|rows| - 1], column, keys, s);
      RowInColumn(rows[|rows| - 1], column, keys, s);
    }
  }

  /** One point of a pivot adds up to the bucket. */
  lemma {:induction false} PointConserves(rows: seq<Selected>, column: Column, keys: seq<string>, s: int)
    requires NamesAll(rows, column, keys)
    ensures ValuesTotal(Values(rows, column, keys, s)) == GroupSum(rows, Buckets, BucketGroup(s), Stack)
  {
    ValuesAreAllGroups(rows, column, keys, s);
    assert Distinct(ColumnGroups(column, s, keys));
    GroupsConserve(rows, BucketAnd(column), ColumnGroups(column, s, keys), Stack);
    ColumnRows(rows, column, keys, s);
  }

  lemma {:induction false} PivotIsSeries(rows: seq<Selected>, column: Column, keys: seq<string>, start: int,
      width: int, n: nat, k: nat)
    requires NamesAll(rows, column, keys) && k <= n
    ensures StackedUpTo(Stacked(rows, column, keys, start, width, n), k)
        == SeriesUpTo(Series(rows, start, width, n), k, Stack)
  {
    if k > 0 {
      PivotIsSeries(rows, column, keys, start, width, n, k - 1);
      PointConserves(rows, column, keys, start + (k - 1) * width);
      AmountOfGroup(rows, Buckets, BucketGroup(start + (k - 1) * width), Stack);
    }
  }

  /**
   Every pivot, whichever column it stacks, has the same grand total: the window's, less what is later than
   the series.
   */
  lemma {:induction false} PivotsConserve(rows: seq<Selected>, column: Column, keys: seq<string>, since: int,
      now: int, width: int)
    requires width > 0 && InWindow(rows, since, width) && NamesAll(rows, column, keys)
    ensures StackedTotal(Stacked(rows, column, keys, Floor(since, width), width, BucketCount(since, now, width)))
            + Late(rows, Floor(now, width), Stack)
         == Total(rows, Stack)
  {
    var n := BucketCount(since, now, width);
    PivotIsSeries(rows, column, keys, Floor(since, width), width, n, n);
    SeriesConserve(rows, since, now, width, Stack);
  }

  /** The cells add up to the window in every count. */
  lemma {:induction false} CellsConserve(rows: seq<Selected>, cells: seq<Populated>, count: Count)
    requires GroupedBy(rows, Cells, cells)
    ensures CellsTotal(cells, count) == Total(rows, count)
  {
    var groups := GroupsOf(cells);
    CellsAreAllGroups(rows, cells, count);
    GroupsConserve(rows, Cells, groups, count);
    forall r | r in rows ensures GroupOf(Cells, r) in groups {
      assert Listed(cells, GroupOf(Cells, r));
      var i :| 0 <= i < |cells| && cells[i].group == GroupOf(Cells, r);
      assert groups[i] == GroupOf(Cells, r);
    }
    AllIn(rows, groups, count);
  }

  function CellsTotal(cells: seq<Populated>, count: Count): int {
    if cells == [] then 0 else CellsTotal(cells[..|cells| - 1], count) + AmountOf(cells[|cells| - 1].sums, count)
  }

  ghost function GroupsOf(cells: seq<Populated>): seq<Group> {
    seq(|cells|, i requires 0 <= i < |cells| => cells[i].group)
  }

  lemma {:induction false} CellsAreAllGroups(rows: seq<Selected>, cells: seq<Populated>, count: Count)
    requires forall i :: 0 <= i < |cells| ==> cells[i].sums == GroupSums(rows, Cells, cells[i].group)
    ensures CellsTotal(cells, count) == AllGroups(rows, Cells, GroupsOf(cells), count)
  {
    if cells != [] {
      var before, groups := cells[..|cells| - 1], GroupsOf(cells);
      CellsAreAllGroups(rows, before, count);
      assert groups[..|groups| - 1] == GroupsOf(before);
      AmountOfGroup(rows, Cells, cells[|cells| - 1].group, count);
    }
  }

  lemma {:induction false} AllIn(rows: seq<Selected>, groups: seq<Group>, count: Count)
    requires forall r :: r in rows ==> GroupOf(Cells, r) in groups
    ensures InGroups(rows, Cells, groups, count) == Total(rows, count)
  {
    if rows != [] {
      assert rows[|rows| - 1] in rows;
      AllIn(rows[..|rows| - 1], groups, count);
    }
  }

  /** Nothing is late when every row is stamped no later than now. */
  lemma {:induction false} NothingLate(rows: seq<Selected>, since: int, now: int, width: int, count: Count)
    requires width > 0 && InWindow(rows, since, width) && forall i :: 0 <= i < |rows| ==> rows[i].row.timestampMs <= now
    ensures Late(rows, Floor(now, width), count) == 0
  {
    if rows != [] {
      var before, r := rows[..|rows| - 1], rows[|rows| - 1];
      assert forall i :: 0 <= i < |before| ==> before[i] == rows[i];
      NothingLate(before, since, now, width, count);
      QuotientOrdered(r.row.timestampMs, now, 1000);
      QuotientOrdered(r.row.timestampMs / 1000, now / 1000, width);
      Ordered(r.row.timestampMs / 1000 / width, now / 1000 / width, width);
    }
  }

  // ── What one row adds, and where ───────────────────────────────────────────

  /** The name a row has in a column. */
  ghost predicate Named(r: Selected, column: Column, name: string) {
    match column
    case ByProcess => r.row.process == name
    case ByModel => r.row.model == name
    case ByProvider => r.row.provider == name
  }

  /** One row adds one call, and its own four token counts, to the point of its own bucket and to no other. */
  lemma {:induction false} RowAddsToPoint(rows: seq<Selected>, r: Selected, s: int)
    ensures PointAt([], s) == Point(s, Sums(0, 0, 0, 0, 0))
    ensures var p, q := PointAt(rows, s).sums, PointAt(rows + [r], s);
      q == Point(s, if r.bucket != s then p
                    else Sums(p.calls + 1, p.input + r.row.input, p.output + r.row.output,
                              p.cacheRead + r.row.cacheRead, p.cacheWrite + r.row.cacheWrite))
  {
    GroupSumAppend(rows, r, Buckets, BucketGroup(s), Calls);
    GroupSumAppend(rows, r, Buckets, BucketGroup(s), Input);
    GroupSumAppend(rows, r, Buckets, BucketGroup(s), Output);
    GroupSumAppend(rows, r, Buckets, BucketGroup(s), CacheRead);
    GroupSumAppend(rows, r, Buckets, BucketGroup(s), CacheWrite);
  }

  /** One row adds all four counts to the value of its own name in its own bucket, and to no other. */
  lemma {:induction false} RowAddsToStack(rows: seq<Selected>, r: Selected, column: Column, name: string, s: int)
    ensures Values([], column, [name], s) == [0]
    ensures |Values(rows, column, [name], s)| == 1
    ensures Values(rows + [r], column, [name], s)
         == [Values(rows, column, [name], s)[0]
             + if r.bucket == s && Named(r, column, name)
               then r.row.input + r.row.output + r.row.cacheRead + r.row.cacheWrite else 0]
  {
    var names := [name];
    assert names[..0] == [];
    assert Values(rows, column, names[..0], s) == [] && Values(rows + [r], column, names[..0], s) == [];
    GroupSumAppend(rows, r, BucketAnd(column), ColumnGroup(column, s, name), Stack);
  }

  /** Two rows share a cell exactly when bucket, process, provider and model agree, and the cell shows just these. */
  lemma {:induction false} SameCellIff(a: Selected, b: Selected)
    ensures GroupOf(Cells, a) == GroupOf(Cells, b) <==>
      a.bucket == b.bucket && a.row.process == b.row.process && a.row.provider == b.row.provider
          && a.row.model == b.row.model
    ensures var g := GroupOf(Cells, a);
      g.bucket == a.bucket && g.process == a.row.process && g.provider == a.row.provider && g.model == a.row.model
  {
  }

  /** The totals, row by row. */
  lemma {:induction false} RowAddsToTotal(rows: seq<Selected>, r: Selected)
    ensures forall count :: Total([], count) == 0
    ensures Total(rows + [r], Calls) == Total(rows, Calls) + 1
    ensures Total(rows + [r], Input) == Total(rows, Input) + r.row.input
    ensures Total(rows + [r], Output) == Total(rows, Output) + r.row.output
    ensures Total(rows + [r], CacheRead) == Total(rows, CacheRead) + r.row.cacheRead
    ensures Total(rows + [r], CacheWrite) == Total(rows, CacheWrite) + r.row.cacheWrite
    ensures Total(rows + [r], Stack)
         == Total(rows, Stack) + r.row.input + r.row.output + r.row.cacheRead + r.row.cacheWrite
  {
    assert (rows + [r])[..|rows|] == rows;
  }

  // ── How many buckets ───────────────────────────────────────────────────────

  const HOUR_MS: int := 3_600_000

  /** Bucket width by the span shown. */
  function DefaultBucketMinutes(shownMs: int): int {
    if shownMs <= 24 * HOUR_MS then 2
    else if shownMs <= 72 * HOUR_MS then 10
    else if shownMs <= 168 * HOUR_MS then 30
    else if shownMs <= 720 * HOUR_MS then 120
    else 360
  }

  /**
   The default widths: 2 minutes up to a day, then 10 up to 3 days, 30 up to a week, 120 up to 30 days, 360
   beyond.
   */
  lemma {:induction false} WidthsAre(hours: int, rest: int)
    requires 0 <= rest < HOUR_MS
    ensures var m := DefaultBucketMinutes(hours * HOUR_MS + rest);
      && (m == 2 <==> hours < 24 || (hours == 24 && rest == 0))
      && (m == 10 <==> (hours == 24 && rest > 0) || 24 < hours < 72 || (hours == 72 && rest == 0))
      && (m == 30 <==> (hours == 72 && rest > 0) || 72 < hours < 168 || (hours == 168 && rest == 0))
      && (m == 120 <==> (hours == 168 && rest > 0) || 168 < hours < 720 || (hours == 720 && rest == 0))
      && (m == 360 <==> (hours == 720 && rest > 0) || hours > 720)
  {
  }

  lemma {:induction false} CountBound(since: int, now: int, width: int, k: nat)
    requires width > 0 && since <= now <= since + k * width * 1000
    ensures BucketCount(since, now, width) <= k + 1
  {
    var x, y := since / 1000, now / 1000;
    CountOf(since, now, width, x / width, y / width);
    QuotientOrdered(now, since + (k * width) * 1000, 1000);
    Shifted(since, 1000, k * width);
    QuotientOrdered(y, x + k * width, width);
    Shifted(x, width, k);
  }

  /** With the default widths a span of at most 720 hours never needs more than 721 buckets. */
  lemma {:induction false} BucketsBounded(since: int, now: int)
    requires since <= now <= since + 720 * HOUR_MS
    ensures BucketCount(since, now, DefaultBucketMinutes(now - since) * 60) <= 721
  {
    var shown := now - since;
    if shown <= 24 * HOUR_MS {
      CountBound(since, now, 120, 720);
    } else if shown <= 72 * HOUR_MS {
      CountBound(since, now, 600, 432);
    } else if shown <= 168 * HOUR_MS {
      CountBound(since, now, 1800, 336);
    } else {
      CountBound(since, now, 7200, 360);
    }
  }
}
