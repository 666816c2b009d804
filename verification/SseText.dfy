/** What the lines and the data of an event are, and the events of a stream as a writer puts them on the wire. */
module SseText {
  import opened Wrappers
  import opened JsText
  import opened SseEvents

  // ── Delimiters, lines and data, each said without its reader ───────────────

  predicate IsDelimiter(d: Delimiter, text: string) {
    text == "\n\n" || (d == AnyBlankLine && (text == "\r\n\n" || text == "\n\r\n" || text == "\r\n\r\n"))
  }

  /** A match of `n` characters is exactly a delimiter there. */
  lemma {:induction false} MatchIs(d: Delimiter, s: string, i: nat, n: nat)
    requires n > 0
    ensures MatchAt(d, s, i) == n <==> i + n <= |s| && IsDelimiter(d, s[i..i + n])
  {
    if i + n <= |s| {
      var text := s[i..i + n];
      assert forall k :: 0 <= k < n ==> text[k] == s[i + k];
      assert n == 2 ==> text == [text[0], text[1]];
      assert n == 3 ==> text == [text[0], text[1], text[2]];
      assert n == 4 ==> text == [text[0], text[1], text[2], text[3]];
    }
  }

  function Rejoined(lines: seq<string>): string {
    if lines == [] then "" else if |lines| == 1 then lines[0] else lines[0] + "\n" + Rejoined(lines[1..])
  }

  /** Splitting loses nothing and leaves no line break in a line. */
  lemma {:induction false} LinesRejoin(s: string)
    ensures Rejoined(SplitLines(s)) == s
    ensures forall i :: 0 <= i < |SplitLines(s)| ==> '\n' !in SplitLines(s)[i]
  {
    if s != [] {
      LinesRejoin(s[1..]);
      var lines, tail := SplitLines(s), SplitLines(s[1..]);
      if s[0] == '\n' {
        assert lines[1..] == tail;
      } else {
        assert lines[1..] == tail[1..];
        assert [s[0]] + tail[0] + "\n" == [s[0]] + (tail[0] + "\n");
      }
      assert s == [s[0]] + s[1..];
    }
  }

  /**
   The other splitter takes one carriage return off the end of every line that a line break follows, and
   nothing else.
   */
  lemma {:induction false} CrLinesAre(s: string, i: nat)
    requires i < |SplitLines(s)|
    ensures |SplitCrLines(s)| == |SplitLines(s)|
    ensures var whole, line := SplitLines(s)[i], SplitCrLines(s)[i];
      if i == |SplitLines(s)| - 1 then line == whole
      else whole == line + "\r" || (whole == line && (line == "" || line[|line| - 1] != '\r'))
  {
  }

  /** The characters `trim` and `\s` know, by their codes. */
  lemma {:induction false} SpaceIs(ch: char)
    ensures IsSpace(ch) <==>
      || ch as int in {9, 10, 11, 12, 13, 32, 160, 5760, 8232, 8233, 8239, 8287, 12288, 65279}
      || 8192 <= ch as int <= 8202
  {
  }

  ghost predicate AllSpace(s: string) {
    forall i :: 0 <= i < |s| ==> IsSpace(s[i])
  }

  /** `inner` is what is left of `s` when space is taken off both ends as long as there is any. */
  ghost predicate Trimmed(s: string, inner: string, a: nat, b: nat) {
    && a <= b <= |s| && inner == s[a..b] && AllSpace(s[..a]) && AllSpace(s[b..])
    && (a < b ==> !IsSpace(s[a]) && !IsSpace(s[b - 1]))
  }

  lemma {:induction false} SpaceBefore(ch: char, s: string, inner: string, a: nat, b: nat)
    requires IsSpace(ch) && Trimmed(s, inner, a, b)
    ensures Trimmed([ch] + s, inner, a + 1, b + 1)
  {
    var t := [ch] + s;
    assert t[a + 1..b + 1] == s[a..b] && t[b + 1..] == s[b..] && t[..a + 1] == [ch] + s[..a];
  }

  lemma {:induction false} SpaceAfter(s: string, ch: char, inner: string, a: nat, b: nat)
    requires IsSpace(ch) && Trimmed(s, inner, a, b)
    ensures Trimmed(s + [ch], inner, a, b)
  {
    var t := s + [ch];
    assert t[a..b] == s[a..b] && t[..a] == s[..a] && t[b..] == s[b..] + [ch];
  }

  /** Only space is taken off, and none is left at either end. */
  lemma {:induction false} TrimIs(s: string) returns (a: nat, b: nat)
    ensures Trimmed(s, Trim(s), a, b)
  {
    if s == [] {
      a, b := 0, 0;
    } else if IsSpace(s[0]) {
      var x, y := TrimIs(s[1..]);
      a, b := x + 1, y + 1;
      assert Trimmed([s[0]] + s[1..], Trim(s[1..]), a, b) by { SpaceBefore(s[0], s[1..], Trim(s[1..]), x, y); }
      assert s == [s[0]] + s[1..];
    } else if IsSpace(s[|s| - 1]) {
      var front, last := s[..|s| - 1], s[|s| - 1];
      a, b := TrimIs(front);
      SpaceAfter(front, last, Trim(s), a, b);
      assert s == front + [last];
    } else {
      a, b := 0, |s|;
      assert s[0..|s|] == s;
    }
  }

  ghost predicate IsData(line: string) {
    |line| >= 5 && line[..5] == "data:"
  }

  lemma {:induction false} StartsIs(line: string)
    ensures StartsWith(line, "data:") <==> IsData(line)
  {
  }

  /** The first data line, whatever lines come before it; None exactly when there is none. */
  lemma {:induction false} FirstDataIs(lines: seq<string>)
    ensures FirstData(lines).None? <==> forall i :: 0 <= i < |lines| ==> !IsData(lines[i])
    ensures forall i :: 0 <= i < |lines| && IsData(lines[i]) && (forall j :: 0 <= j < i ==> !IsData(lines[j])) ==>
      FirstData(lines) == Some(Trim(lines[i][5..]))
  {
    if lines != [] {
      var rest := lines[1..];
      FirstDataIs(rest);
      StartsIs(lines[0]);
      assert forall i :: 0 <= i < |rest| ==> rest[i] == lines[i + 1];
      if IsData(lines[0]) {
      } else {
        assert lines == [lines[0]] + rest;
        forall i | 0 <= i < |lines| && IsData(lines[i]) && (forall j :: 0 <= j < i ==> !IsData(lines[j]))
          ensures FirstData(lines) == Some(Trim(lines[i][5..]))
        {
          assert rest[i - 1] == lines[i];
          assert forall j :: 0 <= j < i - 1 ==> rest[j] == lines[j + 1];
        }
      }
    }
  }

  function JoinData(a: Option<string>, b: Option<string>): Option<string> {
    if a.None? then b else if b.None? then a else Some(a.value + "\n" + b.value)
  }

  /** The data of one line, and of two stretches of lines: together these say what the data of any lines is. */
  lemma {:induction false} AllDataIs(line: string, a: seq<string>, b: seq<string>)
    ensures AllData([line]) == if IsData(line) then Some(Trim(line[5..])) else None
    ensures AllData(a + b) == JoinData(AllData(a), AllData(b))
  {
    AllDataCons(line, []);
    assert [line] + [] == [line];
    AllDataAppend(a, b);
  }

  lemma {:induction false} AllDataCons(line: string, rest: seq<string>)
    ensures AllData([line] + rest) == JoinData(if IsData(line) then Some(Trim(line[5..])) else None, AllData(rest))
  {
    StartsIs(line);
    assert ([line] + rest)[1..] == rest;
    if IsData(line) {
      var data := Trim(line[5..]);
      if AllData(rest).None? {
        assert data + "" == data;
      } else {
        assert data + ("\n" + AllData(rest).value) == data + "\n" + AllData(rest).value;
      }
    }
  }

  lemma {:induction false} JoinDataAssoc(a: Option<string>, b: Option<string>, c: Option<string>)
    ensures JoinData(a, JoinData(b, c)) == JoinData(JoinData(a, b), c)
  {
    if a.Some? && b.Some? && c.Some? {
      assert a.value + "\n" + (b.value + "\n" + c.value) == a.value + "\n" + b.value + "\n" + c.value;
    }
  }

  lemma {:induction false} AllDataAppend(a: seq<string>, b: seq<string>)
    ensures AllData(a + b) == JoinData(AllData(a), AllData(b))
  {
    if a == [] {
      assert a + b == b;
    } else {
      var line, rest := a[0], a[1..];
      AllDataAppend(rest, b);
      assert a == [line] + rest && a + b == [line] + (rest + b);
      AllDataCons(line, rest);
      AllDataCons(line, rest + b);
      JoinDataAssoc(if IsData(line) then Some(Trim(line[5..])) else None, AllData(rest), AllData(b));
    }
  }

  // ── Streams as they are written ────────────────────────────────────────────

  /** One event: an `event:` line where there is a kind, and one `data:` line. */
  datatype Item = Item(kind: Option<string>, json: string)

  function ItemText(x: Item): string {
    (if x.kind.Some? then "event: " + x.kind.value + "\n" else "") + "data: " + x.json
  }

  function StreamText(items: seq<Item>): string {
    if items == [] then "" else ItemText(items[0]) + "\n\n" + StreamText(items[1..])
  }

  ghost predicate NoBreak(s: string) {
    forall i :: 0 <= i < |s| ==> s[i] != '\n' && s[i] != '\r'
  }

  /** On one line, with no space around it. */
  ghost predicate OneLiner(x: Item) {
    && x.json != "" && NoBreak(x.json) && !IsSpace(x.json[0]) && !IsSpace(x.json[|x.json| - 1])
    && (x.kind.Some? ==> NoBreak(x.kind.value))
  }

  lemma {:induction false} OneLine(a: string)
    requires NoBreak(a)
    ensures SplitLines(a) == [a]
  {
    if a != [] {
      OneLine(a[1..]);
      assert [a[0]] + a[1..] == a;
    }
  }

  lemma {:induction false} TwoLines(a: string, b: string)
    requires NoBreak(a) && NoBreak(b)
    ensures SplitLines(a + "\n" + b) == [a, b]
  {
    var t := a + "\n" + b;
    if a == [] {
      OneLine(b);
      assert t[0] == '\n' && t[1..] == b;
    } else {
      TwoLines(a[1..], b);
      assert t[1..] == a[1..] + "\n" + b;
      assert [a[0]] + a[1..] == a;
    }
  }

  lemma {:induction false} NoBreakAppend(a: string, b: string)
    requires NoBreak(a) && NoBreak(b)
    ensures NoBreak(a + b)
  {
  }

  lemma {:induction false} TrimPadded(s: string)
    requires s != "" && !IsSpace(s[0]) && !IsSpace(s[|s| - 1])
    ensures Trim(" " + s) == s
  {
    var t := " " + s;
    assert t[0] == ' ' && t[1..] == s;
    assert Trim(t) == Trim(t[1..]);
  }

  lemma {:induction false} DataLine(json: string)
    requires json != "" && !IsSpace(json[0]) && !IsSpace(json[|json| - 1])
    ensures var line := "data: " + json; IsData(line) && Trim(line[5..]) == json
  {
    var line := "data: " + json;
    assert line[..5] == "data:" && line[5..] == " " + json;
    TrimPadded(json);
  }

  lemma {:induction false} ItemLines(x: Item)
    requires OneLiner(x)
    ensures var data := "data: " + x.json;
      var lines := if x.kind.Some? then ["event: " + x.kind.value, data] else [data];
      SplitLines(ItemText(x)) == lines && SplitCrLines(ItemText(x)) == lines
  {
    var data := "data: " + x.json;
    NoBreakAppend("data: ", x.json);
    if x.kind.None? {
      assert ItemText(x) == data;
      OneLine(data);
    } else {
      var first := "event: " + x.kind.value;
      NoBreakAppend("event: ", x.kind.value);
      assert ItemText(x) == first + "\n" + data;
      TwoLines(first, data);
      assert first[|first| - 1] != '\r';
    }
  }

  /** Both readers find the item's data. */
  lemma {:induction false} ItemData(x: Item)
    requires OneLiner(x)
    ensures FirstData(SplitLines(ItemText(x))) == Some(x.json)
    ensures AllData(SplitCrLines(ItemText(x))) == Some(x.json)
  {
    var data := "data: " + x.json;
    ItemLines(x);
    DataLine(x.json);
    AllDataIs(data, [], []);
    if x.kind.None? {
      FirstDataIs([data]);
      assert [data][0] == data;
    } else {
      var first := "event: " + x.kind.value;
      var lines := [first, data];
      assert first[0] == 'e' && !IsData(first) by {
        assert |first| >= 5 ==> first[..5][0] == 'e';
        assert "data:"[0] == 'd';
      }
      FirstDataIs(lines);
      assert lines[1] == data && lines[0] == first;
      AllDataCons(first, [data]);
      assert [first] + [data] == lines;
    }
  }

  /** No carriage return, no blank line, and no line break at the end. */
  ghost predicate EventFree(t: string) {
    && t != "" && t[|t| - 1] != '\n'
    && forall i :: 0 <= i < |t| ==> t[i] != '\r' && (t[i] == '\n' && i + 1 < |t| ==> t[i + 1] != '\n')
  }

  lemma {:induction false} EndsAtBlank(d: Delimiter, t: string, rest: string)
    requires EventFree(t)
    ensures Search(d, t + "\n\n" + rest, 0) == |t| && MatchAt(d, t + "\n\n" + rest, |t|) == 2
  {
    var s := t + "\n\n" + rest;
    assert forall i :: 0 <= i < |t| ==> s[i] == t[i];
    assert s[|t|] == '\n' && s[|t| + 1] == '\n';
    forall j | 0 <= j < |t| ensures MatchAt(d, s, j) == 0 {
      assert s[j] == t[j];
    }
    assert MatchAt(d, s, |t|) == 2;
  }

  lemma {:induction false} ItemEventFree(x: Item)
    requires OneLiner(x)
    ensures EventFree(ItemText(x))
  {
    var data := "data: " + x.json;
    NoBreakAppend("data: ", x.json);
    if x.kind.None? {
      assert ItemText(x) == data;
    } else {
      var first := "event: " + x.kind.value;
      NoBreakAppend("event: ", x.kind.value);
      var t := ItemText(x);
      assert t == first + "\n" + data;
      assert forall i :: 0 <= i < |first| ==> t[i] == first[i];
      assert t[|first|] == '\n';
      assert forall i :: 0 <= i < |data| ==> t[|first| + 1 + i] == data[i];
      forall i | 0 <= i < |t| ensures t[i] != '\r' && (t[i] == '\n' && i + 1 < |t| ==> t[i + 1] != '\n') {
        if i > |first| {
          assert t[i] == data[i - |first| - 1];
        }
        assert i == |first| ==> t[i + 1] == data[0];
      }
      assert t[|t| - 1] == data[|data| - 1];
    }
  }

  /** The first event of the written text is the first item, nothing less and nothing more. */
  lemma {:induction false} FirstWritten(d: Delimiter, x: Item, rest: string)
    requires OneLiner(x)
    ensures var later := Events(d, rest);
      Events(d, ItemText(x) + "\n\n" + rest) == ([Cut(ItemText(x), "\n\n")] + later.0, later.1)
  {
    var t := ItemText(x);
    var text := t + "\n\n" + rest;
    ItemEventFree(x);
    EndsAtBlank(d, t, rest);
    assert text[..|t|] == t && text[|t|..|t| + 2] == "\n\n" && text[|t| + 2..] == rest;
  }

  ghost function CutsOf(items: seq<Item>): seq<Cut> {
    if items == [] then [] else [Cut(ItemText(items[0]), "\n\n")] + CutsOf(items[1..])
  }

  /** A written stream is cut into exactly its items, and nothing is left over. */
  lemma {:induction false} StreamEvents(d: Delimiter, items: seq<Item>)
    requires forall x :: x in items ==> OneLiner(x)
    ensures Events(d, StreamText(items)) == (CutsOf(items), "")
  {
    if items != [] {
      assert items[0] in items;
      StreamEvents(d, items[1..]);
      FirstWritten(d, items[0], StreamText(items[1..]));
    }
  }
}
