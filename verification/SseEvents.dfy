/** Cutting a server-sent-event stream into events as its text arrives. */
module SseEvents {
  import opened Wrappers
  import opened JsText

  /** The two end-of-event rules in use: `\n\n`, and `\r?\n\r?\n`. */
  datatype Delimiter = BlankLine | AnyBlankLine

  /**
   Length of the match starting at `i`, 0 when there is none. `\r` and `\n` differ, so the optional parts
   never compete.
   */
  function MatchAt(d: Delimiter, s: string, i: nat): nat {
    match d
    case BlankLine => if i + 1 < |s| && s[i] == '\n' && s[i + 1] == '\n' then 2 else 0
    case AnyBlankLine =>
      var a := i + if i < |s| && s[i] == '\r' then 1 else 0;
      if a < |s| && s[a] == '\n' then
        var b := a + 1 + if a + 1 < |s| && s[a + 1] == '\r' then 1 else 0;
        if b < |s| && s[b] == '\n' then b + 1 - i else 0
      else 0
  }

  /** The leftmost match at or after `from`, or `|s|` when there is none. */
  function Search(d: Delimiter, s: string, from: nat): (i: nat)
    requires from <= |s|
    ensures from <= i <= |s|
    ensures i < |s| ==> MatchAt(d, s, i) > 0 && i + MatchAt(d, s, i) <= |s|
    ensures forall j :: from <= j < i ==> MatchAt(d, s, j) == 0
    decreases |s| - from
  {
    if from == |s| || MatchAt(d, s, from) > 0 then from else Search(d, s, from + 1)
  }

  datatype Cut = Cut(event: string, delimiter: string)

  /** The first event, its delimiter, and the text after it. */
  function Head(d: Delimiter, text: string): (Cut, string)
    requires Search(d, text, 0) < |text|
  {
    var i := Search(d, text, 0);
    var n := MatchAt(d, text, i);
    (Cut(text[..i], text[i..i + n]), text[i + n..])
  }

  /** All complete events of a text with the delimiters that ended them, and the incomplete rest. */
  function Events(d: Delimiter, text: string): (seq<Cut>, string)
    decreases |text|
  {
    if Search(d, text, 0) == |text| then ([], text)
    else
      var (cut, rest) := Head(d, text);
      var more := Events(d, rest);
      ([cut] + more.0, more.1)
  }

  function Joined(cuts: seq<Cut>): string {
    if cuts == [] then "" else cuts[0].event + cuts[0].delimiter + Joined(cuts[1..])
  }

  lemma {:induction false} HeadWhole(d: Delimiter, text: string)
    requires Search(d, text, 0) < |text|
    ensures var (cut, rest) := Head(d, text); text == cut.event + cut.delimiter + rest && |rest| < |text|
  {
  }

  lemma {:induction false} JoinedCons(cut: Cut, more: seq<Cut>)
    ensures Joined([cut] + more) == cut.event + cut.delimiter + Joined(more)
  {
    assert ([cut] + more)[1..] == more;
  }

  /** No character is lost or moved, and what stays in the buffer holds no complete delimiter. */
  lemma {:induction false} NothingLost(d: Delimiter, text: string)
    ensures Joined(Events(d, text).0) + Events(d, text).1 == text
    ensures Search(d, Events(d, text).1, 0) == |Events(d, text).1|
    decreases |text|
  {
    if Search(d, text, 0) == |text| {
      assert Joined([]) + text == text;
    } else {
      var (cut, rest) := Head(d, text);
      var more := Events(d, rest);
      HeadWhole(d, text);
      NothingLost(d, rest);
      JoinedCons(cut, more.0);
      Regroup(cut.event, cut.delimiter, Joined(more.0), more.1);
    }
  }

  lemma {:induction false} Regroup(a: string, b: string, c: string, d: string)
    ensures a + b + c + d == a + b + (c + d)
  {
  }

  lemma {:induction false} MatchStable(d: Delimiter, s: string, t: string, i: nat)
    requires MatchAt(d, s, i) > 0
    ensures MatchAt(d, s + t, i) == MatchAt(d, s, i)
  {
  }

  /**
   A match that appears only when more text arrives reaches past the old end, so it cannot begin before a
   match that was already complete.
   */
  lemma {:induction false} NoEarlierMatch(d: Delimiter, s: string, t: string, i: nat, j: nat)
    requires j < i < |s| && MatchAt(d, s, i) > 0 && MatchAt(d, s, j) == 0
    ensures MatchAt(d, s + t, j) == 0
  {
    assert forall k :: 0 <= k < |s| ==> (s + t)[k] == s[k];
  }

  /** Prefix stability: the leftmost complete match stays the leftmost, at the same length, whatever follows. */
  lemma {:induction false} SearchStable(d: Delimiter, s: string, t: string)
    requires Search(d, s, 0) < |s|
    ensures Search(d, s + t, 0) == Search(d, s, 0)
    ensures MatchAt(d, s + t, Search(d, s, 0)) == MatchAt(d, s, Search(d, s, 0))
  {
    var i := Search(d, s, 0);
    MatchStable(d, s, t, i);
    forall j | 0 <= j < i ensures MatchAt(d, s + t, j) == 0 {
      NoEarlierMatch(d, s, t, i, j);
    }
  }

  /** So the first event stays the first, and what follows it grows by what arrived. */
  lemma {:induction false} HeadStable(d: Delimiter, s: string, t: string)
    requires Search(d, s, 0) < |s|
    ensures Search(d, s + t, 0) < |s + t|
    ensures Head(d, s + t) == (Head(d, s).0, Head(d, s).1 + t)
  {
    SearchStable(d, s, t);
    var i := Search(d, s, 0);
    var n := MatchAt(d, s, i);
    assert (s + t)[i + n..] == s[i + n..] + t;
    assert (s + t)[..i] == s[..i] && (s + t)[i..i + n] == s[i..i + n];
  }

  /** The events of a text and then of a continuation, the unfinished rest carried over. */
  function Resumed(d: Delimiter, before: (seq<Cut>, string), t: string): (seq<Cut>, string) {
    var after := Events(d, before.1 + t);
    (before.0 + after.0, after.1)
  }

  lemma {:induction false} ResumedCons(d: Delimiter, cut: Cut, before: (seq<Cut>, string), t: string)
    ensures Resumed(d, ([cut] + before.0, before.1), t) == ([cut] + Resumed(d, before, t).0, Resumed(d, before, t).1)
  {
    var after := Events(d, before.1 + t);
    assert [cut] + (before.0 + after.0) == ([cut] + before.0) + after.0;
  }

  /** Cutting a text in two anywhere and carrying the rest over gives the same events. */
  lemma {:induction false} EventsSplit(d: Delimiter, s: string, t: string)
    ensures Events(d, s + t) == Resumed(d, Events(d, s), t)
    decreases |s|
  {
    if Search(d, s, 0) == |s| {
      assert [] + Events(d, s + t).0 == Events(d, s + t).0;
    } else {
      var (cut, tail) := Head(d, s);
      HeadWhole(d, s);
      EventsSplit(d, tail, t);
      HeadStable(d, s, t);
      ResumedCons(d, cut, Events(d, tail), t);
    }
  }

  // ── Lines ──────────────────────────────────────────────────────────────────

  function Concat(chunks: seq<string>): string {
    if chunks == [] then "" else Concat(chunks[..|chunks| - 1]) + chunks[|chunks| - 1]
  }

  predicate StartsWith(s: string, prefix: string) {
    prefix <= s
  }

  /** `split('\n')` */
  function SplitLines(s: string): (lines: seq<string>)
    ensures |lines| >= 1
  {
    if s == [] then [""]
    else
      var tail := SplitLines(s[1..]);
      if s[0] == '\n' then [""] + tail else [[s[0]] + tail[0]] + tail[1..]
  }

  /** `split(/\r?\n/)`: every line but the last also loses one trailing carriage return. */
  function SplitCrLines(s: string): seq<string> {
    var lines := SplitLines(s);
    seq(|lines|, i requires 0 <= i < |lines| =>
      if i < |lines| - 1 && lines[i] != "" && lines[i][|lines[i]| - 1] == '\r' then lines[i][..|lines[i]| - 1]
          else lines[i])
  }

  /** What follows `data:` on the first such line. */
  function FirstData(lines: seq<string>): Option<string> {
    if lines == [] then None
    else if StartsWith(lines[0], "data:") then Some(Trim(lines[0][5..]))
    else FirstData(lines[1..])
  }

  /** Every data line, trimmed, joined by newlines; None when there is no data line. */
  function AllData(lines: seq<string>): Option<string> {
    if lines == [] then None
    else
      var later := AllData(lines[1..]);
      if !StartsWith(lines[0], "data:") then later
      else Some(Trim(lines[0][5..]) + if later.None? then "" else "\n" + later.value)
  }
}
