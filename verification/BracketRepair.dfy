/** Closing the brackets of truncated JSON: one scan with a stack, then the pending closers in reverse. */
module BracketRepair {
  import opened Wrappers
  import opened JsText

  // ── The scan ───────────────────────────────────────────────────────────────

  /** `stack` holds the closers still owed, the next one last. */
  datatype Scan = Scan(stack: seq<char>, inString: bool, escaped: bool)

  const START := Scan([], false, false)

  function Feed(s: Scan, ch: char): Scan {
    if s.escaped then s.(escaped := false)
    else if ch == '\\' && s.inString then s.(escaped := true)
    else if ch == '"' then s.(inString := !s.inString)
    else if s.inString then s
    else if ch == '{' then s.(stack := s.stack + ['}'])
    else if ch == '[' then s.(stack := s.stack + [']'])
    else if (ch == '}' || ch == ']') && s.stack != [] && s.stack[|s.stack| - 1] == ch
      then s.(stack := s.stack[..|s.stack| - 1])
    else s
  }

  function ScanText(s: Scan, text: string): Scan {
    if text == [] then s else Feed(ScanText(s, text[..|text| - 1]), text[|text| - 1])
  }

  lemma {:induction false} ScanAppend(s: Scan, a: string, b: string)
    ensures ScanText(s, a + b) == ScanText(ScanText(s, a), b)
  {
    if b == [] {
      assert a + b == a;
    } else {
      assert (a + b)[..|a + b| - 1] == a + b[..|b| - 1];
      ScanAppend(s, a, b[..|b| - 1]);
    }
  }

  /** Where `/,\s*$/` matches: the one comma with nothing but whitespace behind it. */
  function TrailingComma(text: string): (at: Option<nat>)
    ensures forall i :: 0 <= i < |text| ==>
      (at == Some(i) <==> text[i] == ',' && forall j :: i < j < |text| ==> IsSpace(text[j]))
    ensures at.Some? ==> at.value < |text|
  {
    if text == [] then None
    else
      var last := |text| - 1;
      if text[last] == ',' then Some(last)
      else if IsSpace(text[last]) then
        assert forall i :: 0 <= i < last ==> text[..last][i] == text[i];
        TrailingComma(text[..last])
      else None
  }

  function Stripped(text: string): string {
    match TrailingComma(text)
    case None => text
    case Some(i) => text[..i]
  }

  function Reversed(stack: seq<char>): seq<char> {
    if stack == [] then [] else [stack[|stack| - 1]] + Reversed(stack[..|stack| - 1])
  }

  function Closed(text: string): string {
    var s := ScanText(START, text);
    Stripped(text) + (if s.inString then "\"" else "") + Reversed(s.stack)
  }

  method CloseUnclosedBrackets(s: string) returns (result: string)
    ensures result == Closed(s)
  {
    var stack: seq<char> := [];
    var inString, escaped := false, false;
    for i := 0 to |s|
      invariant Scan(stack, inString, escaped) == ScanText(START, s[..i])
    {
      assert s[..i + 1][..i] == s[..i];
      var ch := s[i];
      if escaped {
        escaped := false;
        continue;
      }
      if ch == '\\' && inString {
        escaped := true;
        continue;
      }
      if ch == '"' {
        inString := !inString;
        continue;
      }
      if inString {
        continue;
      }
      if ch == '{' {
        stack := stack + ['}'];
      } else if ch == '[' {
        stack := stack + [']'];
      } else if (ch == '}' || ch == ']') && |stack| > 0 && stack[|stack| - 1] == ch {
        stack := stack[..|stack| - 1];
      }
    }
    assert s[..|s|] == s;
    var suffix := "";
    if inString {
      suffix := suffix + "\"";
    }
    result := Stripped(s) + suffix;
    while |stack| > 0
      invariant result + Reversed(stack) == Closed(s)
    {
      assert result + Reversed(stack) == (result + [stack[|stack| - 1]]) + Reversed(stack[..|stack| - 1]);
      result := result + [stack[|stack| - 1]];
      stack := stack[..|stack| - 1];
    }
    assert result + Reversed([]) == result;
  }

  // ── What closed text is, by grammar ────────────────────────────────────────

  /** The inside of a string literal: plain characters, and backslashes each with the character they escape. */
  ghost predicate StringBody(b: string) {
    b == [] || (if b[0] == '\\' then |b| >= 2 && StringBody(b[2..]) else b[0] != '"' && StringBody(b[1..]))
  }

  ghost predicate Plain(ch: char) {
    ch != '"' && ch != '{' && ch != '}' && ch != '[' && ch != ']'
  }

  ghost predicate Opens(opener: char, closer: char) {
    (opener == '{' && closer == '}') || (opener == '[' && closer == ']')
  }

  /** Text whose brackets nest and whose strings end: the shape every JSON document has. */
  ghost predicate WellClosed(t: string)
    decreases |t|, 1
  {
    t == []
    || (Plain(t[0]) && WellClosed(t[1..]))
    || exists k :: Piece(t, k) && WellClosed(t[k + 1..])
  }

  /** The text up to and including `k` is one string literal or one bracketed block. */
  ghost predicate Piece(t: string, k: int)
    decreases |t|, 0
  {
    1 <= k < |t| &&
    if t[0] == '"' then t[k] == '"' && StringBody(t[1..k]) else Opens(t[0], t[k]) && WellClosed(t[1..k])
  }

  /** A closer outside strings that is not the one owed next. */
  ghost predicate Mismatches(s: Scan, ch: char) {
    !s.escaped && !s.inString && (ch == '}' || ch == ']') && (s.stack == [] || s.stack[|s.stack| - 1] != ch)
  }

  ghost predicate NoMismatch(s: Scan, text: string) {
    text == [] || (NoMismatch(s, text[..|text| - 1]) && !Mismatches(ScanText(s, text[..|text| - 1]), text[|text| - 1]))
  }

  lemma {:induction false} NoMismatchAppend(s: Scan, a: string, b: string)
    ensures NoMismatch(s, a + b) <==> NoMismatch(s, a) && NoMismatch(ScanText(s, a), b)
  {
    if b == [] {
      assert a + b == a;
    } else {
      var c := b[..|b| - 1];
      assert (a + b)[..|a + b| - 1] == a + c;
      NoMismatchAppend(s, a, c);
      ScanAppend(s, a, c);
    }
  }

  // ── The scan of well-closed text changes nothing ───────────────────────────

  lemma {:induction false} ScanOne(s: Scan, ch: char)
    ensures ScanText(s, [ch]) == Feed(s, ch)
    ensures NoMismatch(s, [ch]) <==> !Mismatches(s, ch)
  {
    assert [ch][..0] == [];
  }

  lemma {:induction false} ScanBody(s: Scan, b: string)
    requires s.inString && !s.escaped && StringBody(b)
    ensures ScanText(s, b) == s && NoMismatch(s, b)
    decreases |b|
  {
    if b != [] {
      var n := if b[0] == '\\' then 2 else 1;
      assert b == b[..n] + b[n..];
      if n == 2 {
        assert b[..2] == [b[0]] + [b[1]];
        ScanAppend(s, [b[0]], [b[1]]);
        NoMismatchAppend(s, [b[0]], [b[1]]);
        ScanOne(s, b[0]);
        ScanOne(Feed(s, b[0]), b[1]);
      } else {
        assert b[..1] == [b[0]];
        ScanOne(s, b[0]);
      }
      ScanAppend(s, b[..n], b[n..]);
      NoMismatchAppend(s, b[..n], b[n..]);
      ScanBody(s, b[n..]);
    }
  }

  lemma {:induction false} ScanAround(s: Scan, first: char, inner: string, last: char, rest: string)
    ensures var t := [first] + inner + [last] + rest;
      var s1 := Feed(s, first);
      var s2 := ScanText(s1, inner);
      var s3 := Feed(s2, last);
      && ScanText(s, t) == ScanText(s3, rest)
      && (NoMismatch(s, t) <==>
            !Mismatches(s, first) && NoMismatch(s1, inner) && !Mismatches(s2, last) && NoMismatch(s3, rest))
  {
    ScanOne(s, first);
    ScanAppend(s, [first], inner);
    NoMismatchAppend(s, [first], inner);
    var s2 := ScanText(Feed(s, first), inner);
    ScanOne(s2, last);
    ScanAppend(s, [first] + inner, [last]);
    NoMismatchAppend(s, [first] + inner, [last]);
    ScanAppend(s, [first] + inner + [last], rest);
    NoMismatchAppend(s, [first] + inner + [last], rest);
  }

  lemma {:induction false} ScanPiece(s: Scan, t: string, k: int)
    requires !s.inString && !s.escaped && Piece(t, k)
    ensures ScanText(s, t) == ScanText(s, t[k + 1..]) && (NoMismatch(s, t) <==> NoMismatch(s, t[k + 1..]))
    decreases |t|, 1
  {
    assert t == [t[0]] + t[1..k] + [t[k]] + t[k + 1..];
    ScanAround(s, t[0], t[1..k], t[k], t[k + 1..]);
    var s1 := Feed(s, t[0]);
    if t[0] == '"' {
      ScanBody(s1, t[1..k]);
    } else {
      ScanWellClosed(s1, t[1..k]);
      assert s1.stack[..|s1.stack| - 1] == s.stack;
    }
  }

  lemma {:induction false} ScanWellClosed(s: Scan, t: string)
    requires !s.inString && !s.escaped && WellClosed(t)
    ensures ScanText(s, t) == s && NoMismatch(s, t)
    decreases |t|, 2
  {
    if t == [] {
    } else if Plain(t[0]) && WellClosed(t[1..]) {
      assert t == [t[0]] + t[1..];
      ScanOne(s, t[0]);
      ScanAppend(s, [t[0]], t[1..]);
      NoMismatchAppend(s, [t[0]], t[1..]);
      ScanWellClosed(s, t[1..]);
    } else {
      var k :| Piece(t, k) && WellClosed(t[k + 1..]);
      ScanPiece(s, t, k);
      ScanWellClosed(s, t[k + 1..]);
    }
  }

  // ── Text read so far: well-closed pieces between the openers still pending ──

  lemma {:induction false} PiecePrefix(a: string, b: string, k: int)
    requires Piece(a, k)
    ensures Piece(a + b, k) && (a + b)[k + 1..] == a[k + 1..] + b
  {
    assert (a + b)[1..k] == a[1..k];
  }

  lemma {:induction false} OnePiece(w: string, k: int)
    requires Piece(w, k) && k == |w| - 1
    ensures WellClosed(w)
  {
    assert w[k + 1..] == [];
    assert Piece(w, k) && WellClosed(w[k + 1..]);
  }

  lemma {:induction false} WellClosedAppend(a: string, b: string)
    requires WellClosed(a) && WellClosed(b)
    ensures WellClosed(a + b)
    decreases |a|
  {
    if a == [] {
      assert a + b == b;
    } else if Plain(a[0]) && WellClosed(a[1..]) {
      WellClosedAppend(a[1..], b);
      assert (a + b)[1..] == a[1..] + b;
    } else {
      var k :| Piece(a, k) && WellClosed(a[k + 1..]);
      WellClosedAppend(a[k + 1..], b);
      PiecePrefix(a, b, k);
    }
  }

  ghost predicate Pending(t: string, stack: seq<char>)
    decreases |stack|, 1
  {
    if stack == [] then WellClosed(t) else exists k :: PendingAt(t, stack, k)
  }

  /** The innermost pending opener is at `k`. */
  ghost predicate PendingAt(t: string, stack: seq<char>, k: int)
    requires stack != []
    decreases |stack|, 0
  {
    0 <= k < |t| && Opens(t[k], stack[|stack| - 1]) && Pending(t[..k], stack[..|stack| - 1]) && WellClosed(t[k + 1..])
  }

  /** The string still open starts at `k`. */
  ghost predicate StringFrom(t: string, stack: seq<char>, escaped: bool, k: int) {
    0 <= k < |t| && t[k] == '"' && Pending(t[..k], stack) &&
    if escaped then k + 1 < |t| && t[|t| - 1] == '\\' && StringBody(t[k + 1..|t| - 1]) else StringBody(t[k + 1..])
  }

  ghost predicate PendingString(t: string, stack: seq<char>, escaped: bool) {
    exists k :: StringFrom(t, stack, escaped, k)
  }

  lemma {:induction false} PendingAppend(t: string, stack: seq<char>, w: string)
    requires Pending(t, stack) && WellClosed(w)
    ensures Pending(t + w, stack)
  {
    if stack == [] {
      WellClosedAppend(t, w);
    } else {
      var k :| PendingAt(t, stack, k);
      WellClosedAppend(t[k + 1..], w);
      assert (t + w)[..k] == t[..k] && (t + w)[k + 1..] == t[k + 1..] + w;
      assert PendingAt(t + w, stack, k);
    }
  }

  lemma {:induction false} PendingOpen(t: string, stack: seq<char>, opener: char, closer: char)
    requires Pending(t, stack) && Opens(opener, closer)
    ensures Pending(t + [opener], stack + [closer])
  {
    var u := t + [opener];
    assert (stack + [closer])[..|stack|] == stack;
    assert u[..|t|] == t && u[|t| + 1..] == [];
    assert PendingAt(u, stack + [closer], |t|);
  }

  lemma {:induction false} PendingClose(t: string, stack: seq<char>)
    requires stack != [] && Pending(t, stack)
    ensures Pending(t + [stack[|stack| - 1]], stack[..|stack| - 1])
  {
    var closer := stack[|stack| - 1];
    var k :| PendingAt(t, stack, k);
    var w := t[k..] + [closer];
    assert w[1..|w| - 1] == t[k + 1..];
    OnePiece(w, |w| - 1);
    PendingAppend(t[..k], stack[..|stack| - 1], w);
    assert t[..k] + w == t + [closer];
  }

  lemma {:induction false} BodyAppend(a: string, b: string)
    requires StringBody(a) && StringBody(b)
    ensures StringBody(a + b)
    decreases |a|
  {
    if a == [] {
      assert a + b == b;
    } else {
      var n := if a[0] == '\\' then 2 else 1;
      BodyAppend(a[n..], b);
      assert (a + b)[n..] == a[n..] + b;
    }
  }

  lemma {:induction false} PendingQuoteEnds(t: string, stack: seq<char>)
    requires PendingString(t, stack, false)
    ensures Pending(t + "\"", stack)
  {
    var k :| StringFrom(t, stack, false, k);
    var w := t[k..] + "\"";
    assert w[1..|w| - 1] == t[k + 1..];
    OnePiece(w, |w| - 1);
    PendingAppend(t[..k], stack, w);
    assert t[..k] + w == t + "\"";
  }

  lemma {:induction false} PendingStringFeed(t: string, stack: seq<char>, escaped: bool, ch: char)
    requires PendingString(t, stack, escaped) && (escaped || ch != '"')
    ensures PendingString(t + [ch], stack, !escaped && ch == '\\')
  {
    var k :| StringFrom(t, stack, escaped, k);
    var u := t + [ch];
    assert u[..k] == t[..k] && u[k] == '"';
    if escaped {
      var pair := ['\\', ch];
      assert pair[2..] == [];
      BodyAppend(t[k + 1..|t| - 1], pair);
      assert t[k + 1..] == t[k + 1..|t| - 1] + ['\\'];
      assert u[k + 1..] == t[k + 1..] + [ch];
      assert u[k + 1..] == t[k + 1..|t| - 1] + pair;
    } else if ch == '\\' {
      assert u[k + 1..|u| - 1] == t[k + 1..];
    } else {
      assert [ch][1..] == [];
      BodyAppend(t[k + 1..], [ch]);
      assert u[k + 1..] == t[k + 1..] + [ch];
    }
    assert StringFrom(u, stack, !escaped && ch == '\\', k);
  }

  ghost predicate Reads(t: string, s: Scan) {
    if s.inString then PendingString(t, s.stack, s.escaped) else !s.escaped && Pending(t, s.stack)
  }

  /** What the scan's state says about the text read so far, as long as no closer was the wrong one. */
  lemma {:induction false} ScanReads(t: string)
    requires NoMismatch(START, t)
    ensures Reads(t, ScanText(START, t))
  {
    if t != [] {
      var before, ch := t[..|t| - 1], t[|t| - 1];
      ScanReads(before);
      var s := ScanText(START, before);
      assert t == before + [ch];
      if s.inString {
        if !s.escaped && ch == '"' {
          PendingQuoteEnds(before, s.stack);
        } else {
          PendingStringFeed(before, s.stack, s.escaped, ch);
        }
      } else if ch == '"' {
        assert t[..|t| - 1] == before && t[|t|..] == [];
        assert StringFrom(t, s.stack, false, |before|);
      } else if ch == '{' || ch == '[' {
        PendingOpen(before, s.stack, ch, if ch == '{' then '}' else ']');
      } else if ch == '}' || ch == ']' {
        PendingClose(before, s.stack);
      } else {
        assert [ch][1..] == [];
        PendingAppend(before, s.stack, [ch]);
      }
    }
  }

  lemma {:induction false} CloseAll(t: string, stack: seq<char>)
    requires Pending(t, stack)
    ensures WellClosed(t + Reversed(stack))
    decreases |stack|
  {
    if stack == [] {
      assert t + [] == t;
    } else {
      var closer, rest := stack[|stack| - 1], stack[..|stack| - 1];
      PendingClose(t, stack);
      CloseAll(t + [closer], rest);
      assert (t + [closer]) + Reversed(rest) == t + ([closer] + Reversed(rest));
    }
  }

  // ── Stripping the trailing comma ───────────────────────────────────────────

  lemma {:induction false} ScanBlanks(s: Scan, b: string)
    requires forall i :: 0 <= i < |b| ==> b[i] == ',' || IsSpace(b[i])
    ensures ScanText(s, b) == if b == [] then s else s.(escaped := false)
    ensures NoMismatch(s, b)
  {
    if b != [] {
      ScanBlanks(s, b[..|b| - 1]);
    }
  }

  /** What is stripped never changes the brackets and never mismatches. */
  lemma {:induction false} StripNeutral(text: string)
    ensures Stripped(text) <= text
    ensures ScanText(START, text) == if Stripped(text) == text then ScanText(START, text)
        else ScanText(START, Stripped(text)).(escaped := false)
    ensures NoMismatch(START, text) <==> NoMismatch(START, Stripped(text))
  {
    var kept := Stripped(text);
    var cut := text[|kept|..];
    assert text == kept + cut;
    ScanAppend(START, kept, cut);
    NoMismatchAppend(START, kept, cut);
    ScanBlanks(ScanText(START, kept), cut);
  }

  // ── Main results ───────────────────────────────────────────────────────────

  /** The text kept stops right behind an active backslash: the closing quote would be escaped away. */
  ghost predicate DanglingEscape(text: string) {
    ScanText(START, Stripped(text)).escaped
  }

  lemma {:induction false} EscapedOnlyInString(text: string)
    ensures ScanText(START, text).escaped ==> ScanText(START, text).inString
  {
    if text != [] {
      EscapedOnlyInString(text[..|text| - 1]);
    }
  }

  ghost predicate Closers(b: seq<char>) {
    forall i :: 0 <= i < |b| ==> b[i] == '}' || b[i] == ']'
  }

  lemma {:induction false} ClosersOnly(text: string)
    ensures Closers(ScanText(START, text).stack)
  {
    if text != [] {
      ClosersOnly(text[..|text| - 1]);
    }
  }

  lemma {:induction false} ReversedClosers(stack: seq<char>)
    requires Closers(stack)
    ensures Closers(Reversed(stack)) && |Reversed(stack)| == |stack|
  {
    if stack != [] {
      ReversedClosers(stack[..|stack| - 1]);
    }
  }

  lemma {:induction false} ScanClosersInString(s: Scan, b: string)
    requires s.inString && !s.escaped && Closers(b)
    ensures ScanText(s, b) == s
  {
    if b != [] {
      ScanClosersInString(s, b[..|b| - 1]);
    }
  }

  lemma {:induction false} RepairCloses(text: string)
    requires NoMismatch(START, text) && !DanglingEscape(text)
    ensures WellClosed(Closed(text))
  {
    StripNeutral(text);
    var kept := Stripped(text);
    var s := ScanText(START, text);
    var quoted := kept + if s.inString then "\"" else "";
    ScanReads(kept);
    if s.inString {
      PendingQuoteEnds(kept, s.stack);
    } else {
      assert quoted == kept;
    }
    CloseAll(quoted, s.stack);
    assert Closed(text) == quoted + Reversed(s.stack);
  }

  /** A dangling escape swallows the quote, so the string is still open at the end. */
  lemma {:induction false} DanglingStaysOpen(text: string)
    requires DanglingEscape(text)
    ensures ScanText(START, Closed(text)).inString
  {
    StripNeutral(text);
    var kept, s := Stripped(text), ScanText(START, text);
    EscapedOnlyInString(kept);
    var k := ScanText(START, kept);
    ScanAppend(START, kept, "\"");
    ScanOne(k, '"');
    ClosersOnly(text);
    ReversedClosers(s.stack);
    ScanAppend(START, kept + "\"", Reversed(s.stack));
    ScanClosersInString(Feed(k, '"'), Reversed(s.stack));
  }

  lemma {:induction false} ClosedMeansClean(text: string)
    requires WellClosed(Closed(text))
    ensures NoMismatch(START, text) && !DanglingEscape(text)
  {
    var kept, s := Stripped(text), ScanText(START, text);
    var tail := (if s.inString then "\"" else "") + Reversed(s.stack);
    assert Closed(text) == kept + tail;
    assert ScanText(START, kept + tail) == START && NoMismatch(START, kept + tail)
        by { ScanWellClosed(START, Closed(text)); }
    assert NoMismatch(START, kept) by { NoMismatchAppend(START, kept, tail); }
    assert NoMismatch(START, text) by { StripNeutral(text); }
    if DanglingEscape(text) {
      DanglingStaysOpen(text);
      assert false;
    }
  }

  /**
   The repair yields well-closed text exactly when no closer was the wrong one and the text does not stop
   inside an escape.
   */
  lemma {:induction false} RepairIsWellClosedIff(text: string)
    ensures WellClosed(Closed(text)) <==> NoMismatch(START, text) && !DanglingEscape(text)
  {
    if NoMismatch(START, text) && !DanglingEscape(text) {
      RepairCloses(text);
    }
    if WellClosed(Closed(text)) {
      ClosedMeansClean(text);
    }
  }

  /** A closer that is not the one owed next is passed over: the same is owed afterwards as without it. */
  lemma {:induction false} WrongCloserPassedOver(a: string, ch: char, b: string)
    requires Mismatches(ScanText(START, a), ch)
    ensures ScanText(START, a + [ch] + b) == ScanText(START, a + b)
  {
    ScanAppend(START, a, b);
    ScanAppend(START, a + [ch], b);
    ScanAppend(START, a, [ch]);
    ScanOne(ScanText(START, a), ch);
  }

  /**
   The repair only appends to what is kept, and leaves text alone exactly when nothing is pending and no
   comma trails.
   */
  lemma {:induction false} RepairIsIdentityIff(text: string)
    ensures Stripped(text) <= text && Stripped(text) <= Closed(text)
    ensures Closed(text) == text <==>
      ScanText(START, text).stack == [] && !ScanText(START, text).inString && TrailingComma(text).None?
  {
    var s := ScanText(START, text);
    var tail := (if s.inString then "\"" else "") + Reversed(s.stack);
    assert Closed(text) == Stripped(text) + tail;
    ClosersOnly(text);
    ReversedClosers(s.stack);
    if TrailingComma(text).Some? {
      var i := TrailingComma(text).value;
      assert tail == [] || tail[0] != text[i];
    }
  }

  // ── Truncated JSON ─────────────────────────────────────────────────────────

  predicate EndsElement(s: string, end: char, i: int) {
    0 <= i && i + 1 < |s| && s[i] == end && s[i + 1] == ','
  }

  /** `lastIndexOf` of a character with a comma behind it. */
  function LastIndexOf(s: string, end: char): (i: int)
    ensures i == -1 || EndsElement(s, end, i)
    ensures forall j :: EndsElement(s, end, j) ==> j <= i
  {
    if |s| < 2 then -1
    else if EndsElement(s, end, |s| - 2) then |s| - 2
    else
      assert forall j :: EndsElement(s, end, j) ==> EndsElement(s[..|s| - 1], end, j);
      LastIndexOf(s[..|s| - 1], end)
  }

  function Max(x: int, y: int): int {
    if x < y then y else x
  }

  /** Where the last element ends that has another one after it. */
  function LastComplete(s: string): (i: int)
    ensures i < |s|
  {
    Max(LastIndexOf(s, '}'), Max(LastIndexOf(s, ']'), LastIndexOf(s, '"')))
  }

  function Attempt(text: string, parses: string -> bool): Option<string> {
    if parses(Closed(text)) then Some(Closed(text)) else None
  }

  method TryClosing(text: string, parses: string -> bool) returns (repaired: Option<string>)
    ensures repaired == Attempt(text, parses)
  {
    var closed := CloseUnclosedBrackets(text);
    if parses(closed) {
      return Some(closed);
    }
    return None;
  }

  method RepairTruncatedJson(raw: string, parses: string -> bool) returns (result: string)
    ensures result == TruncatedRepaired(raw, parses)
  {
    var s := Stripped(Trim(raw));
    var lastComplete := LastComplete(s);
    if lastComplete > 0 {
      var repaired := TryClosing(s[..lastComplete + 1], parses);
      if repaired.Some? {
        return repaired.value;
      }
    }
    var repaired := TryClosing(s, parses);
    return if repaired.Some? then repaired.value else raw;
  }

  /**
   The part up to the last complete element is tried first, then the whole text; when neither parses the
   input is given back.
   */
  function TruncatedRepaired(raw: string, parses: string -> bool): string {
    var s := Stripped(Trim(raw));
    var end := LastComplete(s);
    var part := if end > 0 then Attempt(s[..end + 1], parses) else None;
    if part.Some? then part.value else Attempt(s, parses).GetOr(raw)
  }

  ghost predicate ClosesPrefix(text: string, result: string) {
    exists t :: t <= text && NoMismatch(START, t) && !DanglingEscape(t) && result == Closed(t)
  }

  /** A successful attempt parses and closes a clean prefix of the text. */
  ghost predicate CleanAttempt(text: string, parses: string -> bool, attempt: Option<string>) {
    attempt.Some? ==> parses(attempt.value) && ClosesPrefix(text, attempt.value)
  }

  lemma {:induction false} AttemptCloses(text: string, part: string, parses: string -> bool)
    requires forall t :: parses(t) ==> WellClosed(t)
    requires part <= text
    ensures CleanAttempt(text, parses, Attempt(part, parses))
  {
    if parses(Closed(part)) {
      RepairIsWellClosedIff(part);
    }
  }

  lemma {:induction false} StrippedIsPrefix(text: string)
    ensures Stripped(text) <= text
  {
    RepairIsIdentityIff(text);
  }

  /**
   For any parser that accepts only well-closed text: what comes back is the input itself or text
   that parses, namely a closed prefix of the input in which no closer was the wrong one and which
   does not stop inside an escape; and whenever closing all of the input parses, what comes back parses.
   */
  lemma {:induction false} TruncatedRepairParses(raw: string, parses: string -> bool)
    requires forall t :: parses(t) ==> WellClosed(t)
    ensures var result := TruncatedRepaired(raw, parses);
      && (result == raw || (parses(result) && ClosesPrefix(Trim(raw), result)))
      && (Attempt(Stripped(Trim(raw)), parses).Some? ==> parses(result))
  {
    var text := Trim(raw);
    var s := Stripped(text);
    var end := LastComplete(s);
    StrippedIsPrefix(text);
    AttemptCloses(text, s, parses);
    if end > 0 {
      AttemptCloses(text, s[..end + 1], parses);
    }
  }

  /** Here an object, an array or a string ends and another element follows. */
  ghost predicate Boundary(s: string, i: int) {
    0 <= i && i + 1 < |s| && (s[i] == '}' || s[i] == ']' || s[i] == '"') && s[i + 1] == ','
  }

  /**
   Which text comes back: the part up to the last boundary, closed, when that parses; otherwise the whole
   text, closed, when that parses; otherwise the input.
   */
  lemma {:induction false} TruncatedRepairIs(raw: string, parses: string -> bool, end: int)
    requires var s := Stripped(Trim(raw));
      end == -1 || Boundary(s, end)
    requires forall i :: Boundary(Stripped(Trim(raw)), i) ==> i <= end
    ensures var s, result := Stripped(Trim(raw)), TruncatedRepaired(raw, parses);
      if end > 0 && parses(Closed(s[..end + 1])) then result == Closed(s[..end + 1])
      else if parses(Closed(s)) then result == Closed(s)
      else result == raw
  {
    var s := Stripped(Trim(raw));
    LastCompleteIs(s, end);
  }

  lemma {:induction false} LastCompleteIs(s: string, end: int)
    requires end == -1 || Boundary(s, end)
    requires forall i :: Boundary(s, i) ==> i <= end
    ensures LastComplete(s) == end
  {
    var a, b, c := LastIndexOf(s, '}'), LastIndexOf(s, ']'), LastIndexOf(s, '"');
    assert a != -1 ==> Boundary(s, a);
    assert b != -1 ==> Boundary(s, b);
    assert c != -1 ==> Boundary(s, c);
    assert end != -1 ==> EndsElement(s, '}', end) || EndsElement(s, ']', end) || EndsElement(s, '"', end);
  }
}
