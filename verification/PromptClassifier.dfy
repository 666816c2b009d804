/** Is a call inside the tool loop of its turn? */
module TurnLoop {

  /** `tool`: the message carries a tool call or a tool result, on either wire. `text` is its trimmed text. */
  datatype Message = Message(role: string, tool: bool, bytes: nat, text: string)

  predicate Human(m: Message) {
    m.role == "user" && !m.tool
  }

  /** Index of the last human message, -1 when there is none. */
  function LastHuman(msgs: seq<Message>): (i: int)
    ensures -1 <= i < |msgs|
    ensures i >= 0 ==> Human(msgs[i])
    ensures forall j :: i < j < |msgs| ==> !Human(msgs[j])
  {
    if msgs == [] then -1
    else if Human(msgs[|msgs| - 1]) then |msgs| - 1
    else
      var before := msgs[..|msgs| - 1];
      assert forall j :: 0 <= j < |before| ==> before[j] == msgs[j];
      LastHuman(before)
  }

  predicate AnyTool(msgs: seq<Message>) {
    exists i | 0 <= i < |msgs| :: msgs[i].tool
  }

  /** The last message that is not a system message is a tool message. */
  predicate EndsInTool(msgs: seq<Message>) {
    msgs != [] &&
    if msgs[|msgs| - 1].role == "system" then EndsInTool(msgs[..|msgs| - 1]) else msgs[|msgs| - 1].tool
  }

  predicate InLoop(msgs: seq<Message>) {
    var h := LastHuman(msgs);
    if h < 0 then AnyTool(msgs) else AnyTool(msgs[h + 1..]) || EndsInTool(msgs[..h])
  }

  method ToolsInCurrentTurn(msgs: seq<Message>) returns (loop: bool)
    ensures loop == InLoop(msgs)
  {
    var lastHuman, i := -1, |msgs| - 1;
    while i >= 0
      invariant -1 <= i < |msgs| && lastHuman == -1
      invariant LastHuman(msgs) <= i
    {
      if Human(msgs[i]) {
        lastHuman := i;
        break;
      }
      i := i - 1;
    }
    assert lastHuman == LastHuman(msgs);
    if lastHuman < 0 {
      return AnyTool(msgs);
    }
    i := lastHuman + 1;
    while i < |msgs|
      invariant lastHuman < i <= |msgs| && !AnyTool(msgs[lastHuman + 1..i])
    {
      if msgs[i].tool {
        assert msgs[lastHuman + 1..][i - lastHuman - 1].tool;
        return true;
      }
      assert msgs[lastHuman + 1..i + 1] == msgs[lastHuman + 1..i] + [msgs[i]];
      i := i + 1;
    }
    assert msgs[lastHuman + 1..i] == msgs[lastHuman + 1..];
    i := lastHuman - 1;
    while i >= 0
      invariant -1 <= i < lastHuman
      invariant EndsInTool(msgs[..lastHuman]) == EndsInTool(msgs[..i + 1])
    {
      assert msgs[..i + 1][..i] == msgs[..i];
      if msgs[i].role == "system" {
        i := i - 1;
        continue;
      }
      return msgs[i].tool;
    }
    return false;
  }

  /** A message of the agent or its tools with a tool call or result, and nothing but system messages after it. */
  ghost predicate LastTool(msgs: seq<Message>, i: nat) {
    && i < |msgs| && msgs[i].tool && msgs[i].role != "system"
    && forall j :: i < j < |msgs| ==> msgs[j].role == "system"
  }

  lemma {:induction false} EndsInToolIs(msgs: seq<Message>)
    ensures EndsInTool(msgs) <==> exists i :: LastTool(msgs, i)
  {
    if msgs != [] {
      var before, last := msgs[..|msgs| - 1], msgs[|msgs| - 1];
      EndsInToolIs(before);
      if last.role == "system" {
        forall i: nat ensures LastTool(before, i) <==> LastTool(msgs, i) {
          assert forall j :: 0 <= j < |before| ==> before[j] == msgs[j];
        }
      } else {
        assert last.tool ==> LastTool(msgs, |msgs| - 1);
        assert forall i :: LastTool(msgs, i) ==> i == |msgs| - 1;
      }
    }
  }

  /** A tool message that no human message follows. */
  ghost predicate ToolSinceHuman(msgs: seq<Message>) {
    exists i :: 0 <= i < |msgs| && msgs[i].tool && forall j :: i < j < |msgs| ==> !Human(msgs[j])
  }

  /** The last human message, at `h`, came straight upon a tool message, system messages aside. */
  ghost predicate HumanUponTool(msgs: seq<Message>, h: nat) {
    && h < |msgs| && Human(msgs[h]) && (forall j :: h < j < |msgs| ==> !Human(msgs[j]))
    && exists i :: LastTool(msgs[..h], i)
  }

  /**
   Inside a loop: a tool message since the last human one, or that one itself came in the middle of a tool
   exchange.
   */
  lemma {:induction false} InLoopIs(msgs: seq<Message>)
    ensures InLoop(msgs) <==> ToolSinceHuman(msgs) || exists h :: HumanUponTool(msgs, h)
  {
    var h := LastHuman(msgs);
    var rest := msgs[h + 1..];
    assert forall i :: 0 <= i < |rest| ==> rest[i] == msgs[h + 1 + i];
    assert AnyTool(rest) <==> ToolSinceHuman(msgs) by {
      if i :| 0 <= i < |rest| && rest[i].tool {
        assert msgs[h + 1 + i].tool;
      }
      if i :| 0 <= i < |msgs| && msgs[i].tool && forall j :: i < j < |msgs| ==> !Human(msgs[j]) {
        assert i > h;
        assert rest[i - h - 1].tool;
      }
    }
    if h < 0 {
      assert rest == msgs;
    } else {
      EndsInToolIs(msgs[..h]);
      assert EndsInTool(msgs[..h]) <==> HumanUponTool(msgs, h);
      assert forall k :: HumanUponTool(msgs, k) ==> k == h;
    }
  }

  lemma {:induction false} LastHumanAppend(msgs: seq<Message>, rest: seq<Message>)
    requires forall i :: 0 <= i < |rest| ==> !Human(rest[i])
    ensures LastHuman(msgs + rest) == LastHuman(msgs)
  {
    var all := msgs + rest;
    assert forall j :: |msgs| <= j < |all| ==> all[j] == rest[j - |msgs|];
    assert forall j :: 0 <= j < |msgs| ==> all[j] == msgs[j];
  }

  lemma {:induction false} AnyToolAppend(a: seq<Message>, b: seq<Message>)
    ensures AnyTool(a + b) <==> AnyTool(a) || AnyTool(b)
  {
    var all := a + b;
    if AnyTool(a) {
      var i :| 0 <= i < |a| && a[i].tool;
      assert all[i].tool;
    }
    if AnyTool(b) {
      var i :| 0 <= i < |b| && b[i].tool;
      assert all[|a| + i].tool;
    }
  }

  /**
   Within a turn: whatever the agent and its tools add, the call is in the loop once any tool message came,
   and stays there.
   */
  lemma {:induction false} LoopWithinTurn(msgs: seq<Message>, rest: seq<Message>)
    requires forall i :: 0 <= i < |rest| ==> !Human(rest[i])
    ensures InLoop(msgs + rest) <==> InLoop(msgs) || AnyTool(rest)
  {
    LastHumanAppend(msgs, rest);
    var h := LastHuman(msgs);
    if h < 0 {
      AnyToolAppend(msgs, rest);
    } else {
      AnyToolAppend(msgs[h + 1..], rest);
      assert (msgs + rest)[h + 1..] == msgs[h + 1..] + rest;
      assert (msgs + rest)[..h] == msgs[..h];
    }
  }

  /**
   Across turns: a new human prompt is judged afresh exactly when the assistant had finished, whatever tools
   earlier turns used.
   */
  lemma {:induction false} LoopAtNewPrompt(msgs: seq<Message>, prompt: Message)
    requires Human(prompt)
    ensures InLoop(msgs + [prompt]) <==> EndsInTool(msgs)
  {
    var all := msgs + [prompt];
    assert LastHuman(all) == |msgs|;
    assert all[|msgs| + 1..] == [] && all[..|msgs|] == msgs;
  }
}

/** Lowering a declared band by looking at the prompt; never raising it. */
module PromptClassifier {
  import opened Wrappers
  import opened Bands
  import opened TurnLoop
  import opened RoutingConfig
  import opened RouteResolver

  // ── What may be classified ─────────────────────────────────────────────────

  function UserBytes(msgs: seq<Message>): nat {
    if msgs == [] then 0
    else UserBytes(msgs[..|msgs| - 1]) + if msgs[|msgs| - 1].role == "user" then msgs[|msgs| - 1].bytes else 0
  }

  /** The caller's band, or a class default standing in for it; a route's own band is never second-guessed. */
  predicate Delegated(source: BandSource) {
    source.OfCaller? || source.OfDefault?
  }

  predicate Eligible(source: BandSource, declared: Band, msgs: seq<Message>, maxBytes: nat) {
    Delegated(source) && declared != Small && !InLoop(msgs) && UserBytes(msgs) <= maxBytes
  }

  method ClassifierEligibility(source: BandSource, declared: Band, msgs: seq<Message>, maxBytes: nat)
      returns (eligible: bool)
    ensures eligible == Eligible(source, declared, msgs, maxBytes)
  {
    if !source.OfCaller? && !source.OfDefault? {
      return false;
    }
    if declared == Small {
      return false;
    }
    var inLoop := ToolsInCurrentTurn(msgs);
    if inLoop {
      return false;
    }
    var bytes := 0;
    for i := 0 to |msgs|
      invariant bytes == UserBytes(msgs[..i])
    {
      assert msgs[..i + 1][..i] == msgs[..i];
      if msgs[i].role == "user" {
        bytes := bytes + msgs[i].bytes;
      }
    }
    assert msgs[..|msgs|] == msgs;
    return bytes <= maxBytes;
  }

  /** The newest user message that has text, capped; "" when none has. */
  function LastText(msgs: seq<Message>, cap: nat): string {
    if msgs == [] then ""
    else
      var m := msgs[|msgs| - 1];
      if m.role == "user" && m.text != "" then (if |m.text| <= cap then m.text else m.text[..cap])
      else LastText(msgs[..|msgs| - 1], cap)
  }

  method LastUserText(msgs: seq<Message>, cap: nat) returns (text: string)
    ensures text == LastText(msgs, cap)
  {
    var i := |msgs| - 1;
    assert msgs[..i + 1] == msgs;
    while i >= 0
      invariant -1 <= i < |msgs| && LastText(msgs, cap) == LastText(msgs[..i + 1], cap)
    {
      assert msgs[..i + 1][..i] == msgs[..i];
      if msgs[i].role == "user" && msgs[i].text != "" {
        return if |msgs[i].text| <= cap then msgs[i].text else msgs[i].text[..cap];
      }
      i := i - 1;
    }
    return "";
  }

  ghost predicate HasText(m: Message) {
    m.role == "user" && m.text != ""
  }

  lemma {:induction false} NoText(msgs: seq<Message>, cap: nat)
    requires forall i :: 0 <= i < |msgs| ==> !HasText(msgs[i])
    ensures LastText(msgs, cap) == ""
  {
    if msgs != [] {
      assert !HasText(msgs[|msgs| - 1]);
      NoText(msgs[..|msgs| - 1], cap);
    }
  }

  /** The text judged is the newest user text there is, cut at the cap. */
  lemma {:induction false} LastTextIs(msgs: seq<Message>, cap: nat, i: nat)
    requires i < |msgs| && HasText(msgs[i]) && forall j :: i < j < |msgs| ==> !HasText(msgs[j])
    ensures LastText(msgs, cap) <= msgs[i].text
    ensures |LastText(msgs, cap)| == if |msgs[i].text| <= cap then |msgs[i].text| else cap
    decreases |msgs|
  {
    var before := msgs[..|msgs| - 1];
    if i < |before| {
      assert !HasText(msgs[|before|]);
      assert before[i] == msgs[i];
      LastTextIs(before, cap, i);
    }
  }

  /** Only what users wrote counts towards the limit. */
  lemma {:induction false} UserBytesAre(msgs: seq<Message>, m: Message)
    ensures UserBytes([]) == 0
    ensures UserBytes(msgs + [m]) == UserBytes(msgs) + if m.role == "user" then m.bytes else 0
  {
    assert (msgs + [m])[..|msgs|] == msgs;
  }

  // ── The cascade ────────────────────────────────────────────────────────────

  /** What stage 2 came back with: no implementation, an error, or some text (trimmed, lower case). */
  datatype Verdict = NoClassifier | Threw | Said(word: string)

  datatype Classified = Classified(band: Band, changed: bool)

  function ApplyDowngrade(declared: Band, verdict: Band): Classified {
    if Rank(verdict) < Rank(declared) then Classified(verdict, true) else Classified(declared, false)
  }

  const TEXT_CAP: nat := 2000

  function ClassifyRequest(enabled: bool, source: BandSource, declared: Band, msgs: seq<Message>, maxBytes: nat,
                           allowed: set<Band>, vetoes: string -> bool, verdict: Verdict): Classified {
    var kept := Classified(declared, false);
    if !enabled || !Eligible(source, declared, msgs, maxBytes) then kept
    else
      var text := LastText(msgs, TEXT_CAP);
      if text == "" || vetoes(text) then kept
      else match verdict
        case NoClassifier => kept
        case Threw => kept
        case Said(word) =>
          match ParseBand(word)
          case None => kept
          case Some(b) => if b in allowed then ApplyDowngrade(declared, b) else kept
  }

  /**
   Whatever stage 2 does, the band changes only to a strictly lower, allowed band it named, and exactly when
   every gate is open; otherwise it is the declared one.
   */
  lemma {:induction false} DowngradeOnly(enabled: bool, source: BandSource, declared: Band, msgs: seq<Message>,
      maxBytes: nat, allowed: set<Band>, vetoes: string -> bool, verdict: Verdict)
    ensures var r := ClassifyRequest(enabled, source, declared, msgs, maxBytes, allowed, vetoes, verdict);
      && Rank(r.band) <= Rank(declared)
      && (!r.changed ==> r.band == declared)
      && (r.changed ==> verdict == Said(Name(r.band)) && r.band in allowed && Rank(r.band) < Rank(declared))
      && (r.changed <==>
            && enabled && (source.OfCaller? || source.OfDefault?) && !InLoop(msgs) && UserBytes(msgs) <= maxBytes
            && LastText(msgs, TEXT_CAP) != "" && !vetoes(LastText(msgs, TEXT_CAP))
            && exists b :: b in allowed && Rank(b) < Rank(declared) && verdict == Said(Name(b)))
  {
    forall b: Band ensures ParseBand(Name(b)) == Some(b) {
      ParseName(b);
    }
  }

  // ── End to end with the resolver ───────────────────────────────────────────

  /** The request as it is resolved a second time, with the verdict in. */
  function Reclassified(req: Request, k: Classified): Request {
    if k.changed then req.(complexity := Name(k.band), classified := true) else req
  }

  /**
   Resolve, classify, resolve again: the final band is exactly the classifier's and never above the
   first one; a route with a band of its own is untouched, and a lowered one is marked as such and
   matches the same entry.
   */
  lemma {:induction false} DowngradeEndToEnd(c: Config, req: Request, enabled: bool, msgs: seq<Message>, maxBytes: nat,
                                             allowed: set<Band>, vetoes: string -> bool, verdict: Verdict)
    requires Accepted(c)
    ensures var r := Resolve(c, req);
      var k := ClassifyRequest(enabled, r.source, r.complexity, msgs, maxBytes, allowed, vetoes, verdict);
      var r2 := Resolve(c, Reclassified(req, k));
      && r2.complexity == k.band && Rank(r2.complexity) <= Rank(r.complexity)
      && r2.matchedKey == r.matchedKey && r2.step == r.step && r2.cls == r.cls
      && (MatchEntry(c, req).entry.complexity.Fixed? ==> r2 == r)
      && (k.changed && !req.inherited ==> r2.source == OfClassifier)
      && (!k.changed ==> r2 == r)
  {
    var r := Resolve(c, req);
    var k := ClassifyRequest(enabled, r.source, r.complexity, msgs, maxBytes, allowed, vetoes, verdict);
    DowngradeOnly(enabled, r.source, r.complexity, msgs, maxBytes, allowed, vetoes, verdict);
    ParseName(k.band);
    SameMatch(c, req, Reclassified(req, k));
  }

  lemma {:induction false} SameMatch(c: Config, req: Request, other: Request)
    requires Accepted(c) && other.job == req.job && other.agent == req.agent
    ensures MatchEntry(c, other) == MatchEntry(c, req)
  {
  }
}
