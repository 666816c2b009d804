/** Reading token usage off a streamed answer, whatever the chunk boundaries, and writing it back out. */
module UsageTaps {
  import opened Wrappers
  import opened SseEvents
  import opened SseText

  // ── Usage objects on the wires ─────────────────────────────────────────────

  /** A JSON field read as a finite number; None when absent or anything else. */
  type Num = Option<int>

  function Max0(x: int): nat {
    if x < 0 then 0 else x
  }

  /** `breakpoints` is the object form of `cache_creation`. */
  datatype AnthropicUsageDoc = AnthropicUsageDoc(input: Num, output: Num, cacheRead: Num, cacheCreation: Num,
      breakpoints: Option<seq<Num>>)

  function SumNum(values: seq<Num>): int {
    if values == [] then 0 else SumNum(values[..|values| - 1]) + values[|values| - 1].GetOr(0)
  }

  function CacheWriteOf(usage: AnthropicUsageDoc): int {
    if usage.cacheCreation.Some? then usage.cacheCreation.value
    else if usage.breakpoints.Some? then SumNum(usage.breakpoints.value)
    else 0
  }

  method ParseUsageCache(usage: AnthropicUsageDoc) returns (cacheRead: int, cacheWrite: int)
    ensures cacheRead == usage.cacheRead.GetOr(0) && cacheWrite == CacheWriteOf(usage)
  {
    cacheRead, cacheWrite := usage.cacheRead.GetOr(0), 0;
    if usage.cacheCreation.Some? {
      cacheWrite := usage.cacheCreation.value;
    } else if usage.breakpoints.Some? {
      var values := usage.breakpoints.value;
      for i := 0 to |values|
        invariant cacheWrite == SumNum(values[..i])
      {
        assert values[..i + 1][..i] == values[..i];
        cacheWrite := cacheWrite + values[i].GetOr(0);
      }
      assert values[..|values|] == values;
    }
  }

  /** One OpenAI usage object: the chat fields and the Responses fields. */
  datatype OpenAIUsageDoc = OpenAIUsageDoc(promptTokens: Num, completionTokens: Num, promptCached: Num,
                                           inputTokens: Num, outputTokens: Num, inputCached: Num)

  function OpenAIFreshInputTokens(usage: OpenAIUsageDoc): nat {
    Max0(usage.promptTokens.GetOr(0) - usage.promptCached.GetOr(0))
  }

  // ── The taps ───────────────────────────────────────────────────────────────

  datatype Usage = Usage(input: int, output: int, cacheRead: int, cacheWrite: int, sawUsage: bool, model: string)

  const NO_USAGE := Usage(0, 0, 0, 0, false, "")

  datatype AnthropicFrame =
    | MessageStart(start: AnthropicUsageDoc)
    | MessageDelta(finalOutput: Num)
    | OtherFrame

  datatype ResponsePart = ResponsePart(model: Option<string>, usage: Option<OpenAIUsageDoc>)

  datatype OpenAIFrame = OpenAIFrame(kind: string, model: Option<string>, usage: Option<OpenAIUsageDoc>,
      response: Option<ResponsePart>)

  /** Which tap: the Anthropic one or an OpenAI one, each with its JSON decoder; None when the text does not parse. */
  datatype Tap =
    | AnthropicTap(decodeAnthropic: string -> Option<AnthropicFrame>)
    | ChatTap(decode: string -> Option<OpenAIFrame>)
    | ResponsesTap(decode: string -> Option<OpenAIFrame>)

  function DelimiterOf(tap: Tap): Delimiter {
    if tap.AnthropicTap? then BlankLine else AnyBlankLine
  }

  function OnAnthropic(u: Usage, f: AnthropicFrame): Usage {
    match f
    case MessageStart(doc) =>
      u.(input := doc.input.GetOr(u.input), output := doc.output.GetOr(u.output),
         cacheRead := doc.cacheRead.GetOr(0), cacheWrite := CacheWriteOf(doc), sawUsage := true)
    case MessageDelta(output) => u.(output := output.GetOr(u.output), sawUsage := true)
    case OtherFrame => u
  }

  function Named(u: Usage, model: Option<string>): Usage {
    if model.Some? && model.value != "" then u.(model := model.value) else u
  }

  function TakeChat(u: Usage, usage: Option<OpenAIUsageDoc>, model: Option<string>): Usage {
    if usage.None? then u
    else Named(u.(input := OpenAIFreshInputTokens(usage.value), output := usage.value.completionTokens.GetOr(0),
                  cacheRead := usage.value.promptCached.GetOr(0), cacheWrite := 0, sawUsage := true), model)
  }

  function TakeResponses(u: Usage, usage: Option<OpenAIUsageDoc>, model: Option<string>): Usage {
    if usage.None? then u
    else Named(u.(input := Max0(usage.value.inputTokens.GetOr(0) - usage.value.inputCached.GetOr(0)),
                  output := usage.value.outputTokens.GetOr(0),
                  cacheRead := usage.value.inputCached.GetOr(0), cacheWrite := 0, sawUsage := true), model)
  }

  function OnChat(u: Usage, f: OpenAIFrame): Usage {
    TakeChat(if u.model == "" then Named(u, f.model) else u, f.usage, f.model)
  }

  function OnResponses(u: Usage, f: OpenAIFrame): Usage {
    if f.response.None? then u
    else if f.kind == "response.completed" then TakeResponses(u, f.response.value.usage, f.response.value.model)
    else if u.model == "" then Named(u, f.response.value.model)
    else u
  }

  function OnEvent(tap: Tap, u: Usage, event: string): Usage {
    match tap
    case AnthropicTap(decode) =>
      (match FirstData(SplitLines(event))
       case None => u
       case Some(data) => match decode(data) case Some(f) => OnAnthropic(u, f) case None => u)
    case _ =>
      match AllData(SplitCrLines(event))
      case None => u
      case Some(data) =>
        if data == "" || data == "[DONE]" then u
        else match tap.decode(data)
          case None => u
          case Some(f) => if tap.ChatTap? then OnChat(u, f) else OnResponses(u, f)
  }

  function OnEvents(tap: Tap, u: Usage, cuts: seq<Cut>): Usage
    decreases |cuts|
  {
    if cuts == [] then u else OnEvents(tap, OnEvent(tap, u, cuts[0].event), cuts[1..])
  }

  datatype State = State(usage: Usage, buffer: string)

  function Feed(tap: Tap, s: State, chunk: string): State {
    var (cuts, rest) := Events(DelimiterOf(tap), s.buffer + chunk);
    State(OnEvents(tap, s.usage, cuts), rest)
  }

  class UsageTap {
    var usage: Usage
    var sseBuf: string
    const tap: Tap

    constructor (tap: Tap)
      ensures this.tap == tap && usage == NO_USAGE && sseBuf == ""
    {
      this.tap := tap;
      usage, sseBuf := NO_USAGE, "";
    }

    method SseChunk(chunk: string)
      modifies this
      ensures State(usage, sseBuf) == Feed(tap, State(old(usage), old(sseBuf)), chunk)
    {
      sseBuf := sseBuf + chunk;
      ghost var goal := Feed(tap, State(old(usage), old(sseBuf)), chunk);
      var idx := Search(DelimiterOf(tap), sseBuf, 0);
      while idx < |sseBuf|
        invariant idx == Search(DelimiterOf(tap), sseBuf, 0)
        invariant goal == State(OnEvents(tap, usage, Events(DelimiterOf(tap), sseBuf).0),
            Events(DelimiterOf(tap), sseBuf).1)
        decreases |sseBuf|
      {
        var n := MatchAt(DelimiterOf(tap), sseBuf, idx);
        ghost var cuts := Events(DelimiterOf(tap), sseBuf).0;
        assert cuts[1..] == Events(DelimiterOf(tap), sseBuf[idx + n..]).0;
        usage := OnEvent(tap, usage, sseBuf[..idx]);
        sseBuf := sseBuf[idx + n..];
        idx := Search(DelimiterOf(tap), sseBuf, 0);
      }
    }
  }

  // ── Chunk boundaries do not matter ─────────────────────────────────────────

  function FeedAll(tap: Tap, s: State, chunks: seq<string>): State {
    if chunks == [] then s else Feed(tap, FeedAll(tap, s, chunks[..|chunks| - 1]), chunks[|chunks| - 1])
  }

  ghost predicate NothingComplete(tap: Tap, buffer: string) {
    Search(DelimiterOf(tap), buffer, 0) == |buffer|
  }

  lemma {:induction false} OnEventsCons(tap: Tap, u: Usage, cut: Cut, more: seq<Cut>)
    ensures OnEvents(tap, u, [cut] + more) == OnEvents(tap, OnEvent(tap, u, cut.event), more)
  {
    assert ([cut] + more)[1..] == more;
  }

  /** Whatever goes over a list from the front, one element at a time, can stop anywhere and go on from there. */
  lemma {:induction false} FrontFoldAppend<U(!new), C(!new)>(run: (U, seq<C>) -> U, step: (U, C) -> U, u: U,
      a: seq<C>, b: seq<C>)
    requires forall v :: run(v, []) == v
    requires forall v, c, more :: run(v, [c] + more) == run(step(v, c), more)
    ensures run(u, a + b) == run(run(u, a), b)
    decreases |a|
  {
    if a == [] {
      assert a + b == b;
    } else {
      var c, rest := a[0], a[1..];
      FrontFoldAppend(run, step, step(u, c), rest, b);
      assert a == [c] + rest && a + b == [c] + (rest + b);
    }
  }

  lemma {:induction false} OnEventsAppend(tap: Tap, u: Usage, a: seq<Cut>, b: seq<Cut>)
    ensures OnEvents(tap, u, a + b) == OnEvents(tap, OnEvents(tap, u, a), b)
  {
    var run := (v: Usage, cuts: seq<Cut>) => OnEvents(tap, v, cuts);
    var step := (v: Usage, cut: Cut) => OnEvent(tap, v, cut.event);
    forall v, cut, more ensures run(v, [cut] + more) == run(step(v, cut), more) {
      OnEventsCons(tap, v, cut, more);
    }
    FrontFoldAppend(run, step, u, a, b);
    assert run(u, a + b) == run(run(u, a), b);
  }

  lemma {:induction false} FeedSplit(tap: Tap, s: State, a: string, b: string)
    ensures Feed(tap, s, a + b) == Feed(tap, Feed(tap, s, a), b)
  {
    var d, text := DelimiterOf(tap), s.buffer + a;
    var first := Events(d, text);
    var later := Events(d, first.1 + b);
    assert s.buffer + (a + b) == text + b;
    assert Events(d, text + b) == (first.0 + later.0, later.1) by {
      EventsSplit(d, text, b);
    }
    OnEventsAppend(tap, s.usage, first.0, later.0);
  }

  /**
   However the text is cut into chunks, the tap ends as if it had come in one piece, and never holds back a
   complete event.
   */
  lemma {:induction false} ChunkingInvariance(tap: Tap, s: State, chunks: seq<string>)
    requires NothingComplete(tap, s.buffer)
    ensures FeedAll(tap, s, chunks) == Feed(tap, s, Concat(chunks))
    ensures NothingComplete(tap, FeedAll(tap, s, chunks).buffer)
  {
    if chunks == [] {
      assert s.buffer + "" == s.buffer;
    } else {
      var before, last := chunks[..|chunks| - 1], chunks[|chunks| - 1];
      ChunkingInvariance(tap, s, before);
      FeedSplit(tap, s, Concat(before), last);
    }
    NothingLost(DelimiterOf(tap), s.buffer + Concat(chunks));
  }

  /** Two ways of cutting the same text agree. */
  lemma {:induction false} SameTextSameUsage(tap: Tap, one: seq<string>, other: seq<string>)
    requires Concat(one) == Concat(other)
    ensures FeedAll(tap, State(NO_USAGE, ""), one) == FeedAll(tap, State(NO_USAGE, ""), other)
  {
    ChunkingInvariance(tap, State(NO_USAGE, ""), one);
    ChunkingInvariance(tap, State(NO_USAGE, ""), other);
  }

  // ── What the taps end with ─────────────────────────────────────────────────

  /** The frames of an Anthropic stream, in order, of the events that carry one. */
  function AnthropicFrames(decode: string -> Option<AnthropicFrame>, cuts: seq<Cut>): seq<AnthropicFrame>
    decreases |cuts|
  {
    if cuts == [] then []
    else
      var later := AnthropicFrames(decode, cuts[1..]);
      var data := FirstData(SplitLines(cuts[0].event));
      if data.Some? && decode(data.value).Some? then [decode(data.value).value] + later else later
  }

  function AfterAnthropic(u: Usage, frames: seq<AnthropicFrame>): Usage {
    if frames == [] then u else OnAnthropic(AfterAnthropic(u, frames[..|frames| - 1]), frames[|frames| - 1])
  }

  lemma {:induction false} AfterAnthropicCons(u: Usage, f: AnthropicFrame, frames: seq<AnthropicFrame>)
    ensures AfterAnthropic(u, [f] + frames) == AfterAnthropic(OnAnthropic(u, f), frames)
  {
    var all := [f] + frames;
    if frames == [] {
      assert all[..|all| - 1] == [];
    } else {
      AfterAnthropicCons(u, f, frames[..|frames| - 1]);
      assert all[..|all| - 1] == [f] + frames[..|frames| - 1];
    }
  }

  lemma {:induction false} AnthropicEvents(decode: string -> Option<AnthropicFrame>, u: Usage, cuts: seq<Cut>)
    ensures OnEvents(AnthropicTap(decode), u, cuts) == AfterAnthropic(u, AnthropicFrames(decode, cuts))
    decreases |cuts|
  {
    if cuts != [] {
      var u1, later := OnEvent(AnthropicTap(decode), u, cuts[0].event), AnthropicFrames(decode, cuts[1..]);
      AnthropicEvents(decode, u1, cuts[1..]);
      var data := FirstData(SplitLines(cuts[0].event));
      if data.Some? && decode(data.value).Some? {
        AfterAnthropicCons(u, decode(data.value).value, later);
      }
    }
  }

  /** The last cumulative output count among the deltas, or what there was before. */
  function LastOutput(frames: seq<AnthropicFrame>, before: int): int {
    if frames == [] then before
    else
      var f := frames[|frames| - 1];
      if f.MessageDelta? && f.finalOutput.Some? then f.finalOutput.value else LastOutput(frames[..|frames| - 1], before)
  }

  ghost predicate NoStart(frames: seq<AnthropicFrame>) {
    forall i :: 0 <= i < |frames| ==> !frames[i].MessageStart?
  }

  lemma {:induction false} DeltasOnly(u: Usage, frames: seq<AnthropicFrame>)
    requires NoStart(frames)
    ensures AfterAnthropic(u, frames).(sawUsage := true) == u.(output := LastOutput(frames, u.output), sawUsage := true)
    ensures u.sawUsage ==> AfterAnthropic(u, frames).sawUsage
  {
    if frames != [] {
      var before := frames[..|frames| - 1];
      assert forall i :: 0 <= i < |before| ==> before[i] == frames[i];
      DeltasOnly(u, before);
    }
  }

  /**
   For every Anthropic stream with one message_start, in any chunks: input and both cache counts are
   the start's, and output is the last cumulative count a delta gave, never a sum.
   */
  lemma {:induction false} AnthropicReads(decode: string -> Option<AnthropicFrame>, chunks: seq<string>,
      doc: AnthropicUsageDoc, before: seq<AnthropicFrame>, after: seq<AnthropicFrame>)
    requires AnthropicFrames(decode, Events(BlankLine, Concat(chunks)).0) == before + [MessageStart(doc)] + after
    requires NoStart(before) && NoStart(after)
    ensures FeedAll(AnthropicTap(decode), State(NO_USAGE, ""), chunks).usage
         == Usage(doc.input.GetOr(0), LastOutput(after, doc.output.GetOr(LastOutput(before, 0))),
                  doc.cacheRead.GetOr(0), CacheWriteOf(doc), true, "")
  {
    var tap, text := AnthropicTap(decode), Concat(chunks);
    ChunkingInvariance(tap, State(NO_USAGE, ""), chunks);
    assert "" + text == text;
    AnthropicEvents(decode, NO_USAGE, Events(BlankLine, text).0);
    DeltasOnly(NO_USAGE, before);
    var upTo := before + [MessageStart(doc)];
    assert upTo[..|upTo| - 1] == before;
    var started := AfterAnthropic(NO_USAGE, upTo);
    AfterAnthropicAppend(NO_USAGE, upTo, after);
    DeltasOnly(started, after);
  }

  /** The items carry the frames, in order. */
  ghost predicate Carry(decode: string -> Option<AnthropicFrame>, items: seq<Item>, frames: seq<AnthropicFrame>) {
    |items| == |frames| && forall i :: 0 <= i < |items| ==>
      OneLiner(items[i]) && decode(items[i].json) == Some(frames[i])
  }

  lemma {:induction false} CarriedFrames(decode: string -> Option<AnthropicFrame>, items: seq<Item>,
      frames: seq<AnthropicFrame>)
    requires Carry(decode, items, frames)
    ensures AnthropicFrames(decode, CutsOf(items)) == frames
  {
    if items != [] {
      CarriedFrames(decode, items[1..], frames[1..]);
      ItemData(items[0]);
      assert CutsOf(items)[1..] == CutsOf(items[1..]);
      assert frames == [frames[0]] + frames[1..];
    }
  }

  /**
   From text to usage on the Anthropic wire: events as the provider writes them, each an `event:` line and a
   `data:` line, in any chunks, end with the start's counts and the last output count a delta gave.
   */
  lemma {:induction false} AnthropicTextRead(decode: string -> Option<AnthropicFrame>, chunks: seq<string>,
      items: seq<Item>, doc: AnthropicUsageDoc, before: seq<AnthropicFrame>, after: seq<AnthropicFrame>)
    requires Carry(decode, items, before + [MessageStart(doc)] + after) && Concat(chunks) == StreamText(items)
    requires NoStart(before) && NoStart(after)
    ensures FeedAll(AnthropicTap(decode), State(NO_USAGE, ""), chunks)
         == State(Usage(doc.input.GetOr(0), LastOutput(after, doc.output.GetOr(LastOutput(before, 0))),
                        doc.cacheRead.GetOr(0), CacheWriteOf(doc), true, ""), "")
  {
    StreamEvents(BlankLine, items);
    CarriedFrames(decode, items, before + [MessageStart(doc)] + after);
    AnthropicReads(decode, chunks, doc, before, after);
    ChunkingInvariance(AnthropicTap(decode), State(NO_USAGE, ""), chunks);
    assert "" + StreamText(items) == StreamText(items);
  }

  /** The write count: the flat number when it is given, else the sum over the breakpoints, else none. */
  lemma {:induction false} CacheWriteIs(doc: AnthropicUsageDoc, a: seq<Num>, x: Num)
    ensures doc.cacheCreation.Some? ==> CacheWriteOf(doc) == doc.cacheCreation.value
    ensures doc.cacheCreation.None? && doc.breakpoints.None? ==> CacheWriteOf(doc) == 0
    ensures doc.cacheCreation.None? && doc.breakpoints == Some([]) ==> CacheWriteOf(doc) == 0
    ensures doc.cacheCreation.None? && doc.breakpoints == Some(a + [x]) ==>
      CacheWriteOf(doc) == CacheWriteOf(doc.(breakpoints := Some(a))) + match x case None => 0 case Some(n) => n
  {
    assert (a + [x])[..|a|] == a;
  }

  lemma {:induction false} AfterAnthropicAppend(u: Usage, a: seq<AnthropicFrame>, b: seq<AnthropicFrame>)
    ensures AfterAnthropic(u, a + b) == AfterAnthropic(AfterAnthropic(u, a), b)
  {
    if b == [] {
      assert a + b == a;
    } else {
      AfterAnthropicAppend(u, a, b[..|b| - 1]);
      assert (a + b)[..|a + b| - 1] == a + b[..|b| - 1];
    }
  }

  /**
   What one OpenAI frame tells its tap: the usage object to take, and the model it names. On the chat
   wire every frame may tell both; on the Responses wire the completed response tells both, when it has
   a usage object, and any other response only its model.
   */
  function Told(tap: Tap, f: OpenAIFrame): ResponsePart {
    if tap.ChatTap? then ResponsePart(f.model, f.usage)
    else if f.response.None? then ResponsePart(None, None)
    else if f.kind != "response.completed" then ResponsePart(f.response.value.model, None)
    else if f.response.value.usage.None? then ResponsePart(None, None)
    else f.response.value
  }

  function OnPart(tap: Tap, u: Usage, part: ResponsePart): Usage {
    var named := if u.model == "" then Named(u, part.model) else u;
    if tap.ChatTap? then TakeChat(named, part.usage, part.model) else TakeResponses(named, part.usage, part.model)
  }

  lemma {:induction false} FrameIsPart(tap: Tap, u: Usage, f: OpenAIFrame)
    requires !tap.AnthropicTap?
    ensures OnPart(tap, u, Told(tap, f)) == if tap.ChatTap? then OnChat(u, f) else OnResponses(u, f)
  {
  }

  /** What a stream tells, in order: every event with data that parses, the end marker aside. */
  function Parts(tap: Tap, cuts: seq<Cut>): seq<ResponsePart>
    requires !tap.AnthropicTap?
    decreases |cuts|
  {
    if cuts == [] then []
    else
      var later := Parts(tap, cuts[1..]);
      var data := AllData(SplitCrLines(cuts[0].event)).GetOr("");
      if data != "" && data != "[DONE]" && tap.decode(data).Some? then [Told(tap, tap.decode(data).value)] + later
          else later
  }

  function AfterParts(tap: Tap, u: Usage, parts: seq<ResponsePart>): Usage {
    if parts == [] then u else OnPart(tap, AfterParts(tap, u, parts[..|parts| - 1]), parts[|parts| - 1])
  }

  lemma {:induction false} AfterPartsCons(tap: Tap, u: Usage, part: ResponsePart, parts: seq<ResponsePart>)
    ensures AfterParts(tap, u, [part] + parts) == AfterParts(tap, OnPart(tap, u, part), parts)
  {
    var all := [part] + parts;
    if parts == [] {
      assert all[..|all| - 1] == [];
    } else {
      AfterPartsCons(tap, u, part, parts[..|parts| - 1]);
      assert all[..|all| - 1] == [part] + parts[..|parts| - 1];
    }
  }

  lemma {:induction false} EventsAsParts(tap: Tap, u: Usage, cuts: seq<Cut>)
    requires !tap.AnthropicTap?
    ensures OnEvents(tap, u, cuts) == AfterParts(tap, u, Parts(tap, cuts))
    decreases |cuts|
  {
    if cuts != [] {
      var u1, later := OnEvent(tap, u, cuts[0].event), Parts(tap, cuts[1..]);
      EventsAsParts(tap, u1, cuts[1..]);
      var data := AllData(SplitCrLines(cuts[0].event)).GetOr("");
      if data != "" && data != "[DONE]" && tap.decode(data).Some? {
        FrameIsPart(tap, u, tap.decode(data).value);
        AfterPartsCons(tap, u, Told(tap, tap.decode(data).value), later);
      }
    }
  }

  /** The last part with a usage object, or the number of parts when none has one. */
  function LastCounted(parts: seq<ResponsePart>): (k: nat)
    ensures k <= |parts|
    ensures k < |parts| ==> parts[k].usage.Some? && forall i :: k < i < |parts| ==> parts[i].usage.None?
    ensures k == |parts| ==> forall i :: 0 <= i < |parts| ==> parts[i].usage.None?
  {
    if parts == [] then 0
    else
      var last := |parts| - 1;
      if parts[last].usage.Some? then last
      else
        var k := LastCounted(parts[..last]);
        assert forall i :: 0 <= i < last ==> parts[..last][i] == parts[i];
        if k == last then |parts| else k
  }

  /** Fresh input (cached tokens taken out), output and cache reads of one usage object, on either wire. */
  function Counts(tap: Tap, doc: OpenAIUsageDoc): (nat, int, int) {
    if tap.ChatTap? then
      (Max0(doc.promptTokens.GetOr(0) - doc.promptCached.GetOr(0)), doc.completionTokens.GetOr(0),
          doc.promptCached.GetOr(0))
    else
      (Max0(doc.inputTokens.GetOr(0) - doc.inputCached.GetOr(0)), doc.outputTokens.GetOr(0), doc.inputCached.GetOr(0))
  }

  ghost predicate CountsRead(tap: Tap, parts: seq<ResponsePart>, u: Usage) {
    var k := LastCounted(parts);
    if k == |parts| then u.(model := "") == NO_USAGE
    else
      var (input, output, cached) := Counts(tap, parts[k].usage.value);
      u.(model := "") == Usage(input, output, cached, 0, true, "")
  }

  ghost predicate Names(part: ResponsePart) {
    part.model.GetOr("") != ""
  }

  /** The model on record is the last one a part with usage names, else the first one any part names. */
  ghost predicate ModelRead(parts: seq<ResponsePart>, model: string) {
    if exists i :: 0 <= i < |parts| && parts[i].usage.Some? && Names(parts[i]) then
      exists i :: 0 <= i < |parts| && parts[i].usage.Some? && parts[i].model == Some(model) && Names(parts[i])
        && forall j :: i < j < |parts| && parts[j].usage.Some? ==> !Names(parts[j])
    else if exists i :: 0 <= i < |parts| && Names(parts[i]) then
      exists i :: 0 <= i < |parts| && parts[i].model == Some(model) && Names(parts[i])
        && forall j :: 0 <= j < i ==> !Names(parts[j])
    else model == ""
  }

  lemma {:induction false} PartCounts(tap: Tap, parts: seq<ResponsePart>)
    ensures CountsRead(tap, parts, AfterParts(tap, NO_USAGE, parts))
  {
    if parts != [] {
      PartCounts(tap, parts[..|parts| - 1]);
    }
  }

  function ModelAfter(model: string, part: ResponsePart): string {
    if part.model.GetOr("") != "" && (part.usage.Some? || model == "") then part.model.value else model
  }

  lemma {:induction false} ModelOneMore(parts: seq<ResponsePart>, model: string, part: ResponsePart)
    requires ModelRead(parts, model)
    ensures ModelRead(parts + [part], ModelAfter(model, part))
  {
    var all := parts + [part];
    assert all[|parts|] == part && forall i :: 0 <= i < |parts| ==> all[i] == parts[i];
  }

  lemma {:induction false} PartModel(tap: Tap, parts: seq<ResponsePart>)
    ensures ModelRead(parts, AfterParts(tap, NO_USAGE, parts).model)
  {
    if parts != [] {
      var before, last := parts[..|parts| - 1], parts[|parts| - 1];
      var u := AfterParts(tap, NO_USAGE, before);
      PartModel(tap, before);
      ModelOneMore(before, u.model, last);
      assert parts == before + [last];
      assert OnPart(tap, u, last).model == ModelAfter(u.model, last);
    }
  }

  lemma {:induction false} OpenAIReads(tap: Tap, chunks: seq<string>)
    requires !tap.AnthropicTap?
    ensures var parts := Parts(tap, Events(AnyBlankLine, Concat(chunks)).0);
      var u := FeedAll(tap, State(NO_USAGE, ""), chunks).usage;
      CountsRead(tap, parts, u) && ModelRead(parts, u.model)
  {
    var text := Concat(chunks);
    ChunkingInvariance(tap, State(NO_USAGE, ""), chunks);
    assert "" + text == text;
    var cuts := Events(AnyBlankLine, text).0;
    EventsAsParts(tap, NO_USAGE, cuts);
    PartCounts(tap, Parts(tap, cuts));
    PartModel(tap, Parts(tap, cuts));
  }

  /** What the items of a stream tell, read off their JSON alone. */
  function PartsOf(tap: Tap, items: seq<Item>): seq<ResponsePart>
    requires !tap.AnthropicTap?
  {
    if items == [] then []
    else
      var later := PartsOf(tap, items[1..]);
      if items[0].json != "[DONE]" && tap.decode(items[0].json).Some?
      then [Told(tap, tap.decode(items[0].json).value)] + later
      else later
  }

  lemma {:induction false} CarriedParts(tap: Tap, items: seq<Item>)
    requires !tap.AnthropicTap? && forall x :: x in items ==> OneLiner(x)
    ensures Parts(tap, CutsOf(items)) == PartsOf(tap, items)
  {
    if items != [] {
      assert items[0] in items;
      CarriedParts(tap, items[1..]);
      ItemData(items[0]);
      assert CutsOf(items)[1..] == CutsOf(items[1..]);
    }
  }

  /** From text to usage on both OpenAI wires: written events, with or without an `event:` line, in any chunks. */
  lemma {:induction false} OpenAITextRead(tap: Tap, chunks: seq<string>, items: seq<Item>)
    requires !tap.AnthropicTap? && Concat(chunks) == StreamText(items) && forall x :: x in items ==> OneLiner(x)
    ensures var s := FeedAll(tap, State(NO_USAGE, ""), chunks);
      s.buffer == "" && CountsRead(tap, PartsOf(tap, items), s.usage) && ModelRead(PartsOf(tap, items), s.usage.model)
  {
    OpenAIReads(tap, chunks);
    StreamEvents(AnyBlankLine, items);
    CarriedParts(tap, items);
    ChunkingInvariance(tap, State(NO_USAGE, ""), chunks);
    assert "" + StreamText(items) == StreamText(items);
  }

  /**
   For every chat stream, in any chunks: the counts are those of the last frame with a usage object,
   never a sum, input counts no cached token, and the model is the last one such a frame names, or
   else the first one any frame names.
   */
  lemma {:induction false} ChatReads(decode: string -> Option<OpenAIFrame>, chunks: seq<string>)
    ensures var tap := ChatTap(decode);
      var parts := Parts(tap, Events(AnyBlankLine, Concat(chunks)).0);
      var u := FeedAll(tap, State(NO_USAGE, ""), chunks).usage;
      CountsRead(tap, parts, u) && ModelRead(parts, u.model)
  {
    OpenAIReads(ChatTap(decode), chunks);
  }

  /**
   For every Responses stream, in any chunks: the counts are those of the last completed response with
   a usage object, and the model is the last one such a response names, or else the first one a
   response under way names.
   */
  lemma {:induction false} ResponsesReads(decode: string -> Option<OpenAIFrame>, chunks: seq<string>)
    ensures var tap := ResponsesTap(decode);
      var parts := Parts(tap, Events(AnyBlankLine, Concat(chunks)).0);
      var u := FeedAll(tap, State(NO_USAGE, ""), chunks).usage;
      CountsRead(tap, parts, u) && ModelRead(parts, u.model)
  {
    OpenAIReads(ResponsesTap(decode), chunks);
  }

  // ── The Responses writer, and reading back what it wrote ───────────────────

  /**
   What the writer is given: the text and number of tool calls of the answer, and fresh input, output and
   cache reads.
   */
  datatype ProviderResult = ProviderResult(content: string, toolCalls: nat, model: string, input: int, output: int,
      cacheRead: int)

  /** `input_tokens` counts cache hits in; they are named apart only when there are some. */
  function WrittenUsage(r: ProviderResult): OpenAIUsageDoc {
    OpenAIUsageDoc(None, None, None, Some(r.input + r.cacheRead), Some(r.output),
        if r.cacheRead != 0 then Some(r.cacheRead) else None)
  }

  function Response(r: ProviderResult): ResponsePart {
    ResponsePart(Some(r.model), Some(WrittenUsage(r)))
  }

  function Plain(kind: string): OpenAIFrame {
    OpenAIFrame(kind, None, None, None)
  }

  /** What the four frames of an output item are. */
  function ItemKind(isMessage: bool, k: nat): string {
    match k
    case 0 => "response.output_item.added"
    case 1 => if isMessage then "response.output_text.delta" else "response.function_call_arguments.delta"
    case 2 => if isMessage then "response.output_text.done" else "response.function_call_arguments.done"
    case _ => "response.output_item.done"
  }

  function ItemFrames(isMessage: bool): seq<OpenAIFrame> {
    seq(4, k requires 0 <= k < 4 => Plain(ItemKind(isMessage, k)))
  }

  ghost predicate NoResponse(frames: seq<OpenAIFrame>) {
    forall i :: 0 <= i < |frames| ==> frames[i].response.None?
  }

  /** The output items of an answer: its text, when it has any, and then its tool calls. */
  function Items(r: ProviderResult): seq<bool> {
    (if r.content != "" then [true] else []) + seq(r.toolCalls, _ => false)
  }

  function FramesOf(items: seq<bool>): seq<OpenAIFrame> {
    if items == [] then [] else FramesOf(items[..|items| - 1]) + ItemFrames(items[|items| - 1])
  }

  lemma {:induction false} FramesSilent(items: seq<bool>)
    ensures NoResponse(FramesOf(items)) && |FramesOf(items)| == 4 * |items|
  {
    if items != [] {
      FramesSilent(items[..|items| - 1]);
    }
  }

  lemma {:induction false} FrameAt(items: seq<bool>, i: nat, k: nat)
    requires i < |items| && k < 4
    ensures 4 * i + k < |FramesOf(items)| && FramesOf(items)[4 * i + k] == Plain(ItemKind(items[i], k))
  {
    var before, last := items[..|items| - 1], items[|items| - 1];
    var frames, four := FramesOf(before), ItemFrames(last);
    FramesSilent(before);
    assert FramesOf(items) == frames + four;
    if i < |before| {
      FrameAt(before, i, k);
      assert before[i] == items[i];
      assert (frames + four)[4 * i + k] == frames[4 * i + k];
    } else {
      assert (frames + four)[|frames| + k] == four[k];
    }
  }

  /** Four frames an item, in order: of its text first, when the answer has any, and then of each tool call. */
  lemma {:induction false} FramesAre(r: ProviderResult, i: nat)
    requires i < r.toolCalls + if r.content != "" then 1 else 0
    ensures var frames, isText := FramesOf(Items(r)), i == 0 && r.content != "";
      && |frames| == 4 * (r.toolCalls + if r.content != "" then 1 else 0)
      && frames[4 * i].kind == "response.output_item.added"
      && (isText ==> frames[4 * i + 1].kind == "response.output_text.delta"
                     && frames[4 * i + 2].kind == "response.output_text.done")
      && (!isText ==> frames[4 * i + 1].kind == "response.function_call_arguments.delta"
                      && frames[4 * i + 2].kind == "response.function_call_arguments.done")
      && frames[4 * i + 3].kind == "response.output_item.done"
  {
    FramesSilent(Items(r));
    FrameAt(Items(r), i, 0);
    FrameAt(Items(r), i, 1);
    FrameAt(Items(r), i, 2);
    FrameAt(Items(r), i, 3);
  }

  lemma {:induction false} OneMoreItem(items: seq<bool>, i: nat)
    requires i < |items|
    ensures FramesOf(items[..i + 1]) == FramesOf(items[..i]) + ItemFrames(items[i])
  {
    assert items[..i + 1][..i] == items[..i];
  }

  /** A frame that carries the whole response. */
  function Carrying(kind: string, r: ProviderResult): OpenAIFrame {
    OpenAIFrame(kind, None, None, Some(Response(r)))
  }

  /** The frames for one buffered result; only the fields a usage reader looks at are kept. */
  method ResponseSseFrames(r: ProviderResult) returns (frames: seq<OpenAIFrame>)
    ensures |frames| == 2 + 4 * (r.toolCalls + if r.content != "" then 1 else 0)
    ensures frames[0] == Carrying("response.created", r)
    ensures frames[|frames| - 1] == Carrying("response.completed", r)
    ensures frames[1..|frames| - 1] == FramesOf(Items(r)) && NoResponse(frames[1..|frames| - 1])
  {
    var output: seq<bool> := if r.content != "" then [true] else [];
    for index := 0 to r.toolCalls
      invariant output == (if r.content != "" then [true] else []) + seq(index, _ => false)
    {
      output := output + [false];
    }
    assert output == Items(r);
    var items: seq<OpenAIFrame> := [];
    for index := 0 to |output|
      invariant items == FramesOf(output[..index])
    {
      OneMoreItem(output, index);
      items := items + ItemFrames(output[index]);
    }
    assert output[..|output|] == output;
    FramesSilent(output);
    frames := [Carrying("response.created", r)] + items
            + [Carrying("response.completed", r)];
    assert frames[1..|frames| - 1] == items;
  }

  /** What is assumed of JSON: an object on one line that decodes to what was encoded. */
  ghost predicate OneLineJson(encode: OpenAIFrame -> string, decode: string -> Option<OpenAIFrame>, f: OpenAIFrame) {
    && decode(encode(f)) == Some(f)
    && |encode(f)| >= 2 && encode(f)[0] == '{' && encode(f)[|encode(f)| - 1] == '}'
    && NoBreak(encode(f)) && NoBreak(f.kind)
  }

  function Written(encode: OpenAIFrame -> string, frames: seq<OpenAIFrame>): seq<Item> {
    if frames == [] then [] else [Item(Some(frames[0].kind), encode(frames[0]))] + Written(encode, frames[1..])
  }

  function OnFrames(u: Usage, frames: seq<OpenAIFrame>): Usage
    decreases |frames|
  {
    if frames == [] then u else OnFrames(OnResponses(u, frames[0]), frames[1..])
  }

  lemma {:induction false} WrittenOneLiners(encode: OpenAIFrame -> string, decode: string -> Option<OpenAIFrame>,
      frames: seq<OpenAIFrame>)
    requires forall f :: f in frames ==> OneLineJson(encode, decode, f)
    ensures forall x :: x in Written(encode, frames) ==> OneLiner(x)
  {
    if frames != [] {
      assert OneLineJson(encode, decode, frames[0]);
      WrittenOneLiners(encode, decode, frames[1..]);
    }
  }

  lemma {:induction false} ItemTaken(decode: string -> Option<OpenAIFrame>, u: Usage, x: Item, f: OpenAIFrame)
    requires OneLiner(x) && x.json[0] == '{' && decode(x.json) == Some(f)
    ensures OnEvent(ResponsesTap(decode), u, ItemText(x)) == OnResponses(u, f)
  {
    ItemData(x);
    assert "[DONE]"[0] == '[';
  }

  lemma {:induction false} WrittenEvents(encode: OpenAIFrame -> string, decode: string -> Option<OpenAIFrame>,
      u: Usage, frames: seq<OpenAIFrame>)
    requires forall f :: f in frames ==> OneLineJson(encode, decode, f)
    ensures OnEvents(ResponsesTap(decode), u, CutsOf(Written(encode, frames))) == OnFrames(u, frames)
    decreases |frames|
  {
    if frames != [] {
      var f := frames[0];
      assert OneLineJson(encode, decode, f);
      var x, later := Item(Some(f.kind), encode(f)), Written(encode, frames[1..]);
      WrittenEvents(encode, decode, OnResponses(u, f), frames[1..]);
      ItemTaken(decode, u, x, f);
      assert Written(encode, frames)[1..] == later;
      OnEventsCons(ResponsesTap(decode), u, Cut(ItemText(x), "\n\n"), CutsOf(later));
    }
  }

  lemma {:induction false} SilentFrames(u: Usage, frames: seq<OpenAIFrame>, last: OpenAIFrame)
    requires NoResponse(frames)
    ensures OnFrames(u, frames + [last]) == OnResponses(u, last)
  {
    if frames == [] {
      assert (frames + [last])[1..] == [];
    } else {
      SilentFrames(u, frames[1..], last);
      assert (frames + [last])[1..] == frames[1..] + [last];
    }
  }

  lemma {:induction false} FramesRead(r: ProviderResult, frames: seq<OpenAIFrame>)
    requires |frames| >= 2 && NoResponse(frames[1..|frames| - 1])
    requires frames[0] == Carrying("response.created", r)
    requires frames[|frames| - 1] == Carrying("response.completed", r)
    ensures OnFrames(NO_USAGE, frames) == Usage(Max0(r.input), r.output, r.cacheRead, 0, true, r.model)
  {
    var last, middle := frames[|frames| - 1], frames[1..|frames| - 1];
    assert frames[1..] == middle + [last];
    var u := OnResponses(NO_USAGE, frames[0]);
    assert "response.created"[10] != "response.completed"[10];
    assert u == NO_USAGE.(model := r.model);
    SilentFrames(u, middle, last);
  }

  /**
   Written and read back: the tap, fed the text the writer produces in any chunks, ends with the
   usage and model the provider reported; only a negative fresh input is lifted to zero.
   */
  lemma {:induction false} WriterReaderRoundTrip(r: ProviderResult, encode: OpenAIFrame -> string,
      decode: string -> Option<OpenAIFrame>, frames: seq<OpenAIFrame>, chunks: seq<string>)
    requires |frames| >= 2 && NoResponse(frames[1..|frames| - 1])
    requires frames[0] == Carrying("response.created", r)
    requires frames[|frames| - 1] == Carrying("response.completed", r)
    requires forall f :: f in frames ==> OneLineJson(encode, decode, f)
    requires Concat(chunks) == StreamText(Written(encode, frames))
    ensures FeedAll(ResponsesTap(decode), State(NO_USAGE, ""), chunks)
         == State(Usage(Max0(r.input), r.output, r.cacheRead, 0, true, r.model), "")
  {
    var tap, start := ResponsesTap(decode), State(NO_USAGE, "");
    var items := Written(encode, frames);
    ChunkingInvariance(tap, start, chunks);
    assert "" + StreamText(items) == StreamText(items);
    WrittenOneLiners(encode, decode, frames);
    StreamEvents(AnyBlankLine, items);
    WrittenEvents(encode, decode, NO_USAGE, frames);
    assert OnFrames(NO_USAGE, frames) == Usage(Max0(r.input), r.output, r.cacheRead, 0, true, r.model) by {
      FramesRead(r, frames);
    }
  }
}
