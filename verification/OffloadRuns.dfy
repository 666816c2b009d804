/** Every run of the offloader: decides that wait and serves that end in any order. */
module OffloadRuns {
  import opened Wrappers
  import opened JsMap
  import opened Bands
  import opened TurnMemory
  import opened TurnLoop
  import opened Offload
  import PromptClassifier
  import opened FiniteSets

  /** The offloader, the decides waiting for their classifier, and the serves under way. */
  datatype World = World(mem: Memories, inFlight: int, waiting: map<nat, Suspended>, running: map<nat, Decision>)

  const START := World(Memories([], []), 0, map[], map[])

  datatype Event =
    | Decide(id: nat, call: Call, now: int)
    | Verdict(id: nat, verdict: PromptClassifier.Verdict, now: int)
    | Serve(id: nat, decision: Decision)
    | Served(id: nat, ok: bool, now: int)

  /**
   Ids name waiting decides and running serves; an event about an id that is not there, or already taken, is
   no event.
   */
  function Next(w: World, e: Event): World {
    match e
    case Decide(id, call, now) =>
      if id in w.waiting then w
      else
        var (mem, o) := Begin(w.mem, w.inFlight, call, now);
        w.(mem := mem, waiting := if o.Waits? then w.waiting[id := o.suspended] else w.waiting)
    case Verdict(id, verdict, now) =>
      if id !in w.waiting then w
      else w.(mem := Offload.Resume(w.mem, w.inFlight, w.waiting[id], verdict, now).0, waiting := w.waiting - {id})
    case Serve(id, decision) =>
      if id in w.running then w
      else w.(inFlight := w.inFlight + 1, running := w.running[id := decision])
    case Served(id, ok, now) =>
      if id !in w.running then w
      else w.(mem := AfterServe(w.mem, w.running[id], ok, now), inFlight := w.inFlight - 1, running := w.running - {id})
  }

  /** What an event decides, and for which call. */
  function Answer(w: World, e: Event): Option<(Call, Decision)> {
    match e
    case Decide(id, call, now) =>
      if id in w.waiting then None
      else (match Begin(w.mem, w.inFlight, call, now).1
            case Decided(d) => Some((call, d))
            case Waits(_) => None)
    case Verdict(id, verdict, now) =>
      if id !in w.waiting then None
      else Some((w.waiting[id].call, Offload.Resume(w.mem, w.inFlight, w.waiting[id], verdict, now).1))
    case _ => None
  }

  function WorldAfter(events: seq<Event>): World {
    if events == [] then START else Next(WorldAfter(events[..|events| - 1]), events[|events| - 1])
  }

  // ── The in-flight count ────────────────────────────────────────────────────

  ghost predicate Sound(w: World) {
    && MemoriesOk(w.mem)
    && w.inFlight == |w.running|
    && forall id :: id in w.waiting ==>
         !InLoop(w.waiting[id].call.msgs) && Gate(w.waiting[id].call).None? && w.waiting[id].call.usable
  }

  lemma {:induction false} RecordedOk(m: Memories, call: Call, d: Decision, now: int)
    requires MemoriesOk(m)
    ensures MemoriesOk(Recorded(m, call, d, now))
  {
    RememberValid(m.turns, TURN_CAP, call.turnKey, RecordOf(d), now);
  }

  lemma {:induction false} NotedOk(m: Memories, call: Call, session: Option<SessionRecord>, band: Band, now: int)
    requires MemoriesOk(m)
    ensures MemoriesOk(NotedSession(m, call, session, band, now))
        && NotedSession(m, call, session, band, now).turns == m.turns
  {
    var next := NextSessionRecord(session, call.turn, band, band in call.cfg.bands);
    if next.Some? {
      RememberValid(m.sessions, TURN_CAP, SessionKey(call), next.value, now);
    }
  }

  lemma {:induction false} ConcludeOk(m: Memories, inFlight: int, call: Call, session: Option<SessionRecord>,
      band: Band, source: BandSource, now: int)
    requires MemoriesOk(m)
    ensures MemoriesOk(Conclude(m, inFlight, call, session, band, source, now).0)
  {
    NotedOk(m, call, session, band, now);
    RecordedOk(NotedSession(m, call, session, band, now), call, FinalGates(call, inFlight, band, source), now);
  }

  lemma {:induction false} BeginOk(m: Memories, inFlight: int, call: Call, now: int)
    requires MemoriesOk(m)
    ensures MemoriesOk(Begin(m, inFlight, call, now).0)
    ensures var o := Begin(m, inFlight, call, now).1;
      o.Waits? ==> !InLoop(call.msgs) && Gate(call).None? && call.usable && o.suspended.call == call
  {
    if Gate(call).None? {
      if !call.usable {
        RecordedOk(m, call, Keep(call, NotReachable, None, NotJudged), now);
      } else if InLoop(call.msgs) {
        RecallValid(m.turns, TURN_CAP, TURN_TTL, call.turnKey, now, now);
      } else {
        RecallValid(m.sessions, TURN_CAP, SESSION_TTL, SessionKey(call), now, now);
        var (sessions, session) := Recall(m.sessions, SESSION_TTL, SessionKey(call), now, now);
        var m1 := m.(sessions := sessions);
        var verdict := SessionVerdict(session, call.turn);
        if verdict.Some? {
          RecordedOk(m1, call, Keep(call, SessionPromoted(verdict.value.promotedAt), Some(verdict.value.band),
              BySession), now);
        } else if !call.cfg.classifier {
          ConcludeOk(m1, inFlight, call, session, call.declared, call.declaredBy, now);
        }
      }
    }
  }

  lemma {:induction false} AfterVerdictOk(m: Memories, inFlight: int, s: Suspended, verdict: PromptClassifier.Verdict,
      now: int)
    requires MemoriesOk(m)
    ensures MemoriesOk(Offload.Resume(m, inFlight, s, verdict, now).0)
  {
    var k := Judged(s.call, verdict);
    ConcludeOk(m, inFlight, s.call, s.session, k.band, if k.changed then ByClassifier else s.call.declaredBy, now);
  }

  lemma {:induction false} OneLess<T>(running: map<nat, T>, id: nat)
    requires id in running
    ensures |running - {id}| == |running| - 1
  {
    assert running.Keys == (running - {id}).Keys + {id};
  }

  lemma {:induction false} ServedOk(w: World, id: nat, ok: bool, now: int)
    requires Sound(w)
    ensures Sound(Next(w, Served(id, ok, now)))
  {
    if id in w.running {
      var d := w.running[id];
      RememberValid(w.mem.turns, TURN_CAP, d.turnKey, FailedRecord(d), now);
      OneLess(w.running, id);
    }
  }

  lemma {:induction false} StepOk(w: World, e: Event)
    requires Sound(w)
    ensures Sound(Next(w, e))
  {
    match e {
      case Decide(id, call, now) =>
        BeginOk(w.mem, w.inFlight, call, now);
      case Verdict(id, verdict, now) =>
        if id in w.waiting {
          AfterVerdictOk(w.mem, w.inFlight, w.waiting[id], verdict, now);
        }
      case Serve(id, decision) =>
      case Served(id, ok, now) =>
        ServedOk(w, id, ok, now);
    }
  }

  /** Over every run the count of calls in flight is the number of serves under way. */
  lemma {:induction false} RunOk(events: seq<Event>)
    ensures Sound(WorldAfter(events)) && WorldAfter(events).inFlight == |WorldAfter(events).running|
  {
    if events != [] {
      RunOk(events[..|events| - 1]);
      StepOk(WorldAfter(events[..|events| - 1]), events[|events| - 1]);
    }
  }

  ghost predicate Admits(w: World, e: Event) {
    Answer(w, e).Some? && Answer(w, e).value.1.offload
  }

  lemma {:induction false} AdmittedBelowLimit(w: World, e: Event)
    requires Admits(w, e)
    ensures w.inFlight < Answer(w, e).value.0.cfg.maxInFlight
  {
  }

  lemma {:induction false} StepInFlight(w: World, e: Event)
    ensures Next(w, e).inFlight <= w.inFlight + (if e.Serve? then 1 else 0)
    ensures Admits(w, e) ==> Next(w, e).inFlight == w.inFlight && !e.Serve?
  {
  }

  /**
   Under one limit, no decision is admitted while an admitted one is still to be served, and only
   admitted decisions are served. Anything else may come in between: serves that end, decides that
   wait, verdicts and decides that keep the call on the provider.
   */
  ghost predicate OneAtATime(w: World, owed: bool, events: seq<Event>, limit: int)
    decreases |events|
  {
    events != [] ==>
      var e, rest := events[0], events[1..];
      if e.Serve? then owed && OneAtATime(Next(w, e), false, rest, limit)
      else if Admits(w, e) then
        !owed && Answer(w, e).value.0.cfg.maxInFlight == limit && OneAtATime(Next(w, e), true, rest, limit)
      else OneAtATime(Next(w, e), owed, rest, limit)
  }

  ghost predicate AlwaysWithin(w: World, events: seq<Event>, limit: int)
    decreases |events|
  {
    w.inFlight <= limit && (events != [] ==> AlwaysWithin(Next(w, events[0]), events[1..], limit))
  }

  /** Then the target never has more calls in flight than the limit, at any moment of the run. */
  lemma {:induction false} InFlightWithinLimit(w: World, owed: bool, events: seq<Event>, limit: int)
    requires w.inFlight + (if owed then 1 else 0) <= limit && OneAtATime(w, owed, events, limit)
    ensures AlwaysWithin(w, events, limit)
    decreases |events|
  {
    if events != [] {
      var e, rest := events[0], events[1..];
      StepInFlight(w, e);
      if Admits(w, e) {
        AdmittedBelowLimit(w, e);
      }
      InFlightWithinLimit(Next(w, e), if e.Serve? then false else owed || Admits(w, e), rest, limit);
    }
  }

  // ── What admitted decisions still owed can do ──────────────────────────────

  /** No further decision is admitted, and no more serves start than are owed. */
  ghost predicate ServesOwed(w: World, owed: nat, events: seq<Event>)
    decreases |events|
  {
    events != [] ==>
      var e, rest := events[0], events[1..];
      if e.Serve? then owed > 0 && ServesOwed(Next(w, e), owed - 1, rest)
      else !Admits(w, e) && ServesOwed(Next(w, e), owed, rest)
  }

  lemma {:induction false} OwedStayWithin(w: World, owed: nat, events: seq<Event>, limit: int)
    requires w.inFlight + owed <= limit && ServesOwed(w, owed, events)
    ensures AlwaysWithin(w, events, limit)
    decreases |events|
  {
    if events != [] {
      StepInFlight(w, events[0]);
      OwedStayWithin(Next(w, events[0]), if events[0].Serve? then owed - 1 else owed, events[1..], limit);
    }
  }

  ghost function SomeDecision(): Decision {
    Decision(true, Moved, None, NotJudged, "", "")
  }

  lemma {:induction false} FreshId(w: World) returns (id: nat)
    ensures id !in w.running
  {
    var ids := set i | i in w.running :: i as int;
    if ids == {} {
      id := 0;
      assert forall i :: i in w.running ==> i as int in ids;
    } else {
      var m := Max(ids + {0});
      id := m + 1;
      assert forall i :: i in w.running ==> i as int in ids + {0};
    }
  }

  /** The owed decisions can all be served at once. */
  lemma {:induction false} ServeAllOwed(w: World, owed: nat, limit: int) returns (events: seq<Event>)
    requires w.inFlight + owed > limit
    ensures ServesOwed(w, owed, events) && !AlwaysWithin(w, events, limit)
    decreases owed
  {
    events := [];
    if owed > 0 && w.inFlight <= limit {
      var id := FreshId(w);
      var e := Serve(id, SomeDecision());
      ServeCounts(w, id, SomeDecision());
      var rest := ServeAllOwed(Next(w, e), owed - 1, limit);
      events := [e] + rest;
      assert events[0] == e && events[1..] == rest;
    }
  }

  /**
   Exactly: the limit is safe from the decisions admitted and not yet served if and only if they fit in what
   is left of it.
   */
  lemma {:induction false} OwedFitIff(w: World, owed: nat, limit: int)
    ensures (forall events :: ServesOwed(w, owed, events) ==> AlwaysWithin(w, events, limit))
        <==> w.inFlight + owed <= limit
  {
    if w.inFlight + owed <= limit {
      forall events | ServesOwed(w, owed, events) ensures AlwaysWithin(w, events, limit) {
        OwedStayWithin(w, owed, events, limit);
      }
    } else {
      var events := ServeAllOwed(w, owed, limit);
    }
  }

  /**
   So one more admission is safe exactly when the calls in flight and the decisions owed are together
   below the limit; the guard before an admission counts only the first of the two.
   */
  lemma {:induction false} AdmissionSafeIff(w: World, owed: nat, e: Event)
    requires Admits(w, e)
    ensures var limit := Answer(w, e).value.0.cfg.maxInFlight;
      && w.inFlight < limit
      && ((forall events :: ServesOwed(Next(w, e), owed + 1, events) ==> AlwaysWithin(Next(w, e), events, limit))
          <==> w.inFlight + owed < limit)
  {
    AdmittedBelowLimit(w, e);
    StepInFlight(w, e);
    OwedFitIff(Next(w, e), owed + 1, Answer(w, e).value.0.cfg.maxInFlight);
  }

  /** A call every gate lets through, in a conversation without a session. */
  ghost predicate Admissible(call: Call) {
    && Gate(call).None? && call.usable && !InLoop(call.msgs) && SessionKey(call) == "" && !call.cfg.classifier
    && call.declared in call.cfg.bands && call.declared in call.cfg.models && call.estTokens <= call.cfg.maxInputTokens
  }

  lemma {:induction false} AdmittedAlone(w: World, id: nat, call: Call, now: int)
    requires Sound(w) && id !in w.waiting && Admissible(call) && w.inFlight < call.cfg.maxInFlight
    ensures Admits(w, Decide(id, call, now))
    ensures var w1 := Next(w, Decide(id, call, now));
      Sound(w1) && w1.inFlight == w.inFlight && w1.waiting == w.waiting && w1.running == w.running
  {
    StepOk(w, Decide(id, call, now));
    LookupKeys(w.mem.sessions, "");
  }

  lemma {:induction false} ServeCounts(w: World, id: nat, d: Decision)
    requires id !in w.running
    ensures Next(w, Serve(id, d)).inFlight == w.inFlight + 1
    ensures Next(w, Serve(id, d)).running == w.running[id := d]
  {
  }

  /**
   Otherwise the limit can be passed: the count grows when a serve starts, not when its decision is made, so
   two decides in a row are both admitted below it.
   */
  lemma {:induction false} TwoAdmittedPassLimit(w: World, i: nat, j: nat, call: Call, now: int, p: nat, q: nat,
      d1: Decision, d2: Decision)
    requires Sound(w) && i !in w.waiting && j !in w.waiting && Admissible(call)
    requires p != q && p !in w.running && q !in w.running
    requires w.inFlight == call.cfg.maxInFlight - 1
    ensures var w1 := Next(w, Decide(i, call, now));
      var w2 := Next(w1, Decide(j, call, now));
      && Admits(w, Decide(i, call, now)) && Admits(w1, Decide(j, call, now))
      && Next(Next(w2, Serve(p, d1)), Serve(q, d2)).inFlight == call.cfg.maxInFlight + 1
  {
    var w1 := Next(w, Decide(i, call, now));
    AdmittedAlone(w, i, call, now);
    var w2 := Next(w1, Decide(j, call, now));
    AdmittedAlone(w1, j, call, now);
    ServeCounts(w2, p, d1);
    ServeCounts(Next(w2, Serve(p, d1)), q, d2);
  }

  const SOLO := Settings(true, {"pi"}, true, {Small}, map[Small := "qwen"], false, 8000, 1)

  function SoloCall(): Call {
    Call(SOLO, true, "pi", true, true, [Message("user", false, 2, "hi")], "turn", "", 0, Small, ByCaller, 10,
        (text: string) => false)
  }

  /**
   From an empty memory, with a limit of one: two decides are admitted, both are served, and two calls are in
   flight.
   */
  lemma {:induction false} LimitPassedTrace()
    ensures var c := SoloCall();
      var w1 := Next(START, Decide(0, c, 0));
      var w2 := Next(w1, Decide(1, c, 0));
      && c.cfg.maxInFlight == 1
      && Admits(START, Decide(0, c, 0)) && Admits(w1, Decide(1, c, 0))
      && Next(Next(w2, Serve(0, Answer(START, Decide(0, c, 0)).value.1)),
          Serve(1, Answer(w1, Decide(1, c, 0)).value.1)).inFlight == 2
  {
    var c := SoloCall();
    assert c.msgs[1..] == [] && c.msgs[..0] == [];
    assert LastHuman(c.msgs) == 0 && !InLoop(c.msgs);
    assert Admissible(c);
    RunOk([]);
    AdmittedAlone(START, 0, c, 0);
    var w1 := Next(START, Decide(0, c, 0));
    AdmittedAlone(w1, 1, c, 0);
    TwoAdmittedPassLimit(START, 0, 1, c, 0, 0, 1, Answer(START, Decide(0, c, 0)).value.1,
        Answer(w1, Decide(1, c, 0)).value.1);
  }

  // ── What an offloaded call may count on ────────────────────────────────────

  ghost predicate SoundDecision(call: Call, inFlight: int, d: Decision) {
    && Gate(call).None? && call.usable && d.turnKey == call.turnKey
    && d.band.Some? && d.band.value in call.cfg.bands
    && d.band.value in call.cfg.models && d.model == call.cfg.models[d.band.value]
    && call.estTokens <= call.cfg.maxInputTokens && inFlight < call.cfg.maxInFlight
    && (InLoop(call.msgs) ==> d.source == ByTurn)
    && (!InLoop(call.msgs) ==>
          || (d.source == call.declaredBy && d.band.value == call.declared)
          || (d.source == ByClassifier && Rank(d.band.value) < Rank(call.declared)))
  }

  lemma {:induction false} BeginSound(m: Memories, inFlight: int, call: Call, now: int)
    ensures var o := Begin(m, inFlight, call, now).1;
      o.Decided? && o.decision.offload ==> SoundDecision(call, inFlight, o.decision)
  {
  }

  lemma {:induction false} ResumeSound(m: Memories, inFlight: int, s: Suspended, verdict: PromptClassifier.Verdict,
      now: int)
    requires Gate(s.call).None? && s.call.usable && !InLoop(s.call.msgs)
    ensures var d := Offload.Resume(m, inFlight, s, verdict, now).1;
      d.offload ==> SoundDecision(s.call, inFlight, d)
  {
    var c := s.call;
    PromptClassifier.DowngradeOnly(true, RouteResolver.OfCaller, c.declared, c.msgs, 20000,
                                   if c.cfg.bands == {} then {Small} else c.cfg.bands, c.vetoes, verdict);
  }

  /**
   An admitted call passed every gate, and runs at an allowed band on the target's own model for it;
   the band is its turn's inside a loop, the declared one or one the classifier lowered otherwise.
   */
  lemma {:induction false} AdmittedIsSound(w: World, e: Event)
    requires Sound(w) && Admits(w, e)
    ensures var (call, d) := Answer(w, e).value; SoundDecision(call, w.inFlight, d)
  {
    match e {
      case Decide(id, call, now) =>
        BeginSound(w.mem, w.inFlight, call, now);
      case Verdict(id, verdict, now) =>
        ResumeSound(w.mem, w.inFlight, w.waiting[id], verdict, now);
      case _ =>
    }
  }

  // ── Exactly when a call is offloaded ───────────────────────────────────────

  /**
   Offload is on, for this agent and with an endpoint, and this is a readable chat request of an agent that
   can be offloaded.
   */
  ghost predicate PastGates(call: Call) {
    && call.cfg.enabled && call.cfg.hasUrl && call.agent in call.cfg.agents
    && (call.agent == "opencode" || call.agent == "pi" || call.agent == "copilot")
    && call.chat && call.readable
  }

  lemma {:induction false} GateIs(call: Call)
    ensures Gate(call).None? <==> PastGates(call)
  {
  }

  /** The band is offloaded, the target has a model for it, the call is small enough, and there is room. */
  ghost predicate BandPasses(call: Call, band: Band, inFlight: int) {
    && band in call.cfg.bands && band in call.cfg.models
    && call.estTokens <= call.cfg.maxInputTokens && inFlight < call.cfg.maxInFlight
  }

  lemma {:induction false} FinalGatesAre(call: Call, inFlight: int, band: Band, source: BandSource)
    ensures var d := FinalGates(call, inFlight, band, source);
      && (d.offload <==> BandPasses(call, band, inFlight))
      && (d.offload ==> d == Decision(true, Moved, Some(band), source, call.cfg.models[band], call.turnKey))
  {
  }

  /** What a reason says of the call, whatever else holds; a call can have several, in the order of their rungs. */
  ghost predicate KeepsHome(call: Call, band: Option<Band>, inFlight: int, reason: Reason) {
    match reason
    case OffloadOff => !call.cfg.enabled
    case NotOffloadable => call.agent != "opencode" && call.agent != "pi" && call.agent != "copilot"
    case OffForAgent => call.agent !in call.cfg.agents
    case NoEndpoint => !call.cfg.hasUrl
    case NotChat => !call.chat
    case NotReadable => !call.readable
    case BandNotOffloaded => band.Some? && band.value !in call.cfg.bands
    case NoModel => band.Some? && band.value !in call.cfg.models
    case TooLarge => band.Some? && call.estTokens > call.cfg.maxInputTokens
    case Busy => band.Some? && inFlight >= call.cfg.maxInFlight
    case _ => false
  }

  ghost function ReasonRung(reason: Reason): nat {
    match reason
    case OffloadOff => 0
    case NotOffloadable => 1
    case OffForAgent => 2
    case NoEndpoint => 3
    case NotChat => 4
    case NotReadable => 5
    case BandNotOffloaded => 6
    case NoModel => 7
    case TooLarge => 8
    case Busy => 9
    case _ => 10
  }

  ghost predicate FirstReason(call: Call, band: Option<Band>, inFlight: int, reason: Reason) {
    KeepsHome(call, band, inFlight, reason)
    && forall other :: KeepsHome(call, band, inFlight, other) ==> ReasonRung(reason) <= ReasonRung(other)
  }

  /** The reason a call is kept for, at the outer gates and at the last ones, is the first of all that hold. */
  lemma {:induction false} KeptReasonIs(call: Call, inFlight: int, band: Band, source: BandSource, reason: Reason)
    ensures Gate(call) == Some(reason) <==> FirstReason(call, None, inFlight, reason)
    ensures PastGates(call) ==>
      var d := FinalGates(call, inFlight, band, source);
      !d.offload && d == Keep(call, reason, Some(band), source) <==> FirstReason(call, Some(band), inFlight, reason)
  {
    GateReasonIs(call, inFlight, reason);
    if PastGates(call) {
      LastReasonIs(call, inFlight, band, source, reason);
    }
  }

  lemma {:induction false} GateReasonIs(call: Call, inFlight: int, reason: Reason)
    ensures Gate(call) == Some(reason) <==> FirstReason(call, None, inFlight, reason)
  {
    if Gate(call).Some? {
      assert KeepsHome(call, None, inFlight, Gate(call).value);
      assert forall other :: KeepsHome(call, None, inFlight, other) ==>
          ReasonRung(Gate(call).value) <= ReasonRung(other);
    } else {
      assert forall other :: !KeepsHome(call, None, inFlight, other);
    }
  }

  lemma {:induction false} LastGateAndReasons(call: Call, inFlight: int, band: Band, source: BandSource, other: Reason)
    requires PastGates(call)
    ensures var d := FinalGates(call, inFlight, band, source);
      && (d.offload ==> !KeepsHome(call, Some(band), inFlight, other))
      && (!d.offload ==>
            && d == Keep(call, d.reason, Some(band), source) && KeepsHome(call, Some(band), inFlight, d.reason)
            && (KeepsHome(call, Some(band), inFlight, other) ==> ReasonRung(d.reason) <= ReasonRung(other)))
  {
  }

  lemma {:induction false} OneReason(call: Call, band: Option<Band>, inFlight: int, a: Reason, b: Reason)
    requires FirstReason(call, band, inFlight, a) && FirstReason(call, band, inFlight, b)
    ensures a == b
  {
    assert ReasonRung(a) == ReasonRung(b);
  }

  lemma {:induction false} LastReasonIs(call: Call, inFlight: int, band: Band, source: BandSource, reason: Reason)
    requires PastGates(call)
    ensures var d := FinalGates(call, inFlight, band, source);
      !d.offload && d == Keep(call, reason, Some(band), source) <==> FirstReason(call, Some(band), inFlight, reason)
  {
    var d := FinalGates(call, inFlight, band, source);
    LastGateAndReasons(call, inFlight, band, source, reason);
    if !d.offload {
      forall other | KeepsHome(call, Some(band), inFlight, other) ensures ReasonRung(d.reason) <= ReasonRung(other) {
        LastGateAndReasons(call, inFlight, band, source, other);
      }
      assert FirstReason(call, Some(band), inFlight, d.reason);
      if FirstReason(call, Some(band), inFlight, reason) {
        OneReason(call, Some(band), inFlight, d.reason, reason);
      }
    }
  }

  /** The turn's record as a loop call finds it: there, and no older than the time to live. */
  ghost predicate LiveTurn(m: Memories, key: string, now: int, rec: TurnRecord) {
    key != "" && Lookup(m.turns, key).Some? && Lookup(m.turns, key).value.record == rec
    && now - Lookup(m.turns, key).value.at <= TURN_TTL
  }

  ghost predicate LoopPasses(m: Memories, inFlight: int, call: Call, now: int, rec: TurnRecord) {
    LiveTurn(m, call.turnKey, now, rec) && rec.offloaded && rec.band.Some? && BandPasses(call, rec.band.value, inFlight)
  }

  lemma {:induction false} LoopBegins(m: Memories, inFlight: int, call: Call, now: int)
    requires MemoriesOk(m) && InLoop(call.msgs)
    ensures var o := Begin(m, inFlight, call, now).1;
      && o.Decided?
      && (o.decision.offload <==>
            PastGates(call) && call.usable && exists rec :: LoopPasses(m, inFlight, call, now, rec))
      && (o.decision.offload ==>
            forall rec :: LiveTurn(m, call.turnKey, now, rec) ==>
              o.decision.band == rec.band && o.decision.source == ByTurn)
  {
    GateIs(call);
    var found := Lookup(m.turns, call.turnKey);
    if call.turnKey != "" && found.Some? && now - found.value.at <= TURN_TTL {
      var rec := found.value.record;
      assert LiveTurn(m, call.turnKey, now, rec);
      if rec.band.Some? {
        FinalGatesAre(call, inFlight, rec.band.value, ByTurn);
      }
      assert (rec.offloaded && rec.band.Some? && BandPasses(call, rec.band.value, inFlight)) ==>
        LoopPasses(m, inFlight, call, now, rec);
    }
  }

  /**
   Exactly: a loop call is offloaded if and only if it gets past the outer gates to a usable target, its
   turn's record is there and young enough and says offloaded, and that record's band passes.
   */
  lemma {:induction false} LoopAdmittedIff(w: World, e: Event)
    requires Sound(w) && e.Decide? && e.id !in w.waiting && InLoop(e.call.msgs)
    ensures Admits(w, e) <==>
      PastGates(e.call) && e.call.usable && exists rec :: LoopPasses(w.mem, w.inFlight, e.call, e.now, rec)
    ensures Admits(w, e) ==>
      exists rec :: LoopPasses(w.mem, w.inFlight, e.call, e.now, rec)
        && Answer(w, e).value.1.band == rec.band && Answer(w, e).value.1.source == ByTurn
  {
    LoopBegins(w.mem, w.inFlight, e.call, e.now);
    if Admits(w, e) {
      var rec :| LoopPasses(w.mem, w.inFlight, e.call, e.now, rec);
      assert LiveTurn(w.mem, e.call.turnKey, e.now, rec);
    }
  }

  /** The session's record, live, is a promotion at an earlier turn. */
  ghost predicate HeldBySession(m: Memories, call: Call, now: int) {
    var found := Lookup(m.sessions, SessionKey(call));
    && SessionKey(call) != "" && found.Some? && now - found.value.at <= SESSION_TTL
    && found.value.record.WasPromoted? && call.turn > found.value.record.promotedAt
  }

  lemma {:induction false} FirstBegins(m: Memories, inFlight: int, call: Call, now: int)
    requires !InLoop(call.msgs)
    ensures var o := Begin(m, inFlight, call, now).1;
      && (o.Waits? <==> PastGates(call) && call.usable && !HeldBySession(m, call, now) && call.cfg.classifier)
      && (o.Decided? ==>
            (o.decision.offload <==>
              && PastGates(call) && call.usable && !HeldBySession(m, call, now) && !call.cfg.classifier
              && BandPasses(call, call.declared, inFlight)))
  {
    GateIs(call);
    FinalGatesAre(call, inFlight, call.declared, call.declaredBy);
  }

  /**
   A first call that is not sent to the classifier is offloaded if and only if it gets past the outer gates
   to a usable target, its session is not promoted, and its declared band passes.
   */
  lemma {:induction false} FirstAdmittedIff(w: World, e: Event)
    requires e.Decide? && e.id !in w.waiting && !InLoop(e.call.msgs)
    ensures Admits(w, e) <==>
      && PastGates(e.call) && e.call.usable && !HeldBySession(w.mem, e.call, e.now) && !e.call.cfg.classifier
      && BandPasses(e.call, e.call.declared, w.inFlight)
    ensures e.id in Next(w, e).waiting <==>
      PastGates(e.call) && e.call.usable && !HeldBySession(w.mem, e.call, e.now) && e.call.cfg.classifier
  {
    FirstBegins(w.mem, w.inFlight, e.call, e.now);
  }

  /** The classifier's word lowers the call to this band. */
  ghost predicate Lowers(call: Call, verdict: PromptClassifier.Verdict, band: Band) {
    && (if call.cfg.bands == {} then band == Small else band in call.cfg.bands)
    && Rank(band) < Rank(call.declared) && verdict == PromptClassifier.Said(Name(band))
    && PromptClassifier.UserBytes(call.msgs) <= 20000
    && PromptClassifier.LastText(call.msgs, 2000) != "" && !call.vetoes(PromptClassifier.LastText(call.msgs, 2000))
  }

  lemma {:induction false} JudgedIs(call: Call, verdict: PromptClassifier.Verdict, band: Band)
    requires !InLoop(call.msgs)
    ensures Lowers(call, verdict, band) <==> Judged(call, verdict) == PromptClassifier.Classified(band, true)
    ensures !Judged(call, verdict).changed ==> Judged(call, verdict).band == call.declared
  {
    PromptClassifier.DowngradeOnly(true, RouteResolver.OfCaller, call.declared, call.msgs, 20000,
        if call.cfg.bands == {} then {Small} else call.cfg.bands, call.vetoes, verdict);
    ParseIs(Name(band));
  }

  /** The band a first call ends up with: the one it was lowered to, or, lowered to none, its declared one. */
  ghost predicate EndsWith(call: Call, verdict: PromptClassifier.Verdict, band: Band) {
    Lowers(call, verdict, band) || (band == call.declared && forall b :: !Lowers(call, verdict, b))
  }

  lemma {:induction false} EndsWithJudged(call: Call, verdict: PromptClassifier.Verdict, band: Band)
    requires !InLoop(call.msgs)
    ensures EndsWith(call, verdict, band) <==> Judged(call, verdict).band == band
  {
    var k := Judged(call, verdict);
    JudgedIs(call, verdict, band);
    JudgedIs(call, verdict, k.band);
    forall b: Band ensures !k.changed ==> !Lowers(call, verdict, b) {
      JudgedIs(call, verdict, b);
    }
  }

  lemma {:induction false} ResumeIs(m: Memories, inFlight: int, s: Suspended, verdict: PromptClassifier.Verdict,
      now: int)
    requires !InLoop(s.call.msgs)
    ensures var d, band := Offload.Resume(m, inFlight, s, verdict, now).1, Judged(s.call, verdict).band;
      (d.offload <==> BandPasses(s.call, band, inFlight)) && (d.offload ==> d.band == Some(band))
  {
    var k := Judged(s.call, verdict);
    FinalGatesAre(s.call, inFlight, k.band, if k.changed then ByClassifier else s.call.declaredBy);
  }

  /** After the wait: the call is offloaded if and only if the band it ends up with passes, and then at that band. */
  lemma {:induction false} VerdictAdmittedIff(w: World, e: Event, band: Band)
    requires Sound(w) && e.Verdict? && e.id in w.waiting && EndsWith(w.waiting[e.id].call, e.verdict, band)
    ensures Admits(w, e) <==> BandPasses(w.waiting[e.id].call, band, w.inFlight)
    ensures Admits(w, e) ==> Answer(w, e).value.1.band == Some(band)
  {
    EndsWithJudged(w.waiting[e.id].call, e.verdict, band);
    ResumeIs(w.mem, w.inFlight, w.waiting[e.id], e.verdict, e.now);
  }

  // ── A turn is decided once ─────────────────────────────────────────────────

  /** The record an event writes for a turn, if it writes one: a first call's decision, or a failed serve. */
  ghost function Writes(w: World, e: Event, key: string): Option<TurnRecord> {
    match e
    case Served(id, ok, now) =>
      if id in w.running && !ok && key != "" && w.running[id].turnKey == key then Some(FailedRecord(w.running[id]))
          else None
    case _ =>
      match Answer(w, e)
      case Some((call, d)) => if !InLoop(call.msgs) && key != "" && d.turnKey == key then Some(RecordOf(d)) else None
      case None => None
  }

  /** The last record written for a turn in a run. */
  ghost function LastWrite(events: seq<Event>, key: string): Option<TurnRecord> {
    if events == [] then None
    else
      var before, e := events[..|events| - 1], events[|events| - 1];
      var written := Writes(WorldAfter(before), e, key);
      if written.Some? then written else LastWrite(before, key)
  }

  ghost predicate LeftAlone(m: Memories, after: Memories, call: Call, now: int, key: string) {
    var left, held := RecordAt(after.turns, key), RecordAt(m.turns, key);
    && after.sessions == m.sessions
    && (left == held ||
          (left == None && key == call.turnKey
           && Lookup(m.turns, key).Some? && now - Lookup(m.turns, key).value.at > TURN_TTL))
  }

  lemma {:induction false} LoopLeavesAlone(m: Memories, inFlight: int, call: Call, now: int, key: string)
    requires MemoriesOk(m) && InLoop(call.msgs)
    ensures LeftAlone(m, Begin(m, inFlight, call, now).0, call, now, key)
    ensures Begin(m, inFlight, call, now).1.Decided?
  {
    RecallRecords(m.turns, TURN_CAP, TURN_TTL, call.turnKey, now, now, key);
  }

  /**
   A loop call writes nothing: it leaves every session and every turn's record as they are, except that
   its own turn's record is dropped when it has expired.
   */
  lemma {:induction false} LoopCallsWriteNothing(w: World, e: Event, key: string)
    requires Sound(w) && e.Decide? && InLoop(e.call.msgs)
    ensures LeftAlone(w.mem, Next(w, e).mem, e.call, e.now, key)
  {
    LoopLeavesAlone(w.mem, w.inFlight, e.call, e.now, key);
  }

  lemma {:induction false} RecordedTurns(m: Memories, call: Call, d: Decision, now: int, key: string)
    requires MemoriesOk(m)
    ensures var after, before := RecordAt(Recorded(m, call, d, now).turns, key), RecordAt(m.turns, key);
      if !InLoop(call.msgs) && key != "" && call.turnKey == key then after == Some(RecordOf(d))
      else after == before || after == None
  {
    RememberRecords(m.turns, TURN_CAP, call.turnKey, RecordOf(d), now, key);
    if key == "" {
      LookupKeys(Remember(m.turns, TURN_CAP, call.turnKey, RecordOf(d), now), "");
      RememberValid(m.turns, TURN_CAP, call.turnKey, RecordOf(d), now);
    }
  }

  lemma {:induction false} ConcludedTurns(m: Memories, inFlight: int, call: Call, session: Option<SessionRecord>,
      band: Band, source: BandSource, now: int, key: string)
    requires MemoriesOk(m) && !InLoop(call.msgs)
    ensures var (after, d) := Conclude(m, inFlight, call, session, band, source, now);
      d.turnKey == call.turnKey &&
      if key != "" && call.turnKey == key then RecordAt(after.turns, key) == Some(RecordOf(d))
      else RecordAt(after.turns, key) == RecordAt(m.turns, key) || RecordAt(after.turns, key) == None
  {
    var noted := NotedSession(m, call, session, band, now);
    NotedOk(m, call, session, band, now);
    RecordedTurns(noted, call, FinalGates(call, inFlight, band, source), now, key);
  }

  /** One decide changes no turn's record but the one it writes; any other either stays or is forgotten. */
  lemma {:induction false} BeginTurns(m: Memories, inFlight: int, call: Call, now: int, key: string)
    requires MemoriesOk(m)
    ensures var (after, o) := Begin(m, inFlight, call, now);
      if o.Decided? && !InLoop(call.msgs) && key != "" && o.decision.turnKey == key
          then RecordAt(after.turns, key) == Some(RecordOf(o.decision))
      else RecordAt(after.turns, key) == RecordAt(m.turns, key) || RecordAt(after.turns, key) == None
  {
    if Gate(call).None? {
      if !call.usable {
        RecordedTurns(m, call, Keep(call, NotReachable, None, NotJudged), now, key);
      } else if InLoop(call.msgs) {
        RecallRecords(m.turns, TURN_CAP, TURN_TTL, call.turnKey, now, now, key);
      } else {
        var (sessions, session) := Recall(m.sessions, SESSION_TTL, SessionKey(call), now, now);
        RecallValid(m.sessions, TURN_CAP, SESSION_TTL, SessionKey(call), now, now);
        var m1 := m.(sessions := sessions);
        var verdict := SessionVerdict(session, call.turn);
        if verdict.Some? {
          RecordedTurns(m1, call, Keep(call, SessionPromoted(verdict.value.promotedAt), Some(verdict.value.band),
              BySession), now, key);
        } else if !call.cfg.classifier {
          ConcludedTurns(m1, inFlight, call, session, call.declared, call.declaredBy, now, key);
        }
      }
    }
  }

  lemma {:induction false} VerdictTurns(m: Memories, inFlight: int, s: Suspended, verdict: PromptClassifier.Verdict,
      now: int, key: string)
    requires MemoriesOk(m) && !InLoop(s.call.msgs)
    ensures var (after, d) := Offload.Resume(m, inFlight, s, verdict, now);
      if key != "" && d.turnKey == key then RecordAt(after.turns, key) == Some(RecordOf(d))
      else RecordAt(after.turns, key) == RecordAt(m.turns, key) || RecordAt(after.turns, key) == None
  {
    var k := Judged(s.call, verdict);
    ConcludedTurns(m, inFlight, s.call, s.session, k.band, if k.changed then ByClassifier else s.call.declaredBy, now,
        key);
  }

  ghost predicate Follows(before: Option<TurnRecord>, written: Option<TurnRecord>, after: Option<TurnRecord>) {
    if written.Some? then after == written else after == before || after == None
  }

  lemma {:induction false} ServedTurns(w: World, id: nat, ok: bool, now: int, key: string)
    requires Sound(w)
    ensures Follows(RecordAt(w.mem.turns, key), Writes(w, Served(id, ok, now), key),
        RecordAt(Next(w, Served(id, ok, now)).mem.turns, key))
  {
    if id in w.running {
      var d := w.running[id];
      RememberRecords(w.mem.turns, TURN_CAP, d.turnKey, FailedRecord(d), now, key);
    }
  }

  lemma {:induction false} StepTurns(w: World, e: Event, key: string)
    requires Sound(w)
    ensures Follows(RecordAt(w.mem.turns, key), Writes(w, e, key), RecordAt(Next(w, e).mem.turns, key))
  {
    match e {
      case Decide(id, call, now) =>
        BeginTurns(w.mem, w.inFlight, call, now, key);
      case Verdict(id, verdict, now) =>
        if id in w.waiting {
          VerdictTurns(w.mem, w.inFlight, w.waiting[id], verdict, now, key);
        }
      case Serve(id, decision) =>
      case Served(id, ok, now) =>
        ServedTurns(w, id, ok, now, key);
    }
  }

  /** Over every run, what the memory holds for a turn is the last record written for it, or nothing. */
  lemma {:induction false} MemoryIsLastWrite(events: seq<Event>, key: string)
    ensures RecordAt(WorldAfter(events).mem.turns, key).Some?
        ==> RecordAt(WorldAfter(events).mem.turns, key) == LastWrite(events, key)
  {
    if events != [] {
      var before, e := events[..|events| - 1], events[|events| - 1];
      MemoryIsLastWrite(before, key);
      RunOk(before);
      StepTurns(WorldAfter(before), e, key);
    }
  }

  lemma {:induction false} LoopDecision(m: Memories, inFlight: int, call: Call, now: int)
    requires MemoriesOk(m) && InLoop(call.msgs)
    ensures var o := Begin(m, inFlight, call, now).1;
      o.Decided? && (o.decision.offload ==>
        var rec := RecordAt(m.turns, call.turnKey);
        rec.Some? && rec.value.offloaded && rec.value.band == o.decision.band && o.decision.source == ByTurn)
  {
    RecallRecords(m.turns, TURN_CAP, TURN_TTL, call.turnKey, now, now, call.turnKey);
  }

  /**
   Over every run, a loop call is offloaded only when the last record written for its turn says
   offloaded, and then at exactly that record's band. In particular, once a serve of the turn has
   failed, none of its loop calls is offloaded until a first call of it is decided again.
   */
  lemma {:induction false} LoopFollowsTurn(events: seq<Event>, e: Event)
    requires e.Decide? && InLoop(e.call.msgs) && Admits(WorldAfter(events), e)
    ensures var rec, d := LastWrite(events, e.call.turnKey), Answer(WorldAfter(events), e).value.1;
      && rec.Some? && rec.value.offloaded && rec.value.band == d.band && d.source == ByTurn
      && rec.value.reason != TargetFailed
  {
    var w, call := WorldAfter(events), e.call;
    assert Sound(w) by { RunOk(events); }
    LoopDecision(w.mem, w.inFlight, call, e.now);
    assert Answer(w, e) == Some((call, Begin(w.mem, w.inFlight, call, e.now).1.decision));
    assert RecordAt(w.mem.turns, call.turnKey) == LastWrite(events, call.turnKey)
        by { MemoryIsLastWrite(events, call.turnKey); }
    assert LastWrite(events, call.turnKey).value.reason == Moved
        by { OffloadedWritesAreDecisions(events, call.turnKey); }
  }

  /**
   Over every run, the exact form: a loop call past the outer gates is offloaded if and only if its turn's
   record is still live, the last record written for the turn says offloaded, and that record's band passes.
   */
  lemma {:induction false} LoopFollowsTurnIff(events: seq<Event>, e: Event)
    requires e.Decide? && InLoop(e.call.msgs) && e.id !in WorldAfter(events).waiting
    ensures var w, rec := WorldAfter(events), LastWrite(events, e.call.turnKey);
      Admits(w, e) <==>
        && PastGates(e.call) && e.call.usable
        && rec.Some? && LiveTurn(w.mem, e.call.turnKey, e.now, rec.value)
        && rec.value.offloaded && rec.value.band.Some? && BandPasses(e.call, rec.value.band.value, w.inFlight)
  {
    var w, key := WorldAfter(events), e.call.turnKey;
    RunOk(events);
    LoopAdmittedIff(w, e);
    assert forall rec :: LiveTurn(w.mem, key, e.now, rec) ==> LastWrite(events, key) == Some(rec) by {
      MemoryIsLastWrite(events, key);
    }
    if rec :| LoopPasses(w.mem, w.inFlight, e.call, e.now, rec) {
      assert LiveTurn(w.mem, key, e.now, rec);
    }
    if LastWrite(events, key).Some? && LoopPasses(w.mem, w.inFlight, e.call, e.now, LastWrite(events, key).value) {
      assert exists rec :: LoopPasses(w.mem, w.inFlight, e.call, e.now, rec);
    }
  }

  /** A first call of the turn is decided. */
  ghost predicate DecidesTurn(w: World, e: Event, key: string) {
    match Answer(w, e)
    case Some((call, d)) => !InLoop(call.msgs) && d.turnKey == key
    case None => false
  }

  /** No first call of the turn is decided in the rest of the run. */
  ghost predicate NotDecidedAgain(before: seq<Event>, later: seq<Event>, key: string)
    decreases |later|
  {
    later == [] ||
    (!DecidesTurn(WorldAfter(before), later[0], key) && NotDecidedAgain(before + [later[0]], later[1..], key))
  }

  lemma {:induction false} UndecidedWrite(w: World, e: Event, key: string)
    requires !DecidesTurn(w, e, key) && Writes(w, e, key).Some?
    ensures Writes(w, e, key).value.reason == TargetFailed
  {
  }

  lemma {:induction false} OneMoreEvent(events: seq<Event>, e: Event, key: string)
    ensures WorldAfter(events + [e]) == Next(WorldAfter(events), e)
    ensures LastWrite(events + [e], key)
         == if Writes(WorldAfter(events), e, key).Some? then Writes(WorldAfter(events), e, key)
             else LastWrite(events, key)
  {
    assert (events + [e])[..|events|] == events;
  }

  ghost predicate FailedLast(events: seq<Event>, key: string) {
    LastWrite(events, key).Some? && LastWrite(events, key).value.reason == TargetFailed
  }

  lemma {:induction false} FailureStep(events: seq<Event>, e: Event, key: string)
    requires FailedLast(events, key) && !DecidesTurn(WorldAfter(events), e, key)
    ensures FailedLast(events + [e], key)
  {
    OneMoreEvent(events, e, key);
    if Writes(WorldAfter(events), e, key).Some? {
      UndecidedWrite(WorldAfter(events), e, key);
    }
  }

  lemma {:induction false} FailureStays(before: seq<Event>, later: seq<Event>, key: string)
    requires FailedLast(before, key) && NotDecidedAgain(before, later, key)
    ensures FailedLast(before + later, key)
    decreases |later|
  {
    if later == [] {
      assert before + later == before;
    } else {
      var e, rest := later[0], later[1..];
      var grown := before + [e];
      assert before + later == grown + rest;
      assert FailedLast(grown, key) by { FailureStep(before, e, key); }
      FailureStays(grown, rest, key);
    }
  }

  /**
   After a serve of a turn failed, no loop call of that turn is offloaded until a first call of it is decided
   again.
   */
  lemma {:induction false} FailedTurnStaysHome(before: seq<Event>, failed: Event, later: seq<Event>, e: Event)
    requires failed.Served? && !failed.ok && failed.id in WorldAfter(before).running
    requires e.Decide? && InLoop(e.call.msgs) && e.call.turnKey != ""
    requires WorldAfter(before).running[failed.id].turnKey == e.call.turnKey
    requires NotDecidedAgain(before + [failed], later, e.call.turnKey)
    ensures !Admits(WorldAfter(before + [failed] + later), e)
  {
    var after, key := before + [failed], e.call.turnKey;
    OneMoreEvent(before, failed, key);
    FailureStays(after, later, key);
    if Admits(WorldAfter(after + later), e) {
      LoopFollowsTurn(after + later, e);
      assert false;
    }
  }

  lemma {:induction false} BeginMoved(m: Memories, inFlight: int, call: Call, now: int)
    ensures var o := Begin(m, inFlight, call, now).1; o.Decided? && o.decision.offload ==> o.decision.reason == Moved
  {
  }

  lemma {:induction false} ResumeMoved(m: Memories, inFlight: int, s: Suspended, verdict: PromptClassifier.Verdict,
      now: int)
    ensures var d := Resume(m, inFlight, s, verdict, now).1; d.offload ==> d.reason == Moved
  {
  }

  lemma {:induction false} OffloadedWriteMoved(w: World, e: Event, key: string)
    ensures Writes(w, e, key).Some? && Writes(w, e, key).value.offloaded ==> Writes(w, e, key).value.reason == Moved
  {
    match e {
      case Decide(id, call, now) => BeginMoved(w.mem, w.inFlight, call, now);
      case Verdict(id, verdict, now) =>
        if id in w.waiting {
          ResumeMoved(w.mem, w.inFlight, w.waiting[id], verdict, now);
        }
      case Serve(id, decision) =>
      case Served(id, ok, now) =>
    }
  }

  lemma {:induction false} OffloadedWritesAreDecisions(events: seq<Event>, key: string)
    ensures LastWrite(events, key).Some? && LastWrite(events, key).value.offloaded
        ==> LastWrite(events, key).value.reason == Moved
  {
    if events != [] {
      var before, e := events[..|events| - 1], events[|events| - 1];
      OffloadedWritesAreDecisions(before, key);
      var w := WorldAfter(before);
      OffloadedWriteMoved(w, e, key);
    }
  }
}
