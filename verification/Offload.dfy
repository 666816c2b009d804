/**
 The offloader: a turn is decided once, a session is promoted once, and a failed target is left
 alone for the rest of the turn. `decide` may wait for the classifier, so it is two steps: up to the
 wait, and after it; `serve` is two steps as well.
 */
module Offload {
  import opened Wrappers
  import opened Bands
  import opened TurnMemory
  import opened TurnLoop
  import PromptClassifier
  import RouteResolver

  // ── Values ─────────────────────────────────────────────────────────────────

  const OFFLOAD_AGENTS: set<string> := {"opencode", "pi", "copilot"}

  /** A normalized configuration; `models` holds the non-empty ones. */
  datatype Settings = Settings(enabled: bool, agents: set<string>, hasUrl: bool, bands: set<Band>,
      models: map<Band, string>, classifier: bool, maxInputTokens: int, maxInFlight: int)

  datatype BandSource = NotJudged | BySession | ByTurn | ByCaller | ByModel | ByClassifier

  datatype Reason =
    | Moved
    | OffloadOff | NotOffloadable | OffForAgent | NoEndpoint | NotChat | NotReadable
    | NotReachable | SessionPromoted(since: int) | FirstCallNotSeen | FirstCallKept(why: Reason)
    | BandNotOffloaded | NoModel | TooLarge | Busy | TargetFailed

  /** One request as `decide` sees it, with the configuration and the target's health at that moment. */
  datatype Call = Call(cfg: Settings, usable: bool, agent: string, chat: bool, readable: bool, msgs: seq<Message>,
                       turnKey: string, conversation: string, turn: int,
                       declared: Band, declaredBy: BandSource, estTokens: int, vetoes: string -> bool)

  datatype Decision = Decision(offload: bool, reason: Reason, band: Option<Band>, source: BandSource, model: string,
      turnKey: string)

  datatype TurnRecord = TurnRecord(offloaded: bool, band: Option<Band>, source: BandSource, reason: Reason)

  datatype SessionRecord = WasOffloaded(band: Band, turn: int) | WasPromoted(band: Band, promotedAt: int)

  // ── The session rules ──────────────────────────────────────────────────────

  /** Only a promotion decides, and only for turns after the one that caused it. */
  function SessionVerdict(record: Option<SessionRecord>, turn: int): Option<SessionRecord> {
    if record.Some? && record.value.WasPromoted? && turn > record.value.promotedAt then record else None
  }

  function NextSessionRecord(record: Option<SessionRecord>, turn: int, band: Band,
      offloadable: bool): Option<SessionRecord> {
    if record.Some? && record.value.WasPromoted? then None
    else if offloadable then Some(WasOffloaded(band, turn))
    else if record.Some? then Some(WasPromoted(band, turn))
    else None
  }

  // ── decide ─────────────────────────────────────────────────────────────────

  const TURN_CAP: nat := 2000
  const TURN_TTL: int := 1_800_000
  const SESSION_TTL: int := 7_200_000

  datatype Memories = Memories(turns: Memory<TurnRecord>, sessions: Memory<SessionRecord>)

  /** A decide waiting for its classifier, with the session record it read before. */
  datatype Suspended = Suspended(call: Call, session: Option<SessionRecord>)

  datatype Outcome = Decided(decision: Decision) | Waits(suspended: Suspended)

  function Keep(call: Call, reason: Reason, band: Option<Band>, source: BandSource): Decision {
    Decision(false, reason, band, source, "", call.turnKey)
  }

  /** The gates before a call is looked at; a call they stop leaves no trace. */
  function Gate(call: Call): Option<Reason> {
    if !call.cfg.enabled then Some(OffloadOff)
    else if call.agent !in OFFLOAD_AGENTS then Some(NotOffloadable)
    else if call.agent !in call.cfg.agents then Some(OffForAgent)
    else if !call.cfg.hasUrl then Some(NoEndpoint)
    else if !call.chat then Some(NotChat)
    else if !call.readable then Some(NotReadable)
    else None
  }

  function RecordOf(d: Decision): TurnRecord {
    TurnRecord(d.offload, d.band, d.source, d.reason)
  }

  /** A first call records what it got; a loop call records nothing. */
  function Recorded(m: Memories, call: Call, d: Decision, now: int): Memories {
    if InLoop(call.msgs) then m
    else m.(turns := Remember(m.turns, TURN_CAP, call.turnKey, RecordOf(d), now))
  }

  /** The session a first call belongs to; loop calls have none. */
  function SessionKey(call: Call): string {
    if InLoop(call.msgs) || call.conversation == "" || call.turn <= 0 then ""
    else (if call.agent == "" then "-" else call.agent) + ":" + call.conversation
  }

  /** One session for one agent and one conversation; none for a loop call or a request without either. */
  lemma {:induction false} SessionKeyIs(a: Call, b: Call)
    requires a.agent in OFFLOAD_AGENTS && b.agent in OFFLOAD_AGENTS
    ensures SessionKey(a) != "" <==> !InLoop(a.msgs) && a.conversation != "" && a.turn > 0
    ensures SessionKey(a) != "" && SessionKey(b) != "" ==>
      (SessionKey(a) == SessionKey(b) <==> a.agent == b.agent && a.conversation == b.conversation)
  {
    var x, y := a.agent + ":" + a.conversation, b.agent + ":" + b.conversation;
    assert ':' !in "opencode" && ':' !in "pi" && ':' !in "copilot";
    assert x[|a.agent|] == ':' && y[|b.agent|] == ':';
    if x == y {
      assert forall i :: 0 <= i < |a.agent| ==> x[i] == a.agent[i];
      assert forall i :: 0 <= i < |b.agent| ==> y[i] == b.agent[i];
      assert |a.agent| == |b.agent|;
      assert x[..|a.agent|] == a.agent && y[..|b.agent|] == b.agent;
      assert x[|a.agent| + 1..] == a.conversation && y[|b.agent| + 1..] == b.conversation;
    }
  }

  /**
   What a judged first call puts on record for its session: its band and turn as offloaded when the band is;
   a promotion when it is not and the session had been; nothing once it is promoted.
   */
  lemma {:induction false} NextRecordIs(record: Option<SessionRecord>, turn: int, band: Band, offloadable: bool,
      next: SessionRecord)
    ensures NextSessionRecord(record, turn, band, offloadable) == Some(next) <==>
      || (next == WasOffloaded(band, turn) && offloadable && (record.None? || record.value.WasOffloaded?))
      || (next == WasPromoted(band, turn) && !offloadable && record.Some? && record.value.WasOffloaded?)
  {
  }

  /** The gates that are about this call alone. */
  function FinalGates(call: Call, inFlight: int, band: Band, source: BandSource): Decision {
    if band !in call.cfg.bands then Keep(call, BandNotOffloaded, Some(band), source)
    else if band !in call.cfg.models then Keep(call, NoModel, Some(band), source)
    else if call.estTokens > call.cfg.maxInputTokens then Keep(call, TooLarge, Some(band), source)
    else if inFlight >= call.cfg.maxInFlight then Keep(call, Busy, Some(band), source)
    else Decision(true, Moved, Some(band), source, call.cfg.models[band], call.turnKey)
  }

  /** The session's record after a judged first call. */
  function NotedSession(m: Memories, call: Call, session: Option<SessionRecord>, band: Band, now: int): Memories {
    if SessionKey(call) == "" then m
    else match NextSessionRecord(session, call.turn, band, band in call.cfg.bands)
      case None => m
      case Some(next) => m.(sessions := Remember(m.sessions, TURN_CAP, SessionKey(call), next, now))
  }

  /** From the judged band to the decision. */
  function Conclude(m: Memories, inFlight: int, call: Call, session: Option<SessionRecord>, band: Band,
      source: BandSource, now: int): (Memories, Decision) {
    var d := FinalGates(call, inFlight, band, source);
    (Recorded(NotedSession(m, call, session, band, now), call, d, now), d)
  }

  /** Up to the wait for the classifier, or to the end when there is nothing to wait for. */
  function Begin(m: Memories, inFlight: int, call: Call, now: int): (Memories, Outcome) {
    if Gate(call).Some? then (m, Decided(Keep(call, Gate(call).value, None, NotJudged).(turnKey := "")))
    else if !call.usable then
      var d := Keep(call, NotReachable, None, NotJudged);
      (Recorded(m, call, d, now), Decided(d))
    else if InLoop(call.msgs) then
      var (turns, record) := Recall(m.turns, TURN_TTL, call.turnKey, now, now);
      var m1 := m.(turns := turns);
      match record
      case None => (m1, Decided(Keep(call, FirstCallNotSeen, None, NotJudged)))
      case Some(turn) =>
        if !turn.offloaded then (m1, Decided(Keep(call, FirstCallKept(turn.reason), None, NotJudged)))
        else if turn.band.None? then (m1, Decided(Keep(call, BandNotOffloaded, None, ByTurn)))
        else (m1, Decided(FinalGates(call, inFlight, turn.band.value, ByTurn)))
    else
      var (sessions, session) := Recall(m.sessions, SESSION_TTL, SessionKey(call), now, now);
      var m1 := m.(sessions := sessions);
      match SessionVerdict(session, call.turn)
      case Some(promoted) =>
        var d := Keep(call, SessionPromoted(promoted.promotedAt), Some(promoted.band), BySession);
        (Recorded(m1, call, d, now), Decided(d))
      case None =>
        if call.cfg.classifier then (m1, Waits(Suspended(call, session)))
        else
          var (m2, d) := Conclude(m1, inFlight, call, session, call.declared, call.declaredBy, now);
          (m2, Decided(d))
  }

  function Judged(call: Call, verdict: PromptClassifier.Verdict): PromptClassifier.Classified {
    PromptClassifier.ClassifyRequest(true, RouteResolver.OfCaller, call.declared, call.msgs, 20000,
                                     if call.cfg.bands == {} then {Small} else call.cfg.bands, call.vetoes, verdict)
  }

  /** After the wait. */
  function Resume(m: Memories, inFlight: int, s: Suspended, verdict: PromptClassifier.Verdict,
      now: int): (Memories, Decision) {
    var k := Judged(s.call, verdict);
    Conclude(m, inFlight, s.call, s.session, k.band, if k.changed then ByClassifier else s.call.declaredBy, now)
  }

  // ── serve ──────────────────────────────────────────────────────────────────

  function FailedRecord(d: Decision): TurnRecord {
    TurnRecord(false, d.band, d.source, TargetFailed)
  }

  /** The rest of a turn whose target failed follows the call to the provider. */
  function AfterServe(m: Memories, d: Decision, served: bool, now: int): Memories {
    if served then m else m.(turns := Remember(m.turns, TURN_CAP, d.turnKey, FailedRecord(d), now))
  }

  // ── The object ─────────────────────────────────────────────────────────────

  ghost predicate MemoriesOk(m: Memories) {
    Valid(m.turns, TURN_CAP) && Valid(m.sessions, TURN_CAP)
  }

  class Offloader {
    var inFlight: int
    const turnBands: TurnBandMemory<TurnRecord>
    const sessionBands: TurnBandMemory<SessionRecord>

    ghost predicate Ok()
      reads this, turnBands, sessionBands
    {
      && turnBands.Ok() && turnBands.cap == TURN_CAP && turnBands.ttlMs == TURN_TTL
      && sessionBands.Ok() && sessionBands.cap == TURN_CAP && sessionBands.ttlMs == SESSION_TTL
    }

    ghost function Now(): Memories
      reads turnBands, sessionBands
    {
      Memories(turnBands.entries, sessionBands.entries)
    }

    constructor ()
      ensures Ok() && fresh(turnBands) && fresh(sessionBands) && inFlight == 0 && Now() == Memories([], [])
    {
      inFlight := 0;
      turnBands := new TurnBandMemory<TurnRecord>(TURN_CAP, TURN_TTL);
      sessionBands := new TurnBandMemory<SessionRecord>(TURN_CAP, SESSION_TTL);
    }

    method Record(call: Call, d: Decision, now: int)
      requires Ok()
      modifies turnBands
      ensures Ok() && Now() == Recorded(old(Now()), call, d, now)
    {
      var inLoop := ToolsInCurrentTurn(call.msgs);
      if !inLoop {
        turnBands.RememberRecord(call.turnKey, RecordOf(d), now);
      }
    }

    method ConcludeDecide(call: Call, session: Option<SessionRecord>, band: Band, source: BandSource, now: int)
        returns (d: Decision)
      requires Ok()
      modifies turnBands, sessionBands
      ensures Ok() && (Now(), d) == Conclude(old(Now()), inFlight, call, session, band, source, now)
    {
      if SessionKey(call) != "" {
        var next := NextSessionRecord(session, call.turn, band, band in call.cfg.bands);
        if next.Some? {
          sessionBands.RememberRecord(SessionKey(call), next.value, now);
        }
      }
      d := FinalGates(call, inFlight, band, source);
      Record(call, d, now);
    }

    method DecideUntilWait(call: Call, now: int) returns (o: Outcome)
      requires Ok()
      modifies turnBands, sessionBands
      ensures Ok() && (Now(), o) == Begin(old(Now()), inFlight, call, now)
    {
      var gate := Gate(call);
      if gate.Some? {
        return Decided(Keep(call, gate.value, None, NotJudged).(turnKey := ""));
      }
      if !call.usable {
        Record(call, Keep(call, NotReachable, None, NotJudged), now);
        return Decided(Keep(call, NotReachable, None, NotJudged));
      }
      var inLoop := ToolsInCurrentTurn(call.msgs);
      if inLoop {
        var turn := turnBands.RecallRecord(call.turnKey, now, now);
        if turn.None? {
          return Decided(Keep(call, FirstCallNotSeen, None, NotJudged));
        }
        if !turn.value.offloaded {
          return Decided(Keep(call, FirstCallKept(turn.value.reason), None, NotJudged));
        }
        if turn.value.band.None? {
          return Decided(Keep(call, BandNotOffloaded, None, ByTurn));
        }
        return Decided(FinalGates(call, inFlight, turn.value.band.value, ByTurn));
      }
      var session := sessionBands.RecallRecord(SessionKey(call), now, now);
      var promoted := SessionVerdict(session, call.turn);
      if promoted.Some? {
        var d := Keep(call, SessionPromoted(promoted.value.promotedAt), Some(promoted.value.band), BySession);
        Record(call, d, now);
        return Decided(d);
      }
      if call.cfg.classifier {
        return Waits(Suspended(call, session));
      }
      var d := ConcludeDecide(call, session, call.declared, call.declaredBy, now);
      return Decided(d);
    }

    method DecideAfterWait(s: Suspended, verdict: PromptClassifier.Verdict, now: int) returns (d: Decision)
      requires Ok()
      modifies turnBands, sessionBands
      ensures Ok() && (Now(), d) == Resume(old(Now()), inFlight, s, verdict, now)
    {
      var k := Judged(s.call, verdict);
      d := ConcludeDecide(s.call, s.session, k.band, if k.changed then ByClassifier else s.call.declaredBy, now);
    }

    method ServeBegins()
      modifies `inFlight
      ensures inFlight == old(inFlight) + 1
    {
      inFlight := inFlight + 1;
    }

    method ServeEnds(d: Decision, served: bool, now: int)
      requires Ok()
      modifies `inFlight, turnBands
      ensures Ok() && Now() == AfterServe(old(Now()), d, served, now)
      ensures inFlight == old(inFlight) - 1
    {
      if !served && d.turnKey != "" {
        turnBands.RememberRecord(d.turnKey, FailedRecord(d), now);
      }
      inFlight := inFlight - 1;
    }
  }
}
