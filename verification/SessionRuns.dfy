/** A session is promoted once: what holds over runs, and what overlapping decides break. */
module SessionRuns {
  import opened Wrappers
  import opened JsMap
  import opened Bands
  import opened TurnMemory
  import opened TurnLoop
  import opened Offload
  import PromptClassifier
  import opened OffloadRuns

  ghost function SessionAt(w: World, key: string): Option<SessionRecord> {
    RecordAt(w.mem.sessions, key)
  }

  // ── One step and one session's record ──────────────────────────────────────

  lemma {:induction false} ConcludedSessions(m: Memories, inFlight: int, call: Call, session: Option<SessionRecord>,
      band: Band, source: BandSource, now: int, key: string)
    requires MemoriesOk(m) && key != ""
    ensures var after := RecordAt(Conclude(m, inFlight, call, session, band, source, now).0.sessions, key);
      var next := NextSessionRecord(session, call.turn, band, band in call.cfg.bands);
      if SessionKey(call) == key && next.Some? then after == next
      else after == RecordAt(m.sessions, key) || after == None
  {
    var next := NextSessionRecord(session, call.turn, band, band in call.cfg.bands);
    if SessionKey(call) != "" && next.Some? {
      RememberRecords(m.sessions, TURN_CAP, SessionKey(call), next.value, now, key);
    }
  }

  /** What a decide that waits has read, and what any decide leaves for sessions other than its own. */
  lemma {:induction false} BeginSessions(m: Memories, inFlight: int, call: Call, now: int, key: string)
    requires MemoriesOk(m) && key != ""
    ensures var (after, o) := Begin(m, inFlight, call, now);
      && (SessionKey(call) != key ==>
            RecordAt(after.sessions, key) == RecordAt(m.sessions, key) || RecordAt(after.sessions, key) == None)
      && (o.Waits? ==> o.suspended.call == call)
      && (o.Waits? && SessionKey(call) == key ==>
            o.suspended.session == RecordAt(after.sessions, key)
            && (o.suspended.session.Some? ==> o.suspended.session == RecordAt(m.sessions, key)))
  {
    if Gate(call).None? && call.usable && !InLoop(call.msgs) {
      RecallRecords(m.sessions, TURN_CAP, SESSION_TTL, SessionKey(call), now, now, key);
      var (sessions, session) := Recall(m.sessions, SESSION_TTL, SessionKey(call), now, now);
      RecallValid(m.sessions, TURN_CAP, SESSION_TTL, SessionKey(call), now, now);
      var m1 := m.(sessions := sessions);
      if SessionVerdict(session, call.turn).None? && !call.cfg.classifier {
        ConcludedSessions(m1, inFlight, call, session, call.declared, call.declaredBy, now, key);
      }
    }
  }

  /** The record is there and young enough to be recalled. */
  ghost predicate Unexpired(m: Memories, key: string, now: int) {
    Lookup(m.sessions, key).Some? && now - Lookup(m.sessions, key).value.at <= SESSION_TTL
  }

  lemma {:induction false} BeginPromoted(m: Memories, inFlight: int, call: Call, now: int)
    requires MemoriesOk(m) && SessionKey(call) != "" && Unexpired(m, SessionKey(call), now)
    requires RecordAt(m.sessions, SessionKey(call)).value.WasPromoted?
    ensures var (after, o) := Begin(m, inFlight, call, now);
      var rec := RecordAt(m.sessions, SessionKey(call));
      && (RecordAt(after.sessions, SessionKey(call)) == rec || RecordAt(after.sessions, SessionKey(call)) == None)
      && (Gate(call).None? && call.usable && call.turn > rec.value.promotedAt ==>
            o == Decided(Keep(call, SessionPromoted(rec.value.promotedAt), Some(rec.value.band), BySession)))
  {
    var key := SessionKey(call);
    if Gate(call).None? && call.usable {
      RecallRecords(m.sessions, TURN_CAP, SESSION_TTL, key, now, now, key);
      var (sessions, session) := Recall(m.sessions, SESSION_TTL, key, now, now);
      RecallValid(m.sessions, TURN_CAP, SESSION_TTL, key, now, now);
      if SessionVerdict(session, call.turn).None? && !call.cfg.classifier {
        ConcludedSessions(m.(sessions := sessions), inFlight, call, session, call.declared, call.declaredBy, now, key);
      }
    }
  }

  // ── Decides of one session that do not overlap ─────────────────────────────

  ghost predicate WaitingFor(w: World, id: nat, key: string) {
    id in w.waiting && SessionKey(w.waiting[id].call) == key
  }

  /** No decide of a session starts while another one of it still waits for its classifier. */
  ghost predicate NonOverlapping(w: World, e: Event, key: string) {
    e.Decide? && e.id !in w.waiting && SessionKey(e.call) == key ==> forall id :: !WaitingFor(w, id, key)
  }

  ghost predicate Orderly(events: seq<Event>, key: string) {
    events == [] ||
    (Orderly(events[..|events| - 1], key)
        && NonOverlapping(WorldAfter(events[..|events| - 1]), events[|events| - 1], key))
  }

  /** At most one decide of the session waits, and what it read is still on record, unless nothing is. */
  ghost predicate Fresh(w: World, key: string) {
    && (forall i, j :: WaitingFor(w, i, key) && WaitingFor(w, j, key) ==> i == j)
    && (forall i :: WaitingFor(w, i, key) ==> SessionAt(w, key) == None || SessionAt(w, key) == w.waiting[i].session)
  }

  lemma {:induction false} VerdictSessions(w: World, e: Event, key: string)
    requires Sound(w) && key != "" && e.Verdict? && e.id in w.waiting
    ensures var s := w.waiting[e.id];
      var band := Judged(s.call, e.verdict).band;
      var next := NextSessionRecord(s.session, s.call.turn, band, band in s.call.cfg.bands);
      if SessionKey(s.call) == key && next.Some? then SessionAt(Next(w, e), key) == next
      else SessionAt(Next(w, e), key) == SessionAt(w, key) || SessionAt(Next(w, e), key) == None
  {
    var s := w.waiting[e.id];
    var k := Judged(s.call, e.verdict);
    var source := if k.changed then ByClassifier else s.call.declaredBy;
    ConcludedSessions(w.mem, w.inFlight, s.call, s.session, k.band, source, e.now, key);
  }

  lemma {:induction false} DecideFresh(w: World, id: nat, call: Call, now: int, key: string)
    requires Sound(w) && key != "" && Fresh(w, key) && id !in w.waiting && NonOverlapping(w, Decide(id, call, now), key)
    ensures Fresh(Next(w, Decide(id, call, now)), key)
  {
    var w1 := Next(w, Decide(id, call, now));
    var (mem, o) := Begin(w.mem, w.inFlight, call, now);
    BeginSessions(w.mem, w.inFlight, call, now, key);
    forall i | WaitingFor(w1, i, key)
      ensures i == id || WaitingFor(w, i, key)
      ensures SessionAt(w1, key) == None || SessionAt(w1, key) == w1.waiting[i].session
    {
      if i == id {
        assert w1.waiting[id] == o.suspended;
      } else {
        assert WaitingFor(w, i, key);
      }
    }
  }

  lemma {:induction false} VerdictFresh(w: World, e: Event, key: string)
    requires Sound(w) && key != "" && Fresh(w, key) && e.Verdict? && e.id in w.waiting
    ensures Fresh(Next(w, e), key)
  {
    var w1 := Next(w, e);
    VerdictSessions(w, e, key);
    forall i | WaitingFor(w1, i, key)
      ensures WaitingFor(w, i, key) && i != e.id && w1.waiting[i] == w.waiting[i]
      ensures SessionAt(w1, key) == None || SessionAt(w1, key) == w1.waiting[i].session
    {
      assert WaitingFor(w, i, key);
      assert !WaitingFor(w, e.id, key);
    }
  }

  lemma {:induction false} StepFresh(w: World, e: Event, key: string)
    requires Sound(w) && key != "" && Fresh(w, key) && NonOverlapping(w, e, key)
    ensures Fresh(Next(w, e), key)
  {
    if e.Decide? {
      if e.id !in w.waiting {
        DecideFresh(w, e.id, e.call, e.now, key);
      }
    } else if e.Verdict? {
      if e.id in w.waiting {
        VerdictFresh(w, e, key);
      }
    } else {
      var w1 := Next(w, e);
      assert w1.waiting == w.waiting && w1.mem.sessions == w.mem.sessions;
      assert forall i :: WaitingFor(w1, i, key) <==> WaitingFor(w, i, key);
    }
  }

  lemma {:induction false} RunFresh(events: seq<Event>, key: string)
    requires key != "" && Orderly(events, key)
    ensures Fresh(WorldAfter(events), key)
  {
    if events != [] {
      var before, e := events[..|events| - 1], events[|events| - 1];
      RunFresh(before, key);
      RunOk(before);
      StepFresh(WorldAfter(before), e, key);
    }
  }

  // ── Promotion is absorbing ─────────────────────────────────────────────────

  /** A first call of the session that gets past the outer gates, and so asks for the session's record. */
  ghost predicate AsksForSession(w: World, e: Event, key: string) {
    e.Decide? && e.id !in w.waiting && SessionKey(e.call) == key && Gate(e.call).None? && e.call.usable
  }

  /** The session's record is not lost in this step: not expired when it is asked for, not evicted. */
  ghost predicate Survives(w: World, e: Event, key: string) {
    && (AsksForSession(w, e, key) ==> Unexpired(w.mem, key, e.now))
    && SessionAt(Next(w, e), key).Some?
  }

  ghost predicate SurvivesAll(w: World, events: seq<Event>, key: string)
    decreases |events|
  {
    events != [] ==> Survives(w, events[0], key) && SurvivesAll(Next(w, events[0]), events[1..], key)
  }

  /**
   The event is the verdict on a decide that had read something else than a promotion, and what it
   writes is not the record there is: an offloaded record for an allowed band, or another promotion
   of a session it had found offloaded.
   */
  ghost predicate Overwrites(w: World, e: Event, key: string, promotion: SessionRecord) {
    e.Verdict? && WaitingFor(w, e.id, key) &&
    var s := w.waiting[e.id];
    var band := Judged(s.call, e.verdict).band;
    && (s.session.None? || s.session.value.WasOffloaded?)
    && (band in s.call.cfg.bands || (s.session.Some? && WasPromoted(band, s.call.turn) != promotion))
  }

  /** Every decide of the session that waits has read the promotion. */
  ghost predicate NoneStale(w: World, key: string, promotion: SessionRecord) {
    forall id :: WaitingFor(w, id, key) ==> w.waiting[id].session == Some(promotion)
  }

  lemma {:induction false} GateLeavesSessions(m: Memories, inFlight: int, call: Call, now: int)
    requires Gate(call).Some? || !call.usable
    ensures Begin(m, inFlight, call, now).0.sessions == m.sessions && Begin(m, inFlight, call, now).1.Decided?
  {
  }

  lemma {:induction false} PromotedDecide(w: World, e: Event, key: string)
    requires Sound(w) && key != "" && e.Decide? && e.id !in w.waiting && Survives(w, e, key)
    requires SessionAt(w, key).Some? && SessionAt(w, key).value.WasPromoted?
    ensures SessionAt(Next(w, e), key) == SessionAt(w, key)
  {
    if AsksForSession(w, e, key) {
      BeginPromoted(w.mem, w.inFlight, e.call, e.now);
    } else if SessionKey(e.call) == key {
      GateLeavesSessions(w.mem, w.inFlight, e.call, e.now);
    } else {
      BeginSessions(w.mem, w.inFlight, e.call, e.now, key);
    }
  }

  /** Step by step: a surviving promotion is kept exactly unless a stale verdict writes over it. */
  lemma {:induction false} PromotedStepIff(w: World, e: Event, key: string, promotion: SessionRecord)
    requires Sound(w) && key != "" && Survives(w, e, key)
    requires promotion.WasPromoted? && SessionAt(w, key) == Some(promotion)
    ensures SessionAt(Next(w, e), key) == Some(promotion) <==> !Overwrites(w, e, key, promotion)
  {
    match e {
      case Decide(id, call, now) =>
        if id !in w.waiting {
          PromotedDecide(w, e, key);
        }
      case Verdict(id, verdict, now) =>
        if id in w.waiting {
          VerdictSessions(w, e, key);
        }
      case Serve(id, decision) =>
      case Served(id, ok, now) =>
    }
  }

  /** The promotion is on record at every moment of the run. */
  ghost predicate KeptThroughout(w: World, events: seq<Event>, key: string, promotion: SessionRecord)
    decreases |events|
  {
    && SessionAt(w, key) == Some(promotion)
    && (events != [] ==> KeptThroughout(Next(w, events[0]), events[1..], key, promotion))
  }

  ghost predicate NeverOverwritten(w: World, events: seq<Event>, key: string, promotion: SessionRecord)
    decreases |events|
  {
    events != [] ==>
      !Overwrites(w, events[0], key, promotion) && NeverOverwritten(Next(w, events[0]), events[1..], key, promotion)
  }

  /**
   Over every run from every state, whatever overlaps: a promotion whose record survives is kept
   throughout if and only if no verdict on a decide that had read something else writes over it.
   */
  lemma {:induction false} PromotionKeptIff(w: World, events: seq<Event>, key: string, promotion: SessionRecord)
    requires Sound(w) && key != "" && SurvivesAll(w, events, key)
    requires promotion.WasPromoted? && SessionAt(w, key) == Some(promotion)
    ensures KeptThroughout(w, events, key, promotion) <==> NeverOverwritten(w, events, key, promotion)
    decreases |events|
  {
    if events != [] {
      var e, rest := events[0], events[1..];
      var w1 := Next(w, e);
      StepOk(w, e);
      PromotedStepIff(w, e, key, promotion);
      if !Overwrites(w, e, key, promotion) {
        PromotionKeptIff(w1, rest, key, promotion);
      }
    }
  }

  /** Who waits after an event waited before, or is the decide that has just begun to. */
  lemma {:induction false} WaitersOf(w: World, e: Event, id: nat)
    requires id in Next(w, e).waiting
    ensures id in w.waiting ==> Next(w, e).waiting[id] == w.waiting[id]
    ensures id !in w.waiting ==>
      && e.Decide? && e.id == id && Begin(w.mem, w.inFlight, e.call, e.now).1.Waits?
      && Next(w, e).waiting[id] == Begin(w.mem, w.inFlight, e.call, e.now).1.suspended
      && Next(w, e).mem == Begin(w.mem, w.inFlight, e.call, e.now).0
  {
  }

  /** A decide that starts to wait after the promotion has read it, so none becomes stale later. */
  lemma {:induction false} NoneStaleStep(w: World, e: Event, key: string, promotion: SessionRecord)
    requires Sound(w) && key != "" && Survives(w, e, key)
    requires promotion.WasPromoted? && SessionAt(w, key) == Some(promotion) && NoneStale(w, key, promotion)
    ensures NoneStale(Next(w, e), key, promotion) && SessionAt(Next(w, e), key) == Some(promotion)
  {
    assert !Overwrites(w, e, key, promotion);
    PromotedStepIff(w, e, key, promotion);
    var w1 := Next(w, e);
    forall id | WaitingFor(w1, id, key) ensures w1.waiting[id].session == Some(promotion) {
      WaitersOf(w, e, id);
      if id in w.waiting {
        assert WaitingFor(w, id, key);
      } else {
        BeginSessions(w.mem, w.inFlight, e.call, e.now, key);
      }
    }
  }

  /** A first call of the session that gets past the outer gates and finds the record. */
  ghost predicate ReachesSession(w: World, e: Event, key: string) {
    AsksForSession(w, e, key) && key != "" && Unexpired(w.mem, key, e.now)
  }

  ghost predicate KeptOnProvider(w: World, e: Event, key: string, promotion: SessionRecord)
    requires promotion.WasPromoted?
  {
    ReachesSession(w, e, key) && e.call.turn > promotion.promotedAt ==>
      Answer(w, e) == Some((e.call, Keep(e.call, SessionPromoted(promotion.promotedAt), Some(promotion.band),
          BySession)))
  }

  /** While the promotion is on record, every first call at a later turn is kept on the provider, unjudged. */
  lemma {:induction false} PromotedKeepsCalls(w: World, key: string, promotion: SessionRecord)
    requires Sound(w) && promotion.WasPromoted? && SessionAt(w, key) == Some(promotion)
    ensures forall e: Event :: KeptOnProvider(w, e, key, promotion)
  {
    forall e: Event ensures KeptOnProvider(w, e, key, promotion) {
      if ReachesSession(w, e, key) {
        BeginPromoted(w.mem, w.inFlight, e.call, e.now);
      }
    }
  }

  ghost function RunFrom(w: World, events: seq<Event>): World
    decreases |events|
  {
    if events == [] then w else RunFrom(Next(w, events[0]), events[1..])
  }

  /**
   Over every run, with no order asked of it: once no decide of the session waits with an older
   reading, the promotion never changes while its record survives, none becomes stale again, and
   every first call at a later turn that gets past the outer gates is kept on the provider, unjudged.
   */
  lemma {:induction false} PromotionAbsorbing(w: World, events: seq<Event>, key: string, promotion: SessionRecord)
    requires Sound(w) && key != "" && SurvivesAll(w, events, key)
    requires promotion.WasPromoted? && SessionAt(w, key) == Some(promotion) && NoneStale(w, key, promotion)
    ensures var end := RunFrom(w, events);
      && SessionAt(end, key) == Some(promotion) && NoneStale(end, key, promotion)
      && forall e: Event :: KeptOnProvider(end, e, key, promotion)
    decreases |events|
  {
    if events == [] {
      PromotedKeepsCalls(w, key, promotion);
    } else {
      StepOk(w, events[0]);
      NoneStaleStep(w, events[0], key, promotion);
      PromotionAbsorbing(Next(w, events[0]), events[1..], key, promotion);
    }
  }

  /** Decides of the session that did not overlap up to its promotion leave none stale. */
  lemma {:induction false} OrderlyNoneStale(events: seq<Event>, key: string, promotion: SessionRecord)
    requires key != "" && Orderly(events, key) && SessionAt(WorldAfter(events), key) == Some(promotion)
    ensures NoneStale(WorldAfter(events), key, promotion)
  {
    RunFresh(events, key);
  }

  // ── Decides that do overlap ────────────────────────────────────────────────

  /** A first call that reaches the classifier of a session on record as offloaded. */
  ghost predicate GoesToClassifier(w: World, id: nat, call: Call, now: int, key: string) {
    && id !in w.waiting && key != "" && SessionKey(call) == key
    && Gate(call).None? && call.usable && call.cfg.classifier
    && Unexpired(w.mem, key, now) && SessionAt(w, key).value.WasOffloaded?
  }

  lemma {:induction false} BeginWaits(m: Memories, inFlight: int, call: Call, now: int, key: string)
    requires MemoriesOk(m) && key != "" && SessionKey(call) == key
    requires Gate(call).None? && call.usable && call.cfg.classifier
    requires Unexpired(m, key, now) && RecordAt(m.sessions, key).value.WasOffloaded?
    ensures var rec := RecordAt(m.sessions, key);
      Begin(m, inFlight, call, now)
        == (m.(sessions := Put(Delete(m.sessions, key), key, Stamped(rec.value, now))), Waits(Suspended(call, rec)))
  {
  }

  lemma {:induction false} ClassifierReads(w: World, id: nat, call: Call, now: int, key: string)
    requires Sound(w) && GoesToClassifier(w, id, call, now, key)
    ensures var w1 := Next(w, Decide(id, call, now));
      && Sound(w1) && w1.waiting == w.waiting[id := Suspended(call, SessionAt(w, key))]
      && Lookup(w1.mem.sessions, key) == Some(Stamped(SessionAt(w, key).value, now))
  {
    StepOk(w, Decide(id, call, now));
    BeginWaits(w.mem, w.inFlight, call, now, key);
    PutEffect(Delete(w.mem.sessions, key), key, Stamped(SessionAt(w, key).value, now));
  }

  /**
   Without that order the promise fails: two decides of one session wait at once, the first is
   judged above the offloaded bands and promotes it, the second writes back an offloaded record from
   what it had read before, and the promotion is gone.
   */
  lemma {:induction false} OverlapLosesPromotion(w: World, i: nat, j: nat, a: Call, b: Call, now: int, key: string,
      va: PromptClassifier.Verdict, vb: PromptClassifier.Verdict)
    requires Sound(w) && i != j && GoesToClassifier(w, i, a, now, key) && GoesToClassifier(w, j, b, now, key)
    requires Judged(a, va).band !in a.cfg.bands && Judged(b, vb).band in b.cfg.bands
    ensures var w2 := Next(Next(w, Decide(i, a, now)), Decide(j, b, now));
      var w3 := Next(w2, Verdict(i, va, now));
      && !NonOverlapping(Next(w, Decide(i, a, now)), Decide(j, b, now), key)
      && SessionAt(w3, key) == Some(WasPromoted(Judged(a, va).band, a.turn))
      && SessionAt(Next(w3, Verdict(j, vb, now)), key) == Some(WasOffloaded(Judged(b, vb).band, b.turn))
  {
    var w1 := Next(w, Decide(i, a, now));
    ClassifierReads(w, i, a, now, key);
    assert WaitingFor(w1, i, key) && SessionAt(w1, key) == SessionAt(w, key);
    var w2 := Next(w1, Decide(j, b, now));
    ClassifierReads(w1, j, b, now, key);
    assert w2.waiting[i] == Suspended(a, SessionAt(w, key)) && w2.waiting[j] == Suspended(b, SessionAt(w, key));
    var w3 := Next(w2, Verdict(i, va, now));
    StepOk(w2, Verdict(i, va, now));
    VerdictSessions(w2, Verdict(i, va, now), key);
    assert w3.waiting == w2.waiting - {i};
    VerdictSessions(w3, Verdict(j, vb, now), key);
  }

  // ── Such a run from the start ──────────────────────────────────────────────

  const TRACE_SETTINGS := Settings(true, {"pi"}, true, {Small}, map[Small := "qwen"], true, 8000, 1)
  const ASK := Message("user", false, 2, "hi")

  function FirstCall(turn: int): Call {
    Call(TRACE_SETTINGS, true, "pi", true, true, [ASK], "turn", "chat", turn, High, ByCaller, 10,
        (text: string) => false)
  }

  lemma {:induction false} FirstCallFacts(turn: int)
    requires turn > 0
    ensures var c := FirstCall(turn);
      Gate(c).None? && c.usable && c.cfg.classifier && !InLoop(c.msgs) && SessionKey(c) == "pi:chat"
  {
    assert LastHuman([ASK]) == 0;
    assert [ASK][1..] == [] && [ASK][..0] == [];
  }

  lemma {:induction false} FirstCallJudged(turn: int)
    requires turn > 0
    ensures Judged(FirstCall(turn), PromptClassifier.Said("small")).band == Small
    ensures Judged(FirstCall(turn), PromptClassifier.Threw).band == High
  {
    FirstCallFacts(turn);
    var msgs := [ASK];
    assert msgs[..0] == [];
    assert PromptClassifier.UserBytes(msgs) == 2 by { assert PromptClassifier.UserBytes(msgs[..0]) == 0; }
    assert PromptClassifier.LastText(msgs, 2000) == "hi";
    ParseName(Small);
  }

  ghost function AfterFirstTurn(): World {
    Next(Next(OffloadRuns.START, Decide(0, FirstCall(1), 0)), Verdict(0, PromptClassifier.Said("small"), 0))
  }

  lemma {:induction false} FirstTurnOffloaded()
    ensures var w := AfterFirstTurn();
      && Sound(w) && w.waiting == map[]
      && w.mem.sessions == [("pi:chat", Stamped(WasOffloaded(Small, 1), 0))]
  {
    var c, said := FirstCall(1), PromptClassifier.Said("small");
    var w0 := Next(OffloadRuns.START, Decide(0, c, 0));
    FirstCallFacts(1);
    assert w0 == World(Memories([], []), 0, map[0 := Suspended(c, None)], map[]);
    StepOk(OffloadRuns.START, Decide(0, c, 0));
    StepOk(w0, Verdict(0, said, 0));
    FirstCallJudged(1);
  }

  lemma {:induction false} FirstTurnRecord()
    ensures var w := AfterFirstTurn();
      Sound(w) && w.waiting == map[] && Unexpired(w.mem, "pi:chat", 0)
          && SessionAt(w, "pi:chat") == Some(WasOffloaded(Small, 1))
  {
    FirstTurnOffloaded();
    var w := AfterFirstTurn();
    assert w.mem.sessions[0] == ("pi:chat", Stamped(WasOffloaded(Small, 1), 0));
  }

  /**
   From an empty memory: turn 1 is offloaded; turns 2 and 3 then wait for the classifier at once;
   turn 2 is judged hard and promotes the session; turn 3, judged small, writes it back to offloaded.
   */
  lemma {:induction false} OverlapTrace()
    ensures var w1 := AfterFirstTurn();
      var w3 := Next(Next(w1, Decide(1, FirstCall(2), 0)), Decide(2, FirstCall(3), 0));
      var w4 := Next(w3, Verdict(1, PromptClassifier.Threw, 0));
      && SessionAt(w1, "pi:chat") == Some(WasOffloaded(Small, 1))
      && SessionAt(w4, "pi:chat") == Some(WasPromoted(High, 2))
      && SessionAt(Next(w4, Verdict(2, PromptClassifier.Said("small"), 0)), "pi:chat") == Some(WasOffloaded(Small, 3))
  {
    var w1, key := AfterFirstTurn(), "pi:chat";
    FirstTurnRecord();
    assert GoesToClassifier(w1, 1, FirstCall(2), 0, key) by { FirstCallFacts(2); }
    assert GoesToClassifier(w1, 2, FirstCall(3), 0, key) by { FirstCallFacts(3); }
    FirstCallJudged(2);
    FirstCallJudged(3);
    OverlapLosesPromotion(w1, 1, 2, FirstCall(2), FirstCall(3), 0, key, PromptClassifier.Threw,
        PromptClassifier.Said("small"));
  }
}
