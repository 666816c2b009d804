/** Which provider and model serve a request, and whether the semantic offload moves it. */
module RouteResolver {
  import opened Wrappers
  import opened Bands
  import opened RoutingConfig

  /** `complexity` and `requestedModel` are "" when the caller says nothing. */
  datatype Request = Request(job: string, agent: string, complexity: string, network: Network,
                             classified: bool, inherited: bool, requestedModel: string,
                             inputTokens: Option<int>, inFlight: map<string, int>)

  datatype BandSource = OfRoute(key: string) | OfCaller | OfClassifier | OfTurn | OfDefault(cls: JobClass)

  datatype SkipReason =
    | RoutePinned | BandNotAllowed | NoTarget | TargetTakesOtherBands | TargetServesOtherScope
    | LosesForegroundTransport | PromptTooLarge | TargetBusy

  datatype Route = Route(provider: string, model: Option<string>, complexity: Band, source: BandSource,
                         matchedKey: string, step: nat, cls: JobClass, modelProfile: Option<string>,
                         offloadedFrom: Option<string>, offloadTimeoutMs: Option<int>, skipped: Option<SkipReason>)

  // ── Steps 1 to 3: the entry ────────────────────────────────────────────────

  function ClassOf(job: string): JobClass {
    if "fg-" <= job then FgChat else Background
  }

  datatype Match = Match(key: string, entry: Entry, step: nat)

  function MatchEntry(c: Config, req: Request): Match
    requires DefaultsOk(c.providers, c.defaults)
  {
    var own := req.job + "/" + req.agent;
    if req.agent != "" && own in c.routes then Match(own, c.routes[own], 1)
    else if req.job in c.routes then Match(req.job, c.routes[req.job], 2)
    else
      var cls := ClassOf(req.job);
      Match(if cls == FgChat then "defaults.fg-chat" else "defaults.background", c.defaults[cls], 3)
  }

  // ── The band ───────────────────────────────────────────────────────────────

  function DefaultBand(c: Config, cls: JobClass): Band
    requires DefaultsOk(c.providers, c.defaults)
  {
    c.defaults[cls].complexity.band
  }

  function BandOf(c: Config, req: Request): (Band, BandSource)
    requires DefaultsOk(c.providers, c.defaults)
  {
    var m := MatchEntry(c, req);
    match m.entry.complexity
    case Fixed(band) => (band, OfRoute(m.key))
    case FromCaller =>
      match ParseBand(req.complexity)
      case Some(band) => (band, if req.inherited then OfTurn else if req.classified then OfClassifier else OfCaller)
      case None => (DefaultBand(c, ClassOf(req.job)), OfDefault(ClassOf(req.job)))
  }

  // ── The offload ladder ─────────────────────────────────────────────────────

  function PickOffloadTarget(targets: seq<Target>, network: Network): Option<Target> {
    if targets == [] then None
    else if targets[0].enabled && (targets[0].requireNetwork.None? || targets[0].requireNetwork == Some(network))
        then Some(targets[0])
    else PickOffloadTarget(targets[1..], network)
  }

  function EffectiveScope(t: Target, band: Band): set<Scope> {
    if t.bandScopes.Some? && band in t.bandScopes.value then t.bandScopes.value[band] else t.scope
  }

  function ScopeOf(cls: JobClass): Scope {
    if cls == FgChat then Fg else Bg
  }

  /** An unknown prompt size passes, and so does a target with nothing recorded in flight. */
  function ForegroundLimit(t: Target, req: Request): Option<SkipReason> {
    if t.foreground.None? then None
    else
      var lim := t.foreground.value;
      if lim.maxInputTokens.Some? && req.inputTokens.Some? && req.inputTokens.value > lim.maxInputTokens.value
          then Some(PromptTooLarge)
      else
        var open := if t.provider in req.inFlight then req.inFlight[t.provider] else 0;
        if lim.maxInFlight.Some? && open >= lim.maxInFlight.value then Some(TargetBusy) else None
  }

  predicate HasTransport(c: Config, provider: string) {
    provider in c.providers && c.providers[provider].fgTransport.Some?
  }

  datatype Move = Stay | Skip(reason: SkipReason) | To(target: Target)

  function Ladder(c: Config, req: Request): Move
    requires DefaultsOk(c.providers, c.defaults)
  {
    var cls := ClassOf(req.job);
    var entry := MatchEntry(c, req).entry;
    var band := BandOf(c, req).0;
    if !c.semantic.enabled then Stay
    else
      var picked := PickOffloadTarget(c.semantic.targets, req.network);
      if picked.Some? && entry.provider == picked.value.provider then Stay
      else if !entry.mayOffload then Skip(RoutePinned)
      else if band !in c.semantic.offloadBands then Skip(BandNotAllowed)
      else if picked.None? then Skip(NoTarget)
      else TargetLadder(c, entry, band, cls, picked.value, req)
  }

  /** The rungs that are about the target picked. */
  function TargetLadder(c: Config, entry: Entry, band: Band, cls: JobClass, t: Target, req: Request): Move {
    if t.bands.Some? && band !in t.bands.value then Skip(TargetTakesOtherBands)
    else if ScopeOf(cls) !in EffectiveScope(t, band) then Skip(TargetServesOtherScope)
    else if HasTransport(c, entry.provider) && !HasTransport(c, t.provider) then Skip(LosesForegroundTransport)
    else if cls == FgChat && ForegroundLimit(t, req).Some? then Skip(ForegroundLimit(t, req).value)
    else To(t)
  }

  // ── The model ──────────────────────────────────────────────────────────────

  function FirstModel(p: Provider): Option<string> {
    if Small in p.models then Some(p.models[Small])
    else if Medium in p.models then Some(p.models[Medium])
    else if High in p.models then Some(p.models[High])
    else None
  }

  /** The band's model on this provider, else the class default band's, else the cheapest it declares. */
  function ModelOn(p: Provider, band: Band, fallback: Band): Option<string> {
    if band in p.models then Some(p.models[band])
    else if fallback in p.models then Some(p.models[fallback])
    else FirstModel(p)
  }

  predicate Covers(e: Entry, requested: string, band: Band) {
    requested != "" && requested in e.profiles && band in e.profiles[requested]
  }

  /** A profile's model is taken as it is; only without one does the provider choose. */
  function ChosenModel(c: Config, e: Entry, p: Provider, req: Request, band: Band): Option<string>
    requires DefaultsOk(c.providers, c.defaults)
  {
    if Covers(e, req.requestedModel, band) then Some(e.profiles[req.requestedModel][band])
    else ModelOn(p, band, DefaultBand(c, ClassOf(req.job)))
  }

  function Resolve(c: Config, req: Request): Route
    requires Accepted(c)
  {
    var m := MatchEntry(c, req);
    var (band, source) := BandOf(c, req);
    var move := Ladder(c, req);
    var id := if move.To? then move.target.provider else m.entry.provider;
    assert Routable(c.providers, id) by { LandsOnRoutable(c, req); }
    Route(id, ChosenModel(c, m.entry, c.providers[id], req, band), band, source, m.key, m.step, ClassOf(req.job),
          if Covers(m.entry, req.requestedModel, band) then Some(req.requestedModel) else None,
          if move.To? then Some(m.entry.provider) else None,
          if move.To? && ClassOf(req.job) == FgChat && move.target.foreground.Some?
          then move.target.foreground.value.timeoutMs else None,
          if move.Skip? then Some(move.reason) else None)
  }

  // ── Picking a target ───────────────────────────────────────────────────────

  predicate Takes(t: Target, network: Network) {
    t.enabled && (t.requireNetwork.None? || t.requireNetwork == Some(network))
  }

  lemma {:induction false} PickedTakes(targets: seq<Target>, network: Network)
    ensures match PickOffloadTarget(targets, network)
      case None => forall t :: t in targets ==> !Takes(t, network)
      case Some(t) => t in targets && Takes(t, network)
  {
    if targets != [] {
      PickedTakes(targets[1..], network);
      assert targets == [targets[0]] + targets[1..];
    }
  }

  /**
   Among accepted targets the order cannot matter beyond this: a guarded target serves its own network, an
   unguarded one whatever network has no enabled target of its own.
   */
  lemma {:induction false} PickedIff(targets: seq<Target>, network: Network, t: Target)
    requires DistinctNetworks(targets)
    ensures PickOffloadTarget(targets, network) == Some(t) <==>
      t in targets && Takes(t, network)
      && (t.requireNetwork.None? ==> forall u :: u in targets && u.enabled ==> u.requireNetwork != Some(network))
  {
    if targets != [] {
      var head, tail := targets[0], targets[1..];
      assert targets == [head] + tail;
      PickedIff(tail, network, t);
      assert forall u :: u in tail ==> exists j :: 0 < j < |targets| && targets[j] == u;
      assert forall u :: u in tail ==> head.requireNetwork.Some? && head.requireNetwork != u.requireNetwork;
    }
  }

  /** Some enabled target is guarded for the network. */
  ghost predicate Claimed(targets: seq<Target>, network: Network) {
    exists u :: u in targets && u.enabled && u.requireNetwork == Some(network)
  }

  predicate PassedOver(targets: seq<Target>, t: Target, network: Network) {
    PickOffloadTarget(targets, network) != Some(t)
  }

  lemma {:induction false} PassedOverIff(targets: seq<Target>, t: Target, network: Network)
    requires DistinctNetworks(targets) && t in targets && t.enabled && t.requireNetwork.None?
    ensures PassedOver(targets, t, network) <==> Claimed(targets, network)
  {
    PickedIff(targets, network, t);
  }

  /** An enabled, unguarded target never serves anything exactly when every network is claimed by an enabled target. */
  lemma {:induction false} NeverPickedIff(targets: seq<Target>, t: Target)
    requires DistinctNetworks(targets) && t in targets && t.enabled && t.requireNetwork.None?
    ensures (forall network :: PassedOver(targets, t, network)) <==> forall network :: Claimed(targets, network)
  {
    forall network: Network ensures PassedOver(targets, t, network) <==> Claimed(targets, network) {
      PassedOverIff(targets, t, network);
    }
  }

  // ── What each step decides ─────────────────────────────────────────────────

  /** Foreground exactly for the jobs whose name starts with `fg-`. */
  lemma {:induction false} ClassIs(job: string)
    ensures ClassOf(job) == if IsForeground(job) then FgChat else Background
  {
    assert "fg-" == ['f', 'g', '-'];
    if |job| >= 3 {
      assert job[..3] == [job[0], job[1], job[2]];
    }
  }

  /** The agent's own entry before the job's, the job's before the class default; on the table of routes itself. */
  lemma {:induction false} EntryPrecedence(c: Config, req: Request)
    requires Accepted(c)
    ensures var r, e := Resolve(c, req), MatchEntry(c, req).entry;
      var own := req.job + "/" + req.agent;
      && r.cls == (if IsForeground(req.job) then FgChat else Background)
      && (req.agent != "" && own in c.routes ==> e == c.routes[own] && r.matchedKey == own && r.step == 1)
      && ((req.agent == "" || own !in c.routes) && req.job in c.routes ==>
            e == c.routes[req.job] && r.matchedKey == req.job && r.step == 2)
      && ((req.agent == "" || own !in c.routes) && req.job !in c.routes ==>
            && r.step == 3 && e == c.defaults[if IsForeground(req.job) then FgChat else Background]
            && r.matchedKey == if IsForeground(req.job) then "defaults.fg-chat" else "defaults.background")
  {
    ClassIs(req.job);
  }

  /**
   The entry's own band; on a from-caller entry the band asked for by name, and without a usable one the
   class default's.
   */
  lemma {:induction false} BandIs(c: Config, req: Request)
    requires Accepted(c)
    ensures var r, e := Resolve(c, req), MatchEntry(c, req).entry;
      var cls := if IsForeground(req.job) then FgChat else Background;
      && (e.complexity.Fixed? ==> r.complexity == e.complexity.band && r.source == OfRoute(r.matchedKey))
      && (forall b :: e.complexity.FromCaller? && req.complexity == Name(b) ==>
            r.complexity == b
            && r.source == if req.inherited then OfTurn else if req.classified then OfClassifier else OfCaller)
      && (e.complexity.FromCaller? && (forall b :: req.complexity != Name(b)) ==>
            Fixed(r.complexity) == c.defaults[cls].complexity && r.source == OfDefault(cls))
  {
    ClassIs(req.job);
    ParseIs(req.complexity);
    assert Resolve(c, req).complexity == BandOf(c, req).0 && Resolve(c, req).source == BandOf(c, req).1;
  }

  /**
   The model: the profile's for the band, where the caller asked for a profile that has one; else what the
   provider declares for the band, else for the class default's band, else for its cheapest band.
   */
  lemma {:induction false} ModelIs(c: Config, req: Request)
    requires Accepted(c)
    ensures var r, e := Resolve(c, req), MatchEntry(c, req).entry;
      var cls := if IsForeground(req.job) then FgChat else Background;
      && r.provider in c.providers
      && var models := c.providers[r.provider].models;
      && (r.modelProfile.Some? <==>
            && req.requestedModel != "" && req.requestedModel in e.profiles
            && r.complexity in e.profiles[req.requestedModel])
      && (r.modelProfile.Some? ==>
            r.modelProfile == Some(req.requestedModel) && r.model == Some(e.profiles[req.requestedModel][r.complexity]))
      && (r.modelProfile.None? ==>
            exists b :: b in models && r.model == Some(models[b])
              && (b == r.complexity
                  || (r.complexity !in models && Fixed(b) == c.defaults[cls].complexity)
                  || (r.complexity !in models && c.defaults[cls].complexity.band !in models
                      && forall d :: d in models ==> Rank(b) <= Rank(d))))
  {
    ClassIs(req.job);
    RouteIsServable(c, req);
    var r := Resolve(c, req);
    if r.modelProfile.None? {
      var b := CheapestIs(c.providers[r.provider], r.complexity, DefaultBand(c, r.cls));
    }
  }

  lemma {:induction false} CheapestIs(p: Provider, band: Band, fallback: Band) returns (b: Band)
    requires p.models != map[]
    ensures b in p.models && ModelOn(p, band, fallback) == Some(p.models[b])
    ensures b == band || (band !in p.models && b == fallback)
      || (band !in p.models && fallback !in p.models && forall d :: d in p.models ==> Rank(b) <= Rank(d))
  {
    var any :| any in p.models;
    assert any == Small || any == Medium || any == High;
    b := if band in p.models then band
         else if fallback in p.models then fallback
         else if Small in p.models then Small
         else if Medium in p.models then Medium
         else High;
    forall d | d in p.models ensures band !in p.models && fallback !in p.models ==> Rank(b) <= Rank(d) {
      assert d == Small || d == Medium || d == High;
    }
  }

  /** A foreground ceiling is on record exactly for a foreground call moved to a target that has one. */
  lemma {:induction false} CeilingIs(c: Config, req: Request)
    requires Accepted(c)
    ensures var r, picked := Resolve(c, req), PickOffloadTarget(c.semantic.targets, req.network);
      forall ms :: r.offloadTimeoutMs == Some(ms) <==>
        && r.offloadedFrom.Some? && IsForeground(req.job) && picked.Some?
        && picked.value.foreground.Some? && picked.value.foreground.value.timeoutMs == Some(ms)
  {
    ClassIs(req.job);
    if Ladder(c, req).To? {
      MoveTarget(c, req);
    }
  }

  // ── Where a call can land ──────────────────────────────────────────────────

  lemma {:induction false} MatchedOk(c: Config, req: Request)
    requires Accepted(c)
    ensures EntryOk(c.providers, MatchEntry(c, req).entry)
  {
  }

  lemma {:induction false} MoveTarget(c: Config, req: Request)
    requires Accepted(c) && Ladder(c, req).To?
    ensures var t := Ladder(c, req).target;
      && PickOffloadTarget(c.semantic.targets, req.network) == Some(t)
      && Routable(c.providers, t.provider) && BandOf(c, req).0 in c.providers[t.provider].models
      && t.provider != MatchEntry(c, req).entry.provider
  {
    var t := Ladder(c, req).target;
    PickedTakes(c.semantic.targets, req.network);
    assert TargetOk(c.providers, c.semantic.enabled, c.semantic.offloadBands, t);
    assert BandOf(c, req).0 in BandsOf(t, c.semantic.offloadBands);
  }

  lemma {:induction false} LandsOnRoutable(c: Config, req: Request)
    requires Accepted(c)
    ensures Routable(c.providers, if Ladder(c, req).To? then Ladder(c, req).target.provider
        else MatchEntry(c, req).entry.provider)
  {
    MatchedOk(c, req);
    if Ladder(c, req).To? {
      MoveTarget(c, req);
    }
  }

  ghost predicate OwnModel(p: Provider, model: Option<string>) {
    model.Some? && exists b :: b in p.models && p.models[b] == model.value
  }

  lemma {:induction false} ModelOnOwn(p: Provider, band: Band, fallback: Band)
    requires p.models != map[]
    ensures OwnModel(p, ModelOn(p, band, fallback)) && OwnModel(p, FirstModel(p))
  {
    var b :| b in p.models;
    assert b == Small || b == Medium || b == High;
  }

  /**
   What the validator accepts, the resolver cannot get wrong: the call lands on a declared, enabled
   provider with a model out of that provider's own tables; only a profile model, on the route's own
   provider, comes from the wider catalogue instead.
   */
  lemma {:induction false} RouteIsServable(c: Config, req: Request)
    requires Accepted(c)
    ensures var r := Resolve(c, req);
      && Routable(c.providers, r.provider)
      && (r.modelProfile.None? ==> OwnModel(c.providers[r.provider], r.model))
      && (r.modelProfile.Some? ==> r.model.Some? && r.model.value != "")
      && (r.modelProfile.Some? && r.offloadedFrom.None? ==> Serves(c.providers[r.provider], r.model.value))
  {
    LandsOnRoutable(c, req);
    MatchedOk(c, req);
    var r := Resolve(c, req);
    ModelOnOwn(c.providers[r.provider], r.complexity, DefaultBand(c, r.cls));
  }

  /**
   An offloaded call runs the target's own model for its band exactly when no profile of the route covers
   that band, or the profile happens to name the same model.
   */
  lemma {:induction false} OffloadedModelIff(c: Config, req: Request)
    requires Accepted(c) && Resolve(c, req).offloadedFrom.Some?
    ensures var r, e := Resolve(c, req), MatchEntry(c, req).entry;
      && r.provider in c.providers && r.complexity in c.providers[r.provider].models
      && (r.model == Some(c.providers[r.provider].models[r.complexity]) <==>
            !Covers(e, req.requestedModel, r.complexity)
            || e.profiles[req.requestedModel][r.complexity] == c.providers[r.provider].models[r.complexity])
  {
    MoveTarget(c, req);
  }

  // ── The offload as a bounded change ────────────────────────────────────────

  function WithoutOffload(c: Config): Config {
    c.(semantic := ROUTING_OFF)
  }

  /** The target's own word on a band, where it has one, else its general scope. */
  ghost predicate ServesScope(t: Target, band: Band, scope: Scope) {
    && (t.bandScopes.Some? && band in t.bandScopes.value ==> scope in t.bandScopes.value[band])
    && (t.bandScopes.None? || band !in t.bandScopes.value ==> scope in t.scope)
  }

  ghost predicate Foregrounded(c: Config, provider: string) {
    exists id :: id == provider && id in c.providers && c.providers[id].fgTransport != None
  }

  predicate OverTokens(t: Target, req: Request) {
    t.foreground.Some? && t.foreground.value.maxInputTokens.Some? && req.inputTokens.Some?
    && req.inputTokens.value > t.foreground.value.maxInputTokens.value
  }

  predicate AtLimit(t: Target, req: Request) {
    t.foreground.Some? && t.foreground.value.maxInFlight.Some?
    && (if t.provider in req.inFlight then req.inFlight[t.provider] else 0) >= t.foreground.value.maxInFlight.value
  }

  /** Someone waits for the answer. */
  ghost predicate IsForeground(job: string) {
    |job| >= 3 && job[0] == 'f' && job[1] == 'g' && job[2] == '-'
  }

  /** When a call may move: said once as a condition on the target's, the entry's and the request's own fields. */
  ghost predicate MayMove(c: Config, req: Request, t: Target)
    requires DefaultsOk(c.providers, c.defaults)
  {
    var e, band := MatchEntry(c, req).entry, BandOf(c, req).0;
    && c.semantic.enabled
    && t in c.semantic.targets && Takes(t, req.network)
    && t.provider != e.provider
    && e.mayOffload
    && band in c.semantic.offloadBands
    && MayTake(c, e, band, t, req)
  }

  ghost predicate MayTake(c: Config, e: Entry, band: Band, t: Target, req: Request) {
    && (t.bands.Some? ==> band in t.bands.value)
    && ServesScope(t, band, if IsForeground(req.job) then Fg else Bg)
    && (Foregrounded(c, e.provider) ==> Foregrounded(c, t.provider))
    && (IsForeground(req.job) ==> !OverTokens(t, req) && !AtLimit(t, req))
  }

  lemma {:induction false} TargetTakesIff(c: Config, e: Entry, band: Band, t: Target, req: Request)
    ensures TargetLadder(c, e, band, ClassOf(req.job), t, req) == To(t) <==> MayTake(c, e, band, t, req)
    ensures TargetLadder(c, e, band, ClassOf(req.job), t, req).To? ==>
      TargetLadder(c, e, band, ClassOf(req.job), t, req) == To(t)
  {
    ClassIs(req.job);
  }

  lemma {:induction false} WithoutOffloadAccepted(c: Config, req: Request)
    requires Accepted(c)
    ensures var off := WithoutOffload(c);
      && Accepted(off) && MatchEntry(off, req) == MatchEntry(c, req) && BandOf(off, req) == BandOf(c, req)
      && Ladder(off, req) == Stay
  {
    assert WithoutOffload(c).semantic == ROUTING_OFF;
  }

  /**
   Switching semantic routing on never changes the band, its source, or which entry matched; an unmoved call
   is unchanged but for the reason, and a moved one names where it came from.
   */
  lemma {:induction false} OffloadIsBounded(c: Config, req: Request)
    requires Accepted(c)
    ensures Accepted(WithoutOffload(c))
    ensures var r, plain := Resolve(c, req), Resolve(WithoutOffload(c), req);
      && r.complexity == plain.complexity && r.source == plain.source
      && r.matchedKey == plain.matchedKey && r.step == plain.step && r.cls == plain.cls
          && r.modelProfile == plain.modelProfile
      && plain.offloadedFrom.None? && plain.skipped.None?
      && (r.offloadedFrom.None? ==> r.(skipped := None) == plain)
      && (r.offloadedFrom.Some? ==> r.offloadedFrom == Some(plain.provider) && r.provider != plain.provider)
  {
    WithoutOffloadAccepted(c, req);
    if Ladder(c, req).To? {
      MoveTarget(c, req);
    }
  }

  lemma {:induction false} MovesIff(c: Config, req: Request, t: Target)
    requires Accepted(c) && PickOffloadTarget(c.semantic.targets, req.network) == Some(t)
    ensures Ladder(c, req).To? <==> MayMove(c, req, t)
    ensures Ladder(c, req).To? ==> Ladder(c, req).target == t
  {
    PickedTakes(c.semantic.targets, req.network);
    TargetTakesIff(c, MatchEntry(c, req).entry, BandOf(c, req).0, t, req);
  }

  /**
   A call moves exactly when its picked target may take it; otherwise, unless the route already names that
   target, there is exactly one reason on record.
   */
  lemma {:induction false} MovedIff(c: Config, req: Request)
    requires Accepted(c)
    ensures var r, picked := Resolve(c, req), PickOffloadTarget(c.semantic.targets, req.network);
      && (r.offloadedFrom.Some? <==> picked.Some? && MayMove(c, req, picked.value))
      && (r.offloadedFrom.Some? ==> r.provider == picked.value.provider && r.skipped.None?)
      && (c.semantic.enabled && (picked.None? || picked.value.provider != MatchEntry(c, req).entry.provider) ==>
            r.offloadedFrom.Some? != r.skipped.Some?)
      && (!c.semantic.enabled || (picked.Some? && picked.value.provider == MatchEntry(c, req).entry.provider) ==>
            r.offloadedFrom.None? && r.skipped.None?)
  {
    var picked := PickOffloadTarget(c.semantic.targets, req.network);
    if picked.Some? {
      MovesIff(c, req, picked.value);
    }
  }

  /** What each reason says of the request, whatever else holds. */
  ghost predicate Blocks(c: Config, req: Request, reason: SkipReason)
    requires DefaultsOk(c.providers, c.defaults)
  {
    match reason
    case RoutePinned => !MatchEntry(c, req).entry.mayOffload
    case BandNotAllowed => BandOf(c, req).0 !in c.semantic.offloadBands
    case NoTarget => forall t :: t in c.semantic.targets ==> !Takes(t, req.network)
    case _ =>
      var picked := PickOffloadTarget(c.semantic.targets, req.network);
      picked.Some? && TargetBlocks(c, MatchEntry(c, req).entry, BandOf(c, req).0, picked.value, req, reason)
  }

  ghost predicate TargetBlocks(c: Config, e: Entry, band: Band, t: Target, req: Request, reason: SkipReason) {
    match reason
    case TargetTakesOtherBands => t.bands.Some? && band !in t.bands.value
    case TargetServesOtherScope => !ServesScope(t, band, if IsForeground(req.job) then Fg else Bg)
    case LosesForegroundTransport => Foregrounded(c, e.provider) && !Foregrounded(c, t.provider)
    case PromptTooLarge => IsForeground(req.job) && OverTokens(t, req)
    case TargetBusy => IsForeground(req.job) && AtLimit(t, req)
    case _ => false
  }

  /** The order in which the operator is told. */
  function Rung(reason: SkipReason): nat {
    match reason
    case RoutePinned => 0
    case BandNotAllowed => 1
    case NoTarget => 2
    case TargetTakesOtherBands => 3
    case TargetServesOtherScope => 4
    case LosesForegroundTransport => 5
    case PromptTooLarge => 6
    case TargetBusy => 7
  }

  ghost predicate Elsewhere(c: Config, req: Request)
    requires DefaultsOk(c.providers, c.defaults)
  {
    var picked := PickOffloadTarget(c.semantic.targets, req.network);
    c.semantic.enabled && (picked.None? || picked.value.provider != MatchEntry(c, req).entry.provider)
  }

  lemma {:induction false} TargetLadderAndBlocks(c: Config, e: Entry, band: Band, t: Target, req: Request,
      reason: SkipReason)
    ensures match TargetLadder(c, e, band, ClassOf(req.job), t, req)
      case Stay => false
      case Skip(given) => TargetBlocks(c, e, band, t, req, given) && Rung(given) >= 3
                          && (TargetBlocks(c, e, band, t, req, reason) ==> Rung(given) <= Rung(reason))
      case To(u) => u == t && !TargetBlocks(c, e, band, t, req, reason)
  {
    ClassIs(req.job);
  }

  lemma {:induction false} LadderAndBlocks(c: Config, req: Request, reason: SkipReason)
    requires Accepted(c) && Elsewhere(c, req)
    ensures match Ladder(c, req)
      case Stay => false
      case Skip(given) => Blocks(c, req, given) && (Blocks(c, req, reason) ==> Rung(given) <= Rung(reason))
      case To(_) => !Blocks(c, req, reason)
  {
    PickedTakes(c.semantic.targets, req.network);
    var picked := PickOffloadTarget(c.semantic.targets, req.network);
    if picked.Some? {
      TargetLadderAndBlocks(c, MatchEntry(c, req).entry, BandOf(c, req).0, picked.value, req, reason);
    }
  }

  /** The reason on record is true of the request, and the first of all that are; when none is, the call moves. */
  lemma {:induction false} ReasonIsFirstBlock(c: Config, req: Request, reason: SkipReason)
    requires Accepted(c) && Elsewhere(c, req)
    ensures Resolve(c, req).skipped == Some(reason) <==>
      Blocks(c, req, reason) && forall other :: Blocks(c, req, other) ==> Rung(reason) <= Rung(other)
    ensures Resolve(c, req).offloadedFrom.Some? <==> forall other :: !Blocks(c, req, other)
  {
    var move := Ladder(c, req);
    assert Resolve(c, req).skipped == (if move.Skip? then Some(move.reason) else None)
        && (Resolve(c, req).offloadedFrom.Some? <==> move.To?);
    assert move.Skip? ==> Blocks(c, req, move.reason) by { LadderAndBlocks(c, req, reason); }
    assert !move.Stay? by { LadderAndBlocks(c, req, reason); }
    forall other ensures Blocks(c, req, other) ==> move.Skip? && Rung(move.reason) <= Rung(other) {
      LadderAndBlocks(c, req, other);
    }
    assert move.Skip? && Rung(reason) == Rung(move.reason) ==> reason == move.reason;
  }

  // ── A profile outlives the swap ────────────────────────────────────────────

  const CLOUD := Provider("cloud", true, Some("cloud"), None, true, [], map[Small := "haiku", High := "opus"])
  const LOCAL := Provider("local", true, Some("local"), None, true, [], map[Small := "qwen"])
  const SAMPLE_ROUTE := Entry("cloud", FromCaller, true, map["sol" := map[Small := "haiku"]])
  const SAMPLE_DEFAULT := Entry("cloud", Fixed(High), true, map[])
  const SAMPLE_TARGET := Target("local", None, true, {Fg, Bg}, None, None, None)
  const SAMPLE := Config(map["cloud" := CLOUD, "local" := LOCAL], map["job" := SAMPLE_ROUTE],
                         map[FgChat := SAMPLE_DEFAULT, Background := SAMPLE_DEFAULT],
                         SemanticRouting(true, [SAMPLE_TARGET], {Small}), map[], true)
  const SAMPLE_REQUEST := Request("job", "", "small", Public, false, false, "sol", None, map[])

  lemma {:induction false} SampleAccepted()
    ensures Accepted(SAMPLE)
  {
    assert "cloud"[0] != "local"[0];
    assert "job" != "fg-chat/claude" by { assert |"job"| != |"fg-chat/claude"|; }
    assert Routable(SAMPLE.providers, "cloud") && Routable(SAMPLE.providers, "local");
    assert ProvidersOk(SAMPLE.providers) by {
      assert Small in CLOUD.models && Small in LOCAL.models;
    }
    assert EntryOk(SAMPLE.providers, SAMPLE_ROUTE) && EntryOk(SAMPLE.providers, SAMPLE_DEFAULT);
    forall cls: JobClass ensures cls in SAMPLE.defaults && SAMPLE.defaults[cls] == SAMPLE_DEFAULT {
      assert cls == FgChat || cls == Background;
    }
    assert TargetOk(SAMPLE.providers, true, {Small}, SAMPLE_TARGET) by {
      assert Fg in SAMPLE_TARGET.scope;
    }
    assert Small in SAMPLE.semantic.offloadBands;
  }

  /**
   The counterexample to "an offloaded call always gets the target's model": here the target is asked for a
   model only the route's own provider has.
   */
  lemma {:induction false} ProfileSurvivesOffload()
    ensures Accepted(SAMPLE)
    ensures var r := Resolve(SAMPLE, SAMPLE_REQUEST);
      r.offloadedFrom == Some("cloud") && r.provider == "local" && r.model == Some("haiku")
      && !OwnModel(SAMPLE.providers["local"], r.model)
  {
    SampleAccepted();
    assert "cloud"[0] != "local"[0];
    assert "haiku"[0] != "qwen"[0];
    assert "job"[0] != "fg-"[0];
    var c := SAMPLE;
    assert MatchEntry(c, SAMPLE_REQUEST) == Match("job", SAMPLE_ROUTE, 2);
    assert BandOf(c, SAMPLE_REQUEST) == (Small, OfCaller);
    assert PickOffloadTarget(c.semantic.targets, Public) == Some(SAMPLE_TARGET);
    assert Ladder(c, SAMPLE_REQUEST) == To(SAMPLE_TARGET);
    assert Covers(SAMPLE_ROUTE, "sol", Small);
  }
}
