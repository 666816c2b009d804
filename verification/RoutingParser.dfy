/** The strict validator: two parsed documents in, a normalized configuration or the first fault out. */
module RoutingParser {
  import opened Wrappers
  import opened JsText
  import opened Bands
  import opened RoutingConfig

  datatype Fault =
    | UnsupportedVersion | NoProviders
    | NoImplementation | BadModelId | DuplicateModel | UnknownBand | NotServed | NoBandDeclared
    | MissingProvider | UnknownProvider | DisabledProvider | UnknownComplexity | NoModelForBand | BadProfile
    | MissingDefault | DefaultFromCaller | BadRouteKey | NoForegroundTransport
    | DeadKey | EmptyScope | UnknownScope | WidensScope | EmptyBands | WidensBands | EmptyBandScope
    | BadForegroundLimit | ForegroundNeverTaken | UnknownNetwork | NetworkTaken | ShadowedTarget | NothingToOffload
    | RepeatedCandidate | UnknownSensor

  // ── The documents, as YAML mappings in file order ──────────────────────────

  datatype RawProvider = RawProvider(enabled: Option<bool>, impl: Option<string>, fgTransport: Option<string>,
      tools: bool, available: seq<string>, models: seq<(string, string)>)

  datatype RawRoute = RawRoute(provider: Option<string>, complexity: Option<string>, offload: Option<bool>,
                               profiles: seq<(string, seq<(string, string)>)>)

  datatype RawBands = NoBands | BandList(list: seq<string>) | BandMap(entries: seq<(string, seq<string>)>)

  datatype RawTarget = RawTarget(provider: Option<string>, enabled: Option<bool>, scope: Option<seq<string>>,
      bands: RawBands, foreground: Option<Foreground>, requireNetwork: Option<string>)

  datatype RawSemantic = RawSemantic(enabled: bool, offloadBands: seq<string>, deadKeys: bool, targets: seq<RawTarget>)

  datatype RawCandidate = RawCandidate(provider: string, when: seq<(string, seq<string>)>)

  datatype RoutingDoc = RoutingDoc(version: int, providers: seq<(string, RawProvider)>,
                                   fgChat: Option<RawRoute>, background: Option<RawRoute>,
                                   routes: seq<(string, RawRoute)>, semantic: Option<RawSemantic>)

  datatype FallbackDoc = FallbackDoc(version: int, chains: seq<(string, seq<RawCandidate>)>,
      enforceCapabilities: Option<bool>)

  type Providers = map<string, Provider>

  // ── Providers ──────────────────────────────────────────────────────────────

  function CheckModel(available: seq<string>, entry: (string, string)): Result<Band, Fault> {
    var band := ParseBand(entry.0);
    if band.None? then Err(UnknownBand)
    else if entry.1 == "" then Err(BadModelId)
    else if available != [] && entry.1 !in available then Err(NotServed)
    else Ok(band.value)
  }

  /** The bands of one mapping, or the fault of its first bad entry. */
  function Models(available: seq<string>, models: seq<(string, string)>): Result<map<Band, string>, Fault> {
    if models == [] then Ok(map[])
    else match Models(available, models[..|models| - 1])
      case Err(f) => Err(f)
      case Ok(m) =>
        var last := models[|models| - 1];
        match CheckModel(available, last)
        case Err(f) => Err(f)
        case Ok(band) => Ok(m[band := last.1])
  }

  predicate Repeats(list: seq<string>) {
    exists i, j | 0 <= i < j < |list| :: list[i] == list[j]
  }

  function NormalizeProvider(id: string, raw: RawProvider): Result<Provider, Fault> {
    var enabled := raw.enabled != Some(false);
    if enabled && raw.impl.GetOr("") == "" then Err(NoImplementation)
    else if "" in raw.available then Err(BadModelId)
    else if Repeats(raw.available) then Err(DuplicateModel)
    else match Models(raw.available, raw.models)
      case Err(f) => Err(f)
      case Ok(models) =>
        if enabled && raw.models == [] then Err(NoBandDeclared)
        else Ok(Provider(id, enabled, raw.impl, if raw.fgTransport.GetOr("") == "" then None else raw.fgTransport,
                         raw.tools, raw.available, models))
  }

  /** Entry by entry on top of `done`; the first fault ends it. The four document loops below have the same shape. */
  function AllProviders(docs: seq<(string, RawProvider)>, done: Providers): Result<Providers, Fault>
    decreases |docs|
  {
    if docs == [] then Ok(done)
    else match NormalizeProvider(docs[0].0, docs[0].1)
      case Err(f) => Err(f)
      case Ok(p) => AllProviders(docs[1..], done[docs[0].0 := p])
  }

  // ── Routes ─────────────────────────────────────────────────────────────────

  predicate Blank(s: string) {
    forall i | 0 <= i < |s| :: IsSpace(s[i])
  }

  function Profile(p: Provider, entries: seq<(string, string)>): Result<map<Band, string>, Fault> {
    if entries == [] then Ok(map[])
    else match Profile(p, entries[..|entries| - 1])
      case Err(f) => Err(f)
      case Ok(m) =>
        var last := entries[|entries| - 1];
        var band := ParseBand(last.0);
        if band.None? then Err(UnknownBand)
        else if Blank(last.1) then Err(BadModelId)
        else if !Serves(p, last.1) then Err(NotServed)
        else Ok(m[band.value := last.1])
  }

  function Profiles(p: Provider, raw: seq<(string, seq<(string, string)>)>)
    : Result<map<string, map<Band, string>>, Fault>
  {
    if raw == [] then Ok(map[])
    else match Profiles(p, raw[..|raw| - 1])
      case Err(f) => Err(f)
      case Ok(m) =>
        var last := raw[|raw| - 1];
        if last.0 == "" then Err(BadProfile)
        else match Profile(p, last.1)
          case Err(f) => Err(f)
          case Ok(profile) => Ok(m[last.0 := profile])
  }

  function KnownProvider(providers: Providers, id: string): Option<Fault> {
    if id !in providers then Some(UnknownProvider)
    else if !providers[id].enabled then Some(DisabledProvider)
    else None
  }

  function NormalizeEntry(providers: Providers, raw: RawRoute): Result<Entry, Fault> {
    var id := raw.provider.GetOr("");
    if id == "" then Err(MissingProvider)
    else if KnownProvider(providers, id).Some? then Err(KnownProvider(providers, id).value)
    else
      var asked := raw.complexity.GetOr("medium");
      var band := ParseBand(asked);
      if asked != "from-caller" && band.None? then Err(UnknownComplexity)
      else if asked != "from-caller" && band.value !in providers[id].models then Err(NoModelForBand)
      else match Profiles(providers[id], raw.profiles)
        case Err(f) => Err(f)
        case Ok(profiles) =>
          Ok(Entry(id, if asked == "from-caller" then FromCaller else Fixed(band.value), raw.offload != Some(false),
              profiles))
  }

  function NormalizeDefault(providers: Providers, raw: Option<RawRoute>): Result<Entry, Fault> {
    if raw.None? then Err(MissingDefault)
    else match NormalizeEntry(providers, raw.value)
      case Err(f) => Err(f)
      case Ok(e) => if e.complexity.FromCaller? then Err(DefaultFromCaller) else Ok(e)
  }

  predicate Alphanumeric(ch: char) {
    'a' <= ch <= 'z' || 'A' <= ch <= 'Z' || '0' <= ch <= '9'
  }

  predicate Segment(s: string) {
    s != "" && Alphanumeric(s[0])
    && forall i | 0 <= i < |s| :: Alphanumeric(s[i]) || s[i] == '.' || s[i] == '_' || s[i] == '-'
  }

  /** `<job>` or `<job>/<agent>` */
  predicate RouteKey(key: string) {
    Segment(key) || exists i | 0 <= i < |key| :: key[i] == '/' && Segment(key[..i]) && Segment(key[i + 1..])
  }

  function CheckRoute(providers: Providers, route: (string, RawRoute)): Result<Entry, Fault> {
    if !RouteKey(route.0) then Err(BadRouteKey)
    else match NormalizeEntry(providers, route.1)
      case Err(f) => Err(f)
      case Ok(e) =>
        if route.0 == "fg-chat/claude" && e.provider in providers && providers[e.provider].fgTransport.None?
            then Err(NoForegroundTransport)
        else Ok(e)
  }

  function Routes(providers: Providers, routes: seq<(string, RawRoute)>,
      done: map<string, Entry>): Result<map<string, Entry>, Fault>
    decreases |routes|
  {
    if routes == [] then Ok(done)
    else match CheckRoute(providers, routes[0])
      case Err(f) => Err(f)
      case Ok(e) => Routes(providers, routes[1..], done[routes[0].0 := e])
  }

  // ── Semantic routing ───────────────────────────────────────────────────────

  function BandSet(list: seq<string>): Result<set<Band>, Fault> {
    if list == [] then Ok({})
    else match BandSet(list[..|list| - 1])
      case Err(f) => Err(f)
      case Ok(s) =>
        var band := ParseBand(list[|list| - 1]);
        if band.None? then Err(UnknownBand) else Ok(s + {band.value})
  }

  function ParseScope(s: string): Option<Scope> {
    if s == "fg" then Some(Fg) else if s == "bg" then Some(Bg) else None
  }

  /** A scope list; `within` is what it may not go beyond. */
  function ScopeSet(list: seq<string>, within: set<Scope>): Result<set<Scope>, Fault> {
    if list == [] then Ok({})
    else match ScopeSet(list[..|list| - 1], within)
      case Err(f) => Err(f)
      case Ok(s) =>
        var one := ParseScope(list[|list| - 1]);
        if one.None? then Err(UnknownScope)
        else if one.value !in within then Err(WidensScope)
        else Ok(s + {one.value})
  }

  function TargetScope(raw: Option<seq<string>>): Result<set<Scope>, Fault> {
    if raw.None? then Ok({Fg, Bg}) else if raw.value == [] then Err(EmptyScope) else ScopeSet(raw.value, {Fg, Bg})
  }

  function OwnBand(global: set<Band>, name: string): Result<Band, Fault> {
    var band := ParseBand(name);
    if band.None? then Err(UnknownBand) else if band.value !in global then Err(WidensBands) else Ok(band.value)
  }

  function OwnBands(global: set<Band>, list: seq<string>): Result<set<Band>, Fault> {
    if list == [] then Ok({})
    else match OwnBands(global, list[..|list| - 1])
      case Err(f) => Err(f)
      case Ok(s) =>
        match OwnBand(global, list[|list| - 1])
        case Err(f) => Err(f)
        case Ok(b) => Ok(s + {b})
  }

  function BandScopes(global: set<Band>, scope: set<Scope>,
      entries: seq<(string, seq<string>)>): Result<map<Band, set<Scope>>, Fault> {
    if entries == [] then Ok(map[])
    else match BandScopes(global, scope, entries[..|entries| - 1])
      case Err(f) => Err(f)
      case Ok(m) =>
        var last := entries[|entries| - 1];
        match OwnBand(global, last.0)
        case Err(f) => Err(f)
        case Ok(b) =>
          if last.1 == [] then Err(EmptyBandScope)
          else match ScopeSet(last.1, scope)
            case Err(f) => Err(f)
            case Ok(s) => Ok(m[b := s])
  }

  datatype OwnPolicy = OwnPolicy(bands: Option<set<Band>>, bandScopes: Option<map<Band, set<Scope>>>)

  function TargetBands(global: set<Band>, scope: set<Scope>, raw: RawBands): Result<OwnPolicy, Fault> {
    match raw
    case NoBands => Ok(OwnPolicy(None, None))
    case BandList(list) =>
      if list == [] then Err(EmptyBands)
      else (match OwnBands(global, list)
            case Err(f) => Err(f)
            case Ok(s) => Ok(OwnPolicy(Some(s), None)))
    case BandMap(entries) =>
      if entries == [] then Err(EmptyBands)
      else match BandScopes(global, scope, entries)
        case Err(f) => Err(f)
        case Ok(m) => Ok(OwnPolicy(Some(m.Keys), Some(m)))
  }

  predicate PositiveIfGiven(v: Option<int>) {
    v.None? || v.value > 0
  }

  function CheckForeground(scope: set<Scope>, raw: Option<Foreground>): Option<Fault> {
    if raw.None? then None
    else if Fg !in scope then Some(ForegroundNeverTaken)
    else if !PositiveIfGiven(raw.value.timeoutMs) || raw.value.timeoutMs.GetOr(1000) < 1000
         || !PositiveIfGiven(raw.value.maxInputTokens) || !PositiveIfGiven(raw.value.maxInFlight)
      then Some(BadForegroundLimit)
    else None
  }

  function ParseNetwork(s: string): Option<Network> {
    if s == "public" then Some(Public) else if s == "corporate" then Some(Corporate) else None
  }

  function NormalizeTarget(providers: Providers, live: bool, global: set<Band>, raw: RawTarget,
      seen: set<Option<Network>>): Result<Target, Fault> {
    if raw.provider.None? then Err(MissingProvider)
    else
      var id, enabled := raw.provider.value, raw.enabled == Some(true);
      match TargetScope(raw.scope)
      case Err(f) => Err(f)
      case Ok(scope) =>
        match TargetBands(global, scope, raw.bands)
        case Err(f) => Err(f)
        case Ok(own) =>
          if CheckForeground(scope, raw.foreground).Some? then Err(CheckForeground(scope, raw.foreground).value)
          else if live && enabled && KnownProvider(providers, id).Some? then Err(KnownProvider(providers, id).value)
          else if id !in providers then Err(UnknownProvider)
          else if raw.requireNetwork.Some? && ParseNetwork(raw.requireNetwork.value).None? then Err(UnknownNetwork)
          else
            var network := if raw.requireNetwork.None? then None else ParseNetwork(raw.requireNetwork.value);
            var bands := if own.bands.Some? then own.bands.value else global;
            if network in seen then Err(NetworkTaken)
            else if None in seen then Err(ShadowedTarget)
            else if live && enabled && !(bands <= providers[id].models.Keys) then Err(NoModelForBand)
            else Ok(Target(id, network, enabled, scope, own.bands, own.bandScopes, raw.foreground))
  }

  function Networks(targets: seq<Target>): set<Option<Network>> {
    set i | 0 <= i < |targets| :: targets[i].requireNetwork
  }

  function Targets(providers: Providers, live: bool, global: set<Band>, raw: seq<RawTarget>,
      done: seq<Target>): Result<seq<Target>, Fault>
    decreases |raw|
  {
    if raw == [] then Ok(done)
    else match NormalizeTarget(providers, live, global, raw[0], Networks(done))
      case Err(f) => Err(f)
      case Ok(t) => Targets(providers, live, global, raw[1..], done + [t])
  }

  function Semantic(providers: Providers, raw: Option<RawSemantic>): Result<SemanticRouting, Fault> {
    if raw.None? then Ok(ROUTING_OFF)
    else match BandSet(raw.value.offloadBands)
      case Err(f) => Err(f)
      case Ok(bands) =>
        if raw.value.deadKeys then Err(DeadKey)
        else match Targets(providers, raw.value.enabled, bands, raw.value.targets, [])
          case Err(f) => Err(f)
          case Ok(targets) =>
            if raw.value.enabled && raw.value.offloadBands == [] then Err(NothingToOffload)
            else Ok(SemanticRouting(raw.value.enabled, targets, bands))
  }

  // ── Fallback chains ────────────────────────────────────────────────────────

  function NetworkSet(list: seq<string>): Result<set<Network>, Fault> {
    if list == [] then Ok({})
    else match NetworkSet(list[..|list| - 1])
      case Err(f) => Err(f)
      case Ok(s) =>
        var n := ParseNetwork(list[|list| - 1]);
        if n.None? then Err(UnknownNetwork) else Ok(s + {n.value})
  }

  function Guard(when: seq<(string, seq<string>)>): Result<Option<set<Network>>, Fault> {
    if when == [] then Ok(None)
    else match Guard(when[..|when| - 1])
      case Err(f) => Err(f)
      case Ok(_) =>
        var last := when[|when| - 1];
        if last.0 != "network" then Err(UnknownSensor)
        else match NetworkSet(last.1)
          case Err(f) => Err(f)
          case Ok(s) => Ok(Some(s))
  }

  /** A disabled candidate is dropped, not refused. */
  function NormalizeCandidate(providers: Providers, seen: set<string>,
      raw: RawCandidate): Result<Option<Candidate>, Fault> {
    if raw.provider !in providers then Err(UnknownProvider)
    else if !providers[raw.provider].enabled then Ok(None)
    else if raw.provider in seen then Err(RepeatedCandidate)
    else match Guard(raw.when)
      case Err(f) => Err(f)
      case Ok(w) => Ok(Some(Candidate(raw.provider, w)))
  }

  function Named(chain: seq<Candidate>): set<string> {
    set i | 0 <= i < |chain| :: chain[i].provider
  }

  function Chain(providers: Providers, head: string, raw: seq<RawCandidate>,
      done: seq<Candidate>): Result<seq<Candidate>, Fault>
    decreases |raw|
  {
    if raw == [] then Ok(done)
    else match NormalizeCandidate(providers, {head} + Named(done), raw[0])
      case Err(f) => Err(f)
      case Ok(kept) => Chain(providers, head, raw[1..], if kept.None? then done else done + [kept.value])
  }

  /** A chain whose head is disabled is dropped whole. */
  function Chains(providers: Providers, docs: seq<(string, seq<RawCandidate>)>,
      done: map<string, seq<Candidate>>): Result<map<string, seq<Candidate>>, Fault>
    decreases |docs|
  {
    if docs == [] then Ok(done)
    else
      var head := docs[0].0;
      if head !in providers then Err(UnknownProvider)
      else if !providers[head].enabled then Chains(providers, docs[1..], done)
      else match Chain(providers, head, docs[0].1, [])
        case Err(f) => Err(f)
        case Ok(chain) => Chains(providers, docs[1..], done[head := chain])
  }

  // ── The whole document ─────────────────────────────────────────────────────

  function Assemble(routing: RoutingDoc, fallback: FallbackDoc, providers: Providers): Result<Config, Fault> {
    match NormalizeDefault(providers, routing.fgChat)
    case Err(f) => Err(f)
    case Ok(fg) =>
      match NormalizeDefault(providers, routing.background)
      case Err(f) => Err(f)
      case Ok(bg) =>
        match Routes(providers, routing.routes, map[])
        case Err(f) => Err(f)
        case Ok(routes) =>
          match Semantic(providers, routing.semantic)
          case Err(f) => Err(f)
          case Ok(semantic) =>
            match Chains(providers, fallback.chains, map[])
            case Err(f) => Err(f)
            case Ok(chains) =>
              Ok(Config(providers, routes, map[FgChat := fg, Background := bg], semantic, chains,
                        fallback.enforceCapabilities != Some(false)))
  }

  function Parsed(routing: RoutingDoc, fallback: FallbackDoc): Result<Config, Fault> {
    if routing.version != 1 || fallback.version != 1 then Err(UnsupportedVersion)
    else if routing.providers == [] then Err(NoProviders)
    else match AllProviders(routing.providers, map[])
      case Err(f) => Err(f)
      case Ok(providers) => Assemble(routing, fallback, providers)
  }

  // ── The loops ──────────────────────────────────────────────────────────────

  method ParseProviders(docs: seq<(string, RawProvider)>) returns (r: Result<Providers, Fault>)
    ensures r == AllProviders(docs, map[])
  {
    var providers: Providers := map[];
    for i := 0 to |docs|
      invariant AllProviders(docs, map[]) == AllProviders(docs[i..], providers)
    {
      var p := NormalizeProvider(docs[i].0, docs[i].1);
      if p.Err? {
        return Err(p.error);
      }
      providers := providers[docs[i].0 := p.value];
    }
    return Ok(providers);
  }

  method ParseRoutes(providers: Providers, docs: seq<(string, RawRoute)>) returns (r: Result<map<string, Entry>, Fault>)
    ensures r == Routes(providers, docs, map[])
  {
    var routes: map<string, Entry> := map[];
    for i := 0 to |docs|
      invariant Routes(providers, docs, map[]) == Routes(providers, docs[i..], routes)
    {
      var e := CheckRoute(providers, docs[i]);
      if e.Err? {
        return Err(e.error);
      }
      routes := routes[docs[i].0 := e.value];
    }
    return Ok(routes);
  }

  method ParseTargets(providers: Providers, live: bool, global: set<Band>, docs: seq<RawTarget>)
      returns (r: Result<seq<Target>, Fault>)
    ensures r == Targets(providers, live, global, docs, [])
  {
    var targets: seq<Target> := [];
    var seenNetworks: set<Option<Network>> := {};
    for i := 0 to |docs|
      invariant Targets(providers, live, global, docs, []) == Targets(providers, live, global, docs[i..], targets)
      invariant seenNetworks == Networks(targets)
    {
      var t := NormalizeTarget(providers, live, global, docs[i], seenNetworks);
      if t.Err? {
        return Err(t.error);
      }
      NetworksAppend(targets, t.value);
      targets := targets + [t.value];
      seenNetworks := seenNetworks + {t.value.requireNetwork};
    }
    return Ok(targets);
  }

  lemma {:induction false} NetworksAppend(targets: seq<Target>, t: Target)
    ensures Networks(targets + [t]) == Networks(targets) + {t.requireNetwork}
  {
    var more := targets + [t];
    assert forall i :: 0 <= i < |targets| ==> more[i] == targets[i];
    assert more[|targets|] == t;
    forall n | n in Networks(targets) + {t.requireNetwork} ensures n in Networks(more) {
      if n == t.requireNetwork {
        assert more[|targets|].requireNetwork == n;
      } else {
        var i :| 0 <= i < |targets| && targets[i].requireNetwork == n;
        assert more[i].requireNetwork == n;
      }
    }
  }

  lemma {:induction false} NamedAppend(chain: seq<Candidate>, c: Candidate)
    ensures Named(chain + [c]) == Named(chain) + {c.provider}
  {
    var more := chain + [c];
    assert more[|chain|] == c;
    forall n | n in Named(chain) ensures n in Named(more) {
      var i :| 0 <= i < |chain| && chain[i].provider == n;
      assert more[i].provider == n;
    }
  }

  method ParseChain(providers: Providers, head: string, docs: seq<RawCandidate>)
      returns (r: Result<seq<Candidate>, Fault>)
    ensures r == Chain(providers, head, docs, [])
  {
    var chain: seq<Candidate> := [];
    var seen := {head};
    for i := 0 to |docs|
      invariant Chain(providers, head, docs, []) == Chain(providers, head, docs[i..], chain)
      invariant seen == {head} + Named(chain)
    {
      var kept := NormalizeCandidate(providers, seen, docs[i]);
      if kept.Err? {
        return Err(kept.error);
      }
      if kept.value.Some? {
        NamedAppend(chain, kept.value.value);
        seen := seen + {kept.value.value.provider};
        chain := chain + [kept.value.value];
      }
    }
    return Ok(chain);
  }

  method ParseChains(providers: Providers, docs: seq<(string, seq<RawCandidate>)>)
      returns (r: Result<map<string, seq<Candidate>>, Fault>)
    ensures r == Chains(providers, docs, map[])
  {
    var chains: map<string, seq<Candidate>> := map[];
    for i := 0 to |docs|
      invariant Chains(providers, docs, map[]) == Chains(providers, docs[i..], chains)
    {
      var head := docs[i].0;
      if head !in providers {
        return Err(UnknownProvider);
      }
      if !providers[head].enabled {
        continue;
      }
      var chain := ParseChain(providers, head, docs[i].1);
      if chain.Err? {
        return Err(chain.error);
      }
      chains := chains[head := chain.value];
    }
    return Ok(chains);
  }

  method ParseRoutingConfig(routing: RoutingDoc, fallback: FallbackDoc) returns (r: Result<Config, Fault>)
    ensures r == Parsed(routing, fallback)
    ensures r.Ok? ==> Accepted(r.value)
  {
    if Parsed(routing, fallback).Ok? {
      ParsedIsAccepted(routing, fallback);
    }
    if routing.version != 1 || fallback.version != 1 {
      return Err(UnsupportedVersion);
    }
    if routing.providers == [] {
      return Err(NoProviders);
    }
    var providers := ParseProviders(routing.providers);
    if providers.Err? {
      return Err(providers.error);
    }
    var fg := NormalizeDefault(providers.value, routing.fgChat);
    if fg.Err? {
      return Err(fg.error);
    }
    var bg := NormalizeDefault(providers.value, routing.background);
    if bg.Err? {
      return Err(bg.error);
    }
    var routes := ParseRoutes(providers.value, routing.routes);
    if routes.Err? {
      return Err(routes.error);
    }
    var semantic := ROUTING_OFF;
    if routing.semantic.Some? {
      var raw := routing.semantic.value;
      var bands := BandSet(raw.offloadBands);
      if bands.Err? {
        return Err(bands.error);
      }
      if raw.deadKeys {
        return Err(DeadKey);
      }
      var targets := ParseTargets(providers.value, raw.enabled, bands.value, raw.targets);
      if targets.Err? {
        return Err(targets.error);
      }
      if raw.enabled && raw.offloadBands == [] {
        return Err(NothingToOffload);
      }
      semantic := SemanticRouting(raw.enabled, targets.value, bands.value);
    }
    var chains := ParseChains(providers.value, fallback.chains);
    if chains.Err? {
      return Err(chains.error);
    }
    return Ok(Config(providers.value, routes.value, map[FgChat := fg.value, Background := bg.value], semantic,
        chains.value,
                     fallback.enforceCapabilities != Some(false)));
  }

  // ── What is accepted is well formed ────────────────────────────────────────

  lemma {:induction false} ModelsOk(available: seq<string>, models: seq<(string, string)>)
    requires Models(available, models).Ok?
    ensures var m := Models(available, models).value;
      forall b :: b in m ==> m[b] != "" && (available == [] || m[b] in available)
    ensures models != [] ==> Models(available, models).value != map[]
  {
    if models != [] {
      ModelsOk(available, models[..|models| - 1]);
      var m, last := Models(available, models).value, models[|models| - 1];
      assert CheckModel(available, last).value in m;
    }
  }

  lemma {:induction false} NormalizedProviderOk(id: string, raw: RawProvider)
    requires NormalizeProvider(id, raw).Ok?
    ensures NormalizeProvider(id, raw).value.id == id && ProviderOk(NormalizeProvider(id, raw).value)
  {
    ModelsOk(raw.available, raw.models);
  }

  lemma {:induction false} ParsedProvidersOk(docs: seq<(string, RawProvider)>, done: Providers)
    requires AllProviders(docs, done).Ok? && ProvidersOk(done)
    ensures ProvidersOk(AllProviders(docs, done).value)
    decreases |docs|
  {
    if docs != [] {
      NormalizedProviderOk(docs[0].0, docs[0].1);
      ParsedProvidersOk(docs[1..], done[docs[0].0 := NormalizeProvider(docs[0].0, docs[0].1).value]);
    }
  }

  lemma {:induction false} ProfileOk(p: Provider, entries: seq<(string, string)>)
    requires Profile(p, entries).Ok?
    ensures var m := Profile(p, entries).value; forall b :: b in m ==> m[b] != "" && Serves(p, m[b])
  {
    if entries != [] {
      ProfileOk(p, entries[..|entries| - 1]);
    }
  }

  lemma {:induction false} AllProfilesOk(p: Provider, raw: seq<(string, seq<(string, string)>)>)
    requires Profiles(p, raw).Ok?
    ensures ProfilesOk(p, Profiles(p, raw).value)
  {
    if raw != [] {
      AllProfilesOk(p, raw[..|raw| - 1]);
      ProfileOk(p, raw[|raw| - 1].1);
    }
  }

  lemma {:induction false} NormalizedEntryOk(providers: Providers, raw: RawRoute)
    requires NormalizeEntry(providers, raw).Ok?
    ensures EntryOk(providers, NormalizeEntry(providers, raw).value)
  {
    AllProfilesOk(providers[raw.provider.value], raw.profiles);
  }

  lemma {:induction false} ParsedRoutesOk(providers: Providers, docs: seq<(string, RawRoute)>, done: map<string, Entry>)
    requires Routes(providers, docs, done).Ok? && RoutesOk(providers, done)
    ensures RoutesOk(providers, Routes(providers, docs, done).value)
    decreases |docs|
  {
    if docs != [] {
      NormalizedEntryOk(providers, docs[0].1);
      ParsedRoutesOk(providers, docs[1..], done[docs[0].0 := CheckRoute(providers, docs[0]).value]);
    }
  }

  lemma {:induction false} ScopeSetOk(list: seq<string>, within: set<Scope>)
    requires ScopeSet(list, within).Ok?
    ensures ScopeSet(list, within).value <= within && (list != [] ==> ScopeSet(list, within).value != {})
  {
    if list != [] {
      ScopeSetOk(list[..|list| - 1], within);
      assert ParseScope(list[|list| - 1]).value in ScopeSet(list, within).value;
    }
  }

  lemma {:induction false} OwnBandsOk(global: set<Band>, list: seq<string>)
    requires OwnBands(global, list).Ok?
    ensures OwnBands(global, list).value <= global && (list != [] ==> OwnBands(global, list).value != {})
  {
    if list != [] {
      OwnBandsOk(global, list[..|list| - 1]);
      assert OwnBand(global, list[|list| - 1]).value in OwnBands(global, list).value;
    }
  }

  lemma {:induction false} BandScopesOk(global: set<Band>, scope: set<Scope>, entries: seq<(string, seq<string>)>)
    requires BandScopes(global, scope, entries).Ok?
    ensures var m := BandScopes(global, scope, entries).value;
      && m.Keys <= global && (entries != [] ==> m.Keys != {})
      && forall b :: b in m ==> m[b] != {} && m[b] <= scope
  {
    if entries != [] {
      var last := entries[|entries| - 1];
      BandScopesOk(global, scope, entries[..|entries| - 1]);
      ScopeSetOk(last.1, scope);
      assert OwnBand(global, last.0).value in BandScopes(global, scope, entries).value;
    }
  }

  lemma {:induction false} NormalizedTargetOk(providers: Providers, live: bool, global: set<Band>, raw: RawTarget,
      seen: set<Option<Network>>)
    requires NormalizeTarget(providers, live, global, raw, seen).Ok?
    ensures var t := NormalizeTarget(providers, live, global, raw, seen).value;
      TargetOk(providers, live, global, t) && t.requireNetwork !in seen && None !in seen
  {
    if raw.scope.Some? {
      ScopeSetOk(raw.scope.value, {Fg, Bg});
    }
    match raw.bands {
      case NoBands =>
      case BandList(list) => OwnBandsOk(global, list);
      case BandMap(entries) => BandScopesOk(global, TargetScope(raw.scope).value, entries);
    }
  }

  lemma {:induction false} TargetsOk(providers: Providers, live: bool, global: set<Band>, raw: seq<RawTarget>,
      done: seq<Target>)
    requires Targets(providers, live, global, raw, done).Ok?
    requires forall t :: t in done ==> TargetOk(providers, live, global, t)
    requires DistinctNetworks(done)
    ensures var ts := Targets(providers, live, global, raw, done).value;
      (forall t :: t in ts ==> TargetOk(providers, live, global, t)) && DistinctNetworks(ts)
    decreases |raw|
  {
    if raw != [] {
      NormalizedTargetOk(providers, live, global, raw[0], Networks(done));
      var t := NormalizeTarget(providers, live, global, raw[0], Networks(done)).value;
      var more := done + [t];
      assert forall i :: 0 <= i < |done| ==> done[i].requireNetwork in Networks(done);
      TargetsOk(providers, live, global, raw[1..], more);
    }
  }

  lemma {:induction false} BandSetOk(list: seq<string>)
    requires BandSet(list).Ok? && list != []
    ensures BandSet(list).value != {}
  {
    assert ParseBand(list[|list| - 1]).value in BandSet(list).value;
  }

  lemma {:induction false} ParsedChainOk(providers: Providers, head: string, raw: seq<RawCandidate>,
      done: seq<Candidate>)
    requires Chain(providers, head, raw, done).Ok? && ChainOk(providers, head, done)
    ensures ChainOk(providers, head, Chain(providers, head, raw, done).value)
    decreases |raw|
  {
    if raw != [] {
      var kept := NormalizeCandidate(providers, {head} + Named(done), raw[0]).value;
      if kept.Some? {
        var more := done + [kept.value];
        forall i | 0 <= i < |done| ensures done[i].provider != kept.value.provider {
          assert done[i].provider in Named(done);
        }
        assert ChainOk(providers, head, more);
        ParsedChainOk(providers, head, raw[1..], more);
      } else {
        ParsedChainOk(providers, head, raw[1..], done);
      }
    }
  }

  lemma {:induction false} ParsedChainsOk(providers: Providers, docs: seq<(string, seq<RawCandidate>)>,
      done: map<string, seq<Candidate>>)
    requires Chains(providers, docs, done).Ok? && ChainsOk(providers, done)
    ensures ChainsOk(providers, Chains(providers, docs, done).value)
    decreases |docs|
  {
    if docs != [] {
      var head := docs[0].0;
      if providers[head].enabled {
        ParsedChainOk(providers, head, docs[0].1, []);
        ParsedChainsOk(providers, docs[1..], done[head := Chain(providers, head, docs[0].1, []).value]);
      } else {
        ParsedChainsOk(providers, docs[1..], done);
      }
    }
  }

  lemma {:induction false} ParsedSemanticOk(providers: Providers, raw: Option<RawSemantic>)
    requires Semantic(providers, raw).Ok?
    ensures SemanticOk(providers, Semantic(providers, raw).value)
  {
    if raw.Some? {
      TargetsOk(providers, raw.value.enabled, BandSet(raw.value.offloadBands).value, raw.value.targets, []);
      if raw.value.enabled {
        BandSetOk(raw.value.offloadBands);
      }
    }
  }

  lemma {:induction false} DefaultOk(providers: Providers, raw: Option<RawRoute>)
    requires NormalizeDefault(providers, raw).Ok?
    ensures EntryOk(providers, NormalizeDefault(providers, raw).value)
        && NormalizeDefault(providers, raw).value.complexity.Fixed?
  {
    NormalizedEntryOk(providers, raw.value);
  }

  lemma {:induction false} Assembled(routing: RoutingDoc, fallback: FallbackDoc, providers: Providers)
    requires Assemble(routing, fallback, providers).Ok?
    ensures var c := Assemble(routing, fallback, providers).value;
      var fg, bg := NormalizeDefault(providers, routing.fgChat), NormalizeDefault(providers, routing.background);
      && c.providers == providers && fg.Ok? && bg.Ok? && c.defaults == map[FgChat := fg.value, Background := bg.value]
      && Routes(providers, routing.routes, map[]) == Ok(c.routes)
      && Semantic(providers, routing.semantic) == Ok(c.semantic)
      && Chains(providers, fallback.chains, map[]) == Ok(c.chains)
  {
  }

  lemma {:induction false} ParsedDefaultsOk(providers: Providers, fg: Option<RawRoute>, bg: Option<RawRoute>)
    requires NormalizeDefault(providers, fg).Ok? && NormalizeDefault(providers, bg).Ok?
    ensures DefaultsOk(providers, map[FgChat := NormalizeDefault(providers, fg).value,
        Background := NormalizeDefault(providers, bg).value])
  {
    DefaultOk(providers, fg);
    DefaultOk(providers, bg);
    var m := map[FgChat := NormalizeDefault(providers, fg).value, Background := NormalizeDefault(providers, bg).value];
    forall cls: JobClass
      ensures cls in m && EntryOk(providers, m[cls]) && m[cls].complexity.Fixed?
    {
      assert cls == FgChat || cls == Background;
    }
  }

  lemma {:induction false} AssembledIsAccepted(routing: RoutingDoc, fallback: FallbackDoc, providers: Providers)
    requires Assemble(routing, fallback, providers).Ok? && ProvidersOk(providers)
    ensures Accepted(Assemble(routing, fallback, providers).value)
  {
    Assembled(routing, fallback, providers);
    ParsedDefaultsOk(providers, routing.fgChat, routing.background);
    ParsedRoutesOk(providers, routing.routes, map[]);
    ParsedSemanticOk(providers, routing.semantic);
    ParsedChainsOk(providers, fallback.chains, map[]);
  }

  /** The validator's promise: nothing it lets through can name a provider or a model that is not there. */
  lemma {:induction false} ParsedIsAccepted(routing: RoutingDoc, fallback: FallbackDoc)
    requires Parsed(routing, fallback).Ok?
    ensures Accepted(Parsed(routing, fallback).value)
  {
    ParsedProvidersOk(routing.providers, map[]);
    AssembledIsAccepted(routing, fallback, AllProviders(routing.providers, map[]).value);
  }
}
