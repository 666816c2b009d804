/** The complexity bands, cheapest first. */
module Bands {
  import opened Wrappers

  datatype Band = Small | Medium | High

  function Rank(b: Band): nat {
    match b
    case Small => 0
    case Medium => 1
    case High => 2
  }

  function Name(b: Band): string {
    match b
    case Small => "small"
    case Medium => "medium"
    case High => "high"
  }

  function ParseBand(s: string): (r: Option<Band>)
    ensures r.Some? ==> Name(r.value) == s
  {
    if s == "small" then Some(Small)
    else if s == "medium" then Some(Medium)
    else if s == "high" then Some(High)
    else None
  }

  /** A string is read as the band it names, and as none when it names none. */
  lemma {:induction false} ParseIs(s: string)
    ensures forall b :: s == Name(b) ==> ParseBand(s) == Some(b)
    ensures (forall b :: s != Name(b)) ==> ParseBand(s) == None
  {
    forall b: Band | s == Name(b) ensures ParseBand(s) == Some(b) {
      ParseName(b);
    }
  }

  lemma {:induction false} ParseName(b: Band)
    ensures ParseBand(Name(b)) == Some(b)
  {
    assert "small"[0] == 's' && "medium"[0] == 'm' && "high"[0] == 'h';
  }
}

/** The routing configuration, and what an accepted one guarantees. */
module RoutingConfig {
  import opened Wrappers
  import opened Bands

  datatype Network = Public | Corporate
  datatype Scope = Fg | Bg
  datatype JobClass = FgChat | Background

  datatype Provider = Provider(id: string, enabled: bool, impl: Option<string>, fgTransport: Option<string>,
      tools: bool, available: seq<string>, models: map<Band, string>)

  datatype Complexity = FromCaller | Fixed(band: Band)

  /** `profiles`: the model a caller's requested model stands for, per band. */
  datatype Entry = Entry(provider: string, complexity: Complexity, mayOffload: bool,
      profiles: map<string, map<Band, string>>)

  datatype Foreground = Foreground(maxInputTokens: Option<int>, timeoutMs: Option<int>, maxInFlight: Option<int>)

  datatype Target = Target(provider: string, requireNetwork: Option<Network>, enabled: bool, scope: set<Scope>,
      bands: Option<set<Band>>, bandScopes: Option<map<Band, set<Scope>>>, foreground: Option<Foreground>)

  datatype SemanticRouting = SemanticRouting(enabled: bool, targets: seq<Target>, offloadBands: set<Band>)

  const ROUTING_OFF := SemanticRouting(false, [], {})

  /** `when` is the network guard, None when there is none. */
  datatype Candidate = Candidate(provider: string, when: Option<set<Network>>)

  datatype Config = Config(providers: map<string, Provider>, routes: map<string, Entry>, defaults: map<JobClass, Entry>,
                           semantic: SemanticRouting, chains: map<string, seq<Candidate>>, enforceCapabilities: bool)

  // ── What the validator guarantees ──────────────────────────────────────────

  /** The model is one this account serves, or its catalogue is empty. */
  predicate Serves(p: Provider, model: string) {
    p.available == [] || model in p.available
  }

  ghost predicate ProviderOk(p: Provider) {
    && (p.enabled ==> p.impl.Some? && p.impl.value != "" && p.models != map[])
    && (forall b :: b in p.models ==> p.models[b] != "" && Serves(p, p.models[b]))
    && (forall i, j :: 0 <= i < j < |p.available| ==> p.available[i] != p.available[j])
    && "" !in p.available
  }

  predicate Routable(providers: map<string, Provider>, id: string) {
    id in providers && providers[id].enabled
  }

  ghost predicate ProfilesOk(p: Provider, profiles: map<string, map<Band, string>>) {
    forall m, b :: m in profiles && b in profiles[m] ==> m != "" && profiles[m][b] != "" && Serves(p, profiles[m][b])
  }

  ghost predicate EntryOk(providers: map<string, Provider>, e: Entry) {
    && Routable(providers, e.provider)
    && (e.complexity.Fixed? ==> e.complexity.band in providers[e.provider].models)
    && ProfilesOk(providers[e.provider], e.profiles)
  }

  /** The bands a target takes: its own list, else the global one. */
  function BandsOf(t: Target, global: set<Band>): set<Band> {
    if t.bands.Some? then t.bands.value else global
  }

  ghost predicate TargetOk(providers: map<string, Provider>, live: bool, global: set<Band>, t: Target) {
    && t.provider in providers
    && t.scope != {}
    && BandsOf(t, global) <= global
    && (t.bands.Some? ==> t.bands.value != {})
    && (t.bandScopes.Some? ==> t.bands.Some? && t.bandScopes.value.Keys == t.bands.value)
    && (t.bandScopes.Some? ==>
          forall b :: b in t.bandScopes.value ==> t.bandScopes.value[b] != {} && t.bandScopes.value[b] <= t.scope)
    && (t.foreground.Some? ==> Fg in t.scope)
    && (live && t.enabled ==>
          Routable(providers, t.provider) && BandsOf(t, global) <= providers[t.provider].models.Keys)
  }

  /** No network is claimed twice, and nothing follows an unguarded target. */
  ghost predicate DistinctNetworks(targets: seq<Target>) {
    && (forall i, j :: 0 <= i < j < |targets| ==> targets[i].requireNetwork != targets[j].requireNetwork)
    && (forall i :: 0 <= i < |targets| - 1 ==> targets[i].requireNetwork.Some?)
  }

  ghost predicate SemanticOk(providers: map<string, Provider>, s: SemanticRouting) {
    && (forall t :: t in s.targets ==> TargetOk(providers, s.enabled, s.offloadBands, t))
    && DistinctNetworks(s.targets)
    && (s.enabled ==> s.offloadBands != {})
  }

  /** Every candidate can be routed to, none is the head, none occurs twice. */
  ghost predicate ChainOk(providers: map<string, Provider>, head: string, chain: seq<Candidate>) {
    && Routable(providers, head)
    && (forall i :: 0 <= i < |chain| ==> Routable(providers, chain[i].provider) && chain[i].provider != head)
    && (forall i, j :: 0 <= i < j < |chain| ==> chain[i].provider != chain[j].provider)
  }

  ghost predicate ProvidersOk(providers: map<string, Provider>) {
    forall id :: id in providers ==> providers[id].id == id && ProviderOk(providers[id])
  }

  /** Foreground Claude Code is only ever routed to a provider that speaks its wire. */
  ghost predicate RoutesOk(providers: map<string, Provider>, routes: map<string, Entry>) {
    && (forall k :: k in routes ==> EntryOk(providers, routes[k]))
    && ("fg-chat/claude" in routes ==>
          var e := routes["fg-chat/claude"]; e.provider in providers && providers[e.provider].fgTransport.Some?)
  }

  ghost predicate DefaultsOk(providers: map<string, Provider>, defaults: map<JobClass, Entry>) {
    forall cls :: cls in defaults && EntryOk(providers, defaults[cls]) && defaults[cls].complexity.Fixed?
  }

  ghost predicate ChainsOk(providers: map<string, Provider>, chains: map<string, seq<Candidate>>) {
    forall h :: h in chains ==> ChainOk(providers, h, chains[h])
  }

  ghost predicate Accepted(c: Config) {
    && ProvidersOk(c.providers)
    && RoutesOk(c.providers, c.routes)
    && DefaultsOk(c.providers, c.defaults)
    && SemanticOk(c.providers, c.semantic)
    && ChainsOk(c.providers, c.chains)
  }
}
