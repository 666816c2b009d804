/** Exactly which pairs of documents the validator accepts. */
module RoutingAcceptance {
  import opened Wrappers
  import opened Bands
  import opened RoutingConfig
  import opened RoutingParser
  import opened RoutingFields

  // ── Providers and routes ───────────────────────────────────────────────────

  lemma {:induction false} ProvidersAcceptedIff(docs: seq<(string, RawProvider)>, done: Providers)
    ensures AllProviders(docs, done).Ok? <==> forall i :: 0 <= i < |docs| ==> GoodProvider(docs[i].1)
    decreases |docs|
  {
    if docs != [] {
      var rest := docs[1..];
      ProviderReads(docs[0].0, docs[0].1);
      assert docs == [docs[0]] + rest;
      if GoodProvider(docs[0].1) {
        ProvidersAcceptedIff(rest, done[docs[0].0 := NormalizeProvider(docs[0].0, docs[0].1).value]);
      }
    }
  }

  /** Its key is well-formed, its entry is good, and foreground Claude Code goes where its wire is served. */
  ghost predicate GoodRouteAt(providers: Providers, route: (string, RawRoute)) {
    && RouteKey(route.0) && GoodRoute(providers, route.1)
    && (route.0 == "fg-chat/claude" ==> providers[route.1.provider.value].fgTransport.Some?)
  }

  lemma {:induction false} RoutesAcceptedIff(providers: Providers, docs: seq<(string, RawRoute)>,
      done: map<string, Entry>)
    ensures Routes(providers, docs, done).Ok? <==> forall i :: 0 <= i < |docs| ==> GoodRouteAt(providers, docs[i])
    decreases |docs|
  {
    if docs != [] {
      var rest := docs[1..];
      RouteRefusedIff(providers, docs[0]);
      assert docs == [docs[0]] + rest;
      if GoodRouteAt(providers, docs[0]) {
        RoutesAcceptedIff(providers, rest, done[docs[0].0 := CheckRoute(providers, docs[0]).value]);
      }
    }
  }

  ghost predicate GoodDefault(providers: Providers, raw: Option<RawRoute>) {
    raw.Some? && GoodRoute(providers, raw.value) && raw.value.complexity != Some("from-caller")
  }

  // ── Targets ────────────────────────────────────────────────────────────────

  /** A target that is fine by itself: provider, scope, bands, limits, network, and models where it must serve. */
  ghost predicate GoodTarget(providers: Providers, live: bool, global: set<Band>, raw: RawTarget) {
    && raw.provider.Some? && raw.provider.value in providers
    && TargetScope(raw.scope).Ok? && TargetBands(global, TargetScope(raw.scope).value, raw.bands).Ok?
    && CheckForeground(TargetScope(raw.scope).value, raw.foreground).None?
    && (exists n :: NetworkReadAs(raw.requireNetwork, n))
    && (live && raw.enabled == Some(true) ==>
          var own := TargetBands(global, TargetScope(raw.scope).value, raw.bands).value;
          && providers[raw.provider.value].enabled
          && forall b :: b in (if own.bands.Some? then own.bands.value else global) ==>
               b in providers[raw.provider.value].models)
  }

  /** And it can be reached: none before it is for its network or for all. */
  ghost predicate GoodTargetAt(providers: Providers, live: bool, global: set<Band>, raw: seq<RawTarget>, i: nat)
    requires i < |raw|
  {
    && GoodTarget(providers, live, global, raw[i])
    && forall j :: 0 <= j < i ==> raw[j].requireNetwork.Some? && raw[j].requireNetwork != raw[i].requireNetwork
  }

  lemma {:induction false} OneNetwork(raw: Option<string>, other: Option<string>, n: Option<Network>)
    requires NetworkReadAs(raw, n)
    ensures NetworkReadAs(other, n) <==> other == raw
    ensures n == None <==> raw == None
  {
  }

  /** Which networks are taken, read off the targets already checked. */
  lemma {:induction false} TakenAre(raw: seq<RawTarget>, done: seq<Target>, other: Option<string>, n: Option<Network>)
    requires TargetsReadAs(raw, done) && NetworkReadAs(other, n)
    ensures n in Networks(done) <==> exists j :: 0 <= j < |raw| && raw[j].requireNetwork == other
    ensures None in Networks(done) <==> exists j :: 0 <= j < |raw| && raw[j].requireNetwork == None
  {
    forall j | 0 <= j < |raw|
      ensures done[j].requireNetwork == n <==> raw[j].requireNetwork == other
      ensures done[j].requireNetwork == None <==> raw[j].requireNetwork == None
    {
      OneNetwork(raw[j].requireNetwork, other, done[j].requireNetwork);
      OneNetwork(other, raw[j].requireNetwork, n);
    }
  }

  lemma {:induction false} NextTargetIff(providers: Providers, live: bool, global: set<Band>, before: seq<RawTarget>,
      done: seq<Target>, raw: RawTarget)
    requires TargetsReadAs(before, done)
    ensures NormalizeTarget(providers, live, global, raw, Networks(done)).Ok? <==>
      && GoodTarget(providers, live, global, raw)
      && forall j :: 0 <= j < |before| ==>
           before[j].requireNetwork.Some? && before[j].requireNetwork != raw.requireNetwork
  {
    TargetRefusedIff(providers, live, global, raw, Networks(done));
    if n :| NetworkReadAs(raw.requireNetwork, n) {
      TakenAre(before, done, raw.requireNetwork, n);
      forall m | NetworkReadAs(raw.requireNetwork, m) ensures m == n {
      }
    }
  }

  lemma {:induction false} TargetsAcceptedIff(providers: Providers, live: bool, global: set<Band>,
      before: seq<RawTarget>, done: seq<Target>, raw: seq<RawTarget>)
    requires TargetsReadAs(before, done)
    ensures Targets(providers, live, global, raw, done).Ok? <==>
      forall i :: |before| <= i < |before + raw| ==> GoodTargetAt(providers, live, global, before + raw, i)
    decreases |raw|
  {
    if raw != [] {
      var first, rest, all := raw[0], raw[1..], before + raw;
      var grown := before + [first];
      assert grown + rest == all && all[|before|] == first;
      assert forall j :: 0 <= j < |before| ==> all[j] == before[j];
      NextTargetIff(providers, live, global, before, done, first);
      assert NormalizeTarget(providers, live, global, first, Networks(done)).Ok? <==>
          GoodTargetAt(providers, live, global, all, |before|);
      if NormalizeTarget(providers, live, global, first, Networks(done)).Ok? {
        var t := NormalizeTarget(providers, live, global, first, Networks(done)).value;
        TargetReads(providers, live, global, first, Networks(done));
        TargetsReadAppend(before, done, first, t);
        TargetsAcceptedIff(providers, live, global, grown, done + [t], rest);
      }
    }
  }

  lemma {:induction false} BandsAcceptedIff(list: seq<string>)
    ensures BandSet(list).Ok? <==> forall i :: 0 <= i < |list| ==> NamesBand(list[i])
  {
    if list != [] {
      var before, last := list[..|list| - 1], list[|list| - 1];
      BandsAcceptedIff(before);
      ReadsBand(last);
      ParseIs(last);
      assert list == before + [last];
    }
  }

  ghost function BandsNamed(list: seq<string>): set<Band> {
    set b: Band | exists i :: 0 <= i < |list| && list[i] == Name(b)
  }

  /** The offload section: known bands, no dead keys, good targets, and something to move where it is on. */
  ghost predicate GoodSemantic(providers: Providers, raw: Option<RawSemantic>) {
    raw.Some? ==>
      && (forall i :: 0 <= i < |raw.value.offloadBands| ==> NamesBand(raw.value.offloadBands[i]))
      && !raw.value.deadKeys
      && (forall i :: 0 <= i < |raw.value.targets| ==>
            GoodTargetAt(providers, raw.value.enabled, BandsNamed(raw.value.offloadBands), raw.value.targets, i))
      && (raw.value.enabled ==> raw.value.offloadBands != [])
  }

  lemma {:induction false} SemanticAcceptedIff(providers: Providers, raw: Option<RawSemantic>)
    ensures Semantic(providers, raw).Ok? <==> GoodSemantic(providers, raw)
  {
    if raw.Some? {
      BandsAcceptedIff(raw.value.offloadBands);
      if BandSet(raw.value.offloadBands).Ok? {
        var bands := BandSet(raw.value.offloadBands).value;
        BandsRead(raw.value.offloadBands);
        assert bands == BandsNamed(raw.value.offloadBands);
        TargetsAcceptedIff(providers, raw.value.enabled, bands, [], [], raw.value.targets);
        assert [] + raw.value.targets == raw.value.targets;
      }
    }
  }

  // ── Fallback chains ────────────────────────────────────────────────────────

  ghost predicate IsOn(providers: Providers, id: string) {
    id in providers && providers[id].enabled
  }

  /** A candidate is off, or comes for the first time, is not the head itself, and has a good guard. */
  ghost predicate GoodCandidateAt(providers: Providers, head: string, raw: seq<RawCandidate>, i: nat)
    requires i < |raw|
  {
    && raw[i].provider in providers
    && (IsOn(providers, raw[i].provider) ==>
          && raw[i].provider != head && GoodGuard(raw[i].when)
          && forall j :: 0 <= j < i ==> raw[j].provider != raw[i].provider)
  }

  /** The names a chain has taken are those of the candidates so far that are on. */
  ghost predicate NamedAre(providers: Providers, before: seq<RawCandidate>, done: seq<Candidate>) {
    forall id :: IsOn(providers, id) ==>
      (id in Named(done) <==> exists j :: 0 <= j < |before| && before[j].provider == id)
  }

  lemma {:induction false} NamedGrow(providers: Providers, before: seq<RawCandidate>, done: seq<Candidate>,
      raw: RawCandidate, kept: Option<Candidate>)
    requires NamedAre(providers, before, done)
    requires kept.Some? <==> IsOn(providers, raw.provider)
    requires kept.Some? ==> kept.value.provider == raw.provider
    ensures NamedAre(providers, before + [raw], if kept.None? then done else done + [kept.value])
  {
    var grown, after := before + [raw], if kept.None? then done else done + [kept.value];
    forall id | IsOn(providers, id)
      ensures id in Named(after) <==> exists j :: 0 <= j < |grown| && grown[j].provider == id
    {
      assert id in Named(after) <==> id in Named(done) || (kept.Some? && id == kept.value.provider) by {
        assert forall i :: 0 <= i < |done| ==> after[i] == done[i];
        assert kept.Some? ==> after[|done|] == kept.value;
      }
      assert grown[|before|] == raw && forall j :: 0 <= j < |before| ==> grown[j] == before[j];
    }
  }

  lemma {:induction false} ChainAcceptedIff(providers: Providers, head: string, before: seq<RawCandidate>,
      done: seq<Candidate>, raw: seq<RawCandidate>)
    requires NamedAre(providers, before, done)
    ensures Chain(providers, head, raw, done).Ok? <==>
      forall i :: |before| <= i < |before + raw| ==> GoodCandidateAt(providers, head, before + raw, i)
    decreases |raw|
  {
    if raw != [] {
      var first, rest, all, seen := raw[0], raw[1..], before + raw, {head} + Named(done);
      var grown := before + [first];
      assert grown + rest == all && all[|before|] == first;
      assert forall j :: 0 <= j < |before| ==> all[j] == before[j];
      CandidateRefusedIff(providers, seen, first);
      assert NormalizeCandidate(providers, seen, first).Ok? <==> GoodCandidateAt(providers, head, all, |before|);
      if NormalizeCandidate(providers, seen, first).Ok? {
        var kept := NormalizeCandidate(providers, seen, first).value;
        CandidateReads(providers, seen, first);
        NamedGrow(providers, before, done, first, kept);
        ChainAcceptedIff(providers, head, grown, if kept.None? then done else done + [kept.value], rest);
      }
    }
  }

  ghost predicate GoodChain(providers: Providers, doc: (string, seq<RawCandidate>)) {
    && doc.0 in providers
    && (IsOn(providers, doc.0) ==> forall i :: 0 <= i < |doc.1| ==> GoodCandidateAt(providers, doc.0, doc.1, i))
  }

  lemma {:induction false} ChainsAcceptedIff(providers: Providers, docs: seq<(string, seq<RawCandidate>)>,
      done: map<string, seq<Candidate>>)
    ensures Chains(providers, docs, done).Ok? <==> forall i :: 0 <= i < |docs| ==> GoodChain(providers, docs[i])
    decreases |docs|
  {
    if docs != [] {
      var head, raw, rest := docs[0].0, docs[0].1, docs[1..];
      assert docs == [docs[0]] + rest;
      ChainAcceptedIff(providers, head, [], [], raw);
      assert [] + raw == raw;
      if GoodChain(providers, docs[0]) {
        ChainsAcceptedIff(providers, rest,
          if IsOn(providers, head) then done[head := Chain(providers, head, raw, []).value] else done);
      }
    }
  }

  // ── The two documents ──────────────────────────────────────────────────────

  /** All that is asked of the documents beside the providers themselves. */
  ghost predicate GoodOver(providers: Providers, routing: RoutingDoc, fallback: FallbackDoc) {
    && GoodDefault(providers, routing.fgChat) && GoodDefault(providers, routing.background)
    && (forall i :: 0 <= i < |routing.routes| ==> GoodRouteAt(providers, routing.routes[i]))
    && GoodSemantic(providers, routing.semantic)
    && (forall i :: 0 <= i < |fallback.chains| ==> GoodChain(providers, fallback.chains[i]))
  }

  lemma {:induction false} AssembledIff(routing: RoutingDoc, fallback: FallbackDoc, providers: Providers)
    ensures Assemble(routing, fallback, providers).Ok? <==> GoodOver(providers, routing, fallback)
  {
    DefaultReads(providers, routing.fgChat);
    DefaultReads(providers, routing.background);
    RoutesAcceptedIff(providers, routing.routes, map[]);
    SemanticAcceptedIff(providers, routing.semantic);
    ChainsAcceptedIff(providers, fallback.chains, map[]);
  }

  /**
   Two documents are accepted exactly when both have version 1, some provider is declared, every provider is
   good, and so is everything else over a table that has of each provider its last entry.
   */
  lemma {:induction false} AcceptedIff(routing: RoutingDoc, fallback: FallbackDoc)
    ensures Parsed(routing, fallback).Ok? <==>
      && routing.version == 1 && fallback.version == 1 && routing.providers != []
      && (forall i :: 0 <= i < |routing.providers| ==> GoodProvider(routing.providers[i].1))
      && exists providers: Providers :: TableOf(routing.providers, providers) && GoodOver(providers, routing, fallback)
  {
    var docs := routing.providers;
    ProvidersAcceptedIff(docs, map[]);
    if AllProviders(docs, map[]).Ok? {
      var read := AllProviders(docs, map[]).value;
      ProvidersRead(docs, map[]);
      assert TableOf(docs, read);
      AssembledIff(routing, fallback, read);
      forall providers: Providers | TableOf(docs, providers) ensures providers == read {
        OneTable(docs, providers, read);
      }
    }
  }

  ghost predicate TableOf(docs: seq<(string, RawProvider)>, providers: Providers) {
    && (forall id, i :: LastUnder(docs, id, i) ==> id in providers && ProviderReadAs(id, docs[i].1, providers[id]))
    && (forall id :: Absent(docs, id) ==> id !in providers)
  }

  lemma {:induction false} HasLast(docs: seq<(string, RawProvider)>, id: string) returns (i: nat)
    requires !Absent(docs, id)
    ensures LastUnder(docs, id, i)
  {
    i := |docs| - 1;
    while docs[i].0 != id
      invariant i < |docs| && forall j :: i < j < |docs| ==> docs[j].0 != id
      decreases i
    {
      i := i - 1;
    }
  }

  lemma {:induction false} LastEntry(entries: seq<(string, string)>, b: Band) returns (i: nat)
    requires exists k :: 0 <= k < |entries| && entries[k].0 == Name(b)
    ensures EntryFor(entries, b, i)
  {
    i := |entries| - 1;
    while entries[i].0 != Name(b)
      invariant i < |entries| && forall j :: i < j < |entries| ==> entries[j].0 != Name(b)
      decreases i
    {
      i := i - 1;
    }
  }

  lemma {:induction false} OneMapping(entries: seq<(string, string)>, a: map<Band, string>, b: map<Band, string>)
    requires MapsBands(entries, a) && MapsBands(entries, b)
    ensures a == b
  {
    assert a.Keys == b.Keys by {
      assert forall k :: k in a <==> k in b;
    }
    forall k | k in a ensures a[k] == b[k] {
      var i := LastEntry(entries, k);
    }
  }

  /** The documents determine the table. */
  lemma {:induction false} OneTable(docs: seq<(string, RawProvider)>, a: Providers, b: Providers)
    requires TableOf(docs, a) && TableOf(docs, b)
    ensures a == b
  {
    forall id ensures id in a <==> id in b {
      if !Absent(docs, id) {
        var i := HasLast(docs, id);
      }
    }
    forall id | id in a ensures a[id] == b[id] {
      var i := HasLast(docs, id);
      OneMapping(docs[i].1.models, a[id].models, b[id].models);
    }
  }
}
