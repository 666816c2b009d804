/** What the validator takes over from the documents, field by field, and exactly which entries it refuses. */
module RoutingFields {
  import opened Wrappers
  import opened JsText
  import opened Bands
  import opened RoutingConfig
  import opened RoutingParser

  // ── Mappings from band names to models ─────────────────────────────────────

  /** The last entry for the band, in file order. */
  ghost predicate EntryFor(entries: seq<(string, string)>, b: Band, i: int) {
    && 0 <= i < |entries| && entries[i].0 == Name(b)
    && forall j :: i < j < |entries| ==> entries[j].0 != Name(b)
  }

  /** The mapping has a band exactly when the file names it, with the model the file gives. */
  ghost predicate MapsBands(entries: seq<(string, string)>, m: map<Band, string>) {
    && (forall b :: b in m <==> exists i :: 0 <= i < |entries| && entries[i].0 == Name(b))
    && (forall b, i :: b in m && EntryFor(entries, b, i) ==> m[b] == entries[i].1)
  }

  ghost predicate NamesBand(s: string) {
    exists b: Band :: s == Name(b)
  }

  ghost predicate GoodModel(available: seq<string>, entry: (string, string)) {
    NamesBand(entry.0) && entry.1 != "" && (available == [] || entry.1 in available)
  }

  lemma {:induction false} ReadsBand(s: string)
    ensures ParseBand(s).Some? <==> NamesBand(s)
    ensures ParseBand(s).Some? ==> s == Name(ParseBand(s).value)
  {
    ParseIs(s);
  }

  lemma {:induction false} MapsOneMore(entries: seq<(string, string)>, m: map<Band, string>, last: (string, string),
      b: Band)
    requires MapsBands(entries, m) && last.0 == Name(b)
    ensures MapsBands(entries + [last], m[b := last.1])
  {
    var all, n := entries + [last], m[b := last.1];
    assert forall i :: 0 <= i < |entries| ==> all[i] == entries[i];
    assert all[|entries|] == last;
    forall c: Band ensures Name(c) == Name(b) <==> c == b {
      ParseName(b);
      ParseName(c);
    }
    forall c | c in n ensures exists i :: 0 <= i < |all| && all[i].0 == Name(c) {
      if c == b {
        assert all[|entries|].0 == Name(c);
      } else {
        var i :| 0 <= i < |entries| && entries[i].0 == Name(c);
        assert all[i].0 == Name(c);
      }
    }
    forall c, i | c in n && EntryFor(all, c, i) ensures n[c] == all[i].1 {
      if c == b {
        assert i == |entries|;
      } else {
        assert EntryFor(entries, c, i);
      }
    }
  }

  ghost predicate GoodModels(available: seq<string>, entries: seq<(string, string)>) {
    forall i :: 0 <= i < |entries| ==> GoodModel(available, entries[i])
  }

  lemma {:induction false} GoodModelsOneMore(available: seq<string>, entries: seq<(string, string)>,
      last: (string, string))
    ensures GoodModels(available, entries + [last]) <==> GoodModels(available, entries) && GoodModel(available, last)
  {
    var all := entries + [last];
    assert all[|entries|] == last && forall i :: 0 <= i < |entries| ==> all[i] == entries[i];
  }

  lemma {:induction false} ModelsOneMore(available: seq<string>, entries: seq<(string, string)>, last: (string, string))
    ensures var all, before := Models(available, entries + [last]), Models(available, entries);
      && (all.Ok? <==> before.Ok? && GoodModel(available, last))
      && (all.Ok? ==> ParseBand(last.0).Some? && all.value == before.value[ParseBand(last.0).value := last.1])
  {
    assert (entries + [last])[..|entries|] == entries;
    ReadsBand(last.0);
  }

  lemma {:induction false} ModelsAre(available: seq<string>, entries: seq<(string, string)>)
    ensures Models(available, entries).Ok? <==> GoodModels(available, entries)
    ensures Models(available, entries).Ok? ==> MapsBands(entries, Models(available, entries).value)
  {
    if entries != [] {
      var before, last := entries[..|entries| - 1], entries[|entries| - 1];
      assert entries == before + [last];
      ModelsAre(available, before);
      ModelsOneMore(available, before, last);
      GoodModelsOneMore(available, before, last);
      if Models(available, entries).Ok? {
        ReadsBand(last.0);
        MapsOneMore(before, Models(available, before).value, last, ParseBand(last.0).value);
      }
    }
  }

  // ── Providers ──────────────────────────────────────────────────────────────

  ghost predicate AllGiven(list: seq<string>) {
    forall i :: 0 <= i < |list| ==> list[i] != ""
  }

  ghost predicate AllDiffer(list: seq<string>) {
    forall i, j :: 0 <= i < j < |list| ==> list[i] != list[j]
  }

  /** A provider is on unless it is switched off; one that is on needs an implementation and a model. */
  ghost predicate GoodProvider(raw: RawProvider) {
    && (raw.enabled != Some(false) ==> raw.impl.Some? && raw.impl.value != "" && raw.models != [])
    && AllGiven(raw.available) && AllDiffer(raw.available)
    && GoodModels(raw.available, raw.models)
  }

  ghost predicate ProviderReadAs(id: string, raw: RawProvider, p: Provider) {
    && p.id == id && (p.enabled <==> raw.enabled != Some(false)) && p.impl == raw.impl && p.tools == raw.tools
    && p.available == raw.available && MapsBands(raw.models, p.models)
    && (p.fgTransport.Some? <==> raw.fgTransport.Some? && raw.fgTransport.value != "")
    && (p.fgTransport.Some? ==> p.fgTransport == raw.fgTransport)
  }

  lemma {:induction false} ProviderReads(id: string, raw: RawProvider)
    ensures NormalizeProvider(id, raw).Ok? <==> GoodProvider(raw)
    ensures NormalizeProvider(id, raw).Ok? ==> ProviderReadAs(id, raw, NormalizeProvider(id, raw).value)
  {
    assert Models(raw.available, raw.models).Ok? <==> GoodModels(raw.available, raw.models) by {
      ModelsAre(raw.available, raw.models);
    }
    assert Models(raw.available, raw.models).Ok? ==> MapsBands(raw.models, Models(raw.available, raw.models).value) by {
      ModelsAre(raw.available, raw.models);
    }
    BlankListed(raw.available);
    RepeatsIs(raw.available);
  }

  lemma {:induction false} BlankListed(list: seq<string>)
    ensures "" in list <==> !AllGiven(list)
  {
  }

  lemma {:induction false} RepeatsIs(list: seq<string>)
    ensures Repeats(list) <==> !AllDiffer(list)
  {
  }

  // ── Routes ─────────────────────────────────────────────────────────────────

  ghost predicate GoodProfileEntry(p: Provider, entry: (string, string)) {
    && NamesBand(entry.0) && (exists i :: 0 <= i < |entry.1| && !IsSpace(entry.1[i]))
    && (p.available == [] || entry.1 in p.available)
  }

  ghost predicate GoodProfile(p: Provider, entries: seq<(string, string)>) {
    forall i :: 0 <= i < |entries| ==> GoodProfileEntry(p, entries[i])
  }

  lemma {:induction false} GoodProfileOneMore(p: Provider, entries: seq<(string, string)>, last: (string, string))
    ensures GoodProfile(p, entries + [last]) <==> GoodProfile(p, entries) && GoodProfileEntry(p, last)
  {
    var all := entries + [last];
    assert all[|entries|] == last && forall i :: 0 <= i < |entries| ==> all[i] == entries[i];
  }

  lemma {:induction false} ProfileOneMore(p: Provider, entries: seq<(string, string)>, last: (string, string))
    ensures var all, before := Profile(p, entries + [last]), Profile(p, entries);
      && (all.Ok? <==> before.Ok? && GoodProfileEntry(p, last))
      && (all.Ok? ==> ParseBand(last.0).Some? && all.value == before.value[ParseBand(last.0).value := last.1])
  {
    assert (entries + [last])[..|entries|] == entries;
    ReadsBand(last.0);
    assert Blank(last.1) <==> !(exists i :: 0 <= i < |last.1| && !IsSpace(last.1[i]));
  }

  lemma {:induction false} ProfileReads(p: Provider, entries: seq<(string, string)>)
    ensures Profile(p, entries).Ok? <==> GoodProfile(p, entries)
    ensures Profile(p, entries).Ok? ==> MapsBands(entries, Profile(p, entries).value)
  {
    if entries != [] {
      var before, last := entries[..|entries| - 1], entries[|entries| - 1];
      assert entries == before + [last];
      ProfileReads(p, before);
      ProfileOneMore(p, before, last);
      GoodProfileOneMore(p, before, last);
      if Profile(p, entries).Ok? {
        ReadsBand(last.0);
        MapsOneMore(before, Profile(p, before).value, last, ParseBand(last.0).value);
      }
    }
  }

  type RawProfiles = seq<(string, seq<(string, string)>)>

  ghost predicate GoodProfiles(p: Provider, raw: RawProfiles) {
    forall i :: 0 <= i < |raw| ==> raw[i].0 != "" && GoodProfile(p, raw[i].1)
  }

  lemma {:induction false} GoodProfilesOneMore(p: Provider, raw: RawProfiles, last: (string, seq<(string, string)>))
    ensures GoodProfiles(p, raw + [last]) <==> GoodProfiles(p, raw) && last.0 != "" && GoodProfile(p, last.1)
  {
    var all := raw + [last];
    assert all[|raw|] == last && forall i :: 0 <= i < |raw| ==> all[i] == raw[i];
  }

  lemma {:induction false} ProfilesUnfold(p: Provider, raw: RawProfiles, last: (string, seq<(string, string)>))
    ensures var all, before := Profiles(p, raw + [last]), Profiles(p, raw);
      && (all.Ok? <==> before.Ok? && last.0 != "" && Profile(p, last.1).Ok?)
      && (all.Ok? ==> all.value == before.value[last.0 := Profile(p, last.1).value])
  {
    assert (raw + [last])[..|raw|] == raw;
  }

  ghost predicate ProfileFor(raw: RawProfiles, name: string, i: int) {
    0 <= i < |raw| && raw[i].0 == name && forall j :: i < j < |raw| ==> raw[j].0 != name
  }

  ghost predicate MapsProfiles(raw: RawProfiles, m: map<string, map<Band, string>>) {
    && (forall name :: name in m <==> exists i :: 0 <= i < |raw| && raw[i].0 == name)
    && (forall name, i :: name in m && ProfileFor(raw, name, i) ==> MapsBands(raw[i].1, m[name]))
  }

  lemma {:induction false} ProfilesOneMore(raw: RawProfiles, m: map<string, map<Band, string>>,
      last: (string, seq<(string, string)>), profile: map<Band, string>)
    requires MapsProfiles(raw, m) && MapsBands(last.1, profile)
    ensures MapsProfiles(raw + [last], m[last.0 := profile])
  {
    var all, n := raw + [last], m[last.0 := profile];
    assert forall i :: 0 <= i < |raw| ==> all[i] == raw[i];
    assert all[|raw|] == last;
    forall name | name in n ensures exists i :: 0 <= i < |all| && all[i].0 == name {
      if name == last.0 {
        assert all[|raw|].0 == name;
      } else {
        var i :| 0 <= i < |raw| && raw[i].0 == name;
        assert all[i].0 == name;
      }
    }
    forall name, i | name in n && ProfileFor(all, name, i) ensures MapsBands(all[i].1, n[name]) {
      if name == last.0 {
        assert i == |raw|;
      } else {
        assert ProfileFor(raw, name, i);
      }
    }
  }

  lemma {:induction false} ProfilesRead(p: Provider, raw: RawProfiles)
    ensures Profiles(p, raw).Ok? <==> GoodProfiles(p, raw)
    ensures Profiles(p, raw).Ok? ==> MapsProfiles(raw, Profiles(p, raw).value)
  {
    if raw != [] {
      var before, last := raw[..|raw| - 1], raw[|raw| - 1];
      assert raw == before + [last];
      ProfilesRead(p, before);
      ProfileReads(p, last.1);
      ProfilesUnfold(p, before, last);
      GoodProfilesOneMore(p, before, last);
      if Profiles(p, raw).Ok? {
        ProfilesOneMore(before, Profiles(p, before).value, last, Profile(p, last.1).value);
      }
    }
  }

  /**
   A route names a provider that is on, and `from-caller` or a band that provider has a model for; medium
   when it names none.
   */
  ghost predicate GoodRoute(providers: Providers, raw: RawRoute) {
    && raw.provider.Some? && raw.provider.value != ""
    && raw.provider.value in providers && providers[raw.provider.value].enabled
    && (raw.complexity == Some("from-caller")
        || exists b :: AsksBand(raw, b) && b in providers[raw.provider.value].models)
    && GoodProfiles(providers[raw.provider.value], raw.profiles)
  }

  ghost predicate AsksBand(raw: RawRoute, b: Band) {
    raw.complexity == Some(Name(b)) || (raw.complexity == None && b == Medium)
  }

  ghost predicate RouteReadAs(raw: RawRoute, e: Entry) {
    && raw.provider == Some(e.provider)
    && (e.complexity.FromCaller? <==> raw.complexity == Some("from-caller"))
    && (e.complexity.Fixed? ==> AsksBand(raw, e.complexity.band))
    && (e.mayOffload <==> raw.offload != Some(false))
    && MapsProfiles(raw.profiles, e.profiles)
  }

  lemma {:induction false} NotFromCaller(b: Band)
    ensures Name(b) != "from-caller"
  {
    assert |"from-caller"| == 11 && |"small"| == 5 && |"medium"| == 6 && |"high"| == 4;
  }

  lemma {:induction false} AsksIs(raw: RawRoute)
    requires raw.complexity != Some("from-caller")
    ensures forall b :: AsksBand(raw, b) <==> ParseBand(raw.complexity.GetOr("medium")) == Some(b)
    ensures raw.complexity.GetOr("medium") != "from-caller"
  {
    var asked := raw.complexity.GetOr("medium");
    NotFromCaller(Medium);
    forall b: Band ensures AsksBand(raw, b) <==> ParseBand(asked) == Some(b) {
      ParseName(b);
      ParseName(Medium);
      ParseIs(asked);
    }
  }

  lemma {:induction false} RouteReads(providers: Providers, raw: RawRoute)
    ensures NormalizeEntry(providers, raw).Ok? <==> GoodRoute(providers, raw)
    ensures NormalizeEntry(providers, raw).Ok? ==> RouteReadAs(raw, NormalizeEntry(providers, raw).value)
  {
    if raw.provider.Some? && raw.provider.value in providers {
      ProfilesRead(providers[raw.provider.value], raw.profiles);
    }
    if raw.complexity != Some("from-caller") {
      AsksIs(raw);
    }
  }

  ghost predicate KeyChar(ch: char) {
    'a' <= ch <= 'z' || 'A' <= ch <= 'Z' || '0' <= ch <= '9' || ch == '.' || ch == '_' || ch == '-'
  }

  ghost predicate KeyPart(s: string) {
    s != "" && (forall i :: 0 <= i < |s| ==> KeyChar(s[i])) && s[0] != '.' && s[0] != '_' && s[0] != '-'
  }

  /** A key is one part, or two with a slash between them. */
  lemma {:induction false} RouteKeyIs(key: string)
    ensures RouteKey(key) <==> KeyPart(key) || exists a, b :: KeyPart(a) && KeyPart(b) && key == a + "/" + b
  {
    if i :| 0 <= i < |key| && key[i] == '/' && Segment(key[..i]) && Segment(key[i + 1..]) {
      assert KeyPart(key[..i]) && KeyPart(key[i + 1..]) && key == key[..i] + "/" + key[i + 1..];
    }
    if a, b :| KeyPart(a) && KeyPart(b) && key == a + "/" + b {
      assert key[|a|] == '/' && key[..|a|] == a && key[|a| + 1..] == b;
      assert Segment(key[..|a|]) && Segment(key[|a| + 1..]);
    }
  }

  /**
   A route is refused exactly for its key, its entry, or foreground Claude Code on a provider that cannot
   serve its wire.
   */
  lemma {:induction false} RouteRefusedIff(providers: Providers, route: (string, RawRoute))
    ensures CheckRoute(providers, route).Ok? <==>
      && RouteKey(route.0) && GoodRoute(providers, route.1)
      && (route.0 == "fg-chat/claude" ==> providers[route.1.provider.value].fgTransport.Some?)
  {
    RouteReads(providers, route.1);
  }

  /** Class defaults are routes with a band of their own. */
  lemma {:induction false} DefaultReads(providers: Providers, raw: Option<RawRoute>)
    ensures NormalizeDefault(providers, raw).Ok? <==>
      raw.Some? && GoodRoute(providers, raw.value) && raw.value.complexity != Some("from-caller")
    ensures NormalizeDefault(providers, raw).Ok? ==> RouteReadAs(raw.value, NormalizeDefault(providers, raw).value)
  {
    if raw.Some? {
      RouteReads(providers, raw.value);
    }
  }

  // ── Offload targets ────────────────────────────────────────────────────────

  ghost predicate ScopeName(s: string, scope: Scope) {
    s == if scope == Fg then "fg" else "bg"
  }

  ghost predicate ListsScope(list: seq<string>, scope: Scope) {
    exists i :: 0 <= i < |list| && ScopeName(list[i], scope)
  }

  ghost predicate KnownScope(s: string, within: set<Scope>) {
    exists scope :: ScopeName(s, scope) && scope in within
  }

  /** The scopes a list names, all known and none beyond `within`. */
  ghost predicate ReadsScopes(list: seq<string>, within: set<Scope>, scopes: set<Scope>) {
    && (forall scope :: scope in scopes <==> ListsScope(list, scope))
    && (forall i :: 0 <= i < |list| ==> KnownScope(list[i], within))
  }

  lemma {:induction false} ScopeOneMore(list: seq<string>, within: set<Scope>, scopes: set<Scope>, last: string,
      scope: Scope)
    requires ReadsScopes(list, within, scopes) && ScopeName(last, scope) && scope in within
    ensures ReadsScopes(list + [last], within, scopes + {scope})
  {
    var all := list + [last];
    assert all[|list|] == last && forall i :: 0 <= i < |list| ==> all[i] == list[i];
    ScopeParses(last);
    forall s ensures ListsScope(all, s) <==> s in scopes + {scope} {
      if i :| 0 <= i < |list| && ScopeName(list[i], s) {
        assert ScopeName(all[i], s);
      }
      if s == scope {
        assert ScopeName(all[|list|], s);
      }
    }
  }

  lemma {:induction false} ScopeParses(s: string)
    ensures forall scope :: ScopeName(s, scope) <==> ParseScope(s) == Some(scope)
    ensures ParseScope(s).None? <==> forall scope :: !ScopeName(s, scope)
  {
    assert "fg"[0] != "bg"[0];
    if ParseScope(s).Some? {
      assert ScopeName(s, ParseScope(s).value);
    }
  }

  lemma {:induction false} ScopesUnfold(list: seq<string>, within: set<Scope>, last: string)
    ensures var all, before := ScopeSet(list + [last], within), ScopeSet(list, within);
      && (all.Ok? <==> before.Ok? && KnownScope(last, within))
      && (all.Ok? ==> ParseScope(last).Some? && all.value == before.value + {ParseScope(last).value})
  {
    assert (list + [last])[..|list|] == list;
    ScopeParses(last);
  }

  lemma {:induction false} ScopesRead(list: seq<string>, within: set<Scope>)
    ensures ScopeSet(list, within).Ok? ==> ReadsScopes(list, within, ScopeSet(list, within).value)
    ensures (forall i :: 0 <= i < |list| ==> KnownScope(list[i], within)) ==> ScopeSet(list, within).Ok?
  {
    if list != [] {
      var before, last := list[..|list| - 1], list[|list| - 1];
      assert list == before + [last];
      ScopesRead(before, within);
      ScopesUnfold(before, within, last);
      assert forall i :: 0 <= i < |before| ==> before[i] == list[i];
      if ScopeSet(list, within).Ok? {
        ScopeParses(last);
        ScopeOneMore(before, within, ScopeSet(before, within).value, last, ParseScope(last).value);
      }
    }
  }

  ghost predicate ListsBand(list: seq<string>, b: Band) {
    exists i :: 0 <= i < |list| && list[i] == Name(b)
  }

  ghost predicate ReadsBands(list: seq<string>, bands: set<Band>) {
    forall b :: b in bands <==> ListsBand(list, b)
  }

  lemma {:induction false} BandOneMore(list: seq<string>, bands: set<Band>, last: string, band: Band)
    requires ReadsBands(list, bands) && last == Name(band)
    ensures ReadsBands(list + [last], bands + {band})
  {
    var all := list + [last];
    assert all[|list|] == last && forall i :: 0 <= i < |list| ==> all[i] == list[i];
    ParseIs(last);
    forall b ensures ListsBand(all, b) <==> b in bands + {band} {
      if i :| 0 <= i < |list| && list[i] == Name(b) {
        assert all[i] == Name(b);
      }
      if b == band {
        assert all[|list|] == Name(b);
      }
    }
  }

  lemma {:induction false} BandsUnfold(list: seq<string>, last: string)
    ensures var all, before := BandSet(list + [last]), BandSet(list);
      && (all.Ok? <==> before.Ok? && NamesBand(last))
      && (all.Ok? ==> ParseBand(last).Some? && all.value == before.value + {ParseBand(last).value})
  {
    assert (list + [last])[..|list|] == list;
    ReadsBand(last);
  }

  lemma {:induction false} BandsRead(list: seq<string>)
    requires BandSet(list).Ok?
    ensures ReadsBands(list, BandSet(list).value)
  {
    if list != [] {
      var before, last := list[..|list| - 1], list[|list| - 1];
      assert list == before + [last];
      BandsUnfold(before, last);
      BandsRead(before);
      ReadsBand(last);
      BandOneMore(before, BandSet(before).value, last, ParseBand(last).value);
    }
  }

  lemma {:induction false} OwnBandsUnfold(global: set<Band>, list: seq<string>, last: string)
    requires OwnBands(global, list + [last]).Ok?
    ensures OwnBands(global, list).Ok? && ParseBand(last).Some?
    ensures OwnBands(global, list + [last]).value == OwnBands(global, list).value + {ParseBand(last).value}
  {
    assert (list + [last])[..|list|] == list;
  }

  lemma {:induction false} OwnBandsRead(global: set<Band>, list: seq<string>)
    requires OwnBands(global, list).Ok?
    ensures ReadsBands(list, OwnBands(global, list).value)
  {
    if list != [] {
      var before, last := list[..|list| - 1], list[|list| - 1];
      assert list == before + [last];
      OwnBandsUnfold(global, before, last);
      OwnBandsRead(global, before);
      ReadsBand(last);
      BandOneMore(before, OwnBands(global, before).value, last, ParseBand(last).value);
    }
  }

  lemma {:induction false} NetworkParses(s: string)
    ensures ParseNetwork(s) == Some(Public) <==> s == "public"
    ensures ParseNetwork(s) == Some(Corporate) <==> s == "corporate"
  {
    assert "public"[0] != "corporate"[0];
  }

  ghost predicate NetworkReadAs(raw: Option<string>, network: Option<Network>) {
    match network
    case None => raw == None
    case Some(Public) => raw == Some("public")
    case Some(Corporate) => raw == Some("corporate")
  }

  /**
   A target takes over its provider, its switch (off unless switched on), network guard, scope, limits and
   list of bands.
   */
  ghost predicate TargetReadAs(raw: RawTarget, t: Target) {
    && raw.provider == Some(t.provider)
    && (t.enabled <==> raw.enabled == Some(true))
    && NetworkReadAs(raw.requireNetwork, t.requireNetwork)
    && t.foreground == raw.foreground
    && (raw.scope.None? ==> t.scope == {Fg, Bg})
    && (raw.scope.Some? ==> raw.scope.value != [] && ReadsScopes(raw.scope.value, {Fg, Bg}, t.scope))
    && match raw.bands
       case NoBands => t.bands.None? && t.bandScopes.None?
       case BandList(list) => t.bands.Some? && t.bandScopes.None? && ReadsBands(list, t.bands.value)
       case BandMap(entries) => t.bands.Some? && t.bandScopes.Some? && MapsScopes(entries, t.scope, t.bandScopes.value)
                                && t.bands.value == t.bandScopes.value.Keys
  }

  type RawScopes = seq<(string, seq<string>)>

  ghost predicate ScopesFor(entries: RawScopes, b: Band, i: int) {
    0 <= i < |entries| && entries[i].0 == Name(b) && forall j :: i < j < |entries| ==> entries[j].0 != Name(b)
  }

  /** Each band named has exactly the scopes the file lists for it. */
  ghost predicate MapsScopes(entries: RawScopes, within: set<Scope>, m: map<Band, set<Scope>>) {
    && (forall b :: b in m <==> exists i :: 0 <= i < |entries| && entries[i].0 == Name(b))
    && (forall b, i :: b in m && ScopesFor(entries, b, i) ==> ReadsScopes(entries[i].1, within, m[b]))
  }

  lemma {:induction false} ScopesOneMore(entries: RawScopes, within: set<Scope>, m: map<Band, set<Scope>>,
      last: (string, seq<string>), b: Band, scopes: set<Scope>)
    requires MapsScopes(entries, within, m) && last.0 == Name(b) && ReadsScopes(last.1, within, scopes)
    ensures MapsScopes(entries + [last], within, m[b := scopes])
  {
    var all, n := entries + [last], m[b := scopes];
    assert forall i :: 0 <= i < |entries| ==> all[i] == entries[i];
    assert all[|entries|] == last;
    forall c: Band ensures Name(c) == Name(b) <==> c == b {
      ParseName(b);
      ParseName(c);
    }
    forall c | c in n ensures exists i :: 0 <= i < |all| && all[i].0 == Name(c) {
      if c == b {
        assert all[|entries|].0 == Name(c);
      } else {
        var i :| 0 <= i < |entries| && entries[i].0 == Name(c);
        assert all[i].0 == Name(c);
      }
    }
    forall c, i | c in n && ScopesFor(all, c, i) ensures ReadsScopes(all[i].1, within, n[c]) {
      if c == b {
        assert i == |entries|;
      } else {
        assert ScopesFor(entries, c, i);
      }
    }
  }

  lemma {:induction false} BandScopesUnfold(global: set<Band>, within: set<Scope>, entries: RawScopes,
      last: (string, seq<string>))
    requires BandScopes(global, within, entries + [last]).Ok?
    ensures BandScopes(global, within, entries).Ok? && ParseBand(last.0).Some? && ScopeSet(last.1, within).Ok?
    ensures BandScopes(global, within, entries + [last]).value
         == BandScopes(global, within, entries).value[ParseBand(last.0).value := ScopeSet(last.1, within).value]
  {
    assert (entries + [last])[..|entries|] == entries;
  }

  lemma {:induction false} BandScopesRead(global: set<Band>, within: set<Scope>, entries: RawScopes)
    requires BandScopes(global, within, entries).Ok?
    ensures MapsScopes(entries, within, BandScopes(global, within, entries).value)
  {
    if entries != [] {
      var before, last := entries[..|entries| - 1], entries[|entries| - 1];
      assert entries == before + [last];
      BandScopesUnfold(global, within, before, last);
      BandScopesRead(global, within, before);
      ReadsBand(last.0);
      ScopesRead(last.1, within);
      ScopesOneMore(before, within, BandScopes(global, within, before).value, last, ParseBand(last.0).value,
          ScopeSet(last.1, within).value);
    }
  }

  lemma {:induction false} PolicyReads(global: set<Band>, scope: set<Scope>, raw: RawBands)
    requires TargetBands(global, scope, raw).Ok?
    ensures var own := TargetBands(global, scope, raw).value;
      match raw
      case NoBands => own.bands.None? && own.bandScopes.None?
      case BandList(list) => own.bands.Some? && own.bandScopes.None? && ReadsBands(list, own.bands.value)
      case BandMap(entries) =>
        && own.bands.Some?
        && own.bandScopes.Some?
        && MapsScopes(entries, scope, own.bandScopes.value)
        && own.bands.value == own.bandScopes.value.Keys
  {
    match raw {
      case NoBands =>
      case BandList(list) => OwnBandsRead(global, list);
      case BandMap(entries) => BandScopesRead(global, scope, entries);
    }
  }

  // ── Which targets and candidates are refused ───────────────────────────────

  lemma {:induction false} ScopeRefusedIff(raw: Option<seq<string>>)
    ensures TargetScope(raw).Ok? <==>
      raw.None? || (raw.value != [] && forall i :: 0 <= i < |raw.value| ==>
                      raw.value[i] == "fg" || raw.value[i] == "bg")
  {
    if raw.Some? {
      ScopesRead(raw.value, {Fg, Bg});
      forall s: string ensures KnownScope(s, {Fg, Bg}) <==> s == "fg" || s == "bg" {
        ScopeParses(s);
        if s == "fg" {
          assert ScopeName(s, Fg);
        }
        if s == "bg" {
          assert ScopeName(s, Bg);
        }
      }
    }
  }

  ghost predicate OwnName(global: set<Band>, s: string) {
    exists b :: s == Name(b) && b in global
  }

  lemma {:induction false} OwnNameIs(global: set<Band>, s: string)
    ensures OwnBand(global, s).Ok? <==> OwnName(global, s)
  {
    ReadsBand(s);
    ParseIs(s);
  }

  lemma {:induction false} OwnBandsRefusedIff(global: set<Band>, list: seq<string>)
    ensures OwnBands(global, list).Ok? <==> forall i :: 0 <= i < |list| ==> OwnName(global, list[i])
  {
    if list != [] {
      OwnBandsRefusedIff(global, list[..|list| - 1]);
      OwnNameIs(global, list[|list| - 1]);
    }
  }

  ghost predicate GoodScopes(global: set<Band>, within: set<Scope>, entry: (string, seq<string>)) {
    OwnName(global, entry.0) && entry.1 != [] && forall i :: 0 <= i < |entry.1| ==> KnownScope(entry.1[i], within)
  }

  lemma {:induction false} BandScopesRefusedIff(global: set<Band>, within: set<Scope>, entries: RawScopes)
    ensures BandScopes(global, within, entries).Ok? <==>
      forall i :: 0 <= i < |entries| ==> GoodScopes(global, within, entries[i])
  {
    if entries != [] {
      var before, last := entries[..|entries| - 1], entries[|entries| - 1];
      BandScopesRefusedIff(global, within, before);
      OwnNameIs(global, last.0);
      ScopesRead(last.1, within);
      assert forall i :: 0 <= i < |before| ==> before[i] == entries[i];
    }
  }

  /** The bands a target names for itself are never beyond the global ones, nor their scopes beyond the target's. */
  lemma {:induction false} PolicyRefusedIff(global: set<Band>, scope: set<Scope>, raw: RawBands)
    ensures TargetBands(global, scope, raw).Ok? <==>
      match raw
      case NoBands => true
      case BandList(list) => list != [] && forall i :: 0 <= i < |list| ==> OwnName(global, list[i])
      case BandMap(entries) => entries != [] && forall i :: 0 <= i < |entries| ==> GoodScopes(global, scope, entries[i])
  {
    match raw {
      case NoBands =>
      case BandList(list) => OwnBandsRefusedIff(global, list);
      case BandMap(entries) => BandScopesRefusedIff(global, scope, entries);
    }
  }

  /**
   A target is refused exactly for a missing or unknown provider, one that is off where it must serve, its
   scope, bands, limits or network, a network already taken, an unguarded target before it, or a band its
   provider has no model for.
   */
  lemma {:induction false} TargetRefusedIff(providers: Providers, live: bool, global: set<Band>, raw: RawTarget,
      seen: set<Option<Network>>)
    ensures NormalizeTarget(providers, live, global, raw, seen).Ok? <==>
      && raw.provider.Some? && raw.provider.value in providers
      && TargetScope(raw.scope).Ok? && TargetBands(global, TargetScope(raw.scope).value, raw.bands).Ok?
      && CheckForeground(TargetScope(raw.scope).value, raw.foreground).None?
      && (exists n :: NetworkReadAs(raw.requireNetwork, n) && n !in seen) && None !in seen
      && (live && raw.enabled == Some(true) ==>
            var own := TargetBands(global, TargetScope(raw.scope).value, raw.bands).value;
            && providers[raw.provider.value].enabled
            && forall b :: b in (if own.bands.Some? then own.bands.value else global) ==>
                 b in providers[raw.provider.value].models)
  {
    var n := if raw.requireNetwork.None? then None else ParseNetwork(raw.requireNetwork.value);
    if raw.requireNetwork.Some? {
      NetworkParses(raw.requireNetwork.value);
    }
    forall m ensures NetworkReadAs(raw.requireNetwork, m) <==> m == n && (raw.requireNetwork.Some? ==> n.Some?) {
    }
  }

  ghost predicate GoodGuard(when: seq<(string, seq<string>)>) {
    forall i :: 0 <= i < |when| ==>
      when[i].0 == "network" && forall j :: 0 <= j < |when[i].1| ==>
        when[i].1[j] == "public" || when[i].1[j] == "corporate"
  }

  lemma {:induction false} NetworksRefusedIff(list: seq<string>)
    ensures NetworkSet(list).Ok? <==> forall j :: 0 <= j < |list| ==> list[j] == "public" || list[j] == "corporate"
  {
    if list != [] {
      NetworksRefusedIff(list[..|list| - 1]);
    }
  }

  lemma {:induction false} GuardRefusedIff(when: seq<(string, seq<string>)>)
    ensures Guard(when).Ok? <==> GoodGuard(when)
  {
    if when != [] {
      var before, last := when[..|when| - 1], when[|when| - 1];
      GuardRefusedIff(before);
      NetworksRefusedIff(last.1);
      assert forall i :: 0 <= i < |before| ==> before[i] == when[i];
    }
  }

  /** A fallback is refused exactly for an unknown provider, or, where that is on, a repetition or its guard. */
  lemma {:induction false} CandidateRefusedIff(providers: Providers, seen: set<string>, raw: RawCandidate)
    ensures NormalizeCandidate(providers, seen, raw).Ok? <==>
      raw.provider in providers && (providers[raw.provider].enabled ==> raw.provider !in seen && GoodGuard(raw.when))
  {
    GuardRefusedIff(raw.when);
  }

  lemma {:induction false} TargetReads(providers: Providers, live: bool, global: set<Band>, raw: RawTarget,
      seen: set<Option<Network>>)
    requires NormalizeTarget(providers, live, global, raw, seen).Ok?
    ensures TargetReadAs(raw, NormalizeTarget(providers, live, global, raw, seen).value)
  {
    var t := NormalizeTarget(providers, live, global, raw, seen).value;
    if raw.scope.Some? {
      ScopesRead(raw.scope.value, {Fg, Bg});
    }
    PolicyReads(global, t.scope, raw.bands);
    if raw.requireNetwork.Some? {
      NetworkParses(raw.requireNetwork.value);
    }
  }

  /**
   Limits stand only on a target that serves the foreground, each a positive number, the ceiling at least a
   second.
   */
  lemma {:induction false} LimitsAre(scope: set<Scope>, raw: Option<Foreground>)
    ensures CheckForeground(scope, raw).None? <==>
      raw.None? ||
      (&& Fg in scope
       && (forall ms :: raw.value.timeoutMs == Some(ms) ==> ms >= 1000)
       && (forall n :: raw.value.maxInputTokens == Some(n) ==> n > 0)
       && (forall n :: raw.value.maxInFlight == Some(n) ==> n > 0))
  {
  }

  ghost predicate TargetsReadAs(raw: seq<RawTarget>, targets: seq<Target>) {
    |targets| == |raw| && forall i :: 0 <= i < |raw| ==> TargetReadAs(raw[i], targets[i])
  }

  lemma {:induction false} TargetsReadAppend(raw: seq<RawTarget>, targets: seq<Target>, last: RawTarget, t: Target)
    requires TargetsReadAs(raw, targets) && TargetReadAs(last, t)
    ensures TargetsReadAs(raw + [last], targets + [t])
  {
  }

  lemma {:induction false} TargetsRead(providers: Providers, live: bool, global: set<Band>, raw: seq<RawTarget>,
      before: seq<RawTarget>, done: seq<Target>)
    requires Targets(providers, live, global, raw, done).Ok? && TargetsReadAs(before, done)
    ensures TargetsReadAs(before + raw, Targets(providers, live, global, raw, done).value)
    decreases |raw|
  {
    if raw == [] {
      assert before + raw == before;
    } else {
      var first, rest := raw[0], raw[1..];
      var t := NormalizeTarget(providers, live, global, first, Networks(done)).value;
      var grown := before + [first];
      assert TargetsReadAs(grown, done + [t]) by {
        TargetReads(providers, live, global, first, Networks(done));
        TargetsReadAppend(before, done, first, t);
      }
      TargetsRead(providers, live, global, rest, grown, done + [t]);
      assert grown + rest == before + raw;
    }
  }

  ghost predicate SemanticReadAs(raw: Option<RawSemantic>, s: SemanticRouting) {
    if raw.None? then !s.enabled && s.targets == []
    else
      && s.enabled == raw.value.enabled && ReadsBands(raw.value.offloadBands, s.offloadBands)
      && TargetsReadAs(raw.value.targets, s.targets)
  }

  lemma {:induction false} SemanticReads(providers: Providers, raw: Option<RawSemantic>)
    requires Semantic(providers, raw).Ok?
    ensures SemanticReadAs(raw, Semantic(providers, raw).value)
  {
    if raw.Some? {
      BandsRead(raw.value.offloadBands);
      TargetsRead(providers, raw.value.enabled, BandSet(raw.value.offloadBands).value, raw.value.targets, [], []);
      assert [] + raw.value.targets == raw.value.targets;
    }
  }

  // ── Fallback chains ────────────────────────────────────────────────────────

  ghost predicate ListsNetwork(list: seq<string>, n: Network) {
    exists i :: 0 <= i < |list| && list[i] == if n == Public then "public" else "corporate"
  }

  lemma {:induction false} NetworksRead(list: seq<string>)
    requires NetworkSet(list).Ok?
    ensures forall n :: n in NetworkSet(list).value <==> ListsNetwork(list, n)
  {
    if list != [] {
      var before, last := list[..|list| - 1], list[|list| - 1];
      NetworksRead(before);
      NetworkParses(last);
      assert list[|before|] == last && forall i :: 0 <= i < |before| ==> before[i] == list[i];
      forall n ensures n in NetworkSet(list).value <==> ListsNetwork(list, n) {
        var name := if n == Public then "public" else "corporate";
        if i :| 0 <= i < |before| && before[i] == name {
          assert list[i] == name;
        }
        if last == name {
          assert list[|before|] == name;
        }
      }
    }
  }

  /** A guard lets through exactly the networks listed; without a `when` there is none. */
  ghost predicate GuardReadAs(when: seq<(string, seq<string>)>, w: Option<set<Network>>) {
    if when == [] then w == None
    else w.Some? && when[|when| - 1].0 == "network" && forall n :: n in w.value <==> ListsNetwork(when[|when| - 1].1, n)
  }

  lemma {:induction false} GuardReads(when: seq<(string, seq<string>)>)
    requires Guard(when).Ok?
    ensures GuardReadAs(when, Guard(when).value)
  {
    if when != [] {
      NetworksRead(when[|when| - 1].1);
    }
  }

  /** The candidates of a file whose provider is on, in order. */
  ghost function Live(providers: Providers, raw: seq<RawCandidate>): seq<RawCandidate> {
    if raw == [] then []
    else
      var later := Live(providers, raw[1..]);
      if raw[0].provider in providers && providers[raw[0].provider].enabled then [raw[0]] + later else later
  }

  ghost predicate ChainReadAs(live: seq<RawCandidate>, chain: seq<Candidate>) {
    |chain| == |live| && forall i :: 0 <= i < |chain| ==>
      chain[i].provider == live[i].provider && GuardReadAs(live[i].when, chain[i].when)
  }

  lemma {:induction false} ChainReadAppend(live: seq<RawCandidate>, chain: seq<Candidate>, raw: RawCandidate,
      cand: Candidate)
    requires ChainReadAs(live, chain) && cand.provider == raw.provider && GuardReadAs(raw.when, cand.when)
    ensures ChainReadAs(live + [raw], chain + [cand])
  {
  }

  lemma {:induction false} CandidateReads(providers: Providers, seen: set<string>, raw: RawCandidate)
    requires NormalizeCandidate(providers, seen, raw).Ok?
    ensures var kept := NormalizeCandidate(providers, seen, raw).value;
      && (kept.Some? <==> raw.provider in providers && providers[raw.provider].enabled)
      && (kept.Some? ==> kept.value.provider == raw.provider && GuardReadAs(raw.when, kept.value.when))
  {
    if providers[raw.provider].enabled {
      GuardReads(raw.when);
    }
  }

  lemma {:induction false} ChainReads(providers: Providers, head: string, raw: seq<RawCandidate>,
      before: seq<RawCandidate>, done: seq<Candidate>)
    requires Chain(providers, head, raw, done).Ok? && ChainReadAs(before, done)
    ensures ChainReadAs(before + Live(providers, raw), Chain(providers, head, raw, done).value)
    decreases |raw|
  {
    if raw == [] {
      assert before + [] == before;
    } else {
      var first, rest := raw[0], raw[1..];
      var kept := NormalizeCandidate(providers, {head} + Named(done), first).value;
      var later := Live(providers, rest);
      CandidateReads(providers, {head} + Named(done), first);
      if kept.None? {
        assert Live(providers, raw) == later;
        ChainReads(providers, head, rest, before, done);
      } else {
        assert Live(providers, raw) == [first] + later;
        ChainReadAppend(before, done, first, kept.value);
        ChainReads(providers, head, rest, before + [first], done + [kept.value]);
        Regroup(before, first, later);
      }
    }
  }

  lemma {:induction false} Regroup<T>(a: seq<T>, x: T, b: seq<T>)
    ensures a + [x] + b == a + ([x] + b)
  {
  }

  // ── The whole configuration ────────────────────────────────────────────────

  /** The last entry of a mapping under a key. */
  ghost predicate LastUnder<T>(docs: seq<(string, T)>, key: string, i: int) {
    0 <= i < |docs| && docs[i].0 == key && forall j :: i < j < |docs| ==> docs[j].0 != key
  }

  ghost predicate Absent<T>(docs: seq<(string, T)>, key: string) {
    forall i :: 0 <= i < |docs| ==> docs[i].0 != key
  }

  lemma {:induction false} ProvidersRead(docs: seq<(string, RawProvider)>, done: Providers)
    requires AllProviders(docs, done).Ok?
    ensures var all := AllProviders(docs, done).value;
      && (forall id, i :: LastUnder(docs, id, i) ==> id in all && ProviderReadAs(id, docs[i].1, all[id]))
      && (forall id :: Absent(docs, id) ==>
            (id in all <==> id in done) && (id in all ==> all[id] == done[id]))
    decreases |docs|
  {
    if docs != [] {
      var key, raw, rest := docs[0].0, docs[0].1, docs[1..];
      ProviderReads(key, raw);
      ProvidersRead(rest, done[key := NormalizeProvider(key, raw).value]);
      assert forall i :: 0 <= i < |rest| ==> rest[i] == docs[i + 1];
      forall id, i | LastUnder(docs, id, i)
        ensures id in AllProviders(docs, done).value
            && ProviderReadAs(id, docs[i].1, AllProviders(docs, done).value[id])
      {
        if i > 0 {
          assert LastUnder(rest, id, i - 1);
        } else {
          assert forall j :: 0 <= j < |rest| ==> rest[j].0 != id;
        }
      }
    }
  }

  lemma {:induction false} RoutesRead(providers: Providers, docs: seq<(string, RawRoute)>, done: map<string, Entry>)
    requires Routes(providers, docs, done).Ok?
    ensures var all := Routes(providers, docs, done).value;
      && (forall key, i :: LastUnder(docs, key, i) ==> key in all && RouteReadAs(docs[i].1, all[key]))
      && (forall key :: Absent(docs, key) ==>
            (key in all <==> key in done) && (key in all ==> all[key] == done[key]))
    decreases |docs|
  {
    if docs != [] {
      var key, raw, rest := docs[0].0, docs[0].1, docs[1..];
      RouteReads(providers, raw);
      RoutesRead(providers, rest, done[key := CheckRoute(providers, docs[0]).value]);
      assert forall i :: 0 <= i < |rest| ==> rest[i] == docs[i + 1];
      forall k, i | LastUnder(docs, k, i)
        ensures k in Routes(providers, docs, done).value
            && RouteReadAs(docs[i].1, Routes(providers, docs, done).value[k])
      {
        if i > 0 {
          assert LastUnder(rest, k, i - 1);
        } else {
          assert forall j :: 0 <= j < |rest| ==> rest[j].0 != k;
        }
      }
    }
  }

  /**
   The chain of a head that is on is its candidates that are on, in order, with their guards; that of another
   head is dropped.
   */
  lemma {:induction false} ChainsRead(providers: Providers, docs: seq<(string, seq<RawCandidate>)>,
      done: map<string, seq<Candidate>>)
    requires Chains(providers, docs, done).Ok?
    ensures var all := Chains(providers, docs, done).value;
      && (forall head, i :: LastUnder(docs, head, i) && head in providers && providers[head].enabled ==>
            head in all && ChainReadAs(Live(providers, docs[i].1), all[head]))
      && (forall head :: (head in providers && !providers[head].enabled) || Absent(docs, head) ==>
            (head in all <==> head in done) && (head in all ==> all[head] == done[head]))
    decreases |docs|
  {
    if docs != [] {
      var key, raw, rest := docs[0].0, docs[0].1, docs[1..];
      var next := if providers[key].enabled then done[key := Chain(providers, key, raw, []).value] else done;
      if providers[key].enabled {
        ChainReads(providers, key, raw, [], []);
        assert [] + Live(providers, raw) == Live(providers, raw);
      }
      ChainsRead(providers, rest, next);
      assert forall i :: 0 <= i < |rest| ==> rest[i] == docs[i + 1];
      forall head, i | LastUnder(docs, head, i) && head in providers && providers[head].enabled
        ensures head in Chains(providers, docs, done).value
        ensures ChainReadAs(Live(providers, docs[i].1), Chains(providers, docs, done).value[head])
      {
        if i > 0 {
          assert LastUnder(rest, head, i - 1);
        } else {
          assert forall j :: 0 <= j < |rest| ==> rest[j].0 != head;
        }
      }
    }
  }

  /** An accepted configuration is what the two documents say. */
  ghost predicate ReadAs(routing: RoutingDoc, fallback: FallbackDoc, c: Config) {
    && (forall id, i :: LastUnder(routing.providers, id, i) ==>
          id in c.providers && ProviderReadAs(id, routing.providers[i].1, c.providers[id]))
    && (forall id :: Absent(routing.providers, id) ==> id !in c.providers)
    && (forall key, i :: LastUnder(routing.routes, key, i) ==>
          key in c.routes && RouteReadAs(routing.routes[i].1, c.routes[key]))
    && (forall key :: Absent(routing.routes, key) ==> key !in c.routes)
    && routing.fgChat.Some? && FgChat in c.defaults && RouteReadAs(routing.fgChat.value, c.defaults[FgChat])
    && routing.background.Some? && Background in c.defaults
        && RouteReadAs(routing.background.value, c.defaults[Background])
    && SemanticReadAs(routing.semantic, c.semantic)
    && (forall head, i :: LastUnder(fallback.chains, head, i) && head in c.providers && c.providers[head].enabled ==>
          head in c.chains && ChainReadAs(Live(c.providers, fallback.chains[i].1), c.chains[head]))
    && (forall head :: (head in c.providers && !c.providers[head].enabled) || Absent(fallback.chains, head) ==>
          head !in c.chains)
    && (c.enforceCapabilities <==> fallback.enforceCapabilities != Some(false))
  }

  lemma {:induction false} ParsedReads(routing: RoutingDoc, fallback: FallbackDoc)
    requires Parsed(routing, fallback).Ok?
    ensures ReadAs(routing, fallback, Parsed(routing, fallback).value)
  {
    var c := Parsed(routing, fallback).value;
    ProvidersRead(routing.providers, map[]);
    assert c.providers == AllProviders(routing.providers, map[]).value;
    DefaultReads(c.providers, routing.fgChat);
    DefaultReads(c.providers, routing.background);
    RoutesRead(c.providers, routing.routes, map[]);
    SemanticReads(c.providers, routing.semantic);
    ChainsRead(c.providers, fallback.chains, map[]);
  }
}
