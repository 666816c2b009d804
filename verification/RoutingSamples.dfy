/** Documents the validator accepts, and what the resolver then does with them. */
module RoutingSamples {
  import opened Wrappers
  import opened JsText
  import opened Bands
  import opened RoutingConfig
  import opened RoutingParser
  import opened RouteResolver

  const CLOUD_DOC := RawProvider(None, Some("cloud"), None, true, [], [("small", "haiku"), ("high", "opus")])
  const LOCAL_DOC := RawProvider(None, Some("local"), None, true, [], [("small", "qwen")])
  const HARD_DOC := RawRoute(Some("cloud"), Some("high"), None, [])
  const ASKED_DOC := RawRoute(Some("cloud"), Some("from-caller"), None, [("sol", [("small", "haiku")])])

  function TargetDoc(network: Option<string>): RawTarget {
    RawTarget(Some("local"), Some(true), None, NoBands, None, network)
  }

  function Document(targets: seq<RawTarget>): RoutingDoc {
    RoutingDoc(1, [("cloud", CLOUD_DOC), ("local", LOCAL_DOC)], Some(HARD_DOC), Some(HARD_DOC), [("job", ASKED_DOC)],
               Some(RawSemantic(true, ["small"], false, targets)))
  }

  const NO_CHAINS := FallbackDoc(1, [], None)

  // ── Reading the parts ──────────────────────────────────────────────────────

  lemma {:induction false} BandNames()
    ensures ParseBand("small") == Some(Small) && ParseBand("high") == Some(High) && ParseBand("from-caller") == None
  {
    assert "small"[0] == 's' && "high"[0] == 'h' && "medium"[0] == 'm' && "from-caller"[0] == 'f';
  }

  lemma {:induction false} ModelPair(first: (string, string), second: (string, string))
    requires ParseBand(first.0).Some? && ParseBand(second.0).Some? && first.1 != "" && second.1 != ""
    ensures Models([], [first]) == Ok(map[ParseBand(first.0).value := first.1])
    ensures Models([], [first, second])
        == Ok(map[ParseBand(first.0).value := first.1][ParseBand(second.0).value := second.1])
  {
    assert [first][..0] == [];
    assert [first, second][..1] == [first];
  }

  lemma {:induction false} ProvidersRead()
    ensures AllProviders([("cloud", CLOUD_DOC), ("local", LOCAL_DOC)], map[]) == Ok(SAMPLE.providers)
  {
    BandNames();
    ModelPair(("small", "haiku"), ("high", "opus"));
    ModelPair(("small", "qwen"), ("small", "qwen"));
    assert NormalizeProvider("cloud", CLOUD_DOC) == Ok(CLOUD);
    assert NormalizeProvider("local", LOCAL_DOC) == Ok(LOCAL);
    var docs := [("cloud", CLOUD_DOC), ("local", LOCAL_DOC)];
    assert docs[1..] == [("local", LOCAL_DOC)] && docs[1..][1..] == [];
    assert AllProviders(docs[1..], map["cloud" := CLOUD]) == Ok(map["cloud" := CLOUD]["local" := LOCAL]);
  }

  lemma {:induction false} RoutesRead()
    ensures NormalizeDefault(SAMPLE.providers, Some(HARD_DOC)) == Ok(SAMPLE_DEFAULT)
    ensures Routes(SAMPLE.providers, [("job", ASKED_DOC)], map[]) == Ok(SAMPLE.routes)
  {
    BandNames();
    assert "high"[0] != "from-caller"[0];
    assert Profiles(CLOUD, []) == Ok(map[]);
    var entries := [("small", "haiku")];
    assert entries[..0] == [] && !IsSpace("haiku"[0]);
    assert Profile(CLOUD, entries) == Ok(map[Small := "haiku"]);
    var profiles := [("sol", entries)];
    assert profiles[..0] == [];
    assert Profiles(CLOUD, profiles) == Ok(map["sol" := map[Small := "haiku"]]);
    assert Segment("job");
    assert |"job"| != |"fg-chat/claude"|;
    assert CheckRoute(SAMPLE.providers, ("job", ASKED_DOC)) == Ok(SAMPLE_ROUTE);
    var routes := [("job", ASKED_DOC)];
    assert routes[1..] == [];
  }

  function ReadTarget(network: Option<Network>): Target {
    Target("local", network, true, {Fg, Bg}, None, None, None)
  }

  lemma {:induction false} TargetReads(raw: Option<string>, network: Option<Network>, seen: set<Option<Network>>)
    requires raw.None? ==> network == None
    requires raw.Some? ==> network.Some? && ParseNetwork(raw.value) == network
    requires network !in seen && None !in seen
    ensures NormalizeTarget(SAMPLE.providers, true, {Small}, TargetDoc(raw), seen) == Ok(ReadTarget(network))
  {
    assert SAMPLE.providers["local"] == LOCAL;
    assert Small in LOCAL.models;
  }

  lemma {:induction false} SemanticReads(targets: seq<RawTarget>, read: seq<Target>)
    requires Targets(SAMPLE.providers, true, {Small}, targets, []) == Ok(read)
    ensures Semantic(SAMPLE.providers, Some(RawSemantic(true, ["small"], false, targets)))
        == Ok(SemanticRouting(true, read, {Small}))
  {
    BandNames();
    var names := ["small"];
    assert names[..0] == [];
    assert BandSet(names[..0]) == Ok({});
    assert {} + {Small} == {Small};
    assert BandSet(names) == Ok({Small});
  }

  lemma {:induction false} DocumentReads(targets: seq<RawTarget>, read: seq<Target>)
    requires Targets(SAMPLE.providers, true, {Small}, targets, []) == Ok(read)
    ensures Parsed(Document(targets), NO_CHAINS) == Ok(SAMPLE.(semantic := SemanticRouting(true, read, {Small})))
  {
    ProvidersRead();
    RoutesRead();
    SemanticReads(targets, read);
    assert Chains(SAMPLE.providers, [], map[]) == Ok(map[]);
  }

  // ── What can go wrong with a configuration that was accepted ───────────────

  /** The profile counterexample is a configuration the validator hands out. */
  lemma {:induction false} ParsedProfileSurvivesOffload()
    ensures Parsed(Document([TargetDoc(None)]), NO_CHAINS) == Ok(SAMPLE) && Accepted(SAMPLE)
    ensures var r := Resolve(SAMPLE, SAMPLE_REQUEST);
      r.offloadedFrom == Some("cloud") && r.provider == "local" && r.model == Some("haiku")
      && !OwnModel(SAMPLE.providers["local"], r.model)
  {
    TargetReads(None, None, {});
    var docs := [TargetDoc(None)];
    assert docs[1..] == [] && [] + [ReadTarget(None)] == [ReadTarget(None)];
    assert Targets(SAMPLE.providers, true, {Small}, docs, []) == Ok([SAMPLE_TARGET]);
    DocumentReads(docs, [SAMPLE_TARGET]);
    ProfileSurvivesOffload();
  }

  const THREE_DOCS := [TargetDoc(Some("corporate")), TargetDoc(Some("public")), TargetDoc(None)]
  const THREE := [ReadTarget(Some(Corporate)), ReadTarget(Some(Public)), ReadTarget(None)]

  lemma {:induction false} ThreeTargetsRead()
    ensures Targets(SAMPLE.providers, true, {Small}, THREE_DOCS, []) == Ok(THREE)
  {
    assert "corporate"[0] == 'c' && "public"[0] == 'p';
    var one, two := [ReadTarget(Some(Corporate))], [ReadTarget(Some(Corporate)), ReadTarget(Some(Public))];
    NetworksAppend([], one[0]);
    NetworksAppend(one, two[1]);
    assert [] + one == one && one + [two[1]] == two && two + [THREE[2]] == THREE;
    TargetReads(Some("corporate"), Some(Corporate), {});
    TargetReads(Some("public"), Some(Public), {Some(Corporate)});
    TargetReads(None, None, {Some(Corporate), Some(Public)});
    assert Networks([]) == {} && Networks(one) == {Some(Corporate)} && Networks(two) == {Some(Corporate), Some(Public)};
    var docs := THREE_DOCS;
    assert docs[1..] == [docs[1], docs[2]] && docs[1..][1..] == [docs[2]] && docs[1..][1..][1..] == [];
    assert Targets(SAMPLE.providers, true, {Small}, docs[1..][1..], two) == Ok(THREE);
    assert Targets(SAMPLE.providers, true, {Small}, docs[1..], one) == Ok(THREE);
  }

  lemma {:induction false} ThirdNeverPicked(network: Network)
    ensures PassedOver(THREE, THREE[2], network)
  {
    var three := THREE;
    assert three[0] in three && three[1] in three && three[2] in three;
    assert Claimed(three, Corporate) && Claimed(three, Public);
    assert network == Corporate || network == Public;
    PassedOverIff(three, three[2], network);
  }

  /** The validator accepts an enabled target that no request on any network can reach. */
  lemma {:induction false} UnreachableTargetAccepted()
    ensures Parsed(Document(THREE_DOCS), NO_CHAINS) == Ok(SAMPLE.(semantic := SemanticRouting(true, THREE, {Small})))
    ensures THREE[2].enabled && forall network :: PassedOver(THREE, THREE[2], network)
  {
    ThreeTargetsRead();
    DocumentReads(THREE_DOCS, THREE);
    forall network: Network ensures PassedOver(THREE, THREE[2], network) {
      ThirdNeverPicked(network);
    }
  }
}
