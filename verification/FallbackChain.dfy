/** The ordered attempt list of a resolved route: the chosen provider, then its fallbacks, gates applied. */
module FallbackChain {
  import opened Wrappers
  import opened Folds
  import opened Bands
  import opened RoutingConfig
  import opened RouteResolver

  datatype Context = Context(network: Network, wantsTools: bool)

  datatype Why = ProviderDisabled | GuardNotMet | NotToolsCapable | NoModelDeclared

  datatype Attempt = Attempt(provider: string, model: string, impl: Option<string>)
  datatype Dropped = Dropped(provider: string, why: Why)

  datatype Link = Link(provider: string, when: Option<set<Network>>, head: bool)

  function Links(chain: seq<Candidate>): (links: seq<Link>)
    ensures |links| == |chain|
    ensures forall i :: 0 <= i < |chain| ==> links[i] == Link(chain[i].provider, chain[i].when, false)
  {
    if chain == [] then [] else [Link(chain[0].provider, chain[0].when, false)] + Links(chain[1..])
  }

  /** The declared chain without the provider an offloaded call came from. */
  function Without(chain: seq<Candidate>, provider: string): seq<Candidate> {
    if chain == [] then []
    else if chain[0].provider == provider then Without(chain[1..], provider)
    else [chain[0]] + Without(chain[1..], provider)
  }

  function Declared(c: Config, provider: string): seq<Candidate> {
    if provider in c.chains then c.chains[provider] else []
  }

  function Tail(c: Config, r: Route): seq<Candidate> {
    match r.offloadedFrom
    case None => Declared(c, r.provider)
    case Some(from) => [Candidate(from, None)] + Without(Declared(c, r.provider), from)
  }

  function CandidatesOf(c: Config, r: Route): seq<Link> {
    [Link(r.provider, None, true)] + Links(Tail(c, r))
  }

  // ── One candidate ──────────────────────────────────────────────────────────

  /** Its own model for the band, else the cheapest it declares; the head keeps the model it was resolved to. */
  function LinkModel(c: Config, r: Route, l: Link): Option<string>
    requires l.provider in c.providers
  {
    if l.head then r.model
    else if r.complexity in c.providers[l.provider].models then Some(c.providers[l.provider].models[r.complexity])
    else FirstModel(c.providers[l.provider])
  }

  function Judge(c: Config, r: Route, ctx: Context, l: Link): Result<Attempt, Why> {
    if !Routable(c.providers, l.provider) then Err(ProviderDisabled)
    else
      var p := c.providers[l.provider];
      if l.when.Some? && ctx.network !in l.when.value then Err(GuardNotMet)
      else if c.enforceCapabilities && ctx.wantsTools && !p.tools then Err(NotToolsCapable)
      else match LinkModel(c, r, l)
        case None => Err(NoModelDeclared)
        case Some(model) => Ok(Attempt(p.id, model, p.impl))
  }

  /** Every gate at once. */
  ghost predicate Eligible(c: Config, r: Route, ctx: Context, l: Link) {
    && Routable(c.providers, l.provider)
    && (l.when.Some? ==> ctx.network in l.when.value)
    && (c.enforceCapabilities && ctx.wantsTools ==> c.providers[l.provider].tools)
    && LinkModel(c, r, l).Some?
  }

  // ── The list ───────────────────────────────────────────────────────────────

  function Attempts(c: Config, r: Route, ctx: Context, links: seq<Link>): seq<Attempt> {
    if links == [] then []
    else Attempts(c, r, ctx, links[..|links| - 1])
         + match Judge(c, r, ctx, links[|links| - 1]) case Ok(a) => [a] case Err(_) => []
  }

  function Drops(c: Config, r: Route, ctx: Context, links: seq<Link>): seq<Dropped> {
    if links == [] then []
    else Drops(c, r, ctx, links[..|links| - 1])
         + match Judge(c, r, ctx, links[|links| - 1])
           case Ok(_) => []
           case Err(why) => [Dropped(links[|links| - 1].provider, why)]
  }

  lemma {:induction false} NextLink(c: Config, r: Route, ctx: Context, links: seq<Link>, i: nat)
    requires i < |links|
    ensures Attempts(c, r, ctx, links[..i + 1])
         == Attempts(c, r, ctx, links[..i]) + match Judge(c, r, ctx, links[i]) case Ok(a) => [a] case Err(_) => []
    ensures Drops(c, r, ctx, links[..i + 1])
         == Drops(c, r, ctx, links[..i])
            + match Judge(c, r, ctx, links[i])
              case Ok(_) => []
              case Err(why) => [Dropped(links[i].provider, why)]
  {
    assert links[..i + 1][..i] == links[..i];
  }

  method BuildChain(c: Config, r: Route, ctx: Context) returns (chain: seq<Attempt>, skipped: seq<Dropped>)
    ensures chain == Attempts(c, r, ctx, CandidatesOf(c, r))
    ensures skipped == Drops(c, r, ctx, CandidatesOf(c, r))
  {
    var candidates := CandidatesOf(c, r);
    chain, skipped := [], [];
    for i := 0 to |candidates|
      invariant chain == Attempts(c, r, ctx, candidates[..i])
      invariant skipped == Drops(c, r, ctx, candidates[..i])
    {
      NextLink(c, r, ctx, candidates, i);
      var cand := candidates[i];
      if !Routable(c.providers, cand.provider) {
        skipped := skipped + [Dropped(cand.provider, ProviderDisabled)];
        continue;
      }
      var p := c.providers[cand.provider];
      if cand.when.Some? && ctx.network !in cand.when.value {
        skipped := skipped + [Dropped(cand.provider, GuardNotMet)];
        continue;
      }
      if c.enforceCapabilities && ctx.wantsTools && !p.tools {
        skipped := skipped + [Dropped(cand.provider, NotToolsCapable)];
        continue;
      }
      var model := LinkModel(c, r, cand);
      if model.None? {
        skipped := skipped + [Dropped(cand.provider, NoModelDeclared)];
        continue;
      }
      chain := chain + [Attempt(p.id, model.value, p.impl)];
    }
    assert candidates[..|candidates|] == candidates;
  }

  /** The reason given for a dropped candidate is the first gate it fails. */
  ghost predicate Explains(c: Config, r: Route, ctx: Context, l: Link, why: Why) {
    match why
    case ProviderDisabled => !Routable(c.providers, l.provider)
    case GuardNotMet => Routable(c.providers, l.provider) && l.when.Some? && ctx.network !in l.when.value
    case NotToolsCapable =>
      Routable(c.providers, l.provider) && (l.when.Some? ==> ctx.network in l.when.value)
          && LacksTools(c, ctx, l.provider)
    case NoModelDeclared =>
      Routable(c.providers, l.provider) && (l.when.Some? ==> ctx.network in l.when.value)
          && !LacksTools(c, ctx, l.provider)
      && LinkModel(c, r, l).None?
  }

  /**
   `chain` and `skipped` can be told apart and put back together: in candidate order, the eligible ones are
   in the one and the rest, each with the gate it fails, in the other.
   */
  ghost predicate Partitions(c: Config, r: Route, ctx: Context, links: seq<Link>, chain: seq<Attempt>,
      skipped: seq<Dropped>) {
    if links == [] then chain == [] && skipped == []
    else
      var last, before := links[|links| - 1], links[..|links| - 1];
      if Eligible(c, r, ctx, last) then
        chain != [] && chain[|chain| - 1].provider == last.provider
            && Some(chain[|chain| - 1].model) == LinkModel(c, r, last)
        && chain[|chain| - 1].impl == c.providers[last.provider].impl
        && Partitions(c, r, ctx, before, chain[..|chain| - 1], skipped)
      else
        skipped != [] && skipped[|skipped| - 1].provider == last.provider
            && Explains(c, r, ctx, last, skipped[|skipped| - 1].why)
        && Partitions(c, r, ctx, before, chain, skipped[..|skipped| - 1])
  }

  lemma {:induction false} ChainPartitions(c: Config, r: Route, ctx: Context, links: seq<Link>)
    requires ProvidersOk(c.providers)
    ensures Partitions(c, r, ctx, links, Attempts(c, r, ctx, links), Drops(c, r, ctx, links))
    ensures |Attempts(c, r, ctx, links)| + |Drops(c, r, ctx, links)| == |links|
  {
    if links != [] {
      var before, last := links[..|links| - 1], links[|links| - 1];
      ChainPartitions(c, r, ctx, before);
      var chain, skipped := Attempts(c, r, ctx, links), Drops(c, r, ctx, links);
      if Eligible(c, r, ctx, last) {
        assert chain[..|chain| - 1] == Attempts(c, r, ctx, before) && skipped == Drops(c, r, ctx, before);
      } else {
        assert skipped[..|skipped| - 1] == Drops(c, r, ctx, before) && chain == Attempts(c, r, ctx, before);
      }
    }
  }

  // ── Chains of resolved routes ──────────────────────────────────────────────

  ghost predicate NoRepeats(links: seq<Link>) {
    forall i, j :: 0 <= i < j < |links| ==> links[i].provider != links[j].provider
  }

  ghost predicate DistinctProviders(chain: seq<Candidate>) {
    forall i, j :: 0 <= i < j < |chain| ==> chain[i].provider != chain[j].provider
  }

  lemma {:induction false} WithoutEffect(chain: seq<Candidate>, provider: string)
    requires DistinctProviders(chain)
    ensures var w := Without(chain, provider);
      && DistinctProviders(w)
      && forall i :: 0 <= i < |w| ==> w[i].provider != provider && w[i] in chain
  {
    if chain != [] {
      assert DistinctProviders(chain[1..]);
      WithoutEffect(chain[1..], provider);
      assert chain == [chain[0]] + chain[1..];
      var rest := Without(chain[1..], provider);
      forall i | 0 <= i < |rest| ensures rest[i].provider != chain[0].provider {
        var j :| 0 <= j < |chain[1..]| && chain[1..][j] == rest[i];
        assert chain[j + 1] == rest[i];
      }
    }
  }

  lemma {:induction false} DeclaredOk(c: Config, provider: string)
    requires Accepted(c)
    ensures var chain := Declared(c, provider);
      && DistinctProviders(chain)
      && forall l :: l in chain ==> Routable(c.providers, l.provider) && l.provider != provider
  {
    if provider in c.chains {
      assert ChainOk(c.providers, provider, c.chains[provider]);
    }
  }

  /** What the candidate list needs of a route, and what every resolved route has. */
  ghost predicate Proper(c: Config, r: Route) {
    && ProvidersOk(c.providers) && Routable(c.providers, r.provider) && r.model.Some?
    && (r.offloadedFrom.Some? ==> Routable(c.providers, r.offloadedFrom.value) && r.offloadedFrom.value != r.provider)
  }

  lemma {:induction false} ResolvedProper(c: Config, req: Request)
    requires Accepted(c)
    ensures Proper(c, Resolve(c, req))
  {
    RouteIsServable(c, req);
    MatchedOk(c, req);
    if Ladder(c, req).To? {
      MoveTarget(c, req);
    }
  }

  lemma {:induction false} TailOk(c: Config, r: Route)
    requires Accepted(c) && Proper(c, r)
    ensures var tail := Tail(c, r);
      && DistinctProviders(tail)
      && (forall i :: 0 <= i < |tail| ==> Routable(c.providers, tail[i].provider) && tail[i].provider != r.provider)
  {
    var declared := Declared(c, r.provider);
    DeclaredOk(c, r.provider);
    assert forall i :: 0 <= i < |declared| ==> declared[i] in declared;
    if r.offloadedFrom.Some? {
      var w, tail := Without(declared, r.offloadedFrom.value), Tail(c, r);
      WithoutEffect(declared, r.offloadedFrom.value);
      assert forall i :: 0 < i < |tail| ==> tail[i] == w[i - 1];
    }
  }

  /**
   The candidates: all can be routed to, none comes twice, and after an offload the provider the call came
   from is the first fallback.
   */
  lemma {:induction false} CandidatesOk(c: Config, r: Route)
    requires Accepted(c) && Proper(c, r)
    ensures var links := CandidatesOf(c, r);
      && NoRepeats(links)
      && links[0] == Link(r.provider, None, true)
      && (forall i :: 0 <= i < |links| ==> Routable(c.providers, links[i].provider) && (links[i].head <==> i == 0))
      && (r.offloadedFrom.Some? ==> |links| > 1 && links[1] == Link(r.offloadedFrom.value, None, false))
  {
    TailOk(c, r);
    var tail, links := Tail(c, r), CandidatesOf(c, r);
    assert forall i :: 0 < i < |links| ==> links[i] == Link(tail[i - 1].provider, tail[i - 1].when, false);
  }

  /** The chain the file declares for the provider, on the table of chains itself. */
  ghost predicate IsDeclared(c: Config, provider: string, chain: seq<Candidate>) {
    if provider in c.chains then chain == c.chains[provider] else chain == []
  }

  /** `links` from `at` on are the candidates of `chain` in order, each with its guard, but for the one at `gap`. */
  ghost predicate LinksAre(links: seq<Link>, at: nat, chain: seq<Candidate>, gap: nat) {
    && gap <= |chain|
    && |links| == at + |chain| - (if gap < |chain| then 1 else 0)
    && (forall i :: 0 <= i < gap ==> links[at + i] == Link(chain[i].provider, chain[i].when, false))
    && (forall i :: gap < i < |chain| ==> links[at + i - 1] == Link(chain[i].provider, chain[i].when, false))
  }

  lemma {:induction false} WithoutNone(chain: seq<Candidate>, provider: string)
    requires forall i :: 0 <= i < |chain| ==> chain[i].provider != provider
    ensures Without(chain, provider) == chain
  {
    if chain != [] {
      WithoutNone(chain[1..], provider);
      assert chain == [chain[0]] + chain[1..];
    }
  }

  lemma {:induction false} LinksWithGap(front: seq<Link>, chain: seq<Candidate>, gap: nat)
    requires gap <= |chain|
    ensures var kept := chain[..gap] + (if gap < |chain| then chain[gap + 1..] else []);
      LinksAre(front + Links(kept), |front|, chain, gap)
  {
    var kept := chain[..gap] + (if gap < |chain| then chain[gap + 1..] else []);
    var links := front + Links(kept);
    forall i | 0 <= i < |chain| && i != gap
      ensures var at := if i < gap then i else i - 1;
        links[|front| + at] == Link(chain[i].provider, chain[i].when, false)
    {
      var at := if i < gap then i else i - 1;
      assert kept[at] == chain[i];
    }
  }

  lemma {:induction false} WithoutCons(cand: Candidate, rest: seq<Candidate>, provider: string)
    ensures Without([cand] + rest, provider)
         == if cand.provider == provider then Without(rest, provider) else [cand] + Without(rest, provider)
  {
    assert ([cand] + rest)[1..] == rest;
  }

  lemma {:induction false} WithoutAppend(a: seq<Candidate>, b: seq<Candidate>, provider: string)
    ensures Without(a + b, provider) == Without(a, provider) + Without(b, provider)
  {
    var run := (chain: seq<Candidate>) => Without(chain, provider);
    var piece := (cand: Candidate) => if cand.provider == provider then [] else [cand];
    forall cand, more ensures run([cand] + more) == piece(cand) + run(more) {
      WithoutCons(cand, more, provider);
    }
    PiecewiseAppend(run, piece, a, b);
    assert run(a + b) == run(a) + run(b);
  }

  lemma {:induction false} WithoutOne(before: seq<Candidate>, cand: Candidate, after: seq<Candidate>)
    requires DistinctProviders(before + [cand] + after)
    ensures Without(before + [cand] + after, cand.provider) == before + after
  {
    var all := before + [cand] + after;
    assert forall i :: 0 <= i < |before| ==> before[i] == all[i];
    assert forall i :: 0 <= i < |after| ==> after[i] == all[|before| + 1 + i];
    assert all[|before|] == cand;
    WithoutNone(before, cand.provider);
    WithoutNone(after, cand.provider);
    WithoutCons(cand, after, cand.provider);
    WithoutAppend(before, [cand] + after, cand.provider);
    assert all == before + ([cand] + after);
  }

  lemma {:induction false} WithoutIs(chain: seq<Candidate>, provider: string) returns (gap: nat)
    requires DistinctProviders(chain)
    ensures gap <= |chain| && (gap < |chain| ==> chain[gap].provider == provider)
    ensures gap == |chain| ==> forall i :: 0 <= i < |chain| ==> chain[i].provider != provider
    ensures Without(chain, provider) == chain[..gap] + (if gap < |chain| then chain[gap + 1..] else [])
  {
    if k :| 0 <= k < |chain| && chain[k].provider == provider {
      gap := k;
      assert chain == chain[..k] + [chain[k]] + chain[k + 1..];
      WithoutOne(chain[..k], chain[k], chain[k + 1..]);
    } else {
      gap := |chain|;
      WithoutNone(chain, provider);
      assert chain[..gap] + [] == chain;
    }
  }

  /**
   The candidates behind the head are the declared chain, in order, with its guards; after an offload the
   provider the call came from, without a guard, and then the others of that chain.
   */
  lemma {:induction false} CandidatesAre(c: Config, r: Route, chain: seq<Candidate>) returns (gap: nat)
    requires Accepted(c) && IsDeclared(c, r.provider, chain)
    ensures var links := CandidatesOf(c, r);
      && links != [] && links[0] == Link(r.provider, None, true)
      && (r.offloadedFrom.None? ==> gap == |chain| && LinksAre(links, 1, chain, gap))
      && (r.offloadedFrom.Some? ==>
            && |links| > 1 && links[1] == Link(r.offloadedFrom.value, None, false)
            && LinksAre(links, 2, chain, gap)
            && (gap < |chain| ==> chain[gap].provider == r.offloadedFrom.value)
            && (gap == |chain| ==> forall i :: 0 <= i < |chain| ==> chain[i].provider != r.offloadedFrom.value))
  {
    gap := |chain|;
    DeclaredOk(c, r.provider);
    var head := Link(r.provider, None, true);
    if r.offloadedFrom.None? {
      assert chain[..gap] + [] == chain;
      LinksWithGap([head], chain, gap);
    } else {
      var from := r.offloadedFrom.value;
      gap := WithoutIs(chain, from);
      OffloadedLinks(c, r, chain);
      LinksWithGap([head, Link(from, None, false)], chain, gap);
    }
  }

  lemma {:induction false} OffloadedLinks(c: Config, r: Route, chain: seq<Candidate>)
    requires IsDeclared(c, r.provider, chain) && r.offloadedFrom.Some?
    ensures CandidatesOf(c, r)
         == [Link(r.provider, None, true), Link(r.offloadedFrom.value, None, false)]
            + Links(Without(chain, r.offloadedFrom.value))
  {
    LinksCons(Candidate(r.offloadedFrom.value, None), Without(chain, r.offloadedFrom.value));
  }

  lemma {:induction false} LinksCons(cand: Candidate, rest: seq<Candidate>)
    ensures Links([cand] + rest) == [Link(cand.provider, cand.when, false)] + Links(rest)
  {
    assert ([cand] + rest)[1..] == rest;
  }

  lemma {:induction false} LinkAt(links: seq<Link>, front: nat, chain: seq<Candidate>, gap: nat, k: nat)
      returns (at: nat)
    requires LinksAre(links, front, chain, gap) && k < |chain| && k != gap
    ensures front <= at < |links| && links[at] == Link(chain[k].provider, chain[k].when, false)
  {
    at := if k < gap then front + k else front + k - 1;
  }

  lemma {:induction false} HeadOnlyFirst(c: Config, r: Route, at: nat)
    requires 0 < at < |CandidatesOf(c, r)|
    ensures !CandidatesOf(c, r)[at].head
  {
  }

  /**
   Where a declared candidate stands on the list: under its own guard, or, when the call came from it,
   without one.
   */
  lemma {:induction false} LinkOf(c: Config, r: Route, k: nat) returns (at: nat)
    requires Accepted(c) && Proper(c, r) && r.provider in c.chains && k < |c.chains[r.provider]|
    ensures var cand, links := c.chains[r.provider][k], CandidatesOf(c, r);
      && Routable(c.providers, cand.provider)
      && at < |links| && links[at].provider == cand.provider && !links[at].head
      && (links[at].when == cand.when || links[at].when.None?)
  {
    var chain := c.chains[r.provider];
    DeclaredOk(c, r.provider);
    assert chain[k] in chain;
    var gap := CandidatesAre(c, r, chain);
    if r.offloadedFrom.None? {
      at := LinkAt(CandidatesOf(c, r), 1, chain, gap, k);
    } else if k == gap {
      at := 1;
    } else {
      at := LinkAt(CandidatesOf(c, r), 2, chain, gap, k);
    }
    HeadOnlyFirst(c, r, at);
  }

  /** Every candidate that passes every gate is attempted. */
  lemma {:induction false} EligibleTried(c: Config, r: Route, ctx: Context, links: seq<Link>, k: nat) returns (i: nat)
    requires ProvidersOk(c.providers) && k < |links| && Eligible(c, r, ctx, links[k])
    ensures i < |Attempts(c, r, ctx, links)|
    ensures var a := Attempts(c, r, ctx, links)[i];
      a.provider == links[k].provider && Some(a.model) == LinkModel(c, r, links[k])
  {
    var before, last := links[..|links| - 1], links[|links| - 1];
    if k < |before| {
      assert before[k] == links[k];
      i := EligibleTried(c, r, ctx, before, k);
    } else {
      i := |Attempts(c, r, ctx, before)|;
    }
  }

  /** What a fallback runs: its own model for the band, or, where it declares none, that of its cheapest band. */
  ghost predicate FallbackModel(p: Provider, band: Band, model: string) {
    && (band in p.models ==> model == p.models[band])
    && (band !in p.models ==>
          exists b :: b in p.models && model == p.models[b] && forall d :: d in p.models ==> Rank(b) <= Rank(d))
  }

  lemma {:induction false} LinkModelIs(c: Config, r: Route, l: Link)
    requires ProvidersOk(c.providers) && Routable(c.providers, l.provider) && !l.head
    ensures LinkModel(c, r, l).Some? && FallbackModel(c.providers[l.provider], r.complexity, LinkModel(c, r, l).value)
  {
    var p := c.providers[l.provider];
    assert ProviderOk(p);
    if r.complexity !in p.models {
      var b := CheapestIs(p, r.complexity, r.complexity);
    }
  }

  /**
   Every fallback declared for the resolved provider is tried, with a model of its own, unless its guard or
   the tools gate drops it.
   */
  lemma {:induction false} DeclaredFallbackTried(c: Config, req: Request, ctx: Context, k: nat) returns (i: nat)
    requires Accepted(c) && Resolve(c, req).provider in c.chains && k < |c.chains[Resolve(c, req).provider]|
    requires var cand := c.chains[Resolve(c, req).provider][k];
      && (cand.when.Some? ==> ctx.network in cand.when.value)
      && (c.enforceCapabilities && ctx.wantsTools && cand.provider in c.providers ==> c.providers[cand.provider].tools)
    ensures i < |Plan(c, req, ctx)|
    ensures var r := Resolve(c, req);
      var cand, a := c.chains[r.provider][k], Plan(c, req, ctx)[i];
      && cand.provider in c.providers && a.provider == cand.provider
      && FallbackModel(c.providers[cand.provider], r.complexity, a.model)
  {
    var r := Resolve(c, req);
    ResolvedProper(c, req);
    var at := LinkOf(c, r, k);
    var l := CandidatesOf(c, r)[at];
    LinkModelIs(c, r, l);
    assert Eligible(c, r, ctx, l);
    i := EligibleTried(c, r, ctx, CandidatesOf(c, r), at);
  }

  lemma {:induction false} AttemptFrom(c: Config, r: Route, ctx: Context, links: seq<Link>, i: nat) returns (k: nat)
    requires ProvidersOk(c.providers) && i < |Attempts(c, r, ctx, links)|
    ensures k < |links| && Judge(c, r, ctx, links[k]) == Ok(Attempts(c, r, ctx, links)[i])
    ensures Attempts(c, r, ctx, links)[i].provider == links[k].provider && Eligible(c, r, ctx, links[k])
    ensures i == |Attempts(c, r, ctx, links[..k])|
  {
    var before, last := links[..|links| - 1], links[|links| - 1];
    if i < |Attempts(c, r, ctx, before)| {
      k := AttemptFrom(c, r, ctx, before, i);
      assert before[..k] == links[..k];
    } else {
      k := |links| - 1;
    }
  }

  lemma {:induction false} AttemptsGrow(c: Config, r: Route, ctx: Context, links: seq<Link>, k: nat)
    requires k <= |links|
    ensures Attempts(c, r, ctx, links[..k]) <= Attempts(c, r, ctx, links)
    decreases |links|
  {
    if k == |links| {
      assert links[..k] == links;
    } else {
      var before := links[..|links| - 1];
      assert before[..k] == links[..k];
      AttemptsGrow(c, r, ctx, before, k);
    }
  }

  lemma {:induction false} AttemptsDistinct(c: Config, r: Route, ctx: Context, links: seq<Link>, i: nat, j: nat)
    requires ProvidersOk(c.providers) && NoRepeats(links)
    requires i < j < |Attempts(c, r, ctx, links)|
    ensures Attempts(c, r, ctx, links)[i].provider != Attempts(c, r, ctx, links)[j].provider
  {
    var k := AttemptFrom(c, r, ctx, links, i);
    var l := AttemptFrom(c, r, ctx, links, j);
    if l < k {
      AttemptsGrow(c, r, ctx, links[..k], l);
      assert links[..k][..l] == links[..l];
    }
  }

  ghost predicate Servable(c: Config, r: Route, ctx: Context, a: Attempt) {
    && Routable(c.providers, a.provider)
    && (c.enforceCapabilities && ctx.wantsTools ==> c.providers[a.provider].tools)
    && if a.provider == r.provider then Some(a.model) == r.model else OwnModel(c.providers[a.provider], Some(a.model))
  }

  lemma {:induction false} AttemptServable(c: Config, r: Route, ctx: Context, i: nat)
    requires Accepted(c) && Proper(c, r) && i < |Attempts(c, r, ctx, CandidatesOf(c, r))|
    ensures Servable(c, r, ctx, Attempts(c, r, ctx, CandidatesOf(c, r))[i])
  {
    var links := CandidatesOf(c, r);
    CandidatesOk(c, r);
    var k := AttemptFrom(c, r, ctx, links, i);
    assert ProviderOk(c.providers[links[k].provider]);
    ModelOnOwn(c.providers[links[k].provider], r.complexity, r.complexity);
    assert k > 0 ==> links[0].provider != links[k].provider;
  }

  /** The attempts for a request. */
  ghost function Plan(c: Config, req: Request, ctx: Context): seq<Attempt>
    requires Accepted(c)
  {
    Attempts(c, Resolve(c, req), ctx, CandidatesOf(c, Resolve(c, req)))
  }

  /**
   What the attempts for a request are: no provider twice, each one declared, enabled and capable of
   the request, the head with the resolved model and every other with a model its own provider declares.
   */
  lemma {:induction false} AttemptsServable(c: Config, req: Request, ctx: Context)
    requires Accepted(c)
    ensures var r, chain := Resolve(c, req), Plan(c, req, ctx);
      && (forall i, j :: 0 <= i < j < |chain| ==> chain[i].provider != chain[j].provider)
      && (forall i :: 0 <= i < |chain| ==> Servable(c, r, ctx, chain[i]))
  {
    var r, chain := Resolve(c, req), Plan(c, req, ctx);
    ResolvedProper(c, req);
    CandidatesOk(c, r);
    forall i, j | 0 <= i < j < |chain| ensures chain[i].provider != chain[j].provider {
      AttemptsDistinct(c, r, ctx, CandidatesOf(c, r), i, j);
    }
    forall i | 0 <= i < |chain| ensures Servable(c, r, ctx, chain[i]) {
      AttemptServable(c, r, ctx, i);
    }
  }

  /** Dropped by the tools gate, the only gate an enabled provider without a guard can fail. */
  ghost predicate LacksTools(c: Config, ctx: Context, provider: string)
    requires provider in c.providers
  {
    c.enforceCapabilities && ctx.wantsTools && !c.providers[provider].tools
  }

  lemma {:induction false} FirstTwo(c: Config, r: Route, ctx: Context, links: seq<Link>)
    requires |links| >= 1
    ensures Attempts(c, r, ctx, links[..1]) == match Judge(c, r, ctx, links[0]) case Ok(a) => [a] case Err(_) => []
    ensures |links| >= 2 ==> (
      Attempts(c, r, ctx, links[..2])
      == Attempts(c, r, ctx, links[..1]) + match Judge(c, r, ctx, links[1]) case Ok(a) => [a] case Err(_) => [])
  {
    assert links[..1][..0] == [];
    if |links| >= 2 {
      assert links[..2][..1] == links[..1];
    }
  }

  /** A second link without a guard is tried right behind the first, unless the tools gate removes it. */
  lemma {:induction false} SecondTried(c: Config, r: Route, ctx: Context, links: seq<Link>, from: string)
    requires ProvidersOk(c.providers) && r.model.Some? && |links| > 1
    requires links[0] == Link(r.provider, None, true) && links[1] == Link(from, None, false)
    requires Routable(c.providers, r.provider) && Routable(c.providers, from) && !LacksTools(c, ctx, from)
    ensures var chain := Attempts(c, r, ctx, links);
      var at := if LacksTools(c, ctx, r.provider) then 0 else 1;
      at < |chain| && chain[at].provider == from && OwnModel(c.providers[from], Some(chain[at].model))
  {
    FirstTwo(c, r, ctx, links);
    assert ProviderOk(c.providers[from]) && ProviderOk(c.providers[r.provider]);
    ModelOnOwn(c.providers[from], r.complexity, r.complexity);
    var two := Attempts(c, r, ctx, links[..2]);
    assert two <= Attempts(c, r, ctx, links) by { AttemptsGrow(c, r, ctx, links, 2); }
  }

  /**
   After a move the provider the call came from is tried right behind the target, with a model of
   its own, unless the tools gate removes it.
   */
  lemma {:induction false} OffloadKeepsFallback(c: Config, req: Request, ctx: Context)
    requires Accepted(c) && Resolve(c, req).offloadedFrom.Some?
    ensures var r, chain := Resolve(c, req), Plan(c, req, ctx);
      var from := r.offloadedFrom.value;
      && from in c.providers && r.provider in c.providers
      && (!LacksTools(c, ctx, from) ==>
            var at := if LacksTools(c, ctx, r.provider) then 0 else 1;
            at < |chain| && chain[at].provider == from && OwnModel(c.providers[from], Some(chain[at].model)))
  {
    var r := Resolve(c, req);
    var links, from := CandidatesOf(c, r), r.offloadedFrom.value;
    ResolvedProper(c, req);
    CandidatesOk(c, r);
    assert Routable(c.providers, links[0].provider);
    if !LacksTools(c, ctx, from) {
      SecondTried(c, r, ctx, links, from);
    }
  }

  /** So offloading never empties a list whose own head would have been tried: that provider is still on it. */
  lemma {:induction false} OffloadNeverEmpties(c: Config, req: Request, ctx: Context)
    requires Accepted(c) && Accepted(WithoutOffload(c))
    requires var plain := Plan(WithoutOffload(c), req, ctx);
      plain != [] && plain[0].provider == Resolve(WithoutOffload(c), req).provider
    ensures exists i ::
      0 <= i < |Plan(c, req, ctx)| && Plan(c, req, ctx)[i].provider == Resolve(WithoutOffload(c), req).provider
  {
    var off := WithoutOffload(c);
    var plain := Resolve(off, req);
    OffloadIsBounded(c, req);
    var k := AttemptFrom(off, plain, ctx, CandidatesOf(off, plain), 0);
    assert !LacksTools(c, ctx, plain.provider);
    if Resolve(c, req).offloadedFrom.Some? {
      OffloadKeepsFallback(c, req, ctx);
    } else {
      SamePlan(c, req, ctx);
    }
  }

  lemma {:induction false} SameAttempts(c: Config, r: Route, off: Config, plain: Route, ctx: Context, links: seq<Link>)
    requires c.providers == off.providers && c.enforceCapabilities == off.enforceCapabilities
    requires r.model == plain.model && r.complexity == plain.complexity
    ensures Attempts(c, r, ctx, links) == Attempts(off, plain, ctx, links)
  {
    if links != [] {
      SameAttempts(c, r, off, plain, ctx, links[..|links| - 1]);
    }
  }

  lemma {:induction false} SamePlan(c: Config, req: Request, ctx: Context)
    requires Accepted(c) && Accepted(WithoutOffload(c)) && Resolve(c, req).offloadedFrom.None?
    ensures Plan(c, req, ctx) == Plan(WithoutOffload(c), req, ctx)
  {
    OffloadIsBounded(c, req);
    var r, plain := Resolve(c, req), Resolve(WithoutOffload(c), req);
    assert CandidatesOf(c, r) == CandidatesOf(WithoutOffload(c), plain);
    SameAttempts(c, r, WithoutOffload(c), plain, ctx, CandidatesOf(c, r));
  }
}
