/**
 * The agent's entities, its static chain registry and the two merge operations
 * that combine results produced by independent pipeline stages.
 */
module State {
  import opened Wrappers
  import opened Text

  // ===========================================================================
  // Enumerations, with their wire strings
  // ===========================================================================

  /** The user's appetite for risk. */
  datatype RiskTolerance = Conservative | Moderate | Aggressive {
    function Wire(): string {
      match this
      case Conservative => "conservative"
      case Moderate => "moderate"
      case Aggressive => "aggressive"
    }
  }

  /** Impermanent-loss risk of a liquidity pool. */
  datatype ILRisk = NoIL | LowIL | MediumIL | HighIL {
    function Wire(): string {
      match this
      case NoIL => "none"
      case LowIL => "low"
      case MediumIL => "medium"
      case HighIL => "high"
    }
  }

  /** What the user wants the agent to do. */
  datatype Intent = YieldSearch | CompareProtocols | RouteOnly | RiskAnalysis | GeneralQuestion {
    function Wire(): string {
      match this
      case YieldSearch => "yield_search"
      case CompareProtocols => "compare"
      case RouteOnly => "route_only"
      case RiskAnalysis => "risk_analysis"
      case GeneralQuestion => "general"
    }
  }

  /** Reads an intent back from its wire string; exactly the five wire strings are accepted. */
  function IntentFromWire(s: string): (r: Option<Intent>)
    ensures r.Some? ==> r.value.Wire() == s
    ensures r.None? ==> forall i: Intent :: i.Wire() != s
  {
    if s == "yield_search" then Some(YieldSearch)
    else if s == "compare" then Some(CompareProtocols)
    else if s == "route_only" then Some(RouteOnly)
    else if s == "risk_analysis" then Some(RiskAnalysis)
    else if s == "general" then Some(GeneralQuestion)
    else None
  }

  lemma IntentWireRoundTrip(i: Intent)
    ensures IntentFromWire(i.Wire()) == Some(i)
  {
  }

  /** Reads a risk tolerance back from its wire string. */
  function RiskToleranceFromWire(s: string): (r: Option<RiskTolerance>)
    ensures r.Some? ==> r.value.Wire() == s
    ensures r.None? ==> forall t: RiskTolerance :: t.Wire() != s
  {
    if s == "conservative" then Some(Conservative)
    else if s == "moderate" then Some(Moderate)
    else if s == "aggressive" then Some(Aggressive)
    else None
  }

  /** Reads an impermanent-loss level back from its wire string. */
  function ILRiskFromWire(s: string): (r: Option<ILRisk>)
    ensures r.Some? ==> r.value.Wire() == s
    ensures r.None? ==> forall l: ILRisk :: l.Wire() != s
  {
    if s == "none" then Some(NoIL)
    else if s == "low" then Some(LowIL)
    else if s == "medium" then Some(MediumIL)
    else if s == "high" then Some(HighIL)
    else None
  }

  // ===========================================================================
  // Chain registry
  // ===========================================================================

  /** One registry entry, with its dictionary key folded in (the `{"key": key, **config}` shape). */
  datatype ChainConfig = ChainConfig(
    key: string,
    chainId: int,
    name: string,
    symbol: string,
    color: string,
    explorer: string,
    defillamaSlug: string,
    lifiKey: string)

  /** The supported chains, in declaration order. */
  const SupportedChains: seq<ChainConfig> := [
    ChainConfig("ethereum", 1, "Ethereum", "ETH", "#627EEA", "https://etherscan.io", "Ethereum", "ETH"),
    ChainConfig("arbitrum", 42161, "Arbitrum One", "ETH", "#28A0F0", "https://arbiscan.io", "Arbitrum", "ARB"),
    ChainConfig("optimism", 10, "Optimism", "ETH", "#FF0420", "https://optimistic.etherscan.io", "Optimism", "OPT"),
    ChainConfig("polygon", 137, "Polygon", "MATIC", "#8247E5", "https://polygonscan.com", "Polygon", "POL"),
    ChainConfig("base", 8453, "Base", "ETH", "#0052FF", "https://basescan.org", "Base", "BAS"),
    ChainConfig("avalanche", 43114, "Avalanche", "AVAX", "#E84142", "https://snowtrace.io", "Avalanche", "AVA"),
    ChainConfig("bsc", 56, "BNB Chain", "BNB", "#F0B90B", "https://bscscan.com", "BSC", "BSC")
  ]

  /** The registry's keys, in declaration order (`list(SUPPORTED_CHAINS.keys())`). */
  function ChainKeys(): (r: seq<string>)
    ensures |r| == |SupportedChains|
    ensures forall i :: 0 <= i < |r| ==> r[i] == SupportedChains[i].key
  {
    seq(|SupportedChains|, i requires 0 <= i < |SupportedChains| => SupportedChains[i].key)
  }

  /** The registry's keys are lower case and pairwise distinct. */
  lemma ChainKeysDistinct()
    ensures NoDuplicates(ChainKeys())
    ensures forall i :: 0 <= i < |SupportedChains| ==> ToLower(SupportedChains[i].key) == SupportedChains[i].key
  {
    var k := ChainKeys();
    assert k == ["ethereum", "arbitrum", "optimism", "polygon", "base", "avalanche", "bsc"];
  }

  /** No two registry entries share a numeric chain id. */
  lemma ChainIdsDistinct()
    ensures forall i, j :: 0 <= i < j < |SupportedChains| ==> SupportedChains[i].chainId != SupportedChains[j].chainId
  {
  }

  /** No two registry entries share a display name, case ignored. */
  lemma ChainNamesDistinct()
    ensures forall i, j :: 0 <= i < j < |SupportedChains| ==>
      ToLower(SupportedChains[i].name) != ToLower(SupportedChains[j].name)
  {
    var c := SupportedChains;
    forall i, j | 0 <= i < j < |c|
      ensures ToLower(c[i].name) != ToLower(c[j].name)
    {
      if |c[i].name| == |c[j].name| {
        assert ToLower(c[i].name)[0] != ToLower(c[j].name)[0];
      }
    }
  }

  /**
   * `get_chain_by_id`: the entry whose numeric id is `chainId`, or nothing.
   */
  method GetChainById(chainId: int) returns (r: Option<ChainConfig>)
    ensures r.Some? <==> exists i :: 0 <= i < |SupportedChains| && SupportedChains[i].chainId == chainId
    ensures r.Some? ==> r.value in SupportedChains && r.value.chainId == chainId
  {
    for i := 0 to |SupportedChains|
      invariant forall j :: 0 <= j < i ==> SupportedChains[j].chainId != chainId
    {
      if SupportedChains[i].chainId == chainId {
        return Some(SupportedChains[i]);
      }
    }
    return None;
  }

  /**
   * `get_chain_by_name`: case-insensitive; an exact key wins, then a display name.
   */
  method GetChainByName(name: string) returns (r: Option<ChainConfig>)
    ensures r.Some? ==> r.value in SupportedChains
    ensures ToLower(name) in ChainKeys() ==> r.Some? && r.value.key == ToLower(name)
    ensures ToLower(name) !in ChainKeys() ==>
      (r.Some? <==> exists i :: 0 <= i < |SupportedChains| && ToLower(SupportedChains[i].name) == ToLower(name))
    ensures ToLower(name) !in ChainKeys() && r.Some? ==> ToLower(r.value.name) == ToLower(name)
  {
    var nameLower := ToLower(name);
    for i := 0 to |SupportedChains|
      invariant nameLower !in ChainKeys()[..i]
    {
      if SupportedChains[i].key == nameLower {
        return Some(SupportedChains[i]);
      }
    }
    assert ChainKeys()[..|SupportedChains|] == ChainKeys();
    for i := 0 to |SupportedChains|
      invariant forall j :: 0 <= j < i ==> ToLower(SupportedChains[j].name) != nameLower
    {
      if ToLower(SupportedChains[i].name) == nameLower {
        return Some(SupportedChains[i]);
      }
    }
    return None;
  }

  // ===========================================================================
  // Entities
  // ===========================================================================

  /** One candidate pool; `poolId` is its identity. */
  datatype YieldOpportunity = YieldOpportunity(
    poolId: string,
    protocol: string,
    protocolSlug: string,
    chain: string,
    poolName: string,
    symbol: string,
    underlyingTokens: seq<string>,
    rewardTokens: seq<string>,
    apy: real,
    apyBase: real,
    apyReward: real,
    apy7dAvg: Option<real>,
    apy30dAvg: Option<real>,
    tvlUsd: real,
    riskScore: real,
    ilRisk: ILRisk,
    audited: bool,
    auditLinks: seq<string>,
    protocolAgeDays: int,
    poolUrl: Option<string>,
    lastUpdated: Option<string>)
  {
    /** The bounds the record's validator enforces. */
    predicate Valid() {
      apy >= 0.0 && apyBase >= 0.0 && apyReward >= 0.0 && tvlUsd >= 0.0
      && 1.0 <= riskScore <= 10.0 && protocolAgeDays >= 0
    }
  }

  /** One quoted cross-chain transfer; the raw transaction payload is kept as text fields. */
  datatype BridgeRoute = BridgeRoute(
    fromChain: string,
    fromChainId: int,
    toChain: string,
    toChainId: int,
    token: string,
    tokenAddress: string,
    amount: real,
    bridgeName: string,
    estimatedTimeSeconds: int,
    gasCostUsd: real,
    bridgeFeeUsd: real,
    totalCostUsd: real,
    estimatedOutput: real,
    slippagePercent: real,
    txData: Option<map<string, string>>)

  /** A per-chain fee snapshot. */
  datatype GasEstimate = GasEstimate(
    chain: string,
    chainId: int,
    gasPriceSlow: real,
    gasPriceStandard: real,
    gasPriceFast: real,
    swapCostUsd: real,
    depositCostUsd: real,
    baseFee: Option<real>,
    priorityFee: Option<real>,
    lastUpdated: string)

  /** One ranked output; it refers to its opportunity. */
  datatype Recommendation = Recommendation(
    rank: int,
    opportunity: YieldOpportunity,
    inputAmount: real,
    inputToken: string,
    earnings30d: real,
    earnings1y: real,
    requiresBridge: bool,
    bridgeRoute: Option<BridgeRoute>,
    netApy: real,
    totalEntryCostUsd: real,
    whyRecommended: string,
    warnings: seq<string>,
    executionSteps: seq<string>)
  {
    predicate Valid() { rank >= 1 && opportunity.Valid() }
  }

  /**
   * A chat message as the parser sees it: an object with a `content` attribute,
   * a dictionary (whose "content" entry, if any, is read), or anything else.
   */
  datatype Message =
    | ContentMessage(content: string)
    | MappingMessage(fields: map<string, string>)
    | OtherMessage

  /** The state record that flows through the pipeline. */
  datatype AgentState = AgentState(
    messages: seq<Message>,
    userQuery: string,
    amount: Option<real>,
    token: Option<string>,
    currentChain: Option<string>,
    riskTolerance: RiskTolerance,
    preferredChains: seq<string>,
    excludedProtocols: seq<string>,
    minTvl: real,
    intent: Option<Intent>,
    targetChains: seq<string>,
    processingStep: string,
    yieldOpportunities: seq<YieldOpportunity>,
    bridgeRoutes: seq<BridgeRoute>,
    gasEstimates: seq<GasEstimate>,
    recommendations: seq<Recommendation>,
    reasoning: string,
    executionSteps: seq<string>,
    warnings: seq<string>,
    formattedResponse: string,
    error: Option<string>,
    errorDetails: Option<map<string, string>>)

  /** A state with every field at its declared default. */
  function InitialState(): (s: AgentState)
    ensures s.userQuery == "" && s.riskTolerance == Moderate && s.minTvl == 100000.0
    ensures s.processingStep == "initialized" && s.error.None? && s.intent.None?
    ensures s.amount.None? && s.token.None? && s.currentChain.None? && s.errorDetails.None?
    ensures s.messages == [] && s.preferredChains == [] && s.excludedProtocols == [] && s.targetChains == []
    ensures s.yieldOpportunities == [] && s.bridgeRoutes == [] && s.gasEstimates == [] && s.recommendations == []
    ensures s.reasoning == "" && s.executionSteps == [] && s.warnings == [] && s.formattedResponse == ""
  {
    AgentState([], "", None, None, None, Moderate, [], [], 100000.0, None, [], "initialized",
               [], [], [], [], "", [], [], "", None, None)
  }

  // ===========================================================================
  // Merging opportunities
  // ===========================================================================

  function PoolIds(s: seq<YieldOpportunity>): set<string> {
    set o | o in s :: o.poolId
  }

  predicate UniqueIds(s: seq<YieldOpportunity>) {
    forall i, j :: 0 <= i < j < |s| ==> s[i].poolId != s[j].poolId
  }

  /**
   * The result of `merge_opportunities(existing, incoming)`: `existing`, then each item
   * of `incoming` whose pool id has not been seen yet, in the order of `incoming`.
   */
  function Merged(existing: seq<YieldOpportunity>, incoming: seq<YieldOpportunity>): seq<YieldOpportunity>
    decreases |incoming|
  {
    if incoming == [] then existing
    else
      var m := Merged(existing, incoming[..|incoming| - 1]);
      var o := incoming[|incoming| - 1];
      if o.poolId in PoolIds(m) then m else m + [o]
  }

  lemma PoolIdsSnoc(s: seq<YieldOpportunity>, o: YieldOpportunity)
    ensures PoolIds(s + [o]) == PoolIds(s) + {o.poolId}
  {
    assert forall x :: x in s + [o] <==> x in s || x == o;
  }

  /** `merge_opportunities`: the loop with its set of seen ids. */
  method MergeOpportunities(existing: seq<YieldOpportunity>, incoming: seq<YieldOpportunity>)
    returns (merged: seq<YieldOpportunity>)
    ensures merged == Merged(existing, incoming)
    ensures |existing| <= |merged| && merged[..|existing|] == existing
    ensures PoolIds(merged) == PoolIds(existing) + PoolIds(incoming)
  {
    var seenIds := PoolIds(existing);
    merged := existing;
    for i := 0 to |incoming|
      invariant merged == Merged(existing, incoming[..i])
      invariant seenIds == PoolIds(merged)
    {
      var opp := incoming[i];
      assert incoming[..i + 1][..i] == incoming[..i];
      if opp.poolId !in seenIds {
        PoolIdsSnoc(merged, opp);
        merged := merged + [opp];
        seenIds := seenIds + {opp.poolId};
      }
    }
    assert incoming[..|incoming|] == incoming;
    MergedPrefix(existing, incoming);
    MergedIds(existing, incoming);
  }

  /** Existing items are never removed or reordered: they are an exact prefix. */
  lemma {:induction false} MergedPrefix(existing: seq<YieldOpportunity>, incoming: seq<YieldOpportunity>)
    ensures |existing| <= |Merged(existing, incoming)|
    ensures Merged(existing, incoming)[..|existing|] == existing
    decreases |incoming|
  {
    if incoming != [] {
      MergedPrefix(existing, incoming[..|incoming| - 1]);
    }
  }

  /** Every pool id of either input is in the result, and no other. */
  lemma {:induction false} MergedIds(existing: seq<YieldOpportunity>, incoming: seq<YieldOpportunity>)
    ensures PoolIds(Merged(existing, incoming)) == PoolIds(existing) + PoolIds(incoming)
    decreases |incoming|
  {
    if incoming != [] {
      var init, o := incoming[..|incoming| - 1], incoming[|incoming| - 1];
      MergedIds(existing, init);
      assert incoming == init + [o];
      PoolIdsSnoc(init, o);
      PoolIdsSnoc(Merged(existing, init), o);
    }
  }

  /**
   * Each item after the prefix comes from `incoming` and carries a pool id that no
   * earlier item of the result carries.
   */
  lemma {:induction false} MergedAppendsFresh(existing: seq<YieldOpportunity>, incoming: seq<YieldOpportunity>)
    ensures |existing| <= |Merged(existing, incoming)|
    ensures forall k :: |existing| <= k < |Merged(existing, incoming)| ==>
      Merged(existing, incoming)[k] in incoming && Merged(existing, incoming)[k].poolId !in PoolIds(Merged(existing, incoming)[..k])
    decreases |incoming|
  {
    MergedPrefix(existing, incoming);
    if incoming != [] {
      var init, o := incoming[..|incoming| - 1], incoming[|incoming| - 1];
      MergedAppendsFresh(existing, init);
      var m := Merged(existing, init);
      assert m + [o] == Merged(existing, incoming) ==> (m + [o])[..|m|] == m;
      forall k | |existing| <= k < |m|
        ensures m[k] in incoming
      {
        assert m[k] in init;
      }
    }
  }

  /** Merging keeps pool ids unique when the existing items have unique ids. */
  lemma MergedUniqueIds(existing: seq<YieldOpportunity>, incoming: seq<YieldOpportunity>)
    requires UniqueIds(existing)
    ensures UniqueIds(Merged(existing, incoming))
  {
    var r := Merged(existing, incoming);
    MergedPrefix(existing, incoming);
    MergedAppendsFresh(existing, incoming);
    forall i, j | 0 <= i < j < |r|
      ensures r[i].poolId != r[j].poolId
    {
      if j < |existing| {
        assert r[i] == existing[i] && r[j] == existing[j];
      } else {
        assert r[i] in r[..j];
      }
    }
  }

  /**
   * The first item of `incoming` carrying an id not yet seen (neither in `existing`
   * nor earlier in `incoming`) is the one kept.
   */
  lemma {:induction false} MergedKeepsFirstSeen(existing: seq<YieldOpportunity>, incoming: seq<YieldOpportunity>, j: nat)
    requires j < |incoming|
    requires incoming[j].poolId !in PoolIds(existing) + PoolIds(incoming[..j])
    ensures incoming[j] in Merged(existing, incoming)
    decreases |incoming|
  {
    var init, o := incoming[..|incoming| - 1], incoming[|incoming| - 1];
    var m := Merged(existing, init);
    if j < |incoming| - 1 {
      assert init[..j] == incoming[..j];
      MergedKeepsFirstSeen(existing, init, j);
    } else {
      assert init == incoming[..j];
      MergedIds(existing, init);
    }
  }

  /** Merging items whose ids are all present already changes nothing. */
  lemma {:induction false} MergedNothingNew(existing: seq<YieldOpportunity>, incoming: seq<YieldOpportunity>)
    requires PoolIds(incoming) <= PoolIds(existing)
    ensures Merged(existing, incoming) == existing
    decreases |incoming|
  {
    if incoming != [] {
      var init, o := incoming[..|incoming| - 1], incoming[|incoming| - 1];
      assert incoming == init + [o];
      PoolIdsSnoc(init, o);
      MergedNothingNew(existing, init);
    }
  }

  /** Merging a collection into itself gives it back. */
  lemma MergeSelf(xs: seq<YieldOpportunity>)
    ensures Merged(xs, xs) == xs
  {
    MergedNothingNew(xs, xs);
  }

  /** Merging the same batch twice is the same as merging it once. */
  lemma MergeTwice(existing: seq<YieldOpportunity>, incoming: seq<YieldOpportunity>)
    ensures Merged(Merged(existing, incoming), incoming) == Merged(existing, incoming)
  {
    MergedIds(existing, incoming);
    MergedNothingNew(Merged(existing, incoming), incoming);
  }

  // ===========================================================================
  // Merging warnings
  // ===========================================================================

  predicate NoDuplicates<T(==)>(s: seq<T>) {
    forall i, j :: 0 <= i < j < |s| ==> s[i] != s[j]
  }

  /** Position of the first occurrence of `x` in `s`. */
  function FirstIndex<T(==)>(s: seq<T>, x: T): (i: nat)
    requires x in s
    ensures i < |s| && s[i] == x && x !in s[..i]
  {
    if s[0] == x then 0 else 1 + FirstIndex(s[1..], x)
  }

  lemma {:induction false} FirstIndexInPrefix<T>(p: seq<T>, q: seq<T>, x: T)
    requires x in p
    ensures FirstIndex(p + q, x) == FirstIndex(p, x)
  {
    if p[0] != x {
      assert (p + q)[1..] == p[1..] + q;
      FirstIndexInPrefix(p[1..], q, x);
    }
  }

  /** `list(dict.fromkeys(s))`: keeps each element the first time it is met. */
  function Dedup(s: seq<string>): seq<string>
    decreases |s|
  {
    if s == [] then []
    else
      var d := Dedup(s[..|s| - 1]);
      if s[|s| - 1] in d then d else d + [s[|s| - 1]]
  }

  /**
   * The distinct elements of `s`, each once, ordered by the position of their
   * first occurrence in `s`.
   */
  lemma {:induction false} DedupSpec(s: seq<string>)
    ensures NoDuplicates(Dedup(s))
    ensures forall x :: x in Dedup(s) <==> x in s
    ensures forall i, j :: 0 <= i < j < |Dedup(s)| ==> FirstIndex(s, Dedup(s)[i]) < FirstIndex(s, Dedup(s)[j])
    decreases |s|
  {
    if s != [] {
      var init, x := s[..|s| - 1], s[|s| - 1];
      assert s == init + [x];
      DedupSpec(init);
      var d := Dedup(init);
      forall y | y in d
        ensures FirstIndex(s, y) == FirstIndex(init, y)
      {
        FirstIndexInPrefix(init, [x], y);
      }
      if x !in d {
        assert x !in init;
        assert FirstIndex(s, x) == |s| - 1;
      }
    }
  }

  /** `merge_warnings`: the warnings of both lists, without repeats, in first-seen order. */
  function MergeWarnings(existing: seq<string>, incoming: seq<string>): (r: seq<string>)
    ensures NoDuplicates(r)
    ensures forall w :: w in r <==> w in existing || w in incoming
    ensures forall i, j :: 0 <= i < j < |r| ==> FirstIndex(existing + incoming, r[i]) < FirstIndex(existing + incoming, r[j])
  {
    DedupSpec(existing + incoming);
    Dedup(existing + incoming)
  }

  lemma MergeWarningsExample()
    ensures MergeWarnings(["a", "b"], ["b", "c"]) == ["a", "b", "c"]
  {
    var a, b, c := "a", "b", "c";
    assert a != b && b != c && a != c;
    assert Dedup([a]) == [a] by { assert [a][..0] == []; }
    assert Dedup([a, b]) == [a, b] by { assert [a, b][..1] == [a]; }
    assert Dedup([a, b, b]) == [a, b] by { assert [a, b, b][..2] == [a, b]; }
    assert Dedup([a, b, b, c]) == [a, b, c] by { assert [a, b, b, c][..3] == [a, b, b]; }
    assert [a, b] + [b, c] == [a, b, b, c];
  }

  /** Appending only elements already seen leaves the deduplicated list unchanged. */
  lemma {:induction false} DedupAppendSeen(s: seq<string>, t: seq<string>)
    requires forall x :: x in t ==> x in s
    ensures Dedup(s + t) == Dedup(s)
    decreases |t|
  {
    if t == [] {
      assert s + t == s;
    } else {
      var init, x := t[..|t| - 1], t[|t| - 1];
      assert t == init + [x];
      assert x in t;
      var u := s + t;
      assert u == (s + init) + [x];
      assert u[..|u| - 1] == s + init && u[|u| - 1] == x;
      DedupAppendSeen(s, init);
      DedupSpec(s + init);
      assert x in Dedup(s + init);
    }
  }

  /** A list without repeats is its own deduplication. */
  lemma {:induction false} DedupOfDistinct(s: seq<string>)
    requires NoDuplicates(s)
    ensures Dedup(s) == s
    decreases |s|
  {
    if s != [] {
      var init := s[..|s| - 1];
      assert NoDuplicates(init);
      DedupOfDistinct(init);
      assert s[|s| - 1] !in init;
      DedupSpec(init);
      assert s == init + [s[|s| - 1]];
    }
  }

  /** Merging the same warnings again adds nothing. */
  lemma MergeWarningsTwice(existing: seq<string>, incoming: seq<string>)
    ensures MergeWarnings(MergeWarnings(existing, incoming), incoming) == MergeWarnings(existing, incoming)
  {
    var m := MergeWarnings(existing, incoming);
    assert forall w :: w in incoming ==> w in m;
    DedupAppendSeen(m, incoming);
    DedupOfDistinct(m);
  }
}
