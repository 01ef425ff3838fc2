/** The simulation orchestration of backend/index.js: the feature aggregation
    and assembly of `runSimulation`, and the field checks of the two HTTP
    endpoints. External answers arrive as parameters (`Oracles`). */
module Backend {
  import opened Common
  import opened AdCost
  import opened Signals
  import opened MlService

  datatype SimulationRequest = SimulationRequest(
    productCategory: string,
    subcategory: string,
    location: string,
    competitors: string,
    adType: string,
    adApproach: string,
    subscribers: int)

  /** A point of the ROI trend. */
  datatype TrendPoint = TrendPoint(date: string, roi: real)

  datatype SimulationResult = SimulationResult(
    roiTrend: seq<TrendPoint>,
    factors: FeatureSnapshot,
    featureImpact: seq<(string, real)>,
    analysis: seq<Advice>,
    suggestions: seq<string>,
    adCost: real,
    revenue: real)

  /** What the outside world answers during one simulation cycle: the PPC
      account call, the two trend queries and the news search, the random draws
      (each in [0, 1)), and the regressor inside the prediction subprocess
      (Fail when the subprocess cannot run at all). */
  datatype Oracles = Oracles(
    access: AccessCheck,
    culturalReply: Reply<seq<real>>,
    culturalRand: real,
    populationRand: real,
    searchReply: Reply<seq<real>>,
    searchRand: real,
    policyReply: Reply<seq<Article>>,
    model: Reply<ModelOutput>)

  predicate DrawsInRange(o: Oracles)
  {
    && 0.0 <= o.culturalRand < 1.0
    && 0.0 <= o.populationRand < 1.0
    && 0.0 <= o.searchRand < 1.0
  }

  /** The feature snapshot of a cycle and the store it leaves behind. */
  datatype Gathered = Gathered(factors: FeatureSnapshot, store: map<string, Entry>)

  /** Number of competitors: the pieces of the comma-separated text. */
  function CompetitorCount(competitors: string): (n: int)
    ensures n == Occurrences(competitors, ',') + 1
    ensures n >= 1
  {
    |Split(competitors, ',')|
  }

  /** `1000000 + Math.random() * 500000`, with the draw passed in. */
  function Population(rand: real): (p: real)
    requires 0.0 <= rand < 1.0
    ensures 1000000.0 <= p < 1500000.0
  {
    1000000.0 + rand * 500000.0
  }

  /** The keyword of the search-trend signal. */
  function SearchKeyword(req: SimulationRequest): (kw: string)
    ensures |kw| == |req.productCategory| + |req.subcategory| + 5
    ensures kw[..|req.productCategory|] == req.productCategory
    ensures kw[|req.productCategory| + 1..|kw| - 4] == req.subcategory
    ensures kw[|kw| - 4..] == " buy"
  {
    req.productCategory + " " + req.subcategory + " buy"
  }

  /** Store key of the cultural-trend signal: the category in the location. */
  function CulturalKey(req: SimulationRequest): (key: string)
    ensures key == TrendKey(req.location, req.productCategory)
    ensures key != SearchKey(req) && !IsPolicyKey(key)
  {
    TrendKey(req.location, req.productCategory)
  }

  /** Store key of the search-trend signal; longer than the cultural key, so
      the two never collide. */
  function SearchKey(req: SimulationRequest): (key: string)
    ensures key == TrendKey(req.location, SearchKeyword(req))
    ensures |key| > |TrendKey(req.location, req.productCategory)| && !IsPolicyKey(key)
  {
    TrendKey(req.location, SearchKeyword(req))
  }

  /** The cost of a request in currency units, as sent to the prediction step. */
  function RequestCost(req: SimulationRequest, access: AccessCheck): (cost: real)
    ensures cost * 10.0 == AdCostTenths(req.adType, req.location, req.subscribers, req.adApproach, access) as real
    ensures cost > 0.0
  {
    AdCostTenths(req.adType, req.location, req.subscribers, req.adApproach, access) as real / 10.0
  }

  /** The feature aggregation: the cultural trend, search trend and policy
      impact through the store, in that order, the competitor count and a fresh
      population. The snapshot is always complete: every failed lookup has its
      fallback. */
  function Gather(store: map<string, Entry>, req: SimulationRequest, now: int, o: Oracles): (g: Gathered)
    requires DrawsInRange(o)
    requires PolicyValuesInRange(store)
    ensures PolicyValuesInRange(g.store)
    ensures 0.0 <= g.factors.policyImpact <= 1.0
    ensures g.factors.competitorCount == Occurrences(req.competitors, ',') + 1
    ensures 1000000.0 <= g.factors.population < 1500000.0
    // the three signals are fetched in this order, each through the store the previous one left
    ensures var cultural := CacheAside(store, CulturalKey(req), now,
                                       TrendValue(o.culturalReply), TrendFallback(o.culturalRand));
      var search := CacheAside(cultural.store, SearchKey(req), now,
                               TrendValue(o.searchReply), TrendFallback(o.searchRand));
      var policy := CacheAside(search.store, PolicyKey(req.location, req.productCategory), now,
                               PolicyValue(o.policyReply), PolicyFallback(req.location, req.productCategory));
      && g.factors.culturalTrend == cultural.value
      && g.factors.searchTrends == search.value
      && g.factors.policyImpact == policy.value
      && g.store == policy.store
    // a live entry of the original store is served for each signal
    ensures Read(store, CulturalKey(req), now).Some? ==>
      g.factors.culturalTrend == store[CulturalKey(req)].value
    ensures Read(store, SearchKey(req), now).Some? ==>
      g.factors.searchTrends == store[SearchKey(req)].value
    ensures Read(store, PolicyKey(req.location, req.productCategory), now).Some? ==>
      g.factors.policyImpact == store[PolicyKey(req.location, req.productCategory)].value
    ensures forall k :: k !in {CulturalKey(req), SearchKey(req), PolicyKey(req.location, req.productCategory)} ==>
      (k in g.store <==> k in store) && (k in store ==> g.store[k] == store[k])
  {
    var cultural := CacheAside(store, CulturalKey(req), now,
                               TrendValue(o.culturalReply), TrendFallback(o.culturalRand));
    var search := CacheAside(cultural.store, SearchKey(req), now,
                             TrendValue(o.searchReply), TrendFallback(o.searchRand));
    var policyKey := PolicyKey(req.location, req.productCategory);
    var policy := CacheAside(search.store, policyKey, now,
                             PolicyValue(o.policyReply), PolicyFallback(req.location, req.productCategory));
    assert policyKey in search.store && now < search.store[policyKey].expiresAt ==>
      0.0 <= search.store[policyKey].value <= 1.0;
    Gathered(
      FeatureSnapshot(cultural.value, Population(o.populationRand), search.value,
                      CompetitorCount(req.competitors), policy.value),
      policy.store)
  }

  /** The ROI trend: now, and a fixed 5% extrapolation for the next hour. */
  function RoiTrend(roi: real): (trend: seq<TrendPoint>)
    ensures |trend| == 2
    ensures trend[0].date == "Now" && trend[1].date == "Next Hour"
    ensures trend[0].roi == roi && trend[1].roi - trend[0].roi == roi * 0.05
  {
    [TrendPoint("Now", roi), TrendPoint("Next Hour", roi * 1.05)]
  }

  /** `result` is what a cycle assembles from the request's cost, the gathered
      `factors` and the regressor's output: the script's revenue, table,
      analysis and suggestions, and the two-point trend of the script's ROI. */
  predicate CycleResult(result: SimulationResult, req: SimulationRequest, factors: FeatureSnapshot,
                        access: AccessCheck, model: ModelOutput)
  {
    var cost := RequestCost(req, access);
    var roi := Roi(model.revenue, cost);
    var impact := FeatureImpact(model.importances);
    && result.factors == factors
    && result.adCost == cost
    && result.revenue == model.revenue
    && result.roiTrend == RoiTrend(roi)
    && result.featureImpact == impact
    && result.analysis == AnalysisSpec(roi, cost, factors, impact)
    && result.suggestions == Suggestions(result.analysis)
  }

  /** `runSimulation`: price the request, gather the features through the
      store, run the prediction script and assemble the result. It fails only
      when the prediction step fails; the store writes of the cycle happen
      either way. */
  method RunSimulation(cache: SignalCache, req: SimulationRequest, now: int, o: Oracles)
    returns (r: Reply<SimulationResult>)
    requires cache.Valid() && DrawsInRange(o)
    modifies cache
    ensures cache.Valid()
    ensures cache.entries == Gather(old(cache.entries), req, now, o).store
    ensures r.Ok? <==> o.model.Ok? && req.adApproach in EncodedApproaches
    ensures r.Ok? ==>
      && o.model.Ok?
      && CycleResult(r.value, req, Gather(old(cache.entries), req, now, o).factors, o.access, o.model.value)
  {
    var adCost := RequestCost(req, o.access);
    var culturalTrend := cache.PollTrends(req.location, req.productCategory, now, o.culturalReply, o.culturalRand);
    var population := Population(o.populationRand);
    var searchTrends := cache.PollTrends(req.location, SearchKeyword(req), now, o.searchReply, o.searchRand);
    var policyImpact := cache.GetPolicyImpact(req.location, req.productCategory, now, o.policyReply);
    var factors := FeatureSnapshot(culturalTrend, population, searchTrends, CompetitorCount(req.competitors),
                                   policyImpact);
    assert factors == Gather(old(cache.entries), req, now, o).factors;
    match o.model {
      case Fail(reason) =>
        r := Fail(reason);
      case Ok(model) =>
        var script := RunScript(adCost, factors, req.adApproach, model);
        match script {
          case Fail(reason) =>
            r := Fail(reason);
          case Ok(out) =>
            r := Ok(SimulationResult(RoiTrend(out.roi), factors, out.featureImpact, out.analysis, out.suggestions,
                                     adCost, out.revenue));
        }
    }
  }

  /** A YouTube hardware request from India, persuasive, 5000 subscribers and
      competitors "A,B,C", against an empty store with every lookup failing:
      the price is 220, three competitors are counted and the policy impact is
      the India-hardware fallback 0.9. */
  lemma HardwareScenario(now: int, o: Oracles)
    requires DrawsInRange(o) && o.policyReply.Fail?
    ensures var req := SimulationRequest("hardware", "electronics", "India", "A,B,C", "youtube", "persuasive", 5000);
      var g := Gather(map[], req, now, o);
      && RequestCost(req, o.access) == 220.0
      && g.factors.competitorCount == 3
      && g.factors.policyImpact == 0.9
  {
  }

  /** An approach outside the multiplier table is priced with the default 1.0,
      but the prediction step rejects it, so such a simulation always fails. */
  lemma PricedApproachesAreEncoded()
    ensures MultiplierTable.Keys == EncodedApproaches
  {
  }

  // ---- endpoints ------------------------------------------------------------

  datatype CostRequest = CostRequest(adType: string, adApproach: string, subscribers: int, location: string)

  datatype CostResponse = CostOk(cost: real) | CostBadRequest(error: string)

  /** `/estimate-cost`: 400 exactly when the ad type or the approach is missing. */
  function EstimateCost(req: CostRequest, access: AccessCheck): (resp: CostResponse)
    ensures resp.CostBadRequest? <==> req.adType == "" || req.adApproach == ""
    ensures resp.CostOk? ==>
      resp.cost == AdCostTenths(req.adType, req.location, req.subscribers, req.adApproach, access) as real / 10.0
      && resp.cost > 0.0
  {
    if req.adType == "" || req.adApproach == "" then CostBadRequest("Ad type and approach are required")
    else CostOk(AdCostTenths(req.adType, req.location, req.subscribers, req.adApproach, access) as real / 10.0)
  }

  /** The fields `/simulate` requires; the subscriber count is not checked. */
  predicate SimulateFieldsPresent(req: SimulationRequest)
  {
    && req.productCategory != "" && req.subcategory != "" && req.location != ""
    && req.competitors != "" && req.adType != "" && req.adApproach != ""
  }

  datatype SimulateResponse = SimOk(result: SimulationResult) | SimError(status: int, error: string)

  /** `/simulate`: 400 when a required field is missing (nothing else happens),
      otherwise one simulation cycle, answered with its result or a 500. */
  method Simulate(cache: SignalCache, req: SimulationRequest, now: int, o: Oracles)
    returns (resp: SimulateResponse)
    requires cache.Valid() && DrawsInRange(o)
    modifies cache
    ensures cache.Valid()
    ensures !SimulateFieldsPresent(req) ==>
      resp == SimError(400, "All fields are required") && cache.entries == old(cache.entries)
    ensures SimulateFieldsPresent(req) ==>
      cache.entries == Gather(old(cache.entries), req, now, o).store
      && (resp.SimOk? <==> o.model.Ok? && req.adApproach in EncodedApproaches)
      && (resp.SimOk? ==>
            && o.model.Ok?
            && CycleResult(resp.result, req, Gather(old(cache.entries), req, now, o).factors, o.access,
                           o.model.value))
      && (resp.SimError? ==> resp.status == 500)
  {
    if !SimulateFieldsPresent(req) {
      return SimError(400, "All fields are required");
    }
    var r := RunSimulation(cache, req, now, o);
    match r {
      case Ok(result) => resp := SimOk(result);
      case Fail(reason) => resp := SimError(500, reason);
    }
  }
}
