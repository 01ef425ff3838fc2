/** The decision logic of ml-service/app.py: label encoding of the approach, the
    ROI formula, the feature-impact table and the analysis/suggestion rules. The
    trained regressor itself is outside the model: its predicted revenue and
    its feature importances are inputs. */
module MlService {
  import opened Common

  /** Column names of the feature vector, in order. */
  const FeatureNames: seq<string> :=
    ["ad_cost", "cultural_trend", "population", "search_trends", "competitor_count", "policy_impact", "ad_approach"]

  /** The labels the approach encoder was fitted on; any other label makes the
      encoder raise. */
  const EncodedApproaches: set<string> := {"informative", "persuasive", "emotive", "comparative", "reminder"}

  /** Factors that can produce a message. */
  const MessagedFactors: set<string> :=
    {"ad_cost", "competitor_count", "search_trends", "cultural_trend", "policy_impact"}

  /** Importance a top factor must exceed to produce a message. */
  const ImportanceThreshold: real := 0.2

  /** ROI below which the top factors are examined. */
  const RoiTarget: real := 0.1

  /** What the trained regressor yields for one input: predicted revenue and one
      importance per feature column. */
  datatype ModelOutput = ModelOutput(revenue: real, importances: seq<real>)

  /** An analysis line. Each constructor carries the number the line quotes:
      HighAdCost "High ad cost ($…) is significantly reducing ROI.",
      HighCompetition "High competition (… competitors) is impacting performance.",
      WeakDemand "Low search trends (…) indicate weak demand.",
      PoorFit "Low cultural trends (…) suggest poor market fit.",
      UnfavorablePolicy "Unfavorable policies (score: …) are limiting ROI.",
      Balanced "ROI is positive. Performance is driven by balanced factors." */
  datatype Advice =
    | HighAdCost(adCost: real)
    | HighCompetition(competitors: int)
    | WeakDemand(searchTrends: real)
    | PoorFit(culturalTrend: real)
    | UnfavorablePolicy(policyImpact: real)
    | Balanced
  {
    /** The feature the line is about ("" for the balanced line). */
    function Factor(): string
    {
      match this
      case HighAdCost(_) => "ad_cost"
      case HighCompetition(_) => "competitor_count"
      case WeakDemand(_) => "search_trends"
      case PoorFit(_) => "cultural_trend"
      case UnfavorablePolicy(_) => "policy_impact"
      case Balanced => ""
    }

    /** The line quotes the figure of its own factor. */
    predicate Quotes(adCost: real, factors: FeatureSnapshot)
    {
      match this
      case HighAdCost(c) => c == adCost
      case HighCompetition(n) => n == factors.competitorCount
      case WeakDemand(t) => t == factors.searchTrends
      case PoorFit(t) => t == factors.culturalTrend
      case UnfavorablePolicy(p) => p == factors.policyImpact
      case Balanced => true
    }

    /** The suggestion appended together with this line. */
    function Suggestion(): (s: string)
      ensures |s| > 0
    {
      match this
      case HighAdCost(_) => "Reduce ad spend or switch to a lower-cost ad type (e.g., PPC)."
      case HighCompetition(_) => "Target a less competitive market or use comparative ads."
      case WeakDemand(_) => "Use emotive or persuasive ads to boost interest."
      case PoorFit(_) => "Adjust product positioning or target a different region."
      case UnfavorablePolicy(_) => "Explore markets with more favorable regulations."
      case Balanced => "Maintain current strategy or experiment with higher ad spend for scale."
    }
  }

  /** The script's JSON output. */
  datatype Output = Output(
    roi: real,
    revenue: real,
    cost: real,
    featureImpact: seq<(string, real)>,
    analysis: seq<Advice>,
    suggestions: seq<string>)

  /** ROI relative to the ad cost, 0 for a zero cost. */
  function Roi(revenue: real, adCost: real): (roi: real)
    ensures adCost != 0.0 ==> roi * adCost == revenue - adCost
    ensures adCost == 0.0 ==> roi == 0.0
  {
    if adCost != 0.0 then (revenue - adCost) / adCost else 0.0
  }

  /** For a positive cost, ROI reaches the target exactly when revenue reaches
      110% of the cost. */
  lemma RoiTargetMeansRevenue(revenue: real, adCost: real)
    requires adCost > 0.0
    ensures Roi(revenue, adCost) >= RoiTarget <==> revenue >= 1.1 * adCost
  {
  }

  /** The importance table: feature names zipped with the importances, in column
      order (zip stops at the shorter list). */
  function FeatureImpact(importances: seq<real>): (impact: seq<(string, real)>)
    ensures |impact| == Min(|FeatureNames|, |importances|)
    ensures forall i :: 0 <= i < |impact| ==> impact[i] == (FeatureNames[i], importances[i])
    ensures |importances| == |FeatureNames| ==>
      seq(|impact|, i requires 0 <= i < |impact| => impact[i].0) == FeatureNames
  {
    var n := Min(|FeatureNames|, |importances|);
    seq(n, i requires 0 <= i < n => (FeatureNames[i], importances[i]))
  }

  /** Whether some index below `n` other than `excluded` exists. */
  predicate HasCandidate(n: nat, excluded: int)
  {
    n >= 2 || (n == 1 && excluded != 0)
  }

  /** `k` is, among the indices other than `excluded`, the first one of greatest
      importance: where a stable descending sort puts it. */
  ghost predicate FirstBest(items: seq<(string, real)>, k: int, excluded: int)
  {
    && 0 <= k < |items| && k != excluded
    && (forall j :: 0 <= j < |items| && j != excluded ==> items[j].1 <= items[k].1)
    && (forall j :: 0 <= j < k && j != excluded ==> items[j].1 < items[k].1)
  }

  /** Among the indices below `n` other than `excluded`, the first one of
      greatest importance. */
  function BestBelow(items: seq<(string, real)>, n: nat, excluded: int): (k: nat)
    requires n <= |items| && HasCandidate(n, excluded)
    ensures k < n && k != excluded
    ensures forall j :: 0 <= j < n && j != excluded ==> items[j].1 <= items[k].1
    ensures forall j :: 0 <= j < k && j != excluded ==> items[j].1 < items[k].1
    decreases n
  {
    if n - 1 == excluded then BestBelow(items, n - 1, excluded)
    else if !HasCandidate(n - 1, excluded) then n - 1
    else
      var k := BestBelow(items, n - 1, excluded);
      if items[k].1 < items[n - 1].1 then n - 1 else k
  }

  /** Positions of the first two entries of the table sorted by importance,
      descending, with ties kept in table order (Python's sort is stable, also
      when reversed). */
  function TopPositions(impact: seq<(string, real)>): (ix: seq<nat>)
    ensures |ix| == Min(2, |impact|)
    ensures |ix| >= 1 ==> FirstBest(impact, ix[0], -1)
    ensures |ix| == 2 ==> FirstBest(impact, ix[1], ix[0])
  {
    if |impact| == 0 then []
    else
      var a := BestBelow(impact, |impact|, -1);
      if |impact| == 1 then [a] else [a, BestBelow(impact, |impact|, a)]
  }

  /** `sorted(feature_impact.items(), key=importance, reverse=True)[:2]`. */
  function TopFactors(impact: seq<(string, real)>): (top: seq<(string, real)>)
    ensures |top| == Min(2, |impact|)
    ensures forall i :: 0 <= i < |top| ==> top[i] == impact[TopPositions(impact)[i]]
  {
    var ix := TopPositions(impact);
    seq(|ix|, i requires 0 <= i < |ix| => impact[ix[i]])
  }

  /** The line (if any) one top factor contributes. */
  function AdviceFor(factor: string, importance: real, adCost: real, factors: FeatureSnapshot): (r: seq<Advice>)
    ensures |r| <= 1
    ensures |r| == 1 <==> factor in MessagedFactors && importance > ImportanceThreshold
    ensures |r| == 1 ==> r[0].Factor() == factor && r[0].Quotes(adCost, factors)
  {
    if importance <= ImportanceThreshold then []
    else if factor == "ad_cost" then [HighAdCost(adCost)]
    else if factor == "competitor_count" then [HighCompetition(factors.competitorCount)]
    else if factor == "search_trends" then [WeakDemand(factors.searchTrends)]
    else if factor == "cultural_trend" then [PoorFit(factors.culturalTrend)]
    else if factor == "policy_impact" then [UnfavorablePolicy(factors.policyImpact)]
    else []
  }

  /** Lines produced by a run of top factors, in order. */
  function Flagged(top: seq<(string, real)>, adCost: real, factors: FeatureSnapshot): (r: seq<Advice>)
    ensures |r| <= |top|
    ensures forall i :: 0 <= i < |r| ==> r[i] != Balanced && r[i].Factor() in MessagedFactors
    ensures forall i :: 0 <= i < |r| ==> r[i].Quotes(adCost, factors)
  {
    if top == [] then []
    else
      var last := top[|top| - 1];
      Flagged(top[..|top| - 1], adCost, factors) + AdviceFor(last.0, last.1, adCost, factors)
  }

  /** Whether a top factor should produce a line: it is messaged and its
      importance exceeds the threshold. */
  predicate Strong(entry: (string, real))
  {
    entry.0 in MessagedFactors && entry.1 > ImportanceThreshold
  }

  /** The names of the strong top factors, in table order. */
  function StrongFactors(top: seq<(string, real)>): (names: seq<string>)
    ensures |names| <= |top|
  {
    if top == [] then []
    else StrongFactors(top[..|top| - 1]) + (if Strong(top[|top| - 1]) then [top[|top| - 1].0] else [])
  }

  /** The lines of a run of top factors are exactly one per strong factor, in
      order: no strong factor is skipped and no other one produces a line. */
  lemma {:induction false} FlaggedMatchesStrongFactors(top: seq<(string, real)>, adCost: real,
                                                       factors: FeatureSnapshot)
    ensures |Flagged(top, adCost, factors)| == |StrongFactors(top)|
    ensures forall i :: 0 <= i < |StrongFactors(top)| ==>
      Flagged(top, adCost, factors)[i].Factor() == StrongFactors(top)[i]
  {
    if top != [] {
      var init := top[..|top| - 1];
      FlaggedMatchesStrongFactors(init, adCost, factors);
    }
  }

  /** Every strong top factor is among the strong factors. */
  lemma {:induction false} StrongFactorsComplete(top: seq<(string, real)>)
    ensures forall i :: 0 <= i < |top| && Strong(top[i]) ==> top[i].0 in StrongFactors(top)
  {
    if top != [] {
      var init := top[..|top| - 1];
      StrongFactorsComplete(init);
      forall i | 0 <= i < |top| && Strong(top[i]) ensures top[i].0 in StrongFactors(top) {
        if i < |top| - 1 {
          assert top[i] == init[i];
        }
      }
    }
  }

  /** Below the ROI target, the analysis has one line per strong factor among
      the two top factors, in order, each quoting its figure; a strong top
      factor always gets its line. */
  lemma {:induction false} AnalysisBelowTarget(roi: real, adCost: real, factors: FeatureSnapshot,
                                               impact: seq<(string, real)>)
    requires roi < RoiTarget
    ensures var top := TopFactors(impact);
      var r := AnalysisSpec(roi, adCost, factors, impact);
      && |r| == |StrongFactors(top)|
      && (forall i :: 0 <= i < |r| ==> r[i].Factor() == StrongFactors(top)[i] && r[i].Quotes(adCost, factors))
      && (forall i :: 0 <= i < |top| && Strong(top[i]) ==> exists j :: 0 <= j < |r| && r[j].Factor() == top[i].0)
  {
    var top := TopFactors(impact);
    var r := AnalysisSpec(roi, adCost, factors, impact);
    FlaggedMatchesStrongFactors(top, adCost, factors);
    StrongFactorsComplete(top);
    forall i | 0 <= i < |top| && Strong(top[i])
      ensures exists j :: 0 <= j < |r| && r[j].Factor() == top[i].0
    {
      var j :| 0 <= j < |StrongFactors(top)| && StrongFactors(top)[j] == top[i].0;
      assert r[j].Factor() == top[i].0;
    }
  }

  /** Names of the top factors whose importance exceeds the threshold. */
  ghost function StrongNames(top: seq<(string, real)>): set<string>
  {
    set j | 0 <= j < |top| && top[j].1 > ImportanceThreshold :: top[j].0
  }

  /** Every flagged line comes from a top factor whose importance exceeds the
      threshold; population and ad_approach never produce one. */
  lemma {:induction false} FlaggedFromStrongFactors(top: seq<(string, real)>, adCost: real, factors: FeatureSnapshot)
    ensures forall i :: 0 <= i < |Flagged(top, adCost, factors)| ==>
      Flagged(top, adCost, factors)[i].Factor() in StrongNames(top) * MessagedFactors
  {
    if top != [] {
      var init := top[..|top| - 1];
      var last := top[|top| - 1];
      FlaggedFromStrongFactors(init, adCost, factors);
      assert StrongNames(init) <= StrongNames(top) by {
        forall name | name in StrongNames(init) ensures name in StrongNames(top) {
          var j :| 0 <= j < |init| && init[j].1 > ImportanceThreshold && init[j].0 == name;
          assert top[j] == init[j];
        }
      }
      var step := AdviceFor(last.0, last.1, adCost, factors);
      if |step| == 1 {
        assert top[|top| - 1].0 in StrongNames(top);
      }
    }
  }

  /** The analysis lines the script produces. */
  function AnalysisSpec(roi: real, adCost: real, factors: FeatureSnapshot, impact: seq<(string, real)>)
    : (r: seq<Advice>)
    ensures |r| <= 2
    ensures Balanced in r <==> roi >= RoiTarget
    ensures roi >= RoiTarget ==> r == [Balanced]
  {
    if roi < RoiTarget then Flagged(TopFactors(impact), adCost, factors) else [Balanced]
  }

  /** The suggestion paired with each analysis line. */
  function Suggestions(analysis: seq<Advice>): (s: seq<string>)
    ensures |s| == |analysis|
    ensures forall i :: 0 <= i < |s| ==> s[i] == analysis[i].Suggestion()
  {
    seq(|analysis|, i requires 0 <= i < |analysis| => analysis[i].Suggestion())
  }

  /** Lines about different factors get different suggestions, so a
      suggestion tells which kind of line it was paired with. */
  lemma SuggestionIdentifiesLine(a: Advice, b: Advice)
    requires a.Suggestion() == b.Suggestion()
    ensures a.Factor() == b.Factor()
  {
    // The six suggestions differ in their third-last character.
    assert Marker(a) == Marker(b);
  }

  /** The third-last character of a line's suggestion. */
  function Marker(a: Advice): (c: char)
    ensures |a.Suggestion()| >= 3 && c == a.Suggestion()[|a.Suggestion()| - 3]
  {
    match a
    case HighAdCost(_) => 'C'
    case HighCompetition(_) => 'd'
    case WeakDemand(_) => 's'
    case PoorFit(_) => 'o'
    case UnfavorablePolicy(_) => 'n'
    case Balanced => 'l'
  }

  lemma SuggestionsAppend(analysis: seq<Advice>, more: seq<Advice>)
    ensures Suggestions(analysis + more) == Suggestions(analysis) + Suggestions(more)
  {
  }

  /** The rule block: below the ROI target, each of the two top factors that is
      messaged and important enough appends one analysis line and its
      suggestion; otherwise the single balanced pair. */
  method Advise(roi: real, adCost: real, factors: FeatureSnapshot, impact: seq<(string, real)>)
    returns (analysis: seq<Advice>, suggestions: seq<string>)
    ensures analysis == AnalysisSpec(roi, adCost, factors, impact)
    ensures suggestions == Suggestions(analysis)
  {
    analysis, suggestions := [], [];
    if roi < RoiTarget {
      var top := TopFactors(impact);
      for i := 0 to |top|
        invariant analysis == Flagged(top[..i], adCost, factors)
        invariant suggestions == Suggestions(analysis)
      {
        var (factor, importance) := top[i];
        ghost var before := analysis;
        assert top[..i + 1][..i] == top[..i];
        var step := AdviceFor(factor, importance, adCost, factors);
        analysis := analysis + step;
        suggestions := suggestions + Suggestions(step);
        assert analysis == before + step;
        SuggestionsAppend(before, step);
      }
      assert top[..|top|] == top;
    } else {
      analysis := analysis + [Balanced];
      suggestions := suggestions + ["Maintain current strategy or experiment with higher ad spend for scale."];
    }
  }

  /** One run of the script for the request {adCost, factors, adApproach}, given
      what the regressor yields. An approach the encoder was not fitted on makes
      the script fail before anything is printed. */
  method RunScript(adCost: real, factors: FeatureSnapshot, approach: string, model: ModelOutput)
    returns (out: Reply<Output>)
    ensures out.Ok? <==> approach in EncodedApproaches
    ensures out.Ok? ==> out.value.cost == adCost
    ensures out.Ok? ==> out.value.revenue == model.revenue
    ensures out.Ok? ==> out.value.roi == Roi(model.revenue, adCost)
    ensures out.Ok? ==> out.value.featureImpact == FeatureImpact(model.importances)
    ensures out.Ok? ==> out.value.analysis
                        == AnalysisSpec(Roi(model.revenue, adCost), adCost, factors, FeatureImpact(model.importances))
    ensures out.Ok? ==> out.value.suggestions == Suggestions(out.value.analysis)
  {
    if approach !in EncodedApproaches {
      return Fail("y contains previously unseen labels");
    }
    var roi := Roi(model.revenue, adCost);
    var impact := FeatureImpact(model.importances);
    var analysis, suggestions := Advise(roi, adCost, factors, impact);
    out := Ok(Output(roi, model.revenue, adCost, impact, analysis, suggestions));
  }
}
