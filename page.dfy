/** The state transitions of the client page, frontend/app/page.tsx: form
    validation, the socket `update` handler, the start-polling guard, the cost
    effect and the result handling of a submit. React state is one record and
    each handler a function from the old record to the new one. */
module Page {
  import opened Common
  import opened AdCost
  import opened MlService
  import opened Backend
  import opened Polling

  datatype FormInput = FormInput(
    productCategory: string,
    subcategory: string,
    location: string,
    competitors: string,
    adType: string,
    adApproach: string,
    subscribers: int)

  /** The keys of the page's error record. */
  datatype ErrorField =
    | ProductCategory | Subcategory | Location | Competitors | AdType | AdApproach | Subscribers | Api

  datatype HistoryEntry = HistoryEntry(timestamp: string, factors: FeatureSnapshot, roi: real)

  datatype PageState = PageState(
    adCost: real,
    revenue: real,
    roiData: seq<TrendPoint>,
    factors: FeatureSnapshot,
    featureImpact: seq<(string, real)>,
    analysis: seq<Advice>,
    suggestions: seq<string>,
    errors: map<ErrorField, string>,
    updateHistory: seq<HistoryEntry>)

  /** The chart holds at most 10 points and the history at most 5 entries. */
  predicate Windowed(s: PageState)
  {
    |s.roiData| <= 10 && |s.updateHistory| <= 5
  }

  /** The state the page starts in: a single zero point on the chart, no
      history and no errors. */
  function Initial(): (s: PageState)
    ensures Windowed(s) && |s.roiData| == 1 && s.updateHistory == [] && s.errors == map[]
  {
    PageState(0.0, 0.0, [TrendPoint("Now", 0.0)], FeatureSnapshot(50.0, 1000000.0, 50.0, 0, 0.0),
              [], [], [], map[], [])
  }

  // ---- validateInputs ---------------------------------------------------------

  /** The message validation records for a form field. The API entry is never
      produced by validation (its text comes from the endpoints), so it has none. */
  function Message(e: ErrorField): (m: string)
    ensures m == "" <==> e == Api
  {
    match e
    case ProductCategory => "Product category is required"
    case Subcategory => "Subcategory is required"
    case Location => "Location is required"
    case Competitors => "At least one competitor is required"
    case AdType => "Ad type is required"
    case AdApproach => "Ad approach is required"
    case Subscribers => "Subscribers must be greater than 0"
    case Api => ""
  }

  /** Whether the form is in error on field `e`. */
  function InError(f: FormInput, e: ErrorField): (b: bool)
    ensures b ==> e in FormFields
    ensures e == Subscribers && b ==> f.adType == "youtube"
  {
    match e
    case ProductCategory => f.productCategory == ""
    case Subcategory => f.subcategory == ""
    case Location => f.location == ""
    case Competitors => f.competitors == ""
    case AdType => f.adType == ""
    case AdApproach => f.adApproach == ""
    case Subscribers => f.adType == "youtube" && f.subscribers <= 0
    case Api => false
  }

  const FormFields: set<ErrorField> :=
    {ProductCategory, Subcategory, Location, Competitors, AdType, AdApproach, Subscribers}

  /** Each validation message names one field: no two fields share a message. */
  lemma MessagesIdentifyFields(e1: ErrorField, e2: ErrorField)
    requires Message(e1) == Message(e2)
    ensures e1 == e2
  {
  }

  /** The error record validation produces: one message per field in error. */
  function FormErrors(f: FormInput): (errs: map<ErrorField, string>)
    ensures forall e :: e in errs <==> InError(f, e)
    ensures forall e :: e in errs ==> errs[e] == Message(e)
  {
    map e | e in FormFields && InError(f, e) :: Message(e)
  }

  /** A form passes exactly when every text field is filled in and a YouTube ad
      has a positive subscriber count. */
  lemma {:induction false} FormValidIff(f: FormInput)
    ensures FormErrors(f) == map[] <==>
      && f.productCategory != "" && f.subcategory != "" && f.location != "" && f.competitors != ""
      && f.adType != "" && f.adApproach != "" && !(f.adType == "youtube" && f.subscribers <= 0)
  {
    var errs := FormErrors(f);
    if errs == map[] {
      assert !InError(f, ProductCategory) && !InError(f, Subcategory) && !InError(f, Location);
      assert !InError(f, Competitors) && !InError(f, AdType) && !InError(f, AdApproach);
      assert !InError(f, Subscribers);
    } else {
      var e :| e in errs;
      assert InError(f, e);
    }
  }

  /** One line of `validateInputs`: record the message of field `e` when the
      form is in error there. */
  function Check(m: map<ErrorField, string>, f: FormInput, e: ErrorField): (m': map<ErrorField, string>)
    ensures InError(f, e) ==> m' == m[e := Message(e)]
    ensures !InError(f, e) ==> m' == m
  {
    if InError(f, e) then m[e := Message(e)] else m
  }

  /** `m` holds exactly the messages of the fields of `done` that are in error. */
  ghost predicate Recorded(f: FormInput, m: map<ErrorField, string>, done: set<ErrorField>)
  {
    forall e :: (e in m <==> e in done && InError(f, e)) && (e in m ==> m[e] == Message(e))
  }

  /** Checking one more field extends the record by that field. */
  lemma RecordStep(f: FormInput, m: map<ErrorField, string>, done: set<ErrorField>, e: ErrorField)
    requires Recorded(f, m, done)
    ensures Recorded(f, Check(m, f, e), done + {e})
  {
  }

  /** A record that is complete over the form fields is the validation result. */
  lemma RecordedAll(f: FormInput, m: map<ErrorField, string>)
    requires Recorded(f, m, FormFields)
    ensures m == FormErrors(f)
  {
  }

  /** `validateInputs`: check the fields one after the other, in the page's
      order; the form is valid when the record stays empty. */
  method ValidateInputs(f: FormInput) returns (ok: bool, newErrors: map<ErrorField, string>)
    ensures newErrors == FormErrors(f)
    ensures ok <==> newErrors == map[]
  {
    ghost var done: set<ErrorField> := {};
    newErrors := map[];
    RecordStep(f, newErrors, done, ProductCategory);
    newErrors, done := Check(newErrors, f, ProductCategory), done + {ProductCategory};
    RecordStep(f, newErrors, done, Subcategory);
    newErrors, done := Check(newErrors, f, Subcategory), done + {Subcategory};
    RecordStep(f, newErrors, done, Location);
    newErrors, done := Check(newErrors, f, Location), done + {Location};
    RecordStep(f, newErrors, done, Competitors);
    newErrors, done := Check(newErrors, f, Competitors), done + {Competitors};
    RecordStep(f, newErrors, done, AdType);
    newErrors, done := Check(newErrors, f, AdType), done + {AdType};
    RecordStep(f, newErrors, done, AdApproach);
    newErrors, done := Check(newErrors, f, AdApproach), done + {AdApproach};
    RecordStep(f, newErrors, done, Subscribers);
    newErrors, done := Check(newErrors, f, Subscribers), done + {Subscribers};
    assert done == FormFields;
    RecordedAll(f, newErrors);
    ok := newErrors == map[];
  }

  // ---- the socket `update` handler ---------------------------------------------

  /** JavaScript truthiness of the update's ROI: absent and 0 are falsy. */
  function Truthy(roi: Option<real>): (t: bool)
    ensures t ==> roi.Some?
    ensures !t <==> roi == None || roi == Some(0.0)
  {
    roi.Some? && roi.value != 0.0
  }

  /** `xs.slice(-n)`: the last `n` elements, or all of them when there are fewer. */
  function Last<T>(xs: seq<T>, n: nat): (r: seq<T>)
    requires n > 0
    ensures |r| == Min(|xs|, n)
    ensures r == xs[|xs| - |r|..]
  {
    if |xs| <= n then xs else xs[|xs| - n..]
  }

  /** The `update` handler; `clock` is the time label of the moment. */
  function OnUpdate(s: PageState, u: Update, clock: string): (s': PageState)
    ensures s'.factors == u.factors
    ensures Truthy(u.roi) ==>
      && |s'.roiData| == Min(|s.roiData| + 1, 10)
      && s'.roiData[|s'.roiData| - 1] == TrendPoint(clock, u.roi.value)
      && s'.roiData[..|s'.roiData| - 1] == s.roiData[|s.roiData| + 1 - |s'.roiData|..]
      && |s'.updateHistory| == Min(|s.updateHistory| + 1, 5)
      && s'.updateHistory[|s'.updateHistory| - 1] == HistoryEntry(clock, u.factors, u.roi.value)
      && s'.updateHistory[..|s'.updateHistory| - 1] == s.updateHistory[|s.updateHistory| + 1 - |s'.updateHistory|..]
    ensures !Truthy(u.roi) ==> s'.roiData == s.roiData && s'.updateHistory == s.updateHistory
    ensures |s'.roiData| <= Max(|s.roiData|, 10) && |s'.updateHistory| <= Max(|s.updateHistory|, 5)
    ensures s' == s.(factors := s'.factors, roiData := s'.roiData, updateHistory := s'.updateHistory)
  {
    var s1 := s.(factors := u.factors);
    if Truthy(u.roi) then
      var roiData := Last(s.roiData + [TrendPoint(clock, u.roi.value)], 10);
      var history := Last(s.updateHistory + [HistoryEntry(clock, u.factors, u.roi.value)], 5);
      s1.(roiData := roiData, updateHistory := history)
    else s1
  }

  /** The update handler keeps the chart and history windows bounded. */
  lemma UpdateKeepsWindows(s: PageState, u: Update, clock: string)
    requires Windowed(s)
    ensures Windowed(OnUpdate(s, u, clock))
  {
  }

  /** An update from the polling tick as written carries no ROI, so the chart
      and the history never grow from polling. */
  lemma PollingUpdateAsWrittenLeavesChart(s: PageState, factors: FeatureSnapshot, clock: string)
    ensures OnUpdate(s, Update(factors, None), clock).roiData == s.roiData
    ensures OnUpdate(s, Update(factors, None), clock).updateHistory == s.updateHistory
  {
  }

  /** With the corrected tick, an update with a non-zero ROI adds that ROI as the
      newest chart point. */
  lemma PollingUpdateExtendsChart(s: PageState, factors: FeatureSnapshot, roi: real, clock: string)
    requires roi != 0.0
    ensures var s' := OnUpdate(s, Update(factors, Some(roi)), clock);
      |s'.roiData| > 0 && s'.roiData[|s'.roiData| - 1] == TrendPoint(clock, roi)
  {
  }

  // ---- start-polling guard ------------------------------------------------------

  /** The `start-polling` message the page sends for a form, if any: only when
      category, subcategory, location, ad type and approach are all filled in.
      The competitors field is not required. */
  function PollingMessage(f: FormInput): (m: Option<PollingStart>)
    ensures m.Some? <==>
      f.productCategory != "" && f.subcategory != "" && f.location != "" && f.adType != "" && f.adApproach != ""
    ensures m.Some? ==>
      && m.value.productCategory == f.productCategory && m.value.subcategory == f.subcategory
      && m.value.location == f.location && m.value.adType == f.adType
      && m.value.adApproach == f.adApproach && m.value.subscribers == f.subscribers
  {
    if f.productCategory != "" && f.subcategory != "" && f.location != "" && f.adType != "" && f.adApproach != ""
    then Some(PollingStart(f.productCategory, f.subcategory, f.location, f.adType, f.adApproach, f.subscribers))
    else None
  }

  /** Every form that passes validation sends the `start-polling` message; the
      converse fails, as an empty competitors field does not hold it back. */
  lemma {:induction false} ValidFormSendsPollingMessage(f: FormInput)
    ensures FormErrors(f) == map[] ==> PollingMessage(f).Some?
    ensures PollingMessage(f.(competitors := "")).Some? == PollingMessage(f).Some?
  {
    FormValidIff(f);
  }

  // ---- the cost effect ------------------------------------------------------------

  /** `data.cost || 0` for a cost response: a numeric cost is shown as is (a
      zero cost gives 0 either way), and a 400 answer, which has no cost, shows 0. */
  function ShownCost(resp: CostResponse): (c: real)
    ensures resp.CostOk? ==> c == resp.cost
    ensures resp.CostBadRequest? ==> c == 0.0
  {
    match resp
    case CostOk(cost) => cost
    case CostBadRequest(_) => 0.0
  }

  /** The cost effect: with an ad type and approach, the cost endpoint's answer
      (`reply`) sets the cost, or a failed call records an API error; without
      them the cost is reset to 0. */
  function CostEffect(s: PageState, f: FormInput, reply: Reply<CostResponse>): (s': PageState)
    ensures f.adType == "" || f.adApproach == "" ==> s' == s.(adCost := 0.0)
    ensures f.adType != "" && f.adApproach != "" && reply.Ok? ==> s' == s.(adCost := ShownCost(reply.value))
    ensures f.adType != "" && f.adApproach != "" && reply.Fail? ==>
      s' == s.(errors := s.errors[Api := "Failed to fetch cost estimate"])
  {
    if f.adType != "" && f.adApproach != "" then
      match reply
      case Ok(resp) => s.(adCost := ShownCost(resp))
      case Fail(_) => s.(errors := s.errors[Api := "Failed to fetch cost estimate"])
    else s.(adCost := 0.0)
  }

  /** With an ad type and approach filled in, the page shows exactly the
      backend's price, which is positive. */
  lemma CostEffectShowsBackendPrice(s: PageState, f: FormInput, access: AccessCheck)
    requires f.adType != "" && f.adApproach != ""
    ensures var s' := CostEffect(s, f, Ok(EstimateCost(CostRequest(f.adType, f.adApproach, f.subscribers, f.location), access)));
      s'.adCost == AdCostTenths(f.adType, f.location, f.subscribers, f.adApproach, access) as real / 10.0
      && s'.adCost > 0.0
  {
  }

  // ---- handleSubmit ---------------------------------------------------------------

  /** `handleSubmit`: validate (recording the errors); on a valid form take the
      simulate endpoint's answer `reply`. An error answer sets only the API
      error; a result replaces the shown result, restarts the history with one
      entry and clears the errors. A result without ROI points throws after
      the result has been shown, and the API error is recorded instead. */
  function Submit(s: PageState, f: FormInput, reply: Reply<SimulateResponse>, clock: string): (s': PageState)
    ensures FormErrors(f) != map[] ==> s' == s.(errors := FormErrors(f))
    ensures FormErrors(f) == map[] && reply.Ok? && reply.value.SimError? ==>
      s' == s.(errors := map[Api := reply.value.error])
    ensures FormErrors(f) == map[] && reply.Fail? ==>
      s' == s.(errors := map[Api := "Failed to connect to backend"])
    ensures FormErrors(f) == map[] && reply.Ok? && reply.value.SimOk? ==>
      var r := reply.value.result;
      && s'.roiData == r.roiTrend && s'.factors == r.factors && s'.featureImpact == r.featureImpact
      && s'.analysis == r.analysis && s'.suggestions == r.suggestions
      && s'.adCost == r.adCost && s'.revenue == r.revenue
      && (|r.roiTrend| > 0 ==>
            s'.updateHistory == [HistoryEntry(clock, r.factors, r.roiTrend[0].roi)] && s'.errors == map[])
      && (|r.roiTrend| == 0 ==>
            s'.updateHistory == s.updateHistory && s'.errors == map[Api := "Failed to connect to backend"])
  {
    var errs := FormErrors(f);
    var s1 := s.(errors := errs);
    if errs != map[] then s1
    else
      match reply
      case Fail(_) => s1.(errors := errs[Api := "Failed to connect to backend"])
      case Ok(SimError(_, message)) => s1.(errors := errs[Api := message])
      case Ok(SimOk(r)) =>
        var s2 := s1.(roiData := r.roiTrend, factors := r.factors, featureImpact := r.featureImpact,
                      analysis := r.analysis, suggestions := r.suggestions, adCost := r.adCost, revenue := r.revenue);
        if |r.roiTrend| == 0 then s2.(errors := errs[Api := "Failed to connect to backend"])
        else s2.(updateHistory := [HistoryEntry(clock, r.factors, r.roiTrend[0].roi)], errors := map[])
  }

  /** A result assembled by the backend always takes the success path: the
      history restarts with the predicted ROI and the errors are cleared. */
  lemma SubmitOfBackendResult(s: PageState, f: FormInput, r: SimulationResult, roi: real, clock: string)
    requires FormErrors(f) == map[]
    requires r.roiTrend == RoiTrend(roi)
    ensures var s' := Submit(s, f, Ok(SimOk(r)), clock);
      s'.updateHistory == [HistoryEntry(clock, r.factors, roi)] && s'.errors == map[] && |s'.roiData| == 2
  {
  }
}
