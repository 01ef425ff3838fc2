# Marketing ROI simulation engine — a Dafny model

The Marketing ROI Optimization Platform estimates what an ad placement costs and what return it should bring. It works in four steps:

- It prices the placement (`getAdCost`).
- It gathers market signals: a cultural trend, a search trend and a policy/news sentiment, each read through a keyed store with expiry, plus the competitor count (a comma count) and a population figure (a fresh random draw each cycle), which never go through the store.
- It hands cost, signals and approach to a prediction script. The script turns the predicted revenue into an ROI and an analysis with paired suggestions.
- A polling loop re-runs the cycle and pushes an update to clients only when a trend moved noticeably since the last update it pushed.

The page validates its form, keeps bounded windows of the pushed updates, sends the start-polling message, fetches a cost estimate and shows the simulation result.

This project models that logic in Dafny, in the modules below.

| module | file | models |
|---|---|---|
| `Common` | common.dfy | option and reply types, the feature snapshot, `includes` and comma splitting |
| `AdCost` | ad_cost.dfy | `getAdCost`, with costs in exact integer tenths |
| `Signals` | signals.dfy | the signal store (a class over a map with lazy expiry), `pollTrends`, `getPolicyImpact` |
| `MlService` | ml_service.dfy | the ROI formula, the importance table, top-two selection, the analysis/suggestion rules |
| `Backend` | backend.dfy | `runSimulation`, `/estimate-cost`, `/simulate` |
| `Polling` | polling.dfy | the shared change detector (`lastFactors`), a polling tick, the per-connection timer |
| `Page` | page.dfy | `validateInputs`, the `update` handler, the polling guard, the cost effect, `handleSubmit` |

Modelling conventions:

- Everything outside the program's own logic arrives as a parameter. This covers the Google Ads, Google Trends and news-search answers, the regressor's prediction and importances, `Math.random()` draws (reals in [0, 1)), the current time and the clock label. Each external answer is a `Reply<T>`: `Ok(value)` or `Fail(reason)`.
- Costs and the policy sentiment are integers counted in tenths, so 220 is 2200 and 0.9 is 9. This keeps `200 × 1.1` exact. ROI, trends and population are reals.
- The store is the `Signals.SignalCache` class. Its `entries` map a key to a value and the instant at which the value expires. A read treats a value as absent from that instant on.
- `lastFactors` is a single module-level variable shared by all connections (backend/index.js:161). `Polling.ChangeDetector` holds it once and every tick goes through it. A baseline kept per connection would be the alternative; the model follows the code and keeps one.

## Model

| member | source | states |
|---|---|---|
| Common.Split | backend/index.js:105 | `competitors.split(',')` gives one more piece than there are commas, and no piece contains a comma |
| Common.JoinSplit | backend/index.js:105 | splitting loses nothing: joining the pieces with the separator gives back the text |
| Common.Contains | backend/index.js:49 | `s.includes(sub)`: `sub` is a prefix of `s` or of one of its suffixes |
| Common.ContainsIffOccursAt | backend/index.js:49 | `Contains` holds exactly when `sub` occurs at some index of `s` |
| AdCost.YoutubeBase | backend/index.js:43-47 | the YouTube base is 200 exactly below 10000 subscribers, 800 exactly in [10000, 100000), 5000 exactly in [100000, 1000000) and 20000 exactly from 1000000 |
| AdCost.YoutubeBaseMonotone | backend/index.js:43-47 | more subscribers never lower the YouTube base |
| AdCost.BaseCost | backend/index.js:42-59 | youtube uses the tiers; newspaper is 3000 when the location contains "India", otherwise 5000; ppc is 2 whatever the account call did; any other type is 1000; always positive |
| AdCost.MultiplierTenths | backend/index.js:61-68 | the multiplier lies between 0.9 and 1.3, and is 1.0 for an approach outside the table |
| AdCost.AdCostTenths | backend/index.js:41-69 | the cost is positive and lies between 0.9 and 1.3 times the base; with multiplier 1.0 it equals the base |
| AdCost.YoutubeCostMonotone | backend/index.js:43-68 | for a fixed approach, a YouTube price never drops as subscribers grow |
| AdCost.PpcIgnoresAccessCheck | backend/index.js:50-58 | a PPC price is the same whether the Google Ads call succeeded or threw: 2 times the multiplier |
| AdCost.PriceExamples | backend/index.js:43-68 | persuasive YouTube under 10000 subscribers costs 220; newspaper costs 3000× for "India-North" and 5000× for "US" |
| AdCost.MultiplierAsWritten | backend/index.js:61-68 | the lookup `approachMultipliers[adApproach] \|\| 1.0` yields a non-number exactly for names inherited from Object.prototype |
| AdCost.AdCostAsWritten | backend/index.js:68 | `getAdCost` as written is NaN exactly for the inherited names |
| AdCost.ConstructorApproachIsNaN | backend/index.js:68 | the approach "constructor" gives NaN as written, and the base cost times 1.0 in the corrected model |
| AdCost.AsWrittenAgreesElsewhere | backend/index.js:61-68 | for every other approach, the written and corrected prices agree |
| Signals.TrendKey | backend/index.js:72 | a trend key never collides with a policy key |
| Signals.PolicyKey | backend/index.js:87 | a policy key has the `policy:` prefix |
| Signals.Read | backend/index.js:73-74 | a read yields the stored value exactly when the key is present and not yet expired |
| Signals.CacheAside | backend/index.js:71-101 | a live entry is returned with no write; a miss with a successful lookup stores the value for 3600 s and returns it; a miss with a failed lookup returns the fallback and leaves the store unchanged; other keys are never touched |
| Signals.StoredValueLivesForTtl | backend/index.js:79 | a value written by a lookup is served until exactly 3600 s later and is absent from then on |
| Signals.HitIgnoresLookup | backend/index.js:73-74 | on a hit, neither the external answer nor the fallback has any influence |
| Signals.TrendValue | backend/index.js:77-78 | the trend value is the first timeline value; an empty timeline counts as a failure |
| Signals.TrendFallback | backend/index.js:82 | the random trend fallback lies in [0, 100) |
| Signals.Restricts | backend/index.js:94 | an article restricts exactly when it has a description and "restrict" occurs in it at some index; an article without a description does not |
| Signals.Sample | backend/index.js:93 | the scored sample is the first min(5, n) articles |
| Signals.Reduce | backend/index.js:94 | the `reduce` moves the accumulator by at most one tenth per article |
| Signals.ReduceCounts | backend/index.js:94 | the fold adds one tenth per non-restricting article and subtracts one per restricting article, including articles without a description |
| Signals.Clamp | backend/index.js:95 | `Math.min(Math.max(x, lo), hi)`: the result lies in [lo, hi] and is `x` itself when `x` already does |
| Signals.SentimentTenths | backend/index.js:93-95 | the sentiment is 8 + (sample − restricting) − restricting tenths, capped at 10, and always in [0, 10] |
| Signals.PolicyFallbackTenths | backend/index.js:99 | the fallback is 0.9 iff the location contains "India" and the category is exactly "hardware", and 0.8 otherwise |
| Signals.PolicyValue | backend/index.js:91-97 | a successful search gives the sentiment tenths divided by 10, which lies in [0, 1]; a failed one gives nothing |
| Signals.PolicyFallback | backend/index.js:99 | the fallback is 0.9 when the location contains "India" and the category is "hardware", and 0.8 otherwise |
| Signals.SignalCache.constructor | backend/index.js:20-22 | the store starts empty (this process as the only writer) |
| Signals.SignalCache.Get | backend/index.js:73 | GET with lazy expiry, as `Read` |
| Signals.SignalCache.SetEx | backend/index.js:79 | SETEX replaces one key with the value and its expiry instant |
| Signals.SignalCache.PollTrends | backend/index.js:71-84 | the value returned and the store left behind are those of `CacheAside` with the trend key, the first timeline value and the random fallback; policy entries stay in [0, 1] |
| Signals.SignalCache.GetPolicyImpact | backend/index.js:86-101 | the result lies in [0, 1]; value and new store are those of `CacheAside` with the policy key, the clamped sentiment and the India/hardware fallback |
| MlService.Roi | ml-service/app.py:63 | ROI × cost = revenue − cost for a non-zero cost, and ROI is 0 for a zero cost |
| MlService.RoiTargetMeansRevenue | ml-service/app.py:72 | for a positive cost, ROI ≥ 0.1 iff revenue ≥ 1.1 × cost |
| MlService.FeatureImpact | ml-service/app.py:66-67 | the importance table pairs the feature names with the importances in column order; with seven importances its names are exactly the seven features, in order |
| MlService.BestBelow | ml-service/app.py:73 | among the candidates, the index of greatest importance, the first one on ties |
| MlService.TopPositions | ml-service/app.py:73 | the first two positions of a stable descending sort by importance |
| MlService.TopFactors | ml-service/app.py:73 | the top factors are min(2, n) entries of the table, taken at those positions |
| MlService.AdviceFor | ml-service/app.py:74-89 | a top factor gives a line iff it is one of the five messaged factors and its importance exceeds 0.2; the line is about that factor and quotes that factor's figure |
| MlService.Flagged | ml-service/app.py:74-89 | at most one line per top factor, never the balanced line, each quoting its factor's figure |
| MlService.FlaggedFromStrongFactors | ml-service/app.py:74-89 | every line comes from a top factor above the threshold that is messaged; population and ad_approach never produce one |
| MlService.StrongFactors | ml-service/app.py:74-89 | the names of the messaged top factors above 0.2, in order, at most one per top factor |
| MlService.FlaggedMatchesStrongFactors | ml-service/app.py:74-89 | the lines are exactly one per strong factor, in the same order, so none is skipped and none is extra |
| MlService.StrongFactorsComplete | ml-service/app.py:74-89 | every messaged top factor above 0.2 is among the strong factors |
| MlService.AnalysisBelowTarget | ml-service/app.py:72-89 | below ROI 0.1 the analysis has one line per strong factor among the top two, in order, each quoting its figure, and every strong top factor gets its line |
| MlService.AnalysisSpec | ml-service/app.py:70-92 | at most two lines; the balanced line appears iff ROI ≥ 0.1, and is then the only line |
| MlService.Advice.Suggestion | ml-service/app.py:77-92 | the suggestion appended with each kind of line, never empty |
| MlService.SuggestionIdentifiesLine | ml-service/app.py:77-92 | lines about different factors get different suggestions |
| MlService.Suggestions | ml-service/app.py:70-92 | suggestions match the analysis one for one, each the suggestion paired with its line |
| MlService.Advise | ml-service/app.py:70-92 | the loop over the top factors builds exactly `AnalysisSpec`, with the paired suggestions |
| MlService.RunScript | ml-service/app.py:49-101 | the script fails iff the approach is not one the encoder knows; otherwise cost is the input unchanged, revenue is the prediction, and ROI, table, analysis and suggestions are as above |
| Backend.CompetitorCount | backend/index.js:105 | the competitor count is the number of commas plus one, so at least 1 |
| Backend.Population | backend/index.js:108 | population lies in [1000000, 1500000) |
| Backend.SearchKeyword | backend/index.js:109 | the keyword `${category} ${subcategory} buy`: it starts with the category, ends with " buy", and holds the subcategory in between |
| Backend.CulturalKey | backend/index.js:107 | the cultural trend is stored under the category's trend key, which differs from the search key and is no policy key |
| Backend.SearchKey | backend/index.js:109 | the search trend is stored under the trend key of "{category} {subcategory} buy", which is no policy key |
| Backend.RequestCost | backend/index.js:104 | the cost sent to prediction is the `getAdCost` price (its tenths divided by 10) and positive |
| Backend.Gather | backend/index.js:106-112 | the cultural trend, search trend and policy impact are fetched in that order, each a cache-aside read through the store the previous one left; a live entry is served unchanged for each; the snapshot has the competitor count, the population range and a policy impact in [0, 1]; only the three signal keys may change in the store |
| Backend.RoiTrend | backend/index.js:121 | exactly two points, "Now" with the ROI and "Next Hour" at 1.05 × the ROI (5% further from zero, so below "Now" when the ROI is negative) |
| Backend.CycleResult | backend/index.js:118-122 | a cycle's result holds the request's cost, the gathered factors, the prediction's revenue, the two-point trend of the script's ROI and the script's table, analysis and suggestions |
| Backend.RunSimulation | backend/index.js:103-125 | the store is left as the gathering leaves it; the cycle fails iff prediction fails or the approach is unknown; otherwise the result is a `CycleResult` |
| Backend.HardwareScenario | backend/index.js:103-112 | for YouTube/hardware/India/persuasive with 5000 subscribers and "A,B,C", on an empty store with failing lookups, the cost is 220, the competitor count is 3 and the policy impact is 0.9 |
| Backend.PricedApproachesAreEncoded | backend/index.js:61-67 | the approaches with a price multiplier are exactly the ones the prediction step accepts |
| Backend.EstimateCost | backend/index.js:127-134 | corrected pricing (first Findings row): 400 iff the ad type or approach is empty; otherwise the positive `getAdCost` price |
| Backend.Simulate | backend/index.js:136-159 | 400 with the store untouched iff a required field is empty (subscribers is not checked); otherwise one cycle, answered with its `CycleResult`, or 500 exactly when the cycle fails |
| Backend.SimulateFieldsPresent | backend/index.js:139 | the six text fields `/simulate` requires are all non-empty |
| Polling.PollingRequest | backend/index.js:169 | a tick simulates the session's category, subcategory, location, ad type, approach and subscribers with competitors "Generic", so one competitor |
| Polling.CulturalBaseline | backend/index.js:172 | `lastFactors.culturalTrend \|\| 0`: the last emitted cultural trend, and 0 exactly when there is none or it was 0 |
| Polling.SearchBaseline | backend/index.js:173 | `lastFactors.searchTrends \|\| 0`: the last emitted search trend, and 0 exactly when there is none or it was 0 |
| Polling.IsSignificant | backend/index.js:172-173 | a change is significant when the cultural or search trend differs by more than 5 from the last emitted one, 0 when there is none |
| Polling.FirstRoi | backend/index.js:121 | the ROI of a result is the first point of its trend, when there is one |
| Polling.ChangeDetector.constructor | backend/index.js:161 | no snapshot has been emitted yet |
| Polling.ChangeDetector.Observe | backend/index.js:170-176 | an update is emitted iff the cycle succeeded and the cultural or search trend moved by more than 5 from the last emitted one (0 when none); `lastFactors` changes only on emission, to the emitted factors |
| Polling.ChangeDetector.ObserveAsWritten | backend/index.js:170-176 | as written, with the same emission rule, every update carries no ROI |
| Polling.Tick | backend/index.js:168-177 | corrected (second Findings row): one tick emits iff its cycle succeeds and the gathered factors moved significantly; the update carries those factors and the cycle's ROI; the store is left exactly as `Gather` leaves it |
| Polling.TickAsWritten | backend/index.js:168-177 | the tick as written: the same emissions and detector update, each update without an ROI; the store is left exactly as `Gather` leaves it |
| Polling.Emitted | backend/index.js:172-175 | the snapshots a run of successful ticks emits: at most one per tick, the first significant against the starting baseline |
| Polling.EmittedUpdates | backend/index.js:170-176 | the updates a run of successful cycles emits: at most one per cycle, the first significant against the baseline, each with the factors and ROI of a cycle of the run |
| Polling.EmittedUpdatesFollowEmitted | backend/index.js:172-175 | the factors of the emitted updates are exactly `Emitted` over the run's factors |
| Polling.ObserveRun | backend/index.js:170-176 | successive successful ticks through the detector emit exactly `EmittedUpdates` from its starting baseline, so each update carries the factors and ROI of the cycle that emitted it; the detector ends holding the last emitted snapshot, or its baseline when nothing was emitted |
| Polling.EmissionsAreSignificantSteps | backend/index.js:172-175 | over a run of ticks, each emission is significant against the previous emission, so drift is measured from the last emitted snapshot |
| Polling.QuietRunEmitsNothing | backend/index.js:172-173 | ticks that all stay within the threshold of the baseline emit nothing |
| Polling.EmissionsComeFromTicks | backend/index.js:172-175 | a run emits at most one update per tick, and only snapshots it saw |
| Polling.ThresholdExamples | backend/index.js:172-173 | a move of 6 is significant, a move of 4 is not |
| Polling.PollingConnection.constructor | backend/index.js:164 | a connection starts with no timer |
| Polling.PollingConnection.StartPollingAsWritten | backend/index.js:166-168 | a new timer replaces the held handle and the earlier timer keeps running |
| Polling.PollingConnection.StartPolling | backend/index.js:166-168 | corrected: after the start only the new timer runs |
| Polling.PollingConnection.Disconnect | backend/index.js:180-183 | the held timer is cleared; when at most that timer was running, none runs afterwards |
| Polling.OrphanedTimerAsWritten | backend/index.js:164-183 | two starts and a disconnect as written leave the first timer running |
| Polling.NoOrphanedTimer | backend/index.js:164-183 | the same sequence with the corrected start leaves nothing running |
| Page.Initial | frontend/app/page.tsx:72-80 | the page starts with one chart point, no history and no errors, within the windows |
| Page.Message | frontend/app/page.tsx:130-136 | the message validation records for a field; it is empty only for the API entry, which validation never writes |
| Page.InError | frontend/app/page.tsx:130-136 | only the seven form fields can be in error, and the subscriber field only for YouTube |
| Page.MessagesIdentifyFields | frontend/app/page.tsx:130-136 | no two fields share a validation message |
| Page.FormErrors | frontend/app/page.tsx:128-136 | the error record has an entry exactly for each field in error, with that field's message |
| Page.FormValidIff | frontend/app/page.tsx:128-139 | the record is empty iff the six text fields are filled and a YouTube ad has a positive subscriber count |
| Page.Check | frontend/app/page.tsx:130-136 | one validation line adds its message exactly when its field is in error |
| Page.ValidateInputs | frontend/app/page.tsx:128-139 | the field-by-field record equals `FormErrors`, and the form is valid iff the record is empty |
| Page.Last | frontend/app/page.tsx:88 | `slice(-n)` keeps the last min(len, n) elements |
| Page.Truthy | frontend/app/page.tsx:87 | `if (data.roi)`: the ROI gates the chart exactly when it is present and non-zero |
| Page.OnUpdate | frontend/app/page.tsx:84-94 | factors become the update's; with a truthy ROI the chart gains that point at the end and keeps its last 10, and the history gains one entry and keeps its last 5; otherwise both are unchanged; nothing else changes |
| Page.UpdateKeepsWindows | frontend/app/page.tsx:88-92 | an update never takes the chart beyond 10 points or the history beyond 5 entries |
| Page.PollingUpdateAsWrittenLeavesChart | frontend/app/page.tsx:87 | an update without ROI, as the tick sends it, changes neither the chart nor the history |
| Page.PollingUpdateExtendsChart | frontend/app/page.tsx:87-88 | an update with a non-zero ROI ends the chart with that point |
| Page.PollingMessage | frontend/app/page.tsx:96-98 | the `start-polling` message is sent iff category, subcategory, location, ad type and approach are filled, and the message carries those fields and the subscriber count |
| Page.ValidFormSendsPollingMessage | frontend/app/page.tsx:96-98 | a form that validates always sends the `start-polling` message, and the competitors field never matters to that guard |
| Page.ShownCost | frontend/app/page.tsx:122 | `data.cost \|\| 0`: the numeric cost of an answer as is, 0 for a 400 answer |
| Page.CostEffect | frontend/app/page.tsx:106-126 | without an ad type or approach the cost is reset to 0; otherwise it is the response's cost (0 when absent or zero), or a failed call records the API error |
| Page.CostEffectShowsBackendPrice | frontend/app/page.tsx:106-122 | corrected pricing (first Findings row): with both fields filled, the page shows exactly the backend price, which is positive |
| Page.Submit | frontend/app/page.tsx:141-167 | an invalid form only records its errors; an error answer sets only the API error; a result replaces the shown state, restarts the history with one entry and clears the errors; a failed call records the connection error |
| Page.SubmitOfBackendResult | frontend/app/page.tsx:155-163 | a backend-assembled result always takes the success path, with the history restarted at the predicted ROI |

## Left out

- I/O plumbing is not modelled: the Redis client, the MongoDB model and save, the Express routing and JSON bodies, socket.io connection handling and `emit`, and the HTTP calls to Google Ads, Google Trends and the news search. Their answers are parameters.
- The `io.emit('update', …)` of `/simulate` (backend/index.js:154) is socket output; it is not modelled.
- The PythonShell subprocess is not modelled. That includes the second prediction run inside `/simulate` (backend/index.js:145-151), whose output only feeds the database record and the socket emit; the regressor is deterministic, so it repeats the first run.
- The training of the random forest, the label encoder's codes and `model.predict`/`feature_importances_` are not modelled: their results are inputs (`MlService.ModelOutput`). Only the encoder's set of known labels is kept, because an unknown approach makes the script fail.
- Scheduling is not modelled: `setInterval` every 30 s, `clearInterval` as a time event, and the concurrency of several connections ticking at once. A tick is one atomic step.
- Floating-point rounding is not modelled. Costs and sentiment are exact tenths and the other quantities are reals. The `parseFloat(value.toString())` round trip through the store is taken as exact.
- The analysis lines carry the number they quote (`MlService.Advice`) instead of the formatted text (`:.2f` and friends).
- An absent JSON field is modelled as the empty string. In particular, a newspaper request without a location would throw in `location.includes` (backend/index.js:49); the model prices it as a location without "India".
- Page.OnUpdate: the spread merge of `data.factors` into the previous factors is modelled as a replacement, because every update carries a complete snapshot.
- Page.Submit: an error answer whose message is the empty string is treated as an error answer. The page would treat it as falsy and proceed to read the missing result fields.
- Polling.Tick: a failed cycle is modelled as emitting nothing and leaving the detector as it was. In the source the `async` interval callback (backend/index.js:168-177) has no handler for a rejected `runSimulation`, which Node by default treats as fatal for the whole process; process termination is not modelled.
- Page.PollingMessage: it states when the message is sent, not that polling then runs. The cleanup of the same effect (frontend/app/page.tsx:100-103) disconnects the module-level socket (frontend/app/page.tsx:10) whenever one of the six fields changes, and nothing connects it again. A socket.io client disconnected by hand does not reconnect, so after the first edit a later `start-polling` never reaches the backend and the `update` handler no longer fires. The socket's connection state is not modelled.
- Signals.SignalCache.constructor: the store is taken to start empty and to be written only by this process. A real Redis store may survive a restart and be shared with other writers, so an entry may be present from the start or outside the policy range.
- Backend.EstimateCost: it uses the corrected multiplier lookup. For an approach named like an Object.prototype member, the source's price is NaN and the endpoint answers a null cost (first Findings row, `AdCost.AdCostAsWritten`).
- Page.CostEffectShowsBackendPrice: it holds for the corrected price. For the names of the first Findings row the page receives a null cost and shows 0 instead.
- The JSX, charts, gauge, the category lists, the open/closed panels and the time-label formatting of the page are not modelled; the clock label is a parameter.
- The two Next.js API routes forward requests unchanged; they are not part of this model.

## Findings

| source | as written | input that shows it | evidently intended | confidence | as-written member | corrected member |
|---|---|---|---|---|---|---|
| backend/index.js:68 | `approachMultipliers[adApproach] \|\| 1.0` reads a plain object, so inherited names such as "constructor" give a function and the price is NaN | `/estimate-cost` with adApproach "constructor" | any approach outside the table is priced at 1.0 | high, not executed | AdCost.ConstructorApproachIsNaN | AdCost.AdCostTenths |
| backend/index.js:170-174 | the tick reads `roi` from `runSimulation`'s result, which has `roiTrend` but no `roi`, so every polling update carries no ROI and the page's chart and history never grow from polling | any significant polling tick | the update carries the cycle's ROI (`roiTrend[0].roi`) | high, not executed | Polling.ChangeDetector.ObserveAsWritten | Polling.ChangeDetector.Observe |
| backend/index.js:166-168 | a second `start-polling` on one connection overwrites `interval` without clearing it, so the first timer runs forever, even after disconnect | two `start-polling` messages, then disconnect | the held timer is cleared before a new one starts | high, not executed | Polling.OrphanedTimerAsWritten | Polling.PollingConnection.StartPolling |
