/** The polling side of backend/index.js: the change detector over the
    module-level `lastFactors` (one value shared by every connection), a polling
    tick, and the per-connection timer handle. */
module Polling {
  import opened Common
  import opened Signals
  import opened Backend
  import MlService

  /** A trend must move by more than this to be worth an update. */
  const ChangeThreshold: real := 5.0

  /** The cultural-trend baseline: the last emitted value, 0 when there is none. */
  function CulturalBaseline(last: Option<FeatureSnapshot>): (b: real)
    ensures last.Some? ==> b == last.value.culturalTrend
    ensures b == 0.0 <==> last.None? || last.value.culturalTrend == 0.0
  {
    if last.Some? then last.value.culturalTrend else 0.0
  }

  /** The search-trend baseline: the last emitted value, 0 when there is none. */
  function SearchBaseline(last: Option<FeatureSnapshot>): (b: real)
    ensures last.Some? ==> b == last.value.searchTrends
    ensures b == 0.0 <==> last.None? || last.value.searchTrends == 0.0
  {
    if last.Some? then last.value.searchTrends else 0.0
  }

  /** A change is significant when the cultural or the search trend moved by
      more than the threshold from the baseline; no other field counts. */
  predicate IsSignificant(last: Option<FeatureSnapshot>, current: FeatureSnapshot)
  {
    || Abs(current.culturalTrend - CulturalBaseline(last)) > ChangeThreshold
    || Abs(current.searchTrends - SearchBaseline(last)) > ChangeThreshold
  }

  /** The ROI an update should carry: the first point of the ROI trend. */
  function FirstRoi(result: SimulationResult): (roi: Option<real>)
    ensures roi.Some? <==> |result.roiTrend| > 0
    ensures roi.Some? ==> roi.value == result.roiTrend[0].roi
  {
    if |result.roiTrend| > 0 then Some(result.roiTrend[0].roi) else None
  }

  /** The change detector: `lastFactors` holds the last snapshot that was
      emitted, and is replaced only by an emission. */
  class ChangeDetector {
    var lastFactors: Option<FeatureSnapshot>

    constructor ()
      ensures lastFactors == None
    {
      lastFactors := None;
    }

    /** The end of one polling tick, given the outcome of its simulation cycle:
        emit an update iff the cycle succeeded and its factors moved
        significantly from the last emitted ones. The update carries the ROI
        of the cycle. */
    method Observe(cycle: Reply<SimulationResult>) returns (update: Option<Update>)
      modifies this
      ensures update.Some? <==> cycle.Ok? && IsSignificant(old(lastFactors), cycle.value.factors)
      ensures update.Some? ==> update.value == Update(cycle.value.factors, FirstRoi(cycle.value))
      ensures lastFactors == if update.Some? then Some(cycle.value.factors) else old(lastFactors)
    {
      update := None;
      if cycle.Ok? {
        var factors := cycle.value.factors;
        if IsSignificant(lastFactors, factors) {
          update := Some(Update(factors, FirstRoi(cycle.value)));
          lastFactors := Some(factors);
        }
      }
    }

    /** The tick as written: it reads `roi` from the cycle's result, which has no
        such field, so every update goes out without an ROI. */
    method ObserveAsWritten(cycle: Reply<SimulationResult>) returns (update: Option<Update>)
      modifies this
      ensures update.Some? <==> cycle.Ok? && IsSignificant(old(lastFactors), cycle.value.factors)
      ensures update.Some? ==> update.value == Update(cycle.value.factors, None)
      ensures lastFactors == if update.Some? then Some(cycle.value.factors) else old(lastFactors)
    {
      update := None;
      if cycle.Ok? {
        var factors := cycle.value.factors;
        if IsSignificant(lastFactors, factors) {
          update := Some(Update(factors, None));
          lastFactors := Some(factors);
        }
      }
    }
  }

  /** The fields of a `start-polling` message. */
  datatype PollingStart = PollingStart(
    productCategory: string,
    subcategory: string,
    location: string,
    adType: string,
    adApproach: string,
    subscribers: int)

  /** The request a polling tick simulates: the start-polling fields, with the
      competitors fixed to "Generic". */
  function PollingRequest(start: PollingStart): (req: SimulationRequest)
    ensures req.competitors == "Generic" && CompetitorCount(req.competitors) == 1
    ensures req.productCategory == start.productCategory && req.subcategory == start.subcategory
    ensures req.location == start.location && req.adType == start.adType
    ensures req.adApproach == start.adApproach && req.subscribers == start.subscribers
  {
    assert Occurrences("Generic", ',') == 0;
    SimulationRequest(start.productCategory, start.subcategory, start.location, "Generic", start.adType,
                      start.adApproach, start.subscribers)
  }

  /** One polling tick, corrected: run a cycle for the session's request and
      pass its outcome to the shared detector; an update carries the cycle's
      ROI. A failed cycle emits nothing and leaves the detector as it was. */
  method Tick(detector: ChangeDetector, cache: SignalCache, start: PollingStart, now: int, o: Oracles)
    returns (update: Option<Update>)
    requires cache.Valid() && DrawsInRange(o)
    modifies detector, cache
    ensures cache.Valid()
    ensures cache.entries == Gather(old(cache.entries), PollingRequest(start), now, o).store
    ensures var factors := Gather(old(cache.entries), PollingRequest(start), now, o).factors;
      && (update.Some? <==> o.model.Ok? && start.adApproach in MlService.EncodedApproaches
                            && IsSignificant(old(detector.lastFactors), factors))
      && (update.Some? ==>
            && update.value.factors == factors
            && update.value.roi == Some(MlService.Roi(o.model.value.revenue, RequestCost(PollingRequest(start), o.access))))
      && detector.lastFactors == if update.Some? then Some(factors) else old(detector.lastFactors)
  {
    var cycle := RunSimulation(cache, PollingRequest(start), now, o);
    update := detector.Observe(cycle);
  }

  /** One polling tick as written: the same emissions, each without an ROI. */
  method TickAsWritten(detector: ChangeDetector, cache: SignalCache, start: PollingStart, now: int, o: Oracles)
    returns (update: Option<Update>)
    requires cache.Valid() && DrawsInRange(o)
    modifies detector, cache
    ensures cache.Valid()
    ensures cache.entries == Gather(old(cache.entries), PollingRequest(start), now, o).store
    ensures var factors := Gather(old(cache.entries), PollingRequest(start), now, o).factors;
      && (update.Some? <==> o.model.Ok? && start.adApproach in MlService.EncodedApproaches
                            && IsSignificant(old(detector.lastFactors), factors))
      && (update.Some? ==> update.value == Update(factors, None))
      && detector.lastFactors == if update.Some? then Some(factors) else old(detector.lastFactors)
  {
    var cycle := RunSimulation(cache, PollingRequest(start), now, o);
    update := detector.ObserveAsWritten(cycle);
  }

  // ---- a run of ticks ---------------------------------------------------------

  /** Snapshots emitted over a run of successful ticks, starting from `last`. */
  function Emitted(last: Option<FeatureSnapshot>, ticks: seq<FeatureSnapshot>): (e: seq<FeatureSnapshot>)
    ensures |e| <= |ticks|
    ensures |e| > 0 ==> IsSignificant(last, e[0])
    decreases |ticks|
  {
    if ticks == [] then []
    else if IsSignificant(last, ticks[0]) then [ticks[0]] + Emitted(Some(ticks[0]), ticks[1..])
    else Emitted(last, ticks[1..])
  }

  /** Drift is measured from the last emitted snapshot: the first emission is
      significant against the starting baseline, and every later one against
      the emission before it. */
  lemma {:induction false} EmissionsAreSignificantSteps(last: Option<FeatureSnapshot>, ticks: seq<FeatureSnapshot>)
    ensures var e := Emitted(last, ticks);
      && (|e| > 0 ==> IsSignificant(last, e[0]))
      && (forall i :: 0 < i < |e| ==> IsSignificant(Some(e[i - 1]), e[i]))
    decreases |ticks|
  {
    if ticks != [] {
      if IsSignificant(last, ticks[0]) {
        EmissionsAreSignificantSteps(Some(ticks[0]), ticks[1..]);
        var rest := Emitted(Some(ticks[0]), ticks[1..]);
        var e := [ticks[0]] + rest;
        forall i | 0 < i < |e| ensures IsSignificant(Some(e[i - 1]), e[i]) {
          if i > 1 {
            assert e[i - 1] == rest[i - 2] && e[i] == rest[i - 1];
          }
        }
      } else {
        EmissionsAreSignificantSteps(last, ticks[1..]);
      }
    }
  }

  /** While both trends stay within the threshold of the baseline, nothing is
      emitted. */
  lemma {:induction false} QuietRunEmitsNothing(last: Option<FeatureSnapshot>, ticks: seq<FeatureSnapshot>)
    requires forall i :: 0 <= i < |ticks| ==> !IsSignificant(last, ticks[i])
    ensures Emitted(last, ticks) == []
    decreases |ticks|
  {
    if ticks != [] {
      assert !IsSignificant(last, ticks[0]);
      QuietRunEmitsNothing(last, ticks[1..]);
    }
  }

  /** A run emits at most one update per tick, and only snapshots it saw. */
  lemma {:induction false} EmissionsComeFromTicks(last: Option<FeatureSnapshot>, ticks: seq<FeatureSnapshot>)
    ensures |Emitted(last, ticks)| <= |ticks|
    ensures forall x :: x in Emitted(last, ticks) ==> x in ticks
    decreases |ticks|
  {
    if ticks != [] {
      EmissionsComeFromTicks(Some(ticks[0]), ticks[1..]);
      EmissionsComeFromTicks(last, ticks[1..]);
    }
  }

  /** The factors of each cycle of a run. */
  function Snapshots(cycles: seq<SimulationResult>): (s: seq<FeatureSnapshot>)
    ensures |s| == |cycles| && forall i :: 0 <= i < |s| ==> s[i] == cycles[i].factors
  {
    seq(|cycles|, i requires 0 <= i < |cycles| => cycles[i].factors)
  }

  /** The factors carried by a run of updates. It has the shape of `Snapshots`
      over a different element type; the two meet in
      `EmittedUpdatesFollowEmitted`. */
  function UpdateFactors(updates: seq<Update>): (s: seq<FeatureSnapshot>)
    ensures |s| == |updates| && forall i :: 0 <= i < |s| ==> s[i] == updates[i].factors
  {
    seq(|updates|, i requires 0 <= i < |updates| => updates[i].factors)
  }

  /** The updates a run of successful cycles emits, starting from `last`: one
      per cycle whose factors moved significantly from the last emission, with
      that cycle's own factors and ROI. */
  function EmittedUpdates(last: Option<FeatureSnapshot>, cycles: seq<SimulationResult>): (us: seq<Update>)
    ensures |us| <= |cycles|
    ensures |us| > 0 ==> IsSignificant(last, us[0].factors)
    ensures forall u :: u in us ==> exists c :: c in cycles && u == Update(c.factors, FirstRoi(c))
    decreases |cycles|
  {
    if cycles == [] then []
    else
      var rest := if IsSignificant(last, cycles[0].factors)
                  then EmittedUpdates(Some(cycles[0].factors), cycles[1..])
                  else EmittedUpdates(last, cycles[1..]);
      assert forall u :: u in rest ==> exists c :: c in cycles && u == Update(c.factors, FirstRoi(c)) by {
        forall u | u in rest ensures exists c :: c in cycles && u == Update(c.factors, FirstRoi(c)) {
          var c :| c in cycles[1..] && u == Update(c.factors, FirstRoi(c));
          assert c in cycles;
        }
      }
      if IsSignificant(last, cycles[0].factors)
      then [Update(cycles[0].factors, FirstRoi(cycles[0]))] + rest
      else rest
  }

  /** The factors of the emitted updates are exactly the emitted snapshots of
      the run's factors. */
  lemma {:induction false} EmittedUpdatesFollowEmitted(last: Option<FeatureSnapshot>, cycles: seq<SimulationResult>)
    ensures UpdateFactors(EmittedUpdates(last, cycles)) == Emitted(last, Snapshots(cycles))
    decreases |cycles|
  {
    if cycles != [] {
      var snaps := Snapshots(cycles);
      assert snaps[0] == cycles[0].factors && snaps[1..] == Snapshots(cycles[1..]);
      var next := if IsSignificant(last, cycles[0].factors) then Some(cycles[0].factors) else last;
      EmittedUpdatesFollowEmitted(next, cycles[1..]);
      var rest := EmittedUpdates(next, cycles[1..]);
      if IsSignificant(last, cycles[0].factors) {
        var us := [Update(cycles[0].factors, FirstRoi(cycles[0]))] + rest;
        assert UpdateFactors(us) == [cycles[0].factors] + UpdateFactors(rest);
      }
    }
  }

  /** Successive successful ticks through the detector emit exactly
      `EmittedUpdates` from the detector's starting baseline, each update with
      the factors and ROI of the cycle that emitted it; the detector is left
      holding the last emitted snapshot, or its baseline when nothing was
      emitted. */
  method ObserveRun(detector: ChangeDetector, cycles: seq<SimulationResult>) returns (updates: seq<Update>)
    modifies detector
    ensures updates == EmittedUpdates(old(detector.lastFactors), cycles)
    ensures UpdateFactors(updates) == Emitted(old(detector.lastFactors), Snapshots(cycles))
    ensures forall u :: u in updates ==> exists c :: c in cycles && u == Update(c.factors, FirstRoi(c))
    ensures detector.lastFactors == if updates == [] then old(detector.lastFactors)
                                    else Some(updates[|updates| - 1].factors)
  {
    ghost var start := detector.lastFactors;
    updates := [];
    for i := 0 to |cycles|
      invariant updates + EmittedUpdates(detector.lastFactors, cycles[i..]) == EmittedUpdates(start, cycles)
      invariant detector.lastFactors == if updates == [] then start else Some(updates[|updates| - 1].factors)
    {
      assert cycles[i..][0] == cycles[i] && cycles[i..][1..] == cycles[i + 1..];
      var u := detector.Observe(Ok(cycles[i]));
      if u.Some? {
        updates := updates + [u.value];
      }
    }
    assert cycles[|cycles|..] == [];
    assert cycles[0..] == cycles;
    EmittedUpdatesFollowEmitted(start, cycles);
  }

  /** A move of 6 is significant, a move of 4 is not. */
  lemma ThresholdExamples(p: FeatureSnapshot)
    requires p.culturalTrend == 50.0 && p.searchTrends == 50.0
    ensures IsSignificant(Some(p), p.(culturalTrend := 56.0))
    ensures !IsSignificant(Some(p), p.(culturalTrend := 54.0))
  {
  }

  // ---- the per-connection timer ----------------------------------------------

  /** The timer bookkeeping of one connection: `interval` is the handle the
      connection holds, `running` the timers started for it and not cleared. */
  class PollingConnection {
    var interval: Option<nat>
    var running: set<nat>

    /** At most one timer runs, and it is the one held. */
    ghost predicate Valid()
      reads this
    {
      running <= (if interval.Some? then {interval.value} else {})
    }

    constructor ()
      ensures Valid() && interval == None && running == {}
    {
      interval := None;
      running := {};
    }

    /** `start-polling` as written: a new timer replaces the held handle, and a
        timer started earlier keeps running. */
    method StartPollingAsWritten(handle: nat)
      requires handle !in running
      modifies this
      ensures interval == Some(handle) && running == old(running) + {handle}
    {
      interval := Some(handle);
      running := running + {handle};
    }

    /** `start-polling` with the held timer cleared first. */
    method StartPolling(handle: nat)
      requires Valid() && handle !in running
      modifies this
      ensures Valid() && interval == Some(handle) && running == {handle}
    {
      if interval.Some? {
        running := running - {interval.value};
      }
      interval := Some(handle);
      running := running + {handle};
    }

    /** `disconnect`: clear the held timer. */
    method Disconnect()
      modifies this
      ensures interval == old(interval)
      ensures running == old(running) - (if interval.Some? then {interval.value} else {})
      ensures old(Valid()) ==> running == {}
    {
      if interval.Some? {
        running := running - {interval.value};
      }
    }
  }

  /** Two start-polling messages on one connection, then a disconnect, as
      written: the first timer is never cleared. */
  method OrphanedTimerAsWritten() returns (left: set<nat>)
    ensures left == {1}
  {
    var c := new PollingConnection();
    c.StartPollingAsWritten(1);
    c.StartPollingAsWritten(2);
    c.Disconnect();
    left := c.running;
  }

  /** The same sequence with the corrected start: nothing is left running. */
  method NoOrphanedTimer() returns (left: set<nat>)
    ensures left == {}
  {
    var c := new PollingConnection();
    c.StartPolling(1);
    c.StartPolling(2);
    c.Disconnect();
    left := c.running;
  }
}
