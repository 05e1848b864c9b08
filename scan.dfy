/** One pass of the daily continuous-monitoring scan: every attached continuous-use device whose
    analysis is due gets a reading recorded and its last analysis date moved to today. */
module ContinuousMonitoring {
  import opened Entities
  import WaterAnalysisService

  predicate IsAttached(d: ContinuousUseDevice) {
    d.fountainId.Some?
  }

  /** At least `analysisFrequency` days have passed since the last analysis: today has reached
      the day the next analysis falls on. A device analysed today with a positive frequency is
      not due. */
  function IsDue(d: ContinuousUseDevice, today: Day): (due: bool)
    ensures due <==> d.lastAnalysisDate + d.analysisFrequency <= today
    ensures d.lastAnalysisDate == today ==> (due <==> d.analysisFrequency <= 0)
  {
    today - d.lastAnalysisDate >= d.analysisFrequency
  }

  /** The analysis the scan files for a device: the reading, the device's own id as the
      fountain id, today's date, and the device's id. */
  function ScheduledAnalysis(d: ContinuousUseDevice, today: Day, reading: int): (a: WaterAnalysis)
    ensures a.fountainId == d.id && a.deviceId == d.id && a.date == today
    ensures 0 <= reading <= 200 ==> 0.0 <= a.radonConcentration <= 200.0
  {
    WaterAnalysis(0, reading as real, d.id, today, d.id)
  }

  /** The scan has nothing to do for this device today. */
  ghost predicate Idle(db: Db, id: int, today: Day) {
    id in db.continuousUseDevices ==>
      !IsAttached(db.continuousUseDevices[id]) || !IsDue(db.continuousUseDevices[id], today)
  }

  /** The scan's configuration of the devices: which fountain each is attached to and how
      often it is analysed. */
  ghost predicate SameSchedule(m: map<int, ContinuousUseDevice>, m': map<int, ContinuousUseDevice>) {
    && m'.Keys == m.Keys
    && forall k | k in m :: m'[k].fountainId == m[k].fountainId && m'[k].analysisFrequency == m[k].analysisFrequency
  }

  function ScanDevice(db: Db, id: int, today: Day, reading: int): (s: Step<()>)
    requires id in db.continuousUseDevices
    ensures SameSchedule(db.continuousUseDevices, s.db.continuousUseDevices)
    ensures forall k | k in db.continuousUseDevices && k != id ::
              s.db.continuousUseDevices[k] == db.continuousUseDevices[k]
    ensures s.db.fountains.Keys == db.fountains.Keys && s.db.devices == db.devices
    ensures var d := db.continuousUseDevices[id];
            !IsAttached(d) || !IsDue(d, today) ==> s == Step(db, Success(()))
    ensures var d := db.continuousUseDevices[id];
            IsAttached(d) && IsDue(d, today) ==>
              && (s.result.Success? <==> d.id in db.fountains && d.id in db.devices)
              && (s.result.Failure? ==> s == Step(db, Failure(ObjIsNull)))
              && (s.result.Success? ==>
                    && s.db.waterAnalyses == db.waterAnalyses +
                         [ScheduledAnalysis(d, today, reading).(id := WaterAnalysisService.NextAnalysisId(db.waterAnalyses))]
                    && s.db.continuousUseDevices == db.continuousUseDevices[id := d.(lastAnalysisDate := today)]
                    && s.db.fountains == db.fountains[d.id :=
                         db.fountains[d.id].(susceptibilityIndex := WaterAnalysisService.Classify(reading as real))])
    ensures WellFormed(db) ==> WellFormed(s.db)
  {
    var d := db.continuousUseDevices[id];
    if !IsAttached(d) then Step(db, Success(()))
    else if !IsDue(d, today) then Step(db, Success(()))
    else
      var recorded := WaterAnalysisService.AddWaterAnalysis(db, Some(ScheduledAnalysis(d, today, reading)));
      if recorded.result.Failure? then Step(recorded.db, Failure(recorded.result.error))
      else
        var updated := d.(lastAnalysisDate := today);
        Step(recorded.db.(continuousUseDevices := recorded.db.continuousUseDevices[id := updated]), Success(()))
  }

  /** The scan over the device list, in list order; the first failure ends it, keeping what the
      devices before it changed. */
  function Scan(db: Db, ids: seq<int>, today: Day, readings: seq<int>): (s: Step<()>)
    requires |readings| == |ids|
    requires forall i | 0 <= i < |ids| :: ids[i] in db.continuousUseDevices
    ensures SameSchedule(db.continuousUseDevices, s.db.continuousUseDevices)
    ensures s.db.fountains.Keys == db.fountains.Keys && s.db.devices == db.devices
    ensures WellFormed(db) ==> WellFormed(s.db)
    decreases |ids|
  {
    if ids == [] then Step(db, Success(()))
    else
      var first := ScanDevice(db, ids[0], today, readings[0]);
      if first.result.Failure? then first
      else Scan(first.db, ids[1..], today, readings[1..])
  }

  /** One step of the scan: the first device, then the rest unless the first failed. */
  lemma ScanUnfolds(db: Db, ids: seq<int>, today: Day, readings: seq<int>)
    requires |readings| == |ids| && ids != []
    requires forall i | 0 <= i < |ids| :: ids[i] in db.continuousUseDevices
    ensures var first := ScanDevice(db, ids[0], today, readings[0]);
            Scan(db, ids, today, readings) ==
              if first.result.Failure? then first else Scan(first.db, ids[1..], today, readings[1..])
  {
  }

  /** The due check with a weekly frequency: eight days after the last analysis the device is
      due, six days after it is not. */
  lemma WeeklyDevice(d: ContinuousUseDevice, today: Day)
    requires d.analysisFrequency == 7
    ensures d.lastAnalysisDate == today - 8 ==> IsDue(d, today)
    ensures d.lastAnalysisDate == today - 6 ==> !IsDue(d, today)
    ensures d.lastAnalysisDate == today - 7 ==> IsDue(d, today)
  {
  }

  /** A device the scan has nothing to do for stays that way, whatever else the scan does. */
  lemma {:induction false} ScanKeepsIdle(db: Db, ids: seq<int>, today: Day, readings: seq<int>, x: int)
    requires |readings| == |ids|
    requires forall i | 0 <= i < |ids| :: ids[i] in db.continuousUseDevices
    requires Idle(db, x, today)
    ensures Idle(Scan(db, ids, today, readings).db, x, today)
    decreases |ids|
  {
    if ids != [] {
      var first := ScanDevice(db, ids[0], today, readings[0]);
      assert Idle(first.db, x, today);
      if first.result.Success? {
        ScanKeepsIdle(first.db, ids[1..], today, readings[1..], x);
      }
    }
  }

  /** With positive frequencies, a scan that completes leaves every listed device idle for the
      rest of the day: each due device now has zero days passed. */
  lemma {:induction false} ScanLeavesNothingDue(db: Db, ids: seq<int>, today: Day, readings: seq<int>)
    requires |readings| == |ids|
    requires forall i | 0 <= i < |ids| :: ids[i] in db.continuousUseDevices
    requires forall k | k in db.continuousUseDevices :: db.continuousUseDevices[k].analysisFrequency > 0
    requires Scan(db, ids, today, readings).result.Success?
    ensures forall i | 0 <= i < |ids| :: Idle(Scan(db, ids, today, readings).db, ids[i], today)
    decreases |ids|
  {
    if ids != [] {
      var first := ScanDevice(db, ids[0], today, readings[0]);
      var rest := Scan(first.db, ids[1..], today, readings[1..]);
      assert Idle(first.db, ids[0], today);
      ScanKeepsIdle(first.db, ids[1..], today, readings[1..], ids[0]);
      ScanLeavesNothingDue(first.db, ids[1..], today, readings[1..]);
      forall i | 0 < i < |ids|
        ensures Idle(rest.db, ids[i], today)
      {
        assert ids[i] == ids[1..][i - 1];
      }
    }
  }

  /** The ids of the whole table, each listed once. */
  ghost predicate ListsTable(ids: seq<int>, devices: map<int, ContinuousUseDevice>) {
    && (forall i | 0 <= i < |ids| :: ids[i] in devices)
    && (forall k | k in devices :: k in ids)
    && (forall i, j | 0 <= i < j < |ids| :: ids[i] != ids[j])
  }

  /** With positive frequencies, a completed scan of the whole table leaves no attached device of
      the table due that day. */
  lemma ScanOfTableLeavesNothingDue(db: Db, ids: seq<int>, today: Day, readings: seq<int>)
    requires |readings| == |ids|
    requires ListsTable(ids, db.continuousUseDevices)
    requires forall k | k in db.continuousUseDevices :: db.continuousUseDevices[k].analysisFrequency > 0
    requires Scan(db, ids, today, readings).result.Success?
    ensures var after := Scan(db, ids, today, readings).db.continuousUseDevices;
            && after.Keys == db.continuousUseDevices.Keys
            && forall k | k in after :: !IsAttached(after[k]) || !IsDue(after[k], today)
  {
    var after := Scan(db, ids, today, readings).db;
    ScanLeavesNothingDue(db, ids, today, readings);
    forall k | k in after.continuousUseDevices
      ensures Idle(after, k, today)
    {
      var i :| 0 <= i < |ids| && ids[i] == k;
    }
  }

  /** A scan over devices that are all idle changes nothing and succeeds. */
  lemma {:induction false} ScanOfIdleDevicesIsNoop(db: Db, ids: seq<int>, today: Day, readings: seq<int>)
    requires |readings| == |ids|
    requires forall i | 0 <= i < |ids| :: ids[i] in db.continuousUseDevices
    requires forall i | 0 <= i < |ids| :: Idle(db, ids[i], today)
    ensures Scan(db, ids, today, readings) == Step(db, Success(()))
    decreases |ids|
  {
    if ids != [] {
      assert Idle(db, ids[0], today);
      ScanOfIdleDevicesIsNoop(db, ids[1..], today, readings[1..]);
    }
  }

  /** With positive frequencies, a second scan on the same day records nothing and changes nothing. */
  lemma SecondScanSameDayIsNoop(db: Db, ids: seq<int>, today: Day, readings: seq<int>, readings': seq<int>)
    requires |readings| == |ids| && |readings'| == |ids|
    requires forall i | 0 <= i < |ids| :: ids[i] in db.continuousUseDevices
    requires forall k | k in db.continuousUseDevices :: db.continuousUseDevices[k].analysisFrequency > 0
    requires Scan(db, ids, today, readings).result.Success?
    ensures var after := Scan(db, ids, today, readings).db;
            Scan(after, ids, today, readings') == Step(after, Success(()))
  {
    var after := Scan(db, ids, today, readings).db;
    ScanLeavesNothingDue(db, ids, today, readings);
    ScanOfIdleDevicesIsNoop(after, ids, today, readings');
  }

  /** Scanning a list in two parts is scanning the whole list, unless the first part fails. */
  lemma {:induction false} ScanSplit(db: Db, ids: seq<int>, more: seq<int>, today: Day, readings: seq<int>, moreReadings: seq<int>)
    requires |readings| == |ids| && |moreReadings| == |more|
    requires forall i | 0 <= i < |ids| :: ids[i] in db.continuousUseDevices
    requires forall i | 0 <= i < |more| :: more[i] in db.continuousUseDevices
    ensures forall i | 0 <= i < |ids + more| :: (ids + more)[i] in db.continuousUseDevices
    ensures var head := Scan(db, ids, today, readings);
            Scan(db, ids + more, today, readings + moreReadings) ==
              if head.result.Failure? then head else Scan(head.db, more, today, moreReadings)
    decreases |ids|
  {
    assert forall i | 0 <= i < |ids + more| :: (ids + more)[i] in db.continuousUseDevices by {
      forall i | 0 <= i < |ids + more|
        ensures (ids + more)[i] in db.continuousUseDevices
      {
        if i >= |ids| { assert (ids + more)[i] == more[i - |ids|]; }
      }
    }
    if ids == [] {
      assert ids + more == more;
      assert readings + moreReadings == moreReadings;
    } else {
      var first := ScanDevice(db, ids[0], today, readings[0]);
      assert (ids + more)[0] == ids[0] && (readings + moreReadings)[0] == readings[0];
      assert (ids + more)[1..] == ids[1..] + more;
      assert (readings + moreReadings)[1..] == readings[1..] + moreReadings;
      if first.result.Success? {
        ScanSplit(first.db, ids[1..], more, today, readings[1..], moreReadings);
      }
    }
  }

  /** No per-device isolation: when device k is the first whose recording fails, the scan stops
      there with that error; the devices before it keep their updates, it and the rest are untouched. */
  lemma ScanStopsAtFirstFailure(db: Db, ids: seq<int>, today: Day, readings: seq<int>, k: nat)
    requires |readings| == |ids| && k < |ids|
    requires forall i | 0 <= i < |ids| :: ids[i] in db.continuousUseDevices
    requires Scan(db, ids[..k], today, readings[..k]).result.Success?
    requires ScanDevice(Scan(db, ids[..k], today, readings[..k]).db, ids[k], today, readings[k]).result.Failure?
    ensures var before := Scan(db, ids[..k], today, readings[..k]).db;
            Scan(db, ids, today, readings) == Step(before, Failure(ObjIsNull))
  {
    var before := Scan(db, ids[..k], today, readings[..k]).db;
    ScanSplit(db, ids[..k], ids[k..], today, readings[..k], readings[k..]);
    assert ids[..k] + ids[k..] == ids;
    assert readings[..k] + readings[k..] == readings;
    assert ids[k..][0] == ids[k] && readings[k..][0] == readings[k];
  }

  /** A scan only appends, and what it appends are the scan's own analyses: dated today, filed
      under the device's id as both fountain and device, with a reading from 0 to 200. */
  lemma {:induction false} ScanAppendsScheduledAnalyses(db: Db, ids: seq<int>, today: Day, readings: seq<int>)
    requires |readings| == |ids|
    requires forall i | 0 <= i < |ids| :: ids[i] in db.continuousUseDevices
    requires forall i | 0 <= i < |readings| :: 0 <= readings[i] <= 200
    ensures var after := Scan(db, ids, today, readings).db.waterAnalyses;
            && |db.waterAnalyses| <= |after| <= |db.waterAnalyses| + |ids|
            && after[..|db.waterAnalyses|] == db.waterAnalyses
            && forall j | |db.waterAnalyses| <= j < |after| ::
                 && after[j].date == today
                 && after[j].fountainId == after[j].deviceId
                 && 0.0 <= after[j].radonConcentration <= 200.0
    decreases |ids|
  {
    if ids != [] {
      var first := ScanDevice(db, ids[0], today, readings[0]);
      if first.result.Success? {
        ScanAppendsScheduledAnalyses(first.db, ids[1..], today, readings[1..]);
        var after := Scan(first.db, ids[1..], today, readings[1..]).db.waterAnalyses;
        assert after[..|first.db.waterAnalyses|] == first.db.waterAnalyses;
        assert first.db.waterAnalyses[..|db.waterAnalyses|] == db.waterAnalyses;
        assert after[..|db.waterAnalyses|] == after[..|first.db.waterAnalyses|][..|db.waterAnalyses|];
        forall j | |db.waterAnalyses| <= j < |first.db.waterAnalyses|
          ensures after[j] == first.db.waterAnalyses[j]
        {
          assert after[..|first.db.waterAnalyses|][j] == after[j];
        }
      }
    }
  }

  class BackgroundServiceContinuousUseDevice {
    const context: RadaoContext
    const waterAnalysisService: WaterAnalysisService.WaterAnalysisService

    /** The context and the analysis service come from one service scope and share the store. */
    constructor (waterAnalysisService: WaterAnalysisService.WaterAnalysisService)
      ensures this.waterAnalysisService == waterAnalysisService
      ensures context == waterAnalysisService.context
    {
      this.waterAnalysisService := waterAnalysisService;
      this.context := waterAnalysisService.context;
    }

    /** One iteration of the scan's loop: skip an unattached or not-yet-due device, otherwise
        record the reading through the analysis service and move the device's date to today. */
    method VisitDevice(id: int, today: Day, reading: int) returns (r: Result<()>)
      requires waterAnalysisService.context == context
      requires id in context.continuousUseDevices
      modifies context
      ensures Step(context.Snapshot(), r) == ScanDevice(old(context.Snapshot()), id, today, reading)
    {
      var cd := context.continuousUseDevices[id];
      if cd.fountainId.None? {
        return Success(());
      }
      var daysPassed := today - cd.lastAnalysisDate;
      if daysPassed >= cd.analysisFrequency {
        var analysis := WaterAnalysis(0, reading as real, cd.id, today, cd.id);
        var recorded := waterAnalysisService.AddWaterAnalysisAsync(Some(analysis));
        if recorded.Failure? {
          return Failure(recorded.error);
        }
        cd := cd.(lastAnalysisDate := today);
        context.continuousUseDevices := context.continuousUseDevices[id := cd];
      }
      r := Success(());
    }

    /** One scan over `devices`, the ids of the continuous-use devices in the order the table
        lists them; `readings[i]` is the reading drawn for the i-th device. */
    method ScanOnce(devices: seq<int>, today: Day, readings: seq<int>) returns (r: Result<()>)
      requires waterAnalysisService.context == context
      requires |readings| == |devices|
      requires ListsTable(devices, context.continuousUseDevices)
      requires forall i | 0 <= i < |readings| :: 0 <= readings[i] <= 200
      modifies context
      ensures Step(context.Snapshot(), r) == Scan(old(context.Snapshot()), devices, today, readings)
    {
      var i := 0;
      while i < |devices|
        invariant 0 <= i <= |devices|
        invariant forall j | 0 <= j < |devices| :: devices[j] in context.continuousUseDevices
        invariant Scan(old(context.Snapshot()), devices, today, readings)
                  == Scan(context.Snapshot(), devices[i..], today, readings[i..])
      {
        assert devices[i..][1..] == devices[i + 1..] && readings[i..][1..] == readings[i + 1..];
        ScanUnfolds(context.Snapshot(), devices[i..], today, readings[i..]);
        var visited := VisitDevice(devices[i], today, readings[i]);
        if visited.Failure? {
          return visited;
        }
        i := i + 1;
      }
      r := Success(());
    }
  }
}
