/** ContinuousUseDeviceService: the table of continuous-use devices, each with an analysis
    frequency, the date of its last analysis and optionally the fountain it is attached to. */
module ContinuousUseDeviceService {
  import opened Entities

  /** AddContinuousUseDevice: a FountainId given without a loaded Fountain object must name an
      existing fountain. The fountain's own DeviceId is not set, and the frequency is not checked. */
  function AddContinuousUseDevice(db: Db, input: Option<ContinuousUseDevice>, fountainLoaded: bool, newId: int)
    : (s: Step<ContinuousUseDevice>)
    requires newId > 0 && newId !in db.continuousUseDevices
    ensures input.None? ==> s.result == Failure(ParamIsNull)
    ensures s.result.Success? <==>
              && input.Some?
              && (input.value.fountainId.Some? && !fountainLoaded ==> input.value.fountainId.value in db.fountains)
    ensures input.Some? && s.result.Failure? ==> s.result.error == ObjIsNull
    ensures s.result.Failure? ==> s.db == db
    ensures s.result.Success? ==>
              && s.result.value == input.value.(id := newId)
              && s.db == db.(continuousUseDevices := db.continuousUseDevices[newId := s.result.value])
    ensures WellFormed(db) ==> WellFormed(s.db)
  {
    if input.None? then Step(db, Failure(ParamIsNull))
    else
      var d := input.value;
      if d.fountainId.Some? && !fountainLoaded && d.fountainId.value !in db.fountains then
        Step(db, Failure(ObjIsNull))
      else
        var stored := d.(id := newId);
        Step(db.(continuousUseDevices := db.continuousUseDevices[newId := stored]), Success(stored))
  }

  /** A device added with a FountainId is not registered on the fountain, so the pairing breaks. */
  lemma AddContinuousUseDeviceCanBreakPairing()
    ensures
      var fountain := Fountain(1, "d", Low, None, true, 0.0, 0.0);
      var db := Db(map[1 := fountain], map[], map[], []);
      var s := AddContinuousUseDevice(db, Some(ContinuousUseDevice(0, "m", "s", 0, Some(1), 1, 0)), false, 1);
      Paired(db) && s.result.Success? && !Paired(s.db)
  {
    var fountain := Fountain(1, "d", Low, None, true, 0.0, 0.0);
    var db := Db(map[1 := fountain], map[], map[], []);
    var s := AddContinuousUseDevice(db, Some(ContinuousUseDevice(0, "m", "s", 0, Some(1), 1, 0)), false, 1);
    assert s.db.continuousUseDevices[1].fountainId == Some(1);
    assert s.db.fountains[1].deviceId == None;
  }

  /** GetContinuousUseDeviceById. */
  function GetContinuousUseDeviceById(devices: map<int, ContinuousUseDevice>, id: int)
    : (r: Result<ContinuousUseDevice>)
    ensures id <= 0 ==> r == Failure(ParamIsNull)
    ensures id > 0 && id !in devices ==> r == Failure(ContinuousUseDeviceNotFound)
    ensures r.Success? <==> id > 0 && id in devices
    ensures r.Success? ==> r.value in devices.Values
    ensures r.Success? && ContinuousUseDevicesKeyed(devices) ==> r.value.id == id
  {
    if id <= 0 then Failure(ParamIsNull)
    else if id !in devices then Failure(ContinuousUseDeviceNotFound)
    else Success(devices[id])
  }

  /** GetContinuousUseDevices: the whole table; an empty table is not an error. */
  function GetContinuousUseDevices(devices: map<int, ContinuousUseDevice>)
    : (r: Result<map<int, ContinuousUseDevice>>)
    ensures r.Success? && r.value == devices
  {
    Success(devices)
  }

  /** UpdateContinuousUseDevice: copies model, serial number, expiration date, FountainId and
      last analysis date; keeps the stored frequency; a non-null FountainId must name a fountain.
      No fountain's DeviceId is touched. */
  function UpdateContinuousUseDevice(db: Db, input: Option<ContinuousUseDevice>): (s: Step<ContinuousUseDevice>)
    ensures input.None? ==> s.result == Failure(ParamIsNull)
    ensures input.Some? && input.value.id !in db.continuousUseDevices ==>
              s.result == Failure(ContinuousUseDeviceNotFound)
    ensures input.Some? && input.value.id in db.continuousUseDevices
              && input.value.fountainId.Some? && input.value.fountainId.value !in db.fountains ==>
              s.result == Failure(FountainNotFound)
    ensures s.result.Success? <==>
              && input.Some? && input.value.id in db.continuousUseDevices
              && (input.value.fountainId.Some? ==> input.value.fountainId.value in db.fountains)
    ensures s.result.Failure? ==> s.db == db
    ensures s.result.Success? ==>
              var u, d := input.value, s.result.value;
              && d == u.(analysisFrequency := db.continuousUseDevices[u.id].analysisFrequency,
                         id := db.continuousUseDevices[u.id].id)
              && s.db.continuousUseDevices == db.continuousUseDevices[u.id := d]
    ensures s.db.fountains == db.fountains
    ensures s.db.devices == db.devices && s.db.waterAnalyses == db.waterAnalyses
    ensures WellFormed(db) ==> WellFormed(s.db)
  {
    if input.None? then Step(db, Failure(ParamIsNull))
    else
      var u := input.value;
      if u.id !in db.continuousUseDevices then Step(db, Failure(ContinuousUseDeviceNotFound))
      else
        var d := db.continuousUseDevices[u.id].(model := u.model, serialNumber := u.serialNumber,
                   expirationDate := u.expirationDate, fountainId := u.fountainId,
                   lastAnalysisDate := u.lastAnalysisDate);
        if u.fountainId.Some? && u.fountainId.value !in db.fountains then Step(db, Failure(FountainNotFound))
        else Step(db.(continuousUseDevices := db.continuousUseDevices[u.id := d]), Success(d))
  }

  /** The update copies FountainId without refreshing either fountain, so detaching a device by
      update leaves its fountain naming a device that no longer names it back. */
  lemma UpdateContinuousUseDeviceCanBreakPairing()
    ensures
      var device := ContinuousUseDevice(1, "m", "s", 0, Some(1), 1, 0);
      var db := Db(map[1 := Fountain(1, "d", Low, Some(1), true, 0.0, 0.0)], map[1 := device], map[], []);
      var s := UpdateContinuousUseDevice(db, Some(device.(fountainId := None)));
      Paired(db) && s.result.Success? && !Paired(s.db)
  {
    var device := ContinuousUseDevice(1, "m", "s", 0, Some(1), 1, 0);
    var db := Db(map[1 := Fountain(1, "d", Low, Some(1), true, 0.0, 0.0)], map[1 := device], map[], []);
    var s := UpdateContinuousUseDevice(db, Some(device.(fountainId := None)));
    assert s.db.fountains[1].deviceId == Some(1);
    assert s.db.continuousUseDevices[1].fountainId == None;
  }

  /** UpdateDeviceAnalysisFrequencyAsync: both arguments must be positive and the device must exist;
      only its frequency changes. */
  function UpdateDeviceAnalysisFrequency(db: Db, deviceId: int, newFrequency: int): (s: Step<ContinuousUseDevice>)
    ensures deviceId <= 0 || newFrequency <= 0 ==> s.result == Failure(ParamIsNull)
    ensures deviceId > 0 && newFrequency > 0 && deviceId !in db.continuousUseDevices ==>
              s.result == Failure(ContinuousUseDeviceNotFound)
    ensures s.result.Success? <==> deviceId > 0 && newFrequency > 0 && deviceId in db.continuousUseDevices
    ensures s.result.Failure? ==> s.db == db
    ensures s.result.Success? ==>
              && s.result.value == db.continuousUseDevices[deviceId].(analysisFrequency := newFrequency)
              && s.result.value.analysisFrequency > 0
              && s.db == db.(continuousUseDevices := db.continuousUseDevices[deviceId := s.result.value])
    ensures WellFormed(db) ==> WellFormed(s.db)
    ensures Paired(db) ==> Paired(s.db)
  {
    if deviceId <= 0 || newFrequency <= 0 then Step(db, Failure(ParamIsNull))
    else if deviceId !in db.continuousUseDevices then Step(db, Failure(ContinuousUseDeviceNotFound))
    else
      var d := db.continuousUseDevices[deviceId].(analysisFrequency := newFrequency);
      Step(db.(continuousUseDevices := db.continuousUseDevices[deviceId := d]), Success(d))
  }

  class ContinuousUseDeviceService {
    const context: RadaoContext

    constructor (context: RadaoContext)
      ensures this.context == context
    {
      this.context := context;
    }

    method AddContinuousUseDeviceAsync(input: Option<ContinuousUseDevice>, fountainLoaded: bool, newId: int)
      returns (r: Result<ContinuousUseDevice>)
      requires newId > 0 && newId !in context.continuousUseDevices
      modifies context
      ensures Step(context.Snapshot(), r) ==
                AddContinuousUseDevice(old(context.Snapshot()), input, fountainLoaded, newId)
    {
      if input.None? {
        return Failure(ParamIsNull);
      }
      var d := input.value;
      if d.fountainId.Some? && !fountainLoaded {
        if d.fountainId.value !in context.fountains {
          return Failure(ObjIsNull);
        }
      }
      var stored := d.(id := newId);
      context.continuousUseDevices := context.continuousUseDevices[newId := stored];
      r := Success(stored);
    }

    method UpdateContinuousUseDeviceAsync(input: Option<ContinuousUseDevice>) returns (r: Result<ContinuousUseDevice>)
      modifies context
      ensures Step(context.Snapshot(), r) == UpdateContinuousUseDevice(old(context.Snapshot()), input)
    {
      if input.None? {
        return Failure(ParamIsNull);
      }
      var u := input.value;
      if u.id !in context.continuousUseDevices {
        return Failure(ContinuousUseDeviceNotFound);
      }
      var device := context.continuousUseDevices[u.id];
      device := device.(model := u.model, serialNumber := u.serialNumber, expirationDate := u.expirationDate);
      device := device.(fountainId := u.fountainId, lastAnalysisDate := u.lastAnalysisDate);
      if u.fountainId.Some? && u.fountainId.value !in context.fountains {
        return Failure(FountainNotFound);
      }
      context.continuousUseDevices := context.continuousUseDevices[u.id := device];
      r := Success(device);
    }

    method UpdateDeviceAnalysisFrequencyAsync(deviceId: int, newFrequency: int) returns (r: Result<ContinuousUseDevice>)
      modifies context
      ensures Step(context.Snapshot(), r) ==
                UpdateDeviceAnalysisFrequency(old(context.Snapshot()), deviceId, newFrequency)
    {
      if deviceId <= 0 || newFrequency <= 0 {
        return Failure(ParamIsNull);
      }
      if deviceId !in context.continuousUseDevices {
        return Failure(ContinuousUseDeviceNotFound);
      }
      var device := context.continuousUseDevices[deviceId];
      device := device.(analysisFrequency := newFrequency);
      context.continuousUseDevices := context.continuousUseDevices[deviceId := device];
      r := Success(device);
    }
  }
}
