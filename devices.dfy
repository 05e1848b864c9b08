/** DeviceService: the table of plain (not continuous-use) devices. */
module DeviceService {
  import opened Entities

  /** AddDeviceAsync: any non-null device is stored under the id the database gives it; serial
      numbers are not checked for uniqueness. */
  function AddDevice(db: Db, input: Option<Device>, newId: int): (s: Step<Device>)
    requires newId > 0 && newId !in db.devices
    ensures s.result.Failure? <==> input.None?
    ensures s.result.Failure? ==> s.result.error == ParamIsNull && s.db == db
    ensures s.result.Success? ==>
              && s.result.value == input.value.(id := newId)
              && s.db == db.(devices := db.devices[newId := s.result.value])
    ensures WellFormed(db) ==> WellFormed(s.db)
    ensures Paired(db) ==> Paired(s.db)
  {
    if input.None? then Step(db, Failure(ParamIsNull))
    else
      var stored := input.value.(id := newId);
      Step(db.(devices := db.devices[newId := stored]), Success(stored))
  }

  /** Two devices may share a serial number. */
  lemma AddDeviceAcceptsDuplicateSerial(db: Db, existing: int, input: Device, newId: int)
    requires existing in db.devices && input.serialNumber == db.devices[existing].serialNumber
    requires newId > 0 && newId !in db.devices
    ensures var s := AddDevice(db, Some(input), newId);
            && s.result.Success?
            && s.db.devices[existing].serialNumber == s.db.devices[newId].serialNumber
            && existing != newId
  {
  }

  /** GetDeviceById. */
  function GetDeviceById(devices: map<int, Device>, id: int): (r: Result<Device>)
    ensures id <= 0 ==> r == Failure(ParamIsNull)
    ensures id > 0 && id !in devices ==> r == Failure(ObjIsNull)
    ensures r.Success? <==> id > 0 && id in devices
    ensures r.Success? ==> r.value in devices.Values
    ensures r.Success? && DevicesKeyed(devices) ==> r.value.id == id
  {
    if id <= 0 then Failure(ParamIsNull)
    else if id !in devices then Failure(ObjIsNull)
    else Success(devices[id])
  }

  /** GetDevices: the whole table, which must not be empty. */
  function GetDevices(devices: map<int, Device>): (r: Result<map<int, Device>>)
    ensures r.Failure? <==> devices == map[]
    ensures r.Failure? ==> r.error == EmptyList
    ensures r.Success? ==> r.value == devices
  {
    if |devices| == 0 then Failure(EmptyList) else Success(devices)
  }

  /** UpdateDeviceAsync: copies model, serial number and expiration date onto the stored device. */
  function UpdateDevice(db: Db, input: Option<Device>): (s: Step<Device>)
    ensures input.None? ==> s.result == Failure(ParamIsNull)
    ensures s.result.Success? <==> input.Some? && input.value.id in db.devices
    ensures input.Some? && s.result.Failure? ==> s.result.error == ObjIsNull
    ensures s.result.Failure? ==> s.db == db
    ensures s.result.Success? ==>
              var u, d := input.value, s.result.value;
              && d.id == db.devices[u.id].id
              && d.model == u.model && d.serialNumber == u.serialNumber && d.expirationDate == u.expirationDate
              && s.db.devices.Keys == db.devices.Keys
              && s.db.devices[u.id] == d
              && (forall k | k in db.devices && k != u.id :: s.db.devices[k] == db.devices[k])
              && s.db.fountains == db.fountains && s.db.waterAnalyses == db.waterAnalyses
              && s.db.continuousUseDevices == db.continuousUseDevices
    ensures WellFormed(db) ==> WellFormed(s.db)
    ensures Paired(db) ==> Paired(s.db)
  {
    if input.None? then Step(db, Failure(ParamIsNull))
    else
      var u := input.value;
      if u.id !in db.devices then Step(db, Failure(ObjIsNull))
      else
        var d := db.devices[u.id].(model := u.model, serialNumber := u.serialNumber,
                                   expirationDate := u.expirationDate);
        Step(db.(devices := db.devices[u.id := d]), Success(d))
  }

  /** Applying the same update twice gives the same store and the same answer as applying it once. */
  lemma {:induction false} UpdateDeviceIdempotent(db: Db, input: Option<Device>)
    ensures var once := UpdateDevice(db, input);
            UpdateDevice(once.db, input) == once
  {
    var once := UpdateDevice(db, input);
    if input.Some? && input.value.id in db.devices {
      var u := input.value;
      var d := once.result.value;
      assert d.(model := u.model, serialNumber := u.serialNumber, expirationDate := u.expirationDate) == d;
      assert once.db.devices[u.id := d] == once.db.devices;
    }
  }

  class DeviceService {
    const context: RadaoContext

    constructor (context: RadaoContext)
      ensures this.context == context
    {
      this.context := context;
    }

    method AddDeviceAsync(input: Option<Device>, newId: int) returns (r: Result<Device>)
      requires newId > 0 && newId !in context.devices
      modifies context
      ensures Step(context.Snapshot(), r) == AddDevice(old(context.Snapshot()), input, newId)
    {
      if input.None? {
        return Failure(ParamIsNull);
      }
      var stored := input.value.(id := newId);
      context.devices := context.devices[newId := stored];
      r := Success(stored);
    }

    method UpdateDeviceAsync(input: Option<Device>) returns (r: Result<Device>)
      modifies context
      ensures Step(context.Snapshot(), r) == UpdateDevice(old(context.Snapshot()), input)
    {
      if input.None? {
        return Failure(ParamIsNull);
      }
      var u := input.value;
      if u.id !in context.devices {
        return Failure(ObjIsNull);
      }
      var device := context.devices[u.id];
      device := device.(model := u.model, serialNumber := u.serialNumber);
      device := device.(expirationDate := u.expirationDate);
      context.devices := context.devices[u.id := device];
      r := Success(device);
    }
  }
}
