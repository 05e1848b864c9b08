/** FountainService: creating, finding and updating fountains, searching them by description,
    and attaching a continuous-use device to a fountain or detaching it. */
module FountainService {
  import opened Entities

  // ---------------------------------------------------------------------------------------
  // Text helpers for the description search

  /** `char.IsWhiteSpace`: the Unicode space separators, line and paragraph separators, and
      the control characters U+0009 to U+000D and U+0085. */
  predicate IsWhiteSpace(c: char) {
    || ('\t' <= c <= '\r') || c == ' ' || c == '\U{0085}' || c == '\U{00A0}' || c == '\U{1680}'
    || ('\U{2000}' <= c <= '\U{200A}')
    || c == '\U{2028}' || c == '\U{2029}' || c == '\U{202F}' || c == '\U{205F}' || c == '\U{3000}'
  }

  /** `string.IsNullOrWhiteSpace` on a non-null string, scanning it character by character:
      empty or only white space. */
  function IsBlank(s: string): (blank: bool)
    ensures blank <==> forall i | 0 <= i < |s| :: IsWhiteSpace(s[i])
  {
    if s == [] then true
    else if !IsWhiteSpace(s[0]) then false
    else
      var rest := IsBlank(s[1..]);
      assert forall i | 1 <= i < |s| :: s[1..][i - 1] == s[i];
      rest
  }

  /** `q` occurs in `s` starting at position `i`. */
  ghost predicate OccursAt(q: string, s: string, i: int) {
    0 <= i && i + |q| <= |s| && s[i..i + |q|] == q
  }

  /** `q` occurs in `s` at some position. */
  ghost predicate OccursIn(q: string, s: string) {
    exists i :: OccursAt(q, s, i)
  }

  /** Ordinal `string.Contains`, computed by trying each start position. */
  function Contains(s: string, q: string): (found: bool)
    decreases |s|
  {
    if |q| > |s| then false
    else if s[..|q|] == q then true
    else Contains(s[1..], q)
  }

  lemma {:induction false} ContainsIsOccurrence(s: string, q: string)
    ensures Contains(s, q) <==> OccursIn(q, s)
    decreases |s|
  {
    if |q| > |s| {
      assert forall i :: !OccursAt(q, s, i);
    } else if s[..|q|] == q {
      assert OccursAt(q, s, 0);
    } else {
      ContainsIsOccurrence(s[1..], q);
      if OccursIn(q, s) {
        var i :| OccursAt(q, s, i);
        assert i != 0;
        assert s[1..][i - 1..i - 1 + |q|] == s[i..i + |q|];
        assert OccursAt(q, s[1..], i - 1);
      }
      if OccursIn(q, s[1..]) {
        var i :| OccursAt(q, s[1..], i);
        assert s[1..][i..i + |q|] == s[i + 1..i + 1 + |q|];
        assert OccursAt(q, s, i + 1);
      }
    }
  }

  // ---------------------------------------------------------------------------------------
  // Queries

  function GetFountainById(fountains: map<int, Fountain>, id: int): (r: Result<Fountain>)
    ensures id <= 0 ==> r == Failure(ParamIsNull)
    ensures id > 0 && id !in fountains ==> r == Failure(ObjIsNull)
    ensures r.Success? <==> id > 0 && id in fountains
    ensures r.Success? ==> r.value in fountains.Values
    ensures r.Success? && FountainsKeyed(fountains) ==> r.value.id == id
  {
    if id <= 0 then Failure(ParamIsNull)
    else if id !in fountains then Failure(ObjIsNull)
    else Success(fountains[id])
  }

  /** The fountains whose description contains `query`, keyed by id. */
  function GetFountainsByDescription(fountains: map<int, Fountain>, query: string)
    : (r: Result<map<int, Fountain>>)
    ensures IsBlank(query) ==> r == Failure(ParamIsNull)
    ensures !IsBlank(query) && r.Failure? ==> r.error == NoFountainMatchesDescription
    ensures r.Failure? && !IsBlank(query) <==>
              !IsBlank(query) && forall k | k in fountains :: !Contains(fountains[k].description, query)
    ensures r.Success? ==> r.value != map[]
    ensures r.Success? ==> forall k ::
              k in r.value <==> k in fountains && Contains(fountains[k].description, query)
    ensures r.Success? ==> forall k | k in r.value :: r.value[k] == fountains[k]
  {
    if IsBlank(query) then Failure(ParamIsNull)
    else
      var found := map k | k in fountains && Contains(fountains[k].description, query) :: fountains[k];
      if forall k | k in fountains :: !Contains(fountains[k].description, query) then
        Failure(NoFountainMatchesDescription)
      else
        assert exists k | k in fountains :: Contains(fountains[k].description, query) && k in found;
        Success(found)
  }

  // ---------------------------------------------------------------------------------------
  // Creation

  /** The (latitude, longitude) positions of the stored fountains. */
  function Positions(fountains: map<int, Fountain>): set<(Coordinate, Coordinate)> {
    set k | k in fountains :: (fountains[k].latitude, fountains[k].longitude)
  }

  /** Some stored fountain already stands at (latitude, longitude). */
  function CoordinatesTaken(fountains: map<int, Fountain>, latitude: Coordinate, longitude: Coordinate)
    : (taken: bool)
    ensures taken <==> exists k | k in fountains :: fountains[k].latitude == latitude && fountains[k].longitude == longitude
  {
    (latitude, longitude) in Positions(fountains)
  }

  /** No two fountains stand at the same (latitude, longitude). */
  ghost predicate CoordinatesUnique(fountains: map<int, Fountain>) {
    forall k, j | k in fountains && j in fountains && k != j ::
      fountains[k].latitude != fountains[j].latitude || fountains[k].longitude != fountains[j].longitude
  }

  /** AddFountainAsync exactly as written: the device lookup runs even for a null DeviceId
      (finding a null key yields nothing), so every call throws. */
  function AddFountainAsWritten(db: Db, input: Option<Fountain>, newId: int): (s: Step<Fountain>)
    requires newId > 0 && newId !in db.fountains
    ensures s.db == db
  {
    if input.None? then Step(db, Failure(ParamIsNull))
    else
      var f := input.value;
      if f.deviceId.None? || f.deviceId.value !in db.devices then Step(db, Failure(ObjIsNull))
      else if CoordinatesTaken(db.fountains, f.latitude, f.longitude) then Step(db, Failure(FountainAlreadyExists))
      else if f.deviceId.Some? && f.deviceId.value in db.devices then Step(db, Failure(DeviceAlreadyAssigned))
      else
        var stored := f.(id := newId);
        Step(db.(fountains := db.fountains[newId := stored]), Success(stored))
  }

  /** As written, no call creates a fountain: a null DeviceId fails the device lookup, and a
      DeviceId that passes it is refused as already assigned (or the coordinates are taken). */
  lemma AddFountainAsWrittenNeverSucceeds(db: Db, input: Option<Fountain>, newId: int)
    requires newId > 0 && newId !in db.fountains
    ensures var r := AddFountainAsWritten(db, input, newId).result;
            && r.Failure?
            && (input.None? ==> r.error == ParamIsNull)
            && (input.Some? && input.value.deviceId.None? ==> r.error == ObjIsNull)
            && (input.Some? && input.value.deviceId.Some? && input.value.deviceId.value !in db.devices ==>
                  r.error == ObjIsNull)
            && (input.Some? && input.value.deviceId.Some? && input.value.deviceId.value in db.devices ==>
                  r.error == (if CoordinatesTaken(db.fountains, input.value.latitude, input.value.longitude)
                              then FountainAlreadyExists else DeviceAlreadyAssigned))
  {
  }

  /** AddFountainAsync with the device lookup applied only to a non-null DeviceId: a fountain is
      created without a device when its coordinates are new; a DeviceId is still refused. */
  function AddFountain(db: Db, input: Option<Fountain>, newId: int): (s: Step<Fountain>)
    requires newId > 0 && newId !in db.fountains
    ensures input.None? ==> s.result == Failure(ParamIsNull)
    ensures input.Some? && input.value.deviceId.Some? && input.value.deviceId.value !in db.devices ==>
              s.result == Failure(ObjIsNull)
    ensures input.Some? && (input.value.deviceId.None? || input.value.deviceId.value in db.devices)
              && CoordinatesTaken(db.fountains, input.value.latitude, input.value.longitude) ==>
              s.result == Failure(FountainAlreadyExists)
    ensures input.Some? && input.value.deviceId.Some? && input.value.deviceId.value in db.devices
              && !CoordinatesTaken(db.fountains, input.value.latitude, input.value.longitude) ==>
              s.result == Failure(DeviceAlreadyAssigned)
    ensures s.result.Success? <==>
              input.Some? && input.value.deviceId.None?
              && !CoordinatesTaken(db.fountains, input.value.latitude, input.value.longitude)
    ensures s.result.Failure? ==> s.db == db
    ensures s.result.Success? ==>
              && s.result.value == input.value.(id := newId)
              && s.db == db.(fountains := db.fountains[newId := s.result.value])
              && s.result.value.deviceId.None?
    ensures CoordinatesUnique(db.fountains) ==> CoordinatesUnique(s.db.fountains)
    ensures WellFormed(db) ==> WellFormed(s.db)
    ensures Paired(db) ==> Paired(s.db)
  {
    if input.None? then Step(db, Failure(ParamIsNull))
    else
      var f := input.value;
      if f.deviceId.Some? && f.deviceId.value !in db.devices then Step(db, Failure(ObjIsNull))
      else if CoordinatesTaken(db.fountains, f.latitude, f.longitude) then Step(db, Failure(FountainAlreadyExists))
      else if f.deviceId.Some? then Step(db, Failure(DeviceAlreadyAssigned))
      else
        var stored := f.(id := newId);
        Step(db.(fountains := db.fountains[newId := stored]), Success(stored))
  }

  // ---------------------------------------------------------------------------------------
  // Update

  /** UpdateFountainAsync: copies the six editable fields onto the stored fountain; a non-null
      DeviceId must name a continuous-use device. The device's FountainId is not touched. */
  function UpdateFountain(db: Db, input: Option<Fountain>): (s: Step<Fountain>)
    ensures input.None? ==> s.result == Failure(ParamIsNull)
    ensures input.Some? && input.value.id !in db.fountains ==> s.result == Failure(ObjIsNull)
    ensures input.Some? && input.value.deviceId.Some? && input.value.deviceId.value !in db.continuousUseDevices ==>
              s.result == Failure(ObjIsNull)
    ensures s.result.Success? <==>
              && input.Some? && input.value.id in db.fountains
              && (input.value.deviceId.Some? ==> input.value.deviceId.value in db.continuousUseDevices)
    ensures s.result.Failure? ==> s.db == db
    ensures s.result.Success? ==>
              var u, old_ := input.value, db.fountains[input.value.id];
              && s.result.value.id == old_.id
              && s.result.value.description == u.description
              && s.result.value.susceptibilityIndex == u.susceptibilityIndex
              && s.result.value.deviceId == u.deviceId
              && s.result.value.isDrinkable == u.isDrinkable
              && s.result.value.latitude == u.latitude
              && s.result.value.longitude == u.longitude
              && s.db == db.(fountains := db.fountains[u.id := s.result.value])
    ensures s.db.continuousUseDevices == db.continuousUseDevices
    ensures WellFormed(db) ==> WellFormed(s.db)
  {
    if input.None? then Step(db, Failure(ParamIsNull))
    else
      var u := input.value;
      if u.id !in db.fountains then Step(db, Failure(ObjIsNull))
      else
        var f := db.fountains[u.id].(
          description := u.description, susceptibilityIndex := u.susceptibilityIndex,
          deviceId := u.deviceId, isDrinkable := u.isDrinkable,
          latitude := u.latitude, longitude := u.longitude);
        if u.deviceId.Some? && u.deviceId.value !in db.continuousUseDevices then Step(db, Failure(ObjIsNull))
        else Step(db.(fountains := db.fountains[u.id := f]), Success(f))
  }

  /** Because the device side is never refreshed, an update can leave a fountain naming a device
      that names nothing back. */
  lemma UpdateFountainCanBreakPairing()
    ensures
      var device := ContinuousUseDevice(1, "m", "s", 0, None, 1, 0);
      var fountain := Fountain(1, "d", Low, None, true, 0.0, 0.0);
      var db := Db(map[1 := fountain], map[1 := device], map[], []);
      var s := UpdateFountain(db, Some(fountain.(deviceId := Some(1))));
      Paired(db) && s.result.Success? && !Paired(s.db)
  {
    var device := ContinuousUseDevice(1, "m", "s", 0, None, 1, 0);
    var fountain := Fountain(1, "d", Low, None, true, 0.0, 0.0);
    var db := Db(map[1 := fountain], map[1 := device], map[], []);
    var s := UpdateFountain(db, Some(fountain.(deviceId := Some(1))));
    assert s.db.fountains[1].deviceId == Some(1);
    assert s.db.continuousUseDevices[1].fountainId == None;
  }

  // ---------------------------------------------------------------------------------------
  // Association

  /** AddContinuousUseDeviceToFountainAsync. */
  function AttachDevice(db: Db, fountainId: int, deviceId: int): (s: Step<Fountain>)
    ensures fountainId !in db.fountains ==> s.result == Failure(ObjIsNull)
    ensures fountainId in db.fountains && db.fountains[fountainId].deviceId.Some? ==>
              s.result == Failure(DeviceAlreadyAssigned)
    ensures fountainId in db.fountains && db.fountains[fountainId].deviceId.None?
              && deviceId !in db.continuousUseDevices ==>
              s.result == Failure(ObjIsNull)
    ensures fountainId in db.fountains && db.fountains[fountainId].deviceId.None?
              && deviceId in db.continuousUseDevices
              && db.continuousUseDevices[deviceId].fountainId.Some? ==>
              s.result == Failure(FountainAlreadyAssigned)
    ensures s.result.Success? <==>
              && fountainId in db.fountains && db.fountains[fountainId].deviceId.None?
              && deviceId in db.continuousUseDevices && db.continuousUseDevices[deviceId].fountainId.None?
    ensures s.result.Failure? ==> s.db == db
    ensures s.result.Success? ==>
              && s.result.value == db.fountains[fountainId].(deviceId := Some(deviceId))
              && s.db.fountains == db.fountains[fountainId := s.result.value]
              && s.db.continuousUseDevices == db.continuousUseDevices[deviceId :=
                   db.continuousUseDevices[deviceId].(fountainId := Some(fountainId))]
              && s.db.devices == db.devices && s.db.waterAnalyses == db.waterAnalyses
    ensures WellFormed(db) ==> WellFormed(s.db)
    ensures Paired(db) ==> Paired(s.db)
  {
    if fountainId !in db.fountains then Step(db, Failure(ObjIsNull))
    else
      var fountain := db.fountains[fountainId];
      if fountain.deviceId.Some? then Step(db, Failure(DeviceAlreadyAssigned))
      else if deviceId !in db.continuousUseDevices then Step(db, Failure(ObjIsNull))
      else
        var device := db.continuousUseDevices[deviceId];
        if device.fountainId.Some? then Step(db, Failure(FountainAlreadyAssigned))
        else
          var f := fountain.(deviceId := Some(deviceId));
          var d := device.(fountainId := Some(fountainId));
          Step(db.(fountains := db.fountains[fountainId := f],
                   continuousUseDevices := db.continuousUseDevices[deviceId := d]),
               Success(f))
  }

  /** RemoveDeviceFromFountainAsync. */
  function DetachDevice(db: Db, fountainId: int): (s: Step<Fountain>)
    ensures fountainId !in db.fountains ==> s.result == Failure(ObjIsNull)
    ensures fountainId in db.fountains && db.fountains[fountainId].deviceId.None? ==>
              s.result == Failure(NoDeviceAssignedToFountain)
    ensures fountainId in db.fountains && db.fountains[fountainId].deviceId.Some?
              && db.fountains[fountainId].deviceId.value !in db.continuousUseDevices ==>
              s.result == Failure(FountainDeviceNotFound)
    ensures s.result.Success? <==>
              && fountainId in db.fountains && db.fountains[fountainId].deviceId.Some?
              && db.fountains[fountainId].deviceId.value in db.continuousUseDevices
    ensures s.result.Failure? ==> s.db == db
    ensures s.result.Success? ==>
              var d := db.fountains[fountainId].deviceId.value;
              && s.result.value == db.fountains[fountainId].(deviceId := None)
              && s.db.fountains == db.fountains[fountainId := s.result.value]
              && s.db.continuousUseDevices == db.continuousUseDevices[d :=
                   db.continuousUseDevices[d].(fountainId := None)]
              && s.db.devices == db.devices && s.db.waterAnalyses == db.waterAnalyses
    ensures WellFormed(db) ==> WellFormed(s.db)
    ensures Paired(db) ==> Paired(s.db)
  {
    if fountainId !in db.fountains then Step(db, Failure(ObjIsNull))
    else
      var fountain := db.fountains[fountainId];
      if fountain.deviceId.None? then Step(db, Failure(NoDeviceAssignedToFountain))
      else if fountain.deviceId.value !in db.continuousUseDevices then Step(db, Failure(FountainDeviceNotFound))
      else
        var deviceId := fountain.deviceId.value;
        var f := fountain.(deviceId := None);
        var d := db.continuousUseDevices[deviceId].(fountainId := None);
        Step(db.(fountains := db.fountains[fountainId := f],
                 continuousUseDevices := db.continuousUseDevices[deviceId := d]),
             Success(f))
  }

  /** In a paired store the "device not found" branch of detach is unreachable. */
  lemma PairedDetachFindsDevice(db: Db, fountainId: int)
    requires Paired(db)
    ensures DetachDevice(db, fountainId).result != Failure(FountainDeviceNotFound)
  {
  }

  /** Detaching right after a successful attach restores the store exactly. */
  lemma DetachUndoesAttach(db: Db, fountainId: int, deviceId: int)
    requires AttachDevice(db, fountainId, deviceId).result.Success?
    ensures DetachDevice(AttachDevice(db, fountainId, deviceId).db, fountainId)
              == Step(db, Success(db.fountains[fountainId]))
  {
    var a := AttachDevice(db, fountainId, deviceId).db;
    var fountain := db.fountains[fountainId];
    var device := db.continuousUseDevices[deviceId];
    assert a.fountains[fountainId].deviceId == Some(deviceId);
    assert fountain.(deviceId := Some(deviceId)).(deviceId := None) == fountain;
    assert device.(fountainId := Some(fountainId)).(fountainId := None) == device;
    assert a.fountains[fountainId := fountain] == db.fountains;
    assert a.continuousUseDevices[deviceId := device] == db.continuousUseDevices;
  }

  /** Attaching to a fountain that was just given a device fails, whatever the device. */
  lemma AttachTwiceFails(db: Db, fountainId: int, deviceId: int, otherDeviceId: int)
    requires AttachDevice(db, fountainId, deviceId).result.Success?
    ensures var a := AttachDevice(db, fountainId, deviceId).db;
            AttachDevice(a, fountainId, otherDeviceId) == Step(a, Failure(DeviceAlreadyAssigned))
  {
  }

  /** Detaching twice: the second call finds no device and changes nothing. */
  lemma DetachTwiceFails(db: Db, fountainId: int)
    requires DetachDevice(db, fountainId).result.Success?
    ensures var a := DetachDevice(db, fountainId).db;
            DetachDevice(a, fountainId) == Step(a, Failure(NoDeviceAssignedToFountain))
  {
  }

  // ---------------------------------------------------------------------------------------
  // The service over the shared database context

  class FountainService {
    const context: RadaoContext

    constructor (context: RadaoContext)
      ensures this.context == context
    {
      this.context := context;
    }

    method AddFountainAsync(input: Option<Fountain>, newId: int) returns (r: Result<Fountain>)
      requires newId > 0 && newId !in context.fountains
      modifies context
      ensures Step(context.Snapshot(), r) == AddFountain(old(context.Snapshot()), input, newId)
    {
      if input.None? {
        return Failure(ParamIsNull);
      }
      var f := input.value;
      if f.deviceId.Some? && f.deviceId.value !in context.devices {
        return Failure(ObjIsNull);
      }
      if CoordinatesTaken(context.fountains, f.latitude, f.longitude) {
        return Failure(FountainAlreadyExists);
      }
      if f.deviceId.Some? {
        return Failure(DeviceAlreadyAssigned);
      }
      var stored := f.(id := newId);
      context.fountains := context.fountains[newId := stored];
      r := Success(stored);
    }

    method UpdateFountainAsync(input: Option<Fountain>) returns (r: Result<Fountain>)
      modifies context
      ensures Step(context.Snapshot(), r) == UpdateFountain(old(context.Snapshot()), input)
    {
      if input.None? {
        return Failure(ParamIsNull);
      }
      var u := input.value;
      if u.id !in context.fountains {
        return Failure(ObjIsNull);
      }
      var fountain := context.fountains[u.id];
      fountain := fountain.(description := u.description, susceptibilityIndex := u.susceptibilityIndex);
      fountain := fountain.(deviceId := u.deviceId, isDrinkable := u.isDrinkable);
      fountain := fountain.(latitude := u.latitude, longitude := u.longitude);
      if u.deviceId.Some? && u.deviceId.value !in context.continuousUseDevices {
        return Failure(ObjIsNull);
      }
      context.fountains := context.fountains[u.id := fountain];
      r := Success(fountain);
    }

    method AddContinuousUseDeviceToFountainAsync(fountainId: int, deviceId: int) returns (r: Result<Fountain>)
      modifies context
      ensures Step(context.Snapshot(), r) == AttachDevice(old(context.Snapshot()), fountainId, deviceId)
    {
      if fountainId !in context.fountains {
        return Failure(ObjIsNull);
      }
      var fountain := context.fountains[fountainId];
      if fountain.deviceId.Some? {
        return Failure(DeviceAlreadyAssigned);
      }
      if deviceId !in context.continuousUseDevices {
        return Failure(ObjIsNull);
      }
      var device := context.continuousUseDevices[deviceId];
      if device.fountainId.Some? {
        return Failure(FountainAlreadyAssigned);
      }
      fountain := fountain.(deviceId := Some(deviceId));
      device := device.(fountainId := Some(fountainId));
      context.fountains := context.fountains[fountainId := fountain];
      context.continuousUseDevices := context.continuousUseDevices[deviceId := device];
      r := Success(fountain);
    }

    method RemoveDeviceFromFountainAsync(fountainId: int) returns (r: Result<Fountain>)
      modifies context
      ensures Step(context.Snapshot(), r) == DetachDevice(old(context.Snapshot()), fountainId)
    {
      if fountainId !in context.fountains {
        return Failure(ObjIsNull);
      }
      var fountain := context.fountains[fountainId];
      if fountain.deviceId.None? {
        return Failure(NoDeviceAssignedToFountain);
      }
      var deviceId := fountain.deviceId.value;
      if deviceId !in context.continuousUseDevices {
        return Failure(FountainDeviceNotFound);
      }
      var device := context.continuousUseDevices[deviceId];
      fountain := fountain.(deviceId := None);
      device := device.(fountainId := None);
      context.fountains := context.fountains[fountainId := fountain];
      context.continuousUseDevices := context.continuousUseDevices[deviceId := device];
      r := Success(fountain);
    }
  }
}
