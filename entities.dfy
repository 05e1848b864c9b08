/** The records of the Radao store, its four tables, the error kinds the services throw,
    and the invariants (primary keys, the fountain/device pairing) the services are judged by. */
module Entities {

  datatype Option<+T> = None | Some(value: T)

  /** One constructor per exception class the services throw. */
  datatype Error =
    | ParamIsNull
    | ObjIsNull
    | EmptyList
    | FountainAlreadyExists
    | DeviceAlreadyAssigned
    | FountainAlreadyAssigned
    | NoDeviceAssignedToFountain
    | FountainDeviceNotFound
    | NoFountainMatchesDescription
    | ContinuousUseDeviceNotFound
    | FountainNotFound

  datatype Result<+T> = Success(value: T) | Failure(error: Error)

  datatype SusceptibilityIndex = Low | Moderate | High

  /** Dates are day numbers (`DateOnly.DayNumber`). */
  type Day = int

  /** Latitude and longitude are only ever compared with `==`. */
  type Coordinate = real

  datatype Fountain = Fountain(
    id: int,
    description: string,
    susceptibilityIndex: SusceptibilityIndex,
    deviceId: Option<int>,
    isDrinkable: bool,
    latitude: Coordinate,
    longitude: Coordinate)

  datatype Device = Device(
    id: int,
    model: string,
    serialNumber: string,
    expirationDate: Day)

  datatype ContinuousUseDevice = ContinuousUseDevice(
    id: int,
    model: string,
    serialNumber: string,
    expirationDate: Day,
    fountainId: Option<int>,
    analysisFrequency: int,
    lastAnalysisDate: Day)

  datatype WaterAnalysis = WaterAnalysis(
    id: int,
    radonConcentration: real,
    fountainId: int,
    date: Day,
    deviceId: int)

  /** The four tables: three keyed by id, the analyses kept in insertion order. */
  datatype Db = Db(
    fountains: map<int, Fountain>,
    continuousUseDevices: map<int, ContinuousUseDevice>,
    devices: map<int, Device>,
    waterAnalyses: seq<WaterAnalysis>)

  /** What an operation leaves in the store, and what it returns or throws. */
  datatype Step<+T> = Step(db: Db, result: Result<T>)

  /** Primary keys: every record is stored under its own id. */
  ghost predicate FountainsKeyed(m: map<int, Fountain>) {
    forall k | k in m :: m[k].id == k
  }

  ghost predicate DevicesKeyed(m: map<int, Device>) {
    forall k | k in m :: m[k].id == k
  }

  ghost predicate ContinuousUseDevicesKeyed(m: map<int, ContinuousUseDevice>) {
    forall k | k in m :: m[k].id == k
  }

  ghost predicate AnalysisIdsUnique(s: seq<WaterAnalysis>) {
    forall i, j | 0 <= i < j < |s| :: s[i].id != s[j].id
  }

  ghost predicate WellFormed(db: Db) {
    && FountainsKeyed(db.fountains)
    && DevicesKeyed(db.devices)
    && ContinuousUseDevicesKeyed(db.continuousUseDevices)
    && AnalysisIdsUnique(db.waterAnalyses)
  }

  /** The one-to-one association: a fountain names a device exactly when that device names
      the fountain back. */
  ghost predicate Paired(db: Db) {
    && (forall f | f in db.fountains && db.fountains[f].deviceId.Some? ::
          && db.fountains[f].deviceId.value in db.continuousUseDevices
          && db.continuousUseDevices[db.fountains[f].deviceId.value].fountainId == Some(f))
    && (forall d | d in db.continuousUseDevices && db.continuousUseDevices[d].fountainId.Some? ::
          && db.continuousUseDevices[d].fountainId.value in db.fountains
          && db.fountains[db.continuousUseDevices[d].fountainId.value].deviceId == Some(d))
  }

  /** The store state, held by the database context and changed in place by the services. */
  class RadaoContext {
    var fountains: map<int, Fountain>
    var continuousUseDevices: map<int, ContinuousUseDevice>
    var devices: map<int, Device>
    var waterAnalyses: seq<WaterAnalysis>

    constructor ()
      ensures Snapshot() == Db(map[], map[], map[], [])
    {
      fountains, continuousUseDevices, devices, waterAnalyses := map[], map[], map[], [];
    }

    function Snapshot(): Db
      reads this
    {
      Db(fountains, continuousUseDevices, devices, waterAnalyses)
    }
  }
}
