/** WaterAnalysisService: recording a radon analysis (which reclassifies the fountain it names),
    finding analyses, and editing a recorded analysis. */
module WaterAnalysisService {
  import opened Entities

  // ---------------------------------------------------------------------------------------
  // Classification

  /** The susceptibility tier of a radon concentration: each tier is exactly one interval,
      at most 50 for Low, above 50 up to 150 for Moderate, above 150 for High. */
  function Classify(radonConcentration: real): (index: SusceptibilityIndex)
    ensures index == Low <==> radonConcentration <= 50.0
    ensures index == Moderate <==> 50.0 < radonConcentration <= 150.0
    ensures index == High <==> radonConcentration > 150.0
  {
    if radonConcentration <= 50.0 then Low
    else if radonConcentration > 150.0 then High
    else Moderate
  }

  function Rank(index: SusceptibilityIndex): (rank: nat) {
    match index
    case Low => 0
    case Moderate => 1
    case High => 2
  }

  /** A higher concentration never gives a lower tier. */
  lemma ClassifyMonotone(c1: real, c2: real)
    requires c1 <= c2
    ensures Rank(Classify(c1)) <= Rank(Classify(c2))
  {
  }

  /** The boundaries belong to the lower tier. */
  lemma ClassifyBoundaries()
    ensures Classify(50.0) == Low && Classify(51.0) == Moderate
    ensures Classify(150.0) == Moderate && Classify(151.0) == High
  {
  }

  // ---------------------------------------------------------------------------------------
  // Finding analyses by id

  /** The largest id in the table (0 for an empty table). */
  function MaxAnalysisId(s: seq<WaterAnalysis>): (m: int)
    ensures m >= 0
    ensures forall i | 0 <= i < |s| :: s[i].id <= m
  {
    if s == [] then 0
    else
      var rest := MaxAnalysisId(s[..|s| - 1]);
      assert forall i | 0 <= i < |s| - 1 :: s[..|s| - 1][i] == s[i];
      if s[|s| - 1].id > rest then s[|s| - 1].id else rest
  }

  /** The id the database gives the next analysis it stores: one past every existing id. */
  function NextAnalysisId(s: seq<WaterAnalysis>): (id: int)
    ensures id > 0
    ensures forall i | 0 <= i < |s| :: s[i].id != id
  {
    MaxAnalysisId(s) + 1
  }

  /** The position of the first analysis with the given id. */
  function IndexOfAnalysis(s: seq<WaterAnalysis>, id: int): (r: Option<nat>)
    ensures r.Some? ==> r.value < |s| && s[r.value].id == id
    ensures r.Some? ==> forall j | 0 <= j < r.value :: s[j].id != id
    ensures r.None? ==> forall j | 0 <= j < |s| :: s[j].id != id
  {
    if s == [] then None
    else if s[0].id == id then Some(0)
    else match IndexOfAnalysis(s[1..], id)
      case None => None
      case Some(k) => Some(k + 1)
  }

  /** GetWaterAnalysisById. */
  function GetWaterAnalysisById(analyses: seq<WaterAnalysis>, id: int): (r: Result<WaterAnalysis>)
    ensures id <= 0 ==> r == Failure(ParamIsNull)
    ensures id > 0 ==> (r == Failure(ObjIsNull) <==> forall j | 0 <= j < |analyses| :: analyses[j].id != id)
    ensures r.Success? <==> id > 0 && exists j | 0 <= j < |analyses| :: analyses[j].id == id
    ensures r.Success? ==> r.value.id == id && r.value in analyses
    ensures r.Success? && AnalysisIdsUnique(analyses) ==>
              forall j | 0 <= j < |analyses| && analyses[j].id == id :: analyses[j] == r.value
  {
    if id <= 0 then Failure(ParamIsNull)
    else match IndexOfAnalysis(analyses, id)
      case None => Failure(ObjIsNull)
      case Some(i) => Success(analyses[i])
  }

  /** GetWaterAnalysis: the whole table, which must not be empty. */
  function GetWaterAnalyses(analyses: seq<WaterAnalysis>): (r: Result<seq<WaterAnalysis>>)
    ensures r.Failure? <==> analyses == []
    ensures r.Failure? ==> r.error == EmptyList
    ensures r.Success? ==> r.value == analyses
  {
    if |analyses| == 0 then Failure(EmptyList) else Success(analyses)
  }

  // ---------------------------------------------------------------------------------------
  // Recording

  /** AddWaterAnalysisAsync: the fountain and the device must exist (no other check: not the
      sign of the concentration, nor the date, nor which fountain the device is attached to);
      the analysis is appended and the fountain's susceptibility index set from it. */
  function AddWaterAnalysis(db: Db, input: Option<WaterAnalysis>): (s: Step<WaterAnalysis>)
    ensures input.None? ==> s.result == Failure(ParamIsNull)
    ensures input.Some? && input.value.fountainId !in db.fountains ==> s.result == Failure(ObjIsNull)
    ensures input.Some? && input.value.fountainId in db.fountains && input.value.deviceId !in db.devices ==>
              s.result == Failure(ObjIsNull)
    ensures s.result.Success? <==>
              input.Some? && input.value.fountainId in db.fountains && input.value.deviceId in db.devices
    ensures s.result.Failure? ==> s.db == db
    ensures s.result.Success? ==>
              var a, f := s.result.value, input.value.fountainId;
              && a == input.value.(id := a.id)
              && (forall j | 0 <= j < |db.waterAnalyses| :: db.waterAnalyses[j].id != a.id)
              && s.db.waterAnalyses == db.waterAnalyses + [a]
              && s.db.fountains.Keys == db.fountains.Keys
              && s.db.fountains[f] == db.fountains[f].(susceptibilityIndex := Classify(a.radonConcentration))
              && s.db.fountains[f].isDrinkable == db.fountains[f].isDrinkable
              && (forall k | k in db.fountains && k != f :: s.db.fountains[k] == db.fountains[k])
              && s.db.devices == db.devices
              && s.db.continuousUseDevices == db.continuousUseDevices
    ensures WellFormed(db) ==> WellFormed(s.db)
    ensures Paired(db) ==> Paired(s.db)
  {
    if input.None? then Step(db, Failure(ParamIsNull))
    else
      var a := input.value;
      if a.fountainId !in db.fountains then Step(db, Failure(ObjIsNull))
      else if a.deviceId !in db.devices then Step(db, Failure(ObjIsNull))
      else
        var stored := a.(id := NextAnalysisId(db.waterAnalyses));
        var fountain := db.fountains[a.fountainId].(susceptibilityIndex := Classify(a.radonConcentration));
        Step(db.(waterAnalyses := db.waterAnalyses + [stored],
                 fountains := db.fountains[a.fountainId := fountain]),
             Success(stored))
  }

  /** Last write wins: recording a second analysis for the same fountain leaves the fountain
      table exactly as if only the second had been recorded. */
  lemma LastWriteWins(db: Db, first: WaterAnalysis, second: WaterAnalysis)
    requires first.fountainId == second.fountainId
    requires AddWaterAnalysis(db, Some(first)).result.Success?
    requires second.deviceId in db.devices
    ensures var after := AddWaterAnalysis(AddWaterAnalysis(db, Some(first)).db, Some(second));
            && after.result.Success?
            && after.db.fountains == AddWaterAnalysis(db, Some(second)).db.fountains
            && after.db.fountains[second.fountainId].susceptibilityIndex == Classify(second.radonConcentration)
  {
    var f := first.fountainId;
    var once := AddWaterAnalysis(db, Some(first)).db;
    var twice := AddWaterAnalysis(once, Some(second)).db;
    var alone := AddWaterAnalysis(db, Some(second)).db;
    assert twice.fountains.Keys == alone.fountains.Keys;
    forall k | k in twice.fountains
      ensures twice.fountains[k] == alone.fountains[k]
    {
      if k == f {
        assert once.fountains[f].(susceptibilityIndex := Classify(second.radonConcentration))
            == db.fountains[f].(susceptibilityIndex := Classify(second.radonConcentration));
      }
    }
  }

  // ---------------------------------------------------------------------------------------
  // Editing

  /** UpdateWaterAnalysis: copies the concentration, fountain, date and device onto the stored
      analysis, provided the new fountain and device exist. No fountain is reclassified. */
  function UpdateWaterAnalysis(db: Db, input: Option<WaterAnalysis>): (s: Step<WaterAnalysis>)
    ensures input.None? ==> s.result == Failure(ParamIsNull)
    ensures input.Some? && (forall j | 0 <= j < |db.waterAnalyses| :: db.waterAnalyses[j].id != input.value.id) ==>
              s.result == Failure(ObjIsNull)
    ensures input.Some? && (input.value.fountainId !in db.fountains || input.value.deviceId !in db.devices) ==>
              s.result == Failure(ObjIsNull)
    ensures input.Some? && s.result.Failure? ==> s.result.error == ObjIsNull
    ensures s.result.Success? <==>
              && input.Some? && (exists j | 0 <= j < |db.waterAnalyses| :: db.waterAnalyses[j].id == input.value.id)
              && input.value.fountainId in db.fountains && input.value.deviceId in db.devices
    ensures s.result.Failure? ==> s.db == db
    ensures s.result.Success? ==>
              exists i | 0 <= i < |db.waterAnalyses| ::
                && db.waterAnalyses[i].id == input.value.id
                && s.result.value == input.value
                && s.db.waterAnalyses == db.waterAnalyses[i := s.result.value]
    ensures s.db.fountains == db.fountains
    ensures s.db.devices == db.devices && s.db.continuousUseDevices == db.continuousUseDevices
    ensures WellFormed(db) ==> WellFormed(s.db)
    ensures Paired(db) ==> Paired(s.db)
  {
    if input.None? then Step(db, Failure(ParamIsNull))
    else
      var u := input.value;
      match IndexOfAnalysis(db.waterAnalyses, u.id)
      case None => Step(db, Failure(ObjIsNull))
      case Some(i) =>
        var a := db.waterAnalyses[i].(radonConcentration := u.radonConcentration, fountainId := u.fountainId,
                                      date := u.date, deviceId := u.deviceId);
        if u.fountainId !in db.fountains then Step(db, Failure(ObjIsNull))
        else if u.deviceId !in db.devices then Step(db, Failure(ObjIsNull))
        else Step(db.(waterAnalyses := db.waterAnalyses[i := a]), Success(a))
  }

  // ---------------------------------------------------------------------------------------
  // The service over the shared database context

  class WaterAnalysisService {
    const context: RadaoContext

    constructor (context: RadaoContext)
      ensures this.context == context
    {
      this.context := context;
    }

    method AddWaterAnalysisAsync(input: Option<WaterAnalysis>) returns (r: Result<WaterAnalysis>)
      modifies context
      ensures Step(context.Snapshot(), r) == AddWaterAnalysis(old(context.Snapshot()), input)
    {
      if input.None? {
        return Failure(ParamIsNull);
      }
      var a := input.value;
      if a.fountainId !in context.fountains {
        return Failure(ObjIsNull);
      }
      var fountain := context.fountains[a.fountainId];
      if a.deviceId !in context.devices {
        return Failure(ObjIsNull);
      }
      var stored := a.(id := NextAnalysisId(context.waterAnalyses));
      context.waterAnalyses := context.waterAnalyses + [stored];
      var index: SusceptibilityIndex;
      if a.radonConcentration <= 50.0 {
        index := Low;
      } else if a.radonConcentration > 150.0 {
        index := High;
      } else {
        index := Moderate;
      }
      fountain := fountain.(susceptibilityIndex := index);
      context.fountains := context.fountains[a.fountainId := fountain];
      r := Success(stored);
    }

    method UpdateWaterAnalysisAsync(input: Option<WaterAnalysis>) returns (r: Result<WaterAnalysis>)
      modifies context
      ensures Step(context.Snapshot(), r) == UpdateWaterAnalysis(old(context.Snapshot()), input)
    {
      if input.None? {
        return Failure(ParamIsNull);
      }
      var u := input.value;
      var found := IndexOfAnalysis(context.waterAnalyses, u.id);
      if found.None? {
        return Failure(ObjIsNull);
      }
      var i := found.value;
      var a := context.waterAnalyses[i];
      a := a.(radonConcentration := u.radonConcentration, fountainId := u.fountainId);
      a := a.(date := u.date, deviceId := u.deviceId);
      if u.fountainId !in context.fountains || u.deviceId !in context.devices {
        return Failure(ObjIsNull);
      }
      context.waterAnalyses := context.waterAnalyses[i := a];
      r := Success(a);
    }
  }
}
