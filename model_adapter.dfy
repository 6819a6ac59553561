/** The flood model adapter (infrastructure/adapters/model_adapter.py):
    `predict` projects the feature dictionary onto a fixed 24-column frame
    and hands it to the pickled estimator, which stays opaque here (a
    function value `estimator`). */
module ModelAdapter {
  import opened Types

  /** The 20 static features that the reference dataset supplies. */
  const DatasetFeatures: seq<string> := [
    "MonsoonIntensity", "TopographyDrainage", "RiverManagement", "Deforestation",
    "Urbanization", "ClimateChange", "DamsQuality", "Siltation",
    "AgriculturalPractices", "Encroachments", "IneffectiveDisasterPreparedness",
    "DrainageSystems", "CoastalVulnerability", "Landslides", "Watersheds",
    "DeterioratingInfrastructure", "PopulationScore", "WetlandLoss",
    "InadequatePlanning", "PoliticalFactors"]

  /** The four fields the Arduino board reports. */
  const SensorFeatures: seq<string> := ["temperature", "humidity", "soil_moisture", "water_level"]

  /** The keys looked up, in order, to build the value list of the frame. */
  const LookupKeys: seq<string> := DatasetFeatures + SensorFeatures

  /** The column names given to the frame, written out a second time in the
      source; `ColumnsAlignWithLookups` proves the two lists agree. */
  const ColumnNames: seq<string> := [
    "MonsoonIntensity", "TopographyDrainage", "RiverManagement", "Deforestation",
    "Urbanization", "ClimateChange", "DamsQuality", "Siltation",
    "AgriculturalPractices", "Encroachments", "IneffectiveDisasterPreparedness",
    "DrainageSystems", "CoastalVulnerability", "Landslides", "Watersheds",
    "DeterioratingInfrastructure", "PopulationScore", "WetlandLoss",
    "InadequatePlanning", "PoliticalFactors",
    "temperature", "humidity", "soil_moisture", "water_level"]

  lemma ColumnsAlignWithLookups()
    ensures |LookupKeys| == |ColumnNames| == 24
    ensures forall j | 0 <= j < 24 :: LookupKeys[j] == ColumnNames[j]
    ensures ColumnNames[20..] == SensorFeatures
  {
  }

  /** Evaluates `[input[k] for k in keys]` left to right: the first key that
      is missing raises KeyError, so later keys are never looked up. */
  function Project(input: Row, keys: seq<string>): (r: Result<seq<Value>>)
    ensures r.Ok? <==> forall k | k in keys :: k in input
    ensures r.Ok? ==> |r.value| == |keys|
    ensures r.Ok? ==> forall j | 0 <= j < |keys| :: r.value[j] == input[keys[j]]
    ensures r.Err? ==> exists j | 0 <= j < |keys| ::
      r.error == KeyError(keys[j]) && keys[j] !in input && forall j' | 0 <= j' < j :: keys[j'] in input
  {
    if keys == [] then Ok([])
    else if keys[0] !in input then Err(KeyError(keys[0]))
    else match Project(input, keys[1..])
      case Err(e) => assert forall k | k in keys[1..] :: k in keys; Err(e)
      case Ok(rest) => Ok([input[keys[0]]] + rest)
  }

  /** One labelled row of the frame passed to the estimator. */
  datatype Cell = Cell(column: string, value: Value)

  /** Pairs the j-th column name with the j-th looked-up value, as
      `pd.DataFrame([features], columns=...)` does. */
  function Frame(values: seq<Value>): (f: seq<Cell>)
    requires |values| == |ColumnNames|
    ensures |f| == |values|
    ensures forall j | 0 <= j < |f| :: f[j].column == ColumnNames[j] && f[j].value == values[j]
  {
    seq(|values|, j requires 0 <= j < |values| => Cell(ColumnNames[j], values[j]))
  }

  /** `FloodModelAdapter.predict`: fails with the first missing key before
      the estimator is consulted, otherwise returns the estimator's score. */
  function Predict(input: Row, estimator: seq<Cell> -> Result<real>): (r: Result<real>)
    ensures (exists k | k in LookupKeys :: k !in input) ==>
      r.Err? && r.error.KeyError? && r.error.key in LookupKeys && r.error.key !in input
    ensures (forall k | k in LookupKeys :: k in input) ==>
      r == estimator(seq(24, j requires 0 <= j < 24 => Cell(ColumnNames[j], input[LookupKeys[j]])))
  {
    match Project(input, LookupKeys)
    case Err(e) => Err(e)
    case Ok(values) =>
      assert Frame(values) == seq(24, j requires 0 <= j < 24 => Cell(ColumnNames[j], input[LookupKeys[j]]));
      estimator(Frame(values))
  }

  /** The frame handed to the estimator has the 24 columns in order, each
      holding the input's value for that column name, the four sensor
      fields last. */
  lemma PredictFrame(input: Row)
    requires forall k | k in LookupKeys :: k in input
    ensures Project(input, LookupKeys).Ok?
    ensures |Frame(Project(input, LookupKeys).value)| == 24
    ensures forall j | 0 <= j < 24 ::
      var cell := Frame(Project(input, LookupKeys).value)[j];
      cell.column == ColumnNames[j] && cell.column in input && cell.value == input[cell.column]
    ensures forall j | 20 <= j < 24 ::
      Frame(Project(input, LookupKeys).value)[j].column == SensorFeatures[j - 20]
  {
    ColumnsAlignWithLookups();
  }

  /** Missing any of the 24 keys fails with KeyError, whatever the
      estimator would have answered. */
  lemma MissingKeyFailsBeforeEstimator(input: Row, k: string, e1: seq<Cell> -> Result<real>, e2: seq<Cell> -> Result<real>)
    requires k in LookupKeys && k !in input
    ensures Predict(input, e1).Err? && Predict(input, e1).error.KeyError?
    ensures Predict(input, e1) == Predict(input, e2)
  {
  }

  /** Two projections agree when the inputs agree on the projected keys. */
  lemma {:induction false} ProjectOnlyReadsKeys(a: Row, b: Row, keys: seq<string>)
    requires forall k | k in keys :: (k in a <==> k in b) && (k in a ==> a[k] == b[k])
    ensures Project(a, keys) == Project(b, keys)
  {
    if keys != [] && keys[0] in a {
      ProjectOnlyReadsKeys(a, b, keys[1..]);
    }
  }

  /** Keys outside the 24 columns (such as `timestamp` or the dataset's
      `FloodProbability` label) have no effect on the prediction. */
  lemma ExtraKeysIgnored(input: Row, extra: Row, estimator: seq<Cell> -> Result<real>)
    requires forall k | k in extra :: k !in LookupKeys
    ensures Predict(input + extra, estimator) == Predict(input, estimator)
  {
    ProjectOnlyReadsKeys(input + extra, input, LookupKeys);
  }
}
