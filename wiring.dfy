/** How the modelled pieces compose: the service with the flood model
    adapter as its model port, the e-mail notifier as its notification port,
    and a reading that came through `/arduino-data`. entrypoints/api.py
    deploys the Twilio notifier instead, which is not part of this model;
    the e-mail adapter is wired by no entrypoint in these sources. */
module Wiring {
  import opened Types
  import opened Domain
  import opened ModelAdapter
  import SmsAdapter
  import FlaskAdapter

  /** The model port backed by `FloodModelAdapter`. */
  function FloodModel(estimator: seq<Cell> -> Result<real>): Row -> Result<real>
  {
    (input: Row) => Predict(input, estimator)
  }

  /** A dataset row carries the 20 static features. */
  predicate CompleteRow(row: Row)
  {
    forall k | k in DatasetFeatures :: k in row
  }

  lemma LabelIsNotAFeature()
    ensures Label !in LookupKeys
  {
    assert forall j | 0 <= j < |LookupKeys| :: |LookupKeys[j]| != |Label| || LookupKeys[j] != Label;
  }

  /** Before the first reading arrives, a row without sensor columns makes
      the flood model fail on `temperature`, so the cycle fails with a
      wrapped KeyError and no alert is attempted. */
  lemma ColdStartCycleFails(row: Row, estimator: seq<Cell> -> Result<real>,
                            notifier: string -> Result<bool>, threshold: real)
    requires CompleteRow(row) && "temperature" !in row
    ensures CycleOutcome([row], None, 0, FloodModel(estimator), notifier, threshold)
            == Cycle(Err(PredictionError(KeyError("temperature"))), [])
  {
    var input := Combine(row, None);
    LabelIsNotAFeature();
    assert forall j | 0 <= j < 20 :: LookupKeys[j] == DatasetFeatures[j] && LookupKeys[j] in input;
    assert LookupKeys[20] == "temperature" && LookupKeys[20] !in input;
    var r := Project(input, LookupKeys);
    assert r.Err?;
    var j :| 0 <= j < |LookupKeys| && r.error == KeyError(LookupKeys[j]) && LookupKeys[j] !in input
             && forall j' | 0 <= j' < j :: LookupKeys[j'] in input;
    assert j == 20;
  }

  /** Once a complete reading is stored, the estimator sees the dataset
      row's static features in the first 20 columns and the reading's four
      sensor values in the last four, whatever the row held for them. */
  lemma ReadingReachesEstimator(row: Row, reading: Row)
    requires CompleteRow(row)
    requires forall k | k in SensorFeatures :: k in reading
    ensures var input := Combine(row, Some(reading));
            var values := Project(input, LookupKeys);
            values.Ok?
            && (forall j | 0 <= j < 20 :: values.value[j] ==
                  if DatasetFeatures[j] in reading then reading[DatasetFeatures[j]] else row[DatasetFeatures[j]])
            && values.value[20..] == [reading["temperature"], reading["humidity"],
                                      reading["soil_moisture"], reading["water_level"]]
  {
    var input := Combine(row, Some(reading));
    LabelIsNotAFeature();
    assert forall k | k in LookupKeys :: k in input;
    var values := Project(input, LookupKeys).value;
    assert forall j | 20 <= j < 24 :: LookupKeys[j] == SensorFeatures[j - 20];
  }

  /** The timestamp added by `/arduino-data` reaches the assembled
      dictionary but not the prediction. */
  lemma TimestampDoesNotAffectPrediction(row: Row, body: Option<Row>, now: string,
                                         estimator: seq<Cell> -> Result<real>)
    requires FlaskAdapter.CheckSubmission(body, now).Accept?
    ensures var data := FlaskAdapter.CheckSubmission(body, now).data;
            Combine(row, Some(data))[FlaskAdapter.TimestampKey] == Text(now)
            && Predict(Combine(row, Some(data)), estimator)
               == Predict(Combine(row, Some(data)) - {FlaskAdapter.TimestampKey}, estimator)
  {
    var data := FlaskAdapter.CheckSubmission(body, now).data;
    var input := Combine(row, Some(data));
    var rest := input - {FlaskAdapter.TimestampKey};
    assert FlaskAdapter.TimestampKey !in LookupKeys;
    assert input == rest + map[FlaskAdapter.TimestampKey := input[FlaskAdapter.TimestampKey]];
    ExtraKeysIgnored(rest, map[FlaskAdapter.TimestampKey := input[FlaskAdapter.TimestampKey]], estimator);
  }

  /** With the e-mail notifier, which never raises, a cycle whose model
      succeeds always succeeds with the model's probability. This does not
      hold for the Twilio notifier that entrypoints/api.py deploys. */
  lemma EmailNotifierNeverFailsCycle(dataset: seq<Row>, reading: Option<Row>, i: nat,
                                     model: Row -> Result<real>, cfg: SmsAdapter.SmsConfig,
                                     transport: SmsAdapter.Email -> Result<seq<string>>, threshold: real)
    requires dataset != [] && i < |dataset|
    requires model(Combine(dataset[i], reading)).Ok?
    ensures CycleOutcome(dataset, reading, i, model, SmsAdapter.Notifier(cfg, transport), threshold).result
            == model(Combine(dataset[i], reading))
  {
    ReturnsModelProbability(dataset, reading, i, model, SmsAdapter.Notifier(cfg, transport), threshold);
  }
}
