/** The prediction service (core/domain/prediction_service.py): it assembles
    a feature dictionary from one dataset row and the latest Arduino reading,
    scores it with the model port, and calls the notification port when the
    probability reaches the alert threshold. The model port and the
    notification port are function values; the random row choice is an
    index argument. */
module Domain {
  import opened Types
  import opened Strings

  /** The dataset's target column, removed before prediction. */
  const Label := "FloodProbability"

  const EmptyDatasetMessage := "Dataset is empty"

  /** Python truthiness of `self.arduino_data`: None and `{}` are falsy. */
  predicate Truthy(reading: Option<Row>)
  {
    reading.Some? && reading.value != map[]
  }

  /** The keys the reading overlays onto the sampled row. */
  function OverlaidKeys(reading: Option<Row>): set<string>
  {
    if Truthy(reading) then reading.value.Keys else {}
  }

  /** `sample.pop('FloodProbability', None)` followed, when the reading is
      truthy, by `sample.update(reading)`. */
  function Combine(row: Row, reading: Option<Row>): (r: Row)
    ensures r.Keys == (row.Keys - {Label}) + OverlaidKeys(reading)
    ensures forall k | k in OverlaidKeys(reading) :: r[k] == reading.value[k]
    ensures forall k | k in row && k != Label && k !in OverlaidKeys(reading) :: r[k] == row[k]
  {
    var sample := row - {Label};
    if Truthy(reading) then sample + reading.value else sample
  }

  /** The label survives only when the reading itself carries it. */
  lemma CombineDropsLabel(row: Row, reading: Option<Row>)
    ensures Label in Combine(row, reading) <==> Truthy(reading) && Label in reading.value
  {
  }

  /** With no reading, or an empty one, the result is the row minus its label. */
  lemma CombineWithoutReading(row: Row, reading: Option<Row>)
    requires !Truthy(reading)
    ensures Combine(row, reading) == row - {Label}
  {
  }

  /** `probability*100` rounded to a whole number as `f"{x:.0f}"` does on an
      exact value: to the nearest integer, ties to the even one. The integer
      has no sign of zero: Python prints "-0" where this gives 0. */
  function Percent(p: real): (pct: int)
    ensures -0.5 <= pct as real - p * 100.0 <= 0.5
    ensures (pct as real - p * 100.0 == 0.5 || p * 100.0 - pct as real == 0.5) ==> pct % 2 == 0
  {
    var x := p * 100.0;
    var f := x.Floor;
    var frac := x - f as real;
    if frac < 0.5 then f
    else if frac > 0.5 then f + 1
    else if f % 2 == 0 then f
    else f + 1
  }

  const AlertHead := "\nALERTE INONDATION\nNiveau critique: ["
  /** The footer reads "préventives"; the accented letter is spliced in as a
      character so that the verifier sees every character of the text. */
  const AlertTail := "%].\nVeuillez prendre des mesures pr" + ['é'] + "ventives.\nInfos: services d'urgence"

  /** `_format_alert_message`, with the rounded percentage as its argument. */
  function AlertMessage(pct: int): (msg: string)
    ensures |msg| > |AlertHead| + |AlertTail|
    ensures msg[..|AlertHead|] == AlertHead && msg[|msg| - |AlertTail|..] == AlertTail
    ensures AllDigits(msg[|AlertHead| + (if pct < 0 then 1 else 0)..|msg| - |AlertTail|])
  {
    AlertHead + IntToString(pct) + AlertTail
  }

  /** Reads the percentage back out of an alert message. */
  function ParseAlertPercent(msg: string): Option<int>
  {
    if |msg| >= |AlertHead| + |AlertTail| && msg[..|AlertHead|] == AlertHead
       && msg[|msg| - |AlertTail|..] == AlertTail
    then ParseInt(msg[|AlertHead|..|msg| - |AlertTail|])
    else None
  }

  lemma AlertPercentRoundTrip(pct: int)
    ensures ParseAlertPercent(AlertMessage(pct)) == Some(pct)
  {
    var msg := AlertMessage(pct);
    assert msg[..|AlertHead|] == AlertHead;
    assert msg[|msg| - |AlertTail|..] == AlertTail;
    assert msg[|AlertHead|..|msg| - |AlertTail|] == IntToString(pct);
    ParseIntToString(pct);
  }

  /** The message shows the percentage followed by a percent sign. */
  lemma AlertMessageShowsPercent(pct: int)
    ensures Contains(AlertMessage(pct), IntToString(pct) + "%")
  {
    var msg := AlertMessage(pct);
    var shown := IntToString(pct) + "%";
    assert AlertTail[0] == '%';
    assert AlertTail == "%" + AlertTail[1..];
    assert msg == AlertHead + shown + AlertTail[1..];
    assert msg[|AlertHead|..|AlertHead| + |shown|] == shown;
    assert OccursAt(msg, shown, |AlertHead|);
    ContainsIffOccurs(msg, shown);
  }

  /** What one call of `predict_and_alert` produces: its return value or
      exception, and the messages handed to the notifier. */
  datatype Cycle = Cycle(result: Result<real>, alerts: seq<string>)

  /** The cycle as a function of its inputs: assemble, score, then notify
      when the probability is at least the threshold. Any exception of the
      three steps is re-raised wrapped in PredictionError; the notifier's
      boolean answer is discarded. */
  function CycleOutcome(dataset: seq<Row>, reading: Option<Row>, i: nat,
                        model: Row -> Result<real>, notifier: string -> Result<bool>,
                        threshold: real): (c: Cycle)
    requires dataset != [] ==> i < |dataset|
    ensures c.result.Err? ==> c.result.error.PredictionError?
    ensures c.alerts != [] ==>
      dataset != [] && model(Combine(dataset[i], reading)).Ok?
      && model(Combine(dataset[i], reading)).value >= threshold
      && c.alerts == [AlertMessage(Percent(model(Combine(dataset[i], reading)).value))]
  {
    if dataset == [] then Cycle(Err(PredictionError(ValueError(EmptyDatasetMessage))), [])
    else match model(Combine(dataset[i], reading))
      case Err(e) => Cycle(Err(PredictionError(e)), [])
      case Ok(p) =>
        if p >= threshold then
          var message := AlertMessage(Percent(p));
          match notifier(message)
          case Err(e) => Cycle(Err(PredictionError(e)), [message])
          case Ok(_) => Cycle(Ok(p), [message])
        else Cycle(Ok(p), [])
  }

  /** The notifier is called exactly once when the probability reaches the
      threshold (inclusive), with the alert for its rounded percentage, and
      never otherwise. */
  lemma NotifiesIffThresholdReached(dataset: seq<Row>, reading: Option<Row>, i: nat,
                                    model: Row -> Result<real>, notifier: string -> Result<bool>,
                                    threshold: real)
    requires dataset != [] && i < |dataset|
    ensures var c := CycleOutcome(dataset, reading, i, model, notifier, threshold);
            var m := model(Combine(dataset[i], reading));
            (m.Ok? && m.value >= threshold ==> c.alerts == [AlertMessage(Percent(m.value))])
            && (m.Ok? && m.value < threshold ==> c.alerts == [])
            && (m.Err? ==> c.alerts == [])
  {
  }

  /** A successful cycle returns the model's probability unchanged, and it
      succeeds whatever boolean the notifier answers. */
  lemma ReturnsModelProbability(dataset: seq<Row>, reading: Option<Row>, i: nat,
                                model: Row -> Result<real>, notifier: string -> Result<bool>,
                                threshold: real)
    requires dataset != [] ==> i < |dataset|
    ensures var c := CycleOutcome(dataset, reading, i, model, notifier, threshold);
            c.result.Ok? ==> dataset != [] && model(Combine(dataset[i], reading)) == Ok(c.result.value)
    ensures var c := CycleOutcome(dataset, reading, i, model, notifier, threshold);
            (dataset != [] && model(Combine(dataset[i], reading)).Ok? && forall m :: notifier(m).Ok?)
            ==> c.result == model(Combine(dataset[i], reading))
  {
  }

  /** Every failure surfaces as PredictionError whose cause is the empty
      dataset, the model's exception or the notifier's exception. */
  lemma FailuresAreWrapped(dataset: seq<Row>, reading: Option<Row>, i: nat,
                           model: Row -> Result<real>, notifier: string -> Result<bool>,
                           threshold: real)
    requires dataset != [] ==> i < |dataset|
    ensures var c := CycleOutcome(dataset, reading, i, model, notifier, threshold);
            c.result.Err? ==> c.result.error.PredictionError?
    ensures var c := CycleOutcome(dataset, reading, i, model, notifier, threshold);
            c.result.Err? ==>
              || (dataset == [] && c.result.error.cause == ValueError(EmptyDatasetMessage))
              || (dataset != [] && model(Combine(dataset[i], reading)) == Err(c.result.error.cause))
              || (|c.alerts| == 1 && notifier(c.alerts[0]) == Err(c.result.error.cause))
    ensures dataset == [] ==>
      CycleOutcome(dataset, reading, i, model, notifier, threshold)
        == Cycle(Err(PredictionError(ValueError(EmptyDatasetMessage))), [])
  {
  }

  /** A notifier that raises makes the whole cycle fail: the alert was
      attempted, yet the model's probability is lost and the notifier's
      exception comes back wrapped. */
  lemma NotifierFailureFailsCycle(dataset: seq<Row>, reading: Option<Row>, i: nat,
                                  model: Row -> Result<real>, notifier: string -> Result<bool>,
                                  threshold: real, p: real, e: Exception)
    requires dataset != [] && i < |dataset|
    requires model(Combine(dataset[i], reading)) == Ok(p) && p >= threshold
    requires notifier(AlertMessage(Percent(p))) == Err(e)
    ensures CycleOutcome(dataset, reading, i, model, notifier, threshold)
            == Cycle(Err(PredictionError(e)), [AlertMessage(Percent(p))])
  {
  }

  /** One dataset row, a model that answers 0.7, a threshold of 0.5 and a
      notifier that accepts: the cycle returns 0.7 after sending one alert
      that reads "70%". */
  lemma ScenarioAlertAtSeventyPercent()
    ensures var dataset := [map[Label := Num(0.9), "MonsoonIntensity" := Num(5.0)]];
            var c := CycleOutcome(dataset, None, 0, (r: Row) => Ok(0.7), (m: string) => Ok(true), 0.5);
            c == Cycle(Ok(0.7), [AlertMessage(70)]) && Contains(c.alerts[0], "70%")
  {
    var dataset := [map[Label := Num(0.9), "MonsoonIntensity" := Num(5.0)]];
    var model := (r: Row) => Ok(0.7);
    var notifier := (m: string) => Ok(true);
    assert (0.7 * 100.0).Floor == 70;
    assert Percent(0.7) == 70;
    assert model(Combine(dataset[0], None)) == Ok(0.7);
    assert notifier(AlertMessage(70)) == Ok(true);
    assert CycleOutcome(dataset, None, 0, model, notifier, 0.5) == Cycle(Ok(0.7), [AlertMessage(70)]);
    assert IntToString(70) + "%" == "70%" by {
      assert NatToString(70) == NatToString(7) + [DigitChar(0)];
    }
    AlertMessageShowsPercent(70);
  }

  /** A model that answers 0.3 against a threshold of 0.5: the notifier is
      never called, whatever it would do. */
  lemma ScenarioBelowThreshold(dataset: seq<Row>, reading: Option<Row>, notifier: string -> Result<bool>)
    requires dataset != []
    ensures CycleOutcome(dataset, reading, 0, (r: Row) => Ok(0.3), notifier, 0.5) == Cycle(Ok(0.3), [])
  {
  }

  /** One line of the append-only CSV log of readings. */
  datatype LogLine = Header(columns: set<string>) | Record(row: Row)

  /** `df.to_csv(path, mode='a', header=not exists)` for a one-row frame. */
  function AppendToLog(fileExists: bool, lines: seq<LogLine>, data: Row): (r: seq<LogLine>)
    ensures |r| == |lines| + (if fileExists then 1 else 2)
    ensures r[..|lines|] == lines
    ensures r[|r| - 1] == Record(data)
    ensures !fileExists ==> r[|lines|] == Header(data.Keys)
  {
    lines + (if fileExists then [] else [Header(data.Keys)]) + [Record(data)]
  }

  function Records(lines: seq<LogLine>): seq<Row>
  {
    if lines == [] then []
    else (if lines[0].Record? then [lines[0].row] else []) + Records(lines[1..])
  }

  function HeaderCount(lines: seq<LogLine>): nat
  {
    if lines == [] then 0
    else (if lines[0].Header? then 1 else 0) + HeaderCount(lines[1..])
  }

  lemma {:induction false} RecordsConcat(a: seq<LogLine>, b: seq<LogLine>)
    ensures Records(a + b) == Records(a) + Records(b)
    ensures HeaderCount(a + b) == HeaderCount(a) + HeaderCount(b)
  {
    if a == [] {
      assert a + b == b;
    } else {
      assert (a + b)[0] == a[0];
      assert (a + b)[1..] == a[1..] + b;
      RecordsConcat(a[1..], b);
    }
  }

  /** Each save appends exactly the one reading to the log's records, and a
      header only when the log did not exist yet. */
  lemma AppendAddsOneRecord(fileExists: bool, lines: seq<LogLine>, data: Row)
    ensures Records(AppendToLog(fileExists, lines, data)) == Records(lines) + [data]
    ensures HeaderCount(AppendToLog(fileExists, lines, data))
            == HeaderCount(lines) + (if fileExists then 0 else 1)
  {
    var added := (if fileExists then [] else [Header(data.Keys)]) + [Record(data)];
    assert AppendToLog(fileExists, lines, data) == lines + added;
    RecordsConcat(lines, added);
    if !fileExists {
      RecordsConcat([Header(data.Keys)], [Record(data)]);
    }
  }

  class PredictionService {
    const model: Row -> Result<real>
    const notifier: string -> Result<bool>
    const alertThreshold: real
    const dataset: seq<Row>
    /** The latest Arduino reading (`self.arduino_data`). */
    var arduinoData: Option<Row>
    /** The CSV log at ARDUINO_DATA_PATH: whether the file exists, and its lines. */
    var logExists: bool
    var logLines: seq<LogLine>

    /** A log file that does not exist holds no lines. */
    ghost predicate Valid()
      reads this
    {
      !logExists ==> logLines == []
    }

    /** `__init__`: the dataset is the one `_load_dataset` read, the log is
        whatever the file holds, and no reading has arrived yet. */
    constructor (model: Row -> Result<real>, notifier: string -> Result<bool>,
                 alertThreshold: real, dataset: seq<Row>,
                 logExists: bool, logLines: seq<LogLine>)
      requires !logExists ==> logLines == []
      ensures Valid()
      ensures this.model == model && this.notifier == notifier
      ensures this.alertThreshold == alertThreshold && this.dataset == dataset
      ensures this.logExists == logExists && this.logLines == logLines
      ensures arduinoData == None
    {
      this.model := model;
      this.notifier := notifier;
      this.alertThreshold := alertThreshold;
      this.dataset := dataset;
      this.logExists := logExists;
      this.logLines := logLines;
      arduinoData := None;
    }

    /** `_get_combined_data`, with the sampled row chosen by `i`. */
    method GetCombinedData(i: nat) returns (r: Result<Row>)
      requires dataset != [] ==> i < |dataset|
      ensures dataset == [] <==> r == Err(ValueError(EmptyDatasetMessage))
      ensures dataset != [] ==> r == Ok(Combine(dataset[i], arduinoData))
    {
      if |dataset| == 0 {
        return Err(ValueError(EmptyDatasetMessage));
      }
      var sample := dataset[i];
      sample := sample - {Label};
      if Truthy(arduinoData) {
        sample := sample + arduinoData.value;
      }
      return Ok(sample);
    }

    /** `predict_and_alert`: returns the probability or the PredictionError
        raised, and the messages passed to the notifier. */
    method PredictAndAlert(i: nat) returns (r: Result<real>, alerts: seq<string>)
      requires dataset != [] ==> i < |dataset|
      ensures Cycle(r, alerts) == CycleOutcome(dataset, arduinoData, i, model, notifier, alertThreshold)
      ensures r.Err? ==> r.error.PredictionError?
      ensures r.Ok? ==> (alerts != [] <==> r.value >= alertThreshold)
      ensures alerts != [] ==> dataset != [] && model(Combine(dataset[i], arduinoData)).Ok?
    {
      alerts := [];
      var inputData := GetCombinedData(i);
      if inputData.Err? {
        return Err(PredictionError(inputData.error)), alerts;
      }
      var probability := model(inputData.value);
      if probability.Err? {
        return Err(PredictionError(probability.error)), alerts;
      }
      if probability.value >= alertThreshold {
        var message := AlertMessage(Percent(probability.value));
        alerts := [message];
        var sent := notifier(message);
        if sent.Err? {
          return Err(PredictionError(sent.error)), alerts;
        }
      }
      r := Ok(probability.value);
    }

    /** `_save_arduino_data`: appends the reading to the log, then makes it
        the latest reading. A failed write (`writeError`) raises before the
        slot is touched. */
    method SaveArduinoData(data: Row, writeError: Option<Exception>) returns (raised: Option<Exception>)
      requires Valid()
      modifies this
      ensures Valid()
      ensures raised == writeError
      ensures writeError.Some? ==> unchanged(this)
      ensures writeError.None? ==>
        arduinoData == Some(data) && logExists
        && logLines == AppendToLog(old(logExists), old(logLines), data)
      ensures writeError.None? && !old(logExists) ==> logLines == [Header(data.Keys), Record(data)]
    {
      if writeError.Some? {
        return writeError;
      }
      logLines := AppendToLog(logExists, logLines, data);
      logExists := true;
      arduinoData := Some(data);
      raised := None;
    }
  }
}
