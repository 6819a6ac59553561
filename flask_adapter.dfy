/** The request handlers and the scheduled job of
    infrastructure/adapters/flask_adapter.py, reduced to their decisions:
    which status and body each outcome produces, and what reaches the
    prediction service. Routing, JSON encoding and the scheduler itself are
    not modelled. */
module FlaskAdapter {
  import opened Types
  import opened Domain

  /** The JSON payloads the handlers return. `ErrorBody(prefix, e)` stands
      for `{'error': prefix + str(e)}`. */
  datatype Body =
    | PredictionBody(probability: real, alertSent: bool)
    | ErrorBody(prefix: string, cause: Exception)
    | MessageBody(error: string)
    | ReceivedBody(data: Row)

  datatype Response = Response(status: int, body: Body)

  /** The `except` clauses of `/predict`, tried in order. */
  function StatusFor(e: Exception): (status: int)
    ensures status == 400 <==> e.ValueError?
    ensures status == 503 <==> e.ConnectionError? || e.TimeoutError?
    ensures status == 500 <==> !(e.ValueError? || e.ConnectionError? || e.TimeoutError?)
  {
    if e.ValueError? then 400
    else if e.ConnectionError? || e.TimeoutError? then 503
    else 500
  }

  function ErrorPrefix(e: Exception): string
  {
    match StatusFor(e)
    case 400 => "Invalid input data: "
    case 503 => "Service unavailable: "
    case _ => "Prediction failed: "
  }

  /** The `/predict` response for an outcome of `predict_and_alert`:
      `alert_sent` is the threshold comparison, not the dispatch result. */
  function PredictResponse(outcome: Result<real>, threshold: real): (resp: Response)
    ensures resp.status == 200 <==> outcome.Ok?
    ensures outcome.Ok? ==> resp.body == PredictionBody(outcome.value, outcome.value >= threshold)
    ensures outcome.Err? ==> resp.status == StatusFor(outcome.error)
                             && resp.body == ErrorBody(ErrorPrefix(outcome.error), outcome.error)
  {
    match outcome
    case Ok(p) => Response(200, PredictionBody(p, p >= threshold))
    case Err(e) => Response(StatusFor(e), ErrorBody(ErrorPrefix(e), e))
  }

  /** The prediction service raises only PredictionError, so a failed
      `/predict` is always answered 500: the 400 and 503 branches are
      never taken for it. */
  lemma PredictNeverAnswers400Or503(dataset: seq<Row>, reading: Option<Row>, i: nat,
                                    model: Row -> Result<real>, notifier: string -> Result<bool>,
                                    threshold: real)
    requires dataset != [] ==> i < |dataset|
    ensures var c := CycleOutcome(dataset, reading, i, model, notifier, threshold);
            var resp := PredictResponse(c.result, threshold);
            resp.status == 200 || resp.status == 500
  {
    FailuresAreWrapped(dataset, reading, i, model, notifier, threshold);
  }

  /** When the notifier answers False, the response still says the alert
      was sent as soon as the probability reached the threshold. */
  lemma AlertSentIgnoresDispatchResult(dataset: seq<Row>, reading: Option<Row>, i: nat,
                                       model: Row -> Result<real>, threshold: real, p: real)
    requires dataset != [] && i < |dataset|
    requires model(Combine(dataset[i], reading)) == Ok(p) && p >= threshold
    ensures var notifier := (m: string) => Ok(false);
            var c := CycleOutcome(dataset, reading, i, model, notifier, threshold);
            PredictResponse(c.result, threshold) == Response(200, PredictionBody(p, true))
  {
  }

  /** The fields `/arduino-data` requires, in the order the source lists them. */
  const RequiredFields: seq<string> := ["temperature", "humidity", "soil_moisture", "water_level"]

  const NoDataMessage := "No JSON data received"

  const MissingFieldsMessage :=
    "Missing fields. Required: ['temperature', 'humidity', 'soil_moisture', 'water_level']"

  const TimestampKey := "timestamp"

  /** The validation decision of `/arduino-data`: reject with a response, or
      store this reading. */
  datatype Submission = Reject(response: Response) | Accept(data: Row)

  /** A missing or empty body and a body lacking a required field are
      rejected with 400; otherwise the body, stamped with `now`, is accepted. */
  function CheckSubmission(body: Option<Row>, now: string): (s: Submission)
    ensures s.Reject? <==> body.None? || body.value == map[]
                           || exists k | k in RequiredFields :: k !in body.value
    ensures s.Reject? ==> s.response.status == 400
    ensures (body.None? || body.value == map[]) ==> s == Reject(Response(400, MessageBody(NoDataMessage)))
    ensures (body.Some? && body.value != map[] && exists k | k in RequiredFields :: k !in body.value)
            ==> s == Reject(Response(400, MessageBody(MissingFieldsMessage)))
    ensures s.Accept? ==>
      && s.data.Keys == body.value.Keys + {TimestampKey}
      && s.data[TimestampKey] == Text(now)
      && (forall k | k in body.value && k != TimestampKey :: s.data[k] == body.value[k])
      && (forall k | k in RequiredFields :: k in s.data)
  {
    if body.None? || body.value == map[] then Reject(Response(400, MessageBody(NoDataMessage)))
    else if exists k | k in RequiredFields :: k !in body.value then
      Reject(Response(400, MessageBody(MissingFieldsMessage)))
    else Accept(body.value[TimestampKey := Text(now)])
  }

  /** `predict`: runs one cycle and answers with its response. */
  method Predict(svc: PredictionService, i: nat) returns (resp: Response)
    requires svc.dataset != [] ==> i < |svc.dataset|
    ensures resp == PredictResponse(
      CycleOutcome(svc.dataset, svc.arduinoData, i, svc.model, svc.notifier, svc.alertThreshold).result,
      svc.alertThreshold)
    ensures resp.status == 200 || resp.status == 500
  {
    var probability, _ := svc.PredictAndAlert(i);
    resp := PredictResponse(probability, svc.alertThreshold);
  }

  /** `arduino_data`: validates the body, stamps it and hands it to the
      service. A rejected request leaves the service untouched; a failed
      log write is answered 500 and leaves it untouched too. */
  method HandleArduinoData(svc: PredictionService, body: Option<Row>, now: string,
                           writeError: Option<Exception>) returns (resp: Response)
    requires svc.Valid()
    modifies svc
    ensures svc.Valid()
    ensures CheckSubmission(body, now).Reject? ==>
      resp == CheckSubmission(body, now).response && unchanged(svc)
    ensures CheckSubmission(body, now).Accept? && writeError.Some? ==>
      resp == Response(500, ErrorBody("", writeError.value)) && unchanged(svc)
    ensures CheckSubmission(body, now).Accept? && writeError.None? ==>
      var data := CheckSubmission(body, now).data;
      && resp == Response(200, ReceivedBody(data))
      && svc.arduinoData == Some(data)
      && svc.logExists
      && svc.logLines == AppendToLog(old(svc.logExists), old(svc.logLines), data)
    ensures CheckSubmission(body, now).Accept? && writeError.None? && !old(svc.logExists) ==>
      var data := CheckSubmission(body, now).data;
      svc.logLines == [Header(data.Keys), Record(data)]
  {
    match CheckSubmission(body, now)
    case Reject(r) =>
      resp := r;
    case Accept(data) =>
      var raised := svc.SaveArduinoData(data, writeError);
      if raised.Some? {
        resp := Response(500, ErrorBody("", raised.value));
      } else {
        resp := Response(200, ReceivedBody(data));
      }
  }

  /** `run_async_job`: runs one cycle and logs its failure instead of
      letting it escape; returns what was logged. */
  method RunAsyncJob(svc: PredictionService, i: nat) returns (logged: Option<Exception>)
    requires svc.dataset != [] ==> i < |svc.dataset|
    ensures var c := CycleOutcome(svc.dataset, svc.arduinoData, i, svc.model, svc.notifier, svc.alertThreshold);
            (logged.Some? <==> c.result.Err?) && (logged.Some? ==> logged.value == c.result.error)
  {
    var probability, _ := svc.PredictAndAlert(i);
    if probability.Err? {
      logged := Some(probability.error);
    } else {
      logged := None;
    }
  }
}
