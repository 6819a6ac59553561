# Flood prediction and alert cycle — a Dafny model

This project models the core of a flood-warning service. The service
predicts flood probability from a static historical dataset combined with
live Arduino sensor readings. When the probability reaches a configured
threshold it sends an SMS alert.

The model covers four parts:

- **The prediction service** (`domain.dfy`, module `Domain`). The class
  `PredictionService` holds the model port, the notification port, the
  alert threshold, the loaded dataset, the latest Arduino reading, and the
  append-only CSV log of readings.
  - `GetCombinedData` takes one dataset row, drops the `FloodProbability`
    label and overlays the reading.
  - `PredictAndAlert` scores that row and calls the notifier when
    `probability >= threshold`. Every failure is wrapped in
    `PredictionError`.
  - `SaveArduinoData` appends to the log and replaces the latest reading.
  - `CycleOutcome` states the whole cycle as a function of its inputs.
    `PredictAndAlert` is proved equal to it, and the lemmas state the
    cycle's properties.
- **The flood model adapter** (`model_adapter.dfy`, module `ModelAdapter`).
  It projects the feature dictionary onto a fixed frame of 24 columns: the
  20 dataset features, then `temperature`, `humidity`, `soil_moisture` and
  `water_level`. The first missing key fails with `KeyError` before the
  estimator is consulted.
- **The e-mail-to-SMS notifier** (`sms_adapter.dfy`, module `SmsAdapter`).
  It covers the 13-entry carrier map and case-insensitive carrier lookup.
  It checks phone numbers against `^\+?[1-9]\d{1,14}$`. It builds the
  gateway address `number@domain`, tests the SMTP response for `"OK"`, and
  has a `send_alert` that returns `False` instead of raising.
- **The Flask handlers and scheduled job** (`flask_adapter.dfy`, module
  `FlaskAdapter`).
  - The status and body of `/predict` for each cycle outcome.
  - The validation of `/arduino-data`, and what it stores in the service.
  - `run_async_job`, which logs a failed cycle instead of propagating it.

`wiring.dfy` (module `Wiring`) composes these parts: the flood model
adapter as the model port, the e-mail notifier as the notification port,
and readings that arrive through `/arduino-data`. This is not the
deployed wiring. `entrypoints/api.py` wires `FloodModelAdapter`,
`TwilioSmsAdapter` and `create_app`. The e-mail adapter is wired by no
entrypoint in these sources. `strings.dfy` holds decimal rendering and substring
search, each with a round-trip or equivalence lemma, and ASCII
lower-casing and the search for the first `@`, which are specified by their
ensures (lower-casing also by the lemma that it keeps lower-case text).
`types.dfy` holds the shared values: rows, results and the exception
classes.

The model port, the notification port and the SMTP exchange are function
values. The random choice of a dataset row is an index argument `i`, with
`0 <= i < |dataset|` whenever the dataset is non-empty. Probabilities and
the threshold are `real`, because only their order matters.

Behaviour the code has, which the model keeps:

- The notifier's boolean answer is discarded. A notifier that raises makes
  the whole cycle fail with `PredictionError`
  (`Domain.NotifierFailureFailsCycle`).
- `/predict` reports `alert_sent` as `probability >= threshold`. It does not
  report whether the alert was delivered.
- `predict_and_alert` raises only `PredictionError`, which is neither a
  `ValueError`, a `ConnectionError` nor a `TimeoutError`. So every failed
  `/predict` is answered 500, and its 400 and 503 branches are never taken
  (`FlaskAdapter.PredictNeverAnswers400Or503`).
- A rejected `/arduino-data` body names the whole list of required fields,
  not only the missing ones.
- The latest reading starts empty at every start-up. It is never reloaded
  from the CSV log.

## Model

| member | source | states |
|---|---|---|
| ModelAdapter.Project | infrastructure/adapters/model_adapter.py:21-46 | Looking up the keys succeeds iff every key is present. On success the list has one entry per key and entry j is the input's value for key j. On failure the error is KeyError for the first missing key, and every earlier key was present. |
| ModelAdapter.ColumnsAlignWithLookups | infrastructure/adapters/model_adapter.py:21-75 | The 24 looked-up keys and the 24 column names agree position by position, and the last four columns are the four sensor fields. |
| ModelAdapter.Frame | infrastructure/adapters/model_adapter.py:48-75 | The frame has one cell per looked-up value, and cell j pairs column name j with value j. |
| ModelAdapter.Predict | infrastructure/adapters/model_adapter.py:18-77 | When one of the 24 keys is missing the result is a KeyError naming a missing key, and the estimator is not consulted. Otherwise the result is the estimator's answer on the 24 cells that pair column name j with the input's value for lookup key j. |
| ModelAdapter.PredictFrame | infrastructure/adapters/model_adapter.py:48-77 | With every key present, the frame given to the estimator has 24 cells. Cell j is named column j and holds the input's value for that name. Cells 20-23 are temperature, humidity, soil_moisture and water_level. |
| ModelAdapter.MissingKeyFailsBeforeEstimator | infrastructure/adapters/model_adapter.py:21-77 | If one of the 24 keys is missing, predict fails with KeyError and gives the same result for any estimator, so the estimator is not consulted. |
| ModelAdapter.ProjectOnlyReadsKeys | infrastructure/adapters/model_adapter.py:21-46 | Two dictionaries that agree on the projected keys give the same projection. |
| ModelAdapter.ExtraKeysIgnored | infrastructure/adapters/model_adapter.py:21-46 | Adding keys outside the 24 columns, such as timestamp or the label, does not change the prediction. |
| Domain.Combine | core/domain/prediction_service.py:56-63 | The result's keys are the row's keys minus FloodProbability, plus the reading's keys when the reading is truthy. Reading keys take the reading's value. Every other key keeps the row's value. |
| Domain.CombineDropsLabel | core/domain/prediction_service.py:57-61 | FloodProbability is in the result iff the reading is truthy and itself carries that key. |
| Domain.CombineWithoutReading | core/domain/prediction_service.py:60 | With no reading, or an empty one, the result is exactly the row minus its label. |
| Domain.Percent | core/domain/prediction_service.py:81 | The rounded percentage is within one half of probability times 100, and a tie goes to the even integer. |
| Domain.AlertMessage | core/domain/prediction_service.py:77-84 | The message starts with the template's head, ends with its tail, and between them holds the decimal digits of the percentage (after a minus sign when it is negative). AlertPercentRoundTrip and AlertMessageShowsPercent state that the percentage can be read back and is shown before "%". |
| Domain.AlertPercentRoundTrip | core/domain/prediction_service.py:77-84 | Reading the percentage back out of the alert template gives the percentage that was formatted in. |
| Domain.AlertMessageShowsPercent | core/domain/prediction_service.py:79-84 | The alert text contains the decimal percentage followed by a percent sign. |
| Domain.CycleOutcome | core/domain/prediction_service.py:31-48 | Every failure of the cycle is a PredictionError. An alert is handed to the notifier only when the dataset is non-empty and the model answered a probability at or above the threshold, and it is then the one alert for that probability's percentage. |
| Domain.NotifiesIffThresholdReached | core/domain/prediction_service.py:37-42 | When scoring succeeds with p, the notifier receives exactly one message, the alert for Percent(p), iff p >= threshold (inclusive). Below the threshold it receives none. When the model raises, the notifier receives nothing. |
| Domain.ReturnsModelProbability | core/domain/prediction_service.py:37-45 | A successful cycle returns the model's probability unchanged. With a notifier that always returns, whatever boolean it answers, the cycle returns the model's result. |
| Domain.NotifierFailureFailsCycle | core/domain/prediction_service.py:40-48 | When the model answers p >= threshold and the notifier raises e on the alert for Percent(p), the cycle fails with PredictionError(e) after that one alert attempt, and the probability is not returned. |
| Domain.FailuresAreWrapped | core/domain/prediction_service.py:31-53 | Every failure is a PredictionError. Its cause is ValueError("Dataset is empty") for an empty dataset, or the model's exception, or the notifier's exception. An empty dataset always fails this way, with no alert sent. |
| Domain.ScenarioAlertAtSeventyPercent | core/domain/prediction_service.py:31-45 | One labelled row, a model answering 0.7, threshold 0.5 and an accepting notifier: the cycle returns 0.7 after one alert whose text contains "70%". |
| Domain.ScenarioBelowThreshold | core/domain/prediction_service.py:40-45 | A model answering 0.3 with threshold 0.5 returns 0.3 and never calls the notifier. |
| Domain.AppendToLog | core/domain/prediction_service.py:68-72 | Appending keeps every existing line in place. It adds a header line naming the reading's columns only when the file did not exist, and always ends with the reading's record. |
| Domain.AppendAddsOneRecord | core/domain/prediction_service.py:68-72 | Each save adds exactly the one reading to the log's records, and adds a header only when the log file did not exist. |
| Domain.PredictionService.constructor | core/domain/prediction_service.py:10-15 | The service keeps the given ports, threshold, dataset and log, and starts with no Arduino reading. |
| Domain.PredictionService.GetCombinedData | core/domain/prediction_service.py:50-63 | Fails with ValueError("Dataset is empty") exactly when the dataset has no rows. Otherwise it returns Combine of the chosen row and the current reading. |
| Domain.PredictionService.PredictAndAlert | core/domain/prediction_service.py:31-48 | The probability or exception returned, and the messages sent, equal CycleOutcome for the service's state. Only PredictionError escapes. On success an alert was sent iff the probability reached the threshold. An alert is only ever sent after the model answered. |
| Domain.PredictionService.SaveArduinoData | core/domain/prediction_service.py:65-75 | After a successful write the current reading is the saved dict and the log gains that record, plus a header if the file was new. A new file holds exactly that header and that record. A failed write raises and changes nothing. |
| SmsAdapter.MatchesPhonePattern | infrastructure/adapters/smtp_sms_adapter.py:44-45 | The greedy match accepts a string iff it is an optional plus sign, then a digit 1-9, then 1 to 14 more digits. An accepted number contains no @. |
| SmsAdapter.NewSmsAdapter | infrastructure/adapters/smtp_sms_adapter.py:26-45 | Construction succeeds iff the lower-cased carrier is a CARRIER_MAP key and str(phone) has the phone shape. An unset carrier fails on lower(). An unknown carrier fails with the unsupported-carrier ValueError, checked before the phone. A bad phone fails with "Invalid phone number format". |
| SmsAdapter.CarrierCaseInsensitive | infrastructure/adapters/smtp_sms_adapter.py:32-38 | Carrier settings that lower-case to the same string configure the same adapter, or fail the same way. |
| SmsAdapter.UpperCaseCarrierAccepted | infrastructure/adapters/smtp_sms_adapter.py:32-38 | A mixed-case carrier name "VeriZon" with a valid number is accepted. |
| SmsAdapter.PhoneExamples | infrastructure/adapters/smtp_sms_adapter.py:44-45 | "+22997000000" and "15" are accepted. "+1" (one digit), a leading zero, 16 digits and an unset number ("None") are rejected. |
| SmsAdapter.GatewayAddress | infrastructure/adapters/smtp_sms_adapter.py:63 | For a known carrier the address is the number, then "@", then the carrier's gateway domain. An unknown carrier raises KeyError. |
| SmsAdapter.GatewayAddressRoundTrip | infrastructure/adapters/smtp_sms_adapter.py:63 | Splitting the address at its first @ gives back the number and the carrier's domain, for any number without an @. |
| SmsAdapter.ComposeSms | infrastructure/adapters/smtp_sms_adapter.py:61-69 | The e-mail goes to the gateway address, with subject "Alerte Inondation", the alert as its body and the configured sender. It fails only for an unknown carrier. |
| SmsAdapter.IsSuccess | infrastructure/adapters/smtp_sms_adapter.py:80-82 | True iff some response part contains "OK", so an empty response is not a success. |
| SmsAdapter.SendAlert | infrastructure/adapters/smtp_sms_adapter.py:47-59 | Returns a boolean and never raises. It is true iff the message was composed, the transport returned, and some part of its response contains "OK". |
| SmsAdapter.ValidatedAdapterAddressesGateway | infrastructure/adapters/smtp_sms_adapter.py:25-67 | For an adapter that passed validation, every alert is addressed to the configured number at the lower-cased carrier's gateway domain. |
| Strings.ParseNatToString | core/domain/prediction_service.py:81 | Parsing the decimal rendering of a natural number gives the number back. |
| Strings.ParseIntToString | core/domain/prediction_service.py:81 | Parsing the decimal rendering of an integer, with its minus sign, gives the integer back. |
| Strings.ToLower | infrastructure/adapters/smtp_sms_adapter.py:32 | Lower-casing keeps the length and maps each character to its ASCII lower-case form. |
| Strings.ToLowerKeepsLowerCase | infrastructure/adapters/smtp_sms_adapter.py:32 | A text without upper-case letters is left unchanged by lower-casing. |
| SmsAdapter.CarriersAreLowerCase | infrastructure/adapters/smtp_sms_adapter.py:8-22 | Every CARRIER_MAP key is already lower case, so lower-casing the configured carrier can select each one. |
| Strings.ContainsIffOccurs | infrastructure/adapters/smtp_sms_adapter.py:82 | The left-to-right scan for a substring succeeds iff the substring occurs at some index. |
| FlaskAdapter.StatusFor | infrastructure/adapters/flask_adapter.py:29-37 | ValueError maps to 400, ConnectionError and TimeoutError map to 503, and every other exception maps to 500. |
| FlaskAdapter.PredictResponse | infrastructure/adapters/flask_adapter.py:20-37 | The status is 200 iff the cycle succeeded, with body {probability, alert_sent = probability >= threshold}. Otherwise the status follows StatusFor and the error text starts with the matching prefix. |
| FlaskAdapter.PredictNeverAnswers400Or503 | infrastructure/adapters/flask_adapter.py:23-37 | For every cycle of the service, /predict answers 200 or 500. |
| FlaskAdapter.AlertSentIgnoresDispatchResult | infrastructure/adapters/flask_adapter.py:24-28 | When the notifier answers False and the probability reached the threshold, the response still reports alert_sent = true. |
| FlaskAdapter.CheckSubmission | infrastructure/adapters/flask_adapter.py:43-58 | A body is rejected with 400 iff it is missing, empty or lacks one of the four required fields. A missing or empty body gets "No JSON data received". A non-empty body that lacks a required field gets the fixed message that lists all four required fields. An accepted body keeps all its keys, gains timestamp = now, and has all four fields. |
| FlaskAdapter.Predict | infrastructure/adapters/flask_adapter.py:20-37 | The /predict response is PredictResponse of the service's cycle, and its status is 200 or 500. |
| FlaskAdapter.HandleArduinoData | infrastructure/adapters/flask_adapter.py:39-65 | A rejected body leaves the service unchanged. An accepted one becomes the current reading, is appended to the log and is echoed with 200. On a first save the log is a header and that one record. A failed log write is answered 500 and leaves the service unchanged. |
| FlaskAdapter.RunAsyncJob | infrastructure/adapters/flask_adapter.py:71-76 | The job returns normally in every case. It logs the cycle's exception exactly when the cycle failed. |
| Wiring.ColdStartCycleFails | infrastructure/adapters/model_adapter.py:42-45 | Before any reading, a complete dataset row without sensor columns makes the flood model fail on "temperature". The cycle then fails with PredictionError(KeyError("temperature")) and sends no alert. |
| Wiring.ReadingReachesEstimator | core/domain/prediction_service.py:59-61 | With a reading carrying the four sensor fields, projection succeeds. The last four values are the reading's sensor values, and each static feature comes from the reading if it has that key, else from the row. |
| Wiring.TimestampDoesNotAffectPrediction | infrastructure/adapters/flask_adapter.py:58 | The timestamp stamped by /arduino-data reaches the combined dict but does not change the prediction. |
| Wiring.EmailNotifierNeverFailsCycle | infrastructure/adapters/smtp_sms_adapter.py:47-59 | With the e-mail notifier, a cycle whose model succeeds returns the model's probability, whatever happens to the SMS. |

## Left out

- Field values of `/arduino-data` bodies: `Value` holds only scalars, but the handler checks only that the four keys are present, so it also accepts and stores JSON arrays or objects as values. No property depends on the kind of value.
- Dataset loading (`_load_dataset`, `pd.read_csv`) and its configuration errors: the dataset is a constructor argument.
- Configuration loading (infrastructure/config.py): the threshold is a `real` argument whose default there is 0.5. A threshold string that `float()` cannot parse is not modelled.
- Random sampling: the row is chosen by an index argument. Nothing about uniformity is stated.
- The pickled estimator, the SMTP exchange (`aiosmtplib.send`) and the Twilio adapter are foreign calls. The first two are opaque function arguments. The Twilio adapter (returns True unless a `TwilioException`) is not part of this model, although `entrypoints/api.py` deploys it.
- Wiring.EmailNotifierNeverFailsCycle: does not cover the deployed Twilio notifier. Its `send_alert` catches only `TwilioException`, so any other exception raised while sending fails the cycle.
- The CSV log is a flag and a sequence of lines. The file format, the column order of the header and partially written files are not modelled.
- Domain.Percent: rounds the exact real `probability * 100` half to even. Python formats the binary double, which can round differently near a tie. For `probability * 100` in [-0.5, 0) Python prints "-0", and the model's integer prints "0".
- NaN and infinite probabilities, and other floating-point effects on `>=`, are not modelled.
- SmsAdapter.MatchesPhonePattern: accepts ASCII digits only and no trailing newline. Python's `\d` also matches other Unicode digits, and `$` also matches before a final newline.
- Strings.ToLower: lower-cases ASCII letters only. `str.lower` also maps non-ASCII letters.
- Exception texts: `str(e)` is not rendered. Error bodies carry the exception itself, and `PredictionError` keeps its cause instead of the text "Prediction and alert failed: ...".
- The SMTP server, port, password and an unset sender address only reach the transport. Any failure there is caught by `send_alert`.
- Flask routing and JSON encoding are not modelled. Request bodies that are JSON but not objects, and `request.json` raising on a wrong content type, are not modelled either.
- Scheduler registration, start and shutdown, async/await and gevent serving are concurrency and wiring. The 900-second period is not modelled.
- Exceptions outside `Exception` (such as `KeyboardInterrupt`), which `except Exception` does not catch, are not modelled.
- Logging and `print` output are left out.
