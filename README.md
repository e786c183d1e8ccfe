# Network intrusion detection: dashboard, API and model object

This project models an ML-based network intrusion detection system in Dafny. It has three parts, and the model proves properties of each:

- **The dashboard** (`frontend/src/App.js`). A React page holds a six-field form and expands it into the 41-feature record of the KDD/NSL-KDD connection schema. It sends the record to `POST /predict`, or sends a whole CSV file to `POST /predict/batch`. It keeps a 0/1 trend history of the replies and maintains a live table fed by a WebSocket.
- **The HTTP API** (`backend/main.py`). It validates each request against the 41-field `NetworkTraffic` schema, where 15 fields default to 0 and 26 are required. It asks the model object for a prediction and adds the batch statistics. It turns exceptions into status codes, and it serves the model information and two status endpoints.
- **The model object** (`backend/model.py`, `IntrusionDetectionModel`). It loads four artifacts: the classifier, the scaler, the label encoders and the feature names. To prepare a record, it label-encodes `protocol_type`, `service` and `flag`, falling back to the encoder's first class for an unknown value. It then adds every missing feature as 0, orders the row by the feature names and scales it. The classifier's answer becomes `Attack`/`Normal` with its probabilities in per cent.

The modules follow the program's structure:

| file | module | what it holds |
|---|---|---|
| `values.dfy` | `Wrappers`, `Fields`, `Values` | `Option`/`Result`; the 41 features as numbered fields in schema order; JS/JSON values, property access, truthiness, `Number(...)`, what `JSON.stringify` sends |
| `features.dfy` | `Features` | the dashboard's pure logic: `buildFullFeatures`, presets, form edits, history, chart labels, live buffer, CSV rows, live status and buttons |
| `dashboard.dfy` | `Dashboard` | the page as a class: state hooks are fields, each handler is a method |
| `pipeline.dfy` | `Pipeline` | what the model object computes, as functions of its state |
| `ids_model.dfy` | `IdsModel` | the model object as a class whose methods are proved against `Pipeline` |
| `api.dfy` | `Api` | schema validation, the endpoints and their status codes |
| `end_to_end.dfy` | `EndToEnd` | the dashboard's record through the API, and the API's answer back into the history |

Three behaviours that are easy to get wrong are modelled as the code has them:

- **Caught 503s.** The prediction endpoints raise their own 503 ("Model not loaded") inside the `try` whose `except Exception` turns every exception into a 500. So they never answer 503. `GET /model/info` raises its 503 outside any `try`, and that one does reach the client.
- **No client-side fallbacks.** The dashboard has no response normaliser and no defaulting of numbers. A form field that `Number` cannot read is sent as `null` and refused by the schema; it is not sent as 0. An error body such as `{"detail": ...}` is stored as the result and adds a 0 to the history. A request or JSON parse that throws leaves the state unchanged.
- **No live-mode guard.** `startLiveStream` has no guard. Each press opens a new socket and makes it the current one. `stopLiveStream` closes the current socket but does not clear the reference. The start button is disabled only while the page is connected, so it can be pressed again while a socket is still connecting. The earlier socket is then no longer the current one: its `onmessage` still pushes packets into the live table and the history, and `stopLiveStream` does not close it (App.js lines 140-155 and 174-177).

## Model

| member | source | states |
|---|---|---|
| Fields.NamesDistinct | backend/main.py:27-67 | the 41 schema field names are pairwise distinct |
| Fields.KeyNamesDistinct | backend/main.py:27-67 | a key and its JSON name correspond one to one, so no record can hold a feature twice (once as a feature and once under its name as another key) |
| Fields.AllFieldsCount | backend/main.py:27-67 | there are exactly 41 features |
| Values.Get | frontend/src/App.js:59-62 | a property a record lacks reads as `undefined` |
| Values.ToNumber | frontend/src/App.js:59-64 | `Number(...)` keeps a number, reads a string through the parser, and turns `undefined` (or NaN) into NaN |
| Values.OverTheWire | frontend/src/App.js:108 | `JSON.stringify` drops the `undefined` properties and sends NaN as `null`; every other property arrives unchanged |
| Features.BuildFullFeatures | frontend/src/App.js:58-100 | the record has the 41 features as keys and nothing else. Duration and the byte counts go through `Number`, the three categorical fields are copied as they are, and the other 35 are constants |
| Features.RecordHas41Fields | frontend/src/App.js:58-100 | the record has exactly 41 fields whatever the form holds |
| Features.RecordConstants | frontend/src/App.js:65-99 | the client always sends `logged_in` 1, `count` and `dst_host_count` 5, `same_srv_rate` 1.0, `land` and `serror_rate` 0 |
| Features.BuildFullFeaturesReadsOnlyFormFields | frontend/src/App.js:58-64 | two inputs that agree on the six form fields give the same record; any other key is ignored |
| Features.NormalExample | frontend/src/App.js:32-41 | the normal preset is exactly the six form fields: duration 0, tcp/http/SF, 181 and 5450 bytes |
| Features.AttackExample | frontend/src/App.js:43-52 | the attack preset is exactly the six form fields: duration 0, icmp/ecr_i, flag REJ, 0 source and 0 destination bytes |
| Features.EditField | frontend/src/App.js:54-56 | an edit sets the named input to its text and keeps every other field |
| Features.EditChangesOneFeature | frontend/src/App.js:54-64 | editing a form field changes exactly that feature of the record: to the parsed number for a numeric field, to the text for a categorical one |
| Features.EditOfOtherKeyKeepsRecord | frontend/src/App.js:54-64 | editing a key that is no form field leaves the record unchanged |
| Features.IntrusionFlag | frontend/src/App.js:113 | a reply contributes 1 exactly when its `is_intrusion` is truthy |
| Features.RecordFlag | frontend/src/App.js:148 | recording a reply appends its flag and keeps the history before it |
| Features.RecordFlagsAppends | frontend/src/App.js:148 | after n replies the history has grown by n entries; old entries are untouched and the new ones are the replies' flags in order |
| Features.StaleHistoryDropsLiveFlags | frontend/src/App.js:113 | with the history captured before the request, a live flag recorded meanwhile is lost; the result differs from the functional update |
| Features.StaleHistoryExample | frontend/src/App.js:113 | concretely: a live attack arrives while a normal reply is pending, and the result is [0] instead of [1, 0] |
| Features.PredictHistoryAgreesWhenAlone | frontend/src/App.js:113 | with nothing recorded in between, the as-written and the functional update agree |
| Features.ChartLabels | frontend/src/App.js:158 | one label per history entry, numbered from 1 |
| Features.ChartLabelsExtend | frontend/src/App.js:158 | a new history entry adds the next label and keeps the others |
| Features.PushLive | frontend/src/App.js:147 | the new packet goes first, then at most 49 earlier ones in order; the table never exceeds 50 |
| Features.LiveFeedKeepsLatest | frontend/src/App.js:147 | after any number of packets the table holds the latest min(n, 50), newest first |
| Features.CsvObject | frontend/src/App.js:120-124 | a parsed CSV row is an object of strings with the row's columns |
| Features.BatchRecords | frontend/src/App.js:124 | one full record per CSV row, in order, each built by `buildFullFeatures` |
| Features.BatchRecordsAppend | frontend/src/App.js:124 | splitting a file splits its batch the same way |
| Features.NextStatus | frontend/src/App.js:140-155 | `onopen` connects; `onclose` and stop disconnect; pressing start leaves the status alone |
| Features.RunStatusFollowsLastEvent | frontend/src/App.js:140-155 | the page is connected exactly when the last event other than a start was an open, or there was none and it was already connected |
| Features.ControlsFor | frontend/src/App.js:174-177 | start is enabled exactly when disconnected and stop exactly when connected, so exactly one of them is enabled |
| Dashboard.App.constructor | frontend/src/App.js:16-30 | the initial form, no result, empty history and live table, disconnected, no socket |
| Dashboard.App.Labels | frontend/src/App.js:158 | the chart labels of the current history |
| Dashboard.App.Controls | frontend/src/App.js:173-178 | exactly one live button is enabled, and stop only while connected |
| Dashboard.App.SetExampleNormal | frontend/src/App.js:32-41 | the form becomes the normal preset and nothing else changes |
| Dashboard.App.SetExampleAttack | frontend/src/App.js:43-52 | the form becomes the attack preset and nothing else changes |
| Dashboard.App.HandleChange | frontend/src/App.js:54-56 | the form gets the edit and nothing else changes |
| Dashboard.App.Predict | frontend/src/App.js:102-114 | the packet is the record of the current form. A parsed reply becomes the result and its flag is appended to the history. A failed request changes nothing |
| Dashboard.App.HandleCsv | frontend/src/App.js:116-136 | no file sends nothing. Otherwise the batch sent is the rows' records, and the reply, when parsed, is stored as the batch result |
| Dashboard.App.StartLiveStream | frontend/src/App.js:140-144 | a new socket becomes the current one, with no guard against an open one; the status is unchanged |
| Dashboard.App.OnOpen | frontend/src/App.js:142 | the page shows connected |
| Dashboard.App.OnClose | frontend/src/App.js:143 | the page shows disconnected |
| Dashboard.App.OnMessage | frontend/src/App.js:145-149 | a parsed packet goes to the front of the live table (50 at most) and its flag to the end of the history |
| Dashboard.App.StopLiveStream | frontend/src/App.js:152-155 | the current socket, if any, is closed but stays current; the page shows disconnected |
| Dashboard.LiveSession | frontend/src/App.js:140-158 | start, open, an attack and then a normal packet, stop: the table is [normal, attack], the history [1, 0] and the labels [1, 2] |
| Pipeline.LoadSpec | backend/model.py:20-42 | the object counts as loaded exactly when all four files load, and then holds all four. A missing file changes nothing. An unreadable one raises and keeps the flag as it was |
| Pipeline.KnownOrFirst | backend/model.py:59 | a known class is kept and an unknown value becomes the first class; there is none only when the encoder has no classes |
| Pipeline.EncodeColumn | backend/model.py:56-60 | a column is encoded only if both the row and the encoders have it; it then holds the code of its (fallback) class |
| Pipeline.EncodeColumns | backend/model.py:54-60 | encoding keeps the row's keys and every other column; a failure names one of the encoded columns |
| Pipeline.EncodeColumnsIgnoresOtherKeys | backend/model.py:54-60 | a column that is not encoded does not change how the others are encoded, and keeps its value |
| Pipeline.Align | backend/model.py:62-67 | one column per feature name, in that order: the row's value, or 0 where the row has none |
| Pipeline.AlignDropsExtras | backend/model.py:67 | a key that is no feature name never reaches the scaler |
| Pipeline.AlignReadsOnlyNames | backend/model.py:62-67 | rows that agree on the feature names align the same |
| Pipeline.Preprocess | backend/model.py:44-72 | an unloaded object raises. Otherwise the result is the scaled, aligned, encoded row; an encoding failure is an unknown-class failure |
| Pipeline.PreprocessIgnoresExtraKeys | backend/model.py:50-70 | input keys that are neither features nor categorical make no difference |
| Pipeline.UnknownCategoryActsAsFirstClass | backend/model.py:59 | an unknown protocol, service or flag is prepared exactly as the encoder's first class |
| Pipeline.EncodeFallbackAgrees | backend/model.py:55-60 | rows differing only in a column whose values fall back to the same class encode the same |
| Pipeline.PyIndex | backend/model.py:99-101 | NumPy indexing: negative indices count from the end, and beyond either end it raises |
| Pipeline.Shape | backend/model.py:92-102 | "Attack" and an intrusion exactly when the label is 1. The confidence is the predicted class's probability and the attack and normal probabilities are classes 1 and 0, all times 100. A bad index raises |
| Pipeline.PredictLoaded | backend/model.py:88-104 | a loaded prediction is the shaped classifier answer on the prepared row; its label agrees with its intrusion flag |
| Pipeline.PredictSpec | backend/model.py:85-104 | an unloaded object loads first and a load failure is raised; otherwise it predicts with the state it ends in |
| Pipeline.PredictAll | backend/model.py:120-125 | the batch succeeds exactly when every record does, with one result per record in order; otherwise it fails with the first failure |
| Pipeline.PredictAllSnoc | backend/model.py:120-125 | one more record either keeps an earlier failure, fails with its own, or appends its result |
| Pipeline.PredictAllPrefixErr | backend/model.py:120-125 | a failure in a prefix is the failure of the whole batch |
| Pipeline.PredictBatchSpec | backend/model.py:117-125 | the batch loads first if needed, then predicts every record with the loaded state |
| Pipeline.BatchIsPointwise | backend/model.py:117-125 | each record of a successful batch gets exactly the answer a single prediction gives it |
| IdsModel.IntrusionDetectionModel.constructor | backend/model.py:13-18 | nothing is loaded |
| IdsModel.IntrusionDetectionModel.LoadModel | backend/model.py:20-42 | the fields and the failure are those `LoadSpec` gives; a loaded object holds all four artifacts |
| IdsModel.IntrusionDetectionModel.PreprocessInput | backend/model.py:44-72 | the two loops and the column selection compute `Preprocess` of the current state |
| IdsModel.IntrusionDetectionModel.Predict | backend/model.py:74-104 | the new state and the answer are those `PredictSpec` gives |
| IdsModel.IntrusionDetectionModel.PredictBatch | backend/model.py:106-125 | the new state and the answer are those `PredictBatchSpec` gives |
| IdsModel.IntrusionDetectionModel.PredictEach | backend/model.py:120-125 | the loop leaves a loaded object unchanged and computes `PredictAll` |
| IdsModel.Lifecycle | backend/model.py:13-72 | a fresh object refuses to preprocess; loading then succeeds exactly when all four files load, and then the same object prepares a record exactly as `Preprocess` prescribes for the loaded artifacts |
| Api.DefaultedCount | backend/main.py:33-48 | fifteen fields default to 0 |
| Api.RequiredCount | backend/main.py:27-67 | twenty-six fields are required |
| Api.SchemaPartition | backend/main.py:27-67 | every feature is either required or defaulted, never both; `logged_in` and `count` are required |
| Api.StrictCoerce | backend/main.py:27-67 | the strict reading of the declared types: text only for the three `str` fields, any number for a `float` field, a whole number for an `int` field, each kept unchanged; `null`, booleans and every other value are refused |
| Api.StrictCoerceFollowsDeclaredTypes | backend/main.py:27-67 | the strict reading meets the declared-types assumption the end-to-end lemmas make, so that assumption is satisfiable |
| Api.BadFields | backend/main.py:25-67 | the fields that make a request invalid are those present but rejected, or required and absent |
| Api.Dumped | backend/main.py:183 | a valid field dumps as its converted value, or as 0 when it is optional and absent |
| Api.Validate | backend/main.py:25-67 | a request is refused exactly when some field is bad, naming every bad field. Otherwise all 41 fields are dumped, each present one converted and each absent optional one as 0 |
| Api.MissingRequiredFieldRejected | backend/main.py:27-67 | leaving out a required field is refused, naming it |
| Api.OptionalFieldsMayBeOmitted | backend/main.py:33-48 | a request with every required field and acceptable values validates |
| Api.ValidateIgnoresOtherKeys | backend/main.py:25-67 | keys that are not features make no difference to validation |
| Api.Internal | backend/main.py:190-191 | any exception inside the endpoint's `try`, even its own 503, becomes a 500 carrying its text |
| Api.PredictIntrusion | backend/main.py:164-191 | 422 on a bad request; 500 (from the caught 503) when not loaded; otherwise the model's answer, or 500 with its failure |
| Api.PredictIntrusionStatuses | backend/main.py:175-191 | predict only ever fails with 422 or 500, and for a request that validates, an unloaded model gives 500 wrapping the 503 (a request that does not validate gets 422 first, loaded or not) |
| Api.CountIntrusions | backend/main.py:218 | the count is at most the total, 0 exactly when no result is an intrusion and the total exactly when all are |
| Api.CountIntrusionsAppend | backend/main.py:218 | intrusion counts add up over the parts of a batch |
| Api.CountLabel | backend/main.py:218-219 | a label count never exceeds the number of results |
| Api.CountsMatchLabels | backend/main.py:218-219 | for well-formed results the intrusion count is the number of "Attack" labels and the normal count the number of "Normal" labels |
| Api.Summarize | backend/main.py:217-226 | the total is the number of results and the intrusions are counted. The normal count is the rest; both lie between 0 and the total and add up to it |
| Api.ValidateAll | backend/main.py:124-126 | a batch validates exactly when every record does; otherwise every bad (record, field) pair is named |
| Api.BadItemRejectsBatch | backend/main.py:124-126 | one invalid record refuses the whole batch with 422 naming that record and field |
| Api.PredictBatch | backend/main.py:193-229 | 422 on a bad batch; 500 (from the caught 503) when not loaded; otherwise the summary of the model's batch, or 500 with its failure |
| Api.BatchAgreesWithSingle | backend/main.py:212-226 | a successful batch has one result per record, each the single-record answer, and its counts agree with the labels |
| Api.GetModelInfo | backend/main.py:231-245 | 503 when not loaded; otherwise loaded, the number of feature names, classes Normal and Attack |
| Api.Root | backend/main.py:147-154 | running, and whether the model has loaded |
| Api.Health | backend/main.py:156-162 | healthy, and whether the model has loaded |
| Api.StatusAgreesWithInfo | backend/main.py:147-245 | the information endpoint answers exactly when the status endpoints report a loaded model. Prediction is then refused only for bad input or a model failure; before the model loads, a request that validates always gets 500 |
| Api.Startup | backend/main.py:136-144 | the hook tries to load and swallows a failure; the model is loaded afterwards exactly when it was or all four files load |
| Api.ServePredict | backend/main.py:175-188 | answering a single prediction gives `PredictIntrusion` of the object's state and leaves a loaded object unchanged |
| EndToEnd.ReplyObject | backend/main.py:116-122 | the JSON reply carries the prediction and the intrusion flag the dashboard reads |
| EndToEnd.ErrorObject | backend/main.py:191 | an error answer carries only its `detail` |
| EndToEnd.FlagOfResponse | frontend/src/App.js:111-113 | the flag the dashboard records is 1 exactly when the API found an intrusion; an error answer records 0 |
| EndToEnd.DashboardFitsDeclaredTypes | backend/main.py:27-67 | the dashboard's categorical fields are exactly the schema's text fields, its numeric fields are floats, and every constant it sends for an `int` field is a whole number |
| EndToEnd.WellFormedRecordArrivesUnchanged | frontend/src/App.js:103-108 | a record with neither `undefined` nor NaN reaches the server unchanged |
| EndToEnd.WellFormedRecordFieldsAccepted | backend/main.py:27-67 | a validation that follows the declared types accepts every field of such a record unchanged |
| EndToEnd.WellFormedRecordValidates | frontend/src/App.js:103-108 | with a validation that follows the declared types, a form whose numbers parse and whose categories are text validates, and the API sees exactly the record that was built |
| EndToEnd.UnreadableNumberRejected | frontend/src/App.js:59-64 | an unreadable number is sent as `null` and refused with 422 naming the field, not taken as 0 |
| EndToEnd.SentBatch | frontend/src/App.js:124-129 | the batch the server reads has one record per CSV row, each the row's full record as it crossed the wire |
| EndToEnd.MissingColumnRejected | frontend/src/App.js:124-129 | a CSV row lacking a categorical column sends no value for it, and `POST /predict/batch` refuses the whole batch with 422 naming that row and field |
| EndToEnd.PredictRoundTrip | frontend/src/App.js:102-114 | one press of Predict asks the model about the current form's record. The history grows by one entry, which is 1 exactly when the answer is an intrusion |

## Left out

- Floating point: probabilities, rates and scaled values are exact reals, and percentages are multiplied by 100 exactly. `toFixed(2)` and other rendering are not modelled.
- JavaScript `Number` on a string is an abstract `parse` that gives a finite number or NaN. Its grammar (whitespace, hex, `""` reading as 0) is not modelled, and neither is Infinity: `Number("1e999")` is Infinity, which `JSON.stringify` also sends as `null`.
- Pydantic's type coercion is an abstract `Coerce` that converts a value or rejects it. Only the presence and default rules of the schema are exact. Where a lemma needs more, it assumes `FollowsDeclaredTypes`: text fields keep text, float fields keep numbers, int fields keep whole numbers, and `null` is refused. Pydantic's default (lax) mode accepts more than that, such as numeric strings; `StrictCoerce` is only one coercion that meets the assumption. The wording of the 422 detail is a set of fields, not pydantic's error list.
- The scaler, the label encoders' `transform`, the classifier and `joblib.load` are foreign code. They are uninterpreted functions carried by the artifacts, and the existence and loadability of the files is a parameter (`ArtifactStore`).
- Interleaving: each dashboard handler runs to completion, with the awaited reply given as a parameter. Where a real reply arrives after other events, only the history update is examined (see "## Findings").
- Rendering: a stored error body such as `{"detail": ...}` has no `confidence` or `results`. The next render then throws at `result.confidence.toFixed` (App.js line 223) or `batchResults.results.map` (line 245), and a live packet without `confidence` throws at line 195. So an unloaded model, answered with a 500, takes the page down. The model stores such bodies as the code does but does not model the render.
- Network transport, `fetch`, the WebSocket connection itself, React rendering and the CSV parser's cell splitting. A chosen file arrives as parsed rows, and a failed request or parse is `None`.
- The exact text of exception messages. A detail is a datatype naming the exception, not its string.
- `print` output, the CORS middleware, the uvicorn runner and FastAPI's response-model validation of the replies.
- IdsModel.IntrusionDetectionModel.PredictEach: this method is the loop of `predict_batch` only. It is split out of `PredictBatch` so that each proof stays small.
- The `/live` WebSocket producer the dashboard connects to is not part of `backend/main.py`, so it is not part of this model. Live packets are taken as given.
- `backend/train_model.py` (training the artifacts) is not part of this model.

## Findings

| source | as written | input that shows it | evidently intended | confidence | as-written member | corrected member |
|---|---|---|---|---|---|---|
| frontend/src/App.js:113 | `setHistory([...history, flag])` appends to the `history` the `predict` closure captured before its request went out | A live attack packet is recorded while a `/predict` request is in flight, starting from an empty history, and the reply is normal. The history ends as [0] and the live entry is lost | Append to the current history, as the live handler does at line 148 (`setHistory(prev => [...prev, flag])`), giving [1, 0] | not executed | Features.StaleHistoryDropsLiveFlags | Features.RecordFlag |
