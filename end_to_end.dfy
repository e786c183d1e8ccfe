/**
 * The dashboard and the API together: what the API makes of the record the
 * dashboard sends, and what the dashboard's history makes of the API's
 * answer.
 */
module EndToEnd {
  import opened Wrappers
  import opened Fields
  import opened Values
  import opened Features
  import opened Pipeline
  import opened Api
  import Dashboard
  import IdsModel

  const PredictionKey: Key := Other("prediction")
  const ConfidenceKey: Key := Other("confidence")
  const AttackProbabilityKey: Key := Other("attack_probability")
  const NormalProbabilityKey: Key := Other("normal_probability")
  const DetailKey: Key := Other("detail")

  /** The JSON body of a successful prediction, as the dashboard reads it. */
  function ReplyObject(p: Prediction): (o: Object)
    ensures Get(o, IsIntrusionKey) == Bool(p.isIntrusion)
    ensures Get(o, PredictionKey) == Str(p.prediction)
  {
    map[PredictionKey := Str(p.prediction), IsIntrusionKey := Bool(p.isIntrusion),
        ConfidenceKey := Num(p.confidence), AttackProbabilityKey := Num(p.attackProbability),
        NormalProbabilityKey := Num(p.normalProbability)]
  }

  /** The JSON body of an error answer: only its `detail`, rendered by `render`. */
  function ErrorObject(e: HttpError, render: Detail -> Value): (o: Object)
    ensures o.Keys == {DetailKey}
  {
    map[DetailKey := render(e.detail)]
  }

  /** The body of whatever `POST /predict` answered. */
  function ResponseBody(r: Result<Prediction, HttpError>, render: Detail -> Value): Object {
    match r
    case Ok(p) => ReplyObject(p)
    case Err(e) => ErrorObject(e, render)
  }

  /**
   * The flag the dashboard records for an answer is 1 exactly when the API
   * answered with an intrusion; an error answer always counts as normal.
   */
  lemma FlagOfResponse(r: Result<Prediction, HttpError>, render: Detail -> Value)
    ensures IntrusionFlag(ResponseBody(r, render)) == 1 <==> r.Ok? && r.value.isIntrusion
    ensures r.Err? ==> IntrusionFlag(ResponseBody(r, render)) == 0
  {
    if r.Err? {
      assert IsIntrusionKey !in ResponseBody(r, render);
    }
  }

  /** The wire form of the record the dashboard builds from a form. */
  function Sent(form: Object, parse: string -> JsNumber): Object {
    OverTheWire(BuildFullFeatures(form, parse))
  }

  /**
   * The types the schema declares fit what the dashboard sends: the three
   * categorical form fields are exactly the text fields, the numeric form
   * fields are floats, and every constant the dashboard sends for an
   * integer field is a whole number.
   */
  lemma DashboardFitsDeclaredTypes()
    ensures forall f :: TypeOf(f).Text? <==> f in CategoricalFormFields
    ensures forall f :: f in NumericFormFields ==> TypeOf(f).Float?
    ensures forall f :: f !in FormFields ==> FixedValue(f).Num? && FixedValue(f).x.Floor as real == FixedValue(f).x
  {
  }

  /**
   * A form whose numbers read as numbers and whose categorical fields hold
   * text arrives at the server exactly as built: with neither `undefined`
   * nor NaN in it, the wire changes nothing.
   */
  lemma WellFormedRecordArrivesUnchanged(form: Object, parse: string -> JsNumber)
    requires forall f :: f in NumericFormFields ==> ToNumber(Get(form, Known(f)), parse).Num?
    requires forall f :: f in CategoricalFormFields ==> Get(form, Known(f)).Str?
    ensures Sent(form, parse) == BuildFullFeatures(form, parse)
  {
    var r := BuildFullFeatures(form, parse);
    forall f: Field ensures r[Known(f)].Num? || r[Known(f)].Str? {
      if f !in NumericFormFields && f !in CategoricalFormFields {
        assert f !in FormFields;
      }
    }
  }

  /**
   * A validation that follows the declared types accepts every field of
   * such a record and keeps its value.
   */
  lemma WellFormedRecordFieldsAccepted(form: Object, parse: string -> JsNumber, coerce: Coerce)
    requires FollowsDeclaredTypes(coerce)
    requires forall f :: f in NumericFormFields ==> ToNumber(Get(form, Known(f)), parse).Num?
    requires forall f :: f in CategoricalFormFields ==> Get(form, Known(f)).Str?
    ensures var r := BuildFullFeatures(form, parse);
      forall f :: coerce(f, r[Known(f)]) == Some(r[Known(f)])
  {
    var r := BuildFullFeatures(form, parse);
    DashboardFitsDeclaredTypes();
    forall f ensures coerce(f, r[Known(f)]) == Some(r[Known(f)]) {
      if f !in NumericFormFields && f !in CategoricalFormFields {
        assert r[Known(f)] == FixedValue(f);
      }
    }
  }

  /**
   * A form whose numbers read as numbers and whose categorical fields hold
   * text passes a validation that follows the declared types, and the API
   * sees exactly the record the dashboard built.
   */
  lemma WellFormedRecordValidates(form: Object, parse: string -> JsNumber, coerce: Coerce)
    requires FollowsDeclaredTypes(coerce)
    requires forall f :: f in NumericFormFields ==> ToNumber(Get(form, Known(f)), parse).Num?
    requires forall f :: f in CategoricalFormFields ==> Get(form, Known(f)).Str?
    ensures Validate(Sent(form, parse), coerce) == Ok(BuildFullFeatures(form, parse))
  {
    var r := BuildFullFeatures(form, parse);
    WellFormedRecordArrivesUnchanged(form, parse);
    WellFormedRecordFieldsAccepted(form, parse, coerce);
    assert forall f :: !BadField(r, coerce, f);
    var v := Validate(r, coerce).value;
    forall k | k in v ensures k in r && v[k] == r[k] {
      assert k.Known?;
    }
    assert v == r;
  }

  /**
   * A numeric field whose text does not read as a number is sent as `null`,
   * and a schema that refuses `null` for it refuses the whole request with
   * 422, naming the field: the value is not taken as 0.
   */
  lemma UnreadableNumberRejected(form: Object, parse: string -> JsNumber, coerce: Coerce, st: ModelState, f: Field)
    requires Consistent(st)
    requires f in NumericFormFields
    requires ToNumber(Get(form, Known(f)), parse) == NaN
    requires coerce(f, Null).None?
    ensures Sent(form, parse)[Known(f)] == Null
    ensures PredictIntrusion(st, Sent(form, parse), coerce).Err?
    ensures PredictIntrusion(st, Sent(form, parse), coerce).error.status == 422
    ensures f in PredictIntrusion(st, Sent(form, parse), coerce).error.detail.fields
  {
    assert BadField(Sent(form, parse), coerce, f);
  }

  /** The `traffic_data` list of a CSV batch request, as the server reads it. */
  function SentBatch(rows: seq<CsvRow>, parse: string -> JsNumber): (b: seq<Object>)
    ensures |b| == |rows|
    ensures forall j :: 0 <= j < |rows| ==> b[j] == Sent(CsvObject(rows[j]), parse)
  {
    var records := BatchRecords(rows, parse);
    seq(|rows|, j requires 0 <= j < |rows| => OverTheWire(records[j]))
  }

  /**
   * A CSV row without one of the three categorical columns sends no value
   * for it at all (`undefined` is left out of the JSON), and as the field is
   * required the whole batch is refused with 422, naming that row and field.
   */
  lemma MissingColumnRejected(rows: seq<CsvRow>, i: nat, parse: string -> JsNumber, coerce: Coerce, st: ModelState, f: Field)
    requires Consistent(st)
    requires i < |rows| && f in CategoricalFormFields && Known(f) !in rows[i]
    ensures Known(f) !in SentBatch(rows, parse)[i]
    ensures var r := PredictBatch(st, Some(SentBatch(rows, parse)), coerce);
      && r.Err? && r.error.status == 422 && r.error.detail.InvalidItems? && (i, f) in r.error.detail.items
  {
    var sent := SentBatch(rows, parse);
    assert f in RequiredFields;
    assert Known(f) !in sent[i];
    assert BadField(sent[i], coerce, f);
    BadItemRejectsBatch(st, sent, coerce, i, f);
  }

  /**
   * One press of "Predict" against a running service: the model object is
   * asked about the record built from the current form, and the history
   * grows by one entry that is 1 exactly when the model found an intrusion.
   */
  method PredictRoundTrip(app: Dashboard.App, m: IdsModel.IntrusionDetectionModel, store: ArtifactStore,
                          parse: string -> JsNumber, coerce: Coerce, render: Detail -> Value)
    returns (answer: Result<Prediction, HttpError>)
    requires app.Valid() && m.Valid()
    modifies app, m
    ensures app.Valid() && m.Valid() && m.State() == old(m.State())
    ensures answer == PredictIntrusion(old(m.State()), Sent(old(app.form), parse), coerce)
    ensures |app.history| == |old(app.history)| + 1 && app.history[..|old(app.history)|] == old(app.history)
    ensures app.history[|old(app.history)|] == 1 <==> answer.Ok? && answer.value.isIntrusion
  {
    answer := ServePredict(m, store, Sent(app.form, parse), coerce);
    var packet := app.Predict(Some(ResponseBody(answer, render)), parse);
    FlagOfResponse(answer, render);
  }
}
