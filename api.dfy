/**
 * The HTTP API (backend/main.py): request validation against the
 * network-traffic schema, the prediction endpoints with their batch
 * statistics and their mapping of exceptions to status codes, the model
 * information endpoint and the two status endpoints. Each endpoint is a
 * function of the model object's state at the time of the request.
 */
module Api {
  import opened Wrappers
  import opened Fields
  import opened Values
  import opened Pipeline
  import IdsModel

  // ---------------------------------------------------------------- the request schema

  /**
   * The fields the schema fills with 0 when a request leaves them out: from
   * `land` to `num_failed_logins` and from `num_compromised` to
   * `is_guest_login`.
   */
  predicate Optional(f: Field) {
    Land <= f <= NumFailedLogins || NumCompromised <= f <= IsGuestLogin
  }

  const DefaultedFields: set<Field> := set f | f in AllFields && Optional(f)

  /** The fields every request must carry. */
  const RequiredFields: set<Field> := set f | f in AllFields && !Optional(f)

  /** Fifteen fields are optional. */
  lemma DefaultedCount()
    ensures |DefaultedFields| == 15
  {
    var d1, d2 := FieldRange(Land, NumFailedLogins + 1), FieldRange(NumCompromised, IsGuestLogin + 1);
    assert DefaultedFields == d1 + d2;
    DisjointUnionSize(d1, d2);
  }

  /** The other 26 are required. */
  lemma RequiredCount()
    ensures |RequiredFields| == 26
  {
    DefaultedCount();
    AllFieldsCount();
    assert RequiredFields == AllFields - DefaultedFields;
    assert AllFields == RequiredFields + DefaultedFields;
    DisjointUnionSize(RequiredFields, DefaultedFields);
  }

  /**
   * Fifteen fields are optional, the other 26, `logged_in` and `count`
   * among them, are required, and every feature is exactly one of the two.
   */
  lemma SchemaPartition()
    ensures DefaultedFields !! RequiredFields
    ensures DefaultedFields + RequiredFields == AllFields
    ensures |DefaultedFields| == 15 && |RequiredFields| == 26
    ensures LoggedIn in RequiredFields && Count in RequiredFields && Urgent in DefaultedFields
  {
    DefaultedCount();
    RequiredCount();
  }

  /**
   * How the schema reads one field's JSON value: `None` where it rejects
   * the value, otherwise the value as the field's type holds it. The
   * conversions themselves belong to the validation library.
   */
  type Coerce = (Field, Value) -> Option<Value>

  /** The declared type of a schema field. */
  datatype FieldType = Text | Float | Integer

  /**
   * The types the schema declares: text for the protocol, service and flag;
   * integers from `land` to `srv_count` and for the two destination host
   * counts; floats for the rest.
   */
  function TypeOf(f: Field): FieldType {
    if f == ProtocolType || f == Service || f == Flag then Text
    else if Land <= f <= SrvCount || f == DstHostCount || f == DstHostSrvCount then Integer
    else Float
  }

  /**
   * A coercion that keeps the values each declared type accepts: any text
   * for a text field, any number for a float field, a whole number for an
   * integer field. It refuses `null` for every field.
   */
  ghost predicate FollowsDeclaredTypes(coerce: Coerce) {
    && (forall f, s :: TypeOf(f).Text? ==> coerce(f, Str(s)) == Some(Str(s)))
    && (forall f, x :: TypeOf(f).Float? ==> coerce(f, Num(x)) == Some(Num(x)))
    && (forall f, x: real :: TypeOf(f).Integer? && x.Floor as real == x ==> coerce(f, Num(x)) == Some(Num(x)))
    && (forall f :: coerce(f, Null).None?)
  }

  /**
   * One such coercion: it accepts exactly the values of the declared type,
   * unchanged, and nothing else.
   */
  function StrictCoerce(f: Field, v: Value): (r: Option<Value>)
    ensures r.Some? ==> r.value == v
    ensures v.Str? ==> (r.Some? <==> TypeOf(f).Text?)
    ensures v.Num? ==> (r.Some? <==> TypeOf(f).Float? || (TypeOf(f).Integer? && v.x.Floor as real == v.x))
    ensures !v.Str? && !v.Num? ==> r.None?
  {
    match TypeOf(f)
    case Text => if v.Str? then Some(v) else None
    case Float => if v.Num? then Some(v) else None
    case Integer => if v.Num? && v.x.Floor as real == v.x then Some(v) else None
  }

  /** The predicate can be met: the strict coercion follows the declared types. */
  lemma StrictCoerceFollowsDeclaredTypes()
    ensures FollowsDeclaredTypes(StrictCoerce)
  {
  }

  /** A field makes a request invalid: present but rejected, or required and absent. */
  predicate BadField(body: Object, coerce: Coerce, f: Field) {
    if Known(f) in body then coerce(f, body[Known(f)]).None? else !Optional(f)
  }

  /** The fields that make a request invalid. */
  function BadFields(body: Object, coerce: Coerce): (bad: set<Field>)
    ensures forall f :: f in bad <==> BadField(body, coerce, f)
  {
    set f | f in AllFields && BadField(body, coerce, f)
  }

  /** A field of the dumped record of a valid request: the converted value, or the default 0. */
  function Dumped(body: Object, coerce: Coerce, f: Field): (v: Value)
    requires !BadField(body, coerce, f)
    ensures Known(f) in body ==> coerce(f, body[Known(f)]) == Some(v)
    ensures Known(f) !in body ==> Optional(f) && v == Num(0.0)
  {
    if Known(f) in body then coerce(f, body[Known(f)]).value else Num(0.0)
  }

  /**
   * Validation and `model_dump`: either every field that fails (the 422
   * detail), or the dumped record, which has all 41 fields, the converted
   * value of each one the request carries and 0 for each optional one it
   * leaves out. Keys that are not fields are ignored.
   */
  function Validate(body: Object, coerce: Coerce): (r: Result<Object, set<Field>>)
    ensures r.Err? <==> exists f :: BadField(body, coerce, f)
    ensures r.Err? ==> r.error != {} && forall f :: f in r.error <==> BadField(body, coerce, f)
    ensures r.Ok? ==> forall k :: k in r.value <==> k.Known?
    ensures r.Ok? ==> forall f :: Known(f) in body ==> coerce(f, body[Known(f)]) == Some(r.value[Known(f)])
    ensures r.Ok? ==> forall f :: Known(f) !in body ==> Optional(f) && r.value[Known(f)] == Num(0.0)
  {
    var bad := BadFields(body, coerce);
    if bad != {} then Err(bad)
    else
      assert forall f :: !BadField(body, coerce, f) by {
        forall f ensures !BadField(body, coerce, f) {
          assert f in AllFields;
        }
      }
      var dump := map f | f in AllFields :: Known(f) := Dumped(body, coerce, f);
      assert forall f :: Known(f) !in body ==> Optional(f) && dump[Known(f)] == Num(0.0) by {
        forall f | Known(f) !in body ensures Optional(f) && dump[Known(f)] == Num(0.0) {
          assert f in AllFields && !BadField(body, coerce, f);
        }
      }
      Ok(dump)
  }

  /** A request that leaves out a required field is refused, naming that field. */
  lemma MissingRequiredFieldRejected(body: Object, coerce: Coerce, f: Field)
    requires f in RequiredFields && Known(f) !in body
    ensures Validate(body, coerce).Err? && f in Validate(body, coerce).error
  {
    assert BadField(body, coerce, f);
  }

  /** Leaving out only optional fields does not make a request invalid. */
  lemma OptionalFieldsMayBeOmitted(body: Object, coerce: Coerce)
    requires forall f :: f in RequiredFields ==> Known(f) in body
    requires forall f :: Known(f) in body ==> coerce(f, body[Known(f)]).Some?
    ensures Validate(body, coerce).Ok?
  {
    forall f ensures !BadField(body, coerce, f) {
      assert f in AllFields;
    }
  }

  /** Keys that name no feature make no difference to validation. */
  lemma ValidateIgnoresOtherKeys(body: Object, coerce: Coerce, name: OtherName, v: Value)
    ensures Validate(body[Other(name) := v], coerce) == Validate(body, coerce)
  {
    var body' := body[Other(name) := v];
    assert forall f :: BadField(body', coerce, f) == BadField(body, coerce, f);
    assert BadFields(body', coerce) == BadFields(body, coerce);
    var r, r' := Validate(body, coerce), Validate(body', coerce);
    if r.Ok? {
      assert r'.value == r.value by {
        forall k | k in r.value ensures k in r'.value && r'.value[k] == r.value[k] {
          assert k.Known?;
        }
      }
    }
  }

  // ---------------------------------------------------------------- responses

  /** The `detail` of an error response. */
  datatype Detail =
    | InvalidFields(fields: set<Field>)          // 422 for one record
    | InvalidItems(items: set<(int, Field)>)     // 422 for a batch: record index and field
    | MissingTrafficData                         // 422: the batch body has no list
    | ModelNotLoaded                             // "Model not loaded. Please train the model first."
    | Raised(failure: Failure)                   // the text of an exception from the model object
    | Stringified(status: int, inner: Detail)    // the text of a caught HTTPException

  datatype HttpError = HttpError(status: int, detail: Detail)

  /**
   * What the prediction endpoints do with an exception raised inside their
   * `try`: whatever it was, it becomes a 500 whose detail is its text. The
   * 503 they raise themselves is caught there too.
   */
  function Internal(inner: Result<HttpError, Failure>): (e: HttpError)
    ensures e.status == 500
    ensures inner.Ok? ==> e.detail == Stringified(inner.value.status, inner.value.detail)
    ensures inner.Err? ==> e.detail == Raised(inner.error)
  {
    match inner
    case Ok(h) => HttpError(500, Stringified(h.status, h.detail))
    case Err(f) => HttpError(500, Raised(f))
  }

  const NotLoaded503: HttpError := HttpError(503, ModelNotLoaded)

  /** `POST /predict`. */
  function PredictIntrusion(st: ModelState, body: Object, coerce: Coerce): (r: Result<Prediction, HttpError>)
    requires Consistent(st)
    ensures Validate(body, coerce).Err? ==> r == Err(HttpError(422, InvalidFields(Validate(body, coerce).error)))
    ensures Validate(body, coerce).Ok? && !st.isLoaded ==> r == Err(Internal(Ok(NotLoaded503)))
    ensures Validate(body, coerce).Ok? && st.isLoaded ==>
      match PredictLoaded(st, Validate(body, coerce).value)
      case Ok(p) => r == Ok(p)
      case Err(f) => r == Err(Internal(Err(f)))
  {
    match Validate(body, coerce)
    case Err(bad) => Err(HttpError(422, InvalidFields(bad)))
    case Ok(traffic) =>
      if !st.isLoaded then Err(Internal(Ok(NotLoaded503)))
      else match PredictLoaded(st, traffic)
        case Ok(p) => Ok(p)
        case Err(f) => Err(Internal(Err(f)))
  }

  /** The prediction endpoints never answer 503: an unloaded model reads as an internal error. */
  lemma PredictIntrusionStatuses(st: ModelState, body: Object, coerce: Coerce)
    requires Consistent(st)
    ensures PredictIntrusion(st, body, coerce).Err? ==> PredictIntrusion(st, body, coerce).error.status in {422, 500}
    ensures Validate(body, coerce).Ok? && !st.isLoaded ==>
      PredictIntrusion(st, body, coerce) == Err(HttpError(500, Stringified(503, ModelNotLoaded)))
  {
  }

  // ---------------------------------------------------------------- batches

  /** `sum(1 for r in results if r['is_intrusion'])`. */
  function CountIntrusions(rs: seq<Prediction>): (n: nat)
    ensures n <= |rs|
    ensures n == 0 <==> forall i :: 0 <= i < |rs| ==> !rs[i].isIntrusion
    ensures n == |rs| <==> forall i :: 0 <= i < |rs| ==> rs[i].isIntrusion
  {
    if rs == [] then 0
    else
      assert forall i :: 1 <= i < |rs| ==> rs[i] == rs[1..][i - 1];
      (if rs[0].isIntrusion then 1 else 0) + CountIntrusions(rs[1..])
  }

  /** The count of intrusions adds up over the parts of a batch. */
  lemma {:induction false} CountIntrusionsAppend(a: seq<Prediction>, b: seq<Prediction>)
    ensures CountIntrusions(a + b) == CountIntrusions(a) + CountIntrusions(b)
  {
    if a != [] {
      assert (a + b)[1..] == a[1..] + b;
      CountIntrusionsAppend(a[1..], b);
    } else {
      assert a + b == b;
    }
  }

  /** How many results carry a given class name. */
  function CountLabel(rs: seq<Prediction>, name: string): (n: nat)
    ensures n <= |rs|
  {
    if rs == [] then 0 else (if rs[0].prediction == name then 1 else 0) + CountLabel(rs[1..], name)
  }

  /**
   * For well-formed results the intrusion count is the number labelled
   * "Attack" and the rest are exactly those labelled "Normal".
   */
  lemma {:induction false} CountsMatchLabels(rs: seq<Prediction>)
    requires forall i :: 0 <= i < |rs| ==> (rs[i].prediction == AttackLabel <==> rs[i].isIntrusion)
    requires forall i :: 0 <= i < |rs| ==> rs[i].prediction in {AttackLabel, NormalLabel}
    ensures CountIntrusions(rs) == CountLabel(rs, AttackLabel)
    ensures |rs| - CountIntrusions(rs) == CountLabel(rs, NormalLabel)
  {
    if rs != [] {
      assert forall i :: 1 <= i < |rs| ==> rs[1..][i - 1] == rs[i];
      CountsMatchLabels(rs[1..]);
    }
  }

  /** The body of a successful batch answer. */
  datatype BatchSummary = BatchSummary(results: seq<Prediction>, totalCount: int, intrusionCount: int, normalCount: int)

  /**
   * The statistics of a batch: the total is the number of results, the
   * intrusions are counted, and the normal count is the rest; both lie
   * between 0 and the total and add up to it.
   */
  function Summarize(rs: seq<Prediction>): (s: BatchSummary)
    ensures s.results == rs && s.totalCount == |rs|
    ensures s.intrusionCount == CountIntrusions(rs)
    ensures s.intrusionCount + s.normalCount == s.totalCount
    ensures 0 <= s.intrusionCount <= s.totalCount && 0 <= s.normalCount <= s.totalCount
  {
    var n := CountIntrusions(rs);
    BatchSummary(rs, |rs|, n, |rs| - n)
  }

  /** Validation of every record of a batch; a failure names the record and the field. */
  function ValidateAll(items: seq<Object>, coerce: Coerce): (r: Result<seq<Object>, set<(int, Field)>>)
    ensures r.Ok? <==> forall i :: 0 <= i < |items| ==> Validate(items[i], coerce).Ok?
    ensures r.Ok? ==> |r.value| == |items| && forall i :: 0 <= i < |items| ==> r.value[i] == Validate(items[i], coerce).value
    ensures r.Err? ==> forall i, f: Field :: (i, f) in r.error <==> 0 <= i < |items| && BadField(items[i], coerce, f)
  {
    if forall i :: 0 <= i < |items| ==> Validate(items[i], coerce).Ok? then
      Ok(seq(|items|, i requires 0 <= i < |items| => Validate(items[i], coerce).value))
    else
      Err(set i, f | 0 <= i < |items| && f in BadFields(items[i], coerce) :: (i, f))
  }

  /**
   * One invalid record refuses the whole batch with 422, and the detail
   * names that record and field; no record of it is predicted.
   */
  lemma BadItemRejectsBatch(st: ModelState, items: seq<Object>, coerce: Coerce, i: nat, f: Field)
    requires Consistent(st)
    requires i < |items| && BadField(items[i], coerce, f)
    ensures var r := PredictBatch(st, Some(items), coerce);
      && r.Err? && r.error.status == 422 && r.error.detail.InvalidItems? && (i, f) in r.error.detail.items
  {
    var all := ValidateAll(items, coerce);
    assert !Validate(items[i], coerce).Ok?;
    assert all.Err? && (i, f) in all.error;
  }

  /**
   * `POST /predict/batch`. `trafficData` is the request's `traffic_data`,
   * `None` when the body has no such list.
   */
  function PredictBatch(st: ModelState, trafficData: Option<seq<Object>>, coerce: Coerce): (r: Result<BatchSummary, HttpError>)
    requires Consistent(st)
    ensures trafficData.None? ==> r == Err(HttpError(422, MissingTrafficData))
    ensures trafficData.Some? && ValidateAll(trafficData.value, coerce).Err? ==>
      r == Err(HttpError(422, InvalidItems(ValidateAll(trafficData.value, coerce).error)))
    ensures trafficData.Some? && ValidateAll(trafficData.value, coerce).Ok? && !st.isLoaded ==>
      r == Err(Internal(Ok(NotLoaded503)))
    ensures trafficData.Some? && ValidateAll(trafficData.value, coerce).Ok? && st.isLoaded ==>
      match PredictAll(st, ValidateAll(trafficData.value, coerce).value)
      case Ok(rs) => r == Ok(Summarize(rs))
      case Err(f) => r == Err(Internal(Err(f)))
  {
    match trafficData
    case None => Err(HttpError(422, MissingTrafficData))
    case Some(items) =>
      match ValidateAll(items, coerce)
      case Err(bad) => Err(HttpError(422, InvalidItems(bad)))
      case Ok(traffic) =>
        if !st.isLoaded then Err(Internal(Ok(NotLoaded503)))
        else match PredictAll(st, traffic)
          case Ok(rs) => Ok(Summarize(rs))
          case Err(f) => Err(Internal(Err(f)))
  }

  /**
   * A successful batch answer has one result per request record, in order,
   * each one the answer `POST /predict` gives that record alone, and its
   * counts agree with the results' labels.
   */
  lemma BatchAgreesWithSingle(st: ModelState, items: seq<Object>, coerce: Coerce)
    requires Consistent(st)
    ensures PredictBatch(st, Some(items), coerce).Ok? ==> var s := PredictBatch(st, Some(items), coerce).value;
      && s.totalCount == |items| == |s.results|
      && (forall i :: 0 <= i < |items| ==> PredictIntrusion(st, items[i], coerce) == Ok(s.results[i]))
      && s.intrusionCount == CountLabel(s.results, AttackLabel)
      && s.normalCount == CountLabel(s.results, NormalLabel)
  {
    if PredictBatch(st, Some(items), coerce).Err? {
      return;
    }
    var traffic := ValidateAll(items, coerce).value;
    var rs := PredictAll(st, traffic).value;
    forall i | 0 <= i < |items| ensures PredictIntrusion(st, items[i], coerce) == Ok(rs[i]) {
      assert PredictLoaded(st, traffic[i]) == Ok(rs[i]);
    }
    CountsMatchLabels(rs);
  }

  // ---------------------------------------------------------------- information and status

  datatype ModelInfo = ModelInfo(modelType: string, featuresCount: nat, isLoaded: bool, classes: seq<string>)

  /**
   * `GET /model/info`: 503 when the model has not loaded (raised outside any
   * `try`, so it does reach the client); otherwise the number of feature
   * names, 0 when there are none.
   */
  function GetModelInfo(st: ModelState): (r: Result<ModelInfo, HttpError>)
    requires Consistent(st)
    ensures !st.isLoaded ==> r == Err(NotLoaded503)
    ensures st.isLoaded ==> r.Ok? && r.value.isLoaded
    ensures st.isLoaded ==> r.value.featuresCount == |st.featureNames.value|
    ensures st.isLoaded ==> r.value.classes == [NormalLabel, AttackLabel]
  {
    if !st.isLoaded then Err(NotLoaded503)
    else
      var names := st.featureNames;
      Ok(ModelInfo("XGBoost Classifier", if names.Some? && names.value != [] then |names.value| else 0,
                   st.isLoaded, [NormalLabel, AttackLabel]))
  }

  datatype Status = Status(message: Option<string>, status: string, modelLoaded: bool)

  /** `GET /`: the service is running and says whether the model has loaded. */
  function Root(st: ModelState): (s: Status)
    ensures s.modelLoaded == st.isLoaded && s.status == "running"
  {
    Status(Some("Intrusion Detection System API"), "running", st.isLoaded)
  }

  /** `GET /health`: healthy, and whether the model has loaded. */
  function Health(st: ModelState): (s: Status)
    ensures s.modelLoaded == st.isLoaded && s.status == "healthy"
  {
    Status(None, "healthy", st.isLoaded)
  }

  /**
   * The status endpoints and the information endpoint agree: information
   * is served exactly when both status endpoints report a loaded model, and
   * then a single prediction is never refused for the model's sake.
   */
  lemma StatusAgreesWithInfo(st: ModelState, body: Object, coerce: Coerce)
    requires Consistent(st)
    ensures Health(st).modelLoaded == Root(st).modelLoaded
    ensures GetModelInfo(st).Ok? <==> Health(st).modelLoaded
    ensures !Health(st).modelLoaded && Validate(body, coerce).Ok? ==>
      PredictIntrusion(st, body, coerce).Err? && PredictIntrusion(st, body, coerce).error.status == 500
    ensures Health(st).modelLoaded && PredictIntrusion(st, body, coerce).Err? ==>
      PredictIntrusion(st, body, coerce).error.detail.InvalidFields? || PredictIntrusion(st, body, coerce).error.detail.Raised?
  {
  }

  /**
   * The startup hook: tries to load the model and only reports a failure,
   * so the service starts either way.
   */
  method Startup(m: IdsModel.IntrusionDetectionModel, store: ArtifactStore)
    requires m.Valid()
    modifies m
    ensures m.Valid()
    ensures m.State() == LoadSpec(old(m.State()), store).0
    ensures m.isLoaded <==> old(m.isLoaded) || AllPresent(store)
  {
    var err := m.LoadModel(store);
  }

  /**
   * With a loaded object, answering `POST /predict` asks the object to
   * predict the dumped record, which neither loads again nor changes it.
   */
  method ServePredict(m: IdsModel.IntrusionDetectionModel, store: ArtifactStore, body: Object, coerce: Coerce)
    returns (r: Result<Prediction, HttpError>)
    requires m.Valid()
    modifies m
    ensures m.Valid() && m.State() == old(m.State())
    ensures r == PredictIntrusion(old(m.State()), body, coerce)
  {
    var v := Validate(body, coerce);
    if v.Err? {
      return Err(HttpError(422, InvalidFields(v.error)));
    }
    if !m.isLoaded {
      return Err(Internal(Ok(NotLoaded503)));
    }
    var p := m.Predict(v.value, store);
    if p.Err? {
      return Err(Internal(Err(p.error)));
    }
    r := Ok(p.value);
  }
}
