/**
 * What the intrusion-detection model object (backend/model.py) computes,
 * as functions of its state: loading the four artifacts, preparing one
 * record for the classifier, shaping the classifier's answer and predicting
 * a batch. The fitted scaler, the label encoders' transform and the
 * classifier are foreign code and appear as functions carried by the
 * artifacts.
 */
module Pipeline {
  import opened Wrappers
  import opened Fields
  import opened Values

  /** A fitted label encoder: its known classes and its transform. */
  datatype LabelEncoder = LabelEncoder(classes: seq<string>, transform: string -> real)

  /** A fitted scaler; `transform` gives `None` where it raises. */
  datatype Scaler = Scaler(transform: seq<Value> -> Option<seq<real>>)

  /** The trained classifier: a class label and the class probabilities of one row. */
  datatype Classifier = Classifier(predict: seq<real> -> int, predictProba: seq<real> -> seq<real>)

  /** The exceptions the model object raises. */
  datatype Failure =
    | NotLoaded                 // preprocess_input on an object that has not loaded
    | FilesMissing              // one of the four artifact files does not exist
    | ArtifactUnreadable        // an artifact file exists but does not load
    | NoKnownClass(column: Key) // an unknown category and an encoder with no classes
    | ScalerRejected            // the scaler refuses the aligned row
    | ProbaIndex                // a probability index that is out of range

  /** The fields of the model object. */
  datatype ModelState = ModelState(
    isLoaded: bool,
    model: Option<Classifier>,
    scaler: Option<Scaler>,
    labelEncoders: Option<map<Key, LabelEncoder>>,
    featureNames: Option<seq<Key>>)

  /** A loaded object holds all four artifacts. */
  predicate Consistent(st: ModelState) {
    st.isLoaded ==> st.model.Some? && st.scaler.Some? && st.labelEncoders.Some? && st.featureNames.Some?
  }

  /** A new object: nothing loaded. */
  const Fresh: ModelState := ModelState(false, None, None, None, None)

  // ---------------------------------------------------------------- loading

  /** What loading one artifact file finds. */
  datatype Artifact<T> = Missing | Unreadable | Present(value: T)

  /** The four artifact files the object loads, in the order it loads them. */
  datatype ArtifactStore = ArtifactStore(
    model: Artifact<Classifier>,
    scaler: Artifact<Scaler>,
    encoders: Artifact<map<Key, LabelEncoder>>,
    features: Artifact<seq<Key>>)

  predicate AllExist(store: ArtifactStore) {
    !store.model.Missing? && !store.scaler.Missing? && !store.encoders.Missing? && !store.features.Missing?
  }

  predicate AllPresent(store: ArtifactStore) {
    store.model.Present? && store.scaler.Present? && store.encoders.Present? && store.features.Present?
  }

  /**
   * `load_model`: the new state and the failure it raises, if any. If a file
   * is missing nothing is touched. Otherwise the files are loaded one after
   * another into their fields, and the object counts as loaded only once
   * all four have loaded; a file that does not load stops the sequence with
   * the earlier fields already replaced and the flag as it was.
   */
  function LoadSpec(st: ModelState, store: ArtifactStore): (r: (ModelState, Option<Failure>))
    requires Consistent(st)
    ensures Consistent(r.0)
    ensures r.1.None? <==> AllPresent(store)
    ensures r.1.None? ==> r.0 == ModelState(true, Some(store.model.value), Some(store.scaler.value),
                                            Some(store.encoders.value), Some(store.features.value))
    ensures r.1.Some? ==> r.0.isLoaded == st.isLoaded
    ensures !AllExist(store) ==> r == (st, Some(FilesMissing))
    ensures AllExist(store) && !AllPresent(store) ==> r.1 == Some(ArtifactUnreadable)
  {
    if !AllExist(store) then (st, Some(FilesMissing))
    else if store.model.Unreadable? then (st, Some(ArtifactUnreadable))
    else
      var st1 := st.(model := Some(store.model.value));
      if store.scaler.Unreadable? then (st1, Some(ArtifactUnreadable))
      else
        var st2 := st1.(scaler := Some(store.scaler.value));
        if store.encoders.Unreadable? then (st2, Some(ArtifactUnreadable))
        else
          var st3 := st2.(labelEncoders := Some(store.encoders.value));
          if store.features.Unreadable? then (st3, Some(ArtifactUnreadable))
          else (st3.(featureNames := Some(store.features.value), isLoaded := true), None)
  }

  // ---------------------------------------------------------------- categorical columns

  /** The columns that go through a label encoder, in the order they are encoded. */
  const CategoricalColumns: seq<Key> := [Known(ProtocolType), Known(Service), Known(Flag)]

  /**
   * The category actually encoded: a known class is kept, anything else
   * becomes the encoder's first class, and there is none to fall back on
   * when the encoder knows no class.
   */
  function KnownOrFirst(le: LabelEncoder, v: Value): (r: Option<string>)
    ensures v.Str? && v.s in le.classes ==> r == Some(v.s)
    ensures !(v.Str? && v.s in le.classes) && |le.classes| > 0 ==> r == Some(le.classes[0])
    ensures r.None? <==> le.classes == []
    ensures r.Some? ==> r.value in le.classes
  {
    if v.Str? && v.s in le.classes then Some(v.s)
    else if |le.classes| > 0 then Some(le.classes[0])
    else None
  }

  /**
   * Encodes one column of the row, if the row has it and there is an
   * encoder for it; the column then holds the code of its category.
   */
  function EncodeColumn(encs: map<Key, LabelEncoder>, df: Object, col: Key): (r: Result<Object, Failure>)
    ensures !(col in df && col in encs) ==> r == Ok(df)
    ensures col in df && col in encs ==>
      match KnownOrFirst(encs[col], df[col])
      case None => r == Err(NoKnownClass(col))
      case Some(c) => r == Ok(df[col := Num(encs[col].transform(c))])
  {
    if col in df && col in encs then
      match KnownOrFirst(encs[col], df[col])
      case None => Err(NoKnownClass(col))
      case Some(c) => Ok(df[col := Num(encs[col].transform(c))])
    else Ok(df)
  }

  /** Encodes the columns `cols` one after another; the first failure stops it. */
  function EncodeColumns(encs: map<Key, LabelEncoder>, df: Object, cols: seq<Key>): (r: Result<Object, Failure>)
    ensures r.Ok? ==> r.value.Keys == df.Keys
    ensures r.Ok? ==> forall k :: k in df && k !in cols ==> r.value[k] == df[k]
    ensures r.Err? ==> exists i :: 0 <= i < |cols| && r.error == NoKnownClass(cols[i])
  {
    if cols == [] then Ok(df)
    else match EncodeColumn(encs, df, cols[0])
      case Err(e) => Err(e)
      case Ok(df1) => EncodeColumns(encs, df1, cols[1..])
  }

  /**
   * A key that is none of the encoded columns does not change how the
   * others are encoded, and keeps its value.
   */
  lemma {:induction false} EncodeColumnsIgnoresOtherKeys(
    encs: map<Key, LabelEncoder>, df: Object, cols: seq<Key>, k: Key, v: Value)
    requires k !in cols
    ensures EncodeColumns(encs, df[k := v], cols).Ok? == EncodeColumns(encs, df, cols).Ok?
    ensures EncodeColumns(encs, df, cols).Ok? ==>
      EncodeColumns(encs, df[k := v], cols).value == EncodeColumns(encs, df, cols).value[k := v]
    ensures EncodeColumns(encs, df, cols).Err? ==> EncodeColumns(encs, df[k := v], cols) == EncodeColumns(encs, df, cols)
  {
    if cols != [] {
      var c := cols[0];
      assert c != k;
      match EncodeColumn(encs, df, c)
      case Err(e) => {
      }
      case Ok(df1) => {
        var e1 := EncodeColumn(encs, df[k := v], c);
        if c in df && c in encs {
          var x := KnownOrFirst(encs[c], df[c]).value;
          assert (df[k := v])[c := Num(encs[c].transform(x))] == df1[k := v];
        }
        assert e1 == Ok(df1[k := v]);
        EncodeColumnsIgnoresOtherKeys(encs, df1, cols[1..], k, v);
      }
    }
  }

  // ---------------------------------------------------------------- alignment

  /**
   * The row as the scaler sees it: one column per entry of `names`, in that
   * order, holding the row's value for that name, or 0 where the row has
   * none. Keys of the row that are not in `names` are dropped.
   */
  function Align(df: Object, names: seq<Key>): (r: seq<Value>)
    ensures |r| == |names|
    ensures forall j :: 0 <= j < |names| && names[j] in df ==> r[j] == df[names[j]]
    ensures forall j :: 0 <= j < |names| && names[j] !in df ==> r[j] == Num(0.0)
  {
    seq(|names|, j requires 0 <= j < |names| => if names[j] in df then df[names[j]] else Num(0.0))
  }

  /** A key that is not a feature name never reaches the scaler. */
  lemma AlignDropsExtras(df: Object, names: seq<Key>, k: Key, v: Value)
    requires k !in names
    ensures Align(df[k := v], names) == Align(df, names)
  {
  }

  /**
   * Two rows that agree on every feature name align to the same row: only
   * the named columns, and their order, matter.
   */
  lemma AlignReadsOnlyNames(df1: Object, df2: Object, names: seq<Key>)
    requires forall n :: n in names ==> (n in df1 <==> n in df2)
    requires forall n :: n in names && n in df1 ==> df1[n] == df2[n]
    ensures Align(df1, names) == Align(df2, names)
  {
  }

  // ---------------------------------------------------------------- preprocessing

  /**
   * `preprocess_input`: refuses an object that has not loaded; otherwise
   * encodes the categorical columns, aligns the row to the feature names
   * and scales it.
   */
  function Preprocess(st: ModelState, data: Object): (r: Result<seq<real>, Failure>)
    requires Consistent(st)
    ensures !st.isLoaded ==> r == Err(NotLoaded)
    ensures st.isLoaded && EncodeColumns(st.labelEncoders.value, data, CategoricalColumns).Ok? ==>
      var aligned := Align(EncodeColumns(st.labelEncoders.value, data, CategoricalColumns).value, st.featureNames.value);
      r == (match st.scaler.value.transform(aligned) case None => Err(ScalerRejected) case Some(x) => Ok(x))
    ensures st.isLoaded && EncodeColumns(st.labelEncoders.value, data, CategoricalColumns).Err? ==>
      r.Err? && r.error.NoKnownClass?
  {
    if !st.isLoaded then Err(NotLoaded)
    else match EncodeColumns(st.labelEncoders.value, data, CategoricalColumns)
      case Err(e) => Err(e)
      case Ok(df) =>
        match st.scaler.value.transform(Align(df, st.featureNames.value))
        case None => Err(ScalerRejected)
        case Some(x) => Ok(x)
  }

  /**
   * Input keys that are neither a feature name nor a categorical column
   * make no difference to the prepared row.
   */
  lemma PreprocessIgnoresExtraKeys(st: ModelState, data: Object, k: Key, v: Value)
    requires Consistent(st) && st.isLoaded
    requires k !in st.featureNames.value && k !in CategoricalColumns
    ensures Preprocess(st, data[k := v]) == Preprocess(st, data)
  {
    var encs := st.labelEncoders.value;
    EncodeColumnsIgnoresOtherKeys(encs, data, CategoricalColumns, k, v);
    if EncodeColumns(encs, data, CategoricalColumns).Ok? {
      AlignDropsExtras(EncodeColumns(encs, data, CategoricalColumns).value, st.featureNames.value, k, v);
    }
  }

  /**
   * An unknown protocol, service or flag is prepared exactly as the
   * encoder's first class would be.
   */
  lemma UnknownCategoryActsAsFirstClass(st: ModelState, data: Object, i: nat, unknown: string)
    requires Consistent(st) && st.isLoaded
    requires i < |CategoricalColumns|
    requires CategoricalColumns[i] in st.labelEncoders.value
    requires unknown !in st.labelEncoders.value[CategoricalColumns[i]].classes
    requires |st.labelEncoders.value[CategoricalColumns[i]].classes| > 0
    ensures var col, first := CategoricalColumns[i], st.labelEncoders.value[CategoricalColumns[i]].classes[0];
      Preprocess(st, data[col := Str(unknown)]) == Preprocess(st, data[col := Str(first)])
  {
    var encs := st.labelEncoders.value;
    var col := CategoricalColumns[i];
    var first := encs[col].classes[0];
    var d1, d2 := data[col := Str(unknown)], data[col := Str(first)];
    assert EncodeColumns(encs, d1, CategoricalColumns) == EncodeColumns(encs, d2, CategoricalColumns) by {
      EncodeFallbackAgrees(encs, d1, d2, CategoricalColumns, col);
    }
  }

  /**
   * Two rows that differ only in column `col`, where the encoder maps both
   * values to the same class, encode to the same row.
   */
  lemma {:induction false} EncodeFallbackAgrees(
    encs: map<Key, LabelEncoder>, d1: Object, d2: Object, cols: seq<Key>, col: Key)
    requires d1.Keys == d2.Keys
    requires forall k :: k in d1 && k != col ==> d1[k] == d2[k]
    requires col in cols && col in d1 && col in encs
    requires KnownOrFirst(encs[col], d1[col]) == KnownOrFirst(encs[col], d2[col])
    ensures EncodeColumns(encs, d1, cols) == EncodeColumns(encs, d2, cols)
  {
    var c := cols[0];
    if c == col {
      assert EncodeColumn(encs, d1, c) == EncodeColumn(encs, d2, c) by {
        match KnownOrFirst(encs[col], d1[col])
        case None => {
        }
        case Some(x) => {
          assert d1[col := Num(encs[col].transform(x))] == d2[col := Num(encs[col].transform(x))];
        }
      }
    } else {
      match EncodeColumn(encs, d1, c)
      case Err(e) => {
        assert EncodeColumn(encs, d2, c) == Err(e);
      }
      case Ok(e1) => {
        var e2 := EncodeColumn(encs, d2, c).value;
        assert e1.Keys == d1.Keys && e2.Keys == d2.Keys;
        assert e1[col] == d1[col] && e2[col] == d2[col];
        EncodeFallbackAgrees(encs, e1, e2, cols[1..], col);
      }
    }
  }

  // ---------------------------------------------------------------- the reply

  /** One prediction: the class, whether it is an intrusion and its probabilities (in per cent). */
  datatype Prediction = Prediction(
    prediction: string,
    isIntrusion: bool,
    confidence: real,
    attackProbability: real,
    normalProbability: real)

  const AttackLabel: string := "Attack"
  const NormalLabel: string := "Normal"

  /** Indexing a NumPy array: negative indices count from the end; beyond either end raises. */
  function PyIndex(p: seq<real>, i: int): (r: Option<real>)
    ensures r.Some? <==> -|p| <= i < |p|
    ensures 0 <= i < |p| ==> r == Some(p[i])
    ensures -|p| <= i < 0 ==> r == Some(p[|p| + i])
  {
    if 0 <= i < |p| then Some(p[i])
    else if -|p| <= i < 0 then Some(p[|p| + i])
    else None
  }

  /**
   * The reply for a class label and the class probabilities: "Attack" and an
   * intrusion exactly when the label is 1, the confidence is the probability
   * of the predicted class and the other two are the probabilities of
   * classes 1 and 0. An index out of range raises.
   */
  function Shape(cls: int, proba: seq<real>): (r: Result<Prediction, Failure>)
    ensures r.Ok? <==> PyIndex(proba, cls).Some? && |proba| >= 2
    ensures r.Err? ==> r.error == ProbaIndex
    ensures r.Ok? ==> (r.value.prediction == AttackLabel <==> r.value.isIntrusion)
    ensures r.Ok? ==> (r.value.isIntrusion <==> cls == 1)
    ensures r.Ok? ==> r.value.prediction in {AttackLabel, NormalLabel}
    ensures r.Ok? ==> r.value.confidence == PyIndex(proba, cls).value * 100.0
    ensures r.Ok? ==> r.value.attackProbability == proba[1] * 100.0
    ensures r.Ok? ==> r.value.normalProbability == proba[0] * 100.0
  {
    match PyIndex(proba, cls)
    case None => Err(ProbaIndex)
    case Some(c) =>
      if |proba| < 2 then Err(ProbaIndex)
      else Ok(Prediction(if cls == 1 then AttackLabel else NormalLabel, cls == 1,
                         c * 100.0, proba[1] * 100.0, proba[0] * 100.0))
  }

  /** Predicting one record with a loaded object. */
  function PredictLoaded(st: ModelState, data: Object): (r: Result<Prediction, Failure>)
    requires Consistent(st) && st.isLoaded
    ensures Preprocess(st, data).Err? ==> r == Err(Preprocess(st, data).error)
    ensures Preprocess(st, data).Ok? ==>
      var x := Preprocess(st, data).value;
      r == Shape(st.model.value.predict(x), st.model.value.predictProba(x))
    ensures r.Ok? ==> (r.value.prediction == AttackLabel <==> r.value.isIntrusion)
    ensures r.Ok? ==> r.value.prediction in {AttackLabel, NormalLabel}
  {
    match Preprocess(st, data)
    case Err(e) => Err(e)
    case Ok(x) => Shape(st.model.value.predict(x), st.model.value.predictProba(x))
  }

  /** `predict`: loads first if the object has not loaded, then predicts. */
  function PredictSpec(st: ModelState, store: ArtifactStore, data: Object): (r: (ModelState, Result<Prediction, Failure>))
    requires Consistent(st)
    ensures Consistent(r.0)
    ensures st.isLoaded ==> r == (st, PredictLoaded(st, data))
    ensures !st.isLoaded && LoadSpec(st, store).1.Some? ==> r == (LoadSpec(st, store).0, Err(LoadSpec(st, store).1.value))
    ensures !st.isLoaded && LoadSpec(st, store).1.None? ==> r == (LoadSpec(st, store).0, PredictLoaded(LoadSpec(st, store).0, data))
  {
    if st.isLoaded then (st, PredictLoaded(st, data))
    else
      var (st1, e) := LoadSpec(st, store);
      if e.Some? then (st1, Err(e.value)) else (st1, PredictLoaded(st1, data))
  }

  // ---------------------------------------------------------------- batches

  /**
   * Predicting a list of records in order with a loaded object; the first
   * record that fails stops the batch with its failure.
   */
  function PredictAll(st: ModelState, ds: seq<Object>): (r: Result<seq<Prediction>, Failure>)
    requires Consistent(st) && st.isLoaded
    ensures r.Ok? <==> forall i :: 0 <= i < |ds| ==> PredictLoaded(st, ds[i]).Ok?
    ensures r.Ok? ==> |r.value| == |ds|
    ensures r.Ok? ==> forall i :: 0 <= i < |ds| ==> PredictLoaded(st, ds[i]) == Ok(r.value[i])
    ensures r.Err? ==> exists i :: 0 <= i < |ds| && PredictLoaded(st, ds[i]) == Err(r.error) &&
                                   forall j :: 0 <= j < i ==> PredictLoaded(st, ds[j]).Ok?
  {
    if ds == [] then Ok([])
    else
      var init := ds[..|ds| - 1];
      assert forall i :: 0 <= i < |init| ==> init[i] == ds[i];
      match PredictAll(st, init)
      case Err(e) => Err(e)
      case Ok(rs) =>
        match PredictLoaded(st, ds[|ds| - 1])
        case Err(e) => Err(e)
        case Ok(p) => Ok(rs + [p])
  }

  /** One more record on a batch. */
  lemma PredictAllSnoc(st: ModelState, ds: seq<Object>, d: Object)
    requires Consistent(st) && st.isLoaded
    ensures PredictAll(st, ds).Err? ==> PredictAll(st, ds + [d]) == PredictAll(st, ds)
    ensures PredictAll(st, ds).Ok? && PredictLoaded(st, d).Err? ==> PredictAll(st, ds + [d]) == Err(PredictLoaded(st, d).error)
    ensures PredictAll(st, ds).Ok? && PredictLoaded(st, d).Ok? ==>
      PredictAll(st, ds + [d]) == Ok(PredictAll(st, ds).value + [PredictLoaded(st, d).value])
  {
    assert (ds + [d])[..|ds|] == ds;
  }

  /**
   * A failure in a prefix of the batch is the failure of the whole batch:
   * both are the failure of the first record that fails.
   */
  lemma PredictAllPrefixErr(st: ModelState, ds: seq<Object>, n: nat)
    requires Consistent(st) && st.isLoaded
    requires n <= |ds| && PredictAll(st, ds[..n]).Err?
    ensures PredictAll(st, ds) == PredictAll(st, ds[..n])
  {
    var pre := ds[..n];
    var e := PredictAll(st, pre).error;
    var i :| 0 <= i < |pre| && PredictLoaded(st, pre[i]) == Err(e) && forall j :: 0 <= j < i ==> PredictLoaded(st, pre[j]).Ok?;
    assert pre[i] == ds[i];
    assert forall j :: 0 <= j < i ==> pre[j] == ds[j];
    assert !PredictLoaded(st, ds[i]).Ok?;
    var r := PredictAll(st, ds);
    var k :| 0 <= k < |ds| && PredictLoaded(st, ds[k]) == Err(r.error) && forall j :: 0 <= j < k ==> PredictLoaded(st, ds[j]).Ok?;
    if k != i {
      assert false;
    }
  }

  /** `predict_batch`: loads first if the object has not loaded, then predicts every record. */
  function PredictBatchSpec(st: ModelState, store: ArtifactStore, ds: seq<Object>): (r: (ModelState, Result<seq<Prediction>, Failure>))
    requires Consistent(st)
    ensures Consistent(r.0)
    ensures st.isLoaded ==> r == (st, PredictAll(st, ds))
    ensures !st.isLoaded && LoadSpec(st, store).1.Some? ==> r == (LoadSpec(st, store).0, Err(LoadSpec(st, store).1.value))
    ensures !st.isLoaded && LoadSpec(st, store).1.None? ==> r == (LoadSpec(st, store).0, PredictAll(LoadSpec(st, store).0, ds))
  {
    if st.isLoaded then (st, PredictAll(st, ds))
    else
      var (st1, e) := LoadSpec(st, store);
      if e.Some? then (st1, Err(e.value)) else (st1, PredictAll(st1, ds))
  }

  /**
   * Each record of a batch gets the answer it would get on its own: the
   * batch is the single-record prediction, mapped over the list in order.
   */
  lemma BatchIsPointwise(st: ModelState, store: ArtifactStore, ds: seq<Object>, i: nat)
    requires Consistent(st) && st.isLoaded
    requires PredictBatchSpec(st, store, ds).1.Ok?
    requires i < |ds|
    ensures |PredictBatchSpec(st, store, ds).1.value| == |ds|
    ensures PredictSpec(st, store, ds[i]) == (st, Ok(PredictBatchSpec(st, store, ds).1.value[i]))
  {
  }
}
