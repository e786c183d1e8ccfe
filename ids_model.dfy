/**
 * The model object itself (backend/model.py, `IntrusionDetectionModel`):
 * its fields change in place when it loads, and each of its methods is
 * proved to do what the matching function of `Pipeline` describes.
 */
module IdsModel {
  import opened Wrappers
  import opened Fields
  import opened Values
  import opened Pipeline

  class IntrusionDetectionModel {
    var model: Option<Classifier>
    var scaler: Option<Scaler>
    var labelEncoders: Option<map<Key, LabelEncoder>>
    var featureNames: Option<seq<Key>>
    var isLoaded: bool

    /** The fields as one value. */
    function State(): ModelState
      reads this
    {
      ModelState(isLoaded, model, scaler, labelEncoders, featureNames)
    }

    /** The flag is only ever set with all four artifacts in place. */
    predicate Valid()
      reads this
    {
      Consistent(State())
    }

    /** `__init__`: nothing loaded. */
    constructor ()
      ensures Valid()
      ensures State() == Fresh
    {
      model := None;
      scaler := None;
      labelEncoders := None;
      featureNames := None;
      isLoaded := false;
    }

    /**
     * `load_model`: checks that all four files exist, then loads them one
     * by one and sets the flag last. Returns the failure it raises, if any.
     */
    method LoadModel(store: ArtifactStore) returns (err: Option<Failure>)
      requires Valid()
      modifies this
      ensures Valid()
      ensures (State(), err) == LoadSpec(old(State()), store)
    {
      if !AllExist(store) {
        return Some(FilesMissing);
      }
      if store.model.Unreadable? {
        return Some(ArtifactUnreadable);
      }
      model := Some(store.model.value);
      if store.scaler.Unreadable? {
        return Some(ArtifactUnreadable);
      }
      scaler := Some(store.scaler.value);
      if store.encoders.Unreadable? {
        return Some(ArtifactUnreadable);
      }
      labelEncoders := Some(store.encoders.value);
      if store.features.Unreadable? {
        return Some(ArtifactUnreadable);
      }
      featureNames := Some(store.features.value);
      isLoaded := true;
      err := None;
    }

    /**
     * `preprocess_input`: a first loop encodes the categorical columns the
     * row and the encoders both have, a second adds every missing feature
     * as 0; the row is then cut down to the feature names, in their order,
     * and scaled.
     */
    method PreprocessInput(data: Object) returns (r: Result<seq<real>, Failure>)
      requires Valid()
      ensures r == Preprocess(State(), data)
    {
      if !isLoaded {
        return Err(NotLoaded);
      }
      var encs := labelEncoders.value;
      var df := data;
      var i := 0;
      while i < |CategoricalColumns|
        invariant 0 <= i <= |CategoricalColumns|
        invariant EncodeColumns(encs, data, CategoricalColumns) == EncodeColumns(encs, df, CategoricalColumns[i..])
      {
        var col := CategoricalColumns[i];
        assert CategoricalColumns[i..][1..] == CategoricalColumns[i + 1..];
        if col in df && col in encs {
          var le := encs[col];
          var c: string;
          if df[col].Str? && df[col].s in le.classes {
            c := df[col].s;
          } else if |le.classes| > 0 {
            c := le.classes[0];
          } else {
            return Err(NoKnownClass(col));
          }
          df := df[col := Num(le.transform(c))];
        }
        i := i + 1;
      }
      var encoded := df;
      var names := featureNames.value;
      var j := 0;
      while j < |names|
        invariant 0 <= j <= |names|
        invariant forall m :: 0 <= m < j ==> names[m] in df
        invariant forall k :: k in encoded ==> k in df && df[k] == encoded[k]
        invariant forall k :: k in df && k !in encoded ==> df[k] == Num(0.0)
      {
        if names[j] !in df {
          df := df[names[j] := Num(0.0)];
        }
        j := j + 1;
      }
      var row := seq(|names|, m requires 0 <= m < |names| => df[names[m]]);
      assert row == Align(encoded, names);
      var scaled := scaler.value.transform(row);
      if scaled.None? {
        return Err(ScalerRejected);
      }
      r := Ok(scaled.value);
    }

    /**
     * `predict`: loads first if needed, prepares the row and asks the
     * classifier for its label and its class probabilities.
     */
    method Predict(data: Object, store: ArtifactStore) returns (r: Result<Prediction, Failure>)
      requires Valid()
      modifies this
      ensures Valid()
      ensures (State(), r) == PredictSpec(old(State()), store, data)
    {
      if !isLoaded {
        var e := LoadModel(store);
        if e.Some? {
          return Err(e.value);
        }
      }
      var x := PreprocessInput(data);
      if x.Err? {
        return Err(x.error);
      }
      var cls := model.value.predict(x.value);
      var proba := model.value.predictProba(x.value);
      r := Shape(cls, proba);
    }

    /**
     * `predict_batch`: loads first if needed, then predicts the records one
     * by one.
     */
    method PredictBatch(dataList: seq<Object>, store: ArtifactStore) returns (r: Result<seq<Prediction>, Failure>)
      requires Valid()
      modifies this
      ensures Valid()
      ensures (State(), r) == PredictBatchSpec(old(State()), store, dataList)
    {
      if !isLoaded {
        var e := LoadModel(store);
        if e.Some? {
          return Err(e.value);
        }
      }
      r := PredictEach(dataList, store);
    }

    /**
     * The loop of `predict_batch` on a loaded object: each record's answer
     * is appended to the results, and the first failure ends the batch.
     */
    method PredictEach(dataList: seq<Object>, store: ArtifactStore) returns (r: Result<seq<Prediction>, Failure>)
      requires Valid() && isLoaded
      modifies this
      ensures Valid() && State() == old(State())
      ensures r == PredictAll(State(), dataList)
    {
      ghost var st := State();
      var results: seq<Prediction> := [];
      var i := 0;
      while i < |dataList|
        invariant 0 <= i <= |dataList|
        invariant Valid() && isLoaded && State() == st
        invariant PredictAll(st, dataList[..i]) == Ok(results)
      {
        var p := Predict(dataList[i], store);
        assert dataList[..i + 1] == dataList[..i] + [dataList[i]];
        PredictAllSnoc(st, dataList[..i], dataList[i]);
        if p.Err? {
          PredictAllPrefixErr(st, dataList, i + 1);
          return Err(p.error);
        }
        results := results + [p.value];
        i := i + 1;
      }
      assert dataList[..|dataList|] == dataList;
      r := Ok(results);
    }
  }

  /**
   * The object's life: a fresh object refuses to preprocess; when all four
   * files load, the same object then preprocesses exactly as the pipeline
   * prescribes for the loaded artifacts.
   */
  method Lifecycle(store: ArtifactStore, data: Object)
    returns (before: Result<seq<real>, Failure>, after: Option<Failure>, prepared: Result<seq<real>, Failure>)
    ensures before == Err(NotLoaded)
    ensures after.None? <==> AllPresent(store)
    ensures after.None? ==> prepared == Preprocess(ModelState(true, Some(store.model.value), Some(store.scaler.value),
                                                              Some(store.encoders.value), Some(store.features.value)), data)
  {
    var m := new IntrusionDetectionModel();
    before := m.PreprocessInput(data);
    after := m.LoadModel(store);
    prepared := m.PreprocessInput(data);
  }
}
