/** The in-memory store (`MemStorage`). Each JavaScript `Map` is modelled as
    the sequence of its values in iteration order, which for a `Map` is the
    order in which keys were first set; keys are the records' ids. */
module Storage {
  import opened Common
  import opened Schema

  datatype StoreError = ModelNotFound(id: int)

  function DrawId(d: Draw): int { d.id }
  function PredictionId(p: Prediction): int { p.id }
  function ModelId(m: MLModel): int { m.id }
  function PredictionCreatedAt(p: Prediction): int { p.createdAt }
  function ModelLastTrained(m: MLModel): int { m.lastTrained }

  /** Ids start at 1, stay below the next id to hand out and increase along
      the iteration order (so they are distinct). */
  predicate IdsBelow<T>(s: seq<T>, id: T -> int, next: int) {
    && 1 <= next
    && (forall i :: 0 <= i < |s| ==> 1 <= id(s[i]) < next)
    && (forall i, j :: 0 <= i < j < |s| ==> id(s[i]) < id(s[j]))
  }

  /** Setting a value under the next fresh id appends it and keeps the id
      discipline, with the counter moved on by one. */
  lemma FreshIdAppend<T>(s: seq<T>, id: T -> int, next: int, v: T)
    requires IdsBelow(s, id, next) && id(v) == next
    ensures IndexOfId(s, id, next).None?
    ensures MapSet(s, id, v) == s + [v]
    ensures IdsBelow(s + [v], id, next + 1)
  {
    var t := s + [v];
    assert forall i :: 0 <= i < |s| ==> t[i] == s[i];
    assert t[|s|] == v;
  }

  /** Under the id discipline, looking up a stored value's id finds it. */
  lemma IndexOfStored<T>(s: seq<T>, id: T -> int, next: int, k: nat)
    requires IdsBelow(s, id, next) && k < |s|
    ensures IndexOfId(s, id, id(s[k])) == Some(k)
  {
  }

  /** Rewriting a stored value under its own id keeps the id discipline. */
  lemma SameIdUpdate<T>(s: seq<T>, id: T -> int, next: int, k: nat, v: T)
    requires IdsBelow(s, id, next) && k < |s| && id(v) == id(s[k])
    ensures IdsBelow(s[k := v], id, next)
  {
  }

  /** `models.find(m => m.isActive === "true")`, as a position. */
  function ActiveIndex(ms: seq<MLModel>): (r: Option<nat>)
    ensures r.Some? ==> r.value < |ms| && ms[r.value].isActive == "true"
    ensures r.Some? ==> forall j :: 0 <= j < r.value ==> ms[j].isActive != "true"
    ensures r.None? <==> forall j :: 0 <= j < |ms| ==> ms[j].isActive != "true"
  {
    if ms == [] then None
    else if ms[0].isActive == "true" then Some(0)
    else match ActiveIndex(ms[1..])
      case None => None
      case Some(i) => Some(i + 1)
  }

  /** Rewriting one model without touching any model's isActive flag keeps
      the active model where it was. */
  lemma {:induction false} ActiveIndexKept(ms: seq<MLModel>, k: nat, m: MLModel)
    requires k < |ms| && m.isActive == ms[k].isActive
    ensures ActiveIndex(ms[k := m]) == ActiveIndex(ms)
  {
    var ms' := ms[k := m];
    if ms[0].isActive != "true" && k > 0 {
      assert ms'[1..] == ms[1..][k - 1 := m];
      ActiveIndexKept(ms[1..], k - 1, m);
    }
  }

  /** Appending a model leaves an existing active model in front of it. */
  lemma {:induction false} ActiveIndexAppend(ms: seq<MLModel>, m: MLModel)
    requires ActiveIndex(ms).Some?
    ensures ActiveIndex(ms + [m]) == ActiveIndex(ms)
  {
    if ms[0].isActive != "true" {
      assert (ms + [m])[1..] == ms[1..] + [m];
      ActiveIndexAppend(ms[1..], m);
    }
  }

  /** The accuracy `createDraw` writes into the active model once n draws
      are stored: `Math.min(98.5, 85 + (n / 100) * 2)`. */
  function TrainedAccuracy(n: nat): real {
    Min(98.5, 85.0 + (n as real / 100.0) * 2.0)
  }

  /** The accuracy grows with the draw count from 85 and reaches its cap of
      98.5 exactly from 675 draws on; 100 draws give 87. */
  lemma TrainedAccuracyBounds(n: nat)
    ensures 85.0 <= TrainedAccuracy(n) <= 98.5
    ensures n >= 1 ==> TrainedAccuracy(n) > 85.0
    ensures TrainedAccuracy(n) == 98.5 <==> n >= 675
    ensures TrainedAccuracy(100) == 87.0
  {
  }

  function Retrained(m: MLModel, n: nat, now: int): MLModel {
    m.(trainingData := n, lastTrained := now, accuracy := TrainedAccuracy(n))
  }

  /** The models after a draw is stored, when the active model sits at k:
      that model retrained on n draws at time now, in its place. */
  function RetrainAt(ms: seq<MLModel>, k: nat, n: nat, now: int): (r: seq<MLModel>)
    requires k < |ms|
    ensures |r| == |ms|
  {
    ms[k := Retrained(ms[k], n, now)]
  }

  /** Retraining never changes which model is the active one. */
  lemma RetrainAtKeepsActive(ms: seq<MLModel>, k: nat, n: nat, now: int)
    requires k < |ms|
    ensures ActiveIndex(RetrainAt(ms, k, n, now)) == ActiveIndex(ms)
  {
    ActiveIndexKept(ms, k, Retrained(ms[k], n, now));
  }

  /** `getAllDraws`: the stored draws, newest date first, and in insertion
      (id) order among draws of the same date, as the stable sort of the
      `Map`'s values leaves them. */
  ghost predicate DrawsByDate(h: seq<Draw>, draws: seq<Draw>, dateKey: string -> int) {
    && multiset(h) == multiset(draws)
    && (forall i, j :: 0 <= i < j < |h| ==> dateKey(h[i].input.date) >= dateKey(h[j].input.date))
    && (forall i, j :: 0 <= i < j < |h| && dateKey(h[i].input.date) == dateKey(h[j].input.date) ==>
          h[i].id < h[j].id)
  }

  /** Over draws with distinct ids there is exactly one such listing. */
  lemma DrawsByDateUnique(h1: seq<Draw>, h2: seq<Draw>, draws: seq<Draw>, dateKey: string -> int)
    requires forall i, j :: 0 <= i < j < |draws| ==> draws[i].id != draws[j].id
    requires DrawsByDate(h1, draws, dateKey) && DrawsByDate(h2, draws, dateKey)
    ensures h1 == h2
  {
    var key := (d: Draw) => dateKey(d.input.date);
    assert SortedDescBy(h1, key) && StableBy(h1, key, DrawId);
    assert SortedDescBy(h2, key) && StableBy(h2, key, DrawId);
    forall x, y | x in h1 && y in h1 && DrawId(x) == DrawId(y)
      ensures x == y
    {
      assert x in multiset(draws) && y in multiset(draws);
      var i :| 0 <= i < |draws| && draws[i] == x;
      var j :| 0 <= j < |draws| && draws[j] == y;
    }
    SortedByUnique(h1, h2, key, DrawId);
  }

  /** The id discipline of the three maps, on their values. */
  ghost predicate IdsValidState(draws: seq<Draw>, predictionsList: seq<Prediction>, models: seq<MLModel>,
                                currentDrawId: int, currentPredictionId: int, currentModelId: int)
  {
    && IdsBelow(draws, DrawId, currentDrawId)
    && IdsBelow(predictionsList, PredictionId, currentPredictionId)
    && IdsBelow(models, ModelId, currentModelId)
  }

  /** The store invariant, on the values of the fields: ids as above, there
      is always an active model, and the active model's trainingData is the
      number of stored draws. */
  ghost predicate ValidState(draws: seq<Draw>, predictionsList: seq<Prediction>, models: seq<MLModel>,
                             currentDrawId: int, currentPredictionId: int, currentModelId: int)
  {
    && IdsValidState(draws, predictionsList, models, currentDrawId, currentPredictionId, currentModelId)
    && ActiveIndex(models).Some?
    && models[ActiveIndex(models).value].trainingData == |draws|
  }

  /** `createDraw` on a valid store: the draw is appended under the next id,
      the active model is rewritten in place, and the store stays valid. */
  lemma DrawAdded(draws: seq<Draw>, predictionsList: seq<Prediction>, models: seq<MLModel>,
                  cd: int, cp: int, cm: int, draw: Draw, now: int)
    requires ValidState(draws, predictionsList, models, cd, cp, cm) && draw.id == cd
    ensures MapSet(draws, DrawId, draw) == draws + [draw]
    ensures var k := ActiveIndex(models).value;
      var updated := Retrained(models[k], |draws| + 1, now);
      && MapSet(models, ModelId, updated) == models[k := updated]
      && ValidState(draws + [draw], predictionsList, models[k := updated], cd + 1, cp, cm)
  {
    FreshIdAppend(draws, DrawId, cd, draw);
    var k := ActiveIndex(models).value;
    var updated := Retrained(models[k], |draws| + 1, now);
    IndexOfStored(models, ModelId, cm, k);
    SameIdUpdate(models, ModelId, cm, k, updated);
    ActiveIndexKept(models, k, updated);
  }

  /** `createPrediction` on a valid store appends under the next id and
      keeps the store valid. */
  lemma PredictionAdded(draws: seq<Draw>, predictionsList: seq<Prediction>, models: seq<MLModel>,
                        cd: int, cp: int, cm: int, prediction: Prediction)
    requires ValidState(draws, predictionsList, models, cd, cp, cm) && prediction.id == cp
    ensures MapSet(predictionsList, PredictionId, prediction) == predictionsList + [prediction]
    ensures ValidState(draws, predictionsList + [prediction], models, cd, cp + 1, cm)
  {
    FreshIdAppend(predictionsList, PredictionId, cp, prediction);
  }

  /** `createModel` appends under the next id, keeps the id discipline, and
      keeps a valid store valid: an existing active model stays in front. */
  lemma ModelAdded(draws: seq<Draw>, predictionsList: seq<Prediction>, models: seq<MLModel>,
                   cd: int, cp: int, cm: int, model: MLModel)
    requires IdsValidState(draws, predictionsList, models, cd, cp, cm) && model.id == cm
    ensures MapSet(models, ModelId, model) == models + [model]
    ensures IdsValidState(draws, predictionsList, models + [model], cd, cp, cm + 1)
    ensures ValidState(draws, predictionsList, models, cd, cp, cm) ==>
      ValidState(draws, predictionsList, models + [model], cd, cp, cm + 1)
  {
    FreshIdAppend(models, ModelId, cm, model);
    if ActiveIndex(models).Some? {
      ActiveIndexAppend(models, model);
      var k := ActiveIndex(models).value;
      assert (models + [model])[k] == models[k];
    }
  }

  /** `updateModelAccuracy` of a stored model rewrites it in place and keeps
      the store valid. */
  lemma ModelUpdated(draws: seq<Draw>, predictionsList: seq<Prediction>, models: seq<MLModel>,
                     cd: int, cp: int, cm: int, k: nat, updated: MLModel)
    requires ValidState(draws, predictionsList, models, cd, cp, cm) && k < |models|
    requires updated == models[k].(accuracy := updated.accuracy, lastTrained := updated.lastTrained)
    ensures MapSet(models, ModelId, updated) == models[k := updated]
    ensures ValidState(draws, predictionsList, MapSet(models, ModelId, updated), cd, cp, cm)
  {
    IndexOfStored(models, ModelId, cm, k);
    SameIdUpdate(models, ModelId, cm, k, updated);
    ActiveIndexKept(models, k, updated);
  }

  /** A fresh or cleared store holding only the default model satisfies the
      store invariant. */
  lemma DefaultStore(now: int)
    ensures IdsValidState([], [], [], 1, 1, 1)
    ensures var m := MLModel(1, DefaultModel.version, DefaultModel.accuracy, DefaultModel.trainingData, now, DefaultModel.isActive);
      && [] + [m] == [MLModel(1, DefaultVersion, 75.0, 0, now, "true")]
      && ValidState([], [], [] + [m], 1, 1, 2)
  {
    var m := MLModel(1, DefaultModel.version, DefaultModel.accuracy, DefaultModel.trainingData, now, DefaultModel.isActive);
    assert [] + [m] == [m];
    assert ActiveIndex([m]) == Some(0);
  }

  /** `map.get(id)` finds nothing exactly when no stored model has that id. */
  lemma ModelMissing(models: seq<MLModel>, id: int)
    ensures IndexOfId(models, ModelId, id).None? <==> forall m :: m in models ==> m.id != id
  {
    if IndexOfId(models, ModelId, id).Some? {
      var k := IndexOfId(models, ModelId, id).value;
      assert models[k] in models;
    }
  }

  class MemStorage {
    var draws: seq<Draw>
    var predictionsList: seq<Prediction>
    var models: seq<MLModel>
    var currentDrawId: int
    var currentPredictionId: int
    var currentModelId: int

    /** The id discipline of the three maps. */
    ghost predicate IdsValid()
      reads this
    {
      IdsValidState(draws, predictionsList, models, currentDrawId, currentPredictionId, currentModelId)
    }

    /** The store invariant (see ValidState). */
    ghost predicate Valid()
      reads this
    {
      ValidState(draws, predictionsList, models, currentDrawId, currentPredictionId, currentModelId)
    }

    constructor (now: int)
      ensures Valid()
      ensures draws == [] && predictionsList == []
      ensures models == [MLModel(1, DefaultVersion, 75.0, 0, now, "true")]
      ensures currentDrawId == 1 && currentPredictionId == 1 && currentModelId == 2
    {
      draws := [];
      predictionsList := [];
      models := [];
      currentDrawId := 1;
      currentPredictionId := 1;
      currentModelId := 1;
      new;
      DefaultStore(now);
      var _ := CreateModel(DefaultModel, now);
    }

    method CreateDraw(input: DrawInput, now: int) returns (draw: Draw)
      requires Valid()
      modifies this
      ensures Valid()
      ensures draw == Draw(old(currentDrawId), input, now)
      ensures draws == old(draws) + [draw]
      ensures currentDrawId == old(currentDrawId) + 1
      ensures models == RetrainAt(old(models), ActiveIndex(old(models)).value, |draws|, now)
      ensures predictionsList == old(predictionsList)
      ensures currentPredictionId == old(currentPredictionId) && currentModelId == old(currentModelId)
    {
      var id := currentDrawId;
      draw := Draw(id, input, now);
      DrawAdded(draws, predictionsList, models, id, currentPredictionId, currentModelId, draw, now);
      currentDrawId := currentDrawId + 1;
      draws := MapSet(draws, DrawId, draw);

      var activeModel := GetActiveModel();
      match activeModel {
        case Some(m) =>
          var totalDraws := |draws|;
          var updatedModel := Retrained(m, totalDraws, now);
          models := MapSet(models, ModelId, updatedModel);
        case None =>
          assert false;
      }
    }

    /** `getAllDraws`: every stored draw once, latest date first, where
        dateKey stands for `new Date(date).getTime()`. */
    method GetAllDraws(dateKey: string -> int) returns (r: seq<Draw>)
      requires IdsValid()
      ensures multiset(r) == multiset(draws)
      ensures forall i, j :: 0 <= i < j < |r| ==> dateKey(r[i].input.date) >= dateKey(r[j].input.date)
      ensures forall i, j :: 0 <= i < j < |r| && dateKey(r[i].input.date) == dateKey(r[j].input.date) ==>
        r[i].id < r[j].id
    {
      var key := (d: Draw) => dateKey(d.input.date);
      SortDescStable(draws, key, DrawId);
      r := SortDescBy(draws, key);
    }

    /** `getDrawsByDateRange`: exactly the draws dated from start to end,
        both included. */
    method GetDrawsByDateRange(startDate: string, endDate: string, dateKey: string -> int) returns (r: seq<Draw>)
      requires IdsValid()
      ensures forall d :: d in r <==> d in draws && dateKey(startDate) <= dateKey(d.input.date) <= dateKey(endDate)
      ensures forall i, j :: 0 <= i < j < |r| ==> r[i].id < r[j].id
    {
      var start := dateKey(startDate);
      var end := dateKey(endDate);
      var inRange := (d: Draw) => start <= dateKey(d.input.date) <= end;
      FilterIncreasing(draws, inRange, DrawId);
      r := Filter(draws, inRange);
      assert IncreasingBy(r, DrawId);
    }

    method CreatePrediction(input: PredictionInput, now: int) returns (prediction: Prediction)
      requires Valid()
      modifies this
      ensures Valid()
      ensures prediction == Prediction(old(currentPredictionId), input, now)
      ensures predictionsList == old(predictionsList) + [prediction]
      ensures currentPredictionId == old(currentPredictionId) + 1
      ensures draws == old(draws) && models == old(models)
      ensures currentDrawId == old(currentDrawId) && currentModelId == old(currentModelId)
    {
      var id := currentPredictionId;
      prediction := Prediction(id, input, now);
      PredictionAdded(draws, predictionsList, models, currentDrawId, id, currentModelId, prediction);
      currentPredictionId := currentPredictionId + 1;
      predictionsList := MapSet(predictionsList, PredictionId, prediction);
    }

    /** `getLatestPrediction`: the head of the list sorted newest first, so
        the first-inserted of the predictions with the latest createdAt. */
    method GetLatestPrediction() returns (r: Option<Prediction>)
      ensures r.None? <==> predictionsList == []
      ensures r.Some? ==> r.value == predictionsList[FirstMaxIndex(predictionsList, PredictionCreatedAt)]
    {
      var sorted := SortDescBy(predictionsList, PredictionCreatedAt);
      if |sorted| == 0 {
        r := None;
      } else {
        SortDescHead(predictionsList, PredictionCreatedAt);
        r := Some(sorted[0]);
      }
    }

    /** `getAllPredictions`: every prediction once, newest first. */
    method GetAllPredictions() returns (r: seq<Prediction>)
      requires IdsValid()
      ensures multiset(r) == multiset(predictionsList)
      ensures forall i, j :: 0 <= i < j < |r| ==> r[i].createdAt >= r[j].createdAt
      ensures forall i, j :: 0 <= i < j < |r| && r[i].createdAt == r[j].createdAt ==> r[i].id < r[j].id
    {
      SortDescStable(predictionsList, PredictionCreatedAt, PredictionId);
      r := SortDescBy(predictionsList, PredictionCreatedAt);
    }

    method CreateModel(input: ModelInput, now: int) returns (model: MLModel)
      requires IdsValid()
      modifies this
      ensures IdsValid()
      ensures old(Valid()) ==> Valid()
      ensures model == MLModel(old(currentModelId), input.version, input.accuracy, input.trainingData, now, input.isActive)
      ensures models == old(models) + [model]
      ensures currentModelId == old(currentModelId) + 1
      ensures draws == old(draws) && predictionsList == old(predictionsList)
      ensures currentDrawId == old(currentDrawId) && currentPredictionId == old(currentPredictionId)
    {
      var id := currentModelId;
      model := MLModel(id, input.version, input.accuracy, input.trainingData, now, input.isActive);
      ModelAdded(draws, predictionsList, models, currentDrawId, currentPredictionId, id, model);
      currentModelId := currentModelId + 1;
      models := MapSet(models, ModelId, model);
    }

    /** `getActiveModel`: the first model, in insertion order, whose
        isActive is "true"; a valid store always has one. */
    method GetActiveModel() returns (r: Option<MLModel>)
      ensures r.None? <==> forall m :: m in models ==> m.isActive != "true"
      ensures r.Some? ==> r.value == models[ActiveIndex(models).value]
      ensures r.Some? ==> r.value.isActive == "true"
      ensures r.Some? <==> ActiveIndex(models).Some?
    {
      match ActiveIndex(models) {
        case None => r := None;
        case Some(k) => r := Some(models[k]);
      }
    }

    /** `updateModelAccuracy`: an unknown id (one no stored model has, see
        ModelMissing) is an error and changes nothing; a known id gets the new
        accuracy and a new lastTrained in place, nothing else. */
    method UpdateModelAccuracy(id: int, accuracy: real, now: int) returns (r: Result<MLModel, StoreError>)
      requires Valid()
      modifies this
      ensures Valid()
      ensures match IndexOfId(old(models), ModelId, id)
        case None => r == Failure(ModelNotFound(id)) && models == old(models)
        case Some(k) =>
          (r == Success(old(models)[k].(accuracy := accuracy, lastTrained := now)) && models == old(models)[k := r.value])
      ensures draws == old(draws) && predictionsList == old(predictionsList)
      ensures currentDrawId == old(currentDrawId) && currentPredictionId == old(currentPredictionId)
      ensures currentModelId == old(currentModelId)
    {
      match IndexOfId(models, ModelId, id) {
        case None =>
          r := Failure(ModelNotFound(id));
        case Some(k) =>
          var updatedModel := models[k].(accuracy := accuracy, lastTrained := now);
          ModelUpdated(draws, predictionsList, models, currentDrawId, currentPredictionId, currentModelId, k, updatedModel);
          models := MapSet(models, ModelId, updatedModel);
          r := Success(updatedModel);
      }
    }

    /** `getAllModels`: every model once, most recently trained first. */
    method GetAllModels() returns (r: seq<MLModel>)
      requires IdsValid()
      ensures multiset(r) == multiset(models)
      ensures forall i, j :: 0 <= i < j < |r| ==> r[i].lastTrained >= r[j].lastTrained
      ensures forall i, j :: 0 <= i < j < |r| && r[i].lastTrained == r[j].lastTrained ==> r[i].id < r[j].id
    {
      SortDescStable(models, ModelLastTrained, ModelId);
      r := SortDescBy(models, ModelLastTrained);
    }

    /** `clearAllData`: empties the three maps, restarts every id at 1 and
        re-creates the default model, which gets id 1 again. */
    method ClearAllData(now: int)
      modifies this
      ensures Valid()
      ensures draws == [] && predictionsList == []
      ensures models == [MLModel(1, DefaultVersion, 75.0, 0, now, "true")]
      ensures currentDrawId == 1 && currentPredictionId == 1 && currentModelId == 2
    {
      draws := [];
      predictionsList := [];
      models := [];
      currentDrawId := 1;
      currentPredictionId := 1;
      currentModelId := 1;
      DefaultStore(now);
      var _ := CreateModel(DefaultModel, now);
    }
  }
}
