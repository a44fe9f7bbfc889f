/** The three record kinds of the store. Timestamps (`createdAt`,
    `lastTrained`) are milliseconds since the epoch, supplied by the caller
    where the source reads the clock. Number lists are plain integer lists:
    the insert schema does not check their length or range. */
module Schema {

  /** What a caller hands to `createDraw`. */
  datatype DrawInput = DrawInput(
    date: string,
    drawNumber: int,
    mainNumbers: seq<int>,
    luckyStars: seq<int>,
    jackpotAmount: real,
    jackpotWon: string)

  datatype Draw = Draw(id: int, input: DrawInput, createdAt: int)

  /** The main-number lists of a history, draw by draw, in history order. */
  function MainGroups(history: seq<Draw>): seq<seq<int>> {
    seq(|history|, i requires 0 <= i < |history| => history[i].input.mainNumbers)
  }

  /** The lucky-star lists of a history, draw by draw, in history order. */
  function StarGroups(history: seq<Draw>): seq<seq<int>> {
    seq(|history|, i requires 0 <= i < |history| => history[i].input.luckyStars)
  }

  /** What a caller hands to `createPrediction`. */
  datatype PredictionInput = PredictionInput(
    mainNumbers: seq<int>,
    luckyStars: seq<int>,
    confidenceScore: real,
    modelVersion: string,
    patternMatch: string)

  datatype Prediction = Prediction(id: int, input: PredictionInput, createdAt: int)

  /** What a caller hands to `createModel`. */
  datatype ModelInput = ModelInput(version: string, accuracy: real, trainingData: int, isActive: string)

  datatype MLModel = MLModel(
    id: int,
    version: string,
    accuracy: real,
    trainingData: int,
    lastTrained: int,
    isActive: string)

  const DefaultVersion: string := "v2.4.1"

  /** The model the store is created with and re-created with after a reset. */
  const DefaultModel: ModelInput := ModelInput(DefaultVersion, 75.0, 0, "true")

  /** The threshold label of a confidence score, used by the server's
      generator and by the client engine alike. */
  function PatternLabel(confidence: real): (tag: string)
    ensures tag == "High" <==> confidence >= 85.0
    ensures tag == "Medium" <==> 70.0 <= confidence < 85.0
    ensures tag == "Low" <==> confidence < 70.0
  {
    if confidence >= 85.0 then "High"
    else if confidence >= 70.0 then "Medium"
    else "Low"
  }
}
