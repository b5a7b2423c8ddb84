/**
 * The page's global state and the operations that change or read it:
 * loading a parsed dataset (`processParsedData`, `computeEdaStats`),
 * training (`trainModels`), and predicting (`handlePredict`,
 * `predictRiskFromInput`, `renderWhatIfScenarios`). The TensorFlow.js fit
 * and evaluation are one call to a function supplied by the caller.
 */
module Dashboard {
  import opened JsValues
  import opened Dataset
  import opened Eda
  import opened Training
  import opened Prediction
  import opened Explanation

  /** `models = { logistic, neuralNet }`, each `null` until trained. */
  datatype Models = Models(logistic: Option<TrainedModel>, neuralNet: Option<TrainedModel>)

  /** The kernel of the one-unit logistic layer: one coefficient per feature. */
  type Weights = w: seq<real> | |w| == FeatureCount
    witness [0.0, 0.0, 0.0, 0.0, 0.0, 0.0, 0.0, 0.0]

  /** `[loss, accuracy]` from `evaluate` on the test split. */
  datatype Evaluation = Evaluation(loss: real, accuracy: real)

  /**
   * What the two fits, the two evaluations and `getWeights` produce for a
   * training set, or the error any of them throws.
   */
  datatype FitOutcome =
    | Fitted(logistic: TrainedModel, neuralNet: TrainedModel, weights: Weights, logEval: Evaluation, nnEval: Evaluation)
    | FitFailed(message: string)

  datatype LoadOutcome = Loaded | EmptyDataset

  datatype TrainOutcome = NoDataset | Trained(logEval: Evaluation, nnEval: Evaluation) | TrainingFailed(message: string)

  datatype PredictError = ModelNotTrained

  /** Everything a prediction shows: the risk, its label, the factors and the what-if lines. */
  datatype PredictionView = PredictionView(
    probability: Probability,
    level: RiskLevel,
    riskFactors: seq<RiskFactor>,
    scenarios: seq<Scenario>)

  class App {
    var csvData: seq<Row>
    var models: Models
    var classStats: Option<ClassStats>
    var logisticWeights: Option<Weights>
    var edaStats: Option<EdaStats>

    /** The state when the page has loaded. */
    constructor ()
      ensures csvData == [] && models == Models(None, None)
      ensures classStats == None && logisticWeights == None && edaStats == None
    {
      csvData := [];
      models := Models(None, None);
      classStats := None;
      logisticWeights := None;
      edaStats := None;
    }

    /**
     * `processParsedData`: the blank rows are dropped and the result replaces
     * `csvData` even when it is empty; the statistics are recomputed only
     * when it is not, so an empty upload leaves the previous statistics in
     * place.
     */
    method ProcessParsedData(parse: JsParse, rawData: seq<Row>) returns (outcome: LoadOutcome)
      modifies this
      ensures csvData == NonBlank(rawData)
      ensures outcome == EmptyDataset <==> csvData == []
      ensures outcome == EmptyDataset ==> classStats == old(classStats) && edaStats == old(edaStats)
      ensures outcome == Loaded ==>
                classStats == Some(ClassStatsOf(parse, csvData)) && edaStats == Some(EdaOf(parse, csvData))
      ensures models == old(models) && logisticWeights == old(logisticWeights)
    {
      csvData := NonBlank(rawData);
      if |csvData| == 0 {
        return EmptyDataset;
      }
      classStats := Some(ClassStatsOf(parse, csvData));
      ComputeEdaStats(parse);
      outcome := Loaded;
    }

    /** `computeEdaStats`: one pass over `csvData`, bumping one counter per parseable value. */
    method ComputeEdaStats(parse: JsParse)
      modifies this`edaStats
      ensures edaStats == Some(EdaOf(parse, csvData))
    {
      var ageBins := [0, 0, 0, 0, 0];
      var bmiBins := [0, 0, 0, 0, 0];
      var i := 0;
      while i < |csvData|
        invariant 0 <= i <= |csvData|
        invariant ageBins == Histogram(parse, Age, csvData[..i])
        invariant bmiBins == Histogram(parse, Bmi, csvData[..i])
      {
        var row := csvData[i];
        assert csvData[..i + 1] == csvData[..i] + [row];
        HistogramStep(parse, Age, csvData[..i], row);
        HistogramStep(parse, Bmi, csvData[..i], row);
        var age := ParseFloatCell(parse, row, "age");
        if age.Some? {
          var b := AgeBin(age.value);
          ageBins := ageBins[b := ageBins[b] + 1];
        }
        var bmi := ParseFloatCell(parse, row, "bmi");
        if bmi.Some? {
          var b := BmiBin(bmi.value);
          bmiBins := bmiBins[b := bmiBins[b] + 1];
        }
        i := i + 1;
      }
      assert csvData[..i] == csvData;
      edaStats := Some(EdaStats(ageBins, bmiBins));
    }

    /**
     * `trainModels`: refused on an empty dataset; otherwise the sample is
     * encoded and split and handed to `fit`. Models and weights are replaced
     * only once both fits and both evaluations have succeeded; a failure
     * leaves them as they were.
     */
    method TrainModels(parse: JsParse, fit: TrainingData -> FitOutcome) returns (outcome: TrainOutcome)
      modifies this`models, this`logisticWeights
      ensures csvData == [] ==> outcome == NoDataset
      ensures csvData != [] ==>
                match fit(PrepareTraining(parse, csvData))
                case Fitted(logistic, neuralNet, weights, logEval, nnEval) =>
                  outcome == Trained(logEval, nnEval) &&
                  models == Models(Some(logistic), Some(neuralNet)) && logisticWeights == Some(weights)
                case FitFailed(message) => outcome == TrainingFailed(message)
      ensures !outcome.Trained? ==> models == old(models) && logisticWeights == old(logisticWeights)
    {
      if |csvData| == 0 {
        return NoDataset;
      }
      var data := PrepareTraining(parse, csvData);
      match fit(data)
      case Fitted(logistic, neuralNet, weights, logEval, nnEval) =>
        logisticWeights := Some(weights);
        models := models.(logistic := Some(logistic), neuralNet := Some(neuralNet));
        outcome := Trained(logEval, nnEval);
      case FitFailed(message) =>
        outcome := TrainingFailed(message);
    }

    /**
     * `predictRiskFromInput`: a copy of the input has each NaN number set to
     * 0, one field at a time in `featureNames` order, and the network sees
     * that copy. The caller's input is a value and is not changed.
     */
    method PredictRiskFromInput(input: Input) returns (p: Probability)
      requires models.neuralNet.Some?
      ensures p == PredictedProbability(models.neuralNet.value, input)
    {
      var safeInput := input;
      var i := 0;
      while i < FeatureCount
        invariant 0 <= i <= FeatureCount
        invariant forall j :: 0 <= j < i ==> safeInput.Field(j) == ZeroNaN(input.Field(j))
        invariant forall j :: i <= j < FeatureCount ==> safeInput.Field(j) == input.Field(j)
      {
        if safeInput.Field(i) == NaN {
          safeInput := safeInput.With(i, Num(0.0));
        }
        i := i + 1;
      }
      InputExtensionality(safeInput, SafeInput(input));
      p := models.neuralNet.value.predict(InputArray(safeInput));
    }

    /**
     * `renderWhatIfScenarios`: nothing without a network; otherwise the BMI
     * and the HbA1c scenario, each re-predicted from the original input.
     */
    method RenderWhatIfScenarios(baseProb: real, input: Input) returns (scenarios: Option<seq<Scenario>>)
      ensures scenarios.None? <==> models.neuralNet.None?
      ensures models.neuralNet.Some? ==>
                scenarios == Some(WhatIfScenarios(models.neuralNet.value, baseProb, input))
    {
      if models.neuralNet.None? {
        return None;
      }
      var list := [];
      assert input.(bmi := Num(TargetBmi)) == BmiScenarioInput(input);
      assert input.(hba1c := Num(TargetHbA1c)) == HbA1cScenarioInput(input);
      var bmiProb := PredictRiskFromInput(input.(bmi := Num(TargetBmi)));
      list := list + [ScenarioOf(BmiScenarioTitle, baseProb, bmiProb)];
      var hbProb := PredictRiskFromInput(input.(hba1c := Num(TargetHbA1c)));
      list := list + [ScenarioOf(HbA1cScenarioTitle, baseProb, hbProb)];
      assert list == WhatIfScenarios(models.neuralNet.value, baseProb, input);
      scenarios := Some(list);
    }

    /**
     * `handlePredict`: refused until a network is trained; otherwise the
     * form becomes an input, the network predicts, and the result is
     * explained and probed with the what-if scenarios.
     */
    method HandlePredict(parse: JsParse, form: PredictionForm) returns (r: Result<PredictionView, PredictError>)
      ensures r.Failure? <==> models.neuralNet.None?
      ensures r.Failure? ==> r.error == ModelNotTrained
      ensures r.Success? ==>
                var net := models.neuralNet.value;
                var input := BuildInput(parse, form);
                var p := PredictedProbability(net, input);
                && r.value.probability == p
                && r.value.level == RiskLevelOf(p)
                && |r.value.riskFactors| == |DisplayOrder|
                && (forall i :: 0 <= i < |DisplayOrder| ==> r.value.riskFactors[i] == FactorFor(DisplayOrder[i], input))
                && r.value.scenarios == WhatIfScenarios(net, p, input)
    {
      if models.neuralNet.None? {
        return Failure(ModelNotTrained);
      }
      var input := BuildInput(parse, form);
      var p := PredictRiskFromInput(input);
      var level, riskFactors := DisplayResult(p, input);
      var scenarios := RenderWhatIfScenarios(p, input);
      r := Success(PredictionView(p, level, riskFactors, scenarios.value));
    }
  }
}
