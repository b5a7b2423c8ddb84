/**
 * The prediction input of `handlePredict`, the NaN-to-0 copy that
 * `predictRiskFromInput` feeds to the network, and the two fixed what-if
 * scenarios of `renderWhatIfScenarios`. The network is an opaque function
 * into [0, 1].
 */
module Prediction {
  import opened JsValues
  import Training

  type Probability = p: real | 0.0 <= p <= 1.0

  /** A fitted TensorFlow.js model, seen only through `predict`. */
  datatype TrainedModel = TrainedModel(predict: seq<JsValue> -> Probability)

  /** The `input` object built in `handlePredict`, one field per entry of `featureNames`. */
  datatype Input = Input(
    gender: JsValue,
    age: JsValue,
    hypertension: JsValue,
    heartDisease: JsValue,
    smokingHistory: JsValue,
    bmi: JsValue,
    hba1c: JsValue,
    bloodGlucose: JsValue)
  {
    /** `input[featureNames[i]]`. */
    function Field(i: nat): JsValue
      requires i < Training.FeatureCount
    {
      match i
      case 0 => gender
      case 1 => age
      case 2 => hypertension
      case 3 => heartDisease
      case 4 => smokingHistory
      case 5 => bmi
      case 6 => hba1c
      case _ => bloodGlucose
    }

    /** `{ ...input, [featureNames[i]]: v }`: a copy with one field replaced. */
    function With(i: nat, v: JsValue): (x: Input)
      requires i < Training.FeatureCount
      ensures x.Field(i) == v
      ensures forall j :: 0 <= j < Training.FeatureCount && j != i ==> x.Field(j) == Field(j)
    {
      match i
      case 0 => this.(gender := v)
      case 1 => this.(age := v)
      case 2 => this.(hypertension := v)
      case 3 => this.(heartDisease := v)
      case 4 => this.(smokingHistory := v)
      case 5 => this.(bmi := v)
      case 6 => this.(hba1c := v)
      case _ => this.(bloodGlucose := v)
    }
  }

  const BmiIndex: nat := 5
  const HbA1cIndex: nat := 6

  /** Two inputs that agree on every feature are the same input. */
  lemma InputExtensionality(x: Input, y: Input)
    requires forall i :: 0 <= i < Training.FeatureCount ==> x.Field(i) == y.Field(i)
    ensures x == y
  {
    assert x.Field(0) == y.Field(0) && x.Field(1) == y.Field(1) && x.Field(2) == y.Field(2);
    assert x.Field(3) == y.Field(3) && x.Field(4) == y.Field(4) && x.Field(5) == y.Field(5);
    assert x.Field(6) == y.Field(6) && x.Field(7) == y.Field(7);
  }

  /** `featureNames.map(f => safeInput[f])`. */
  function InputArray(x: Input): (a: seq<JsValue>)
    ensures |a| == Training.FeatureCount
    ensures forall i :: 0 <= i < Training.FeatureCount ==> a[i] == x.Field(i)
  {
    [x.gender, x.age, x.hypertension, x.heartDisease, x.smokingHistory, x.bmi, x.hba1c, x.bloodGlucose]
  }

  // ---------- building the input from the form ----------

  /** The raw text of the eight form controls. */
  datatype PredictionForm = PredictionForm(
    gender: string,
    age: string,
    hypertension: string,
    heartDisease: string,
    smokingHistory: string,
    bmi: string,
    hba1c: string,
    bloodGlucose: string)

  /** The category codes of `smoking_history`. */
  const SmokingMap: map<string, real> :=
    map["Never" := 0.0, "No Info" := 1.0, "Current" := 2.0, "Former" := 3.0, "Ever" := 4.0, "Not Current" := 5.0]

  /** `value === yes ? 1 : 0`. */
  function Flag(value: string, yes: string): (v: JsValue)
    ensures v == Num(1.0) <==> value == yes
    ensures v == Num(0.0) <==> value != yes
  {
    Num(if value == yes then 1.0 else 0.0)
  }

  /** An optional field: the empty string is NaN, anything else is parsed. */
  function Optional(parse: JsParse, raw: string): JsValue {
    if raw == "" then NaN else FromParse(parse.parseFloat(raw))
  }

  /** The `input` object of `handlePredict`. */
  function BuildInput(parse: JsParse, form: PredictionForm): (x: Input)
    ensures x.gender == Num(0.0) <==> form.gender == "Female"
    ensures x.gender == Num(1.0) <==> form.gender != "Female"
    ensures x.hypertension == Num(1.0) <==> form.hypertension == "Yes"
    ensures x.hypertension == Num(0.0) <==> form.hypertension != "Yes"
    ensures x.heartDisease == Num(1.0) <==> form.heartDisease == "Yes"
    ensures x.heartDisease == Num(0.0) <==> form.heartDisease != "Yes"
    ensures form.smokingHistory in SmokingMap ==> x.smokingHistory == Num(SmokingMap[form.smokingHistory])
    ensures x.smokingHistory == Undefined <==> form.smokingHistory !in SmokingMap
    ensures x.bmi == NaN <==> form.bmi == "" || parse.parseFloat(form.bmi) == None
    ensures x.hba1c == NaN <==> form.hba1c == "" || parse.parseFloat(form.hba1c) == None
    ensures form.bmi != "" ==> x.bmi == FromParse(parse.parseFloat(form.bmi))
    ensures form.hba1c != "" ==> x.hba1c == FromParse(parse.parseFloat(form.hba1c))
    ensures x.age == FromParse(parse.parseFloat(form.age))
    ensures x.bloodGlucose == FromParse(parse.parseFloat(form.bloodGlucose))
    ensures x.age != Undefined && x.bloodGlucose != Undefined
  {
    Input(
      gender := Num(if form.gender == "Female" then 0.0 else 1.0),
      age := FromParse(parse.parseFloat(form.age)),
      hypertension := Flag(form.hypertension, "Yes"),
      heartDisease := Flag(form.heartDisease, "Yes"),
      smokingHistory := if form.smokingHistory in SmokingMap then Num(SmokingMap[form.smokingHistory]) else Undefined,
      bmi := Optional(parse, form.bmi),
      hba1c := Optional(parse, form.hba1c),
      bloodGlucose := FromParse(parse.parseFloat(form.bloodGlucose)))
  }

  // ---------- the copy fed to the network ----------

  /** `typeof v === 'number' && isNaN(v) ? 0 : v`; `undefined` is not a number and stays. */
  function ZeroNaN(v: JsValue): (w: JsValue)
    ensures w != NaN
    ensures v != NaN ==> w == v
  {
    if v == NaN then Num(0.0) else v
  }

  /** The `safeInput` copy once the loop over `featureNames` has run. */
  function SafeInput(x: Input): (s: Input)
    ensures forall i :: 0 <= i < Training.FeatureCount ==> s.Field(i) == ZeroNaN(x.Field(i))
  {
    Input(ZeroNaN(x.gender), ZeroNaN(x.age), ZeroNaN(x.hypertension), ZeroNaN(x.heartDisease),
          ZeroNaN(x.smokingHistory), ZeroNaN(x.bmi), ZeroNaN(x.hba1c), ZeroNaN(x.bloodGlucose))
  }

  /** Only the NaN fields change, each to 0, and no NaN is left. */
  lemma SafeInputChangesOnlyNaN(x: Input, i: nat)
    requires i < Training.FeatureCount
    ensures SafeInput(x).Field(i) != NaN
    ensures SafeInput(x).Field(i) != x.Field(i) <==> x.Field(i) == NaN
    ensures x.Field(i) == NaN ==> SafeInput(x).Field(i) == Num(0.0)
  {
  }

  /** The risk the network gives an input: `predictRiskFromInput` without the tensor plumbing. */
  function PredictedProbability(net: TrainedModel, x: Input): Probability {
    net.predict(InputArray(SafeInput(x)))
  }

  /** A missing field predicts exactly like an explicit 0 in that field. */
  lemma MissingPredictsAsZero(net: TrainedModel, x: Input, i: nat)
    requires i < Training.FeatureCount
    requires x.Field(i) == NaN
    ensures PredictedProbability(net, x) == PredictedProbability(net, x.With(i, Num(0.0)))
  {
    var y := x.With(i, Num(0.0));
    forall j | 0 <= j < Training.FeatureCount ensures SafeInput(x).Field(j) == SafeInput(y).Field(j) {
    }
    InputExtensionality(SafeInput(x), SafeInput(y));
  }

  /** Sanitising twice changes nothing more. */
  lemma SafeInputIdempotent(x: Input)
    ensures SafeInput(SafeInput(x)) == SafeInput(x)
  {
  }

  // ---------- what-if scenarios ----------

  const TargetBmi: real := 25.0
  const TargetHbA1c: real := 6.0

  const BmiScenarioTitle: string := "If your BMI were 25.0"
  const HbA1cScenarioTitle: string := "If your HbA1c were 6.0"

  /** `'↓'` or `'↑'`. */
  datatype Arrow = Down | Up

  /** One what-if line: the risk under the scenario and the change in percentage points. */
  datatype Scenario = Scenario(title: string, probability: Probability, delta: real, arrow: Arrow)

  /** `delta = (baseProb - scenarioProb) * 100`, shown with `↓` when it is not negative. */
  function ScenarioOf(title: string, baseProb: real, p: Probability): (s: Scenario)
    ensures s.title == title && s.probability == p
    ensures s.delta * 0.01 == baseProb - p
    ensures s.arrow == Down <==> p <= baseProb
  {
    var delta := (baseProb - p) * 100.0;
    Scenario(title, p, delta, if delta >= 0.0 then Down else Up)
  }

  /** The input of each scenario: one field of the original input overridden. */
  function BmiScenarioInput(x: Input): Input {
    x.With(BmiIndex, Num(TargetBmi))
  }

  function HbA1cScenarioInput(x: Input): Input {
    x.With(HbA1cIndex, Num(TargetHbA1c))
  }

  /** The two scenarios, each computed from the original input rather than from the other. */
  function WhatIfScenarios(net: TrainedModel, baseProb: real, x: Input): (s: seq<Scenario>)
    ensures |s| == 2
    ensures s[0].title == BmiScenarioTitle && s[1].title == HbA1cScenarioTitle
    ensures s[0] == ScenarioOf(BmiScenarioTitle, baseProb, PredictedProbability(net, x.With(BmiIndex, Num(25.0))))
    ensures s[1] == ScenarioOf(HbA1cScenarioTitle, baseProb, PredictedProbability(net, x.With(HbA1cIndex, Num(6.0))))
  {
    [ScenarioOf(BmiScenarioTitle, baseProb, PredictedProbability(net, BmiScenarioInput(x))),
     ScenarioOf(HbA1cScenarioTitle, baseProb, PredictedProbability(net, HbA1cScenarioInput(x)))]
  }

  /** Each scenario overrides exactly its own field and keeps every other one. */
  lemma ScenarioInputsOverrideOneField(x: Input, j: nat)
    requires j < Training.FeatureCount
    ensures BmiScenarioInput(x).bmi == Num(25.0) && HbA1cScenarioInput(x).hba1c == Num(6.0)
    ensures j != BmiIndex ==> BmiScenarioInput(x).Field(j) == x.Field(j)
    ensures j != HbA1cIndex ==> HbA1cScenarioInput(x).Field(j) == x.Field(j)
  {
  }

  /**
   * When the base risk is the network's own prediction for the input and the
   * BMI is already 25, the BMI scenario reports no change, shown as `↓`.
   */
  lemma BmiScenarioAtTargetIsNeutral(net: TrainedModel, x: Input)
    requires x.bmi == Num(TargetBmi)
    ensures var s := WhatIfScenarios(net, PredictedProbability(net, x), x)[0];
            s.delta == 0.0 && s.arrow == Down
  {
  }

  /** The same for HbA1c at 6.0. */
  lemma HbA1cScenarioAtTargetIsNeutral(net: TrainedModel, x: Input)
    requires x.hba1c == Num(TargetHbA1c)
    ensures var s := WhatIfScenarios(net, PredictedProbability(net, x), x)[1];
            s.delta == 0.0 && s.arrow == Down
  {
  }
}
