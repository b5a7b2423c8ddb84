/**
 * The explanation half of `displayResult`: the three-level risk label and
 * the six risk factors, always in the order HbA1c, blood glucose, BMI,
 * hypertension, heart disease, age. Every numeric test follows JavaScript:
 * a comparison with NaN is false.
 */
module Explanation {
  import opened JsValues
  import opened Prediction
  import Eda

  datatype RiskLevel = High | Moderate | Low {
    /** The text shown in the result panel. */
    function Text(): string {
      match this
      case High => "high"
      case Moderate => "moderate"
      case Low => "low"
    }
  }

  /** `probability > 0.5 ? 'high' : probability > 0.3 ? 'moderate' : 'low'`. */
  function RiskLevelOf(probability: real): (level: RiskLevel)
    ensures level == High <==> probability > 0.5
    ensures level == Moderate <==> 0.3 < probability <= 0.5
    ensures level == Low <==> probability <= 0.3
  {
    if probability > 0.5 then High else if probability > 0.3 then Moderate else Low
  }

  /** The level only rises with the probability. */
  lemma RiskLevelMonotone(p: real, q: real)
    requires p <= q
    ensures RiskLevelOf(p) == High ==> RiskLevelOf(q) == High
    ensures RiskLevelOf(q) == Low ==> RiskLevelOf(p) == Low
  {
  }

  /** The `type` of a risk factor. */
  datatype FactorType = Risk | Protective

  /** The `value` of a risk factor: the input number, or a fixed text. */
  datatype FactorValue = Number(v: JsValue) | Literal(s: string)

  /** The `name` of a risk factor; `Text()` is the label shown. */
  datatype FactorName =
    | HighHbA1c | NormalHbA1c | BorderlineHbA1c | HbA1cMissing
    | HighGlucose | NormalGlucose | BorderlineGlucose
    | HighBmi | OverweightBmi | HealthyBmi | LowBmi | BmiMissing
    | HypertensionPresent | NoHypertension
    | HeartDiseasePresent | NoHeartDisease
    | AgeName
  {
    function Text(): string {
      match this
      case HighHbA1c => "High HbA1c Level"
      case NormalHbA1c => "Normal HbA1c"
      case BorderlineHbA1c => "Borderline HbA1c"
      case HbA1cMissing => "HbA1c"
      case HighGlucose => "High Blood Glucose"
      case NormalGlucose => "Normal Blood Glucose"
      case BorderlineGlucose => "Borderline Blood Glucose"
      case HighBmi => "High BMI"
      case OverweightBmi => "Overweight BMI"
      case HealthyBmi => "Healthy BMI"
      case LowBmi => "Low BMI"
      case BmiMissing => "BMI"
      case HypertensionPresent => "Hypertension Present"
      case NoHypertension => "No Hypertension"
      case HeartDiseasePresent => "Heart Disease Present"
      case NoHeartDisease => "No Heart Disease"
      case AgeName => "Age"
    }

    /** The clinical dimension the name belongs to. */
    function Dimension(): Dimension {
      match this
      case HighHbA1c | NormalHbA1c | BorderlineHbA1c | HbA1cMissing => HbA1c
      case HighGlucose | NormalGlucose | BorderlineGlucose => Glucose
      case HighBmi | OverweightBmi | HealthyBmi | LowBmi | BmiMissing => BodyMass
      case HypertensionPresent | NoHypertension => Hypertension
      case HeartDiseasePresent | NoHeartDisease => HeartDisease
      case AgeName => AgeGroup
    }
  }

  /** The `comment` of a risk factor; `Text()` is the sentence shown. */
  datatype Comment =
    | DiabetesRange | NormalA1c | PreDiabetesRange | NoHbA1cEntered
    | HighGlucoseRange | NormalGlucoseRange | ElevatedGlucose
    | SeverelyObese | Obese | Overweight | Healthy | Underweight | NoBmiEntered
    | KnownCardiovascularRisk | NoHighBloodPressure
    | SignificantCardiovascularRisk | NoHeartDiseaseReported
    | YoungerAdult | MidAgeAdult | HigherAgeRisk | OlderAgeGroup
  {
    function Text(): string {
      match this
      case DiabetesRange => "High (≥ 6.5, diabetes range)"
      case NormalA1c => "Normal (< 5.7)"
      case PreDiabetesRange => "Elevated (5.7–6.4, pre-diabetes range)"
      case NoHbA1cEntered => "No HbA1c value entered, model used other features only"
      case HighGlucoseRange => "High (≥ 126 mg/dL)"
      case NormalGlucoseRange => "Normal (< 100 mg/dL)"
      case ElevatedGlucose => "Elevated (100–125 mg/dL)"
      case SeverelyObese => "Severely obese (≥ 35)"
      case Obese => "Obese (30–34.9)"
      case Overweight => "Overweight (25–29.9)"
      case Healthy => "Healthy range (18.5–24.9)"
      case Underweight => "Underweight (< 18.5)"
      case NoBmiEntered => "No BMI value entered, you can calculate it using weight and height"
      case KnownCardiovascularRisk => "Known cardiovascular risk factor"
      case NoHighBloodPressure => "No diagnosed high blood pressure"
      case SignificantCardiovascularRisk => "Significant cardiovascular risk factor"
      case NoHeartDiseaseReported => "No diagnosed heart disease reported"
      case YoungerAdult => "Younger adult (lower age-related risk)"
      case MidAgeAdult => "Mid-age adult (moderate age-related risk)"
      case HigherAgeRisk => "Higher age-related risk (45–59)"
      case OlderAgeGroup => "Older age group (≥ 60, higher risk)"
    }
  }

  /** `{ name, value, type, comment }`. */
  datatype RiskFactor = RiskFactor(name: FactorName, value: FactorValue, kind: FactorType, comment: Comment)

  const NotProvided: string := "Not provided"

  /** The clinical dimension a factor speaks about. */
  datatype Dimension = HbA1c | Glucose | BodyMass | Hypertension | HeartDisease | AgeGroup

  /** The order in which `displayResult` pushes the factors. */
  const DisplayOrder: seq<Dimension> := [HbA1c, Glucose, BodyMass, Hypertension, HeartDisease, AgeGroup]

  /** HbA1c, optional: above 6.5 diabetes range, below 5.7 normal, otherwise pre-diabetes. */
  function HbA1cFactor(v: JsValue): (f: RiskFactor)
    ensures f.name.Dimension() == HbA1c
    ensures f.value == Literal(NotProvided) <==> IsNaN(v)
    ensures !IsNaN(v) ==> f.value == Number(v)
    ensures f.kind == Risk <==> Ge(v, 5.7)
    ensures f.name == HighHbA1c <==> Gt(v, 6.5)
    ensures f.name == BorderlineHbA1c <==> v.Num? && 5.7 <= v.n <= 6.5
    ensures f.name == NormalHbA1c <==> Lt(v, 5.7)
    ensures f.name == HbA1cMissing <==> IsNaN(v)
    ensures f.comment == DiabetesRange <==> f.name == HighHbA1c
    ensures f.comment == NormalA1c <==> f.name == NormalHbA1c
    ensures f.comment == PreDiabetesRange <==> f.name == BorderlineHbA1c
    ensures f.comment == NoHbA1cEntered <==> f.name == HbA1cMissing
  {
    if !IsNaN(v) then
      if Gt(v, 6.5) then RiskFactor(HighHbA1c, Number(v), Risk, DiabetesRange)
      else if Lt(v, 5.7) then RiskFactor(NormalHbA1c, Number(v), Protective, NormalA1c)
      else RiskFactor(BorderlineHbA1c, Number(v), Risk, PreDiabetesRange)
    else
      RiskFactor(HbA1cMissing, Literal(NotProvided), Protective, NoHbA1cEntered)
  }

  /** Blood glucose, never treated as missing: a NaN fails both tests and reads as borderline. */
  function GlucoseFactor(v: JsValue): (f: RiskFactor)
    ensures f.name.Dimension() == Glucose
    ensures f.value == Number(v)
    ensures f.kind == Protective <==> Lt(v, 100.0)
    ensures f.name == HighGlucose <==> Gt(v, 125.0)
    ensures f.name == BorderlineGlucose <==> !Gt(v, 125.0) && !Lt(v, 100.0)
    ensures f.comment == HighGlucoseRange <==> f.name == HighGlucose
    ensures f.comment == NormalGlucoseRange <==> f.name == NormalGlucose
    ensures f.comment == ElevatedGlucose <==> f.name == BorderlineGlucose
  {
    if Gt(v, 125.0) then RiskFactor(HighGlucose, Number(v), Risk, HighGlucoseRange)
    else if Lt(v, 100.0) then RiskFactor(NormalGlucose, Number(v), Protective, NormalGlucoseRange)
    else RiskFactor(BorderlineGlucose, Number(v), Risk, ElevatedGlucose)
  }

  /** BMI, optional: five bands, closed below; only the healthy band is protective. */
  function BmiFactor(v: JsValue): (f: RiskFactor)
    ensures f.name.Dimension() == BodyMass
    ensures f.value == Literal(NotProvided) <==> IsNaN(v)
    ensures !IsNaN(v) ==> f.value == Number(v)
    ensures f.kind == Protective <==> IsNaN(v) || (18.5 <= v.n < 25.0)
    ensures f.comment == SeverelyObese <==> Ge(v, 35.0)
    ensures f.comment == Obese <==> v.Num? && 30.0 <= v.n < 35.0
    ensures f.comment == Overweight <==> v.Num? && 25.0 <= v.n < 30.0
    ensures f.comment == Healthy <==> v.Num? && 18.5 <= v.n < 25.0
    ensures f.comment == Underweight <==> Lt(v, 18.5)
    ensures f.name == HighBmi <==> Ge(v, 30.0)
    ensures f.name == OverweightBmi <==> f.comment == Overweight
    ensures f.name == HealthyBmi <==> f.comment == Healthy
    ensures f.name == LowBmi <==> f.comment == Underweight
    ensures f.name == BmiMissing <==> IsNaN(v)
    ensures f.comment == NoBmiEntered <==> IsNaN(v)
  {
    if !IsNaN(v) then
      if Ge(v, 30.0) then RiskFactor(HighBmi, Number(v), Risk, if Ge(v, 35.0) then SeverelyObese else Obese)
      else if Ge(v, 25.0) then RiskFactor(OverweightBmi, Number(v), Risk, Overweight)
      else if Ge(v, 18.5) then RiskFactor(HealthyBmi, Number(v), Protective, Healthy)
      else RiskFactor(LowBmi, Number(v), Risk, Underweight)
    else
      RiskFactor(BmiMissing, Literal(NotProvided), Protective, NoBmiEntered)
  }

  /** `input.hypertension === 1`. */
  function HypertensionFactor(v: JsValue): (f: RiskFactor)
    ensures f.name.Dimension() == Hypertension
    ensures f.kind == Risk <==> v == Num(1.0)
    ensures f.value == Literal(if v == Num(1.0) then "Yes" else "No")
    ensures f.name == HypertensionPresent <==> v == Num(1.0)
    ensures f.comment == KnownCardiovascularRisk <==> v == Num(1.0)
    ensures f.name == NoHypertension <==> f.comment == NoHighBloodPressure
  {
    if v == Num(1.0) then RiskFactor(HypertensionPresent, Literal("Yes"), Risk, KnownCardiovascularRisk)
    else RiskFactor(NoHypertension, Literal("No"), Protective, NoHighBloodPressure)
  }

  /** `input.heart_disease === 1`. */
  function HeartDiseaseFactor(v: JsValue): (f: RiskFactor)
    ensures f.name.Dimension() == HeartDisease
    ensures f.kind == Risk <==> v == Num(1.0)
    ensures f.value == Literal(if v == Num(1.0) then "Yes" else "No")
    ensures f.name == HeartDiseasePresent <==> v == Num(1.0)
    ensures f.comment == SignificantCardiovascularRisk <==> v == Num(1.0)
    ensures f.name == NoHeartDisease <==> f.comment == NoHeartDiseaseReported
  {
    if v == Num(1.0) then RiskFactor(HeartDiseasePresent, Literal("Yes"), Risk, SignificantCardiovascularRisk)
    else RiskFactor(NoHeartDisease, Literal("No"), Protective, NoHeartDiseaseReported)
  }

  /**
   * Age: the comment comes from four buckets, the type from a separate
   * `age >= 45` test. A NaN age fails every `<` test and so gets the oldest
   * bucket's comment, while failing `>= 45` makes it protective.
   */
  function AgeFactor(v: JsValue): (f: RiskFactor)
    ensures f.name.Dimension() == AgeGroup
    ensures f.value == Number(v)
    ensures f.kind == Risk <==> Ge(v, 45.0)
    ensures f.comment == YoungerAdult <==> Lt(v, 35.0)
    ensures f.comment == MidAgeAdult <==> v.Num? && 35.0 <= v.n < 45.0
    ensures f.comment == HigherAgeRisk <==> v.Num? && 45.0 <= v.n < 60.0
    ensures f.comment == OlderAgeGroup <==> !Lt(v, 60.0)
  {
    var comment :=
      if Lt(v, 35.0) then YoungerAdult
      else if Lt(v, 45.0) then MidAgeAdult
      else if Lt(v, 60.0) then HigherAgeRisk
      else OlderAgeGroup;
    RiskFactor(AgeName, Number(v), if Ge(v, 45.0) then Risk else Protective, comment)
  }

  /** The factor for one dimension of the input. */
  function FactorFor(d: Dimension, x: Input): (f: RiskFactor)
    ensures f.name.Dimension() == d
  {
    match d
    case HbA1c => HbA1cFactor(x.hba1c)
    case Glucose => GlucoseFactor(x.bloodGlucose)
    case BodyMass => BmiFactor(x.bmi)
    case Hypertension => HypertensionFactor(x.hypertension)
    case HeartDisease => HeartDiseaseFactor(x.heartDisease)
    case AgeGroup => AgeFactor(x.age)
  }

  /**
   * `displayResult` without the DOM: the level and the `riskFactors` array,
   * built by one push per dimension.
   */
  method DisplayResult(probability: real, input: Input) returns (level: RiskLevel, riskFactors: seq<RiskFactor>)
    ensures level == RiskLevelOf(probability)
    ensures |riskFactors| == |DisplayOrder|
    ensures forall i :: 0 <= i < |riskFactors| ==>
              riskFactors[i] == FactorFor(DisplayOrder[i], input) &&
              riskFactors[i].name.Dimension() == DisplayOrder[i]
  {
    level := if probability > 0.5 then High else if probability > 0.3 then Moderate else Low;
    riskFactors := [];
    riskFactors := riskFactors + [HbA1cFactor(input.hba1c)];
    riskFactors := riskFactors + [GlucoseFactor(input.bloodGlucose)];
    riskFactors := riskFactors + [BmiFactor(input.bmi)];
    riskFactors := riskFactors + [HypertensionFactor(input.hypertension)];
    riskFactors := riskFactors + [HeartDiseaseFactor(input.heartDisease)];
    riskFactors := riskFactors + [AgeFactor(input.age)];
  }

  /** HbA1c of exactly 6.5 is borderline, not high: the test is a strict `>`. */
  lemma HbA1cBoundaryIsBorderline()
    ensures HbA1cFactor(Num(6.5)).name == BorderlineHbA1c
    ensures HbA1cFactor(Num(6.5)).kind == Risk
  {
  }

  /** A NaN age is commented as the oldest group yet typed protective. */
  lemma NaNAgeIsOlderButProtective()
    ensures AgeFactor(NaN).comment == OlderAgeGroup
    ensures AgeFactor(NaN).kind == Protective
  {
  }

  /** A missing BMI or HbA1c never counts against the patient. */
  lemma MissingOptionalFieldsAreProtective(x: Input)
    requires x.bmi == NaN && x.hba1c == NaN
    ensures FactorFor(BodyMass, x).kind == Protective && FactorFor(BodyMass, x).value == Literal(NotProvided)
    ensures FactorFor(HbA1c, x).kind == Protective && FactorFor(HbA1c, x).value == Literal(NotProvided)
  {
  }

  /** The explanation's five BMI bands are the five bins of the exploratory BMI histogram. */
  lemma BmiBandsAreHistogramBins(x: real)
    ensures Eda.BmiBin(x) == 0 <==> BmiFactor(Num(x)).comment == Underweight
    ensures Eda.BmiBin(x) == 1 <==> BmiFactor(Num(x)).comment == Healthy
    ensures Eda.BmiBin(x) == 2 <==> BmiFactor(Num(x)).comment == Overweight
    ensures Eda.BmiBin(x) == 3 <==> BmiFactor(Num(x)).comment == Obese
    ensures Eda.BmiBin(x) == 4 <==> BmiFactor(Num(x)).comment == SeverelyObese
  {
  }
}
