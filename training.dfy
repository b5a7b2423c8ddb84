/**
 * The data preparation half of `trainModels`: a prefix sample of at most
 * 5000 rows, the 8-column feature encoding (NaN becomes 0), the integer
 * label, and the order-preserving 80/20 split. The fit and evaluation that
 * follow are done by TensorFlow.js and are kept abstract.
 */
module Training {
  import opened JsValues

  /** The column order of every feature vector and of the logistic weights. */
  const FeatureNames: seq<string> :=
    ["gender", "age", "hypertension", "heart_disease", "smoking_history", "bmi", "HbA1c_level", "blood_glucose_level"]

  const FeatureCount: nat := 8

  /** The largest sample that is trained on. */
  const SampleCap: nat := 5000

  /** `Math.min(5000, csvData.length)`. */
  function SampleSize(n: nat): (m: nat)
    ensures m <= n && m <= SampleCap
    ensures m == n || m == SampleCap
  {
    if n < SampleCap then n else SampleCap
  }

  /** `csvData.slice(0, sampleSize)`: the leading rows, no shuffling. */
  function Sample(rows: seq<Row>): (s: seq<Row>)
    ensures |s| == SampleSize(|rows|)
    ensures forall i :: 0 <= i < |s| ==> s[i] == rows[i]
  {
    rows[..SampleSize(|rows|)]
  }

  /** `Math.floor(features.length * 0.8)`. */
  function SplitIndex(len: nat): (k: nat)
    ensures k <= len
    ensures k as real <= len as real * 0.8 < (k + 1) as real
  {
    var f := (len as real * 0.8).Floor;
    assert 0 <= f;
    f
  }

  /** `parseFloat(row[f])`, with NaN replaced by 0. */
  function EncodeField(parse: JsParse, row: Row, f: string): (x: real)
    ensures ParseFloatCell(parse, row, f) == Some(x) || (ParseFloatCell(parse, row, f) == None && x == 0.0)
  {
    ParseFloatCell(parse, row, f).GetOr(0.0)
  }

  /** `featureNames.map(f => isNaN(parseFloat(row[f])) ? 0 : parseFloat(row[f]))`. */
  function FeatureVector(parse: JsParse, row: Row): (v: seq<real>)
    ensures |v| == FeatureCount
    ensures forall i :: 0 <= i < FeatureCount ==> v[i] == EncodeField(parse, row, FeatureNames[i])
  {
    seq(FeatureCount, (i: int) requires 0 <= i < FeatureCount => EncodeField(parse, row, FeatureNames[i]))
  }

  /** `parseInt(row.diabetes) || 0`. */
  function Label(parse: JsParse, row: Row): (y: int)
    ensures y == ParseIntCell(parse, row, "diabetes").GetOr(0)
    ensures ParseIntCell(parse, row, "diabetes") == None ==> y == 0
  {
    match ParseIntCell(parse, row, "diabetes")
    case Some(k) => if k != 0 then k else 0
    case None => 0
  }

  function Features(parse: JsParse, rows: seq<Row>): (xs: seq<seq<real>>)
    ensures |xs| == |rows|
    ensures forall i :: 0 <= i < |rows| ==> xs[i] == FeatureVector(parse, rows[i])
  {
    seq(|rows|, (i: int) requires 0 <= i < |rows| => FeatureVector(parse, rows[i]))
  }

  function Labels(parse: JsParse, rows: seq<Row>): (ys: seq<int>)
    ensures |ys| == |rows|
    ensures forall i :: 0 <= i < |rows| ==> ys[i] == Label(parse, rows[i])
  {
    seq(|rows|, (i: int) requires 0 <= i < |rows| => Label(parse, rows[i]))
  }

  /** The four arrays handed to `tf.tensor2d`. */
  datatype TrainingData = TrainingData(xTrain: seq<seq<real>>, yTrain: seq<int>, xTest: seq<seq<real>>, yTest: seq<int>)

  /** Sample, encode and split, as `trainModels` does before building any model. */
  function PrepareTraining(parse: JsParse, rows: seq<Row>): (d: TrainingData)
    ensures |d.xTrain| == |d.yTrain| == SplitIndex(SampleSize(|rows|))
    ensures |d.xTest| == |d.yTest| == SampleSize(|rows|) - SplitIndex(SampleSize(|rows|))
    ensures forall i :: 0 <= i < |d.xTrain| ==>
              d.xTrain[i] == FeatureVector(parse, rows[i]) && d.yTrain[i] == Label(parse, rows[i])
    ensures forall j :: 0 <= j < |d.xTest| ==>
              d.xTest[j] == FeatureVector(parse, rows[|d.xTrain| + j]) && d.yTest[j] == Label(parse, rows[|d.xTrain| + j])
  {
    var sample := Sample(rows);
    var features := Features(parse, sample);
    var labels := Labels(parse, sample);
    var split := SplitIndex(|features|);
    TrainingData(features[..split], labels[..split], features[split..], labels[split..])
  }

  /** Train and test together are exactly the encoded sample, in order. */
  lemma SplitIsPartition(parse: JsParse, rows: seq<Row>)
    ensures var d := PrepareTraining(parse, rows);
            d.xTrain + d.xTest == Features(parse, Sample(rows)) &&
            d.yTrain + d.yTest == Labels(parse, Sample(rows))
  {
  }

  /**
   * A categorical cell that `parseFloat` rejects ("Female", "Never", "Yes")
   * trains as 0, whatever category it names.
   */
  lemma UnparsedCategoryEncodesAsZero(parse: JsParse, row: Row, i: nat)
    requires i < FeatureCount
    requires ParseFloatCell(parse, row, FeatureNames[i]) == None
    ensures FeatureVector(parse, row)[i] == 0.0
  {
  }

  /** For at least five rows both halves are non-empty; the test half is about a fifth. */
  lemma SplitSizes(n: nat)
    ensures SplitIndex(n) <= n
    ensures n >= 5 ==> 0 < SplitIndex(n) < n
    ensures 5 * (n - SplitIndex(n)) >= n
  {
  }
}
