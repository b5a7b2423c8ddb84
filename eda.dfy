/**
 * The exploratory histograms of `computeEdaStats`: five age bins and five
 * BMI bins, each bin closed on the left and open on the right. A row whose
 * value does not parse is left out of that one histogram.
 */
module Eda {
  import opened JsValues

  const BinCount: nat := 5

  const AgeLabels: seq<string> := ["<30", "30-39", "40-49", "50-59", "60+"]
  const BmiLabels: seq<string> := ["<18.5", "18.5-24.9", "25-29.9", "30-34.9", "35+"]

  /** The inner boundaries of each histogram, lowest first. */
  const AgeEdges: seq<real> := [30.0, 40.0, 50.0, 60.0]
  const BmiEdges: seq<real> := [18.5, 25.0, 30.0, 35.0]

  /** The two histogrammed columns. */
  datatype Column = Age | Bmi {
    function Name(): string {
      match this
      case Age => "age"
      case Bmi => "bmi"
    }
    /** The chart labels, one per bin, in bin order. */
    function Labels(): (l: seq<string>)
      ensures |l| == BinCount
    {
      match this
      case Age => AgeLabels
      case Bmi => BmiLabels
    }
    function Edges(): (e: seq<real>)
      ensures |e| == BinCount - 1
    {
      match this
      case Age => AgeEdges
      case Bmi => BmiEdges
    }
  }

  /** The if/else-if chain of the age histogram. */
  function AgeBin(age: real): nat {
    if age < 30.0 then 0
    else if age < 40.0 then 1
    else if age < 50.0 then 2
    else if age < 60.0 then 3
    else 4
  }

  /** The if/else-if chain of the BMI histogram. */
  function BmiBin(bmi: real): nat {
    if bmi < 18.5 then 0
    else if bmi < 25.0 then 1
    else if bmi < 30.0 then 2
    else if bmi < 35.0 then 3
    else 4
  }

  function BinOf(c: Column, x: real): nat {
    match c
    case Age => AgeBin(x)
    case Bmi => BmiBin(x)
  }

  /** Reference definition of a bin: `[edges[k-1], edges[k])`, unbounded at either end. */
  ghost predicate InBin(edges: seq<real>, k: nat, x: real)
    requires |edges| == BinCount - 1
  {
    k < BinCount && (k == 0 || edges[k - 1] <= x) && (k == BinCount - 1 || x < edges[k])
  }

  /** Every value lands in exactly one bin, the one the chain of tests picks. */
  lemma BinOfIsTheUniqueBin(c: Column, x: real, k: nat)
    ensures BinOf(c, x) < BinCount
    ensures InBin(c.Edges(), k, x) <==> k == BinOf(c, x)
  {
  }

  /**
   * Each inner boundary opens the bin to its right: it is counted under the
   * label that starts at it, not under the one that ends there.
   */
  lemma EdgeOpensItsBin(c: Column, k: nat)
    requires 1 <= k < BinCount
    ensures BinOf(c, c.Edges()[k - 1]) == k
    ensures c == Age ==> c.Labels()[BinOf(c, c.Edges()[k - 1])] == ["30-39", "40-49", "50-59", "60+"][k - 1]
    ensures c == Bmi ==> c.Labels()[BinOf(c, c.Edges()[k - 1])] == ["18.5-24.9", "25-29.9", "30-34.9", "35+"][k - 1]
  {
  }

  /** `parseFloat(row[column])`, or `None` when that is NaN. */
  function ValueOf(parse: JsParse, c: Column, row: Row): Option<real> {
    ParseFloatCell(parse, row, c.Name())
  }

  /** The bin a row falls into for one column, if its value parses. */
  function RowBin(parse: JsParse, c: Column, row: Row): (b: Option<nat>)
    ensures b.Some? <==> ValueOf(parse, c, row).Some?
    ensures b.Some? ==> b.value < BinCount
    ensures b.Some? ==> InBin(c.Edges(), b.value, ValueOf(parse, c, row).value)
    ensures forall k: nat :: ValueOf(parse, c, row).Some? && InBin(c.Edges(), k, ValueOf(parse, c, row).value) ==> b == Some(k)
  {
    match ValueOf(parse, c, row)
    case Some(x) => Some(BinOf(c, x))
    case None => None
  }

  /** The number of rows counted in bin `k`. */
  function Count(parse: JsParse, c: Column, rows: seq<Row>, k: nat): nat {
    if rows == [] then 0
    else Count(parse, c, rows[..|rows| - 1], k) + (if RowBin(parse, c, rows[|rows| - 1]) == Some(k) then 1 else 0)
  }

  /** The number of rows whose value parses for this column. */
  function Parsed(parse: JsParse, c: Column, rows: seq<Row>): nat {
    if rows == [] then 0
    else Parsed(parse, c, rows[..|rows| - 1]) + (if ValueOf(parse, c, rows[|rows| - 1]).Some? then 1 else 0)
  }

  /** One histogram, in label order. */
  function Histogram(parse: JsParse, c: Column, rows: seq<Row>): (h: seq<nat>)
    ensures |h| == BinCount
  {
    seq(BinCount, (k: int) requires 0 <= k => Count(parse, c, rows, k))
  }

  function Sum(s: seq<nat>): nat {
    if s == [] then 0 else Sum(s[..|s| - 1]) + s[|s| - 1]
  }

  /** `edaStats = { ageBins, bmiBins }`. */
  datatype EdaStats = EdaStats(ageBins: seq<nat>, bmiBins: seq<nat>)

  function EdaOf(parse: JsParse, rows: seq<Row>): EdaStats {
    EdaStats(Histogram(parse, Age, rows), Histogram(parse, Bmi, rows))
  }

  /** Counting one more row adds one to its bin, if it has one, and nothing elsewhere. */
  function AddRow(h: seq<nat>, b: Option<nat>): (h': seq<nat>)
    requires |h| == BinCount
    ensures |h'| == BinCount
    ensures forall k :: 0 <= k < BinCount ==> h'[k] == h[k] + (if b == Some(k) then 1 else 0)
  {
    if b.Some? && b.value < BinCount then h[b.value := h[b.value] + 1] else h
  }

  /** The histogram of a longer prefix is the previous one plus the new row. */
  lemma HistogramStep(parse: JsParse, c: Column, rows: seq<Row>, row: Row)
    ensures Histogram(parse, c, rows + [row]) == AddRow(Histogram(parse, c, rows), RowBin(parse, c, row))
  {
  }

  /** Sum of five counts, written out. */
  lemma SumOfFive(h: seq<nat>)
    requires |h| == BinCount
    ensures Sum(h) == h[0] + h[1] + h[2] + h[3] + h[4]
  {
    assert h[..4][..3] == h[..3] && h[..3][..2] == h[..2] && h[..2][..1] == h[..1] && h[..1][..0] == [];
    assert Sum(h[..1]) == h[0];
    assert Sum(h[..2]) == h[0] + h[1];
    assert Sum(h[..3]) == h[0] + h[1] + h[2];
    assert Sum(h[..4]) == h[0] + h[1] + h[2] + h[3];
  }

  /** Every row with a parseable value is counted exactly once: the bins add up to those rows. */
  lemma {:induction false} HistogramTotal(parse: JsParse, c: Column, rows: seq<Row>)
    ensures Sum(Histogram(parse, c, rows)) == Parsed(parse, c, rows)
  {
    var h := Histogram(parse, c, rows);
    SumOfFive(h);
    if rows != [] {
      var init := rows[..|rows| - 1];
      var last := rows[|rows| - 1];
      HistogramTotal(parse, c, init);
      SumOfFive(Histogram(parse, c, init));
      assert init + [last] == rows;
      HistogramStep(parse, c, init, last);
    }
  }

  /**
   * A row whose age does not parse but whose BMI does leaves the age
   * histogram as it was and still counts in the BMI histogram.
   */
  lemma UnparsedAgeSkipsOnlyAge(parse: JsParse, rows: seq<Row>, row: Row, bmi: real)
    requires ValueOf(parse, Age, row) == None
    requires ValueOf(parse, Bmi, row) == Some(bmi)
    ensures EdaOf(parse, rows + [row]).ageBins == EdaOf(parse, rows).ageBins
    ensures EdaOf(parse, rows + [row]).bmiBins[BmiBin(bmi)] == EdaOf(parse, rows).bmiBins[BmiBin(bmi)] + 1
  {
  }

  /** The same, the other way round. */
  lemma UnparsedBmiSkipsOnlyBmi(parse: JsParse, rows: seq<Row>, row: Row, age: real)
    requires ValueOf(parse, Bmi, row) == None
    requires ValueOf(parse, Age, row) == Some(age)
    ensures EdaOf(parse, rows + [row]).bmiBins == EdaOf(parse, rows).bmiBins
    ensures EdaOf(parse, rows + [row]).ageBins[AgeBin(age)] == EdaOf(parse, rows).ageBins[AgeBin(age)] + 1
  {
  }
}
