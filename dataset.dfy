/**
 * Post-processing of a parsed dataset (`processParsedData`): rows whose cells
 * are all blank are dropped, and the class balance of the `diabetes` label is
 * counted.
 */
module Dataset {
  import opened JsValues

  /** A row with no truthy value: every cell is the empty string. */
  predicate IsBlank(row: Row) {
    forall k :: k in row ==> row[k] == ""
  }

  /** `rawData.filter(row => Object.values(row).some(val => val))`. */
  function NonBlank(rows: seq<Row>): (kept: seq<Row>)
    ensures |kept| <= |rows|
    ensures forall r :: r in kept <==> r in rows && !IsBlank(r)
  {
    if rows == [] then []
    else if IsBlank(rows[0]) then NonBlank(rows[1..])
    else [rows[0]] + NonBlank(rows[1..])
  }

  /** The filter keeps the surviving rows in their original order. */
  lemma {:induction false} NonBlankKeepsOrder(a: seq<Row>, b: seq<Row>)
    ensures NonBlank(a + b) == NonBlank(a) + NonBlank(b)
  {
    if a == [] {
      assert a + b == b;
    } else {
      assert (a + b)[0] == a[0];
      assert (a + b)[1..] == a[1..] + b;
      NonBlankKeepsOrder(a[1..], b);
    }
  }

  /** `parseInt(row.diabetes) === 1`. */
  predicate IsPositive(parse: JsParse, row: Row) {
    ParseIntCell(parse, row, "diabetes") == Some(1)
  }

  /** `csvData.filter(row => parseInt(row.diabetes) === 1).length`. */
  function Positives(parse: JsParse, rows: seq<Row>): (n: nat)
    ensures n <= |rows|
    ensures n == 0 <== forall i :: 0 <= i < |rows| ==> !IsPositive(parse, rows[i])
    ensures n == |rows| <== forall i :: 0 <= i < |rows| ==> IsPositive(parse, rows[i])
  {
    if rows == [] then 0
    else Positives(parse, rows[..|rows| - 1]) + (if IsPositive(parse, rows[|rows| - 1]) then 1 else 0)
  }

  /** The indices of the positive rows. */
  function PositiveIndices(parse: JsParse, rows: seq<Row>): set<nat> {
    set i: nat | i < |rows| && IsPositive(parse, rows[i])
  }

  /** The running count agrees with the number of positive positions. */
  lemma {:induction false} PositivesCountsIndices(parse: JsParse, rows: seq<Row>)
    ensures Positives(parse, rows) == |PositiveIndices(parse, rows)|
  {
    if rows == [] {
      assert PositiveIndices(parse, rows) == {};
    } else {
      var n := |rows| - 1;
      var init := rows[..n];
      PositivesCountsIndices(parse, init);
      var before := PositiveIndices(parse, init);
      var after := PositiveIndices(parse, rows);
      forall i: nat
        ensures i in after <==> i in before || (i == n && IsPositive(parse, rows[n]))
      {
        if i < n {
          assert init[i] == rows[i];
        }
      }
      assert Positives(parse, rows) == Positives(parse, init) + (if IsPositive(parse, rows[n]) then 1 else 0);
      if IsPositive(parse, rows[n]) {
        assert after == before + {n};
        assert n !in before;
        assert |after| == |before| + 1;
      } else {
        assert after == before;
      }
    }
  }

  /** `classStats = { positives, negatives, total }`. */
  datatype ClassStats = ClassStats(positives: nat, negatives: nat, total: nat)

  /** The class balance of a loaded dataset. */
  function ClassStatsOf(parse: JsParse, rows: seq<Row>): (s: ClassStats)
    ensures s.positives + s.negatives == s.total == |rows|
    ensures s.positives == |PositiveIndices(parse, rows)|
  {
    PositivesCountsIndices(parse, rows);
    var p := Positives(parse, rows);
    ClassStats(p, |rows| - p, |rows|)
  }
}
