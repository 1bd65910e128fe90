/** Label encodings: `OHE_to` (a row-wise argmax that turns one-hot label
    rows into class indices) and the loop in `Model.test` that turns
    predicted class indices back into one-hot rows. */
module Labels {
  import opened Errors

  type Row = seq<real>
  type Matrix = seq<Row>

  /** Every row of `m` has `cols` entries: the shape of a 2-D numpy array. */
  predicate IsMatrix(m: Matrix, cols: nat)
  {
    forall i :: 0 <= i < |m| ==> |m[i]| == cols
  }

  /** `np.argmax` of one row: the first index holding a largest entry. */
  function ArgMax(row: Row): (k: nat)
    requires |row| > 0
    ensures k < |row|
    ensures forall j :: 0 <= j < |row| ==> row[j] <= row[k]
    ensures forall j :: 0 <= j < k ==> row[j] < row[k]
  {
    if |row| == 1 then 0
    else
      var m := ArgMax(row[..|row| - 1]);
      if row[|row| - 1] > row[m] then |row| - 1 else m
  }

  /** `OHE_to`: `np.argmax(rows, axis=1)`; numpy refuses an axis of length zero. */
  function OheTo(rows: Matrix, cols: nat): (r: Result<seq<nat>>)
    requires IsMatrix(rows, cols)
    ensures r.Err? <==> cols == 0
    ensures r.Err? ==> r.error == EmptyAxis
    ensures r.Ok? ==> |r.value| == |rows|
    ensures r.Ok? ==> forall i :: 0 <= i < |rows| ==> r.value[i] < cols && r.value[i] == ArgMax(rows[i])
  {
    if cols == 0 then Err(EmptyAxis)
    else Ok(seq(|rows|, i requires 0 <= i < |rows| => ArgMax(rows[i])))
  }

  /** A row of `cols` zeros, as `np.zeros` makes them. */
  function ZeroRow(cols: nat): Row
  {
    seq(cols, j => 0.0)
  }

  /** The row with a 1 in column `k` and 0 elsewhere. */
  function OneHotRow(k: nat, cols: nat): (row: Row)
    ensures |row| == cols
  {
    seq(cols, j => if j == k then 1.0 else 0.0)
  }

  /** `row` is one-hot: its entries are 0 except for a single 1. */
  predicate IsOneHot(row: Row)
  {
    exists k :: 0 <= k < |row| && row[k] == 1.0 &&
      forall j :: 0 <= j < |row| && j != k ==> row[j] == 0.0
  }

  /** The `test_num x class_num` matrix the expansion loop of `test` fills:
      row `i` is one-hot at `result[i]` for `i < |result|`, all zero after. */
  function OneHotMatrix(result: seq<nat>, testNum: nat, classNum: nat): (m: Matrix)
    ensures |m| == testNum && IsMatrix(m, classNum)
  {
    seq(testNum, i requires 0 <= i < testNum => if i < |result| then OneHotRow(result[i], classNum) else ZeroRow(classNum))
  }

  /** The loop writes inside the matrix only when there are no more
      predictions than rows and every predicted index names a column. */
  predicate FitsMatrix(result: seq<nat>, testNum: nat, classNum: nat)
  {
    |result| <= testNum && forall i :: 0 <= i < |result| ==> result[i] < classNum
  }

  /** The contents of a 2-D array, row by row. */
  function Cells(a: array2<real>): (m: Matrix)
    reads a
    ensures |m| == a.Length0 && IsMatrix(m, a.Length1)
  {
    seq(a.Length0, i requires 0 <= i < a.Length0 reads a =>
      seq(a.Length1, j requires 0 <= j < a.Length1 reads a => a[i, j]))
  }

  /** The expansion in `test`: a zero matrix, then a 1 at `[idx][result[idx]]`
      for each prediction in turn; the first write outside the matrix raises. */
  method ExpandPredictions(result: seq<nat>, testNum: nat, classNum: nat) returns (r: Result<array2<real>>)
    ensures r.Err? <==> !FitsMatrix(result, testNum, classNum)
    ensures r.Err? ==> r.error == IndexOutOfRange
    ensures r.Ok? ==> r.value.Length0 == testNum && r.value.Length1 == classNum
    ensures r.Ok? ==> forall i, j :: 0 <= i < testNum && 0 <= j < classNum ==>
      r.value[i, j] == (if i < |result| && result[i] == j then 1.0 else 0.0)
    ensures r.Ok? ==> Cells(r.value) == OneHotMatrix(result, testNum, classNum)
    ensures r.Ok? ==> fresh(r.value)
  {
    var yTest := new real[testNum, classNum]((i, j) => 0.0);
    var idx := 0;
    while idx < |result|
      invariant 0 <= idx <= |result| && idx <= testNum
      invariant forall k :: 0 <= k < idx ==> result[k] < classNum
      invariant forall i, j :: 0 <= i < testNum && 0 <= j < classNum ==>
        yTest[i, j] == (if i < idx && result[i] == j then 1.0 else 0.0)
    {
      if idx >= testNum || result[idx] >= classNum {
        return Err(IndexOutOfRange);
      }
      yTest[idx, result[idx]] := 1.0;
      idx := idx + 1;
    }
    var expected := OneHotMatrix(result, testNum, classNum);
    forall i | 0 <= i < testNum
      ensures Cells(yTest)[i] == expected[i]
    {
      assert |Cells(yTest)[i]| == |expected[i]| == classNum;
      forall j | 0 <= j < classNum
        ensures Cells(yTest)[i][j] == expected[i][j]
      {
        assert Cells(yTest)[i][j] == yTest[i, j];
        assert expected[i][j] == (if i < |result| && result[i] == j then 1.0 else 0.0);
      }
    }
    return Ok(yTest);
  }

  /** Decoding a one-hot row gives back its class index. */
  lemma ArgMaxOneHot(k: nat, cols: nat)
    requires k < cols
    ensures ArgMax(OneHotRow(k, cols)) == k
  {
    var row := OneHotRow(k, cols);
    assert row[k] == 1.0;
  }

  /** A one-hot row is the one-hot row of its argmax. */
  lemma OneHotOfArgMax(row: Row)
    requires IsOneHot(row)
    ensures |row| > 0 && OneHotRow(ArgMax(row), |row|) == row
  {
    var k :| 0 <= k < |row| && row[k] == 1.0 && forall j :: 0 <= j < |row| && j != k ==> row[j] == 0.0;
    var m := ArgMax(row);
    assert row[m] == 1.0;
    assert OneHotRow(m, |row|) == row;
  }

  /** Encoding class indices as one-hot rows and decoding them with
      `OHE_to` gives the indices back. */
  lemma DecodeEncode(labels: seq<nat>, classNum: nat)
    requires classNum > 0 && forall i :: 0 <= i < |labels| ==> labels[i] < classNum
    ensures OheTo(OneHotMatrix(labels, |labels|, classNum), classNum) == Ok(labels)
  {
    var m := OneHotMatrix(labels, |labels|, classNum);
    var r := OheTo(m, classNum);
    forall i | 0 <= i < |labels|
      ensures r.value[i] == labels[i]
    {
      ArgMaxOneHot(labels[i], classNum);
    }
    assert r.value == labels;
  }

  /** Decoding a one-hot matrix with `OHE_to` and expanding the indices as
      `test` does rebuilds the matrix. */
  lemma EncodeDecode(rows: Matrix, classNum: nat)
    requires IsMatrix(rows, classNum)
    requires forall i :: 0 <= i < |rows| ==> IsOneHot(rows[i])
    requires classNum > 0
    ensures OheTo(rows, classNum).Ok?
    ensures FitsMatrix(OheTo(rows, classNum).value, |rows|, classNum)
    ensures OneHotMatrix(OheTo(rows, classNum).value, |rows|, classNum) == rows
  {
    var labels := OheTo(rows, classNum).value;
    forall i | 0 <= i < |rows|
      ensures OneHotMatrix(labels, |rows|, classNum)[i] == rows[i]
    {
      OneHotOfArgMax(rows[i]);
    }
  }

  /** The example of three classes, five test rows and predictions
      `[0, 2, 1, 0, 2]`. */
  lemma ExpandExample()
    ensures OneHotMatrix([0, 2, 1, 0, 2], 5, 3) ==
      [[1.0, 0.0, 0.0], [0.0, 0.0, 1.0], [0.0, 1.0, 0.0], [1.0, 0.0, 0.0], [0.0, 0.0, 1.0]]
  {
    assert OneHotRow(0, 3) == [1.0, 0.0, 0.0];
    assert OneHotRow(1, 3) == [0.0, 1.0, 0.0];
    assert OneHotRow(2, 3) == [0.0, 0.0, 1.0];
  }
}
