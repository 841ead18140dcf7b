/** The numpy operations the assembler applies to piano rolls: a row slice, a horizontal
    stack and a transpose, over row-major integer matrices. */
module Matrices {
  import opened Basics

  type Matrix = seq<seq<int>>

  /** The number of columns, read off the first row. */
  function Width(m: Matrix): nat
  {
    if m == [] then 0 else |m[0]|
  }

  /** Every row has the same length, as in a numpy 2-D array. */
  predicate Rect(m: Matrix)
  {
    forall i :: 0 <= i < |m| ==> |m[i]| == Width(m)
  }

  /** m[lo:hi + 1]: rows lo..hi inclusive, each unchanged. */
  function SliceRows(m: Matrix, lo: nat, hi: nat): (r: Matrix)
    requires lo <= hi < |m|
    ensures |r| == hi - lo + 1
    ensures forall k :: 0 <= k < |r| ==> r[k] == m[lo + k]
    ensures Rect(m) ==> Rect(r) && Width(r) == Width(m)
  {
    m[lo..hi + 1]
  }

  /** The summed column counts of a list of matrices. */
  function TotalWidth(ms: seq<Matrix>): nat
  {
    if ms == [] then 0 else TotalWidth(ms[..|ms| - 1]) + Width(ms[|ms| - 1])
  }

  lemma {:induction false} TotalWidthPrefix(ms: seq<Matrix>, k: nat)
    requires k < |ms|
    ensures TotalWidth(ms[..k]) + Width(ms[k]) <= TotalWidth(ms)
  {
    var n := |ms|;
    assert ms[..n][..n - 1] == ms[..n - 1];
    if k < n - 1 {
      assert ms[..n - 1][..k] == ms[..k];
      TotalWidthPrefix(ms[..n - 1], k);
    } else {
      assert ms == ms[..n];
    }
  }

  /** Row i of every matrix, laid end to end. */
  function JoinRow(ms: seq<Matrix>, i: nat): seq<int>
    requires forall k :: 0 <= k < |ms| ==> i < |ms[k]|
  {
    if ms == [] then [] else JoinRow(ms[..|ms| - 1], i) + ms[|ms| - 1][i]
  }

  lemma {:induction false} JoinRowLength(ms: seq<Matrix>, i: nat)
    requires forall k :: 0 <= k < |ms| ==> Rect(ms[k]) && i < |ms[k]|
    ensures |JoinRow(ms, i)| == TotalWidth(ms)
  {
    if ms != [] {
      JoinRowLength(ms[..|ms| - 1], i);
      assert Rect(ms[|ms| - 1]);
    }
  }

  /** Entry c of row i of matrix k sits at column TotalWidth(ms[..k]) + c of the joined row. */
  lemma {:induction false} JoinRowAt(ms: seq<Matrix>, i: nat, k: nat, c: nat)
    requires forall j :: 0 <= j < |ms| ==> Rect(ms[j]) && i < |ms[j]|
    requires k < |ms| && c < Width(ms[k])
    ensures TotalWidth(ms[..k]) + c < |JoinRow(ms, i)| && c < |ms[k][i]|
    ensures JoinRow(ms, i)[TotalWidth(ms[..k]) + c] == ms[k][i][c]
  {
    var n := |ms|;
    var front := ms[..n - 1];
    JoinRowLength(ms, i);
    JoinRowLength(front, i);
    assert Rect(ms[k]);
    if k < n - 1 {
      assert front[..k] == ms[..k];
      assert front[k] == ms[k];
      TotalWidthPrefix(front, k);
      JoinRowAt(front, i, k, c);
    } else {
      assert ms[..k] == front;
    }
  }

  /** Row i of the stacked matrix is row i of every matrix laid end to end. */
  function Joined(ms: seq<Matrix>, rows: nat): Matrix
    requires forall k :: 0 <= k < |ms| ==> |ms[k]| == rows
  {
    seq(rows, i requires 0 <= i < rows => JoinRow(ms, i))
  }

  /** numpy.hstack: concatenation along the column axis; it raises on an empty list. */
  function HStack(ms: seq<Matrix>): (r: Result<Matrix>)
    requires forall k :: 0 <= k < |ms| ==> Rect(ms[k]) && |ms[k]| == |ms[0]|
    ensures r.Err? <==> ms == []
    ensures r.Err? ==> r.error == NothingToStack
    ensures r.Ok? ==> |r.value| == |ms[0]| && Rect(r.value)
    ensures r.Ok? && |ms[0]| > 0 ==> Width(r.value) == TotalWidth(ms)
  {
    if ms == [] then Err(NothingToStack)
    else
      var rows := |ms[0]|;
      var m := Joined(ms, rows);
      assert forall i :: 0 <= i < rows ==> |m[i]| == TotalWidth(ms) by {
        forall i | 0 <= i < rows ensures |m[i]| == TotalWidth(ms) {
          JoinRowLength(ms, i);
        }
      }
      Ok(m)
  }

  /** Column c of matrix k lands at column TotalWidth(ms[..k]) + c of the stack, row for row. */
  lemma HStackAt(ms: seq<Matrix>, i: nat, k: nat, c: nat)
    requires forall j :: 0 <= j < |ms| ==> Rect(ms[j]) && |ms[j]| == |ms[0]|
    requires k < |ms| && i < |ms[k]| && c < Width(ms[k])
    ensures HStack(ms).Ok?
    ensures TotalWidth(ms[..k]) + c < |HStack(ms).value[i]| && c < |ms[k][i]|
    ensures HStack(ms).value[i][TotalWidth(ms[..k]) + c] == ms[k][i][c]
  {
    JoinRowAt(ms, i, k, c);
  }

  /** The transpose (the .T attribute): entry (i, j) moves to (j, i). */
  function Transpose(m: Matrix): (r: Matrix)
    requires Rect(m)
    ensures |r| == Width(m) && Rect(r)
    ensures |r| > 0 ==> Width(r) == |m|
    ensures forall j, i :: 0 <= j < |r| && 0 <= i < |m| ==> r[j][i] == m[i][j]
  {
    seq(Width(m), j requires 0 <= j < Width(m) => seq(|m|, i requires 0 <= i < |m| => m[i][j]))
  }

  /** Transposing twice gives back a matrix that has at least one column. */
  lemma TransposeTwice(m: Matrix)
    requires Rect(m) && Width(m) > 0
    ensures Transpose(Transpose(m)) == m
  {
    var t := Transpose(m);
    var tt := Transpose(t);
    assert |tt| == |m|;
    forall i | 0 <= i < |m| ensures tt[i] == m[i] {
      assert |tt[i]| == |m[i]|;
    }
  }
}
