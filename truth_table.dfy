/** The truth table of a binary digit operator: the n-by-n grid whose cell
    (i, j) is `op(NAryDigit(i, n), NAryDigit(j, n))`, computed eagerly when the
    table is constructed and never changed afterwards.

    The operator may raise; Python then abandons the construction with the
    first error raised, and the cells are evaluated row by row, left to right
    within a row. `Rows` and `Row` build the grid in that order, so the error
    a failed construction reports is that of the first failing cell. */
module TruthTables {
  import opened Wrappers
  import opened NAryDigits

  /** A binary operator on digits, which either returns a digit or raises. */
  type BinaryOp = (NAryDigit, NAryDigit) -> Result<NAryDigit, Error>

  /** The table object: the operator, the radix and the grid of results,
      row i holding the results for first operand i. */
  datatype TruthTable = TruthTable(op: BinaryOp, n: int, truthTable: seq<seq<NAryDigit>>)

  /** The length of Python's `range(n)`, which is empty when n is not positive. */
  function RangeLen(n: int): nat {
    if n < 0 then 0 else n
  }

  /** The reference value of cell (i, j): the operator applied to digit i and
      digit j of radix n. */
  function Cell(op: BinaryOp, n: int, i: int, j: int): Result<NAryDigit, Error>
    requires 0 <= i < n && 0 <= j < n
  {
    op(Digit(i, n), Digit(j, n))
  }

  /** Cell (i', j') is evaluated before cell (i, j): row-major order. */
  predicate Before(i': int, j': int, i: int, j: int) {
    i' < i || (i' == i && j' < j)
  }

  /** Cell (i, j) is the first cell, in evaluation order, whose operator call raises. */
  predicate FirstFailure(op: BinaryOp, n: int, i: int, j: int)
    requires 0 <= i < n && 0 <= j < n
  {
    && Cell(op, n, i, j).Err?
    && forall i', j' :: 0 <= i' < n && 0 <= j' < n && Before(i', j', i, j) ==> Cell(op, n, i', j').Ok?
  }

  /** The first k cells of row i: the inner comprehension over `range(n)`,
      stopped after k steps. Both operands go through the validating
      constructor, which accepts them because i and j lie in [0, n). */
  function Row(op: BinaryOp, n: int, i: int, k: nat): (r: Result<seq<NAryDigit>, Error>)
    requires 0 <= i < n && k <= n
    ensures r.Ok? <==> forall j :: 0 <= j < k ==> Cell(op, n, i, j).Ok?
    ensures r.Ok? ==> |r.value| == k
    ensures r.Ok? ==> forall j :: 0 <= j < k ==> r.value[j] == Cell(op, n, i, j).value
    ensures r.Err? ==>
      exists j :: 0 <= j < k && Cell(op, n, i, j) == Err(r.error)
        && forall j' :: 0 <= j' < j ==> Cell(op, n, i, j').Ok?
  {
    if k == 0 then Ok([])
    else
      var prefix :- Row(op, n, i, k - 1);
      assert op(Make(i, n).value, Make(k - 1, n).value) == Cell(op, n, i, k - 1);
      var c :- op(Make(i, n).value, Make(k - 1, n).value);
      Ok(prefix + [c])
  }

  /** The first k rows: the outer comprehension over `range(n)`, stopped
      after k steps. */
  function Rows(op: BinaryOp, n: int, k: nat): (r: Result<seq<seq<NAryDigit>>, Error>)
    requires k <= RangeLen(n)
    ensures r.Ok? <==> forall i, j :: 0 <= i < k && 0 <= j < n ==> Cell(op, n, i, j).Ok?
    ensures r.Ok? ==> |r.value| == k
    ensures r.Ok? ==> forall i :: 0 <= i < k ==> |r.value[i]| == n
    ensures r.Ok? ==>
      forall i, j :: 0 <= i < k && 0 <= j < n ==> r.value[i][j] == Cell(op, n, i, j).value
    ensures r.Err? ==>
      exists i, j :: 0 <= i < k && 0 <= j < n && FirstFailure(op, n, i, j)
        && Cell(op, n, i, j) == Err(r.error)
  {
    if k == 0 then Ok([])
    else
      var prefix :- Rows(op, n, k - 1);
      var row :- Row(op, n, k - 1, n);
      Ok(prefix + [row])
  }

  /** `TruthTable(op, n)`: the whole grid, or the error of the first cell
      whose operator call raises. */
  function NewTruthTable(op: BinaryOp, n: int): (r: Result<TruthTable, Error>)
    ensures r.Ok? <==>
      forall i, j :: 0 <= i < RangeLen(n) && 0 <= j < RangeLen(n) ==> Cell(op, n, i, j).Ok?
    ensures r.Ok? ==> r.value.op == op && r.value.n == n
    ensures r.Ok? ==> |r.value.truthTable| == RangeLen(n)
    ensures r.Ok? ==> forall i :: 0 <= i < RangeLen(n) ==> |r.value.truthTable[i]| == n
    ensures r.Ok? ==>
      forall i, j :: 0 <= i < RangeLen(n) && 0 <= j < RangeLen(n) ==>
        r.value.truthTable[i][j] == Cell(op, n, i, j).value
    ensures r.Err? ==>
      exists i, j :: 0 <= i < RangeLen(n) && 0 <= j < RangeLen(n) && FirstFailure(op, n, i, j)
        && Cell(op, n, i, j) == Err(r.error)
  {
    var rows :- Rows(op, n, RangeLen(n));
    Ok(TruthTable(op, n, rows))
  }

  // ---------------------------------------------------------------------
  // Properties of the tables

  /** The tables of `|`, `&` and `^` are always built: both operands of every
      cell have radix n, so no radix mismatch can arise. */
  lemma DigitOperatorTablesSucceed(n: int)
    ensures NewTruthTable(Or, n).Ok?
    ensures NewTruthTable(And, n).Ok?
    ensures NewTruthTable(Xor, n).Ok?
  {
  }

  /** When the operator raises already on (0, 0), construction reports that
      error: it is the first cell evaluated. */
  lemma FirstCellErrorIsReported(op: BinaryOp, n: int)
    requires n > 0 && Cell(op, n, 0, 0).Err?
    ensures NewTruthTable(op, n) == Err(Cell(op, n, 0, 0).error)
  {
  }

  /** The table of an operator that is commutative within a radix is symmetric. */
  lemma CommutativeOpGivesSymmetricTable(op: BinaryOp, n: int)
    requires forall a: NAryDigit, b: NAryDigit :: a.n == b.n ==> op(a, b) == op(b, a)
    requires NewTruthTable(op, n).Ok?
    ensures forall i, j :: 0 <= i < RangeLen(n) && 0 <= j < RangeLen(n) ==>
      NewTruthTable(op, n).value.truthTable[i][j] == NewTruthTable(op, n).value.truthTable[j][i]
  {
  }

  /** The tables of `|`, `&` and `^` are symmetric. */
  lemma DigitOperatorTablesSymmetric(n: int)
    ensures NewTruthTable(Or, n).Ok? && NewTruthTable(And, n).Ok? && NewTruthTable(Xor, n).Ok?
    ensures forall i, j :: 0 <= i < RangeLen(n) && 0 <= j < RangeLen(n) ==>
      && NewTruthTable(Or, n).value.truthTable[i][j] == NewTruthTable(Or, n).value.truthTable[j][i]
      && NewTruthTable(And, n).value.truthTable[i][j] == NewTruthTable(And, n).value.truthTable[j][i]
      && NewTruthTable(Xor, n).value.truthTable[i][j] == NewTruthTable(Xor, n).value.truthTable[j][i]
  {
  }

  /** In radix 2 the table of `|` is the Boolean one: rows 0 1 and 1 1. */
  lemma BooleanOrTable()
    ensures NewTruthTable(Or, 2).Ok?
    ensures NewTruthTable(Or, 2).value.truthTable == [[Digit(0, 2), Digit(1, 2)], [Digit(1, 2), Digit(1, 2)]]
  {
    DigitOperatorTablesSucceed(2);
    var t := NewTruthTable(Or, 2).value.truthTable;
    assert t[0][0] == Cell(Or, 2, 0, 0).value;
    assert t[0][1] == Cell(Or, 2, 0, 1).value;
    assert t[1][0] == Cell(Or, 2, 1, 0).value;
    assert t[1][1] == Cell(Or, 2, 1, 1).value;
    assert t[0] == [Digit(0, 2), Digit(1, 2)] && t[1] == [Digit(1, 2), Digit(1, 2)];
  }

  /** In radix 2 the table of `^` is the Boolean one: rows 0 1 and 1 0. */
  lemma BooleanXorTable()
    ensures NewTruthTable(Xor, 2).Ok?
    ensures NewTruthTable(Xor, 2).value.truthTable == [[Digit(0, 2), Digit(1, 2)], [Digit(1, 2), Digit(0, 2)]]
  {
    DigitOperatorTablesSucceed(2);
    var x := NewTruthTable(Xor, 2).value.truthTable;
    assert x[0][0] == Digit(0, 2) by { XorIsBoolean(Digit(0, 2), Digit(0, 2)); }
    assert x[0][1] == Digit(1, 2) by { XorIsBoolean(Digit(0, 2), Digit(1, 2)); }
    assert x[1][0] == Digit(1, 2) by { XorIsBoolean(Digit(1, 2), Digit(0, 2)); }
    assert x[1][1] == Digit(0, 2) by { XorIsBoolean(Digit(1, 2), Digit(1, 2)); }
    assert x[0] == [Digit(0, 2), Digit(1, 2)] && x[1] == [Digit(1, 2), Digit(0, 2)];
  }
}
