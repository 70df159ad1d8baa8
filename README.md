# n-ary logic in Dafny

This project models `n_ary_logic.py`, an experiment that generalises Boolean logic from bits to digits of any radix `n`.

- `NAryDigit` is a frozen dataclass holding a `value` and a radix `n` (default 2). The constructor rejects a value outside `[0, n)`. The class defines four operators:
  - `~d` is `n - value - 1`.
  - `a | b` is the maximum.
  - `a & b` is the minimum.
  - `a ^ b` is `(a | b) & ~(a & b)`.
- `|` and `&` first call `validate`, which rejects operands whose radices differ. `^` inherits that check through them.
- `@dataclass(order=True)` gives the digits equality and ordering by the tuple `(value, n)`.
- `TruthTable(op, n)` eagerly builds the `n`×`n` grid whose cell `(i, j)` is `op(NAryDigit(i, n), NAryDigit(j, n))`.

The project has three modules:

- `Wrappers` (`wrappers.dfy`) holds `Result` and `Outcome`. They stand in for raised exceptions, and `:-` propagates a raise the way Python does.
- `NAryDigits` (`nary_digit.dfy`) defines the following:
  - `Digit` is the record of the two fields.
  - `NAryDigit` is the subset of records with `0 <= value < n`, which is every digit the class can hold.
  - `Make` is the validating constructor.
  - `Validate`, `Not`, `Or`, `And` and `Xor` are the operators.
  - `Less` and `LessEq` are the generated comparisons, built on `TupleLess` and `TupleLessEq`, which model Python's comparison of tuples.
  - Lemmas about all of them follow.
- `TruthTables` (`truth_table.dfy`) builds the grid row by row and cell by cell, in Python's evaluation order. If the operator raises, construction reports the error of the first failing cell in row-major order.

Every operator is a function of its operands' values, and every result comes from `Make`. So the dataclass's immutability holds by construction, and so does its range invariant, which the type `NAryDigit` carries.

Two points follow the code exactly:
- The code raises `ValueError` for both failures, not two distinct exception classes. The model's `Error` has one constructor for each of the two `raise` sites:
  - `OutOfRange(n)`: the message carries only `n`.
  - `IncompatibleRadix(left, right)`: the message carries the `repr` of both operands.
  - A third constructor, `Raised(description)`, stands for any other exception a caller-supplied table operator raises. `TruthTable(op, n)` passes such an exception on unchanged.
- When `n <= 0`, `range(n)` is empty, so the truth table is empty rather than an error (`RangeLen`).

## Model

| member | source | states |
|---|---|---|
| NAryDigits.Make | n_ary_logic.py:14-16 | construction succeeds exactly when `0 <= value < n`, giving a digit with exactly those fields; otherwise it raises the out-of-range error for radix `n` |
| NAryDigits.MakeRoundTrip | n_ary_logic.py:9-16 | every valid digit is rebuilt unchanged from its own fields, so construction never rejects a digit it produced |
| NAryDigits.MakeInjective | n_ary_logic.py:9-16 | two successful constructions that give the same digit had the same value and radix |
| NAryDigits.Validate | n_ary_logic.py:18-21 | passes exactly when the radices agree, otherwise raises the incompatible-radix error naming both operands in order |
| NAryDigits.Not | n_ary_logic.py:23-24 | `~d` is the digit with value `n - value - 1` and the same radix; it has type `NAryDigit`, so it never raises and stays within `[0, n)` |
| NAryDigits.Or | n_ary_logic.py:26-29 | succeeds exactly when the radices agree; on mismatch raises the incompatible-radix error for `(a, b)`; otherwise the result keeps radix `a.n`, is at least both values and is one of them (the maximum) |
| NAryDigits.And | n_ary_logic.py:31-34 | succeeds exactly when the radices agree; on mismatch raises the incompatible-radix error for `(a, b)`; otherwise the result keeps radix `a.n`, is at most both values and is one of them (the minimum) |
| NAryDigits.Xor | n_ary_logic.py:36-37 | succeeds exactly when the radices agree, and on mismatch reports the same error `a \| b` raises; otherwise the result keeps radix `a.n`, is at most both `max(a, b)` and `n - 1 - min(a, b)`, and equals one of them |
| NAryDigits.Less | n_ary_logic.py:9-12 | the generated `<` compares `(value, n)` lexicographically: different values decide by value, and equal values decide by radix |
| NAryDigits.LessEq | n_ary_logic.py:9-12 | the generated `<=` compares `(value, n)` lexicographically: different values decide by value, and equal values decide by `a.n <= b.n` |
| NAryDigits.Equal | n_ary_logic.py:9-12 | the generated `==` on the tuple `(value, n)` holds exactly when the two digits are the same |
| NAryDigits.LessIsStrictTotalOrder | n_ary_logic.py:9-12 | the generated `<` (lexicographic on `(value, n)`) is irreflexive, transitive, asymmetric and total: exactly one of `a < b`, `a == b`, `b < a` holds |
| NAryDigits.LessEqIsLessOrEqual | n_ary_logic.py:9-12 | the generated `<=` is `<` or `==`, and is the negation of `b < a` |
| NAryDigits.NotInvolution | n_ary_logic.py:23-24 | `~~d == d` |
| NAryDigits.NotReversesOrder | n_ary_logic.py:23-24 | within one radix, `a.value <= b.value` exactly when `(~b).value <= (~a).value` |
| NAryDigits.NotIsBooleanNot | n_ary_logic.py:23-24 | in radix 2, `~` maps 0 to 1 and 1 to 0 |
| NAryDigits.OrAndCommutative | n_ary_logic.py:26-34 | with equal radices, `a \| b == b \| a` and `a & b == b & a` |
| NAryDigits.OrAndIdempotent | n_ary_logic.py:26-34 | `a \| a == a` and `a & a == a` |
| NAryDigits.OrAndAssociative | n_ary_logic.py:26-34 | with equal radices, `(a \| b) \| c == a \| (b \| c)` and the same for `&` |
| NAryDigits.OrAndAbsorption | n_ary_logic.py:26-34 | with equal radices, `a \| (a & b) == a` and `a & (a \| b) == a` |
| NAryDigits.AndDistributesOverOr | n_ary_logic.py:26-34 | with equal radices, `&` distributes over `\|` and `\|` over `&` |
| NAryDigits.OrIsJoinAndIsMeet | n_ary_logic.py:9-34 | within one radix, `a \| b` is the least digit at or above both operands in the dataclass order, and `a & b` the greatest at or below both |
| NAryDigits.OrAndUnits | n_ary_logic.py:26-34 | digit 0 is the unit of `\|` and digit `n - 1` the unit of `&` |
| NAryDigits.DeMorgan | n_ary_logic.py:23-34 | `~a & ~b == ~(a \| b)` and `~a \| ~b == ~(a & b)` |
| NAryDigits.KleeneCondition | n_ary_logic.py:23-34 | with equal radices, `a & ~a` is never above `b \| ~b` |
| NAryDigits.ExcludedMiddleOnlyAtEnds | n_ary_logic.py:23-29 | `a \| ~a` is the top digit `n - 1` exactly when `a` is 0 or `n - 1` |
| NAryDigits.OrAndAreBoolean | n_ary_logic.py:26-34 | in radix 2, `\|` and `&` are Boolean OR and AND |
| NAryDigits.XorValue | n_ary_logic.py:36-37 | with equal radices, `a ^ b` has value `min(max(a, b), n - 1 - min(a, b))` in radix `n` |
| NAryDigits.XorCommutative | n_ary_logic.py:36-37 | with equal radices, `a ^ b == b ^ a` |
| NAryDigits.XorUnitAndComplement | n_ary_logic.py:36-37 | `a ^ 0 == a`, and `a ^ (n - 1) == ~a` |
| NAryDigits.XorSelf | n_ary_logic.py:36-37 | `a ^ a` is `min(a, n - 1 - a)`, so it is 0 exactly when `a` is 0 or `n - 1` |
| NAryDigits.XorIsBoolean | n_ary_logic.py:36-37 | in radix 2, `^` is Boolean XOR: 1 exactly when the operands differ |
| NAryDigits.XorExampleRadixFour | n_ary_logic.py:36-37 | in radix 4, `3 ^ 1 == 2` |
| NAryDigits.RadixMismatchExample | n_ary_logic.py:18-37 | `NAryDigit(1, 3)` combined with `NAryDigit(1, 2)` by `\|`, `&` or `^` raises the incompatible-radix error naming both |
| TruthTables.Row | n_ary_logic.py:52-53 | the first `k` cells of row `i` are built exactly when none of their operator calls raises. Cell `j` is then `op(NAryDigit(i, n), NAryDigit(j, n))`. Otherwise the error is that of the leftmost failing cell |
| TruthTables.Rows | n_ary_logic.py:51-54 | the first `k` rows are built exactly when no cell in them raises. They then hold `k` rows of `n` cells with cell `(i, j)` as above. Otherwise the error is that of the first failing cell in row-major order |
| TruthTables.NewTruthTable | n_ary_logic.py:47-54 | the table stores `op` and `n` and has exactly `n` rows of `n` cells (none when `n <= 0`). Each cell `(i, j)` is `op(NAryDigit(i, n), NAryDigit(j, n))`. Construction fails exactly when some cell raises, and then reports the first failing cell's error |
| TruthTables.DigitOperatorTablesSucceed | n_ary_logic.py:18-21 | the tables of `\|`, `&` and `^` are built for every `n`: operands that share radix `n` never mismatch |
| TruthTables.FirstCellErrorIsReported | n_ary_logic.py:51-54 | an operator that raises on `(0, 0)` makes construction raise that very error |
| TruthTables.CommutativeOpGivesSymmetricTable | n_ary_logic.py:51-54 | the table of an operator that is commutative within a radix is symmetric |
| TruthTables.DigitOperatorTablesSymmetric | n_ary_logic.py:26-54 | the tables of `\|`, `&` and `^` are symmetric |
| TruthTables.BooleanOrTable | n_ary_logic.py:26-54 | in radix 2, the `\|` table has rows `0 1` and `1 1` |
| TruthTables.BooleanXorTable | n_ary_logic.py:36-54 | in radix 2, the `^` table has rows `0 1` and `1 0` |

## Left out

- `TruthTable.__str__` (n_ary_logic.py:56-71) is not modelled:
  - It computes the column width with floating-point `ceil(log(n, 10))`.
  - It builds its text by redirecting process-wide standard output into a buffer.
  - The table's content is modelled by `NewTruthTable`; its textual layout is not.
- `NAryDigit.__str__` and `__format__` (n_ary_logic.py:39-43) are not modelled. They only hand `value` to Python's integer formatting, and the radix is never shown.
- Exception classes and message texts are not modelled. Only which check raised is kept, with the data its message shows.
- Python does not check field types, so `NAryDigit(1.5, 2)` would be accepted. The model's fields are integers.
- Operators applied to a non-digit operand are not modelled. A table operator is modelled as a function that always terminates and either returns a digit or raises. One that runs forever, or returns something other than a digit, is not modelled; the latter would only store an arbitrary object in the table.
- The keyword default `n=2` is the constant `NAryDigits.DefaultRadix`. Every model function takes the radix explicitly.
- Rich comparisons against objects of another class return `NotImplemented` in Python; the model compares digits only.
