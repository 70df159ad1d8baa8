/** A digit of radix n and the four operators that generalise Boolean logic
    to it: NOT is the complement n - 1 - value, OR is the maximum, AND is the
    minimum, and XOR is derived from them as (a | b) & ~(a & b).

    Python's frozen dataclass becomes a datatype value: no operator can
    change its operands, and each returns a new digit built through the
    validating constructor `Make`. The `ValueError`s the class raises become
    `Err` results that say which of the two checks failed. */
module NAryDigits {
  import opened Wrappers

  /** The radix a digit gets when none is given. */
  const DefaultRadix: int := 2

  /** The two fields of the dataclass, in declaration order. */
  datatype Digit = Digit(value: int, n: int)

  /** A digit whose value lies in [0, n). Every digit the class can hold is
      one of these, because construction checks the range. */
  type NAryDigit = d: Digit | 0 <= d.value < d.n witness Digit(0, DefaultRadix)

  /** The two reasons a digit operation raises `ValueError`, and any other
      exception a caller-supplied table operator may raise. */
  datatype Error =
    | OutOfRange(n: int)                          // value outside [0, n) at construction
    | IncompatibleRadix(left: Digit, right: Digit) // operands of different radices
    | Raised(description: string)                 // raised by an operator outside this class

  function Max(x: int, y: int): int { if x >= y then x else y }

  function Min(x: int, y: int): int { if x <= y then x else y }

  // ---------------------------------------------------------------------
  // Construction and validation

  /** `NAryDigit(value, n)`: succeeds exactly when the value is in range. */
  function Make(value: int, n: int): (r: Result<NAryDigit, Error>)
    ensures r.Ok? <==> 0 <= value < n
    ensures r.Ok? ==> r.value.value == value && r.value.n == n
    ensures r.Err? ==> r.error == OutOfRange(n)
  {
    if 0 <= value < n then Ok(Digit(value, n)) else Err(OutOfRange(n))
  }

  /** Any digit can be rebuilt from its two fields: construction loses
      nothing and never rejects a digit it produced. */
  lemma MakeRoundTrip(d: NAryDigit)
    ensures Make(d.value, d.n) == Ok(d)
  {
  }

  /** Two calls with different field values never give the same digit. */
  lemma MakeInjective(v1: int, n1: int, v2: int, n2: int)
    requires Make(v1, n1).Ok? && Make(v2, n2).Ok?
    requires Make(v1, n1) == Make(v2, n2)
    ensures v1 == v2 && n1 == n2
  {
  }

  /** `validate`: passes exactly when both digits have the same radix. */
  function Validate(self: NAryDigit, other: NAryDigit): (r: Outcome<Error>)
    ensures r.Pass? <==> self.n == other.n
    ensures r.Fail? ==> r.error == IncompatibleRadix(self, other)
  {
    if self.n != other.n then Fail(IncompatibleRadix(self, other)) else Pass
  }

  // ---------------------------------------------------------------------
  // Operators

  /** `~d`: the complement, rebuilt through the constructor, which accepts it. */
  function Not(d: NAryDigit): (r: NAryDigit)
    ensures r == Digit(d.n - d.value - 1, d.n)
  {
    Make(d.n - d.value - 1, d.n).value
  }

  /** `a | b`: the larger value, in the radix of `a`, after `validate`. */
  function Or(a: NAryDigit, b: NAryDigit): (r: Result<NAryDigit, Error>)
    ensures r.Ok? <==> a.n == b.n
    ensures r.Err? ==> r.error == IncompatibleRadix(a, b)
    ensures r.Ok? ==> r.value.n == a.n
    ensures r.Ok? ==> a.value <= r.value.value && b.value <= r.value.value
    ensures r.Ok? ==> r.value.value == a.value || r.value.value == b.value
  {
    match Validate(a, b)
    case Fail(e) => Err(e)
    case Pass => Make(Max(a.value, b.value), a.n)
  }

  /** `a & b`: the smaller value, in the radix of `a`, after `validate`. */
  function And(a: NAryDigit, b: NAryDigit): (r: Result<NAryDigit, Error>)
    ensures r.Ok? <==> a.n == b.n
    ensures r.Err? ==> r.error == IncompatibleRadix(a, b)
    ensures r.Ok? ==> r.value.n == a.n
    ensures r.Ok? ==> r.value.value <= a.value && r.value.value <= b.value
    ensures r.Ok? ==> r.value.value == a.value || r.value.value == b.value
  {
    match Validate(a, b)
    case Fail(e) => Err(e)
    case Pass => Make(Min(a.value, b.value), a.n)
  }

  /** `a ^ b` = `(a | b) & ~(a & b)`, evaluated in Python's order: the OR
      first, so a radix mismatch is reported by it, with the operands as given;
      once the OR has passed `validate`, the AND that follows cannot raise. */
  function Xor(a: NAryDigit, b: NAryDigit): (r: Result<NAryDigit, Error>)
    ensures r.Ok? <==> a.n == b.n
    ensures r.Err? ==> r.error == IncompatibleRadix(a, b)
    ensures r.Ok? ==> r.value.n == a.n
    ensures r.Ok? ==> r.value.value <= Max(a.value, b.value)
    ensures r.Ok? ==> r.value.value <= a.n - 1 - Min(a.value, b.value)
    ensures r.Ok? ==>
      r.value.value == Max(a.value, b.value) || r.value.value == a.n - 1 - Min(a.value, b.value)
  {
    var either :- Or(a, b);
    And(either, Not(And(a, b).value))
  }

  // ---------------------------------------------------------------------
  // Ordering and equality generated by @dataclass(order=True)

  /** Python's `<` on tuples of integers: the first position where they
      differ decides, and when one is a prefix of the other the shorter is smaller. */
  function TupleLess(x: seq<int>, y: seq<int>): bool
    decreases |x|
  {
    if |x| == 0 || |y| == 0 then |x| < |y|
    else if x[0] != y[0] then x[0] < y[0]
    else TupleLess(x[1..], y[1..])
  }

  /** Python's `<=` on tuples of integers: as `<`, but equal tuples compare true. */
  function TupleLessEq(x: seq<int>, y: seq<int>): bool
    decreases |x|
  {
    if |x| == 0 || |y| == 0 then |x| <= |y|
    else if x[0] != y[0] then x[0] < y[0]
    else TupleLessEq(x[1..], y[1..])
  }

  /** `a < b`: the tuples (value, n) compared lexicographically. The value
      decides; the radix breaks a tie. */
  function Less(a: Digit, b: Digit): (r: bool)
    ensures a.value != b.value ==> (r <==> a.value < b.value)
    ensures a.value == b.value ==> (r <==> a.n < b.n)
  {
    var x, y := [a.value, a.n], [b.value, b.n];
    assert x[1..] == [a.n] && y[1..] == [b.n] && [a.n][1..] == [] == [b.n][1..];
    assert TupleLess([a.n], [b.n]) <==> a.n < b.n;
    TupleLess(x, y)
  }

  /** `a <= b`: the tuples (value, n) compared lexicographically. The value
      decides; the radix breaks a tie. */
  function LessEq(a: Digit, b: Digit): (r: bool)
    ensures a.value != b.value ==> (r <==> a.value < b.value)
    ensures a.value == b.value ==> (r <==> a.n <= b.n)
  {
    var x, y := [a.value, a.n], [b.value, b.n];
    assert x[1..] == [a.n] && y[1..] == [b.n] && [a.n][1..] == [] == [b.n][1..];
    assert TupleLessEq([a.n], [b.n]) <==> a.n <= b.n;
    TupleLessEq(x, y)
  }

  /** `a == b`: the tuples (value, n) compared field by field; it coincides
      with equality of the digits themselves. */
  function Equal(a: Digit, b: Digit): (r: bool)
    ensures r <==> a == b
  {
    (a.value, a.n) == (b.value, b.n)
  }

  /** `<` is a strict total order: irreflexive, transitive, and exactly one of
      `a < b`, `a == b`, `b < a` holds. */
  lemma LessIsStrictTotalOrder(a: Digit, b: Digit, c: Digit)
    ensures !Less(a, a)
    ensures Less(a, b) && Less(b, c) ==> Less(a, c)
    ensures Less(a, b) || a == b || Less(b, a)
    ensures !(Less(a, b) && Less(b, a))
  {
  }

  /** `<=` is `<` or `==`, and it is the negation of `b < a`. */
  lemma LessEqIsLessOrEqual(a: Digit, b: Digit)
    ensures LessEq(a, b) <==> Less(a, b) || a == b
    ensures LessEq(a, b) <==> !Less(b, a)
  {
  }

  // ---------------------------------------------------------------------
  // NOT

  /** `~~d == d`. */
  lemma NotInvolution(d: NAryDigit)
    ensures Not(Not(d)) == d
  {
  }

  /** The complement reverses the order of values within a radix. */
  lemma NotReversesOrder(a: NAryDigit, b: NAryDigit)
    requires a.n == b.n
    ensures a.value <= b.value <==> Not(b).value <= Not(a).value
  {
  }

  /** With two values, NOT swaps 0 and 1. */
  lemma NotIsBooleanNot(d: NAryDigit)
    requires d.n == 2
    ensures Not(d) == Digit(1 - d.value, 2)
  {
  }

  // ---------------------------------------------------------------------
  // OR and AND form a distributive lattice on the digits of one radix

  lemma OrAndCommutative(a: NAryDigit, b: NAryDigit)
    requires a.n == b.n
    ensures Or(a, b) == Or(b, a)
    ensures And(a, b) == And(b, a)
  {
  }

  lemma OrAndIdempotent(a: NAryDigit)
    ensures Or(a, a) == Ok(a)
    ensures And(a, a) == Ok(a)
  {
  }

  lemma OrAndAssociative(a: NAryDigit, b: NAryDigit, c: NAryDigit)
    requires a.n == b.n == c.n
    ensures Or(Or(a, b).value, c) == Or(a, Or(b, c).value)
    ensures And(And(a, b).value, c) == And(a, And(b, c).value)
  {
  }

  lemma OrAndAbsorption(a: NAryDigit, b: NAryDigit)
    requires a.n == b.n
    ensures Or(a, And(a, b).value) == Ok(a)
    ensures And(a, Or(a, b).value) == Ok(a)
  {
  }

  lemma AndDistributesOverOr(a: NAryDigit, b: NAryDigit, c: NAryDigit)
    requires a.n == b.n == c.n
    ensures And(a, Or(b, c).value) == Or(And(a, b).value, And(a, c).value)
    ensures Or(a, And(b, c).value) == And(Or(a, b).value, Or(a, c).value)
  {
  }

  /** Within one radix, `a | b` is the least digit (in the dataclass order)
      at or above both operands, and `a & b` the greatest at or below both. */
  lemma OrIsJoinAndIsMeet(a: NAryDigit, b: NAryDigit, c: NAryDigit)
    requires a.n == b.n == c.n
    ensures LessEq(a, Or(a, b).value) && LessEq(b, Or(a, b).value)
    ensures LessEq(a, c) && LessEq(b, c) ==> LessEq(Or(a, b).value, c)
    ensures LessEq(And(a, b).value, a) && LessEq(And(a, b).value, b)
    ensures LessEq(c, a) && LessEq(c, b) ==> LessEq(c, And(a, b).value)
  {
  }

  /** The digit 0 is the unit of OR and n - 1 the unit of AND. */
  lemma OrAndUnits(a: NAryDigit)
    ensures Or(a, Digit(0, a.n)) == Ok(a)
    ensures And(a, Digit(a.n - 1, a.n)) == Ok(a)
  {
  }

  /** De Morgan's laws hold for the complement. */
  lemma DeMorgan(a: NAryDigit, b: NAryDigit)
    requires a.n == b.n
    ensures And(Not(a), Not(b)) == Ok(Not(Or(a, b).value))
    ensures Or(Not(a), Not(b)) == Ok(Not(And(a, b).value))
  {
  }

  /** Kleene's condition: `a & ~a` never exceeds `b | ~b`. */
  lemma KleeneCondition(a: NAryDigit, b: NAryDigit)
    requires a.n == b.n
    ensures And(a, Not(a)).value.value <= Or(b, Not(b)).value.value
  {
  }

  /** The law of the excluded middle holds exactly for the two ends of the
      range: `a | ~a` is the top digit n - 1 only when a is 0 or n - 1. */
  lemma ExcludedMiddleOnlyAtEnds(a: NAryDigit)
    ensures Or(a, Not(a)) == Ok(Digit(a.n - 1, a.n)) <==> a.value == 0 || a.value == a.n - 1
  {
  }

  /** With two values, OR and AND are Boolean OR and AND. */
  lemma OrAndAreBoolean(a: NAryDigit, b: NAryDigit)
    requires a.n == 2 && b.n == 2
    ensures Or(a, b) == Ok(Digit(if a.value == 1 || b.value == 1 then 1 else 0, 2))
    ensures And(a, b) == Ok(Digit(if a.value == 1 && b.value == 1 then 1 else 0, 2))
  {
  }

  // ---------------------------------------------------------------------
  // XOR

  /** The value of `a ^ b` in closed form: min(max(a, b), n - 1 - min(a, b)). */
  lemma XorValue(a: NAryDigit, b: NAryDigit)
    requires a.n == b.n
    ensures Xor(a, b) == Ok(Digit(Min(Max(a.value, b.value), a.n - 1 - Min(a.value, b.value)), a.n))
  {
  }

  /** `a ^ b == b ^ a` within one radix. */
  lemma XorCommutative(a: NAryDigit, b: NAryDigit)
    requires a.n == b.n
    ensures Xor(a, b) == Xor(b, a)
  {
  }

  /** 0 is the unit of XOR, and XOR with the top digit n - 1 is NOT. */
  lemma XorUnitAndComplement(a: NAryDigit)
    ensures Xor(a, Digit(0, a.n)) == Ok(a)
    ensures Xor(a, Digit(a.n - 1, a.n)) == Ok(Not(a))
  {
  }

  /** `a ^ a` is the smaller of a and ~a, so it is 0 only at the two ends of
      the range, unlike Boolean XOR once n > 2. */
  lemma XorSelf(a: NAryDigit)
    ensures Xor(a, a) == Ok(Digit(Min(a.value, a.n - 1 - a.value), a.n))
    ensures Xor(a, a).value.value == 0 <==> a.value == 0 || a.value == a.n - 1
  {
  }

  /** With two values, XOR is Boolean XOR. */
  lemma XorIsBoolean(a: NAryDigit, b: NAryDigit)
    requires a.n == 2 && b.n == 2
    ensures Xor(a, b) == Ok(Digit(if a.value != b.value then 1 else 0, 2))
  {
  }

  /** In radix 4, 3 ^ 1 is 2: OR gives 3, AND gives 1, its complement 2. */
  lemma XorExampleRadixFour()
    ensures Xor(Digit(3, 4), Digit(1, 4)) == Ok(Digit(2, 4))
  {
  }

  /** Mixing radices raises in every binary operator: `NAryDigit(1, 3) | NAryDigit(1, 2)`
      and the same with `&` and `^`. */
  lemma RadixMismatchExample()
    ensures Or(Digit(1, 3), Digit(1, 2)) == Err(IncompatibleRadix(Digit(1, 3), Digit(1, 2)))
    ensures And(Digit(1, 3), Digit(1, 2)) == Err(IncompatibleRadix(Digit(1, 3), Digit(1, 2)))
    ensures Xor(Digit(1, 3), Digit(1, 2)) == Err(IncompatibleRadix(Digit(1, 3), Digit(1, 2)))
  {
  }
}
