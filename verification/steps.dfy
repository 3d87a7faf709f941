/**
  The example steps of src/main.rs and the pipeline its `main` builds.

  The steps work on Rust's `i32`; here they work on unbounded integers, which
  agrees with Rust on every input whose result fits in 32 bits.
 */
module Steps {
  import opened Act
  import opened Failures
  import opened Pipeline

  // ---------------------------------------------------------------------------
  // Integer helpers

  function Abs(x: int): nat
  {
    if x < 0 then -x else x
  }

  /** Rust's integer `/`: the quotient rounded toward zero. */
  function TruncDiv(x: int, y: int): int
    requires y != 0
  {
    var m := Abs(x) / Abs(y);
    if (x < 0) == (y < 0) then m else -m
  }

  /**
    The remainder `TruncDiv` leaves is smaller than the divisor in magnitude
    and is zero or has the sign of the dividend: the defining property of
    division rounded toward zero, which pins the quotient down.
   */
  lemma TruncDivRemainder(x: int, y: int)
    requires y != 0
    ensures Abs(x - TruncDiv(x, y) * y) < Abs(y)
    ensures x - TruncDiv(x, y) * y == 0 || (x - TruncDiv(x, y) * y < 0 <==> x < 0)
  {
    var n: int, d: int := Abs(x), Abs(y);
    var m: int, r: int := n / d, n % d;
    assert n == m * d + r && 0 <= r < d;
    var q := TruncDiv(x, y);
    if x < 0 && y < 0 {
      assert q == m && x == -n && y == -d;
      assert q * y == -(m * d);
      assert x - q * y == -r;
    } else if x < 0 {
      assert q == -m && x == -n && y == d;
      assert q * y == -(m * d);
      assert x - q * y == -r;
    } else if y < 0 {
      assert q == -m && x == n && y == -d;
      assert q * y == m * d;
      assert x - q * y == r;
    } else {
      assert q == m && x == n && y == d;
      assert x - q * y == r;
    }
  }

  /**
    Rounding toward zero on a negative dividend: -7 divided by 2 is -3, where
    Dafny's own (Euclidean) `-7 / 2` is -4.
   */
  lemma TruncDivIsNotEuclidean()
    ensures TruncDiv(-7, 2) == -3
  {
  }

  // ---------------------------------------------------------------------------
  // Decimal rendering (`i32::to_string`)

  predicate IsDigits(s: string)
  {
    forall k :: 0 <= k < |s| ==> '0' <= s[k] <= '9'
  }

  /** A canonical decimal numeral: an optional minus sign, then digits without a leading zero; no "-0". */
  predicate IsDecimal(s: string)
  {
    && |s| >= 1
    && (s[0] == '-' ==> |s| >= 2 && IsDigits(s[1..]) && s[1] != '0')
    && (s[0] != '-' ==> IsDigits(s) && (s[0] == '0' ==> |s| == 1))
  }

  function DigitChar(d: nat): (c: char)
    requires d < 10
    ensures '0' <= c <= '9'
  {
    ('0' as int + d) as char
  }

  function DigitValue(c: char): (d: nat)
    requires '0' <= c <= '9'
    ensures d < 10
  {
    c as int - '0' as int
  }

  /** The digits of `n`, most significant first, with no leading zero. */
  function NatDigits(n: nat): (s: string)
    ensures |s| >= 1 && IsDigits(s)
    ensures (s[0] == '0') == (n == 0)
    ensures s[0] == '0' ==> |s| == 1
    decreases n
  {
    if n < 10 then [DigitChar(n)] else NatDigits(n / 10) + [DigitChar(n % 10)]
  }

  /** The text `to_string` produces for `x`: a minus sign for a negative number, then its digits. */
  function Decimal(x: int): (s: string)
    ensures IsDecimal(s)
    ensures (s[0] == '-') == (x < 0)
  {
    if x < 0 then "-" + NatDigits(-x) else NatDigits(x)
  }

  /** The value of a string of digits, read most significant first. */
  function DigitsValue(s: string): nat
    requires IsDigits(s)
    decreases |s|
  {
    if s == [] then 0 else DigitsValue(s[..|s| - 1]) * 10 + DigitValue(s[|s| - 1])
  }

  /** Reading a canonical decimal numeral back, the inverse of `Decimal`. */
  function ParseDecimal(s: string): int
    requires IsDecimal(s)
  {
    if s[0] == '-' then -(DigitsValue(s[1..]) as int) else DigitsValue(s)
  }

  lemma {:induction false} NatDigitsRoundTrip(n: nat)
    ensures DigitsValue(NatDigits(n)) == n
    decreases n
  {
    if n >= 10 {
      var s := NatDigits(n);
      assert s[..|s| - 1] == NatDigits(n / 10);
      NatDigitsRoundTrip(n / 10);
    }
  }

  /** Rendering then reading back gives the number again, so distinct numbers render differently. */
  lemma DecimalRoundTrip(x: int)
    ensures ParseDecimal(Decimal(x)) == x
  {
    var s := Decimal(x);
    if x < 0 {
      var digits := NatDigits(-x);
      assert s == "-" + digits;
      assert s[1..] == digits;
      NatDigitsRoundTrip(-x);
      assert ParseDecimal(s) == -(DigitsValue(digits) as int);
    } else {
      assert s == NatDigits(x);
      NatDigitsRoundTrip(x);
      assert s[0] != '-';
    }
  }

  // ---------------------------------------------------------------------------
  // The steps

  /** The closure `add(y)` returns: never fails; adds `y`. */
  function AddStep(y: int, x: int): (r: Out<int, Failure>)
    ensures r.Ok? && r.value - x == y
  {
    Ok(x + y)
  }

  /** The closure `square()` returns: fails with `InvalidInput` exactly on a negative input; otherwise the square. */
  function SquareStep(x: int): (r: Out<int, Failure>)
    ensures r.Err? <==> x < 0
    ensures r.Err? ==> r.error == InvalidInput("Negative input for square function")
    ensures r.Ok? ==> r.value >= 0 && r.value == x * x
  {
    if x < 0 then Err(InvalidInput("Negative input for square function")) else Ok(x * x)
  }

  /** The closure `to_string()` returns: never fails; the canonical decimal text of the input, which reads back as the input. */
  function ToStringStep(x: int): (r: Out<string, Failure>)
    ensures r.Ok? && IsDecimal(r.value) && ParseDecimal(r.value) == x
  {
    DecimalRoundTrip(x);
    Ok(Decimal(x))
  }

  /** The closure `double()` returns: never fails; twice the input. */
  function DoubleStep(x: int): (r: Out<int, Failure>)
    ensures r.Ok? && r.value - x == x
  {
    Ok(x * 2)
  }

  /** The closure `divide(y)` returns: fails with `ArithmeticError` exactly when `y` is zero; otherwise the quotient rounded toward zero. */
  function DivideStep(y: int, x: int): (r: Out<int, Failure>)
    ensures r.Err? <==> y == 0
    ensures r.Err? ==> r.error == ArithmeticError("Division by zero")
    ensures r.Ok? ==> y != 0 && r.value == TruncDiv(x, y)
  {
    if y == 0 then Err(ArithmeticError("Division by zero")) else Ok(TruncDiv(x, y))
  }

  // The functions of src/main.rs return the closures above; a step value is
  // the closure, so each factory below only wraps its closure's body.

  /** `add(y)` */
  function Add(y: int): int -> Out<int, Failure>
  {
    x => AddStep(y, x)
  }

  /** `square()` */
  function Square(): int -> Out<int, Failure>
  {
    SquareStep
  }

  /** `to_string()` */
  function ToString(): int -> Out<string, Failure>
  {
    ToStringStep
  }

  /** `double()` */
  function Double(): int -> Out<int, Failure>
  {
    DoubleStep
  }

  /** `divide(y)` */
  function Divide(y: int): int -> Out<int, Failure>
  {
    x => DivideStep(y, x)
  }

  // ---------------------------------------------------------------------------
  // Scenarios

  /** `main`: 5 through `add(2)`, `square()`, `double()` and `to_string()` gives "98". */
  method Example() returns (result: Out<string, Failure>)
    ensures result == Ok("98")
  {
    var start := new Reactor<int, Failure>.Input(5);
    var added := start.Then(Add(2));
    assert added.input == Ok(7);
    var squared := added.Then(Square());
    assert squared.input == Ok(49);
    var doubled := squared.Then(Double());
    assert doubled.input == Ok(98);
    var text := doubled.Then(ToString());
    RendersAs98();
    result := text.Run();
  }

  lemma RendersAs98()
    ensures Decimal(98) == "98"
  {
    assert NatDigits(9) == ['9'];
    assert NatDigits(98) == NatDigits(9) + [DigitChar(8)];
  }

  /** A negative input fails at `square()`, and that failure is the final result. */
  method NegativeExample() returns (result: Out<string, Failure>)
    ensures result == Err(InvalidInput("Negative input for square function"))
  {
    var start := new Reactor<int, Failure>.Input(-3);
    var squared := start.Then(Square());
    var doubled := squared.Then(Double());
    var text := doubled.Then(ToString());
    result := text.Run();
  }

  /** `if_else` on parity: an even input is doubled and tagged `Left`, an odd one rendered and tagged `Right`. */
  method BranchExample(x: int) returns (result: Out<Either<int, string>, Failure>)
    ensures x % 2 == 0 ==> result == Ok(Left(x + x))
    ensures x % 2 != 0 ==> result == Ok(Right(Decimal(x)))
    ensures x == 4 ==> result == Ok(Left(8))
    ensures x == 5 ==> result == Ok(Right("5"))
  {
    var start := new Reactor<int, Failure>.Input(x);
    var branched := start.IfElse(v => v % 2 == 0, Double(), ToString());
    result := branched.Run();
    assert Decimal(5) == "5";
  }

  /** `for_each` with `square()` over [1, 2, -1, 3]: fails at -1 and never reaches 3. */
  method ForEachExample() returns (result: Out<seq<int>, Failure>, ghost visited: seq<int>)
    ensures result == Err(InvalidInput("Negative input for square function"))
    ensures visited == [1, 2, -1]
  {
    var xs := [1, 2, -1, 3];
    assert Square()(xs[0]).Ok? && Square()(xs[1]).Ok? && Square()(xs[2]).Err?;
    assert FirstFailure(xs, Square()) == 2;
    var start := new Reactor<seq<int>, Failure>.Input(xs);
    var squared;
    squared, visited := start.ForEach(items => items, Square());
    result := squared.Run();
  }

  /** `merge` with addition over [100, 200, 300, 400]: only the first two items are added. */
  method MergeExample() returns (result: Out<int, Failure>)
    ensures result == Ok(300)
  {
    var start := new Reactor<seq<int>, Failure>.Input([100, 200, 300, 400]);
    var merged := start.Merge(xs => xs, (a, b) => a + b);
    result := merged.Run();
  }
}
