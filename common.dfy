/** Values shared by every module: optional values, the exceptions the Python code
    raises (as data), and the "stop at the first failing check" combinator that every
    validator in the program is built from. */
module Common {

  datatype Option<T> = None | Some(value: T)

  /** The exceptions the modelled code can raise, as values. */
  datatype Fault =
    | AssertionFailed(message: string)    // an `assert` whose condition was false
    | KeyMissing(key: string)             // KeyError: no such dictionary key or table column
    | NoSuchSubstring(sub: string)        // ValueError raised by `str.index`
    | Unreadable(path: string)            // pandas could not read this path as CSV
    | WrongArgumentCount(callee: string)  // TypeError: a message lambda called with too few arguments
    | IndexOutOfRange                     // IndexError raised by a list or string subscript
    | Unbound(name: string)               // a local variable read before any assignment
    | NotANumber(text: string)            // ValueError raised by `float`
    | NanToInteger                        // ValueError raised by `int` on a NaN cell
    | ZeroStep                            // ValueError raised by `range` with step 0
    | NoAttribute(attribute: string)      // AttributeError: a string method called on a NaN cell

  /** The result of a check that produces no value. */
  datatype Outcome = Pass | Fail(fault: Fault)

  /** The result of a computation that produces a value or raises. */
  datatype Result<T> = Ok(value: T) | Err(fault: Fault)

  function Need(condition: bool, fault: Fault): (r: Outcome)
    ensures r.Pass? <==> condition
    ensures r.Fail? ==> r.fault == fault
  {
    if condition then Pass else Fail(fault)
  }

  /** Runs `check` on every element in order and stops at the first failure, as a
      Python `for` loop of `assert`s does. */
  function CheckAll<T>(xs: seq<T>, check: T -> Outcome): (r: Outcome)
    ensures r.Pass? <==> forall i :: 0 <= i < |xs| ==> check(xs[i]).Pass?
    ensures r.Fail? ==> exists i :: 0 <= i < |xs| && check(xs[i]) == r &&
                                   forall j :: 0 <= j < i ==> check(xs[j]).Pass?
  {
    if |xs| == 0 then Pass
    else if check(xs[0]).Fail? then check(xs[0])
    else
      var rest := CheckAll(xs[1..], check);
      assert forall i :: 1 <= i < |xs| ==> check(xs[i]) == check(xs[1..][i - 1]);
      rest
  }

  /** Runs `first`, then `second` only when `first` passed. */
  function AndThen(first: Outcome, second: Outcome): (r: Outcome)
    ensures r.Pass? <==> first.Pass? && second.Pass?
    ensures r == if first.Fail? then first else second
  {
    if first.Fail? then first else second
  }

  lemma {:induction false} CheckAllFirstFailure<T>(xs: seq<T>, check: T -> Outcome, k: nat)
    requires k < |xs| && check(xs[k]).Fail?
    requires forall j :: 0 <= j < k ==> check(xs[j]).Pass?
    ensures CheckAll(xs, check) == check(xs[k])
  {
    if k > 0 {
      assert check(xs[0]).Pass?;
      assert xs[1..][k - 1] == xs[k];
      forall j | 0 <= j < k - 1 ensures check(xs[1..][j]).Pass? {
        assert xs[1..][j] == xs[j + 1];
      }
      CheckAllFirstFailure(xs[1..], check, k - 1);
    }
  }

  lemma {:induction false} CheckAllAppend<T>(xs: seq<T>, ys: seq<T>, check: T -> Outcome)
    ensures CheckAll(xs + ys, check) == AndThen(CheckAll(xs, check), CheckAll(ys, check))
  {
    if |xs| > 0 {
      assert (xs + ys)[0] == xs[0];
      assert (xs + ys)[1..] == xs[1..] + ys;
      CheckAllAppend(xs[1..], ys, check);
    } else {
      assert xs + ys == ys;
    }
  }

  // ---------------------------------------------------------------------------
  // Integer division, for counting slices and replacement years

  lemma {:induction false} MulAtLeast(d: int, n: int)
    requires d >= 1 && n > 0
    ensures d * n >= n
  {
    if d > 1 {
      MulAtLeast(d - 1, n);
      assert d * n == (d - 1) * n + n;
    }
  }

  /** Euclidean division has one quotient and one remainder. */
  lemma DivUnique(a: int, n: int, q: int, rem: int)
    requires n > 0 && 0 <= rem < n && a == q * n + rem
    ensures a / n == q
  {
    var q' := a / n;
    if q' > q {
      MulAtLeast(q' - q, n);
    } else if q' < q {
      MulAtLeast(q - q', n);
    }
  }

  lemma DivStep(m: nat, n: nat)
    requires n > 0
    ensures (m + n) / n == m / n + 1
  {
    var q, rem := m / n, m % n;
    assert m == q * n + rem && 0 <= rem < n;
    assert m + n == (q + 1) * n + rem;
    DivUnique(m + n, n, q + 1, rem);
  }

  lemma ConcatAssociates<T>(a: seq<T>, b: seq<T>, c: seq<T>)
    ensures (a + b) + c == a + (b + c)
  {
  }
}
