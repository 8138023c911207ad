/** Failure-compatible results, machine-integer bounds, and folds over sequences. */
module Common {

  datatype Option<+T> = None | Some(value: T)

  /** Why an entry point aborts. The host rolls the whole call back in every case. */
  datatype Error =
    | OutOfBounds          // a checkpoint or header index outside its queue
    | Overflow             // a checked machine operation, or a panic on a missing element
    | NoValue              // an `unwrap` of a missing value
    | NoCompleted          // "No completed checkpoints yet"
    | EmptySigset          // redeem script of an empty signatory set
    | InsufficientReserve  // "Insufficient reserve value to cover miner fees"
    | SignaturesMissing    // "Not enough signatures supplied"
    | SignaturesExcess     // "Excess signatures supplied"
    | BadSignature
    | AlreadySigned
    | StillBuilding
    | Rejected             // any other refusal of the caller's arguments

  datatype Result<+T> = Ok(value: T) | Err(error: Error) {
    predicate IsFailure() {
      Err?
    }

    function PropagateFailure<U>(): Result<U>
      requires Err?
    {
      Err(error)
    }

    function Extract(): T
      requires Ok?
    {
      value
    }
  }

  const U64: int := 0x1_0000_0000_0000_0000
  const I64: int := 0x8000_0000_0000_0000

  /** A `u64` operation under overflow checks. */
  function Checked(x: int): (r: Result<nat>)
    ensures r.Ok? <==> 0 <= x < U64
    ensures r.Ok? ==> r.value == x
  {
    if 0 <= x < U64 then Ok(x) else Err(Overflow)
  }

  /** A subtraction of machine words under overflow checks: it can only underflow. */
  function Minus(a: int, b: int): (r: Result<nat>)
    ensures r.Ok? <==> b <= a
    ensures r.Ok? ==> r.value == a - b
  {
    if b <= a then Ok(a - b) else Err(Overflow)
  }

  function Clamp(x: nat, lo: nat, hi: nat): nat {
    if x < lo then lo else if x > hi then hi else x
  }

  /** A product, kept out of sight of the arithmetic around it. */
  function Times(a: nat, b: nat): nat {
    a * b
  }

  /** The cast `x as i64` of a `u64`, which wraps silently. */
  function AsI64(x: nat): int {
    if x < I64 then x else x - U64
  }

  /** An `i64` operation under overflow checks. */
  function CheckedI64(x: int): (r: Result<int>)
    ensures r.Ok? <==> -I64 <= x < I64
    ensures r.Ok? ==> r.value == x
  {
    if -I64 <= x < I64 then Ok(x) else Err(Overflow)
  }

  function SatSub(a: nat, b: nat): nat {
    if b <= a then a - b else 0
  }

  /** The elements from position `k` on. */
  function Suffix<T>(s: seq<T>, k: nat): (r: seq<T>)
    requires k <= |s|
    ensures |r| == |s| - k
    ensures forall i :: 0 <= i < |r| ==> r[i] == s[k + i]
  {
    seq(|s| - k, i requires 0 <= i < |s| - k => s[k + i])
  }

  lemma SuffixCons<T>(s: seq<T>, k: nat)
    requires k < |s|
    ensures Suffix(s, k) == [s[k]] + Suffix(s, k + 1)
  {
  }

  lemma SuffixStep<T>(s: seq<T>, k: nat)
    requires k < |s|
    ensures Suffix(Suffix(s, k), 1) == Suffix(s, k + 1)
  {
  }

  /** The elements from position `a` up to `b`. */
  function Range<T>(s: seq<T>, a: nat, b: nat): (r: seq<T>)
    requires a <= b <= |s|
    ensures |r| == b - a && forall i :: 0 <= i < b - a ==> r[i] == s[a + i]
  {
    seq(b - a, i requires 0 <= i < b - a => s[a + i])
  }

  // ----- sums over sequences -----

  /** The sum of the first `n` terms. */
  function SumTo<T>(s: seq<T>, n: nat, f: T -> int): int
    requires n <= |s|
  {
    if n == 0 then 0 else SumTo(s, n - 1, f) + f(s[n - 1])
  }

  function Sum<T>(s: seq<T>, f: T -> int): int {
    SumTo(s, |s|, f)
  }

  lemma {:induction false} SumToAgrees<T, U>(a: seq<T>, b: seq<U>, n: nat, f: T -> int, g: U -> int)
    requires n <= |a| && n <= |b|
    requires forall i :: 0 <= i < n ==> f(a[i]) == g(b[i])
    ensures SumTo(a, n, f) == SumTo(b, n, g)
  {
    if n > 0 {
      SumToAgrees(a, b, n - 1, f, g);
    }
  }

  lemma SumAgrees<T, U>(a: seq<T>, b: seq<U>, f: T -> int, g: U -> int)
    requires |a| == |b|
    requires forall i :: 0 <= i < |a| ==> f(a[i]) == g(b[i])
    ensures Sum(a, f) == Sum(b, g)
  {
    SumToAgrees(a, b, |a|, f, g);
  }

  lemma {:induction false} SumToConcat<T>(a: seq<T>, b: seq<T>, n: nat, f: T -> int)
    requires n <= |b|
    ensures SumTo(a + b, |a| + n, f) == Sum(a, f) + SumTo(b, n, f)
  {
    if n == 0 {
      SumToAgrees(a + b, a, |a|, f, f);
    } else {
      SumToConcat(a, b, n - 1, f);
    }
  }

  lemma SumConcat<T>(a: seq<T>, b: seq<T>, f: T -> int)
    ensures Sum(a + b, f) == Sum(a, f) + Sum(b, f)
  {
    SumToConcat(a, b, |b|, f);
  }

  lemma SumSingle<T>(x: T, f: T -> int)
    ensures Sum([x], f) == f(x)
  {
    assert SumTo([x], 0, f) == 0;
  }

  lemma SumSnoc<T>(s: seq<T>, x: T, f: T -> int)
    ensures Sum(s + [x], f) == Sum(s, f) + f(x)
  {
    SumConcat(s, [x], f);
    SumSingle(x, f);
  }

  lemma SumCons<T>(x: T, s: seq<T>, f: T -> int)
    ensures Sum([x] + s, f) == f(x) + Sum(s, f)
  {
    SumConcat([x], s, f);
    SumSingle(x, f);
  }

  lemma SumSplit<T>(s: seq<T>, i: nat, f: T -> int)
    requires i <= |s|
    ensures Sum(s, f) == Sum(s[..i], f) + Sum(s[i..], f)
  {
    assert s == s[..i] + s[i..];
    SumConcat(s[..i], s[i..], f);
  }

  lemma {:induction false} SumToUpdate<T>(s: seq<T>, i: nat, x: T, n: nat, f: T -> int)
    requires i < n <= |s|
    ensures SumTo(s[i := x], n, f) == SumTo(s, n, f) - f(s[i]) + f(x)
  {
    if n == i + 1 {
      SumToAgrees(s[i := x], s, i, f, f);
    } else {
      SumToUpdate(s, i, x, n - 1, f);
    }
  }

  lemma SumUpdate<T>(s: seq<T>, i: nat, x: T, f: T -> int)
    requires i < |s|
    ensures Sum(s[i := x], f) == Sum(s, f) - f(s[i]) + f(x)
  {
    SumToUpdate(s, i, x, |s|, f);
  }

  lemma {:induction false} SumToNonNegative<T>(s: seq<T>, n: nat, f: T -> int)
    requires n <= |s| && forall i :: 0 <= i < n ==> 0 <= f(s[i])
    ensures 0 <= SumTo(s, n, f)
  {
    if n > 0 {
      SumToNonNegative(s, n - 1, f);
    }
  }

  lemma SumNonNegative<T>(s: seq<T>, f: T -> int)
    requires forall i :: 0 <= i < |s| ==> 0 <= f(s[i])
    ensures 0 <= Sum(s, f)
  {
    SumToNonNegative(s, |s|, f);
  }

  lemma {:induction false} SumToMonotone<T>(s: seq<T>, n: nat, m: nat, f: T -> int)
    requires n <= m <= |s| && forall i :: n <= i < m ==> 0 <= f(s[i])
    ensures SumTo(s, n, f) <= SumTo(s, m, f)
  {
    if n < m {
      SumToMonotone(s, n, m - 1, f);
    }
  }

  /** The terms of a shifted sequence. */
  lemma {:induction false} SumShift<T>(a: seq<T>, b: seq<T>, k: nat, m: nat, f: T -> int)
    requires k + m <= |a| && m <= |b|
    requires forall i :: 0 <= i < m ==> b[i] == a[k + i]
    ensures SumTo(b, m, f) == SumTo(a, k + m, f) - SumTo(a, k, f)
  {
    if m > 0 {
      SumShift(a, b, k, m - 1, f);
    }
  }

  /** A prefix of non-negative terms sums to no more than the whole. */
  lemma SumPrefix<T>(s: seq<T>, i: nat, f: T -> int)
    requires i <= |s|
    requires forall i :: 0 <= i < |s| ==> 0 <= f(s[i])
    ensures 0 <= Sum(s[..i], f) <= Sum(s, f)
  {
    SumSplit(s, i, f);
    SumNonNegative(s[..i], f);
    SumNonNegative(s[i..], f);
  }

  lemma {:induction false} SumToZero<T>(s: seq<T>, n: nat, f: T -> int)
    requires n <= |s| && forall i :: 0 <= i < n ==> f(s[i]) == 0
    ensures SumTo(s, n, f) == 0
  {
    if n > 0 {
      SumToZero(s, n - 1, f);
    }
  }

  lemma {:induction false} SumToAtMost<T>(a: seq<T>, n: nat, f: T -> int, g: T -> int)
    requires n <= |a| && forall i :: 0 <= i < n ==> f(a[i]) <= g(a[i])
    ensures SumTo(a, n, f) <= SumTo(a, n, g)
  {
    if n > 0 {
      SumToAtMost(a, n - 1, f, g);
    }
  }

  lemma SumAtMost<T>(a: seq<T>, f: T -> int, g: T -> int)
    requires forall i :: 0 <= i < |a| ==> f(a[i]) <= g(a[i])
    ensures Sum(a, f) <= Sum(a, g)
  {
    SumToAtMost(a, |a|, f, g);
  }

  /** The sum of the terms from position `a` up to `b`. */
  function SumBetween<T>(s: seq<T>, a: nat, b: nat, f: T -> int): int
    requires b <= |s|
  {
    if a >= b then 0 else SumBetween(s, a, b - 1, f) + f(s[b - 1])
  }

  /** Zeroing a range takes out exactly what the range contributed. */
  lemma {:induction false} SumCleared<T>(s: seq<T>, r: seq<T>, a: nat, b: nat, n: nat, f: T -> int)
    requires b <= n <= |s| == |r|
    requires forall k :: 0 <= k < n ==> f(r[k]) == if a <= k < b then 0 else f(s[k])
    ensures SumTo(r, n, f) + SumBetween(s, a, b, f) == SumTo(s, n, f)
  {
    if a >= b {
      SumToAgrees(r, s, n, f, f);
    } else if b < n {
      SumCleared(s, r, a, b, n - 1, f);
    } else if n - 1 > a {
      SumCleared(s, r, a, b - 1, n - 1, f);
    } else {
      SumToAgrees(r, s, n - 1, f, f);
    }
  }

  /** The parts of the first `k` elements, one after the other. */
  function Flatten<T, U>(s: seq<T>, k: nat, part: T -> seq<U>): seq<U>
    requires k <= |s|
  {
    if k == 0 then [] else Flatten(s, k - 1, part) + part(s[k - 1])
  }

  lemma ConcatAssociates<T>(a: seq<T>, b: seq<T>, c: seq<T>)
    ensures (a + b) + c == a + (b + c)
  {
  }

  lemma {:induction false} FlattenSum<T, U>(s: seq<T>, k: nat, part: T -> seq<U>, g: U -> int, f: T -> int)
    requires k <= |s| && forall i :: 0 <= i < k ==> Sum(part(s[i]), g) == f(s[i])
    ensures Sum(Flatten(s, k, part), g) == SumTo(s, k, f)
  {
    if k > 0 {
      FlattenSum(s, k - 1, part, g, f);
      SumConcat(Flatten(s, k - 1, part), part(s[k - 1]), g);
    }
  }

  lemma {:induction false} FlattenAgrees<T, U>(a: seq<T>, b: seq<T>, k: nat, part: T -> seq<U>)
    requires k <= |a| && k <= |b| && forall i :: 0 <= i < k ==> part(a[i]) == part(b[i])
    ensures Flatten(a, k, part) == Flatten(b, k, part)
  {
    if k > 0 {
      FlattenAgrees(a, b, k - 1, part);
    }
  }

  /** The parts of a shifted sequence. */
  lemma {:induction false} FlattenShift<T, U>(a: seq<T>, b: seq<T>, k: nat, m: nat, part: T -> seq<U>)
    requires k + m <= |a| && m <= |b| && forall i :: 0 <= i < m ==> b[i] == a[k + i]
    ensures Flatten(a, k + m, part) == Flatten(a, k, part) + Flatten(b, m, part)
  {
    if m > 0 {
      FlattenShift(a, b, k, m - 1, part);
      ConcatAssociates(Flatten(a, k, part), Flatten(b, m - 1, part), part(b[m - 1]));
    }
  }

  lemma {:induction false} FlattenConcat<T, U>(a: seq<T>, b: seq<T>, k: nat, part: T -> seq<U>)
    requires k <= |b|
    ensures Flatten(a + b, |a| + k, part) == Flatten(a, |a|, part) + Flatten(b, k, part)
  {
    if k == 0 {
      assert forall i :: 0 <= i < |a| ==> (a + b)[i] == a[i];
      FlattenAgrees(a + b, a, |a|, part);
    } else {
      FlattenConcat(a, b, k - 1, part);
      ConcatAssociates(Flatten(a, |a|, part), Flatten(b, k - 1, part), part(b[k - 1]));
      assert (a + b)[|a| + k - 1] == b[k - 1];
    }
  }
}
