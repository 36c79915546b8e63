/** Small shared vocabulary: optional values, results, sums of reals and the
    integer conversions that Go performs by truncation. */
module Common {

  /** A nullable column or pointer: `None` is SQL NULL / Go nil. */
  datatype Option<T> = None | Some(value: T)

  /** The value-or-error pair that Go functions return. */
  datatype Result<T, E> = Ok(value: T) | Err(error: E)

  /** How a Go slice reaches the database driver as a query argument. `Bare`
      is the slice itself: `database/sql`'s default conversion refuses every
      slice but `[]byte`, and lib/pq adds no conversion of its own, so the
      statement fails before it is sent. `PqArray` is the `pq.Array` wrapping
      the role service uses, which sends a PostgreSQL array. */
  datatype SliceArg = Bare | PqArray

  /** Go's `int(x)` conversion of a quotient truncates toward zero, whereas
      Dafny's `/` is Euclidean; this is the truncating quotient. */
  function TruncDiv(a: int, b: int): (q: int)
    requires b > 0
    ensures a >= 0 ==> 0 <= q * b <= a < q * b + b
    ensures a < 0 ==> q * b - b < a <= q * b <= 0
  {
    if a >= 0 then
      DivBounds(a, b);
      a / b
    else
      DivBounds(-a, b);
      -((-a) / b)
  }

  lemma DivBounds(a: int, b: int)
    requires a >= 0 && b > 0
    ensures 0 <= (a / b) * b <= a < (a / b) * b + b
  {
    var q, r := a / b, a % b;
    assert a == q * b + r && 0 <= r < b;
    assert q >= 0;
    MulNonNegative(q, b);
  }

  lemma MulNonNegative(x: int, y: int)
    requires x >= 0 && y >= 0
    ensures x * y >= 0
  {
  }

  /** Concatenation regrouped; stated with abstract sequences so that a caller
      can regroup without unfolding the operands. */
  lemma AppendAssociative<T>(a: seq<T>, b: seq<T>, c: seq<T>)
    ensures a + b + c == a + (b + c)
  {
  }

  /** Sum of a sequence of reals, accumulated left to right as a loop does. */
  function Sum(s: seq<real>): real
  {
    if |s| == 0 then 0.0 else Sum(s[..|s| - 1]) + s[|s| - 1]
  }

  lemma {:induction false} SumHeadTail(s: seq<real>)
    requires |s| > 0
    ensures Sum(s) == s[0] + Sum(s[1..])
  {
    if |s| > 1 {
      SumHeadTail(s[..|s| - 1]);
      assert s[..|s| - 1][1..] == s[1..][..|s[1..]| - 1];
    } else {
      assert s[..0] == [] && s[1..] == [];
      assert Sum(s[1..]) == 0.0;
    }
  }

  lemma {:induction false} SumAppend(s: seq<real>, t: seq<real>)
    ensures Sum(s + t) == Sum(s) + Sum(t)
  {
    if |t| > 0 {
      assert (s + t)[..|s + t| - 1] == s + t[..|t| - 1];
      SumAppend(s, t[..|t| - 1]);
    } else {
      assert s + t == s;
    }
  }

  /** The sum of `n` copies of `x` is `n * x`. */
  lemma {:induction false} SumConstant(n: nat, x: real)
    ensures Sum(seq(n, _ => x)) == (n as real) * x
  {
    if n > 0 {
      assert seq(n, _ => x)[..n - 1] == seq(n - 1, _ => x);
      SumConstant(n - 1, x);
    }
  }

  /** `y` is `x` scaled by `c`. Kept as a predicate so that the product stays
      out of the contexts that only pass the fact along. */
  predicate Scaled(x: real, y: real, c: real)
  {
    y == c * x
  }

  /** Multiplying every element by `c` multiplies the sum by `c`. */
  lemma {:induction false} SumScale(s: seq<real>, t: seq<real>, c: real)
    requires |t| == |s|
    requires forall i :: 0 <= i < |s| ==> Scaled(s[i], t[i], c)
    ensures Sum(t) == Sum(s) * c
  {
    if |s| > 0 {
      SumScale(s[..|s| - 1], t[..|t| - 1], c);
    }
  }

  /** A sum of non-negative terms is non-negative, of positive terms positive. */
  lemma {:induction false} SumPositive(s: seq<real>)
    requires forall i :: 0 <= i < |s| ==> s[i] > 0.0
    ensures |s| > 0 ==> Sum(s) > 0.0
    ensures Sum(s) >= 0.0
  {
    if |s| > 0 {
      SumPositive(s[..|s| - 1]);
    }
  }
}
