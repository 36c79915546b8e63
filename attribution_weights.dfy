/** How one conversion's credit is split over the `n` touches of its journey
    (`calculateWeights` in backend/internal/services/attribution.go).
    Weights are reals; `exp(-0.5 * k)` of TIME_DECAY is written `Pow(r, k)` for
    an abstract ratio `r` standing for `exp(-0.5)`, with `0 < r < 1`. */
module AttributionWeights {
  import opened Common

  /** `exp(-0.5)` to the precision of a float64; the lemmas hold for any ratio in (0, 1). */
  const DecayRatio: real := 0.6065306597126334

  /** The attribution models by their `attribution_models.code`; every other
      code is `Other` and is treated as LINEAR. */
  datatype ModelKind = FirstTouch | LastTouch | Linear | TimeDecay | AiWeighted | Other

  function KindOf(code: string): (k: ModelKind)
    ensures k == FirstTouch <==> code == "FIRST_TOUCH"
    ensures k == LastTouch <==> code == "LAST_TOUCH"
    ensures k == Linear <==> code == "LINEAR"
    ensures k == TimeDecay <==> code == "TIME_DECAY"
    ensures k == AiWeighted <==> code == "AI_WEIGHTED"
    ensures k == Other <==>
      code != "FIRST_TOUCH" && code != "LAST_TOUCH" && code != "LINEAR" && code != "TIME_DECAY" && code != "AI_WEIGHTED"
  {
    if code == "FIRST_TOUCH" then FirstTouch
    else if code == "LAST_TOUCH" then LastTouch
    else if code == "LINEAR" then Linear
    else if code == "TIME_DECAY" then TimeDecay
    else if code == "AI_WEIGHTED" then AiWeighted
    else Other
  }

  predicate IsSingleTouch(k: ModelKind)
  {
    k == FirstTouch || k == LastTouch
  }

  function Pow(r: real, k: nat): real
  {
    if k == 0 then 1.0 else r * Pow(r, k - 1)
  }

  lemma {:induction false} PowPositive(r: real, k: nat)
    requires r > 0.0
    ensures Pow(r, k) > 0.0
  {
    if k > 0 {
      PowPositive(r, k - 1);
    }
  }

  /** A ratio below one makes higher powers strictly smaller. */
  lemma {:induction false} PowStrictlyDecreasing(r: real, k: nat, m: nat)
    requires 0.0 < r < 1.0 && k < m
    ensures Pow(r, m) < Pow(r, k)
  {
    PowStep(r, m);
    if m - 1 > k {
      PowStrictlyDecreasing(r, k, m - 1);
    }
  }

  lemma PowStep(r: real, m: nat)
    requires 0.0 < r < 1.0 && m > 0
    ensures Pow(r, m) < Pow(r, m - 1)
  {
    PowPositive(r, m - 1);
    ScaleBelowOne(r, Pow(r, m - 1), Pow(r, m));
  }

  lemma ScaleBelowOne(r: real, x: real, y: real)
    requires 0.0 < r < 1.0 && x > 0.0 && y == r * x
    ensures y < x
  {
    assert x - r * x == (1.0 - r) * x;
  }

  /** The unnormalised TIME_DECAY terms: the last touch gets `r^0 = 1`. */
  function DecayTerms(n: nat, r: real): (t: seq<real>)
    ensures |t| == n
  {
    seq(n, i requires 0 <= i < n => Pow(r, n - i - 1))
  }

  lemma DecayTermsPositive(n: nat, r: real)
    requires r > 0.0
    ensures forall i :: 0 <= i < n ==> DecayTerms(n, r)[i] > 0.0
    ensures n > 0 ==> Sum(DecayTerms(n, r)) > 0.0
  {
    forall i | 0 <= i < n
      ensures DecayTerms(n, r)[i] > 0.0
    {
      PowPositive(r, n - i - 1);
    }
    SumPositive(DecayTerms(n, r));
  }

  /** `n` copies of `1/n`: the AI_WEIGHTED starting weights. */
  function Uniform(n: nat): (t: seq<real>)
    requires n > 0
    ensures |t| == n
  {
    seq(n, _ => 1.0 / n as real)
  }

  lemma UniformSum(n: nat)
    requires n > 0
    ensures Sum(Uniform(n)) == 1.0
  {
    SumConstant(n, 1.0 / n as real);
  }

  /** Weight of touch `i` (0-based, oldest first) out of `n` under model `k`;
      an unrecognised code falls back to LINEAR. */
  function Weight(n: nat, k: ModelKind, r: real, i: nat): real
    requires 0.0 < r < 1.0 && i < n
  {
    match k
    case FirstTouch => if i == 0 then 1.0 else 0.0
    case LastTouch => if i == n - 1 then 1.0 else 0.0
    case TimeDecay =>
      DecayTermsPositive(n, r);
      DecayTerms(n, r)[i] / Sum(DecayTerms(n, r))
    case AiWeighted =>
      UniformSum(n);
      Uniform(n)[i] / Sum(Uniform(n))
    case _ => 1.0 / n as real
  }

  function Weights(n: nat, k: ModelKind, r: real): (w: seq<real>)
    requires 0.0 < r < 1.0
    ensures |w| == n
  {
    seq(n, i requires 0 <= i < n => Weight(n, k, r, i))
  }

  /** `is_primary_touch` of touch `i` out of `n`. */
  predicate IsPrimaryTouch(n: nat, k: ModelKind, i: nat)
  {
    (k == FirstTouch && i == 0) || (k == LastTouch && i == n - 1)
  }

  /** `calculateWeights`: fills the weight slice index by index, one loop per
      model. FIRST_TOUCH and LAST_TOUCH index the slice at 0 or n-1 and so need
      at least one touch. */
  method CalculateWeights(n: nat, code: string, r: real) returns (w: seq<real>)
    requires 0.0 < r < 1.0
    requires IsSingleTouch(KindOf(code)) ==> n > 0
    ensures w == Weights(n, KindOf(code), r)
  {
    if code == "FIRST_TOUCH" {
      w := FillFirstTouch(n, r);
    } else if code == "LAST_TOUCH" {
      w := FillLastTouch(n, r);
    } else if code == "TIME_DECAY" {
      w := FillTimeDecay(n, r);
    } else if code == "AI_WEIGHTED" {
      w := FillAiWeighted(n, r);
    } else {
      w := FillLinear(n, KindOf(code), r);
    }
  }

  method FillFirstTouch(n: nat, r: real) returns (w: seq<real>)
    requires 0.0 < r < 1.0 && n > 0
    ensures w == Weights(n, FirstTouch, r)
  {
    var weights := new real[n];
    weights[0] := 1.0;
    var i := 1;
    while i < n
      invariant 1 <= i <= n && weights[0] == 1.0
      invariant forall k :: 1 <= k < i ==> weights[k] == 0.0
    {
      weights[i] := 0.0;
      i := i + 1;
    }
    w := weights[..];
  }

  method FillLastTouch(n: nat, r: real) returns (w: seq<real>)
    requires 0.0 < r < 1.0 && n > 0
    ensures w == Weights(n, LastTouch, r)
  {
    var weights := new real[n];
    var i := 0;
    while i < n - 1
      invariant 0 <= i <= n - 1
      invariant forall k :: 0 <= k < i ==> weights[k] == 0.0
    {
      weights[i] := 0.0;
      i := i + 1;
    }
    weights[n - 1] := 1.0;
    w := weights[..];
  }

  method FillTimeDecay(n: nat, r: real) returns (w: seq<real>)
    requires 0.0 < r < 1.0
    ensures w == Weights(n, TimeDecay, r)
  {
    var weights := new real[n];
    var total := 0.0;
    var decay := new real[n];
    var i := 0;
    while i < n
      invariant 0 <= i <= n
      invariant forall k :: 0 <= k < i ==> decay[k] == Pow(r, n - k - 1)
      invariant total == Sum(decay[..i])
    {
      decay[i] := Pow(r, n - i - 1);
      assert decay[..i + 1][..i] == decay[..i];
      total := total + decay[i];
      i := i + 1;
    }
    assert decay[..] == DecayTerms(n, r);
    assert decay[..i] == decay[..];
    i := 0;
    while i < n
      invariant 0 <= i <= n
      invariant decay[..] == DecayTerms(n, r) && total == Sum(DecayTerms(n, r))
      invariant forall k :: 0 <= k < i ==> weights[k] == Weights(n, TimeDecay, r)[k]
    {
      TimeDecayWeightAt(n, r, i);
      weights[i] := decay[i] / total;
      i := i + 1;
    }
    w := weights[..];
  }

  method FillAiWeighted(n: nat, r: real) returns (w: seq<real>)
    requires 0.0 < r < 1.0
    ensures w == Weights(n, AiWeighted, r)
  {
    var weights := new real[n];
    var total := 0.0;
    var ai := new real[n];
    var i := 0;
    while i < n
      invariant 0 <= i <= n
      invariant forall k :: 0 <= k < i ==> ai[k] == 1.0 / n as real
      invariant total == Sum(ai[..i])
    {
      ai[i] := 1.0 / n as real;
      assert ai[..i + 1][..i] == ai[..i];
      total := total + ai[i];
      i := i + 1;
    }
    assert ai[..i] == ai[..];
    if n > 0 {
      assert ai[..] == Uniform(n);
      UniformSum(n);
    }
    i := 0;
    while i < n
      invariant 0 <= i <= n
      invariant forall k :: 0 <= k < n ==> ai[k] == 1.0 / n as real
      invariant n > 0 ==> total == 1.0
      invariant forall k :: 0 <= k < i ==> weights[k] == Weights(n, AiWeighted, r)[k]
    {
      UniformWeights(n, AiWeighted, r, i);
      weights[i] := ai[i] / total;
      i := i + 1;
    }
    w := weights[..];
  }

  method FillLinear(n: nat, k: ModelKind, r: real) returns (w: seq<real>)
    requires 0.0 < r < 1.0 && (k == Linear || k == Other)
    ensures w == Weights(n, k, r)
  {
    var weights := new real[n];
    var i := 0;
    while i < n
      invariant 0 <= i <= n
      invariant forall k :: 0 <= k < i ==> weights[k] == 1.0 / n as real
    {
      weights[i] := 1.0 / n as real;
      i := i + 1;
    }
    w := weights[..];
  }

  /** FIRST_TOUCH and LAST_TOUCH put the whole credit on one touch. */
  lemma SingleTouchWeights(n: nat, k: ModelKind, r: real, i: nat)
    requires 0.0 < r < 1.0 && IsSingleTouch(k) && i < n
    ensures Weights(n, k, r)[i] == (if IsPrimaryTouch(n, k, i) then 1.0 else 0.0)
  {
  }

  /** LINEAR, AI_WEIGHTED and every unrecognised code give each touch `1/n`. */
  lemma UniformWeights(n: nat, k: ModelKind, r: real, i: nat)
    requires 0.0 < r < 1.0 && !IsSingleTouch(k) && k != TimeDecay && i < n
    ensures Weights(n, k, r)[i] == 1.0 / n as real
  {
    if k == AiWeighted {
      UniformSum(n);
    }
  }

  lemma TimeDecayWeightAt(n: nat, r: real, i: nat)
    requires 0.0 < r < 1.0 && i < n
    ensures Sum(DecayTerms(n, r)) > 0.0
    ensures Weights(n, TimeDecay, r)[i] == DecayTerms(n, r)[i] / Sum(DecayTerms(n, r))
  {
    DecayTermsPositive(n, r);
  }

  /** TIME_DECAY weights are positive, sum to one and grow strictly toward the
      most recent touch. */
  lemma TimeDecayWeights(n: nat, r: real)
    requires 0.0 < r < 1.0 && n > 0
    ensures forall i :: 0 <= i < n ==> Weights(n, TimeDecay, r)[i] > 0.0
    ensures forall i, j :: 0 <= i < j < n ==>
      Weights(n, TimeDecay, r)[i] < Weights(n, TimeDecay, r)[j]
    ensures Sum(Weights(n, TimeDecay, r)) == 1.0
  {
    var t := DecayTerms(n, r);
    var w := Weights(n, TimeDecay, r);
    DecayTermsPositive(n, r);
    var total := Sum(t);
    forall i | 0 <= i < n
      ensures Scaled(t[i], w[i], 1.0 / total) && w[i] > 0.0
    {
      TimeDecayWeightAt(n, r, i);
      DivideByPositive(t[i], total);
    }
    forall i, j | 0 <= i < j < n
      ensures w[i] < w[j]
    {
      TimeDecayWeightAt(n, r, i);
      TimeDecayWeightAt(n, r, j);
      PowStrictlyDecreasing(r, n - j - 1, n - i - 1);
      DivideMonotone(t[i], t[j], total);
    }
    SumScale(t, w, 1.0 / total);
    DivideByPositive(total, total);
  }

  lemma DivideByPositive(a: real, c: real)
    requires c > 0.0
    ensures Scaled(a, a / c, 1.0 / c)
    ensures a > 0.0 ==> a / c > 0.0
    ensures a / c * c == a
  {
  }

  lemma DivideMonotone(a: real, b: real, c: real)
    requires a < b && c > 0.0
    ensures a / c < b / c
  {
  }

  /** Whatever the model, the `n >= 1` weights sum to one. */
  lemma WeightsSumToOne(n: nat, k: ModelKind, r: real)
    requires 0.0 < r < 1.0 && n > 0
    ensures Sum(Weights(n, k, r)) == 1.0
  {
    var w := Weights(n, k, r);
    if k == FirstTouch {
      OneHotSum(w, 0);
    } else if k == LastTouch {
      OneHotSum(w, n - 1);
    } else if k == TimeDecay {
      TimeDecayWeights(n, r);
    } else {
      forall i | 0 <= i < n
        ensures w[i] == 1.0 / n as real
      {
        UniformWeights(n, k, r, i);
      }
      assert w == seq(n, _ => 1.0 / n as real);
      SumConstant(n, 1.0 / n as real);
    }
  }

  /** A sequence that is one at index `j` and zero elsewhere sums to one. */
  lemma {:induction false} OneHotSum(s: seq<real>, j: nat)
    requires j < |s|
    requires forall k :: 0 <= k < |s| ==> s[k] == (if k == j then 1.0 else 0.0)
    ensures Sum(s) == 1.0
  {
    var z := seq(|s|, _ => 0.0);
    SumConstant(|s|, 0.0);
    assert s == z[..j] + [1.0] + z[j + 1..];
    SumConstant(j, 0.0);
    assert z[..j] == seq(j, _ => 0.0);
    assert z[j + 1..] == seq(|s| - j - 1, _ => 0.0);
    SumConstant(|s| - j - 1, 0.0);
    SumAppend(z[..j] + [1.0], z[j + 1..]);
    SumAppend(z[..j], [1.0]);
  }

  /** The primary touch is exactly the touch a single-touch model gives full
      credit to; the other models have no primary touch. */
  lemma PrimaryTouch(n: nat, k: ModelKind, r: real, i: nat)
    requires 0.0 < r < 1.0 && i < n
    ensures IsPrimaryTouch(n, k, i) <==>
      IsSingleTouch(k) && Weights(n, k, r)[i] == 1.0
  {
  }
}
