// Marketing mix modelling helpers (backend/internal/services/mmm.go): the
// channel names read off the `<channel>_spend` series, the sum of a series,
// the normalisation of contribution percentages and the recommendations
// drawn from the channels' ROI and contribution.
module MarketingMix {
  import opened Common

  /** A `channel_effectiveness` row, as far as these helpers read it. */
  datatype ChannelEffectiveness = ChannelEffectiveness(channelName: string, contributionPercentage: real, roi: real,
                                                       coefficient: real)

  /** A recommendation, with the channel and figure its text names. */
  datatype Recommendation =
    | IncreaseBudget(channel: string, roi: real)
    | ReduceSpend(channel: string, roi: real)
    | Diversify(channel: string, contribution: real)

  const SpendSuffix := "_spend"

  /** A key of the form `<channel>_spend` with a non-empty channel. Go
      compares the last 6 bytes; as the suffix is ASCII, that is the last 6
      characters, and the byte length exceeds 6 exactly when the character
      length does. */
  predicate IsSpendKey(key: string)
  {
    |key| > 6 && key[|key| - 6..] == SpendSuffix
  }

  function ChannelOf(key: string): string
    requires IsSpendKey(key)
  {
    key[..|key| - 6]
  }

  /** The channels named by a set of keys. */
  function SpendChannels(keys: set<string>): set<string>
  {
    set key | key in keys && IsSpendKey(key) :: ChannelOf(key)
  }

  /** The channels named by the data's spend keys. */
  function ChannelSet(data: map<string, seq<real>>): set<string>
  {
    SpendChannels(data.Keys)
  }

  lemma SpendChannelsAdd(keys: set<string>, key: string)
    ensures SpendChannels(keys + {key}) ==
      SpendChannels(keys) + (if IsSpendKey(key) then {ChannelOf(key)} else {})
  {
  }

  predicate Distinct(s: seq<string>)
  {
    forall i, j :: 0 <= i < j < |s| ==> s[i] != s[j]
  }

  /** `getUniqueChannelNames`: each channel once, in no particular order (Go
      visits map keys in an unspecified order; so does this loop). */
  method UniqueChannelNames(data: map<string, seq<real>>) returns (result: seq<string>)
    ensures Distinct(result)
    ensures forall c :: c in result <==> c in ChannelSet(data)
  {
    var channels: set<string> := {};
    var keys := data.Keys;
    while keys != {}
      invariant keys <= data.Keys
      invariant channels == SpendChannels(data.Keys - keys)
      decreases keys
    {
      var key :| key in keys;
      assert data.Keys - (keys - {key}) == (data.Keys - keys) + {key};
      SpendChannelsAdd(data.Keys - keys, key);
      if |key| > 6 && key[|key| - 6..] == SpendSuffix {
        channels := channels + {key[..|key| - 6]};
      }
      keys := keys - {key};
    }
    result := [];
    var rest := channels;
    while rest != {}
      invariant rest <= channels
      invariant Distinct(result)
      invariant forall c :: c in result <==> c in channels - rest
      decreases rest
    {
      var channel :| channel in rest;
      assert channel !in result;
      result := result + [channel];
      rest := rest - {channel};
    }
  }

  /** `sum`: the values added left to right. */
  method SumValues(values: seq<real>) returns (total: real)
    ensures total == Sum(values)
  {
    total := 0.0;
    for i := 0 to |values|
      invariant total == Sum(values[..i])
    {
      assert values[..i + 1][..i] == values[..i];
      total := total + values[i];
    }
    assert values[..|values|] == values;
  }

  /** The sum of an empty series is 0, and of a non-empty one its head plus
      the sum of its tail. */
  lemma SumShape(values: seq<real>)
    ensures |values| == 0 ==> Sum(values) == 0.0
    ensures |values| > 0 ==> Sum(values) == values[0] + Sum(values[1..])
  {
    if |values| > 0 {
      SumHeadTail(values);
    }
  }

  function Contributions(s: seq<ChannelEffectiveness>): (c: seq<real>)
    ensures |c| == |s|
  {
    seq(|s|, i requires 0 <= i < |s| => s[i].contributionPercentage)
  }

  /** The rows after normalisation: with a positive total, each contribution
      becomes its share of the total times 100; otherwise nothing changes. */
  function Normalized(s: seq<ChannelEffectiveness>): (r: seq<ChannelEffectiveness>)
    ensures |r| == |s|
  {
    var total := Sum(Contributions(s));
    if total > 0.0 then
      seq(|s|, i requires 0 <= i < |s| =>
        s[i].(contributionPercentage := s[i].contributionPercentage / total * 100.0))
    else s
  }

  /** `normalizeContributions`, in place. */
  method NormalizeContributions(a: array<ChannelEffectiveness>)
    modifies a
    ensures a[..] == Normalized(old(a[..]))
  {
    var total := 0.0;
    for i := 0 to a.Length
      invariant total == Sum(Contributions(a[..i]))
    {
      assert Contributions(a[..i + 1])[..i] == Contributions(a[..i]);
      total := total + a[i].contributionPercentage;
    }
    assert a[..a.Length] == a[..];
    if total > 0.0 {
      ghost var before := a[..];
      for i := 0 to a.Length
        invariant forall j :: 0 <= j < i ==>
          a[j] == before[j].(contributionPercentage := before[j].contributionPercentage / total * 100.0)
        invariant forall j :: i <= j < a.Length ==> a[j] == before[j]
      {
        a[i] := a[i].(contributionPercentage := a[i].contributionPercentage / total * 100.0);
      }
    }
  }

  /** With a positive total, the normalised contributions sum to 100. */
  lemma NormalizedSumsTo100(s: seq<ChannelEffectiveness>)
    requires Sum(Contributions(s)) > 0.0
    ensures Sum(Contributions(Normalized(s))) == 100.0
  {
    var total := Sum(Contributions(s));
    var c := 100.0 / total;
    forall i | 0 <= i < |s|
      ensures Scaled(Contributions(s)[i], Contributions(Normalized(s))[i], c)
    {
      var x := s[i].contributionPercentage;
      assert x / total * 100.0 == c * x;
    }
    SumScale(Contributions(s), Contributions(Normalized(s)), c);
  }

  /** Normalisation keeps the proportions between any two channels and
      touches no other column. */
  lemma NormalizedKeepsProportions(s: seq<ChannelEffectiveness>, i: nat, j: nat)
    requires i < |s| && j < |s|
    ensures var r := Normalized(s);
      r[i].contributionPercentage * s[j].contributionPercentage ==
      r[j].contributionPercentage * s[i].contributionPercentage &&
      r[i].(contributionPercentage := 0.0) == s[i].(contributionPercentage := 0.0)
  {
    var total := Sum(Contributions(s));
    if total > 0.0 {
      var x, y := s[i].contributionPercentage, s[j].contributionPercentage;
      assert x / total * 100.0 * y == y / total * 100.0 * x;
    }
  }

  /** A total of 0 or less leaves the rows as they are. */
  lemma NonPositiveTotalUnchanged(s: seq<ChannelEffectiveness>)
    requires Sum(Contributions(s)) <= 0.0
    ensures Normalized(s) == s
  {
  }

  // ----- Recommendations -----

  /** The row the best-ROI scan settles on among the first `n`: a strictly
      higher ROI replaces the current best, so ties keep the earliest. */
  function BestIndex(s: seq<ChannelEffectiveness>, n: nat): (b: nat)
    requires 0 < n <= |s|
    ensures b < n
  {
    if n == 1 then 0
    else
      var b := BestIndex(s, n - 1);
      if s[n - 1].roi > s[b].roi then n - 1 else b
  }

  /** The row the worst-ROI scan settles on among the first `n`. */
  function WorstIndex(s: seq<ChannelEffectiveness>, n: nat): (w: nat)
    requires 0 < n <= |s|
    ensures w < n
  {
    if n == 1 then 0
    else
      var w := WorstIndex(s, n - 1);
      if s[n - 1].roi < s[w].roi then n - 1 else w
  }

  /** The diversify recommendations: one per row with contribution above 40, in order. */
  function DiversifyAll(s: seq<ChannelEffectiveness>): seq<Recommendation>
  {
    if |s| == 0 then []
    else
      DiversifyAll(s[..|s| - 1]) +
      (if s[|s| - 1].contributionPercentage > 40.0
       then [Diversify(s[|s| - 1].channelName, s[|s| - 1].contributionPercentage)] else [])
  }

  /** The recommendations for the rows. */
  function Recommendations(s: seq<ChannelEffectiveness>): seq<Recommendation>
  {
    if |s| == 0 then []
    else
      var best := s[BestIndex(s, |s|)];
      var worst := s[WorstIndex(s, |s|)];
      [IncreaseBudget(best.channelName, best.roi)] +
      (if worst.roi < 50.0 then [ReduceSpend(worst.channelName, worst.roi)] else []) +
      DiversifyAll(s)
  }

  /** `generateRecommendations`. The model fit is passed but not read. */
  method GenerateRecommendations(effectiveness: seq<ChannelEffectiveness>, modelFit: map<string, real>)
    returns (recommendations: seq<Recommendation>)
    ensures recommendations == Recommendations(effectiveness)
  {
    recommendations := [];
    if |effectiveness| > 0 {
      var best, worst := Extremes(effectiveness);
      recommendations := recommendations + [IncreaseBudget(best.channelName, best.roi)];
      if worst.roi < 50.0 {
        recommendations := recommendations + [ReduceSpend(worst.channelName, worst.roi)];
      }
      var diversify := DiversifyRecommendations(effectiveness);
      recommendations := recommendations + diversify;
    }
  }

  /** The scan for the best and worst ROI, both starting from the first
      row. */
  method Extremes(effectiveness: seq<ChannelEffectiveness>) returns (best: ChannelEffectiveness, worst: ChannelEffectiveness)
    requires |effectiveness| > 0
    ensures best == effectiveness[BestIndex(effectiveness, |effectiveness|)]
    ensures worst == effectiveness[WorstIndex(effectiveness, |effectiveness|)]
  {
    best, worst := effectiveness[0], effectiveness[0];
    ghost var b, w := 0, 0;
    for i := 0 to |effectiveness|
      invariant i == 0 ==> b == 0 && w == 0
      invariant i > 0 ==> b == BestIndex(effectiveness, i) && w == WorstIndex(effectiveness, i)
      invariant best == effectiveness[b] && worst == effectiveness[w]
    {
      var e := effectiveness[i];
      if e.roi > best.roi {
        best, b := e, i;
      }
      if e.roi < worst.roi {
        worst, w := e, i;
      }
    }
  }

  /** The loop adding one diversify recommendation per row with
      contribution above 40. */
  method DiversifyRecommendations(effectiveness: seq<ChannelEffectiveness>) returns (recommendations: seq<Recommendation>)
    ensures recommendations == DiversifyAll(effectiveness)
  {
    recommendations := [];
    for i := 0 to |effectiveness|
      invariant recommendations == DiversifyAll(effectiveness[..i])
    {
      assert effectiveness[..i + 1][..i] == effectiveness[..i];
      var e := effectiveness[i];
      if e.contributionPercentage > 40.0 {
        recommendations := recommendations + [Diversify(e.channelName, e.contributionPercentage)];
      }
    }
    assert effectiveness[..|effectiveness|] == effectiveness;
  }

  /** The best row has the highest ROI, and every earlier row a strictly
      lower one: ties go to the earliest. */
  lemma {:induction false} BestIsFirstMaximum(s: seq<ChannelEffectiveness>, n: nat)
    requires 0 < n <= |s|
    ensures forall j :: 0 <= j < n ==> s[j].roi <= s[BestIndex(s, n)].roi
    ensures forall j :: 0 <= j < BestIndex(s, n) ==> s[j].roi < s[BestIndex(s, n)].roi
    decreases n
  {
    if n > 1 {
      BestIsFirstMaximum(s, n - 1);
    }
  }

  /** The worst row has the lowest ROI, and every earlier row a strictly
      higher one. */
  lemma {:induction false} WorstIsFirstMinimum(s: seq<ChannelEffectiveness>, n: nat)
    requires 0 < n <= |s|
    ensures forall j :: 0 <= j < n ==> s[WorstIndex(s, n)].roi <= s[j].roi
    ensures forall j :: 0 <= j < WorstIndex(s, n) ==> s[WorstIndex(s, n)].roi < s[j].roi
    decreases n
  {
    if n > 1 {
      WorstIsFirstMinimum(s, n - 1);
    }
  }

  /** No channels, no recommendations; otherwise the first names the best
      channel, and a reduce-spend recommendation follows exactly when the
      lowest ROI is below 50. */
  lemma RecommendationShape(s: seq<ChannelEffectiveness>)
    ensures |s| == 0 ==> Recommendations(s) == []
    ensures |s| > 0 ==>
      var r := Recommendations(s);
      |r| > 0 && r[0].IncreaseBudget? && r[0].channel == s[BestIndex(s, |s|)].channelName &&
      ((|r| > 1 && r[1].ReduceSpend?) <==> (exists j :: 0 <= j < |s| && s[j].roi < 50.0))
  {
    if |s| > 0 {
      WorstIsFirstMinimum(s, |s|);
      var r := Recommendations(s);
      DiversifyOnly(s);
      if |r| > 1 && r[1].ReduceSpend? {
        assert s[WorstIndex(s, |s|)].roi < 50.0;
      }
    }
  }

  /** The diversify list holds only diversify recommendations, one per row
      with contribution above 40. */
  lemma {:induction false} DiversifyOnly(s: seq<ChannelEffectiveness>)
    ensures forall k :: 0 <= k < |DiversifyAll(s)| ==>
      DiversifyAll(s)[k].Diversify? && DiversifyAll(s)[k].contribution > 40.0
    decreases |s|
  {
    if |s| > 0 {
      DiversifyOnly(s[..|s| - 1]);
    }
  }

  /** Every row with contribution above 40 gets its diversify
      recommendation. */
  lemma {:induction false} DiversifyComplete(s: seq<ChannelEffectiveness>, i: nat)
    requires i < |s| && s[i].contributionPercentage > 40.0
    ensures Diversify(s[i].channelName, s[i].contributionPercentage) in DiversifyAll(s)
    decreases |s|
  {
    if i < |s| - 1 {
      assert s[..|s| - 1][i] == s[i];
      DiversifyComplete(s[..|s| - 1], i);
    }
  }
}
