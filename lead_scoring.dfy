// Rule-based lead scoring (backend/internal/services/lead_scoring.go): each
// rule of the tenant's active scoring model compares one column of the
// customer's data with a value, and the matched rules' `score × weight`
// add up to the lead score, per category and in total.
module LeadScoring {
  import opened Common

  /** A column value as the Postgres driver hands it to Go: `float8` as a
      float, integer types as an integer, text as a string, `numeric` as raw
      bytes, booleans, timestamps (nanoseconds) and NULL. */
  datatype ColumnValue = CFloat(f: real) | CInt(i: int) | CText(s: string) | CBytes(b: seq<bv8>)
                       | CBool(v: bool) | CTime(ns: int) | CNull

  /** A rule's comparison value as decoded from JSON: numbers are floats;
      arrays and objects are kept only as `JComposite`. */
  datatype JsonValue = JNumber(n: real) | JString(s: string) | JBool(v: bool) | JNull | JComposite

  /** A scoring rule; `condition` is one of `equals`, `greater_than`,
      `less_than`, `contains`, or anything else. */
  datatype Rule = Rule(name: string, field: string, condition: string, value: JsonValue, score: real,
                       weight: real, category: string)

  /** An entry of the `factors` list: a rule that scored. */
  datatype Factor = Factor(rule: string, score: real, field: string)

  /** The lead scoring model the score is computed with; a model without
      stored rules has none. */
  datatype ScoringModel = ScoringModel(id: int, tenantId: int, rules: seq<Rule>)

  /** A computed lead score. `factors` is the stored `{"factors": [...]}`
      object, empty when no rule scored. */
  datatype LeadScore = LeadScore(tenantId: int, customerId: int, modelId: int, score: real,
                                 breakdown: map<string, real>, factors: map<string, seq<Factor>>)

  datatype LeadError = NoActiveModel

  /** The length in bytes of the UTF-8 encoding, which is what Go's `len`
      counts for a string. */
  function ByteLength(s: string): (n: nat)
    ensures n >= |s|
    ensures n <= 4 * |s|
  {
    if |s| == 0 then 0
    else
      var c := s[|s| - 1] as int;
      ByteLength(s[..|s| - 1]) + (if c < 0x80 then 1 else if c < 0x800 then 2 else if c < 0x10000 then 3 else 4)
  }

  /** `contains`: despite its name, not a substring test. */
  function Contains(s: string, substr: string): (r: bool)
  {
    ByteLength(s) >= ByteLength(substr) && (s == substr || ByteLength(s) > ByteLength(substr))
  }

  predicate IsSubstring(sub: string, s: string)
  {
    exists i, j :: 0 <= i <= j <= |s| && s[i..j] == sub
  }

  /** `contains(s, sub)` holds exactly when the two are equal or `s` is
      longer in bytes. */
  lemma ContainsIff(s: string, substr: string)
    ensures Contains(s, substr) <==> s == substr || ByteLength(s) > ByteLength(substr)
  {
  }

  /** It is not a substring test: "ab" "contains" "z". */
  lemma ContainsIsNotSubstring()
    ensures Contains("ab", "z") && !IsSubstring("z", "ab")
  {
    assert ByteLength("z") == 1 && ByteLength("ab") == 2 by {
      assert "ab"[..1] == "a" && "z"[..0] == "" && "a"[..0] == "";
    }
    forall i, j | 0 <= i <= j <= 2
      ensures "ab"[i..j] != "z"
    {
      if j - i == 1 {
        assert "ab"[i..j][0] == "ab"[i];
      }
    }
  }

  /** Go's `==` on the two interface values: equal dynamic types and equal
      values. An integer column never equals a JSON number, which is a
      float; a NULL column equals a JSON null. */
  predicate GoEquals(fieldValue: ColumnValue, value: JsonValue)
  {
    match value
    case JNumber(n) => fieldValue.CFloat? && fieldValue.f == n
    case JString(s) => fieldValue.CText? && fieldValue.s == s
    case JBool(v) => fieldValue.CBool? && fieldValue.v == v
    case JNull => fieldValue.CNull?
    case JComposite => false
  }

  /** Whether the rule's condition holds of the column value. The ordered
      comparisons need a float column and a number; `contains` needs text
      on both sides; any other condition never holds. */
  predicate Matched(rule: Rule, fieldValue: ColumnValue)
  {
    if rule.condition == "equals" then GoEquals(fieldValue, rule.value)
    else if rule.condition == "greater_than" then
      fieldValue.CFloat? && rule.value.JNumber? && fieldValue.f > rule.value.n
    else if rule.condition == "less_than" then
      fieldValue.CFloat? && rule.value.JNumber? && fieldValue.f < rule.value.n
    else if rule.condition == "contains" then
      fieldValue.CText? && rule.value.JString? && Contains(fieldValue.s, rule.value.s)
    else false
  }

  predicate KnownCondition(condition: string)
  {
    condition == "equals" || condition == "greater_than" || condition == "less_than" || condition == "contains"
  }

  /** `evaluateRule`: the rule's `score × weight` when its field is present
      and its condition holds, and 0 otherwise. */
  function EvaluateRule(rule: Rule, data: map<string, ColumnValue>): (r: real)
    ensures rule.field !in data ==> r == 0.0
    ensures !KnownCondition(rule.condition) ==> r == 0.0
    ensures rule.field in data && Matched(rule, data[rule.field]) ==> r == rule.score * rule.weight
    ensures rule.field in data && !Matched(rule, data[rule.field]) ==> r == 0.0
  {
    if rule.field !in data then 0.0
    else if Matched(rule, data[rule.field]) then rule.score * rule.weight
    else 0.0
  }

  /** A type mismatch scores 0: an ordered comparison on a column that is not
      a float or against a value that is not a number, or `contains` on
      anything but two strings. */
  lemma TypeMismatchScoresZero(rule: Rule, data: map<string, ColumnValue>)
    requires rule.field in data
    requires (rule.condition == "greater_than" || rule.condition == "less_than") ==>
               !data[rule.field].CFloat? || !rule.value.JNumber?
    requires rule.condition == "contains" ==> !data[rule.field].CText? || !rule.value.JString?
    requires rule.condition != "equals"
    ensures EvaluateRule(rule, data) == 0.0
  {
  }

  /** The `equals` condition on an integer column never matches, since a
      JSON number is a float. */
  lemma IntegerColumnNeverEquals(rule: Rule, data: map<string, ColumnValue>)
    requires rule.field in data && data[rule.field].CInt? && rule.condition == "equals"
    ensures EvaluateRule(rule, data) == 0.0
  {
  }

  // ----- Accumulation over the rules -----

  /** The total score: the rules' contributions added in order. */
  function Total(rules: seq<Rule>, data: map<string, ColumnValue>): real
  {
    if |rules| == 0 then 0.0 else Total(rules[..|rules| - 1], data) + EvaluateRule(rules[|rules| - 1], data)
  }

  /** A map entry, or Go's zero value when absent. */
  function Get(m: map<string, real>, key: string): real
  {
    if key in m then m[key] else 0.0
  }

  /** The per-category breakdown: every rule adds its contribution to its
      category's entry. */
  function Breakdown(rules: seq<Rule>, data: map<string, ColumnValue>): map<string, real>
  {
    if |rules| == 0 then map[]
    else
      var b := Breakdown(rules[..|rules| - 1], data);
      var rule := rules[|rules| - 1];
      b[rule.category := Get(b, rule.category) + EvaluateRule(rule, data)]
  }

  function FactorOf(rule: Rule, data: map<string, ColumnValue>): Factor
  {
    Factor(rule.name, EvaluateRule(rule, data), rule.field)
  }

  /** The rules that scored above 0, in rule order. */
  function Factors(rules: seq<Rule>, data: map<string, ColumnValue>): seq<Factor>
  {
    if |rules| == 0 then []
    else
      Factors(rules[..|rules| - 1], data) +
      (if EvaluateRule(rules[|rules| - 1], data) > 0.0 then [FactorOf(rules[|rules| - 1], data)] else [])
  }

  /** The loop of `CalculateLeadScore`: add up the total and the breakdown
      and collect the factors. */
  method ScoreRules(rules: seq<Rule>, data: map<string, ColumnValue>)
    returns (total: real, breakdown: map<string, real>, factors: seq<Factor>)
    ensures total == Total(rules, data)
    ensures breakdown == Breakdown(rules, data)
    ensures factors == Factors(rules, data)
  {
    total, breakdown, factors := 0.0, map[], [];
    for i := 0 to |rules|
      invariant total == Total(rules[..i], data)
      invariant breakdown == Breakdown(rules[..i], data)
      invariant factors == Factors(rules[..i], data)
    {
      assert rules[..i + 1][..i] == rules[..i];
      var rule := rules[i];
      var score := EvaluateRule(rule, data);
      total := total + score;
      breakdown := breakdown[rule.category := Get(breakdown, rule.category) + score];
      if score > 0.0 {
        factors := factors + [Factor(rule.name, score, rule.field)];
      }
    }
    assert rules[..|rules|] == rules;
  }

  /** The stored `factors` object: the list under `"factors"`, or nothing
      when no rule scored. */
  function StoredFactors(factors: seq<Factor>): (m: map<string, seq<Factor>>)
    ensures |factors| == 0 ==> m == map[]
    ensures |factors| > 0 ==> "factors" in m && m["factors"] == factors
  {
    if |factors| > 0 then map["factors" := factors] else map[]
  }

  /** `CalculateLeadScore` for the tenant's active model (`None` when the
      tenant has none) and the customer's data (empty for an unknown
      customer). */
  method CalculateLeadScore(active: Option<ScoringModel>, tenantId: int, customerId: int,
                            data: map<string, ColumnValue>)
    returns (r: Result<LeadScore, LeadError>)
    ensures active.None? ==> r == Err(NoActiveModel)
    ensures active.Some? ==>
      (r.Ok? &&
       r.value == LeadScore(tenantId, customerId, active.value.id, Total(active.value.rules, data),
                            Breakdown(active.value.rules, data), StoredFactors(Factors(active.value.rules, data))))
  {
    if active.None? {
      return Err(NoActiveModel);
    }
    var total, breakdown, factors := ScoreRules(active.value.rules, data);
    return Ok(LeadScore(tenantId, customerId, active.value.id, total, breakdown, StoredFactors(factors)));
  }

  // ----- What the accumulation promises -----

  /** The categories in order of first appearance, each once. */
  function Categories(rules: seq<Rule>): seq<string>
  {
    if |rules| == 0 then []
    else
      var cs := Categories(rules[..|rules| - 1]);
      if rules[|rules| - 1].category in cs then cs else cs + [rules[|rules| - 1].category]
  }

  predicate Distinct(keys: seq<string>)
  {
    forall i, j :: 0 <= i < j < |keys| ==> keys[i] != keys[j]
  }

  /** The sum of the map's entries under the given keys. */
  function SumOver(keys: seq<string>, m: map<string, real>): real
  {
    if |keys| == 0 then 0.0 else SumOver(keys[..|keys| - 1], m) + Get(m, keys[|keys| - 1])
  }

  lemma {:induction false} SumOverUnaffected(keys: seq<string>, m: map<string, real>, c: string, v: real)
    requires c !in keys
    ensures SumOver(keys, m[c := v]) == SumOver(keys, m)
    decreases |keys|
  {
    if |keys| > 0 {
      SumOverUnaffected(keys[..|keys| - 1], m, c, v);
    }
  }

  lemma {:induction false} SumOverAdd(keys: seq<string>, m: map<string, real>, c: string, d: real)
    requires Distinct(keys) && c in keys
    ensures SumOver(keys, m[c := Get(m, c) + d]) == SumOver(keys, m) + d
    decreases |keys|
  {
    var init := keys[..|keys| - 1];
    if keys[|keys| - 1] == c {
      assert c !in init;
      SumOverUnaffected(init, m, c, Get(m, c) + d);
    } else {
      assert c in init;
      SumOverAdd(init, m, c, d);
    }
  }

  /** The categories are distinct. */
  lemma {:induction false} CategoriesDistinct(rules: seq<Rule>)
    ensures Distinct(Categories(rules))
    decreases |rules|
  {
    if |rules| > 0 {
      CategoriesDistinct(rules[..|rules| - 1]);
    }
  }

  /** The categories are exactly the breakdown's keys. */
  lemma {:induction false} CategoryIsKey(rules: seq<Rule>, data: map<string, ColumnValue>, c: string)
    ensures c in Breakdown(rules, data) <==> c in Categories(rules)
    decreases |rules|
  {
    if |rules| > 0 {
      CategoryIsKey(rules[..|rules| - 1], data, c);
    }
  }

  /** The total equals the sum of the per-category breakdown. */
  lemma {:induction false} TotalIsBreakdownSum(rules: seq<Rule>, data: map<string, ColumnValue>)
    ensures Total(rules, data) == SumOver(Categories(rules), Breakdown(rules, data))
    decreases |rules|
  {
    if |rules| > 0 {
      var init := rules[..|rules| - 1];
      var rule := rules[|rules| - 1];
      var e := EvaluateRule(rule, data);
      var b := Breakdown(init, data);
      var cs := Categories(init);
      assert Total(rules, data) == Total(init, data) + e;
      assert Breakdown(rules, data) == b[rule.category := Get(b, rule.category) + e];
      TotalIsBreakdownSum(init, data);
      CategoriesDistinct(init);
      CategoryIsKey(init, data, rule.category);
      if rule.category in cs {
        assert Categories(rules) == cs;
        SumOverAdd(cs, b, rule.category, e);
      } else {
        var cs' := cs + [rule.category];
        assert Categories(rules) == cs';
        SumOverUnaffected(cs, b, rule.category, Get(b, rule.category) + e);
        assert cs'[..|cs'| - 1] == cs;
      }
    }
  }

  /** Every factor scored above 0 and comes from a rule. */
  lemma {:induction false} FactorsScored(rules: seq<Rule>, data: map<string, ColumnValue>)
    ensures forall f :: f in Factors(rules, data) ==>
      f.score > 0.0 && exists k :: 0 <= k < |rules| && f == FactorOf(rules[k], data)
    decreases |rules|
  {
    if |rules| > 0 {
      var init := rules[..|rules| - 1];
      FactorsScored(init, data);
      forall f | f in Factors(rules, data)
        ensures f.score > 0.0 && exists k :: 0 <= k < |rules| && f == FactorOf(rules[k], data)
      {
        if f in Factors(init, data) {
          var k :| 0 <= k < |init| && f == FactorOf(init[k], data);
          assert rules[k] == init[k];
        } else {
          assert f == FactorOf(rules[|rules| - 1], data);
        }
      }
    }
  }

  /** Every rule that scored above 0 is listed as a factor. */
  lemma {:induction false} FactorsComplete(rules: seq<Rule>, data: map<string, ColumnValue>, k: nat)
    requires k < |rules| && EvaluateRule(rules[k], data) > 0.0
    ensures FactorOf(rules[k], data) in Factors(rules, data)
    decreases |rules|
  {
    var init := rules[..|rules| - 1];
    if k < |rules| - 1 {
      assert init[k] == rules[k];
      FactorsComplete(init, data, k);
    }
  }

  /** A customer with no data scores 0 in total, in every category, with no
      factors. */
  lemma {:induction false} NoDataScoresNothing(rules: seq<Rule>)
    ensures Total(rules, map[]) == 0.0
    ensures forall c :: c in Breakdown(rules, map[]) ==> Breakdown(rules, map[])[c] == 0.0
    ensures Factors(rules, map[]) == []
    decreases |rules|
  {
    if |rules| > 0 {
      NoDataScoresNothing(rules[..|rules| - 1]);
    }
  }
}
