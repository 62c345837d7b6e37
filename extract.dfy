/**
 * `Runner.extract_stats` (src/runner/runner.py:158-172): every extraction
 * rule is searched for in the YCSB output on its own; a rule that
 * matches sets its field to its first capture converted by the field's
 * type, and a rule that does not match leaves the field to the record's
 * default. The result is a new `Statistics` record over `TRACKED_STATS`.
 */
module Extraction {
  import opened Wrappers
  import opened Text
  import opened Patterns
  import opened Constants
  import opened Stats

  /** `TRACKED_STATS[k](m)`: `float(m)` or `int(m)`; a string the type rejects raises ValueError. */
  function Convert(k: Kind, m: string): (r: Option<Value>)
    ensures r.Some? ==> HasKind(r.value, k)
  {
    match k
    case FloatKind => (match ParseDecimal(m) case Some(x) => Some(F(x)) case None => None)
    case IntKind => (match ParseInt(m) case Some(n) => Some(I(n)) case None => None)
  }

  /** A rule table whose every field is in the schema. */
  predicate RulesIn(rules: seq<(string, Pattern)>, schema: Schema) {
    forall i :: 0 <= i < |rules| ==> rules[i].0 in schema
  }

  /** What one rule contributes: nothing on a miss, its converted capture, or ValueError. */
  function RuleValue(p: Pattern, k: Kind, stdout: string): (r: Result<Option<Value>, StatsError>)
    ensures GetReMatch(p, stdout).None? ==> r == Ok(None)
    ensures GetReMatch(p, stdout).Some? ==>
      (r.Err? <==> Convert(k, GetReMatch(p, stdout).value).None?) &&
      (r.Ok? ==> r.value == Convert(k, GetReMatch(p, stdout).value))
    ensures r.Err? ==> r.error == ValueError
  {
    match GetReMatch(p, stdout)
    case None => Ok(None)
    case Some(m) =>
      match Convert(k, m)
      case None => Err(ValueError)
      case Some(v) => Ok(Some(v))
  }

  /** The keyword arguments the loop collects over the rules, in rule order, or the first ValueError. */
  function Extracted(rules: seq<(string, Pattern)>, schema: Schema, stdout: string): Result<seq<(string, Value)>, StatsError>
    requires RulesIn(rules, schema)
    decreases |rules|
  {
    if rules == [] then Ok([])
    else
      var n := |rules| - 1;
      match Extracted(rules[..n], schema, stdout)
      case Err(e) => Err(e)
      case Ok(kw) =>
        match RuleValue(rules[n].1, schema[rules[n].0], stdout)
        case Err(e) => Err(e)
        case Ok(None) => Ok(kw)
        case Ok(Some(v)) => Ok(kw + [(rules[n].0, v)])
  }

  /** The record the collected arguments construct, or the error collecting or constructing raises. */
  function ExtractOver(rules: seq<(string, Pattern)>, schema: Schema, stdout: string): Result<Record, StatsError>
    requires RulesIn(rules, schema)
  {
    match Extracted(rules, schema, stdout)
    case Err(e) => Err(e)
    case Ok(kw) => Construct(schema, kw)
  }

  /** `extract_stats(stdout)` over the runner's tables. */
  function ExtractSpec(stdout: string): Result<Record, StatsError>
  {
    StatRulesIn();
    ExtractOver(StatRegexps, TrackedStats, stdout)
  }

  lemma StatRulesIn()
    ensures RulesIn(StatRegexps, TrackedStats)
  {
    StatRulesTracked();
  }

  /** A rule whose capture converts. */
  predicate Converts(rules: seq<(string, Pattern)>, schema: Schema, stdout: string, i: nat)
    requires RulesIn(rules, schema) && i < |rules|
  {
    GetReMatch(rules[i].1, stdout).Some? ==> Convert(schema[rules[i].0], GetReMatch(rules[i].1, stdout).value).Some?
  }

  /** What rule `i` leaves in the keyword arguments. */
  predicate Contributes(rules: seq<(string, Pattern)>, schema: Schema, stdout: string, kw: seq<(string, Value)>, i: nat)
    requires RulesIn(rules, schema) && i < |rules|
  {
    var k := rules[i].0;
    match GetReMatch(rules[i].1, stdout)
    case None => k !in KeysOf(kw)
    case Some(m) => k in KeysOf(kw) && Convert(schema[k], m).Some? && LastValue(kw, k) == Convert(schema[k], m).value
  }

  predicate DistinctNames(rules: seq<(string, Pattern)>) {
    forall i, j :: 0 <= i < j < |rules| ==> rules[i].0 != rules[j].0
  }

  /**
   * Extraction succeeds exactly when every capture converts; then each
   * rule's field holds its converted capture when it matched and is
   * absent when it did not, whatever the other rules found, and every
   * argument names a rule's field with a value of its type.
   */
  lemma {:induction false} ExtractedSpec(rules: seq<(string, Pattern)>, schema: Schema, stdout: string)
    requires RulesIn(rules, schema) && DistinctNames(rules)
    ensures Extracted(rules, schema, stdout).Ok? <==> forall i :: 0 <= i < |rules| ==> Converts(rules, schema, stdout, i)
    ensures Extracted(rules, schema, stdout).Ok? ==>
      var kw := Extracted(rules, schema, stdout).value;
      KwargsOk(schema, kw) && KeysOf(kw) <= Names(rules) &&
      forall i :: 0 <= i < |rules| ==> Contributes(rules, schema, stdout, kw, i)
    decreases |rules|
  {
    if rules != [] {
      var n := |rules| - 1;
      var front := rules[..n];
      assert RulesIn(front, schema) && DistinctNames(front) by {
        forall i | 0 <= i < n ensures front[i] == rules[i] { }
      }
      ExtractedSpec(front, schema, stdout);
      ExtractedStep(rules, schema, stdout);
    }
  }

  /** The last rule on top of what the rules before it give. */
  lemma ExtractedStep(rules: seq<(string, Pattern)>, schema: Schema, stdout: string)
    requires RulesIn(rules, schema) && DistinctNames(rules) && rules != []
    requires var front := rules[..|rules| - 1];
      RulesIn(front, schema) &&
      (Extracted(front, schema, stdout).Ok? <==> forall i :: 0 <= i < |front| ==> Converts(front, schema, stdout, i)) &&
      (Extracted(front, schema, stdout).Ok? ==>
        var kw := Extracted(front, schema, stdout).value;
        KwargsOk(schema, kw) && KeysOf(kw) <= Names(front) &&
        forall i :: 0 <= i < |front| ==> Contributes(front, schema, stdout, kw, i))
    ensures Extracted(rules, schema, stdout).Ok? <==> forall i :: 0 <= i < |rules| ==> Converts(rules, schema, stdout, i)
    ensures Extracted(rules, schema, stdout).Ok? ==>
      var kw := Extracted(rules, schema, stdout).value;
      KwargsOk(schema, kw) && KeysOf(kw) <= Names(rules) &&
      forall i :: 0 <= i < |rules| ==> Contributes(rules, schema, stdout, kw, i)
  {
    var n := |rules| - 1;
    var front := rules[..n];
    forall i | 0 <= i < n
      ensures front[i] == rules[i] && (Converts(front, schema, stdout, i) <==> Converts(rules, schema, stdout, i))
    {
    }
    var k := rules[n].0;
    var rv := RuleValue(rules[n].1, schema[k], stdout);
    assert rv.Ok? <==> Converts(rules, schema, stdout, n);
    if Extracted(front, schema, stdout).Ok? && rv.Ok? {
      var kw0 := Extracted(front, schema, stdout).value;
      assert k !in KeysOf(kw0) by {
        forall i | 0 <= i < n ensures front[i].0 != k { }
      }
      if rv.value.Some? {
        KeysOfSnoc(kw0, k, rv.value.value);
        KwargsSnoc(schema, kw0, k, rv.value.value);
      }
      var kw := Extracted(rules, schema, stdout).value;
      forall i | 0 <= i < n ensures Contributes(rules, schema, stdout, kw, i) {
        assert Contributes(front, schema, stdout, kw0, i);
      }
    }
  }

  /** Once a prefix of the rules fails, the whole table fails the same way. */
  lemma {:induction false} ExtractedPrefixErr(rules: seq<(string, Pattern)>, schema: Schema, stdout: string, i: nat)
    requires RulesIn(rules, schema) && i <= |rules|
    requires RulesIn(rules[..i], schema) && Extracted(rules[..i], schema, stdout).Err?
    ensures Extracted(rules, schema, stdout) == Extracted(rules[..i], schema, stdout)
    decreases |rules| - i
  {
    if i < |rules| {
      assert rules[..i + 1][..i] == rules[..i];
      ExtractedPrefixErr(rules, schema, stdout, i + 1);
    } else {
      assert rules[..i] == rules;
    }
  }

  /** One more argument adds its key, carries its value, and leaves the last value of every other key alone. */
  lemma KeysOfSnoc(kw: seq<(string, Value)>, k: string, v: Value)
    ensures KeysOf(kw + [(k, v)]) == KeysOf(kw) + {k}
    ensures LastValue(kw + [(k, v)], k) == v
    ensures forall x :: x in KeysOf(kw) && x != k ==> LastValue(kw + [(k, v)], x) == LastValue(kw, x)
  {
    var kw' := kw + [(k, v)];
    assert kw'[..|kw|] == kw;
    forall x | x in KeysOf(kw') ensures x in KeysOf(kw) + {k} {
      var i :| 0 <= i < |kw'| && kw'[i].0 == x;
      if i < |kw| { assert kw[i].0 == x; }
    }
    forall x | x in KeysOf(kw) ensures x in KeysOf(kw') {
      var i :| 0 <= i < |kw| && kw[i].0 == x;
      assert kw'[i].0 == x;
    }
    assert kw'[|kw|].0 == k;
  }

  lemma KwargsSnoc(schema: Schema, kw: seq<(string, Value)>, k: string, v: Value)
    requires KwargsOk(schema, kw) && k in schema && HasKind(v, schema[k])
    ensures KwargsOk(schema, kw + [(k, v)])
  {
    var kw' := kw + [(k, v)];
    forall i | 0 <= i < |kw'| ensures kw'[i].0 in schema && HasKind(kw'[i].1, schema[kw'[i].0]) {
      if i < |kw| { assert kw'[i] == kw[i]; }
    }
  }

  /** Every capture the rules find in `stdout` is a number `float()` accepts. */
  predicate NumericOver(rules: seq<(string, Pattern)>, stdout: string) {
    forall i :: 0 <= i < |rules| ==>
      GetReMatch(rules[i].1, stdout).Some? ==> ParseDecimal(GetReMatch(rules[i].1, stdout).value).Some?
  }

  /** Every rule fills a float field. */
  predicate FloatRules(rules: seq<(string, Pattern)>, schema: Schema) {
    forall i :: 0 <= i < |rules| ==> rules[i].0 in schema && schema[rules[i].0] == FloatKind
  }

  /**
   * With float rules on distinct fields, extraction fails exactly when a
   * matched capture is not a number; otherwise every rule's field holds
   * its captured number when the rule matched and 0.0 when it did not,
   * and every field without a rule holds its default.
   */
  lemma RecordFields(rules: seq<(string, Pattern)>, schema: Schema, stdout: string)
    requires FloatRules(rules, schema) && DistinctNames(rules)
    ensures RulesIn(rules, schema)
    ensures ExtractOver(rules, schema, stdout).Ok? <==> NumericOver(rules, stdout)
    ensures ExtractOver(rules, schema, stdout).Ok? ==>
      var rec := ExtractOver(rules, schema, stdout).value;
      Complete(schema, rec) && rec.extra == map[] &&
      (forall k :: k in schema && k !in Names(rules) ==> rec.stats[k] == Default(schema[k])) &&
      forall i :: 0 <= i < |rules| ==>
        var m := GetReMatch(rules[i].1, stdout);
        (m.None? ==> rec.stats[rules[i].0] == F(0.0)) &&
        (m.Some? ==> ParseDecimal(m.value).Some? && rec.stats[rules[i].0] == F(ParseDecimal(m.value).value))
  {
    ExtractedSpec(rules, schema, stdout);
    forall i | 0 <= i < |rules|
      ensures Converts(rules, schema, stdout, i) <==>
        (GetReMatch(rules[i].1, stdout).Some? ==> ParseDecimal(GetReMatch(rules[i].1, stdout).value).Some?)
    {
    }
    var e := Extracted(rules, schema, stdout);
    if e.Ok? {
      ConstructDefaults(schema, e.value);
      var rec := ExtractOver(rules, schema, stdout).value;
      forall i | 0 <= i < |rules|
        ensures var m := GetReMatch(rules[i].1, stdout);
          (m.None? ==> rec.stats[rules[i].0] == F(0.0)) &&
          (m.Some? ==> ParseDecimal(m.value).Some? && rec.stats[rules[i].0] == F(ParseDecimal(m.value).value))
      {
        assert Contributes(rules, schema, stdout, e.value, i);
      }
    }
  }

  lemma StatRulesFloat()
    ensures FloatRules(StatRegexps, TrackedStats) && DistinctNames(StatRegexps)
    ensures "mpl" in TrackedStats && "mpl" !in Names(StatRegexps) && TrackedStats["mpl"] == IntKind
    ensures "trial" in TrackedStats && "trial" !in Names(StatRegexps) && TrackedStats["trial"] == IntKind
  {
    StatRulesTracked();
  }

  /**
   * Over the runner's tables: extraction fails exactly when a matched
   * capture is not a number; otherwise every rule's field holds its
   * captured number when the rule matched and 0.0 when it did not, and
   * `mpl` and `trial` hold 0.
   */
  lemma ExtractFields(stdout: string)
    ensures ExtractSpec(stdout).Ok? <==> NumericOver(StatRegexps, stdout)
    ensures ExtractSpec(stdout).Ok? ==>
      var rec := ExtractSpec(stdout).value;
      Complete(TrackedStats, rec) && rec.extra == map[] &&
      rec.stats["mpl"] == I(0) && rec.stats["trial"] == I(0) &&
      forall i :: 0 <= i < |StatRegexps| ==>
        var m := GetReMatch(StatRegexps[i].1, stdout);
        (m.None? ==> rec.stats[StatRegexps[i].0] == F(0.0)) &&
        (m.Some? ==> ParseDecimal(m.value).Some? && rec.stats[StatRegexps[i].0] == F(ParseDecimal(m.value).value))
  {
    StatRulesFloat();
    RecordFields(StatRegexps, TrackedStats, stdout);
  }

  /** The loop of `extract_stats` over a rule table, then `Statistics(**stats)`. */
  method ExtractWith(rules: seq<(string, Pattern)>, schema: Schema, stdout: string) returns (r: Result<Statistics, StatsError>)
    requires RulesIn(rules, schema)
    ensures r.Err? <==> ExtractOver(rules, schema, stdout).Err?
    ensures r.Err? ==> r.error == ExtractOver(rules, schema, stdout).error
    ensures r.Ok? ==>
      fresh(r.value) && r.value.schema == schema && r.value.Valid() && r.value.Snapshot() == ExtractOver(rules, schema, stdout).value
  {
    var kw: seq<(string, Value)> := [];
    var i := 0;
    while i < |rules|
      invariant 0 <= i <= |rules|
      invariant RulesIn(rules[..i], schema)
      invariant Extracted(rules[..i], schema, stdout) == Ok(kw)
    {
      var (k, regex) := rules[i];
      assert rules[..i + 1][..i] == rules[..i];
      var m := GetReMatch(regex, stdout);
      if m.Some? {
        var v := Convert(schema[k], m.value);
        if v.None? {
          ExtractedPrefixErr(rules, schema, stdout, i + 1);
          return Err(ValueError);
        }
        kw := kw + [(k, v.value)];
      }
      i := i + 1;
    }
    assert rules[..i] == rules;
    r := Statistics.New(schema, kw);
  }

  /** `Runner.extract_stats(stdout)` (src/runner/runner.py:158-172). */
  method ExtractStats(stdout: string) returns (r: Result<Statistics, StatsError>)
    ensures r.Err? <==> ExtractSpec(stdout).Err?
    ensures r.Err? ==> r.error == ExtractSpec(stdout).error
    ensures r.Ok? ==>
      fresh(r.value) && r.value.schema == TrackedStats && r.value.Valid() && r.value.Snapshot() == ExtractSpec(stdout).value
  {
    StatRulesIn();
    r := ExtractWith(StatRegexps, TrackedStats, stdout);
  }
}
