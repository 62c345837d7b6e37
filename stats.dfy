/**
 * The metric record and the metric set of runner/stats.py.
 *
 * A `Statistics` object stores one value per field of a fixed typed
 * schema (`TRACKED_STATS`) through a setter that rejects a value whose
 * Python type is not exactly the field's type; any other attribute is an
 * ordinary instance attribute. Reading `score` computes the simple
 * anomaly score. A `StatisticsSet` is an append-only list of records with
 * averages, also reachable as `avg_<field>`.
 */
module Stats {
  import opened Wrappers
  import opened Text

  /** The Python type of a tracked field. */
  datatype Kind = FloatKind | IntKind

  /** A Python value as far as the record needs it: float, int, bool, str or None. */
  datatype Value = F(r: real) | I(i: int) | B(b: bool) | S(s: string) | NoneV

  /** `type(value) == type(kind())`: exact, so a bool is not an int and an int is not a float. */
  predicate HasKind(v: Value, k: Kind) {
    match k
    case FloatKind => v.F?
    case IntKind => v.I?
  }

  /** `float()` and `int()`: the value of a field that was never given. */
  function Default(k: Kind): (v: Value)
    ensures HasKind(v, k)
  {
    match k
    case FloatKind => F(0.0)
    case IntKind => I(0)
  }

  type Schema = map<string, Kind>

  /** `Statistics.TRACKED_STATS` (runner/stats.py:6-14). */
  const StatsSchema: Schema := map[
    "totalcash" := FloatKind, "countcash" := FloatKind, "opcount" := FloatKind,
    "runtime" := FloatKind, "throughput" := FloatKind,
    "mpl" := IntKind, "trial" := IntKind]

  datatype StatsError =
    | AttributeError(name: string)
    | TypeError(name: string)
    | ValueError
    | ZeroDivisionError

  /**
   * The state of one `Statistics` object: the tracked values (`__stats`)
   * and the ordinary instance attributes.
   */
  datatype Record = Record(stats: map<string, Value>, extra: map<string, Value>)

  /** Tracked values are in the schema with their type; instance attributes are not schema names. */
  predicate WellTyped(schema: Schema, r: Record) {
    (forall k :: k in r.stats ==> k in schema && HasKind(r.stats[k], schema[k])) &&
    (forall k :: k in r.extra ==> k !in schema)
  }

  /** Every schema field has a value: what the constructor leaves behind. */
  predicate Complete(schema: Schema, r: Record) {
    WellTyped(schema, r) && r.stats.Keys == schema.Keys
  }

  /** `Statistics.__setattr__` (runner/stats.py:48-55). */
  function SetAttrSpec(schema: Schema, r: Record, name: string, v: Value): Result<Record, StatsError> {
    if name in schema then
      if HasKind(v, schema[name]) then Ok(r.(stats := r.stats[name := v]))
      else Err(TypeError(name))
    else Ok(r.(extra := r.extra[name := v]))
  }

  /** The setter keeps a record well typed, and an assignment it accepts is what a read then returns. */
  lemma SetAttrKeeps(schema: Schema, r: Record, name: string, v: Value)
    requires WellTyped(schema, r)
    ensures var res := SetAttrSpec(schema, r, name, v);
      (res.Err? <==> name in schema && !HasKind(v, schema[name])) &&
      (res.Ok? ==> WellTyped(schema, res.value) && GetAttr(res.value, name) == Ok(v)) &&
      (res.Err? ==> res.error == TypeError(name))
  {
  }

  /** An assignment changes the named attribute and nothing else. */
  lemma SetAttrFrame(schema: Schema, r: Record, name: string, v: Value, other: string)
    requires WellTyped(schema, r) && other != name && other != "score" && SetAttrSpec(schema, r, name, v).Ok?
    ensures GetAttr(SetAttrSpec(schema, r, name, v).value, other) == GetAttr(r, other)
  {
  }

  /** Normal attribute lookup: instance attributes first, then `__stats` (runner/stats.py:39-41). */
  function Lookup(r: Record, name: string): Option<Value> {
    if name in r.extra then Some(r.extra[name])
    else if name in r.stats then Some(r.stats[name])
    else None
  }

  /** A number for Python arithmetic and comparison: float, int, or bool as 0/1. */
  function Num(v: Value): Option<real> {
    match v
    case F(x) => Some(x)
    case I(n) => Some(n as real)
    case B(b) => Some(if b then 1.0 else 0.0)
    case _ => None
  }

  function NumAttr(r: Record, name: string): Result<real, StatsError> {
    match Lookup(r, name)
    case None => Err(AttributeError(name))
    case Some(v) => if Num(v).Some? then Ok(Num(v).value) else Err(TypeError(name))
  }

  function Abs(x: real): real { if x < 0.0 then -x else x }

  /**
   * `calc_score` (runner/stats.py:64-72): |totalcash - countcash| / opcount
   * when opcount > 0, otherwise `None`.
   */
  function CalcScore(r: Record): Result<Option<real>, StatsError> {
    match NumAttr(r, "opcount")
    case Err(e) => Err(e)
    case Ok(op) =>
      if op > 0.0 then
        match NumAttr(r, "totalcash")
        case Err(e) => Err(e)
        case Ok(tc) =>
          match NumAttr(r, "countcash")
          case Err(e) => Err(e)
          case Ok(cc) => Ok(Some(Abs(tc - cc) / op))
      else Ok(None)
  }

  /** `Statistics.__getattr__` behind normal lookup (runner/stats.py:39-45): `score` is computed. */
  function GetAttr(r: Record, name: string): Result<Value, StatsError> {
    match Lookup(r, name)
    case Some(v) => Ok(v)
    case None =>
      if name == "score" then
        match CalcScore(r)
        case Err(e) => Err(e)
        case Ok(s) => Ok(if s.Some? then F(s.value) else NoneV)
      else Err(AttributeError(name))
  }

  /** A name that is neither stored nor `score` cannot be read. */
  lemma GetAttrUnknown(r: Record, name: string)
    requires name !in r.stats && name !in r.extra && name != "score"
    ensures GetAttr(r, name) == Err(AttributeError(name))
  {
  }

  /** The score of a complete record is `None` exactly when opcount <= 0, and otherwise is never negative. */
  lemma ScoreNoneIff(r: Record)
    requires Complete(StatsSchema, r) && "score" !in r.extra
    ensures GetAttr(r, "score").Ok?
    ensures GetAttr(r, "score") == Ok(NoneV) <==> r.stats["opcount"].r <= 0.0
    ensures GetAttr(r, "score").value.F? ==> GetAttr(r, "score").value.r >= 0.0
  {
    assert "opcount" in StatsSchema && "totalcash" in StatsSchema && "countcash" in StatsSchema;
    assert "opcount" !in r.extra && "totalcash" !in r.extra && "countcash" !in r.extra;
    assert r.stats["opcount"].F?;
  }

  /** totalcash 100, countcash 123 and opcount 50 give a score of 0.46. */
  lemma ScoreExample(r: Record)
    requires Lookup(r, "totalcash") == Some(F(100.0)) && Lookup(r, "countcash") == Some(F(123.0))
    requires Lookup(r, "opcount") == Some(F(50.0)) && Lookup(r, "score").None?
    ensures GetAttr(r, "score") == Ok(F(0.46))
  {
  }

  // ---------------------------------------------------------------------
  // Construction: `Statistics(**kwargs)` (runner/stats.py:25-36)

  /** The keyword arguments set one by one, in order: the first bad one raises. */
  function ImportKwargs(schema: Schema, r: Record, kwargs: seq<(string, Value)>): Result<Record, StatsError>
    decreases |kwargs|
  {
    if kwargs == [] then Ok(r)
    else
      var (k, v) := kwargs[0];
      if k !in schema then Err(AttributeError(k))
      else match SetAttrSpec(schema, r, k, v)
        case Err(e) => Err(e)
        case Ok(r') => ImportKwargs(schema, r', kwargs[1..])
  }

  function KeysOf(kwargs: seq<(string, Value)>): set<string> {
    set i | 0 <= i < |kwargs| :: kwargs[i].0
  }

  /** Every schema field missing from the record gets its type's default. */
  function FillDefaults(schema: Schema, r: Record): Record {
    r.(stats := map k | k in schema :: if k in r.stats then r.stats[k] else Default(schema[k]))
  }

  function Construct(schema: Schema, kwargs: seq<(string, Value)>): Result<Record, StatsError> {
    match ImportKwargs(schema, Record(map[], map[]), kwargs)
    case Err(e) => Err(e)
    case Ok(r) => Ok(FillDefaults(schema, r))
  }

  /** The value the last occurrence of `k` in the keyword arguments carries. */
  function LastValue(kwargs: seq<(string, Value)>, k: string): Value
    requires k in KeysOf(kwargs)
  {
    var n := |kwargs| - 1;
    if kwargs[n].0 == k then kwargs[n].1
    else
      assert k in KeysOf(kwargs[..n]) by {
        var i :| 0 <= i < |kwargs| && kwargs[i].0 == k;
        assert kwargs[..n][i] == kwargs[i];
      }
      LastValue(kwargs[..n], k)
  }

  /** Construction accepts exactly the keyword arguments that name schema fields with the right type. */
  predicate KwargsOk(schema: Schema, kwargs: seq<(string, Value)>) {
    forall i :: 0 <= i < |kwargs| ==> kwargs[i].0 in schema && HasKind(kwargs[i].1, schema[kwargs[i].0])
  }

  /**
   * The constructor succeeds exactly when every keyword names a schema
   * field and has its type; then given fields hold their values and the
   * others their defaults. Otherwise the first offending keyword decides
   * the error.
   */
  lemma {:induction false} ImportKwargsSpec(schema: Schema, r: Record, kwargs: seq<(string, Value)>)
    requires WellTyped(schema, r)
    ensures ImportKwargs(schema, r, kwargs).Ok? <==> KwargsOk(schema, kwargs)
    ensures ImportKwargs(schema, r, kwargs).Ok? ==>
      var r' := ImportKwargs(schema, r, kwargs).value;
      WellTyped(schema, r') && r'.extra == r.extra &&
      r'.stats.Keys == r.stats.Keys + KeysOf(kwargs) &&
      forall k :: k in r'.stats ==> r'.stats[k] == (if k in KeysOf(kwargs) then LastValue(kwargs, k) else r.stats[k])
    decreases |kwargs|
  {
    if kwargs != [] {
      var (k, v) := kwargs[0];
      if k in schema && HasKind(v, schema[k]) {
        var r1 := r.(stats := r.stats[k := v]);
        ImportKwargsSpec(schema, r1, kwargs[1..]);
        var rest := kwargs[1..];
        assert KwargsOk(schema, kwargs) <==> KwargsOk(schema, rest) by {
          if KwargsOk(schema, rest) {
            forall i | 0 <= i < |kwargs| ensures kwargs[i].0 in schema && HasKind(kwargs[i].1, schema[kwargs[i].0]) {
              if i > 0 { assert kwargs[i] == rest[i - 1]; }
            }
          }
          if KwargsOk(schema, kwargs) {
            forall i | 0 <= i < |rest| ensures rest[i].0 in schema && HasKind(rest[i].1, schema[rest[i].0]) {
              assert rest[i] == kwargs[i + 1];
            }
          }
        }
        assert KeysOf(kwargs) == {k} + KeysOf(rest) by {
          forall x | x in KeysOf(kwargs) ensures x in {k} + KeysOf(rest) {
            var i :| 0 <= i < |kwargs| && kwargs[i].0 == x;
            if i > 0 { assert rest[i - 1] == kwargs[i]; }
          }
          forall x | x in KeysOf(rest) ensures x in KeysOf(kwargs) {
            var i :| 0 <= i < |rest| && rest[i].0 == x;
            assert kwargs[i + 1] == rest[i];
          }
        }
        if ImportKwargs(schema, r, kwargs).Ok? {
          var r' := ImportKwargs(schema, r, kwargs).value;
          forall x | x in r'.stats
            ensures r'.stats[x] == (if x in KeysOf(kwargs) then LastValue(kwargs, x) else r.stats[x])
          {
            if x in KeysOf(rest) {
              LastValueCons(kwargs, x);
            } else if x == k {
              LastValueHead(kwargs, x);
            }
          }
        }
      } else {
        assert !(kwargs[0].0 in schema && HasKind(kwargs[0].1, schema[kwargs[0].0]));
      }
    }
  }

  /** A key that recurs after the first pair takes its value from the rest. */
  lemma {:induction false} LastValueCons(kwargs: seq<(string, Value)>, x: string)
    requires |kwargs| > 0 && x in KeysOf(kwargs[1..])
    ensures x in KeysOf(kwargs) && LastValue(kwargs, x) == LastValue(kwargs[1..], x)
    decreases |kwargs|
  {
    var i :| 0 <= i < |kwargs[1..]| && kwargs[1..][i].0 == x;
    assert kwargs[i + 1].0 == x;
    var n := |kwargs| - 1;
    if kwargs[n].0 != x {
      assert kwargs[..n][1..] == kwargs[1..][..n - 1];
      assert x in KeysOf(kwargs[1..][..n - 1]) by {
        assert i < n - 1;
        assert kwargs[1..][..n - 1][i] == kwargs[1..][i];
      }
      LastValueCons(kwargs[..n], x);
    }
  }

  /** A key that occurs only in the first pair takes that pair's value. */
  lemma {:induction false} LastValueHead(kwargs: seq<(string, Value)>, x: string)
    requires |kwargs| > 0 && kwargs[0].0 == x && x !in KeysOf(kwargs[1..])
    ensures x in KeysOf(kwargs) && LastValue(kwargs, x) == kwargs[0].1
    decreases |kwargs|
  {
    var n := |kwargs| - 1;
    if n > 0 {
      assert kwargs[n] == kwargs[1..][n - 1];
      assert kwargs[..n][0] == kwargs[0];
      assert x !in KeysOf(kwargs[..n][1..]) by {
        forall i | 0 <= i < |kwargs[..n][1..]| ensures kwargs[..n][1..][i].0 != x {
          assert kwargs[..n][1..][i] == kwargs[1..][i];
        }
      }
      LastValueHead(kwargs[..n], x);
    }
  }

  /** A keyword outside the schema makes construction fail. */
  lemma ConstructRejectsUnknown(schema: Schema, kwargs: seq<(string, Value)>, i: nat)
    requires i < |kwargs| && kwargs[i].0 !in schema
    ensures Construct(schema, kwargs).Err?
  {
    ImportKwargsSpec(schema, Record(map[], map[]), kwargs);
  }

  /** A successful construction has every field, the given ones with their values and the rest at their defaults. */
  lemma ConstructDefaults(schema: Schema, kwargs: seq<(string, Value)>)
    requires KwargsOk(schema, kwargs)
    ensures Construct(schema, kwargs).Ok?
    ensures var r := Construct(schema, kwargs).value;
      Complete(schema, r) && r.extra == map[] &&
      forall k :: k in schema ==> r.stats[k] == (if k in KeysOf(kwargs) then LastValue(kwargs, k) else Default(schema[k]))
  {
    ImportKwargsSpec(schema, Record(map[], map[]), kwargs);
  }

  /** `Statistics()` with no arguments: floats 0.0 and ints 0. */
  lemma ConstructEmpty()
    ensures Construct(StatsSchema, []) == Ok(Record(map k | k in StatsSchema :: Default(StatsSchema[k]), map[]))
  {
    var e := Record(map[], map[]);
    assert ImportKwargs(StatsSchema, e, []) == Ok(e);
    assert FillDefaults(StatsSchema, e).stats == map k | k in StatsSchema :: Default(StatsSchema[k]);
  }

  // ---------------------------------------------------------------------
  // The metric set (runner/stats.py:74-138)

  /** An argument of `addstats`: a `Statistics` instance, or anything else. */
  datatype Arg = StatsArg(rec: Record) | OtherArg

  /** `getvalues(field)`: the field of every record, in insertion order. */
  function ValuesOf(items: seq<Record>, field: string): (r: Result<seq<Value>, StatsError>)
    ensures r.Ok? ==> |r.value| == |items|
  {
    if items == [] then Ok([])
    else match GetAttr(items[0], field)
      case Err(e) => Err(e)
      case Ok(v) =>
        match ValuesOf(items[1..], field)
        case Err(e) => Err(e)
        case Ok(vs) => Ok([v] + vs)
  }

  /** Values of a concatenation are the concatenation of the values. */
  lemma {:induction false} ValuesOfAppend(a: seq<Record>, b: seq<Record>, field: string)
    requires ValuesOf(a, field).Ok? && ValuesOf(b, field).Ok?
    ensures ValuesOf(a + b, field) == Ok(ValuesOf(a, field).value + ValuesOf(b, field).value)
    decreases |a|
  {
    if a != [] {
      assert (a + b)[0] == a[0] && (a + b)[1..] == a[1..] + b;
      ValuesOfAppend(a[1..], b, field);
      var v := GetAttr(a[0], field).value;
      var va, vb := ValuesOf(a[1..], field).value, ValuesOf(b, field).value;
      assert ValuesOf(a, field).value == [v] + va;
      assert [v] + (va + vb) == ([v] + va) + vb;
    } else {
      assert a + b == b;
      assert ValuesOf(a, field).value == [];
      assert [] + ValuesOf(b, field).value == ValuesOf(b, field).value;
    }
  }

  /** Each value is the field of the record at the same position. */
  lemma {:induction false} ValuesOfAt(items: seq<Record>, field: string, i: nat)
    requires ValuesOf(items, field).Ok? && i < |items|
    ensures GetAttr(items[i], field) == Ok(ValuesOf(items, field).value[i])
    decreases i
  {
    if i > 0 {
      ValuesOfAt(items[1..], field, i - 1);
    }
  }

  /** `sum(values)`, left to right; a value Python cannot add raises TypeError. */
  function SumValues(vs: seq<Value>): Result<real, StatsError> {
    if vs == [] then Ok(0.0)
    else match SumValues(vs[..|vs| - 1])
      case Err(e) => Err(e)
      case Ok(t) =>
        if Num(vs[|vs| - 1]).Some? then Ok(t + Num(vs[|vs| - 1]).value) else Err(TypeError("sum"))
  }

  /** `average(field)`: the sum of the values divided by how many there are. */
  function AverageOf(items: seq<Record>, field: string): (r: Result<real, StatsError>)
    ensures r.Ok? ==>
      |items| > 0 && ValuesOf(items, field).Ok? &&
      SumValues(ValuesOf(items, field).value).Ok? &&
      r.value * (|items| as real) == SumValues(ValuesOf(items, field).value).value
    ensures |items| > 0 && ValuesOf(items, field).Ok? && SumValues(ValuesOf(items, field).value).Ok? ==> r.Ok?
    ensures ValuesOf(items, field).Err? ==> r == Err(ValuesOf(items, field).error)
    ensures ValuesOf(items, field).Ok? && SumValues(ValuesOf(items, field).value).Err? ==>
      r == Err(SumValues(ValuesOf(items, field).value).error)
    ensures items == [] ==> r == Err(ZeroDivisionError)
  {
    match ValuesOf(items, field)
    case Err(e) => Err(e)
    case Ok(vs) =>
      match SumValues(vs)
      case Err(e) => Err(e)
      case Ok(t) =>
        if |vs| == 0 then Err(ZeroDivisionError)
        else
          var n := |vs| as real;
          assert |vs| == |items| && vs == ValuesOf(items, field).value;
          assert (t / n) * n == t;
          Ok(t / n)
  }

  /** The average of two records holding 2.0 and 4.0 is 3.0. */
  lemma AverageTwoFour(a: Record, b: Record, field: string)
    requires Lookup(a, field) == Some(F(2.0)) && Lookup(b, field) == Some(F(4.0))
    ensures AverageOf([a, b], field) == Ok(3.0)
  {
    assert GetAttr(a, field) == Ok(F(2.0)) && GetAttr(b, field) == Ok(F(4.0));
    assert [b][1..] == [] && [a, b][1..] == [b];
    assert ValuesOf([], field) == Ok([]);
    assert [F(4.0)] + [] == [F(4.0)] && [F(2.0)] + [F(4.0)] == [F(2.0), F(4.0)];
    assert ValuesOf([b], field) == Ok([F(4.0)]);
    assert ValuesOf([a, b], field) == Ok([F(2.0), F(4.0)]);
    assert [F(2.0), F(4.0)][..1] == [F(2.0)] && [F(2.0)][..0] == [];
    assert SumValues([F(2.0), F(4.0)]) == Ok(6.0);
  }

  /** The arguments of `addstats` that get appended, and the error that stops it, if any. */
  function AddStatsSpec(args: seq<Arg>): (r: (seq<Record>, Option<StatsError>))
    ensures |r.0| <= |args|
    ensures r.1.None? <==> forall i :: 0 <= i < |args| ==> args[i].StatsArg?
    ensures forall i :: 0 <= i < |r.0| ==> args[i] == StatsArg(r.0[i])
    ensures r.1.Some? ==> r.1 == Some(ValueError) && |r.0| < |args| && args[|r.0|].OtherArg?
    ensures r.1.None? ==> |r.0| == |args|
  {
    if args == [] then ([], None)
    else match args[0]
      case OtherArg => ([], Some(ValueError))
      case StatsArg(rec) =>
        var (rest, e) := AddStatsSpec(args[1..]);
        assert forall i :: 1 <= i < |args| ==> args[i] == args[1..][i - 1];
        ([rec] + rest, e)
  }

  /** One `Statistics` object. */
  class Statistics {
    const schema: Schema
    var stats: map<string, Value>
    var extra: map<string, Value>

    function Snapshot(): Record
      reads this
    {
      Record(stats, extra)
    }

    predicate Valid()
      reads this
    {
      WellTyped(schema, Snapshot())
    }

    constructor Empty(schema: Schema)
      ensures this.schema == schema && stats == map[] && extra == map[]
      ensures Valid()
    {
      this.schema := schema;
      stats := map[];
      extra := map[];
    }

    /** `Statistics(**kwargs)`: import the keyword arguments in order, then fill in defaults. */
    static method New(schema: Schema, kwargs: seq<(string, Value)>) returns (res: Result<Statistics, StatsError>)
      ensures res.Err? <==> Construct(schema, kwargs).Err?
      ensures res.Err? ==> res.error == Construct(schema, kwargs).error
      ensures res.Ok? ==>
        fresh(res.value) && res.value.schema == schema &&
        res.value.Snapshot() == Construct(schema, kwargs).value && res.value.Valid()
    {
      var s := new Statistics.Empty(schema);
      var i := 0;
      while i < |kwargs|
        invariant 0 <= i <= |kwargs|
        invariant s.schema == schema && s.Valid() && fresh(s)
        invariant ImportKwargs(schema, Record(map[], map[]), kwargs) == ImportKwargs(schema, s.Snapshot(), kwargs[i..])
      {
        var (k, v) := kwargs[i];
        assert kwargs[i..][0] == (k, v) && kwargs[i..][1..] == kwargs[i + 1..];
        if k !in schema {
          return Err(AttributeError(k));
        }
        var err := s.SetAttr(k, v);
        if err.Some? {
          return Err(err.value);
        }
        i := i + 1;
      }
      var ks := schema.Keys;
      while ks != {}
        invariant ks <= schema.Keys && s.schema == schema && s.Valid() && fresh(s)
        invariant s.extra == ImportKwargs(schema, Record(map[], map[]), kwargs).value.extra
        invariant FillDefaults(schema, s.Snapshot()) == FillDefaults(schema, ImportKwargs(schema, Record(map[], map[]), kwargs).value)
        invariant forall k :: k in schema && k !in ks ==> k in s.stats
        decreases ks
      {
        var k :| k in ks;
        if k !in s.stats {
          var err := s.SetAttr(k, Default(schema[k]));
        }
        ks := ks - {k};
      }
      assert s.Snapshot() == FillDefaults(schema, s.Snapshot());
      return Ok(s);
    }

    /** `__setattr__`: a tracked field takes only a value of its exact type; other names are instance attributes. */
    method SetAttr(name: string, v: Value) returns (err: Option<StatsError>)
      requires Valid()
      modifies this
      ensures Valid()
      ensures match SetAttrSpec(schema, old(Snapshot()), name, v)
        case Ok(r) => err.None? && Snapshot() == r
        case Err(e) => err == Some(e) && Snapshot() == old(Snapshot())
    {
      if name in schema {
        if !HasKind(v, schema[name]) {
          return Some(TypeError(name));
        }
        stats := stats[name := v];
      } else {
        extra := extra[name := v];
      }
      return None;
    }

    /** Reading an attribute: stored values, then `score`. */
    function GetAttribute(name: string): Result<Value, StatsError>
      reads this
    {
      GetAttr(Snapshot(), name)
    }
  }

  /** One `StatisticsSet`: the records in the order they were added. */
  class StatisticsSet {
    var items: seq<Record>

    /** `StatisticsSet()`. */
    constructor ()
      ensures items == []
    {
      items := [];
    }

    /**
     * `addstats(*args)`: appends each argument in turn; a non-`Statistics`
     * argument raises ValueError and the ones before it stay appended.
     */
    method AddStats(args: seq<Arg>) returns (err: Option<StatsError>)
      modifies this
      ensures items == old(items) + AddStatsSpec(args).0 && err == AddStatsSpec(args).1
    {
      var i := 0;
      while i < |args|
        invariant 0 <= i <= |args|
        invariant forall j :: 0 <= j < i ==> args[j].StatsArg?
        invariant items == old(items) + AddStatsSpec(args[..i]).0
        invariant AddStatsSpec(args[..i]).1.None?
      {
        if args[i].OtherArg? {
          AddStatsStop(args, i);
          return Some(ValueError);
        }
        AddStatsSnoc(args, i);
        items := items + [args[i].rec];
        i := i + 1;
      }
      assert args[..i] == args;
      return None;
    }

    function Items(): seq<Record>
      reads this
    {
      items
    }

    function GetValues(field: string): Result<seq<Value>, StatsError>
      reads this
    {
      ValuesOf(items, field)
    }

    function Average(field: string): Result<real, StatsError>
      reads this
    {
      AverageOf(items, field)
    }

    /** `__getattr__`: `avg_<field>` is `average(<field>)`; anything else unknown raises AttributeError. */
    function GetAttribute(name: string): (r: Result<real, StatsError>)
      reads this
      ensures StartsWith(name, "avg_") ==> r == AverageOf(items, name[4..])
      ensures !StartsWith(name, "avg_") ==> r == Err(AttributeError(name))
    {
      if StartsWith(name, "avg_") then Average(name[4..]) else Err(AttributeError(name))
    }
  }

  /** `avg_<f>` is the average of field `f`, whatever `f` is. */
  lemma AvgDispatch(s: StatisticsSet, f: string)
    ensures s.GetAttribute("avg_" + f) == s.Average(f)
  {
    assert ("avg_" + f)[..4] == "avg_" && ("avg_" + f)[4..] == f;
  }

  /** Every name is either `avg_<f>`, read as the average of `f`, or raises AttributeError. */
  lemma GetAttributeCases(s: StatisticsSet, name: string)
    ensures s.GetAttribute(name) == Err(AttributeError(name)) ||
      exists f :: name == "avg_" + f && s.GetAttribute(name) == s.Average(f)
  {
    if StartsWith(name, "avg_") {
      var f := name[4..];
      assert name == "avg_" + f;
      AvgDispatch(s, f);
    }
  }

  /** Only one prefix is taken off: `avg_avg_<f>` averages the field `avg_<f>`, not `f`. */
  lemma AvgOnce(s: StatisticsSet, f: string)
    ensures s.GetAttribute("avg_avg_" + f) == s.Average("avg_" + f)
  {
    assert "avg_avg_" + f == "avg_" + ("avg_" + f);
    AvgDispatch(s, "avg_" + f);
  }

  /** Extending the arguments by a `Statistics` appends it, once the prefix had no error. */
  lemma AddStatsSnoc(args: seq<Arg>, i: nat)
    requires i < |args| && args[i].StatsArg? && forall j :: 0 <= j < i ==> args[j].StatsArg?
    ensures AddStatsSpec(args[..i + 1]).0 == AddStatsSpec(args[..i]).0 + [args[i].rec]
    ensures AddStatsSpec(args[..i + 1]).1.None?
  {
    AddStatsAll(args[..i + 1]);
    AddStatsAll(args[..i]);
  }

  /** At the first non-`Statistics` argument, the appended prefix is the one before it. */
  lemma AddStatsStop(args: seq<Arg>, i: nat)
    requires i < |args| && args[i].OtherArg? && forall j :: 0 <= j < i ==> args[j].StatsArg?
    ensures AddStatsSpec(args) == (AddStatsSpec(args[..i]).0, Some(ValueError))
  {
    AddStatsAll(args[..i]);
    var r := AddStatsSpec(args);
    assert r.0 == AddStatsSpec(args[..i]).0;
  }

  /** When every argument is a `Statistics`, all of them are appended. */
  lemma AddStatsAll(args: seq<Arg>)
    requires forall j :: 0 <= j < |args| ==> args[j].StatsArg?
    ensures |AddStatsSpec(args).0| == |args|
    ensures forall j :: 0 <= j < |args| ==> AddStatsSpec(args).0[j] == args[j].rec
  {
  }
}
