// The original single-file runner, ycsb_runner.py: for every supported
// section of the configuration it sweeps trials and MPLs, keeps the
// records of the runs that reported a runtime, scores them, averages the
// scores per MPL and writes the rows out in MPL order.

module YcsbRunner {
  import opened Wrappers
  import opened Text
  import opened Patterns
  import opened ConfigParsers
  import DbSystems
  import RunProperties

  // ---------------------------------------------------------------------
  // Tables

  /** `SUPPORTED_OUTPUTS` (ycsb_runner.py:18). */
  const SupportedOutputs: seq<string> := ["csv"]

  /** `SUPPORTED_DBS` (ycsb_runner.py:21-26). */
  const ScriptDbs: seq<string> := ["jdbc", "mongodb", "redis", "cassandra-10"]

  /** `CLEAN_COMMANDS` (ycsb_runner.py:31-73). */
  const CleanCalls: map<string, seq<string>> := map[
    "mysql" := ["mysql", "-u", "ycsb", "-pycsb", "-e", "TRUNCATE TABLE usertable;", "ycsb"],
    "psql" := ["psql", "--host", "localhost", "-d", "ycsb", "-U", "ycsb", "-c", "TRUNCATE TABLE usertable;"],
    "mongodb" := ["mongo", "--host", "localhost", "--eval", "db.dropDatabase();", "ycsb"],
    "redis" := ["redis-cli", "-r", "1", "FLUSHALL"],
    "cassandra-10" := ["cqlsh", "-k", "usertable", "-e", "TRUNCATE data;"]]

  /** `REGEXPS` (ycsb_runner.py:76-82), in dict order. */
  const Regexps: seq<(string, Pattern)> := [
    ("totalcash", Pattern("TOTAL CASH], ", false, "", Digits, None)),
    ("countcash", Pattern("COUNTED CASH], ", false, "", Digits, None)),
    ("opcount", Pattern("ACTUAL OPERATIONS], ", false, "", Digits, None)),
    ("runtime", Pattern("OVERALL], RunTime", true, ", ", DigitsDot, None)),
    ("throughput", Pattern("OVERALL], Throughput", true, ", ", DigitsDot, None))]

  // ---------------------------------------------------------------------
  // One step's record

  /** The `stats` dict of one step (ycsb_runner.py:197-206). */
  datatype Stats = Stats(totalcash: real, countcash: real, opcount: real, runtime: real, throughput: real,
                         mpl: int, trial: int, score: real)

  /** Every field at `float()` or `int()`. */
  const Zero: Stats := Stats(0.0, 0.0, 0.0, 0.0, 0.0, 0, 0, 0.0)

  /** `stats[name] = x` for the name of one of the five rules. */
  function Put(s: Stats, name: string, x: real): Stats {
    if name == "totalcash" then s.(totalcash := x)
    else if name == "countcash" then s.(countcash := x)
    else if name == "opcount" then s.(opcount := x)
    else if name == "runtime" then s.(runtime := x)
    else s.(throughput := x)
  }

  /** What the script raises. */
  datatype ScriptError =
    | ConfigError(error: IniError)   // a `configparser` read
    | FloatError(text: string)       // `float()` of a capture
    | AssertionFailed                // `assert len(run_stats) > 0`

  /**
   * `getReMatch` (ycsb_runner.py:97-104): `float()` of the first capture,
   * or None when the pattern does not match (not 0, as its comment says);
   * `float()` raises ValueError on a capture such as "1.2.3".
   */
  function ReMatch(p: Pattern, s: string): (r: Result<Option<real>, ScriptError>)
    ensures r == Ok(None) <==> Search(p, s).None?
    ensures r.Ok? && r.value.Some? ==> ParseDecimal(Search(p, s).value.cap) == Some(r.value.value)
    ensures r.Err? ==>
      Search(p, s).Some? && ParseDecimal(Search(p, s).value.cap).None? && r.error == FloatError(Search(p, s).value.cap)
  {
    match GetReMatch(p, s)
    case None => Ok(None)
    case Some(c) =>
      match ParseDecimal(c)
      case None => Err(FloatError(c))
      case Some(x) => Ok(Some(x))
  }

  /** A capture of digits alone always converts, to its integer value. */
  lemma ReMatchDigits(p: Pattern, s: string)
    requires Search(p, s).Some? && |Search(p, s).value.cap| > 0 && AllDigits(Search(p, s).value.cap)
    ensures ReMatch(p, s) == Ok(Some(DigitsValue(Search(p, s).value.cap) as real))
  {
    ParseDecimalOfDigits(Search(p, s).value.cap);
  }

  /** The record after the rules from `i` on have run over `stdout` (ycsb_runner.py:218-221). */
  function ExtractFrom(s: Stats, i: nat, stdout: string): Result<Stats, ScriptError>
    decreases |Regexps| - i
  {
    if i >= |Regexps| then Ok(s)
    else match ReMatch(Regexps[i].1, stdout)
      case Err(e) => Err(e)
      case Ok(None) => ExtractFrom(s, i + 1, stdout)
      case Ok(Some(x)) => ExtractFrom(Put(s, Regexps[i].0, x), i + 1, stdout)
  }

  /** The record of one step's output, from the all-zero one. */
  function Extract(stdout: string): Result<Stats, ScriptError> {
    ExtractFrom(Zero, 0, stdout)
  }

  /** The value of rule `i`'s field: the converted capture, or the 0 it started at. */
  function Found(i: nat, stdout: string): real
    requires i < |Regexps|
  {
    match ReMatch(Regexps[i].1, stdout)
    case Ok(Some(x)) => x
    case _ => 0.0
  }

  /** The first rule from `i` on whose capture does not convert, or `|Regexps|` when all do. */
  function FirstBad(i: nat, stdout: string): (k: nat)
    requires i <= |Regexps|
    ensures i <= k <= |Regexps|
    ensures k < |Regexps| ==> ReMatch(Regexps[k].1, stdout).Err?
    ensures forall j :: i <= j < k ==> ReMatch(Regexps[j].1, stdout).Ok?
    decreases |Regexps| - i
  {
    if i == |Regexps| then |Regexps|
    else if ReMatch(Regexps[i].1, stdout).Err? then i
    else FirstBad(i + 1, stdout)
  }

  /** Rule `i` applied to `s`: its field overwritten when the pattern matched. */
  function Apply(s: Stats, i: nat, stdout: string): Stats
    requires i < |Regexps|
  {
    if ReMatch(Regexps[i].1, stdout).Ok? && ReMatch(Regexps[i].1, stdout).value.Some? then Put(s, Regexps[i].0, Found(i, stdout)) else s
  }

  /**
   * The record starts with all eight fields zero; each of the five rules
   * overwrites its own field with the converted capture when it matches
   * and leaves the zero otherwise; `mpl`, `trial` and `score` stay zero.
   * The first capture that does not convert raises.
   */
  lemma ExtractFields(stdout: string)
    ensures FirstBad(0, stdout) == |Regexps| ==>
      Extract(stdout) == Ok(Stats(Found(0, stdout), Found(1, stdout), Found(2, stdout), Found(3, stdout), Found(4, stdout), 0, 0, 0.0))
    ensures FirstBad(0, stdout) < |Regexps| ==>
      Extract(stdout) == Err(ReMatch(Regexps[FirstBad(0, stdout)].1, stdout).error)
  {
    var s1 := Apply(Zero, 0, stdout);
    var s2 := Apply(s1, 1, stdout);
    var s3 := Apply(s2, 2, stdout);
    var s4 := Apply(s3, 3, stdout);
    var s5 := Apply(s4, 4, stdout);
    ExtractStep(Zero, 0, stdout);
    ExtractStep(s1, 1, stdout);
    ExtractStep(s2, 2, stdout);
    ExtractStep(s3, 3, stdout);
    ExtractStep(s4, 4, stdout);
    assert ExtractFrom(s5, 5, stdout) == Ok(s5);
  }

  lemma ExtractStep(s: Stats, i: nat, stdout: string)
    requires i < |Regexps|
    ensures ExtractFrom(s, i, stdout) ==
      if ReMatch(Regexps[i].1, stdout).Err? then Err(ReMatch(Regexps[i].1, stdout).error) else ExtractFrom(Apply(s, i, stdout), i + 1, stdout)
  {
  }

  /** The REGEXPS loop (ycsb_runner.py:196-221) over the text a run printed. */
  method ExtractStats(stdout: string) returns (r: Result<Stats, ScriptError>)
    ensures r == Extract(stdout)
  {
    var stats := Zero;
    for i := 0 to |Regexps|
      invariant ExtractFrom(stats, i, stdout) == Extract(stdout)
    {
      var m := ReMatch(Regexps[i].1, stdout);
      if m.Err? {
        return Err(m.error);
      }
      if m.value.Some? {
        stats := Put(stats, Regexps[i].0, m.value.value);
      }
    }
    r := Ok(stats);
  }

  function Abs(x: real): real { if x < 0.0 then -x else x }

  /**
   * The filter (ycsb_runner.py:223-225): a record is kept only when its
   * runtime is positive, and only a kept record gets the loop's `mpl` and
   * `trial`; `KeptScore` says what its score becomes.
   */
  function Kept(s: Stats, mpl: int, trial: int): (r: Option<Stats>)
    ensures r.Some? <==> s.runtime > 0.0
    ensures r.Some? ==> r.value.(mpl := s.mpl, trial := s.trial, score := s.score) == s
    ensures r.Some? ==> r.value.mpl == mpl && r.value.trial == trial
  {
    if s.runtime > 0.0 then
      var t := s.(mpl := mpl, trial := trial);
      if t.opcount != 0.0 && t.totalcash != 0.0 && t.countcash != 0.0 then
        Some(t.(score := Abs(t.totalcash - t.countcash) / t.opcount))
      else Some(t)
    else None
  }

  /**
   * The score (ycsb_runner.py:226-232): |totalcash - countcash| / opcount
   * when all three are non-zero, and as it was otherwise.
   */
  lemma KeptScore(s: Stats, mpl: int, trial: int)
    requires s.runtime > 0.0
    ensures var r := Kept(s, mpl, trial).value;
      (s.opcount != 0.0 && s.totalcash != 0.0 && s.countcash != 0.0 ==> r.score * s.opcount == Abs(s.totalcash - s.countcash)) &&
      (s.opcount == 0.0 || s.totalcash == 0.0 || s.countcash == 0.0 ==> r.score == s.score)
  {
  }

  /**
   * A kept record had its runtime matched; a non-zero score means that
   * the three cash and operation patterns all matched, with non-zero
   * values.
   */
  lemma KeptMatched(stdout: string, mpl: int, trial: int)
    requires Extract(stdout).Ok? && Kept(Extract(stdout).value, mpl, trial).Some?
    ensures var r := Kept(Extract(stdout).value, mpl, trial).value;
      ReMatch(Regexps[3].1, stdout) == Ok(Some(r.runtime)) &&
      (r.score != 0.0 ==>
        ReMatch(Regexps[0].1, stdout) == Ok(Some(r.totalcash)) && ReMatch(Regexps[1].1, stdout) == Ok(Some(r.countcash)) &&
        ReMatch(Regexps[2].1, stdout) == Ok(Some(r.opcount)) && r.totalcash != 0.0 && r.countcash != 0.0 && r.opcount != 0.0)
  {
    ExtractFields(stdout);
  }

  // ---------------------------------------------------------------------
  // Steps, sweeps and trials

  /** The output of the YCSB run of section `t` in trial `trial` at `mpl`. */
  type Output = (nat, int, int) -> string

  /** What a stretch of the sweep did: the commands it ran, the records it kept, the error that ended it. */
  datatype Acc = Acc(calls: seq<seq<string>>, rows: seq<Stats>, err: Option<ScriptError>)

  /** `a` and then, unless `a` raised, `b`. */
  function Then(a: Acc, b: Acc): Acc {
    if a.err.Some? then a else Acc(a.calls + b.calls, a.rows + b.rows, b.err)
  }

  const Nothing: Acc := Acc([], [], None)

  lemma ThenAssoc(a: Acc, b: Acc, c: Acc)
    ensures Then(Then(a, b), c) == Then(a, Then(b, c))
  {
  }

  lemma LowerTwice(s: string)
    ensures Lower(Lower(s)) == Lower(s)
  {
    assert forall i :: 0 <= i < |s| ==> LowerChar(LowerChar(s[i])) == LowerChar(s[i]);
  }

  /** `clean(db)` (ycsb_runner.py:89-95): MySQL's and PostgreSQL's truncation for JDBC, the system's own otherwise. */
  function CleanArgv(db: string): seq<seq<string>>
    requires Lower(db) in ScriptDbs
  {
    if Lower(db) == "jdbc" then [CleanCalls["mysql"], CleanCalls["psql"]] else [CleanCalls[Lower(db)]]
  }

  /** The YCSB command vector (ycsb_runner.py:148-157, 185-194). */
  function YcsbArgv(verb: string, db: string, path: string, threads: string): seq<string> {
    ["ycsb", verb, db, "-P", path, "-s", "-threads", threads]
  }

  /**
   * One step (ycsb_runner.py:173-233): clean by the lower-cased name,
   * load with the command built before the loop from the section name as
   * written, run by the lower-cased name, extract, filter and score.
   */
  function StepSpec(out: Output, t: nat, name: string, path: string, trial: int, mpl: int): Acc
    requires Lower(name) in ScriptDbs
  {
    LowerTwice(name);
    var calls := CleanArgv(Lower(name)) + [YcsbArgv("load", name, path, "1"), YcsbArgv("run", Lower(name), path, IntToString(mpl))];
    match Extract(out(t, trial, mpl))
    case Err(e) => Acc(calls, [], Some(e))
    case Ok(s) => Acc(calls, if Kept(s, mpl, trial).Some? then [Kept(s, mpl, trial).value] else [], None)
  }

  /** The MPL loop of one trial from `mpl` on (ycsb_runner.py:169-171): steps until the MPL is above `max`. */
  function SweepSpec(out: Output, t: nat, name: string, path: string, trial: int, mpl: int, inc: int, max: int): Acc
    requires Lower(name) in ScriptDbs && (mpl <= max ==> inc >= 1)
    decreases if mpl <= max then max - mpl + 1 else 0
  {
    if mpl > max then Nothing
    else Then(StepSpec(out, t, name, path, trial, mpl), SweepSpec(out, t, name, path, trial, mpl + inc, inc, max))
  }

  /** The trial loop from `trial` on (ycsb_runner.py:165): `range(trials)`, from 0. */
  function TrialsSpec(out: Output, t: nat, name: string, path: string, trial: int, n: int, lo: int, inc: int, max: int): Acc
    requires Lower(name) in ScriptDbs && (trial < n && lo <= max ==> inc >= 1)
    decreases n - trial
  {
    if trial >= n then Nothing
    else Then(SweepSpec(out, t, name, path, trial, lo, inc, max), TrialsSpec(out, t, name, path, trial + 1, n, lo, inc, max))
  }

  method Step(out: Output, t: nat, name: string, path: string, trial: int, mpl: int) returns (acc: Acc)
    requires Lower(name) in ScriptDbs
    ensures acc == StepSpec(out, t, name, path, trial, mpl)
  {
    var db := Lower(name);
    LowerTwice(name);
    var calls := CleanArgv(db) + [YcsbArgv("load", name, path, "1"), YcsbArgv("run", db, path, IntToString(mpl))];
    var r := ExtractStats(out(t, trial, mpl));
    if r.Err? {
      return Acc(calls, [], Some(r.error));
    }
    var stats := r.value;
    var rows := [];
    if stats.runtime > 0.0 {
      stats := stats.(mpl := mpl, trial := trial);
      if stats.opcount != 0.0 && stats.totalcash != 0.0 && stats.countcash != 0.0 {
        stats := stats.(score := Abs(stats.totalcash - stats.countcash) / stats.opcount);
      }
      rows := [stats];
    }
    acc := Acc(calls, rows, None);
  }

  /** `for mpl in count(start=min_mpl, step=inc_mpl)` with its bound check (ycsb_runner.py:169-233). */
  method Sweep(out: Output, t: nat, name: string, path: string, trial: int, lo: int, inc: int, max: int) returns (acc: Acc)
    requires Lower(name) in ScriptDbs && (lo <= max ==> inc >= 1)
    ensures acc == SweepSpec(out, t, name, path, trial, lo, inc, max)
  {
    acc := Nothing;
    var mpl := lo;
    while mpl <= max
      invariant mpl <= max ==> inc >= 1
      invariant acc.err.None? && Then(acc, SweepSpec(out, t, name, path, trial, mpl, inc, max)) == SweepSpec(out, t, name, path, trial, lo, inc, max)
      decreases max - mpl
    {
      var step := Step(out, t, name, path, trial, mpl);
      SweepNext(acc, step, out, t, name, path, trial, mpl, inc, max);
      acc := Then(acc, step);
      if step.err.Some? {
        return;
      }
      mpl := mpl + inc;
    }
  }

  lemma SweepNext(acc: Acc, step: Acc, out: Output, t: nat, name: string, path: string, trial: int, mpl: int, inc: int, max: int)
    requires Lower(name) in ScriptDbs && mpl <= max && inc >= 1
    requires step == StepSpec(out, t, name, path, trial, mpl)
    ensures Then(acc, SweepSpec(out, t, name, path, trial, mpl, inc, max)) == Then(Then(acc, step), SweepSpec(out, t, name, path, trial, mpl + inc, inc, max))
  {
    ThenAssoc(acc, step, SweepSpec(out, t, name, path, trial, mpl + inc, inc, max));
  }

  /** `for trial in range(trials)` (ycsb_runner.py:165-235). */
  method Trials(out: Output, t: nat, name: string, path: string, n: int, lo: int, inc: int, max: int) returns (acc: Acc)
    requires Lower(name) in ScriptDbs && (0 < n && lo <= max ==> inc >= 1)
    ensures acc == TrialsSpec(out, t, name, path, 0, n, lo, inc, max)
  {
    acc := Nothing;
    var trial := 0;
    while trial < n
      invariant acc.err.None? && Then(acc, TrialsSpec(out, t, name, path, trial, n, lo, inc, max)) == TrialsSpec(out, t, name, path, 0, n, lo, inc, max)
      decreases n - trial
    {
      var sweep := Sweep(out, t, name, path, trial, lo, inc, max);
      ThenAssoc(acc, sweep, TrialsSpec(out, t, name, path, trial + 1, n, lo, inc, max));
      acc := Then(acc, sweep);
      if sweep.err.Some? {
        return;
      }
      trial := trial + 1;
    }
  }

  /** All of `rows` have a positive runtime, an MPL of the sweep from `lo`, and a trial from `a` to `b - 1`. */
  ghost predicate AllSwept(rows: seq<Stats>, lo: int, inc: int, max: int, a: int, b: int)
    requires lo <= max ==> inc >= 1
  {
    forall i :: 0 <= i < |rows| ==>
      rows[i].runtime > 0.0 && rows[i].mpl in RunProperties.Sweep(lo, inc, max) && a <= rows[i].trial < b
  }

  lemma AllSweptAppend(x: seq<Stats>, y: seq<Stats>, lo: int, inc: int, max: int, a: int, b: int)
    requires lo <= max ==> inc >= 1
    requires AllSwept(x, lo, inc, max, a, b) && AllSwept(y, lo, inc, max, a, b)
    ensures AllSwept(x + y, lo, inc, max, a, b)
  {
    assert forall i :: 0 <= i < |x + y| ==> (x + y)[i] == if i < |x| then x[i] else y[i - |x|];
  }

  /** A step keeps at most one record, with a positive runtime and the step's MPL and trial. */
  lemma StepRows(out: Output, t: nat, name: string, path: string, trial: int, mpl: int)
    requires Lower(name) in ScriptDbs
    ensures var rows := StepSpec(out, t, name, path, trial, mpl).rows;
      |rows| <= 1 && forall i :: 0 <= i < |rows| ==> rows[i].runtime > 0.0 && rows[i].mpl == mpl && rows[i].trial == trial
  {
  }

  lemma AllSweptShift(rows: seq<Stats>, mpl: int, inc: int, max: int, a: int, b: int)
    requires mpl <= max && inc >= 1 && AllSwept(rows, mpl + inc, inc, max, a, b)
    ensures AllSwept(rows, mpl, inc, max, a, b)
  {
    assert RunProperties.Sweep(mpl, inc, max) == [mpl] + RunProperties.Sweep(mpl + inc, inc, max);
  }

  lemma StepSwept(out: Output, t: nat, name: string, path: string, trial: int, mpl: int, inc: int, max: int)
    requires Lower(name) in ScriptDbs && mpl <= max && inc >= 1
    ensures AllSwept(StepSpec(out, t, name, path, trial, mpl).rows, mpl, inc, max, trial, trial + 1)
  {
    StepRows(out, t, name, path, trial, mpl);
    assert RunProperties.Sweep(mpl, inc, max) == [mpl] + RunProperties.Sweep(mpl + inc, inc, max);
  }

  /** Every record the MPL loop keeps has a positive runtime and carries the loop's trial and one of its MPLs. */
  lemma {:induction false} SweepRows(out: Output, t: nat, name: string, path: string, trial: int, mpl: int, inc: int, max: int)
    requires Lower(name) in ScriptDbs && (mpl <= max ==> inc >= 1)
    ensures AllSwept(SweepSpec(out, t, name, path, trial, mpl, inc, max).rows, mpl, inc, max, trial, trial + 1)
    decreases if mpl <= max then max - mpl + 1 else 0
  {
    if mpl <= max {
      var step := StepSpec(out, t, name, path, trial, mpl);
      var rest := SweepSpec(out, t, name, path, trial, mpl + inc, inc, max);
      assert SweepSpec(out, t, name, path, trial, mpl, inc, max) == Then(step, rest);
      SweepRows(out, t, name, path, trial, mpl + inc, inc, max);
      AllSweptShift(rest.rows, mpl, inc, max, trial, trial + 1);
      StepSwept(out, t, name, path, trial, mpl, inc, max);
      AllSweptAppend(step.rows, rest.rows, mpl, inc, max, trial, trial + 1);
    }
  }

  /**
   * Trials are numbered from 0: every record the trial loop keeps has a
   * positive runtime, a trial in 0..trials-1 and an MPL of the sweep.
   */
  lemma {:induction false} TrialsRows(out: Output, t: nat, name: string, path: string, trial: int, n: int, lo: int, inc: int, max: int)
    requires Lower(name) in ScriptDbs && (trial < n && lo <= max ==> inc >= 1)
    ensures trial < n ==> AllSwept(TrialsSpec(out, t, name, path, trial, n, lo, inc, max).rows, lo, inc, max, trial, n)
    ensures trial >= n ==> TrialsSpec(out, t, name, path, trial, n, lo, inc, max).rows == []
    decreases n - trial
  {
    if trial < n {
      var sweep := SweepSpec(out, t, name, path, trial, lo, inc, max);
      var rest := TrialsSpec(out, t, name, path, trial + 1, n, lo, inc, max);
      assert TrialsSpec(out, t, name, path, trial, n, lo, inc, max) == Then(sweep, rest);
      SweepRows(out, t, name, path, trial, lo, inc, max);
      TrialsRows(out, t, name, path, trial + 1, n, lo, inc, max);
      AllSweptAppend(sweep.rows, rest.rows, lo, inc, max, trial, n);
    }
  }

  // ---------------------------------------------------------------------
  // Averages

  /** The sum of the kept scores at `mpl` (ycsb_runner.py:242-244). */
  function ScoreSum(rows: seq<Stats>, mpl: int): real {
    if rows == [] then 0.0
    else ScoreSum(rows[..|rows| - 1], mpl) + (if rows[|rows| - 1].mpl == mpl then rows[|rows| - 1].score else 0.0)
  }

  /** The MPLs of the kept records. */
  function MplsOf(rows: seq<Stats>): set<int> {
    set i | 0 <= i < |rows| :: rows[i].mpl
  }

  /** An MPL no record has sums to the 0 a `defaultdict(float)` starts from. */
  lemma {:induction false} ScoreSumAbsent(rows: seq<Stats>, mpl: int)
    requires mpl !in MplsOf(rows)
    ensures ScoreSum(rows, mpl) == 0.0
  {
    if rows != [] {
      var init := rows[..|rows| - 1];
      assert MplsOf(init) <= MplsOf(rows) by {
        forall m | m in MplsOf(init) ensures m in MplsOf(rows) {
          var i :| 0 <= i < |init| && init[i].mpl == m;
          assert rows[i].mpl == m;
        }
      }
      ScoreSumAbsent(init, mpl);
      assert rows[|rows| - 1].mpl in MplsOf(rows);
    }
  }

  lemma MplsNext(rows: seq<Stats>, i: nat)
    requires i < |rows|
    ensures MplsOf(rows[..i + 1]) == MplsOf(rows[..i]) + {rows[i].mpl}
  {
    var a, b := rows[..i + 1], rows[..i];
    forall m | m in MplsOf(a) ensures m in MplsOf(b) + {rows[i].mpl} {
      var j :| 0 <= j < |a| && a[j].mpl == m;
      if j < i { assert b[j].mpl == m; }
    }
    forall m | m in MplsOf(b) ensures m in MplsOf(a) {
      var j :| 0 <= j < |b| && b[j].mpl == m;
      assert a[j].mpl == m;
    }
    assert a[i].mpl == rows[i].mpl;
  }

  /** `scores[stat['mpl']] += stat['score']` over the kept records (ycsb_runner.py:241-244): one sum per MPL that kept a record. */
  method SumScores(rows: seq<Stats>) returns (sums: map<int, real>)
    ensures sums.Keys == MplsOf(rows)
    ensures forall m :: m in sums ==> sums[m] == ScoreSum(rows, m)
  {
    sums := map[];
    for i := 0 to |rows|
      invariant sums.Keys == MplsOf(rows[..i])
      invariant forall m :: m in sums ==> sums[m] == ScoreSum(rows[..i], m)
    {
      var m := rows[i].mpl;
      if m !in sums {
        ScoreSumAbsent(rows[..i], m);
      }
      var total := if m in sums then sums[m] else 0.0;
      assert rows[..i + 1][..i] == rows[..i];
      sums := sums[m := total + rows[i].score];
      MplsNext(rows, i);
    }
    assert rows[..|rows|] == rows;
  }

  /**
   * The `scores` dict (ycsb_runner.py:241-247): one entry per MPL that
   * kept a record, the sum of that MPL's scores divided by `trials`, not
   * by the number of records kept at it.
   */
  method Averages(rows: seq<Stats>, trials: int) returns (scores: map<int, real>)
    requires rows == [] || trials != 0
    ensures scores.Keys == MplsOf(rows)
    ensures forall m :: m in scores ==> scores[m] == ScoreSum(rows, m) / trials as real
  {
    scores := SumScores(rows);
    var todo := scores.Keys;
    while todo != {}
      invariant todo <= scores.Keys && scores.Keys == MplsOf(rows)
      invariant forall m :: m in scores ==> scores[m] == if m in todo then ScoreSum(rows, m) else ScoreSum(rows, m) / trials as real
      decreases |todo|
    {
      SomeIn(todo);
      var m :| m in todo;
      assert rows != [];
      scores := scores[m := scores[m] / trials as real];
      todo := todo - {m};
    }
  }

  /** A record with score 1 kept at MPL 4 in one of two trials averages to 0.5, not to 1. */
  lemma AverageByTrials()
    ensures var rows := [Zero.(runtime := 1.0, mpl := 4, trial := 0, score := 1.0)];
      MplsOf(rows) == {4} && ScoreSum(rows, 4) / 2 as real == 0.5
  {
    var rows := [Zero.(runtime := 1.0, mpl := 4, trial := 0, score := 1.0)];
    assert rows[..0] == [];
    assert rows[0].mpl == 4;
  }

  predicate Increasing(ks: seq<int>) {
    forall i, j :: 0 <= i < j < |ks| ==> ks[i] < ks[j]
  }

  /** A set of MPLs with no element is empty. */
  lemma SomeIn(s: set<int>)
    ensures (forall x :: x !in s) ==> s == {}
  {
    if forall x :: x !in s {
      assert forall x :: x in s <==> x in {};
    }
  }

  lemma {:induction false} MinExists(s: set<int>)
    requires s != {}
    ensures exists m :: m in s && forall y :: y in s ==> m <= y
    decreases |s|
  {
    SomeIn(s);
    var x :| x in s;
    var rest := s - {x};
    if rest == {} {
      forall y | y in s ensures x <= y {
        assert y !in rest;
      }
    } else {
      MinExists(rest);
      var m :| m in rest && forall y :: y in rest ==> m <= y;
      var k := if x < m then x else m;
      forall y | y in s ensures k <= y {
        if y != x {
          assert y in rest;
        }
      }
      assert k in s;
    }
  }

  /** `sorted()` of a set of MPLs. */
  ghost function SortedMpls(s: set<int>): seq<int>
    decreases |s|
  {
    if s == {} then []
    else
      MinExists(s);
      var m :| m in s && forall y :: y in s ==> m <= y;
      [m] + SortedMpls(s - {m})
  }

  /** `sorted()` gives the MPLs in strictly ascending order, each once. */
  lemma {:induction false} SortedMplsShape(s: set<int>)
    ensures Increasing(SortedMpls(s))
    ensures forall x :: x in SortedMpls(s) <==> x in s
    decreases |s|
  {
    if s != {} {
      MinExists(s);
      var m :| m in s && forall y :: y in s ==> m <= y;
      SortedMplsMin(s, m);
      SortedMplsShape(s - {m});
      var rest := SortedMpls(s - {m});
      forall i | 0 <= i < |rest|
        ensures m < rest[i]
      {
        assert rest[i] in rest;
        assert rest[i] in s - {m};
      }
      var r := [m] + rest;
      forall i, j | 0 <= i < j < |r|
        ensures r[i] < r[j]
      {
        if i > 0 {
          assert r[i] == rest[i - 1] && r[j] == rest[j - 1];
        }
      }
    }
  }

  /** Whichever smallest MPL `sorted()` takes first, it is the one. */
  lemma SortedMplsMin(s: set<int>, m: int)
    requires m in s && forall y :: y in s ==> m <= y
    ensures SortedMpls(s) == [m] + SortedMpls(s - {m})
  {
  }

  lemma SortedMplsNext(ks: seq<int>, todo: set<int>, m: int, all: set<int>)
    requires ks + SortedMpls(todo) == SortedMpls(all)
    requires m in todo && forall y :: y in todo ==> m <= y
    ensures (ks + [m]) + SortedMpls(todo - {m}) == SortedMpls(all)
  {
    SortedMplsMin(todo, m);
  }

  /** A row of the averages file (ycsb_runner.py:292-303). */
  datatype AvgRow = AvgRow(db: string, mpl: int, avgScore: real, numTrials: int)

  /** The rows for the MPLs `ks`, in that order. */
  function RowsOf(db: string, ks: seq<int>, scores: map<int, real>, trials: int): seq<AvgRow>
    requires forall i :: 0 <= i < |ks| ==> ks[i] in scores
  {
    seq(|ks|, i requires 0 <= i < |ks| => AvgRow(db, ks[i], scores[ks[i]], trials))
  }

  lemma RowsOfNext(db: string, ks: seq<int>, m: int, scores: map<int, real>, trials: int)
    requires forall i :: 0 <= i < |ks| ==> ks[i] in scores
    requires m in scores
    ensures RowsOf(db, ks + [m], scores, trials) == RowsOf(db, ks, scores, trials) + [AvgRow(db, m, scores[m], trials)]
  {
  }

  /**
   * The averages rows: one per MPL of `scores`, in ascending MPL order,
   * each with that MPL's average and `trials`.
   */
  ghost function AvgRows(db: string, scores: map<int, real>, trials: int): seq<AvgRow> {
    SortedMplsShape(scores.Keys);
    RowsOf(db, SortedMpls(scores.Keys), scores, trials)
  }

  /** The averages rows ascend strictly by MPL and hold every MPL of `scores` with its average and `trials`. */
  lemma AvgRowsShape(db: string, scores: map<int, real>, trials: int)
    ensures var r := AvgRows(db, scores, trials);
      (forall i, j :: 0 <= i < j < |r| ==> r[i].mpl < r[j].mpl) &&
      (forall i :: 0 <= i < |r| ==> r[i].mpl in scores && r[i] == AvgRow(db, r[i].mpl, scores[r[i].mpl], trials)) &&
      (forall m :: m in scores ==> exists i :: 0 <= i < |r| && r[i].mpl == m)
  {
    var ks := SortedMpls(scores.Keys);
    var r := AvgRows(db, scores, trials);
    SortedMplsShape(scores.Keys);
    forall m | m in scores
      ensures exists i :: 0 <= i < |r| && r[i].mpl == m
    {
      assert m in ks;
      var i :| 0 <= i < |ks| && ks[i] == m;
      assert r[i].mpl == m;
    }
  }

  /** `for mpl, avg in sorted(scores.items())`: the rows written in ascending MPL order (ycsb_runner.py:297-303). */
  method AverageRows(db: string, scores: map<int, real>, trials: int) returns (rows: seq<AvgRow>)
    ensures rows == AvgRows(db, scores, trials)
  {
    var todo := scores.Keys;
    ghost var ks: seq<int> := [];
    rows := [];
    while todo != {}
      invariant todo <= scores.Keys && (forall i :: 0 <= i < |ks| ==> ks[i] in scores)
      invariant ks + SortedMpls(todo) == SortedMpls(scores.Keys)
      invariant rows == RowsOf(db, ks, scores, trials)
      decreases |todo|
    {
      MinExists(todo);
      var m :| m in todo && forall y :: y in todo ==> m <= y;
      SortedMplsNext(ks, todo, m, scores.Keys);
      RowsOfNext(db, ks, m, scores, trials);
      rows := rows + [AvgRow(db, m, scores[m], trials)];
      ks := ks + [m];
      todo := todo - {m};
    }
    assert ks == SortedMpls(scores.Keys);
  }

  // ---------------------------------------------------------------------
  // Sections and the script

  /** The options a section is read for (ycsb_runner.py:126-138). */
  datatype Settings = Settings(trials: int, minMpl: int, maxMpl: int, incMpl: int, output: string, workload: string, outputPlots: bool)

  function ErrorOf<T>(x: Result<T, IniError>): Option<IniError> {
    if x.Err? then Some(x.error) else None
  }

  function OrElse(a: Option<IniError>, b: Option<IniError>): Option<IniError> {
    if a.Some? then a else b
  }

  /** The error of the first of the seven reads that raises, in the order the script makes them. */
  function FirstReadError(ini: Ini, db: string): Option<IniError> {
    OrElse(ErrorOf(GetInt(ini, db, "trials")), OrElse(ErrorOf(GetInt(ini, db, "min_mpl")), OrElse(ErrorOf(GetInt(ini, db, "max_mpl")),
    OrElse(ErrorOf(GetInt(ini, db, "inc_mpl")), OrElse(ErrorOf(Get(ini, db, "output")), OrElse(ErrorOf(Get(ini, db, "workload")),
    ErrorOf(GetBoolean(ini, db, "output_plots"))))))))
  }

  /**
   * The seven reads, in the order the script makes them; the first that
   * raises ends the script. `output` is lower-cased and not stripped.
   */
  function ReadSettings(ini: Ini, db: string): (r: Result<Settings, IniError>)
    ensures r.Ok? ==>
      GetInt(ini, db, "trials") == Ok(r.value.trials) && GetInt(ini, db, "min_mpl") == Ok(r.value.minMpl) &&
      GetInt(ini, db, "max_mpl") == Ok(r.value.maxMpl) && GetInt(ini, db, "inc_mpl") == Ok(r.value.incMpl) &&
      Get(ini, db, "output").Ok? && r.value.output == Lower(Get(ini, db, "output").value) &&
      Get(ini, db, "workload") == Ok(r.value.workload) && GetBoolean(ini, db, "output_plots") == Ok(r.value.outputPlots)
  {
    match GetInt(ini, db, "trials")
    case Err(e) => Err(e)
    case Ok(trials) =>
    match GetInt(ini, db, "min_mpl")
    case Err(e) => Err(e)
    case Ok(minMpl) =>
    match GetInt(ini, db, "max_mpl")
    case Err(e) => Err(e)
    case Ok(maxMpl) =>
    match GetInt(ini, db, "inc_mpl")
    case Err(e) => Err(e)
    case Ok(incMpl) =>
    match Get(ini, db, "output")
    case Err(e) => Err(e)
    case Ok(output) =>
    match Get(ini, db, "workload")
    case Err(e) => Err(e)
    case Ok(workload) =>
    match GetBoolean(ini, db, "output_plots")
    case Err(e) => Err(e)
    case Ok(plots) => Ok(Settings(trials, minMpl, maxMpl, incMpl, Lower(output), workload, plots))
  }

  /** The section's reads raise exactly when one of them does, and then with the first read's error. */
  lemma ReadSettingsFails(ini: Ini, db: string)
    ensures ReadSettings(ini, db).Err? <==> FirstReadError(ini, db).Some?
    ensures ReadSettings(ini, db).Err? ==> ReadSettings(ini, db).error == FirstReadError(ini, db).value
  {
  }

  /** What one supported section wrote: its kept records and its average rows. */
  datatype Written = Written(db: string, rows: seq<Stats>, averages: seq<AvgRow>)

  /** How the script ends: normally, by `sys.exit`, by an exception, or never (a sweep that does not end). */
  datatype Outcome = Finished | Exited(code: int) | Raised(error: ScriptError) | Hangs

  /** The commands the script ran, what it wrote, and how it ended. */
  datatype Run = Run(calls: seq<seq<string>>, written: seq<Written>, end: Outcome)

  /** `a` and then, unless `a` ended the script, `b`. */
  function Join(a: Run, b: Run): (r: Run)
    ensures a.end != Finished ==> r == a
    ensures a.end == Finished ==> r.calls == a.calls + b.calls && r.written == a.written + b.written && r.end == b.end
  {
    if a.end != Finished then a else Run(a.calls + b.calls, a.written + b.written, b.end)
  }

  lemma JoinAssoc(a: Run, b: Run, c: Run)
    ensures Join(Join(a, b), c) == Join(a, Join(b, c))
  {
  }

  /** The sum per MPL divided by `trials`, for every MPL with a kept record. */
  function ScoreMap(rows: seq<Stats>, trials: int): map<int, real>
    requires rows == [] || trials != 0
  {
    map m | m in MplsOf(rows) :: ScoreSum(rows, m) / trials as real
  }

  /** The sweep of a section ends, or its trial loop never starts. */
  predicate Ends(st: Settings) {
    0 < st.trials && st.minMpl <= st.maxMpl ==> st.incMpl >= 1
  }

  /** The trial loop of a supported section whose sweep ends. */
  function SectionTrials(out: Output, t: nat, name: string, cwd: string, st: Settings): Acc
    requires Lower(name) in ScriptDbs && Ends(st)
  {
    TrialsSpec(out, t, name, DbSystems.PathJoin(cwd, st.workload), 0, st.trials, st.minMpl, st.incMpl, st.maxMpl)
  }

  /**
   * One section (ycsb_runner.py:118-303): skipped when its lower-cased
   * name is not supported; the reads; an exit for any output other than
   * "csv"; the trials; the averages; the `assert` that some record was
   * kept; the rows. The `db` written is lower-case, as the first step
   * lowered the loop variable.
   */
  ghost function SectionSpec(ini: Ini, cwd: string, out: Output, t: nat): Run
    requires t < |ini.sections|
  {
    var name := ini.sections[t].0;
    if Lower(name) !in ScriptDbs then Run([], [], Finished)
    else match ReadSettings(ini, name)
      case Err(e) => Run([], [], Raised(ConfigError(e)))
      case Ok(st) => SettingsRun(out, t, name, cwd, st)
  }

  /** A supported section once its settings `st` are read. */
  ghost function SettingsRun(out: Output, t: nat, name: string, cwd: string, st: Settings): Run
    requires Lower(name) in ScriptDbs
  {
    if st.output !in SupportedOutputs then Run([], [], Exited(1))
    else if !Ends(st) then Run([], [], Hangs)
    else
      var acc := SectionTrials(out, t, name, cwd, st);
      if acc.err.Some? then Run(acc.calls, [], Raised(acc.err.value))
      else if acc.rows == [] then Run(acc.calls, [], Raised(AssertionFailed))
      else
        TrialsRows(out, t, name, DbSystems.PathJoin(cwd, st.workload), 0, st.trials, st.minMpl, st.incMpl, st.maxMpl);
        Run(acc.calls, [Written(Lower(name), acc.rows, AvgRows(Lower(name), ScoreMap(acc.rows, st.trials), st.trials))], Finished)
  }

  /** What each section does on its own, in the order of the configuration file. */
  ghost function Sections(ini: Ini, cwd: string, out: Output): (rs: seq<Run>)
    ensures |rs| == |ini.sections|
  {
    seq(|ini.sections|, i requires 0 <= i < |ini.sections| => SectionSpec(ini, cwd, out, i))
  }

  /** The runs `rs` one after the other, up to the first that ends the script. */
  function JoinAll(rs: seq<Run>): Run {
    if rs == [] then Run([], [], Finished) else Join(rs[0], JoinAll(rs[1..]))
  }

  /** One of the runs `rs` wrote `w`. */
  ghost predicate WrittenIn(rs: seq<Run>, w: Written) {
    exists i, j :: 0 <= i < |rs| && 0 <= j < |rs[i].written| && w == rs[i].written[j]
  }

  lemma WrittenInTail(rs: seq<Run>, w: Written)
    requires rs != [] && WrittenIn(rs[1..], w)
    ensures WrittenIn(rs, w)
  {
    var i, j :| 0 <= i < |rs[1..]| && 0 <= j < |rs[1..][i].written| && w == rs[1..][i].written[j];
    assert rs[i + 1] == rs[1..][i];
  }

  /** Whatever the joined runs write, one of them wrote. */
  lemma {:induction false} JoinAllWritten(rs: seq<Run>)
    ensures forall k :: 0 <= k < |JoinAll(rs).written| ==> WrittenIn(rs, JoinAll(rs).written[k])
  {
    if rs != [] {
      JoinAllWritten(rs[1..]);
      var r := JoinAll(rs);
      var rest := JoinAll(rs[1..]);
      forall k | 0 <= k < |r.written|
        ensures WrittenIn(rs, r.written[k])
      {
        if k < |rs[0].written| {
          assert r.written[k] == rs[0].written[k];
        } else {
          assert r.written[k] == rest.written[k - |rs[0].written|];
          WrittenInTail(rs, r.written[k]);
        }
      }
    }
  }

  /** The joined runs end the way one of them ends, unless all finish. */
  lemma {:induction false} JoinAllEnd(rs: seq<Run>)
    ensures JoinAll(rs).end != Finished ==> exists i :: 0 <= i < |rs| && rs[i].end == JoinAll(rs).end
  {
    if rs != [] && rs[0].end == Finished {
      JoinAllEnd(rs[1..]);
      if JoinAll(rs).end != Finished {
        var i :| 0 <= i < |rs[1..]| && rs[1..][i].end == JoinAll(rs[1..]).end;
        assert rs[i + 1] == rs[1..][i];
      }
    }
  }

  /** The section loop (ycsb_runner.py:118). */
  ghost function Script(ini: Ini, cwd: string, out: Output): Run {
    JoinAll(Sections(ini, cwd, out))
  }

  /** One section of the script. */
  method RunSection(ini: Ini, cwd: string, out: Output, t: nat) returns (r: Run)
    requires t < |ini.sections|
    ensures r == SectionSpec(ini, cwd, out, t)
  {
    var name := ini.sections[t].0;
    if Lower(name) !in ScriptDbs {
      return Run([], [], Finished);
    }
    var settings := ReadSettings(ini, name);
    if settings.Err? {
      return Run([], [], Raised(ConfigError(settings.error)));
    }
    r := RunSettings(out, t, name, cwd, settings.value);
  }

  /** A supported section once its settings are read. */
  method RunSettings(out: Output, t: nat, name: string, cwd: string, st: Settings) returns (r: Run)
    requires Lower(name) in ScriptDbs
    ensures r == SettingsRun(out, t, name, cwd, st)
  {
    var path := DbSystems.PathJoin(cwd, st.workload);
    if st.output !in SupportedOutputs {
      return Run([], [], Exited(1));
    }
    if !Ends(st) {
      return Run([], [], Hangs);
    }
    var acc := Trials(out, t, name, path, st.trials, st.minMpl, st.incMpl, st.maxMpl);
    if acc.err.Some? {
      return Run(acc.calls, [], Raised(acc.err.value));
    }
    TrialsRows(out, t, name, path, 0, st.trials, st.minMpl, st.incMpl, st.maxMpl);
    var scores := Averages(acc.rows, st.trials);
    if |acc.rows| == 0 {
      return Run(acc.calls, [], Raised(AssertionFailed));
    }
    assert scores == ScoreMap(acc.rows, st.trials);
    var db := Lower(name);
    var averages := AverageRows(db, scores, st.trials);
    r := Run(acc.calls, [Written(db, acc.rows, averages)], Finished);
  }

  /** The whole script over the configuration `ini`, the working directory `cwd` and the runs' output `out`. */
  method RunScript(ini: Ini, cwd: string, out: Output) returns (r: Run)
    ensures r == Script(ini, cwd, out)
  {
    ghost var rs := Sections(ini, cwd, out);
    r := Run([], [], Finished);
    var t := 0;
    while t < |ini.sections|
      invariant t <= |ini.sections| && r.end == Finished
      invariant Join(r, JoinAll(rs[t..])) == JoinAll(rs)
      decreases |ini.sections| - t
    {
      var section := RunSection(ini, cwd, out, t);
      assert rs[t..][1..] == rs[t + 1..];
      JoinAssoc(r, section, JoinAll(rs[t + 1..]));
      r := Join(r, section);
      if r.end != Finished {
        return;
      }
      t := t + 1;
    }
  }

  /**
   * What a written section holds, for the settings `st` it was read with:
   * a supported lower-case name; kept records only, each with an MPL of
   * the sweep and a trial in range; and the average rows in ascending MPL
   * order, one per MPL of the records, each the sum of its scores over
   * `trials`.
   */
  ghost predicate WrittenFor(w: Written, st: Settings) {
    w.db in ScriptDbs && w.rows != [] && 0 < st.trials && Ends(st) &&
    AllSwept(w.rows, st.minMpl, st.incMpl, st.maxMpl, 0, st.trials) &&
    (forall i, j :: 0 <= i < j < |w.averages| ==> w.averages[i].mpl < w.averages[j].mpl) &&
    (forall i :: 0 <= i < |w.averages| ==>
      w.averages[i].mpl in MplsOf(w.rows) &&
      w.averages[i] == AvgRow(w.db, w.averages[i].mpl, ScoreSum(w.rows, w.averages[i].mpl) / st.trials as real, st.trials)) &&
    (forall k :: 0 <= k < |w.rows| ==> exists i :: 0 <= i < |w.averages| && w.averages[i].mpl == w.rows[k].mpl)
  }

  /** The record and average rows a section writes from the records `rows` it kept are `WrittenFor` its settings. */
  lemma WrittenFromRows(db: string, rows: seq<Stats>, st: Settings)
    requires db in ScriptDbs && rows != [] && 0 < st.trials && Ends(st)
    requires AllSwept(rows, st.minMpl, st.incMpl, st.maxMpl, 0, st.trials)
    ensures WrittenFor(Written(db, rows, AvgRows(db, ScoreMap(rows, st.trials), st.trials)), st)
  {
    var scores := ScoreMap(rows, st.trials);
    var w := Written(db, rows, AvgRows(db, scores, st.trials));
    AvgRowsShape(db, scores, st.trials);
    forall k | 0 <= k < |rows|
      ensures exists i :: 0 <= i < |w.averages| && w.averages[i].mpl == rows[k].mpl
    {
      assert rows[k].mpl in MplsOf(rows);
      assert rows[k].mpl in scores;
    }
  }

  /** A section writes at most once, only after reading its settings, and then what it writes is `WrittenFor` them; a supported section that finishes always writes. */
  lemma SectionWritten(ini: Ini, cwd: string, out: Output, t: nat)
    requires t < |ini.sections|
    ensures var name := ini.sections[t].0; var r := SectionSpec(ini, cwd, out, t);
      |r.written| <= 1 &&
      (r.written != [] ==> r.end == Finished && ReadFor(ini, t, r.written[0])) &&
      (r.end == Finished && Lower(name) in ScriptDbs ==> r.written != [])
  {
    var name := ini.sections[t].0;
    var r := SectionSpec(ini, cwd, out, t);
    if r.written != [] {
      var st := ReadSettings(ini, name).value;
      var acc := SectionTrials(out, t, name, cwd, st);
      TrialsRows(out, t, name, DbSystems.PathJoin(cwd, st.workload), 0, st.trials, st.minMpl, st.incMpl, st.maxMpl);
      LowerTwice(name);
      WrittenFromRows(Lower(name), acc.rows, st);
    }
  }
  /** Section `s` is supported, read, and asks for an output other than "csv". */
  ghost predicate BadOutput(ini: Ini, s: nat)
    requires s < |ini.sections|
  {
    var name := ini.sections[s].0;
    Lower(name) in ScriptDbs && ReadSettings(ini, name).Ok? && ReadSettings(ini, name).value.output !in SupportedOutputs
  }

  /** Section `s` is supported, read, asks for "csv", and sweeps with a step that never reaches `max_mpl`. */
  ghost predicate Endless(ini: Ini, s: nat)
    requires s < |ini.sections|
  {
    var name := ini.sections[s].0;
    Lower(name) in ScriptDbs && ReadSettings(ini, name).Ok? &&
    ReadSettings(ini, name).value.output in SupportedOutputs && !Ends(ReadSettings(ini, name).value)
  }

  /** Section `s` was read, and `w` is `WrittenFor` its settings. */
  ghost predicate ReadFor(ini: Ini, s: nat, w: Written)
    requires s < |ini.sections|
  {
    ReadSettings(ini, ini.sections[s].0).Ok? && WrittenFor(w, ReadSettings(ini, ini.sections[s].0).value)
  }

  /** Some section was read with settings that `w` is `WrittenFor`. */
  ghost predicate WrittenBySome(ini: Ini, w: Written) {
    exists s :: 0 <= s < |ini.sections| && ReadFor(ini, s, w)
  }

  /** Every section the script writes is `WrittenFor` the settings of a section it read. */
  lemma ScriptWritten(ini: Ini, cwd: string, out: Output)
    ensures var r := Script(ini, cwd, out);
      forall k :: 0 <= k < |r.written| ==> WrittenBySome(ini, r.written[k])
  {
    var rs := Sections(ini, cwd, out);
    var r := Script(ini, cwd, out);
    JoinAllWritten(rs);
    forall k | 0 <= k < |r.written|
      ensures WrittenBySome(ini, r.written[k])
    {
      assert WrittenIn(rs, r.written[k]);
      var i, j :| 0 <= i < |rs| && 0 <= j < |rs[i].written| && r.written[k] == rs[i].written[j];
      SectionWritten(ini, cwd, out, i);
      assert rs[i] == SectionSpec(ini, cwd, out, i) && j == 0;
      assert ReadFor(ini, i, r.written[k]);
    }
  }

  /** A supported section with settings `st` exits with status 1 only for an output other than "csv", and hangs only when its sweep does not end. */
  lemma SettingsRunEnds(out: Output, t: nat, name: string, cwd: string, st: Settings)
    requires Lower(name) in ScriptDbs
    ensures var e := SettingsRun(out, t, name, cwd, st).end;
      (e.Exited? ==> e.code == 1 && st.output !in SupportedOutputs) &&
      (e == Hangs ==> st.output in SupportedOutputs && !Ends(st))
  {
  }

  /** How a section itself can end the script: an exit with status 1 for an unsupported output, or a sweep that never ends. */
  lemma SectionEnds(ini: Ini, cwd: string, out: Output, t: nat)
    requires t < |ini.sections|
    ensures var e := SectionSpec(ini, cwd, out, t).end;
      (e.Exited? ==> e.code == 1 && BadOutput(ini, t)) && (e == Hangs ==> Endless(ini, t))
  {
    var name := ini.sections[t].0;
    if Lower(name) in ScriptDbs && ReadSettings(ini, name).Ok? {
      SettingsRunEnds(out, t, name, cwd, ReadSettings(ini, name).value);
    }
  }

  /** The script exits only with status 1, and only for a section with an unsupported output. */
  lemma ScriptExits(ini: Ini, cwd: string, out: Output)
    ensures var e := Script(ini, cwd, out).end;
      e.Exited? ==> e.code == 1 && exists s :: 0 <= s < |ini.sections| && BadOutput(ini, s)
  {
    var rs := Sections(ini, cwd, out);
    JoinAllEnd(rs);
    if Script(ini, cwd, out).end.Exited? {
      var i :| 0 <= i < |rs| && rs[i].end == Script(ini, cwd, out).end;
      SectionEnds(ini, cwd, out, i);
    }
  }

  /** The script runs forever only for a section whose sweep never ends. */
  lemma ScriptHangs(ini: Ini, cwd: string, out: Output)
    ensures Script(ini, cwd, out).end == Hangs ==> exists s :: 0 <= s < |ini.sections| && Endless(ini, s)
  {
    var rs := Sections(ini, cwd, out);
    JoinAllEnd(rs);
    if Script(ini, cwd, out).end == Hangs {
      var i :| 0 <= i < |rs| && rs[i].end == Hangs;
      SectionEnds(ini, cwd, out, i);
    }
  }
}
