/**
 * `Runner.run` and `__run_hooks` (src/runner/runner.py:35-69, 188-198).
 *
 * For every target in order the run fires the lifecycle hooks, copies the
 * configuration files, and then, for trials 1..trials and MPLs min_mpl,
 * min_mpl + inc_mpl, ... up to max_mpl, cleans the database, loads and runs
 * YCSB, and appends one record of extracted statistics stamped with the
 * MPL and the trial. Any error ends the whole run.
 *
 * The outside world is an `Oracle`: the clean command's exit status and
 * the YCSB run's output for each (target, trial, MPL). Hooks are named
 * callables whose calls the trace records; a target is named by its
 * position in `dbs`.
 */
module Runners {
  import opened Wrappers
  import opened Text
  import opened Stats
  import opened DbSystems
  import opened Extraction
  import opened Constants
  import RunnerSetup

  /** What a hook is called with: a number (trial or MPL), or a target. */
  datatype HookArg = IntArg(n: int) | DbArg(t: nat)

  /** What the run does that the model observes, in order. */
  datatype Event =
    | HookCall(loc: string, hook: string, args: seq<HookArg>)
    | ConfigCopied(t: nat, dest: string)
    | WorkloadCopied(t: nat, src: string, dest: string)
    | Cleaned(t: nat, cmd: seq<string>)
    | Loaded(t: nat, cmd: seq<string>)
    | Ran(t: nat, cmd: seq<string>)
    | Appended(t: nat, mpl: int, trial: int)
    | Exported(t: nat)
    | CleanedUp(t: nat)

  /** `self.__hooks`: each location's hooks in call order. */
  type Hooks = map<string, seq<string>>

  /**
   * `__run_hooks(location, *args)`: every hook of the upper-cased
   * location, in order, called with `args`; nothing for a location
   * without hooks.
   */
  function HookEvents(hooks: Hooks, location: string, args: seq<HookArg>): (r: seq<Event>)
    ensures Upper(location) !in hooks ==> r == []
    ensures Upper(location) in hooks ==>
      |r| == |hooks[Upper(location)]| &&
      forall i :: 0 <= i < |r| ==> r[i] == HookCall(Upper(location), hooks[Upper(location)][i], args)
  {
    var loc := Upper(location);
    if loc in hooks then seq(|hooks[loc]|, i requires 0 <= i < |hooks[loc]| => HookCall(loc, hooks[loc][i], args))
    else []
  }

  lemma UpperLowerChar(c: char)
    ensures UpperChar(LowerChar(c)) == UpperChar(c)
  {
  }

  /** The location is matched without regard to case: `pre_mpl` reaches the `PRE_MPL` hooks. */
  lemma HookEventsCaseless(hooks: Hooks, location: string, args: seq<HookArg>)
    ensures HookEvents(hooks, Lower(location), args) == HookEvents(hooks, location, args)
  {
    forall i | 0 <= i < |location| ensures Upper(Lower(location))[i] == Upper(location)[i] {
      UpperLowerChar(location[i]);
    }
    assert Upper(Lower(location)) == Upper(location);
  }

  /** Why a run stops early. */
  datatype RunError = DbFailure(db: DbError) | StatsFailure(stats: StatsError)

  /**
   * What the outside world answers for (target, trial, MPL): the clean
   * command's exit status and YCSB's output.
   */
  datatype Oracle = Oracle(exit: (nat, int, int) -> int, output: (nat, int, int) -> string)

  /**
   * The same answers as the run uses them: the exit status, and what
   * `extract_stats` makes of the output.
   */
  datatype World = World(exit: (nat, int, int) -> int, stats: (nat, int, int) -> Result<Record, StatsError>)

  function WorldOf(o: Oracle): World {
    World(o.exit, (t: nat, trial: int, mpl: int) => ExtractSpec(o.output(t, trial, mpl)))
  }

  /** A trigger term only: a proof that mentions `Reached(t, trial, mpl)` may read `Sees` at that step. */
  predicate Reached(t: nat, trial: int, mpl: int) {
    true
  }

  /** `w` is what the run makes of `o`'s answers, read step by step. */
  ghost predicate Sees(o: Oracle, w: World) {
    w.exit == o.exit &&
    forall t: nat, trial: int, mpl: int {:trigger Reached(t, trial, mpl)} ::
      Reached(t, trial, mpl) ==> w.stats(t, trial, mpl) == ExtractSpec(o.output(t, trial, mpl))
  }

  lemma SeesWorldOf(o: Oracle)
    ensures Sees(o, WorldOf(o))
  {
  }

  /**
   * What `run` reads from a target: `trials`; `min_mpl` and `inc_mpl` as
   * `count` takes them; `max_mpl`; the clean command with the name it is
   * filed under; the YCSB binding and the workload path; where the
   * configuration file is copied to; and the workload file's path and
   * where it is copied to.
   */
  datatype View = View(
    configDest: Result<string, DbError>,
    workloadSrc: Result<string, DbError>,
    workloadDest: Result<string, DbError>,
    trials: Result<int, DbError>,
    count: Result<(int, int), DbError>,
    maxMpl: Result<int, DbError>,
    clean: Result<(string, seq<string>), DbError>,
    ycsb: Result<(string, string), DbError>,
    exporter: Result<string, DbError>)

  /** A number attribute: ints, and bools as 0 and 1; anything else raises TypeError where Python does arithmetic on it. */
  function IntAttr(db: DbSystem, name: string): (r: Result<int, DbError>)
    reads db`attrs, db`workloadConfig, db`tempPath, db.config
    ensures db.Attr(name).Err? ==> r == Err(db.Attr(name).error)
    ensures db.Attr(name).Ok? ==> (r.Ok? <==> AsNumber(db.Attr(name).value).Some?)
    ensures r.Ok? ==> r.value == AsNumber(db.Attr(name).value).value
  {
    match db.Attr(name)
    case Err(e) => Err(e)
    case Ok(v) => if AsNumber(v).Some? then Ok(AsNumber(v).value) else Err(DbError.TypeError(name))
  }

  /**
   * `count(start=db.min_mpl, step=db.inc_mpl)`: both attributes are read,
   * then `count` raises one TypeError unless both are numbers.
   */
  function CountArgs(start: Result<CValue, DbError>, step: Result<CValue, DbError>): (r: Result<(int, int), DbError>)
    ensures r.Ok? <==> start.Ok? && step.Ok? && AsNumber(start.value).Some? && AsNumber(step.value).Some?
    ensures r.Ok? ==> r.value == (AsNumber(start.value).value, AsNumber(step.value).value)
  {
    if start.Err? then Err(start.error)
    else if step.Err? then Err(step.error)
    else if AsNumber(start.value).None? || AsNumber(step.value).None? then Err(DbError.TypeError("a number is required"))
    else Ok((AsNumber(start.value).value, AsNumber(step.value).value))
  }

  /** The YCSB binding and the workload path, as the two YCSB command vectors need them. */
  function YcsbParts(db: DbSystem, cwd: string): Result<(string, string), DbError>
    reads db`attrs, db`workloadConfig, db`tempPath, db.config
  {
    match db.AttrStr("dbname")
    case Err(e) => Err(e)
    case Ok(n) =>
      match YcsbDbNameAsWritten(n)
      case Err(e) => Err(e)
      case Ok(b) =>
        match db.WorkloadPath(cwd)
        case Err(e) => Err(e)
        case Ok(path) => Ok((b, path))
  }

  /** A YCSB command vector. */
  function Vector(verb: string, binding: string, workload: string, threads: string): seq<string> {
    ["ycsb", verb, binding, "-P", workload, "-s", "-threads", threads]
  }

  /** Both YCSB commands are the vector over the target's binding and workload path, or the same error. */
  lemma YcsbCommandParts(db: DbSystem, cwd: string, mpl: int)
    ensures YcsbParts(db, cwd).Err? ==>
      db.CmdYcsbLoad(cwd) == Err(YcsbParts(db, cwd).error) && db.CmdYcsbRun(mpl, cwd) == Err(YcsbParts(db, cwd).error)
    ensures YcsbParts(db, cwd).Ok? ==>
      var (b, path) := YcsbParts(db, cwd).value;
      db.CmdYcsbLoad(cwd) == Ok(Vector("load", b, path, "1")) && db.CmdYcsbRun(mpl, cwd) == Ok(Vector("run", b, path, IntToString(mpl)))
  {
  }

  /** What `run` reads from target `db` with working directory `cwd`. */
  function ViewOf(db: DbSystem, cwd: string): View
    reads db`attrs, db`workloadConfig, db`tempPath, db`outdir, db.config
  {
    View(db.FPathSpec("config-{}-{}.ini", cwd), db.WorkloadPath(cwd), db.FPathSpec("workload-{}-{}", cwd),
         IntAttr(db, "trials"), CountArgs(db.Attr("min_mpl"), db.Attr("inc_mpl")), IntAttr(db, "max_mpl"),
         db.CleanCommand(), YcsbParts(db, cwd), db.ExportOutput())
  }

  /**
   * `v` is what `db` shows, field by field. A proof reads a group of
   * fields only by asking `Consulted(k)`: 0 for the clean command and the
   * YCSB parts, 1 for the copies, 2 for the trials and `count`, 3 for
   * `max_mpl`, 4 for the exporter lookup.
   */
  ghost predicate Shows(db: DbSystem, cwd: string, v: View)
    reads db`attrs, db`workloadConfig, db`tempPath, db`outdir, db.config
  {
    forall k {:trigger RunnerSetup.Consulted(k)} :: RunnerSetup.Consulted(k) ==>
      (k == 0 ==> v.clean == db.CleanCommand() && v.ycsb == YcsbParts(db, cwd)) &&
      (k == 1 ==> (v.configDest == db.FPathSpec("config-{}-{}.ini", cwd) && v.workloadSrc == db.WorkloadPath(cwd) &&
                   v.workloadDest == db.FPathSpec("workload-{}-{}", cwd))) &&
      (k == 2 ==> v.trials == IntAttr(db, "trials") && v.count == CountArgs(db.Attr("min_mpl"), db.Attr("inc_mpl"))) &&
      (k == 3 ==> v.maxMpl == IntAttr(db, "max_mpl")) &&
      (k == 4 ==> v.exporter == db.ExportOutput())
  }

  lemma ViewShown(db: DbSystem, cwd: string)
    ensures Shows(db, cwd, ViewOf(db, cwd))
  {
  }

  // ---------------------------------------------------------------------
  // What a stretch of the run does

  /** The events of a stretch of the run, the records it appends, and the error that ends it, if any. */
  datatype Out = Out(events: seq<Event>, recs: seq<Record>, err: Option<RunError>)

  /** `a` and then, unless `a` raised, `b`. */
  function Then(a: Out, b: Out): (r: Out)
    ensures a.err.Some? ==> r == a
    ensures a.err.None? ==> r == Out(a.events + b.events, a.recs + b.recs, b.err)
  {
    if a.err.Some? then a else Out(a.events + b.events, a.recs + b.recs, b.err)
  }

  function Emit(es: seq<Event>): Out {
    Out(es, [], None)
  }

  function Fail(e: RunError): Out {
    Out([], [], Some(e))
  }

  /** Events before a stretch add nothing to its records. */
  lemma ThenEmit(es: seq<Event>, b: Out)
    ensures Then(Emit(es), b) == Out(es + b.events, b.recs, b.err)
  {
    assert [] + b.recs == b.recs;
  }

  lemma ThenAssoc(a: Out, b: Out, c: Out)
    ensures Then(Then(a, b), c) == Then(a, Then(b, c))
  {
  }

  /** `stats.mpl = mpl; stats.trial = trial` through the record's setter. */
  function Stamped(rec: Record, mpl: int, trial: int): Result<Record, StatsError> {
    match SetAttrSpec(TrackedStats, rec, "mpl", I(mpl))
    case Err(e) => Err(e)
    case Ok(r1) => SetAttrSpec(TrackedStats, r1, "trial", I(trial))
  }

  /** Stamping an extracted record never fails, and the record then carries the loop's MPL and trial. */
  lemma StampedCarries(rec: Record, mpl: int, trial: int)
    requires WellTyped(TrackedStats, rec)
    ensures Stamped(rec, mpl, trial).Ok?
    ensures var r := Stamped(rec, mpl, trial).value;
      WellTyped(TrackedStats, r) && r.stats == rec.stats["mpl" := I(mpl)]["trial" := I(trial)] && r.extra == rec.extra
  {
    Constants.StatRulesTracked();
    assert TrackedStats["mpl"] == IntKind && TrackedStats["trial"] == IntKind;
  }

  /**
   * One step (src/runner/runner.py:49-63): clean, whatever `clean_data`
   * says; load; run at `mpl`; extract; stamp; append.
   */
  function StepSpec(v: View, w: World, t: nat, trial: int, mpl: int): Out {
    match v.clean
    case Err(e) => Fail(DbFailure(e))
    case Ok((key, cmd)) =>
      var clean := Emit([Cleaned(t, cmd)]);
      if w.exit(t, trial, mpl) != 0 then Then(clean, Fail(DbFailure(RuntimeError(key))))
      else Then(clean, YcsbSpec(v, w, t, trial, mpl))
  }

  /** Load, run, extract, stamp and append, after a clean that succeeded. */
  function YcsbSpec(v: View, w: World, t: nat, trial: int, mpl: int): Out {
    match v.ycsb
    case Err(e) => Fail(DbFailure(e))
    case Ok((b, path)) =>
      var ycsb := Emit([Loaded(t, Vector("load", b, path, "1")), Ran(t, Vector("run", b, path, IntToString(mpl)))]);
      Then(ycsb, AppendSpec(w.stats(t, trial, mpl), t, trial, mpl))
  }

  /** The record `extract_stats` gave (`ex`), stamped and added with `db.stats.addstats(stats)`. */
  function AppendSpec(ex: Result<Record, StatsError>, t: nat, trial: int, mpl: int): Out {
    match ex
    case Err(e) => Fail(StatsFailure(e))
    case Ok(rec) =>
      match Stamped(rec, mpl, trial)
      case Err(e) => Fail(StatsFailure(e))
      case Ok(r) => Out([Appended(t, mpl, trial)], [r], None)
  }

  function PreMpl(hooks: Hooks, t: nat, trial: int, mpl: int): Out {
    Emit(HookEvents(hooks, "PRE_MPL", [IntArg(mpl), IntArg(trial), DbArg(t)]))
  }

  function PostMpl(hooks: Hooks, t: nat, trial: int, mpl: int): Out {
    Emit(HookEvents(hooks, "POST_MPL", [IntArg(mpl), IntArg(trial), DbArg(t)]))
  }

  /** `mpl` is not above `max_mpl`: the loop body goes on past the bound check. */
  predicate Within(max: Result<int, DbError>, mpl: int) {
    max.Ok? && mpl <= max.value
  }

  /** The sweep from `mpl` on ends: it steps upwards, or it is already past the maximum. */
  predicate SweepEnds(max: Result<int, DbError>, inc: int, mpl: int) {
    Within(max, mpl) ==> inc >= 1
  }

  /**
   * One round of the MPL loop (src/runner/runner.py:46-63): `PRE_MPL`,
   * the bound check against `max_mpl`, and within the bound the step
   * (`steps(trial, mpl)`) and `POST_MPL`.
   */
  function MplRound(hooks: Hooks, max: Result<int, DbError>, steps: (int, int) -> Out, t: nat, trial: int, mpl: int): Out {
    var pre := PreMpl(hooks, t, trial, mpl);
    if max.Err? then Then(pre, Fail(DbFailure(max.error)))
    else if mpl > max.value then pre
    else Then(pre, Then(steps(trial, mpl), PostMpl(hooks, t, trial, mpl)))
  }

  /** The MPL loop of one trial from `mpl` on (src/runner/runner.py:45-63): rounds until one is past the bound or fails. */
  function MplOver(hooks: Hooks, max: Result<int, DbError>, inc: int, steps: (int, int) -> Out, t: nat, trial: int, mpl: int): Out
    requires SweepEnds(max, inc, mpl)
    decreases if Within(max, mpl) then max.value - mpl + 1 else 0
  {
    var r := MplRound(hooks, max, steps, t, trial, mpl);
    if Within(max, mpl) then Then(r, MplOver(hooks, max, inc, steps, t, trial, mpl + inc)) else r
  }

  /** A trigger term only: a proof that mentions `Unfold(k)` may read what `MplAt` keeps behind it. */
  predicate Unfold(k: int) {
    true
  }

  /** The MPL loop from `lo` is what has been done (`done`) followed by the loop from `mpl`. */
  ghost predicate MplAt(hooks: Hooks, max: Result<int, DbError>, inc: int, steps: (int, int) -> Out, t: nat, trial: int,
                        lo: int, mpl: int, done: Out) {
    done.err.None? && SweepEnds(max, inc, mpl) &&
    forall k {:trigger Unfold(k)} :: Unfold(k) ==>
      SweepEnds(max, inc, lo) &&
      Then(done, MplOver(hooks, max, inc, steps, t, trial, mpl)) == MplOver(hooks, max, inc, steps, t, trial, lo)
  }

  /** One more round keeps `MplAt`, or, past the bound or on an error, completes the loop. */
  lemma MplRoundDone(hooks: Hooks, max: Result<int, DbError>, inc: int, steps: (int, int) -> Out, t: nat, trial: int,
                     lo: int, mpl: int, done: Out, r: Out)
    requires MplAt(hooks, max, inc, steps, t, trial, lo, mpl, done) && r == MplRound(hooks, max, steps, t, trial, mpl)
    requires !Within(max, mpl) || r.err.Some?
    ensures SweepEnds(max, inc, lo) && Then(done, r) == MplOver(hooks, max, inc, steps, t, trial, lo)
  {
    assert Unfold(0);
    if Within(max, mpl) {
      ThenAssoc(done, r, MplOver(hooks, max, inc, steps, t, trial, mpl + inc));
    }
  }

  lemma MplRoundNext(hooks: Hooks, max: Result<int, DbError>, inc: int, steps: (int, int) -> Out, t: nat, trial: int,
                     lo: int, mpl: int, done: Out, r: Out, mpl': int, done': Out)
    requires MplAt(hooks, max, inc, steps, t, trial, lo, mpl, done) && r == MplRound(hooks, max, steps, t, trial, mpl)
    requires Within(max, mpl) && r.err.None? && mpl' == mpl + inc && done' == Then(done, r)
    ensures MplAt(hooks, max, inc, steps, t, trial, lo, mpl', done')
  {
    assert Unfold(0);
    ThenAssoc(done, r, MplOver(hooks, max, inc, steps, t, trial, mpl + inc));
    forall k | Unfold(k)
      ensures SweepEnds(max, inc, lo) &&
        Then(done', MplOver(hooks, max, inc, steps, t, trial, mpl')) == MplOver(hooks, max, inc, steps, t, trial, lo)
    {
    }
  }

  /** Before the first round, nothing has been done. */
  lemma MplStart(hooks: Hooks, max: Result<int, DbError>, inc: int, steps: (int, int) -> Out, t: nat, trial: int, lo: int)
    requires SweepEnds(max, inc, lo)
    ensures MplAt(hooks, max, inc, steps, t, trial, lo, lo, Emit([]))
  {
    ThenStart(MplOver(hooks, max, inc, steps, t, trial, lo));
  }

  /** The sweep of a target ends in every trial. */
  predicate Ends(v: View) {
    v.count.Ok? ==> SweepEnds(v.maxMpl, v.count.value.1, v.count.value.0)
  }

  /** One trial (src/runner/runner.py:43-64): `PRE_TRIAL`, `count`, the MPL loop, `POST_TRIAL`. */
  function TrialOver(hooks: Hooks, v: View, steps: (int, int) -> Out, t: nat, trial: int): Out
    requires Ends(v)
  {
    var pre := Emit(HookEvents(hooks, "PRE_TRIAL", [IntArg(trial), DbArg(t)]));
    var post := Emit(HookEvents(hooks, "POST_TRIAL", [IntArg(trial), DbArg(t)]));
    match v.count
    case Err(e) => Then(pre, Fail(DbFailure(e)))
    case Ok((lo, inc)) => Then(pre, Then(MplOver(hooks, v.maxMpl, inc, steps, t, trial, lo), post))
  }

  /** A trigger term only: a proof that mentions `Tried(t, trial)` may read `Trials` at that trial. */
  predicate Tried(t: nat, trial: int) {
    true
  }

  /** `trials(trial)` is what trial `trial` of target `t` does. */
  ghost predicate Trials(hooks: Hooks, v: View, steps: (int, int) -> Out, t: nat, trials: int -> Out)
    requires Ends(v)
  {
    forall trial {:trigger Tried(t, trial)} :: Tried(t, trial) ==> trials(trial) == TrialOver(hooks, v, steps, t, trial)
  }

  /** Trials `trial`..`n` (src/runner/runner.py:42-64), given what each trial does. */
  function TrialsOver(trials: int -> Out, trial: int, n: int): Out
    decreases if trial <= n then n - trial + 1 else 0
  {
    if trial > n then Emit([]) else Then(trials(trial), TrialsOver(trials, trial + 1, n))
  }

  /** The trials from 1 to `n` are what has been done (`done`) followed by the trials from `trial`. */
  ghost predicate TrialsAt(trials: int -> Out, n: int, trial: int, done: Out) {
    done.err.None? &&
    forall k {:trigger Unfold(k)} :: Unfold(k) ==> Then(done, TrialsOver(trials, trial, n)) == TrialsOver(trials, 1, n)
  }

  lemma TrialsStart(trials: int -> Out, n: int)
    ensures TrialsAt(trials, n, 1, Emit([]))
  {
    ThenStart(TrialsOver(trials, 1, n));
  }

  /** A trial that fails completes the trials. */
  lemma TrialDone(trials: int -> Out, n: int, trial: int, done: Out)
    requires TrialsAt(trials, n, trial, done) && trial <= n && trials(trial).err.Some?
    ensures Then(done, trials(trial)) == TrialsOver(trials, 1, n)
  {
    assert Unfold(0);
    ThenAssoc(done, trials(trial), TrialsOver(trials, trial + 1, n));
  }

  /** A trial that succeeds keeps `TrialsAt`. */
  lemma TrialNext(trials: int -> Out, n: int, trial: int, done: Out, trial': int, done': Out)
    requires TrialsAt(trials, n, trial, done) && trial <= n && trials(trial).err.None?
    requires trial' == trial + 1 && done' == Then(done, trials(trial))
    ensures TrialsAt(trials, n, trial', done')
  {
    assert Unfold(0);
    ThenAssoc(done, trials(trial), TrialsOver(trials, trial + 1, n));
    forall k | Unfold(k)
      ensures Then(done', TrialsOver(trials, trial', n)) == TrialsOver(trials, 1, n)
    {
    }
  }

  /** Past the last trial, what has been done is all the trials. */
  lemma TrialsEnd(trials: int -> Out, n: int, trial: int, done: Out)
    requires TrialsAt(trials, n, trial, done) && trial > n
    ensures done == TrialsOver(trials, 1, n)
  {
    assert Unfold(0);
    ThenNothing(done);
  }

  /** `copyfile` of the configuration file, then of the workload file, into the output directory (src/runner/runner.py:40-41). */
  function CopySpec(v: View, t: nat): Out {
    if v.configDest.Err? then Fail(DbFailure(v.configDest.error))
    else
      var first := Emit([ConfigCopied(t, v.configDest.value)]);
      if v.workloadSrc.Err? then Then(first, Fail(DbFailure(v.workloadSrc.error)))
      else if v.workloadDest.Err? then Then(first, Fail(DbFailure(v.workloadDest.error)))
      else Then(first, Emit([WorkloadCopied(t, v.workloadSrc.value, v.workloadDest.value)]))
  }

  /** The trials of a target, then export, cleanup and `POST_DB` (src/runner/runner.py:42-68). */
  function BodyOver(hooks: Hooks, v: View, t: nat, trials: int -> Out): Out {
    match v.trials
    case Err(e) => Fail(DbFailure(e))
    case Ok(n) => Then(TrialsOver(trials, 1, n), ExportOver(hooks, v, t))
  }

  /**
   * `export_stats`, `cleanup` and `POST_DB` (src/runner/runner.py:66-68);
   * an output with no exporter raises before any of them.
   */
  function ExportOver(hooks: Hooks, v: View, t: nat): Out {
    match v.exporter
    case Err(e) => Fail(DbFailure(e))
    case Ok(_) => Emit([Exported(t), CleanedUp(t)] + HookEvents(hooks, "POST_DB", [DbArg(t)]))
  }

  /** One target (src/runner/runner.py:38-68): `PRE_DB`, the two copies, the trials, export, cleanup, `POST_DB`. */
  function TargetOver(hooks: Hooks, v: View, t: nat, trials: int -> Out): Out {
    Then(Emit(HookEvents(hooks, "PRE_DB", [DbArg(t)])), Then(CopySpec(v, t), BodyOver(hooks, v, t, trials)))
  }

  /** Targets `t`..`n - 1` in order until one fails (src/runner/runner.py:37-68), given what each target does. */
  function TargetsOver(outs: nat -> Out, t: nat, n: nat): Out
    decreases n - t
  {
    if t >= n then Emit([]) else Then(outs(t), TargetsOver(outs, t + 1, n))
  }

  /** Every target before `t` finished without error, so the run reaches target `t`. */
  predicate Clear(outs: nat -> Out, t: nat) {
    t == 0 || (Clear(outs, t - 1) && outs(t - 1).err.None?)
  }

  /** What the run appends to target `t`'s records: that target's, if the run reaches it. */
  function RecsOf(outs: nat -> Out, t: nat): seq<Record> {
    if Clear(outs, t) then outs(t).recs else []
  }

  /** Once a target failed, no later target is reached. */
  lemma {:induction false} ClearStops(outs: nat -> Out, t: nat, u: nat)
    requires t < u && outs(t).err.Some?
    ensures !Clear(outs, u)
  {
    if u > t + 1 {
      ClearStops(outs, t, u - 1);
    }
  }

  /** The targets are what has been done (`done`) followed by the targets from `t`, each before `t` reached and finished. */
  ghost predicate TargetsAt(outs: nat -> Out, n: nat, t: nat, done: Out) {
    done.err.None? && Clear(outs, t) &&
    forall k {:trigger Unfold(k)} :: Unfold(k) ==> Then(done, TargetsOver(outs, t, n)) == TargetsOver(outs, 0, n)
  }

  lemma TargetsStart(outs: nat -> Out, n: nat)
    ensures TargetsAt(outs, n, 0, Emit([]))
  {
    ThenStart(TargetsOver(outs, 0, n));
  }

  /** A target that fails completes the targets. */
  lemma TargetDone(outs: nat -> Out, n: nat, t: nat, done: Out)
    requires TargetsAt(outs, n, t, done) && t < n && outs(t).err.Some?
    ensures Then(done, outs(t)) == TargetsOver(outs, 0, n)
  {
    assert Unfold(0);
    ThenAssoc(done, outs(t), TargetsOver(outs, t + 1, n));
  }

  /** A target that succeeds keeps `TargetsAt`. */
  lemma TargetNext(outs: nat -> Out, n: nat, t: nat, done: Out, t': nat, done': Out)
    requires TargetsAt(outs, n, t, done) && t < n && outs(t).err.None?
    requires t' == t + 1 && done' == Then(done, outs(t))
    ensures TargetsAt(outs, n, t', done')
  {
    assert Unfold(0);
    ThenAssoc(done, outs(t), TargetsOver(outs, t + 1, n));
    forall k | Unfold(k)
      ensures Then(done', TargetsOver(outs, t', n)) == TargetsOver(outs, 0, n)
    {
    }
  }

  /** Past the last target, what has been done is all the targets. */
  lemma TargetsEnd(outs: nat -> Out, n: nat, t: nat, done: Out)
    requires TargetsAt(outs, n, t, done) && t >= n
    ensures done == TargetsOver(outs, 0, n)
  {
    assert Unfold(0);
    ThenNothing(done);
  }

  /** The whole of `run` (src/runner/runner.py:35-69): `PRE_RUN`, the targets, and `POST_RUN` if none failed. */
  function RunOver(hooks: Hooks, n: nat, outs: nat -> Out): Out {
    Then(Emit(HookEvents(hooks, "PRE_RUN", [])), Then(TargetsOver(outs, 0, n), Emit(HookEvents(hooks, "POST_RUN", []))))
  }

  /** A run whose targets all finish fires `PRE_RUN`, does the targets, fires `POST_RUN`, and raises nothing. */
  lemma RunOverOk(hooks: Hooks, n: nat, outs: nat -> Out, before: seq<Event>, after: seq<Event>)
    requires TargetsOver(outs, 0, n).err.None?
    requires after == before + HookEvents(hooks, "PRE_RUN", []) + TargetsOver(outs, 0, n).events + HookEvents(hooks, "POST_RUN", [])
    ensures RunOver(hooks, n, outs).err.None? && after == before + RunOver(hooks, n, outs).events
  {
    var pre, mid, post := HookEvents(hooks, "PRE_RUN", []), TargetsOver(outs, 0, n).events, HookEvents(hooks, "POST_RUN", []);
    assert before + pre + mid + post == before + (pre + (mid + post));
  }

  /** A run in which a target fails stops there: it raises that error, and `POST_RUN` never fires. */
  lemma RunOverFails(hooks: Hooks, n: nat, outs: nat -> Out, before: seq<Event>, after: seq<Event>)
    requires TargetsOver(outs, 0, n).err.Some?
    requires after == before + HookEvents(hooks, "PRE_RUN", []) + TargetsOver(outs, 0, n).events
    ensures RunOver(hooks, n, outs).err == TargetsOver(outs, 0, n).err && after == before + RunOver(hooks, n, outs).events
  {
    var pre, mid := HookEvents(hooks, "PRE_RUN", []), TargetsOver(outs, 0, n).events;
    assert before + pre + mid == before + (pre + mid);
  }

  /**
   * `steps` is what every step of target `t` does; a proof reads it at a
   * step only by asking with `Reached(t, trial, mpl)`.
   */
  ghost predicate Steps(v: View, w: World, t: nat, steps: (int, int) -> Out) {
    forall trial: int, mpl: int {:trigger Reached(t, trial, mpl)} ::
      Reached(t, trial, mpl) ==> steps(trial, mpl) == StepSpec(v, w, t, trial, mpl)
  }

  predicate AllEnd(views: seq<View>) {
    forall i :: 0 <= i < |views| ==> Ends(views[i])
  }

  /** What every step of every target does. */
  function StepsOf(views: seq<View>, w: World): nat -> (int, int) -> Out {
    (t: nat) => (trial: int, mpl: int) => if t < |views| then StepSpec(views[t], w, t, trial, mpl) else Emit([])
  }

  /** What every trial of every target does. */
  function TrialsOf(hooks: Hooks, views: seq<View>, w: World): nat -> int -> Out {
    (t: nat) => (trial: int) =>
      if t < |views| && Ends(views[t]) then TrialOver(hooks, views[t], StepsOf(views, w)(t), t, trial) else Emit([])
  }

  /** What every target does. */
  function TargetsOf(hooks: Hooks, views: seq<View>, w: World): nat -> Out {
    (t: nat) => if t < |views| then TargetOver(hooks, views[t], t, TrialsOf(hooks, views, w)(t)) else Emit([])
  }

  /** The whole run against the world `w`. */
  function RunSpec(hooks: Hooks, views: seq<View>, w: World): Out {
    RunOver(hooks, |views|, TargetsOf(hooks, views, w))
  }

  /** A trigger term only: a proof that mentions `Visited(t)` may read `Linked` at target `t`. */
  predicate Visited(t: nat) {
    true
  }

  /** `stepsOf`, `trialsOf` and `outs` are what each target's steps, trials and whole part do. */
  ghost predicate Linked(hooks: Hooks, views: seq<View>, w: World, stepsOf: nat -> (int, int) -> Out,
                         trialsOf: nat -> int -> Out, outs: nat -> Out) {
    forall t: nat {:trigger Visited(t)} :: Visited(t) && t < |views| ==>
      Steps(views[t], w, t, stepsOf(t)) &&
      (Ends(views[t]) ==> Trials(hooks, views[t], stepsOf(t), t, trialsOf(t))) &&
      outs(t) == TargetOver(hooks, views[t], t, trialsOf(t))
  }

  lemma LinkedOf(hooks: Hooks, views: seq<View>, w: World)
    ensures Linked(hooks, views, w, StepsOf(views, w), TrialsOf(hooks, views, w), TargetsOf(hooks, views, w))
  {
    forall t: nat | Visited(t) && t < |views|
      ensures Steps(views[t], w, t, StepsOf(views, w)(t))
      ensures Ends(views[t]) ==> Trials(hooks, views[t], StepsOf(views, w)(t), t, TrialsOf(hooks, views, w)(t))
    {
    }
  }

  /** The views of a sequence of targets. */
  ghost function ViewsOf(dbs: seq<DbSystem>, cwd: string): (r: seq<View>)
    reads set i | 0 <= i < |dbs| :: dbs[i], set i | 0 <= i < |dbs| :: dbs[i].config
    ensures |r| == |dbs| && forall i :: 0 <= i < |dbs| ==> Shows(dbs[i], cwd, r[i])
  {
    if dbs == [] then [] else ViewsOf(dbs[..|dbs| - 1], cwd) + [ViewOf(dbs[|dbs| - 1], cwd)]
  }

  // ---------------------------------------------------------------------
  // Bookkeeping of the runner's state

  /** From (`tr0`, `rs0`) to (`tr1`, `rs1`) the run did `d` for target `t`. */
  predicate Advanced(tr0: seq<Event>, rs0: seq<seq<Record>>, tr1: seq<Event>, rs1: seq<seq<Record>>, t: nat, d: Out) {
    t < |rs0| && tr1 == tr0 + d.events && rs1 == rs0[t := rs0[t] + d.recs]
  }

  lemma AdvancedEmit(tr: seq<Event>, rs: seq<seq<Record>>, t: nat, es: seq<Event>)
    requires t < |rs|
    ensures Advanced(tr, rs, tr + es, rs, t, Emit(es))
  {
    assert rs[t] + [] == rs[t];
    assert rs[t := rs[t] + []] == rs;
  }

  lemma AdvancedStay(tr: seq<Event>, rs: seq<seq<Record>>, t: nat, d: Out)
    requires t < |rs| && d.events == [] && d.recs == []
    ensures Advanced(tr, rs, tr, rs, t, d)
  {
    assert tr + [] == tr;
    assert rs[t] + [] == rs[t];
    assert rs[t := rs[t] + []] == rs;
  }

  lemma AdvancedThen(tr0: seq<Event>, rs0: seq<seq<Record>>, tr1: seq<Event>, rs1: seq<seq<Record>>,
                     tr2: seq<Event>, rs2: seq<seq<Record>>, t: nat, a: Out, b: Out)
    requires Advanced(tr0, rs0, tr1, rs1, t, a) && Advanced(tr1, rs1, tr2, rs2, t, b) && a.err.None?
    ensures Advanced(tr0, rs0, tr2, rs2, t, Then(a, b))
  {
    assert tr0 + a.events + b.events == tr0 + (a.events + b.events);
    assert rs0[t] + a.recs + b.recs == rs0[t] + (a.recs + b.recs);
  }

  /** The trace alone, across two stretches. */
  lemma TraceThen(tr0: seq<Event>, tr1: seq<Event>, tr2: seq<Event>, a: Out, b: Out)
    requires tr1 == tr0 + a.events && tr2 == tr1 + b.events && a.err.None?
    ensures tr2 == tr0 + Then(a, b).events
  {
    assert tr0 + a.events + b.events == tr0 + (a.events + b.events);
  }

  /** Nothing followed by a stretch is that stretch. */
  lemma ThenStart(b: Out)
    ensures Then(Emit([]), b) == b
  {
    assert [] + b.events == b.events;
    assert [] + b.recs == b.recs;
  }

  /** A finished stretch followed by nothing is that stretch. */
  lemma ThenNothing(a: Out)
    ensures Then(a, Emit([])) == a
  {
    assert a.events + [] == a.events;
    assert a.recs + [] == a.recs;
  }

  // ---------------------------------------------------------------------
  // The runner

  /**
   * `Runner` (src/runner/runner.py:13-33): the targets, the hooks and the
   * working directory are fixed once built; `trace` is what the run has
   * done so far, and `records[t]` is target `t`'s `db.stats`.
   */
  class Runner {
    const dbs: seq<DbSystem>
    const hooks: Hooks
    const cwd: string
    var trace: seq<Event>
    var records: seq<seq<Record>>

    /** `self.__hooks = {} if hooks is None else hooks`; every target's statistics start empty. */
    constructor Init(dbs: seq<DbSystem>, hooks: Option<Hooks>, cwd: string)
      ensures this.dbs == dbs && this.cwd == cwd
      ensures this.hooks == (if hooks.None? then map[] else hooks.value)
      ensures trace == [] && |records| == |dbs| && forall t :: 0 <= t < |dbs| ==> records[t] == []
    {
      this.dbs := dbs;
      this.hooks := if hooks.None? then map[] else hooks.value;
      this.cwd := cwd;
      trace := [];
      records := seq(|dbs|, _ => []);
    }

    ghost function Views(): (r: seq<View>)
      reads set i | 0 <= i < |dbs| :: dbs[i], set i | 0 <= i < |dbs| :: dbs[i].config
      ensures |r| == |dbs| && forall i :: 0 <= i < |dbs| ==> Shows(dbs[i], cwd, r[i])
    {
      ViewsOf(dbs, cwd)
    }

    /** What target `t`'s part of the run may rely on: its view, the world, and what its steps do. */
    ghost predicate Fit(t: nat, v: View, o: Oracle, w: World, steps: (int, int) -> Out)
      requires t < |dbs|
      reads dbs[t], dbs[t].config
    {
      Shows(dbs[t], cwd, v) && Sees(o, w) && Steps(v, w, t, steps)
    }

    /** `__run_hooks(location, *args)` (src/runner/runner.py:188-198). */
    method RunHooks(location: string, args: seq<HookArg>)
      modifies this
      ensures trace == old(trace) + HookEvents(hooks, location, args) && records == old(records)
    {
      var loc := Upper(location);
      if loc in hooks {
        var hs := hooks[loc];
        var i := 0;
        while i < |hs|
          invariant i <= |hs| && records == old(records)
          invariant trace == old(trace) + HookEvents(hooks, location, args)[..i]
        {
          trace := trace + [HookCall(loc, hs[i], args)];
          i := i + 1;
        }
      }
    }

    /** One step of the MPL loop (src/runner/runner.py:49-62). */
    method Step(t: nat, trial: int, mpl: int, ghost v: View, o: Oracle, ghost w: World, ghost steps: (int, int) -> Out)
      returns (err: Option<RunError>)
      requires t < |dbs| && |records| == |dbs| && Fit(t, v, o, w, steps)
      modifies this
      ensures Advanced(old(trace), old(records), trace, records, t, steps(trial, mpl)) && err == steps(trial, mpl).err
    {
      assert Reached(t, trial, mpl);
      assert RunnerSetup.Consulted(0);
      err := CleanStep(t, trial, mpl, v, o, w);
    }

    /** Clean, then load, run, extract, stamp and append, as `StepSpec` says. */
    method CleanStep(t: nat, trial: int, mpl: int, ghost v: View, o: Oracle, ghost w: World) returns (err: Option<RunError>)
      requires t < |dbs| && |records| == |dbs| && Sees(o, w)
      requires v.clean == dbs[t].CleanCommand() && v.ycsb == YcsbParts(dbs[t], cwd)
      modifies this
      ensures var s := StepSpec(v, w, t, trial, mpl);
        Advanced(old(trace), old(records), trace, records, t, s) && err == s.err
    {
      ghost var tr0, rs0 := trace, records;
      var ran, cleaned := dbs[t].Clean(o.exit(t, trial, mpl));
      if ran.None? {
        AdvancedStay(tr0, rs0, t, Fail(DbFailure(cleaned.error)));
        return Some(DbFailure(cleaned.error));
      }
      ghost var clean := Emit([Cleaned(t, ran.value)]);
      trace := trace + [Cleaned(t, ran.value)];
      AdvancedEmit(tr0, rs0, t, clean.events);
      if cleaned.Err? {
        AdvancedStay(trace, records, t, Fail(DbFailure(cleaned.error)));
        AdvancedThen(tr0, rs0, trace, records, trace, records, t, clean, Fail(DbFailure(cleaned.error)));
        return Some(DbFailure(cleaned.error));
      }
      ghost var tr1, rs1 := trace, records;
      err := YcsbStep(t, trial, mpl, v, o, w);
      AdvancedThen(tr0, rs0, tr1, rs1, trace, records, t, clean, YcsbSpec(v, w, t, trial, mpl));
    }

    /** Load, run, extract, stamp and append (src/runner/runner.py:54-62). */
    method YcsbStep(t: nat, trial: int, mpl: int, ghost v: View, o: Oracle, ghost w: World) returns (err: Option<RunError>)
      requires t < |dbs| && |records| == |dbs| && v.ycsb == YcsbParts(dbs[t], cwd) && Sees(o, w)
      modifies this
      ensures var s := YcsbSpec(v, w, t, trial, mpl);
        Advanced(old(trace), old(records), trace, records, t, s) && err == s.err
    {
      ghost var tr0, rs0 := trace, records;
      var load := dbs[t].CmdYcsbLoad(cwd);
      YcsbCommandParts(dbs[t], cwd, mpl);
      if load.Err? {
        AdvancedStay(tr0, rs0, t, Fail(DbFailure(load.error)));
        return Some(DbFailure(load.error));
      }
      var run := dbs[t].CmdYcsbRun(mpl, cwd);
      ghost var ycsb := Emit([Loaded(t, load.value), Ran(t, run.value)]);
      trace := trace + [Loaded(t, load.value), Ran(t, run.value)];
      AdvancedEmit(tr0, rs0, t, ycsb.events);
      ghost var tr1, rs1 := trace, records;
      err := AppendStats(t, trial, mpl, o, w);
      AdvancedThen(tr0, rs0, tr1, rs1, trace, records, t, ycsb, AppendSpec(w.stats(t, trial, mpl), t, trial, mpl));
    }

    /** Extract, stamp and append (src/runner/runner.py:58-62). */
    method AppendStats(t: nat, trial: int, mpl: int, o: Oracle, ghost w: World) returns (err: Option<RunError>)
      requires t < |records| && Sees(o, w)
      modifies this
      ensures var s := AppendSpec(w.stats(t, trial, mpl), t, trial, mpl);
        Advanced(old(trace), old(records), trace, records, t, s) && err == s.err
    {
      assert Reached(t, trial, mpl);
      var extracted := ExtractStats(o.output(t, trial, mpl));
      if extracted.Err? {
        AdvancedStay(trace, records, t, Fail(StatsFailure(extracted.error)));
        return Some(StatsFailure(extracted.error));
      }
      var stats := extracted.value;
      ghost var rec := stats.Snapshot();
      StampedCarries(rec, mpl, trial);
      var e1 := stats.SetAttr("mpl", I(mpl));
      var e2 := stats.SetAttr("trial", I(trial));
      assert stats.Snapshot() == Stamped(rec, mpl, trial).value;
      records := records[t := records[t] + [stats.Snapshot()]];
      trace := trace + [Appended(t, mpl, trial)];
      return None;
    }

    /** One round of the MPL loop (src/runner/runner.py:46-63); `more` says the bound check let it through. */
    method MplStep(t: nat, trial: int, mpl: int, ghost v: View, o: Oracle, ghost w: World, ghost steps: (int, int) -> Out)
      returns (err: Option<RunError>, more: bool)
      requires t < |dbs| && |records| == |dbs| && Fit(t, v, o, w, steps)
      modifies this
      ensures var s := MplRound(hooks, v.maxMpl, steps, t, trial, mpl);
        Advanced(old(trace), old(records), trace, records, t, s) && err == s.err
      ensures more == Within(v.maxMpl, mpl)
    {
      assert RunnerSetup.Consulted(3);
      ghost var tr0, rs0 := trace, records;
      ghost var pre := PreMpl(hooks, t, trial, mpl);
      RunHooks("PRE_MPL", [IntArg(mpl), IntArg(trial), DbArg(t)]);
      AdvancedEmit(tr0, rs0, t, pre.events);
      ghost var tr1, rs1 := trace, records;
      var max := IntAttr(dbs[t], "max_mpl");
      if max.Err? {
        AdvancedStay(tr1, rs1, t, Fail(DbFailure(max.error)));
        AdvancedThen(tr0, rs0, tr1, rs1, tr1, rs1, t, pre, Fail(DbFailure(max.error)));
        return Some(DbFailure(max.error)), false;
      }
      if mpl > max.value {
        return None, false;
      }
      ghost var step := steps(trial, mpl);
      err := Step(t, trial, mpl, v, o, w, steps);
      AdvancedThen(tr0, rs0, tr1, rs1, trace, records, t, pre, step);
      if err.Some? {
        return err, true;
      }
      ghost var tr2, rs2 := trace, records;
      ghost var post := PostMpl(hooks, t, trial, mpl);
      RunHooks("POST_MPL", [IntArg(mpl), IntArg(trial), DbArg(t)]);
      AdvancedEmit(tr2, rs2, t, post.events);
      AdvancedThen(tr0, rs0, tr2, rs2, trace, records, t, Then(pre, step), post);
      ThenAssoc(pre, step, post);
      return None, true;
    }

    /**
     * The MPL loop of one trial (src/runner/runner.py:45-63), from
     * `count(start=lo, step=inc)` until an MPL above `max_mpl`.
     */
    method MplLoop(t: nat, trial: int, lo: int, inc: int, ghost v: View, o: Oracle, ghost w: World, ghost steps: (int, int) -> Out)
      returns (err: Option<RunError>)
      requires t < |dbs| && |records| == |dbs| && Fit(t, v, o, w, steps) && SweepEnds(v.maxMpl, inc, lo)
      modifies this
      ensures var s := MplOver(hooks, v.maxMpl, inc, steps, t, trial, lo);
        Advanced(old(trace), old(records), trace, records, t, s) && err == s.err
    {
      var mpl := lo;
      ghost var done := Emit([]);
      AdvancedStay(trace, records, t, done);
      MplStart(hooks, v.maxMpl, inc, steps, t, trial, lo);
      while true
        invariant |records| == |dbs| && MplAt(hooks, v.maxMpl, inc, steps, t, trial, lo, mpl, done)
        invariant Advanced(old(trace), old(records), trace, records, t, done)
        decreases if Within(v.maxMpl, mpl) then v.maxMpl.value - mpl + 1 else 0
      {
        ghost var tr1, rs1 := trace, records;
        ghost var r := MplRound(hooks, v.maxMpl, steps, t, trial, mpl);
        var more;
        err, more := MplStep(t, trial, mpl, v, o, w, steps);
        AdvancedThen(old(trace), old(records), tr1, rs1, trace, records, t, done, r);
        if err.Some? || !more {
          MplRoundDone(hooks, v.maxMpl, inc, steps, t, trial, lo, mpl, done, r);
          return;
        }
        ghost var done0, mpl0 := done, mpl;
        done := Then(done, r);
        mpl := mpl + inc;
        MplRoundNext(hooks, v.maxMpl, inc, steps, t, trial, lo, mpl0, done0, r, mpl, done);
      }
    }

    /** One trial (src/runner/runner.py:43-64): `PRE_TRIAL`, `count`, the MPL loop, `POST_TRIAL`. */
    method Trial(t: nat, trial: int, ghost v: View, o: Oracle, ghost w: World, ghost steps: (int, int) -> Out)
      returns (err: Option<RunError>)
      requires t < |dbs| && |records| == |dbs| && Fit(t, v, o, w, steps) && Ends(v)
      modifies this
      ensures var s := TrialOver(hooks, v, steps, t, trial);
        Advanced(old(trace), old(records), trace, records, t, s) && err == s.err
    {
      assert RunnerSetup.Consulted(2);
      ghost var tr0, rs0 := trace, records;
      ghost var pre := Emit(HookEvents(hooks, "PRE_TRIAL", [IntArg(trial), DbArg(t)]));
      RunHooks("PRE_TRIAL", [IntArg(trial), DbArg(t)]);
      AdvancedEmit(tr0, rs0, t, pre.events);
      ghost var tr1, rs1 := trace, records;
      var count := CountArgs(dbs[t].Attr("min_mpl"), dbs[t].Attr("inc_mpl"));
      if count.Err? {
        AdvancedStay(tr1, rs1, t, Fail(DbFailure(count.error)));
        AdvancedThen(tr0, rs0, tr1, rs1, tr1, rs1, t, pre, Fail(DbFailure(count.error)));
        return Some(DbFailure(count.error));
      }
      var (lo, inc) := count.value;
      ghost var sweep := MplOver(hooks, v.maxMpl, inc, steps, t, trial, lo);
      err := MplLoop(t, trial, lo, inc, v, o, w, steps);
      AdvancedThen(tr0, rs0, tr1, rs1, trace, records, t, pre, sweep);
      if err.Some? {
        return;
      }
      ghost var tr2, rs2 := trace, records;
      ghost var post := Emit(HookEvents(hooks, "POST_TRIAL", [IntArg(trial), DbArg(t)]));
      RunHooks("POST_TRIAL", [IntArg(trial), DbArg(t)]);
      AdvancedEmit(tr2, rs2, t, post.events);
      AdvancedThen(tr0, rs0, tr2, rs2, trace, records, t, Then(pre, sweep), post);
      ThenAssoc(pre, sweep, post);
    }

    /** `for trial in range(1, n + 1)` (src/runner/runner.py:42-64), stopping at the first error. */
    method TrialLoop(t: nat, n: int, ghost v: View, o: Oracle, ghost w: World, ghost steps: (int, int) -> Out,
                     ghost trials: int -> Out)
      returns (err: Option<RunError>)
      requires t < |dbs| && |records| == |dbs| && Fit(t, v, o, w, steps) && Ends(v) && Trials(hooks, v, steps, t, trials)
      modifies this
      ensures var s := TrialsOver(trials, 1, n);
        Advanced(old(trace), old(records), trace, records, t, s) && err == s.err
    {
      var trial := 1;
      ghost var done := Emit([]);
      AdvancedStay(trace, records, t, done);
      TrialsStart(trials, n);
      while trial <= n
        invariant |records| == |dbs| && TrialsAt(trials, n, trial, done)
        invariant Advanced(old(trace), old(records), trace, records, t, done)
        decreases n - trial
      {
        assert Tried(t, trial);
        ghost var tr1, rs1 := trace, records;
        err := Trial(t, trial, v, o, w, steps);
        AdvancedThen(old(trace), old(records), tr1, rs1, trace, records, t, done, trials(trial));
        if err.Some? {
          TrialDone(trials, n, trial, done);
          return;
        }
        ghost var done0, trial0 := done, trial;
        done := Then(done, trials(trial));
        trial := trial + 1;
        TrialNext(trials, n, trial0, done0, trial, done);
      }
      TrialsEnd(trials, n, trial, done);
      return None;
    }

    /** The two `copyfile` calls (src/runner/runner.py:40-41). */
    method Copies(t: nat, ghost v: View) returns (err: Option<RunError>)
      requires t < |dbs| && |records| == |dbs| && Shows(dbs[t], cwd, v)
      modifies this
      ensures var s := CopySpec(v, t);
        Advanced(old(trace), old(records), trace, records, t, s) && err == s.err
    {
      assert RunnerSetup.Consulted(1);
      ghost var tr0, rs0 := trace, records;
      var dest := dbs[t].FPathSpec("config-{}-{}.ini", cwd);
      if dest.Err? {
        AdvancedStay(tr0, rs0, t, Fail(DbFailure(dest.error)));
        return Some(DbFailure(dest.error));
      }
      ghost var first := Emit([ConfigCopied(t, dest.value)]);
      trace := trace + [ConfigCopied(t, dest.value)];
      AdvancedEmit(tr0, rs0, t, first.events);
      ghost var tr1, rs1 := trace, records;
      var src := dbs[t].WorkloadPath(cwd);
      if src.Err? {
        AdvancedStay(tr1, rs1, t, Fail(DbFailure(src.error)));
        AdvancedThen(tr0, rs0, tr1, rs1, tr1, rs1, t, first, Fail(DbFailure(src.error)));
        return Some(DbFailure(src.error));
      }
      var wdest := dbs[t].FPathSpec("workload-{}-{}", cwd);
      if wdest.Err? {
        AdvancedStay(tr1, rs1, t, Fail(DbFailure(wdest.error)));
        AdvancedThen(tr0, rs0, tr1, rs1, tr1, rs1, t, first, Fail(DbFailure(wdest.error)));
        return Some(DbFailure(wdest.error));
      }
      ghost var second := Emit([WorkloadCopied(t, src.value, wdest.value)]);
      trace := trace + [WorkloadCopied(t, src.value, wdest.value)];
      AdvancedEmit(tr1, rs1, t, second.events);
      AdvancedThen(tr0, rs0, tr1, rs1, trace, records, t, first, second);
      return None;
    }

    /** The trials, then `export_stats`, `cleanup` and `POST_DB` (src/runner/runner.py:42-68). */
    method Body(t: nat, ghost v: View, o: Oracle, ghost w: World, ghost steps: (int, int) -> Out, ghost trials: int -> Out)
      returns (err: Option<RunError>)
      requires t < |dbs| && |records| == |dbs| && Fit(t, v, o, w, steps) && Ends(v) && Trials(hooks, v, steps, t, trials)
      modifies this
      ensures var s := BodyOver(hooks, v, t, trials);
        Advanced(old(trace), old(records), trace, records, t, s) && err == s.err
    {
      assert RunnerSetup.Consulted(2);
      var n := IntAttr(dbs[t], "trials");
      if n.Err? {
        AdvancedStay(trace, records, t, Fail(DbFailure(n.error)));
        return Some(DbFailure(n.error));
      }
      ghost var tr0, rs0 := trace, records;
      err := TrialLoop(t, n.value, v, o, w, steps, trials);
      if err.Some? {
        return;
      }
      ghost var tr1, rs1 := trace, records;
      assert RunnerSetup.Consulted(4);
      var output := dbs[t].ExportOutput();
      if output.Err? {
        AdvancedStay(trace, records, t, Fail(DbFailure(output.error)));
        AdvancedThen(tr0, rs0, tr1, rs1, trace, records, t, TrialsOver(trials, 1, n.value), Fail(DbFailure(output.error)));
        return Some(DbFailure(output.error));
      }
      ghost var tail := Emit([Exported(t), CleanedUp(t)] + HookEvents(hooks, "POST_DB", [DbArg(t)]));
      trace := trace + [Exported(t), CleanedUp(t)];
      RunHooks("POST_DB", [DbArg(t)]);
      assert trace == tr1 + tail.events;
      AdvancedEmit(tr1, rs1, t, tail.events);
      AdvancedThen(tr0, rs0, tr1, rs1, trace, records, t, TrialsOver(trials, 1, n.value), tail);
    }

    /** One target (src/runner/runner.py:38-68). */
    method Target(t: nat, ghost v: View, o: Oracle, ghost w: World, ghost steps: (int, int) -> Out, ghost trials: int -> Out)
      returns (err: Option<RunError>)
      requires t < |dbs| && |records| == |dbs| && Fit(t, v, o, w, steps) && Ends(v) && Trials(hooks, v, steps, t, trials)
      modifies this
      ensures var s := TargetOver(hooks, v, t, trials);
        Advanced(old(trace), old(records), trace, records, t, s) && err == s.err
    {
      ghost var tr0, rs0 := trace, records;
      ghost var pre := Emit(HookEvents(hooks, "PRE_DB", [DbArg(t)]));
      RunHooks("PRE_DB", [DbArg(t)]);
      AdvancedEmit(tr0, rs0, t, pre.events);
      ghost var tr1, rs1 := trace, records;
      ghost var copies := CopySpec(v, t);
      err := Copies(t, v);
      if err.Some? {
        AdvancedThen(tr0, rs0, tr1, rs1, trace, records, t, pre, copies);
        return;
      }
      ghost var tr2, rs2 := trace, records;
      err := Body(t, v, o, w, steps, trials);
      AdvancedThen(tr1, rs1, tr2, rs2, trace, records, t, copies, BodyOver(hooks, v, t, trials));
      AdvancedThen(tr0, rs0, tr1, rs1, trace, records, t, pre, Then(copies, BodyOver(hooks, v, t, trials)));
    }

    /**
     * The run (src/runner/runner.py:35-69) against the views `views` of the
     * targets, with `outs(t)` what target `t` does.
     */
    method RunWith(o: Oracle, ghost views: seq<View>, ghost w: World, ghost stepsOf: nat -> (int, int) -> Out,
                   ghost trialsOf: nat -> int -> Out, ghost outs: nat -> Out)
      returns (err: Option<RunError>)
      requires |records| == |dbs| && |views| == |dbs| && AllEnd(views) && Sees(o, w)
      requires forall i :: 0 <= i < |dbs| ==> Shows(dbs[i], cwd, views[i])
      requires Linked(hooks, views, w, stepsOf, trialsOf, outs)
      modifies this
      ensures var s := RunOver(hooks, |dbs|, outs); trace == old(trace) + s.events && err == s.err
      ensures |records| == |dbs| && forall t :: 0 <= t < |dbs| ==> records[t] == old(records)[t] + RecsOf(outs, t)
    {
      var n := |dbs|;
      ghost var pre := Emit(HookEvents(hooks, "PRE_RUN", []));
      RunHooks("PRE_RUN", []);
      ghost var tr0 := trace;
      var t := 0;
      ghost var done := Emit([]);
      TargetsStart(outs, n);
      while t < n
        invariant t <= n && |records| == |dbs| && TargetsAt(outs, n, t, done)
        invariant trace == tr0 + done.events
        invariant forall u :: 0 <= u < t ==> records[u] == old(records)[u] + RecsOf(outs, u)
        invariant forall u :: t <= u < n ==> records[u] == old(records)[u]
      {
        assert Visited(t);
        ghost var tr1, rs1 := trace, records;
        err := Target(t, views[t], o, w, stepsOf(t), trialsOf(t));
        assert records[t] == rs1[t] + RecsOf(outs, t);
        TraceThen(tr0, tr1, trace, done, outs(t));
        if err.Some? {
          TargetDone(outs, n, t, done);
          forall u | t < u < n
            ensures records[u] == old(records)[u] + RecsOf(outs, u)
          {
            ClearStops(outs, t, u);
          }
          RunOverFails(hooks, n, outs, old(trace), trace);
          return;
        }
        ghost var done0, t0 := done, t;
        done := Then(done, outs(t));
        t := t + 1;
        TargetNext(outs, n, t0, done0, t, done);
      }
      TargetsEnd(outs, n, t, done);
      RunHooks("POST_RUN", []);
      RunOverOk(hooks, n, outs, old(trace), trace);
      return None;
    }

    /** `Runner.run` (src/runner/runner.py:35-69) against the outside world `o`, with `views` what the targets show. */
    method Run(o: Oracle, ghost views: seq<View>) returns (err: Option<RunError>)
      requires |records| == |dbs| && views == Views() && AllEnd(views)
      modifies this
      ensures var s := RunSpec(hooks, views, WorldOf(o)); trace == old(trace) + s.events && err == s.err
      ensures |records| == |dbs|
      ensures forall t :: 0 <= t < |dbs| ==> records[t] == old(records)[t] + RecsOf(TargetsOf(hooks, views, WorldOf(o)), t)
    {
      ghost var w := WorldOf(o);
      SeesWorldOf(o);
      LinkedOf(hooks, views, w);
      err := RunWith(o, views, w, StepsOf(views, w), TrialsOf(hooks, views, w), TargetsOf(hooks, views, w));
    }
  }
}
