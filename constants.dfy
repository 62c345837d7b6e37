/**
 * The module-level tables of src/runner/constants.py and the facts that
 * tie them to each other: every extraction rule fills a float field of
 * the schema, every supported database has a clean command, every
 * placeholder in a clean command has a substitution, and every option
 * but `workload` has a default.
 */
module Constants {
  import opened Wrappers
  import opened Text
  import opened Patterns
  import opened Stats

  /** A scalar literal of the tables: an `int` or a `str`. */
  datatype Scalar = IntS(n: int) | StrS(s: string)

  /** `str(v)`. */
  function Str(v: Scalar): string {
    match v
    case IntS(n) => IntToString(n)
    case StrS(s) => s
  }

  /** `SUPPORTED_OUTPUTS` (src/runner/constants.py:9-11): the output formats that have an exporter. */
  const SupportedOutputs: set<string> := {"csv"}

  /**
   * `SUPPORTED_DBS` (src/runner/constants.py:21-27): the runner's name of a
   * database and the binding name YCSB uses for it, `None` when they agree.
   */
  const SupportedDbs: map<string, Option<string>> := map[
    "jdbc-mysql" := Some("jdbc"),
    "jdbc-postgres" := Some("jdbc"),
    "mongodb" := None,
    "redis" := None,
    "cassandra-10" := None]

  /** `DEFAULT_TABLENAME`. */
  const DefaultTablename: string := "usertable"

  /** `RE_HOSTNAME_PORT`, `://(.+?):([0-9]{1,5})/?`: host is the lazy gap, port the capture. */
  const HostPortPattern: Pattern := Pattern("://", true, ":", Digits, Some(5))

  /** `CLEAN_DEFAULT_JDBC`, in dict order. */
  const CleanDefaultJdbc: seq<(string, Scalar)> := [
    ("port", IntS(5432)), ("user", StrS("ycsb")), ("passwd", StrS("ycsb")),
    ("dbname", StrS("ycsb")), ("host", StrS("localhost"))]

  /** `CLEAN_DEFAULT_MONGO`, in dict order. */
  const CleanDefaultMongo: seq<(string, Scalar)> := [
    ("port", IntS(27017)), ("dbname", StrS("ycsb")), ("host", StrS("localhost"))]

  /**
   * One argument of a clean command, cut at its `{KEY}` placeholders:
   * literal text and placeholders in order.
   */
  datatype Piece = Lit(text: string) | Hole(key: string)

  function RenderPiece(p: Piece): string {
    match p
    case Lit(t) => t
    case Hole(k) => "{" + k + "}"
  }

  /** The command argument as the Python string literal spells it. */
  function Render(ps: seq<Piece>): string {
    if ps == [] then "" else RenderPiece(ps[0]) + Render(ps[1..])
  }

  /** The truncation argument shared by both JDBC clean commands. */
  const TruncateArg: seq<Piece> := [Lit("TRUNCATE TABLE "), Hole("TABLENAME"), Lit(";")]

  /** The password argument of the MySQL clean command. */
  const PasswdArg: seq<Piece> := [Lit("-p"), Hole("JDBC_PASSWD")]

  const MysqlClean: seq<seq<Piece>> := [
    [Lit("mysql")], [Lit("-u")], [Hole("JDBC_USER")], PasswdArg, [Lit("-P")], [Hole("JDBC_PORT")],
    [Lit("-e")], TruncateArg, [Hole("JDBC_DBNAME")]]

  const PostgresClean: seq<seq<Piece>> := [
    [Lit("psql")], [Lit("--host")], [Hole("JDBC_HOST")], [Lit("-d")], [Hole("JDBC_DBNAME")],
    [Lit("-U")], [Hole("JDBC_USER")], [Lit("-p")], [Hole("JDBC_PORT")], [Lit("-c")], TruncateArg]

  /** The script argument of the MongoDB clean command. */
  const DropArg: seq<Piece> := [Lit("db.dropDatabase();")]

  const MongoClean: seq<seq<Piece>> := [
    [Lit("mongo")], [Lit("--host")], [Hole("MONGO_HOST")], [Lit("--eval")],
    DropArg, [Hole("MONGO_DBNAME")]]

  const RedisClean: seq<seq<Piece>> := [[Lit("redis-cli")], [Lit("-r")], [Lit("1")], [Lit("FLUSHALL")]]

  const CassandraClean: seq<seq<Piece>> := [
    [Lit("cqlsh")], [Lit("-k")], [Hole("TABLENAME")], [Lit("-e")], [Lit("TRUNCATE data;")]]

  /** `CLEAN_COMMANDS` (src/runner/constants.py:63-109). */
  const CleanCommands: map<string, seq<seq<Piece>>> := map[
    "jdbc-mysql" := MysqlClean, "jdbc-postgres" := PostgresClean, "mongodb" := MongoClean,
    "redis" := RedisClean, "cassandra-10" := CassandraClean]

  /** The keys the substitution map of `__templateify` defines (src/runner/dbsystem.py:141-147). */
  const SubstKeyNames: seq<string> := [
    "TABLENAME", "JDBC_PORT", "JDBC_USER", "JDBC_PASSWD", "JDBC_DBNAME", "JDBC_HOST",
    "MONGO_PORT", "MONGO_DBNAME", "MONGO_HOST"]

  /** How `__process_config_keys` reads an option, by the type its `OPTION_KEYS` entry names. */
  datatype OptKind =
    | IntOpt        // `int`: getint
    | BoolOpt       // `bool`: getboolean
    | StrOpt        // `str`: get
    | LowerStripOpt // `lambda s: str(s).lower().strip()`
    | LowerOpt      // `lambda s: s.lower()` (runner/ConfigReader.py)
    | CsvOpt        // `csv2list`

  /** `OPTION_KEYS` (src/runner/constants.py:130-145), in dict order. */
  const OptionKeys: seq<(string, OptKind)> := [
    ("trials", IntOpt), ("min_mpl", IntOpt), ("max_mpl", IntOpt), ("inc_mpl", IntOpt),
    ("output", LowerStripOpt), ("output_dir", StrOpt), ("workload", StrOpt),
    ("output_plots", BoolOpt), ("avgkey", StrOpt), ("avgfields", CsvOpt),
    ("plotkey", StrOpt), ("plotfields", CsvOpt), ("exportfields", CsvOpt),
    ("clean_data", BoolOpt)]

  /** `OPTION_DEFAULTS` (src/runner/constants.py:148-162). */
  const OptionDefaults: seq<(string, Scalar)> := [
    ("trials", IntS(1)), ("min_mpl", IntS(1)), ("max_mpl", IntS(25)), ("inc_mpl", IntS(4)),
    ("output", StrS("csv")), ("output_dir", StrS("output")), ("output_plots", StrS("true")),
    ("avgkey", StrS("mpl")), ("avgfields", StrS("anomaly_score, runtime")),
    ("plotkey", StrS("mpl")), ("plotfields", StrS("anomaly_score")),
    ("exportfields", StrS("mpl,runtime,throughput,trial")), ("clean_data", StrS("true"))]

  function Names<T>(table: seq<(string, T)>): set<string> {
    set i | 0 <= i < |table| :: table[i].0
  }

  /** `STAT_REGEXPS` (src/runner/constants.py:170-180), in dict order. */
  const StatRegexps: seq<(string, Pattern)> := [
    ("totalcash", Pattern("TOTAL CASH], ", false, "", Digits, None)),
    ("countcash", Pattern("COUNTED CASH], ", false, "", Digits, None)),
    ("opcount", Pattern("ACTUAL OPERATIONS], ", false, "", Digits, None)),
    ("runtime", Pattern("OVERALL], RunTime", true, ", ", DigitsDot, None)),
    ("throughput", Pattern("OVERALL], Throughput", true, ", ", DigitsDot, None)),
    ("latency_tx_avg", Pattern("READ-MODIFY-WRITE], AverageLatency", true, ", ", DigitsDot, None)),
    ("latency_tx_95", Pattern("READ-MODIFY-WRITE], 95thPercentileLatency", true, ", ", DigitsDot, None)),
    ("latency_tx_99", Pattern("READ-MODIFY-WRITE], 99thPercentileLatency", true, ", ", DigitsDot, None)),
    ("latency_tx_rmw", Pattern("READ-MODIFY-WRITE], MaxLatency", true, ", ", DigitsDot, None))]

  /** `TRACKED_STATS` (src/runner/constants.py:185-197). */
  const TrackedStats: Schema := map[
    "totalcash" := FloatKind, "countcash" := FloatKind, "opcount" := FloatKind,
    "runtime" := FloatKind, "throughput" := FloatKind,
    "latency_tx_avg" := FloatKind, "latency_tx_95" := FloatKind,
    "latency_tx_99" := FloatKind, "latency_tx_rmw" := FloatKind,
    "mpl" := IntKind, "trial" := IntKind]

  /**
   * Every extraction rule fills a float field of the schema, the rules
   * name distinct fields, and exactly `mpl` and `trial` have no rule.
   */
  lemma StatRulesTracked()
    ensures forall i :: 0 <= i < |StatRegexps| ==>
      StatRegexps[i].0 in TrackedStats && TrackedStats[StatRegexps[i].0] == FloatKind
    ensures forall i, j :: 0 <= i < j < |StatRegexps| ==> StatRegexps[i].0 != StatRegexps[j].0
    ensures "mpl" !in Names(StatRegexps) && "trial" !in Names(StatRegexps)
    ensures forall k :: k in TrackedStats ==> k in Names(StatRegexps) || k == "mpl" || k == "trial"
  {
    forall k | k in TrackedStats ensures k in Names(StatRegexps) || k == "mpl" || k == "trial" {
      if k == "totalcash" { assert StatRegexps[0].0 == k; }
      else if k == "countcash" { assert StatRegexps[1].0 == k; }
      else if k == "opcount" { assert StatRegexps[2].0 == k; }
      else if k == "runtime" { assert StatRegexps[3].0 == k; }
      else if k == "throughput" { assert StatRegexps[4].0 == k; }
      else if k == "latency_tx_avg" { assert StatRegexps[5].0 == k; }
      else if k == "latency_tx_95" { assert StatRegexps[6].0 == k; }
      else if k == "latency_tx_99" { assert StatRegexps[7].0 == k; }
      else if k == "latency_tx_rmw" { assert StatRegexps[8].0 == k; }
    }
  }

  /** Every extraction pattern captures digits, or digits and dots, after a nonempty literal. */
  lemma StatRulesShape()
    ensures forall i :: 0 <= i < |StatRegexps| ==>
      |StatRegexps[i].1.head| > 0 && StatRegexps[i].1.limit.None? &&
      (StatRegexps[i].1.lazyGap <==> StatRegexps[i].1.cls == DigitsDot) &&
      (StatRegexps[i].1.lazyGap ==> StatRegexps[i].1.tail == ", ")
  {
  }

  /** Every supported database has a clean command, and nothing else has one. */
  lemma SupportedHaveClean()
    ensures SupportedDbs.Keys == CleanCommands.Keys
  {
  }

  /** Text without braces, so neither a placeholder nor part of one. */
  predicate NoBrace(s: string) {
    '{' !in s && '}' !in s
  }

  /** A piece whose literal text and placeholder key contain no braces. */
  predicate PieceOk(p: Piece) {
    match p
    case Lit(t) => NoBrace(t)
    case Hole(k) => NoBrace(k) && k != ""
  }

  predicate HoleIn(p: Piece, keys: seq<string>) {
    p.Hole? ==> p.key in keys
  }

  /** No stray braces, and every placeholder is a key of the substitution map. */
  predicate ArgOk(arg: seq<Piece>) {
    forall j :: 0 <= j < |arg| ==> PieceOk(arg[j]) && HoleIn(arg[j], SubstKeyNames)
  }

  predicate CommandOk(cmd: seq<seq<Piece>>) {
    forall i :: 0 <= i < |cmd| ==> ArgOk(cmd[i])
  }

  lemma ShortLitsClean()
    ensures NoBrace(";") && NoBrace("-p") && NoBrace("-u") && NoBrace("-P") && NoBrace("-e")
    ensures NoBrace("-d") && NoBrace("-U") && NoBrace("-c") && NoBrace("-k") && NoBrace("-r") && NoBrace("1")
    ensures NoBrace("mysql") && NoBrace("psql") && NoBrace("mongo") && NoBrace("cqlsh")
  {
  }

  lemma LongLitsClean()
    ensures NoBrace("--host") && NoBrace("--eval") && NoBrace("FLUSHALL") && NoBrace("redis-cli")
  {
  }

  lemma TruncateLitClean() ensures NoBrace("TRUNCATE TABLE ") {}
  lemma TruncateDataClean() ensures NoBrace("TRUNCATE data;") {}
  lemma DropLitClean() ensures NoBrace("db.dropDatabase();") {}

  /** A key of the substitution map makes a well-formed placeholder. */
  lemma KeyHole(i: nat)
    requires i < |SubstKeyNames|
    ensures PieceOk(Hole(SubstKeyNames[i])) && HoleIn(Hole(SubstKeyNames[i]), SubstKeyNames)
  {
    SubstKeysDistinct();
  }

  lemma TruncateArgOk()
    ensures ArgOk(TruncateArg)
  {
    TruncateLitClean();
    ShortLitsClean();
    KeyHole(0);
  }

  lemma DropArgOk()
    ensures ArgOk(DropArg)
  {
    DropLitClean();
  }

  lemma PasswdArgOk()
    ensures ArgOk(PasswdArg)
  {
    ShortLitsClean();
    KeyHole(3);
  }

  lemma MysqlCleanOk()
    ensures CommandOk(MysqlClean)
  {
    TruncateArgOk();
    PasswdArgOk();
    ShortLitsClean();
    KeyHole(1);
    KeyHole(2);
    KeyHole(4);
  }

  lemma PostgresCleanOk()
    ensures CommandOk(PostgresClean)
  {
    TruncateArgOk();
    ShortLitsClean();
    LongLitsClean();
    KeyHole(1);
    KeyHole(2);
    KeyHole(4);
    KeyHole(5);
  }

  lemma MongoCleanOk()
    ensures CommandOk(MongoClean)
  {
    DropArgOk();
    ShortLitsClean();
    LongLitsClean();
    KeyHole(7);
    KeyHole(8);
  }

  lemma RedisCleanOk()
    ensures CommandOk(RedisClean)
  {
    ShortLitsClean();
    LongLitsClean();
  }

  lemma CassandraCleanOk()
    ensures CommandOk(CassandraClean)
  {
    ShortLitsClean();
    TruncateDataClean();
    KeyHole(0);
  }

  /** Every clean command is well formed, so templating can fill all of its placeholders. */
  lemma CleanCommandsCovered()
    ensures forall db :: db in CleanCommands ==> CommandOk(CleanCommands[db])
  {
    MysqlCleanOk();
    PostgresCleanOk();
    MongoCleanOk();
    RedisCleanOk();
    CassandraCleanOk();
  }

  /** The substitution keys are distinct, brace-free and nonempty. */
  lemma SubstKeysDistinct()
    ensures forall i, j :: 0 <= i < j < |SubstKeyNames| ==> SubstKeyNames[i] != SubstKeyNames[j]
    ensures forall i :: 0 <= i < |SubstKeyNames| ==> NoBrace(SubstKeyNames[i]) && SubstKeyNames[i] != ""
  {
  }

  /** The option table names every option once. */
  lemma OptionKeysDistinct()
    ensures forall i, j :: 0 <= i < j < |OptionKeys| ==> OptionKeys[i].0 != OptionKeys[j].0
  {
  }

  /** Every default is for a known option, and `workload` is the only option without one. */
  lemma OptionDefaultsCover()
    ensures forall i :: 0 <= i < |OptionDefaults| ==> OptionDefaults[i].0 in Names(OptionKeys)
    ensures "workload" in Names(OptionKeys) && "workload" !in Names(OptionDefaults)
    ensures forall k :: k in Names(OptionKeys) ==> k in Names(OptionDefaults) || k == "workload"
  {
    forall i | 0 <= i < |OptionDefaults| ensures OptionDefaults[i].0 in Names(OptionKeys) {
      var j := if i < 6 then i else i + 1;
      assert OptionKeys[j].0 == OptionDefaults[i].0;
    }
    assert OptionKeys[6].0 == "workload";
    forall k | k in Names(OptionKeys) ensures k in Names(OptionDefaults) || k == "workload" {
      var j :| 0 <= j < |OptionKeys| && OptionKeys[j].0 == k;
      if j != 6 {
        var i := if j < 6 then j else j - 1;
        assert OptionDefaults[i].0 == k;
      }
    }
  }
}
