/**
 * One benchmark target, `DbSystem` of src/runner/dbsystem.py.
 *
 * A target reads its options through its configuration dict, which is
 * shared by every target built from the same section; assigning an
 * option of the same type writes through to that dict, anything else
 * becomes an instance attribute that then shadows the dict. The target
 * also knows how to name its output files, how to call YCSB and how to
 * build and check the command that wipes the database.
 */
module DbSystems {
  import opened Wrappers
  import opened Text
  import opened Patterns
  import opened Constants
  import opened Templates

  /** A value of the configuration dict or of an instance attribute. */
  datatype CValue = CInt(i: int) | CBool(b: bool) | CStr(s: string) | CList(items: seq<string>) | CNone

  /** `type(a) == type(b)`. */
  predicate SameType(a: CValue, b: CValue) {
    (a.CInt? && b.CInt?) || (a.CBool? && b.CBool?) || (a.CStr? && b.CStr?) ||
    (a.CList? && b.CList?) || (a.CNone? && b.CNone?)
  }

  /** `v == True`: the bool True, or the int 1. */
  predicate EqTrue(v: CValue) {
    v == CBool(true) || v == CInt(1)
  }

  function AsNumber(v: CValue): Option<int> {
    match v
    case CInt(i) => Some(i)
    case CBool(b) => Some(if b then 1 else 0)
    case _ => None
  }

  /** Python `==`: ints and bools compare as numbers, everything else structurally. */
  predicate PyEq(a: CValue, b: CValue) {
    if AsNumber(a).Some? && AsNumber(b).Some? then AsNumber(a) == AsNumber(b) else a == b
  }

  /** `str(v)`; a list is shown as its repr, without escaping. */
  function PyStr(v: CValue): string {
    match v
    case CInt(i) => IntToString(i)
    case CBool(b) => if b then "True" else "False"
    case CStr(s) => s
    case CNone => "None"
    case CList(xs) => "[" + ReprItems(xs) + "]"
  }

  function ReprItems(xs: seq<string>): string {
    if xs == [] then ""
    else "'" + xs[0] + "'" + (if |xs| > 1 then ", " + ReprItems(xs[1..]) else "")
  }

  datatype DbError =
    | AttributeError(name: string)
    | KeyError(key: string)
    | TypeError(what: string)
    | IndexError
    | RuntimeError(db: string)

  /** `DbSystem.__REQUIRED_FIELDS` (src/runner/dbsystem.py:15-20). */
  const RequiredFields: seq<string> := [
    "trials", "min_mpl", "max_mpl", "inc_mpl", "workload", "output",
    "output_dir", "avgkey", "avgfields", "plotkey", "plotfields"]

  /** The read-only properties of the class; assigning one as an instance attribute raises. */
  const PropertyNames: set<string> := {
    "clean_data", "labelname", "outdirpath", "logfile", "workload_path", "base_workload_path", "stats"}

  /** Every required field is an option the runner reads, so a processed section always validates. */
  lemma RequiredAreOptions()
    ensures forall i :: 0 <= i < |RequiredFields| ==> RequiredFields[i] in Names(OptionKeys)
  {
    forall i | 0 <= i < |RequiredFields| ensures RequiredFields[i] in Names(OptionKeys) {
      var j := if i < 4 then i else if i == 4 then 6 else if i == 5 then 4 else if i == 6 then 5 else i + 1;
      assert OptionKeys[j].0 == RequiredFields[i];
    }
  }

  /** The first required field the dict lacks, in the order of the list. */
  function FirstMissing(req: seq<string>, cfg: map<string, CValue>): (r: Option<string>)
    ensures r.None? <==> forall i :: 0 <= i < |req| ==> req[i] in cfg
    ensures r.Some? ==>
      r.value !in cfg && exists i :: 0 <= i < |req| && req[i] == r.value && forall j :: 0 <= j < i ==> req[j] in cfg
  {
    if req == [] then None
    else if req[0] !in cfg then Some(req[0])
    else
      var r := FirstMissing(req[1..], cfg);
      assert forall i :: 1 <= i < |req| ==> req[i] == req[1..][i - 1];
      if r.Some? then
        var i :| 0 <= i < |req[1..]| && req[1..][i] == r.value && forall j :: 0 <= j < i ==> req[1..][j] in cfg;
        assert req[i + 1] == r.value && forall j :: 0 <= j < i + 1 ==> req[j] in cfg;
        r
      else r
  }

  /** `__validate_config` (src/runner/dbsystem.py:69-80): the first missing required key raises. */
  method ValidateConfig(cfg: map<string, CValue>) returns (err: Option<DbError>)
    ensures err.None? <==> FirstMissing(RequiredFields, cfg).None?
    ensures err.Some? ==> err.value == AttributeError(FirstMissing(RequiredFields, cfg).value)
  {
    var i := 0;
    while i < |RequiredFields|
      invariant 0 <= i <= |RequiredFields|
      invariant FirstMissing(RequiredFields, cfg) == FirstMissing(RequiredFields[i..], cfg)
    {
      assert RequiredFields[i..][0] == RequiredFields[i] && RequiredFields[i..][1..] == RequiredFields[i + 1..];
      if RequiredFields[i] !in cfg {
        return Some(AttributeError(RequiredFields[i]));
      }
      i := i + 1;
    }
    return None;
  }

  /** Reading a name: an instance attribute first, then the configuration dict (`__getattr__`). */
  function AttrOf(attrs: map<string, CValue>, cfg: map<string, CValue>, name: string): Result<CValue, DbError> {
    if name in attrs then Ok(attrs[name])
    else if name in cfg then Ok(cfg[name])
    else Err(AttributeError(name))
  }

  /** Whether `__setattr__` writes through to the configuration dict. */
  predicate WritesConfig(cfg: map<string, CValue>, name: string, v: CValue) {
    name != "config" && name in cfg && SameType(v, cfg[name])
  }

  /** The state after `__setattr__`: instance attributes, dict, and the error raised, if any. */
  datatype SetResult = SetResult(attrs: map<string, CValue>, cfg: map<string, CValue>, err: Option<DbError>)

  function SetSpec(attrs: map<string, CValue>, cfg: map<string, CValue>, name: string, v: CValue): SetResult {
    if WritesConfig(cfg, name, v) then SetResult(attrs, cfg[name := v], None)
    else if name in PropertyNames then SetResult(attrs, cfg, Some(AttributeError(name)))
    else SetResult(attrs[name := v], cfg, None)
  }

  /**
   * An assignment that succeeds is what a read then returns, unless an
   * older instance attribute of that name shadows the dict it went to.
   */
  lemma SetThenGet(attrs: map<string, CValue>, cfg: map<string, CValue>, name: string, v: CValue)
    requires SetSpec(attrs, cfg, name, v).err.None?
    ensures var r := SetSpec(attrs, cfg, name, v);
      AttrOf(r.attrs, r.cfg, name) == (if WritesConfig(cfg, name, v) && name in attrs then Ok(attrs[name]) else Ok(v))
  {
  }

  /** An assignment leaves every other name as it was. */
  lemma SetFrame(attrs: map<string, CValue>, cfg: map<string, CValue>, name: string, v: CValue, other: string)
    requires other != name
    ensures var r := SetSpec(attrs, cfg, name, v); AttrOf(r.attrs, r.cfg, other) == AttrOf(attrs, cfg, other)
  {
  }

  /** An option assigned a value of another type keeps its dict value; the instance attribute shadows it. */
  lemma SetOtherTypeShadows(attrs: map<string, CValue>, cfg: map<string, CValue>, name: string, v: CValue)
    requires name in cfg && !SameType(v, cfg[name]) && name !in PropertyNames
    ensures var r := SetSpec(attrs, cfg, name, v);
      r.cfg == cfg && r.attrs == attrs[name := v] && AttrOf(r.attrs, r.cfg, name) == Ok(v)
  {
  }

  /** The shared configuration dict of one section. */
  class Config {
    var entries: map<string, CValue>

    constructor (entries: map<string, CValue>)
      ensures this.entries == entries
    {
      this.entries := entries;
    }
  }

  /** `dict(base); update(extra)`: extra keys win, the others keep their base value. */
  function Merge(base: map<string, string>, extra: Option<map<string, string>>): (r: map<string, string>)
    ensures extra.None? ==> r == base
    ensures extra.Some? ==> r.Keys == base.Keys + extra.value.Keys
    ensures extra.Some? ==> forall k :: k in r ==> r[k] == (if k in extra.value then extra.value[k] else base[k])
  {
    if extra.None? then base else base + extra.value
  }

  /**
   * The table name a target ends up with (src/runner/dbsystem.py:43-47):
   * the explicit argument, else the workload's `table`, else "usertable".
   */
  function ChooseTablename(tablename: Option<string>, wc: map<string, string>): (r: string)
    ensures tablename.Some? ==> r == tablename.value
    ensures tablename.None? && "table" in wc ==> r == wc["table"]
    ensures tablename.None? && "table" !in wc ==> r == DefaultTablename
  {
    if tablename.Some? then tablename.value
    else if "table" in wc then wc["table"]
    else DefaultTablename
  }

  /** `fstr.format(*args)` for format strings whose only fields are `{}`. */
  function Format(f: string, args: seq<string>): Option<string>
  {
    if f == [] then Some([])
    else if |f| >= 2 && f[0] == '{' && f[1] == '}' then
      if args == [] then None
      else match Format(f[2..], args[1..])
        case None => None
        case Some(t) => Some(args[0] + t)
    else match Format(f[1..], args)
      case None => None
      case Some(t) => Some([f[0]] + t)
  }

  lemma {:induction false} FormatLiteral(lit: string, rest: string, args: seq<string>)
    requires '{' !in lit
    ensures Format(lit + rest, args).Some? == Format(rest, args).Some?
    ensures Format(lit + rest, args).Some? ==> Format(lit + rest, args).value == lit + Format(rest, args).value
    decreases |lit|
  {
    if lit != [] {
      assert (lit + rest)[0] == lit[0] && (lit + rest)[1..] == lit[1..] + rest;
      FormatLiteral(lit[1..], rest, args);
    } else {
      assert lit + rest == rest;
    }
  }

  lemma FormatHole(rest: string, a: string, args: seq<string>)
    ensures Format("{}" + rest, [a] + args).Some? == Format(rest, args).Some?
    ensures Format("{}" + rest, [a] + args).Some? ==> Format("{}" + rest, [a] + args).value == a + Format(rest, args).value
  {
    var f := "{}" + rest;
    assert f[0] == '{' && f[1] == '}' && f[2..] == rest;
    assert ([a] + args)[0] == a && ([a] + args)[1..] == args;
  }

  /** One `{}` field between plain text takes the one argument. */
  lemma FormatOne(mid: string, post: string, b: string)
    requires '{' !in mid && '{' !in post
    ensures Format(mid + ("{}" + post), [b]) == Some(mid + (b + post))
  {
    FormatLiteral(post, "", []);
    assert post + "" == post;
    FormatHole(post, b, []);
    assert [b] + [] == [b];
    FormatLiteral(mid, "{}" + post, [b]);
  }

  /** Two `{}` fields separated by plain text take the two arguments in order. */
  lemma FormatTwo(pre: string, mid: string, post: string, a: string, b: string)
    requires '{' !in pre && '{' !in mid && '{' !in post
    ensures Format(pre + "{}" + mid + "{}" + post, [a, b]) == Some(pre + a + mid + b + post)
  {
    FormatTwoNested(pre, mid, post, a, b);
    Regroup(pre, "{}", mid, "{}", post);
    Regroup(pre, a, mid, b, post);
  }

  lemma FormatTwoNested(pre: string, mid: string, post: string, a: string, b: string)
    requires '{' !in pre && '{' !in mid && '{' !in post
    ensures Format(pre + ("{}" + (mid + ("{}" + post))), [a, b]) == Some(pre + (a + (mid + (b + post))))
  {
    var t2 := mid + ("{}" + post);
    FormatOne(mid, post, b);
    FormatHole(t2, a, [b]);
    assert [a] + [b] == [a, b];
    FormatLiteral(pre, "{}" + t2, [a, b]);
  }

  lemma Regroup(s1: string, s2: string, s3: string, s4: string, s5: string)
    ensures s1 + s2 + s3 + s4 + s5 == s1 + (s2 + (s3 + (s4 + s5)))
  {
    calc {
      s1 + s2 + s3 + s4 + s5;
      (s1 + s2 + s3) + (s4 + s5);
      (s1 + s2) + (s3 + (s4 + s5));
      s1 + (s2 + (s3 + (s4 + s5)));
    }
  }

  /** `os.path.join(a, b)` on POSIX. */
  function PathJoin(a: string, b: string): string {
    if |b| > 0 && b[0] == '/' then b
    else if a == "" || a[|a| - 1] == '/' then a + b
    else a + "/" + b
  }

  /** `RE_HOSTNAME_PORT.search(url).groups()`: host and port of a URL. */
  function HostPort(url: string): (r: Option<(string, string)>)
    ensures r.Some? <==> Search(HostPortPattern, url).Some?
    ensures r.Some? ==> r.value.0 == Search(HostPortPattern, url).value.gap && r.value.1 == Search(HostPortPattern, url).value.cap
  {
    match Search(HostPortPattern, url)
    case None => None
    case Some(g) => Some((g.gap, g.cap))
  }

  /** "mongodb://localhost:27017/ycsb" gives host "localhost" and port "27017". */
  lemma HostPortExample()
    ensures HostPort("mongodb://localhost:27017/ycsb") == Some(("localhost", "27017"))
  {
    var p := HostPortPattern;
    assert "mongodb://localhost:27017/ycsb" == "mongodb" + (p.head + ("localhost" + (p.tail + "27017" + "/ycsb")));
    assert Stops(|"27017"|, "/ycsb", p.cls, p.limit);
    GapFinds(p, "mongodb://localhost:27017/ycsb", "mongodb", "localhost", "27017", "/ycsb");
  }

  /** Sets the value of an existing key, keeping the dict order. */
  function SetKey(cfg: seq<(string, string)>, k: string, v: string): (r: seq<(string, string)>)
    ensures |r| == |cfg| && forall i :: 0 <= i < |r| ==> r[i].0 == cfg[i].0
  {
    seq(|cfg|, i requires 0 <= i < |cfg| => if cfg[i].0 == k then (k, v) else cfg[i])
  }

  function StrTable(t: seq<(string, Scalar)>): (r: seq<(string, string)>)
    ensures |r| == |t| && forall i :: 0 <= i < |r| ==> r[i].0 == t[i].0
  {
    seq(|t|, i requires 0 <= i < |t| => (t[i].0, Str(t[i].1)))
  }

  /** Overrides host and port from a URL in the workload, when the URL matches. */
  function WithUrl(cfg: seq<(string, string)>, wc: map<string, string>, key: string): (r: seq<(string, string)>)
    ensures |r| == |cfg| && forall i :: 0 <= i < |r| ==> r[i].0 == cfg[i].0
  {
    if key in wc && HostPort(wc[key]).Some? then
      var (h, p) := HostPort(wc[key]).value;
      SetKey(SetKey(cfg, "host", h), "port", p)
    else cfg
  }

  /** Overrides `k` by the workload's `db<k>`, when present. */
  function WithAuth(cfg: seq<(string, string)>, wc: map<string, string>, k: string): (r: seq<(string, string)>)
    ensures |r| == |cfg| && forall i :: 0 <= i < |r| ==> r[i].0 == cfg[i].0
  {
    if "db" + k in wc then SetKey(cfg, k, wc["db" + k]) else cfg
  }

  /** `jdbc_config` after the workload's overrides (src/runner/dbsystem.py:121-132). */
  function JdbcConfig(wc: map<string, string>): (r: seq<(string, string)>)
    ensures |r| == |CleanDefaultJdbc| && forall i :: 0 <= i < |r| ==> r[i].0 == CleanDefaultJdbc[i].0
  {
    var c := WithUrl(StrTable(CleanDefaultJdbc), wc, "db.url");
    WithAuth(WithAuth(WithAuth(c, wc, "user"), wc, "passwd"), wc, "dbname")
  }

  /** `mongo_config` after the workload's overrides (src/runner/dbsystem.py:122, 134-139). */
  function MongoConfig(wc: map<string, string>): (r: seq<(string, string)>)
    ensures |r| == |CleanDefaultMongo| && forall i :: 0 <= i < |r| ==> r[i].0 == CleanDefaultMongo[i].0
  {
    var c := WithUrl(StrTable(CleanDefaultMongo), wc, "mongodb.url");
    if "mongodb.database" in wc then SetKey(c, "dbname", wc["mongodb.database"]) else c
  }

  function Prefixed(prefix: string, cfg: seq<(string, string)>): (r: Subst)
    ensures |r| == |cfg|
  {
    seq(|cfg|, i requires 0 <= i < |cfg| => (prefix + Upper(cfg[i].0), cfg[i].1))
  }

  /** The substitution map of `__templateify`, in dict order (src/runner/dbsystem.py:141-147). */
  function SubstList(tablename: string, wc: map<string, string>): (r: Subst)
    ensures |r| == |SubstKeyNames|
  {
    [("TABLENAME", tablename)] + Prefixed("JDBC_", JdbcConfig(wc)) + Prefixed("MONGO_", MongoConfig(wc))
  }

  lemma PrefixedKey(prefix: string, cfg: seq<(string, string)>, i: nat, k: string, upper: string)
    requires i < |cfg| && cfg[i].0 == k && Upper(k) == upper
    ensures Prefixed(prefix, cfg)[i].0 == prefix + upper
  {
  }

  lemma JdbcKeys(wc: map<string, string>)
    ensures var r := Prefixed("JDBC_", JdbcConfig(wc));
      |r| == 5 && r[0].0 == "JDBC_PORT" && r[1].0 == "JDBC_USER" && r[2].0 == "JDBC_PASSWD" &&
      r[3].0 == "JDBC_DBNAME" && r[4].0 == "JDBC_HOST"
  {
    JdbcPrefixed(JdbcConfig(wc));
  }

  /** Any table with the key names of the JDBC defaults gets these placeholders. */
  lemma JdbcPrefixed(j: seq<(string, string)>)
    requires |j| == |CleanDefaultJdbc| && forall i :: 0 <= i < |j| ==> j[i].0 == CleanDefaultJdbc[i].0
    ensures var r := Prefixed("JDBC_", j);
      |r| == 5 && r[0].0 == "JDBC_PORT" && r[1].0 == "JDBC_USER" && r[2].0 == "JDBC_PASSWD" &&
      r[3].0 == "JDBC_DBNAME" && r[4].0 == "JDBC_HOST"
  {
    assert Upper("port") == "PORT" && Upper("user") == "USER" && Upper("passwd") == "PASSWD";
    assert Upper("dbname") == "DBNAME" && Upper("host") == "HOST";
    PrefixedKey("JDBC_", j, 0, "port", "PORT");
    PrefixedKey("JDBC_", j, 1, "user", "USER");
    PrefixedKey("JDBC_", j, 2, "passwd", "PASSWD");
    PrefixedKey("JDBC_", j, 3, "dbname", "DBNAME");
    PrefixedKey("JDBC_", j, 4, "host", "HOST");
  }

  lemma MongoKeys(wc: map<string, string>)
    ensures var r := Prefixed("MONGO_", MongoConfig(wc));
      |r| == 3 && r[0].0 == "MONGO_PORT" && r[1].0 == "MONGO_DBNAME" && r[2].0 == "MONGO_HOST"
  {
    MongoPrefixed(MongoConfig(wc));
  }

  /** Any table with the key names of the MongoDB defaults gets these placeholders. */
  lemma MongoPrefixed(m: seq<(string, string)>)
    requires |m| == |CleanDefaultMongo| && forall i :: 0 <= i < |m| ==> m[i].0 == CleanDefaultMongo[i].0
    ensures var r := Prefixed("MONGO_", m);
      |r| == 3 && r[0].0 == "MONGO_PORT" && r[1].0 == "MONGO_DBNAME" && r[2].0 == "MONGO_HOST"
  {
    assert Upper("port") == "PORT" && Upper("dbname") == "DBNAME" && Upper("host") == "HOST";
    PrefixedKey("MONGO_", m, 0, "port", "PORT");
    PrefixedKey("MONGO_", m, 1, "dbname", "DBNAME");
    PrefixedKey("MONGO_", m, 2, "host", "HOST");
  }

  /** The map's keys are exactly the placeholders of the clean command table, in order. */
  lemma SubstListKeys(tablename: string, wc: map<string, string>)
    ensures forall i :: 0 <= i < |SubstKeyNames| ==> SubstList(tablename, wc)[i].0 == SubstKeyNames[i]
  {
    JdbcKeys(wc);
    MongoKeys(wc);
    KeysInOrder(tablename, Prefixed("JDBC_", JdbcConfig(wc)), Prefixed("MONGO_", MongoConfig(wc)));
  }

  lemma KeysInOrder(tablename: string, j: Subst, m: Subst)
    requires |j| == 5 && j[0].0 == "JDBC_PORT" && j[1].0 == "JDBC_USER" && j[2].0 == "JDBC_PASSWD" &&
      j[3].0 == "JDBC_DBNAME" && j[4].0 == "JDBC_HOST"
    requires |m| == 3 && m[0].0 == "MONGO_PORT" && m[1].0 == "MONGO_DBNAME" && m[2].0 == "MONGO_HOST"
    ensures var r := [("TABLENAME", tablename)] + j + m;
      |r| == |SubstKeyNames| && forall i :: 0 <= i < |SubstKeyNames| ==> r[i].0 == SubstKeyNames[i]
  {
    var r := [("TABLENAME", tablename)] + j + m;
    forall i | 0 <= i < |SubstKeyNames| ensures r[i].0 == SubstKeyNames[i] {
      if 1 <= i < 6 { assert r[i] == j[i - 1]; }
      else if 6 <= i { assert r[i] == m[i - 6]; }
    }
  }

  function Renders(cmd: seq<seq<Piece>>): (r: seq<string>)
    ensures |r| == |cmd|
  {
    seq(|cmd|, i requires 0 <= i < |cmd| => Render(cmd[i]))
  }

  /**
   * Templating a clean command fills every placeholder with the value
   * the map gives it and leaves no brace behind, provided the values
   * themselves contain none.
   */
  lemma CleanCommandFilled(db: string, subst: Subst)
    requires db in CleanCommands && CleanSubst(subst) && |subst| == |SubstKeyNames|
    requires forall i :: 0 <= i < |SubstKeyNames| ==> subst[i].0 == SubstKeyNames[i]
    ensures var cmd := CleanCommands[db];
      forall i :: 0 <= i < |cmd| ==>
        ApplySubst(Renders(cmd), subst)[i] == FillArg(cmd[i], subst) && NoBrace(FillArg(cmd[i], subst))
  {
    CleanCommandsCovered();
    var cmd := CleanCommands[db];
    assert CommandOk(cmd);
    forall i | 0 <= i < |cmd|
      ensures ApplySubst(Renders(cmd), subst)[i] == FillArg(cmd[i], subst) && NoBrace(FillArg(cmd[i], subst))
    {
      assert ArgOk(cmd[i]);
      ReplaceAllRender(cmd[i], subst);
      forall j | 0 <= j < |cmd[i]| && cmd[i][j].Hole? ensures Defines(subst, cmd[i][j].key) {
        assert HoleIn(cmd[i][j], SubstKeyNames);
        var n :| 0 <= n < |SubstKeyNames| && SubstKeyNames[n] == cmd[i][j].key;
        assert subst[n].0 == cmd[i][j].key;
      }
      FillArgClean(cmd[i], subst);
    }
  }

  /** `SUPPORTED_DBS[name]` when not None, else the name (src/runner/dbsystem.py:363-370), as written. */
  function YcsbDbNameAsWritten(name: string): Result<string, DbError> {
    if name !in SupportedDbs then Err(KeyError(name))
    else if SupportedDbs[name].Some? then Ok(SupportedDbs[name].value)
    else Ok(name)
  }

  /** The YCSB binding names the runner can hand to YCSB. */
  const YcsbBindings: set<string> := {"jdbc", "mongodb", "redis", "cassandra-10"}

  /**
   * The lookup by the lower-cased name, the way `__process_dbs` and
   * `clean` treat the name: every accepted target has a YCSB binding.
   */
  function YcsbDbName(name: string): (r: Result<string, DbError>)
    ensures Lower(name) in SupportedDbs <==> r.Ok?
    ensures r.Ok? ==> r.value in YcsbBindings
    ensures r.Ok? && SupportedDbs[Lower(name)].None? ==> r.value == Lower(name)
  {
    var key := Lower(name);
    if key !in SupportedDbs then Err(KeyError(key))
    else if SupportedDbs[key].Some? then Ok(SupportedDbs[key].value)
    else Ok(key)
  }

  /**
   * A section named "MongoDB" passes the `__process_dbs` check, but the
   * binding lookup as written raises KeyError for it; the lower-cased
   * lookup gives "mongodb".
   */
  lemma YcsbDbNameMixedCase()
    ensures Lower("MongoDB") in SupportedDbs
    ensures YcsbDbNameAsWritten("MongoDB") == Err(KeyError("MongoDB"))
    ensures YcsbDbName("MongoDB") == Ok("mongodb")
  {
    assert Lower("MongoDB") == "mongodb";
  }

  /** On names already in lower case, the corrected lookup agrees with the code as written. */
  lemma YcsbDbNameAgrees(name: string)
    requires Lower(name) == name
    ensures YcsbDbName(name) == YcsbDbNameAsWritten(name)
  {
  }

  /** `"{}={}\n".format(k, v)` for each key in turn. */
  function Lines(keys: seq<string>, wc: map<string, string>): string
    requires forall i :: 0 <= i < |keys| ==> keys[i] in wc
  {
    if keys == [] then "" else keys[0] + "=" + wc[keys[0]] + "\n" + Lines(keys[1..], wc)
  }

  predicate StrictlySorted(ks: seq<string>) {
    forall i, j :: 0 <= i < j < |ks| ==> LexLess(ks[i], ks[j])
  }

  /** `ks` with `k` inserted at its place in the order. */
  function Insert(ks: seq<string>, k: string): (r: seq<string>)
    ensures |r| == |ks| + 1
    ensures forall x :: x in r <==> x == k || x in ks
  {
    if ks == [] then [k]
    else if LexLess(k, ks[0]) then [k] + ks
    else [ks[0]] + Insert(ks[1..], k)
  }

  lemma {:induction false} InsertSorted(ks: seq<string>, k: string)
    requires StrictlySorted(ks) && k !in ks
    ensures StrictlySorted(Insert(ks, k))
    decreases |ks|
  {
    if ks == [] {
    } else if LexLess(k, ks[0]) {
      SortedTail(ks);
      assert ks == [ks[0]] + ks[1..];
      forall y | y in ks ensures LexLess(k, y) {
        if y != ks[0] { LexTransitive(k, ks[0], y); }
      }
      SortedCons(k, ks);
    } else {
      LexTotal(k, ks[0]);
      SortedTail(ks);
      InsertSorted(ks[1..], k);
      var t := Insert(ks[1..], k);
      forall y | y in t ensures LexLess(ks[0], y) {
      }
      SortedCons(ks[0], t);
    }
  }

  /** The tail of a strictly sorted list is strictly sorted and lies above its head. */
  lemma SortedTail(ks: seq<string>)
    requires StrictlySorted(ks) && ks != []
    ensures StrictlySorted(ks[1..]) && forall y :: y in ks[1..] ==> LexLess(ks[0], y)
  {
    forall i, j | 0 <= i < j < |ks[1..]| ensures LexLess(ks[1..][i], ks[1..][j]) {
      assert ks[1..][i] == ks[i + 1] && ks[1..][j] == ks[j + 1];
    }
    forall y | y in ks[1..] ensures LexLess(ks[0], y) {
      var m :| 0 <= m < |ks[1..]| && ks[1..][m] == y;
      assert ks[m + 1] == y;
    }
  }

  /** An element below every element of a strictly sorted list may go in front of it. */
  lemma SortedCons(x: string, t: seq<string>)
    requires StrictlySorted(t) && forall y :: y in t ==> LexLess(x, y)
    ensures StrictlySorted([x] + t)
  {
    var r := [x] + t;
    forall i, j | 0 <= i < j < |r| ensures LexLess(r[i], r[j]) {
      assert r[j] == t[j - 1];
      if i == 0 { assert t[j - 1] in t; } else { assert r[i] == t[i - 1]; }
    }
  }

  /** Two strictly sorted lists with the same elements are the same list. */
  lemma {:induction false} SortedUnique(a: seq<string>, b: seq<string>)
    requires StrictlySorted(a) && StrictlySorted(b)
    requires forall x :: x in a <==> x in b
    ensures a == b
    decreases |a|
  {
    if a != [] { assert a[0] in a; }
    if b != [] { assert b[0] in b; }
    if a != [] && b != [] {
      var i :| 0 <= i < |b| && b[i] == a[0];
      var j :| 0 <= j < |a| && a[j] == b[0];
      if i > 0 {
        assert LexLess(b[0], b[i]);
        if j > 0 { assert LexLess(a[0], a[j]); LexAsymmetric(a[0], b[0]); }
        else { LexIrreflexive(a[0]); }
      }
      assert a[0] == b[0];
      forall x ensures x in a[1..] <==> x in b[1..] {
        if x in a[1..] {
          var m :| 0 <= m < |a[1..]| && a[1..][m] == x;
          assert LexLess(a[0], a[m + 1]);
          LexIrreflexive(a[0]);
          assert x in b && x != b[0];
          var n :| 0 <= n < |b| && b[n] == x;
          assert n > 0 && b[1..][n - 1] == x;
        }
        if x in b[1..] {
          var m :| 0 <= m < |b[1..]| && b[1..][m] == x;
          assert LexLess(b[0], b[m + 1]);
          LexIrreflexive(b[0]);
          assert x in a && x != a[0];
          var n :| 0 <= n < |a| && a[n] == x;
          assert n > 0 && a[1..][n - 1] == x;
        }
      }
      assert StrictlySorted(a[1..]) by {
        forall p, q | 0 <= p < q < |a[1..]| ensures LexLess(a[1..][p], a[1..][q]) { assert a[1..][p] == a[p + 1] && a[1..][q] == a[q + 1]; }
      }
      assert StrictlySorted(b[1..]) by {
        forall p, q | 0 <= p < q < |b[1..]| ensures LexLess(b[1..][p], b[1..][q]) { assert b[1..][p] == b[p + 1] && b[1..][q] == b[q + 1]; }
      }
      SortedUnique(a[1..], b[1..]);
      assert a == [a[0]] + a[1..] && b == [b[0]] + b[1..];
    }
  }

  /** A string-valued attribute; anything else cannot be concatenated or joined. */
  function AttrStrOf(attrs: map<string, CValue>, cfg: map<string, CValue>, name: string): Result<string, DbError> {
    match AttrOf(attrs, cfg, name)
    case Err(e) => Err(e)
    case Ok(v) => if v.CStr? then Ok(v.s) else Err(TypeError(name))
  }

  /** The three assignments at the start of `__init__` (src/runner/dbsystem.py:28-31). */
  function InitSets(cfg: map<string, CValue>, dbname: string, dbLabel: string, tablename: Option<string>): SetResult {
    var s1 := SetSpec(map[], cfg, "dbname", CStr(dbname));
    var s2 := SetSpec(s1.attrs, s1.cfg, "label", CStr(dbLabel));
    SetSpec(s2.attrs, s2.cfg, "tablename", if tablename.Some? then CStr(tablename.value) else CNone)
  }

  /**
   * `dict(config['config'])` of the workload file at `cwd`/`workload`
   * (src/runner/dbsystem.py:83-87): `files` maps each readable path to its
   * `config` section; a file without one raises KeyError.
   */
  function BaseProps(attrs: map<string, CValue>, cfg: map<string, CValue>, files: map<string, map<string, string>>,
                     cwd: string): (r: Result<map<string, string>, DbError>)
    ensures r.Ok? <==> AttrStrOf(attrs, cfg, "workload").Ok? && PathJoin(cwd, AttrStrOf(attrs, cfg, "workload").value) in files
  {
    match AttrStrOf(attrs, cfg, "workload")
    case Err(e) => Err(e)
    case Ok(w) => if PathJoin(cwd, w) in files then Ok(files[PathJoin(cwd, w)]) else Err(KeyError("config"))
  }

  /** The names a target sets on itself, none of which is an option the runner reads. */
  predicate IdentityFree(cfg: map<string, CValue>) {
    "dbname" !in cfg && "label" !in cfg && "tablename" !in cfg
  }

  /**
   * For a dict that has none of the identity names, which is every dict
   * the runner builds, construction leaves the dict as it is and the
   * identity lives in instance attributes.
   */
  lemma IdentityAttrs(cfg: map<string, CValue>, dbname: string, dbLabel: string, tablename: Option<string>, t: string)
    requires IdentityFree(cfg)
    ensures var s3 := InitSets(cfg, dbname, dbLabel, tablename);
      var s4 := SetSpec(s3.attrs, s3.cfg, "tablename", CStr(t));
      s3.cfg == cfg && s4.cfg == cfg && s4.err.None? &&
      s4.attrs == map["dbname" := CStr(dbname), "label" := CStr(dbLabel), "tablename" := CStr(t)]
  {
  }

  /** One `DbSystem` object. */
  class DbSystem {
    /** The section's shared dict (`self.config`). */
    const config: Config
    /** `self.__datestr`, the creation timestamp. */
    const datestr: string
    /** Instance attributes set through `__setattr__`. */
    var attrs: map<string, CValue>
    /** `self.workload_config`. */
    var workloadConfig: map<string, string>
    /** The temporary workload file's path, once created. */
    var tempPath: Option<string>
    /** `self.__outdir`, computed on first use. */
    var outdir: Option<string>

    constructor Init(config: Config, datestr: string)
      ensures this.config == config && this.datestr == datestr
      ensures attrs == map[] && workloadConfig == map[] && tempPath.None? && outdir.None?
    {
      this.config := config;
      this.datestr := datestr;
      attrs := map[];
      workloadConfig := map[];
      tempPath := None;
      outdir := None;
    }

    function Attr(name: string): Result<CValue, DbError>
      reads `attrs, `workloadConfig, `tempPath, config
    {
      AttrOf(attrs, config.entries, name)
    }

    /** `__setattr__` (src/runner/dbsystem.py:56-61). */
    method SetAttr(name: string, v: CValue) returns (err: Option<DbError>)
      requires name != "config"
      modifies this, config
      ensures var r := SetSpec(old(attrs), old(config.entries), name, v);
        attrs == r.attrs && config.entries == r.cfg && err == r.err
      ensures workloadConfig == old(workloadConfig) && tempPath == old(tempPath) && outdir == old(outdir)
    {
      if name in config.entries && SameType(v, config.entries[name]) {
        config.entries := config.entries[name := v];
        err := None;
      } else if name in PropertyNames {
        err := Some(AttributeError(name));
      } else {
        attrs := attrs[name := v];
        err := None;
      }
    }

    /**
     * `DbSystem(dbname, config, label, tablename, extraneous_config)`
     * (src/runner/dbsystem.py:23-47). The workload file's `config` section
     * and the temporary file's name are given; the file is not written.
     */
    static method Create(dbname: string, config: Config, dbLabel: string, tablename: Option<string>,
                         extraneous: Option<map<string, string>>, files: map<string, map<string, string>>,
                         cwd: string, datestr: string, tempName: string)
      returns (r: Result<DbSystem, DbError>)
      modifies config
      ensures FirstMissing(RequiredFields, old(config.entries)).Some? ==>
        r == Err(AttributeError(FirstMissing(RequiredFields, old(config.entries)).value)) &&
        config.entries == old(config.entries)
      ensures FirstMissing(RequiredFields, old(config.entries)).None? ==>
        var s3 := InitSets(old(config.entries), dbname, dbLabel, tablename);
        var base := BaseProps(s3.attrs, s3.cfg, files, cwd);
        (base.Err? ==> r == Err(base.error) && config.entries == s3.cfg) && (base.Ok? ==> r.Ok?)
      ensures r.Ok? ==>
        var db := r.value;
        var s3 := InitSets(old(config.entries), dbname, dbLabel, tablename);
        var wc := Merge(BaseProps(s3.attrs, s3.cfg, files, cwd).value, extraneous);
        var s4 := SetSpec(s3.attrs, s3.cfg, "tablename", CStr(ChooseTablename(tablename, wc)));
        fresh(db) && db.config == config && db.datestr == datestr &&
        db.attrs == s4.attrs && config.entries == s4.cfg &&
        db.workloadConfig == wc && db.tempPath == Some(tempName) && db.outdir.None?
    {
      var err := ValidateConfig(config.entries);
      if err.Some? {
        return Err(err.value);
      }
      var db := new DbSystem.Init(config, datestr);
      var _ := db.SetAttr("dbname", CStr(dbname));
      var _ := db.SetAttr("label", CStr(dbLabel));
      var _ := db.SetAttr("tablename", if tablename.Some? then CStr(tablename.value) else CNone);
      var base := BaseProps(db.attrs, config.entries, files, cwd);
      if base.Err? {
        return Err(base.error);
      }
      db.workloadConfig := Merge(base.value, extraneous);
      db.tempPath := Some(tempName);
      var _ := db.SetAttr("tablename", CStr(ChooseTablename(tablename, db.workloadConfig)));
      return Ok(db);
    }

    /** A string-valued attribute; anything else cannot be concatenated or joined. */
    function AttrStr(name: string): Result<string, DbError>
      reads `attrs, `workloadConfig, `tempPath, config
    {
      AttrStrOf(attrs, config.entries, name)
    }

    /**
     * The exporter lookup that starts `export_stats`
     * (src/runner/dbsystem.py:252): the 'output' value when
     * `SUPPORTED_OUTPUTS` has an exporter for it, otherwise KeyError.
     */
    function ExportOutput(): (r: Result<string, DbError>)
      reads `attrs, `workloadConfig, `tempPath, config
      ensures AttrStr("output").Err? ==> r == Err(AttrStr("output").error)
      ensures AttrStr("output").Ok? ==> (r.Ok? <==> AttrStr("output").value in SupportedOutputs)
      ensures AttrStr("output").Ok? && r.Err? ==> r.error == KeyError(AttrStr("output").value)
      ensures r.Ok? ==> r.value == "csv"
    {
      match AttrStr("output")
      case Err(e) => Err(e)
      case Ok(o) => if o in SupportedOutputs then Ok(o) else Err(KeyError(o))
    }

    /** `labelname` (src/runner/dbsystem.py:165-170): the name with its label appended. */
    function LabelName(): (r: Result<string, DbError>)
      reads `attrs, `workloadConfig, `tempPath, config
      ensures AttrStr("dbname").Ok? && AttrStr("label").Ok? ==> r == Ok(AttrStr("dbname").value + AttrStr("label").value)
      ensures AttrStr("dbname").Err? ==> r == Err(AttrStr("dbname").error)
    {
      match AttrStr("dbname")
      case Err(e) => Err(e)
      case Ok(n) =>
        match AttrStr("label")
        case Err(e) => Err(e)
        case Ok(l) => Ok(n + l)
    }

    /** `__makefname` (src/runner/dbsystem.py:360-361). */
    function MakeFName(fstr: string): Result<string, DbError>
      reads `attrs, `workloadConfig, `tempPath, config
    {
      match LabelName()
      case Err(e) => Err(e)
      case Ok(l) =>
        match Format(fstr, [l, datestr])
        case None => Err(IndexError)
        case Some(f) => Ok(f)
    }

    /** The directory path `outdirpath` computes on first use (src/runner/dbsystem.py:177-179). */
    function OutDirSpec(cwd: string): Result<string, DbError>
      reads `attrs, `workloadConfig, `tempPath, config
    {
      match AttrStr("output_dir")
      case Err(e) => Err(e)
      case Ok(d) =>
        match LabelName()
        case Err(e) => Err(e)
        case Ok(l) => Ok(PathJoin(PathJoin(cwd, d), datestr + "-" + l))
    }

    /**
     * `outdirpath`: computed once and remembered; later calls return the
     * remembered path whatever the working directory is then.
     */
    method OutDirPath(cwd: string) returns (r: Result<string, DbError>)
      modifies this
      ensures old(outdir).Some? ==> r == Ok(old(outdir).value) && outdir == old(outdir)
      ensures old(outdir).None? ==> r == OutDirSpec(cwd) && outdir == (if r.Ok? then Some(r.value) else None)
      ensures attrs == old(attrs) && workloadConfig == old(workloadConfig) && tempPath == old(tempPath)
    {
      if outdir.None? {
        r := OutDirSpec(cwd);
        if r.Ok? {
          outdir := Some(r.value);
        }
      } else {
        r := Ok(outdir.value);
      }
    }

    /** The path `makefpath(fstr)` returns: the file name inside the output directory. */
    function FPathSpec(fstr: string, cwd: string): Result<string, DbError>
      reads `attrs, `workloadConfig, `tempPath, `outdir, config
    {
      var dir := if outdir.Some? then Ok(outdir.value) else OutDirSpec(cwd);
      if dir.Err? then Err(dir.error)
      else if MakeFName(fstr).Err? then Err(MakeFName(fstr).error)
      else Ok(PathJoin(dir.value, MakeFName(fstr).value))
    }

    /** `makefpath(fstr)` (src/runner/dbsystem.py:350-358). */
    method MakeFPath(fstr: string, cwd: string) returns (r: Result<string, DbError>)
      modifies this
      ensures r == old(FPathSpec(fstr, cwd))
      ensures attrs == old(attrs) && workloadConfig == old(workloadConfig) && tempPath == old(tempPath)
      ensures old(outdir).Some? ==> outdir == old(outdir)
      ensures old(outdir).None? ==> outdir == (if old(OutDirSpec(cwd)).Ok? then Some(old(OutDirSpec(cwd)).value) else None)
    {
      var dir := OutDirPath(cwd);
      if dir.Err? {
        return Err(dir.error);
      }
      var name := MakeFName(fstr);
      if name.Err? {
        return Err(name.error);
      }
      return Ok(PathJoin(dir.value, name.value));
    }

    /**
     * `clean_data` as written (src/runner/dbsystem.py:154-163). With
     * `clean_data == True` in the dict the property reads `self.mpl`;
     * when that raises AttributeError Python falls back to
     * `__getattr__("clean_data")`, which returns the dict value.
     */
    function CleanDataAsWritten(): Result<CValue, DbError>
      reads `attrs, `workloadConfig, `tempPath, config
    {
      if "clean_data" in config.entries && EqTrue(config.entries["clean_data"]) then
        match Attr("mpl")
        case Err(_) => Attr("clean_data")
        case Ok(m) =>
          match Attr("min_mpl")
          case Err(_) => Attr("clean_data")
          case Ok(lo) => Ok(CBool(PyEq(m, lo)))
      else Ok(CBool(true))
    }

    /**
     * The decision the property is meant to make for the step at `mpl`:
     * with `clean_data` on, clean only at the first MPL of a trial.
     */
    function CleanDataAt(mpl: int): (r: Result<bool, DbError>)
      reads `attrs, `workloadConfig, `tempPath, config
      ensures !("clean_data" in config.entries && EqTrue(config.entries["clean_data"])) ==> r == Ok(true)
      ensures "clean_data" in config.entries && EqTrue(config.entries["clean_data"]) && Attr("min_mpl") == Ok(CInt(mpl)) ==> r == Ok(true)
      ensures "clean_data" in config.entries && EqTrue(config.entries["clean_data"]) && Attr("min_mpl").Ok? && Attr("min_mpl").value.CInt? ==>
        r == Ok(mpl == Attr("min_mpl").value.i)
    {
      if "clean_data" in config.entries && EqTrue(config.entries["clean_data"]) then
        match Attr("min_mpl")
        case Err(e) => Err(e)
        case Ok(lo) => Ok(PyEq(CInt(mpl), lo))
      else Ok(true)
    }

    /** `workload_path`: the temporary file once it exists, else the configured path under `cwd`. */
    function WorkloadPath(cwd: string): Result<string, DbError>
      reads `attrs, `workloadConfig, `tempPath, config
    {
      if tempPath.Some? then Ok(tempPath.value)
      else match AttrStr("workload")
        case Err(e) => Err(e)
        case Ok(w) => Ok(PathJoin(cwd, w))
    }

    function YcsbCommand(verb: string, threads: string, cwd: string): Result<seq<string>, DbError>
      reads `attrs, `workloadConfig, `tempPath, config
    {
      match AttrStr("dbname")
      case Err(e) => Err(e)
      case Ok(n) =>
        match YcsbDbNameAsWritten(n)
        case Err(e) => Err(e)
        case Ok(b) =>
          match WorkloadPath(cwd)
          case Err(e) => Err(e)
          case Ok(w) => Ok(["ycsb", verb, b, "-P", w, "-s", "-threads", threads])
    }

    /** `cmd_ycsb_load()` (src/runner/dbsystem.py:296-309). */
    function CmdYcsbLoad(cwd: string): Result<seq<string>, DbError>
      reads `attrs, `workloadConfig, `tempPath, config
    {
      YcsbCommand("load", "1", cwd)
    }

    /** `cmd_ycsb_run(mpl)` (src/runner/dbsystem.py:311-324). */
    function CmdYcsbRun(mpl: int, cwd: string): Result<seq<string>, DbError>
      reads `attrs, `workloadConfig, `tempPath, config
    {
      YcsbCommand("run", IntToString(mpl), cwd)
    }

    /** The substitution map for this target: its table name and its workload's overrides. */
    function SubstOf(): Result<Subst, DbError>
      reads `attrs, `workloadConfig, `tempPath, config
    {
      match Attr("tablename")
      case Err(e) => Err(e)
      case Ok(t) => Ok(SubstList(PyStr(t), workloadConfig))
    }

    /**
     * The command `clean()` runs: the clean command of the lower-cased
     * name, templated with this target's substitutions, with that name.
     */
    function CleanCommand(): (r: Result<(string, seq<string>), DbError>)
      reads `attrs, `workloadConfig, `tempPath, config
      ensures AttrStr("dbname").Err? ==> r == Err(AttrStr("dbname").error)
      ensures AttrStr("dbname").Ok? && Lower(AttrStr("dbname").value) !in CleanCommands ==>
        r == Err(KeyError(Lower(AttrStr("dbname").value)))
      ensures r.Ok? ==>
        AttrStr("dbname").Ok? && r.value.0 == Lower(AttrStr("dbname").value) && r.value.0 in CleanCommands &&
        SubstOf().Ok? && |r.value.1| == |CleanCommands[r.value.0]|
    {
      match AttrStr("dbname")
      case Err(e) => Err(e)
      case Ok(n) =>
        var key := Lower(n);
        if key !in CleanCommands then Err(KeyError(key))
        else
          match SubstOf()
          case Err(e) => Err(e)
          case Ok(subst) => Ok((key, ApplySubst(Renders(CleanCommands[key]), subst)))
    }

    /**
     * `clean()` (src/runner/dbsystem.py:326-338): the templated command
     * is run (`ran`) and `excode` is its exit status; a non-zero status
     * raises RuntimeError naming the lower-cased name.
     */
    method Clean(excode: int) returns (ran: Option<seq<string>>, r: Result<int, DbError>)
      ensures CleanCommand().Err? ==> ran.None? && r == Err(CleanCommand().error)
      ensures CleanCommand().Ok? ==>
        ran == Some(CleanCommand().value.1) &&
        r == (if excode != 0 then Err(RuntimeError(CleanCommand().value.0)) else Ok(0))
    {
      var name := AttrStr("dbname");
      if name.Err? {
        return None, Err(name.error);
      }
      var key := Lower(name.value);
      if key !in CleanCommands {
        return None, Err(KeyError(key));
      }
      var subst := SubstOf();
      if subst.Err? {
        return None, Err(subst.error);
      }
      var cmd := Templateify(Renders(CleanCommands[key]), subst.value);
      if excode != 0 {
        return Some(cmd), Err(RuntimeError(key));
      }
      return Some(cmd), Ok(0);
    }

    /**
     * `generate_workload_file` (src/runner/dbsystem.py:283-294): the keys
     * in sorted order and the `k=v` lines written for them.
     */
    method WorkloadFile() returns (keys: seq<string>, text: string)
      ensures StrictlySorted(keys) && (forall k :: k in keys <==> k in workloadConfig)
      ensures |keys| == |workloadConfig|
      ensures text == Lines(keys, workloadConfig)
    {
      keys := [];
      var rest := workloadConfig.Keys;
      while rest != {}
        invariant rest <= workloadConfig.Keys && StrictlySorted(keys)
        invariant forall k :: k in keys <==> k in workloadConfig && k !in rest
        invariant |keys| + |rest| == |workloadConfig|
        decreases rest
      {
        var k :| k in rest;
        InsertSorted(keys, k);
        keys := Insert(keys, k);
        rest := rest - {k};
      }
      text := "";
      var i := |keys|;
      while i > 0
        invariant 0 <= i <= |keys|
        invariant text == Lines(keys[i..], workloadConfig)
      {
        i := i - 1;
        assert keys[i..][0] == keys[i] && keys[i..][1..] == keys[i + 1..];
        text := keys[i] + "=" + workloadConfig[keys[i]] + "\n" + text;
      }
    }
  }

  /** The load and run vectors have eight entries and differ only in the verb and the thread count. */
  lemma LoadRunDiffer(db: DbSystem, mpl: int, cwd: string)
    ensures db.CmdYcsbLoad(cwd).Ok? <==> db.CmdYcsbRun(mpl, cwd).Ok?
    ensures db.CmdYcsbLoad(cwd).Ok? ==>
      var l, r := db.CmdYcsbLoad(cwd).value, db.CmdYcsbRun(mpl, cwd).value;
      |l| == 8 && |r| == 8 && l[1] == "load" && r[1] == "run" && l[7] == "1" && r[7] == IntToString(mpl) &&
      forall i :: 0 <= i < 8 && i != 1 && i != 7 ==> l[i] == r[i]
  {
  }

  /**
   * The third entry is the YCSB binding: the mapped name for JDBC targets,
   * the name itself otherwise; the name is looked up exactly as given.
   */
  lemma CommandBinding(db: DbSystem, cwd: string)
    requires db.CmdYcsbLoad(cwd).Ok?
    ensures var key := db.AttrStr("dbname").value;
      key in SupportedDbs &&
      db.CmdYcsbLoad(cwd).value[2] == (if SupportedDbs[key].Some? then SupportedDbs[key].value else key)
  {
  }

  /**
   * A target whose name passes the lower-cased check of `__process_dbs`
   * but is not itself a `SUPPORTED_DBS` key gets no YCSB command: both
   * vectors raise KeyError naming it.
   */
  lemma CommandMixedCase(db: DbSystem, cwd: string, mpl: int)
    requires db.AttrStr("dbname").Ok? && db.AttrStr("dbname").value !in SupportedDbs
    ensures db.CmdYcsbLoad(cwd) == Err(KeyError(db.AttrStr("dbname").value))
    ensures db.CmdYcsbRun(mpl, cwd) == Err(KeyError(db.AttrStr("dbname").value))
  {
  }

  /** Without an `mpl` attribute, the property as written answers True even where the intended rule says no. */
  lemma CleanDataIgnoresMpl(db: DbSystem)
    requires "clean_data" in db.config.entries && db.config.entries["clean_data"] == CBool(true)
    requires "clean_data" !in db.attrs && "mpl" !in db.attrs && "mpl" !in db.config.entries
    requires db.Attr("min_mpl") == Ok(CInt(1))
    ensures db.CleanDataAsWritten() == Ok(CBool(true))
    ensures db.CleanDataAt(5) == Ok(false)
  {
  }
}
