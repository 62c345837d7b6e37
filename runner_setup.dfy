/**
 * Building the targets from the runner configuration file, as
 * `Runner.__init__` does (src/runner/runner.py:16-33, 88-156): every
 * section's options are read by the type `OPTION_KEYS` names, the
 * section's name lists one or more databases (each with an optional
 * `:label`), and every supported name becomes a `DbSystem` sharing the
 * section's option dict.
 */
module RunnerSetup {
  import opened Wrappers
  import opened Text
  import opened Patterns
  import opened Constants
  import opened ConfigParsers
  import opened DbSystems
  import ConstHelpers

  // ---------------------------------------------------------------------
  // Options: `__process_config_keys`

  /** The Python type an option's value has after reading. */
  predicate Fits(kind: OptKind, v: CValue) {
    match kind
    case IntOpt => v.CInt?
    case BoolOpt => v.CBool?
    case CsvOpt => v.CList?
    case _ => v.CStr?
  }

  /** One option read the way its table entry says. */
  function OptionValue(ini: Ini, section: string, k: string, kind: OptKind): (r: Result<CValue, IniError>)
    ensures r.Ok? ==> Fits(kind, r.value)
    ensures kind != IntOpt && kind != BoolOpt ==> (r.Ok? <==> Get(ini, section, k).Ok?)
    ensures r.Ok? && kind == LowerStripOpt ==> Stripped(r.value.s)
    ensures r.Ok? && kind == CsvOpt ==> forall i :: 0 <= i < |r.value.items| ==> r.value.items[i] != "" && Stripped(r.value.items[i])
  {
    match kind
    case IntOpt =>
      (match GetInt(ini, section, k) case Err(e) => Err(e) case Ok(n) => Ok(CInt(n)))
    case BoolOpt =>
      (match GetBoolean(ini, section, k) case Err(e) => Err(e) case Ok(b) => Ok(CBool(b)))
    case _ =>
      match Get(ini, section, k)
      case Err(e) => Err(e)
      case Ok(v) =>
        Ok(match kind
           case StrOpt => CStr(v)
           case LowerStripOpt => CStr(Strip(Lower(v)))
           case LowerOpt => CStr(Lower(v))
           case _ => CList(ConstHelpers.Csv2List(v)))
  }

  /** How one option is read: its name and kind to its value or the error reading it raises. */
  type Read = (string, OptKind) -> Result<CValue, IniError>

  /** The options of one section, each read the way its table entry says. */
  function Reader(ini: Ini, section: string): Read {
    (k: string, kind: OptKind) => OptionValue(ini, section, k, kind)
  }

  /** The dict the loop builds over `keys`, or the error of the first option that fails. */
  function ReadKeys(read: Read, keys: seq<(string, OptKind)>): Result<map<string, CValue>, IniError>
    decreases |keys|
  {
    if keys == [] then Ok(map[])
    else
      var n := |keys| - 1;
      match ReadKeys(read, keys[..n])
      case Err(e) => Err(e)
      case Ok(m) =>
        match read(keys[n].0, keys[n].1)
        case Err(e) => Err(e)
        case Ok(v) => Ok(m[keys[n].0 := v])
  }

  /** The dict `__process_config_keys(section)` builds over `keys`. */
  function ConfigKeysSpec(ini: Ini, section: string, keys: seq<(string, OptKind)>): Result<map<string, CValue>, IniError> {
    ReadKeys(Reader(ini, section), keys)
  }

  /** `__process_config_keys(section)` over an option table. */
  method ProcessConfigKeys(ini: Ini, section: string, keys: seq<(string, OptKind)>)
    returns (r: Result<map<string, CValue>, IniError>)
    ensures r == ConfigKeysSpec(ini, section, keys)
  {
    ghost var read := Reader(ini, section);
    var config: map<string, CValue> := map[];
    var i := 0;
    while i < |keys|
      invariant 0 <= i <= |keys|
      invariant ReadKeys(read, keys[..i]) == Ok(config)
    {
      assert keys[..i + 1][..i] == keys[..i];
      var (k, t) := keys[i];
      var v := OptionValue(ini, section, k, t);
      assert read(k, t) == v;
      if v.Err? {
        assert ReadKeys(read, keys[..i + 1]) == Err(v.error);
        ReadKeysPrefixErr(read, keys, i + 1);
        return Err(v.error);
      }
      config := config[k := v.value];
      i := i + 1;
    }
    assert keys[..i] == keys;
    return Ok(config);
  }

  /** Once a prefix of the table fails, the whole table fails the same way. */
  lemma {:induction false} ReadKeysPrefixErr(read: Read, keys: seq<(string, OptKind)>, i: nat)
    requires i <= |keys| && ReadKeys(read, keys[..i]).Err?
    ensures ReadKeys(read, keys) == ReadKeys(read, keys[..i])
    decreases |keys| - i
  {
    if i < |keys| {
      assert keys[..i + 1][..i] == keys[..i];
      ReadKeysPrefixErr(read, keys, i + 1);
    } else {
      assert keys[..i] == keys;
    }
  }

  predicate Distinct<T>(keys: seq<(string, T)>) {
    forall i, j :: 0 <= i < j < |keys| ==> keys[i].0 != keys[j].0
  }

  /** Reading succeeds exactly when every option reads. */
  lemma {:induction false} ReadKeysOk(read: Read, keys: seq<(string, OptKind)>)
    ensures ReadKeys(read, keys).Ok? <==> forall i :: 0 <= i < |keys| ==> read(keys[i].0, keys[i].1).Ok?
    decreases |keys|
  {
    if keys != [] {
      var n := |keys| - 1;
      ReadKeysOk(read, keys[..n]);
      assert forall i :: 0 <= i < n ==> keys[..n][i] == keys[i];
    }
  }

  lemma NamesSnoc<T>(keys: seq<(string, T)>)
    requires keys != []
    ensures Names(keys) == Names(keys[..|keys| - 1]) + {keys[|keys| - 1].0}
  {
    var n := |keys| - 1;
    var pre := keys[..n];
    forall x | x in Names(keys) ensures x in Names(pre) + {keys[n].0} {
      var i :| 0 <= i < |keys| && keys[i].0 == x;
      if i < n { assert pre[i].0 == x; }
    }
    forall x | x in Names(pre) ensures x in Names(keys) {
      var i :| 0 <= i < |pre| && pre[i].0 == x;
      assert keys[i].0 == x;
    }
  }

  /** A successful read has exactly the table's keys. */
  lemma {:induction false} ReadKeysNames(read: Read, keys: seq<(string, OptKind)>)
    requires ReadKeys(read, keys).Ok?
    ensures ReadKeys(read, keys).value.Keys == Names(keys)
    decreases |keys|
  {
    if keys != [] {
      ReadKeysNames(read, keys[..|keys| - 1]);
      NamesSnoc(keys);
    }
  }

  /** On a table that names every option once, each key holds the value its option read to. */
  lemma {:induction false} ReadKeysValues(read: Read, keys: seq<(string, OptKind)>)
    requires ReadKeys(read, keys).Ok? && Distinct(keys)
    ensures forall i :: 0 <= i < |keys| ==>
      keys[i].0 in ReadKeys(read, keys).value && read(keys[i].0, keys[i].1) == Ok(ReadKeys(read, keys).value[keys[i].0])
    decreases |keys|
  {
    ReadKeysNames(read, keys);
    if keys != [] {
      var n := |keys| - 1;
      var pre := keys[..n];
      assert Distinct(pre) by {
        forall i, j | 0 <= i < j < |pre| ensures pre[i].0 != pre[j].0 { assert pre[i] == keys[i] && pre[j] == keys[j]; }
      }
      ReadKeysValues(read, pre);
      var m := ReadKeys(read, keys).value;
      var mp := ReadKeys(read, pre).value;
      forall i | 0 <= i < |keys| ensures keys[i].0 in m && read(keys[i].0, keys[i].1) == Ok(m[keys[i].0]) {
        assert keys[i].0 in Names(keys);
        if i < n {
          assert pre[i] == keys[i];
          assert keys[i].0 != keys[n].0;
        }
      }
    }
  }

  /** A failed read fails with the error of the first option that does not read. */
  lemma {:induction false} ReadKeysFirstError(read: Read, keys: seq<(string, OptKind)>)
    requires ReadKeys(read, keys).Err?
    ensures
      exists i ::
        0 <= i < |keys| && read(keys[i].0, keys[i].1) == Err(ReadKeys(read, keys).error) &&
        forall j :: 0 <= j < i ==> read(keys[j].0, keys[j].1).Ok?
    decreases |keys|
  {
    var n := |keys| - 1;
    var pre := keys[..n];
    assert forall i :: 0 <= i < n ==> pre[i] == keys[i];
    if ReadKeys(read, pre).Err? {
      ReadKeysFirstError(read, pre);
      var i :| 0 <= i < |pre| && read(pre[i].0, pre[i].1) == Err(ReadKeys(read, pre).error) &&
        forall j :: 0 <= j < i ==> read(pre[j].0, pre[j].1).Ok?;
      assert keys[i] == pre[i];
    } else {
      ReadKeysOk(read, pre);
    }
  }

  lemma OptionKeysHaveNoIdentity()
    ensures "dbname" !in Names(OptionKeys) && "label" !in Names(OptionKeys) && "tablename" !in Names(OptionKeys)
  {
  }

  /** An option table that names every required field and none of the identity names. */
  predicate ValidTable(keys: seq<(string, OptKind)>) {
    (forall i :: 0 <= i < |RequiredFields| ==> RequiredFields[i] in Names(keys)) &&
    "dbname" !in Names(keys) && "label" !in Names(keys) && "tablename" !in Names(keys)
  }

  lemma OptionKeysValid()
    ensures ValidTable(OptionKeys)
  {
    RequiredAreOptions();
    OptionKeysHaveNoIdentity();
  }

  /**
   * Every dict read from a section through a valid table passes
   * `DbSystem` validation and leaves the identity names to instance
   * attributes.
   */
  lemma ProcessedValidates(ini: Ini, section: string, keys: seq<(string, OptKind)>)
    requires ValidTable(keys) && ConfigKeysSpec(ini, section, keys).Ok?
    ensures FirstMissing(RequiredFields, ConfigKeysSpec(ini, section, keys).value).None?
    ensures IdentityFree(ConfigKeysSpec(ini, section, keys).value)
  {
    ReadKeysNames(Reader(ini, section), keys);
  }

  /** The first entry of a table with that key. */
  function Find<T>(table: seq<(string, T)>, k: string): (r: Option<T>)
    ensures r.Some? <==> k in Names(table)
  {
    if table == [] then None
    else if table[0].0 == k then Some(table[0].1)
    else
      assert Names(table) == {table[0].0} + Names(table[1..]) by {
        forall x | x in Names(table) ensures x in {table[0].0} + Names(table[1..]) {
          var i :| 0 <= i < |table| && table[i].0 == x;
          if i > 0 { assert table[1..][i - 1].0 == x; }
        }
        forall x | x in Names(table[1..]) ensures x in Names(table) {
          var i :| 0 <= i < |table[1..]| && table[1..][i].0 == x;
          assert table[i + 1].0 == x;
        }
      }
      Find(table[1..], k)
  }

  /** `ConfigParser(defaults=OPTION_DEFAULTS)`: each default as the string `str()` gives. */
  const StrDefaults: map<string, string> :=
    map k | k in Names(OptionDefaults) :: Str(Find(OptionDefaults, k).value)

  /** The runner's parser after reading the file. */
  function RunnerIni(file: Ini): Ini {
    WithDefaults(StrDefaults, file)
  }

  /** The sweep defaults as the parser holds them. */
  lemma StrDefaultsSweep()
    ensures "trials" in StrDefaults && StrDefaults["trials"] == IntToString(1)
    ensures "min_mpl" in StrDefaults && StrDefaults["min_mpl"] == IntToString(1)
    ensures "max_mpl" in StrDefaults && StrDefaults["max_mpl"] == IntToString(25)
    ensures "inc_mpl" in StrDefaults && StrDefaults["inc_mpl"] == IntToString(4)
  {
    assert OptionDefaults[0].0 == "trials" && OptionDefaults[1].0 == "min_mpl";
    assert OptionDefaults[2].0 == "max_mpl" && OptionDefaults[3].0 == "inc_mpl";
  }

  /** An integer default a section does not override reads back as that integer. */
  lemma DefaultInt(file: Ini, section: string, k: string, n: int)
    requires FindSection(file.sections, section).Some?
    requires k !in FindSection(file.sections, section).value && k !in file.defaults
    requires k in StrDefaults && StrDefaults[k] == IntToString(n)
    ensures GetInt(RunnerIni(file), section, k) == Ok(n)
  {
    DefaultApplies(StrDefaults, file, section, k);
    ParseIntOfIntToString(n);
  }

  /**
   * A section that sets no sweep option, in a file whose `[DEFAULT]` sets
   * none either, sweeps 1, 5, ..., 25 in one trial (min 1, max 25, inc 4).
   */
  lemma DefaultSweep(file: Ini, section: string)
    requires FindSection(file.sections, section).Some?
    requires forall k :: k in {"trials", "min_mpl", "max_mpl", "inc_mpl"} ==>
      k !in FindSection(file.sections, section).value && k !in file.defaults
    ensures GetInt(RunnerIni(file), section, "trials") == Ok(1)
    ensures GetInt(RunnerIni(file), section, "min_mpl") == Ok(1)
    ensures GetInt(RunnerIni(file), section, "max_mpl") == Ok(25)
    ensures GetInt(RunnerIni(file), section, "inc_mpl") == Ok(4)
  {
    StrDefaultsSweep();
    DefaultInt(file, section, "trials", 1);
    DefaultInt(file, section, "min_mpl", 1);
    DefaultInt(file, section, "max_mpl", 25);
    DefaultInt(file, section, "inc_mpl", 4);
  }

  // ---------------------------------------------------------------------
  // Section names: the token list of `__process_dbs`

  /** `[s.strip() for s in section.split(',')]`. */
  function Tokens(section: string): (r: seq<string>)
    ensures |r| >= 1 && forall i :: 0 <= i < |r| ==> Stripped(r[i]) && ',' !in r[i]
  {
    var parts := Split(section, ',');
    var r := ConstHelpers.StripEach(parts);
    assert forall i :: 0 <= i < |r| ==> ',' !in r[i] by {
      forall i | 0 <= i < |r| ensures ',' !in r[i] {
        StripNoChar(parts[i], ',');
      }
    }
    r
  }

  /** A token's name and label, when its lower-cased name is supported. */
  function Accept(token: string, supported: set<string>): (r: seq<(string, string)>)
    ensures |r| <= 1
    ensures r != [] <==> Lower(SplitLabel(token).0) in supported
    ensures r != [] ==> r[0] == SplitLabel(token)
  {
    var (name, lbl) := SplitLabel(token);
    if Lower(name) in supported then [(name, lbl)] else []
  }

  /** The tokens kept, in order, each as (name, label). */
  function Accepted(tokens: seq<string>, supported: set<string>): (r: seq<(string, string)>)
    ensures |r| <= |tokens|
  {
    if tokens == [] then []
    else Accepted(tokens[..|tokens| - 1], supported) + Accept(tokens[|tokens| - 1], supported)
  }

  /** Keeping distributes over concatenation, so the kept tokens stay in their order. */
  lemma {:induction false} AcceptedAppend(a: seq<string>, b: seq<string>, supported: set<string>)
    ensures Accepted(a + b, supported) == Accepted(a, supported) + Accepted(b, supported)
    decreases |b|
  {
    if b == [] {
      assert a + b == a;
    } else {
      var n := |b| - 1;
      assert (a + b)[..|a + b| - 1] == a + b[..n];
      assert (a + b)[|a + b| - 1] == b[n];
      AcceptedAppend(a, b[..n], supported);
    }
  }

  /** Every kept entry comes from a token with a supported name. */
  lemma {:induction false} AcceptedSound(tokens: seq<string>, supported: set<string>, i: nat)
    requires i < |Accepted(tokens, supported)|
    ensures Lower(Accepted(tokens, supported)[i].0) in supported
    ensures exists j :: 0 <= j < |tokens| && SplitLabel(tokens[j]) == Accepted(tokens, supported)[i]
    decreases |tokens|
  {
    var n := |tokens| - 1;
    var pre := Accepted(tokens[..n], supported);
    if i < |pre| {
      AcceptedSound(tokens[..n], supported, i);
      var j :| 0 <= j < n && SplitLabel(tokens[..n][j]) == pre[i] && Lower(pre[i].0) in supported;
      assert tokens[j] == tokens[..n][j];
    } else {
      assert Accepted(tokens, supported)[i] == SplitLabel(tokens[n]);
    }
  }

  /** Every token with a supported name is kept. */
  lemma AcceptedComplete(tokens: seq<string>, supported: set<string>, j: nat)
    requires j < |tokens| && Lower(SplitLabel(tokens[j]).0) in supported
    ensures SplitLabel(tokens[j]) in Accepted(tokens, supported)
  {
    assert tokens == tokens[..j] + [tokens[j]] + tokens[j + 1..];
    AcceptedAppend(tokens[..j] + [tokens[j]], tokens[j + 1..], supported);
    AcceptedAppend(tokens[..j], [tokens[j]], supported);
    assert Accepted([tokens[j]], supported) == Accept(tokens[j], supported) by {
      assert [tokens[j]][..0] == [];
    }
  }

  /** The targets a section name yields and the table name each gets. */
  datatype Identity = Identity(name: string, lbl: string, table: string)

  function IdAttrs(id: Identity): map<string, CValue> {
    map["dbname" := CStr(id.name), "label" := CStr(id.lbl), "tablename" := CStr(id.table)]
  }

  /** `tablename` from the section named by name and label, else "usertable" (src/runner/runner.py:152). */
  function TableFor(ini: Ini, name: string, lbl: string): string {
    GetFallback(ini, name + lbl, "tablename", DefaultTablename)
  }

  function IdsOf(ini: Ini, acc: seq<(string, string)>): (r: seq<Identity>)
    ensures |r| == |acc|
    ensures forall i :: 0 <= i < |r| ==> r[i] == Identity(acc[i].0, acc[i].1, TableFor(ini, acc[i].0, acc[i].1))
  {
    seq(|acc|, i requires 0 <= i < |acc| => Identity(acc[i].0, acc[i].1, TableFor(ini, acc[i].0, acc[i].1)))
  }

  function Identities(ini: Ini, section: string): seq<Identity> {
    IdsOf(ini, Accepted(Tokens(section), SupportedDbs.Keys))
  }

  // ---------------------------------------------------------------------
  // Targets: `__process_dbs`

  /**
   * What construction needs from outside: the working directory, the
   * `config` section of each workload file that has one, and the clock
   * and temporary-file names for the n-th target built.
   */
  datatype Env = Env(cwd: string, files: map<string, map<string, string>>, clock: nat -> string, temp: nat -> string)

  /** The base workload properties of a section's targets. */
  function WorkloadProps(cfg: map<string, CValue>, env: Env): Result<map<string, string>, DbError> {
    BaseProps(map[], cfg, env.files, env.cwd)
  }

  lemma BasePropsIdentity(cfg: map<string, CValue>, dbname: string, dbLabel: string, tablename: Option<string>, env: Env)
    requires IdentityFree(cfg)
    ensures var s3 := InitSets(cfg, dbname, dbLabel, tablename);
      BaseProps(s3.attrs, s3.cfg, env.files, env.cwd) == WorkloadProps(cfg, env)
  {
    IdentityAttrs(cfg, dbname, dbLabel, tablename, "");
    var s3 := InitSets(cfg, dbname, dbLabel, tablename);
    assert "workload" !in s3.attrs;
    assert AttrOf(s3.attrs, s3.cfg, "workload") == AttrOf(map[], cfg, "workload");
  }

  /** One target as built: its identity, the shared dict, the workload, the clock and the temp file. */
  predicate TargetIs(db: DbSystem, id: Identity, cfg: Config, wc: map<string, string>, env: Env, n: nat)
    reads db
  {
    db.config == cfg && db.attrs == IdAttrs(id) && db.workloadConfig == wc &&
    db.datestr == env.clock(n) && db.tempPath == Some(env.temp(n)) && db.outdir.None?
  }

  /** The targets of one section as built, all distinct. */
  predicate Built(dbs: seq<DbSystem>, ids: seq<Identity>, cfg: Config, wc: map<string, string>, env: Env, n0: nat)
    reads set i | 0 <= i < |dbs| :: dbs[i]
  {
    |dbs| == |ids| &&
    (forall i :: 0 <= i < |dbs| ==> TargetIs(dbs[i], ids[i], cfg, wc, env, n0 + i)) &&
    (forall i, j :: 0 <= i < j < |dbs| ==> dbs[i] != dbs[j])
  }

  /** The table-name lookup of one target, kept apart so that callers see only its result. */
  method LookupTable(ini: Ini, name: string, lbl: string) returns (t: string)
    ensures t == TableFor(ini, name, lbl)
  {
    t := GetFallback(ini, name + lbl, "tablename", DefaultTablename);
  }

  /**
   * What constructing any target on this dict gives: the first missing
   * required field, else the base workload properties (or the error
   * reading them). It does not depend on the target's name.
   */
  function Outcome(entries: map<string, CValue>, env: Env): (r: Result<map<string, string>, DbError>)
    ensures FirstMissing(RequiredFields, entries).Some? ==>
      r == Err(AttributeError(FirstMissing(RequiredFields, entries).value))
    ensures FirstMissing(RequiredFields, entries).None? ==> r == WorkloadProps(entries, env)
  {
    match FirstMissing(RequiredFields, entries)
    case Some(f) => Err(AttributeError(f))
    case None => WorkloadProps(entries, env)
  }

  /** `DbSystem(db, config, label=label, tablename=tablename)` for the n-th target (src/runner/runner.py:154-155). */
  method MakeTarget(id: Identity, cfg: Config, env: Env, n: nat, ghost out: Result<map<string, string>, DbError>)
    returns (r: Result<DbSystem, DbError>)
    requires IdentityFree(cfg.entries) && out == Outcome(cfg.entries, env)
    modifies cfg
    ensures cfg.entries == old(cfg.entries)
    ensures r.Err? <==> out.Err?
    ensures r.Err? ==> r.error == out.error
    ensures r.Ok? ==> fresh(r.value) && TargetIs(r.value, id, cfg, out.value, env, n)
  {
    BasePropsIdentity(cfg.entries, id.name, id.lbl, Some(id.table), env);
    IdentityAttrs(cfg.entries, id.name, id.lbl, Some(id.table), id.table);
    r := DbSystem.Create(id.name, cfg, id.lbl, Some(id.table), None, env.files, env.cwd, env.clock(n), env.temp(n));
  }

  /** One more target built after the others. */
  lemma BuiltSnoc(dbs: seq<DbSystem>, ids: seq<Identity>, db: DbSystem, id: Identity, cfg: Config, wc: map<string, string>, env: Env, n0: nat)
    requires Built(dbs, ids, cfg, wc, env, n0) && TargetIs(db, id, cfg, wc, env, n0 + |dbs|)
    requires forall j :: 0 <= j < |dbs| ==> dbs[j] != db
    ensures Built(dbs + [db], ids + [id], cfg, wc, env, n0)
  {
    var dbs', ids' := dbs + [db], ids + [id];
    forall i | 0 <= i < |dbs'| ensures TargetIs(dbs'[i], ids'[i], cfg, wc, env, n0 + i) {
      if i < |dbs| {
        assert dbs'[i] == dbs[i] && ids'[i] == ids[i];
      }
    }
  }

  /** The tokens before `i` and the one at `i` are kept as the tokens up to `i`. */
  lemma AcceptedStep(tokens: seq<string>, i: nat, supported: set<string>)
    requires i < |tokens|
    ensures Accepted(tokens[..i + 1], supported) == Accepted(tokens[..i], supported) + Accept(tokens[i], supported)
  {
    assert tokens[..i + 1] == tokens[..i] + [tokens[i]];
    AcceptedAppend(tokens[..i], [tokens[i]], supported);
    assert [tokens[i]][..0] == [];
  }

  /**
   * The label split and the name check of `__process_dbs`
   * (src/runner/runner.py:136-146, runner/ConfigReader.py:151-163): the
   * (name, label) of each token whose lower-cased name is in `supported`,
   * in token order.
   */
  method AcceptTokens(tokens: seq<string>, supported: set<string>) returns (kept: seq<(string, string)>)
    ensures kept == Accepted(tokens, supported)
  {
    kept := [];
    var i := 0;
    while i < |tokens|
      invariant 0 <= i <= |tokens|
      invariant kept == Accepted(tokens[..i], supported)
    {
      AcceptedStep(tokens, i, supported);
      var (name, lbl) := SplitLabel(tokens[i]);
      if Lower(name) in supported {
        kept := kept + [(name, lbl)];
      }
      i := i + 1;
    }
    assert tokens[..i] == tokens;
  }

  /** One pass of the construction loop: target `k` appended to the ones before it. */
  method BuildNext(ini: Ini, kept: seq<(string, string)>, cfg: Config, env: Env, n0: nat, dbs: seq<DbSystem>,
                   ghost ids: seq<Identity>, ghost out: Result<map<string, string>, DbError>)
    returns (r: Result<seq<DbSystem>, DbError>)
    requires |dbs| < |kept| && ids == IdsOf(ini, kept)
    requires IdentityFree(cfg.entries) && out == Outcome(cfg.entries, env)
    requires out.Ok? ==> Built(dbs, ids[..|dbs|], cfg, out.value, env, n0)
    modifies cfg
    ensures cfg.entries == old(cfg.entries)
    ensures r.Err? <==> out.Err?
    ensures r.Err? ==> r.error == out.error
    ensures r.Ok? ==> Built(r.value, ids[..|dbs| + 1], cfg, out.value, env, n0)
  {
    var k := |dbs|;
    var (name, lbl) := kept[k];
    var table := LookupTable(ini, name, lbl);
    var res := MakeTarget(Identity(name, lbl, table), cfg, env, n0 + k, out);
    if res.Err? {
      return Err(res.error);
    }
    assert ids[..k + 1] == ids[..k] + [ids[k]];
    BuiltSnoc(dbs, ids[..k], res.value, ids[k], cfg, out.value, env, n0);
    return Ok(dbs + [res.value]);
  }

  /**
   * The construction part of `__process_dbs` (src/runner/runner.py:148-155):
   * one target per kept token, all on the same dict, so either every one
   * is built or the first one raises.
   */
  method BuildTargets(ini: Ini, kept: seq<(string, string)>, cfg: Config, env: Env, n0: nat)
    returns (r: Result<seq<DbSystem>, DbError>)
    requires IdentityFree(cfg.entries)
    modifies cfg
    ensures cfg.entries == old(cfg.entries)
    ensures kept == [] ==> r == Ok([])
    ensures kept != [] && Outcome(old(cfg.entries), env).Err? ==>
      r.Err? && r.error == Outcome(old(cfg.entries), env).error
    ensures Outcome(old(cfg.entries), env).Ok? ==>
      r.Ok? && Built(r.value, IdsOf(ini, kept), cfg, Outcome(old(cfg.entries), env).value, env, n0)
  {
    var dbs: seq<DbSystem> := [];
    ghost var out := Outcome(cfg.entries, env);
    ghost var ids := IdsOf(ini, kept);
    while |dbs| < |kept|
      invariant |dbs| <= |kept|
      invariant cfg.entries == old(cfg.entries)
      invariant out.Err? ==> dbs == []
      invariant out.Ok? ==> Built(dbs, ids[..|dbs|], cfg, out.value, env, n0)
      decreases |kept| - |dbs|
    {
      var next := BuildNext(ini, kept, cfg, env, n0, dbs, ids, out);
      if next.Err? {
        return Err(next.error);
      }
      dbs := next.value;
    }
    assert ids[..|dbs|] == ids;
    return Ok(dbs);
  }

  /**
   * `__process_dbs(section, config)`: a section naming no supported
   * database gives no targets; otherwise every target is built, or the
   * error that building any of them raises is raised.
   */
  method ProcessDbs(ini: Ini, section: string, cfg: Config, env: Env, n0: nat)
    returns (r: Result<seq<DbSystem>, DbError>)
    requires IdentityFree(cfg.entries)
    modifies cfg
    ensures cfg.entries == old(cfg.entries)
    ensures Identities(ini, section) == [] ==> r == Ok([])
    ensures Identities(ini, section) != [] && Outcome(old(cfg.entries), env).Err? ==>
      r.Err? && r.error == Outcome(old(cfg.entries), env).error
    ensures Outcome(old(cfg.entries), env).Ok? ==>
      r.Ok? && Built(r.value, Identities(ini, section), cfg, Outcome(old(cfg.entries), env).value, env, n0)
  {
    var tokens := Tokens(section);
    var kept := AcceptTokens(tokens, SupportedDbs.Keys);
    r := BuildTargets(ini, kept, cfg, env, n0);
  }

  // ---------------------------------------------------------------------
  // The whole file: `__process_sections`

  /** What constructing a `Runner` can raise while reading its sections. */
  datatype SetupError = IniErr(ini: IniError) | DbErr(db: DbError)

  /** What one section of the file gives: the dict its options read to, and the identities its name yields. */
  datatype Plan = Plan(read: Result<map<string, CValue>, IniError>, ids: seq<Identity>)

  function PlanOf(ini: Ini, keys: seq<(string, OptKind)>, k: nat): Plan
    requires k < |ini.sections|
  {
    Plan(ConfigKeysSpec(ini, ini.sections[k].0, keys), Identities(ini, ini.sections[k].0))
  }

  /**
   * A trigger term only, true everywhere: it controls when the verifier
   * may instantiate a quantifier guarded by it (what a plan says about
   * section `i`, or group `i` of the fields a target shows).
   */
  predicate Consulted(i: int) {
    true
  }

  /** `plans` holds the plan of every section of the file, in file order. */
  predicate Planned(ini: Ini, keys: seq<(string, OptKind)>, plans: seq<Plan>) {
    |plans| == |ini.sections| &&
    forall i {:trigger Consulted(i)} :: 0 <= i < |plans| && Consulted(i) ==> plans[i] == PlanOf(ini, keys, i)
  }

  /** The plans of the whole file. */
  function Plans(ini: Ini, keys: seq<(string, OptKind)>): (r: seq<Plan>)
    ensures Planned(ini, keys, r)
  {
    seq(|ini.sections|, i requires 0 <= i < |ini.sections| => PlanOf(ini, keys, i))
  }

  /** A section reads, and if it names any target, its workload file has a `config` section. */
  predicate Ready(env: Env, plan: Plan) {
    plan.read.Ok? && (plan.ids != [] ==> WorkloadProps(plan.read.value, env).Ok?)
  }

  /** What reading a section raises when it is not ready. */
  function SectionError(env: Env, plan: Plan): (r: SetupError)
    requires !Ready(env, plan)
    ensures r.IniErr? <==> plan.read.Err?
    ensures r.IniErr? ==> r.ini == plan.read.error
    ensures r.DbErr? ==> WorkloadProps(plan.read.value, env) == Err(r.db)
  {
    if plan.read.Err? then IniErr(plan.read.error) else DbErr(WorkloadProps(plan.read.value, env).error)
  }

  /** The identities of the first `k` sections, each with the index of its section. */
  function Placed(plans: seq<Plan>, k: nat): (r: seq<(nat, Identity)>)
    requires k <= |plans|
    ensures forall i :: 0 <= i < |r| ==> r[i].0 < k
  {
    if k == 0 then [] else Placed(plans, k - 1) + Tag(k - 1, plans[k - 1].ids)
  }

  function Tag(k: nat, ids: seq<Identity>): (r: seq<(nat, Identity)>)
    ensures |r| == |ids| && forall i :: 0 <= i < |r| ==> r[i] == (k, ids[i])
  {
    seq(|ids|, i requires 0 <= i < |ids| => (k, ids[i]))
  }

  /** A section that is not ready, after ready ones, is the first one that is not. */
  lemma StopsAt(env: Env, plans: seq<Plan>, k: nat)
    requires k < |plans|
    requires forall s :: 0 <= s < k ==> Ready(env, plans[s])
    requires !Ready(env, plans[k])
    ensures !forall s :: 0 <= s < |plans| ==> Ready(env, plans[s])
    ensures exists j ::
      0 <= j < |plans| && !Ready(env, plans[j]) && SectionError(env, plans[j]) == SectionError(env, plans[k]) &&
      forall s :: 0 <= s < j ==> Ready(env, plans[s])
  {
  }

  /**
   * Target i is the i-th placed identity, built i-th, on the dict its
   * section reads and the workload that dict names.
   */
  predicate PlacedAt(env: Env, plans: seq<Plan>, db: DbSystem, q: (nat, Identity), i: nat)
    reads db, db.config
  {
    q.0 < |plans| &&
    db.attrs == IdAttrs(q.1) && db.datestr == env.clock(i) &&
    db.tempPath == Some(env.temp(i)) && db.outdir.None? &&
    plans[q.0].read == Ok(db.config.entries) &&
    WorkloadProps(db.config.entries, env) == Ok(db.workloadConfig)
  }

  /** The targets built so far against the identities placed so far. */
  predicate Placement(env: Env, plans: seq<Plan>, all: seq<DbSystem>, p: seq<(nat, Identity)>)
    reads set i | 0 <= i < |all| :: all[i]
    reads set i | 0 <= i < |all| :: all[i].config
  {
    |all| == |p| &&
    forall i :: 0 <= i < |all| ==> PlacedAt(env, plans, all[i], p[i], i)
  }

  /** Targets share a dict exactly when they come from the same section, and no target appears twice. */
  predicate Grouped(all: seq<DbSystem>, p: seq<(nat, Identity)>)
    requires |all| == |p|
    reads set i | 0 <= i < |all| :: all[i]
  {
    (forall i, j :: 0 <= i < |all| && 0 <= j < |all| ==> (all[i].config == all[j].config <==> p[i].0 == p[j].0)) &&
    (forall i, j :: 0 <= i < j < |all| ==> all[i] != all[j])
  }

  /** Appending keeps the targets placed so far where they were. */
  lemma PlacedPrefix(env: Env, plans: seq<Plan>, all: seq<DbSystem>, p: seq<(nat, Identity)>,
                     dbs: seq<DbSystem>, q: seq<(nat, Identity)>)
    requires Placement(env, plans, all, p)
    ensures forall i :: 0 <= i < |all| ==> PlacedAt(env, plans, (all + dbs)[i], (p + q)[i], i)
  {
    forall i | 0 <= i < |all| ensures PlacedAt(env, plans, (all + dbs)[i], (p + q)[i], i) {
      assert (all + dbs)[i] == all[i] && (p + q)[i] == p[i];
    }
  }

  /** The targets built on section `k`'s dict are placed there, after the earlier ones. */
  lemma PlacedSuffix(env: Env, plans: seq<Plan>, all: seq<DbSystem>, p: seq<(nat, Identity)>, k: nat,
                     dbs: seq<DbSystem>, cfg: Config, wc: map<string, string>)
    requires k < |plans| && |all| == |p|
    requires Built(dbs, plans[k].ids, cfg, wc, env, |all|)
    requires plans[k].read == Ok(cfg.entries)
    requires dbs != [] ==> WorkloadProps(cfg.entries, env) == Ok(wc)
    ensures forall i :: |all| <= i < |all| + |dbs| ==> PlacedAt(env, plans, (all + dbs)[i], (p + Tag(k, plans[k].ids))[i], i)
  {
    var ids := plans[k].ids;
    var all', p' := all + dbs, p + Tag(k, ids);
    forall i | |all| <= i < |all'| ensures PlacedAt(env, plans, all'[i], p'[i], i) {
      var j := i - |all|;
      assert all'[i] == dbs[j] && p'[i] == (k, ids[j]);
      assert TargetIs(dbs[j], ids[j], cfg, wc, env, |all| + j);
    }
  }

  /** The targets of section `k`, on a dict no earlier target uses, keep the grouping. */
  lemma GroupedSnoc(all: seq<DbSystem>, p: seq<(nat, Identity)>, k: nat,
                    dbs: seq<DbSystem>, ids: seq<Identity>, cfg: Config, wc: map<string, string>, env: Env)
    requires |all| == |p| && Grouped(all, p)
    requires forall i :: 0 <= i < |p| ==> p[i].0 < k
    requires forall i :: 0 <= i < |all| ==> all[i].config != cfg
    requires Built(dbs, ids, cfg, wc, env, |all|)
    ensures |all + dbs| == |p + Tag(k, ids)| && Grouped(all + dbs, p + Tag(k, ids))
  {
    var all', p' := all + dbs, p + Tag(k, ids);
    forall i | |all| <= i < |all'| ensures all'[i] == dbs[i - |all|] && all'[i].config == cfg && p'[i].0 == k {
      assert TargetIs(dbs[i - |all|], ids[i - |all|], cfg, wc, env, |all| + (i - |all|));
    }
    forall i | 0 <= i < |all| ensures all'[i] == all[i] && p'[i] == p[i] {
    }
  }

  /** A section's targets, on a dict no earlier target uses, extend the placement of the sections before it. */
  lemma PlacedSnoc(env: Env, plans: seq<Plan>, all: seq<DbSystem>, k: nat, dbs: seq<DbSystem>, cfg: Config, wc: map<string, string>)
    requires k < |plans| && |all| == |Placed(plans, k)|
    requires Placement(env, plans, all, Placed(plans, k)) && Grouped(all, Placed(plans, k))
    requires forall i :: 0 <= i < |all| ==> all[i].config != cfg
    requires plans[k].read == Ok(cfg.entries)
    requires Built(dbs, plans[k].ids, cfg, wc, env, |all|)
    requires dbs != [] ==> WorkloadProps(cfg.entries, env) == Ok(wc)
    ensures |all + dbs| == |Placed(plans, k + 1)|
    ensures Placement(env, plans, all + dbs, Placed(plans, k + 1)) && Grouped(all + dbs, Placed(plans, k + 1))
  {
    var p := Placed(plans, k);
    PlacedPrefix(env, plans, all, p, dbs, Tag(k, plans[k].ids));
    PlacedSuffix(env, plans, all, p, k, dbs, cfg, wc);
    GroupedSnoc(all, p, k, dbs, plans[k].ids, cfg, wc, env);
  }

  /**
   * One pass of the `__process_sections` loop (src/runner/runner.py:95-96):
   * the section's dict, then its targets on that dict, numbered from `n0`.
   */
  method ProcessSection(ini: Ini, env: Env, keys: seq<(string, OptKind)>, ghost plans: seq<Plan>, k: nat, n0: nat)
    returns (r: Result<seq<DbSystem>, SetupError>, ghost cfg: Config?, ghost wc: map<string, string>)
    requires ValidTable(keys) && k < |ini.sections| && Planned(ini, keys, plans)
    ensures r.Err? <==> !Ready(env, plans[k])
    ensures r.Err? ==> r.error == SectionError(env, plans[k])
    ensures r.Ok? ==>
      cfg != null && fresh(cfg) && plans[k].read == Ok(cfg.entries) &&
      Built(r.value, plans[k].ids, cfg, wc, env, n0) &&
      (r.value != [] ==> WorkloadProps(cfg.entries, env) == Ok(wc))
  {
    assert Consulted(k);
    var name := ini.sections[k].0;
    var c := ProcessConfigKeys(ini, name, keys);
    if c.Err? {
      return Err(IniErr(c.error)), null, map[];
    }
    ProcessedValidates(ini, name, keys);
    var config := new Config(c.value);
    cfg := config;
    ghost var out := Outcome(config.entries, env);
    assert out == WorkloadProps(c.value, env);
    wc := if out.Ok? then out.value else map[];
    var dbs := ProcessDbs(ini, name, config, env, n0);
    if dbs.Err? {
      return Err(DbErr(dbs.error)), cfg, wc;
    }
    return Ok(dbs.value), cfg, wc;
  }

  /** What the loop keeps after the first `k` sections: all ready, their targets placed and grouped. */
  predicate Progress(env: Env, plans: seq<Plan>, all: seq<DbSystem>, k: nat)
    requires k <= |plans|
    reads set i | 0 <= i < |all| :: all[i]
    reads set i | 0 <= i < |all| :: all[i].config
  {
    (forall s :: 0 <= s < k ==> Ready(env, plans[s])) &&
    |all| == |Placed(plans, k)| && Placement(env, plans, all, Placed(plans, k)) && Grouped(all, Placed(plans, k))
  }

  /**
   * One pass of the `__process_sections` loop over the sections before
   * it: section `k`'s targets appended to theirs, or the error it raises.
   */
  method ExtendTargets(ini: Ini, env: Env, keys: seq<(string, OptKind)>, ghost plans: seq<Plan>, all: seq<DbSystem>, k: nat)
    returns (r: Result<seq<DbSystem>, SetupError>)
    requires ValidTable(keys) && k < |ini.sections| && Planned(ini, keys, plans)
    requires Progress(env, plans, all, k)
    ensures r.Err? ==> !forall s :: 0 <= s < |plans| ==> Ready(env, plans[s])
    ensures r.Err? ==>
      exists j :: 0 <= j < |plans| && !Ready(env, plans[j]) && r.error == SectionError(env, plans[j]) &&
        forall s :: 0 <= s < j ==> Ready(env, plans[s])
    ensures r.Ok? ==> Progress(env, plans, all + r.value, k + 1)
  {
    var dbs, cfg, wc := ProcessSection(ini, env, keys, plans, k, |all|);
    if dbs.Err? {
      StopsAt(env, plans, k);
      return Err(dbs.error);
    }
    PlacedSnoc(env, plans, all, k, dbs.value, cfg, wc);
    return Ok(dbs.value);
  }

  /** The section loop, against the plans of the file. */
  method ProcessSectionsPlanned(ini: Ini, env: Env, keys: seq<(string, OptKind)>, ghost plans: seq<Plan>)
    returns (r: Result<seq<DbSystem>, SetupError>)
    requires ValidTable(keys) && Planned(ini, keys, plans)
    ensures r.Ok? <==> forall k :: 0 <= k < |plans| ==> Ready(env, plans[k])
    ensures r.Err? ==>
      exists k :: 0 <= k < |plans| && !Ready(env, plans[k]) && r.error == SectionError(env, plans[k]) &&
        forall s :: 0 <= s < k ==> Ready(env, plans[s])
    ensures r.Ok? ==>
      var p := Placed(plans, |plans|);
      |r.value| == |p| && Placement(env, plans, r.value, p) && Grouped(r.value, p)
  {
    var all: seq<DbSystem> := [];
    var k := 0;
    while k < |ini.sections|
      invariant 0 <= k <= |ini.sections|
      invariant Progress(env, plans, all, k)
    {
      var dbs := ExtendTargets(ini, env, keys, plans, all, k);
      if dbs.Err? {
        return Err(dbs.error);
      }
      all := all + dbs.value;
      k := k + 1;
    }
    return Ok(all);
  }

  /**
   * `__process_sections` over the parsed file: a fresh dict per section,
   * shared by all of that section's targets; the targets in file order,
   * then token order. The first section that does not read, or whose
   * workload file cannot be read, raises.
   */
  method ProcessSections(ini: Ini, env: Env, keys: seq<(string, OptKind)>) returns (r: Result<seq<DbSystem>, SetupError>)
    requires ValidTable(keys)
    ensures var plans := Plans(ini, keys);
      r.Ok? <==> forall k :: 0 <= k < |plans| ==> Ready(env, plans[k])
    ensures var plans := Plans(ini, keys);
      r.Err? ==>
        exists k :: 0 <= k < |plans| && !Ready(env, plans[k]) && r.error == SectionError(env, plans[k]) &&
          forall s :: 0 <= s < k ==> Ready(env, plans[s])
    ensures var plans := Plans(ini, keys);
      r.Ok? ==>
        var p := Placed(plans, |plans|);
        |r.value| == |p| && Placement(env, plans, r.value, p) && Grouped(r.value, p)
  {
    r := ProcessSectionsPlanned(ini, env, keys, Plans(ini, keys));
  }
}
