/**
 * `RunnerConfiguration` of the earlier runner package
 * (runner/ConfigReader.py): its own tables of supported databases and of
 * options, and the loops that turn each section of the file into targets
 * sharing that section's option dict. The option reading and the label
 * split are the ones of `RunnerSetup`, run over these tables.
 */
module ConfigReader {
  import opened Wrappers
  import opened Text
  import opened Patterns
  import opened Constants
  import opened ConfigParsers
  import opened DbSystems
  import RunnerSetup

  /** `SUPPORTED_DBS` (runner/ConfigReader.py:10-15): YCSB's own binding names. */
  const ReaderSupportedDbs: set<string> := {"jdbc", "mongodb", "redis", "cassandra-10"}

  /** `OPTION_KEYS` (runner/ConfigReader.py:93-101), in dict order; `output` is lower-cased, not stripped. */
  const ReaderOptionKeys: seq<(string, OptKind)> := [
    ("trials", IntOpt), ("min_mpl", IntOpt), ("max_mpl", IntOpt), ("inc_mpl", IntOpt),
    ("output", LowerOpt), ("workload", StrOpt), ("output_plots", BoolOpt)]

  /**
   * The two packages accept different names: a section `[jdbc]` gives a
   * target here and none in src/runner, `[jdbc-mysql]` the reverse.
   */
  lemma SupportedTablesDiffer()
    ensures RunnerSetup.Accept("jdbc", ReaderSupportedDbs) == [("jdbc", "")]
    ensures RunnerSetup.Accept("jdbc", SupportedDbs.Keys) == []
    ensures RunnerSetup.Accept("jdbc-mysql", ReaderSupportedDbs) == []
    ensures RunnerSetup.Accept("jdbc-mysql", SupportedDbs.Keys) == [("jdbc-mysql", "")]
  {
    SplitLabelNone("jdbc");
    SplitLabelNone("jdbc-mysql");
    assert Lower("jdbc") == "jdbc" && Lower("jdbc-mysql") == "jdbc-mysql";
  }

  /** The options of section `k`, read through this package's table. */
  function SectionKeys(ini: Ini, k: nat): Result<map<string, CValue>, IniError>
    requires k < |ini.sections|
  {
    RunnerSetup.ConfigKeysSpec(ini, ini.sections[k].0, ReaderOptionKeys)
  }

  /** The names of `OPTION_KEYS`. */
  const ReaderOptionNames: set<string> := {"trials", "min_mpl", "max_mpl", "inc_mpl", "output", "workload", "output_plots"}

  lemma ReaderOptionKeysNames()
    ensures Names(ReaderOptionKeys) == ReaderOptionNames && RunnerSetup.Distinct(ReaderOptionKeys)
  {
    var keys := ReaderOptionKeys;
    assert keys[0].0 == "trials" && keys[1].0 == "min_mpl" && keys[2].0 == "max_mpl" && keys[3].0 == "inc_mpl";
    assert keys[4].0 == "output" && keys[5].0 == "workload" && keys[6].0 == "output_plots";
  }

  /**
   * A section's dict holds exactly the seven options, each read the way
   * its entry says: the four counts by `getint`, `output` lower-cased,
   * `workload` as written, `output_plots` by `getboolean`
   * (runner/ConfigReader.py:124-145).
   */
  lemma SectionKeysValues(ini: Ini, section: string)
    requires RunnerSetup.ConfigKeysSpec(ini, section, ReaderOptionKeys).Ok?
    ensures var m := RunnerSetup.ConfigKeysSpec(ini, section, ReaderOptionKeys).value;
      m.Keys == ReaderOptionNames &&
      forall i :: 0 <= i < |ReaderOptionKeys| ==>
        RunnerSetup.OptionValue(ini, section, ReaderOptionKeys[i].0, ReaderOptionKeys[i].1) == Ok(m[ReaderOptionKeys[i].0])
  {
    var read := RunnerSetup.Reader(ini, section);
    ReaderOptionKeysNames();
    RunnerSetup.ReadKeysNames(read, ReaderOptionKeys);
    RunnerSetup.ReadKeysValues(read, ReaderOptionKeys);
  }

  /** `output` is lower-cased and, unlike src/runner, not stripped. */
  lemma SectionOutput(ini: Ini, section: string)
    requires RunnerSetup.ConfigKeysSpec(ini, section, ReaderOptionKeys).Ok?
    ensures Get(ini, section, "output").Ok?
    ensures var m := RunnerSetup.ConfigKeysSpec(ini, section, ReaderOptionKeys).value;
      "output" in m && m["output"] == CStr(Lower(Get(ini, section, "output").value))
  {
    SectionKeysValues(ini, section);
    assert ReaderOptionKeys[4] == ("output", LowerOpt);
  }

  /** Reading a section fails with the error of the first option, in table order, that does not read. */
  lemma SectionKeysFirstError(ini: Ini, section: string)
    requires RunnerSetup.ConfigKeysSpec(ini, section, ReaderOptionKeys).Err?
    ensures exists i ::
      0 <= i < |ReaderOptionKeys| &&
      RunnerSetup.OptionValue(ini, section, ReaderOptionKeys[i].0, ReaderOptionKeys[i].1) ==
        Err(RunnerSetup.ConfigKeysSpec(ini, section, ReaderOptionKeys).error) &&
      forall j :: 0 <= j < i ==> RunnerSetup.OptionValue(ini, section, ReaderOptionKeys[j].0, ReaderOptionKeys[j].1).Ok?
  {
    var read := RunnerSetup.Reader(ini, section);
    RunnerSetup.ReadKeysFirstError(read, ReaderOptionKeys);
    var i :| 0 <= i < |ReaderOptionKeys| && read(ReaderOptionKeys[i].0, ReaderOptionKeys[i].1) ==
        Err(RunnerSetup.ConfigKeysSpec(ini, section, ReaderOptionKeys).error) &&
      forall j :: 0 <= j < i ==> read(ReaderOptionKeys[j].0, ReaderOptionKeys[j].1).Ok?;
    forall j | 0 <= j < i
      ensures RunnerSetup.OptionValue(ini, section, ReaderOptionKeys[j].0, ReaderOptionKeys[j].1).Ok?
    {
      assert read(ReaderOptionKeys[j].0, ReaderOptionKeys[j].1).Ok?;
    }
  }

  // ---------------------------------------------------------------------
  // Targets

  /**
   * A target of runner/DbSystem.py as its constructor leaves it
   * (lines 8-10): the label and the option dict it was given. The
   * database name is not kept.
   */
  class LegacyDb {
    const lbl: string
    const config: Config

    constructor (dbname: string, config: Config, lbl: string)
      ensures this.lbl == lbl && this.config == config
    {
      this.lbl := lbl;
      this.config := config;
    }
  }

  /** The targets a section name yields, each as (name, label). */
  function SectionTargets(section: string): seq<(string, string)> {
    RunnerSetup.Accepted(RunnerSetup.Tokens(section), ReaderSupportedDbs)
  }

  /**
   * `__process_dbs(section, config)` (runner/ConfigReader.py:147-166): one
   * target per token whose lower-cased name is supported, in token order,
   * each with its label and all on the one dict `config`.
   */
  method ProcessDbs(section: string, config: Config) returns (dbs: seq<LegacyDb>)
    ensures |dbs| == |SectionTargets(section)| && |dbs| <= |RunnerSetup.Tokens(section)|
    ensures forall i :: 0 <= i < |dbs| ==>
      fresh(dbs[i]) && dbs[i].config == config && dbs[i].lbl == SectionTargets(section)[i].1
  {
    var kept := RunnerSetup.AcceptTokens(RunnerSetup.Tokens(section), ReaderSupportedDbs);
    dbs := Build(kept, config);
  }

  /** The construction loop of `__process_dbs`: one target per kept (name, label), in order. */
  method Build(kept: seq<(string, string)>, config: Config) returns (dbs: seq<LegacyDb>)
    ensures |dbs| == |kept|
    ensures forall i :: 0 <= i < |dbs| ==> fresh(dbs[i]) && dbs[i].config == config && dbs[i].lbl == kept[i].1
  {
    dbs := [];
    var i := 0;
    while i < |kept|
      invariant 0 <= i <= |kept| && |dbs| == i
      invariant forall j :: 0 <= j < i ==> fresh(dbs[j]) && dbs[j].config == config && dbs[j].lbl == kept[j].1
    {
      var db := new LegacyDb(kept[i].0, config, kept[i].1);
      dbs := dbs + [db];
      i := i + 1;
    }
  }

  /** The targets of the first `n` sections, section by section. */
  function Targets(ini: Ini, n: nat): (r: seq<seq<(string, string)>>)
    requires n <= |ini.sections|
    ensures |r| == n
  {
    Each(ini.sections[..n], SectionTargets)
  }

  /** `f` of the name of each section, in order. */
  function Each<T>(sections: seq<(string, map<string, string>)>, f: string -> T): (r: seq<T>)
    ensures |r| == |sections|
  {
    if sections == [] then [] else Each(sections[..|sections| - 1], f) + [f(sections[|sections| - 1].0)]
  }

  lemma {:induction false} EachAt<T>(sections: seq<(string, map<string, string>)>, f: string -> T, k: nat)
    requires k < |sections|
    ensures Each(sections, f)[k] == f(sections[k].0)
  {
    var n := |sections| - 1;
    if k < n {
      EachAt(sections[..n], f, k);
    }
  }

  /** What the options of the first `n` sections read to, section by section. */
  function Reads(ini: Ini, n: nat): (r: seq<Result<map<string, CValue>, IniError>>)
    requires n <= |ini.sections|
    ensures |r| == n
  {
    if n == 0 then [] else Reads(ini, n - 1) + [SectionKeys(ini, n - 1)]
  }

  lemma TargetsAt(ini: Ini, n: nat, k: nat)
    requires k < n <= |ini.sections|
    ensures Targets(ini, n)[k] == SectionTargets(ini.sections[k].0)
  {
    EachAt(ini.sections[..n], SectionTargets, k);
  }

  lemma {:induction false} ReadsAt(ini: Ini, n: nat, k: nat)
    requires k < n <= |ini.sections|
    ensures Reads(ini, n)[k] == SectionKeys(ini, k)
  {
    if k < n - 1 {
      ReadsAt(ini, n - 1, k);
    }
  }

  /** Where each target of the first `k` sections comes from: (section index, name, label), section by section. */
  function Placed(ts: seq<seq<(string, string)>>, k: nat): (r: seq<(nat, string, string)>)
    requires k <= |ts|
    ensures forall i :: 0 <= i < |r| ==> r[i].0 < k
  {
    if k == 0 then []
    else Placed(ts, k - 1) + Tagged(k - 1, ts[k - 1])
  }

  function Tagged(k: nat, acc: seq<(string, string)>): (r: seq<(nat, string, string)>)
    ensures |r| == |acc| && forall i :: 0 <= i < |r| ==> r[i] == (k, acc[i].0, acc[i].1)
  {
    seq(|acc|, i requires 0 <= i < |acc| => (k, acc[i].0, acc[i].1))
  }

  /** The targets built from the first `k` sections match their placement: labels, dicts, and one dict per section. */
  predicate Matches(ini: Ini, k: nat, dbs: seq<LegacyDb>)
    requires k <= |ini.sections|
    reads set i | 0 <= i < |dbs| :: dbs[i].config
  {
    Built(Targets(ini, |ini.sections|), Reads(ini, |ini.sections|), k, dbs)
  }

  /** `dbs` are the targets of the first `k` sections, given each section's targets `ts` and dict `rs`. */
  predicate Built(ts: seq<seq<(string, string)>>, rs: seq<Result<map<string, CValue>, IniError>>, k: nat, dbs: seq<LegacyDb>)
    requires k <= |ts| == |rs|
    reads set i | 0 <= i < |dbs| :: dbs[i].config
  {
    Labelled(ts, k, dbs) && Filled(ts, rs, k, dbs) && Shared(ts, k, dbs)
  }

  /** One target per placed (section, name, label), carrying that label. */
  predicate Labelled(ts: seq<seq<(string, string)>>, k: nat, dbs: seq<LegacyDb>)
    requires k <= |ts|
  {
    var p := Placed(ts, k);
    |dbs| == |p| && forall i :: 0 <= i < |p| ==> dbs[i].lbl == p[i].2
  }

  /** Each target's dict holds what its section read to. */
  predicate Filled(ts: seq<seq<(string, string)>>, rs: seq<Result<map<string, CValue>, IniError>>, k: nat, dbs: seq<LegacyDb>)
    requires k <= |ts| == |rs|
    reads set i | 0 <= i < |dbs| :: dbs[i].config
  {
    var p := Placed(ts, k);
    |dbs| == |p| &&
    forall i :: 0 <= i < |p| ==> rs[p[i].0].Ok? && dbs[i].config.entries == rs[p[i].0].value
  }

  /** Two targets share one dict exactly when they come from the same section. */
  predicate Shared(ts: seq<seq<(string, string)>>, k: nat, dbs: seq<LegacyDb>)
    requires k <= |ts|
  {
    var p := Placed(ts, k);
    |dbs| == |p| &&
    forall i, j :: 0 <= i < |p| && 0 <= j < |p| ==> (dbs[i].config == dbs[j].config <==> p[i].0 == p[j].0)
  }

  /**
   * `__process_sections` (runner/ConfigReader.py:114-122): sections in
   * file order, each read to a fresh dict and then split into targets,
   * all appended; the first section whose options do not read raises.
   */
  method ProcessSections(ini: Ini) returns (r: Result<seq<LegacyDb>, IniError>)
    ensures r.Ok? <==> forall k :: 0 <= k < |ini.sections| ==> SectionKeys(ini, k).Ok?
    ensures r.Err? ==>
      exists k :: 0 <= k < |ini.sections| && SectionKeys(ini, k) == Err(r.error) &&
                  forall j :: 0 <= j < k ==> SectionKeys(ini, j).Ok?
    ensures r.Ok? ==> Matches(ini, |ini.sections|, r.value)
  {
    ghost var bad;
    r, bad := Sections(ini);
    Verdict(ini, r, bad);
  }

  /**
   * The loop of `__process_sections`, stated over the table of section
   * reads: `bad` is the section it stopped at, all of them when none failed.
   */
  method Sections(ini: Ini) returns (r: Result<seq<LegacyDb>, IniError>, ghost bad: nat)
    ensures bad == FirstErr(Reads(ini, |ini.sections|))
    ensures r.Err? ==> bad < |ini.sections| && Reads(ini, |ini.sections|)[bad] == Err(r.error)
    ensures r.Ok? ==> bad == |ini.sections| && Matches(ini, |ini.sections|, r.value)
  {
    ghost var ts := Targets(ini, |ini.sections|);
    ghost var rs := Reads(ini, |ini.sections|);
    var dbs: seq<LegacyDb> := [];
    var k := 0;
    while k < |ini.sections|
      invariant 0 <= k <= |ini.sections|
      invariant k <= FirstErr(rs)
      invariant Built(ts, rs, k, dbs)
    {
      var read := ReadSection(ini, k);
      FirstErrStep(rs, k);
      if read.Err? {
        return Err(read.error), k;
      }
      dbs := AddSection(ini, ts, rs, k, dbs, read.value);
      k := k + 1;
    }
    return Ok(dbs), k;
  }

  /** The index of the first failed read, or `|rs|` when all succeed. */
  function FirstErr<T, E>(rs: seq<Result<T, E>>): (r: nat)
    ensures r <= |rs|
  {
    if rs == [] || rs[0].Err? then 0 else 1 + FirstErr(rs[1..])
  }

  /** Reads before `FirstErr` succeed. */
  lemma {:induction false} FirstErrBefore<T, E>(rs: seq<Result<T, E>>, j: nat)
    requires j < FirstErr(rs)
    ensures rs[j].Ok?
  {
    if j > 0 {
      FirstErrBefore(rs[1..], j - 1);
    }
  }

  /** Reading on from a point not past `FirstErr`: a success moves on, a failure is `FirstErr`. */
  lemma {:induction false} FirstErrStep<T, E>(rs: seq<Result<T, E>>, k: nat)
    requires k <= FirstErr(rs) && k < |rs|
    ensures rs[k].Ok? ==> k < FirstErr(rs)
    ensures rs[k].Err? ==> FirstErr(rs) == k
  {
    if k > 0 {
      FirstErrStep(rs[1..], k - 1);
    }
  }

  /** `__process_config_keys` on section `k`. */
  method ReadSection(ini: Ini, k: nat) returns (read: Result<map<string, CValue>, IniError>)
    requires k < |ini.sections|
    ensures read == Reads(ini, |ini.sections|)[k]
  {
    read := RunnerSetup.ProcessConfigKeys(ini, ini.sections[k].0, ReaderOptionKeys);
    ReadsAt(ini, |ini.sections|, k);
  }

  /** Where the loop stopped, told in terms of each section's read. */
  lemma Verdict(ini: Ini, r: Result<seq<LegacyDb>, IniError>, bad: nat)
    requires bad == FirstErr(Reads(ini, |ini.sections|))
    requires r.Err? ==> bad < |ini.sections| && Reads(ini, |ini.sections|)[bad] == Err(r.error)
    requires r.Ok? ==> bad == |ini.sections|
    ensures r.Ok? <==> forall k :: 0 <= k < |ini.sections| ==> SectionKeys(ini, k).Ok?
    ensures r.Err? ==>
      exists k :: 0 <= k < |ini.sections| && SectionKeys(ini, k) == Err(r.error) &&
                  forall j :: 0 <= j < k ==> SectionKeys(ini, j).Ok?
  {
    var rs := Reads(ini, |ini.sections|);
    forall j | 0 <= j < bad
      ensures SectionKeys(ini, j).Ok?
    {
      FirstErrBefore(rs, j);
      ReadsAt(ini, |ini.sections|, j);
    }
    if r.Err? {
      ReadsAt(ini, |ini.sections|, bad);
    }
  }

  /** One round of `__process_sections`: a fresh dict for section `k`, its targets appended. */
  method AddSection(ini: Ini, ghost ts: seq<seq<(string, string)>>, ghost rs: seq<Result<map<string, CValue>, IniError>>,
                    k: nat, dbs: seq<LegacyDb>, entries: map<string, CValue>) returns (all: seq<LegacyDb>)
    requires k < |ini.sections| && ts == Targets(ini, |ini.sections|) && |rs| == |ts| && Built(ts, rs, k, dbs)
    requires rs[k] == Ok(entries)
    ensures Built(ts, rs, k + 1, all)
  {
    var name := ini.sections[k].0;
    TargetsAt(ini, |ini.sections|, k);
    var config := new Config(entries);
    var more := ProcessDbs(name, config);
    LabelledNext(ts, k, dbs, more);
    FilledNext(ts, rs, k, dbs, more, config);
    SharedNext(ts, k, dbs, more, config);
    all := dbs + more;
  }

  /** Target `i` of the first `k + 1` sections: an earlier one, or one of section `k`. */
  lemma PlacedAt(ts: seq<seq<(string, string)>>, k: nat, dbs: seq<LegacyDb>, more: seq<LegacyDb>, i: nat)
    requires k < |ts| && |dbs| == |Placed(ts, k)| && |more| == |ts[k]| && i < |dbs| + |more|
    ensures |Placed(ts, k + 1)| == |dbs| + |more|
    ensures i < |dbs| ==> (dbs + more)[i] == dbs[i] && Placed(ts, k + 1)[i] == Placed(ts, k)[i]
    ensures i >= |dbs| ==> (dbs + more)[i] == more[i - |dbs|] && Placed(ts, k + 1)[i] == (k, ts[k][i - |dbs|].0, ts[k][i - |dbs|].1)
  {
    assert Placed(ts, k + 1) == Placed(ts, k) + Tagged(k, ts[k]);
  }

  lemma LabelledNext(ts: seq<seq<(string, string)>>, k: nat, dbs: seq<LegacyDb>, more: seq<LegacyDb>)
    requires k < |ts| && Labelled(ts, k, dbs) && |more| == |ts[k]|
    requires forall i :: 0 <= i < |more| ==> more[i].lbl == ts[k][i].1
    ensures Labelled(ts, k + 1, dbs + more)
  {
    forall i | 0 <= i < |dbs| + |more|
      ensures (dbs + more)[i].lbl == Placed(ts, k + 1)[i].2
    {
      PlacedAt(ts, k, dbs, more, i);
    }
    assert Placed(ts, k + 1) == Placed(ts, k) + Tagged(k, ts[k]);
  }

  lemma FilledNext(ts: seq<seq<(string, string)>>, rs: seq<Result<map<string, CValue>, IniError>>, k: nat,
                   dbs: seq<LegacyDb>, more: seq<LegacyDb>, config: Config)
    requires k < |ts| == |rs| && Filled(ts, rs, k, dbs) && rs[k] == Ok(config.entries) && |more| == |ts[k]|
    requires forall i :: 0 <= i < |more| ==> more[i].config == config
    ensures Filled(ts, rs, k + 1, dbs + more)
  {
    var pq := Placed(ts, k + 1);
    forall i | 0 <= i < |dbs| + |more|
      ensures rs[pq[i].0].Ok? && (dbs + more)[i].config.entries == rs[pq[i].0].value
    {
      PlacedAt(ts, k, dbs, more, i);
    }
    assert Placed(ts, k + 1) == Placed(ts, k) + Tagged(k, ts[k]);
  }

  lemma SharedNext(ts: seq<seq<(string, string)>>, k: nat, dbs: seq<LegacyDb>, more: seq<LegacyDb>, config: Config)
    requires k < |ts| && Shared(ts, k, dbs) && |more| == |ts[k]|
    requires forall i :: 0 <= i < |dbs| ==> dbs[i].config != config
    requires forall i :: 0 <= i < |more| ==> more[i].config == config
    ensures Shared(ts, k + 1, dbs + more)
  {
    var pq := Placed(ts, k + 1);
    var p := Placed(ts, k);
    forall i, j | 0 <= i < |dbs| + |more| && 0 <= j < |dbs| + |more|
      ensures (dbs + more)[i].config == (dbs + more)[j].config <==> pq[i].0 == pq[j].0
    {
      PlacedAt(ts, k, dbs, more, i);
      PlacedAt(ts, k, dbs, more, j);
      if i < |dbs| { assert p[i].0 < k; }
      if j < |dbs| { assert p[j].0 < k; }
    }
    assert Placed(ts, k + 1) == Placed(ts, k) + Tagged(k, ts[k]);
  }
}
