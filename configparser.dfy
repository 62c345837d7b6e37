/**
 * The part of Python's `configparser` the runner relies on: a file read
 * into a `[DEFAULT]` map and named sections in file order, and the
 * typed getters. Option names are taken as already lower-cased, the way
 * the parser stores them.
 */
module ConfigParsers {
  import opened Wrappers
  import opened Text

  const DefaultSection: string := "DEFAULT"

  /** A parsed file: the `[DEFAULT]` options and the other sections in file order. */
  datatype Ini = Ini(defaults: map<string, string>, sections: seq<(string, map<string, string>)>)

  datatype IniError =
    | NoSectionError(section: string)
    | NoOptionError(section: string, option: string)
    | IniValueError(value: string)

  /** `sections()`: the section names in file order. */
  function SectionNames(ini: Ini): (r: seq<string>)
    ensures |r| == |ini.sections| && forall i :: 0 <= i < |r| ==> r[i] == ini.sections[i].0
  {
    seq(|ini.sections|, i requires 0 <= i < |ini.sections| => ini.sections[i].0)
  }

  /** The options of the first section with that name. */
  function FindSection(secs: seq<(string, map<string, string>)>, name: string): (r: Option<map<string, string>>)
    ensures r.None? <==> forall i :: 0 <= i < |secs| ==> secs[i].0 != name
    ensures r.Some? ==> exists i :: 0 <= i < |secs| && secs[i] == (name, r.value)
  {
    if secs == [] then None
    else if secs[0].0 == name then Some(secs[0].1)
    else
      var r := FindSection(secs[1..], name);
      assert forall i :: 1 <= i < |secs| ==> secs[i] == secs[1..][i - 1];
      if r.Some? then
        var i :| 0 <= i < |secs[1..]| && secs[1..][i] == (name, r.value);
        assert secs[i + 1] == (name, r.value);
        r
      else r
  }

  /**
   * `get(section, option)`: the section's own value, else the default;
   * an unknown section raises NoSectionError, except `DEFAULT`, which
   * reads the defaults alone.
   */
  function Get(ini: Ini, section: string, option: string): (r: Result<string, IniError>)
    ensures FindSection(ini.sections, section).Some? && option in FindSection(ini.sections, section).value ==>
      r == Ok(FindSection(ini.sections, section).value[option])
    ensures r.Ok? && (FindSection(ini.sections, section).None? || option !in FindSection(ini.sections, section).value) ==>
      option in ini.defaults && r.value == ini.defaults[option]
    ensures r == Err(NoSectionError(section)) <==> section != DefaultSection && FindSection(ini.sections, section).None?
    ensures r.Err? && !r.error.NoSectionError? ==> option !in ini.defaults && r.error == NoOptionError(section, option)
  {
    match FindSection(ini.sections, section)
    case Some(m) =>
      if option in m then Ok(m[option])
      else if option in ini.defaults then Ok(ini.defaults[option])
      else Err(NoOptionError(section, option))
    case None =>
      if section != DefaultSection then Err(NoSectionError(section))
      else if option in ini.defaults then Ok(ini.defaults[option])
      else Err(NoOptionError(section, option))
  }

  /** `get(section, option, fallback=fb)`: a missing section or option gives the fallback. */
  function GetFallback(ini: Ini, section: string, option: string, fb: string): (r: string)
    ensures Get(ini, section, option).Ok? ==> r == Get(ini, section, option).value
    ensures Get(ini, section, option).Err? ==> r == fb
  {
    match Get(ini, section, option)
    case Ok(v) => v
    case Err(_) => fb
  }

  /** `getint`: `int()` of the value. */
  function GetInt(ini: Ini, section: string, option: string): (r: Result<int, IniError>)
    ensures r.Ok? <==> Get(ini, section, option).Ok? && ParseInt(Get(ini, section, option).value).Some?
    ensures r.Ok? ==> r.value == ParseInt(Get(ini, section, option).value).value
  {
    match Get(ini, section, option)
    case Err(e) => Err(e)
    case Ok(v) =>
      match ParseInt(v)
      case None => Err(IniValueError(v))
      case Some(n) => Ok(n)
  }

  /** `BOOLEAN_STATES`, by the lower-cased value. */
  function BooleanState(v: string): Option<bool> {
    var l := Lower(v);
    if l == "1" || l == "yes" || l == "true" || l == "on" then Some(true)
    else if l == "0" || l == "no" || l == "false" || l == "off" then Some(false)
    else None
  }

  /** `getboolean`: one of the eight words, in any case; anything else raises ValueError. */
  function GetBoolean(ini: Ini, section: string, option: string): (r: Result<bool, IniError>)
    ensures r.Ok? <==> Get(ini, section, option).Ok? && BooleanState(Get(ini, section, option).value).Some?
    ensures r.Ok? ==> r.value == BooleanState(Get(ini, section, option).value).value
  {
    match Get(ini, section, option)
    case Err(e) => Err(e)
    case Ok(v) =>
      match BooleanState(v)
      case None => Err(IniValueError(v))
      case Some(b) => Ok(b)
  }

  /** "true" and "TRUE" read as True, "Off" as False. */
  lemma BooleanStateExamples()
    ensures BooleanState("true") == Some(true) && BooleanState("TRUE") == Some(true)
    ensures BooleanState("Off") == Some(false)
  {
    assert Lower("true") == "true" && Lower("TRUE") == "true" && Lower("Off") == "off";
  }

  /**
   * `ConfigParser(defaults=d)` followed by `read`: the constructor's
   * defaults, under whatever the file's own `[DEFAULT]` section sets.
   */
  function WithDefaults(d: map<string, string>, file: Ini): (r: Ini)
    ensures r.sections == file.sections
    ensures r.defaults.Keys == d.Keys + file.defaults.Keys
    ensures forall k :: k in r.defaults ==> r.defaults[k] == (if k in file.defaults then file.defaults[k] else d[k])
  {
    Ini(d + file.defaults, file.sections)
  }

  /** A section that leaves an option out inherits the constructor's default, unless the file's `[DEFAULT]` overrides it. */
  lemma DefaultApplies(d: map<string, string>, file: Ini, section: string, option: string)
    requires FindSection(file.sections, section).Some? && option !in FindSection(file.sections, section).value
    requires option in d && option !in file.defaults
    ensures Get(WithDefaults(d, file), section, option) == Ok(d[option])
  {
  }
}
