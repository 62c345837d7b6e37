# YCSB-runner in Dafny

YCSB-runner drives the YCSB+T benchmark against several database systems.
A runner configuration file has one INI section per database system; the
section name lists one or more systems, each with an optional `:label`.
For every system the runner sweeps trials and multiprogramming levels
(MPLs, the number of YCSB threads). Each step cleans the database, loads
and runs YCSB, extracts statistics from YCSB's output with regular
expressions, and appends one record. Lifecycle hooks fire around every
level. The records are then averaged and exported.

This project models that core and proves what it promises:

- `wrappers.dfy`, `text.dfy`: `Option`/`Result`, and the parts of Python's
  `str` that the runner uses (`strip`, `split`, `join`, `lower`, `replace`,
  `int()`, `float()` on decimal captures, string ordering).
- `patterns.dfy`: the regular expressions of the constant tables (a literal
  head, an optional lazy `.+?` gap, a literal tail and a greedy character
  class capture), `re.search` and `get_re_match`, and the `:label` pattern.
- `constants.dfy`, `const_helpers.dfy`: the tables of
  `src/runner/constants.py` and `csv2list`, with their consistency facts.
- `configparser.dfy`: the `configparser` reads the runner makes (`get`,
  `getint`, `getboolean`, fallbacks, constructor defaults).
- `stats.dfy`: `Statistics` (typed fields, typed setter, the anomaly score)
  and `StatisticsSet` (append-only, `average`, `avg_` dispatch).
- `extract.dfy`: `Runner.extract_stats`.
- `templates.dfy`, `dbsystem.dfy`: `DbSystem` of src/runner/dbsystem.py, which
  reads and writes attributes through its shared configuration dict. The
  file also models `{PLACEHOLDER}` substitution in clean commands, the YCSB
  command vectors, the workload file and `clean`.
- `runner_setup.dfy`: `Runner.__init__`, which reads every section's
  options and builds the targets.
- `runner.dfy`, `run_properties.dfy`: `Runner.run` as a class whose state is
  an event trace and each target's records. A loop level is a method
  proved equal to a recursive specification function. Lemmas then state
  how many steps the sweep runs, how the records are marked, and how often
  hooks fire.
- `config_reader.dfy`: the older `RunnerConfiguration` of
  `runner/ConfigReader.py`, with its own tables.
- `ycsb_runner.dfy`: the original single-file script `ycsb_runner.py`.

Process output and exit codes are an oracle parameter. The clock,
temporary file names, the working directory and the workload files on
disk are parameters too.

## Model

| member | source | states |
|---|---|---|
| `Text.Strip` | src/runner/runner.py:133 | the result has no Python whitespace at either end (`str.isspace`, Unicode spaces included) |
| `Text.StripStripped` | src/runner/runner.py:133 | stripping a string with no surrounding whitespace returns it unchanged, so `strip` is idempotent |
| `Text.Split` | src/runner/runner.py:133 | at least one piece, no piece contains the separator, and joining the pieces with it gives back the input |
| `Text.SplitJoin` | src/runner/runner.py:133 | splitting a join of separator-free pieces gives back the pieces |
| `Text.ParseIntOfIntToString` | src/runner/runner.py:110 | `int(str(i)) == i` for every integer |
| `Text.ParseDecimalOfDigits` | src/runner/runner.py:170 | `float()` of a non-empty digit capture is its integer value |
| `Text.LexTransitive` | src/runner/dbsystem.py:293 | the code-point order `sorted` uses on keys is transitive |
| `Text.LexTotal` | src/runner/dbsystem.py:293 | any two different keys are ordered one way or the other |
| `Patterns.GetReMatch` | src/runner/runner.py:175-186 | group 1 is returned exactly when `re.search` finds a match, otherwise None |
| `Patterns.SearchLeftmost` | src/runner/runner.py:183 | the match found is the one at the first position where the pattern matches, and no match means no position matches |
| `Patterns.MatchAtSound` | src/runner/constants.py:170-180 | a match spells head, gap, tail and capture in the text; the capture is a non-empty run of its class; the gap is non-empty exactly for the `.+?` patterns |
| `Patterns.ClassRunSound` | src/runner/constants.py:171-175 | the greedy class run stops only at the end of text, at a character outside the class, or at the `{1,5}` limit |
| `Patterns.LazyGapSound` | src/runner/constants.py:174-178 | `.+?` takes the shortest newline-free gap after which tail and capture match |
| `Patterns.PlainFinds` | src/runner/constants.py:171-173 | when the head's first character does not occur before the head, and the head, the tail and a maximal class run follow, the search yields that run |
| `Patterns.GapFinds` | src/runner/constants.py:174-178 | when the head's first character does not occur before the head, and the head, a newline-free gap without the tail's first character, the tail and a maximal class run follow, the search yields that gap and run |
| `Patterns.SplitLabel` | src/runner/constants.py:40 | the label is ':' and a run of `[A-Za-z0-9_-]` ending at the end of line, and it is cut out of the name; with no label the name is the token |
| `Patterns.SplitLabelExact` | src/runner/constants.py:32-40 | the label starts at the last ':' and exists exactly when a non-empty run of label characters follows it |
| `Patterns.SplitLabelNone` | src/runner/constants.py:40 | a token without ':' has label "" and keeps its name |
| `Patterns.SplitLabelAppend` | src/runner/constants.py:37-40 | `name:run` splits into `name` and `:run`, colon kept in the label |
| `Constants.StatRulesTracked` | src/runner/constants.py:169-197 | every `STAT_REGEXPS` key is a float field of `TRACKED_STATS`; keys are distinct; `mpl` and `trial` have no rule; every other field has one |
| `Constants.StatRulesShape` | src/runner/constants.py:170-180 | every rule has a non-empty head and no limit; a rule has a lazy gap exactly when it captures `[0-9.]+`, and then its tail is ", " |
| `Constants.SupportedHaveClean` | src/runner/constants.py:21-109 | the `SUPPORTED_DBS` keys are exactly the `CLEAN_COMMANDS` keys |
| `Constants.CleanCommandsCovered` | src/runner/constants.py:63-109 | every clean command argument is brace-free text plus `{KEY}` holes whose keys the substitution map defines |
| `Constants.SubstKeysDistinct` | src/runner/dbsystem.py:141-147 | the substitution keys are distinct, non-empty and brace-free |
| `Constants.OptionKeysDistinct` | src/runner/constants.py:130-145 | the option keys are distinct |
| `Constants.OptionDefaultsCover` | src/runner/constants.py:130-162 | every default is for an option key, and 'workload' is the only option without a default |
| `ConstHelpers.Csv2List` | src/runner/const_helpers.py:1-9 | every element is non-empty, has no surrounding whitespace and contains no ',' |
| `ConstHelpers.Csv2ListCons` | src/runner/const_helpers.py:1-9 | the result is the stripped first piece (dropped when empty) followed by the result on the rest, so order is kept |
| `ConstHelpers.Csv2ListJoinRoundTrip` | src/runner/const_helpers.py:1-9 | joining the result with ',' and converting again gives the same list |
| `ConstHelpers.Csv2ListTwo` | src/runner/const_helpers.py:1-9 | "a, c" with clean pieces gives exactly [a, c] |
| `ConstHelpers.Csv2ListDefaultAvgFields` | src/runner/constants.py:157 | the default avgfields "anomaly_score, runtime" becomes ["anomaly_score", "runtime"] |
| `ConfigParsers.Get` | src/runner/runner.py:116 | the section's own value, else the DEFAULT value; NoSectionError exactly for a missing section other than DEFAULT; otherwise NoOptionError |
| `ConfigParsers.GetInt` | src/runner/runner.py:110 | succeeds exactly when `get` succeeds and `int()` parses the value, giving that number |
| `ConfigParsers.GetBoolean` | src/runner/runner.py:113 | succeeds exactly when `get` succeeds and the value is one of the eight boolean words in any case |
| `ConfigParsers.GetFallback` | src/runner/runner.py:152 | the value when `get` succeeds, the fallback on any error |
| `ConfigParsers.WithDefaults` | src/runner/runner.py:26-27 | constructor defaults join the file's DEFAULT section, and the file's values win |
| `ConfigParsers.DefaultApplies` | src/runner/runner.py:26 | an option absent from the section and the file reads as the constructor default |
| `RunnerSetup.OptionValue` | src/runner/runner.py:107-118 | the value has the type its table entry names; a string-kind read fails exactly when `get` fails; 'output' comes back stripped; list items are non-empty and stripped |
| `RunnerSetup.ProcessConfigKeys` | src/runner/runner.py:100-121 | the loop builds the dict of `ConfigKeysSpec`: keys read in table order, stopping at the first read that raises |
| `RunnerSetup.ReadKeysOk` | src/runner/runner.py:107-121 | the dict is built exactly when every key reads |
| `RunnerSetup.ReadKeysNames` | src/runner/runner.py:106-121 | a built dict has exactly the table's keys |
| `RunnerSetup.ReadKeysValues` | src/runner/runner.py:107-121 | each key holds what its own read returned |
| `RunnerSetup.ReadKeysFirstError` | src/runner/runner.py:107-121 | the error raised is that of the first key, in table order, whose read fails |
| `RunnerSetup.ProcessedValidates` | src/runner/dbsystem.py:15-20 | a dict built from the option table always passes `__validate_config` and holds no dbname, label or tablename key |
| `RunnerSetup.DefaultSweep` | src/runner/constants.py:148-152 | a section that sets none of them reads trials 1, min_mpl 1, max_mpl 25, inc_mpl 4 |
| `RunnerSetup.Tokens` | src/runner/runner.py:133 | a section name gives at least one token, each stripped and without ',' |
| `RunnerSetup.Accept` | src/runner/runner.py:136-147 | a token is kept exactly when its lower-cased name, label removed, is supported, and then it gives its name and label |
| `RunnerSetup.AcceptedSound` | src/runner/runner.py:135-147 | every kept entry is supported and comes from a token |
| `RunnerSetup.AcceptedComplete` | src/runner/runner.py:135-147 | every supported token is kept |
| `RunnerSetup.AcceptedAppend` | src/runner/runner.py:135-147 | tokens are kept in order: the kept entries of a concatenation are the concatenation of the kept entries |
| `RunnerSetup.AcceptTokens` | src/runner/runner.py:135-147 | the loop keeps exactly `Accepted(tokens, supported)` for the supported set it is given |
| `RunnerSetup.IdsOf` | src/runner/runner.py:148-152 | each kept token becomes name, label and the `tablename` of section `db+label`, or "usertable" |
| `RunnerSetup.Outcome` | src/runner/dbsystem.py:26-40 | building a target raises AttributeError for the first missing required field, otherwise gives the workload properties or their error |
| `RunnerSetup.MakeTarget` | src/runner/runner.py:154-155 | a fresh `DbSystem` with the token's identity on the shared config, or the error construction raises; the config is left as it was |
| `RunnerSetup.BuildTargets` | src/runner/runner.py:148-156 | one target per kept token, in order, all on the same config; an error when construction fails |
| `RunnerSetup.ProcessDbs` | src/runner/runner.py:123-156 | no targets for a section naming no supported system; otherwise every target is built, or construction's error is raised |
| `RunnerSetup.ProcessSection` | src/runner/runner.py:95-97 | a section fails exactly when it is not ready (its options fail to read, or a target's construction fails), with that section's error; otherwise its targets are built on one fresh config holding the options read |
| `RunnerSetup.ProcessSections` | src/runner/runner.py:88-98 | succeeds exactly when every section is ready; the error is the first failing section's; targets are listed section by section, and those of one section share its config |
| `ConfigReader.SupportedTablesDiffer` | runner/ConfigReader.py:10-15 | "jdbc" is accepted by this table and not by src/runner's, and "jdbc-mysql" the other way round |
| `ConfigReader.ReaderOptionKeysNames` | runner/ConfigReader.py:93-101 | the option table has the seven distinct keys trials, min_mpl, max_mpl, inc_mpl, output, workload, output_plots |
| `ConfigReader.SectionKeysValues` | runner/ConfigReader.py:124-145 | a read section has exactly the seven keys, each holding what its typed read returned |
| `ConfigReader.SectionOutput` | runner/ConfigReader.py:98 | 'output' is lower-cased and not stripped |
| `ConfigReader.SectionKeysFirstError` | runner/ConfigReader.py:124-145 | a failed section raises the error of its first key whose read fails |
| `ConfigReader.LegacyDb.constructor` | runner/ConfigReader.py:165 | a target keeps the config object it is given and its label |
| `ConfigReader.ProcessDbs` | runner/ConfigReader.py:147-166 | one target per supported token, in order, all on the section's config, never more than the tokens |
| `ConfigReader.ProcessSections` | runner/ConfigReader.py:114-122 | succeeds exactly when every section reads; the error is the first failing section's; targets are concatenated in file order and a section's targets share its config |
| `DbSystems.RequiredAreOptions` | src/runner/dbsystem.py:15-20 | every required field is an option key |
| `DbSystems.FirstMissing` | src/runner/dbsystem.py:77-79 | none exactly when every required field is present; otherwise the first absent one in list order |
| `DbSystems.ValidateConfig` | src/runner/dbsystem.py:69-80 | AttributeError naming the first missing required field, nothing when all are present; extra keys are accepted |
| `DbSystems.SetThenGet` | src/runner/dbsystem.py:50-61 | after an assignment, reading the name gives the value, or the older instance attribute that shadows a config write |
| `DbSystems.SetFrame` | src/runner/dbsystem.py:56-61 | an assignment changes no other name's value |
| `DbSystems.SetOtherTypeShadows` | src/runner/dbsystem.py:56-61 | a value of another type leaves the config as it was and becomes an instance attribute that reads back |
| `DbSystems.DbSystem.SetAttr` | src/runner/dbsystem.py:56-61 | updates the shared config in place on a same-type write, otherwise sets an instance attribute (or raises for a property) |
| `DbSystems.Merge` | src/runner/dbsystem.py:93-100 | the workload config has the keys of both, with `extraneous_config` winning key by key |
| `DbSystems.ChooseTablename` | src/runner/dbsystem.py:43-47 | the explicit tablename, else the workload's 'table', else "usertable" |
| `DbSystems.BaseProps` | src/runner/dbsystem.py:83-87 | the base properties are read exactly when 'workload' reads and the file at cwd/workload exists |
| `DbSystems.DbSystem.Create` | src/runner/dbsystem.py:23-47 | validation error first; then the base-properties error; otherwise a fresh target with dbname, label and tablename set, the merged workload config and its temporary file |
| `DbSystems.DbSystem.ExportOutput` | src/runner/dbsystem.py:252 | the exporter lookup succeeds exactly when 'output' is a key of `SUPPORTED_OUTPUTS`, so only for "csv"; any other output raises KeyError naming it |
| `DbSystems.DbSystem.LabelName` | src/runner/dbsystem.py:165-170 | dbname followed by the label, or the error reading dbname raises |
| `DbSystems.DbSystem.OutDirPath` | src/runner/dbsystem.py:172-184 | computed on first use and remembered; later calls return the remembered path |
| `DbSystems.DbSystem.MakeFPath` | src/runner/dbsystem.py:350-361 | the output directory joined with `fstr.format(labelname, datestr)`, remembering the directory |
| `DbSystems.FormatTwo` | src/runner/dbsystem.py:360-361 | a format string with two `{}` holes takes its two arguments in order |
| `DbSystems.HostPort` | src/runner/dbsystem.py:124-127 | host and port are the two groups of `RE_HOSTNAME_PORT`'s search, found exactly when it matches |
| `DbSystems.HostPortExample` | src/runner/constants.py:43 | "mongodb://localhost:27017/ycsb" gives host "localhost" and port "27017" |
| `DbSystems.JdbcConfig` | src/runner/dbsystem.py:121-132 | the JDBC settings have exactly the keys of `CLEAN_DEFAULT_JDBC`, in its order |
| `DbSystems.MongoConfig` | src/runner/dbsystem.py:134-139 | the Mongo settings have exactly the keys of `CLEAN_DEFAULT_MONGO`, in its order |
| `DbSystems.SubstListKeys` | src/runner/dbsystem.py:141-147 | the substitution keys are TABLENAME, then JDBC_ and MONGO_ followed by each upper-cased default key, in that order |
| `DbSystems.CleanCommandFilled` | src/runner/dbsystem.py:149-152 | every templated argument of a clean command is its text with each hole filled, and no brace is left |
| `Templates.Templateify` | src/runner/dbsystem.py:112-152 | the loop gives `ApplySubst`: each argument with every `{KEY}` replaced by its value, substitutions applied in order |
| `Templates.ReplaceAllRender` | src/runner/dbsystem.py:150-151 | replacing every `{KEY}` in a rendered argument equals filling its holes |
| `Templates.FillArgClean` | src/runner/dbsystem.py:149-152 | an argument whose holes are all defined by brace-free values comes out brace-free |
| `DbSystems.YcsbDbName` | src/runner/dbsystem.py:363-370 | (intended) succeeds exactly for names whose lower case is supported, giving the YCSB binding, or the lower-cased name when the table holds None |
| `DbSystems.YcsbDbNameMixedCase` | src/runner/dbsystem.py:363-370 | "MongoDB" is supported by its lower case, yet the lookup as written raises KeyError where the intended one gives "mongodb" |
| `DbSystems.YcsbDbNameAgrees` | src/runner/dbsystem.py:363-370 | on lower-case names the lookup as written and the intended one agree |
| `DbSystems.CommandMixedCase` | src/runner/dbsystem.py:296-324 | a dbname not itself a key of `SUPPORTED_DBS` makes both YCSB commands raise KeyError |
| `DbSystems.LoadRunDiffer` | src/runner/dbsystem.py:296-324 | the load and run commands fail together; both have 8 elements and differ only at index 1 ("load"/"run") and index 7 ("1"/str(mpl)) |
| `DbSystems.CommandBinding` | src/runner/dbsystem.py:363-370 | index 2 of the command is `SUPPORTED_DBS[dbname]` when that is not None, else dbname |
| `DbSystems.DbSystem.CleanCommand` | src/runner/dbsystem.py:326-333 | KeyError for a lower-cased name with no clean command; otherwise the templated command filed under that name |
| `DbSystems.DbSystem.Clean` | src/runner/dbsystem.py:326-338 | runs the templated command and raises RuntimeError naming the lower-cased dbname on a non-zero exit |
| `DbSystems.DbSystem.CleanDataAt` | src/runner/dbsystem.py:154-163 | (intended) True when clean_data is not set to True; otherwise whether the MPL is min_mpl |
| `DbSystems.CleanDataIgnoresMpl` | src/runner/dbsystem.py:154-163 | as written, with clean_data True and min_mpl 1 the property reads True, where the intended value at MPL 5 is False |
| `DbSystems.InsertSorted` | src/runner/dbsystem.py:293 | inserting a new key into strictly sorted keys keeps them strictly sorted |
| `DbSystems.SortedUnique` | src/runner/dbsystem.py:293 | two strictly sorted lists with the same elements are equal, so the file order is determined |
| `DbSystems.DbSystem.WorkloadFile` | src/runner/dbsystem.py:283-294 | the keys are strictly sorted and are exactly the workload config's keys, one `k=v` line each |
| `Stats.Default` | runner/stats.py:33-36 | a missing field's default, 0.0 or 0, has the field's type |
| `Stats.SetAttrKeeps` | runner/stats.py:48-53 | TypeError exactly for a tracked field given a value of another type, keeping the record; otherwise the record stays well typed and the value reads back |
| `Stats.SetAttrFrame` | runner/stats.py:48-55 | a successful assignment changes no other attribute |
| `Stats.Statistics.SetAttr` | runner/stats.py:48-55 | the object's fields become `SetAttrSpec`'s result, or stay unchanged on TypeError |
| `Stats.GetAttrUnknown` | runner/stats.py:39-45 | a name that is neither stored nor 'score' raises AttributeError |
| `Stats.ScoreNoneIff` | runner/stats.py:64-72 | the score is None exactly when opcount is at most 0, and otherwise non-negative |
| `Stats.ScoreExample` | runner/stats.py:64-72 | totalcash 100, countcash 123 and opcount 50 give the score 0.46 |
| `Stats.ImportKwargsSpec` | runner/stats.py:25-32 | keyword import succeeds exactly when every keyword is a tracked field of the right type; each field then holds its last keyword value |
| `Stats.ConstructRejectsUnknown` | runner/stats.py:28-31 | any keyword outside the schema makes construction fail |
| `Stats.ConstructDefaults` | runner/stats.py:25-36 | valid keywords give a complete record with each field's keyword value or its default |
| `Stats.ConstructEmpty` | runner/stats.py:33-36 | no keywords give every field at its default |
| `Stats.Statistics.New` | runner/stats.py:25-36 | a fresh object holding `Construct`'s record, or its error |
| `Stats.AddStatsSpec` | runner/stats.py:102-115 | the records before the first non-`Statistics` argument, with ValueError exactly when there is one |
| `Stats.StatisticsSet.AddStats` | runner/stats.py:102-115 | appends those records after the old items, in order, and reports the error |
| `Stats.AddStatsStop` | runner/stats.py:110-113 | a non-`Statistics` argument stops the loop with ValueError, and the arguments before it stay appended |
| `Stats.AddStatsAll` | runner/stats.py:110-115 | all `Statistics` arguments are appended, in order |
| `Stats.StatisticsSet.constructor` | runner/stats.py:86-93 | a new set is empty |
| `Stats.ValuesOfAt` | runner/stats.py:132-138 | the i-th value is the i-th record's field, so values come in insertion order |
| `Stats.ValuesOfAppend` | runner/stats.py:132-138 | the values of two concatenated lists are the concatenation of their values |
| `Stats.AverageOf` | runner/stats.py:123-130 | succeeds exactly when the set is non-empty and its values can be read and summed, and then the average times the count is the sum; a read or sum error propagates; an empty set raises ZeroDivisionError |
| `Stats.AverageTwoFour` | runner/stats.py:123-130 | values 2 and 4 average to 3 |
| `Stats.AvgDispatch` | runner/stats.py:95-99 | `avg_f` is `average(f)` for every field name f |
| `Stats.GetAttributeCases` | runner/stats.py:95-99 | every name either is `avg_` + f and gives `average(f)`, or raises AttributeError |
| `Stats.AvgOnce` | runner/stats.py:96-97 | only one prefix is removed: `avg_avg_f` averages the field `avg_f` |
| `Extraction.Convert` | src/runner/runner.py:170 | a converted capture has the field's type |
| `Extraction.RuleValue` | src/runner/runner.py:167-170 | a rule that does not match contributes nothing; a match gives its converted capture, or ValueError when `float()` rejects it |
| `Extraction.ExtractedSpec` | src/runner/runner.py:166-170 | extraction succeeds exactly when every matching capture converts, and then each rule contributes only its own field |
| `Extraction.RecordFields` | src/runner/runner.py:166-172 | a successful extraction is a complete record: a matched field holds its parsed capture, an unmatched one 0.0, the others their defaults |
| `Extraction.ExtractFields` | src/runner/runner.py:159-172 | the same for `STAT_REGEXPS` over `TRACKED_STATS`, with mpl and trial 0 |
| `Extraction.ExtractStats` | src/runner/runner.py:159-172 | a fresh valid `Statistics` holding the extracted record, or the ValueError |
| `Runners.HookEvents` | src/runner/runner.py:188-198 | every hook of the upper-cased location, in list order, with the given arguments; nothing for a location without hooks |
| `Runners.HookEventsCaseless` | src/runner/runner.py:195 | a location is matched regardless of case |
| `Runners.IntAttr` | src/runner/runner.py:42-47 | a numeric attribute: the read's error, or a number exactly when the value is an int or bool |
| `Runners.CountArgs` | src/runner/runner.py:44 | `count`'s start and step, both numeric, or the error reading either |
| `Runners.YcsbCommandParts` | src/runner/dbsystem.py:296-324 | both commands are built from one binding and workload path, or both raise the same error |
| `Runners.StampedCarries` | src/runner/runner.py:59-61 | stamping sets only mpl and trial, and the record stays well typed |
| `Runners.ClearStops` | src/runner/runner.py:37-68 | after a target fails, no later target is reached |
| `Runners.RunOverOk` | src/runner/runner.py:36-69 | a run whose targets all finish is `PRE_RUN`, the targets, `POST_RUN` |
| `Runners.RunOverFails` | src/runner/runner.py:36-68 | a failing run stops after the failing target, without `POST_RUN` |
| `Runners.Runner.Init` | src/runner/runner.py:31 | no hooks given means an empty hook map; the trace and every record list start empty |
| `Runners.Runner.RunHooks` | src/runner/runner.py:188-198 | the trace grows by exactly `HookEvents` and the records are unchanged |
| `Runners.Runner.Step` | src/runner/runner.py:49-62 | one step moves the trace and the target's records as `StepSpec` says: clean, load, run, extract, stamp, append |
| `Runners.Runner.CleanStep` | src/runner/runner.py:50-62 | cleans on every step, without reading `clean_data`; a clean command that cannot be built, or a non-zero exit, raises before YCSB runs |
| `Runners.Runner.YcsbStep` | src/runner/runner.py:54-62 | loads with thread count "1", runs with str(mpl), then appends |
| `Runners.Runner.AppendStats` | src/runner/runner.py:58-62 | appends the extracted record stamped with mpl and trial, or raises the extraction error |
| `Runners.Runner.MplStep` | src/runner/runner.py:45-63 | `PRE_MPL` before the bound check; within the bound the step and `POST_MPL` |
| `Runners.Runner.MplLoop` | src/runner/runner.py:44-63 | the MPL loop as `MplOver`: rounds until the MPL passes max_mpl or a round fails |
| `Runners.Runner.Trial` | src/runner/runner.py:43-64 | `PRE_TRIAL`, the MPL loop, `POST_TRIAL` |
| `Runners.Runner.TrialLoop` | src/runner/runner.py:42-64 | trials 1..trials in order, stopping at the first failure |
| `Runners.Runner.Copies` | src/runner/runner.py:40-41 | the configuration file, then the workload file, copied into the output directory |
| `Runners.Runner.Body` | src/runner/runner.py:42-68 | the trials, then the exporter lookup, which raises KeyError for an output other than "csv"; only after it succeeds, export, cleanup and `POST_DB` |
| `Runners.Runner.Target` | src/runner/runner.py:38-68 | `PRE_DB`, the copies, then the body |
| `Runners.Runner.RunWith` | src/runner/runner.py:35-69 | the trace grows by `RunOver`; each target's records grow by its own records when the run reaches it |
| `Runners.Runner.Run` | src/runner/runner.py:35-69 | the whole run against the oracle's answers: trace and records as `RunSpec` says |
| `RunProperties.SweepShape` | src/runner/runner.py:44-48 | the MPLs run are min_mpl + i·inc_mpl while at most max_mpl; none when min_mpl > max_mpl; the next value is above max_mpl |
| `RunProperties.DefaultSweep` | src/runner/constants.py:149-152 | the default sweep is 1, 5, 9, 13, 17, 21, 25: seven steps |
| `RunProperties.GridShape` | src/runner/runner.py:42-48 | trial-major, MPL-minor order: entry i·|mpls|+j is (first trial + i, mpls[j]) |
| `RunProperties.StepMarks` | src/runner/runner.py:58-62 | a step that succeeds appends exactly one record, carrying its trial and MPL |
| `RunProperties.MplOverMarks` | src/runner/runner.py:44-62 | a trial's MPL loop appends one record per MPL of the sweep, in sweep order |
| `RunProperties.TrialsMarks` | src/runner/runner.py:42-62 | the trials append the records of the whole grid in order |
| `RunProperties.BodyExportFails` | src/runner/dbsystem.py:252 | a target whose exporter lookup fails keeps its trials' events and records and ends with that error: no export, no cleanup, no `POST_DB` |
| `RunProperties.RunExported` | src/runner/runner.py:37-68 | in a run that finishes, every target's exporter lookup succeeded, so every output was "csv" |
| `RunProperties.RunMarks` | src/runner/runner.py:42-62 | after a run that finishes, each target's new records are marked with the grid of trials 1..trials and its sweep |
| `RunProperties.TargetRecs` | src/runner/runner.py:42-62 | a target's records are exactly those of its trials |
| `RunProperties.TargetsOk` | src/runner/runner.py:37-68 | when the targets finish, every one of them finished |
| `RunProperties.HookEventsFired` | src/runner/runner.py:188-198 | firing a location calls each of its hooks once, and no hook of another location |
| `RunProperties.StepQuiet` | src/runner/runner.py:49-62 | a step fires no hook |
| `RunProperties.MplOverCounts` | src/runner/runner.py:45-63 | in a trial with n steps, `PRE_MPL` fires n + 1 times and `POST_MPL` n times per hook |
| `RunProperties.MplOverLast` | src/runner/runner.py:45-48 | the last `PRE_MPL` of a trial carries the first MPL above max_mpl |
| `RunProperties.BeyondValue` | src/runner/runner.py:44-48 | that MPL is min_mpl + steps·inc_mpl, and it is above max_mpl |
| `RunProperties.CountValue` | src/runner/runner.py:44 | `count(start, step)` yields start + k·step at position k |
| `RunProperties.CountIsSweep` | src/runner/runner.py:44-48 | with inc_mpl ≥ 1 the counted values are the sweep, and the next one is above max_mpl |
| `RunProperties.CountNeverPassesMax` | src/runner/runner.py:44-48 | with inc_mpl ≤ 0 and min_mpl ≤ max_mpl no counted value passes max_mpl, so the loop never breaks |
| `RunProperties.MixedCaseStepFails` | src/runner/runner.py:49-55 | a target whose name is supported only by its lower case cleans and then raises KeyError before loading |
| `YcsbRunner.ReMatch` | ycsb_runner.py:97-104 | None exactly when the pattern does not match (not 0); otherwise `float()` of the capture, or ValueError |
| `YcsbRunner.ReMatchDigits` | ycsb_runner.py:99-102 | a digit capture gives its integer value as a float |
| `YcsbRunner.ExtractFields` | ycsb_runner.py:196-221 | each of the five extracted fields holds its pattern's parsed capture, or 0.0 when the pattern does not match; mpl, trial and score are 0; the first rule whose capture `float()` rejects raises its ValueError |
| `YcsbRunner.ExtractStats` | ycsb_runner.py:196-221 | the loop over `REGEXPS` gives `Extract` |
| `YcsbRunner.Kept` | ycsb_runner.py:223-226 | a record is kept exactly when runtime > 0; only then are mpl and trial set; no other field changes except the score |
| `YcsbRunner.KeptScore` | ycsb_runner.py:227-232 | the score times opcount is abs(totalcash − countcash) when all three are non-zero, otherwise it stays as it was |
| `YcsbRunner.KeptMatched` | ycsb_runner.py:218-232 | a kept record's runtime was matched, and a non-zero score means all three of its inputs were matched |
| `YcsbRunner.LowerTwice` | ycsb_runner.py:175 | lowering the loop variable again changes nothing |
| `YcsbRunner.Step` | ycsb_runner.py:173-233 | the step's calls (clean by the lower-cased name, load as built before the loop, run by the lower-cased name) and its kept record |
| `YcsbRunner.Sweep` | ycsb_runner.py:169-233 | the MPL loop as `SweepSpec`, while the MPL is at most max_mpl |
| `YcsbRunner.Trials` | ycsb_runner.py:165-235 | trials 0..trials−1 in order |
| `YcsbRunner.StepRows` | ycsb_runner.py:223-233 | a step keeps at most one record, with runtime > 0 and its own mpl and trial |
| `YcsbRunner.SweepRows` | ycsb_runner.py:169-233 | every record of a trial's sweep has an MPL of the sweep and that trial |
| `YcsbRunner.TrialsRows` | ycsb_runner.py:165-233 | every record has an MPL of the sweep and a trial in 0..trials−1; no trials, no records |
| `YcsbRunner.ScoreSumAbsent` | ycsb_runner.py:242-244 | an MPL without records sums to 0.0 |
| `YcsbRunner.SumScores` | ycsb_runner.py:241-244 | one entry per MPL of the records, holding the sum of their scores |
| `YcsbRunner.Averages` | ycsb_runner.py:241-247 | each MPL's sum divided by `trials`, not by the number of records kept |
| `YcsbRunner.AverageByTrials` | ycsb_runner.py:246-247 | one kept score of 1.0 over 2 trials averages 0.5 |
| `YcsbRunner.SortedMplsShape` | ycsb_runner.py:297 | the MPLs in strictly increasing order, exactly the MPLs of the map |
| `YcsbRunner.AvgRowsShape` | ycsb_runner.py:297-303 | rows in strictly increasing MPL order, one for each MPL of the scores, each holding that MPL's average score and the trial count |
| `YcsbRunner.AverageRows` | ycsb_runner.py:297-303 | the loop over the sorted MPLs gives `AvgRows` |
| `YcsbRunner.ReadSettings` | ycsb_runner.py:126-138 | the settings hold what each `configparser` read returned, with 'output' lower-cased |
| `YcsbRunner.ReadSettingsFails` | ycsb_runner.py:126-138 | reading fails exactly with the error of the first read that raises |
| `YcsbRunner.RunSection` | ycsb_runner.py:118-303 | one section as `SectionSpec`: skipped when unsupported, then reads, output check, trials, averages, assert, rows |
| `YcsbRunner.RunSettings` | ycsb_runner.py:139-303 | a supported section once its settings are read |
| `YcsbRunner.RunScript` | ycsb_runner.py:118-303 | the script: the sections in file order until one ends it |
| `YcsbRunner.WrittenFromRows` | ycsb_runner.py:240-303 | the rows written from kept records are those records, with average rows in MPL order, each averaged over trials |
| `YcsbRunner.SectionWritten` | ycsb_runner.py:118-303 | a section writes at most once, only after reading its settings, and what it writes fits them; a supported section that finishes always writes |
| `YcsbRunner.ScriptWritten` | ycsb_runner.py:118-303 | everything the script writes fits the settings of a section it read |
| `YcsbRunner.SettingsRunEnds` | ycsb_runner.py:141-171 | exit(1) only for an output other than "csv"; it never ends only when the sweep cannot end |
| `YcsbRunner.SectionEnds` | ycsb_runner.py:118-171 | the same for a section read from the file |
| `YcsbRunner.ScriptExits` | ycsb_runner.py:141-145 | the script exits with 1 only when some supported section asks for an unsupported output |
| `YcsbRunner.ScriptHangs` | ycsb_runner.py:169-171 | the script runs forever only when some section's sweep cannot end |

## Left out

- Runners.Runner.Run: requires every target's sweep to end. A target with inc_mpl ≤ 0 and min_mpl ≤ max_mpl is outside its contract, because `count` at src/runner/runner.py:44 never passes max_mpl and the source loops forever (see Findings).
- Runners.Runner.RunWith: the same requirement as `Runners.Runner.Run`.
- YcsbRunner.Sweep: requires inc_mpl ≥ 1 whenever min_mpl ≤ max_mpl. `YcsbRunner.RunScript` has no such requirement: it reports such a section as `Hangs`.
- YcsbRunner.Trials: the same requirement as `YcsbRunner.Sweep`.
- YcsbRunner.RunScript: `Hangs` stops the model at once. The script instead runs steps forever (clean, load, run), unless one of them raises. The calls of those steps are not recorded.
- Text.Lower: lower-cases ASCII letters only; `Text.Upper` upper-cases ASCII only. This is harmless for the membership tests against `SUPPORTED_DBS` and the boolean words, which are ASCII. It is not harmless for the stored 'output' value, where Python also lowers non-ASCII letters.
- Text.ParseInt: `int()` also accepts '_' between digits and non-ASCII digits; the model rejects both.
- Text.ParseDecimal: accepts digits with at most one '.', which is all the `[0-9.]+` captures can hold. `float()`'s exponents, `inf` and `nan` are not modelled.
- Stats.AverageOf: stated over exact `real` arithmetic. IEEE rounding is not modelled.
- Floating point: every float is a `real`, so rounding, infinities and NaN are left out.
- Record schema: `Extraction` uses `Statistics` from runner/stats.py, run over the 11-field `TRACKED_STATS` of src/runner/constants.py. src/runner/runner.py:10 imports `.stats` from src/runner/, and src/runner/stats.py is not part of this model. runner/stats.py's own 7-field table is `Stats.StatsSchema`.
- `configparser`: reading the file, `%` interpolation of values, option-name case folding and duplicate-section errors are left out. A configuration is given as parsed sections of raw strings.
- The existence check in `Runner.__init__` (IOError for a missing file, src/runner/runner.py:23-24) is file-system work and is left out.
- The "invalid type" warning branch of `__process_config_keys` is left out. Every table entry is int, bool, str or callable, so it is never taken.
- Hooks are names recorded in the trace with their arguments. What a hook does, and any exception it raises, are not modelled.
- Stats.StatisticsSet.constructor: takes no arguments. The `*args` form of runner/stats.py:86-93, which passes them to `addstats` and so can raise ValueError, is not modelled; the only call, src/runner/dbsystem.py:347, passes none.
- DbSystems.Format: fills `{}` holes only. It copies "{0}", "{{" and a lone "}" literally, where Python's `str.format` substitutes, unescapes or raises ValueError. Every format string the runner passes ("config-{}-{}.ini", "workload-{}-{}", "log-{}-{}.log", "output-{}-{}", ...) has only `{}` holes.
- `StatisticsSet` stores records by value. A `Statistics` object changed after it was added does not change the set, so aliasing is not modelled.
- `print`, `log`, `raw_log` and the log file are left out, and the log message strings with them. `export_stats` is its exporter lookup, which can fail, followed by the trace event `Exported`; `cleanup` is the event `CleanedUp`. What the exporters write (CSV files, plots) and any error they raise are not modelled.
- Processes (`subprocess.call`, `Popen`, `__popen`'s UTF-8 decoding) are an oracle: a clean command's exit status and YCSB's output for each target, trial and MPL.
- `copyfile` is a trace event. `makedirs`, `tempfile` and `datetime.now()` are parameters: the working directory, the workload files, the clock and the temporary names.
- `DbSystem.__dir__` is introspection only and is left out.
- runner/DbSystem.py: its constructor works and keeps only the label and the config dict, which `ConfigReader.LegacyDb.constructor` models. `__setattr` is misspelled, so it never overrides assignment. `__validate_config` is never called; it would raise NameError on the unqualified `REQUIRED_FIELDS`. Its `__getattr__` (lines 13-17, a lookup in that dict raising AttributeError) is not modelled, since nothing in the modelled core reads these objects' attributes.
- The superseded runner/runner.py, runner/dbsystem.py, runner/config.py and runner/constants.py are left out. They do not run as written (a `for` without a body, missing imports and names); src/runner/ replaces them.
- ycsb_runner.py: `usage()` and `sys.argv` are left out. So are the output directory, the timestamp, the file copies and the CSV formatting (lines 251-286). A finished section is a `Written` value holding its records and average rows.
- ycsb_runner.py: the `NotImplementedError` branch (lines 305-309) is left out. The output was already checked to be "csv" at lines 141-145, so it is never reached.
- ycsb_runner.py: the first step lowers the loop variable `db`. The load command, built before the loop, keeps the section name as written. The run command and the written name use the lower-cased name. The model follows that.
- The tests under tests/ are not modelled as code. tests/test_stats.py targets a later `Statistics` that is not part of this model.

## Findings

| source | as written | input that shows it | evidently intended | confidence | as-written member | corrected member |
|---|---|---|---|---|---|---|
| src/runner/dbsystem.py:363-370 | `__ycsb_dbname` looks the name up in `SUPPORTED_DBS` as written. `__process_dbs` accepts a section by its lower-cased name, and `clean` lowers the name too | a section `[MongoDB]`: the clean succeeds, then `cmd_ycsb_load` raises KeyError and the run ends | look up the lower-cased name, as validation and `clean` do | not executed | `DbSystems.YcsbDbNameMixedCase` | `DbSystems.YcsbDbName` |
| src/runner/dbsystem.py:154-163 | `clean_data` reads `self.mpl`, which no `DbSystem` has. The AttributeError raised inside the property makes Python call `__getattr__('clean_data')`, which returns the config value | clean_data = true, min_mpl = 1: the property is True at every MPL, 5 included (`Runner.run` itself cleans on every step and never reads it) | True only at the MPL equal to min_mpl when clean_data is set | not executed | `DbSystems.CleanDataIgnoresMpl` | `DbSystems.DbSystem.CleanDataAt` |
| src/runner/runner.py:44-48 | `count(start=min_mpl, step=inc_mpl)` leaves the loop only when the MPL exceeds max_mpl, and `__process_config_keys` accepts any integer step | inc_mpl = 0 with min_mpl = 1 and max_mpl = 25: every MPL is 1, and the loop never ends | reject inc_mpl < 1 when min_mpl ≤ max_mpl, so the sweep ends | not executed | `RunProperties.CountNeverPassesMax` | `RunProperties.SweepShape` |
