# zlog: a verified model of the logging facade's decision rules

The `zlog` package wraps zap, lumberjack and toml in one logging facade. Its own logic is small:

- defaulting of the configuration;
- a retention sweep that walks the log root and removes expired directories whose base name
  starts with the root's base name;
- the startup sequence that builds one console logger (mode `dev`) or two rotating file loggers;
- twenty leveled entry points, each sending its message to a fixed handle at a fixed level.
  Eight are variadic: seven use the first optional argument or a default, and `Infoff` passes
  the caller's first field, indexing it unguarded; the other twelve take fixed arguments;
- two string helpers, `Print` and `Printf`, with arity guards.

This project models those rules in Dafny and proves what they do.

- **Values** are datatypes: the decoded configuration, file entries, the sinks and the calls.
- **State** is held in classes. `Sweep.FileSystem` holds the file tree that the sweep changes in
  place. `Facade.LogState` holds the package variables `config`, `logger`, `errLogger`, `sugar`,
  `errSugar` and `zlogTime`, which the startup methods assign.
- **The walk** is a `while` loop (`Sweep.Walk`) that calls the callback (`Sweep.Callback`), which
  calls `RemoveAll`. The loop is proved equal to a recursive specification function,
  `Sweep.Swept`. The lemmas in `SweepProperties` are stated over that function.
- **Time and I/O** are parameters:
  - the current instant `now` for the sweep;
  - the calendar day the sinks are built on;
  - the outcome of decoding the TOML file;
  - whether zap's development build succeeds;
  - the order in which `filepath.Walk` visits paths;
  - the paths on which `os.RemoveAll` fails.

Modules, in dependency order:

- `Wrappers`: Option and Result, and first-or-default.
- `Int64s`: int64 wrap-around.
- `Paths`: `filepath.Base` and containment of paths.
- `Dates`: the `2006-01-02` day name.
- `Config`: `conf()` and the retention default.
- `Levels`: zap levels and level enablers.
- `Sinks`: the two file sinks.
- `Sweep` and `SweepProperties`: the retention sweep and what it does.
- `Facade` and `FacadeProperties`: the package state, startup and entry points, and where each
  record goes.
- `Format`: `Print` and `Printf`.

### Where the code and the package's design description disagree

The model follows the code.

- **A failure stops the sweep.** The design says a failed deletion is tolerated and the walk
  goes on. In the code, the callback returns the error (`RemoveFailed`, or `Recovered` for a
  panic it recovered from). `filepath.Walk` then stops, so later entries are not examined
  (`SweepProperties.FailureStopsLaterRemovals`, `SweepProperties.StopsAtFirstError`).
- **The day directories are not what the sweep removes.** The design's example uses root
  `/var/log/app`, `MaxDays` 7 and a ten-day-old directory `/var/log/app/2020-01-01`, and says
  the directory is deleted. The code compares base names, and `2020-01-01` does not start with
  `app`, so the directory is kept (`SweepProperties.TenDayOldDayDirectoryKept`). In general, a
  day directory is never eligible when the root's base name does not start with a digit. Under
  the default root `./log` this always holds
  (`SweepProperties.DayDirectoryNeverEligible`,
  `SweepProperties.DefaultRootKeepsDayDirectories`).
- **The root itself can be removed.** The design flags this as a possible edge case. The code
  removes the root whenever it is an expired directory. The walk then stops at the root's first
  descendant, which no longer exists (`SweepProperties.RootSweptWhenExpired`).
- **Some error-level records go to the general file.** The design sends error, fatal and panic
  records to the error sink. In the code, `LogError`, `LogPanic`, `LogFatal` and `Errorf` log
  through `logger` or `sugar`, so in production they reach the general file
  (`FacadeProperties.ProductionGeneralFile`).
- **`LogInfo` writes nothing in production.** It logs at Info through `errLogger`, whose
  highPriority filter admits only Error and above (`FacadeProperties.ProductionDropped`).
- **A decode failure does not fall back to defaults in the code.** The design says the process
  goes on with default, development-like behaviour. The code's `Init` returns before it builds
  any logger. The handles stay nil, and every entry point panics on them
  (`Facade.LogState.Init`, `FacadeProperties.BeforeInitEveryCallPanics`).

## Model

| member | source | states |
|---|---|---|
| Wrappers.FirstOr | zlog/log.go:280-284 | the first variadic value when there is one, the default otherwise |
| Int64s.Wrap64 | zlog/log.go:82 | int64 wrap-around: the identity on int64 values, and always congruent to its argument modulo 2^64 |
| Paths.Base | zlog/log.go:84 | filepath.Base is never empty |
| Paths.BaseOfChild | zlog/log.go:84 | the base name of `dir/name` is `name` for a single nonempty path element |
| Paths.Within | zlog/log.go:86 | what RemoveAll(p) deletes: p itself, and anything it covers starts with p without its trailing slashes |
| Paths.WithinTrailingSlash | zlog/log.go:86 | `dir/` and `dir` cover the same paths |
| Paths.WithinChild | zlog/log.go:86 | every path beneath p, that is p without trailing slashes then `/` then anything, is covered by p |
| Paths.NotWithinSibling | zlog/log.go:86 | a path that extends p's last element without a `/` (`a/logs2` beside `a/logs`) is not covered |
| Paths.BaseOfName | zlog/log.go:84 | a single path element is its own base name |
| Dates.Digits | zlog/log.go:129 | the decimal digits of n, reading back as n, without a leading zero, and at most two exactly when n < 100 |
| Dates.PaddedValue | zlog/log.go:129 | padding with leading zeros keeps a digit string's value |
| Dates.DashJoinedFields | zlog/log.go:129 | in a + `-` + b + `-` + c with two-character b and c, the dashes and the three fields sit at fixed distances from the end |
| Dates.DayName | zlog/log.go:129 | the `2006-01-02` day name: at least ten characters, with `-` sixth and third from the end |
| Dates.DayNameFields | zlog/log.go:129 | the digit fields before, between and after the two dashes read back as the year, the month and the day |
| Dates.DayNameInjective | zlog/log.go:129 | different days get different directory names |
| Dates.DayNameShape | zlog/log.go:129 | the `2006-01-02` day name has at least ten characters, starts with a digit and holds no `/` |
| Config.Conf | zlog/log.go:111-124 | the log root and the file name are never empty; each is the configured value, or its own default (`./log`, `log`) when that value is empty |
| Config.ConfIsFixpoint | zlog/log.go:111-124 | feeding the defaulted values back in as the configuration changes neither answer, nor the retention |
| Config.ConfFieldsIndependent | zlog/log.go:111-124 | the root depends only on Path and the name only on Name |
| Config.RetentionDays | zlog/log.go:69-73 | the retention is never 0: MaxDays when nonzero, unclamped (negative values too), else 28 |
| Levels.Enabled | zlog/log.go:163-165 | every enabler admits Fatal, and the highPriority closure admits exactly what the ErrorLevel floor admits |
| Levels.CoreFilters | zlog/log.go:163-165 | the error core admits exactly Error, DPanic, Panic and Fatal; the general core admits everything but Debug; whatever the error core admits, the general core admits too |
| Sinks.GeneralSink | zlog/log.go:126-143 | a rotating file root/day/name.json with the 500/3/28 rotation, admitting Info and above |
| Sinks.ErrorSink | zlog/log.go:149-174 | a rotating file root/day/name_err.json with the 500/3/28 rotation and the highPriority filter |
| Sinks.SinkFiles | zlog/log.go:129-155 | both files lie in root/day under the configured name; the error file is the general file with `_err` before `.json`, and the two differ |
| Sweep.Cutoff | zlog/log.go:82 | the cutoff is now minus 86400 times the retention whenever this does not overflow an int64 |
| Sweep.Eligible | zlog/log.go:82-84 | only an expired directory is eligible, and an expired root directory always is |
| Sweep.Lstat | zlog/log.go:75 | the walker's lstat finds exactly the paths still in the tree, and reports their entries |
| Sweep.Pruned | zlog/log.go:86 | the tree loses the removed path and everything beneath it, and nothing else; the surviving entries are unchanged |
| Sweep.RemoveAllEffect | zlog/log.go:86 | RemoveAll errs exactly on an existing path with a failure, leaving the tree as it was; otherwise it prunes the subtree; a missing path is no error |
| Sweep.Visit | zlog/log.go:75-91 | one callback halts exactly on nil info (recovered panic) or on an eligible path whose removal fails (that error); otherwise it removes the path exactly when eligible, pruning its subtree |
| Sweep.Swept | zlog/log.go:75-92 | the sweep only removes paths: the surviving entries are unchanged, and every removed path was visited |
| Sweep.SweepOf | zlog/log.go:67-92 | the sweep of the configured root or `./log`, with MaxDays or 28 |
| Sweep.FileSystem.Stat | zlog/log.go:75 | lstat on the current tree: found exactly when present, with its entry |
| Sweep.FileSystem.RemoveAll | zlog/log.go:86 | the error and the new tree are those of RemoveAllEffect on the old tree |
| Sweep.Callback | zlog/log.go:75-91 | nil info gives the recovered-panic error and leaves the tree alone; an eligible entry is passed to RemoveAll, and its error becomes the returned error; a deleted entry means no error |
| Sweep.Walk | zlog/log.go:75-92 | the loop over the visit order leaves the tree, the removed set and the first callback error that Swept specifies |
| Sweep.DeleteOldLog | zlog/log.go:67-93 | the tree after the sweep of conf()'s root with the effective retention; the walk's error is discarded |
| SweepProperties.SweptConcat | zlog/log.go:75-92 | walking a then b is walking a, stopping there on an error, and otherwise going on with b from the tree a left |
| SweepProperties.StopsAtFirstError | zlog/log.go:87-92 | once a callback has returned an error, nothing further in the walk changes the outcome |
| SweepProperties.RemovedWereEligible | zlog/log.go:82-86 | every removed path was visited, existed, had no removal failure, and was an expired directory whose base name has the root's base name as a prefix |
| SweepProperties.NeverRemoved | zlog/log.go:82-86 | a non-directory, an entry not older than the cutoff, or a path whose base name lacks the root's base name as a prefix is never the target of RemoveAll (it can still go with a removed directory above it) |
| SweepProperties.CompleteSweep | zlog/log.go:75-92 | a walk that ends without error visited only existing paths, and removed exactly the eligible ones among them (both directions) |
| SweepProperties.SurvivorsExactly | zlog/log.go:86 | after the sweep, a path survives exactly when it was there and lies beneath no removed path |
| SweepProperties.RootSweptWhenExpired | zlog/log.go:84 | an expired root is removed with everything beneath it; the walk ends there, or at its first descendant with the recovered-panic error |
| SweepProperties.DayDirectoryNeverEligible | zlog/log.go:84 | a day directory is never eligible when the root's base name does not start with a digit |
| SweepProperties.DefaultRootKeepsDayDirectories | zlog/log.go:113 | under the default root `./log`, no day directory is ever eligible |
| SweepProperties.ThresholdIsStrict | zlog/log.go:82 | an entry exactly at the retention age is kept; one second older, it is eligible exactly when it is a directory with a matching base name |
| SweepProperties.FailureStopsLaterRemovals | zlog/log.go:86-92 | an eligible path whose removal fails ends the walk with that error; only paths visited before it are removed, whatever comes after |
| SweepProperties.HaltsOnFailure | zlog/log.go:86-87 | a walk whose first path is eligible but cannot be removed stops there with the tree untouched |
| SweepProperties.RemoveAllIgnoresTrailingSlash | zlog/log.go:86 | removing a root written with a trailing slash prunes the same paths as removing it without |
| SweepProperties.HaltsOnVanished | zlog/log.go:75-80 | a walk whose next path is gone ends right away with the recovered panic |
| SweepProperties.ConfiguredSweepRemoves | zlog/log.go:67-92 | deleteOldLog's sweep removes only visited, existing, failure-free directories older than the retention cutoff whose base name starts with the configured root's; an error-free sweep removes exactly the visited ones of those |
| SweepProperties.TenDayOldDayDirectoryKept | zlog/log.go:84 | with root `/var/log/app` and MaxDays 7, a ten-day-old `/var/log/app/2020-01-01` is kept |
| Facade.Destination | zlog/log.go:137-141 | a file core writes a record exactly when its enabler admits the level, to its own file; the development core writes to the console |
| Facade.Emit | zlog/log.go:200-205 | a call on a nil logger panics; otherwise the call carries the logger, the level and the fields |
| Facade.EmitSugared | zlog/log.go:252-257 | a call on a nil sugared logger panics; otherwise the call carries it, the level, the style and the arguments |
| Facade.LogState.constructor | zlog/log.go:32-37 | before Init: no handle is set, the configuration is the zero value, and the time field holds the load time |
| Facade.LogState.Init | zlog/log.go:49-65 | a decode failure changes nothing; otherwise the configuration is the decoded one and the sweep has run on it; `dev` either exits or aliases the error handles to the general ones, with the time field replaced by zap.Error(nil); any other mode builds two distinct fresh loggers over today's two files |
| Facade.LogState.InitDev | zlog/log.go:95-109 | a build failure exits with logger nil; otherwise one fresh logger serves as both logger and errLogger, and one sugared logger as both sugar and errSugar |
| Facade.LogState.InitLog | zlog/log.go:126-147 | logger is a fresh logger over root/day/name.json admitting Info and above, and sugar wraps it; the error handles are untouched |
| Facade.LogState.InitErrLog | zlog/log.go:149-177 | errLogger is a fresh logger over root/day/name_err.json with the highPriority filter, and errSugar wraps it; the general handles are untouched |
| Facade.LogState.ZlogError | zlog/log.go:200-205 | errLogger at Error, structured, carrying msg, the time field and the error; a nil handle panics |
| Facade.LogState.LogInfo | zlog/log.go:207-217 | errLogger at Info, structured, carrying msg, the time field and the first info string or ""; a nil handle panics |
| Facade.LogState.Error | zlog/log.go:219-228 | errLogger at Error, structured, carrying msg, the time field and the first error or nil; a nil handle panics |
| Facade.LogState.Fatal | zlog/log.go:230-239 | errLogger at Fatal, structured, carrying msg, the time field and the first error or nil; a nil handle panics |
| Facade.LogState.Panic | zlog/log.go:241-250 | errLogger at Panic, structured, carrying msg, the time field and the first error or nil; a nil handle panics |
| Facade.LogState.LogsError | zlog/log.go:252-257 | errSugar at Error, concatenating msg, the time field and the error; a nil handle panics |
| Facade.LogState.SugarError | zlog/log.go:259-264 | the very same call as LogsError |
| Facade.LogState.SugarFatal | zlog/log.go:266-271 | errSugar at Fatal, concatenating msg, the time field and the error; a nil handle panics |
| Facade.LogState.SugarPanic | zlog/log.go:273-278 | errSugar at Panic, concatenating msg, the time field and the error; a nil handle panics |
| Facade.LogState.Info | zlog/log.go:280-290 | logger at Info, structured, carrying msg, the time field and the first info string or ""; a nil handle panics |
| Facade.LogState.Warn | zlog/log.go:292-301 | logger at Warn, structured, carrying msg, the time field and the first warn string or ""; a nil handle panics |
| Facade.LogState.Debug | zlog/log.go:303-312 | logger at Debug, structured, carrying msg, the time field and the first debug string or ""; a nil handle panics |
| Facade.LogState.Infoff | zlog/log.go:314-319 | with no field, the index panic, raised before the logger is looked at; otherwise logger at Info, structured, carrying msg, the time field and the first field; a nil logger panics |
| Facade.LogState.LogError | zlog/log.go:321-326 | logger, not errLogger, at Error, structured, carrying msg, the time field and the error; a nil handle panics |
| Facade.LogState.LogPanic | zlog/log.go:328-333 | logger at Panic, structured, carrying msg, the time field and the error; a nil handle panics |
| Facade.LogState.LogFatal | zlog/log.go:335-340 | logger at Fatal, structured, carrying msg, the time field and the error; a nil handle panics |
| Facade.LogState.Infof | zlog/log.go:342-347 | sugar at Info with msg as the template, over the time field and the "info" field; a nil handle panics |
| Facade.LogState.InfoW | zlog/log.go:349-354 | sugar at Info with msg and the key-value arguments: the time field, then "info" and info; a nil handle panics |
| Facade.LogState.Errorf | zlog/log.go:356-361 | sugar, not errSugar, at Error with msg as the template, over the time field and the error; a nil handle panics |
| Facade.LogState.Warnf | zlog/log.go:363-368 | sugar at Warn with msg as the template, over the time field and the "warn" field; a nil handle panics |
| FacadeProperties.ProductionGeneralFile | zlog/log.go:280-368 | in production mode Info, Warn, LogError, LogPanic, LogFatal, Infoff, Infof, InfoW, Errorf and Warnf write to today's general file, and that file is not the error file |
| FacadeProperties.ProductionErrorFile | zlog/log.go:200-278 | in production mode the Zlog Error method, Error, Fatal, Panic, LogsError and the Sugar functions write to today's error file, and that file is not the general file |
| FacadeProperties.ProductionDropped | zlog/log.go:207-217 | in production mode LogInfo (Info on the error core) and Debug (below the general core's floor) write nothing |
| FacadeProperties.DevelopmentOneLogger | zlog/log.go:104-108 | in development mode all twenty entry points (Infoff given a field) write to the console, and error and general entry points share one logger |
| FacadeProperties.BeforeInitEveryCallPanics | zlog/log.go:32-34 | with no handle set, every entry point panics on its nil handle, except Infoff without a field, which panics on the index |
| Format.Print | zlog/log.go:179-184 | "" exactly for no arguments; otherwise the first argument under %v followed by one space |
| Format.Printf | zlog/log.go:186-198 | "" exactly for fewer than five arguments |
| Format.ConcatLength | zlog/log.go:191-197 | the pieces of a line fill it exactly |
| Format.PieceAt | zlog/log.go:191-197 | each piece of a line sits at the total length of the pieces before it |
| Format.PrintUsesFirstOnly | zlog/log.go:183 | arguments after the first make no difference |
| Format.PrintfUsesFirstFive | zlog/log.go:191-197 | two argument lists that agree on their first five give the same line |
| Format.PrintfLine | zlog/log.go:191-197 | the line is, end to end: `method: `, args[0] under %v, `, statusCode: `, args[1] under %v, `, req: `, args[2] under %s, `, ip: `, args[3] under %s, `, time: `, args[4] under %f, and `s`, each at its own offset |

## Left out

- zap, lumberjack and toml are not part of this model:
  - JSON encoding, caller and stack-trace options;
  - rotation by size, age and backups (500 MB, 3 and 28 are carried as constants only);
  - TOML parsing, which is a parameter of `Init`.
- Facade.LogState.Init: a failed decode is taken to leave `config` as it was. toml can assign
  some fields before it fails, and that is not modelled. Printing the decode error to standard
  output is not modelled either.
- `go deleteOldLog()` runs concurrently with the rest of `Init`. The model runs the sweep
  synchronously, before any logger is built.
- Sweep.Callback: the source reads the clock once per visited entry. The model uses one `now`
  for the whole sweep.
- Sweep.Walk: the visit order is a parameter. The model does not derive it from directory
  listings. Read errors on an existing directory, which `filepath.Walk` passes to the callback
  alongside a valid info, are not modelled. The callback ignores them anyway.
- Sweep.RemoveAllEffect: a failing `os.RemoveAll` leaves the tree unchanged. Partial removal
  before the error is not modelled.
- Sweep.Pruned: the tree and the walk are taken to spell each path the same way. Trailing
  slashes on the removed path are handled; other spellings are not. The model does not clean
  paths as `filepath.Join` does. For example, under root `./log` the walker
  reports children as `log/...`.
- Facade.Destination: the development core's own level floor is zap's. The model sends every
  development record to the console.
- Facade.LogState.InitDev: `zErr` and the fatal log message are not modelled. A build failure
  is reported as `Exited`.
- Fatal and Panic: process termination and unwinding after the record is written are not
  modelled (Fatal, Panic, SugarFatal, SugarPanic, LogFatal, LogPanic). These calls are modelled
  like any other call at their level.
- `Sync` is not modelled. This includes the deferred `logger.Sync()` in `InitErrLog`, which
  flushes the general logger rather than the error logger. Called while `logger` is nil, that
  deferred call panics; the model's `InitErrLog` does not capture this. `Init` never reaches
  the case, because it calls `InitLog` first.
- `fmt.Sprint` and `fmt.Sprintf` rendering are not modelled. Each verb's rendering of a value is
  a parameter of `Format.Print` and `Format.Printf`. The sugared entry points record the style
  (concatenation, template, key-value pairs), not the rendered text.
- The fixed text of the time field is not modelled. The field is stamped once at load with a
  given string; the clock that produces it is not modelled.
- The calendar is not modelled. Dates are a year, a month 1-12 and a day 1-31; which days exist
  in which month is not checked. `InitLog` and `InitErrLog` each read the date, and the
  model gives both the same `day`.
