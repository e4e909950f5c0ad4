/** The package state (the loggers, sugared loggers, configuration and time field), the startup
    sequence that fills it, and the leveled entry points that route to it. */
module Facade {
  import opened Wrappers
  import opened Int64s
  import opened Paths
  import opened Dates
  import opened Config
  import opened Levels
  import opened Sinks
  import Sweep

  /** A *zap.Logger: one core, fixed when the logger is built. */
  class Logger {
    const sink: Sink

    constructor (sink: Sink)
      ensures this.sink == sink
    {
      this.sink := sink;
    }
  }

  /** A *zap.SugaredLogger, as logger.Sugar() makes it: a wrapper around one logger. */
  class SugaredLogger {
    const base: Logger

    constructor (base: Logger)
      ensures this.base == base
    {
      this.base := base;
    }
  }

  /** The zap fields the package attaches: the time field, zap.Error and zap.String. */
  datatype Field = TimeField(stamp: string) | ErrorField(err: Option<string>) | StringField(key: string, value: string)

  /** An argument handed to a sugared logger: a field value or a plain string. */
  datatype Arg = FieldArg(field: Field) | TextArg(text: string)

  /** How the receiving logger turns msg and args into a record: structured fields (zap.Logger),
      fmt.Sprint of everything (sugar.Error, ...), a printf template (sugar.Infof, ...) or
      alternating keys and values (sugar.Infow). */
  datatype Style = Structured | Sprint | Template | KeysAndValues

  datatype Target = ToLogger(logger: Logger) | ToSugar(sugar: SugaredLogger)

  /** One call from an entry point into zap. */
  datatype Call = Call(target: Target, level: Level, style: Style, msg: string, args: seq<Arg>)

  /** The runtime panics an entry point can raise before zap writes anything. */
  datatype CallPanic = NilHandle | IndexOutOfRange

  /** Where a call's record ends up. */
  datatype Delivery = Dropped | Console | File(path: string)

  datatype InitStatus = DecodeFailed | Exited | Started

  /** The logger whose core decides about a call. */
  function Core(t: Target): Logger {
    match t
    case ToLogger(l) => l
    case ToSugar(s) => s.base
  }

  /** A file core writes a record exactly when its enabler admits the level; the development
      core's own filtering is zap's and is not modelled. */
  function Destination(c: Call): (d: Delivery)
    ensures d.File? <==> Core(c.target).sink.RotatingFile? && Enabled(Core(c.target).sink.enabler, c.level)
    ensures d.File? ==> d.path == Core(c.target).sink.filename
    ensures d.Console? <==> Core(c.target).sink.Development?
  {
    match Core(c.target).sink
    case Development => Console
    case RotatingFile(file, _, enabler) => if Enabled(enabler, c.level) then File(file) else Dropped
  }

  function FieldArgs(fields: seq<Field>): (r: seq<Arg>)
    ensures |r| == |fields| && forall i :: 0 <= i < |fields| ==> r[i] == FieldArg(fields[i])
  {
    if fields == [] then [] else [FieldArg(fields[0])] + FieldArgs(fields[1..])
  }

  /** A call on a *zap.Logger: a nil logger panics. */
  function Emit(l: Logger?, level: Level, msg: string, fields: seq<Field>): (r: Result<Call, CallPanic>)
    ensures r.Success? <==> l != null
    ensures r.Failure? ==> r.error == NilHandle
    ensures r.Success? ==> r.value == Call(ToLogger(l), level, Structured, msg, FieldArgs(fields))
  {
    if l == null then Failure(NilHandle) else Success(Call(ToLogger(l), level, Structured, msg, FieldArgs(fields)))
  }

  /** A call on a *zap.SugaredLogger: a nil one panics. */
  function EmitSugared(s: SugaredLogger?, level: Level, style: Style, msg: string, args: seq<Arg>)
    : (r: Result<Call, CallPanic>)
    ensures r.Success? <==> s != null
    ensures r.Failure? ==> r.error == NilHandle
    ensures r.Success? ==> r.value == Call(ToSugar(s), level, style, msg, args)
  {
    if s == null then Failure(NilHandle) else Success(Call(ToSugar(s), level, style, msg, args))
  }

  /** The package-level variables of the logging package. */
  class LogState {
    var config: LogConfig
    var logger: Logger?
    var errLogger: Logger?
    var sugar: SugaredLogger?
    var errSugar: SugaredLogger?
    var zlogTime: Field

    /** Package initialisation: nothing built yet, the time field stamped with the load time. */
    constructor (loadStamp: string)
      ensures config == ZERO_CONFIG && zlogTime == TimeField(loadStamp)
      ensures logger == null && errLogger == null && sugar == null && errSugar == null
    {
      config := ZERO_CONFIG;
      logger, errLogger := null, null;
      sugar, errSugar := null, null;
      zlogTime := TimeField(loadStamp);
    }

    /** Development mode: one logger, used as both the general and the error logger. */
    ghost predicate DevReady()
      reads this
    {
      logger != null && logger.sink == Development && errLogger == logger &&
      sugar != null && sugar.base == logger && errSugar == sugar
    }

    /** Production mode: a general and an error logger over today's two files. */
    ghost predicate ProdReady(day: Date)
      reads this
    {
      logger != null && logger.sink == GeneralSink(config, day) &&
      errLogger != null && errLogger.sink == ErrorSink(config, day) &&
      sugar != null && sugar.base == logger &&
      errSugar != null && errSugar.base == errLogger
    }

    /** Init: decode the configuration (decoding itself is a parameter), sweep old directories,
        then build the loggers the mode asks for. */
    method Init(decoded: Option<LogConfig>, fs: Sweep.FileSystem, now: Int64, order: seq<Path>,
                day: Date, devBuildOk: bool) returns (status: InitStatus)
      modifies this, fs
      ensures decoded.None? ==> status == DecodeFailed && unchanged(this) && unchanged(fs)
      ensures decoded.Some? ==>
                config == decoded.value &&
                fs.tree == Sweep.SweepOf(decoded.value, now, order, old(fs.tree), fs.failures).tree
      ensures decoded.Some? && decoded.value.mode == DEV_MODE ==>
              status != DecodeFailed && (status == Exited <==> !devBuildOk) &&
              (status == Started ==> DevReady() && zlogTime == ErrorField(None) &&
                                     fresh(logger) && fresh(sugar))
      ensures decoded.Some? && decoded.value.mode != DEV_MODE ==>
              status == Started && ProdReady(day) && zlogTime == old(zlogTime) &&
              fresh(logger) && fresh(errLogger) && fresh(sugar) && fresh(errSugar) &&
              logger != errLogger && sugar != errSugar
    {
      if decoded.None? {
        return DecodeFailed;
      }
      config := decoded.value;
      Sweep.DeleteOldLog(fs, config, now, order);
      if config.mode == DEV_MODE {
        var exited := InitDev(devBuildOk);
        if exited {
          return Exited;
        }
        zlogTime := ErrorField(None);
      } else {
        InitLog(day);
        InitErrLog(day);
      }
      status := Started;
    }

    /** InitDev: build zap's development logger; a build error ends the process. */
    method InitDev(buildOk: bool) returns (exited: bool)
      modifies this
      ensures exited == !buildOk
      ensures config == old(config) && zlogTime == old(zlogTime)
      ensures exited ==> logger == null && errLogger == old(errLogger) &&
                         sugar == old(sugar) && errSugar == old(errSugar)
      ensures !exited ==> DevReady() && fresh(logger) && fresh(sugar)
    {
      if !buildOk {
        logger := null;
        return true;
      }
      logger := new Logger(Development);
      errLogger := logger;
      sugar := new SugaredLogger(logger);
      errSugar := sugar;
      exited := false;
    }

    /** InitLog: the general logger over root/day/name.json at Info and above. */
    method InitLog(day: Date)
      modifies this
      ensures logger != null && fresh(logger) && logger.sink == GeneralSink(config, day)
      ensures sugar != null && fresh(sugar) && sugar.base == logger
      ensures config == old(config) && zlogTime == old(zlogTime)
      ensures errLogger == old(errLogger) && errSugar == old(errSugar)
    {
      var sink := GeneralSink(config, day);
      logger := new Logger(sink);
      sugar := new SugaredLogger(logger);
    }

    /** InitErrLog: the error logger over root/day/name_err.json, filtered by highPriority. */
    method InitErrLog(day: Date)
      modifies this
      ensures errLogger != null && fresh(errLogger) && errLogger.sink == ErrorSink(config, day)
      ensures errSugar != null && fresh(errSugar) && errSugar.base == errLogger
      ensures config == old(config) && zlogTime == old(zlogTime)
      ensures logger == old(logger) && sugar == old(sugar)
    {
      var sink := ErrorSink(config, day);
      errLogger := new Logger(sink);
      errSugar := new SugaredLogger(errLogger);
    }

    // The entry points. Each names the handle it uses, the level, and the fields it attaches.

    /** (*Zlog).Error: errLogger at Error with the given error. */
    function ZlogError(msg: string, err: Option<string>): (r: Result<Call, CallPanic>)
      reads this
      ensures r.Success? <==> errLogger != null
      ensures r.Success? ==> r.value.target == ToLogger(errLogger) && r.value.level == Level.Error &&
                             r.value.args == [FieldArg(zlogTime), FieldArg(ErrorField(err))]
      ensures r.Success? ==> r.value.msg == msg && r.value.style == Structured
    {
      Emit(errLogger, Level.Error, msg, [zlogTime, ErrorField(err)])
    }

    /** LogInfo: errLogger at Info with the first info string, or "". */
    function LogInfo(msg: string, info: seq<string>): (r: Result<Call, CallPanic>)
      reads this
      ensures r.Success? <==> errLogger != null
      ensures r.Success? ==> r.value.target == ToLogger(errLogger) && r.value.level == Level.Info
      ensures r.Success? && |info| > 0 ==> r.value.args == [FieldArg(zlogTime), FieldArg(StringField("info", info[0]))]
      ensures r.Success? && |info| == 0 ==> r.value.args == [FieldArg(zlogTime), FieldArg(StringField("info", ""))]
      ensures r.Success? ==> r.value.msg == msg && r.value.style == Structured
    {
      Emit(errLogger, Level.Info, msg, [zlogTime, StringField("info", FirstOr(info, ""))])
    }

    /** Error: errLogger at Error with the first error, or nil. */
    function Error(msg: string, err: seq<Option<string>>): (r: Result<Call, CallPanic>)
      reads this
      ensures r.Success? <==> errLogger != null
      ensures r.Success? ==> r.value.target == ToLogger(errLogger) && r.value.level == Level.Error
      ensures r.Success? && |err| > 0 ==> r.value.args == [FieldArg(zlogTime), FieldArg(ErrorField(err[0]))]
      ensures r.Success? && |err| == 0 ==> r.value.args == [FieldArg(zlogTime), FieldArg(ErrorField(None))]
      ensures r.Success? ==> r.value.msg == msg && r.value.style == Structured
    {
      Emit(errLogger, Level.Error, msg, [zlogTime, ErrorField(FirstOr(err, None))])
    }

    /** Fatal: errLogger at Fatal with the first error, or nil. */
    function Fatal(msg: string, err: seq<Option<string>>): (r: Result<Call, CallPanic>)
      reads this
      ensures r.Success? <==> errLogger != null
      ensures r.Success? ==> r.value.target == ToLogger(errLogger) && r.value.level == Level.Fatal
      ensures r.Success? && |err| > 0 ==> r.value.args == [FieldArg(zlogTime), FieldArg(ErrorField(err[0]))]
      ensures r.Success? && |err| == 0 ==> r.value.args == [FieldArg(zlogTime), FieldArg(ErrorField(None))]
      ensures r.Success? ==> r.value.msg == msg && r.value.style == Structured
    {
      Emit(errLogger, Level.Fatal, msg, [zlogTime, ErrorField(FirstOr(err, None))])
    }

    /** Panic: errLogger at Panic with the first error, or nil. */
    function Panic(msg: string, err: seq<Option<string>>): (r: Result<Call, CallPanic>)
      reads this
      ensures r.Success? <==> errLogger != null
      ensures r.Success? ==> r.value.target == ToLogger(errLogger) && r.value.level == Level.Panic
      ensures r.Success? && |err| > 0 ==> r.value.args == [FieldArg(zlogTime), FieldArg(ErrorField(err[0]))]
      ensures r.Success? && |err| == 0 ==> r.value.args == [FieldArg(zlogTime), FieldArg(ErrorField(None))]
      ensures r.Success? ==> r.value.msg == msg && r.value.style == Structured
    {
      Emit(errLogger, Level.Panic, msg, [zlogTime, ErrorField(FirstOr(err, None))])
    }

    /** LogsError: errSugar.Error over msg, the time field and the error. */
    function LogsError(msg: string, err: Option<string>): (r: Result<Call, CallPanic>)
      reads this
      ensures r.Success? <==> errSugar != null
      ensures r.Success? ==> r.value.target == ToSugar(errSugar) && r.value.level == Level.Error
      ensures r.Success? ==> r.value.msg == msg && r.value.style == Sprint
      ensures r.Success? ==> r.value.args == [FieldArg(zlogTime), FieldArg(ErrorField(err))]
    {
      EmitSugared(errSugar, Level.Error, Sprint, msg, [FieldArg(zlogTime), FieldArg(ErrorField(err))])
    }

    /** SugarError: the same call as LogsError. */
    function SugarError(msg: string, err: Option<string>): (r: Result<Call, CallPanic>)
      reads this
      ensures r == LogsError(msg, err)
    {
      EmitSugared(errSugar, Level.Error, Sprint, msg, [FieldArg(zlogTime), FieldArg(ErrorField(err))])
    }

    /** SugarFatal: errSugar.Fatal. */
    function SugarFatal(msg: string, err: Option<string>): (r: Result<Call, CallPanic>)
      reads this
      ensures r.Success? <==> errSugar != null
      ensures r.Success? ==> r.value.target == ToSugar(errSugar) && r.value.level == Level.Fatal
      ensures r.Success? ==> r.value.msg == msg && r.value.style == Sprint
      ensures r.Success? ==> r.value.args == [FieldArg(zlogTime), FieldArg(ErrorField(err))]
    {
      EmitSugared(errSugar, Level.Fatal, Sprint, msg, [FieldArg(zlogTime), FieldArg(ErrorField(err))])
    }

    /** SugarPanic: errSugar.Panic. */
    function SugarPanic(msg: string, err: Option<string>): (r: Result<Call, CallPanic>)
      reads this
      ensures r.Success? <==> errSugar != null
      ensures r.Success? ==> r.value.target == ToSugar(errSugar) && r.value.level == Level.Panic
      ensures r.Success? ==> r.value.msg == msg && r.value.style == Sprint
      ensures r.Success? ==> r.value.args == [FieldArg(zlogTime), FieldArg(ErrorField(err))]
    {
      EmitSugared(errSugar, Level.Panic, Sprint, msg, [FieldArg(zlogTime), FieldArg(ErrorField(err))])
    }

    /** Info: logger at Info with the first info string, or "". */
    function Info(msg: string, info: seq<string>): (r: Result<Call, CallPanic>)
      reads this
      ensures r.Success? <==> logger != null
      ensures r.Success? ==> r.value.target == ToLogger(logger) && r.value.level == Level.Info
      ensures r.Success? && |info| > 0 ==> r.value.args == [FieldArg(zlogTime), FieldArg(StringField("info", info[0]))]
      ensures r.Success? && |info| == 0 ==> r.value.args == [FieldArg(zlogTime), FieldArg(StringField("info", ""))]
      ensures r.Success? ==> r.value.msg == msg && r.value.style == Structured
    {
      Emit(logger, Level.Info, msg, [zlogTime, StringField("info", FirstOr(info, ""))])
    }

    /** Warn: logger at Warn with the first warn string, or "". */
    function Warn(msg: string, warn: seq<string>): (r: Result<Call, CallPanic>)
      reads this
      ensures r.Success? <==> logger != null
      ensures r.Success? ==> r.value.target == ToLogger(logger) && r.value.level == Level.Warn
      ensures r.Success? && |warn| > 0 ==> r.value.args == [FieldArg(zlogTime), FieldArg(StringField("warn", warn[0]))]
      ensures r.Success? && |warn| == 0 ==> r.value.args == [FieldArg(zlogTime), FieldArg(StringField("warn", ""))]
      ensures r.Success? ==> r.value.msg == msg && r.value.style == Structured
    {
      Emit(logger, Level.Warn, msg, [zlogTime, StringField("warn", FirstOr(warn, ""))])
    }

    /** Debug: logger at Debug with the first debug string, or "". */
    function Debug(msg: string, debug: seq<string>): (r: Result<Call, CallPanic>)
      reads this
      ensures r.Success? <==> logger != null
      ensures r.Success? ==> r.value.target == ToLogger(logger) && r.value.level == Level.Debug
      ensures r.Success? && |debug| > 0 ==> r.value.args == [FieldArg(zlogTime), FieldArg(StringField("debug", debug[0]))]
      ensures r.Success? && |debug| == 0 ==> r.value.args == [FieldArg(zlogTime), FieldArg(StringField("debug", ""))]
      ensures r.Success? ==> r.value.msg == msg && r.value.style == Structured
    {
      Emit(logger, Level.Debug, msg, [zlogTime, StringField("debug", FirstOr(debug, ""))])
    }

    /** Infoff: logger at Info with the first given field; with no field the index panics before
        the logger is touched. */
    function Infoff(msg: string, fields: seq<Field>): (r: Result<Call, CallPanic>)
      reads this
      ensures |fields| == 0 ==> r == Failure(IndexOutOfRange)
      ensures |fields| > 0 ==> (r.Success? <==> logger != null)
      ensures r.Success? ==> r.value.target == ToLogger(logger) && r.value.level == Level.Info &&
                             r.value.args == [FieldArg(zlogTime), FieldArg(fields[0])]
      ensures r.Success? ==> r.value.msg == msg && r.value.style == Structured
    {
      if |fields| == 0 then Failure(IndexOutOfRange) else Emit(logger, Level.Info, msg, [zlogTime, fields[0]])
    }

    /** LogError: logger (not errLogger) at Error. */
    function LogError(msg: string, err: Option<string>): (r: Result<Call, CallPanic>)
      reads this
      ensures r.Success? <==> logger != null
      ensures r.Success? ==> r.value.target == ToLogger(logger) && r.value.level == Level.Error &&
                             r.value.args == [FieldArg(zlogTime), FieldArg(ErrorField(err))]
      ensures r.Success? ==> r.value.msg == msg && r.value.style == Structured
    {
      Emit(logger, Level.Error, msg, [zlogTime, ErrorField(err)])
    }

    /** LogPanic: logger at Panic. */
    function LogPanic(msg: string, err: Option<string>): (r: Result<Call, CallPanic>)
      reads this
      ensures r.Success? <==> logger != null
      ensures r.Success? ==> r.value.target == ToLogger(logger) && r.value.level == Level.Panic &&
                             r.value.args == [FieldArg(zlogTime), FieldArg(ErrorField(err))]
      ensures r.Success? ==> r.value.msg == msg && r.value.style == Structured
    {
      Emit(logger, Level.Panic, msg, [zlogTime, ErrorField(err)])
    }

    /** LogFatal: logger at Fatal. */
    function LogFatal(msg: string, err: Option<string>): (r: Result<Call, CallPanic>)
      reads this
      ensures r.Success? <==> logger != null
      ensures r.Success? ==> r.value.target == ToLogger(logger) && r.value.level == Level.Fatal &&
                             r.value.args == [FieldArg(zlogTime), FieldArg(ErrorField(err))]
      ensures r.Success? ==> r.value.msg == msg && r.value.style == Structured
    {
      Emit(logger, Level.Fatal, msg, [zlogTime, ErrorField(err)])
    }

    /** Infof: sugar.Infof with msg as the template. */
    function Infof(msg: string, info: string): (r: Result<Call, CallPanic>)
      reads this
      ensures r.Success? <==> sugar != null
      ensures r.Success? ==> r.value.target == ToSugar(sugar) && r.value.level == Level.Info
      ensures r.Success? ==> r.value.msg == msg && r.value.style == Template
      ensures r.Success? ==> r.value.args == [FieldArg(zlogTime), FieldArg(StringField("info", info))]
    {
      EmitSugared(sugar, Level.Info, Template, msg, [FieldArg(zlogTime), FieldArg(StringField("info", info))])
    }

    /** InfoW: sugar.Infow with the time field and the pair "info", info. */
    function InfoW(msg: string, info: string): (r: Result<Call, CallPanic>)
      reads this
      ensures r.Success? <==> sugar != null
      ensures r.Success? ==> r.value.target == ToSugar(sugar) && r.value.level == Level.Info &&
                             r.value.args == [FieldArg(zlogTime), TextArg("info"), TextArg(info)]
      ensures r.Success? ==> r.value.msg == msg && r.value.style == KeysAndValues
    {
      EmitSugared(sugar, Level.Info, KeysAndValues, msg, [FieldArg(zlogTime), TextArg("info"), TextArg(info)])
    }

    /** Errorf: sugar (not errSugar) .Errorf with msg as the template. */
    function Errorf(msg: string, err: Option<string>): (r: Result<Call, CallPanic>)
      reads this
      ensures r.Success? <==> sugar != null
      ensures r.Success? ==> r.value.target == ToSugar(sugar) && r.value.level == Level.Error
      ensures r.Success? ==> r.value.msg == msg && r.value.style == Template
      ensures r.Success? ==> r.value.args == [FieldArg(zlogTime), FieldArg(ErrorField(err))]
    {
      EmitSugared(sugar, Level.Error, Template, msg, [FieldArg(zlogTime), FieldArg(ErrorField(err))])
    }

    /** Warnf: sugar.Warnf with msg as the template. */
    function Warnf(msg: string, warn: string): (r: Result<Call, CallPanic>)
      reads this
      ensures r.Success? <==> sugar != null
      ensures r.Success? ==> r.value.target == ToSugar(sugar) && r.value.level == Level.Warn
      ensures r.Success? ==> r.value.msg == msg && r.value.style == Template
      ensures r.Success? ==> r.value.args == [FieldArg(zlogTime), FieldArg(StringField("warn", warn))]
    {
      EmitSugared(sugar, Level.Warn, Template, msg, [FieldArg(zlogTime), FieldArg(StringField("warn", warn))])
    }
  }
}
