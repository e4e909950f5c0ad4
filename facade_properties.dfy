/** Where each entry point's record ends up, in each state the startup sequence can leave. */
module FacadeProperties {
  import opened Wrappers
  import opened Dates
  import opened Config
  import opened Levels
  import opened Sinks
  import opened Facade

  /** The destination of an entry point's call, or None when the call panics. */
  function Routed(r: Result<Call, CallPanic>): Option<Delivery> {
    if r.Success? then Some(Destination(r.value)) else None
  }

  /** In production mode the non-error entry points write to today's general file, and to that
      file only: it is not the error file. */
  lemma ProductionGeneralFile(st: LogState, day: Date, msg: string, text: seq<string>, s: string,
                              err: Option<string>, fields: seq<Field>)
    requires st.ProdReady(day)
    ensures var general := Some(File(GeneralSink(st.config, day).filename));
            Routed(st.Info(msg, text)) == general && Routed(st.Warn(msg, text)) == general &&
            Routed(st.LogError(msg, err)) == general && Routed(st.LogPanic(msg, err)) == general &&
            Routed(st.LogFatal(msg, err)) == general &&
            Routed(st.Infof(msg, s)) == general && Routed(st.InfoW(msg, s)) == general &&
            Routed(st.Errorf(msg, err)) == general && Routed(st.Warnf(msg, s)) == general &&
            (fields != [] ==> Routed(st.Infoff(msg, fields)) == general)
    ensures GeneralSink(st.config, day).filename != ErrorSink(st.config, day).filename
  {
    CoreFilters(Level.Info);
    CoreFilters(Level.Warn);
    CoreFilters(Level.Error);
    CoreFilters(Level.Panic);
    CoreFilters(Level.Fatal);
    SinkFiles(st.config, day);
  }

  /** In production mode the error entry points write to today's error file, and to that file
      only: it is not the general file. */
  lemma ProductionErrorFile(st: LogState, day: Date, msg: string, errs: seq<Option<string>>,
                            err: Option<string>)
    requires st.ProdReady(day)
    ensures var errors := Some(File(ErrorSink(st.config, day).filename));
            Routed(st.ZlogError(msg, err)) == errors && Routed(st.Error(msg, errs)) == errors &&
            Routed(st.Fatal(msg, errs)) == errors && Routed(st.Panic(msg, errs)) == errors &&
            Routed(st.LogsError(msg, err)) == errors && Routed(st.SugarError(msg, err)) == errors &&
            Routed(st.SugarFatal(msg, err)) == errors && Routed(st.SugarPanic(msg, err)) == errors
    ensures ErrorSink(st.config, day).filename != GeneralSink(st.config, day).filename
  {
    CoreFilters(Level.Error);
    CoreFilters(Level.Panic);
    CoreFilters(Level.Fatal);
    SinkFiles(st.config, day);
  }

  /** In production mode two entry points write nothing: Debug, because the general core starts
      at Info, and LogInfo, because it goes to the error core, which starts at Error. */
  lemma ProductionDropped(st: LogState, day: Date, msg: string, text: seq<string>)
    requires st.ProdReady(day)
    ensures Routed(st.Debug(msg, text)) == Some(Dropped)
    ensures Routed(st.LogInfo(msg, text)) == Some(Dropped)
  {
    CoreFilters(Level.Debug);
    CoreFilters(Level.Info);
  }

  /** In development mode the general and the error handles are one logger, so every entry
      point lands on the console (Infoff once it has a field) and the error entry points use the
      very logger the general ones use. */
  lemma DevelopmentOneLogger(st: LogState, msg: string, text: seq<string>, s: string,
                             errs: seq<Option<string>>, err: Option<string>, fields: seq<Field>)
    requires st.DevReady()
    ensures var console := Some(Console);
            Routed(st.ZlogError(msg, err)) == console && Routed(st.LogInfo(msg, text)) == console &&
            Routed(st.Error(msg, errs)) == console && Routed(st.Fatal(msg, errs)) == console &&
            Routed(st.Panic(msg, errs)) == console && Routed(st.LogsError(msg, err)) == console &&
            Routed(st.SugarError(msg, err)) == console && Routed(st.SugarFatal(msg, err)) == console &&
            Routed(st.SugarPanic(msg, err)) == console && Routed(st.Info(msg, text)) == console &&
            Routed(st.Warn(msg, text)) == console && Routed(st.Debug(msg, text)) == console &&
            Routed(st.LogError(msg, err)) == console && Routed(st.LogPanic(msg, err)) == console &&
            Routed(st.LogFatal(msg, err)) == console && Routed(st.Infof(msg, s)) == console &&
            Routed(st.InfoW(msg, s)) == console && Routed(st.Errorf(msg, err)) == console &&
            Routed(st.Warnf(msg, s)) == console &&
            (fields != [] ==> Routed(st.Infoff(msg, fields)) == console)
    ensures Core(st.Error(msg, errs).value.target) == Core(st.Info(msg, text).value.target)
    ensures Core(st.SugarError(msg, err).value.target) == Core(st.Errorf(msg, err).value.target)
  {
  }

  /** Before Init has built anything every entry point panics on its nil handle, except Infoff
      without a field, which panics on the index first. */
  lemma BeforeInitEveryCallPanics(st: LogState, msg: string, text: seq<string>, s: string,
                                  errs: seq<Option<string>>, err: Option<string>, fields: seq<Field>)
    requires st.logger == null && st.errLogger == null && st.sugar == null && st.errSugar == null
    ensures var nil := Failure(NilHandle);
            st.ZlogError(msg, err) == nil && st.LogInfo(msg, text) == nil &&
            st.Error(msg, errs) == nil && st.Fatal(msg, errs) == nil && st.Panic(msg, errs) == nil &&
            st.LogsError(msg, err) == nil && st.SugarError(msg, err) == nil &&
            st.SugarFatal(msg, err) == nil && st.SugarPanic(msg, err) == nil &&
            st.Info(msg, text) == nil && st.Warn(msg, text) == nil && st.Debug(msg, text) == nil &&
            st.LogError(msg, err) == nil && st.LogPanic(msg, err) == nil &&
            st.LogFatal(msg, err) == nil && st.Infof(msg, s) == nil && st.InfoW(msg, s) == nil &&
            st.Errorf(msg, err) == nil && st.Warnf(msg, s) == nil
    ensures st.Infoff(msg, fields) == (if fields == [] then Failure(IndexOutOfRange) else Failure(NilHandle))
  {
  }
}
