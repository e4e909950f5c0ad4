/** The two rotating file sinks of production mode and the development sink. */
module Sinks {
  import opened Config
  import opened Dates
  import opened Levels

  /** lumberjack's rotation limits, passed through unchanged. */
  datatype Rotation = Rotation(maxSizeMB: nat, maxBackups: nat, maxAgeDays: nat)

  const ROTATION: Rotation := Rotation(500, 3, 28)

  /** Where a logger's core writes: zap's development configuration (its own encoder, output and
      level are zap's), or a JSON core over a rotating file with a level enabler. */
  datatype Sink = Development | RotatingFile(filename: string, rotation: Rotation, enabler: Enabler)

  /** The directory of one day's log files under the configured root. */
  function DayDirectory(c: LogConfig, day: Date): string {
    Conf(c).0 + "/" + DayName(day)
  }

  /** The sink InitLog builds: root/day/name.json, admitting Info and above. */
  function GeneralSink(c: LogConfig, day: Date): (r: Sink)
    ensures r.RotatingFile? && r.rotation == ROTATION && r.enabler == AtOrAbove(Info)
    ensures r.filename == DayDirectory(c, day) + "/" + Conf(c).1 + ".json"
  {
    RotatingFile(Conf(c).0 + "/" + DayName(day) + "/" + Conf(c).1 + ".json", ROTATION, AtOrAbove(Info))
  }

  /** The sink InitErrLog builds: root/day/name_err.json, admitting Error and above. */
  function ErrorSink(c: LogConfig, day: Date): (r: Sink)
    ensures r.RotatingFile? && r.rotation == ROTATION && r.enabler == HighPriority
    ensures r.filename == DayDirectory(c, day) + "/" + Conf(c).1 + "_err.json"
  {
    RotatingFile(Conf(c).0 + "/" + DayName(day) + "/" + Conf(c).1 + "_err.json", ROTATION, HighPriority)
  }

  /** Both files lie in the day directory, under the same base file name, and they are distinct
      files: the error file's name is the general one's with "_err" before ".json". */
  lemma SinkFiles(c: LogConfig, day: Date)
    ensures var general := GeneralSink(c, day).filename;
            var errors := ErrorSink(c, day).filename;
            var stem := DayDirectory(c, day) + "/" + Conf(c).1;
            general == stem + ".json" && errors == stem + "_err.json" &&
            general[..|general| - 5] + "_err.json" == errors && general != errors
  {
    var stem := DayDirectory(c, day) + "/" + Conf(c).1;
    var general := GeneralSink(c, day).filename;
    assert general == stem + ".json";
    assert general[..|general| - 5] == stem;
    assert |ErrorSink(c, day).filename| == |general| + 4;
  }
}
