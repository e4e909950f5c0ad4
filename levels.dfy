/** zap's severity levels and the two level filters the package installs. */
module Levels {

  datatype Level = Debug | Info | Warn | Error | DPanic | Panic | Fatal

  /** zapcore's numeric value of each level (Debug is -1, Fatal is 5). */
  function Rank(l: Level): int {
    match l
    case Debug => -1
    case Info => 0
    case Warn => 1
    case Error => 2
    case DPanic => 3
    case Panic => 4
    case Fatal => 5
  }

  /** A level enabler: a zap level used as a floor (zap.InfoLevel for the general core), or the
      highPriority closure of the error core, which tests lvl >= ErrorLevel. */
  datatype Enabler = AtOrAbove(floor: Level) | HighPriority

  predicate Enabled(e: Enabler, l: Level)
    ensures l == Fatal ==> Enabled(e, l)
    ensures e == HighPriority ==> (Enabled(e, l) <==> Enabled(AtOrAbove(Error), l))
    decreases if e.HighPriority? then 1 else 0
  {
    match e
    case AtOrAbove(floor) => Rank(l) >= Rank(floor)
    case HighPriority => Rank(l) >= Rank(Error)
  }

  /** The error core admits exactly Error, DPanic, Panic and Fatal; the general core admits all
      of those and also Info and Warn, but not Debug. */
  lemma CoreFilters(l: Level)
    ensures Enabled(HighPriority, l) <==> l in {Error, DPanic, Panic, Fatal}
    ensures Enabled(AtOrAbove(Info), l) <==> l != Debug
    ensures Enabled(HighPriority, l) ==> Enabled(AtOrAbove(Info), l)
  {
  }
}
