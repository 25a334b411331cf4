/**
 * The level filter of `Logger` (app/core/logger.js). The level table maps
 * debug, info, warn, error and silent to 10, 20, 30, 40 and 90; a message
 * is written when its level ranks at least as high as the current one.
 */
module Logger {
  import opened Wrappers

  /** The five level names the table defines. */
  const LevelNames: set<string> := {"debug", "info", "warn", "error", "silent"}

  /**
   * Names every object inherits from Object.prototype: the `in` operator
   * finds them in the level table too, though they are not levels.
   */
  const InheritedNames: set<string> := {
    "constructor", "hasOwnProperty", "isPrototypeOf", "propertyIsEnumerable",
    "toLocaleString", "toString", "valueOf", "__proto__",
    "__defineGetter__", "__defineSetter__", "__lookupGetter__", "__lookupSetter__"
  }

  /** `levels[name]` when it is a number; None for every other name. */
  function Rank(name: string): (r: Option<int>)
    ensures r.Some? <==> name in LevelNames
    ensures r.Some? ==> 10 <= r.value <= 90
  {
    if name == "debug" then Some(10)
    else if name == "info" then Some(20)
    else if name == "warn" then Some(30)
    else if name == "error" then Some(40)
    else if name == "silent" then Some(90)
    else None
  }

  /**
   * `levels[lvl] >= 0 && levels[lvl] >= levels[level]`: a comparison with
   * an undefined or non-number entry is false.
   */
  predicate ShouldLog(level: string, lvl: string) {
    Rank(lvl).Some? && Rank(level).Some? && Rank(lvl).value >= 0 && Rank(lvl).value >= Rank(level).value
  }

  /** `next in levels` as written: the table's names and the inherited ones. */
  predicate AcceptedAsWritten(next: string) {
    next in LevelNames || next in InheritedNames
  }

  /** What `setLevel` is meant to accept: the level table's own names only. */
  predicate Accepted(next: string) {
    next in LevelNames
  }

  /** The level after `setLevel(next)` with the own-name check. */
  function SetLevel(level: string, next: string): (r: string)
    ensures Accepted(next) ==> r == next
    ensures !Accepted(next) ==> r == level
    ensures level in LevelNames ==> r in LevelNames
  {
    if Accepted(next) then next else level
  }

  /** shouldLog(l) holds iff l ranks at least as high as the current level. */
  lemma ShouldLogByRank(level: string, lvl: string)
    requires level in LevelNames && lvl in LevelNames
    ensures ShouldLog(level, lvl) <==> Rank(lvl).value >= Rank(level).value
  {
  }

  /** The default level "info" suppresses debug and lets the rest through. */
  lemma DefaultLevel()
    ensures !ShouldLog("info", "debug")
    ensures ShouldLog("info", "info") && ShouldLog("info", "warn") && ShouldLog("info", "error")
  {
  }

  /** At "silent" nothing is written; at "debug" everything is. */
  lemma SilentAndDebug(lvl: string)
    requires lvl in {"debug", "info", "warn", "error"}
    ensures !ShouldLog("silent", lvl)
    ensures ShouldLog("debug", lvl)
  {
  }

  /** Raising the level never enables a message that was suppressed before. */
  lemma Monotone(low: string, high: string, lvl: string)
    requires low in LevelNames && high in LevelNames
    requires Rank(low).value <= Rank(high).value
    ensures ShouldLog(high, lvl) ==> ShouldLog(low, lvl)
  {
  }

  /**
   * As written, `setLevel("toString")` is accepted, after which no message,
   * not even an error, is ever written.
   */
  lemma InheritedNameSilencesEverything(lvl: string)
    ensures AcceptedAsWritten("toString") && !Accepted("toString")
    ensures !ShouldLog("toString", lvl)
  {
  }

  /** With the own-name check the level stays a table name, so errors always show unless silent. */
  lemma ErrorsShowUnlessSilent(level: string, next: string)
    requires level in LevelNames
    ensures ShouldLog(SetLevel(level, next), "error") <==> SetLevel(level, next) != "silent"
  {
  }

  class Logger {
    var level: string

    constructor ()
      ensures level == "info"
    {
      level := "info";
    }

    method SetLevelTo(next: string)
      modifies this
      ensures level == SetLevel(old(level), next)
    {
      if Accepted(next) {
        level := next;
      }
    }

    /** Whether a call to debug/info/warn/error at `lvl` writes anything. */
    method Enabled(lvl: string) returns (r: bool)
      ensures r == ShouldLog(level, lvl)
    {
      r := ShouldLog(level, lvl);
    }
  }
}
