/** The process-wide log level: `applyLogLevel` (main.go:173-192) maps a name to a level,
    and `initLogger` (main.go:157-166) picks a name from the two verbosity flags. */
module Logging {

  /** The levels `applyLogLevel` can set, from most to least verbose. */
  datatype Level = Trace | Debug | Info | Warn | Error

  /** The name the logging library prints for a level (the announcement of main.go:164). */
  function Name(l: Level): string {
    match l
    case Trace => "trace"
    case Debug => "debug"
    case Info => "info"
    case Warn => "warn"
    case Error => "error"
  }

  /** Every name `applyLogLevel` accepts for a level. */
  function Aliases(l: Level): set<string> {
    match l
    case Trace => {"trace"}
    case Debug => {"debug"}
    case Info => {"info"}
    case Warn => {"warn", "warning"}
    case Error => {"err", "error"}
  }

  const KnownNames: set<string> :=
    Aliases(Trace) + Aliases(Debug) + Aliases(Info) + Aliases(Warn) + Aliases(Error)

  /** The switch of main.go:174-191: a known name selects its level, any other string selects Info. */
  function ParseLevel(name: string): (l: Level)
    ensures name in KnownNames ==> name in Aliases(l)
    ensures name !in KnownNames ==> l == Info
  {
    if name == "trace" then Trace
    else if name == "debug" then Debug
    else if name == "info" then Info
    else if name == "warn" then Warn
    else if name == "warning" then Warn
    else if name == "err" then Error
    else if name == "error" then Error
    else Info
  }

  /** No name belongs to two levels, so the mapping is determined by the alias table. */
  lemma AliasesDisjoint(l: Level, m: Level, name: string)
    requires name in Aliases(l) && name in Aliases(m)
    ensures l == m
  {
  }

  /** Both directions of the mapping. */
  lemma ParseLevelIff(name: string, l: Level)
    ensures ParseLevel(name) == l <==> name in Aliases(l) || (name !in KnownNames && l == Info)
  {
    if name in KnownNames && name in Aliases(l) {
      AliasesDisjoint(l, ParseLevel(name), name);
    }
  }

  /** The announced name of a level selects that level again. */
  lemma ParseName(l: Level)
    ensures ParseLevel(Name(l)) == l
  {
  }

  /** The global logger state. `applied` records the argument of every `applyLogLevel` call. */
  class Logger {
    var level: Level
    ghost var applied: seq<string>

    /** The level before any call is the logging library's default, supplied by the caller. */
    constructor (initial: Level)
      ensures level == initial && applied == []
    {
      level := initial;
      applied := [];
    }

    method ApplyLogLevel(name: string)
      modifies this
      ensures level == ParseLevel(name)
      ensures applied == old(applied) + [name]
    {
      level := ParseLevel(name);
      applied := applied + [name];
    }

    /** Very-verbose beats verbose; with neither flag the level is left alone and no level is
        applied. Returns the text of the announcement record. */
    method InitLogger(verbose: bool, veryVerbose: bool) returns (announcement: string)
      modifies this
      ensures veryVerbose ==> level == Trace && applied == old(applied) + ["trace"]
      ensures !veryVerbose && verbose ==> level == Debug && applied == old(applied) + ["debug"]
      ensures !veryVerbose && !verbose ==> level == old(level) && applied == old(applied)
      ensures announcement == "Logger initialized on level '" + Name(level) + "'"
    {
      if veryVerbose {
        ApplyLogLevel("trace");
      } else if verbose {
        ApplyLogLevel("debug");
      }
      announcement := "Logger initialized on level '" + Name(level) + "'";
    }
  }
}
