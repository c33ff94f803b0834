/** The log levels and their names (src/_log/LogLevel.h:10-56). */
module LogLevels {
  datatype LogLevel = UNKNOW | DEBUG | INFO | WARN | ERROR | FATAL

  /** The numeric value the levels are compared by. */
  function Rank(level: LogLevel): nat {
    match level
    case UNKNOW => 0
    case DEBUG => 1
    case INFO => 2
    case WARN => 3
    case ERROR => 4
    case FATAL => 5
  }

  /** An event of the first level passes a logger or an appender of the second. */
  predicate Passes(event: LogLevel, level: LogLevel) {
    match event
    case UNKNOW => level == UNKNOW
    case DEBUG => level == UNKNOW || level == DEBUG
    case INFO => level == UNKNOW || level == DEBUG || level == INFO
    case WARN => level == UNKNOW || level == DEBUG || level == INFO || level == WARN
    case ERROR => level != FATAL
    case FATAL => true
  }

  /** The comparison of the numeric values decides exactly that. */
  lemma PassesIsRank(event: LogLevel, level: LogLevel)
    ensures Passes(event, level) <==> Rank(event) >= Rank(level)
    ensures Rank(UNKNOW) < Rank(DEBUG) < Rank(INFO) < Rank(WARN) < Rank(ERROR) < Rank(FATAL)
  {
  }

  function ToString(level: LogLevel): string {
    match level
    case UNKNOW => "UNKNOW"
    case DEBUG => "DEBUG"
    case INFO => "INFO"
    case WARN => "WARN"
    case ERROR => "ERROR"
    case FATAL => "FATAL"
  }

  function FromString(s: string): LogLevel {
    if s == "UNKNOW" || s == "unknow" then UNKNOW
    else if s == "DEBUG" || s == "debug" then DEBUG
    else if s == "INFO" || s == "info" then INFO
    else if s == "WARN" || s == "warn" then WARN
    else if s == "ERROR" || s == "error" then ERROR
    else if s == "FATAL" || s == "fatal" then FATAL
    else UNKNOW
  }

  lemma LevelNames(level: LogLevel)
    ensures FromString(ToString(level)) == level
  {
  }

  /** Each level is read from its name in upper and in lower case, and written in upper case. */
  lemma NamesInBothCases()
    ensures FromString("DEBUG") == FromString("debug") == DEBUG && ToString(DEBUG) == "DEBUG"
    ensures FromString("INFO") == FromString("info") == INFO && ToString(INFO) == "INFO"
    ensures FromString("WARN") == FromString("warn") == WARN && ToString(WARN) == "WARN"
    ensures FromString("ERROR") == FromString("error") == ERROR && ToString(ERROR) == "ERROR"
    ensures FromString("FATAL") == FromString("fatal") == FATAL && ToString(FATAL) == "FATAL"
    ensures FromString("UNKNOW") == FromString("unknow") == FromString("") == UNKNOW && ToString(UNKNOW) == "UNKNOW"
  {
  }

  /** Any other text stands for no level. */
  lemma OtherNames(s: string)
    requires s !in ["DEBUG", "debug", "INFO", "info", "WARN", "warn", "ERROR", "error", "FATAL", "fatal"]
    ensures FromString(s) == UNKNOW
  {
    var names := ["DEBUG", "debug", "INFO", "info", "WARN", "warn", "ERROR", "error", "FATAL", "fatal"];
    assert names[0] == "DEBUG" && names[1] == "debug" && names[2] == "INFO" && names[3] == "info";
    assert names[4] == "WARN" && names[5] == "warn" && names[6] == "ERROR" && names[7] == "error";
    assert names[8] == "FATAL" && names[9] == "fatal";
  }
}
