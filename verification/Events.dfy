/** Log events as the serializers see them. Times, thread ids and double tokens are given as text. */
module Events {
  import opened Json

  type int64 = i: int | -0x8000_0000_0000_0000 <= i < 0x8000_0000_0000_0000
  type uint64 = i: int | 0 <= i < 0x1_0000_0000_0000_0000
  type uint32 = i: int | 0 <= i < 0x1_0000_0000
  type uint8 = i: int | 0 <= i < 0x100

  /** A double, by what std::isfinite and std::to_chars say of it. */
  datatype Double = NotFinite | Unprintable | Finite(token: NumberToken)

  datatype FieldValue =
    | NullValue
    | BoolValue(b: bool)
    | Int64Value(i: int64)
    | UInt64Value(u: uint64)
    | DoubleValue(d: Double)
    | StringValue(s: string)

  datatype Field = Field(key: string, value: FieldValue)

  datatype Location = Location(file: string, line: uint32, func: string)

  datatype Event = Event(
    timestamp: string,            // format_timestamp
    seconds: Option<NumberToken>, // std::to_string of the seconds since the epoch, if finite
    nanos: int64,
    severity: uint8,
    logger: string,
    message: string,
    thread: string,               // format_thread_id
    location: Option<Location>,
    fields: seq<Field>,
    trace: Option<string>,
    span: Option<string>,
    correlation: Option<string>)

  // src/level.cpp

  const LEVELS: seq<string> := ["trace", "debug", "info", "warn", "error", "fatal", "off"]

  /** to_string(level): any byte can be cast to a level. */
  function LevelName(severity: uint8): string {
    if severity < |LEVELS| then LEVELS[severity] else "unknown"
  }

  /** The level with this name; "warning" is another name of warn. */
  function LevelOf(name: string): Option<uint8> {
    match name
    case "trace" => Some(0)
    case "debug" => Some(1)
    case "info" => Some(2)
    case "warn" => Some(3)
    case "warning" => Some(3)
    case "error" => Some(4)
    case "fatal" => Some(5)
    case "off" => Some(6)
    case _ => None
  }

  lemma LevelsNamed()
    ensures forall i :: 0 <= i < |LEVELS| ==> LevelOf(LEVELS[i]) == Some(i)
    ensures LevelOf("warning") == Some(3) && LevelOf("unknown") == None
  {
  }

  /** parse_level gives the level of each of its names, and no other level is meant by a name. */
  method ParseLevel(value: string) returns (r: Option<uint8>)
    ensures r == LevelOf(value)
  {
    LevelsNamed();
    for index := 0 to |LEVELS|
      invariant value !in LEVELS[..index]
    {
      if LEVELS[index] == value {
        return Some(index);
      }
    }
    if value == "warning" {
      return Some(3);
    }
    return None;
  }

  /** What to_string writes parse_level reads. */
  lemma LevelReadsBack(severity: uint8)
    ensures LevelOf(LevelName(severity)) == if severity < |LEVELS| then Some(severity) else None
  {
    LevelsNamed();
  }

  /** to_gelf_level, a syslog severity. */
  function GelfLevel(severity: uint8): nat
  {
    if severity <= 1 || severity > 6 then 7
    else if severity == 2 then 6
    else if severity == 3 then 4
    else if severity == 4 then 3
    else if severity == 5 then 2
    else 1
  }

  /** The syslog severity by the level's name; names that are none have that of debug. */
  function SyslogOf(name: string): nat {
    match name
    case "info" => 6
    case "warn" => 4
    case "error" => 3
    case "fatal" => 2
    case "off" => 1
    case _ => 7
  }

  lemma GelfLevelByName(severity: uint8)
    ensures GelfLevel(severity) == SyslogOf(LevelName(severity))
  {
  }
}
