/** `SerializeLevel`: the five verbosity levels, with fixed discriminants and upper-case names. */
module Levels {
  import opened Base
  import opened Tracing

  datatype SerializeLevel = Trace | Debug | Info | Warn | Error

  /** The `#[repr(usize)]` discriminant: 0 for `Trace` up to 4 for `Error`. */
  function Discriminant(l: SerializeLevel): (d: nat)
    ensures d < 5
  {
    match l
    case Trace => 0
    case Debug => 1
    case Info => 2
    case Warn => 3
    case Error => 4
  }

  /** The variant name serde writes under `rename_all = "UPPERCASE"`. */
  function Token(l: SerializeLevel): string {
    match l
    case Trace => "TRACE"
    case Debug => "DEBUG"
    case Info => "INFO"
    case Warn => "WARN"
    case Error => "ERROR"
  }

  /** The name the instrumentation library itself gives each of its levels (`Level::as_str`). */
  function LevelName(l: Level): string {
    match l
    case TRACE => "TRACE"
    case DEBUG => "DEBUG"
    case INFO => "INFO"
    case WARN => "WARN"
    case ERROR => "ERROR"
  }

  /** `Level::as_serde`: the variant whose serialized name is the level's own name. */
  function AsSerde(l: Level): (r: SerializeLevel)
    ensures Token(r) == LevelName(l)
  {
    match l
    case ERROR => Error
    case WARN => Warn
    case INFO => Info
    case DEBUG => Debug
    case TRACE => Trace
  }

  /** Reading a serialized name back: the deserialisation of a `SerializeLevel`. */
  function FromToken(s: string): (r: Option<SerializeLevel>)
    ensures r.Some? ==> Token(r.value) == s
  {
    if s == "TRACE" then Some(Trace)
    else if s == "DEBUG" then Some(Debug)
    else if s == "INFO" then Some(Info)
    else if s == "WARN" then Some(Warn)
    else if s == "ERROR" then Some(Error)
    else None
  }

  /** Every level's name reads back as that level: the serialized form round-trips. */
  lemma TokenRoundTrip(l: SerializeLevel)
    ensures FromToken(Token(l)) == Some(l)
  {
  }

  /** The library level a `SerializeLevel` stands for. */
  function ToLevel(s: SerializeLevel): (l: Level)
    ensures LevelName(l) == Token(s)
  {
    match s
    case Trace => TRACE
    case Debug => DEBUG
    case Info => INFO
    case Warn => WARN
    case Error => ERROR
  }

  /** `as_serde` is a bijection between the library's levels and `SerializeLevel`, with inverse `ToLevel`. */
  lemma AsSerdeBijective(l: Level, s: SerializeLevel)
    ensures ToLevel(AsSerde(l)) == l
    ensures AsSerde(ToLevel(s)) == s
  {
  }

  /** The discriminants are distinct and increase with severity, from `Trace` to `Error`. */
  lemma DiscriminantsBySeverity(a: SerializeLevel, b: SerializeLevel)
    ensures Discriminant(a) == Discriminant(b) <==> a == b
    ensures Discriminant(Trace) < Discriminant(Debug) < Discriminant(Info)
         < Discriminant(Warn) < Discriminant(Error)
  {
  }
}
