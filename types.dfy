/** Shared value types of the dashboard: the unions of src/types/index.ts and the
    optional/failure wrappers the JavaScript code expresses with `undefined` and exceptions. */
module Types {

  /** A JavaScript value that may be `undefined`. */
  datatype Option<+T> = None | Some(value: T)

  /** JavaScript truthiness of an optional string: present and not empty. */
  predicate Truthy(s: Option<string>)
  {
    s.Some? && s.value != ""
  }

  /** The outcome of an operation that either yields a value or throws. */
  datatype Result<+T> = Ok(value: T) | Err(error: string)

  /** The name JavaScript gives to the exception `String.prototype.repeat` throws for a negative count. */
  const RangeError: string := "RangeError"

  /** `AgentStatus` (src/types/index.ts:2). */
  datatype AgentStatus = Idle | Thinking | Working | Error | Waiting

  /** The lower-case spelling the source uses for each status. */
  function StatusName(s: AgentStatus): string
  {
    match s
    case Idle => "idle"
    case Thinking => "thinking"
    case Working => "working"
    case Error => "error"
    case Waiting => "waiting"
  }

  /** `status.toUpperCase()` for the five statuses (ASCII letters only, so exact). */
  function StatusUpper(s: AgentStatus): string
  {
    match s
    case Idle => "IDLE"
    case Thinking => "THINKING"
    case Working => "WORKING"
    case Error => "ERROR"
    case Waiting => "WAITING"
  }

  /** `MessageType` (src/types/index.ts:14). */
  datatype MessageType = User | Agent | System | Tool | ErrorMessage

  /** `LogLevel` (src/types/index.ts:27). */
  datatype LogLevel = Debug | Info | Warn | LogError

  function LevelName(l: LogLevel): string
  {
    match l
    case Debug => "DEBUG"
    case Info => "INFO"
    case Warn => "WARN"
    case LogError => "ERROR"
  }

  /** Timestamps are opaque clock readings supplied by the caller. */
  type Timestamp = nat

  /** `Agent` (src/types/index.ts:4-11), without the optional avatar and description. */
  datatype AgentCard = AgentCard(id: string, name: string, status: AgentStatus, messages: nat)

  /** `Message` (src/types/index.ts:16-24), without agentId and metadata. */
  datatype Message = Message(id: string, kind: MessageType, content: string,
                             timestamp: Timestamp, agentName: Option<string>)

  /** `LogEntry` (src/types/index.ts:29-36), without metadata. */
  datatype LogEntry = LogEntry(id: string, level: LogLevel, message: string,
                               timestamp: Timestamp, source: Option<string>)

  /** `TerminalCommand` (src/types/index.ts:46-51). */
  datatype TerminalCommand = TerminalCommand(input: string, output: Option<string>,
                                             timestamp: Timestamp, isError: Option<bool>)
}
