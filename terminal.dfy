/** The terminal hook (src/hooks/useTerminal.ts): a transcript of executed commands, a
    most-recent-first command history for arrow-key recall, and the recall cursor.

    The awaited `onCommand` callback is replaced by its outcome, passed in by the caller; clock
    readings are parameters. */
module TerminalHook {
  import opened Types
  import opened Seqs
  import Strings

  const DefaultMaxHistory: int := 100
  const GenericError: string := "An error occurred"

  datatype Direction = Up | Down

  /** What awaiting `onCommand(cmd)` produced: a returned value (`None` for `undefined`, `null`
      or a missing callback), or an exception, with its message when it is an `Error`. */
  datatype CommandOutcome = Returned(value: Option<string>) | Threw(message: Option<string>)

  /** The transcript entry for an executed command (src/hooks/useTerminal.ts:62-78). */
  function EntryFor(cmd: string, outcome: CommandOutcome, now: Timestamp): (e: TerminalCommand)
    ensures e.input == cmd && e.timestamp == now && e.isError.Some?
    ensures e.isError.value <==> outcome.Threw?
    ensures outcome.Returned? ==> e.output == outcome.value
    ensures outcome.Threw? && outcome.message.Some? ==> e.output == outcome.message
    ensures outcome == Threw(None) ==> e.output == Some(GenericError)
  {
    match outcome
    case Returned(v) => TerminalCommand(cmd, v, now, Some(false))
    case Threw(m) => TerminalCommand(cmd, Some(if m.Some? then m.value else GenericError), now, Some(true))
  }

  /** `[cmd, ...commands.slice(0, maxHistory - 1)]`: the newest command first, the history
      capped at `maxHistory` entries. */
  function PushCommand(commands: seq<string>, cmd: string, maxHistory: int): (r: seq<string>)
    ensures |r| >= 1 && r[0] == cmd
    ensures maxHistory >= 1 ==> |r| <= maxHistory
    ensures maxHistory >= 1 ==> r[1..] == commands[..Min(maxHistory - 1, |commands|)]
  {
    [cmd] + SliceTo(commands, maxHistory - 1)
  }

  /** Appending to the transcript and keeping its last `maxHistory` entries
      (src/hooks/useTerminal.ts:80-87). */
  function AppendTrimmed(history: seq<TerminalCommand>, e: TerminalCommand, maxHistory: int)
    : (r: seq<TerminalCommand>)
    ensures maxHistory >= 1 ==> |r| >= 1 && r[|r| - 1] == e
    ensures maxHistory >= 1 ==> |r| == Min(maxHistory, |history| + 1)
    ensures |r| <= |history| + 1 && r == (history + [e])[|history| + 1 - |r|..]
  {
    var updated := history + [e];
    if |updated| > maxHistory then Last(updated, maxHistory) else updated
  }

  /** The recall cursor after an arrow key, for a non-empty history of `len` commands
      (src/hooks/useTerminal.ts:100-108). */
  function Navigate(index: int, len: nat, dir: Direction): (r: int)
    requires len >= 1 && -1 <= index < len
    ensures -1 <= r < len
    ensures dir == Up ==> (index < len - 1 ==> r == index + 1) && (index == len - 1 ==> r == index)
    ensures dir == Down ==> (index >= 0 ==> r == index - 1) && (index == -1 ==> r == -1)
  {
    match dir
    case Up => Min(index + 1, len - 1)
    case Down => Max(index - 1, -1)
  }

  /** "Up" stays put at the oldest command, and "down" undoes an "up" that moved. */
  lemma NavigateInverse(index: int, len: nat)
    requires len >= 1 && -1 <= index < len
    ensures index == len - 1 ==> Navigate(Navigate(index, len, Up), len, Up) == Navigate(index, len, Up)
    ensures index < len - 1 ==> Navigate(Navigate(index, len, Up), len, Down) == index
  {
  }

  class Terminal {
    const maxHistory: int
    /** The transcript shown on screen. */
    var history: seq<TerminalCommand>
    var currentInput: string
    var historyIndex: int
    var isProcessing: bool
    /** `commandHistory.current`: executed commands, newest first. */
    var commandHistory: seq<string>

    ghost predicate Valid()
      reads this
    {
      && -1 <= historyIndex < |commandHistory|
      && (maxHistory >= 1 ==> |commandHistory| <= maxHistory && |history| <= maxHistory)
    }

    /** The hook's initial state (src/hooks/useTerminal.ts:25-45): the transcript holds the
        welcome message, with empty input, exactly when one is given. */
    constructor (maxHistory: int, welcomeMessage: Option<string>, now: Timestamp)
      ensures Valid() && this.maxHistory == maxHistory
      ensures Truthy(welcomeMessage) ==>
        history == [TerminalCommand("", welcomeMessage, now, None)]
      ensures !(Truthy(welcomeMessage)) ==> history == []
      ensures currentInput == "" && historyIndex == -1 && !isProcessing && commandHistory == []
    {
      this.maxHistory := maxHistory;
      if Truthy(welcomeMessage) {
        history := [TerminalCommand("", welcomeMessage, now, None)];
      } else {
        history := [];
      }
      currentInput := "";
      historyIndex := -1;
      isProcessing := false;
      commandHistory := [];
    }

    method SetCurrentInput(input: string)
      modifies this`currentInput
      ensures currentInput == input
    {
      currentInput := input;
    }

    /** `executeCommand` (src/hooks/useTerminal.ts:47-93). The command is the argument, or the
        current input when none is given; a command that is blank after trimming is ignored. */
    method ExecuteCommand(command: Option<string>, outcome: CommandOutcome, now: Timestamp)
      requires Valid()
      modifies this
      ensures Valid()
      ensures var cmd := if command.Some? then command.value else old(currentInput);
        if Strings.Trim(cmd) == "" then
          history == old(history) && commandHistory == old(commandHistory) &&
          historyIndex == old(historyIndex) && currentInput == old(currentInput) &&
          isProcessing == old(isProcessing)
        else
          commandHistory == PushCommand(old(commandHistory), cmd, maxHistory) &&
          history == AppendTrimmed(old(history), EntryFor(cmd, outcome, now), maxHistory) &&
          historyIndex == -1 && currentInput == "" && !isProcessing
    {
      var cmd := if command.Some? then command.value else currentInput;
      if Strings.Trim(cmd) == "" {
        return;
      }
      Record(cmd, outcome, now);
    }

    /** The part of `executeCommand` that runs for a non-blank command: the command goes to the
        front of the recall history, its transcript entry to the end of the transcript, and the
        input is cleared. */
    method Record(cmd: string, outcome: CommandOutcome, now: Timestamp)
      requires Valid()
      modifies this
      ensures Valid()
      ensures commandHistory == PushCommand(old(commandHistory), cmd, maxHistory)
      ensures history == AppendTrimmed(old(history), EntryFor(cmd, outcome, now), maxHistory)
      ensures historyIndex == -1 && currentInput == "" && !isProcessing
    {
      isProcessing := true;
      commandHistory := PushCommand(commandHistory, cmd, maxHistory);
      historyIndex := -1;
      history := AppendTrimmed(history, EntryFor(cmd, outcome, now), maxHistory);
      currentInput := "";
      isProcessing := false;
    }

    /** `navigateHistory` (src/hooks/useTerminal.ts:95-111): nothing happens without history;
        otherwise the cursor moves within [-1, len - 1] and the input shows the recalled
        command, or the empty string at -1. */
    method NavigateHistory(dir: Direction)
      requires Valid()
      modifies this`historyIndex, this`currentInput
      ensures Valid()
      ensures old(commandHistory) == [] ==>
        historyIndex == old(historyIndex) && currentInput == old(currentInput)
      ensures old(commandHistory) != [] ==>
        historyIndex == Navigate(old(historyIndex), |commandHistory|, dir) &&
        currentInput == (if historyIndex >= 0 then commandHistory[historyIndex] else "")
    {
      if |commandHistory| == 0 {
        return;
      }
      var newIndex := Navigate(historyIndex, |commandHistory|, dir);
      historyIndex := newIndex;
      currentInput := if newIndex >= 0 then commandHistory[newIndex] else "";
    }

    /** `clearHistory` (src/hooks/useTerminal.ts:113-117). */
    method ClearHistory()
      requires Valid()
      modifies this`history, this`commandHistory, this`historyIndex
      ensures Valid()
      ensures history == [] && commandHistory == [] && historyIndex == -1
    {
      history := [];
      commandHistory := [];
      historyIndex := -1;
    }
  }

  const SpinnerFrames: seq<char> := ['◐', '◓', '◑', '◒']

  /** `useSpinner` (src/hooks/useTerminal.ts:138-151): one frame per interval tick, cycling. */
  class Spinner {
    var frame: nat

    ghost predicate Valid()
      reads this
    {
      frame < |SpinnerFrames|
    }

    constructor ()
      ensures Valid() && frame == 0
    {
      frame := 0;
    }

    method Advance()
      requires Valid()
      modifies this
      ensures Valid()
      ensures frame == (old(frame) + 1) % |SpinnerFrames|
    {
      frame := (frame + 1) % |SpinnerFrames|;
    }

    function Glyph(): char
      reads this
      requires Valid()
    {
      SpinnerFrames[frame]
    }
  }
}
