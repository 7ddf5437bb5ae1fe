/** The dashboard's own state (src/App.tsx): the three agent cards, the message stream, the
    log, the counters, the terminal command handler and the demo simulation.

    Every `setInterval(…, 1500)` started by "start" is a simulation with its own step counter;
    each firing is a call of `Tick`. `Date.now()` is the `now` parameter, and
    `Math.floor(Math.random() * 500)` is the `roll` parameter. */
module Dashboard {
  import opened Types
  import opened Seqs
  import opened Strings

  const AgentNames: seq<string> := ["Planner", "Implementer", "Reviewer"]
  const AgentIds: seq<string> := ["1", "2", "3"]
  /** `statusCycle` (src/App.tsx:53-58). */
  const StatusCycle: seq<AgentStatus> := [Thinking, Working, Waiting, Idle]
  /** `messageTypes` (src/App.tsx:84). */
  const StepKinds: seq<MessageType> := [Agent, Tool, System]
  /** The simulation stops at this step (src/App.tsx:62). */
  const StepCount: nat := 12
  const RecentLogCount: int := 5

  const HelpText: string :=
    "Available commands:\n" +
    "  help      - Show this help message\n" +
    "  status    - Show agent status\n" +
    "  start     - Start agent simulation\n" +
    "  clear     - Clear messages\n" +
    "  logs      - Show recent logs\n" +
    "  stats     - Show current stats"

  /** The counters shown in the status bar; the floating-point cost is not modelled. */
  datatype Counters = Counters(tokens: nat, messages: nat)

  /** `INITIAL_AGENTS` (src/App.tsx:16-20). */
  function InitialAgents(): (r: seq<AgentCard>)
    ensures |r| == 3
    ensures forall i :: 0 <= i < 3 ==>
      r[i] == AgentCard(AgentIds[i], AgentNames[i], Idle, 0)
  {
    [AgentCard("1", "Planner", Idle, 0), AgentCard("2", "Implementer", Idle, 0),
     AgentCard("3", "Reviewer", Idle, 0)]
  }

  // ---------------------------------------------------------------- commands

  /** The branches of `handleCommand`'s switch. */
  datatype Command = Help | ShowStatus | Start | Clear | ShowLogs | ShowStats | Unknown

  /** The `switch` on the normalised command text (src/App.tsx:126-176). */
  function Classify(cmd: string): Command
  {
    if cmd == "help" then Help
    else if cmd == "status" then ShowStatus
    else if cmd == "start" then Start
    else if cmd == "clear" then Clear
    else if cmd == "logs" then ShowLogs
    else if cmd == "stats" then ShowStats
    else Unknown
  }

  /** The branch taken for `command` (src/App.tsx:124-126): the lower-cased, trimmed text
      compared with the six command words. */
  function Parse(command: string, lower: string -> string): Command
  {
    Classify(Trim(lower(command)))
  }

  /** Each of the six words selects its own branch, and a command is unknown exactly when its
      normalised text is none of them. */
  lemma ParseBranches(command: string, lower: string -> string)
    ensures Parse(command, lower) == Help <==> Trim(lower(command)) == "help"
    ensures Parse(command, lower) == ShowStatus <==> Trim(lower(command)) == "status"
    ensures Parse(command, lower) == Start <==> Trim(lower(command)) == "start"
    ensures Parse(command, lower) == Clear <==> Trim(lower(command)) == "clear"
    ensures Parse(command, lower) == ShowLogs <==> Trim(lower(command)) == "logs"
    ensures Parse(command, lower) == ShowStats <==> Trim(lower(command)) == "stats"
    ensures Parse(command, lower) == Unknown <==>
      Trim(lower(command)) !in {"help", "status", "start", "clear", "logs", "stats"}
  {
  }

  /** Whitespace around a command does not change its branch, for any lower-casing that works
      character by character and leaves whitespace alone. */
  lemma ParseIgnoresSurroundingWhitespace(w1: string, command: string, w2: string,
                                          lower: string -> string)
    requires AllWhitespace(w1) && AllWhitespace(w2)
    requires forall a: string, b: string :: lower(a + b) == lower(a) + lower(b)
    requires lower(w1) == w1 && lower(w2) == w2
    ensures Parse(w1 + command + w2, lower) == Parse(command, lower)
  {
    assert lower(w1 + command + w2) == lower(w1 + command) + lower(w2);
    assert lower(w1 + command) == lower(w1) + lower(command);
    TrimIgnoresSurroundingWhitespace(w1, lower(command), w2);
    assert Trim(lower(w1 + command + w2)) == Trim(lower(command));
  }

  /** One line of the "status" reply (src/App.tsx:139-140). */
  function StatusLine(a: AgentCard): string
  {
    "  " + a.name + ": " + StatusUpper(a.status) + " (" + NatToString(a.messages) + " msgs)"
  }

  function StatusLines(agents: seq<AgentCard>): (r: seq<string>)
    ensures |r| == |agents|
    ensures forall i :: 0 <= i < |r| ==> r[i] == StatusLine(agents[i])
  {
    seq(|agents|, i requires 0 <= i < |agents| => StatusLine(agents[i]))
  }

  /** One line of the "logs" reply (src/App.tsx:155). */
  function LogLine(l: LogEntry): string
  {
    "  [" + LevelName(l.level) + "] " + l.message
  }

  function LogLines(logs: seq<LogEntry>): (r: seq<string>)
    ensures |r| == |logs|
    ensures forall i :: 0 <= i < |r| ==> r[i] == LogLine(logs[i])
  {
    seq(|logs|, i requires 0 <= i < |logs| => LogLine(logs[i]))
  }

  /** The "status" reply (src/App.tsx:136-142). */
  function StatusReport(agents: seq<AgentCard>): string
  {
    Join(StatusLines(agents), '\n')
  }

  /** The "logs" reply (src/App.tsx:152-156). */
  function LogsReport(logs: seq<LogEntry>): string
  {
    Join(LogLines(Last(logs, RecentLogCount)), '\n')
  }

  /** The "stats" reply (src/App.tsx:158-161); `cost` is the text of `stats.cost.toFixed(4)`. */
  function StatsReport(c: Counters, cost: string): string
  {
    "  Tokens: " + NatToString(c.tokens) + "\n  Cost: $" + cost + "\n  Messages: " + NatToString(c.messages)
  }

  /** The "stats" reply is three lines: tokens, cost and messages, the counts in decimal. */
  lemma StatsReportLines(c: Counters, cost: string)
    requires '\n' !in cost
    ensures Split(StatsReport(c, cost), '\n') ==
      ["  Tokens: " + NatToString(c.tokens), "  Cost: $" + cost, "  Messages: " + NatToString(c.messages)]
    ensures DigitsValue(NatToString(c.tokens)) == c.tokens
    ensures DigitsValue(NatToString(c.messages)) == c.messages
  {
    var lines := ["  Tokens: " + NatToString(c.tokens), "  Cost: $" + cost, "  Messages: " + NatToString(c.messages)];
    StatsReportJoined(c, cost);
    NoNewlineInDigits("  Tokens: ", c.tokens);
    NoNewlineInDigits("  Messages: ", c.messages);
    assert '\n' !in "  Cost: $";
    assert '\n' !in lines[1];
    SplitJoin(lines, '\n');
    NatToStringRoundTrip(c.tokens);
    NatToStringRoundTrip(c.messages);
  }

  lemma StatsReportJoined(c: Counters, cost: string)
    ensures StatsReport(c, cost) ==
      Join(["  Tokens: " + NatToString(c.tokens), "  Cost: $" + cost, "  Messages: " + NatToString(c.messages)], '\n')
  {
    StatsTextJoined(NatToString(c.tokens), cost, NatToString(c.messages));
  }

  lemma StatsTextJoined(tokens: string, cost: string, messages: string)
    ensures "  Tokens: " + tokens + "\n  Cost: $" + cost + "\n  Messages: " + messages ==
      Join(["  Tokens: " + tokens, "  Cost: $" + cost, "  Messages: " + messages], '\n')
  {
    JoinThree("  Tokens: " + tokens, "  Cost: $" + cost, "  Messages: " + messages);
    assert "\n  Cost: $" == ['\n'] + "  Cost: $";
    assert "\n  Messages: " == ['\n'] + "  Messages: ";
  }

  lemma NoNewlineInDigits(prefix: string, n: nat)
    requires '\n' !in prefix
    ensures '\n' !in prefix + NatToString(n)
  {
    var digits := NatToString(n);
    assert forall k :: 0 <= k < |digits| ==> digits[k] != '\n';
  }

  lemma JoinThree(a: string, b: string, c: string)
    ensures Join([a, b, c], '\n') == a + ['\n'] + b + ['\n'] + c
  {
    assert [a, b, c][1..] == [b, c];
    assert [b, c][1..] == [c];
    assert Join([c], '\n') == c;
    assert Join([b, c], '\n') == b + ['\n'] + c;
    assert Join([a, b, c], '\n') == a + ['\n'] + (b + ['\n'] + c);
  }

  function UnknownReply(command: string): string
  {
    "Unknown command: " + command + ". Type 'help' for available commands."
  }

  /** The log entry an unrecognised command appends (src/App.tsx:165-174). */
  function UnknownCommandLog(command: string, now: Timestamp): (e: LogEntry)
    ensures e.level == LogError && e.source == Some("Terminal") && e.timestamp == now
    ensures |e.message| == 17 + |command|
    ensures e.message[..17] == "Unknown command: " && e.message[17..] == command
  {
    LogEntry("log-" + NatToString(now), LogError, "Unknown command: " + command, now, Some("Terminal"))
  }

  /** The text `handleCommand` returns for each branch (src/App.tsx:126-176). */
  function Reply(c: Command, command: string, agents: seq<AgentCard>, logs: seq<LogEntry>,
                 counters: Counters, cost: string): (r: string)
    ensures c == Unknown ==>
      && |r| > 17 + |command| && r[..17] == "Unknown command: " && r[17..17 + |command|] == command
      && r[17 + |command|..] == ". Type 'help' for available commands."
  {
    match c
    case Help => HelpText
    case ShowStatus => StatusReport(agents)
    case Start => "Starting agent simulation..."
    case Clear => "Messages cleared."
    case ShowLogs => LogsReport(logs)
    case ShowStats => StatsReport(counters, cost)
    case Unknown => UnknownReply(command)
  }

  lemma StatusLineNoNewline(a: AgentCard)
    requires '\n' !in a.name
    ensures '\n' !in StatusLine(a)
  {
    var digits := NatToString(a.messages);
    assert forall k :: 0 <= k < |digits| ==> digits[k] != '\n';
    assert '\n' !in StatusUpper(a.status);
  }

  /** The "status" reply has one line per agent, in agent order. */
  lemma StatusReportLines(agents: seq<AgentCard>)
    requires |agents| >= 1
    requires forall i :: 0 <= i < |agents| ==> '\n' !in agents[i].name
    ensures Split(StatusReport(agents), '\n') == StatusLines(agents)
  {
    var lines := StatusLines(agents);
    forall i | 0 <= i < |lines|
      ensures '\n' !in lines[i]
    {
      StatusLineNoNewline(agents[i]);
    }
    SplitJoin(lines, '\n');
  }

  /** The "logs" reply has at most 5 lines: those of the last 5 log entries, in order. */
  lemma LogsReportLines(logs: seq<LogEntry>)
    requires |logs| >= 1
    requires forall i :: 0 <= i < |logs| ==> '\n' !in logs[i].message
    ensures var lines := Split(LogsReport(logs), '\n');
      var k := Min(5, |logs|);
      && |lines| == k
      && forall j :: 0 <= j < k ==> lines[j] == LogLine(logs[|logs| - k + j])
  {
    var recent := Last(logs, RecentLogCount);
    var lines := LogLines(recent);
    forall j | 0 <= j < |lines|
      ensures '\n' !in lines[j]
    {
      assert recent[j] == logs[|logs| - |recent| + j];
      LogLineNoNewline(recent[j]);
    }
    SplitJoin(lines, '\n');
  }

  lemma LogLineNoNewline(l: LogEntry)
    requires '\n' !in l.message
    ensures '\n' !in LogLine(l)
  {
    assert '\n' !in LevelName(l.level);
  }

  // ---------------------------------------------------------------- simulation

  function AgentIndex(step: nat): (i: nat)
    ensures i < 3
  {
    step % 3
  }

  function StatusIndex(step: nat): (i: nat)
    ensures i < |StatusCycle|
  {
    (step / 3) % |StatusCycle|
  }

  /** Over the 12 steps each agent receives each of the four statuses exactly once: at step
      `3 * s + a`. */
  lemma ScheduleVisitsEachPairOnce(a: nat, s: nat)
    requires a < 3 && s < 4
    ensures forall step: nat :: step < StepCount ==>
      (AgentIndex(step) == a && StatusIndex(step) == s <==> step == 3 * s + a)
  {
  }

  /** The agent cards after a step (src/App.tsx:70-80): only the chosen agent changes, taking
      the step's status and one more message. */
  function StepAgents(agents: seq<AgentCard>, step: nat): (r: seq<AgentCard>)
    ensures |r| == |agents|
    ensures forall i :: 0 <= i < |r| && i != AgentIndex(step) ==> r[i] == agents[i]
    ensures AgentIndex(step) < |agents| ==>
      var a := agents[AgentIndex(step)];
      r[AgentIndex(step)] == a.(status := StatusCycle[StatusIndex(step)], messages := a.messages + 1)
  {
    seq(|agents|, i requires 0 <= i < |agents| =>
      if i == AgentIndex(step) then
        agents[i].(status := StatusCycle[StatusIndex(step)], messages := agents[i].messages + 1)
      else agents[i])
  }

  /** The message a step appends (src/App.tsx:85-94). */
  function StepMessage(step: nat, now: Timestamp): (m: Message)
    ensures m.kind == StepKinds[AgentIndex(step)] && m.agentName == Some(AgentNames[AgentIndex(step)])
    ensures m.content == AgentNames[AgentIndex(step)] + " is " + StatusName(StatusCycle[StatusIndex(step)]) + "..."
  {
    var i := AgentIndex(step);
    Message("msg-" + NatToString(now), StepKinds[i],
            AgentNames[i] + " is " + StatusName(StatusCycle[StatusIndex(step)]) + "...",
            now, Some(AgentNames[i]))
  }

  /** The log entry a step appends (src/App.tsx:97-106). */
  function StepLog(step: nat, now: Timestamp): (e: LogEntry)
    ensures e.level == Info && e.source == Some(AgentNames[AgentIndex(step)])
    ensures e.message == "Agent " + AgentNames[AgentIndex(step)] + " status: " + StatusName(StatusCycle[StatusIndex(step)])
  {
    var i := AgentIndex(step);
    LogEntry("log-" + NatToString(now), Info,
             "Agent " + AgentNames[i] + " status: " + StatusName(StatusCycle[StatusIndex(step)]),
             now, Some(AgentNames[i]))
  }

  /** The message and the log entry of a step report the card the step changed: for cards in
      the dashboard's order, they name that card's agent and show its new status. */
  lemma StepReportsMatchCard(agents: seq<AgentCard>, step: nat, now: Timestamp)
    requires |agents| == 3
    requires forall i :: 0 <= i < 3 ==> agents[i].name == AgentNames[i]
    ensures var card := StepAgents(agents, step)[AgentIndex(step)];
      var m := StepMessage(step, now);
      var e := StepLog(step, now);
      && card.messages == agents[AgentIndex(step)].messages + 1
      && m.agentName == Some(card.name) && e.source == Some(card.name)
      && m.content == card.name + " is " + StatusName(card.status) + "..."
      && e.message == "Agent " + card.name + " status: " + StatusName(card.status)
      && m.timestamp == now && e.timestamp == now
  {
  }

  /** The agent cards after steps `0 .. n - 1`. */
  function RunSteps(agents: seq<AgentCard>, n: nat): (r: seq<AgentCard>)
    ensures |r| == |agents|
  {
    if n == 0 then agents else StepAgents(RunSteps(agents, n - 1), n - 1)
  }

  /** After `n` steps agent `i` has had `(n + 2 - i) / 3` turns, each adding one message;
      names and ids never change. */
  lemma {:induction false} RunStepsMessages(agents: seq<AgentCard>, n: nat, i: nat)
    requires |agents| == 3 && i < 3
    ensures var a := RunSteps(agents, n)[i];
      a.id == agents[i].id && a.name == agents[i].name && a.messages == agents[i].messages + (n + 2 - i) / 3
  {
    if n > 0 {
      RunStepsMessages(agents, n - 1, i);
      TurnCount(n, i);
    }
  }

  /** Agent `i` keeps its status until its first turn (step `i`), and afterwards shows the
      status of its last turn, step `n - 1 - (n - 1 - i) % 3`. */
  lemma {:induction false} RunStepsStatus(agents: seq<AgentCard>, n: nat, i: nat)
    requires |agents| == 3 && i < 3
    ensures n <= i ==> RunSteps(agents, n)[i].status == agents[i].status
    ensures n > i ==> RunSteps(agents, n)[i].status == StatusCycle[((n - 1 - i) / 3) % 4]
  {
    if n > 0 {
      RunStepsStatus(agents, n - 1, i);
      LastTurn(n, i);
    }
  }

  /** Step `n - 1` adds a turn for agent `i` exactly when it is the agent's. */
  lemma TurnCount(n: nat, i: nat)
    requires n >= 1 && i < 3
    ensures (n + 2 - i) / 3 == (n + 1 - i) / 3 + (if AgentIndex(n - 1) == i then 1 else 0)
  {
    var q, r := (n - 1) / 3, (n - 1) % 3;
    assert n - 1 == 3 * q + r;
  }

  /** When step `n - 1` is agent `i`'s, it is the turn whose status the closed form names;
      otherwise the last turn is unchanged. */
  lemma LastTurn(n: nat, i: nat)
    requires n >= 1 && i < 3
    ensures AgentIndex(n - 1) == i ==> n > i && ((n - 1 - i) / 3) % 4 == StatusIndex(n - 1)
    ensures AgentIndex(n - 1) != i && n > i ==> n - 1 > i && (n - 1 - i) / 3 == (n - 2 - i) / 3
  {
    var q, r := (n - 1) / 3, (n - 1) % 3;
    assert n - 1 == 3 * q + r;
  }

  /** Both halves together: after `n` steps agent `i` has `(n + 2 - i) / 3` more messages and
      the status of its last turn. */
  lemma RunStepsAgent(agents: seq<AgentCard>, n: nat, i: nat)
    requires |agents| == 3 && i < 3
    ensures var a := RunSteps(agents, n)[i];
      && a.id == agents[i].id && a.name == agents[i].name
      && a.messages == agents[i].messages + (n + 2 - i) / 3
      && (n <= i ==> a.status == agents[i].status)
      && (n > i ==> a.status == StatusCycle[((n - 1 - i) / 3) % 4])
  {
    RunStepsMessages(agents, n, i);
    RunStepsStatus(agents, n, i);
  }

  /** The whole simulation ends with every agent idle, four messages richer. */
  lemma SimulationOutcome(agents: seq<AgentCard>)
    requires |agents| == 3
    ensures forall i :: 0 <= i < 3 ==>
      RunSteps(agents, StepCount)[i] == agents[i].(status := Idle, messages := agents[i].messages + 4)
  {
    forall i | 0 <= i < 3
      ensures RunSteps(agents, StepCount)[i] == agents[i].(status := Idle, messages := agents[i].messages + 4)
    {
      RunStepsAgent(agents, StepCount, i);
      assert (StepCount + 2 - i) / 3 == 4 && ((StepCount - 1 - i) / 3) % 4 == 3 by {
        assert i == 0 || i == 1 || i == 2;
      }
    }
  }

  // ---------------------------------------------------------------- state

  class App {
    var agents: seq<AgentCard>
    var messages: seq<Message>
    var logs: seq<LogEntry>
    var counters: Counters
    /** The step counter of every simulation started so far. */
    var simulations: seq<nat>

    ghost predicate Valid()
      reads this`agents
    {
      && |agents| == 3
      && forall i :: 0 <= i < 3 ==> agents[i].id == AgentIds[i] && agents[i].name == AgentNames[i]
    }

    /** The initial state (src/App.tsx:22-49). */
    constructor (now: Timestamp)
      ensures Valid()
      ensures agents == InitialAgents()
      ensures messages == [Message("1", System, "System initialized. ASCII Agent UI ready.", now, None)]
      ensures logs == [LogEntry("1", Info, "ASCII Agent UI initialized", now, Some("System"))]
      ensures counters == Counters(0, 1) && simulations == []
    {
      agents := InitialAgents();
      messages := [Message("1", System, "System initialized. ASCII Agent UI ready.", now, None)];
      logs := [LogEntry("1", Info, "ASCII Agent UI initialized", now, Some("System"))];
      counters := Counters(0, 1);
      simulations := [];
    }

    /** `handleCommand` (src/App.tsx:122-179). Only "start" (a new simulation), "clear" (no
        messages) and an unknown command (one more ERROR log entry, quoting the command as
        typed) change anything. */
    method HandleCommand(command: string, lower: string -> string, now: Timestamp, cost: string)
      returns (reply: string)
      requires Valid()
      modifies this`simulations, this`messages, this`logs
      ensures Valid()
      ensures reply == Reply(Parse(command, lower), command, old(agents), old(logs), old(counters), cost)
      ensures simulations == (if Parse(command, lower) == Start then old(simulations) + [0] else old(simulations))
      ensures messages == (if Parse(command, lower) == Clear then [] else old(messages))
      ensures logs == (if Parse(command, lower) == Unknown
                       then old(logs) + [UnknownCommandLog(command, now)] else old(logs))
    {
      var c := Parse(command, lower);
      reply := Respond(c, command, cost);
      Perform(c, command, now);
    }

    /** The reply of the branch `c`, from the current state. */
    method Respond(c: Command, command: string, cost: string) returns (reply: string)
      ensures reply == Reply(c, command, agents, logs, counters, cost)
    {
      reply := Reply(c, command, agents, logs, counters, cost);
    }

    /** The state change of the branch `c` of `handleCommand`. */
    method Perform(c: Command, command: string, now: Timestamp)
      modifies this`simulations, this`messages, this`logs
      ensures simulations == (if c == Start then old(simulations) + [0] else old(simulations))
      ensures messages == (if c == Clear then [] else old(messages))
      ensures logs == (if c == Unknown then old(logs) + [UnknownCommandLog(command, now)] else old(logs))
    {
      simulations := if c == Start then simulations + [0] else simulations;
      messages := if c == Clear then [] else messages;
      logs := if c == Unknown then logs + [UnknownCommandLog(command, now)] else logs;
    }

    /** One firing of simulation `k`'s interval (src/App.tsx:61-116): after step 11 it stops;
        otherwise the step's agent changes, one message and one log entry are appended, the
        token count grows by `roll + 100` and the message count by one. */
    method Tick(k: nat, now: Timestamp, roll: nat)
      requires Valid() && k < |simulations| && roll < 500
      modifies this
      ensures Valid()
      ensures var step := old(simulations[k]);
        if step >= StepCount then
          agents == old(agents) && messages == old(messages) && logs == old(logs) &&
          counters == old(counters) && simulations == old(simulations)
        else
          && agents == StepAgents(old(agents), step)
          && messages == old(messages) + [StepMessage(step, now)]
          && logs == old(logs) + [StepLog(step, now)]
          && counters == Counters(old(counters.tokens) + roll + 100, old(counters.messages) + 1)
          && simulations == old(simulations)[k := step + 1]
    {
      var step := simulations[k];
      if step >= StepCount {
        return;
      }
      agents := StepAgents(agents, step);
      messages := messages + [StepMessage(step, now)];
      logs := logs + [StepLog(step, now)];
      counters := Counters(counters.tokens + roll + 100, counters.messages + 1);
      simulations := simulations[k := step + 1];
    }
  }
}
