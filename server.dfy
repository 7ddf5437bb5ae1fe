/** The real-time status server (server.cjs): a fixed table of three workers, running totals,
    a message log that keeps its newest 100 entries, and a registry of event-stream observers
    to which every accepted change is pushed as a snapshot carrying the newest 20 log entries.

    HTTP routing, headers and static files are not modelled; each request handler is a method
    on the `Server` object. Clock readings are parameters, observers are opaque ids, and the set
    of observers whose write throws during a broadcast is a parameter. */
module StatusServer {
  import opened Types
  import opened Seqs
  import Strings

  /** The log keeps at most this many entries (server.cjs:77-78). */
  const LogCapacity: nat := 100
  /** Every payload carries this many of the newest log entries (server.cjs:86, 145, 178). */
  const SnapshotSize: nat := 20
  /** The workers the server was started with; the table never gains or loses one. */
  const KnownWorkers: set<string> := {"planner", "implementer", "reviewer"}
  const InvalidAgent: string := "Invalid agent"

  /** One worker's row. `cost` is kept in integer units (the source adds floating-point
      numbers). */
  datatype WorkerState = WorkerState(status: string, message: string, tokens: int, cost: int,
                                     lastUpdate: Timestamp)

  /** A log entry `{id, agent, type: "agent", content, timestamp}`. */
  datatype LogMessage = LogMessage(id: string, agent: string, kind: MessageType, content: string,
                                   timestamp: Timestamp)

  datatype Stats = Stats(tokens: int, cost: int, messages: nat)

  /** The fields a submitter may send; an absent JSON field is `None`. */
  datatype Update = Update(agent: Option<string>, status: Option<string>, message: Option<string>,
                           tokens: Option<int>, cost: Option<int>)

  /** A request body: a JSON object, or text `JSON.parse` rejects. */
  datatype Body = Json(update: Update) | Unparseable

  /** `{success}` or `{success: false, error}`. */
  datatype Response = Response(success: bool, error: Option<string>)

  datatype EventKind = InitEvent | UpdateEvent | ResetEvent

  /** What is serialised for an observer or a status query: the event type (absent for
      `/api/status`), the worker table, the totals, the log entries sent, and the clock reading
      (absent for `/api/status` and reset events). */
  datatype Payload = Payload(kind: Option<EventKind>, agents: map<string, WorkerState>,
                             stats: Stats, messages: seq<LogMessage>, timestamp: Option<Timestamp>)

  type ClientId = nat

  /** One attempted write of a payload to an observer; `delivered` is false when the write
      threw and the exception was swallowed. */
  datatype Write = Write(client: ClientId, payload: Payload, delivered: bool)

  /** `x || 0` for an optional number. */
  function Delta(x: Option<int>): int
  {
    if x.Some? then x.value else 0
  }

  /** `agent && agents[agent]`: a non-empty name that is one of the server's own workers. The
      emptiness test adds nothing, since no worker has the empty name. */
  predicate IsKnownAgent(agent: Option<string>)
    ensures IsKnownAgent(agent) <==> agent.Some? && agent.value in KnownWorkers
  {
    agent.Some? && agent.value != "" && agent.value in KnownWorkers
  }

  function DefaultWorker(message: string, now: Timestamp): WorkerState
  {
    WorkerState("idle", message, 0, 0, now)
  }

  function WorkerTable(message: string, now: Timestamp): (t: map<string, WorkerState>)
    ensures t.Keys == KnownWorkers
    ensures forall w :: w in t ==> t[w] == DefaultWorker(message, now)
  {
    map w | w in KnownWorkers :: DefaultWorker(message, now)
  }

  /** `parseBody`: a body that does not parse is read as the empty object `{}`. */
  function ParseBody(b: Body): (u: Update)
    ensures b.Unparseable? ==> !IsKnownAgent(u.agent)
    ensures b.Json? ==> u == b.update
  {
    match b
    case Json(u) => u
    case Unparseable => Update(None, None, None, None, None)
  }

  /** The merge rule for one worker (server.cjs:56-62): status and message are overwritten only
      by a truthy value, tokens and cost grow by the supplied deltas (0 when absent). */
  function MergeWorker(w: WorkerState, u: Update, now: Timestamp): (r: WorkerState)
    ensures Truthy(u.status) ==> r.status == u.status.value
    ensures !Truthy(u.status) ==> r.status == w.status
    ensures Truthy(u.message) ==> r.message == u.message.value
    ensures !Truthy(u.message) ==> r.message == w.message
    ensures r.tokens - w.tokens == Delta(u.tokens) && r.cost - w.cost == Delta(u.cost)
    ensures r.lastUpdate == now
  {
    WorkerState(if Truthy(u.status) then u.status.value else w.status,
                if Truthy(u.message) then u.message.value else w.message,
                w.tokens + Delta(u.tokens),
                w.cost + Delta(u.cost),
                now)
  }

  /** Merging the same update twice is not merging it once: the counters are deltas. */
  lemma RepeatedUpdateAccumulates(w: WorkerState, u: Update, now: Timestamp)
    requires Delta(u.tokens) != 0
    ensures MergeWorker(MergeWorker(w, u, now), u, now) != MergeWorker(w, u, now)
    ensures MergeWorker(MergeWorker(w, u, now), u, now).tokens == w.tokens + 2 * Delta(u.tokens)
  {
  }

  /** The result of merging a series of updates, in order. */
  function MergeAll(w: WorkerState, us: seq<Update>, now: Timestamp): WorkerState
    decreases |us|
  {
    if us == [] then w else MergeAll(MergeWorker(w, us[0], now), us[1..], now)
  }

  function SumTokens(us: seq<Update>): int
  {
    if us == [] then 0 else Delta(us[0].tokens) + SumTokens(us[1..])
  }

  /** The status a series of updates leaves: the last truthy one, else the original. */
  function LastStatus(current: string, us: seq<Update>): string
    decreases |us|
  {
    if us == [] then current
    else LastStatus(if Truthy(us[0].status) then us[0].status.value else current, us[1..])
  }

  /** After a series of updates, the token counter is the old one plus every delta, and the
      status is the last one supplied with a truthy value. */
  lemma {:induction false} MergeAllAccumulates(w: WorkerState, us: seq<Update>, now: Timestamp)
    ensures MergeAll(w, us, now).tokens == w.tokens + SumTokens(us)
    ensures MergeAll(w, us, now).status == LastStatus(w.status, us)
    decreases |us|
  {
    if us != [] {
      MergeAllAccumulates(MergeWorker(w, us[0], now), us[1..], now);
    }
  }

  /** `messages.push(e); if (messages.length > 100) messages.shift()` (server.cjs:70-78). */
  function AppendBounded(log: seq<LogMessage>, e: LogMessage): (r: seq<LogMessage>)
    requires |log| <= LogCapacity
    ensures |r| <= LogCapacity && |r| >= 1 && r[|r| - 1] == e
    ensures |log| < LogCapacity ==> r == log + [e]
    ensures |log| == LogCapacity ==> r == log[1..] + [e]
  {
    var pushed := log + [e];
    if |pushed| > LogCapacity then pushed[1..] else pushed
  }

  /** The bounded log is always the newest 100 entries of everything ever logged: appending to
      the newest 100 of a history gives the newest 100 of the longer history. */
  lemma AppendKeepsNewest(history: seq<LogMessage>, e: LogMessage)
    ensures |Last(history, LogCapacity)| <= LogCapacity
    ensures AppendBounded(Last(history, LogCapacity), e) == Last(history + [e], LogCapacity)
  {
    var kept := Last(history, LogCapacity);
    if |history| >= LogCapacity {
      assert kept == history[|history| - LogCapacity..];
      assert kept[1..] + [e] == (history + [e])[|history| + 1 - LogCapacity..];
    } else {
      assert kept == history;
      assert (history + [e])[0..] == history + [e];
    }
  }

  /** The writes one broadcast attempts: one per observer, in registry order; a write is
      delivered unless it throws. */
  function Writes(clients: seq<ClientId>, p: Payload, failing: set<ClientId>): (ws: seq<Write>)
    ensures |ws| == |clients|
    ensures forall i :: 0 <= i < |ws| ==> ws[i].client == clients[i] && ws[i].payload == p
    ensures forall i :: 0 <= i < |ws| ==> (ws[i].delivered <==> clients[i] !in failing)
  {
    seq(|clients|, i requires 0 <= i < |clients| => Write(clients[i], p, clients[i] !in failing))
  }

  /** The registry without one observer: `sseClients.filter((c) => c !== res)`. Every copy of
      `client` goes, and every other observer keeps its count. */
  function Without(clients: seq<ClientId>, client: ClientId): (r: seq<ClientId>)
    ensures forall c :: multiset(r)[c] == if c == client then 0 else multiset(clients)[c]
    ensures |r| == |clients| - multiset(clients)[client]
  {
    WithoutCount(clients, client);
    Filter(clients, c => c != client)
  }

  lemma {:induction false} WithoutCount(clients: seq<ClientId>, client: ClientId)
    ensures |Filter(clients, c => c != client)| == |clients| - multiset(clients)[client]
  {
    if clients != [] {
      WithoutCount(clients[1..], client);
      assert clients == [clients[0]] + clients[1..];
    }
  }

  /** The observers left keep their registry order. */
  lemma WithoutKeepsOrder(clients: seq<ClientId>, client: ClientId)
    ensures IsSubsequence(Without(clients, client), clients)
  {
    FilterIsSubsequence(clients, c => c != client);
  }

  class Server {
    var agents: map<string, WorkerState>
    var messages: seq<LogMessage>
    var totalStats: Stats
    var sseClients: seq<ClientId>
    /** Every write attempted on an observer's event stream, in order. */
    var outbox: seq<Write>
    /** Every log entry appended since start or the last reset. */
    ghost var logged: seq<LogMessage>

    ghost predicate Valid()
      reads this`agents, this`messages, this`logged
    {
      agents.Keys == KnownWorkers && messages == Last(logged, LogCapacity)
    }

    /** The payload of an event: the full table, the totals and the newest 20 log entries. */
    function Snapshot(kind: EventKind, now: Timestamp): (p: Payload)
      reads this`agents, this`totalStats, this`messages
      ensures p.agents == agents && p.stats == totalStats
      ensures |p.messages| == Min(SnapshotSize, |messages|)
      ensures p.messages == messages[|messages| - |p.messages|..]
    {
      Payload(Some(kind), agents, totalStats, Last(messages, SnapshotSize), Some(now))
    }

    /** Process start (server.cjs:11-37). */
    constructor (now: Timestamp)
      ensures Valid()
      ensures agents == WorkerTable("Waiting...", now)
      ensures messages == [] && totalStats == Stats(0, 0, 0)
      ensures sseClients == [] && outbox == [] && DistinctObservers()
    {
      agents := WorkerTable("Waiting...", now);
      messages := [];
      totalStats := Stats(0, 0, 0);
      sseClients := [];
      outbox := [];
      logged := [];
    }

    /** `broadcast` (server.cjs:40-49): a write is attempted to every observer in order; a
        failing write is swallowed and the loop goes on. */
    method Broadcast(p: Payload, failing: set<ClientId>)
      modifies this`outbox
      ensures outbox == old(outbox) + Writes(sseClients, p, failing)
    {
      var i := 0;
      while i < |sseClients|
        invariant 0 <= i <= |sseClients|
        invariant outbox == old(outbox) + Writes(sseClients[..i], p, failing)
      {
        var client := sseClients[i];
        outbox := outbox + [Write(client, p, client !in failing)];
        i := i + 1;
      }
      assert sseClients[..i] == sseClients;
    }

    /** `handleAgentUpdate` (server.cjs:52-94). */
    method HandleAgentUpdate(u: Update, now: Timestamp, failing: set<ClientId>) returns (r: Response)
      requires Valid()
      modifies this`agents, this`totalStats, this`messages, this`logged, this`outbox
      ensures Valid()
      ensures !IsKnownAgent(u.agent) ==>
        r == Response(false, Some(InvalidAgent)) &&
        agents == old(agents) && messages == old(messages) && totalStats == old(totalStats) &&
        outbox == old(outbox) && logged == old(logged)
      ensures IsKnownAgent(u.agent) ==>
        var a := u.agent.value;
        && r == Response(true, None)
        && agents == old(agents)[a := MergeWorker(old(agents)[a], u, now)]
        && totalStats == Stats(old(totalStats).tokens + Delta(u.tokens),
                               old(totalStats).cost + Delta(u.cost),
                               old(totalStats).messages + 1)
        && (Truthy(u.message) ==>
              var entry := LogMessage(Strings.NatToString(now), a, Agent, u.message.value, now);
              logged == old(logged) + [entry] && messages == AppendBounded(old(messages), entry))
        && (!Truthy(u.message) ==> logged == old(logged) && messages == old(messages))
        && outbox == old(outbox) + Writes(sseClients, Snapshot(UpdateEvent, now), failing)
    {
      if !IsKnownAgent(u.agent) {
        return Response(false, Some(InvalidAgent));
      }
      ApplyUpdate(u, now);
      Broadcast(Snapshot(UpdateEvent, now), failing);
      r := Response(true, None);
    }

    /** The state change `handleAgentUpdate` makes for a known worker (server.cjs:55-79): the
        merged row, the running totals, and the log entry when the update carries a message. */
    method ApplyUpdate(u: Update, now: Timestamp)
      requires Valid() && IsKnownAgent(u.agent)
      modifies this`agents, this`totalStats, this`messages, this`logged
      ensures Valid()
      ensures var a := u.agent.value;
        && agents == old(agents)[a := MergeWorker(old(agents)[a], u, now)]
        && totalStats == Stats(old(totalStats).tokens + Delta(u.tokens),
                               old(totalStats).cost + Delta(u.cost),
                               old(totalStats).messages + 1)
        && (Truthy(u.message) ==>
              var entry := LogMessage(Strings.NatToString(now), a, Agent, u.message.value, now);
              logged == old(logged) + [entry] && messages == AppendBounded(old(messages), entry))
        && (!Truthy(u.message) ==> logged == old(logged) && messages == old(messages))
    {
      var a := u.agent.value;
      agents := agents[a := MergeWorker(agents[a], u, now)];
      totalStats := Stats(totalStats.tokens + Delta(u.tokens),
                          totalStats.cost + Delta(u.cost),
                          totalStats.messages + 1);
      if Truthy(u.message) {
        var entry := LogMessage(Strings.NatToString(now), a, Agent, u.message.value, now);
        AppendKeepsNewest(logged, entry);
        messages := AppendBounded(messages, entry);
        logged := logged + [entry];
      }
    }

    /** `POST /api/agent-update` (server.cjs:162-169): the body is parsed, with unparseable
        text read as `{}`, and handed to `HandleAgentUpdate`. */
    method SubmitUpdate(body: Body, now: Timestamp, failing: set<ClientId>) returns (r: Response)
      requires Valid()
      modifies this`agents, this`totalStats, this`messages, this`logged, this`outbox
      ensures Valid()
      ensures body.Unparseable? ==>
        r == Response(false, Some(InvalidAgent)) &&
        agents == old(agents) && messages == old(messages) && totalStats == old(totalStats) &&
        outbox == old(outbox) && logged == old(logged)
      ensures body.Json? && !IsKnownAgent(body.update.agent) ==>
        r == Response(false, Some(InvalidAgent)) &&
        agents == old(agents) && messages == old(messages) && totalStats == old(totalStats) &&
        outbox == old(outbox) && logged == old(logged)
      ensures body.Json? && IsKnownAgent(body.update.agent) ==>
        var u := body.update;
        var a := u.agent.value;
        && r == Response(true, None)
        && agents == old(agents)[a := MergeWorker(old(agents)[a], u, now)]
        && totalStats == Stats(old(totalStats).tokens + Delta(u.tokens),
                               old(totalStats).cost + Delta(u.cost),
                               old(totalStats).messages + 1)
        && (Truthy(u.message) ==>
              var entry := LogMessage(Strings.NatToString(now), a, Agent, u.message.value, now);
              logged == old(logged) + [entry] && messages == AppendBounded(old(messages), entry))
        && (!Truthy(u.message) ==> logged == old(logged) && messages == old(messages))
        && outbox == old(outbox) + Writes(sseClients, Snapshot(UpdateEvent, now), failing)
    {
      r := HandleAgentUpdate(ParseBody(body), now, failing);
    }

    /** `GET /api/status` (server.cjs:172-182): a read-only snapshot with the newest 20
        entries. */
    method Status() returns (p: Payload)
      ensures p.kind.None? && p.timestamp.None?
      ensures p.agents == agents && p.stats == totalStats
      ensures |p.messages| == Min(SnapshotSize, |messages|)
      ensures p.messages == messages[|messages| - |p.messages|..]
    {
      p := Payload(None, agents, totalStats, Last(messages, SnapshotSize), None);
    }

    /** `POST /api/reset` (server.cjs:185-217). */
    method Reset(now: Timestamp, failing: set<ClientId>) returns (r: Response)
      modifies this
      ensures Valid()
      ensures r == Response(true, None)
      ensures agents == WorkerTable("Reset", now)
      ensures messages == [] && totalStats == Stats(0, 0, 0)
      ensures sseClients == old(sseClients)
      ensures outbox == old(outbox) +
        Writes(sseClients, Payload(Some(ResetEvent), agents, totalStats, [], None), failing)
    {
      agents := WorkerTable("Reset", now);
      messages := [];
      logged := [];
      totalStats := Stats(0, 0, 0);
      Broadcast(Payload(Some(ResetEvent), agents, totalStats, [], None), failing);
      r := Response(true, None);
    }

    /** Each connection is registered at most once: the source registers the response object
        of a new request, which no earlier request shares. */
    ghost predicate DistinctObservers()
      reads this`sseClients
    {
      forall c :: multiset(sseClients)[c] <= 1
    }

    /** `GET /api/events` (server.cjs:132-159): the new observer is first sent an `init`
        snapshot and then joins the registry. */
    method Connect(client: ClientId, now: Timestamp)
      requires DistinctObservers() && client !in sseClients
      modifies this`outbox, this`sseClients
      ensures DistinctObservers()
      ensures outbox == old(outbox) + [Write(client, Snapshot(InitEvent, now), true)]
      ensures sseClients == old(sseClients) + [client]
    {
      outbox := outbox + [Write(client, Snapshot(InitEvent, now), true)];
      sseClients := sseClients + [client];
    }

    /** The `close` handler (server.cjs:154-156): exactly that observer leaves the registry;
        the others stay, in order. */
    method Disconnect(client: ClientId)
      requires DistinctObservers()
      modifies this`sseClients
      ensures DistinctObservers()
      ensures sseClients == Without(old(sseClients), client)
      ensures client !in sseClients
      ensures forall c :: c in old(sseClients) && c != client ==> c in sseClients
      ensures IsSubsequence(sseClients, old(sseClients))
      ensures |sseClients| == |old(sseClients)| - (if client in old(sseClients) then 1 else 0)
    {
      var before := sseClients;
      sseClients := Without(sseClients, client);
      WithoutKeepsOrder(before, client);
    }
  }
}
