/** The Connector side of command delivery: Connector processes with their `inFlightCommands` map
    and its timers, the executions they start, and reference Runtimes that deduplicate by idempotency
    key. A restarted Connector is a new process with an empty map. A Connector sends every command to
    whatever Runtime its host runs at the time; it has been paired under a Runtime identity, but does
    not compare the two. */
module EdgeMachine {
  import opened CommandPolicy
  import opened CommandTable
  import opened HubMachine

  type ConnectorId = nat
  type ExecutionId = nat
  type Host = nat

  const DEDUP_MS := 60_000

  /** A Runtime by its identity and the store it keeps its answers in. One that has been installed
      afresh, or has lost its data, has another store, with the same identity or another one. */
  datatype Runtime = Runtime(id: string, store: nat)

  /** What `executeCommand` reports about a command. */
  datatype Finding = Finding(status: CommandStatus, result: Option<Reply>, errorCode: Option<string>)

  /** One run of `executeCommand`. `reply` is what a Runtime did with it, `answeredBy` which one that
      was, and `finding` what the run resolved to, at `settledAt`. */
  datatype Execution = Execution(
    connectorId: ConnectorId,
    message: Message,
    startedAt: int,
    reply: Option<Reply>,
    answeredBy: Option<Runtime>,
    finding: Option<Finding>,
    settledAt: int)

  datatype Timer = Timer(commandId: CommandId, fireAt: int)

  datatype Connector = Connector(
    installationId: string,
    runtimeId: string,
    host: Host,
    inFlight: map<CommandId, ExecutionId>,
    timers: map<ExecutionId, Timer>)

  /** A `connector.command_result` handed to a socket, with the identity the Hub binds to it. */
  datatype Report = Report(executionId: ExecutionId, ack: Ack)

  datatype Effect = Effect(runtime: Runtime, key: string, executionId: ExecutionId)

  /** `running` is the Runtime that now answers on a host, and `ran` every one that ever did. */
  datatype Edge = Edge(
    connectors: map<ConnectorId, Connector>,
    executions: map<ExecutionId, Execution>,
    reports: set<Report>,
    running: map<Host, Runtime>,
    ran: set<(Host, Runtime)>,
    replies: map<(Runtime, string), Reply>,
    effects: seq<Effect>)

  const INITIAL_EDGE := Edge(map[], map[], {}, map[], {}, map[], [])

  datatype EdgeStep =
    | StartConnector(cid: ConnectorId, installationId: string, runtimeId: string, host: Host)
    | StartRuntime(host: Host, runtime: Runtime)
    | DeliverCommand(cid: ConnectorId, message: Message, eid: ExecutionId)
    | HandleAtRuntime(eid: ExecutionId, answer: Reply)
    | SettleExecution(eid: ExecutionId, failure: Option<Reply>)
    | FireTimer(cid: ConnectorId, eid: ExecutionId)

  // ---------------------------------------------------------------- executeCommand

  predicate Includes(s: string, part: string) {
    part <= s || (s != "" && Includes(s[1..], part))
  }

  predicate PartAt(s: string, part: string, i: nat) {
    i + |part| <= |s| && s[i..i + |part|] == part
  }

  lemma PartAtStart(s: string, part: string)
    ensures PartAt(s, part, 0) <==> part <= s
  {
    if |part| <= |s| {
      assert s[0..0 + |part|] == s[..|part|];
    }
  }

  lemma PartFurther(s: string, part: string, i: nat)
    requires s != ""
    ensures PartAt(s[1..], part, i) <==> PartAt(s, part, i + 1)
  {
    if i + 1 + |part| <= |s| {
      assert s[1..][i..i + |part|] == s[i + 1..i + 1 + |part|];
    }
  }

  /** `includes` finds the text wherever it is. */
  lemma {:induction false} IncludesIff(s: string, part: string)
    ensures Includes(s, part) <==> exists i: nat :: PartAt(s, part, i)
  {
    PartAtStart(s, part);
    if s != "" {
      IncludesIff(s[1..], part);
      if i: nat :| PartAt(s[1..], part, i) {
        PartFurther(s, part, i);
      }
      if i: nat :| PartAt(s, part, i) {
        if i > 0 {
          PartFurther(s, part, i - 1);
        }
      }
    }
  }

  function FindingOf(reply: Reply): Finding {
    match reply
    case Answer(accepted, _) => Finding(if accepted then Succeeded else Rejected, Some(reply), None)
    case ClientError(status, code) =>
      Finding(if status == 409 || Includes(code, "conflict") then Conflict
              else if 400 <= status < 500 then Rejected
              else Failed, None, Some(code))
  }

  function ExpiredFinding(): Finding {
    Finding(Expired, None, Some("command_expired"))
  }

  function ReportOf(eid: ExecutionId, k: Connector, id: CommandId, f: Finding): Report {
    Report(eid, Ack(id, k.installationId, k.runtimeId, f.status, f.result, f.errorCode))
  }

  // ---------------------------------------------------------------- what is enabled

  predicate EdgeEnabled(g: Edge, now: int, step: EdgeStep) {
    match step
    case StartConnector(cid, _, _, _) => cid !in g.connectors
    case StartRuntime(_, _) => true
    case DeliverCommand(cid, message, eid) =>
      && cid in g.connectors && g.connectors[cid].installationId == message.installationId
      && eid !in g.executions
    case HandleAtRuntime(eid, answer) =>
      && eid in g.executions && g.executions[eid].reply.None?
      && g.executions[eid].startedAt < g.executions[eid].message.expiresAt
      && g.executions[eid].connectorId in g.connectors
      && g.connectors[g.executions[eid].connectorId].host in g.running
      && PayloadKey(g.executions[eid].message.payload).Some?
    case SettleExecution(eid, failure) =>
      && eid in g.executions && g.executions[eid].finding.None?
      && g.executions[eid].connectorId in g.connectors
      && (failure.None? ==> g.executions[eid].reply.Some?)
      && (failure.Some? ==> failure.value.ClientError?)
    case FireTimer(cid, eid) =>
      cid in g.connectors && eid in g.connectors[cid].timers && g.connectors[cid].timers[eid].fireAt <= now
  }

  // ---------------------------------------------------------------- what a step does

  function Settled(k: Connector, eid: ExecutionId, id: CommandId, now: int): Connector {
    k.(timers := k.timers[eid := Timer(id, now + DEDUP_MS)])
  }

  /** `handleCommand`: a known command shares its execution; a new one starts `executeCommand`,
      which resolves at once when the command has expired. */
  function DeliverStep(g: Edge, now: int, cid: ConnectorId, message: Message, eid: ExecutionId): Edge
    requires EdgeEnabled(g, now, DeliverCommand(cid, message, eid))
  {
    var k := g.connectors[cid];
    var id := message.commandId;
    if id in k.inFlight then
      var known := k.inFlight[id];
      if known !in g.executions || g.executions[known].finding.None? then g
      else g.(reports := g.reports + {ReportOf(known, k, id, g.executions[known].finding.value)})
    else
      var started := k.(inFlight := k.inFlight[id := eid]);
      if message.expiresAt <= now then
        g.(connectors := g.connectors[cid := Settled(started, eid, id, now)],
           executions := g.executions[eid := Execution(cid, message, now, None, None, Some(ExpiredFinding()), now)],
           reports := g.reports + {ReportOf(eid, k, id, ExpiredFinding())})
      else
        g.(connectors := g.connectors[cid := started],
           executions := g.executions[eid := Execution(cid, message, now, None, None, None, now)])
  }

  /** The Runtime that the host runs now: a key that already had its effect there gets the first answer
      again. The request may arrive after the Connector stopped waiting for it. */
  function HandleStep(g: Edge, now: int, eid: ExecutionId, answer: Reply): Edge
    requires EdgeEnabled(g, now, HandleAtRuntime(eid, answer))
  {
    var e := g.executions[eid];
    var runtime := g.running[g.connectors[e.connectorId].host];
    var slot := (runtime, PayloadKey(e.message.payload).value);
    var reply := if slot in g.replies then g.replies[slot] else answer;
    var handled := g.(executions := g.executions[eid := e.(reply := Some(reply), answeredBy := Some(runtime))]);
    if slot !in g.replies && answer.Answer? && answer.accepted then
      handled.(replies := g.replies[slot := answer], effects := g.effects + [Effect(runtime, slot.1, eid)])
    else handled
  }

  /** The answer arrived, or the client gave up or could not read it. */
  function SettleStep(g: Edge, now: int, eid: ExecutionId, failure: Option<Reply>): Edge
    requires EdgeEnabled(g, now, SettleExecution(eid, failure))
  {
    var e := g.executions[eid];
    var k := g.connectors[e.connectorId];
    var f := FindingOf(if failure.Some? then failure.value else e.reply.value);
    g.(connectors := g.connectors[e.connectorId := Settled(k, eid, e.message.commandId, now)],
       executions := g.executions[eid := e.(finding := Some(f), settledAt := now)],
       reports := g.reports + {ReportOf(eid, k, e.message.commandId, f)})
  }

  /** The timer deletes whatever entry the command id has. */
  function FireStep(g: Edge, now: int, cid: ConnectorId, eid: ExecutionId): Edge
    requires EdgeEnabled(g, now, FireTimer(cid, eid))
  {
    var k := g.connectors[cid];
    g.(connectors := g.connectors[cid := k.(inFlight := k.inFlight - {k.timers[eid].commandId},
                                            timers := k.timers - {eid})])
  }

  function EdgeApply(g: Edge, now: int, step: EdgeStep): Edge
    requires EdgeEnabled(g, now, step)
  {
    match step
    case StartConnector(cid, i, r, host) => g.(connectors := g.connectors[cid := Connector(i, r, host, map[], map[])])
    case StartRuntime(host, runtime) => g.(running := g.running[host := runtime], ran := g.ran + {(host, runtime)})
    case DeliverCommand(cid, message, eid) => DeliverStep(g, now, cid, message, eid)
    case HandleAtRuntime(eid, answer) => HandleStep(g, now, eid, answer)
    case SettleExecution(eid, failure) => SettleStep(g, now, eid, failure)
    case FireTimer(cid, eid) => FireStep(g, now, cid, eid)
  }
}
