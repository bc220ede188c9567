/** The Connector process: `handleCommand`, the settling of an execution, and its timer, updating
    `inFlightCommands` in place. Each method moves this process as the Edge machine moves it. */
module ConnectorProcess {
  import opened CommandPolicy
  import opened CommandTable
  import opened EdgeInvariants
  import opened EdgeMachine
  import opened HubMachine

  class CommandHandler {
    const cid: ConnectorId
    const installationId: string
    const runtimeId: string
    const host: Host
    var inFlight: map<CommandId, ExecutionId>
    var timers: map<ExecutionId, Timer>
    var results: map<ExecutionId, Finding>

    ghost function View(): Connector
      reads this
    {
      Connector(installationId, runtimeId, host, inFlight, timers)
    }

    constructor (cid: ConnectorId, installationId: string, runtimeId: string, host: Host)
      ensures this.cid == cid && View() == Connector(installationId, runtimeId, host, map[], map[]) && results == map[]
    {
      this.cid, this.installationId, this.runtimeId, this.host := cid, installationId, runtimeId, host;
      inFlight, timers, results := map[], map[], map[];
    }

    predicate SettledHere(g: Edge, eid: ExecutionId) {
      eid in g.executions && g.executions[eid].connectorId == cid && g.executions[eid].finding.Some?
    }

    /** `results` is what the promises of this process have resolved to. */
    ghost predicate Resolved(g: Edge)
      reads this
    {
      && (forall eid :: eid in results <==> SettledHere(g, eid))
      && (forall eid :: eid in results ==> results[eid] == g.executions[eid].finding.value)
    }

    /** Starts an execution exactly when the command has no entry; an expired command is settled at
        once and never reaches the Runtime. `awaited` is the execution whose result this message is
        answered with, a new one or the one it shares. */
    method HandleCommand(ghost g: Edge, now: int, message: Message, eid: ExecutionId)
      returns (started: bool, awaited: ExecutionId)
      requires EdgeEnabled(g, now, DeliverCommand(cid, message, eid)) && g.connectors[cid] == View() && Resolved(g)
      modifies this
      ensures DeliverStep(g, now, cid, message, eid).connectors[cid] == View()
      ensures Resolved(DeliverStep(g, now, cid, message, eid))
      ensures started <==> message.commandId !in old(inFlight)
      ensures started <==> eid in DeliverStep(g, now, cid, message, eid).executions
      ensures message.commandId in inFlight && inFlight[message.commandId] == awaited
      ensures awaited == if started then eid else old(inFlight)[message.commandId]
      ensures inFlight == if started then old(inFlight)[message.commandId := eid] else old(inFlight)
      ensures if started && message.expiresAt <= now then
                && timers == old(timers)[eid := Timer(message.commandId, now + 60_000)]
                && results == old(results)[eid := Finding(Expired, None, Some("command_expired"))]
              else timers == old(timers) && results == old(results)
    {
      started := message.commandId !in inFlight;
      if started {
        inFlight := inFlight[message.commandId := eid];
        if message.expiresAt <= now {
          results := results[eid := ExpiredFinding()];
          timers := timers[eid := Timer(message.commandId, now + DEDUP_MS)];
        }
      }
      awaited := inFlight[message.commandId];
    }

    /** The awaited Runtime call is over: its result is settled and the window starts. */
    method Settle(ghost g: Edge, now: int, eid: ExecutionId, id: CommandId, reply: Reply)
      requires eid in g.executions && g.executions[eid].connectorId == cid && g.executions[eid].message.commandId == id
      requires EdgeEnabled(g, now, SettleExecution(eid, if reply.ClientError? then Some(reply) else None))
      requires reply.Answer? ==> g.executions[eid].reply == Some(reply)
      requires g.connectors[cid] == View() && Resolved(g)
      modifies this`timers, this`results
      ensures var g' := SettleStep(g, now, eid, if reply.ClientError? then Some(reply) else None);
        g'.connectors[cid] == View() && Resolved(g')
      ensures timers == old(timers)[eid := Timer(id, now + 60_000)]
      ensures eid in results && results == old(results)[eid := results[eid]]
      ensures match reply
        case Answer(accepted, _) => results[eid] == Finding(if accepted then Succeeded else Rejected, Some(reply), None)
        case ClientError(status, code) =>
          && results[eid].result.None? && results[eid].errorCode == Some(code)
          && (results[eid].status == Conflict <==> status == 409 || exists i: nat :: PartAt(code, "conflict", i))
          && (results[eid].status == Rejected <==> results[eid].status != Conflict && 400 <= status < 500)
          && results[eid].status in {Conflict, Rejected, Failed}
    {
      if reply.ClientError? {
        IncludesIff(reply.code, "conflict");
      }
      results := results[eid := FindingOf(reply)];
      timers := timers[eid := Timer(id, now + DEDUP_MS)];
    }

    /** Every message that awaits an execution is answered, once it has settled, with the one report
        the Hub side knows that execution by. */
    method AnswerMessage(ghost g: Edge, id: CommandId, awaited: ExecutionId) returns (report: Report)
      requires cid in g.connectors && g.connectors[cid] == View() && Resolved(g) && ReportsOk(g)
      requires awaited in results && Runs(g, awaited, cid, id)
      ensures var f := results[awaited];
        report == Report(awaited, Ack(id, installationId, runtimeId, f.status, f.result, f.errorCode))
      ensures forall other :: other in g.reports && other.executionId == awaited ==> other == report
    {
      report := ReportOf(awaited, Connector(installationId, runtimeId, host, inFlight, timers), id, results[awaited]);
      forall other | other in g.reports && other.executionId == awaited
        ensures other == report
      {
        assert ReportOk(g, other);
      }
    }

    /** In a reachable state the timer removes the entry of its own execution and no other. */
    method FireTimer(ghost g: Edge, now: int, eid: ExecutionId)
      requires EdgeEnabled(g, now, EdgeStep.FireTimer(cid, eid)) && g.connectors[cid] == View() && DedupOk(g, now)
      modifies this`inFlight, this`timers
      ensures FireStep(g, now, cid, eid).connectors[cid] == View()
      ensures forall id :: id in old(inFlight) && old(inFlight)[id] != eid ==> id in inFlight && inFlight[id] == old(inFlight)[id]
      ensures forall id :: id in inFlight ==> id in old(inFlight) && inFlight[id] == old(inFlight)[id] && inFlight[id] != eid
    {
      var id := timers[eid].commandId;
      assert Pending(g, cid, eid);
      forall other | other in inFlight && inFlight[other] == eid
        ensures other == id
      {
        assert Entry(g, cid, other, eid);
      }
      inFlight := inFlight - {id};
      timers := timers - {eid};
    }
  }
}
