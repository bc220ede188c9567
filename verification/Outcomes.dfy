/** What the writers of a command leave behind, over whole runs and column by column: the exhaustion
    handler, the acknowledgement with its completion record, the refused caller, and what a Connector
    reports for an error or a command that is late. */
module Outcomes {
  import opened CommandPolicy
  import opened CommandTable
  import opened Delivery
  import opened EdgeInvariants
  import opened EdgeMachine
  import opened HubFrames
  import opened HubInvariants
  import opened HubMachine

  // ---------------------------------------------------------------- the exhaustion handler

  /** The handler of this command holds a write that has yet to be made. */
  predicate HoldsWrite(h: Hub, pid: ProcessId, id: CommandId) {
    pid in h.procs && h.procs[pid].role == Exhaustion(id) && (h.procs[pid].pc.Setting? || h.procs[pid].pc.Swapping?)
  }

  /** Step d of the run is the handler's decision, and this is the write it decided on. */
  ghost predicate DecidedAt(r: Run, d: nat, pid: ProcessId, id: CommandId, w: Write)
    requires |r.states| == |r.steps| + 1 && d < |r.steps|
  {
    && r.steps[d].HubMove? && r.steps[d].move.Decide? && r.steps[d].move.pid == pid && id in r.states[d].hub.rows
    && w == Write(id, if r.states[d].hub.rows[id].expiresAt <= r.states[d].now then Expired else Failed,
                  None, Some("delivery_exhausted"), Some(true))
  }

  ghost predicate WriteDecided(r: Run, k: nat, pid: ProcessId, id: CommandId)
    requires |r.states| == |r.steps| + 1 && k <= |r.steps|
  {
    HoldsWrite(r.states[k].hub, pid, id) ==>
      exists d: nat :: d < k && DecidedAt(r, d, pid, id, r.states[k].hub.procs[pid].pc.write)
  }

  lemma HandlerActs(h: Hub, now: int, step: HubStep, pid: ProcessId, id: CommandId)
    requires ProcessesOk(h) && Enabled(h, now, step) && Actor(step) == Some(pid)
    requires HoldsWrite(Apply(h, now, step), pid, id)
    ensures pid in h.procs
    ensures || (HoldsWrite(h, pid, id) && Apply(h, now, step).procs[pid].pc.write == h.procs[pid].pc.write)
            || (step.Decide? && h.procs[pid].role == Exhaustion(id) && h.procs[pid].pc.Deciding?)
  {
    if pid in h.procs {
      assert ProcessOk(h, h.procs[pid]);
    }
  }

  lemma HandlerDecides(h: Hub, now: int, pid: ProcessId, online: bool, id: CommandId)
    requires ProcessesOk(h) && Enabled(h, now, Decide(pid, online)) && h.procs[pid].role == Exhaustion(id)
    ensures id in h.rows
    ensures Present(Apply(h, now, Decide(pid, online)), pid)
    ensures Apply(h, now, Decide(pid, online)).procs[pid].pc ==
      Setting(Write(id, if h.rows[id].expiresAt <= now then Expired else Failed, None, Some("delivery_exhausted"), Some(true)), Finish)
  {
    assert ProcessOk(h, h.procs[pid]);
  }

  lemma {:induction false} WritesAreDecided(r: Run, k: nat, pid: ProcessId, id: CommandId)
    requires ValidRun(r) && k <= |r.steps|
    ensures WriteDecided(r, k, pid, id)
  {
    if k > 0 {
      WritesAreDecided(r, k - 1, pid, id);
      if HoldsWrite(r.states[k].hub, pid, id) {
        DecisionStays(r, k - 1, pid, id);
      }
    }
  }

  lemma DecisionStays(r: Run, k: nat, pid: ProcessId, id: CommandId)
    requires ValidRun(r) && k < |r.steps| && WriteDecided(r, k, pid, id) && HoldsWrite(r.states[k + 1].hub, pid, id)
    ensures WriteDecided(r, k + 1, pid, id)
  {
    var w := r.states[k + 1].hub.procs[pid].pc.write;
    RunKeepsInv(r, k);
    assert StepsAt(r, k);
    if r.steps[k].HubMove? {
      var h, now, move := r.states[k].hub, r.states[k].now, r.steps[k].move;
      if Actor(move) != Some(pid) {
        OthersStay(h, now, move, pid);
      } else {
        HandlerActs(h, now, move, pid, id);
        if move.Decide? {
          HandlerDecides(h, now, pid, move.online, id);
          assert DecidedAt(r, k, pid, id, w);
        }
      }
    }
    if d: nat :| d < k && DecidedAt(r, d, pid, id, w) {
      assert d < k + 1;
    }
  }

  lemma Decision(r: Run, k: nat, pid: ProcessId, id: CommandId) returns (d: nat)
    requires ValidRun(r) && k < |r.steps| && r.steps[k] == HubMove(SwapStatus(pid))
    requires pid in r.states[k].hub.procs && r.states[k].hub.procs[pid].role == Exhaustion(id)
    ensures d < k && r.steps[d].HubMove? && r.steps[d].move.Decide? && r.steps[d].move.pid == pid
    ensures id in r.states[k].hub.rows && r.states[k].hub.procs[pid].pc.Swapping?
    ensures r.states[k].hub.procs[pid].pc.write ==
      Write(id, if r.states[k].hub.rows[id].expiresAt <= r.states[d].now then Expired else Failed, None,
            Some("delivery_exhausted"), Some(true))
  {
    var h := r.states[k].hub;
    RunKeepsInv(r, k);
    assert StepsAt(r, k) && ProcessOk(h, h.procs[pid]);
    WritesAreDecided(r, k, pid, id);
    assert HoldsWrite(h, pid, id);
    d :| d < k && DecidedAt(r, d, pid, id, h.procs[pid].pc.write);
    RunGrows(r, d, k);
    assert RowGrows(r.states[d].hub.rows[id], h.rows[id]);
  }

  /** When the compare-and-set of the exhaustion handler wins, the command is `expired` exactly if its
      expiry had passed when the handler decided, and `failed` otherwise, with the code of an exhausted
      delivery, finished at the time of the write; nothing else in the row changes. */
  lemma ExhaustionWrites(r: Run, k: nat, pid: ProcessId)
    requires ValidRun(r) && k < |r.steps| && r.steps[k] == HubMove(SwapStatus(pid))
    requires pid in r.states[k].hub.procs && r.states[k].hub.procs[pid].role.Exhaustion?
    ensures r.states[k].hub.procs[pid].pc.Swapping? && r.states[k].hub.procs[pid].role.id in r.states[k].hub.rows
    ensures var id := r.states[k].hub.procs[pid].role.id;
      var row := r.states[k].hub.rows[id];
      row.status == r.states[k].hub.procs[pid].pc.read ==>
        exists d: nat :: d < k && r.steps[d].HubMove? && r.steps[d].move.Decide? && r.steps[d].move.pid == pid
          && r.states[k + 1].hub.rows == r.states[k].hub.rows[id := row.(
               status := if row.expiresAt <= r.states[d].now then Expired else Failed,
               errorCode := Some("delivery_exhausted"),
               finishedAt := Some(r.states[k].now))]
  {
    var h, id := r.states[k].hub, r.states[k].hub.procs[pid].role.id;
    var d := Decision(r, k, pid, id);
    assert StepsAt(r, k);
    if h.rows[id].status == h.procs[pid].pc.read {
      HandlerStores(h, r.states[k].now, pid, id, if h.rows[id].expiresAt <= r.states[d].now then Expired else Failed);
    }
  }

  lemma HandlerStores(h: Hub, now: int, pid: ProcessId, id: CommandId, status: CommandStatus)
    requires Enabled(h, now, SwapStatus(pid)) && id in h.rows && h.rows[id].status == h.procs[pid].pc.read
    requires h.procs[pid].pc.write == Write(id, status, None, Some("delivery_exhausted"), Some(true))
    ensures Apply(h, now, SwapStatus(pid)).rows == h.rows[id := h.rows[id].(
      status := status, errorCode := Some("delivery_exhausted"), finishedAt := Some(now))]
  {
  }

  /** The handler only ever starts for a job whose eight runs have been counted. */
  lemma HandledJobsAreSpent(r: Run, k: nat, pid: ProcessId, id: CommandId)
    requires ValidRun(r) && k < |r.steps| && r.steps[k] == HubMove(StartExhaustion(pid, id))
    ensures id in r.states[k].hub.jobs && r.states[k].hub.jobs[id].attemptsMade == 8
  {
    RunKeepsInv(r, k);
    assert StepsAt(r, k) && JobOk(r.states[k].hub, id, r.states[k].hub.jobs[id]);
  }

  // ---------------------------------------------------------------- completion records

  /** The receipt has recorded the completion, is about to, or has thrown. */
  predicate RecordedOrOwed(h: Hub, pid: ProcessId, a: Audit) {
    && pid in h.procs && h.procs[pid].role == Receipt
    && (a in h.audits || h.procs[pid].pc == Auditing(a) || (h.procs[pid].pc.Finished? && h.procs[pid].pc.end == Threw))
  }

  lemma ReceiptActs(h: Hub, now: int, step: HubStep, pid: ProcessId, a: Audit)
    requires Enabled(h, now, step) && Actor(step) == Some(pid) && RecordedOrOwed(h, pid, a)
    ensures RecordedOrOwed(Apply(h, now, step), pid, a)
  {
    StepFrame(h, now, step);
    if step.AppendAudit? {
      assert Apply(h, now, step).audits[|h.audits|] == h.procs[pid].pc.audit;
    }
  }

  lemma RecordStays(r: Run, k: nat, pid: ProcessId, a: Audit)
    requires ValidRun(r) && k < |r.steps| && RecordedOrOwed(r.states[k].hub, pid, a)
    ensures RecordedOrOwed(r.states[k + 1].hub, pid, a)
  {
    var h, h' := r.states[k].hub, r.states[k + 1].hub;
    assert StepsAt(r, k);
    RunGrows(r, k, k + 1);
    assert a in h.audits ==> a in h'.audits;
    if r.steps[k].HubMove? {
      if Actor(r.steps[k].move) == Some(pid) {
        ReceiptActs(h, r.states[k].now, r.steps[k].move, pid, a);
      } else {
        OthersStay(h, r.states[k].now, r.steps[k].move, pid);
      }
    }
  }

  /** An acknowledgement that changes a status leaves its process with the completion to record, and ever
      after the record is there or still owed, unless that process has thrown. */
  lemma {:induction false} CompletionIsRecorded(r: Run, i: nat, j: nat, pid: ProcessId, ack: Ack)
    requires ValidRun(r) && i < j <= |r.steps| && r.steps[i] == HubMove(ReceiveResult(pid, ack))
    requires ack.commandId in r.states[i].hub.rows && ack.commandId in r.states[i + 1].hub.rows
    requires r.states[i].hub.rows[ack.commandId].status != r.states[i + 1].hub.rows[ack.commandId].status
    ensures pid in r.states[i + 1].hub.procs
    ensures r.states[i + 1].hub.procs[pid] == Process(Receipt, Auditing(Audit(ack.commandId, ack.status)))
    ensures RecordedOrOwed(r.states[j].hub, pid, Audit(ack.commandId, ack.status))
  {
    assert StepsAt(r, i);
    if j > i + 1 {
      CompletionIsRecorded(r, i, j - 1, pid, ack);
      RecordStays(r, j - 1, pid, Audit(ack.commandId, ack.status));
    }
  }

  lemma WhoAcknowledges(h: Hub, now: int, step: HubStep, h': Hub, id: CommandId)
    requires ProcessesOk(h) && Frame(h, now, step, h') && Safe(h, step) && id in h'.rows
    requires h'.rows[id].status in {Succeeded, Rejected, Conflict}
    ensures id in h.rows
    ensures h.rows[id].status == h'.rows[id].status ||
      (step.ReceiveResult? && step.ack.commandId == id && step.ack.status == h'.rows[id].status)
  {
  }

  /** Every command with an acknowledged status has its completion recorded or owed, or the receipt that
      completed it has thrown. */
  lemma {:induction false} AcknowledgedIsRecorded(r: Run, j: nat, id: CommandId)
    requires ValidRun(r) && j <= |r.steps| && id in r.states[j].hub.rows
    requires r.states[j].hub.rows[id].status in {Succeeded, Rejected, Conflict}
    ensures exists pid :: RecordedOrOwed(r.states[j].hub, pid, Audit(id, r.states[j].hub.rows[id].status))
  {
    assert j > 0;
    var k := j - 1;
    var h, h' := r.states[k].hub, r.states[j].hub;
    RunKeepsInv(r, k);
    assert StepsAt(r, k);
    if r.steps[k].HubMove? {
      StepFrame(h, r.states[k].now, r.steps[k].move);
      StepIsSafe(h, r.states[k].now, r.steps[k].move);
      WhoAcknowledges(h, r.states[k].now, r.steps[k].move, h', id);
    }
    if h.rows[id].status == h'.rows[id].status {
      AcknowledgedIsRecorded(r, k, id);
      var pid :| RecordedOrOwed(h, pid, Audit(id, h.rows[id].status));
      RecordStays(r, k, pid, Audit(id, h.rows[id].status));
    } else {
      CompletionIsRecorded(r, k, j, r.steps[k].move.pid, r.steps[k].move.ack);
    }
  }

  // ---------------------------------------------------------------- refused callers

  /** A caller whose Runtime was found unpaired is told so for good: it never makes or replays a row. */
  lemma UnpairedIsRefused(r: Run, i: nat, j: nat, pid: ProcessId)
    requires ValidRun(r) && i < j <= |r.steps| && r.steps[i] == HubMove(CheckRuntime(pid, false))
    ensures pid in r.states[j].hub.procs && r.states[j].hub.procs[pid].role.ApiCall?
    ensures r.states[j].hub.procs[pid].role.outcome == Some(NotPaired)
    ensures forall id :: !MadeBy(r.states[j].hub, pid, id)
  {
    assert StepsAt(r, i);
    RunGrows(r, i + 1, j);
    assert RoleGrows(r.states[i + 1].hub.procs[pid].role, r.states[j].hub.procs[pid].role);
  }

  // ---------------------------------------------------------------- what a Connector reports

  ghost predicate Mentions(s: string, part: string) {
    exists i: nat :: PartAt(s, part, i)
  }

  /** What goes out when an execution settles at step k with an error of the Runtime: `conflict` exactly
      for status 409 or a code that mentions a conflict, `rejected` exactly for any other 4xx, `failed`
      otherwise; with the Runtime's code and no result, over the Connector's own installation and pairing. */
  lemma ErrorIsReported(r: Run, k: nat, eid: ExecutionId, status: int, code: string)
    requires ValidRun(r) && k < |r.steps|
    requires r.steps[k] == EdgeMove(SettleExecution(eid, Some(ClientError(status, code))))
    ensures eid in r.states[k].edge.executions
    ensures r.states[k].edge.executions[eid].connectorId in r.states[k].edge.connectors
    ensures var e := r.states[k].edge.executions[eid];
      var c := r.states[k].edge.connectors[e.connectorId];
      Report(eid, Ack(e.message.commandId, c.installationId, c.runtimeId,
                      if status == 409 || Mentions(code, "conflict") then Conflict
                      else if 400 <= status < 500 then Rejected
                      else Failed, None, Some(code))) in r.states[k + 1].edge.reports
  {
    assert StepsAt(r, k);
    IncludesIff(code, "conflict");
  }

  /** What goes out when the Runtime has answered. */
  lemma AnswerIsReported(r: Run, k: nat, eid: ExecutionId, accepted: bool, sequence: nat)
    requires ValidRun(r) && k < |r.steps| && r.steps[k] == EdgeMove(SettleExecution(eid, None))
    requires eid in r.states[k].edge.executions && r.states[k].edge.executions[eid].reply == Some(Answer(accepted, sequence))
    ensures r.states[k].edge.executions[eid].connectorId in r.states[k].edge.connectors
    ensures var e := r.states[k].edge.executions[eid];
      var c := r.states[k].edge.connectors[e.connectorId];
      Report(eid, Ack(e.message.commandId, c.installationId, c.runtimeId,
                      if accepted then Succeeded else Rejected, Some(Answer(accepted, sequence)), None))
      in r.states[k + 1].edge.reports
  {
    assert StepsAt(r, k);
  }

  /** A command that its Connector does not know and that arrives at or after its expiry is reported as
      expired at once, and no Runtime ever sees it through this execution; any other one waits for its
      Runtime, unreported. */
  lemma LateIsReported(r: Run, k: nat, j: nat, cid: ConnectorId, m: Message, eid: ExecutionId)
    requires ValidRun(r) && k < j <= |r.steps| && r.steps[k] == EdgeMove(DeliverCommand(cid, m, eid))
    requires cid in r.states[k].edge.connectors && m.commandId !in r.states[k].edge.connectors[cid].inFlight
    ensures var c := r.states[k].edge.connectors[cid];
      if m.expiresAt <= r.states[k].now then
        Report(eid, Ack(m.commandId, c.installationId, c.runtimeId, Expired, None, Some("command_expired")))
        in r.states[k + 1].edge.reports
      else r.states[k + 1].edge.reports == r.states[k].edge.reports
    ensures eid in r.states[j].edge.executions
    ensures m.expiresAt <= r.states[k].now ==> r.states[j].edge.executions[eid].reply.None?
  {
    assert StepsAt(r, k);
    RunGrows(r, k + 1, j);
    RunKeepsInv(r, j);
    assert ExecutionGrows(r.states[k + 1].edge.executions[eid], r.states[j].edge.executions[eid]);
    assert ExecutionOk(r.states[j].edge, r.states[j].now, r.states[j].edge.executions[eid]);
  }
}
