/** Nobody marks a command `expired` early: not the worker, which decides on a row it read before,
    not the exhaustion handler, and not a Connector, which decides by the message it was sent. */
module Expiry {
  import opened CommandPolicy
  import opened CommandTable
  import opened HubFrames
  import opened HubInvariants
  import opened HubMachine
  import opened EdgeMachine
  import opened EdgeInvariants
  import opened Delivery

  predicate RowDue(h: Hub, now: int, id: CommandId) {
    id in h.rows && h.rows[id].status == Expired ==> h.rows[id].expiresAt <= now
  }

  predicate WillExpire(h: Hub, pid: ProcessId) {
    && pid in h.procs && (h.procs[pid].pc.Setting? || h.procs[pid].pc.Swapping?)
    && h.procs[pid].pc.write.status == Expired
  }

  /** A pending `expired` write is for a command whose time has come. */
  predicate WriteDue(h: Hub, now: int, pid: ProcessId) {
    WillExpire(h, pid) ==>
      h.procs[pid].pc.write.commandId in h.rows && h.rows[h.procs[pid].pc.write.commandId].expiresAt <= now
  }

  predicate FindingDue(g: Edge, now: int, eid: ExecutionId) {
    eid in g.executions && g.executions[eid].finding.Some? && g.executions[eid].finding.value.status == Expired ==>
      g.executions[eid].message.expiresAt <= now
  }

  ghost predicate AllDue(w: World) {
    && (forall id :: RowDue(w.hub, w.now, id))
    && (forall pid :: WriteDue(w.hub, w.now, pid))
    && (forall eid :: FindingDue(w.edge, w.now, eid))
  }

  // ---------------------------------------------------------------- the Hub

  lemma DecideDue(h: Hub, now: int, pid: ProcessId, online: bool)
    requires ProcessesOk(h) && Enabled(h, now, Decide(pid, online))
    ensures WriteDue(Apply(h, now, Decide(pid, online)), now, pid)
  {
    assert ProcessOk(h, h.procs[pid]);
  }

  /** Every other step leaves its process without an `expired` write. */
  lemma StartDue(h: Hub, now: int, move: HubStep, pid: ProcessId)
    requires Enabled(h, now, move) && Actor(move) == Some(pid) && !move.Decide? && (OfRequest(move) || OfRunStart(move))
    ensures WriteDue(Apply(h, now, move), now, pid)
  {
  }

  lemma RestDue(h: Hub, now: int, move: HubStep, pid: ProcessId)
    requires Enabled(h, now, move) && Actor(move) == Some(pid) && !move.ReadStatus? && !OfRequest(move) && !OfRunStart(move)
    ensures WriteDue(Apply(h, now, move), now, pid)
  {
  }

  lemma StepWriteDue(h: Hub, now: int, move: HubStep, pid: ProcessId)
    requires ProcessesOk(h) && Enabled(h, now, move) && Grows(h, Apply(h, now, move)) && WriteDue(h, now, pid)
    ensures WriteDue(Apply(h, now, move), now, pid)
  {
    if Actor(move) != Some(pid) {
      OthersStay(h, now, move, pid);
      if WillExpire(h, pid) {
        var id := h.procs[pid].pc.write.commandId;
        assert RowGrows(h.rows[id], Apply(h, now, move).rows[id]);
      }
    } else if move.Decide? {
      DecideDue(h, now, pid, move.online);
    } else if OfRequest(move) || OfRunStart(move) {
      StartDue(h, now, move, pid);
    } else if !move.ReadStatus? {
      RestDue(h, now, move, pid);
    }
  }

  lemma AckDue(w: World, ack: Ack)
    requires WorldInv(w) && AllDue(w) && Reported(w.edge, ack) && ack.status == Expired && ack.commandId in w.hub.rows
    ensures w.hub.rows[ack.commandId].expiresAt <= w.now
  {
    var r :| r in w.edge.reports && r.ack == ack;
    assert ReportOk(w.edge, r);
    assert FindingDue(w.edge, w.now, r.executionId);
    assert MessageOk(w.hub, w.edge.executions[r.executionId].message);
  }

  lemma RowsDue(h: Hub, now: int, step: HubStep, h': Hub, id: CommandId)
    requires Frame(h, now, step, h') && RowDue(h, now, id) && (step.SwapStatus? ==> WriteDue(h, now, step.pid))
    requires step.ReceiveResult? && step.ack.status == Expired && step.ack.commandId in h.rows ==>
      h.rows[step.ack.commandId].expiresAt <= now
    ensures RowDue(h', now, id)
  {
  }

  lemma StepRowDue(w: World, move: HubStep, id: CommandId)
    requires WorldInv(w) && AllDue(w) && WorldEnabled(w, HubMove(move))
    ensures RowDue(Apply(w.hub, w.now, move), w.now, id)
  {
    assert RowDue(w.hub, w.now, id);
    if move.SwapStatus? {
      assert WriteDue(w.hub, w.now, move.pid);
    }
    if move.ReceiveResult? && move.ack.status == Expired && move.ack.commandId in w.hub.rows {
      AckDue(w, move.ack);
    }
    StepFrame(w.hub, w.now, move);
    RowsDue(w.hub, w.now, move, Apply(w.hub, w.now, move), id);
  }

  // ---------------------------------------------------------------- the Connector

  lemma StepFindingDue(g: Edge, now: int, act: EdgeStep, eid: ExecutionId)
    requires EdgeEnabled(g, now, act) && FindingDue(g, now, eid)
    ensures FindingDue(EdgeApply(g, now, act), now, eid)
  {
  }

  // ---------------------------------------------------------------- runs

  lemma StepKeepsDue(w: World, step: Step)
    requires WorldInv(w) && AllDue(w) && WorldEnabled(w, step)
    ensures AllDue(WorldApply(w, step))
  {
    var w' := WorldApply(w, step);
    match step
    case Tick(later) => TickKeepsDue(w, later);
    case HubMove(move) =>
      StepKeepsHubInv(w.hub, w.now, move);
      forall id ensures RowDue(w'.hub, w'.now, id) {
        StepRowDue(w, move, id);
      }
      forall pid ensures WriteDue(w'.hub, w'.now, pid) {
        StepWriteDue(w.hub, w.now, move, pid);
      }
    case EdgeMove(act) =>
      forall eid ensures FindingDue(w'.edge, w'.now, eid) {
        StepFindingDue(w.edge, w.now, act, eid);
      }
  }

  lemma TickKeepsDue(w: World, later: int)
    requires AllDue(w) && w.now <= later
    ensures AllDue(w.(now := later))
  {
    forall id ensures RowDue(w.hub, later, id) {
      assert RowDue(w.hub, w.now, id);
    }
    forall pid ensures WriteDue(w.hub, later, pid) {
      assert WriteDue(w.hub, w.now, pid);
    }
    forall eid ensures FindingDue(w.edge, later, eid) {
      assert FindingDue(w.edge, w.now, eid);
    }
  }

  lemma {:induction false} RunKeepsDue(r: Run, i: nat)
    requires ValidRun(r) && i < |r.states|
    ensures AllDue(r.states[i])
  {
    if i > 0 {
      RunKeepsDue(r, i - 1);
      RunKeepsInv(r, i - 1);
      assert StepsAt(r, i - 1);
      StepKeepsDue(r.states[i - 1], r.steps[i - 1]);
    }
  }

  /** Whoever wrote it, and however long ago the writer had looked at the row: a command is `expired`
      only from its expiry on. */
  lemma ExpiredOnlyWhenDue(r: Run, i: nat, id: CommandId)
    requires ValidRun(r) && i < |r.states| && id in r.states[i].hub.rows
    requires r.states[i].hub.rows[id].status == Expired
    ensures r.states[i].hub.rows[id].expiresAt <= r.states[i].now
  {
    RunKeepsDue(r, i);
    assert RowDue(r.states[i].hub, r.states[i].now, id);
  }
}
