/** What every Connector-side step keeps: the deduplication window, the soundness of a reported
    success, and one effect per idempotency key and Runtime.

    The invariant has four parts. An execution that got a reply got it from a Runtime its host has run,
    had passed the expiry check, and its finding fits the reply; a report is the finding of its execution. The in-flight table,
    the running executions and the pending timers of a Connector describe one another, and whatever has
    neither entry nor timer settled a full window ago: that is why two executions of one command in one
    process lie apart. The reference Runtime's stored replies and its list of effects agree. Each part is
    kept by lemmas on one execution, entry, timer or slot, split by the kind of step. */
module EdgeInvariants {
  import opened CommandPolicy
  import opened CommandTable
  import opened HubMachine
  import opened EdgeMachine

  // ---------------------------------------------------------------- the clauses

  /** A result is the Runtime's answer and fits the status, a success has one, and a command that
      reached the Runtime had passed the expiry check. */
  predicate ExecutionOk(g: Edge, now: int, e: Execution) {
    && e.connectorId in g.connectors
    && g.connectors[e.connectorId].installationId == e.message.installationId
    && e.startedAt <= e.settledAt <= now
    && (e.reply.Some? ==> e.startedAt < e.message.expiresAt)
    && (e.reply.Some? <==> e.answeredBy.Some?)
    && (e.answeredBy.Some? ==> (g.connectors[e.connectorId].host, e.answeredBy.value) in g.ran)
    && (e.finding.Some? && e.finding.value.status == Succeeded ==> e.finding.value.result.Some?)
    && (e.finding.Some? && e.finding.value.result.Some? ==>
          e.finding.value.result == e.reply && e.reply.value.Answer?
          && e.finding.value.status == if e.reply.value.accepted then Succeeded else Rejected)
  }

  ghost predicate ExecutionsOk(g: Edge, now: int) {
    forall eid :: eid in g.executions ==> ExecutionOk(g, now, g.executions[eid])
  }

  ghost predicate RunningRan(g: Edge) {
    forall host :: host in g.running ==> (host, g.running[host]) in g.ran
  }

  predicate ReportOk(g: Edge, r: Report) {
    && r.executionId in g.executions
    && var e := g.executions[r.executionId];
       e.finding.Some? && e.connectorId in g.connectors
       && r == ReportOf(r.executionId, g.connectors[e.connectorId], e.message.commandId, e.finding.value)
  }

  ghost predicate ReportsOk(g: Edge) {
    forall r :: r in g.reports ==> ReportOk(g, r)
  }

  predicate Runs(g: Edge, eid: ExecutionId, cid: ConnectorId, id: CommandId) {
    eid in g.executions && g.executions[eid].connectorId == cid && g.executions[eid].message.commandId == id
  }

  predicate Running(g: Edge, eid: ExecutionId) {
    eid in g.executions && g.executions[eid].finding.None?
  }

  predicate Pending(g: Edge, cid: ConnectorId, eid: ExecutionId) {
    cid in g.connectors && eid in g.connectors[cid].timers
  }

  predicate Entry(g: Edge, cid: ConnectorId, id: CommandId, eid: ExecutionId) {
    cid in g.connectors && id in g.connectors[cid].inFlight && g.connectors[cid].inFlight[id] == eid
  }

  /** An entry stands for an execution of its command that runs or waits for its timer. */
  ghost predicate EntriesOk(g: Edge) {
    forall cid, id, eid :: Entry(g, cid, id, eid) ==>
      Runs(g, eid, cid, id) && (Running(g, eid) || Pending(g, cid, eid))
  }

  /** A running execution has the entry of its command. */
  ghost predicate RunningOk(g: Edge) {
    forall eid :: Running(g, eid) ==>
      Entry(g, g.executions[eid].connectorId, g.executions[eid].message.commandId, eid)
  }

  /** A pending timer belongs to a settled execution that still has the entry. */
  ghost predicate TimerOk(g: Edge, cid: ConnectorId, eid: ExecutionId)
    requires Pending(g, cid, eid)
  {
    && eid in g.executions && !Running(g, eid)
    && g.connectors[cid].timers[eid] == Timer(g.executions[eid].message.commandId, g.executions[eid].settledAt + DEDUP_MS)
    && Runs(g, eid, cid, g.executions[eid].message.commandId)
    && Entry(g, cid, g.executions[eid].message.commandId, eid)
  }

  ghost predicate TimersOk(g: Edge) {
    forall cid, eid :: Pending(g, cid, eid) ==> TimerOk(g, cid, eid)
  }

  predicate Retired(g: Edge, eid: ExecutionId) {
    && eid in g.executions && !Running(g, eid)
    && !Pending(g, g.executions[eid].connectorId, eid)
  }

  /** An execution with neither entry nor timer settled a full window ago. */
  ghost predicate RetiredOk(g: Edge, now: int) {
    forall eid :: Retired(g, eid) ==> g.executions[eid].settledAt + DEDUP_MS <= now
  }

  predicate Before(e: Execution, f: Execution) {
    e.finding.Some? && e.settledAt + DEDUP_MS <= f.startedAt
  }

  predicate SameWork(e: Execution, f: Execution) {
    e.connectorId == f.connectorId && e.message.commandId == f.message.commandId
  }

  /** Executions of one command in one process keep a full window between them. */
  ghost predicate Spaced(g: Edge) {
    forall i, j :: i in g.executions && j in g.executions && i != j && SameWork(g.executions[i], g.executions[j]) ==>
      Before(g.executions[i], g.executions[j]) || Before(g.executions[j], g.executions[i])
  }

  /** The Runtime took the command. */
  predicate Took(e: Execution) {
    e.reply.Some? && e.reply.value.Answer? && e.reply.value.accepted
  }

  predicate EffectOk(g: Edge, x: Effect) {
    && x.executionId in g.executions && Took(g.executions[x.executionId])
    && g.executions[x.executionId].answeredBy == Some(x.runtime)
    && PayloadKey(g.executions[x.executionId].message.payload) == Some(x.key)
    && (x.runtime, x.key) in g.replies
  }

  ghost predicate HasEffect(g: Edge, runtime: Runtime, key: string) {
    exists i :: 0 <= i < |g.effects| && g.effects[i].runtime == runtime && g.effects[i].key == key
  }

  predicate AcceptedOk(g: Edge, e: Execution) {
    Took(e) ==>
      e.answeredBy.Some? && PayloadKey(e.message.payload).Some? && (e.answeredBy.value, PayloadKey(e.message.payload).value) in g.replies
  }

  ghost predicate EffectsOk(g: Edge) {
    && (forall i :: 0 <= i < |g.effects| ==> EffectOk(g, g.effects[i]))
    && (forall i, j :: 0 <= i < j < |g.effects| ==>
          g.effects[i].runtime != g.effects[j].runtime || g.effects[i].key != g.effects[j].key)
    && (forall slot :: slot in g.replies ==> HasEffect(g, slot.0, slot.1) && g.replies[slot].Answer? && g.replies[slot].accepted)
    && (forall eid :: eid in g.executions ==> AcceptedOk(g, g.executions[eid]))
  }

  ghost predicate DedupOk(g: Edge, now: int) {
    EntriesOk(g) && RunningOk(g) && TimersOk(g) && RetiredOk(g, now) && Spaced(g)
  }

  ghost predicate EdgeInv(g: Edge, now: int) {
    RunningRan(g) && ExecutionsOk(g, now) && ReportsOk(g) && DedupOk(g, now) && EffectsOk(g)
  }

  // ---------------------------------------------------------------- growth

  predicate ExecutionGrows(e: Execution, f: Execution) {
    && f.connectorId == e.connectorId && f.message == e.message && f.startedAt == e.startedAt
    && (e.reply.Some? ==> f.reply == e.reply && f.answeredBy == e.answeredBy)
    && (e.finding.Some? ==> f.finding == e.finding && f.settledAt == e.settledAt)
  }

  predicate SameConnector(k: Connector, l: Connector) {
    k.installationId == l.installationId && k.runtimeId == l.runtimeId && k.host == l.host
  }

  ghost predicate EdgeGrows(g: Edge, g': Edge) {
    && (forall cid :: cid in g.connectors ==> cid in g'.connectors && SameConnector(g.connectors[cid], g'.connectors[cid]))
    && (forall eid :: eid in g.executions ==> eid in g'.executions && ExecutionGrows(g.executions[eid], g'.executions[eid]))
    && g.reports <= g'.reports && g.ran <= g'.ran
    && (forall slot :: slot in g.replies ==> slot in g'.replies && g'.replies[slot] == g.replies[slot])
    && g.effects <= g'.effects
  }

  lemma ExecutionsGrow(g: Edge, now: int, step: EdgeStep, eid: ExecutionId)
    requires EdgeEnabled(g, now, step) && eid in g.executions
    ensures eid in EdgeApply(g, now, step).executions
    ensures ExecutionGrows(g.executions[eid], EdgeApply(g, now, step).executions[eid])
  {
  }

  lemma ConnectorsGrow(g: Edge, now: int, step: EdgeStep, cid: ConnectorId)
    requires EdgeEnabled(g, now, step) && cid in g.connectors
    ensures cid in EdgeApply(g, now, step).connectors
    ensures SameConnector(g.connectors[cid], EdgeApply(g, now, step).connectors[cid])
  {
  }

  lemma LogsGrow(g: Edge, now: int, step: EdgeStep)
    requires EdgeEnabled(g, now, step)
    ensures g.reports <= EdgeApply(g, now, step).reports && g.ran <= EdgeApply(g, now, step).ran && g.effects <= EdgeApply(g, now, step).effects
    ensures forall slot | slot in g.replies ::
      slot in EdgeApply(g, now, step).replies && EdgeApply(g, now, step).replies[slot] == g.replies[slot]
  {
  }

  lemma EdgeStepGrows(g: Edge, now: int, step: EdgeStep)
    requires EdgeEnabled(g, now, step)
    ensures EdgeGrows(g, EdgeApply(g, now, step))
  {
    var g' := EdgeApply(g, now, step);
    forall cid | cid in g.connectors
      ensures cid in g'.connectors && SameConnector(g.connectors[cid], g'.connectors[cid])
    {
      ConnectorsGrow(g, now, step, cid);
    }
    forall eid | eid in g.executions
      ensures eid in g'.executions && ExecutionGrows(g.executions[eid], g'.executions[eid])
    {
      ExecutionsGrow(g, now, step, eid);
    }
    LogsGrow(g, now, step);
  }

  lemma EdgeGrowsReflexive(g: Edge)
    ensures EdgeGrows(g, g)
  {
  }

  lemma EdgeGrowsTransitive(a: Edge, b: Edge, c: Edge)
    requires EdgeGrows(a, b) && EdgeGrows(b, c)
    ensures EdgeGrows(a, c)
  {
    forall eid | eid in a.executions
      ensures eid in c.executions && ExecutionGrows(a.executions[eid], c.executions[eid])
    {
      assert ExecutionGrows(a.executions[eid], b.executions[eid]);
      assert ExecutionGrows(b.executions[eid], c.executions[eid]);
    }
  }

  // ---------------------------------------------------------------- executions and reports

  lemma ExecutionStays(g: Edge, g': Edge, now: int, eid: ExecutionId)
    requires EdgeGrows(g, g') && eid in g.executions && g'.executions[eid] == g.executions[eid]
    requires ExecutionOk(g, now, g.executions[eid])
    ensures ExecutionOk(g', now, g'.executions[eid])
  {
  }

  lemma DeliveredOk(g: Edge, now: int, step: EdgeStep, eid: ExecutionId)
    requires EdgeEnabled(g, now, step) && eid in EdgeApply(g, now, step).executions && eid !in g.executions
    ensures ExecutionOk(EdgeApply(g, now, step), now, EdgeApply(g, now, step).executions[eid])
  {
  }

  lemma HandledOk(g: Edge, now: int, step: EdgeStep)
    requires RunningRan(g) && EdgeEnabled(g, now, step) && step.HandleAtRuntime?
    requires ExecutionOk(g, now, g.executions[step.eid])
    ensures ExecutionOk(EdgeApply(g, now, step), now, EdgeApply(g, now, step).executions[step.eid])
  {
  }

  lemma SettledOk(g: Edge, now: int, step: EdgeStep)
    requires EdgeEnabled(g, now, step) && step.SettleExecution?
    requires ExecutionOk(g, now, g.executions[step.eid])
    ensures ExecutionOk(EdgeApply(g, now, step), now, EdgeApply(g, now, step).executions[step.eid])
  {
  }

  lemma KeepExecution(g: Edge, now: int, step: EdgeStep, eid: ExecutionId)
    requires RunningRan(g) && EdgeEnabled(g, now, step) && eid in EdgeApply(g, now, step).executions
    requires EdgeGrows(g, EdgeApply(g, now, step))
    requires eid in g.executions ==> ExecutionOk(g, now, g.executions[eid])
    ensures ExecutionOk(EdgeApply(g, now, step), now, EdgeApply(g, now, step).executions[eid])
  {
    if eid !in g.executions {
      DeliveredOk(g, now, step, eid);
    } else if step.HandleAtRuntime? && step.eid == eid {
      HandledOk(g, now, step);
    } else if step.SettleExecution? && step.eid == eid {
      SettledOk(g, now, step);
    } else {
      ExecutionStays(g, EdgeApply(g, now, step), now, eid);
    }
  }

  lemma KeepExecutions(g: Edge, now: int, step: EdgeStep)
    requires RunningRan(g) && ExecutionsOk(g, now) && EdgeEnabled(g, now, step) && EdgeGrows(g, EdgeApply(g, now, step))
    ensures ExecutionsOk(EdgeApply(g, now, step), now) && RunningRan(EdgeApply(g, now, step))
  {
    var g' := EdgeApply(g, now, step);
    forall eid | eid in g'.executions
      ensures ExecutionOk(g', now, g'.executions[eid])
    {
      KeepExecution(g, now, step, eid);
    }
  }

  lemma KeepReports(g: Edge, now: int, step: EdgeStep)
    requires ReportsOk(g) && EntriesOk(g) && EdgeEnabled(g, now, step) && EdgeGrows(g, EdgeApply(g, now, step))
    ensures ReportsOk(EdgeApply(g, now, step))
  {
    var g' := EdgeApply(g, now, step);
    forall r | r in g'.reports
      ensures ReportOk(g', r)
    {
      if r in g.reports {
        assert ReportOk(g, r);
      } else if step.DeliverCommand? {
        var k := g.connectors[step.cid];
        if step.message.commandId in k.inFlight {
          assert Entry(g, step.cid, step.message.commandId, k.inFlight[step.message.commandId]);
        }
      }
    }
  }

  // ---------------------------------------------------------------- the deduplication window

  lemma StepEntries(g: Edge, now: int, step: EdgeStep)
    requires EntriesOk(g) && TimersOk(g) && EdgeEnabled(g, now, step)
    ensures EntriesOk(EdgeApply(g, now, step))
  {
    var g' := EdgeApply(g, now, step);
    forall cid, id, eid | Entry(g', cid, id, eid)
      ensures Runs(g', eid, cid, id) && (Running(g', eid) || Pending(g', cid, eid))
    {
      StepEntry(g, now, step, cid, id, eid);
    }
  }

  lemma FireEntry(g: Edge, now: int, step: EdgeStep, cid: ConnectorId, id: CommandId, eid: ExecutionId)
    requires EntriesOk(g) && TimersOk(g) && EdgeEnabled(g, now, step) && step.FireTimer?
    requires Entry(EdgeApply(g, now, step), cid, id, eid)
    ensures var g' := EdgeApply(g, now, step);
            Runs(g', eid, cid, id) && (Running(g', eid) || Pending(g', cid, eid))
  {
    assert Entry(g, cid, id, eid) && Runs(g, eid, cid, id) && Pending(g, step.cid, step.eid);
    if step.cid == cid && step.eid == eid {
      assert false;
    }
  }

  lemma StepEntry(g: Edge, now: int, step: EdgeStep, cid: ConnectorId, id: CommandId, eid: ExecutionId)
    requires EntriesOk(g) && TimersOk(g) && EdgeEnabled(g, now, step) && Entry(EdgeApply(g, now, step), cid, id, eid)
    ensures var g' := EdgeApply(g, now, step);
            Runs(g', eid, cid, id) && (Running(g', eid) || Pending(g', cid, eid))
  {
    if step.FireTimer? {
      FireEntry(g, now, step, cid, id, eid);
    } else if Entry(g, cid, id, eid) {
      OldEntry(g, now, step, cid, id, eid);
    }
  }

  lemma OldEntry(g: Edge, now: int, step: EdgeStep, cid: ConnectorId, id: CommandId, eid: ExecutionId)
    requires EdgeEnabled(g, now, step) && !step.FireTimer?
    requires Runs(g, eid, cid, id) && cid in g.connectors && (Running(g, eid) || Pending(g, cid, eid))
    ensures var g' := EdgeApply(g, now, step);
            Runs(g', eid, cid, id) && (Running(g', eid) || Pending(g', cid, eid))
  {
  }

  lemma StepRunner(g: Edge, now: int, step: EdgeStep, eid: ExecutionId)
    requires RunningOk(g) && EdgeEnabled(g, now, step) && !step.FireTimer? && Running(EdgeApply(g, now, step), eid)
    ensures var g' := EdgeApply(g, now, step);
      Entry(g', g'.executions[eid].connectorId, g'.executions[eid].message.commandId, eid)
  {
    if Running(g, eid) {
      assert Entry(g, g.executions[eid].connectorId, g.executions[eid].message.commandId, eid);
    }
  }

  lemma FireRunner(g: Edge, now: int, step: EdgeStep, eid: ExecutionId)
    requires RunningOk(g) && TimersOk(g) && EdgeEnabled(g, now, step) && step.FireTimer?
    requires Running(EdgeApply(g, now, step), eid)
    ensures var g' := EdgeApply(g, now, step);
      Entry(g', g'.executions[eid].connectorId, g'.executions[eid].message.commandId, eid)
  {
    assert Running(g, eid);
    assert Entry(g, g.executions[eid].connectorId, g.executions[eid].message.commandId, eid);
    assert Pending(g, step.cid, step.eid);
  }

  lemma StepRunning(g: Edge, now: int, step: EdgeStep)
    requires RunningOk(g) && TimersOk(g) && EdgeEnabled(g, now, step)
    ensures RunningOk(EdgeApply(g, now, step))
  {
    var g' := EdgeApply(g, now, step);
    forall eid | Running(g', eid)
      ensures Entry(g', g'.executions[eid].connectorId, g'.executions[eid].message.commandId, eid)
    {
      if step.FireTimer? {
        FireRunner(g, now, step, eid);
      } else {
        StepRunner(g, now, step, eid);
      }
    }
  }

  lemma FiredTimer(g: Edge, now: int, step: EdgeStep, cid: ConnectorId, eid: ExecutionId)
    requires TimersOk(g) && EdgeEnabled(g, now, step) && step.FireTimer? && Pending(EdgeApply(g, now, step), cid, eid)
    ensures TimerOk(EdgeApply(g, now, step), cid, eid)
  {
    assert Pending(g, cid, eid) && TimerOk(g, cid, eid);
    assert Pending(g, step.cid, step.eid) && TimerOk(g, step.cid, step.eid);
  }

  lemma SettledTimer(g: Edge, now: int, step: EdgeStep, cid: ConnectorId, eid: ExecutionId)
    requires TimersOk(g) && RunningOk(g) && EdgeEnabled(g, now, step) && step.SettleExecution?
    requires Pending(EdgeApply(g, now, step), cid, eid)
    ensures TimerOk(EdgeApply(g, now, step), cid, eid)
  {
    assert Running(g, step.eid);
    if Pending(g, cid, eid) {
      assert TimerOk(g, cid, eid);
    }
  }

  lemma NewTimer(g: Edge, now: int, step: EdgeStep, cid: ConnectorId, eid: ExecutionId)
    requires EdgeEnabled(g, now, step) && !step.FireTimer? && !step.SettleExecution?
    requires !Pending(g, cid, eid) && Pending(EdgeApply(g, now, step), cid, eid)
    ensures TimerOk(EdgeApply(g, now, step), cid, eid)
  {
  }

  lemma OldTimer(g: Edge, now: int, step: EdgeStep, cid: ConnectorId, eid: ExecutionId)
    requires EdgeEnabled(g, now, step) && !step.FireTimer? && !step.SettleExecution?
    requires Pending(g, cid, eid) && TimerOk(g, cid, eid) && Pending(EdgeApply(g, now, step), cid, eid)
    ensures TimerOk(EdgeApply(g, now, step), cid, eid)
  {
  }

  lemma StepTimer(g: Edge, now: int, step: EdgeStep, cid: ConnectorId, eid: ExecutionId)
    requires TimersOk(g) && RunningOk(g) && EdgeEnabled(g, now, step) && Pending(EdgeApply(g, now, step), cid, eid)
    ensures TimerOk(EdgeApply(g, now, step), cid, eid)
  {
    if step.FireTimer? {
      FiredTimer(g, now, step, cid, eid);
    } else if step.SettleExecution? {
      SettledTimer(g, now, step, cid, eid);
    } else if Pending(g, cid, eid) {
      OldTimer(g, now, step, cid, eid);
    } else {
      NewTimer(g, now, step, cid, eid);
    }
  }

  lemma StepTimers(g: Edge, now: int, step: EdgeStep)
    requires TimersOk(g) && RunningOk(g) && EdgeEnabled(g, now, step)
    ensures TimersOk(EdgeApply(g, now, step))
  {
    forall cid, eid | Pending(EdgeApply(g, now, step), cid, eid)
      ensures TimerOk(EdgeApply(g, now, step), cid, eid)
    {
      StepTimer(g, now, step, cid, eid);
    }
  }

  lemma StepRetired(g: Edge, now: int, step: EdgeStep)
    requires RetiredOk(g, now) && TimersOk(g) && EdgeEnabled(g, now, step)
    ensures RetiredOk(EdgeApply(g, now, step), now)
  {
    var g' := EdgeApply(g, now, step);
    forall eid | Retired(g', eid)
      ensures g'.executions[eid].settledAt + DEDUP_MS <= now
    {
      if !Retired(g, eid) && step.FireTimer? {
        assert Pending(g, step.cid, step.eid);
      }
    }
  }

  lemma StaySpaced(g: Edge, g': Edge, i: ExecutionId, j: ExecutionId)
    requires Spaced(g) && EdgeGrows(g, g') && i in g.executions && j in g.executions && i != j
    requires SameWork(g'.executions[i], g'.executions[j])
    ensures Before(g'.executions[i], g'.executions[j]) || Before(g'.executions[j], g'.executions[i])
  {
    assert ExecutionGrows(g.executions[i], g'.executions[i]);
    assert ExecutionGrows(g.executions[j], g'.executions[j]);
    assert SameWork(g.executions[i], g.executions[j]);
  }

  lemma OneFresh(g: Edge, now: int, step: EdgeStep, i: ExecutionId)
    requires EdgeEnabled(g, now, step) && i in EdgeApply(g, now, step).executions && i !in g.executions
    ensures step.DeliverCommand? && step.eid == i && step.message.commandId !in g.connectors[step.cid].inFlight
    ensures EdgeApply(g, now, step).executions[i].connectorId == step.cid
    ensures EdgeApply(g, now, step).executions[i].message == step.message
    ensures EdgeApply(g, now, step).executions[i].startedAt == now
  {
  }

  /** A new execution starts only when every earlier one of its command has retired. */
  lemma StepSpaced(g: Edge, now: int, step: EdgeStep)
    requires DedupOk(g, now) && EdgeEnabled(g, now, step) && EdgeGrows(g, EdgeApply(g, now, step))
    ensures Spaced(EdgeApply(g, now, step))
  {
    var g' := EdgeApply(g, now, step);
    forall i, j | i in g'.executions && j in g'.executions && i != j && SameWork(g'.executions[i], g'.executions[j])
      ensures Before(g'.executions[i], g'.executions[j]) || Before(g'.executions[j], g'.executions[i])
    {
      if i !in g.executions {
        OneFresh(g, now, step, i);
      }
      if j !in g.executions {
        OneFresh(g, now, step, j);
      }
      if i in g.executions && j in g.executions {
        StaySpaced(g, g', i, j);
      } else if i in g.executions {
        FreshFollows(g, now, step, i, j);
      } else {
        FreshFollows(g, now, step, j, i);
      }
    }
  }

  lemma FreshFollows(g: Edge, now: int, step: EdgeStep, early: ExecutionId, late: ExecutionId)
    requires DedupOk(g, now) && EdgeEnabled(g, now, step) && EdgeGrows(g, EdgeApply(g, now, step))
    requires early in g.executions && late !in g.executions && late in EdgeApply(g, now, step).executions
    requires SameWork(EdgeApply(g, now, step).executions[early], EdgeApply(g, now, step).executions[late])
    ensures Before(EdgeApply(g, now, step).executions[early], EdgeApply(g, now, step).executions[late])
  {
    var e := g.executions[early];
    OneFresh(g, now, step, late);
    assert ExecutionGrows(e, EdgeApply(g, now, step).executions[early]);
    assert !Entry(g, e.connectorId, e.message.commandId, early);
    assert !Running(g, early);
    assert !Pending(g, e.connectorId, early);
    assert Retired(g, early);
  }

  // ---------------------------------------------------------------- effects

  lemma EffectGrows(g: Edge, g': Edge, x: Effect)
    requires EdgeGrows(g, g') && EffectOk(g, x)
    ensures EffectOk(g', x)
  {
    assert ExecutionGrows(g.executions[x.executionId], g'.executions[x.executionId]);
  }

  lemma HasEffectGrows(g: Edge, g': Edge, runtime: Runtime, key: string)
    requires g.effects <= g'.effects && HasEffect(g, runtime, key)
    ensures HasEffect(g', runtime, key)
  {
    var i :| 0 <= i < |g.effects| && g.effects[i].runtime == runtime && g.effects[i].key == key;
    assert g'.effects[i] == g.effects[i];
  }

  lemma EffectFrom(g: Edge, now: int, step: EdgeStep)
    requires EdgeEnabled(g, now, step) && EdgeApply(g, now, step).effects != g.effects
    ensures |EdgeApply(g, now, step).effects| == |g.effects| + 1
    ensures EffectOk(EdgeApply(g, now, step), EdgeApply(g, now, step).effects[|g.effects|])
    ensures var x := EdgeApply(g, now, step).effects[|g.effects|]; (x.runtime, x.key) !in g.replies
  {
  }

  lemma ReplyFrom(g: Edge, now: int, step: EdgeStep, slot: (Runtime, string))
    requires EdgeEnabled(g, now, step) && slot in EdgeApply(g, now, step).replies && slot !in g.replies
    ensures HasEffect(EdgeApply(g, now, step), slot.0, slot.1)
    ensures EdgeApply(g, now, step).replies[slot].Answer? && EdgeApply(g, now, step).replies[slot].accepted
  {
    var g' := EdgeApply(g, now, step);
    assert g'.effects[|g.effects|].runtime == slot.0 && g'.effects[|g.effects|].key == slot.1;
  }

  lemma FirstReply(g: Edge, now: int, step: EdgeStep, eid: ExecutionId)
    requires EdgeEnabled(g, now, step) && eid in EdgeApply(g, now, step).executions
    requires eid in g.executions ==> g.executions[eid].reply.None?
    ensures AcceptedOk(EdgeApply(g, now, step), EdgeApply(g, now, step).executions[eid])
  {
  }

  lemma AcceptedFrom(g: Edge, now: int, step: EdgeStep, eid: ExecutionId)
    requires EdgeEnabled(g, now, step) && EdgeGrows(g, EdgeApply(g, now, step)) && eid in EdgeApply(g, now, step).executions
    requires eid in g.executions ==> AcceptedOk(g, g.executions[eid])
    ensures AcceptedOk(EdgeApply(g, now, step), EdgeApply(g, now, step).executions[eid])
  {
    if eid in g.executions && g.executions[eid].reply.Some? {
      var e := g.executions[eid];
      assert ExecutionGrows(e, EdgeApply(g, now, step).executions[eid]);
      if e.connectorId in g.connectors {
        ConnectorsGrow(g, now, step, e.connectorId);
      }
    } else {
      FirstReply(g, now, step, eid);
    }
  }

  lemma KeepEffectList(g: Edge, now: int, step: EdgeStep, i: nat)
    requires EffectsOk(g) && EdgeEnabled(g, now, step) && EdgeGrows(g, EdgeApply(g, now, step))
    requires i < |EdgeApply(g, now, step).effects|
    ensures EffectOk(EdgeApply(g, now, step), EdgeApply(g, now, step).effects[i])
    ensures i == |g.effects| ==> (EdgeApply(g, now, step).effects[i].runtime, EdgeApply(g, now, step).effects[i].key) !in g.replies
    ensures i <= |g.effects|
  {
    var g' := EdgeApply(g, now, step);
    if g'.effects != g.effects {
      EffectFrom(g, now, step);
    }
    if i < |g.effects| {
      EffectGrows(g, g', g.effects[i]);
    }
  }

  lemma KeepReplies(g: Edge, now: int, step: EdgeStep, slot: (Runtime, string))
    requires EffectsOk(g) && EdgeEnabled(g, now, step) && EdgeGrows(g, EdgeApply(g, now, step))
    requires slot in EdgeApply(g, now, step).replies
    ensures HasEffect(EdgeApply(g, now, step), slot.0, slot.1)
    ensures EdgeApply(g, now, step).replies[slot].Answer? && EdgeApply(g, now, step).replies[slot].accepted
  {
    if slot in g.replies {
      HasEffectGrows(g, EdgeApply(g, now, step), slot.0, slot.1);
    } else {
      ReplyFrom(g, now, step, slot);
    }
  }

  lemma KeepOneEffect(g: Edge, now: int, step: EdgeStep, i: nat, j: nat)
    requires EffectsOk(g) && EdgeEnabled(g, now, step) && EdgeGrows(g, EdgeApply(g, now, step))
    requires i < j < |EdgeApply(g, now, step).effects|
    ensures var g' := EdgeApply(g, now, step);
            g'.effects[i].runtime != g'.effects[j].runtime || g'.effects[i].key != g'.effects[j].key
  {
    KeepEffectList(g, now, step, j);
    assert EffectOk(g, g.effects[i]);
  }

  lemma KeepEffects(g: Edge, now: int, step: EdgeStep)
    requires EffectsOk(g) && EdgeEnabled(g, now, step) && EdgeGrows(g, EdgeApply(g, now, step))
    ensures EffectsOk(EdgeApply(g, now, step))
  {
    var g' := EdgeApply(g, now, step);
    forall i | 0 <= i < |g'.effects|
      ensures EffectOk(g', g'.effects[i])
    {
      KeepEffectList(g, now, step, i);
    }
    forall i, j | 0 <= i < j < |g'.effects|
      ensures g'.effects[i].runtime != g'.effects[j].runtime || g'.effects[i].key != g'.effects[j].key
    {
      KeepOneEffect(g, now, step, i, j);
    }
    forall slot | slot in g'.replies
      ensures HasEffect(g', slot.0, slot.1) && g'.replies[slot].Answer? && g'.replies[slot].accepted
    {
      KeepReplies(g, now, step, slot);
    }
    forall eid | eid in g'.executions
      ensures AcceptedOk(g', g'.executions[eid])
    {
      AcceptedFrom(g, now, step, eid);
    }
  }

  // ---------------------------------------------------------------- together

  lemma InitialEdgeInv(now: int)
    ensures EdgeInv(INITIAL_EDGE, now)
  {
  }

  lemma StepKeepsEdgeInv(g: Edge, now: int, step: EdgeStep)
    requires EdgeInv(g, now) && EdgeEnabled(g, now, step)
    ensures EdgeInv(EdgeApply(g, now, step), now) && EdgeGrows(g, EdgeApply(g, now, step))
  {
    EdgeStepGrows(g, now, step);
    KeepExecutions(g, now, step);
    KeepReports(g, now, step);
    StepEntries(g, now, step);
    StepRunning(g, now, step);
    StepTimers(g, now, step);
    StepRetired(g, now, step);
    StepSpaced(g, now, step);
    KeepEffects(g, now, step);
  }

  lemma TimeKeepsEdgeInv(g: Edge, now: int, later: int)
    requires EdgeInv(g, now) && now <= later
    ensures EdgeInv(g, later)
  {
  }
}
