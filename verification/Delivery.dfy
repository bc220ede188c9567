/** The whole delivery protocol: Hub and Connectors joined by the published messages and by the
    results handed to sockets. Both are sets that only grow and from which any element may be taken
    any number of times or never, so every duplication, loss and reordering is a run. */
module Delivery {
  import opened Canonical
  import opened CommandPolicy
  import opened CommandTable
  import opened EdgeInvariants
  import opened EdgeMachine
  import opened HubInvariants
  import opened HubMachine

  datatype World = World(now: int, hub: Hub, edge: Edge)

  datatype Step = Tick(later: int) | HubMove(move: HubStep) | EdgeMove(act: EdgeStep)

  ghost predicate Reported(g: Edge, ack: Ack) {
    exists r :: r in g.reports && r.ack == ack
  }

  ghost predicate WorldEnabled(w: World, step: Step) {
    match step
    case Tick(later) => w.now <= later
    case HubMove(move) =>
      Enabled(w.hub, w.now, move) && (move.ReceiveResult? ==> Reported(w.edge, move.ack))
    case EdgeMove(act) =>
      EdgeEnabled(w.edge, w.now, act) && (act.DeliverCommand? ==> act.message in w.hub.messages)
  }

  ghost function WorldApply(w: World, step: Step): World
    requires WorldEnabled(w, step)
  {
    match step
    case Tick(later) => w.(now := later)
    case HubMove(move) => w.(hub := Apply(w.hub, w.now, move))
    case EdgeMove(act) => w.(edge := EdgeApply(w.edge, w.now, act))
  }

  datatype Run = Run(states: seq<World>, steps: seq<Step>)

  ghost predicate ValidRun(r: Run) {
    && |r.states| == |r.steps| + 1
    && TotalPreorder(r.states[0].hub.collation) && r.states[0].hub == InitialHub(r.states[0].hub.collation)
    && r.states[0].edge == INITIAL_EDGE
    && forall i :: 0 <= i < |r.steps| ==> StepsAt(r, i)
  }

  ghost predicate StepsAt(r: Run, i: nat)
    requires |r.states| == |r.steps| + 1 && i < |r.steps|
  {
    WorldEnabled(r.states[i], r.steps[i]) && r.states[i + 1] == WorldApply(r.states[i], r.steps[i])
  }

  // ---------------------------------------------------------------- the invariant

  ghost predicate ResultsReported(h: Hub, g: Edge) {
    forall ack :: ack in h.received ==> Reported(g, ack)
  }

  ghost predicate CommandsPublished(h: Hub, g: Edge) {
    forall eid :: eid in g.executions ==> g.executions[eid].message in h.messages
  }

  ghost predicate WorldInv(w: World) {
    && HubInv(w.hub)
    && EdgeInv(w.edge, w.now)
    && ResultsReported(w.hub, w.edge)
    && CommandsPublished(w.hub, w.edge)
  }

  ghost predicate WorldGrows(w: World, w': World) {
    Grows(w.hub, w'.hub) && EdgeGrows(w.edge, w'.edge) && w.now <= w'.now
  }

  lemma HubMoveJoins(w: World, move: HubStep)
    requires ResultsReported(w.hub, w.edge) && CommandsPublished(w.hub, w.edge) && WorldEnabled(w, HubMove(move))
    requires Grows(w.hub, Apply(w.hub, w.now, move))
    ensures ResultsReported(Apply(w.hub, w.now, move), w.edge) && CommandsPublished(Apply(w.hub, w.now, move), w.edge)
  {
    var h' := Apply(w.hub, w.now, move);
    forall ack | ack in h'.received
      ensures Reported(w.edge, ack)
    {
    }
  }

  lemma EdgeMoveJoins(w: World, act: EdgeStep)
    requires ResultsReported(w.hub, w.edge) && CommandsPublished(w.hub, w.edge) && WorldEnabled(w, EdgeMove(act))
    requires EdgeGrows(w.edge, EdgeApply(w.edge, w.now, act))
    ensures ResultsReported(w.hub, EdgeApply(w.edge, w.now, act))
    ensures CommandsPublished(w.hub, EdgeApply(w.edge, w.now, act))
  {
    var g' := EdgeApply(w.edge, w.now, act);
    forall ack | ack in w.hub.received
      ensures Reported(g', ack)
    {
    }
    forall eid | eid in g'.executions
      ensures g'.executions[eid].message in w.hub.messages
    {
      if eid in w.edge.executions {
        assert ExecutionGrows(w.edge.executions[eid], g'.executions[eid]);
      } else {
        OneFresh(w.edge, w.now, act, eid);
      }
    }
  }

  lemma StepKeepsInv(w: World, step: Step)
    requires WorldInv(w) && WorldEnabled(w, step)
    ensures WorldInv(WorldApply(w, step)) && WorldGrows(w, WorldApply(w, step))
  {
    GrowsReflexive(w.hub);
    EdgeGrowsReflexive(w.edge);
    match step
    case Tick(later) =>
      TimeKeepsEdgeInv(w.edge, w.now, later);
    case HubMove(move) =>
      StepKeepsHubInv(w.hub, w.now, move);
      HubMoveJoins(w, move);
    case EdgeMove(act) =>
      StepKeepsEdgeInv(w.edge, w.now, act);
      EdgeMoveJoins(w, act);
  }

  /** The invariant holds in every state of every run. */
  lemma {:induction false} RunKeepsInv(r: Run, i: nat)
    requires ValidRun(r) && i < |r.states|
    ensures WorldInv(r.states[i])
  {
    if i == 0 {
      InitialHubInv(r.states[0].hub.collation);
      InitialEdgeInv(r.states[0].now);
    } else {
      RunKeepsInv(r, i - 1);
      assert StepsAt(r, i - 1);
      StepKeepsInv(r.states[i - 1], r.steps[i - 1]);
    }
  }

  lemma WorldGrowsTransitive(a: World, b: World, c: World)
    requires WorldGrows(a, b) && WorldGrows(b, c)
    ensures WorldGrows(a, c)
  {
    GrowsTransitive(a.hub, b.hub, c.hub);
    EdgeGrowsTransitive(a.edge, b.edge, c.edge);
  }

  lemma StepGrows(r: Run, k: nat)
    requires ValidRun(r) && k < |r.steps|
    ensures WorldGrows(r.states[k], r.states[k + 1])
  {
    RunKeepsInv(r, k);
    assert StepsAt(r, k);
    StepKeepsInv(r.states[k], r.steps[k]);
  }

  /** Nothing a run has grown is ever taken back. */
  lemma {:induction false} RunGrows(r: Run, i: nat, j: nat)
    requires ValidRun(r) && i <= j < |r.states|
    ensures WorldGrows(r.states[i], r.states[j])
  {
    if i < j {
      RunGrows(r, i, j - 1);
      StepGrows(r, j - 1);
      WorldGrowsTransitive(r.states[i], r.states[j - 1], r.states[j]);
    }
  }

  // ---------------------------------------------------------------- statuses

  /** A terminal status stays, together with the stored result; the identity columns always stay. */
  lemma TerminalStatusAbsorbs(r: Run, i: nat, j: nat, id: CommandId)
    requires ValidRun(r) && i <= j < |r.states| && id in r.states[i].hub.rows
    ensures id in r.states[j].hub.rows
    ensures SameIdentity(r.states[i].hub.rows[id], r.states[j].hub.rows[id])
    ensures Terminal(r.states[i].hub.rows[id].status) ==>
      && r.states[j].hub.rows[id].status == r.states[i].hub.rows[id].status
      && r.states[j].hub.rows[id].result == r.states[i].hub.rows[id].result
  {
    RunGrows(r, i, j);
    assert RowGrows(r.states[i].hub.rows[id], r.states[j].hub.rows[id]);
  }

  /** An execution of the row's own command, on a Connector paired with the row's installation and
      Runtime, that found it unexpired and got the stored result from a Runtime that the Connector's
      host has run. Whether that one is the row's own Runtime is another question. */
  predicate Witness(w: World, id: CommandId, eid: ExecutionId)
    requires id in w.hub.rows
  {
    && eid in w.edge.executions
    && var e, row := w.edge.executions[eid], w.hub.rows[id];
       && e.message.commandId == id && e.connectorId in w.edge.connectors
       && w.edge.connectors[e.connectorId].installationId == row.request.installationId
       && w.edge.connectors[e.connectorId].runtimeId == row.request.runtimeId
       && e.message.payload == row.request.payload
       && e.startedAt < row.expiresAt
       && e.answeredBy.Some? && (w.edge.connectors[e.connectorId].host, e.answeredBy.value) in w.edge.ran
       && e.reply.Some? && e.reply.value.Answer? && row.result == e.reply
       && row.status == if e.reply.value.accepted then Succeeded else Rejected
  }

  lemma AckWitness(w: World, id: CommandId, ack: Ack)
    requires WorldInv(w) && id in w.hub.rows && (w.hub.rows[id].status == Succeeded || w.hub.rows[id].result.Some?)
    requires ack in w.hub.received && Supports(ack, id, w.hub.rows[id])
    ensures exists eid :: Witness(w, id, eid)
  {
    assert Reported(w.edge, ack);
    var r :| r in w.edge.reports && r.ack == ack;
    assert ReportOk(w.edge, r);
    var e := w.edge.executions[r.executionId];
    assert ExecutionOk(w.edge, w.now, e);
    assert MessageOk(w.hub, e.message);
    assert Witness(w, id, r.executionId);
  }

  /** End to end: a command that is recorded as succeeded, and any command with a stored result, was
      run by a Connector paired with the row's own installation and Runtime before it expired; the result
      is the answer of the Runtime its host ran then, and the status says whether that accepted it. */
  lemma ResultIsTheAnswer(r: Run, i: nat, id: CommandId)
    requires ValidRun(r) && i < |r.states| && id in r.states[i].hub.rows
    requires r.states[i].hub.rows[id].status == Succeeded || r.states[i].hub.rows[id].result.Some?
    ensures exists eid :: Witness(r.states[i], id, eid)
  {
    var w := r.states[i];
    RunKeepsInv(r, i);
    assert RowOk(w.hub, id, w.hub.rows[id]);
    var ack :| ack in w.hub.received && Supports(ack, id, w.hub.rows[id]);
    AckWitness(w, id, ack);
  }

  /** In particular no command succeeds unless the Runtime behind such a Connector accepted it. */
  lemma SucceededMeansAccepted(r: Run, i: nat, id: CommandId)
    requires ValidRun(r) && i < |r.states| && id in r.states[i].hub.rows
    requires r.states[i].hub.rows[id].status == Succeeded
    ensures exists eid :: Witness(r.states[i], id, eid) && r.states[i].edge.executions[eid].reply.value.accepted
  {
    ResultIsTheAnswer(r, i, id);
  }

  /** `finishedAt` is set exactly on terminal rows, and a row that is not terminal has no result. */
  lemma FinishedIffTerminal(r: Run, i: nat, id: CommandId)
    requires ValidRun(r) && i < |r.states| && id in r.states[i].hub.rows
    ensures r.states[i].hub.rows[id].finishedAt.Some? <==> Terminal(r.states[i].hub.rows[id].status)
    ensures !Terminal(r.states[i].hub.rows[id].status) ==> r.states[i].hub.rows[id].result.None?
  {
    RunKeepsInv(r, i);
    assert RowOk(r.states[i].hub, id, r.states[i].hub.rows[id]);
  }

  /** There is at most one completion record per command, it is never lost or changed, and it names
      the status the row has from then on. */
  lemma OneCompletionRecord(r: Run, i: nat, j: nat, k: nat)
    requires ValidRun(r) && i <= j < |r.states| && k < |r.states[i].hub.audits|
    ensures r.states[i].hub.audits <= r.states[j].hub.audits
    ensures Recorded(r.states[j].hub, r.states[i].hub.audits[k])
    ensures forall l | 0 <= l < |r.states[j].hub.audits| ::
      r.states[j].hub.audits[l].commandId == r.states[i].hub.audits[k].commandId ==> l == k
  {
    RunGrows(r, i, j);
    RunKeepsInv(r, j);
    assert r.states[j].hub.audits[k] == r.states[i].hub.audits[k];
    assert Recorded(r.states[j].hub, r.states[j].hub.audits[k]);
  }

  /** A job completes only when its command is terminal, which it stays. */
  lemma CompletedJobIsSettled(r: Run, i: nat, j: nat, id: CommandId)
    requires ValidRun(r) && i <= j < |r.states| && id in r.states[i].hub.jobs && r.states[i].hub.jobs[id].done
    ensures id in r.states[j].hub.rows && Terminal(r.states[j].hub.rows[id].status)
  {
    RunKeepsInv(r, i);
    assert JobOk(r.states[i].hub, id, r.states[i].hub.jobs[id]);
    TerminalStatusAbsorbs(r, i, j, id);
  }

  // ---------------------------------------------------------------- creation

  /** A caller that got past the ownership check and was told something. */
  predicate Answered(h: Hub, pid: ProcessId, owner: string, key: string) {
    && pid in h.procs && h.procs[pid].role.ApiCall? && h.procs[pid].role.outcome.Some?
    && h.procs[pid].role.outcome != Some(NotPaired)
    && h.procs[pid].role.input.ownerId == owner && h.procs[pid].role.input.idempotencyKey == key
  }

  /** The maker was told that it made the row. Any other caller was told of a replay only if it asked
      for the same thing, and of a reused key only if it did not or if the collation ties keys of its
      payload; so without ties it was told of a replay exactly if it asked for the same thing. */
  ghost predicate RightAnswer(h: Hub, id: CommandId, maker: ProcessId, pid: ProcessId)
    requires id in h.rows && pid in h.procs && h.procs[pid].role.ApiCall?
  {
    var outcome, wanted := h.procs[pid].role.outcome, h.procs[pid].role.input.wanted;
    var same := RequestOf(wanted) == h.rows[id].request;
    if pid == maker then outcome == Some(Made(id))
    else || (outcome == Some(Replayed(id)) && same)
         || (outcome == Some(KeyReused) && (!same || !NoTies(h.collation, wanted.payload)))
  }

  /** What every caller that used `owner` and `key` was told. */
  ghost predicate Resolved(h: Hub, owner: string, key: string, id: CommandId, maker: ProcessId) {
    && id in h.rows && h.rows[id].ownerId == owner && h.rows[id].idempotencyKey == key
    && Answered(h, maker, owner, key) && MadeBy(h, maker, id)
    && forall pid :: Answered(h, pid, owner, key) ==> RightAnswer(h, id, maker, pid)
  }

  lemma AnswerMatches(h: Hub, owner: string, key: string, id: CommandId, maker: ProcessId, pid: ProcessId)
    requires HubInv(h) && id in h.rows && h.rows[id].ownerId == owner && h.rows[id].idempotencyKey == key
    requires MadeBy(h, maker, id) && Answered(h, pid, owner, key)
    ensures RightAnswer(h, id, maker, pid)
  {
    assert ProcessOk(h, h.procs[pid]);
    var input, answer := h.procs[pid].role.input, h.procs[pid].role.outcome.value;
    if answer.KeyReused? {
      var other :| other in h.rows && SameKey(h.rows[other], input) && Differs(h, other, input);
      assert SameOwnerKey(h.rows[other], h.rows[id]);
    } else {
      assert SameOwnerKey(h.rows[answer.id], h.rows[id]);
      if answer.Made? {
        assert MadeBy(h, pid, id);
      }
    }
  }

  lemma KeyHasRow(h: Hub, pid: ProcessId, owner: string, key: string)
    requires HubInv(h) && Answered(h, pid, owner, key)
    ensures exists id :: id in h.rows && h.rows[id].ownerId == owner && h.rows[id].idempotencyKey == key
  {
    assert ProcessOk(h, h.procs[pid]);
  }

  /** Over any interleaving of any callers: as soon as one caller with this owner and key has an
      answer there is one row for the key, one caller was told it made the row, and every other
      caller was told rightly. */
  lemma CreationIsIdempotent(r: Run, i: nat, pid: ProcessId, owner: string, key: string)
    requires ValidRun(r) && i < |r.states| && Answered(r.states[i].hub, pid, owner, key)
    ensures exists id, maker :: Resolved(r.states[i].hub, owner, key, id, maker)
    ensures forall a, b | a in r.states[i].hub.rows && b in r.states[i].hub.rows ::
      SameOwnerKey(r.states[i].hub.rows[a], r.states[i].hub.rows[b]) ==> a == b
  {
    var h := r.states[i].hub;
    RunKeepsInv(r, i);
    KeyHasRow(h, pid, owner, key);
    var id :| id in h.rows && h.rows[id].ownerId == owner && h.rows[id].idempotencyKey == key;
    var maker :| MadeBy(h, maker, id);
    assert ProcessOk(h, h.procs[maker]);
    forall p | Answered(h, p, owner, key)
      ensures RightAnswer(h, id, maker, p)
    {
      AnswerMatches(h, owner, key, id, maker, p);
    }
    assert Resolved(h, owner, key, id, maker);
  }

  /** Only the owner of an installation ever gets a command into it. */
  lemma CommandsStayWithTheirOwner(r: Run, i: nat, id: CommandId)
    requires ValidRun(r) && i < |r.states| && id in r.states[i].hub.rows
    ensures Owned(r.states[i].hub, r.states[i].hub.rows[id].request.installationId, r.states[i].hub.rows[id].ownerId)
  {
    RunKeepsInv(r, i);
    assert RowOk(r.states[i].hub, id, r.states[i].hub.rows[id]);
  }

  // ---------------------------------------------------------------- delivery

  /** Every message ever published, and every execution it starts, carries the payload, key and
      expiry fixed when the row was inserted, and comes from an attempt numbered 1 to 8. */
  lemma MessagesCarryTheRow(r: Run, i: nat, j: nat, m: Message)
    requires ValidRun(r) && i <= j < |r.states| && m in r.states[i].hub.messages
    ensures m.commandId in r.states[j].hub.rows
    ensures var row := r.states[j].hub.rows[m.commandId];
      && m.installationId == row.request.installationId && m.expiresAt == row.expiresAt
      && m.payload == row.request.payload && PayloadKey(m.payload) == Some(row.idempotencyKey)
    ensures (m.commandId, m.attempt) in r.states[j].hub.attempts && 1 <= m.attempt <= 8
  {
    RunGrows(r, i, j);
    RunKeepsInv(r, j);
    assert MessageOk(r.states[j].hub, m);
    assert RowOk(r.states[j].hub, m.commandId, r.states[j].hub.rows[m.commandId]);
    assert TryOk(r.states[j].hub, (m.commandId, m.attempt), r.states[j].hub.attempts[(m.commandId, m.attempt)]);
  }

  /** An attempt recorded as published handed the row's own message to a subscriber. */
  lemma PublishedAttemptWentOut(r: Run, i: nat, j: nat, id: CommandId, n: nat)
    requires ValidRun(r) && i <= j < |r.states|
    requires (id, n) in r.states[i].hub.attempts && r.states[i].hub.attempts[(id, n)] == Published
    ensures id in r.states[j].hub.rows && MessageFor(id, r.states[j].hub.rows[id], n) in r.states[j].hub.messages
  {
    RunKeepsInv(r, i);
    assert TryOk(r.states[i].hub, (id, n), Published);
    RunGrows(r, i, j);
    WentOutGrows(r.states[i].hub, r.states[j].hub, (id, n));
  }

  // ---------------------------------------------------------------- the deduplication window

  /** An execution that runs or whose timer is pending; never both. */
  predicate Holds(g: Edge, cid: ConnectorId, id: CommandId, eid: ExecutionId) {
    Runs(g, eid, cid, id) && (Running(g, eid) || Pending(g, cid, eid))
  }

  /** The entry of a command in `inFlightCommands` is the one execution of that command that runs or
      waits for its timer, and executions of one command in one process are a window apart. */
  lemma DedupWindow(r: Run, i: nat, cid: ConnectorId, id: CommandId, eid: ExecutionId)
    requires ValidRun(r) && i < |r.states|
    ensures Entry(r.states[i].edge, cid, id, eid) <==> Holds(r.states[i].edge, cid, id, eid)
    ensures !(Running(r.states[i].edge, eid) && Pending(r.states[i].edge, cid, eid))
    ensures forall other :: other != eid && Runs(r.states[i].edge, eid, cid, id) && Runs(r.states[i].edge, other, cid, id) ==>
      || Before(r.states[i].edge.executions[eid], r.states[i].edge.executions[other])
      || Before(r.states[i].edge.executions[other], r.states[i].edge.executions[eid])
  {
    var g := r.states[i].edge;
    RunKeepsInv(r, i);
    if Holds(g, cid, id, eid) {
      if Running(g, eid) {
        assert Entry(g, g.executions[eid].connectorId, g.executions[eid].message.commandId, eid);
      } else {
        assert Pending(g, cid, eid);
      }
    }
    forall other | other != eid && Runs(g, eid, cid, id) && Runs(g, other, cid, id)
      ensures Before(g.executions[eid], g.executions[other]) || Before(g.executions[other], g.executions[eid])
    {
      assert SameWork(g.executions[eid], g.executions[other]);
    }
  }

  /** A delivery inside the window starts nothing; once the execution has settled it is answered with
      the report that execution has already given. */
  lemma DuplicateSharesReport(r: Run, i: nat, cid: ConnectorId, m: Message, spare: ExecutionId, eid: ExecutionId)
    requires ValidRun(r) && i < |r.steps| && r.steps[i] == EdgeMove(DeliverCommand(cid, m, spare))
    requires Entry(r.states[i].edge, cid, m.commandId, eid)
    ensures r.states[i + 1].edge.executions == r.states[i].edge.executions
    ensures r.states[i + 1].edge.connectors == r.states[i].edge.connectors
    ensures forall x :: x in r.states[i + 1].edge.reports - r.states[i].edge.reports ==> x.executionId == eid
    ensures forall x, y | x in r.states[i + 1].edge.reports && y in r.states[i + 1].edge.reports ::
      x.executionId == eid && y.executionId == eid ==> x == y
  {
    assert StepsAt(r, i);
    RunKeepsInv(r, i + 1);
    forall x, y | x in r.states[i + 1].edge.reports && y in r.states[i + 1].edge.reports
      && x.executionId == eid && y.executionId == eid
      ensures x == y
    {
      assert ReportOk(r.states[i + 1].edge, x) && ReportOk(r.states[i + 1].edge, y);
    }
  }
}
