/** Building runs: what it takes to extend a run by one statement of a process, and the states that a
    creating call, a delivering job run and an executing Connector lead to.

    A state is reached when some run ends in it. `HubExtends` and `EdgeExtends` prolong a run by one
    step; every lemma after them plays one statement, or one whole call, and names the resulting state
    outright, so that a longer run is a list of such lemmas and its last state can be read off. The
    commands here carry nothing in their payload but the idempotency key; owner, key, installation,
    Runtime and expiry are left to the run. */
module Reachable {
  import opened Canonical
  import opened CommandPolicy
  import opened CommandTable
  import opened Delivery
  import opened EdgeInvariants
  import opened EdgeMachine
  import opened HubMachine
  import opened Json

  /** Some run ends in this state. */
  ghost predicate Reached(w: World) {
    exists r: Run :: ValidRun(r) && r.states[|r.steps|] == w
  }

  lemma ReachedInv(w: World)
    requires Reached(w)
    ensures WorldInv(w)
  {
    var r: Run :| ValidRun(r) && r.states[|r.steps|] == w;
    RunKeepsInv(r, |r.steps|);
  }

  lemma Starts(now: int, collation: Collation)
    requires TotalPreorder(collation)
    ensures Reached(World(now, InitialHub(collation), INITIAL_EDGE))
  {
    var w := World(now, InitialHub(collation), INITIAL_EDGE);
    var r := Run([w], []);
    assert ValidRun(r) && r.states[|r.steps|] == w;
  }

  lemma Extends(w: World, step: Step)
    requires Reached(w) && WorldEnabled(w, step)
    ensures Reached(WorldApply(w, step))
  {
    var r: Run :| ValidRun(r) && r.states[|r.steps|] == w;
    var w' := WorldApply(w, step);
    var longer := Run(r.states + [w'], r.steps + [step]);
    forall i | 0 <= i < |longer.steps|
      ensures StepsAt(longer, i)
    {
      if i < |r.steps| {
        assert StepsAt(r, i);
      }
    }
    assert ValidRun(longer) && longer.states[|longer.steps|] == w';
  }

  lemma HubExtends(now: int, h: Hub, g: Edge, step: HubStep, h': Hub)
    requires Reached(World(now, h, g)) && Enabled(h, now, step) && Apply(h, now, step) == h'
    requires step.ReceiveResult? ==> Reported(g, step.ack)
    ensures Reached(World(now, h', g))
  {
    Extends(World(now, h, g), HubMove(step));
  }

  lemma EdgeExtends(now: int, h: Hub, g: Edge, act: EdgeStep)
    requires Reached(World(now, h, g)) && EdgeEnabled(g, now, act)
    requires act.DeliverCommand? ==> act.message in h.messages
    ensures Reached(World(now, h, EdgeApply(g, now, act)))
  {
    Extends(World(now, h, g), EdgeMove(act));
  }

  function Put(h: Hub, pid: ProcessId, p: Process): Hub {
    h.(procs := h.procs[pid := p])
  }

  lemma PutPut(h: Hub, pid: ProcessId, p: Process, q: Process)
    ensures Put(Put(h, pid, p), pid, q) == Put(h, pid, q)
  {
    assert h.procs[pid := p][pid := q] == h.procs[pid := q];
  }

  // ---------------------------------------------------------------- a creating call

  /** A request for one command: nothing but the idempotency key in the payload. */
  function Request1(owner: string, key: string, installationId: string, runtimeId: string, expiresAt: int): CreateInput {
    CreateInput(owner, key, Identity(installationId, runtimeId, "", "", None, Absent,
                                     Obj(Cons(Keyed("idempotencyKey", Str(key)), Nil))), expiresAt)
  }

  lemma Request1Ok(owner: string, key: string, installationId: string, runtimeId: string, expiresAt: int)
    ensures InputOk(Request1(owner, key, installationId, runtimeId, expiresAt))
  {
    var members := Cons(Keyed("idempotencyKey", Str(key)), Nil);
    assert WellFormed(Str(key)) && WellFormedMembers(members) && DistinctKeys(members);
    assert MembersMeaning(members) == MembersMeaning(Nil)["idempotencyKey" := Meaning(Str(key))];
    assert Meaning(Obj(members)) == ObjValue(map["idempotencyKey" := StrValue(key)]);
  }

  lemma Installed(now: int, h: Hub, g: Edge, installationId: string, owner: string)
    requires Reached(World(now, h, g)) && installationId !in h.owners
    ensures Reached(World(now, h.(owners := h.owners[installationId := owner]), g))
  {
    HubExtends(now, h, g, CreateInstallation(installationId, owner), h.(owners := h.owners[installationId := owner]));
  }

  lemma Submitted(now: int, h: Hub, g: Edge, p: ProcessId, input: CreateInput)
    requires Reached(World(now, h, g)) && p !in h.procs && InputOk(input)
    requires Owned(h, input.wanted.installationId, input.ownerId)
    ensures Reached(World(now, Put(h, p, Process(ApiCall(input, None), Inserting)), g))
  {
    var h1 := Put(h, p, Process(ApiCall(input, None), Checking));
    var h2 := Put(h, p, Process(ApiCall(input, None), Inserting));
    HubExtends(now, h, g, SubmitCall(p, input), h1);
    assert Go(h1, p, Inserting) == h2 by {
      assert h1.procs[p := Process(ApiCall(input, None), Inserting)] == h2.procs;
    }
    HubExtends(now, h1, g, CheckRuntime(p, true), h2);
  }

  /** The row made by process p, with its job, while p's own `queued` write is still to come. */
  function Made1(h: Hub, p: ProcessId, id: CommandId, input: CreateInput): Hub {
    Put(h, p, Process(ApiCall(input, Some(Made(id))), Setting(QueuedWrite(id), Finish)))
      .(rows := h.rows[id := NewRow(input)], jobs := h.jobs[id := Job(0, false)])
  }

  lemma Inserted1(now: int, h: Hub, g: Edge, p: ProcessId, id: CommandId, input: CreateInput)
    requires Reached(World(now, h, g)) && p in h.procs && h.procs[p] == Process(ApiCall(input, None), Inserting)
    requires id !in h.rows && !KeyTaken(h, input)
    ensures Reached(World(now, Put(h, p, Process(ApiCall(input, Some(Made(id))), Enqueueing(id)))
                               .(rows := h.rows[id := NewRow(input)]), g))
  {
    HubExtends(now, h, g, InsertCommand(p, id),
               Put(h, p, Process(ApiCall(input, Some(Made(id))), Enqueueing(id))).(rows := h.rows[id := NewRow(input)]));
  }

  lemma Enqueued1(now: int, h: Hub, g: Edge, p: ProcessId, id: CommandId)
    requires Reached(World(now, h, g)) && p in h.procs && h.procs[p].pc == Enqueueing(id) && id !in h.jobs
    ensures Reached(World(now, Put(h, p, Process(h.procs[p].role, Setting(QueuedWrite(id), Finish)))
                               .(jobs := h.jobs[id := Job(0, false)]), g))
  {
    HubExtends(now, h, g, EnqueueJob(p), Put(h, p, Process(h.procs[p].role, Setting(QueuedWrite(id), Finish)))
      .(jobs := h.jobs[id := Job(0, false)]));
  }

  lemma Created1(now: int, h: Hub, g: Edge, p: ProcessId, id: CommandId, input: CreateInput)
    requires Reached(World(now, h, g)) && p !in h.procs && InputOk(input)
    requires Owned(h, input.wanted.installationId, input.ownerId) && id !in h.rows && id !in h.jobs
    requires !KeyTaken(h, input)
    ensures Reached(World(now, Made1(h, p, id, input), g))
  {
    var made := ApiCall(input, Some(Made(id)));
    Submitted(now, h, g, p, input);
    Inserted1(now, Put(h, p, Process(ApiCall(input, None), Inserting)), g, p, id, input);
    PutPut(h, p, Process(ApiCall(input, None), Inserting), Process(made, Enqueueing(id)));
    var h3 := h.(rows := h.rows[id := NewRow(input)]);
    Enqueued1(now, Put(h3, p, Process(made, Enqueueing(id))), g, p, id);
    PutPut(h3, p, Process(made, Enqueueing(id)), Process(made, Setting(QueuedWrite(id), Finish)));
  }

  // ---------------------------------------------------------------- setCommandStatus

  /** The read of a process at `Setting`. */
  lemma ReadOf(now: int, h: Hub, g: Edge, p: ProcessId)
    requires Reached(World(now, h, g)) && p in h.procs && h.procs[p].pc.Setting?
    requires var w := h.procs[p].pc.write; w.commandId in h.rows && !Refused(h.rows[w.commandId].status, w.status)
    ensures var Setting(w, next) := h.procs[p].pc;
      Reached(World(now, Put(h, p, Process(h.procs[p].role, Swapping(w, h.rows[w.commandId].status, next))), g))
  {
    var Setting(w, next) := h.procs[p].pc;
    HubExtends(now, h, g, ReadStatus(p), Put(h, p, Process(h.procs[p].role, Swapping(w, h.rows[w.commandId].status, next))));
  }

  /** A compare-and-set that finds the status it read. */
  lemma WinOf(now: int, h: Hub, g: Edge, p: ProcessId)
    requires Reached(World(now, h, g)) && p in h.procs && h.procs[p].pc.Swapping?
    requires Swaps(h.rows, h.procs[p].pc.write, h.procs[p].pc.read)
    ensures var Swapping(w, _, next) := h.procs[p].pc;
      Reached(World(now, Put(h, p, Process(h.procs[p].role, Continue(w.commandId, next)))
        .(rows := h.rows[w.commandId := Written(h.rows[w.commandId], w, now)]), g))
  {
    var Swapping(w, _, next) := h.procs[p].pc;
    HubExtends(now, h, g, SwapStatus(p), Put(h, p, Process(h.procs[p].role, Continue(w.commandId, next)))
      .(rows := h.rows[w.commandId := Written(h.rows[w.commandId], w, now)]));
  }

  // ---------------------------------------------------------------- a job run

  function RunAt(h: Hub, p: ProcessId, id: CommandId, pc: Pc): Hub
    requires id in h.jobs
  {
    Put(h, p, Process(JobRun(id, h.jobs[id].attemptsMade + 1), pc))
  }

  lemma Begun(now: int, h: Hub, g: Edge, p: ProcessId, id: CommandId)
    requires Reached(World(now, h, g)) && p !in h.procs
    requires id in h.jobs && !h.jobs[id].done && h.jobs[id].attemptsMade < MAX_ATTEMPTS
    requires id in h.rows && !Terminal(h.rows[id].status)
    ensures Reached(World(now, RunAt(h, p, id, Deciding(h.rows[id])), g))
  {
    var h1, h2 := RunAt(h, p, id, Reading), RunAt(h, p, id, Deciding(h.rows[id]));
    HubExtends(now, h, g, StartRun(p, id), h1);
    assert h1.procs[p := h2.procs[p]] == h2.procs;
    HubExtends(now, h1, g, GetCommand(p), h2);
  }

  lemma Attempted1(now: int, h: Hub, g: Edge, p: ProcessId, id: CommandId)
    requires Reached(World(now, h, g)) && p !in h.procs
    requires id in h.jobs && h.jobs[id] == Job(0, false) && (id, 1) !in h.attempts
    requires id in h.rows && h.rows[id].status == Created && now < h.rows[id].expiresAt
    ensures Reached(World(now, RunAt(h, p, id, Setting(QueuedWrite(id), ThenDeliver(h.rows[id])))
                               .(attempts := h.attempts[(id, 1) := Underway]), g))
  {
    Begun(now, h, g, p, id);
    var seen := h.rows[id];
    var h2, h3 := RunAt(h, p, id, Deciding(seen)), RunAt(h, p, id, Attempting(seen));
    var h4 := RunAt(h, p, id, Setting(QueuedWrite(id), ThenDeliver(seen))).(attempts := h.attempts[(id, 1) := Underway]);
    assert h2.procs[p := h3.procs[p]] == h3.procs && h3.procs[p := h4.procs[p]] == h4.procs;
    HubExtends(now, h2, g, Decide(p, true), h3);
    HubExtends(now, h3, g, CreateAttempt(p), h4);
  }

  /** The run of process p stands before its publish, with the command `delivering`. */
  function Delivering1(h: Hub, p: ProcessId, id: CommandId): Hub
    requires id in h.jobs && id in h.rows
  {
    RunAt(h, p, id, Publishing(h.rows[id]))
      .(attempts := h.attempts[(id, 1) := Underway], rows := h.rows[id := h.rows[id].(status := Delivering)])
  }

  lemma Wrote1(now: int, h: Hub, g: Edge, p: ProcessId, id: CommandId, role: Role, write: Write, next: Next)
    requires p in h.procs && h.procs[p] == Process(role, Setting(write, next)) && Reached(World(now, h, g))
    requires id in h.rows && write == Write(id, write.status, None, None, None) && CanTransition(h.rows[id].status, write.status)
    ensures Reached(World(now, Put(h, p, Process(role, Continue(id, next)))
                               .(rows := h.rows[id := h.rows[id].(status := write.status)]), g))
  {
    ReadOf(now, h, g, p);
    var h1 := Put(h, p, Process(role, Swapping(write, h.rows[id].status, next)));
    WinOf(now, h1, g, p);
    assert h1.procs[p := Process(role, Continue(id, next))] == h.procs[p := Process(role, Continue(id, next))];
  }

  function Queued1(h: Hub, p: ProcessId, id: CommandId): Hub
    requires id in h.jobs && id in h.rows
  {
    RunAt(h, p, id, Setting(DeliveringWrite(id), ThenPublish(h.rows[id])))
      .(attempts := h.attempts[(id, 1) := Underway], rows := h.rows[id := h.rows[id].(status := Queued)])
  }

  lemma ReachesQueued(now: int, h: Hub, g: Edge, p: ProcessId, id: CommandId)
    requires Reached(World(now, h, g)) && p !in h.procs
    requires id in h.jobs && h.jobs[id] == Job(0, false) && (id, 1) !in h.attempts
    requires id in h.rows && h.rows[id].status == Created && now < h.rows[id].expiresAt
    ensures Reached(World(now, Queued1(h, p, id), g))
  {
    Attempted1(now, h, g, p, id);
    var seen := h.rows[id];
    var h1 := RunAt(h, p, id, Setting(QueuedWrite(id), ThenDeliver(seen))).(attempts := h.attempts[(id, 1) := Underway]);
    Wrote1(now, h1, g, p, id, JobRun(id, 1), QueuedWrite(id), ThenDeliver(seen));
    assert h1.procs[p := Queued1(h, p, id).procs[p]] == Queued1(h, p, id).procs;
  }

  lemma ReachesPublish(now: int, h: Hub, g: Edge, p: ProcessId, id: CommandId)
    requires Reached(World(now, h, g)) && p !in h.procs
    requires id in h.jobs && h.jobs[id] == Job(0, false) && (id, 1) !in h.attempts
    requires id in h.rows && h.rows[id].status == Created && now < h.rows[id].expiresAt
    ensures Reached(World(now, Delivering1(h, p, id), g))
  {
    ReachesQueued(now, h, g, p, id);
    var h2, h3 := Queued1(h, p, id), Delivering1(h, p, id);
    Wrote1(now, h2, g, p, id, JobRun(id, 1), DeliveringWrite(id), ThenPublish(h.rows[id]));
    assert h2.procs[p := h3.procs[p]] == h3.procs && h2.rows[id := h3.rows[id]] == h3.rows;
  }

  lemma Published1(now: int, h: Hub, g: Edge, p: ProcessId, id: CommandId, n: nat, seen: Row)
    requires Reached(World(now, h, g)) && p in h.procs && h.procs[p] == Process(JobRun(id, n), Publishing(seen))
    ensures Reached(World(now, Put(h, p, Process(JobRun(id, n), Recording(Published)))
                               .(messages := h.messages + {MessageFor(id, seen, n)}), g))
  {
    HubExtends(now, h, g, Publish(p, 1), Put(h, p, Process(JobRun(id, n), Recording(Published)))
      .(messages := h.messages + {MessageFor(id, seen, n)}));
  }

  /** The state after `LaunchedBy`. */
  function Launched(h: Hub, p: ProcessId, id: CommandId, input: CreateInput): Hub {
    h.(rows := h.rows[id := NewRow(input).(status := Delivering)],
       jobs := h.jobs[id := Job(0, false)],
       attempts := h.attempts[(id, 1) := Underway],
       messages := h.messages + {MessageFor(id, NewRow(input), 1)},
       procs := h.procs[p := Process(ApiCall(input, Some(Made(id))), Setting(QueuedWrite(id), Finish))]
                       [p + 1 := Process(JobRun(id, 1), Recording(Published))])
  }

  lemma LaunchedShape(h: Hub, p: ProcessId, id: CommandId, input: CreateInput)
    ensures Put(Delivering1(Made1(h, p, id, input), p + 1, id), p + 1, Process(JobRun(id, 1), Recording(Published)))
              .(messages := h.messages + {MessageFor(id, NewRow(input), 1)})
         == Launched(h, p, id, input)
  {
    var h2 := Delivering1(Made1(h, p, id, input), p + 1, id);
    assert h2.rows == Launched(h, p, id, input).rows;
    assert h2.procs[p + 1 := Process(JobRun(id, 1), Recording(Published))] == Launched(h, p, id, input).procs;
  }

  /** Creation and delivery of one command by the processes p and p + 1: the message is out, the run
      has yet to finish its attempt row, and the creating call has yet to write `queued`. */
  lemma LaunchedBy(now: int, h: Hub, g: Edge, p: ProcessId, id: CommandId, input: CreateInput)
    requires Reached(World(now, h, g)) && p !in h.procs && p + 1 !in h.procs && InputOk(input) && now < input.expiresAt
    requires Owned(h, input.wanted.installationId, input.ownerId) && id !in h.rows && id !in h.jobs
    requires !KeyTaken(h, input) && (id, 1) !in h.attempts
    ensures Reached(World(now, Launched(h, p, id, input), g))
  {
    Created1(now, h, g, p, id, input);
    var h1 := Made1(h, p, id, input);
    ReachesPublish(now, h1, g, p + 1, id);
    Published1(now, Delivering1(h1, p + 1, id), g, p + 1, id, 1, NewRow(input));
    LaunchedShape(h, p, id, input);
  }

  // ---------------------------------------------------------------- a Connector at work

  lemma Connected(now: int, h: Hub, g: Edge, cid: ConnectorId, installationId: string, runtimeId: string, host: Host)
    requires Reached(World(now, h, g)) && cid !in g.connectors
    ensures Reached(World(now, h, g.(connectors := g.connectors[cid := Connector(installationId, runtimeId, host, map[], map[])])))
  {
    EdgeExtends(now, h, g, StartConnector(cid, installationId, runtimeId, host));
  }

  lemma Hosted(now: int, h: Hub, g: Edge, host: Host, runtime: Runtime)
    requires Reached(World(now, h, g))
    ensures Reached(World(now, h, g.(running := g.running[host := runtime], ran := g.ran + {(host, runtime)})))
  {
    EdgeExtends(now, h, g, StartRuntime(host, runtime));
  }

  /** The Connector has started on the message and the Runtime on its host has answered. */
  lemma Executed(now: int, h: Hub, g: Edge, cid: ConnectorId, m: Message, eid: ExecutionId) returns (g': Edge)
    requires Reached(World(now, h, g)) && m in h.messages && cid in g.connectors && eid !in g.executions
    requires g.connectors[cid].installationId == m.installationId && m.commandId !in g.connectors[cid].inFlight
    requires now < m.expiresAt && PayloadKey(m.payload).Some? && g.connectors[cid].host in g.running
    ensures Reached(World(now, h, g'))
    ensures g'.connectors == g.connectors[cid := g.connectors[cid].(inFlight := g.connectors[cid].inFlight[m.commandId := eid])]
    ensures var slot := (g.running[g.connectors[cid].host], PayloadKey(m.payload).value);
      var reply := if slot in g.replies then g.replies[slot] else Answer(true, 0);
      && g'.executions == g.executions[eid := Execution(cid, m, now, Some(reply), Some(slot.0), None, now)]
      && g'.replies == g.replies[slot := reply]
      && g'.effects == if slot in g.replies then g.effects else g.effects + [Effect(slot.0, slot.1, eid)]
    ensures g'.reports == g.reports && g'.running == g.running && g'.ran == g.ran
  {
    EdgeExtends(now, h, g, DeliverCommand(cid, m, eid));
    var g1 := DeliverStep(g, now, cid, m, eid);
    g' := Handled(now, h, g1, cid, eid);
    assert g1.executions[eid := g'.executions[eid]] == g.executions[eid := g'.executions[eid]];
  }

  lemma Handled(now: int, h: Hub, g: Edge, cid: ConnectorId, eid: ExecutionId) returns (g': Edge)
    requires Reached(World(now, h, g)) && cid in g.connectors && g.connectors[cid].host in g.running
    requires eid in g.executions && g.executions[eid].connectorId == cid && g.executions[eid].reply.None?
    requires g.executions[eid].startedAt < g.executions[eid].message.expiresAt
    requires PayloadKey(g.executions[eid].message.payload).Some?
    ensures Reached(World(now, h, g'))
    ensures var slot := (g.running[g.connectors[cid].host], PayloadKey(g.executions[eid].message.payload).value);
      var reply := if slot in g.replies then g.replies[slot] else Answer(true, 0);
      && g'.executions == g.executions[eid := g.executions[eid].(reply := Some(reply), answeredBy := Some(slot.0))]
      && g'.replies == g.replies[slot := reply]
      && g'.effects == if slot in g.replies then g.effects else g.effects + [Effect(slot.0, slot.1, eid)]
    ensures g'.connectors == g.connectors && g'.reports == g.reports && g'.running == g.running && g'.ran == g.ran
  {
    EdgeExtends(now, h, g, HandleAtRuntime(eid, Answer(true, 0)));
    g' := HandleStep(g, now, eid, Answer(true, 0));
  }

  /** The answer has been reported, and the Hub has received the report. */
  lemma Reported1(now: int, h: Hub, g: Edge, p: ProcessId, eid: ExecutionId, reply: Reply) returns (h': Hub, g': Edge, ack: Ack)
    requires Reached(World(now, h, g)) && p !in h.procs && eid in g.executions
    requires g.executions[eid].reply == Some(reply) && reply.Answer? && reply.accepted && g.executions[eid].finding.None?
    requires g.executions[eid].connectorId in g.connectors
    ensures var k := g.connectors[g.executions[eid].connectorId];
      ack == Ack(g.executions[eid].message.commandId, k.installationId, k.runtimeId, Succeeded, Some(reply), None)
    ensures Reached(World(now, h, g')) && Enabled(h, now, ReceiveResult(p, ack)) && Reported(g', ack)
    ensures h' == Apply(h, now, ReceiveResult(p, ack)) && Reached(World(now, h', g'))
    ensures g'.effects == g.effects && g'.executions.Keys == g.executions.Keys && g'.ran == g.ran
    ensures forall e :: e in g.executions ==> ExecutionGrows(g.executions[e], g'.executions[e])
    ensures g'.connectors.Keys == g.connectors.Keys
    ensures forall cid :: cid in g.connectors ==> SameConnector(g.connectors[cid], g'.connectors[cid])
  {
    EdgeExtends(now, h, g, SettleExecution(eid, None));
    g' := SettleStep(g, now, eid, None);
    var e := g.executions[eid];
    var report := ReportOf(eid, g.connectors[e.connectorId], e.message.commandId, FindingOf(reply));
    ack := report.ack;
    assert report in g'.reports;
    h' := Apply(h, now, ReceiveResult(p, ack));
    HubExtends(now, h, g', ReceiveResult(p, ack), h');
  }
}
