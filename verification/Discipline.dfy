/** How often a status can change, and what must have happened before a publish. */
module Discipline {
  import opened CommandPolicy
  import opened CommandTable
  import opened Delivery
  import opened HubFrames
  import opened HubInvariants
  import opened HubMachine

  // ---------------------------------------------------------------- bounded churn

  predicate PendingQueued(h: Hub, id: CommandId, pid: ProcessId) {
    && pid in h.procs && h.procs[pid].pc.Swapping?
    && h.procs[pid].pc.write.commandId == id && h.procs[pid].pc.write.status == Queued
  }

  function PendingSet(h: Hub, id: CommandId): set<ProcessId> {
    set pid | pid in h.procs && PendingQueued(h, id, pid)
  }

  /** How many more changes a status allows before somebody writes `queued` again. */
  function ChangesLeft(h: Hub, id: CommandId): nat {
    if id !in h.rows then 1
    else match h.rows[id].status
      case Created => 1
      case Queued => 2
      case Delivering => 1
      case _ => 0
  }

  function Potential(h: Hub, id: CommandId): nat {
    2 * |PendingSet(h, id)| + ChangesLeft(h, id)
  }

  /** The step changes the status of an existing row. */
  predicate Changes(h: Hub, h': Hub, id: CommandId) {
    id in h.rows && id in h'.rows && h.rows[id].status != h'.rows[id].status
  }

  /** The step starts a `setCommandStatus` call that asks for `queued`. */
  predicate StartsQueued(h: Hub, step: HubStep, id: CommandId) {
    && step.ReadStatus? && step.pid in h.procs && h.procs[step.pid].pc.Setting?
    && h.procs[step.pid].pc.write.commandId == id && h.procs[step.pid].pc.write.status == Queued
  }

  function One(b: bool): nat {
    if b then 1 else 0
  }

  /** What a step does to the pending `queued` writes of its own process. */
  lemma PendingActs(h: Hub, now: int, step: HubStep, id: CommandId)
    requires Enabled(h, now, step) && Actor(step).Some?
    ensures var pid := Actor(step).value;
      && (step.SwapStatus? ==> !PendingQueued(Apply(h, now, step), id, pid))
      && (PendingQueued(Apply(h, now, step), id, pid) ==> StartsQueued(h, step, id))
  {
    if !Prepares(step) {
      StaysQuiet(h, now, step);
    }
  }

  lemma PendingFrame(h: Hub, step: HubStep, h': Hub, id: CommandId)
    requires ProcsFrame(h, step, h') && (step.SwapStatus? ==> step.pid in h.procs)
    requires Actor(step).Some? ==>
      && (step.SwapStatus? ==> !PendingQueued(h', id, Actor(step).value))
      && (PendingQueued(h', id, Actor(step).value) ==> StartsQueued(h, step, id))
    ensures var s, s' := PendingSet(h, id), PendingSet(h', id);
      && (StartsQueued(h, step, id) ==> s' <= s + {step.pid})
      && (step.SwapStatus? && PendingQueued(h, id, step.pid) ==> step.pid in s && s' == s - {step.pid})
      && (!StartsQueued(h, step, id) && !(step.SwapStatus? && PendingQueued(h, id, step.pid)) ==> s' <= s)
  {
    forall pid: ProcessId | Actor(step) != Some(pid)
      ensures PendingQueued(h', id, pid) <==> PendingQueued(h, id, pid)
    {
    }
  }

  lemma PendingBound(h: Hub, now: int, step: HubStep, id: CommandId)
    requires Enabled(h, now, step)
    ensures |PendingSet(Apply(h, now, step), id)| + One(step.SwapStatus? && PendingQueued(h, id, step.pid))
         <= |PendingSet(h, id)| + One(StartsQueued(h, step, id))
  {
    var s, s' := PendingSet(h, id), PendingSet(Apply(h, now, step), id);
    StepFrame(h, now, step);
    if Actor(step).Some? {
      PendingActs(h, now, step, id);
    }
    PendingFrame(h, step, Apply(h, now, step), id);
    if StartsQueued(h, step, id) {
      Smaller(s', s + {step.pid});
    } else {
      Smaller(s', s);
    }
  }

  lemma {:induction false} Smaller(a: set<ProcessId>, b: set<ProcessId>)
    requires a <= b
    ensures |a| <= |b|
  {
    if a != {} {
      var x :| x in a;
      Smaller(a - {x}, b - {x});
    }
  }

  /** A change spends one unit of what is left, except that a pending `queued` write may restore it. */
  lemma ChangeCost(h: Hub, now: int, step: HubStep, h': Hub, id: CommandId)
    requires Frame(h, now, step, h') && Safe(h, step)
    ensures One(Changes(h, h', id)) + ChangesLeft(h', id)
         <= ChangesLeft(h, id) + 2 * One(step.SwapStatus? && PendingQueued(h, id, step.pid))
  {
  }

  lemma StepPotential(h: Hub, now: int, step: HubStep, id: CommandId)
    requires HubInv(h) && Enabled(h, now, step)
    ensures One(Changes(h, Apply(h, now, step), id)) + Potential(Apply(h, now, step), id)
         <= Potential(h, id) + 2 * One(StartsQueued(h, step, id))
  {
    PendingBound(h, now, step, id);
    StepIsSafe(h, now, step);
    StepFrame(h, now, step);
    ChangeCost(h, now, step, Apply(h, now, step), id);
  }

  /** Status changes of `id` among the first n steps. */
  ghost function ChangeCount(r: Run, id: CommandId, n: nat): nat
    requires n < |r.states|
  {
    if n == 0 then 0
    else ChangeCount(r, id, n - 1) + One(Changes(r.states[n - 1].hub, r.states[n].hub, id))
  }

  /** Calls of `setCommandStatus(id, queued)` started among the first n steps. */
  ghost function QueuedCalls(r: Run, id: CommandId, n: nat): nat
    requires |r.states| == |r.steps| + 1 && n < |r.states|
  {
    if n == 0 then 0
    else
      QueuedCalls(r, id, n - 1)
      + One(r.steps[n - 1].HubMove? && StartsQueued(r.states[n - 1].hub, r.steps[n - 1].move, id))
  }

  lemma {:induction false} ChurnInvariant(r: Run, id: CommandId, n: nat)
    requires ValidRun(r) && n < |r.states|
    ensures ChangeCount(r, id, n) + Potential(r.states[n].hub, id) <= 2 * QueuedCalls(r, id, n) + 1
  {
    if n == 0 {
      assert PendingSet(r.states[0].hub, id) == {};
    } else {
      ChurnInvariant(r, id, n - 1);
      RunKeepsInv(r, n - 1);
      assert StepsAt(r, n - 1);
      if r.steps[n - 1].HubMove? {
        StepPotential(r.states[n - 1].hub, r.states[n - 1].now, r.steps[n - 1].move, id);
      }
    }
  }

  /** Although a slow caller may pull a delivering row back to queued, a status changes at most
      2R + 1 times when R calls asking for `queued` are started. */
  lemma BoundedChurn(r: Run, id: CommandId, n: nat)
    requires ValidRun(r) && n < |r.states|
    ensures ChangeCount(r, id, n) <= 2 * QueuedCalls(r, id, n) + 1
  {
    ChurnInvariant(r, id, n);
  }

  // ---------------------------------------------------------------- what precedes a publish

  ghost predicate Attempted(r: Run, k: nat, pid: ProcessId)
    requires k <= |r.steps|
  {
    exists i :: 0 <= i < k && r.steps[i] == HubMove(CreateAttempt(pid))
  }

  /** Step j of the run is this process's compare-and-set to `delivering`, and it wins. */
  ghost predicate WroteDelivering(r: Run, j: nat, pid: ProcessId)
    requires |r.states| == |r.steps| + 1 && j < |r.steps|
  {
    && r.steps[j] == HubMove(SwapStatus(pid))
    && var h := r.states[j].hub;
       pid in h.procs && h.procs[pid].pc.Swapping? && h.procs[pid].pc.write.status == Delivering
       && Swaps(h.rows, h.procs[pid].pc.write, h.procs[pid].pc.read)
  }

  ghost predicate AttemptedThenDelivering(r: Run, k: nat, pid: ProcessId)
    requires |r.states| == |r.steps| + 1 && k <= |r.steps|
  {
    exists j: nat :: j < k && WroteDelivering(r, j, pid) && Attempted(r, j, pid)
  }

  ghost predicate Trail(r: Run, k: nat, pid: ProcessId)
    requires |r.states| == |r.steps| + 1 && k <= |r.steps|
  {
    pid in r.states[k].hub.procs ==>
      match r.states[k].hub.procs[pid].pc
      case Setting(_, next) => !next.Finish? ==> Attempted(r, k, pid)
      case Swapping(_, _, next) => !next.Finish? ==> Attempted(r, k, pid)
      case Publishing(_) => AttemptedThenDelivering(r, k, pid)
      case _ => true
  }

  lemma TrailExtends(r: Run, k: nat, pid: ProcessId)
    requires |r.states| == |r.steps| + 1 && k < |r.steps|
    ensures Attempted(r, k, pid) ==> Attempted(r, k + 1, pid)
    ensures AttemptedThenDelivering(r, k, pid) ==> AttemptedThenDelivering(r, k + 1, pid)
  {
    if Attempted(r, k, pid) {
      var i :| 0 <= i < k && r.steps[i] == HubMove(CreateAttempt(pid));
      assert i < k + 1;
    }
    if AttemptedThenDelivering(r, k, pid) {
      var j: nat :| j < k && WroteDelivering(r, j, pid) && Attempted(r, j, pid);
      assert j < k + 1;
    }
  }

  /** A pending write on the way to a publish. */
  predicate OnTheWay(pc: Pc) {
    (pc.Setting? || pc.Swapping?) && !pc.next.Finish?
  }

  lemma WayBegins(h: Hub, now: int, move: HubStep, pid: ProcessId)
    requires Enabled(h, now, move) && Actor(move) == Some(pid) && Present(Apply(h, now, move), pid)
    requires OnTheWay(Apply(h, now, move).procs[pid].pc)
    ensures move == CreateAttempt(pid) || (pid in h.procs && OnTheWay(h.procs[pid].pc))
  {
    if !Prepares(move) {
      StaysQuiet(h, now, move);
    }
  }

  lemma PublishingComesFrom(h: Hub, now: int, move: HubStep, pid: ProcessId)
    requires ProcessesOk(h) && Enabled(h, now, move) && Actor(move) == Some(pid)
    requires Present(Apply(h, now, move), pid) && Apply(h, now, move).procs[pid].pc.Publishing?
    ensures move == SwapStatus(pid) && OnTheWay(h.procs[pid].pc) && h.procs[pid].pc.write.status == Delivering
    ensures Swaps(h.rows, h.procs[pid].pc.write, h.procs[pid].pc.read)
  {
    if !Prepares(move) {
      StaysQuiet(h, now, move);
    } else {
      assert ProcessOk(h, h.procs[pid]);
    }
  }

  lemma TrailStep(r: Run, k: nat, pid: ProcessId)
    requires ValidRun(r) && k < |r.steps| && Trail(r, k, pid) && HubInv(r.states[k].hub)
    requires r.steps[k].HubMove? && Actor(r.steps[k].move) == Some(pid)
    ensures Trail(r, k + 1, pid)
  {
    var h, now, move := r.states[k].hub, r.states[k].now, r.steps[k].move;
    assert StepsAt(r, k);
    StepFrame(h, now, move);
    var pc := Apply(h, now, move).procs[pid].pc;
    TrailExtends(r, k, pid);
    if OnTheWay(pc) {
      WayBegins(h, now, move, pid);
      assert Attempted(r, k + 1, pid) by {
        if move == CreateAttempt(pid) {
          assert r.steps[k] == HubMove(CreateAttempt(pid));
        }
      }
    }
    if pc.Publishing? {
      PublishingComesFrom(h, now, move, pid);
      assert WroteDelivering(r, k, pid) && Attempted(r, k, pid);
    }
  }

  lemma {:induction false} TrailHolds(r: Run, k: nat, pid: ProcessId)
    requires ValidRun(r) && k <= |r.steps|
    ensures Trail(r, k, pid)
  {
    if k > 0 {
      TrailHolds(r, k - 1, pid);
      RunKeepsInv(r, k - 1);
      assert StepsAt(r, k - 1);
      if r.steps[k - 1].HubMove? && Actor(r.steps[k - 1].move) == Some(pid) {
        TrailStep(r, k - 1, pid);
      } else {
        TrailExtends(r, k - 1, pid);
        if r.steps[k - 1].HubMove? {
          OthersStay(r.states[k - 1].hub, r.states[k - 1].now, r.steps[k - 1].move, pid);
        }
      }
    }
  }

  /** Every publish comes, in the same job run, after the attempt row was created or reused and
      after a later compare-and-set to `delivering` that won. */
  lemma PublishIsPreceded(r: Run, k: nat, pid: ProcessId, subscribers: nat)
    requires ValidRun(r) && k < |r.steps| && r.steps[k] == HubMove(Publish(pid, subscribers))
    ensures AttemptedThenDelivering(r, k, pid)
    ensures pid in r.states[k].hub.procs && r.states[k].hub.procs[pid].role.JobRun?
    ensures var run := r.states[k].hub.procs[pid].role;
      (run.id, run.attempt) in r.states[k].hub.attempts && 1 <= run.attempt <= MAX_ATTEMPTS
  {
    assert StepsAt(r, k);
    TrailHolds(r, k, pid);
    RunKeepsInv(r, k);
    assert ProcessOk(r.states[k].hub, r.states[k].hub.procs[pid]);
  }

  // ---------------------------------------------------------------- the transition table

  /** The one way past the table: an acknowledgement that completes a row still `queued`. */
  predicate PastTheTable(h: Hub, step: HubStep, id: CommandId) {
    && step.ReceiveResult? && step.ack.commandId == id && id in h.rows && h.rows[id].status == Queued
    && step.ack.status in {Succeeded, Rejected, Conflict}
  }

  /** Where the Hub changes in a run a Hub step keeps to its frame. */
  lemma RunFrame(r: Run, k: nat)
    requires ValidRun(r) && k < |r.steps| && r.states[k].hub != r.states[k + 1].hub
    ensures r.steps[k].HubMove? && ProcessesOk(r.states[k].hub)
    ensures Frame(r.states[k].hub, r.states[k].now, r.steps[k].move, r.states[k + 1].hub)
    ensures Safe(r.states[k].hub, r.steps[k].move)
  {
    RunKeepsInv(r, k);
    assert StepsAt(r, k);
    StepFrame(r.states[k].hub, r.states[k].now, r.steps[k].move);
    StepIsSafe(r.states[k].hub, r.states[k].now, r.steps[k].move);
  }

  lemma FollowsTable(h: Hub, now: int, step: HubStep, h': Hub, id: CommandId)
    requires Frame(h, now, step, h') && Safe(h, step) && Changes(h, h', id)
    ensures !CanTransition(h.rows[id].status, h'.rows[id].status) <==> PastTheTable(h, step, id)
  {
  }

  /** Every change of a status in a run is one the table allows, except exactly for acknowledgements
      that complete a `queued` row. */
  lemma ChangesFollowTable(r: Run, k: nat, id: CommandId)
    requires ValidRun(r) && k < |r.steps| && Changes(r.states[k].hub, r.states[k + 1].hub, id)
    ensures !CanTransition(r.states[k].hub.rows[id].status, r.states[k + 1].hub.rows[id].status)
       <==> r.steps[k].HubMove? && PastTheTable(r.states[k].hub, r.steps[k].move, id)
  {
    RunFrame(r, k);
    FollowsTable(r.states[k].hub, r.states[k].now, r.steps[k].move, r.states[k + 1].hub, id);
  }

  // ---------------------------------------------------------------- exhaustion

  /** When the exhaustion handler has ended otherwise than by an exception or a lost race, the command
      is terminal, then and ever after. */
  lemma ExhaustionSettles(r: Run, i: nat, j: nat, pid: ProcessId)
    requires ValidRun(r) && i <= j < |r.states| && pid in r.states[i].hub.procs
    requires r.states[i].hub.procs[pid].role.Exhaustion? && r.states[i].hub.procs[pid].pc.Finished?
    requires r.states[i].hub.procs[pid].pc.end in {Returned, RefusedTransition}
    ensures var id := r.states[i].hub.procs[pid].role.id;
      id in r.states[j].hub.rows && Terminal(r.states[j].hub.rows[id].status)
  {
    RunKeepsInv(r, i);
    assert ProcessOk(r.states[i].hub, r.states[i].hub.procs[pid]);
    TerminalStatusAbsorbs(r, i, j, r.states[i].hub.procs[pid].role.id);
  }

  /** The handler at its compare-and-set, having read `read`. */
  predicate HandlerSwapping(h: Hub, pid: ProcessId, id: CommandId, read: CommandStatus) {
    && pid in h.procs && h.procs[pid].role == Exhaustion(id) && h.procs[pid].pc.Swapping?
    && h.procs[pid].pc.write.commandId == id && h.procs[pid].pc.write.status in {Expired, Failed}
    && h.procs[pid].pc.read == read && id in h.rows
  }

  predicate HandlerEnded(h: Hub, pid: ProcessId, id: CommandId) {
    pid in h.procs && h.procs[pid].role == Exhaustion(id) && h.procs[pid].pc.Finished?
  }

  lemma HandlerMoves(h: Hub, now: int, step: HubStep, pid: ProcessId, id: CommandId, read: CommandStatus)
    requires HubInv(h) && Enabled(h, now, step)
    requires HandlerSwapping(h, pid, id, read) || HandlerEnded(h, pid, id)
    ensures HandlerEnded(h, pid, id) ==> HandlerEnded(Apply(h, now, step), pid, id)
    ensures HandlerSwapping(h, pid, id, read) ==>
      HandlerSwapping(Apply(h, now, step), pid, id, read) || HandlerEnded(Apply(h, now, step), pid, id)
  {
    StepKeepsHubInv(h, now, step);
    if Actor(step) != Some(pid) {
      OthersStay(h, now, step, pid);
    } else {
      HandlerActs(h, now, step, pid, id, read);
    }
  }

  lemma HandlerActs(h: Hub, now: int, step: HubStep, pid: ProcessId, id: CommandId, read: CommandStatus)
    requires ProcessesOk(h) && Enabled(h, now, step) && Actor(step) == Some(pid)
    requires HandlerSwapping(h, pid, id, read) || HandlerEnded(h, pid, id)
    ensures HandlerEnded(Apply(h, now, step), pid, id)
  {
    assert ProcessOk(h, h.procs[pid]);
    assert step.SwapStatus? || step.Throw?;
  }

  lemma HandlerReads(h: Hub, now: int, pid: ProcessId)
    requires HubInv(h) && Enabled(h, now, ReadStatus(pid)) && h.procs[pid].role.Exhaustion?
    ensures var id, h' := h.procs[pid].role.id, Apply(h, now, ReadStatus(pid));
      id in h.rows && (HandlerSwapping(h', pid, id, h.rows[id].status) || HandlerEnded(h', pid, id))
  {
    assert ProcessOk(h, h.procs[pid]);
  }

  /** From its read on the handler holds what it read, until it has ended. */
  lemma {:induction false} HandlerHolds(r: Run, i: nat, k: nat, pid: ProcessId)
    requires ValidRun(r) && i < k <= |r.steps| && r.steps[i] == HubMove(ReadStatus(pid))
    requires pid in r.states[i].hub.procs && r.states[i].hub.procs[pid].role.Exhaustion?
    ensures var id := r.states[i].hub.procs[pid].role.id;
      && id in r.states[i].hub.rows
      && (HandlerSwapping(r.states[k].hub, pid, id, r.states[i].hub.rows[id].status)
          || HandlerEnded(r.states[k].hub, pid, id))
  {
    RunKeepsInv(r, k - 1);
    assert StepsAt(r, k - 1);
    if k == i + 1 {
      HandlerReads(r.states[i].hub, r.states[i].now, pid);
    } else {
      HandlerHolds(r, i, k - 1, pid);
      var id := r.states[i].hub.procs[pid].role.id;
      if r.steps[k - 1].HubMove? {
        HandlerMoves(r.states[k - 1].hub, r.states[k - 1].now, r.steps[k - 1].move, pid, id, r.states[i].hub.rows[id].status);
      }
    }
  }

  /** The write settles the command unless it finds it neither terminal nor as it was read. */
  lemma HandlerWrites(h: Hub, now: int, pid: ProcessId, id: CommandId, read: CommandStatus)
    requires HandlerSwapping(h, pid, id, read) && Enabled(h, now, SwapStatus(pid))
    ensures id in Apply(h, now, SwapStatus(pid)).rows
    ensures Terminal(Apply(h, now, SwapStatus(pid)).rows[id].status) <==>
      Terminal(h.rows[id].status) || h.rows[id].status == read
  {
  }

  /** Step j of the run is another process's winning write of `queued` or `delivering`, and the status
      it wrote, which is not the one the handler had read, is still there in state k. */
  ghost predicate Overtaken(r: Run, j: nat, k: nat, pid: ProcessId, id: CommandId, read: CommandStatus)
    requires |r.states| == |r.steps| + 1 && j < k <= |r.steps|
  {
    && r.steps[j].HubMove? && r.steps[j].move.SwapStatus? && r.steps[j].move.pid != pid
    && var h, q := r.states[j].hub, r.steps[j].move.pid;
       && q in h.procs && (h.procs[q].role.ApiCall? || h.procs[q].role.JobRun?) && h.procs[q].pc.Swapping?
       && h.procs[q].pc.write.commandId == id && h.procs[q].pc.write.status in {Queued, Delivering}
       && h.procs[q].pc.write.status != read && Swaps(h.rows, h.procs[q].pc.write, h.procs[q].pc.read)
       && forall l :: j < l <= k ==> id in r.states[l].hub.rows && r.states[l].hub.rows[id].status == h.procs[q].pc.write.status
  }

  /** A change to a status that is not terminal is a winning write of `queued` or `delivering`. */
  lemma RivalWrites(h: Hub, now: int, step: HubStep, h': Hub, id: CommandId)
    requires ProcessesOk(h) && Frame(h, now, step, h') && Changes(h, h', id) && !Terminal(h'.rows[id].status)
    ensures step.SwapStatus? && step.pid in h.procs && h.procs[step.pid].pc.Swapping?
    ensures h.procs[step.pid].role.ApiCall? || h.procs[step.pid].role.JobRun?
    ensures var w := h.procs[step.pid].pc.write;
      && w.commandId == id && w.status in {Queued, Delivering} && Swaps(h.rows, w, h.procs[step.pid].pc.read)
      && h'.rows[id].status == w.status
  {
    assert step.SwapStatus?;
    assert ProcessOk(h, h.procs[step.pid]);
  }

  lemma RivalAt(r: Run, j: nat, pid: ProcessId, id: CommandId, read: CommandStatus)
    requires ValidRun(r) && j < |r.steps| && Changes(r.states[j].hub, r.states[j + 1].hub, id)
    requires !Terminal(r.states[j + 1].hub.rows[id].status) && r.states[j + 1].hub.rows[id].status != read
    requires r.steps[j] == HubMove(SwapStatus(pid)) ==>
      pid in r.states[j].hub.procs && r.states[j].hub.procs[pid].role.Exhaustion?
    ensures Overtaken(r, j, j + 1, pid, id, read)
  {
    RunFrame(r, j);
    RivalWrites(r.states[j].hub, r.states[j].now, r.steps[j].move, r.states[j + 1].hub, id);
  }

  /** If a status that is not terminal differs from the one read earlier, the last change of it in
      between was such a write. */
  lemma {:induction false} LastRival(r: Run, i: nat, k: nat, pid: ProcessId, id: CommandId)
    requires ValidRun(r) && i <= k <= |r.steps|
    requires id in r.states[i].hub.rows && id in r.states[k].hub.rows
    requires !Terminal(r.states[k].hub.rows[id].status)
    requires r.states[k].hub.rows[id].status != r.states[i].hub.rows[id].status
    requires forall l :: i <= l < k ==> pid in r.states[l].hub.procs && r.states[l].hub.procs[pid].role.Exhaustion?
    ensures exists j: nat :: i <= j < k && Overtaken(r, j, k, pid, id, r.states[i].hub.rows[id].status)
  {
    var read := r.states[i].hub.rows[id].status;
    assert i < k;
    TerminalStatusAbsorbs(r, i, k - 1, id);
    TerminalStatusAbsorbs(r, k - 1, k, id);
    if r.states[k - 1].hub.rows[id].status != r.states[k].hub.rows[id].status {
      RivalAt(r, k - 1, pid, id, read);
    } else {
      LastRival(r, i, k - 1, pid, id);
      var j: nat :| i <= j < k - 1 && Overtaken(r, j, k - 1, pid, id, read);
      assert Overtaken(r, j, k, pid, id, read);
    }
  }

  lemma OwnSwapsAreTheHandlers(r: Run, i: nat, k: nat, pid: ProcessId)
    requires ValidRun(r) && i < k <= |r.steps| && pid in r.states[i].hub.procs
    requires r.states[i].hub.procs[pid].role.Exhaustion?
    ensures forall l :: i <= l < k ==> pid in r.states[l].hub.procs && r.states[l].hub.procs[pid].role.Exhaustion?
  {
    forall l | i <= l < k
      ensures pid in r.states[l].hub.procs && r.states[l].hub.procs[pid].role.Exhaustion?
    {
      RunGrows(r, i, l);
    }
  }

  /** Exactly when the exhaustion handler fails to settle a command: its write, at step k, leaves the
      command in a status that is not terminal if and only if, since its read at step i, another
      process has won a write of `queued` or `delivering` that still stands and differs from what the
      handler had read. */
  lemma ExhaustionFailsIffOvertaken(r: Run, i: nat, k: nat, pid: ProcessId)
    requires ValidRun(r) && i < k < |r.steps|
    requires r.steps[i] == HubMove(ReadStatus(pid)) && r.steps[k] == HubMove(SwapStatus(pid))
    requires pid in r.states[i].hub.procs && r.states[i].hub.procs[pid].role.Exhaustion?
    ensures var id := r.states[i].hub.procs[pid].role.id;
      && id in r.states[i].hub.rows && id in r.states[k + 1].hub.rows
      && (!Terminal(r.states[k + 1].hub.rows[id].status) <==>
          exists j: nat :: i <= j < k && Overtaken(r, j, k, pid, id, r.states[i].hub.rows[id].status))
  {
    var id := r.states[i].hub.procs[pid].role.id;
    HandlerHolds(r, i, k, pid);
    var read := r.states[i].hub.rows[id].status;
    assert StepsAt(r, k);
    HandlerWrites(r.states[k].hub, r.states[k].now, pid, id, read);
    if !Terminal(r.states[k].hub.rows[id].status) && r.states[k].hub.rows[id].status != read {
      OwnSwapsAreTheHandlers(r, i, k, pid);
      LastRival(r, i, k, pid, id);
    }
    if j: nat :| i <= j < k && Overtaken(r, j, k, pid, id, read) {
      assert r.states[k].hub.rows[id].status != read;
    }
  }
}
