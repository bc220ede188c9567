/** The job processor, the exhaustion handler, the pause-attempt handler and the handling of a command
    result as they are written: straight-line code over atomic statements, with every other process free
    to move between two of them. Each statement is one step of the Hub machine, so each body is a path of
    that machine.

    A statement's contract spells out what it does to the tables; a method named for a whole call says
    how the call ends, in terms of what its statements found. Ghost results name what was found. */
module Processes {
  import opened Canonical
  import opened CommandPolicy
  import opened CommandTable
  import opened Fresh
  import opened HubFrames
  import opened HubInvariants
  import opened HubMachine
  import opened Json

  /** A Hub state that satisfies the invariant. */
  type SoundHub = h: Hub | HubInv(h)
    ghost witness InitialHub((x, y) => true)

  ghost predicate Moved(h: Hub, now: int, step: HubStep, h': Hub) {
    Enabled(h, now, step) && h' == Apply(h, now, step)
  }

  /** What a process may rely on while others move. */
  ghost predicate Undisturbed(h: Hub, h': Hub, pid: ProcessId) {
    Grows(h, h') && pid in h.procs && pid in h'.procs && h'.procs[pid] == h.procs[pid]
  }

  lemma OthersDoNotDisturb(h: Hub, h': SoundHub, now: int, step: HubStep, pid: ProcessId)
    requires Undisturbed(h, h', pid) && Enabled(h', now, step) && Actor(step) != Some(pid)
    ensures Undisturbed(h, Apply(h', now, step), pid)
  {
    StepKeepsHubInv(h', now, step);
    OthersStay(h', now, step, pid);
    GrowsTransitive(h, h', Apply(h', now, step));
  }

  /** What a caller may rely on about one command while its own calls and those of others go on. */
  predicate Keeps(h: Hub, h': Hub, id: CommandId) {
    && id in h.rows && id in h'.rows && RowGrows(h.rows[id], h'.rows[id])
    && h.attempts.Keys <= h'.attempts.Keys && h.messages <= h'.messages
  }

  lemma MovedKeeps(h: Hub, h': SoundHub, now: int, step: HubStep, h'': Hub, id: CommandId)
    requires Grows(h, h') && Moved(h', now, step, h'') && id in h.rows
    ensures Keeps(h, h'', id)
  {
    StepKeepsHubInv(h', now, step);
    GrowsTransitive(h, h', h'');
    assert RowGrows(h.rows[id], h''.rows[id]);
  }

  /** `setCommandStatus` threw. */
  predicate GaveUp(pc: Pc) {
    pc == Stop(RefusedTransition) || pc == Stop(LostRace)
  }

  /** The steps of a job run that gets as far as publishing; `created` if it had found the row created. */
  function DeliveryPath(pid: ProcessId, online: bool, subscribers: nat, created: bool): seq<HubStep> {
    [HubStep.GetCommand(pid), HubStep.Decide(pid, online)] + AttemptPath(pid, subscribers, created)
  }

  function AttemptPath(pid: ProcessId, subscribers: nat, created: bool): seq<HubStep> {
    BeginPath(pid, created) + [ReadStatus(pid), SwapStatus(pid), Publish(pid, subscribers), FinishAttempt(pid)]
  }

  function BeginPath(pid: ProcessId, created: bool): seq<HubStep> {
    if created then [CreateAttempt(pid), ReadStatus(pid), SwapStatus(pid)] else [CreateAttempt(pid)]
  }

  lemma PathsJoin(path: seq<HubStep>, pid: ProcessId, subscribers: nat, created: bool, joined: seq<HubStep>)
    requires path + BeginPath(pid, created) <= joined
    ensures path + [CreateAttempt(pid)] <= joined
    ensures path + BeginPath(pid, created) + [ReadStatus(pid), SwapStatus(pid), Publish(pid, subscribers), FinishAttempt(pid)]
         == path + AttemptPath(pid, subscribers, created)
  {
    assert path + [CreateAttempt(pid)] <= path + BeginPath(pid, created);
  }

  /** 202, 200, 409, 404 and 503. */
  datatype Response =
    | Accepted(id: CommandId, status: CommandStatus, replayed: bool)
    | Done(id: CommandId, status: CommandStatus, replayed: bool)
    | KeyConflict
    | NotFound
    | Unavailable

  class HubHost {
    var hub: SoundHub
    var now: int
    /** The statements these methods have run; what others do in between is not in it. */
    ghost var path: seq<HubStep>

    constructor (collation: Collation, start: int)
      requires TotalPreorder(collation)
      ensures hub == InitialHub(collation) && now == start && path == []
    {
      InitialHubInv(collation);
      hub, now, path := InitialHub(collation), start, [];
    }

    /** Any number of steps of the other processes, and time. A caller knows only what it may rely on. */
    method Interleave(pid: ProcessId)
      requires pid in hub.procs
      modifies this
      ensures Undisturbed(old(hub), hub, pid) && old(now) <= now && path == old(path)
    {
      GrowsReflexive(hub);
    }

    /** The same, for a caller that relies on nothing but its own program counter. */
    method Elapse(pid: ProcessId)
      requires pid in hub.procs
      modifies this
      ensures pid in hub.procs && hub.procs[pid] == old(hub).procs[pid] && old(now) <= now && path == old(path)
    {
      Interleave(pid);
    }

    // ---------------------------------------------------------------- statements

    method GetCommand(pid: ProcessId) returns (command: Option<Row>)
      requires Enabled(hub, now, HubStep.GetCommand(pid))
      modifies this`hub, this`path
      ensures Moved(old(hub), now, HubStep.GetCommand(pid), hub) && path == old(path) + [HubStep.GetCommand(pid)]
      ensures var id := hub.procs[pid].role.id;
              command == if id in hub.rows then Some(hub.rows[id]) else None
    {
      var id := hub.procs[pid].role.id;
      StepKeepsHubInv(hub, now, HubStep.GetCommand(pid));
      command := if id in hub.rows then Some(hub.rows[id]) else None;
      hub, path := GetCommandStep(hub, pid, id), path + [HubStep.GetCommand(pid)];
    }

    /** The next thing a run does, or the handler of a spent job, is decided by the row it has read, the
        clock, and whether the Connector is online. */
    method Decide(pid: ProcessId, online: bool)
      requires Enabled(hub, now, HubStep.Decide(pid, online))
      modifies this`hub, this`path
      ensures Moved(old(hub), now, HubStep.Decide(pid, online), hub) && path == old(path) + [HubStep.Decide(pid, online)]
      ensures pid in hub.procs && hub.procs[pid].role == old(hub).procs[pid].role && hub.rows == old(hub).rows
      ensures var role, seen := hub.procs[pid].role, old(hub).procs[pid].pc.seen;
        hub.procs[pid].pc ==
          if role.Exhaustion? then
            Setting(Write(role.id, if seen.expiresAt <= now then Expired else Failed, None, Some("delivery_exhausted"), Some(true)),
                    Finish)
          else if seen.expiresAt <= now then Setting(Write(role.id, Expired, None, None, Some(true)), Finish)
          else if online then Attempting(seen)
          else Finished(Threw, false)
    {
      StepKeepsHubInv(hub, now, HubStep.Decide(pid, online));
      hub, path := DecideStep(hub, now, pid, online), path + [HubStep.Decide(pid, online)];
    }

    method CreateCommandAttempt(pid: ProcessId)
      requires Enabled(hub, now, CreateAttempt(pid))
      modifies this`hub, this`path
      ensures Moved(old(hub), now, CreateAttempt(pid), hub) && path == old(path) + [CreateAttempt(pid)]
      ensures var Process(JobRun(id, n), Attempting(seen)) := old(hub).procs[pid];
        && pid in hub.procs && hub.procs[pid] == Process(JobRun(id, n),
             if seen.status == Created then Setting(Write(id, Queued, None, None, None), ThenDeliver(seen))
             else Setting(Write(id, Delivering, None, None, None), ThenPublish(seen)))
        && hub.attempts == if (id, n) in old(hub).attempts then old(hub).attempts else old(hub).attempts[(id, n) := Underway]
    {
      StepKeepsHubInv(hub, now, CreateAttempt(pid));
      hub, path := CreateAttemptStep(hub, pid), path + [CreateAttempt(pid)];
    }

    method PublishCommand(pid: ProcessId, subscribers: nat)
      requires Enabled(hub, now, Publish(pid, subscribers))
      modifies this`hub, this`path
      ensures Moved(old(hub), now, Publish(pid, subscribers), hub) && path == old(path) + [Publish(pid, subscribers)]
      ensures var Process(JobRun(id, n), Publishing(seen)) := old(hub).procs[pid];
        && pid in hub.procs && hub.procs[pid] == Process(JobRun(id, n), Recording(if subscribers > 0 then Published else NotRouted))
        && hub.messages == old(hub).messages + if subscribers == 0 then {} else
             {Message(id, seen.request.installationId, seen.expiresAt, seen.request.payload, n)}
    {
      StepKeepsHubInv(hub, now, Publish(pid, subscribers));
      hub, path := PublishStep(hub, pid, subscribers), path + [Publish(pid, subscribers)];
    }

    method FinishCommandAttempt(pid: ProcessId)
      requires Enabled(hub, now, FinishAttempt(pid))
      modifies this`hub, this`path
      ensures Moved(old(hub), now, FinishAttempt(pid), hub) && path == old(path) + [FinishAttempt(pid)]
      ensures var Process(JobRun(id, n), Recording(status)) := old(hub).procs[pid];
        && pid in hub.procs && hub.procs[pid] == Process(JobRun(id, n), Finished(Threw, false))
        && hub.attempts == old(hub).attempts[(id, n) := status]
    {
      StepKeepsHubInv(hub, now, FinishAttempt(pid));
      hub, path := FinishAttemptStep(hub, pid), path + [FinishAttempt(pid)];
    }

    method EnqueueJob(pid: ProcessId)
      requires Enabled(hub, now, HubStep.EnqueueJob(pid))
      modifies this`hub, this`path
      ensures Moved(old(hub), now, HubStep.EnqueueJob(pid), hub) && path == old(path) + [HubStep.EnqueueJob(pid)]
      ensures var Process(role, Enqueueing(id)) := old(hub).procs[pid];
        && pid in hub.procs && hub.procs[pid] == Process(role, Setting(Write(id, Queued, None, None, None), Finish))
        && hub.jobs == if id in old(hub).jobs then old(hub).jobs else old(hub).jobs[id := Job(0, false)]
    {
      StepKeepsHubInv(hub, now, HubStep.EnqueueJob(pid));
      var id := hub.procs[pid].pc.id;
      hub, path := Go(hub, pid, Setting(QueuedWrite(id), Finish)).(jobs := Enqueued(hub.jobs, id)), path + [HubStep.EnqueueJob(pid)];
    }

    /** The first half of `setCommandStatus`: read the status and check the transition. */
    method ReadCommandStatus(pid: ProcessId) returns (ok: bool)
      requires pid in hub.procs && hub.procs[pid].pc.Setting?
      modifies this`hub, this`path
      ensures Moved(old(hub), now, ReadStatus(pid), hub) && path == old(path) + [ReadStatus(pid)]
      ensures pid in hub.procs && hub.procs[pid].role == old(hub).procs[pid].role && hub.rows == old(hub).rows
      ensures var Setting(w, next) := old(hub).procs[pid].pc;
        && w.commandId in hub.rows
        && var current := hub.rows[w.commandId].status;
           && (ok <==> current == w.status || CanTransition(current, w.status))
           && hub.procs[pid].pc == if ok then Swapping(w, current, next) else Finished(RefusedTransition, false)
    {
      ReadMoves(hub, now, pid);
      var write := hub.procs[pid].pc.write;
      ok := !Refused(hub.rows[write.commandId].status, write.status);
      hub, path := ReadStatusStep(hub, pid), path + [ReadStatus(pid)];
    }

    /** The second half: write only if the status is still the one that was read. What is given is
        stored, and the other columns are kept. */
    method SwapCommandStatus(pid: ProcessId) returns (ok: bool)
      requires pid in hub.procs && hub.procs[pid].pc.Swapping?
      modifies this`hub, this`path
      ensures Moved(old(hub), now, SwapStatus(pid), hub) && path == old(path) + [SwapStatus(pid)]
      ensures pid in hub.procs && hub.procs[pid].role == old(hub).procs[pid].role
      ensures var Swapping(w, read, next) := old(hub).procs[pid].pc;
        && w.commandId in old(hub).rows
        && var row := old(hub).rows[w.commandId];
           && (ok <==> row.status == read)
           && hub.procs[pid].pc == (if ok then Continue(w.commandId, next) else Finished(LostRace, false))
           && hub.rows == if !ok then old(hub).rows else
                old(hub).rows[w.commandId := row.(
                  status := w.status,
                  result := if w.result.Some? then w.result else row.result,
                  errorCode := if w.errorCode.Some? then w.errorCode else row.errorCode,
                  finishedAt := match w.terminal case None => row.finishedAt case Some(t) => if t then Some(now) else None)]
    {
      SwapMoves(hub, now, pid);
      SwapWrites(hub, now, pid);
      ok := Swaps(hub.rows, hub.procs[pid].pc.write, hub.procs[pid].pc.read);
      hub, path := SwapStatusStep(hub, now, pid), path + [SwapStatus(pid)];
    }

    /** `setCommandStatus`: anything may happen before the read, and again before the write. `read` is
        the status at the read, and `before` the row at the write. It is refused exactly if the table
        does not allow the transition, and otherwise lost exactly if the status has changed since. */
    method SetCommandStatus(pid: ProcessId) returns (ok: bool, ghost read: CommandStatus, ghost before: Row)
      requires pid in hub.procs && hub.procs[pid].pc.Setting?
      modifies this
      ensures old(now) <= now && Keeps(old(hub), hub, old(hub).procs[pid].pc.write.commandId)
      ensures pid in hub.procs && hub.procs[pid].role == old(hub).procs[pid].role
      ensures var Setting(w, next) := old(hub).procs[pid].pc;
        && RowGrows(old(hub).rows[w.commandId], before)
        && if read != w.status && !CanTransition(read, w.status) then
             !ok && hub.procs[pid].pc == Finished(RefusedTransition, false) && hub.rows[w.commandId] == before
             && before.status == read && path == old(path) + [ReadStatus(pid)]
           else
             && (ok <==> before.status == read) && path == old(path) + [ReadStatus(pid), SwapStatus(pid)]
             && hub.procs[pid].pc == (if ok then Continue(w.commandId, next) else Finished(LostRace, false))
             && hub.rows[w.commandId] == if !ok then before else before.(
                  status := w.status,
                  result := if w.result.Some? then w.result else before.result,
                  errorCode := if w.errorCode.Some? then w.errorCode else before.errorCode,
                  finishedAt := match w.terminal case None => before.finishedAt case Some(t) => if t then Some(now) else None)
    {
      SettingHasRow(hub, pid);
      ghost var id := hub.procs[pid].pc.write.commandId;
      ok := ReadLater(pid);
      read, before := hub.rows[id].status, hub.rows[id];
      if ok {
        ok, before := SwapLater(pid);
      }
    }

    method ReadLater(pid: ProcessId) returns (ok: bool)
      requires pid in hub.procs && hub.procs[pid].pc.Setting?
      modifies this
      ensures old(now) <= now && path == old(path) + [ReadStatus(pid)]
      ensures Keeps(old(hub), hub, old(hub).procs[pid].pc.write.commandId)
      ensures pid in hub.procs && hub.procs[pid].role == old(hub).procs[pid].role
      ensures var Setting(w, next) := old(hub).procs[pid].pc;
        && var current := hub.rows[w.commandId].status;
           && (ok <==> current == w.status || CanTransition(current, w.status))
           && hub.procs[pid].pc == if ok then Swapping(w, current, next) else Finished(RefusedTransition, false)
    {
      SettingHasRow(hub, pid);
      Interleave(pid);
      ghost var h := hub;
      ghost var id := hub.procs[pid].pc.write.commandId;
      ok := ReadCommandStatus(pid);
      MovedKeeps(old(hub), h, now, ReadStatus(pid), hub, id);
    }

    method SwapLater(pid: ProcessId) returns (ok: bool, ghost before: Row)
      requires pid in hub.procs && hub.procs[pid].pc.Swapping? && hub.procs[pid].pc.write.commandId in hub.rows
      modifies this
      ensures old(now) <= now && path == old(path) + [SwapStatus(pid)]
      ensures Keeps(old(hub), hub, old(hub).procs[pid].pc.write.commandId)
      ensures pid in hub.procs && hub.procs[pid].role == old(hub).procs[pid].role
      ensures var Swapping(w, read, next) := old(hub).procs[pid].pc;
        && RowGrows(old(hub).rows[w.commandId], before)
        && (ok <==> before.status == read)
        && hub.procs[pid].pc == (if ok then Continue(w.commandId, next) else Finished(LostRace, false))
        && hub.rows[w.commandId] == if !ok then before else before.(
             status := w.status,
             result := if w.result.Some? then w.result else before.result,
             errorCode := if w.errorCode.Some? then w.errorCode else before.errorCode,
             finishedAt := match w.terminal case None => before.finishedAt case Some(t) => if t then Some(now) else None)
    {
      Interleave(pid);
      ghost var h := hub;
      ghost var id := hub.procs[pid].pc.write.commandId;
      before := hub.rows[id];
      ok := SwapCommandStatus(pid);
      MovedKeeps(old(hub), h, now, SwapStatus(pid), hub, id);
    }

    // ---------------------------------------------------------------- the queue

    /** A run is numbered after the runs that have been counted. */
    method StartRun(pid: ProcessId, id: CommandId)
      requires Enabled(hub, now, HubStep.StartRun(pid, id))
      modifies this`hub, this`path
      ensures Moved(old(hub), now, HubStep.StartRun(pid, id), hub) && path == old(path) + [HubStep.StartRun(pid, id)]
      ensures hub == old(hub).(procs := old(hub).procs[pid := Process(JobRun(id, old(hub).jobs[id].attemptsMade + 1), Reading)])
    {
      StepKeepsHubInv(hub, now, HubStep.StartRun(pid, id));
      hub, path := Started(hub, pid, JobRun(id, hub.jobs[id].attemptsMade + 1), Reading), path + [HubStep.StartRun(pid, id)];
    }

    /** A run that returned completes its job, and one that threw is counted, once. */
    method CountRun(pid: ProcessId)
      requires Enabled(hub, now, HubStep.CountRun(pid))
      modifies this`hub, this`path
      ensures Moved(old(hub), now, HubStep.CountRun(pid), hub) && path == old(path) + [HubStep.CountRun(pid)]
      ensures pid in hub.procs && hub.procs[pid] == old(hub).procs[pid].(pc := old(hub).procs[pid].pc.(counted := true))
      ensures var Process(JobRun(id, n), Finished(end, _)) := old(hub).procs[pid];
        hub.jobs == if id !in old(hub).jobs then old(hub).jobs
                    else if end == Returned then old(hub).jobs[id := Job(old(hub).jobs[id].attemptsMade, true)]
                    else if old(hub).jobs[id].attemptsMade + 1 == n then old(hub).jobs[id := Job(n, old(hub).jobs[id].done)]
                    else old(hub).jobs
    {
      StepKeepsHubInv(hub, now, HubStep.CountRun(pid));
      hub, path := CountRunStep(hub, pid), path + [HubStep.CountRun(pid)];
    }

    /** What the worker does at its start with a command that is open and not yet due. */
    method Recover(id: CommandId)
      requires id in hub.rows && hub.rows[id].status in {Created, Queued, Delivering} && now < hub.rows[id].expiresAt
      modifies this`hub, this`path
      ensures Moved(old(hub), now, RecoverJob(id), hub) && path == old(path) + [RecoverJob(id)]
      ensures hub.jobs == (if id in old(hub).jobs then old(hub).jobs else old(hub).jobs[id := Job(0, false)])
      ensures hub == old(hub).(jobs := hub.jobs)
    {
      StepKeepsHubInv(hub, now, RecoverJob(id));
      hub, path := hub.(jobs := Enqueued(hub.jobs, id)), path + [RecoverJob(id)];
    }

    // ---------------------------------------------------------------- the job processor

    /** One job run under any interference. `found` is the row it reads and `decidedAt` when it looks at
        the clock. A terminal command ends it at once; one that is due is marked expired; one whose
        Connector is offline ends it with an exception, to be retried. Otherwise it gets as far as its
        attempt row, and unless one of its status writes is refused or lost it publishes the row's own
        message, finishes the attempt row as it went, and ends with an exception. */
    method ProcessJob(pid: ProcessId, online: bool, subscribers: nat)
      returns (end: End, published: bool, ghost found: Row, ghost decidedAt: int)
      requires pid in hub.procs && hub.procs[pid].role.JobRun? && hub.procs[pid].pc.Reading?
      modifies this
      ensures pid in hub.procs && hub.procs[pid] == Process(old(hub).procs[pid].role, Finished(end, false))
      ensures var JobRun(id, n) := old(hub).procs[pid].role;
        && id in hub.rows && RowGrows(found, hub.rows[id])
        && if Terminal(found.status) then
             end == Returned && !published && path == old(path) + [HubStep.GetCommand(pid)]
           else if found.expiresAt <= decidedAt then
             && !published && end in {Returned, RefusedTransition, LostRace}
             && (end == Returned ==> hub.rows[id].status == Expired && hub.rows[id].finishedAt == Some(now))
             && old(path) + [HubStep.GetCommand(pid), HubStep.Decide(pid, online)] <= path
           else if !online then
             end == Threw && !published && path == old(path) + [HubStep.GetCommand(pid), HubStep.Decide(pid, online)]
           else
             && end in {Threw, RefusedTransition, LostRace} && published == (end == Threw && subscribers > 0)
             && (id, n) in hub.attempts
             && old(path) + [HubStep.GetCommand(pid), HubStep.Decide(pid, online), CreateAttempt(pid)] <= path
             && (end == Threw ==>
                   && path == old(path) + DeliveryPath(pid, online, subscribers, found.status == Created)
                   && hub.attempts[(id, n)] == (if subscribers > 0 then Published else NotRouted))
             && (published ==>
                   Message(id, hub.rows[id].request.installationId, hub.rows[id].expiresAt, hub.rows[id].request.payload, n)
                   in hub.messages)
    {
      var ready;
      ready, end, found, decidedAt := Prepare(pid, online);
      published := false;
      if ready {
        ghost var id, h := hub.procs[pid].role.id, hub;
        end, published := Deliver(pid, subscribers);
        RowGrowsTransitive(found, h.rows[id], hub.rows[id]);
      }
    }

    method Fetch(pid: ProcessId) returns (command: Row)
      requires pid in hub.procs && hub.procs[pid].pc.Reading?
      requires hub.procs[pid].role.JobRun? || hub.procs[pid].role.Exhaustion?
      modifies this
      ensures pid in hub.procs && old(now) <= now
      ensures hub.procs[pid] == Process(old(hub).procs[pid].role,
        if Terminal(command.status) then Finished(Returned, false) else Deciding(command))
      ensures path == old(path) + [HubStep.GetCommand(pid)]
      ensures var id := hub.procs[pid].role.id; id in hub.rows && hub.rows[id] == command
    {
      Elapse(pid);
      RoleHasRow(hub, pid);
      var got := GetCommand(pid);
      command := got.value;
    }

    method DecideLater(pid: ProcessId, online: bool) returns (expired: bool)
      requires pid in hub.procs && hub.procs[pid].pc.Deciding?
      requires hub.procs[pid].role.JobRun? || hub.procs[pid].role.Exhaustion?
      modifies this
      ensures pid in hub.procs && hub.procs[pid].role == old(hub).procs[pid].role
      ensures expired <==> old(hub).procs[pid].pc.seen.expiresAt <= now
      ensures var role, seen := hub.procs[pid].role, old(hub).procs[pid].pc.seen;
        hub.procs[pid].pc ==
          if role.Exhaustion? then
            Setting(Write(role.id, if seen.expiresAt <= now then Expired else Failed, None, Some("delivery_exhausted"), Some(true)),
                    Finish)
          else if seen.expiresAt <= now then Setting(Write(role.id, Expired, None, None, Some(true)), Finish)
          else if online then Attempting(seen)
          else Finished(Threw, false)
      ensures path == old(path) + [HubStep.Decide(pid, online)]
      ensures hub.procs[pid].role.id in hub.rows && RowGrows(old(hub).procs[pid].pc.seen, hub.rows[hub.procs[pid].role.id])
    {
      Elapse(pid);
      SeenHolds(hub, pid);
      expired := IsExpired(hub.procs[pid].pc.seen.expiresAt, now);
      Decide(pid, online);
    }

    /** The processor up to the attempt: stop on a terminal, expired or unreachable command. */
    method Prepare(pid: ProcessId, online: bool) returns (ready: bool, end: End, ghost found: Row, ghost decidedAt: int)
      requires pid in hub.procs && hub.procs[pid].role.JobRun? && hub.procs[pid].pc.Reading?
      modifies this
      ensures pid in hub.procs && hub.procs[pid].role == old(hub).procs[pid].role
      ensures hub.procs[pid].pc == if ready then Attempting(found) else Finished(end, false)
      ensures ready <==> !Terminal(found.status) && decidedAt < found.expiresAt && online
      ensures var id := hub.procs[pid].role.id;
        && id in hub.rows && RowGrows(found, hub.rows[id])
        && if Terminal(found.status) then end == Returned && path == old(path) + [HubStep.GetCommand(pid)]
           else if found.expiresAt <= decidedAt then
             && end in {Returned, RefusedTransition, LostRace}
             && (end == Returned ==> hub.rows[id].status == Expired && hub.rows[id].finishedAt == Some(now))
             && old(path) + [HubStep.GetCommand(pid), HubStep.Decide(pid, online)] <= path
           else
             && path == old(path) + [HubStep.GetCommand(pid), HubStep.Decide(pid, online)]
             && (!online ==> end == Threw)
    {
      ready, end := false, Returned;
      var command := Fetch(pid);
      found, decidedAt := command, now;
      if Terminal(command.status) {
        return;
      }
      ready, end, decidedAt := Choose(pid, online);
    }

    /** What a run does with an open row: expire it, give up for now, or go on. */
    method Choose(pid: ProcessId, online: bool) returns (ready: bool, end: End, ghost decidedAt: int)
      requires pid in hub.procs && hub.procs[pid].role.JobRun? && hub.procs[pid].pc.Deciding?
      modifies this
      ensures pid in hub.procs && hub.procs[pid].role == old(hub).procs[pid].role
      ensures var id, seen := hub.procs[pid].role.id, old(hub).procs[pid].pc.seen;
        && hub.procs[pid].pc == (if ready then Attempting(seen) else Finished(end, false))
        && (ready <==> decidedAt < seen.expiresAt && online)
        && id in hub.rows && RowGrows(seen, hub.rows[id])
        && if seen.expiresAt <= decidedAt then
             && end in {Returned, RefusedTransition, LostRace}
             && (end == Returned ==> hub.rows[id].status == Expired && hub.rows[id].finishedAt == Some(now))
             && old(path) + [HubStep.Decide(pid, online)] <= path
           else path == old(path) + [HubStep.Decide(pid, online)] && (!online ==> end == Threw)
    {
      ghost var id, seen := hub.procs[pid].role.id, hub.procs[pid].pc.seen;
      var expired := DecideLater(pid, online);
      decidedAt := now;
      if expired {
        ghost var row := hub.rows[id];
        ready := false;
        end := Expire(pid);
        RowGrowsTransitive(seen, row, hub.rows[id]);
      } else {
        ready, end := online, Threw;
      }
    }

    /** The status write that ends a run or a handler. */
    method Expire(pid: ProcessId) returns (end: End)
      requires pid in hub.procs && hub.procs[pid].pc.Setting? && hub.procs[pid].pc.next == Finish
      requires hub.procs[pid].pc.write.terminal == Some(true) && hub.procs[pid].pc.write.result.None?
      modifies this
      ensures pid in hub.procs && hub.procs[pid] == Process(old(hub).procs[pid].role, Finished(end, false))
      ensures end in {Returned, RefusedTransition, LostRace}
      ensures var w := old(hub).procs[pid].pc.write;
        && Keeps(old(hub), hub, w.commandId)
        && (end == Returned ==>
              && hub.rows[w.commandId].status == w.status && hub.rows[w.commandId].finishedAt == Some(now)
              && (w.errorCode.Some? ==> hub.rows[w.commandId].errorCode == w.errorCode))
      ensures old(path) <= path && old(now) <= now
    {
      var ok;
      ghost var read, before;
      ok, read, before := SetCommandStatus(pid);
      end := hub.procs[pid].pc.end;
    }

    /** A status write on the way to something else. */
    method WriteStatus(pid: ProcessId) returns (ok: bool)
      requires pid in hub.procs && hub.procs[pid].pc.Setting?
      modifies this
      ensures pid in hub.procs && hub.procs[pid].role == old(hub).procs[pid].role
      ensures var Setting(w, next) := old(hub).procs[pid].pc;
        && Keeps(old(hub), hub, w.commandId)
        && if ok then hub.procs[pid].pc == Continue(w.commandId, next) else GaveUp(hub.procs[pid].pc)
      ensures if ok then path == old(path) + [ReadStatus(pid), SwapStatus(pid)] else old(path) <= path
    {
      ghost var read, before;
      ok, read, before := SetCommandStatus(pid);
    }

    method StartAttempt(pid: ProcessId)
      requires pid in hub.procs && hub.procs[pid].role.JobRun? && hub.procs[pid].pc.Attempting?
      modifies this
      ensures path == old(path) + [CreateAttempt(pid)] && Keeps(old(hub), hub, old(hub).procs[pid].role.id)
      ensures var Process(JobRun(id, n), Attempting(seen)) := old(hub).procs[pid];
        && pid in hub.procs && hub.procs[pid] == Process(JobRun(id, n),
             if seen.status == Created then Setting(Write(id, Queued, None, None, None), ThenDeliver(seen))
             else Setting(Write(id, Delivering, None, None, None), ThenPublish(seen)))
        && (id, n) in hub.attempts
    {
      RunHolds(hub, pid);
      Interleave(pid);
      ghost var h := hub;
      CreateCommandAttempt(pid);
      MovedKeeps(old(hub), h, now, CreateAttempt(pid), hub, hub.procs[pid].role.id);
    }

    /** The attempt row, and `queued` if the row was only created. */
    method BeginAttempt(pid: ProcessId) returns (ok: bool)
      requires pid in hub.procs && hub.procs[pid].role.JobRun? && hub.procs[pid].pc.Attempting?
      modifies this
      ensures pid in hub.procs && hub.procs[pid].role == old(hub).procs[pid].role
      ensures if ok then hub.procs[pid].pc.Setting? && hub.procs[pid].pc.next.ThenPublish? else GaveUp(hub.procs[pid].pc)
      ensures (hub.procs[pid].role.id, hub.procs[pid].role.attempt) in hub.attempts && Keeps(old(hub), hub, hub.procs[pid].role.id)
      ensures var created := old(hub).procs[pid].pc.seen.status == Created;
        if ok then path == old(path) + BeginPath(pid, created)
        else old(path) + [CreateAttempt(pid)] <= path
    {
      RunHolds(hub, pid);
      var untouched := hub.procs[pid].pc.seen.status == Created;
      StartAttempt(pid);
      ok := true;
      if untouched {
        ok := WriteStatus(pid);
      }
    }

    /** What a run leaves behind when it has published. */
    ghost predicate Sent(id: CommandId, n: nat)
      reads this
    {
      && id in hub.rows && (id, n) in hub.attempts && hub.attempts[(id, n)] == Published
      && Message(id, hub.rows[id].request.installationId, hub.rows[id].expiresAt, hub.rows[id].request.payload, n) in hub.messages
    }

    /** The attempt, `delivering`, and the publish. */
    method Deliver(pid: ProcessId, subscribers: nat) returns (end: End, published: bool)
      requires pid in hub.procs && hub.procs[pid].role.JobRun? && hub.procs[pid].pc.Attempting?
      modifies this
      ensures pid in hub.procs && hub.procs[pid] == Process(old(hub).procs[pid].role, Finished(end, false))
      ensures end in {Threw, RefusedTransition, LostRace} && published == (end == Threw && subscribers > 0)
      ensures var JobRun(id, n) := old(hub).procs[pid].role;
        && (id, n) in hub.attempts
        && (end == Threw ==> hub.attempts[(id, n)] == if subscribers > 0 then Published else NotRouted)
        && (published ==> Sent(id, n))
      ensures end == Threw ==> path == old(path) + AttemptPath(pid, subscribers, old(hub).procs[pid].pc.seen.status == Created)
      ensures old(path) + [CreateAttempt(pid)] <= path && Keeps(old(hub), hub, hub.procs[pid].role.id)
    {
      var begun := BeginAttempt(pid);
      if !begun {
        return hub.procs[pid].pc.end, false;
      }
      ghost var before := path;
      end, published := Proceed(pid, subscribers);
      assert before <= path;
      PathsJoin(old(path), pid, subscribers, old(hub).procs[pid].pc.seen.status == Created, path);
    }

    /** The write of `delivering`, and the publish. */
    method Proceed(pid: ProcessId, subscribers: nat) returns (end: End, published: bool)
      requires pid in hub.procs && hub.procs[pid].role.JobRun?
      requires hub.procs[pid].pc.Setting? && hub.procs[pid].pc.next.ThenPublish?
      requires (hub.procs[pid].role.id, hub.procs[pid].role.attempt) in hub.attempts
      modifies this
      ensures pid in hub.procs && hub.procs[pid] == Process(old(hub).procs[pid].role, Finished(end, false))
      ensures end in {Threw, RefusedTransition, LostRace} && published == (end == Threw && subscribers > 0)
      ensures Keeps(old(hub), hub, old(hub).procs[pid].role.id)
      ensures var JobRun(id, n) := old(hub).procs[pid].role;
        && (end == Threw ==> (id, n) in hub.attempts && hub.attempts[(id, n)] == if subscribers > 0 then Published else NotRouted)
        && (published ==> Sent(id, n))
      ensures end == Threw ==>
        path == old(path) + [ReadStatus(pid), SwapStatus(pid), Publish(pid, subscribers), FinishAttempt(pid)]
      ensures old(path) <= path
    {
      RunHolds(hub, pid);
      var delivering := WriteStatus(pid);
      if !delivering {
        return hub.procs[pid].pc.end, false;
      }
      end, published := PublishAndRecord(pid, subscribers);
    }

    /** The publish; `m` is what went out if somebody subscribed. */
    method Announce(pid: ProcessId, subscribers: nat) returns (ghost m: Message)
      requires pid in hub.procs && hub.procs[pid].role.JobRun? && hub.procs[pid].pc.Publishing?
      modifies this
      ensures pid in hub.procs && hub.procs[pid].role == old(hub).procs[pid].role
      ensures hub.procs[pid].pc == Recording(if subscribers > 0 then Published else NotRouted)
      ensures path == old(path) + [Publish(pid, subscribers)]
      ensures m.commandId == hub.procs[pid].role.id && m.attempt == hub.procs[pid].role.attempt
      ensures subscribers > 0 ==> m in hub.messages
      ensures Keeps(old(hub), hub, old(hub).procs[pid].role.id)
    {
      RunHolds(hub, pid);
      m := MessageFor(hub.procs[pid].role.id, hub.procs[pid].pc.seen, hub.procs[pid].role.attempt);
      Interleave(pid);
      ghost var h := hub;
      PublishCommand(pid, subscribers);
      MovedKeeps(old(hub), h, now, Publish(pid, subscribers), hub, hub.procs[pid].role.id);
    }

    method Record(pid: ProcessId)
      requires pid in hub.procs && hub.procs[pid].role.JobRun? && hub.procs[pid].pc.Recording?
      modifies this
      ensures pid in hub.procs && hub.procs[pid] == Process(old(hub).procs[pid].role, Finished(Threw, false))
      ensures path == old(path) + [FinishAttempt(pid)]
      ensures var JobRun(id, n) := old(hub).procs[pid].role;
        (id, n) in hub.attempts && hub.attempts[(id, n)] == old(hub).procs[pid].pc.status
      ensures Keeps(old(hub), hub, old(hub).procs[pid].role.id)
    {
      RunHolds(hub, pid);
      Interleave(pid);
      ghost var h := hub;
      FinishCommandAttempt(pid);
      MovedKeeps(old(hub), h, now, FinishAttempt(pid), hub, hub.procs[pid].role.id);
    }

    /** The attempt row is finished as it went: published, or not routed when nobody subscribed. The
        run ends with an exception either way, which keeps the job retryable. */
    method PublishAndRecord(pid: ProcessId, subscribers: nat) returns (end: End, published: bool)
      requires pid in hub.procs && hub.procs[pid].role.JobRun? && hub.procs[pid].pc.Publishing?
      modifies this
      ensures pid in hub.procs && hub.procs[pid] == Process(old(hub).procs[pid].role, Finished(end, false))
      ensures end == Threw && published == (subscribers > 0)
      ensures path == old(path) + [Publish(pid, subscribers), FinishAttempt(pid)]
      ensures var JobRun(id, n) := old(hub).procs[pid].role;
        && (id, n) in hub.attempts && hub.attempts[(id, n)] == (if published then Published else NotRouted)
        && (published ==> Sent(id, n))
      ensures Keeps(old(hub), hub, old(hub).procs[pid].role.id)
    {
      ghost var m := Announce(pid, subscribers);
      Record(pid);
      end, published := Threw, subscribers > 0;
      if published {
        CarriesTheRow(hub, m);
      }
    }

    // ---------------------------------------------------------------- exhaustion

    /** The handler of a job that failed for the last time. `found` is the row it reads and `decidedAt`
        when it looks at the clock. If its write wins, the command is expired or failed as it was due or
        not, with the code of an exhausted delivery, finished at the time of the write. */
    method SettleExhausted(pid: ProcessId) returns (end: End, ghost found: Row, ghost decidedAt: int)
      requires pid in hub.procs && hub.procs[pid].role.Exhaustion? && hub.procs[pid].pc.Reading?
      modifies this
      ensures pid in hub.procs && hub.procs[pid] == Process(old(hub).procs[pid].role, Finished(end, false))
      ensures end in {Returned, RefusedTransition, LostRace}
      ensures var id := old(hub).procs[pid].role.id;
        && id in hub.rows && RowGrows(found, hub.rows[id]) && (end != LostRace ==> Terminal(hub.rows[id].status))
        && if Terminal(found.status) then end == Returned && path == old(path) + [HubStep.GetCommand(pid)]
           else
             && old(path) + [HubStep.GetCommand(pid), HubStep.Decide(pid, true)] <= path
             && (end == Returned ==>
                   && hub.rows[id].status == (if found.expiresAt <= decidedAt then Expired else Failed)
                   && hub.rows[id].errorCode == Some("delivery_exhausted") && hub.rows[id].finishedAt == Some(now))
    {
      var command := Fetch(pid);
      end, found, decidedAt := Returned, command, now;
      if !Terminal(command.status) {
        var _ := DecideLater(pid, true);
        decidedAt := now;
        end := Expire(pid);
      }
      ExhaustionHolds(hub, pid);
    }

    method StartExhaustion(pid: ProcessId, id: CommandId)
      requires Enabled(hub, now, HubStep.StartExhaustion(pid, id))
      modifies this`hub, this`path
      ensures Moved(old(hub), now, HubStep.StartExhaustion(pid, id), hub) && path == old(path) + [HubStep.StartExhaustion(pid, id)]
      ensures hub == old(hub).(procs := old(hub).procs[pid := Process(Exhaustion(id), Reading)])
    {
      StepKeepsHubInv(hub, now, HubStep.StartExhaustion(pid, id));
      hub, path := Started(hub, pid, Exhaustion(id), Reading), path + [HubStep.StartExhaustion(pid, id)];
    }

    /** The `failed` event of a job: only one whose eight runs are spent is handled, and any other is left
        as it is, to be retried. */
    method OnFailed(pid: ProcessId, id: CommandId) returns (end: Option<End>)
      requires pid !in hub.procs && id in hub.jobs
      modifies this
      ensures end.Some? <==> old(hub).jobs[id].attemptsMade >= 8
      ensures end.None? ==> hub == old(hub) && path == old(path)
      ensures end.Some? ==>
        pid in hub.procs && hub.procs[pid] == Process(Exhaustion(id), Finished(end.value, false))
        && id in hub.rows && (end.value != LostRace ==> Terminal(hub.rows[id].status))
    {
      if hub.jobs[id].attemptsMade < MAX_ATTEMPTS {
        return None;
      }
      StartExhaustion(pid, id);
      var ended;
      ghost var found, decidedAt;
      ended, found, decidedAt := SettleExhausted(pid);
      end := Some(ended);
    }

    // ---------------------------------------------------------------- createCommand

    method Submit(pid: ProcessId, input: CreateInput)
      requires pid !in hub.procs && InputOk(input)
      modifies this`hub, this`path
      ensures Moved(old(hub), now, SubmitCall(pid, input), hub) && path == old(path) + [SubmitCall(pid, input)]
      ensures hub == old(hub).(procs := old(hub).procs[pid := Process(ApiCall(input, None), Checking)])
    {
      StepKeepsHubInv(hub, now, SubmitCall(pid, input));
      hub, path := Started(hub, pid, ApiCall(input, None), Checking), path + [SubmitCall(pid, input)];
    }

    /** `assertRuntimeOwner`. */
    method AssertRuntimeOwner(pid: ProcessId, paired: bool) returns (allowed: bool)
      requires pid in hub.procs && hub.procs[pid].role.ApiCall? && hub.procs[pid].pc.Checking?
      modifies this
      ensures var input := old(hub).procs[pid].role.input;
        && (allowed <==>
              paired && input.wanted.installationId in hub.owners && hub.owners[input.wanted.installationId] == input.ownerId)
        && pid in hub.procs
        && hub.procs[pid] == if allowed then Process(old(hub).procs[pid].role, Inserting)
                             else Process(ApiCall(input, Some(NotPaired)), Finished(Threw, false))
      ensures path == old(path) + [CheckRuntime(pid, paired)] && OwnersKept(old(hub), hub)
    {
      Interleave(pid);
      var input := hub.procs[pid].role.input;
      allowed := paired && input.wanted.installationId in hub.owners && hub.owners[input.wanted.installationId] == input.ownerId;
      StepKeepsHubInv(hub, now, CheckRuntime(pid, paired));
      hub, path := CheckRuntimeStep(hub, pid, paired), path + [CheckRuntime(pid, paired)];
    }

    /** The insert with `on conflict do nothing`; `at` is the table it finds. */
    method InsertRow(pid: ProcessId) returns (made: Option<CommandId>, ghost at: Rows)
      requires pid in hub.procs && hub.procs[pid].role.ApiCall? && hub.procs[pid].pc.Inserting?
      modifies this
      ensures var input := old(hub).procs[pid].role.input;
        && pid in hub.procs
        && (made.None? <==> exists id :: id in at && at[id].ownerId == input.ownerId && at[id].idempotencyKey == input.idempotencyKey)
        && hub.procs[pid] == (if made.None? then Process(old(hub).procs[pid].role, Looking)
                              else Process(ApiCall(input, Some(Made(made.value))), Enqueueing(made.value)))
        && (made.None? ==> hub.rows == at)
        && (made.Some? ==>
              made.value !in at && hub.rows == at[made.value := Row(
                input.ownerId, input.idempotencyKey,
                Request(input.wanted.installationId, input.wanted.runtimeId, input.wanted.kind, input.wanted.targetId,
                        input.wanted.expectedEventSequence, input.wanted.expectedTargetUpdatedAt, Meaning(input.wanted.payload)),
                input.expiresAt, Created, None, None, None)])
      ensures old(path) <= path
    {
      Elapse(pid);
      at := hub.rows;
      ghost var unused := Unused(hub.rows);
      var id: CommandId :| id !in hub.rows;
      var taken := InsertCommand(pid, id);
      made := if taken then None else Some(id);
    }

    method InsertCommand(pid: ProcessId, id: CommandId) returns (taken: bool)
      requires Enabled(hub, now, HubStep.InsertCommand(pid, id))
      modifies this`hub, this`path
      ensures Moved(old(hub), now, HubStep.InsertCommand(pid, id), hub) && path == old(path) + [HubStep.InsertCommand(pid, id)]
      ensures var input := old(hub).procs[pid].role.input;
        && (taken <==> exists other :: other in old(hub).rows && SameKey(old(hub).rows[other], input))
        && hub == if taken then old(hub).(procs := old(hub).procs[pid := Process(old(hub).procs[pid].role, Looking)])
                  else old(hub).(rows := old(hub).rows[id := NewRow(input)],
                                 procs := old(hub).procs[pid := Process(ApiCall(input, Some(Made(id))), Enqueueing(id))])
    {
      var input := hub.procs[pid].role.input;
      taken := exists other :: other in hub.rows && SameKey(hub.rows[other], input);
      StepKeepsHubInv(hub, now, HubStep.InsertCommand(pid, id));
      hub, path := InsertCommandStep(hub, pid, id, taken), path + [HubStep.InsertCommand(pid, id)];
    }

    /** The select, after others may have moved: it finds the row that has the key. */
    method SelectExisting(pid: ProcessId, ghost holder: CommandId) returns (id: CommandId)
      requires pid in hub.procs && hub.procs[pid].role.ApiCall?
      requires holder in hub.rows && SameKey(hub.rows[holder], hub.procs[pid].role.input)
      modifies this
      ensures pid in hub.procs && hub.procs[pid] == old(hub).procs[pid] && old(path) == path
      ensures id == holder && id in hub.rows && SameKey(hub.rows[id], hub.procs[pid].role.input)
    {
      ghost var h := hub;
      Interleave(pid);
      assert RowGrows(h.rows[holder], hub.rows[holder]);
      assert SameKey(hub.rows[holder], hub.procs[pid].role.input);
      var input := hub.procs[pid].role.input;
      id :| id in hub.rows && SameKey(hub.rows[id], input);
      OneHolder(hub, input, id, holder);
    }

    /** The select, and the comparison with the row that has the key. */
    method LookUp(pid: ProcessId, ghost holder: CommandId, render: Value -> Json) returns (outcome: Outcome, row: Row)
      requires pid in hub.procs && hub.procs[pid].role.ApiCall? && hub.procs[pid].pc.Looking? && Renders(render)
      requires holder in hub.rows && SameKey(hub.rows[holder], hub.procs[pid].role.input)
      modifies this
      ensures pid in hub.procs && holder in hub.rows && row == hub.rows[holder]
      ensures var input := old(hub).procs[pid].role.input;
        && row.ownerId == input.ownerId && row.idempotencyKey == input.idempotencyKey
        && hub.procs[pid].role == ApiCall(input, Some(outcome))
        && (outcome == Replayed(holder) || outcome == KeyReused)
        && (outcome == Replayed(holder) ==> row.request == RequestOf(input.wanted))
        && (outcome == KeyReused ==> row.request != RequestOf(input.wanted) || !NoTies(hub.collation, input.wanted.payload))
        && hub.procs[pid].pc == if outcome.KeyReused? then Finished(Threw, false)
                                else if row.status == Created then Enqueueing(holder) else Finished(Returned, false)
    {
      var id := SelectExisting(pid, holder);
      row := hub.rows[id];
      outcome := LookupCommand(pid, id, render(row.request.payload));
    }

    method LookupCommand(pid: ProcessId, id: CommandId, stored: Json) returns (outcome: Outcome)
      requires Enabled(hub, now, LookupExisting(pid, id, stored))
      modifies this`hub, this`path
      ensures Moved(old(hub), now, LookupExisting(pid, id, stored), hub) && path == old(path) + [LookupExisting(pid, id, stored)]
      ensures hub.rows == old(hub).rows && hub.collation == old(hub).collation
      ensures var input, row := old(hub).procs[pid].role.input, old(hub).rows[id];
        && (outcome == Replayed(id) || outcome == KeyReused)
        && (outcome == Replayed(id) ==> row.request == RequestOf(input.wanted))
        && (outcome == KeyReused ==> row.request != RequestOf(input.wanted) || !NoTies(hub.collation, input.wanted.payload))
        && pid in hub.procs && hub.procs[pid] == Process(ApiCall(input, Some(outcome)),
             if outcome.KeyReused? then Finished(Threw, false)
             else if row.status == Created then Enqueueing(id) else Finished(Returned, false))
    {
      var input := hub.procs[pid].role.input;
      LookupMoves(hub, now, pid, id, stored);
      var verdict := SameIdempotentCommand(hub.collation, ReadBack(hub.rows[id].request, stored), input.wanted);
      outcome := if verdict == Same then Replayed(id) else KeyReused;
      hub, path := LookupExistingStep(hub, pid, id, verdict), path + [LookupExisting(pid, id, stored)];
    }

    /** The call under interference. It is refused unless the Runtime is paired to an installation of the
        caller's; it makes a row if nobody has the key, and otherwise tells a replay from a reused key by
        comparing with the row that has it. `row` is the row as the call returns it. */
    method CreateCommand(pid: ProcessId, input: CreateInput, paired: bool, render: Value -> Json)
      returns (outcome: Outcome, row: Option<Row>)
      requires pid !in hub.procs && InputOk(input) && Renders(render)
      modifies this
      ensures pid in hub.procs && hub.procs[pid].role == ApiCall(input, Some(outcome))
      ensures outcome == NotPaired || outcome == KeyReused ==> row.None? && hub.procs[pid].pc == Finished(Threw, false)
      ensures !paired ==> outcome == NotPaired
      ensures paired && Owned(old(hub), input.wanted.installationId, input.ownerId) ==> outcome != NotPaired
      ensures outcome.Made? || outcome.Replayed? ==>
        && row.Some? && outcome.id in hub.rows && row.value == hub.rows[outcome.id]
        && row.value.ownerId == input.ownerId && row.value.idempotencyKey == input.idempotencyKey
        && row.value.request == RequestOf(input.wanted)
        && hub.procs[pid].pc == if row.value.status == Created then Enqueueing(outcome.id) else Finished(Returned, false)
      ensures outcome.Made? ==> row.value.status == Created && row.value.expiresAt == input.expiresAt
      ensures outcome == KeyReused ==>
        exists id :: id in hub.rows && hub.rows[id].ownerId == input.ownerId && hub.rows[id].idempotencyKey == input.idempotencyKey
                     && (hub.rows[id].request != RequestOf(input.wanted) || !NoTies(hub.collation, input.wanted.payload))
    {
      Submit(pid, input);
      var allowed := AssertRuntimeOwner(pid, paired);
      if !allowed {
        return NotPaired, None;
      }
      outcome, row := InsertOrLookUp(pid, render);
    }

    method InsertOrLookUp(pid: ProcessId, render: Value -> Json) returns (outcome: Outcome, row: Option<Row>)
      requires pid in hub.procs && hub.procs[pid].role.ApiCall? && hub.procs[pid].pc.Inserting? && Renders(render)
      modifies this
      ensures pid in hub.procs && hub.procs[pid].role == ApiCall(old(hub).procs[pid].role.input, Some(outcome))
      ensures outcome.Made? || outcome.Replayed? || outcome.KeyReused?
      ensures var input := old(hub).procs[pid].role.input;
        if outcome.KeyReused? then
          && row.None? && hub.procs[pid].pc == Finished(Threw, false)
          && exists id :: id in hub.rows && SameKey(hub.rows[id], input)
               && (hub.rows[id].request != RequestOf(input.wanted) || !NoTies(hub.collation, input.wanted.payload))
        else
          && row.Some? && outcome.id in hub.rows && row.value == hub.rows[outcome.id]
          && SameKey(row.value, input) && row.value.request == RequestOf(input.wanted)
          && hub.procs[pid].pc == (if row.value.status == Created then Enqueueing(outcome.id) else Finished(Returned, false))
          && (outcome.Made? ==> row.value.status == Created && row.value.expiresAt == input.expiresAt)
    {
      ghost var input := hub.procs[pid].role.input;
      var made;
      ghost var at;
      made, at := InsertRow(pid);
      if made.Some? {
        return Made(made.value), Some(hub.rows[made.value]);
      }
      ghost var holder :| holder in hub.rows && SameKey(hub.rows[holder], input);
      var found;
      outcome, found := LookUp(pid, holder, render);
      row := if outcome.KeyReused? then None else Some(found);
    }

    // ---------------------------------------------------------------- pause-attempt

    method EnqueueLater(pid: ProcessId)
      requires pid in hub.procs && hub.procs[pid].role.ApiCall? && hub.procs[pid].pc.Enqueueing?
      modifies this
      ensures path == old(path) + [HubStep.EnqueueJob(pid)]
      ensures pid in hub.procs && hub.procs[pid].role == old(hub).procs[pid].role
      ensures hub.procs[pid].pc == Setting(Write(old(hub).procs[pid].pc.id, Queued, None, None, None), Finish)
      ensures old(hub).procs[pid].pc.id in hub.jobs
    {
      Elapse(pid);
      EnqueueJob(pid);
    }

    method EnqueueAndQueue(pid: ProcessId) returns (ok: bool)
      requires pid in hub.procs && hub.procs[pid].role.ApiCall? && hub.procs[pid].pc.Enqueueing?
      modifies this
      ensures pid in hub.procs && hub.procs[pid].role == old(hub).procs[pid].role
      ensures if ok then hub.procs[pid].pc == Finished(Returned, false)
              else hub.procs[pid].pc == Finished(RefusedTransition, false) || hub.procs[pid].pc == Finished(LostRace, false)
      ensures if ok then path == old(path) + [HubStep.EnqueueJob(pid), ReadStatus(pid), SwapStatus(pid)]
              else old(path) + [HubStep.EnqueueJob(pid)] <= path
    {
      EnqueueLater(pid);
      ok := WriteStatus(pid);
    }

    /** The handler after `createCommand` has returned `row`: enqueue and write `queued` exactly if the
        row was still `created`; 503 exactly if that write was refused or lost its race. */
    method AnswerCreated(pid: ProcessId, id: CommandId, row: Row, replayed: bool) returns (response: Response)
      requires pid in hub.procs && hub.procs[pid].role.ApiCall?
      requires hub.procs[pid].pc == if row.status == Created then Enqueueing(id) else Finished(Returned, false)
      modifies this
      ensures pid in hub.procs && hub.procs[pid].role == old(hub).procs[pid].role
      ensures if row.status == Created then
                if hub.procs[pid].pc == Finished(Returned, false) then
                  && response == Accepted(id, Queued, replayed)
                  && path == old(path) + [HubStep.EnqueueJob(pid), ReadStatus(pid), SwapStatus(pid)]
                else
                  && response == Unavailable && old(path) + [HubStep.EnqueueJob(pid)] <= path
                  && (hub.procs[pid].pc == Finished(RefusedTransition, false) || hub.procs[pid].pc == Finished(LostRace, false))
              else
                && hub == old(hub) && path == old(path)
                && response == if Terminal(row.status) then Done(id, row.status, replayed) else Accepted(id, row.status, replayed)
    {
      if row.status == Created {
        var ok := EnqueueAndQueue(pid);
        return if ok then Accepted(id, Queued, replayed) else Unavailable;
      }
      response := if Terminal(row.status) then Done(id, row.status, replayed) else Accepted(id, row.status, replayed);
    }

    /** The whole handler. The answer names the row of this owner and key; it is a replay exactly for a
        caller that did not make it. */
    method PauseAttempt(pid: ProcessId, input: CreateInput, paired: bool, render: Value -> Json)
      returns (response: Response, ghost row: Option<Row>)
      requires pid !in hub.procs && InputOk(input) && Renders(render)
      modifies this
      ensures pid in hub.procs && hub.procs[pid].role.ApiCall? && hub.procs[pid].role.outcome.Some?
      ensures hub.procs[pid].role.input == input && hub.procs[pid].pc.Finished?
      ensures !paired ==> response == NotFound
      ensures var outcome := hub.procs[pid].role.outcome.value;
        && (response == NotFound <==> outcome == NotPaired) && (response == KeyConflict <==> outcome == KeyReused)
        && (response == Unavailable <==>
              hub.procs[pid].pc == Finished(RefusedTransition, false) || hub.procs[pid].pc == Finished(LostRace, false))
        && (response.Accepted? || response.Done? ==>
              && response.id in hub.rows && response.replayed == outcome.Replayed?
              && hub.rows[response.id].ownerId == input.ownerId && hub.rows[response.id].idempotencyKey == input.idempotencyKey
              && hub.rows[response.id].request == RequestOf(input.wanted)
              && row.Some? && response.status == (if row.value.status == Created then Queued else row.value.status)
              && (response.Done? <==> Terminal(row.value.status)))
      ensures response.Done? ==> hub.rows[response.id].status == response.status
    {
      var outcome, found;
      outcome, found := CreateCommand(pid, input, paired, render);
      row := found;
      if outcome == NotPaired {
        return NotFound, row;
      }
      if outcome == KeyReused {
        return KeyConflict, row;
      }
      response := AnswerCreated(pid, outcome.id, found.value, outcome.Replayed?);
      ToldOfRow(hub, pid);
    }

    // ---------------------------------------------------------------- command results

    /** The guarded update of a Connector's result. */
    method CompleteFromConnector(pid: ProcessId, ack: Ack) returns (completed: bool)
      requires pid !in hub.procs && Terminal(ack.status)
      modifies this`hub, this`path
      ensures Moved(old(hub), now, ReceiveResult(pid, ack), hub) && path == old(path) + [ReceiveResult(pid, ack)]
      ensures completed <==>
        && ack.commandId in old(hub).rows
        && old(hub).rows[ack.commandId].request.installationId == ack.installationId
        && old(hub).rows[ack.commandId].request.runtimeId == ack.runtimeId
        && (old(hub).rows[ack.commandId].status == Queued || old(hub).rows[ack.commandId].status == Delivering)
      ensures pid in hub.procs
      ensures hub.procs[pid] == Process(Receipt, if completed then Auditing(Audit(ack.commandId, ack.status)) else Finished(Returned, false))
      ensures !completed ==> hub.rows == old(hub).rows
      ensures completed ==>
        var row := old(hub).rows[ack.commandId];
        hub.rows == old(hub).rows[ack.commandId := row.(
          status := ack.status,
          result := if ack.result.Some? then ack.result else row.result,
          errorCode := if ack.errorCode.Some? then ack.errorCode else row.errorCode,
          finishedAt := Some(now))]
    {
      StepKeepsHubInv(hub, now, ReceiveResult(pid, ack));
      completed := Completes(hub.rows, ack);
      hub, path := ReceiveResultStep(hub, now, pid, ack), path + [ReceiveResult(pid, ack)];
    }

    method AppendAudit(pid: ProcessId)
      requires pid in hub.procs && hub.procs[pid].pc.Auditing?
      modifies this`hub, this`path
      ensures Moved(old(hub), now, HubStep.AppendAudit(pid), hub) && path == old(path) + [HubStep.AppendAudit(pid)]
      ensures hub.audits == old(hub).audits + [old(hub).procs[pid].pc.audit] && hub.rows == old(hub).rows
      ensures pid in hub.procs && hub.procs[pid] == Process(old(hub).procs[pid].role, Finished(Returned, false))
    {
      StepKeepsHubInv(hub, now, HubStep.AppendAudit(pid));
      hub, path := Go(hub, pid, Stop(Returned)).(audits := hub.audits + [hub.procs[pid].pc.audit]), path + [HubStep.AppendAudit(pid)];
    }

    /** A result completes a row exactly if it comes over the row's own installation and Runtime and the
        row is queued or delivering; then, and only then, the completion is recorded. */
    method HandleResult(pid: ProcessId, ack: Ack) returns (completed: bool)
      requires pid !in hub.procs && Terminal(ack.status)
      modifies this
      ensures pid in hub.procs && hub.procs[pid] == Process(Receipt, Finished(Returned, false))
      ensures completed <==>
        && ack.commandId in old(hub).rows
        && old(hub).rows[ack.commandId].request.installationId == ack.installationId
        && old(hub).rows[ack.commandId].request.runtimeId == ack.runtimeId
        && (old(hub).rows[ack.commandId].status == Queued || old(hub).rows[ack.commandId].status == Delivering)
      ensures path == old(path) + [ReceiveResult(pid, ack)] + if completed then [HubStep.AppendAudit(pid)] else []
      ensures completed ==>
        && Audit(ack.commandId, ack.status) in hub.audits
        && ack.commandId in hub.rows && hub.rows[ack.commandId].status == ack.status
    {
      completed := CompleteFromConnector(pid, ack);
      if completed {
        Elapse(pid);
        AppendAudit(pid);
        assert hub.audits[|hub.audits| - 1] == Audit(ack.commandId, ack.status);
        AuditTells(hub, |hub.audits| - 1);
      }
    }
  }

  lemma ReadMoves(h: SoundHub, now: int, pid: ProcessId)
    requires pid in h.procs && h.procs[pid].pc.Setting?
    ensures HubInv(ReadStatusStep(h, pid)) && Moved(h, now, ReadStatus(pid), ReadStatusStep(h, pid))
    ensures h.procs[pid].pc.write.commandId in h.rows
  {
    SettingHasRow(h, pid);
    StepKeepsHubInv(h, now, ReadStatus(pid));
  }

  lemma SwapMoves(h: SoundHub, now: int, pid: ProcessId)
    requires pid in h.procs && h.procs[pid].pc.Swapping?
    ensures HubInv(SwapStatusStep(h, now, pid)) && Moved(h, now, SwapStatus(pid), SwapStatusStep(h, now, pid))
  {
    StepKeepsHubInv(h, now, SwapStatus(pid));
  }

  lemma CarriesTheRow(h: SoundHub, m: Message)
    requires m in h.messages
    ensures m.commandId in h.rows && m == MessageFor(m.commandId, h.rows[m.commandId], m.attempt)
  {
    assert MessageOk(h, m);
  }

  lemma RowGrowsTransitive(a: Row, b: Row, c: Row)
    requires RowGrows(a, b) && RowGrows(b, c)
    ensures RowGrows(a, c)
  {
  }

  /** What a winning compare-and-set stores. */
  lemma SwapWrites(h: SoundHub, now: int, pid: ProcessId)
    requires pid in h.procs && h.procs[pid].pc.Swapping?
    ensures var Swapping(w, read, _) := h.procs[pid].pc;
      && w.commandId in h.rows
      && var row := h.rows[w.commandId];
         SwapStatusStep(h, now, pid).rows == if row.status != read then h.rows else
           h.rows[w.commandId := row.(
             status := w.status,
             result := if w.result.Some? then w.result else row.result,
             errorCode := if w.errorCode.Some? then w.errorCode else row.errorCode,
             finishedAt := match w.terminal case None => row.finishedAt case Some(t) => if t then Some(now) else None)]
  {
    assert ProcessOk(h, h.procs[pid]);
  }

  lemma RoleHasRow(h: SoundHub, pid: ProcessId)
    requires pid in h.procs && (h.procs[pid].role.JobRun? || h.procs[pid].role.Exhaustion?)
    ensures h.procs[pid].role.id in h.rows
  {
    assert ProcessOk(h, h.procs[pid]);
  }

  lemma SettingHasRow(h: SoundHub, pid: ProcessId)
    requires pid in h.procs && h.procs[pid].pc.Setting?
    ensures h.procs[pid].pc.write.commandId in h.rows
  {
    assert ProcessOk(h, h.procs[pid]);
  }

  lemma SeenHolds(h: SoundHub, pid: ProcessId)
    requires pid in h.procs && (h.procs[pid].role.JobRun? || h.procs[pid].role.Exhaustion?) && h.procs[pid].pc.Deciding?
    ensures h.procs[pid].role.id in h.rows && RowGrows(h.procs[pid].pc.seen, h.rows[h.procs[pid].role.id])
  {
    assert ProcessOk(h, h.procs[pid]);
  }

  lemma RunHolds(h: SoundHub, pid: ProcessId)
    requires pid in h.procs && h.procs[pid].role.JobRun?
    ensures RunOk(h, h.procs[pid].role.id, h.procs[pid].role.attempt, h.procs[pid].pc)
  {
    assert ProcessOk(h, h.procs[pid]);
  }

  lemma ExhaustionHolds(h: SoundHub, pid: ProcessId)
    requires pid in h.procs && h.procs[pid].role.Exhaustion?
    ensures ExhaustionOk(h, h.procs[pid].role.id, h.procs[pid].pc)
  {
    assert ProcessOk(h, h.procs[pid]);
  }

  lemma OneHolder(h: SoundHub, input: CreateInput, i: CommandId, j: CommandId)
    requires i in h.rows && j in h.rows && SameKey(h.rows[i], input) && SameKey(h.rows[j], input)
    ensures i == j
  {
    assert SameOwnerKey(h.rows[i], h.rows[j]);
  }

  lemma LookupMoves(h: SoundHub, now: int, pid: ProcessId, id: CommandId, stored: Json)
    requires Enabled(h, now, LookupExisting(pid, id, stored))
    ensures var input := h.procs[pid].role.input;
      var verdict := SameIdempotentCommand(h.collation, ReadBack(h.rows[id].request, stored), input.wanted);
      && HubInv(LookupExistingStep(h, pid, id, verdict))
      && Moved(h, now, LookupExisting(pid, id, stored), LookupExistingStep(h, pid, id, verdict))
      && if verdict == Same then h.rows[id].request == RequestOf(input.wanted)
         else h.rows[id].request != RequestOf(input.wanted) || !NoTies(h.collation, input.wanted.payload)
  {
    Judges(h, pid, id, stored);
    StepKeepsHubInv(h, now, LookupExisting(pid, id, stored));
  }

  lemma Judges(h: SoundHub, pid: ProcessId, id: CommandId, stored: Json)
    requires pid in h.procs && h.procs[pid].role.ApiCall? && id in h.rows
    requires WellFormed(stored) && Meaning(stored) == h.rows[id].request.payload
    ensures var input := h.procs[pid].role.input;
      if SameIdempotentCommand(h.collation, ReadBack(h.rows[id].request, stored), input.wanted) == Same
      then h.rows[id].request == RequestOf(input.wanted)
      else h.rows[id].request != RequestOf(input.wanted) || !NoTies(h.collation, input.wanted.payload)
  {
    assert ProcessOk(h, h.procs[pid]) && RowOk(h, id, h.rows[id]);
    LookupDecides(h, id, stored, h.procs[pid].role.input);
  }

  lemma ToldOfRow(h: SoundHub, pid: ProcessId)
    requires pid in h.procs && h.procs[pid].role.ApiCall? && h.procs[pid].role.outcome.Some?
    ensures var input, outcome := h.procs[pid].role.input, h.procs[pid].role.outcome.value;
      outcome.Made? || outcome.Replayed? ==>
        && outcome.id in h.rows && h.rows[outcome.id].ownerId == input.ownerId
        && h.rows[outcome.id].idempotencyKey == input.idempotencyKey && h.rows[outcome.id].request == RequestOf(input.wanted)
  {
    assert ProcessOk(h, h.procs[pid]);
  }

  lemma AuditTells(h: SoundHub, k: nat)
    requires k < |h.audits|
    ensures h.audits[k].commandId in h.rows && h.rows[h.audits[k].commandId].status == h.audits[k].status
  {
    assert Recorded(h, h.audits[k]);
  }
}
