/** What each Hub step may touch, table by table. The invariant proofs speak of a step and the state
    after it through these frames instead of unfolding the whole machine. */
module HubFrames {
  import opened CommandPolicy
  import opened CommandTable
  import opened HubMachine

  /** The process a step belongs to. */
  function Actor(step: HubStep): Option<ProcessId> {
    match step
    case CreateInstallation(_, _) => None
    case RecoverJob(_) => None
    case DropJob(_) => None
    case _ => Some(step.pid)
  }

  ghost predicate RowsFrame(h: Hub, now: int, step: HubStep, h': Hub) {
    if step.InsertCommand? then
      && Present(h, step.pid) && h.procs[step.pid].role.ApiCall? && h.procs[step.pid].pc.Inserting? && step.id !in h.rows
      && var input := h.procs[step.pid].role.input;
         if KeyTaken(h, input) then h'.rows == h.rows
         else h'.rows == h.rows[step.id := NewRow(input)]
              && Present(h', step.pid) && h'.procs[step.pid].role == ApiCall(input, Some(Made(step.id)))
    else if step.SwapStatus? then
      && Present(h, step.pid) && h.procs[step.pid].pc.Swapping?
      && h'.rows == CompareAndSet(h.rows, h.procs[step.pid].pc.write, h.procs[step.pid].pc.read, now)
    else if step.ReceiveResult? then Terminal(step.ack.status) && h'.rows == Complete(h.rows, step.ack, now)
    else h'.rows == h.rows
  }

  ghost predicate OwnersFrame(h: Hub, step: HubStep, h': Hub) {
    && h'.collation == h.collation
    && if step.CreateInstallation? then step.installationId !in h.owners && h'.owners == h.owners[step.installationId := step.ownerId]
       else h'.owners == h.owners
  }

  ghost predicate JobsFrame(h: Hub, step: HubStep, h': Hub) {
    match step
    case EnqueueJob(pid) => Present(h, pid) && h.procs[pid].pc.Enqueueing? && h'.jobs == Enqueued(h.jobs, h.procs[pid].pc.id)
    case RecoverJob(id) => id in h.rows && h'.jobs == Enqueued(h.jobs, id)
    case DropJob(id) => h'.jobs == h.jobs - {id}
    case CountRun(pid) =>
      && Present(h, pid) && h.procs[pid].role.JobRun? && h.procs[pid].pc.Finished?
      && h'.jobs == Counted(h.jobs, h.procs[pid].role.id, h.procs[pid].role.attempt, h.procs[pid].pc.end)
    case _ => h'.jobs == h.jobs
  }

  ghost predicate AttemptsFrame(h: Hub, step: HubStep, h': Hub) {
    if step.CreateAttempt? || step.FinishAttempt? then
      && Present(h, step.pid) && h.procs[step.pid].role.JobRun?
      && var a := (h.procs[step.pid].role.id, h.procs[step.pid].role.attempt);
         if step.FinishAttempt? then h.procs[step.pid].pc.Recording? && h'.attempts == h.attempts[a := h.procs[step.pid].pc.status]
         else h'.attempts == if a in h.attempts then h.attempts else h.attempts[a := Underway]
    else h'.attempts == h.attempts
  }

  ghost predicate MessagesFrame(h: Hub, step: HubStep, h': Hub) {
    if step.Publish? && step.subscribers > 0 then
      && Present(h, step.pid) && h.procs[step.pid].role.JobRun? && h.procs[step.pid].pc.Publishing?
      && var run := h.procs[step.pid].role;
         h'.messages == h.messages + {MessageFor(run.id, h.procs[step.pid].pc.seen, run.attempt)}
    else h'.messages == h.messages
  }

  ghost predicate RecordsFrame(h: Hub, step: HubStep, h': Hub) {
    && h'.received == (if step.ReceiveResult? then h.received + {step.ack} else h.received)
    && if step.AppendAudit? then
         && Present(h, step.pid) && h.procs[step.pid].pc.Auditing? && h'.audits == h.audits + [h.procs[step.pid].pc.audit]
       else h'.audits == h.audits
  }

  /** The stepping process: only a creating call changes its role, and only an insert tells a caller
      that it made a row. */
  predicate RoleFrame(step: HubStep, r: Role, s: Role) {
    if step.CheckRuntime? || step.LookupExisting? || step.InsertCommand? then
      && r.ApiCall? && s.ApiCall? && s.input == r.input
      && (s.outcome == r.outcome || (s.outcome.Some? && (s.outcome.value.Made? ==> step == InsertCommand(step.pid, s.outcome.value.id))))
    else s == r
  }

  ghost predicate ActorFrame(h: Hub, step: HubStep, h': Hub, pid: ProcessId) {
    && pid in h'.procs
    && (pid in h.procs ==> RoleFrame(step, h.procs[pid].role, h'.procs[pid].role))
    && (pid !in h.procs && h'.procs[pid].role.ApiCall? ==> h'.procs[pid].role.outcome.None?)
    && (h'.procs[pid].pc.Auditing? ==>
          step.ReceiveResult? && Completes(h.rows, step.ack) && h'.procs[pid].pc.audit == Audit(step.ack.commandId, step.ack.status))
  }

  ghost predicate ProcsFrame(h: Hub, step: HubStep, h': Hub) {
    && (forall pid :: Actor(step) != Some(pid) ==>
          (pid in h'.procs <==> pid in h.procs) && (pid in h.procs ==> h'.procs[pid] == h.procs[pid]))
    && (Actor(step).Some? ==> ActorFrame(h, step, h', Actor(step).value))
  }

  ghost predicate Frame(h: Hub, now: int, step: HubStep, h': Hub) {
    && RowsFrame(h, now, step, h') && OwnersFrame(h, step, h') && JobsFrame(h, step, h')
    && AttemptsFrame(h, step, h') && MessagesFrame(h, step, h') && RecordsFrame(h, step, h')
    && ProcsFrame(h, step, h')
  }

  predicate OfRequest(step: HubStep) {
    step.CreateInstallation? || step.SubmitCall? || step.EnqueueJob? || step.RecoverJob?
  }

  predicate OfRunStart(step: HubStep) {
    step.StartRun? || step.GetCommand? || step.Decide? || step.StartExhaustion?
  }

  predicate OfAttempt(step: HubStep) {
    step.CreateAttempt? || step.Publish? || step.FinishAttempt? || step.CountRun?
  }

  lemma CheckFrame(h: Hub, now: int, step: HubStep)
    requires Enabled(h, now, step) && step.CheckRuntime?
    ensures Frame(h, now, step, Apply(h, now, step))
  {
  }

  lemma LookupFrame(h: Hub, now: int, step: HubStep)
    requires Enabled(h, now, step) && step.LookupExisting?
    ensures Frame(h, now, step, Apply(h, now, step))
  {
  }

  lemma AttemptFrame(h: Hub, now: int, step: HubStep)
    requires Enabled(h, now, step) && OfAttempt(step)
    ensures Frame(h, now, step, Apply(h, now, step))
  {
  }

  lemma InsertFrame(h: Hub, now: int, step: HubStep)
    requires Enabled(h, now, step) && step.InsertCommand?
    ensures Frame(h, now, step, Apply(h, now, step))
  {
  }

  lemma OtherFrame(h: Hub, now: int, step: HubStep)
    requires Enabled(h, now, step) && !step.InsertCommand? && !step.CheckRuntime? && !step.LookupExisting?
    requires !OfRequest(step) && !OfRunStart(step) && !OfAttempt(step)
    ensures Frame(h, now, step, Apply(h, now, step))
  {
  }

  /** Every step keeps to its frame. */
  lemma StepFrame(h: Hub, now: int, step: HubStep)
    requires Enabled(h, now, step)
    ensures Frame(h, now, step, Apply(h, now, step))
  {
    if step.InsertCommand? {
      InsertFrame(h, now, step);
    } else if step.CheckRuntime? {
      CheckFrame(h, now, step);
    } else if step.LookupExisting? {
      LookupFrame(h, now, step);
    } else if OfAttempt(step) {
      AttemptFrame(h, now, step);
    } else if !OfRequest(step) && !OfRunStart(step) {
      OtherFrame(h, now, step);
    }
  }

  /** Only a read of `setCommandStatus` prepares a compare-and-set, and only the delivery path leads
      to a publish. */
  predicate Quiet(pc: Pc) {
    !pc.Swapping? && !pc.Publishing? && (pc.Setting? ==> pc.next.Finish?)
  }

  predicate Prepares(step: HubStep) {
    step.ReadStatus? || step.SwapStatus? || step.CreateAttempt?
  }

  lemma QuietStart(h: Hub, now: int, step: HubStep)
    requires Enabled(h, now, step) && Actor(step).Some? && (OfRequest(step) || OfRunStart(step))
    ensures Present(Apply(h, now, step), Actor(step).value) && Quiet(Apply(h, now, step).procs[Actor(step).value].pc)
  {
  }

  lemma QuietRest(h: Hub, now: int, step: HubStep)
    requires Enabled(h, now, step) && Actor(step).Some? && !Prepares(step) && !OfRequest(step) && !OfRunStart(step)
    ensures Present(Apply(h, now, step), Actor(step).value) && Quiet(Apply(h, now, step).procs[Actor(step).value].pc)
  {
  }

  lemma StaysQuiet(h: Hub, now: int, step: HubStep)
    requires Enabled(h, now, step) && Actor(step).Some? && !Prepares(step)
    ensures Present(Apply(h, now, step), Actor(step).value) && Quiet(Apply(h, now, step).procs[Actor(step).value].pc)
  {
    if OfRequest(step) || OfRunStart(step) {
      QuietStart(h, now, step);
    } else {
      QuietRest(h, now, step);
    }
  }
}
