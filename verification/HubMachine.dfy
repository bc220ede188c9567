/** The Hub side of command delivery as a step relation: the commands, attempts and audit tables,
    the job queue, the published messages, and one program counter per process. Every step is one
    atomic statement of the API handler, the job processor, the exhaustion handler or the gateway's
    result handling, so all of them interleave freely. A process that crashes takes no more steps. */
module HubMachine {
  import opened Canonical
  import opened CommandPolicy
  import opened CommandTable
  import opened Json

  type ProcessId = nat

  const MAX_ATTEMPTS := 8

  datatype Job = Job(attemptsMade: nat, done: bool)

  datatype AttemptStatus = Underway | NotRouted | Published

  /** A `command.completed` audit record. */
  datatype Audit = Audit(commandId: CommandId, status: CommandStatus)

  /** A `hub.command` message with the installation whose channel carries it, and the attempt whose
      run published it. */
  datatype Message = Message(
    commandId: CommandId, installationId: string, expiresAt: int, payload: Value, attempt: nat)

  datatype Outcome = Made(id: CommandId) | Replayed(id: CommandId) | KeyReused | NotPaired

  datatype Role =
    | ApiCall(input: CreateInput, outcome: Option<Outcome>)
    | JobRun(id: CommandId, attempt: nat)
    | Exhaustion(id: CommandId)
    | Receipt

  /** How a process ended: it returned, `setCommandStatus` refused the transition, its
      compare-and-set lost a race, or it threw for another reason. */
  datatype End = Returned | RefusedTransition | LostRace | Threw

  /** What follows a `setCommandStatus` that succeeded. */
  datatype Next = Finish | ThenDeliver(seen: Row) | ThenPublish(seen: Row)

  datatype Pc =
    | Checking
    | Inserting
    | Looking
    | Enqueueing(id: CommandId)
    | Reading
    | Deciding(seen: Row)
    | Attempting(seen: Row)
    | Setting(write: Write, next: Next)
    | Swapping(write: Write, read: CommandStatus, next: Next)
    | Publishing(seen: Row)
    | Recording(status: AttemptStatus)
    | Auditing(audit: Audit)
    | Finished(end: End, counted: bool)

  datatype Process = Process(role: Role, pc: Pc)

  /** `collation` is what `localeCompare` does on this host, and `owners` tells who owns an
      installation; neither ever changes for what is there. */
  datatype Hub = Hub(
    collation: Collation,
    owners: map<string, string>,
    rows: Rows,
    jobs: map<CommandId, Job>,
    attempts: map<(CommandId, nat), AttemptStatus>,
    audits: seq<Audit>,
    procs: map<ProcessId, Process>,
    messages: set<Message>,
    received: set<Ack>)

  function InitialHub(collation: Collation): Hub {
    Hub(collation, map[], map[], map[], map[], [], map[], {}, {})
  }

  datatype HubStep =
    | CreateInstallation(installationId: string, ownerId: string)
    | SubmitCall(pid: ProcessId, input: CreateInput)
    | CheckRuntime(pid: ProcessId, paired: bool)
    | InsertCommand(pid: ProcessId, id: CommandId)
    | LookupExisting(pid: ProcessId, id: CommandId, stored: Json)
    | EnqueueJob(pid: ProcessId)
    | RecoverJob(id: CommandId)
    | StartRun(pid: ProcessId, id: CommandId)
    | GetCommand(pid: ProcessId)
    | Decide(pid: ProcessId, online: bool)
    | CreateAttempt(pid: ProcessId)
    | ReadStatus(pid: ProcessId)
    | SwapStatus(pid: ProcessId)
    | Publish(pid: ProcessId, subscribers: nat)
    | FinishAttempt(pid: ProcessId)
    | CountRun(pid: ProcessId)
    | StartExhaustion(pid: ProcessId, id: CommandId)
    | DropJob(id: CommandId)
    | ReceiveResult(pid: ProcessId, ack: Ack)
    | AppendAudit(pid: ProcessId)
    | Throw(pid: ProcessId)

  // ---------------------------------------------------------------- the payload

  /** The idempotency key a `RuntimeCommand` carries to the Runtime. */
  function PayloadKey(payload: Value): Option<string> {
    if payload.ObjValue? && "idempotencyKey" in payload.members && payload.members["idempotencyKey"].StrValue?
    then Some(payload.members["idempotencyKey"].s)
    else None
  }

  // ---------------------------------------------------------------- what is enabled

  predicate Present(h: Hub, pid: ProcessId) {
    pid in h.procs
  }

  /** Any statement may fail, also one that took effect and whose reply was lost. */
  predicate CanThrow(pc: Pc) {
    pc.Finished? ==> pc.end == Returned && !pc.counted
  }

  ghost predicate KeyTaken(h: Hub, input: CreateInput) {
    exists id :: id in h.rows && SameKey(h.rows[id], input)
  }

  /** What the API handler has built its input from: a parsed date, and a payload with the key in it. */
  predicate InputOk(input: CreateInput) {
    && WellFormed(input.wanted.payload) && input.wanted.expectedTargetUpdatedAt != Invalid
    && PayloadKey(Meaning(input.wanted.payload)) == Some(input.idempotencyKey)
  }

  predicate Owned(h: Hub, installationId: string, ownerId: string) {
    installationId in h.owners && h.owners[installationId] == ownerId
  }

  ghost predicate Enabled(h: Hub, now: int, step: HubStep) {
    match step
    case CreateInstallation(installationId, _) => installationId !in h.owners
    case SubmitCall(pid, input) => pid !in h.procs && InputOk(input)
    case CheckRuntime(pid, paired) => Present(h, pid) && h.procs[pid].role.ApiCall? && h.procs[pid].pc.Checking?
    case InsertCommand(pid, id) =>
      Present(h, pid) && h.procs[pid].role.ApiCall? && h.procs[pid].pc.Inserting? && id !in h.rows
    case LookupExisting(pid, id, stored) =>
      && Present(h, pid) && h.procs[pid].role.ApiCall? && h.procs[pid].pc.Looking?
      && id in h.rows && SameKey(h.rows[id], h.procs[pid].role.input)
      && WellFormed(stored) && Meaning(stored) == h.rows[id].request.payload
    case EnqueueJob(pid) => Present(h, pid) && h.procs[pid].pc.Enqueueing?
    case RecoverJob(id) =>
      id in h.rows && h.rows[id].status in {Created, Queued, Delivering} && !IsExpired(h.rows[id].expiresAt, now)
    case StartRun(pid, id) =>
      pid !in h.procs && id in h.jobs && !h.jobs[id].done && h.jobs[id].attemptsMade < MAX_ATTEMPTS
    case GetCommand(pid) =>
      Present(h, pid) && h.procs[pid].pc.Reading? && (h.procs[pid].role.JobRun? || h.procs[pid].role.Exhaustion?)
    case Decide(pid, online) =>
      Present(h, pid) && h.procs[pid].pc.Deciding? && (h.procs[pid].role.JobRun? || h.procs[pid].role.Exhaustion?)
    case CreateAttempt(pid) => Present(h, pid) && h.procs[pid].pc.Attempting? && h.procs[pid].role.JobRun?
    case ReadStatus(pid) => Present(h, pid) && h.procs[pid].pc.Setting?
    case SwapStatus(pid) => Present(h, pid) && h.procs[pid].pc.Swapping?
    case Publish(pid, subscribers) => Present(h, pid) && h.procs[pid].pc.Publishing? && h.procs[pid].role.JobRun?
    case FinishAttempt(pid) => Present(h, pid) && h.procs[pid].pc.Recording? && h.procs[pid].role.JobRun?
    case CountRun(pid) =>
      && Present(h, pid) && h.procs[pid].pc.Finished? && !h.procs[pid].pc.counted && h.procs[pid].role.JobRun?
    case StartExhaustion(pid, id) => pid !in h.procs && id in h.jobs && h.jobs[id].attemptsMade >= MAX_ATTEMPTS
    case DropJob(id) => id in h.jobs && (h.jobs[id].done || h.jobs[id].attemptsMade >= MAX_ATTEMPTS)
    case ReceiveResult(pid, ack) => pid !in h.procs && Terminal(ack.status)
    case AppendAudit(pid) => Present(h, pid) && h.procs[pid].pc.Auditing?
    case Throw(pid) => Present(h, pid) && CanThrow(h.procs[pid].pc)
  }

  // ---------------------------------------------------------------- what a step does

  function Go(h: Hub, pid: ProcessId, pc: Pc): Hub
    requires Present(h, pid)
  {
    h.(procs := h.procs[pid := h.procs[pid].(pc := pc)])
  }

  function Started(h: Hub, pid: ProcessId, role: Role, pc: Pc): Hub {
    h.(procs := h.procs[pid := Process(role, pc)])
  }

  function Stop(end: End): Pc {
    Finished(end, false)
  }

  /** Adding a job whose id exists changes nothing. */
  function Enqueued(jobs: map<CommandId, Job>, id: CommandId): map<CommandId, Job> {
    if id in jobs then jobs else jobs[id := Job(0, false)]
  }

  function QueuedWrite(id: CommandId): Write {
    Write(id, Queued, None, None, None)
  }

  function DeliveringWrite(id: CommandId): Write {
    Write(id, Delivering, None, None, None)
  }

  function ExpiredWrite(id: CommandId): Write {
    Write(id, Expired, None, None, Some(true))
  }

  function ExhaustedWrite(id: CommandId, expired: bool): Write {
    Write(id, if expired then Expired else Failed, None, Some("delivery_exhausted"), Some(true))
  }

  function MessageFor(id: CommandId, seen: Row, attempt: nat): Message {
    Message(id, seen.request.installationId, seen.expiresAt, seen.request.payload, attempt)
  }

  /** `assertRuntimeOwner`: the installation must be the caller's own, and the Runtime paired to it. */
  function CheckRuntimeStep(h: Hub, pid: ProcessId, paired: bool): Hub
    requires Present(h, pid) && h.procs[pid].role.ApiCall?
  {
    var input := h.procs[pid].role.input;
    if paired && Owned(h, input.wanted.installationId, input.ownerId) then Go(h, pid, Inserting)
    else Started(h, pid, ApiCall(input, Some(NotPaired)), Stop(Threw))
  }

  function InsertCommandStep(h: Hub, pid: ProcessId, id: CommandId, taken: bool): Hub
    requires Present(h, pid) && h.procs[pid].role.ApiCall?
  {
    var input := h.procs[pid].role.input;
    if taken then Go(h, pid, Looking)
    else h.(rows := h.rows[id := NewRow(input)],
            procs := h.procs[pid := Process(ApiCall(input, Some(Made(id))), Enqueueing(id))])
  }

  function Judged(h: Hub, pid: ProcessId, id: CommandId, stored: Json): Verdict
    requires Present(h, pid) && h.procs[pid].role.ApiCall? && id in h.rows
  {
    SameIdempotentCommand(h.collation, ReadBack(h.rows[id].request, stored), h.procs[pid].role.input.wanted)
  }

  /** The row of this key is a replay if `sameIdempotentCommand` says so. */
  function LookupExistingStep(h: Hub, pid: ProcessId, id: CommandId, verdict: Verdict): Hub
    requires Present(h, pid) && h.procs[pid].role.ApiCall? && id in h.rows
  {
    var input := h.procs[pid].role.input;
    if verdict != Same then Started(h, pid, ApiCall(input, Some(KeyReused)), Stop(Threw))
    else Started(h, pid, ApiCall(input, Some(Replayed(id))),
                 if h.rows[id].status == Created then Enqueueing(id) else Stop(Returned))
  }

  function GetCommandStep(h: Hub, pid: ProcessId, id: CommandId): Hub
    requires Present(h, pid)
  {
    Go(h, pid, if id !in h.rows || Terminal(h.rows[id].status) then Stop(Returned) else Deciding(h.rows[id]))
  }

  function DecideStep(h: Hub, now: int, pid: ProcessId, online: bool): Hub
    requires Present(h, pid) && h.procs[pid].pc.Deciding? && (h.procs[pid].role.JobRun? || h.procs[pid].role.Exhaustion?)
  {
    var p := h.procs[pid];
    var expired := IsExpired(p.pc.seen.expiresAt, now);
    Go(h, pid,
       if p.role.Exhaustion? then Setting(ExhaustedWrite(p.role.id, expired), Finish)
       else if expired then Setting(ExpiredWrite(p.role.id), Finish)
       else if !online then Stop(Threw)
       else Attempting(p.pc.seen))
  }

  function CreateAttemptStep(h: Hub, pid: ProcessId): Hub
    requires Present(h, pid) && h.procs[pid].pc.Attempting? && h.procs[pid].role.JobRun?
  {
    var JobRun(id, n) := h.procs[pid].role;
    var seen := h.procs[pid].pc.seen;
    var pc := if seen.status == Created then Setting(QueuedWrite(id), ThenDeliver(seen))
              else Setting(DeliveringWrite(id), ThenPublish(seen));
    Go(h, pid, pc).(attempts := if (id, n) in h.attempts then h.attempts else h.attempts[(id, n) := Underway])
  }

  function Continue(id: CommandId, next: Next): Pc {
    match next
    case Finish => Stop(Returned)
    case ThenDeliver(seen) => Setting(DeliveringWrite(id), ThenPublish(seen))
    case ThenPublish(seen) => Publishing(seen)
  }

  /** The first half of `setCommandStatus`: read the status and check the transition. */
  function ReadStatusStep(h: Hub, pid: ProcessId): Hub
    requires Present(h, pid) && h.procs[pid].pc.Setting?
  {
    var Setting(w, next) := h.procs[pid].pc;
    Go(h, pid,
       if w.commandId !in h.rows then Continue(w.commandId, next)
       else if Refused(h.rows[w.commandId].status, w.status) then Stop(RefusedTransition)
       else Swapping(w, h.rows[w.commandId].status, next))
  }

  /** The second half: write only if the status is still the one that was read. */
  function SwapStatusStep(h: Hub, now: int, pid: ProcessId): Hub
    requires Present(h, pid) && h.procs[pid].pc.Swapping?
  {
    var Swapping(w, read, next) := h.procs[pid].pc;
    Go(h, pid, if Swaps(h.rows, w, read) then Continue(w.commandId, next) else Stop(LostRace))
      .(rows := CompareAndSet(h.rows, w, read, now))
  }

  function PublishStep(h: Hub, pid: ProcessId, subscribers: nat): Hub
    requires Present(h, pid) && h.procs[pid].pc.Publishing? && h.procs[pid].role.JobRun?
  {
    var JobRun(id, n) := h.procs[pid].role;
    Go(h, pid, Recording(if subscribers == 0 then NotRouted else Published))
      .(messages := if subscribers == 0 then h.messages else h.messages + {MessageFor(id, h.procs[pid].pc.seen, n)})
  }

  function FinishAttemptStep(h: Hub, pid: ProcessId): Hub
    requires Present(h, pid) && h.procs[pid].pc.Recording? && h.procs[pid].role.JobRun?
  {
    var JobRun(id, n) := h.procs[pid].role;
    Go(h, pid, Stop(Threw)).(attempts := h.attempts[(id, n) := h.procs[pid].pc.status])
  }

  /** A run that returns completes its job; one that throws is counted once. */
  function Counted(jobs: map<CommandId, Job>, id: CommandId, n: nat, end: End): map<CommandId, Job> {
    if id !in jobs then jobs
    else if end == Returned then jobs[id := jobs[id].(done := true)]
    else if jobs[id].attemptsMade + 1 == n then jobs[id := jobs[id].(attemptsMade := n)]
    else jobs
  }

  function CountRunStep(h: Hub, pid: ProcessId): Hub
    requires Present(h, pid) && h.procs[pid].pc.Finished? && h.procs[pid].role.JobRun?
  {
    var JobRun(id, n) := h.procs[pid].role;
    Go(h, pid, h.procs[pid].pc.(counted := true))
      .(jobs := Counted(h.jobs, id, n, h.procs[pid].pc.end))
  }

  function ReceiveResultStep(h: Hub, now: int, pid: ProcessId, ack: Ack): Hub {
    Started(h, pid, Receipt,
            if Completes(h.rows, ack) then Auditing(Audit(ack.commandId, ack.status)) else Stop(Returned))
      .(rows := Complete(h.rows, ack, now), received := h.received + {ack})
  }

  ghost function Apply(h: Hub, now: int, step: HubStep): Hub
    requires Enabled(h, now, step)
  {
    match step
    case CreateInstallation(installationId, ownerId) => h.(owners := h.owners[installationId := ownerId])
    case SubmitCall(pid, input) => Started(h, pid, ApiCall(input, None), Checking)
    case CheckRuntime(pid, paired) => CheckRuntimeStep(h, pid, paired)
    case InsertCommand(pid, id) => InsertCommandStep(h, pid, id, KeyTaken(h, h.procs[pid].role.input))
    case LookupExisting(pid, id, stored) => LookupExistingStep(h, pid, id, Judged(h, pid, id, stored))
    case EnqueueJob(pid) =>
      Go(h, pid, Setting(QueuedWrite(h.procs[pid].pc.id), Finish))
        .(jobs := Enqueued(h.jobs, h.procs[pid].pc.id))
    case RecoverJob(id) => h.(jobs := Enqueued(h.jobs, id))
    case StartRun(pid, id) => Started(h, pid, JobRun(id, h.jobs[id].attemptsMade + 1), Reading)
    case GetCommand(pid) => GetCommandStep(h, pid, h.procs[pid].role.id)
    case Decide(pid, online) => DecideStep(h, now, pid, online)
    case CreateAttempt(pid) => CreateAttemptStep(h, pid)
    case ReadStatus(pid) => ReadStatusStep(h, pid)
    case SwapStatus(pid) => SwapStatusStep(h, now, pid)
    case Publish(pid, subscribers) => PublishStep(h, pid, subscribers)
    case FinishAttempt(pid) => FinishAttemptStep(h, pid)
    case CountRun(pid) => CountRunStep(h, pid)
    case StartExhaustion(pid, id) => Started(h, pid, Exhaustion(id), Reading)
    case DropJob(id) => h.(jobs := h.jobs - {id})
    case ReceiveResult(pid, ack) => ReceiveResultStep(h, now, pid, ack)
    case AppendAudit(pid) => Go(h, pid, Stop(Returned)).(audits := h.audits + [h.procs[pid].pc.audit])
    case Throw(pid) => Go(h, pid, Stop(Threw))
  }
}
