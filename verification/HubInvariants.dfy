/** What every Hub step keeps. Each clause speaks of one component; `Grows` says what can never be
    taken back, and every clause about an old row, process or message survives by growth alone.

    So the proof of a step has two parts: that the step only grows the state (`StepIsSafe`), and that
    the one row, process, job, attempt, message or audit record it touches meets its clause. The clause
    on processes is the largest: it says, for every role and program counter, what the process has done
    so far and what it may rely on while others move. */
module HubInvariants {
  import opened Canonical
  import opened CommandPolicy
  import opened CommandTable
  import opened HubFrames
  import opened HubMachine
  import opened Json

  // ---------------------------------------------------------------- the clauses

  ghost predicate Acknowledged(h: Hub, id: CommandId, row: Row) {
    exists ack :: ack in h.received && Supports(ack, id, row)
  }

  predicate Supports(ack: Ack, id: CommandId, row: Row) {
    && ack.commandId == id && ack.status == row.status && ack.result == row.result
    && ack.installationId == row.request.installationId && ack.runtimeId == row.request.runtimeId
  }

  ghost predicate RowOk(h: Hub, id: CommandId, row: Row) {
    && (row.finishedAt.Some? <==> Terminal(row.status))
    && (!Terminal(row.status) ==> row.result.None?)
    && PayloadKey(row.request.payload) == Some(row.idempotencyKey)
    && row.request.expectedTargetUpdatedAt != Invalid
    && Owned(h, row.request.installationId, row.ownerId)
    && (row.status in {Succeeded, Rejected, Conflict} || row.result.Some? ==> Acknowledged(h, id, row))
  }

  ghost predicate RowsOk(h: Hub) {
    forall id {:trigger RowOk(h, id, h.rows[id])} :: id in h.rows ==> RowOk(h, id, h.rows[id])
  }

  /** Every `setCommandStatus` call there is: never an acknowledgement status, and `terminal` is
      given exactly with a terminal status. */
  predicate WriteOk(w: Write) {
    && w.status in {Queued, Delivering, Expired, Failed}
    && w.result.None?
    && w.terminal == (if Terminal(w.status) then Some(true) else None)
  }

  predicate Legal(read: CommandStatus, wanted: CommandStatus) {
    read == wanted || CanTransition(read, wanted)
  }

  predicate SeenOk(h: Hub, id: CommandId, seen: Row) {
    id in h.rows && SameIdentity(seen, h.rows[id]) && !Terminal(seen.status)
  }

  predicate NextOk(h: Hub, id: CommandId, n: nat, w: Write, next: Next) {
    match next
    case Finish => Terminal(w.status)
    case ThenDeliver(seen) => w.status == Queued && SeenOk(h, id, seen) && (id, n) in h.attempts
    case ThenPublish(seen) => w.status == Delivering && SeenOk(h, id, seen) && (id, n) in h.attempts
  }

  ghost predicate OutcomeOk(h: Hub, input: CreateInput, outcome: Option<Outcome>) {
    match outcome
    case None => true
    case Some(Made(id)) => id in h.rows && SameIdentity(h.rows[id], NewRow(input))
    case Some(Replayed(id)) => id in h.rows && SameKey(h.rows[id], input) && h.rows[id].request == RequestOf(input.wanted)
    case Some(KeyReused) => exists id :: id in h.rows && SameKey(h.rows[id], input) && Differs(h, id, input)
    case Some(NotPaired) => true
  }

  /** The comparison can only have called these different if they are, or if it may be misled by keys
      that the collation ties. */
  ghost predicate Differs(h: Hub, id: CommandId, input: CreateInput)
    requires id in h.rows
  {
    h.rows[id].request != RequestOf(input.wanted) || !NoTies(h.collation, input.wanted.payload)
  }

  predicate OutcomeIs(outcome: Option<Outcome>, id: CommandId) {
    outcome == Some(Made(id)) || outcome == Some(Replayed(id))
  }

  predicate ApiPcOk(h: Hub, input: CreateInput, outcome: Option<Outcome>, pc: Pc) {
    match pc
    case Checking => outcome.None?
    case Inserting => outcome.None? && Owned(h, input.wanted.installationId, input.ownerId)
    case Looking => outcome.None? && Owned(h, input.wanted.installationId, input.ownerId)
    case Enqueueing(id) => OutcomeIs(outcome, id)
    case Setting(w, next) => WriteOk(w) && w.status == Queued && next.Finish? && OutcomeIs(outcome, w.commandId)
    case Swapping(w, read, next) =>
      WriteOk(w) && w.status == Queued && next.Finish? && OutcomeIs(outcome, w.commandId) && Legal(read, w.status)
    case Finished(end, _) => end == Returned ==> outcome.Some?
    case _ => false
  }

  ghost predicate ApiOk(h: Hub, input: CreateInput, outcome: Option<Outcome>, pc: Pc) {
    InputOk(input) && OutcomeOk(h, input, outcome) && ApiPcOk(h, input, outcome, pc)
  }

  /** The message of this attempt was handed to a subscriber. */
  predicate WentOut(h: Hub, a: (CommandId, nat)) {
    a.0 in h.rows && MessageFor(a.0, h.rows[a.0], a.1) in h.messages
  }

  predicate RunOk(h: Hub, id: CommandId, n: nat, pc: Pc) {
    && id in h.rows && 1 <= n <= MAX_ATTEMPTS
    && match pc
       case Reading => true
       case Deciding(seen) => SeenOk(h, id, seen)
       case Attempting(seen) => SeenOk(h, id, seen)
       case Setting(w, next) => WriteOk(w) && w.commandId == id && NextOk(h, id, n, w, next)
       case Swapping(w, read, next) =>
         WriteOk(w) && w.commandId == id && NextOk(h, id, n, w, next) && Legal(read, w.status)
       case Publishing(seen) => SeenOk(h, id, seen) && (id, n) in h.attempts
       case Recording(status) => (id, n) in h.attempts && (status == Published ==> WentOut(h, (id, n)))
       case Finished(end, _) => end == Returned ==> Terminal(h.rows[id].status)
       case _ => false
  }

  predicate ExhaustionOk(h: Hub, id: CommandId, pc: Pc) {
    && id in h.rows
    && match pc
       case Reading => true
       case Deciding(seen) => SeenOk(h, id, seen)
       case Setting(w, next) => WriteOk(w) && w.commandId == id && w.status in {Expired, Failed} && next.Finish?
       case Swapping(w, read, next) =>
         && WriteOk(w) && w.commandId == id && w.status in {Expired, Failed} && next.Finish?
         && Legal(read, w.status)
       case Finished(end, _) => end in {Returned, RefusedTransition} ==> Terminal(h.rows[id].status)
       case _ => false
  }

  predicate Recorded(h: Hub, a: Audit) {
    a.commandId in h.rows && h.rows[a.commandId].status == a.status && Terminal(a.status)
  }

  ghost predicate ProcessOk(h: Hub, p: Process) {
    match p.role
    case ApiCall(input, outcome) => ApiOk(h, input, outcome, p.pc)
    case JobRun(id, n) => RunOk(h, id, n, p.pc)
    case Exhaustion(id) => ExhaustionOk(h, id, p.pc)
    case Receipt => if p.pc.Auditing? then Recorded(h, p.pc.audit) else p.pc.Finished?
  }

  ghost predicate ProcessesOk(h: Hub) {
    forall pid {:trigger ProcessOk(h, h.procs[pid])} :: pid in h.procs ==> ProcessOk(h, h.procs[pid])
  }

  /** A job only completes when its command is terminal. */
  predicate JobOk(h: Hub, id: CommandId, job: Job) {
    id in h.rows && job.attemptsMade <= MAX_ATTEMPTS && (job.done ==> Terminal(h.rows[id].status))
  }

  /** Attempts are numbered 1 to 8, and one recorded as published went out. */
  predicate TryOk(h: Hub, a: (CommandId, nat), status: AttemptStatus) {
    a.0 in h.rows && 1 <= a.1 <= MAX_ATTEMPTS && (status == Published ==> WentOut(h, a))
  }

  ghost predicate JobsOk(h: Hub) {
    && (forall id {:trigger JobOk(h, id, h.jobs[id])} :: id in h.jobs ==> JobOk(h, id, h.jobs[id]))
    && (forall a {:trigger TryOk(h, a, h.attempts[a])} :: a in h.attempts ==> TryOk(h, a, h.attempts[a]))
  }

  predicate MessageOk(h: Hub, m: Message) {
    && m.commandId in h.rows
    && m == MessageFor(m.commandId, h.rows[m.commandId], m.attempt)
    && (m.commandId, m.attempt) in h.attempts
  }

  ghost predicate MessagesOk(h: Hub) {
    forall m :: m in h.messages ==> MessageOk(h, m)
  }

  predicate SameOwnerKey(r: Row, s: Row) {
    r.ownerId == s.ownerId && r.idempotencyKey == s.idempotencyKey
  }

  ghost predicate KeysUnique(h: Hub) {
    forall i, j :: i in h.rows && j in h.rows && SameOwnerKey(h.rows[i], h.rows[j]) ==> i == j
  }

  predicate MadeBy(h: Hub, pid: ProcessId, id: CommandId) {
    pid in h.procs && h.procs[pid].role.ApiCall? && h.procs[pid].role.outcome == Some(Made(id))
  }

  /** Every row was made by one caller. */
  ghost predicate MakersOk(h: Hub) {
    && (forall id :: id in h.rows ==> exists pid :: MadeBy(h, pid, id))
    && (forall p, q, id :: MadeBy(h, p, id) && MadeBy(h, q, id) ==> p == q)
  }

  predicate Owes(h: Hub, pid: ProcessId, id: CommandId) {
    pid in h.procs && h.procs[pid].pc.Auditing? && h.procs[pid].pc.audit.commandId == id
  }

  /** A command is owed or has at most one completion record, and the record tells its status. */
  ghost predicate AuditsOk(h: Hub) {
    && (forall k :: 0 <= k < |h.audits| ==> Recorded(h, h.audits[k]))
    && (forall j, k :: 0 <= j < k < |h.audits| ==> h.audits[j].commandId != h.audits[k].commandId)
    && (forall k, pid :: 0 <= k < |h.audits| ==> !Owes(h, pid, h.audits[k].commandId))
    && (forall p, q, id :: Owes(h, p, id) && Owes(h, q, id) ==> p == q)
  }

  ghost predicate HubInv(h: Hub) {
    && TotalPreorder(h.collation) && RowsOk(h) && ProcessesOk(h) && JobsOk(h) && MessagesOk(h)
    && KeysUnique(h) && MakersOk(h) && AuditsOk(h)
  }

  // ---------------------------------------------------------------- growth

  predicate RowGrows(r: Row, s: Row) {
    SameIdentity(r, s) && (Terminal(r.status) ==> s.status == r.status && s.result == r.result)
  }

  ghost predicate Grows(h: Hub, h': Hub) {
    && h'.collation == h.collation
    && OwnersKept(h, h')
    && (forall id :: id in h.rows ==> id in h'.rows && RowGrows(h.rows[id], h'.rows[id]))
    && h.attempts.Keys <= h'.attempts.Keys
    && h.messages <= h'.messages
    && h.received <= h'.received
    && h.audits <= h'.audits
    && (forall pid :: pid in h.procs ==> pid in h'.procs && RoleGrows(h.procs[pid].role, h'.procs[pid].role))
  }

  predicate RoleGrows(r: Role, s: Role) {
    match r
    case ApiCall(input, outcome) => s.ApiCall? && s.input == input && (outcome.Some? ==> s.outcome == outcome)
    case _ => s == r
  }

  lemma GrowsReflexive(h: Hub)
    ensures Grows(h, h)
  {
  }

  lemma GrowsTransitive(a: Hub, b: Hub, c: Hub)
    requires Grows(a, b) && Grows(b, c)
    ensures Grows(a, c)
  {
  }

  /** The facts about the stepping process that growth rests on. */
  predicate Safe(h: Hub, step: HubStep) {
    match step
    case SwapStatus(pid) =>
      && pid in h.procs && h.procs[pid].pc.Swapping?
      && WriteOk(h.procs[pid].pc.write) && Legal(h.procs[pid].pc.read, h.procs[pid].pc.write.status)
    case InsertCommand(pid, id) => pid in h.procs && h.procs[pid].role.ApiCall? && h.procs[pid].role.outcome.None?
    case LookupExisting(pid, _, _) => pid in h.procs && h.procs[pid].role.ApiCall? && h.procs[pid].role.outcome.None?
    case CheckRuntime(pid, _) => pid in h.procs && h.procs[pid].role.ApiCall? && h.procs[pid].role.outcome.None?
    case _ => true
  }

  lemma StepIsSafe(h: Hub, now: int, step: HubStep)
    requires ProcessesOk(h) && Enabled(h, now, step)
    ensures Safe(h, step)
  {
    match step
    case SwapStatus(pid) => assert ProcessOk(h, h.procs[pid]);
    case InsertCommand(pid, id) => assert ProcessOk(h, h.procs[pid]);
    case LookupExisting(pid, _, _) => assert ProcessOk(h, h.procs[pid]);
    case CheckRuntime(pid, _) => assert ProcessOk(h, h.procs[pid]);
    case _ =>
  }

  lemma RowsGrow(h: Hub, now: int, step: HubStep, h': Hub, id: CommandId)
    requires Frame(h, now, step, h') && Safe(h, step) && id in h.rows
    ensures id in h'.rows && RowGrows(h.rows[id], h'.rows[id])
  {
    if step.SwapStatus? {
      assert Legal(h.procs[step.pid].pc.read, h.procs[step.pid].pc.write.status);
    }
  }

  lemma RolesGrow(h: Hub, now: int, step: HubStep, h': Hub, pid: ProcessId)
    requires Frame(h, now, step, h') && Safe(h, step) && pid in h.procs
    ensures pid in h'.procs && RoleGrows(h.procs[pid].role, h'.procs[pid].role)
  {
    if Actor(step) == Some(pid) {
      assert ActorFrame(h, step, h', pid);
    }
  }

  /** Nothing is taken back. In particular a terminal row stays: a pending compare-and-set carries a
      legal pair, and an acknowledgement only completes open rows. */
  lemma FrameGrows(h: Hub, now: int, step: HubStep, h': Hub)
    requires Frame(h, now, step, h') && Safe(h, step)
    ensures Grows(h, h')
  {
    forall id | id in h.rows
      ensures id in h'.rows && RowGrows(h.rows[id], h'.rows[id])
    {
      RowsGrow(h, now, step, h', id);
    }
    forall pid | pid in h.procs
      ensures pid in h'.procs && RoleGrows(h.procs[pid].role, h'.procs[pid].role)
    {
      RolesGrow(h, now, step, h', pid);
    }
  }

  // ---------------------------------------------------------------- rows

  ghost predicate OwnersKept(h: Hub, h': Hub) {
    forall i :: i in h.owners ==> i in h'.owners && h'.owners[i] == h.owners[i]
  }

  lemma KeepRows(h: Hub, now: int, step: HubStep, h': Hub)
    requires RowsOk(h) && ProcessesOk(h) && Frame(h, now, step, h') && Safe(h, step)
    ensures RowsOk(h')
  {
    forall id | id in h'.rows
      ensures RowOk(h', id, h'.rows[id])
    {
      if id !in h.rows {
        NewRowOk(h, now, step, h', id);
      } else {
        assert RowOk(h, id, h.rows[id]);
      }
    }
  }

  lemma NewRowOk(h: Hub, now: int, step: HubStep, h': Hub, id: CommandId)
    requires ProcessesOk(h) && Frame(h, now, step, h') && id !in h.rows && id in h'.rows
    ensures step.InsertCommand? && step.id == id && step.pid in h.procs && h.procs[step.pid].role.ApiCall?
    ensures !KeyTaken(h, h.procs[step.pid].role.input) && h'.rows[id] == NewRow(h.procs[step.pid].role.input)
    ensures RowOk(h', id, h'.rows[id])
  {
    assert step.InsertCommand?;
    assert ProcessOk(h, h.procs[step.pid]);
  }

  // ---------------------------------------------------------------- processes

  lemma SeenGrows(h: Hub, h': Hub, id: CommandId, seen: Row)
    requires Grows(h, h') && SeenOk(h, id, seen)
    ensures SeenOk(h', id, seen)
  {
    assert RowGrows(h.rows[id], h'.rows[id]);
  }

  lemma NextGrows(h: Hub, h': Hub, id: CommandId, n: nat, w: Write, next: Next)
    requires Grows(h, h') && NextOk(h, id, n, w, next)
    ensures NextOk(h', id, n, w, next)
  {
    if !next.Finish? {
      SeenGrows(h, h', id, next.seen);
    }
  }

  lemma OutcomeGrows(h: Hub, h': Hub, input: CreateInput, outcome: Option<Outcome>)
    requires Grows(h, h') && OutcomeOk(h, input, outcome)
    ensures OutcomeOk(h', input, outcome)
  {
    if outcome == Some(KeyReused) {
      var id :| id in h.rows && SameKey(h.rows[id], input) && Differs(h, id, input);
      assert RowGrows(h.rows[id], h'.rows[id]);
      assert SameKey(h'.rows[id], input) && Differs(h', id, input);
    } else if outcome.Some? && outcome != Some(NotPaired) {
      assert RowGrows(h.rows[outcome.value.id], h'.rows[outcome.value.id]);
    }
  }

  lemma WentOutGrows(h: Hub, h': Hub, a: (CommandId, nat))
    requires Grows(h, h') && WentOut(h, a)
    ensures WentOut(h', a)
  {
    assert RowGrows(h.rows[a.0], h'.rows[a.0]);
  }

  lemma JobRunGrows(h: Hub, h': Hub, id: CommandId, n: nat, pc: Pc)
    requires Grows(h, h') && RunOk(h, id, n, pc)
    ensures RunOk(h', id, n, pc)
  {
    assert RowGrows(h.rows[id], h'.rows[id]);
    match pc
    case Deciding(seen) => SeenGrows(h, h', id, seen);
    case Attempting(seen) => SeenGrows(h, h', id, seen);
    case Publishing(seen) => SeenGrows(h, h', id, seen);
    case Setting(w, next) => NextGrows(h, h', id, n, w, next);
    case Swapping(w, read, next) => NextGrows(h, h', id, n, w, next);
    case Recording(status) =>
      if status == Published {
        WentOutGrows(h, h', (id, n));
      }
    case _ =>
  }

  lemma ExhaustionGrows(h: Hub, h': Hub, id: CommandId, pc: Pc)
    requires Grows(h, h') && ExhaustionOk(h, id, pc)
    ensures ExhaustionOk(h', id, pc)
  {
    assert RowGrows(h.rows[id], h'.rows[id]);
    if pc.Deciding? {
      SeenGrows(h, h', id, pc.seen);
    }
  }

  lemma ProcessGrows(h: Hub, h': Hub, p: Process)
    requires Grows(h, h') && ProcessOk(h, p)
    ensures ProcessOk(h', p)
  {
    match p.role
    case ApiCall(input, outcome) => OutcomeGrows(h, h', input, outcome);
    case JobRun(id, n) => JobRunGrows(h, h', id, n, p.pc);
    case Exhaustion(id) => ExhaustionGrows(h, h', id, p.pc);
    case Receipt =>
      if p.pc.Auditing? {
        assert RowGrows(h.rows[p.pc.audit.commandId], h'.rows[p.pc.audit.commandId]);
      }
  }

  lemma OthersStay(h: Hub, now: int, step: HubStep, pid: ProcessId)
    requires Enabled(h, now, step) && Actor(step) != Some(pid)
    ensures pid in Apply(h, now, step).procs <==> pid in h.procs
    ensures pid in h.procs ==> Apply(h, now, step).procs[pid] == h.procs[pid]
  {
    StepFrame(h, now, step);
  }

  lemma StartOk(h: Hub, now: int, step: HubStep)
    requires JobsOk(h) && Enabled(h, now, step)
    requires step.SubmitCall? || step.StartRun? || step.StartExhaustion?
    ensures ProcessOk(Apply(h, now, step), Apply(h, now, step).procs[step.pid])
  {
    if step.StartRun? || step.StartExhaustion? {
      assert JobOk(h, step.id, h.jobs[step.id]);
    }
  }

  lemma CheckOk(h: Hub, now: int, step: HubStep)
    requires ProcessesOk(h) && Enabled(h, now, step) && step.CheckRuntime?
    ensures ProcessOk(Apply(h, now, step), Apply(h, now, step).procs[step.pid])
  {
    assert ProcessOk(h, h.procs[step.pid]);
  }

  lemma InsertOk(h: Hub, now: int, step: HubStep)
    requires ProcessesOk(h) && Enabled(h, now, step) && step.InsertCommand?
    ensures ProcessOk(Apply(h, now, step), Apply(h, now, step).procs[step.pid])
  {
    assert ProcessOk(h, h.procs[step.pid]);
  }

  /** What the lookup tells the caller fits the row it found. */
  lemma LookupDecides(h: Hub, id: CommandId, stored: Json, input: CreateInput)
    requires TotalPreorder(h.collation) && InputOk(input) && id in h.rows
    requires h.rows[id].request.expectedTargetUpdatedAt != Invalid
    requires WellFormed(stored) && Meaning(stored) == h.rows[id].request.payload
    ensures if SameIdempotentCommand(h.collation, ReadBack(h.rows[id].request, stored), input.wanted) == Same
            then h.rows[id].request == RequestOf(input.wanted) else Differs(h, id, input)
  {
    var found := ReadBack(h.rows[id].request, stored);
    assert RequestOf(found) == h.rows[id].request;
    SameIdempotentCommandDecides(h.collation, found, input.wanted);
    SameIdempotentCommandDecides(h.collation, input.wanted, found);
    SameIsSymmetric(h.collation, found, input.wanted);
  }

  lemma LookupOk(h: Hub, now: int, step: HubStep)
    requires TotalPreorder(h.collation) && RowsOk(h) && ProcessesOk(h) && Enabled(h, now, step) && step.LookupExisting?
    ensures ProcessOk(Apply(h, now, step), Apply(h, now, step).procs[step.pid])
  {
    var h' := Apply(h, now, step);
    assert ProcessOk(h, h.procs[step.pid]) && RowOk(h, step.id, h.rows[step.id]);
    var input := h.procs[step.pid].role.input;
    LookupDecides(h, step.id, step.stored, input);
    assert h'.rows == h.rows && h'.collation == h.collation;
    if h'.procs[step.pid].role.outcome == Some(KeyReused) {
      assert SameKey(h'.rows[step.id], input) && Differs(h', step.id, input);
    }
  }

  /** A call that threw owes nothing but what it had been told. */
  lemma ThrowOk(h: Hub, now: int, step: HubStep)
    requires ProcessesOk(h) && Enabled(h, now, step) && step.Throw?
    ensures ProcessOk(Apply(h, now, step), Apply(h, now, step).procs[step.pid])
  {
    assert ProcessOk(h, h.procs[step.pid]);
  }

  lemma ReadOk(h: Hub, now: int, step: HubStep)
    requires ProcessesOk(h) && Enabled(h, now, step) && (step.GetCommand? || step.Decide?)
    ensures ProcessOk(Apply(h, now, step), Apply(h, now, step).procs[step.pid])
  {
    assert ProcessOk(h, h.procs[step.pid]);
  }

  lemma AttemptCreatedOk(h: Hub, now: int, step: HubStep)
    requires Enabled(h, now, step) && (step.CreateAttempt?)
    requires RunOk(h, h.procs[step.pid].role.id, h.procs[step.pid].role.attempt, h.procs[step.pid].pc)
    requires RunOk(Apply(h, now, step), h.procs[step.pid].role.id, h.procs[step.pid].role.attempt, h.procs[step.pid].pc)
    ensures var role, h' := h.procs[step.pid].role, Apply(h, now, step);
      RunOk(h', role.id, role.attempt, h'.procs[step.pid].pc)
  {
    assert (h.procs[step.pid].role.id, h.procs[step.pid].role.attempt) in Apply(h, now, step).attempts;
  }

  lemma PublishOk(h: Hub, now: int, step: HubStep)
    requires Enabled(h, now, step) && (step.Publish?)
    requires RunOk(h, h.procs[step.pid].role.id, h.procs[step.pid].role.attempt, h.procs[step.pid].pc)
    requires RunOk(Apply(h, now, step), h.procs[step.pid].role.id, h.procs[step.pid].role.attempt, h.procs[step.pid].pc)
    ensures var role, h' := h.procs[step.pid].role, Apply(h, now, step);
      RunOk(h', role.id, role.attempt, h'.procs[step.pid].pc)
  {
  }

  lemma RunEndsOk(h: Hub, now: int, step: HubStep)
    requires Enabled(h, now, step) && (step.FinishAttempt? || step.CountRun?)
    requires RunOk(h, h.procs[step.pid].role.id, h.procs[step.pid].role.attempt, h.procs[step.pid].pc)
    requires RunOk(Apply(h, now, step), h.procs[step.pid].role.id, h.procs[step.pid].role.attempt, h.procs[step.pid].pc)
    ensures var role, h' := h.procs[step.pid].role, Apply(h, now, step);
      RunOk(h', role.id, role.attempt, h'.procs[step.pid].pc)
  {
  }

  lemma AttemptOk(h: Hub, now: int, step: HubStep)
    requires ProcessesOk(h) && Enabled(h, now, step) && Grows(h, Apply(h, now, step))
    requires step.CreateAttempt? || step.Publish? || step.FinishAttempt? || step.CountRun?
    ensures ProcessOk(Apply(h, now, step), Apply(h, now, step).procs[step.pid])
  {
    var p, h' := h.procs[step.pid], Apply(h, now, step);
    assert ProcessOk(h, p);
    JobRunGrows(h, h', p.role.id, p.role.attempt, p.pc);
    if step.CreateAttempt? {
      AttemptCreatedOk(h, now, step);
    } else if step.Publish? {
      PublishOk(h, now, step);
    } else {
      RunEndsOk(h, now, step);
    }
  }

  lemma EnqueueOk(h: Hub, now: int, step: HubStep)
    requires ProcessesOk(h) && Enabled(h, now, step) && step.EnqueueJob?
    ensures ProcessOk(Apply(h, now, step), Apply(h, now, step).procs[step.pid])
  {
    assert ProcessOk(h, h.procs[step.pid]);
  }

  lemma ReadApiOk(h: Hub, now: int, pid: ProcessId)
    requires Enabled(h, now, ReadStatus(pid)) && h.procs[pid].role.ApiCall?
    requires ApiPcOk(h, h.procs[pid].role.input, h.procs[pid].role.outcome, h.procs[pid].pc)
    ensures var h' := Apply(h, now, ReadStatus(pid));
      ApiPcOk(h', h.procs[pid].role.input, h.procs[pid].role.outcome, h'.procs[pid].pc)
  {
  }

  lemma ReadRunOk(h: Hub, now: int, pid: ProcessId)
    requires Enabled(h, now, ReadStatus(pid)) && h.procs[pid].role.JobRun?
    requires RunOk(h, h.procs[pid].role.id, h.procs[pid].role.attempt, h.procs[pid].pc)
    ensures var h' := Apply(h, now, ReadStatus(pid));
      RunOk(h', h.procs[pid].role.id, h.procs[pid].role.attempt, h'.procs[pid].pc)
  {
  }

  lemma ReadExhaustionOk(h: Hub, now: int, pid: ProcessId)
    requires Enabled(h, now, ReadStatus(pid)) && h.procs[pid].role.Exhaustion?
    requires ExhaustionOk(h, h.procs[pid].role.id, h.procs[pid].pc)
    ensures var h' := Apply(h, now, ReadStatus(pid)); ExhaustionOk(h', h.procs[pid].role.id, h'.procs[pid].pc)
  {
  }

  lemma ReadStatusOk(h: Hub, now: int, pid: ProcessId)
    requires ProcessesOk(h) && Enabled(h, now, ReadStatus(pid)) && Grows(h, Apply(h, now, ReadStatus(pid)))
    ensures ProcessOk(Apply(h, now, ReadStatus(pid)), Apply(h, now, ReadStatus(pid)).procs[pid])
  {
    assert ProcessOk(h, h.procs[pid]);
    match h.procs[pid].role
    case ApiCall(input, outcome) =>
      OutcomeGrows(h, Apply(h, now, ReadStatus(pid)), input, outcome);
      ReadApiOk(h, now, pid);
    case JobRun(_, _) => ReadRunOk(h, now, pid);
    case Exhaustion(_) => ReadExhaustionOk(h, now, pid);
    case Receipt =>
  }

  lemma SwapRunOk(h: Hub, now: int, pid: ProcessId)
    requires Enabled(h, now, SwapStatus(pid)) && Grows(h, Apply(h, now, SwapStatus(pid)))
    requires h.procs[pid].role.JobRun? && RunOk(h, h.procs[pid].role.id, h.procs[pid].role.attempt, h.procs[pid].pc)
    ensures var h' := Apply(h, now, SwapStatus(pid));
      RunOk(h', h.procs[pid].role.id, h.procs[pid].role.attempt, h'.procs[pid].pc)
  {
    var p, h' := h.procs[pid], Apply(h, now, SwapStatus(pid));
    NextGrows(h, h', p.role.id, p.role.attempt, p.pc.write, p.pc.next);
  }

  lemma SwapApiOk(h: Hub, now: int, pid: ProcessId)
    requires Enabled(h, now, SwapStatus(pid)) && Grows(h, Apply(h, now, SwapStatus(pid)))
    requires h.procs[pid].role.ApiCall?
    requires ApiPcOk(h, h.procs[pid].role.input, h.procs[pid].role.outcome, h.procs[pid].pc)
    ensures var h' := Apply(h, now, SwapStatus(pid));
      ApiPcOk(h', h.procs[pid].role.input, h.procs[pid].role.outcome, h'.procs[pid].pc)
  {
  }

  lemma SwapExhaustionOk(h: Hub, now: int, pid: ProcessId)
    requires Enabled(h, now, SwapStatus(pid)) && h.procs[pid].role.Exhaustion?
    requires ExhaustionOk(h, h.procs[pid].role.id, h.procs[pid].pc)
    ensures var h' := Apply(h, now, SwapStatus(pid)); ExhaustionOk(h', h.procs[pid].role.id, h'.procs[pid].pc)
  {
  }

  lemma SwapStatusOk(h: Hub, now: int, pid: ProcessId)
    requires ProcessesOk(h) && Enabled(h, now, SwapStatus(pid)) && Grows(h, Apply(h, now, SwapStatus(pid)))
    ensures ProcessOk(Apply(h, now, SwapStatus(pid)), Apply(h, now, SwapStatus(pid)).procs[pid])
  {
    assert ProcessOk(h, h.procs[pid]);
    match h.procs[pid].role
    case ApiCall(input, outcome) =>
      OutcomeGrows(h, Apply(h, now, SwapStatus(pid)), input, outcome);
      SwapApiOk(h, now, pid);
    case JobRun(_, _) => SwapRunOk(h, now, pid);
    case Exhaustion(_) => SwapExhaustionOk(h, now, pid);
    case Receipt =>
  }

  lemma ReceiptOk(h: Hub, now: int, step: HubStep)
    requires Enabled(h, now, step) && (step.ReceiveResult? || step.AppendAudit?) && ProcessesOk(h)
    ensures ProcessOk(Apply(h, now, step), Apply(h, now, step).procs[step.pid])
  {
    if step.AppendAudit? {
      assert ProcessOk(h, h.procs[step.pid]);
    }
  }

  lemma KeepProcesses(h: Hub, now: int, step: HubStep)
    requires TotalPreorder(h.collation) && RowsOk(h) && ProcessesOk(h) && JobsOk(h) && Enabled(h, now, step)
    requires Grows(h, Apply(h, now, step))
    ensures ProcessesOk(Apply(h, now, step))
  {
    var h' := Apply(h, now, step);
    forall pid | pid in h'.procs
      ensures ProcessOk(h', h'.procs[pid])
    {
      if Actor(step) == Some(pid) {
        ActorOk(h, now, step);
      } else {
        OthersStay(h, now, step, pid);
        assert ProcessOk(h, h.procs[pid]);
        ProcessGrows(h, h', h.procs[pid]);
      }
    }
  }

  lemma ActorPresent(h: Hub, now: int, step: HubStep)
    requires Enabled(h, now, step) && Actor(step).Some?
    ensures Actor(step).value in Apply(h, now, step).procs
  {
    StepFrame(h, now, step);
  }

  lemma CallerOk(h: Hub, now: int, step: HubStep)
    requires TotalPreorder(h.collation) && RowsOk(h) && ProcessesOk(h) && Enabled(h, now, step)
    requires step.CheckRuntime? || step.InsertCommand? || step.LookupExisting? || step.EnqueueJob?
    ensures ProcessOk(Apply(h, now, step), Apply(h, now, step).procs[step.pid])
  {
    if step.LookupExisting? {
      LookupOk(h, now, step);
    } else if step.EnqueueJob? {
      EnqueueOk(h, now, step);
    } else if step.CheckRuntime? {
      CheckOk(h, now, step);
    } else {
      InsertOk(h, now, step);
    }
  }

  lemma ActorOk(h: Hub, now: int, step: HubStep)
    requires TotalPreorder(h.collation) && RowsOk(h) && ProcessesOk(h) && JobsOk(h) && Enabled(h, now, step)
    requires Grows(h, Apply(h, now, step))
    requires Actor(step).Some?
    ensures Actor(step).value in Apply(h, now, step).procs
    ensures ProcessOk(Apply(h, now, step), Apply(h, now, step).procs[Actor(step).value])
  {
    ActorPresent(h, now, step);
    if step.ReadStatus? || step.SwapStatus? {
      SetterOk(h, now, step);
    } else if step.ReceiveResult? || step.AppendAudit? {
      ReceiptOk(h, now, step);
    } else if step.CreateAttempt? || step.Publish? || step.FinishAttempt? || step.CountRun? {
      AttemptOk(h, now, step);
    } else if step.CheckRuntime? || step.InsertCommand? || step.LookupExisting? || step.EnqueueJob? {
      CallerOk(h, now, step);
    } else if step.GetCommand? || step.Decide? {
      ReadOk(h, now, step);
    } else if step.Throw? {
      ThrowOk(h, now, step);
    } else {
      StartOk(h, now, step);
    }
  }

  lemma SetterOk(h: Hub, now: int, step: HubStep)
    requires ProcessesOk(h) && Enabled(h, now, step) && Grows(h, Apply(h, now, step))
    requires step.ReadStatus? || step.SwapStatus?
    ensures ProcessOk(Apply(h, now, step), Apply(h, now, step).procs[step.pid])
  {
    if step.ReadStatus? {
      ReadStatusOk(h, now, step.pid);
    } else {
      SwapStatusOk(h, now, step.pid);
    }
  }

  // ---------------------------------------------------------------- jobs, attempts, messages

  lemma EnqueuedInRows(h: Hub, pid: ProcessId)
    requires pid in h.procs && ProcessOk(h, h.procs[pid]) && h.procs[pid].pc.Enqueueing?
    ensures h.procs[pid].pc.id in h.rows
  {
  }

  lemma StepJobOk(h: Hub, now: int, step: HubStep, h': Hub, id: CommandId)
    requires JobsOk(h) && ProcessesOk(h) && Frame(h, now, step, h') && id in h'.jobs
    ensures JobOk(h, id, h'.jobs[id])
  {
    if id in h.jobs {
      assert JobOk(h, id, h.jobs[id]);
    }
    if step.EnqueueJob? {
      assert ProcessOk(h, h.procs[step.pid]);
      EnqueuedInRows(h, step.pid);
    } else if step.CountRun? {
      assert ProcessOk(h, h.procs[step.pid]);
    }
  }

  /** An attempt row is as it was, or new, or was just finished by its own run. */
  lemma TryFrom(h: Hub, now: int, step: HubStep, h': Hub, a: (CommandId, nat))
    requires ProcessesOk(h) && Frame(h, now, step, h') && a in h'.attempts
    ensures var status := h'.attempts[a];
      || (a in h.attempts && h.attempts[a] == status)
      || (a.0 in h.rows && 1 <= a.1 <= MAX_ATTEMPTS && (status == Published ==> WentOut(h, a)))
  {
    if step.CreateAttempt? || step.FinishAttempt? {
      assert ProcessOk(h, h.procs[step.pid]);
    }
  }

  lemma KeepTry(h: Hub, now: int, step: HubStep, h': Hub, a: (CommandId, nat))
    requires JobsOk(h) && ProcessesOk(h) && Frame(h, now, step, h') && Grows(h, h') && a in h'.attempts
    ensures TryOk(h', a, h'.attempts[a])
  {
    TryFrom(h, now, step, h', a);
    if a in h.attempts {
      assert TryOk(h, a, h.attempts[a]);
    }
    if h'.attempts[a] == Published {
      WentOutGrows(h, h', a);
    }
  }

  lemma KeepJobs(h: Hub, now: int, step: HubStep, h': Hub)
    requires JobsOk(h) && ProcessesOk(h) && Frame(h, now, step, h') && Grows(h, h')
    ensures JobsOk(h')
  {
    forall id | id in h'.jobs
      ensures JobOk(h', id, h'.jobs[id])
    {
      StepJobOk(h, now, step, h', id);
      assert RowGrows(h.rows[id], h'.rows[id]);
    }
    forall a | a in h'.attempts
      ensures TryOk(h', a, h'.attempts[a])
    {
      KeepTry(h, now, step, h', a);
    }
  }

  lemma MessageGrows(h: Hub, h': Hub, m: Message)
    requires Grows(h, h') && MessageOk(h, m)
    ensures MessageOk(h', m)
  {
    assert RowGrows(h.rows[m.commandId], h'.rows[m.commandId]);
  }

  lemma KeepMessages(h: Hub, now: int, step: HubStep, h': Hub)
    requires MessagesOk(h) && ProcessesOk(h) && Frame(h, now, step, h') && Grows(h, h')
    ensures MessagesOk(h')
  {
    forall m | m in h'.messages
      ensures MessageOk(h', m)
    {
      if m !in h.messages {
        PublishedOk(h, now, step, h', m);
      }
      MessageGrows(h, h', m);
    }
  }

  lemma PublishedOk(h: Hub, now: int, step: HubStep, h': Hub, m: Message)
    requires ProcessesOk(h) && Frame(h, now, step, h') && m in h'.messages && m !in h.messages
    ensures MessageOk(h, m)
  {
    assert step.Publish?;
    assert ProcessOk(h, h.procs[step.pid]);
  }

  // ---------------------------------------------------------------- one row per key, one maker per row

  lemma KeepKeys(h: Hub, now: int, step: HubStep, h': Hub)
    requires KeysUnique(h) && ProcessesOk(h) && Frame(h, now, step, h') && Grows(h, h')
    ensures KeysUnique(h')
  {
    forall i, j | i in h'.rows && j in h'.rows && SameOwnerKey(h'.rows[i], h'.rows[j])
      ensures i == j
    {
      if i in h.rows {
        assert RowGrows(h.rows[i], h'.rows[i]);
      } else {
        NewRowOk(h, now, step, h', i);
      }
      if j in h.rows {
        assert RowGrows(h.rows[j], h'.rows[j]);
      } else {
        NewRowOk(h, now, step, h', j);
      }
    }
  }

  lemma MakerIsNew(h: Hub, now: int, step: HubStep, h': Hub, pid: ProcessId, id: CommandId)
    requires Frame(h, now, step, h') && MadeBy(h', pid, id) && !MadeBy(h, pid, id)
    ensures step.InsertCommand? && step.pid == pid && step.id == id
  {
    assert Actor(step) == Some(pid) && ActorFrame(h, step, h', pid);
  }

  lemma MakerInRows(h: Hub, pid: ProcessId, id: CommandId)
    requires ProcessesOk(h) && MadeBy(h, pid, id)
    ensures id in h.rows
  {
    assert ProcessOk(h, h.procs[pid]);
  }

  lemma KeepMakers(h: Hub, now: int, step: HubStep, h': Hub)
    requires MakersOk(h) && ProcessesOk(h) && Frame(h, now, step, h') && Grows(h, h')
    ensures MakersOk(h')
  {
    forall id | id in h'.rows
      ensures exists pid :: MadeBy(h', pid, id)
    {
      if id in h.rows {
        var pid :| MadeBy(h, pid, id);
        assert RoleGrows(h.procs[pid].role, h'.procs[pid].role);
        assert MadeBy(h', pid, id);
      } else {
        NewRowOk(h, now, step, h', id);
        assert MadeBy(h', step.pid, id);
      }
    }
    forall p, q, id | MadeBy(h', p, id) && MadeBy(h', q, id)
      ensures p == q
    {
      if !MadeBy(h, p, id) {
        MakerIsNew(h, now, step, h', p, id);
      }
      if !MadeBy(h, q, id) {
        MakerIsNew(h, now, step, h', q, id);
      }
      if MadeBy(h, p, id) {
        MakerInRows(h, p, id);
      }
      if MadeBy(h, q, id) {
        MakerInRows(h, q, id);
      }
    }
  }

  // ---------------------------------------------------------------- completion records

  lemma RecordGrows(h: Hub, h': Hub, a: Audit)
    requires Grows(h, h') && Recorded(h, a)
    ensures Recorded(h', a)
  {
    assert RowGrows(h.rows[a.commandId], h'.rows[a.commandId]);
  }

  /** A new debt is for a command that was not terminal, hence had neither record nor debt. */
  lemma NewDebt(h: Hub, now: int, step: HubStep, h': Hub, pid: ProcessId, id: CommandId)
    requires Frame(h, now, step, h') && Owes(h', pid, id) && !Owes(h, pid, id)
    ensures step.ReceiveResult? && step.pid == pid && id in h.rows && !Terminal(h.rows[id].status)
    ensures h'.audits == h.audits
  {
    assert Actor(step) == Some(pid) && ActorFrame(h, step, h', pid);
  }

  lemma DebtorTerminal(h: Hub, pid: ProcessId, id: CommandId)
    requires ProcessesOk(h) && Owes(h, pid, id)
    ensures id in h.rows && Terminal(h.rows[id].status)
  {
    assert ProcessOk(h, h.procs[pid]);
  }

  lemma KeepDebts(h: Hub, now: int, step: HubStep, h': Hub, p: ProcessId, q: ProcessId, id: CommandId)
    requires AuditsOk(h) && ProcessesOk(h) && Frame(h, now, step, h')
    requires Owes(h', p, id) && Owes(h', q, id)
    ensures p == q
  {
    if !Owes(h, p, id) {
      NewDebt(h, now, step, h', p, id);
    }
    if !Owes(h, q, id) {
      NewDebt(h, now, step, h', q, id);
    }
    if Owes(h, p, id) {
      DebtorTerminal(h, p, id);
    }
    if Owes(h, q, id) {
      DebtorTerminal(h, q, id);
    }
  }

  lemma RecordFrom(h: Hub, now: int, step: HubStep, h': Hub)
    requires Frame(h, now, step, h') && h'.audits != h.audits
    ensures step.AppendAudit? && Owes(h, step.pid, h.procs[step.pid].pc.audit.commandId)
    ensures h'.audits == h.audits + [h.procs[step.pid].pc.audit]
    ensures !Owes(h', step.pid, h.procs[step.pid].pc.audit.commandId)
  {
  }

  lemma RecordNotOwed(h: Hub, now: int, step: HubStep, h': Hub, k: nat, pid: ProcessId)
    requires AuditsOk(h) && ProcessesOk(h) && Frame(h, now, step, h') && k < |h'.audits|
    ensures !Owes(h', pid, h'.audits[k].commandId)
  {
    var id := h'.audits[k].commandId;
    if h'.audits != h.audits {
      RecordFrom(h, now, step, h');
      assert ProcessOk(h, h.procs[step.pid]);
    }
    if k < |h.audits| {
      assert Recorded(h, h.audits[k]) && !Owes(h, pid, id);
    }
    if Owes(h', pid, id) && !Owes(h, pid, id) {
      NewDebt(h, now, step, h', pid, id);
      assert false;
    }
  }

  lemma KeepRecord(h: Hub, now: int, step: HubStep, h': Hub, k: nat)
    requires AuditsOk(h) && ProcessesOk(h) && Frame(h, now, step, h') && Grows(h, h') && k < |h'.audits|
    ensures Recorded(h', h'.audits[k])
  {
    if h'.audits != h.audits {
      RecordFrom(h, now, step, h');
      assert ProcessOk(h, h.procs[step.pid]);
    }
    RecordGrows(h, h', h'.audits[k]);
  }

  lemma KeepDistinct(h: Hub, now: int, step: HubStep, h': Hub, j: nat, k: nat)
    requires AuditsOk(h) && Frame(h, now, step, h') && j < k < |h'.audits|
    ensures h'.audits[j].commandId != h'.audits[k].commandId
  {
    if h'.audits != h.audits {
      RecordFrom(h, now, step, h');
      assert !Owes(h, step.pid, h.audits[j].commandId);
    }
  }

  lemma KeepAudits(h: Hub, now: int, step: HubStep, h': Hub)
    requires AuditsOk(h) && ProcessesOk(h) && Frame(h, now, step, h') && Grows(h, h')
    ensures AuditsOk(h')
  {
    forall k | 0 <= k < |h'.audits|
      ensures Recorded(h', h'.audits[k])
    {
      KeepRecord(h, now, step, h', k);
    }
    forall j, k | 0 <= j < k < |h'.audits|
      ensures h'.audits[j].commandId != h'.audits[k].commandId
    {
      KeepDistinct(h, now, step, h', j, k);
    }
    forall k, pid | 0 <= k < |h'.audits|
      ensures !Owes(h', pid, h'.audits[k].commandId)
    {
      RecordNotOwed(h, now, step, h', k, pid);
    }
    forall p, q, id | Owes(h', p, id) && Owes(h', q, id)
      ensures p == q
    {
      KeepDebts(h, now, step, h', p, q, id);
    }
  }

  // ---------------------------------------------------------------- together

  lemma InitialHubInv(collation: Collation)
    requires TotalPreorder(collation)
    ensures HubInv(InitialHub(collation))
  {
  }

  lemma StepKeepsHubInv(h: Hub, now: int, step: HubStep)
    requires HubInv(h) && Enabled(h, now, step)
    ensures HubInv(Apply(h, now, step)) && Grows(h, Apply(h, now, step))
  {
    StepIsSafe(h, now, step);
    StepFrame(h, now, step);
    var h' := Apply(h, now, step);
    FrameGrows(h, now, step, h');
    KeepRows(h, now, step, h');
    KeepProcesses(h, now, step);
    KeepJobs(h, now, step, h');
    KeepMessages(h, now, step, h');
    KeepKeys(h, now, step, h');
    KeepMakers(h, now, step, h');
    KeepAudits(h, now, step, h');
  }
}
