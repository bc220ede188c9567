/** The command policy of the contracts package: the status table, expiry, and the comparison that
    tells a replayed request from a different one under the same idempotency key. */
module CommandPolicy {
  import opened Json
  import opened Canonical

  datatype Option<+T> = None | Some(value: T)

  datatype CommandStatus =
    | Created | Queued | Delivering
    | Succeeded | Rejected | Conflict | Expired | Failed

  function Transitions(from: CommandStatus): set<CommandStatus> {
    match from
    case Created => {Queued, Expired, Failed}
    case Queued => {Delivering, Expired, Failed}
    case Delivering => {Queued, Succeeded, Rejected, Conflict, Expired, Failed}
    case _ => {}
  }

  predicate CanTransition(from: CommandStatus, to: CommandStatus) {
    to in Transitions(from)
  }

  /** The list the worker and the API test a status against. */
  predicate Terminal(s: CommandStatus) {
    s in {Succeeded, Rejected, Conflict, Expired, Failed}
  }

  predicate IsExpired(expiresAt: int, now: int) {
    expiresAt <= now
  }

  /** Milliseconds, nothing, or a text that is no date. */
  datatype Stamp = Absent | At(ms: int) | Invalid

  datatype Identity = Identity(
    installationId: string,
    runtimeId: string,
    kind: string,
    targetId: string,
    expectedEventSequence: Option<int>,
    expectedTargetUpdatedAt: Stamp,
    payload: Json)

  datatype Verdict = Same | Different | InvalidTimestamp

  function SameIdempotentCommand(leq: Collation, left: Identity, right: Identity): Verdict {
    if left.installationId != right.installationId || left.runtimeId != right.runtimeId
       || left.kind != right.kind || left.targetId != right.targetId
       || left.expectedEventSequence != right.expectedEventSequence then Different
    else if left.expectedTargetUpdatedAt == Invalid || right.expectedTargetUpdatedAt == Invalid then InvalidTimestamp
    else if left.expectedTargetUpdatedAt != right.expectedTargetUpdatedAt then Different
    else if CanonicalJson(leq, left.payload) == CanonicalJson(leq, right.payload) then Same
    else Different
  }

  /** What a request asks for, with the payload as the value a `jsonb` column keeps. */
  datatype Request = Request(
    installationId: string,
    runtimeId: string,
    kind: string,
    targetId: string,
    expectedEventSequence: Option<int>,
    expectedTargetUpdatedAt: Stamp,
    payload: Value)

  function RequestOf(i: Identity): Request {
    Request(i.installationId, i.runtimeId, i.kind, i.targetId, i.expectedEventSequence,
            i.expectedTargetUpdatedAt, Meaning(i.payload))
  }

  /** A terminal status is exactly one the table lets nobody leave. */
  lemma TerminalIffStuck(s: CommandStatus)
    ensures Terminal(s) <==> forall t :: !CanTransition(s, t)
  {
    if !Terminal(s) {
      assert CanTransition(s, Failed);
    }
  }

  /** From an open status a command can be expired or failed; otherwise it moves on from created to queued
      to delivering, back from delivering to queued, and from delivering to an answer. */
  lemma CanTransitionIff(s: CommandStatus, t: CommandStatus)
    ensures CanTransition(s, t) <==>
      || (s in {Created, Queued, Delivering} && t in {Expired, Failed})
      || (s, t) in {(Created, Queued), (Queued, Delivering), (Delivering, Queued)}
      || (s == Delivering && t in {Succeeded, Rejected, Conflict})
  {
  }

  /** A command is expired from its expiry on. An invalid timestamp is an error exactly if the comparison
      gets as far as the timestamps, and never a verdict. */
  lemma InvalidTimestampIff(leq: Collation, left: Identity, right: Identity)
    ensures SameIdempotentCommand(leq, left, right) == InvalidTimestamp <==>
      && (left.expectedTargetUpdatedAt == Invalid || right.expectedTargetUpdatedAt == Invalid)
      && left.installationId == right.installationId && left.runtimeId == right.runtimeId
      && left.kind == right.kind && left.targetId == right.targetId
      && left.expectedEventSequence == right.expectedEventSequence
  {
  }

  /** For valid timestamps the comparison decides whether two requests mean the same, when the
      collation ties no two keys of the payload, indices apart; it never calls different requests the same. */
  lemma SameIdempotentCommandDecides(leq: Collation, left: Identity, right: Identity)
    requires TotalPreorder(leq) && WellFormed(left.payload) && WellFormed(right.payload)
    requires left.expectedTargetUpdatedAt != Invalid && right.expectedTargetUpdatedAt != Invalid
    ensures SameIdempotentCommand(leq, left, right) in {Same, Different}
    ensures SameIdempotentCommand(leq, left, right) == Same ==> RequestOf(left) == RequestOf(right)
    ensures NoTies(leq, left.payload) ==>
      (SameIdempotentCommand(leq, left, right) == Same <==> RequestOf(left) == RequestOf(right))
  {
    CanonicalSound(leq, left.payload, right.payload);
    if NoTies(leq, left.payload) {
      CanonicalDecides(leq, left.payload, right.payload);
    }
  }

  lemma SameIsSymmetric(leq: Collation, a: Identity, b: Identity)
    ensures SameIdempotentCommand(leq, a, b) == SameIdempotentCommand(leq, b, a)
  {
  }
}
