/** The rows of the `commands` table and the two statements that change a status: the
    compare-and-set of `setCommandStatus` and the guarded update of a Connector acknowledgement. */
module CommandTable {
  import opened CommandPolicy
  import opened Json

  type CommandId = nat

  /** What `executeCommand` got from the Runtime: an answer, or the error of the Runtime client. */
  datatype Reply = Answer(accepted: bool, eventSequence: nat) | ClientError(status: int, code: string)

  datatype Row = Row(
    ownerId: string,
    idempotencyKey: string,
    request: Request,
    expiresAt: int,
    status: CommandStatus,
    result: Option<Reply>,
    errorCode: Option<string>,
    finishedAt: Option<int>)

  type Rows = map<CommandId, Row>

  datatype CreateInput = CreateInput(ownerId: string, idempotencyKey: string, wanted: Identity, expiresAt: int)

  /** The input of `setCommandStatus`. */
  datatype Write = Write(
    commandId: CommandId,
    status: CommandStatus,
    result: Option<Reply>,
    errorCode: Option<string>,
    terminal: Option<bool>)

  /** The input of `completeCommandFromConnector`. */
  datatype Ack = Ack(
    commandId: CommandId,
    installationId: string,
    runtimeId: string,
    status: CommandStatus,
    result: Option<Reply>,
    errorCode: Option<string>)

  function NewRow(input: CreateInput): Row {
    Row(input.ownerId, input.idempotencyKey, RequestOf(input.wanted), input.expiresAt, Created, None, None, None)
  }

  predicate Refused(current: CommandStatus, wanted: CommandStatus) {
    current != wanted && !CanTransition(current, wanted)
  }

  function Given<T>(value: Option<T>, otherwise: Option<T>): Option<T> {
    if value.Some? then value else otherwise
  }

  function Written(row: Row, w: Write, now: int): Row {
    row.(status := w.status,
         result := Given(w.result, row.result),
         errorCode := Given(w.errorCode, row.errorCode),
         finishedAt := match w.terminal
                       case None => row.finishedAt
                       case Some(t) => if t then Some(now) else None)
  }

  predicate Swaps(rows: Rows, w: Write, read: CommandStatus) {
    w.commandId in rows && rows[w.commandId].status == read
  }

  function CompareAndSet(rows: Rows, w: Write, read: CommandStatus, now: int): Rows {
    if Swaps(rows, w, read) then rows[w.commandId := Written(rows[w.commandId], w, now)] else rows
  }

  predicate Completes(rows: Rows, ack: Ack) {
    && ack.commandId in rows
    && rows[ack.commandId].request.installationId == ack.installationId
    && rows[ack.commandId].request.runtimeId == ack.runtimeId
    && rows[ack.commandId].status in {Queued, Delivering}
  }

  function Complete(rows: Rows, ack: Ack, now: int): Rows {
    if !Completes(rows, ack) then rows else
      var row := rows[ack.commandId];
      rows[ack.commandId := row.(status := ack.status,
                                 result := Given(ack.result, row.result),
                                 errorCode := Given(ack.errorCode, row.errorCode),
                                 finishedAt := Some(now))]
  }

  /** `render` prints a `jsonb` value in some key order. */
  ghost predicate Renders(render: Value -> Json) {
    forall v :: WellFormed(render(v)) && Meaning(render(v)) == v
  }

  /** A stored request as the select returns it: `stored` is the payload in the key order of the column. */
  function ReadBack(q: Request, stored: Json): Identity {
    Identity(q.installationId, q.runtimeId, q.kind, q.targetId, q.expectedEventSequence, q.expectedTargetUpdatedAt, stored)
  }

  predicate SameKey(row: Row, input: CreateInput) {
    row.ownerId == input.ownerId && row.idempotencyKey == input.idempotencyKey
  }

  /** The columns no statement rewrites. */
  predicate SameIdentity(r: Row, s: Row) {
    && r.ownerId == s.ownerId && r.idempotencyKey == s.idempotencyKey
    && r.request == s.request && r.expiresAt == s.expiresAt
  }
}
