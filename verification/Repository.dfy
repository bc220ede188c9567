/** The command tables of `HubRepository`. Each statement is atomic; before every statement of a call
    other connections may have written, which `Interleave` stands for. A ghost result names the
    table as the decisive statement found it. */
module Repository {
  import opened Canonical
  import opened CommandPolicy
  import opened CommandTable
  import opened Fresh
  import opened HubInvariants
  import opened HubMachine
  import opened Json

  datatype RepositoryError = RuntimeNotFound | IdempotencyKeyReused | CommandConflict

  datatype Result<+T> = Ok(value: T) | Err(error: RepositoryError)

  datatype CreatedCommand = CreatedCommand(id: CommandId, created: bool)

  /** What other connections can do to the rows: add some, and move statuses as the machine does. */
  ghost predicate RowsGrew(rows: Rows, rows': Rows) {
    forall id :: id in rows ==> id in rows' && RowGrows(rows[id], rows'[id])
  }

  predicate HasKey(row: Row, ownerId: string, key: string) {
    row.ownerId == ownerId && row.idempotencyKey == key
  }

  ghost predicate KeyIn(rows: Rows, ownerId: string, key: string) {
    exists id :: id in rows && HasKey(rows[id], ownerId, key)
  }

  class HubRepository {
    var commands: Rows
    var attempts: map<(CommandId, nat), AttemptStatus>
    /** The unique index on (owner_id, idempotency_key). */
    var keys: map<(string, string), CommandId>
    /** The owner of each installation. */
    var installations: map<string, string>
    /** The Runtimes with a credential that is not revoked, by installation. */
    var paired: set<(string, string)>

    ghost predicate Valid()
      reads this
    {
      && (forall id :: id in commands ==> IndexedAs(commands[id], id))
      && (forall id :: id in commands ==> commands[id].request.expectedTargetUpdatedAt != Invalid)
      && (forall k :: k in keys ==> keys[k] in commands && HasKey(commands[keys[k]], k.0, k.1))
      && (forall id :: id in commands ==> IsOwner(commands[id].ownerId, commands[id].request.installationId))
    }

    predicate IsOwner(ownerId: string, installationId: string)
      reads this`installations
    {
      installationId in installations && installations[installationId] == ownerId
    }

    predicate IndexedAs(row: Row, id: CommandId)
      reads this
    {
      (row.ownerId, row.idempotencyKey) in keys && keys[(row.ownerId, row.idempotencyKey)] == id
    }

    constructor ()
      ensures Valid() && commands == map[] && attempts == map[] && installations == map[] && paired == {}
    {
      commands, attempts, keys, installations, paired := map[], map[], map[], map[], {};
    }

    /** Whatever other connections write between two statements. A caller knows only this much; in
        particular Runtimes may be paired and credentials revoked, but installations keep their owners. */
    method Interleave()
      requires Valid()
      modifies this
      ensures Valid() && RowsGrew(old(commands), commands)
      ensures forall i :: i in old(installations) ==> i in installations && installations[i] == old(installations)[i]
    {
    }

    /** The select of a credential joined with the caller's installation. */
    method AssertRuntimeOwner(ownerId: string, installationId: string, runtimeId: string) returns (r: Result<()>)
      ensures r == Ok(()) || r == Err(RuntimeNotFound)
      ensures r.Ok? <==>
        installationId in installations && installations[installationId] == ownerId && (installationId, runtimeId) in paired
    {
      if installationId in installations && installations[installationId] == ownerId && (installationId, runtimeId) in paired {
        return Ok(());
      }
      return Err(RuntimeNotFound);
    }

    /** The insert with `on conflict do nothing`. */
    method InsertCommand(input: CreateInput) returns (id: Option<CommandId>)
      requires Valid() && input.wanted.expectedTargetUpdatedAt != Invalid
      requires IsOwner(input.ownerId, input.wanted.installationId)
      modifies this`commands, this`keys
      ensures Valid()
      ensures id.None? <==> KeyIn(old(commands), input.ownerId, input.idempotencyKey)
      ensures if id.Some? then id.value !in old(commands) && commands == old(commands)[id.value := NewRow(input)]
              else commands == old(commands) && keys == old(keys)
    {
      var k := (input.ownerId, input.idempotencyKey);
      if k in keys {
        assert HasKey(commands[keys[k]], input.ownerId, input.idempotencyKey);
        return None;
      }
      assert !KeyIn(commands, input.ownerId, input.idempotencyKey) by {
        if id :| id in commands && HasKey(commands[id], input.ownerId, input.idempotencyKey) {
          assert IndexedAs(commands[id], id);
        }
      }
      ghost var unused := Unused(commands);
      var added: CommandId :| added !in commands;
      commands := commands[added := NewRow(input)];
      keys := keys[k := added];
      return Some(added);
    }

    /** The select by owner and key. */
    method SelectExisting(ownerId: string, key: string) returns (id: Option<CommandId>)
      requires Valid()
      ensures id.Some? <==> KeyIn(commands, ownerId, key)
      ensures id.Some? ==> id.value in commands && HasKey(commands[id.value], ownerId, key)
      ensures forall other :: other in commands && HasKey(commands[other], ownerId, key) ==> id == Some(other)
    {
      forall other | other in commands && HasKey(commands[other], ownerId, key)
        ensures (ownerId, key) in keys && keys[(ownerId, key)] == other
      {
        assert IndexedAs(commands[other], other);
      }
      id := if (ownerId, key) in keys then Some(keys[(ownerId, key)]) else None;
    }

    /** Refused exactly if the Runtime is not paired to an installation of the caller's. `at` is the table
        at the insert. If nobody has the key there, exactly this row is added to it; otherwise the row
        that has it decides. */
    method CreateCommand(leq: Collation, input: CreateInput, render: Value -> Json)
      returns (r: Result<CreatedCommand>, ghost at: Rows)
      requires Valid() && TotalPreorder(leq) && Renders(render)
      requires WellFormed(input.wanted.payload) && input.wanted.expectedTargetUpdatedAt != Invalid
      modifies this
      ensures Valid() && RowsGrew(old(commands), at) && RowsGrew(at, commands)
      ensures r == Err(RuntimeNotFound) <==>
        !(input.wanted.installationId in old(installations)
          && old(installations)[input.wanted.installationId] == input.ownerId
          && (input.wanted.installationId, input.wanted.runtimeId) in old(paired))
      ensures r == Err(RuntimeNotFound) ==> commands == at == old(commands)
      ensures r != Err(RuntimeNotFound) && !KeyIn(at, input.ownerId, input.idempotencyKey) ==>
        && r.Ok? && r.value.created && r.value.id !in at
        && commands == at[r.value.id := Row(
             input.ownerId, input.idempotencyKey,
             Request(input.wanted.installationId, input.wanted.runtimeId, input.wanted.kind, input.wanted.targetId,
                     input.wanted.expectedEventSequence, input.wanted.expectedTargetUpdatedAt, Meaning(input.wanted.payload)),
             input.expiresAt, Created, None, None, None)]
      ensures r != Err(RuntimeNotFound) && KeyIn(at, input.ownerId, input.idempotencyKey) ==>
        exists id :: id in at && at[id].ownerId == input.ownerId && at[id].idempotencyKey == input.idempotencyKey
                     && (r == Ok(CreatedCommand(id, false)) || r == Err(IdempotencyKeyReused))
                     && (r.Ok? ==> at[id].request == RequestOf(input.wanted))
                     && (r.Err? ==> at[id].request != RequestOf(input.wanted) || !NoTies(leq, input.wanted.payload))
    {
      at := commands;
      var checked := AssertRuntimeOwner(input.ownerId, input.wanted.installationId, input.wanted.runtimeId);
      if checked.Err? {
        return Err(RuntimeNotFound), at;
      }
      Interleave();
      at := commands;
      var inserted := InsertCommand(input);
      if inserted.Some? {
        return Ok(CreatedCommand(inserted.value, true)), at;
      }
      ghost var holder :| holder in at && HasKey(at[holder], input.ownerId, input.idempotencyKey);
      r := JudgeExisting(leq, input, render, holder);
      assert at[holder].ownerId == input.ownerId;
    }

    /** The rest of the call once the insert has met the row that has the key. */
    method JudgeExisting(leq: Collation, input: CreateInput, render: Value -> Json, ghost holder: CommandId)
      returns (r: Result<CreatedCommand>)
      requires Valid() && TotalPreorder(leq) && Renders(render)
      requires WellFormed(input.wanted.payload) && input.wanted.expectedTargetUpdatedAt != Invalid
      requires holder in commands && HasKey(commands[holder], input.ownerId, input.idempotencyKey)
      modifies this
      ensures Valid() && RowsGrew(old(commands), commands)
      ensures r == Ok(CreatedCommand(holder, false)) || r == Err(IdempotencyKeyReused)
      ensures r.Ok? ==> old(commands)[holder].request == RequestOf(input.wanted)
      ensures r.Err? ==> old(commands)[holder].request != RequestOf(input.wanted) || !NoTies(leq, input.wanted.payload)
    {
      Interleave();
      assert RowGrows(old(commands)[holder], commands[holder]);
      var found := SelectExisting(input.ownerId, input.idempotencyKey);
      assert found == Some(holder);
      r := Answer(leq, found.value, input.wanted, render(commands[found.value].request.payload));
    }

    /** The comparison and what it makes of a used key. */
    method Answer(leq: Collation, existing: CommandId, wanted: Identity, stored: Json) returns (r: Result<CreatedCommand>)
      requires Valid() && TotalPreorder(leq) && existing in commands
      requires WellFormed(wanted.payload) && wanted.expectedTargetUpdatedAt != Invalid
      requires WellFormed(stored) && Meaning(stored) == commands[existing].request.payload
      ensures r == Ok(CreatedCommand(existing, false)) || r == Err(IdempotencyKeyReused)
      ensures r.Ok? ==> commands[existing].request == RequestOf(wanted)
      ensures r.Err? ==> commands[existing].request != RequestOf(wanted) || !NoTies(leq, wanted.payload)
    {
      var left := ReadBack(commands[existing].request, stored);
      assert RequestOf(left) == commands[existing].request;
      SameIdempotentCommandDecides(leq, left, wanted);
      SameIdempotentCommandDecides(leq, wanted, left);
      SameIsSymmetric(leq, left, wanted);
      r := if SameIdempotentCommand(leq, left, wanted) == Same then Ok(CreatedCommand(existing, false))
           else Err(IdempotencyKeyReused);
    }

    /** The update with the status that was read in its condition. */
    method UpdateStatus(w: Write, current: CommandStatus, now: int) returns (updated: Option<Row>)
      requires Valid() && w.commandId in commands
      modifies this`commands
      ensures Valid() && (updated.Some? <==> old(commands)[w.commandId].status == current)
      ensures commands == if updated.Some? then old(commands)[w.commandId := updated.value] else old(commands)
      ensures updated.Some? ==>
        var row := old(commands)[w.commandId];
        updated.value == row.(
          status := w.status,
          result := if w.result.Some? then w.result else row.result,
          errorCode := if w.errorCode.Some? then w.errorCode else row.errorCode,
          finishedAt := match w.terminal case None => row.finishedAt case Some(t) => if t then Some(now) else None)
    {
      if commands[w.commandId].status != current {
        return None;
      }
      var written := Written(commands[w.commandId], w, now);
      commands := commands[w.commandId := written];
      return Some(written);
    }

    /** `read` is the table at the select and `at` the table at the update. Nothing is written unless
        the table allows the transition from the status read and the status is still that one at the
        update; then exactly this row is, with every column that is given, and the others as they were. */
    method SetCommandStatus(w: Write, now: int) returns (r: Result<Option<Row>>, ghost read: Rows, ghost at: Rows)
      requires Valid()
      modifies this
      ensures Valid() && RowsGrew(old(commands), read) && RowsGrew(read, at)
      ensures r == Ok(None) <==> w.commandId !in read
      ensures r != Err(RuntimeNotFound) && r != Err(IdempotencyKeyReused)
      ensures r == Ok(None) || r.Err? ==> commands == at
      ensures w.commandId in read ==>
        && w.commandId in at
        && var before, row := read[w.commandId].status, at[w.commandId];
           && (r.Ok? <==> (before == w.status || CanTransition(before, w.status)) && row.status == before)
           && (r.Ok? ==> r.value.Some? && commands == at[w.commandId := r.value.value])
           && (r.Ok? ==> r.value.value == row.(
                 status := w.status,
                 result := if w.result.Some? then w.result else row.result,
                 errorCode := if w.errorCode.Some? then w.errorCode else row.errorCode,
                 finishedAt := match w.terminal case None => row.finishedAt case Some(t) => if t then Some(now) else None))
    {
      Interleave();
      read, at := commands, commands;
      if w.commandId !in commands {
        return Ok(None), read, at;
      }
      var current := commands[w.commandId].status;
      if current != w.status && !CanTransition(current, w.status) {
        return Err(CommandConflict), read, at;
      }
      Interleave();
      at := commands;
      assert RowGrows(read[w.commandId], at[w.commandId]);
      var updated := UpdateStatus(w, current, now);
      r := if updated.Some? then Ok(updated) else Err(CommandConflict);
    }

    /** One statement; a row that is not `queued` or `delivering`, or belongs to another installation or
        Runtime, is left alone. */
    method CompleteCommandFromConnector(ack: Ack, now: int) returns (completed: bool)
      requires Valid()
      modifies this`commands
      ensures Valid()
      ensures completed <==>
        && ack.commandId in old(commands)
        && old(commands)[ack.commandId].request.installationId == ack.installationId
        && old(commands)[ack.commandId].request.runtimeId == ack.runtimeId
        && (old(commands)[ack.commandId].status == Queued || old(commands)[ack.commandId].status == Delivering)
      ensures !completed ==> commands == old(commands)
      ensures completed ==>
        var row := old(commands)[ack.commandId];
        commands == old(commands)[ack.commandId := row.(
          status := ack.status,
          result := if ack.result.Some? then ack.result else row.result,
          errorCode := if ack.errorCode.Some? then ack.errorCode else row.errorCode,
          finishedAt := Some(now))]
    {
      completed := false;
      if ack.commandId in commands {
        var row := commands[ack.commandId];
        if row.request.installationId == ack.installationId && row.request.runtimeId == ack.runtimeId
           && (row.status == Queued || row.status == Delivering) {
          row := row.(status := ack.status, finishedAt := Some(now));
          if ack.result.Some? {
            row := row.(result := ack.result);
          }
          if ack.errorCode.Some? {
            row := row.(errorCode := ack.errorCode);
          }
          commands := commands[ack.commandId := row];
          completed := true;
        }
      }
    }

    /** An existing attempt row is reused as it is. */
    method CreateCommandAttempt(id: CommandId, number: nat) returns (status: AttemptStatus)
      modifies this`attempts
      ensures (id, number) in attempts && attempts[(id, number)] == status
      ensures attempts == if (id, number) in old(attempts) then old(attempts) else old(attempts)[(id, number) := Underway]
    {
      if (id, number) !in attempts {
        attempts := attempts[(id, number) := Underway];
      }
      status := attempts[(id, number)];
    }
  }
}
