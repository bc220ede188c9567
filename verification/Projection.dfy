/** Projection synchronisation: a Connector session that polls a Runtime's append-only event log
    with a cursor, and the Hub tables that absorb what arrives, in any order and any number of times. */
module Projection {
  import opened CommandPolicy

  datatype Event = Event(id: string, sequence: int, body: string)

  // ---------------------------------------------------------------- the Runtime's log

  ghost predicate LogOk(log: seq<Event>) {
    && (forall i :: 0 <= i < |log| ==> log[i].sequence > 0)
    && (forall i, j :: 0 <= i < j < |log| ==> log[i].sequence < log[j].sequence && log[i].id != log[j].id)
  }

  /** How many events of the log have a sequence up to `cursor`. */
  function Cut(log: seq<Event>, cursor: int): nat {
    if log == [] then 0
    else if log[|log| - 1].sequence <= cursor then |log|
    else Cut(log[..|log| - 1], cursor)
  }

  function UpTo(log: seq<Event>, cursor: int): seq<Event> {
    log[..CutBound(log, cursor)]
  }

  function EventsAfter(log: seq<Event>, cursor: int): seq<Event> {
    log[CutBound(log, cursor)..]
  }

  function CutBound(log: seq<Event>, cursor: int): (n: nat)
    ensures n <= |log|
  {
    CutInLog(log, cursor);
    Cut(log, cursor)
  }

  lemma {:induction false} CutInLog(log: seq<Event>, cursor: int)
    ensures Cut(log, cursor) <= |log|
  {
    if log != [] && log[|log| - 1].sequence > cursor {
      CutInLog(log[..|log| - 1], cursor);
    }
  }

  lemma {:induction false} CutSplits(log: seq<Event>, cursor: int)
    requires LogOk(log)
    ensures Cut(log, cursor) <= |log|
    ensures forall i :: 0 <= i < Cut(log, cursor) ==> log[i].sequence <= cursor
    ensures forall i :: Cut(log, cursor) <= i < |log| ==> log[i].sequence > cursor
  {
    if log != [] && log[|log| - 1].sequence > cursor {
      CutSplits(log[..|log| - 1], cursor);
    }
  }

  lemma {:induction false} CutAt(log: seq<Event>, cursor: int, n: nat)
    requires LogOk(log) && n <= |log|
    requires forall i :: 0 <= i < n ==> log[i].sequence <= cursor
    requires forall i :: n <= i < |log| ==> log[i].sequence > cursor
    ensures Cut(log, cursor) == n
  {
    if log != [] && log[|log| - 1].sequence > cursor {
      CutAt(log[..|log| - 1], cursor, n);
    }
  }

  /** Handing over the next events and moving the cursor to the last of them leaves no gap. */
  lemma CursorAdvances(log: seq<Event>, cursor: int, batch: seq<Event>)
    requires LogOk(log) && batch != [] && batch <= EventsAfter(log, cursor)
    ensures UpTo(log, batch[|batch| - 1].sequence) == UpTo(log, cursor) + batch
  {
    var c := CutBound(log, cursor);
    CutSplits(log, cursor);
    assert forall i :: 0 <= i < |batch| ==> batch[i] == log[c + i];
    CutAt(log, batch[|batch| - 1].sequence, c + |batch|);
  }

  lemma LastInLog(log: seq<Event>, cursor: int, batch: seq<Event>)
    requires LogOk(log) && batch != [] && batch <= EventsAfter(log, cursor)
    ensures exists i :: 0 <= i < |log| && log[i].sequence == batch[|batch| - 1].sequence
    ensures cursor < batch[|batch| - 1].sequence
  {
    var c := CutBound(log, cursor);
    CutSplits(log, cursor);
    assert batch[|batch| - 1] == log[c + |batch| - 1];
  }

  /** Events appended later lie behind every cursor the session has had. */
  lemma LogGrowth(log: seq<Event>, longer: seq<Event>, cursor: int)
    requires LogOk(log) && LogOk(longer) && log <= longer
    requires cursor == 0 || exists i :: 0 <= i < |log| && log[i].sequence == cursor
    ensures UpTo(longer, cursor) == UpTo(log, cursor)
  {
    CutSplits(log, cursor);
    CutAt(longer, cursor, Cut(log, cursor));
  }

  // ---------------------------------------------------------------- the Connector's session

  /** One message carries at most 200 events. */
  function Page(found: seq<Event>): (page: seq<Event>)
    ensures page <= found && |page| <= 200 && (|page| < 200 ==> page == found)
  {
    if |found| <= 200 then found else found[..200]
  }

  datatype Snapshot = Snapshot(sequence: int, body: string)

  /** One WebSocket connection of `connect`: its cursor starts at 0, and once the socket has left
      OPEN nothing more is handed to it. */
  class ConnectorSession {
    var open: bool
    var eventCursor: int
    var lastSnapshotSequence: int
    var snapshots: seq<Snapshot>
    var batches: seq<seq<Event>>

    ghost predicate Valid(log: seq<Event>)
      reads this
    {
      && LogOk(log)
      && (eventCursor == 0 || exists i :: 0 <= i < |log| && log[i].sequence == eventCursor)
      && (open ==> Flatten(batches) == UpTo(log, eventCursor))
      && Flatten(batches) <= log
    }

    constructor (ghost log: seq<Event>)
      requires LogOk(log)
      ensures Valid(log) && open && eventCursor == 0 && lastSnapshotSequence == -1 && batches == [] && snapshots == []
    {
      open, eventCursor, lastSnapshotSequence, snapshots, batches := true, 0, -1, [], [];
      new;
      CutSplits(log, 0);
      CutAt(log, 0, 0);
    }

    /** One poll. `answer` is the snapshot, `found` what the Runtime returns for the cursor: some
        prefix of the log behind it. The socket may close before either send. A Runtime error stops
        the poll where it occurs. */
    method SyncRuntime(ghost log: seq<Event>, answer: Option<Snapshot>, found: Option<seq<Event>>,
                       openForSnapshot: bool, openForEvents: bool)
      requires Valid(log)
      requires found.Some? ==> found.value <= EventsAfter(log, eventCursor)
      requires openForEvents ==> openForSnapshot
      modifies this
      ensures Valid(log)
      ensures open == (old(open) && (answer.None? || (openForSnapshot && (found.None? || openForEvents))))
      ensures if !old(open) || answer.None?
              then lastSnapshotSequence == old(lastSnapshotSequence) && snapshots == old(snapshots)
              else lastSnapshotSequence == answer.value.sequence
                   && snapshots == if openForSnapshot && answer.value.sequence != old(lastSnapshotSequence)
                                   then old(snapshots) + [answer.value] else old(snapshots)
      ensures if !old(open) || answer.None? || found.None? || found.value == []
              then eventCursor == old(eventCursor) && batches == old(batches)
              else eventCursor == Page(found.value)[|Page(found.value)| - 1].sequence > old(eventCursor)
                   && batches == if open then old(batches) + [Page(found.value)] else old(batches)
    {
      if !open || answer.None? {
        return;
      }
      open := openForSnapshot;
      SendSnapshot(answer.value);
      if found.None? {
        return;
      }
      open := open && openForEvents;
      SendEvents(log, Page(found.value));
    }

    method SendSnapshot(answer: Snapshot)
      modifies this`snapshots, this`lastSnapshotSequence
      ensures lastSnapshotSequence == answer.sequence
      ensures snapshots == if open && answer.sequence != old(lastSnapshotSequence) then old(snapshots) + [answer] else old(snapshots)
    {
      if answer.sequence != lastSnapshotSequence {
        if open {
          snapshots := snapshots + [answer];
        }
        lastSnapshotSequence := answer.sequence;
      }
    }

    method SendEvents(ghost log: seq<Event>, events: seq<Event>)
      requires Valid(log) && events <= EventsAfter(log, eventCursor)
      modifies this`batches, this`eventCursor
      ensures Valid(log)
      ensures events != [] ==> old(eventCursor) < eventCursor == events[|events| - 1].sequence
      ensures events == [] ==> eventCursor == old(eventCursor)
      ensures batches == if open && events != [] then old(batches) + [events] else old(batches)
    {
      if |events| > 0 {
        CursorAdvances(log, eventCursor, events);
        LastInLog(log, eventCursor, events);
        if open {
          FlattenSnoc(batches, events);
          batches := batches + [events];
        }
        eventCursor := events[|events| - 1].sequence;
      }
    }

    /** A new connection polls as soon as it is open; the first snapshot it gets goes out, whatever its
        sequence. */
    static method Connect(ghost log: seq<Event>, answer: Snapshot, found: Option<seq<Event>>) returns (session: ConnectorSession)
      requires LogOk(log) && answer.sequence >= 0 && (found.Some? ==> found.value <= EventsAfter(log, 0))
      ensures fresh(session) && session.Valid(log) && session.open && session.snapshots == [answer]
    {
      session := new ConnectorSession(log);
      session.SyncRuntime(log, Some(answer), found, true, true);
    }

    /** Between polls the Runtime may append events. */
    lemma LogGrows(log: seq<Event>, longer: seq<Event>)
      requires Valid(log) && LogOk(longer) && log <= longer
      ensures Valid(longer)
    {
      LogGrowth(log, longer, eventCursor);
      if eventCursor != 0 {
        var i :| 0 <= i < |log| && log[i].sequence == eventCursor;
        assert longer[i].sequence == eventCursor;
      }
    }

    /** All events have been handed over, or a full page of them just now. */
    predicate HandedOver(log: seq<Event>)
      reads this
    {
      EventsAfter(log, eventCursor) == [] || (batches != [] && |batches[|batches| - 1]| == 200)
    }

    method PollOnce(ghost before: seq<Event>, log: seq<Event>, poll: Poll)
      requires Valid(before) && LogOk(log) && before <= log
      modifies this
      ensures Valid(log) && old(eventCursor) <= eventCursor && old(batches) <= batches
      ensures open && InFull(poll, log) ==> lastSnapshotSequence == poll.answer.value.sequence && HandedOver(log)
    {
      LogGrows(before, log);
      var rest := EventsAfter(log, eventCursor);
      if 0 < |rest| <= 200 {
        NothingLeft(log, eventCursor);
      }
      var found := if poll.count.None? then None
                   else Some(if poll.count.value <= |rest| then rest[..poll.count.value] else rest);
      SyncRuntime(log, poll.answer, found, poll.openForSnapshot, poll.openForSnapshot && poll.openForEvents);
    }

    /** The polls of one connection, with the log of the Runtime as each of them finds it. However the
        log grows between polls, and wherever polls fail, what has been handed over is the log up to the
        cursor; so once the batches of a session that is still open have been applied, amid whatever else
        was sent, the Hub's table has every event up to the cursor. And a poll that the Runtime answers in
        full leaves nothing to hand over, unless it has handed over a full page. */
    method PollAll(logs: seq<seq<Event>>, polls: seq<Poll>)
      requires |logs| == |polls| + 1 && Growing(logs) && Valid(logs[0])
      modifies this
      ensures Valid(logs[|polls|]) && old(eventCursor) <= eventCursor && old(batches) <= batches
      ensures open ==> forall applied :: AllDrawn(logs[|polls|], applied) && Includes(applied, batches) ==>
        Covers(Absorb(applied), logs[|polls|], eventCursor)
      ensures open && polls != [] && InFull(polls[|polls| - 1], logs[|polls|]) ==>
        && lastSnapshotSequence == polls[|polls| - 1].answer.value.sequence
        && (EventsAfter(logs[|polls|], eventCursor) == [] || (batches != [] && |batches[|batches| - 1]| == 200))
    {
      for i := 0 to |polls|
        invariant Valid(logs[i]) && old(eventCursor) <= eventCursor && old(batches) <= batches
        invariant open && i > 0 && InFull(polls[i - 1], logs[i]) ==>
          lastSnapshotSequence == polls[i - 1].answer.value.sequence && HandedOver(logs[i])
      {
        PollOnce(logs[i], logs[i + 1], polls[i]);
      }
      if open {
        forall applied | AllDrawn(logs[|polls|], applied) && Includes(applied, batches)
          ensures Covers(Absorb(applied), logs[|polls|], eventCursor)
        {
          AppliedCoversCursor(logs[|polls|], eventCursor, batches, applied);
        }
      }
    }
  }

  /** What happens at one poll: the snapshot and the number of events the Runtime gives, if it answers,
      and whether the socket is still open at each send. */
  datatype Poll = Poll(answer: Option<Snapshot>, count: Option<nat>, openForSnapshot: bool, openForEvents: bool)

  /** The Runtime answers with its snapshot and with all the events it has. */
  predicate InFull(p: Poll, log: seq<Event>) {
    p.answer.Some? && p.count.Some? && p.count.value >= |log|
  }

  lemma NothingLeft(log: seq<Event>, cursor: int)
    requires LogOk(log) && EventsAfter(log, cursor) != []
    ensures EventsAfter(log, EventsAfter(log, cursor)[|EventsAfter(log, cursor)| - 1].sequence) == []
  {
    var rest := EventsAfter(log, cursor);
    CursorAdvances(log, cursor, rest);
    assert UpTo(log, cursor) + rest == log;
  }

  ghost predicate Growing(logs: seq<seq<Event>>) {
    && (forall i :: 0 <= i < |logs| ==> LogOk(logs[i]))
    && (forall i :: 0 < i < |logs| ==> logs[i - 1] <= logs[i])
  }

  ghost predicate Includes(applied: seq<seq<Event>>, session: seq<seq<Event>>) {
    forall k :: 0 <= k < |session| ==> session[k] in applied
  }

  ghost predicate Covers(t: EventTable, log: seq<Event>, cursor: int) {
    forall e :: e in log && e.sequence <= cursor ==> e.id in t && t[e.id] == e
  }

  function Flatten(batches: seq<seq<Event>>): seq<Event> {
    if batches == [] then [] else Flatten(batches[..|batches| - 1]) + batches[|batches| - 1]
  }

  lemma FlattenSnoc(batches: seq<seq<Event>>, batch: seq<Event>)
    ensures Flatten(batches + [batch]) == Flatten(batches) + batch
  {
    assert (batches + [batch])[..|batches|] == batches;
  }

  lemma {:induction false} FlattenHas(batches: seq<seq<Event>>, e: Event)
    ensures e in Flatten(batches) <==> exists k :: 0 <= k < |batches| && e in batches[k]
  {
    if batches != [] {
      var front := batches[..|batches| - 1];
      FlattenHas(front, e);
      if e in Flatten(front) {
        var k :| 0 <= k < |front| && e in front[k];
        assert e in batches[k];
      }
      if k :| 0 <= k < |batches| && e in batches[k] {
        if k < |front| {
          assert e in front[k];
        }
      }
    }
  }

  // ---------------------------------------------------------------- the Hub's event table

  /** The rows of one (installation, Runtime), by native event id. */
  type EventTable = map<string, Event>

  /** The second unique constraint: no two rows share a sequence. */
  ghost predicate SequencesUnique(t: EventTable) {
    forall a, b :: a in t && b in t && t[a].sequence == t[b].sequence ==> a == b
  }

  function MergeOne(t: EventTable, e: Event): EventTable {
    if e.id in t then t else t[e.id := e]
  }

  /** The first row with an id wins. */
  function Merge(t: EventTable, batch: seq<Event>): EventTable {
    if batch == [] then t else MergeOne(Merge(t, batch[..|batch| - 1]), batch[|batch| - 1])
  }

  lemma {:induction false} MergeKeeps(t: EventTable, batch: seq<Event>, n: nat)
    requires n <= |batch|
    ensures forall id :: id in Merge(t, batch[..n]) ==> id in Merge(t, batch) && Merge(t, batch)[id] == Merge(t, batch[..n])[id]
  {
    if n < |batch| {
      assert batch[..|batch| - 1][..n] == batch[..n];
      MergeKeeps(t, batch[..|batch| - 1], n);
    } else {
      assert batch[..n] == batch;
    }
  }

  /** The i-th event of the batch is its first one with this id. */
  ghost predicate FirstWithId(batch: seq<Event>, i: int, id: string) {
    0 <= i < |batch| && batch[i].id == id && forall j :: 0 <= j < i ==> batch[j].id != id
  }

  lemma {:induction false} MergeHas(t: EventTable, batch: seq<Event>)
    ensures forall i :: 0 <= i < |batch| ==> batch[i].id in Merge(t, batch)
    ensures forall id :: id in t ==> id in Merge(t, batch) && Merge(t, batch)[id] == t[id]
  {
    if batch != [] {
      MergeHas(t, batch[..|batch| - 1]);
    }
  }

  lemma {:induction false} MergedIsFirst(t: EventTable, batch: seq<Event>, id: string) returns (i: int)
    requires id in Merge(t, batch) && id !in t
    ensures FirstWithId(batch, i, id) && Merge(t, batch)[id] == batch[i]
  {
    var front, last := batch[..|batch| - 1], batch[|batch| - 1];
    if id in Merge(t, front) {
      i := MergedIsFirst(t, front, id);
    } else {
      i := |front|;
      MergeHas(t, front);
      assert forall j :: 0 <= j < |front| ==> batch[j] == front[j];
    }
  }

  /** Rows that are there stay, and of several events with one id the first is stored. */
  lemma MergeIsFirst(t: EventTable, batch: seq<Event>)
    ensures forall e :: e in batch ==> e.id in Merge(t, batch)
    ensures forall id :: id in t ==> id in Merge(t, batch) && Merge(t, batch)[id] == t[id]
    ensures forall id :: id in Merge(t, batch) && id !in t ==>
      exists i :: FirstWithId(batch, i, id) && Merge(t, batch)[id] == batch[i]
  {
    MergeHas(t, batch);
    forall id | id in Merge(t, batch) && id !in t
      ensures exists i :: FirstWithId(batch, i, id) && Merge(t, batch)[id] == batch[i]
    {
      var i := MergedIsFirst(t, batch, id);
    }
  }

  class EventStore {
    var tables: map<(string, string), EventTable>

    function Rows(installationId: string, runtimeId: string): EventTable
      reads this
    {
      if (installationId, runtimeId) in tables then tables[(installationId, runtimeId)] else map[]
    }

    constructor ()
      ensures tables == map[]
    {
      tables := map[];
    }

    /** One insert statement with `on conflict do nothing` on the native id: it stores the whole batch,
        or nothing when the stored rows would share a sequence. */
    method InsertRuntimeEvents(installationId: string, runtimeId: string, batch: seq<Event>) returns (ok: bool)
      requires SequencesUnique(Rows(installationId, runtimeId))
      modifies this
      ensures ok <==> SequencesUnique(Merge(old(Rows(installationId, runtimeId)), batch))
      ensures ok ==> Rows(installationId, runtimeId) == Merge(old(Rows(installationId, runtimeId)), batch)
      ensures ok ==> forall e :: e in batch ==> e.id in Rows(installationId, runtimeId)
      ensures ok ==> forall id :: id in Rows(installationId, runtimeId) ==>
        if id in old(Rows(installationId, runtimeId))
        then Rows(installationId, runtimeId)[id] == old(Rows(installationId, runtimeId))[id]
        else exists i :: FirstWithId(batch, i, id) && Rows(installationId, runtimeId)[id] == batch[i]
      ensures !ok ==> Rows(installationId, runtimeId) == old(Rows(installationId, runtimeId))
      ensures forall i, q :: (i, q) != (installationId, runtimeId) ==> Rows(i, q) == old(Rows(i, q))
    {
      if |batch| == 0 {
        return true;
      }
      ghost var t0 := Rows(installationId, runtimeId);
      var t := Rows(installationId, runtimeId);
      for i := 0 to |batch|
        invariant t == Merge(t0, batch[..i]) && SequencesUnique(t)
        invariant tables == old(tables)
      {
        var e := batch[i];
        assert batch[..i + 1][..i] == batch[..i];
        if e.id !in t {
          if exists id :: id in t && t[id].sequence == e.sequence {
            Clash(t0, batch, i);
            return false;
          }
          t := t[e.id := e];
        }
      }
      assert batch[..|batch|] == batch;
      MergeIsFirst(t0, batch);
      tables := tables[(installationId, runtimeId) := t];
      ok := true;
    }
  }

  lemma Clash(t: EventTable, batch: seq<Event>, i: nat)
    requires i < |batch| && batch[i].id !in Merge(t, batch[..i])
    requires exists id :: id in Merge(t, batch[..i]) && Merge(t, batch[..i])[id].sequence == batch[i].sequence
    ensures !SequencesUnique(Merge(t, batch))
  {
    var m := Merge(t, batch[..i]);
    var id :| id in m && m[id].sequence == batch[i].sequence;
    assert batch[..i + 1][..i] == batch[..i];
    MergeKeeps(t, batch, i + 1);
    var all := Merge(t, batch);
    assert all[id].sequence == all[batch[i].id].sequence;
  }

  // ---------------------------------------------------------------- replication

  ghost predicate FromLog(log: seq<Event>, t: EventTable) {
    forall id :: id in t ==> t[id] in log && t[id].id == id
  }

  ghost predicate Drawn(log: seq<Event>, batch: seq<Event>) {
    forall e :: e in batch ==> e in log
  }

  /** In a table drawn from the log, ids and sequences are in bijection. */
  lemma FromLogUnique(log: seq<Event>, t: EventTable)
    requires LogOk(log) && FromLog(log, t)
    ensures SequencesUnique(t)
  {
  }

  lemma {:induction false} MergeFromLog(log: seq<Event>, t: EventTable, batch: seq<Event>)
    requires LogOk(log) && FromLog(log, t) && Drawn(log, batch)
    ensures FromLog(log, Merge(t, batch)) && SequencesUnique(Merge(t, batch))
    ensures forall e :: e in log ==> (e.id in Merge(t, batch) <==> e.id in t || e in batch)
  {
    if batch != [] {
      var front, last := batch[..|batch| - 1], batch[|batch| - 1];
      assert batch == front + [last];
      MergeFromLog(log, t, front);
      forall e | e in log
        ensures e.id in Merge(t, batch) <==> e.id in t || e in batch
      {
        SameIdSameEvent(log, e, last);
      }
    }
    FromLogUnique(log, Merge(t, batch));
  }

  lemma SameIdSameEvent(log: seq<Event>, e: Event, f: Event)
    requires LogOk(log) && e in log && f in log
    ensures e.id == f.id ==> e == f
  {
  }

  /** The table after the Hub has applied these batches, one insert after the other; an insert that
      violates the unique sequence changes nothing. */
  ghost function Absorb(batches: seq<seq<Event>>): EventTable {
    if batches == [] then map[]
    else
      var t := Absorb(batches[..|batches| - 1]);
      var merged := Merge(t, batches[|batches| - 1]);
      if SequencesUnique(merged) then merged else t
  }

  ghost predicate AllDrawn(log: seq<Event>, batches: seq<seq<Event>>) {
    forall k :: 0 <= k < |batches| ==> Drawn(log, batches[k])
  }

  /** Whatever batches of one Runtime's log arrive, in whatever order and however often: no insert is
      refused, and the table holds exactly the events that arrived, each as it is in the log. */
  lemma {:induction false} Replication(log: seq<Event>, batches: seq<seq<Event>>)
    requires LogOk(log) && AllDrawn(log, batches)
    ensures FromLog(log, Absorb(batches))
    ensures forall e :: e in log ==> (e.id in Absorb(batches) <==> e in Flatten(batches))
    ensures batches != [] ==> SequencesUnique(Merge(Absorb(batches[..|batches| - 1]), batches[|batches| - 1]))
  {
    if batches != [] {
      Replication(log, batches[..|batches| - 1]);
      MergeFromLog(log, Absorb(batches[..|batches| - 1]), batches[|batches| - 1]);
    }
  }

  /** Order and duplication do not matter. */
  lemma SameArrivalsSameTable(log: seq<Event>, a: seq<seq<Event>>, b: seq<seq<Event>>)
    requires LogOk(log) && AllDrawn(log, a) && AllDrawn(log, b)
    requires forall e :: e in Flatten(a) <==> e in Flatten(b)
    ensures Absorb(a) == Absorb(b)
  {
    Replication(log, a);
    Replication(log, b);
    forall id | id in Absorb(a)
      ensures id in Absorb(b) && Absorb(b)[id] == Absorb(a)[id]
    {
      SameIdSameEvent(log, Absorb(a)[id], Absorb(b)[id]);
    }
    forall id | id in Absorb(b)
      ensures id in Absorb(a)
    {
      assert Absorb(b)[id] in Flatten(b);
    }
  }

  /** Once everything a session handed over has been applied, mixed with anything else of the log,
      the table covers the log up to the session's cursor; sending it all again changes nothing. */
  lemma AppliedCoversCursor(log: seq<Event>, cursor: int, session: seq<seq<Event>>, applied: seq<seq<Event>>)
    requires LogOk(log) && AllDrawn(log, applied)
    requires Flatten(session) == UpTo(log, cursor)
    requires Includes(applied, session)
    ensures Covers(Absorb(applied), log, cursor)
    ensures forall k :: 0 <= k < |session| ==> Absorb(applied + [session[k]]) == Absorb(applied)
  {
    Replication(log, applied);
    CutSplits(log, cursor);
    forall e | e in log && e.sequence <= cursor
      ensures e.id in Absorb(applied) && Absorb(applied)[e.id] == e
    {
      assert e in UpTo(log, cursor) by {
        var i :| 0 <= i < |log| && log[i] == e;
        assert UpTo(log, cursor)[i] == e;
      }
      FlattenHas(session, e);
      FlattenHas(applied, e);
      SameIdSameEvent(log, e, Absorb(applied)[e.id]);
    }
    forall k | 0 <= k < |session|
      ensures Absorb(applied + [session[k]]) == Absorb(applied)
    {
      Resend(log, applied, session[k]);
    }
  }

  lemma Resend(log: seq<Event>, applied: seq<seq<Event>>, batch: seq<Event>)
    requires LogOk(log) && AllDrawn(log, applied) && batch in applied
    ensures Absorb(applied + [batch]) == Absorb(applied)
  {
    FlattenSnoc(applied, batch);
    forall e | e in batch
      ensures e in Flatten(applied)
    {
      FlattenHas(applied, e);
    }
    SameArrivalsSameTable(log, applied + [batch], applied);
  }

  // ---------------------------------------------------------------- the snapshot register

  datatype Stored = Stored(sequence: int, snapshot: Snapshot, observedAt: int)

  /** The row after `on conflict do update`: the greatest sequence, and the excluded snapshot when its
      sequence is not smaller. */
  function Upserted(row: Option<Stored>, s: Snapshot, at: int): Stored {
    match row
    case None => Stored(s.sequence, s, at)
    case Some(kept) =>
      Stored(if kept.sequence >= s.sequence then kept.sequence else s.sequence,
             if s.sequence >= kept.sequence then s else kept.snapshot,
             if s.sequence >= kept.sequence then at else kept.observedAt)
  }

  datatype Arrival = Arrival(snapshot: Snapshot, at: int)

  /** The row of one (installation, Runtime) after these upserts. */
  function Register(arrivals: seq<Arrival>): Option<Stored> {
    if arrivals == [] then None
    else
      var last := arrivals[|arrivals| - 1];
      Some(Upserted(Register(arrivals[..|arrivals| - 1]), last.snapshot, last.at))
  }

  class SnapshotStore {
    var rows: map<(string, string), Stored>

    method UpsertSnapshot(installationId: string, runtimeId: string, s: Snapshot, at: int)
      modifies this
      ensures var key := (installationId, runtimeId);
        && rows == old(rows)[key := Upserted(if key in old(rows) then Some(old(rows)[key]) else None, s, at)]
        && rows[key] == if key in old(rows) && s.sequence < old(rows)[key].sequence then old(rows)[key]
                        else Stored(s.sequence, s, at)
    {
      var key := (installationId, runtimeId);
      if key !in rows {
        rows := rows[key := Stored(s.sequence, s, at)];
      } else if s.sequence >= rows[key].sequence {
        rows := rows[key := Stored(s.sequence, s, at)];
      }
      assert key in old(rows) ==> rows[key] == Upserted(Some(old(rows)[key]), s, at);
    }
  }

  function AsStored(a: Arrival): Stored {
    Stored(a.snapshot.sequence, a.snapshot, a.at)
  }

  /** The k-th arrival is the last one among those with the greatest sequence. */
  ghost predicate LastGreatest(arrivals: seq<Arrival>, k: int) {
    && 0 <= k < |arrivals|
    && (forall j :: 0 <= j < |arrivals| ==> arrivals[j].snapshot.sequence <= arrivals[k].snapshot.sequence)
    && (forall j :: k < j < |arrivals| ==> arrivals[j].snapshot.sequence < arrivals[k].snapshot.sequence)
  }

  lemma GreatestStep(front: seq<Arrival>, k: int, last: Arrival)
    requires LastGreatest(front, k)
    ensures if last.snapshot.sequence >= front[k].snapshot.sequence then LastGreatest(front + [last], |front|)
            else LastGreatest(front + [last], k)
  {
  }

  lemma RegisterStep(front: seq<Arrival>, last: Arrival)
    ensures Register(front + [last]) == Some(Upserted(Register(front), last.snapshot, last.at))
  {
    assert (front + [last])[..|front|] == front;
  }

  /** After any upserts the row holds the last arrival among those with the greatest sequence seen. */
  lemma {:induction false} RegisterHoldsLastGreatest(arrivals: seq<Arrival>)
    requires arrivals != []
    ensures exists k :: LastGreatest(arrivals, k) && Register(arrivals) == Some(AsStored(arrivals[k]))
  {
    var front, last := arrivals[..|arrivals| - 1], arrivals[|arrivals| - 1];
    assert arrivals == front + [last];
    RegisterStep(front, last);
    if front == [] {
      assert LastGreatest(arrivals, 0);
    } else {
      RegisterHoldsLastGreatest(front);
      var k :| LastGreatest(front, k) && Register(front) == Some(AsStored(front[k]));
      GreatestStep(front, k, last);
      var l := if last.snapshot.sequence >= front[k].snapshot.sequence then |front| else k;
      assert LastGreatest(arrivals, l) && Register(arrivals) == Some(AsStored(arrivals[l]));
    }
  }

  ghost predicate Arrived(a: seq<Arrival>, s: Snapshot) {
    exists i :: 0 <= i < |a| && a[i].snapshot == s
  }

  ghost predicate SameSnapshots(a: seq<Arrival>, b: seq<Arrival>) {
    forall s :: Arrived(a, s) <==> Arrived(b, s)
  }

  ghost predicate SequenceDetermines(a: seq<Arrival>) {
    forall i, j :: 0 <= i < |a| && 0 <= j < |a| && a[i].snapshot.sequence == a[j].snapshot.sequence ==>
      a[i].snapshot == a[j].snapshot
  }

  /** If a sequence number determines its snapshot, the stored sequence and snapshot depend only on
      which snapshots arrived, not on their order or repetition. */
  lemma RegisterOrderFree(a: seq<Arrival>, b: seq<Arrival>)
    requires a != [] && b != [] && SameSnapshots(a, b) && SequenceDetermines(a)
    ensures Register(a).value.sequence == Register(b).value.sequence
    ensures Register(a).value.snapshot == Register(b).value.snapshot
  {
    RegisterHoldsLastGreatest(a);
    RegisterHoldsLastGreatest(b);
    var k :| LastGreatest(a, k) && Register(a) == Some(AsStored(a[k]));
    var l :| LastGreatest(b, l) && Register(b) == Some(AsStored(b[l]));
    assert Arrived(a, a[k].snapshot) && Arrived(b, b[l].snapshot);
    var i :| 0 <= i < |a| && a[i].snapshot == b[l].snapshot;
    var j :| 0 <= j < |b| && b[j].snapshot == a[k].snapshot;
  }

  /** Once every snapshot that any session handed over has been applied, at least once and mixed in any
      order, the row holds one of them, and its sequence is the greatest of all. */
  lemma RegisterIsGreatestSent(sent: seq<seq<Snapshot>>, arrivals: seq<Arrival>)
    requires arrivals != []
    requires forall j :: 0 <= j < |arrivals| ==> SentBy(sent, arrivals[j].snapshot)
    requires forall s :: SentBy(sent, s) ==> Arrived(arrivals, s)
    ensures SentBy(sent, Register(arrivals).value.snapshot)
    ensures Register(arrivals).value.sequence == Register(arrivals).value.snapshot.sequence
    ensures forall s :: SentBy(sent, s) ==> s.sequence <= Register(arrivals).value.sequence
  {
    RegisterHoldsLastGreatest(arrivals);
    var k :| LastGreatest(arrivals, k) && Register(arrivals) == Some(AsStored(arrivals[k]));
    forall s | SentBy(sent, s)
      ensures s.sequence <= arrivals[k].snapshot.sequence
    {
      var j :| 0 <= j < |arrivals| && arrivals[j].snapshot == s;
    }
  }

  /** Some session handed this snapshot over. */
  ghost predicate SentBy(sent: seq<seq<Snapshot>>, s: Snapshot) {
    exists k :: 0 <= k < |sent| && s in sent[k]
  }
}
