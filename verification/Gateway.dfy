/** The WebSocket gateway: which connection owns an installation, over any interleaving of new
    connections and close events, and the presence keys that connections touch. */
module Gateway {
  import opened CommandPolicy

  datatype Connection = Connection(connectionId: string, credentialId: string, installationId: string, runtimeId: string)

  /** A bound connection, or a close event of one that has been handled. */
  datatype Happening = Bound(connection: Connection) | Closed(connection: Connection)

  /** The connection bound most recently for an installation, unless its close came after. */
  function Owner(history: seq<Happening>, installationId: string): Option<Connection> {
    if history == [] then None
    else
      var front, last := history[..|history| - 1], history[|history| - 1];
      if last.connection.installationId != installationId then Owner(front, installationId)
      else if last.Bound? then Some(last.connection)
      else if Owner(front, installationId) == Some(last.connection) then None
      else Owner(front, installationId)
  }

  /** Connection ids are fresh at every bind, and only bound connections close. */
  ghost predicate Plausible(history: seq<Happening>) {
    && (forall i, j :: 0 <= i < j < |history| && history[i].Bound? && history[j].Bound? ==>
          history[i].connection.connectionId != history[j].connection.connectionId)
    && (forall j :: 0 <= j < |history| && history[j].Closed? ==> Bound(history[j].connection) in history[..j])
  }

  lemma PlausibleStep(history: seq<Happening>, h: Happening)
    requires Plausible(history)
    requires h.Bound? ==> forall k :: 0 <= k < |history| ==> history[k].connection.connectionId != h.connection.connectionId
    requires h.Closed? ==> Bound(h.connection) in history
    ensures Plausible(history + [h])
  {
    var all := history + [h];
    forall j | 0 <= j < |all| && all[j].Closed?
      ensures Bound(all[j].connection) in all[..j]
    {
      assert all[..j] == history[..j];
    }
  }

  lemma PlausibleFront(history: seq<Happening>, h: Happening)
    requires Plausible(history + [h])
    ensures Plausible(history)
  {
    var all := history + [h];
    forall j | 0 <= j < |history| && history[j].Closed?
      ensures Bound(history[j].connection) in history[..j]
    {
      assert all[j] == history[j] && all[..j] == history[..j];
    }
    assert forall i :: 0 <= i < |history| ==> all[i] == history[i];
  }

  /** An owner was bound, and everything about its installation since then is the late closing of
      connections it superseded. */
  ghost predicate OwnerSince(history: seq<Happening>, c: Connection, i: int) {
    && 0 <= i < |history| && history[i] == Bound(c)
    && forall j :: i < j < |history| && history[j].connection.installationId == c.installationId ==>
         history[j].Closed? && history[j].connection != c
  }

  lemma OwnerStep(history: seq<Happening>, h: Happening, installationId: string)
    ensures Owner(history + [h], installationId) ==
      if h.connection.installationId != installationId then Owner(history, installationId)
      else if h.Bound? then Some(h.connection)
      else if Owner(history, installationId) == Some(h.connection) then None
      else Owner(history, installationId)
  {
    assert (history + [h])[..|history|] == history;
  }

  /** `Owner` is the latest bind whose own close is unhandled: a superseded connection's late close
      never evicts its successor. */
  lemma {:induction false} OwnerIsLatestBind(history: seq<Happening>, c: Connection)
    requires Plausible(history)
    ensures Owner(history, c.installationId) == Some(c) <==> exists i :: OwnerSince(history, c, i)
  {
    if history != [] {
      var n := |history| - 1;
      var front, last := history[..n], history[n];
      assert history == front + [last];
      PlausibleFront(front, last);
      OwnerStep(front, last, c.installationId);
      OwnerIsLatestBind(front, c);
      SinceStep(front, last, c);
    }
  }

  lemma SinceStep(front: seq<Happening>, last: Happening, c: Connection)
    requires Plausible(front + [last])
    ensures (exists i :: OwnerSince(front + [last], c, i)) <==>
      if last.connection.installationId != c.installationId then exists i :: OwnerSince(front, c, i)
      else if last.Bound? then last.connection == c
      else last.connection != c && exists i :: OwnerSince(front, c, i)
  {
    var all := front + [last];
    assert forall j :: 0 <= j < |front| ==> all[j] == front[j];
    if last == Bound(c) {
      assert OwnerSince(all, c, |front|);
    }
    if i :| OwnerSince(front, c, i) {
      if last.connection.installationId != c.installationId || (last.Closed? && last.connection != c) {
        assert OwnerSince(all, c, i);
      }
    }
    if i :| OwnerSince(all, c, i) {
      if i < |front| {
        assert all[|front|] == last;
        assert OwnerSince(front, c, i);
      }
    }
  }

  class ConnectorGateway {
    var connections: map<string, Connection>
    ghost var history: seq<Happening>

    ghost predicate Valid()
      reads this
    {
      && Plausible(history)
      && forall i :: Held(i) == Owner(history, i)
    }

    function Held(installationId: string): Option<Connection>
      reads this
    {
      if installationId in connections then Some(connections[installationId]) else None
    }

    constructor ()
      ensures Valid() && connections == map[] && history == []
    {
      connections, history := map[], [];
    }

    /** A new connection takes the installation over; the previous one, if any, is told to close. */
    method Bind(connection: Connection) returns (superseded: Option<Connection>)
      requires Valid()
      requires forall k :: 0 <= k < |history| ==> history[k].connection.connectionId != connection.connectionId
      modifies this
      ensures Valid() && history == old(history) + [Bound(connection)]
      ensures superseded == Owner(old(history), connection.installationId)
      ensures Held(connection.installationId) == Some(connection)
    {
      superseded := Held(connection.installationId);
      PlausibleStep(history, Bound(connection));
      forall i
        ensures Owner(history + [Bound(connection)], i)
             == if i == connection.installationId then Some(connection) else Owner(history, i)
      {
        OwnerStep(history, Bound(connection), i);
      }
      connections := connections[connection.installationId := connection];
      history := history + [Bound(connection)];
    }

    /** Only the current owner is removed. The comparison is by connection id. */
    method OnClose(connection: Connection) returns (removed: bool)
      requires Valid() && Bound(connection) in history
      modifies this
      ensures Valid() && history == old(history) + [Closed(connection)]
      ensures removed <==> Owner(old(history), connection.installationId) == Some(connection)
      ensures forall i :: Held(i) == if removed && i == connection.installationId then None else old(Held(i))
    {
      forall i
        ensures Owner(history + [Closed(connection)], i)
             == if i == connection.installationId && Owner(history, i) == Some(connection) then None else Owner(history, i)
      {
        OwnerStep(history, Closed(connection), i);
      }
      PlausibleStep(history, Closed(connection));
      var current := Held(connection.installationId);
      removed := current.Some? && current.value.connectionId == connection.connectionId;
      if removed {
        OwnerWasBound(history, connection.installationId);
        SameIdSameConnection(history, current.value, connection);
      }
      history := history + [Closed(connection)];
      if removed {
        connections := connections - {connection.installationId};
      }
    }

    /** A published command goes to the socket of the current owner, if that is open, and nowhere else. */
    method Route(installationId: string, isOpen: set<string>) returns (target: Option<Connection>)
      requires Valid()
      ensures target == if Owner(history, installationId).Some? && Owner(history, installationId).value.connectionId in isOpen
                        then Owner(history, installationId) else None
      ensures target.Some? ==> target.value.installationId == installationId && exists i :: OwnerSince(history, target.value, i)
    {
      assert Held(installationId) == Owner(history, installationId);
      target := Held(installationId);
      if target.Some? {
        OwnerWasBound(history, installationId);
        OwnerIsLatestBind(history, target.value);
        if target.value.connectionId !in isOpen {
          target := None;
        }
      }
    }
  }

  lemma {:induction false} OwnerWasBound(history: seq<Happening>, installationId: string)
    requires Owner(history, installationId).Some?
    ensures Bound(Owner(history, installationId).value) in history
    ensures Owner(history, installationId).value.installationId == installationId
  {
    var front, last := history[..|history| - 1], history[|history| - 1];
    if last.connection.installationId != installationId || last.Closed? {
      OwnerWasBound(front, installationId);
    }
  }

  lemma SameIdSameConnection(history: seq<Happening>, a: Connection, b: Connection)
    requires Plausible(history) && Bound(a) in history && Bound(b) in history && a.connectionId == b.connectionId
    ensures a == b
  {
  }

  // ---------------------------------------------------------------- presence

  const PRESENCE_TTL := 30

  datatype Presence = Presence(connectionId: string, expireAt: int)

  datatype Touch = Touch(installationId: string, connectionId: string, at: int)

  function KeyOf(t: Touch): Presence {
    Presence(t.connectionId, t.at + PRESENCE_TTL)
  }

  /** One of the touches from number n on set this key as it is. */
  predicate SetSince(touches: seq<Touch>, n: nat, installationId: string, key: Presence)
    requires n <= |touches|
  {
    exists k :: n <= k < |touches| && touches[k].installationId == installationId && KeyOf(touches[k]) == key
  }

  /** Presence keys in Redis. `offline` is a GET and later a DEL, between which anything may happen. */
  class PresenceStore {
    var keys: map<string, Presence>
    ghost var touches: seq<Touch>

    /** Every key stems from a touch. */
    ghost predicate Valid()
      reads this
    {
      forall i :: i in keys ==> SetSince(touches, 0, i, keys[i])
    }

    constructor ()
      ensures Valid() && keys == map[] && touches == []
    {
      keys, touches := map[], [];
    }

    /** Whatever other connections do between two commands: touch and delete keys. */
    method Interleave()
      requires Valid()
      modifies this
      ensures Valid() && old(touches) <= touches
      ensures forall i :: i in keys ==>
        (i in old(keys) && keys[i] == old(keys)[i]) || SetSince(touches, |old(touches)|, i, keys[i])
    {
    }

    method Online(installationId: string, connectionId: string, now: int)
      requires Valid()
      modifies this
      ensures Valid() && touches == old(touches) + [Touch(installationId, connectionId, now)]
      ensures keys == old(keys)[installationId := Presence(connectionId, now + 30)]
    {
      keys := keys[installationId := Presence(connectionId, now + PRESENCE_TTL)];
      touches := touches + [Touch(installationId, connectionId, now)];
      var n := |touches| - 1;
      assert touches[n].installationId == installationId && KeyOf(touches[n]) == keys[installationId];
      forall i | i in keys && i != installationId
        ensures SetSince(touches, 0, i, keys[i])
      {
        ghost var k :| 0 <= k < |old(touches)| && old(touches)[k].installationId == i && KeyOf(old(touches)[k]) == keys[i];
        assert touches[k] == old(touches)[k];
      }
    }

    method GetConnectionId(installationId: string, now: int) returns (connectionId: Option<string>)
      ensures connectionId == if installationId in keys && now < keys[installationId].expireAt
                              then Some(keys[installationId].connectionId) else None
    {
      connectionId := if installationId in keys && now < keys[installationId].expireAt
                      then Some(keys[installationId].connectionId) else None;
    }

    method Delete(installationId: string)
      requires Valid()
      modifies this
      ensures Valid() && touches == old(touches) && keys == old(keys) - {installationId}
    {
      keys := keys - {installationId};
    }

    /** `at` is what the DEL finds. It is sent exactly if the GET saw this connection. Then it takes a
        live key of another connection down if and only if, since the GET, that connection has touched
        the key, has not been overwritten, and did so less than 30 seconds ago. */
    method Offline(installationId: string, connectionId: string, seen: int, now: int)
      returns (deleted: bool, ghost at: map<string, Presence>)
      requires Valid()
      modifies this
      ensures Valid()
      ensures deleted <==>
        installationId in old(keys) && seen < old(keys)[installationId].expireAt
        && old(keys)[installationId].connectionId == connectionId
      ensures keys == if deleted then at - {installationId} else old(keys)
      ensures deleted ==> old(touches) <= touches
      ensures deleted ==>
        ((installationId in at && at[installationId].connectionId != connectionId && now < at[installationId].expireAt)
         <==> exists k :: |old(touches)| <= k < |touches| && touches[k].installationId == installationId
                          && touches[k].connectionId != connectionId && now < touches[k].at + PRESENCE_TTL
                          && installationId in at && at[installationId] == KeyOf(touches[k]))
    {
      at := keys;
      var current := GetConnectionId(installationId, seen);
      deleted := current == Some(connectionId);
      if deleted {
        Interleave();
        at := keys;
        Delete(installationId);
      }
    }

    /** This does happen: another connection touches the key between the GET and the DEL of the one that
        leaves, and is offline at once, until it touches the key again. */
    method LateOffline(installationId: string, leaving: string, arriving: string, now: int) returns (online: bool)
      requires Valid() && leaving != arriving
      modifies this
      ensures Valid() && keys == old(keys) - {installationId} && !online
      ensures touches == old(touches) + [Touch(installationId, leaving, now), Touch(installationId, arriving, now)]
    {
      Online(installationId, leaving, now);
      var current := GetConnectionId(installationId, now);
      Online(installationId, arriving, now);
      if current == Some(leaving) {
        Delete(installationId);
      }
      var found := GetConnectionId(installationId, now);
      online := found.Some?;
    }

    /** Online means that the key is live; whoever is online was touched less than 30 seconds ago, if the
        clock has not gone back. */
    method IsOnline(installationId: string, now: int) returns (online: bool)
      requires Valid() && forall k :: 0 <= k < |touches| ==> touches[k].at <= now
      ensures online <==> installationId in keys && now < keys[installationId].expireAt
      ensures online ==> exists k :: 0 <= k < |touches| && touches[k].installationId == installationId
                                     && now - 30 < touches[k].at <= now
    {
      online := installationId in keys && now < keys[installationId].expireAt;
      if online {
        ghost var k :| 0 <= k < |touches| && touches[k].installationId == installationId && KeyOf(touches[k]) == keys[installationId];
        assert touches[k].at <= now;
      }
    }
  }
}
