/** Where the effects of a command fall. Commands are routed by installation alone: neither the message
    nor the Connector that gets it compares the Runtime, and the Runtime behind a Connector may be
    replaced at any time. So how many effects a command has, on which Runtime, whose, and whose answer
    is stored depends on which Connectors an installation has, on which hosts, and on what these hosts
    ever run; for each question the exact condition on them is given. */
module Addressing {
  import opened CommandPolicy
  import opened CommandTable
  import opened Delivery
  import opened EdgeInvariants
  import opened EdgeMachine
  import opened HubInvariants
  import opened HubMachine
  import opened Reachable

  /** Effect number a was caused by an execution of command `id`. */
  predicate EffectOf(w: World, a: nat, id: CommandId) {
    && a < |w.edge.effects| && w.edge.effects[a].executionId in w.edge.executions
    && w.edge.executions[w.edge.effects[a].executionId].message.commandId == id
  }

  /** The execution belongs to the row: its own payload and key, its owner's installation, in time; and
      the effect is on the Runtime that answered it, one its Connector's host has run. */
  predicate Belongs(w: World, a: nat, id: CommandId) {
    && EffectOf(w, a, id) && id in w.hub.rows
    && var x, row := w.edge.effects[a], w.hub.rows[id];
       var e := w.edge.executions[x.executionId];
       && e.connectorId in w.edge.connectors && (w.edge.connectors[e.connectorId].host, x.runtime) in w.edge.ran
       && w.edge.connectors[e.connectorId].installationId == row.request.installationId
       && Owned(w.hub, row.request.installationId, row.ownerId)
       && e.message.payload == row.request.payload && x.key == row.idempotencyKey
       && e.startedAt < row.expiresAt && Took(e) && e.answeredBy == Some(x.runtime)
  }

  lemma EffectBelongs(w: World, a: nat, id: CommandId)
    requires WorldInv(w) && EffectOf(w, a, id)
    ensures Belongs(w, a, id)
  {
    var x := w.edge.effects[a];
    var e := w.edge.executions[x.executionId];
    assert EffectOk(w.edge, x) && ExecutionOk(w.edge, w.now, e) && MessageOk(w.hub, e.message);
    assert RowOk(w.hub, id, w.hub.rows[id]);
  }

  /** However often a command is delivered, retried or replayed, and through however many Connectors,
      its executions have at most one effect on any one Runtime; that effect belongs to the command. */
  lemma OneEffectPerRuntime(r: Run, i: nat, id: CommandId, a: nat, b: nat)
    requires ValidRun(r) && i < |r.states| && EffectOf(r.states[i], a, id) && EffectOf(r.states[i], b, id)
    ensures Belongs(r.states[i], a, id)
    ensures r.states[i].edge.effects[a].runtime == r.states[i].edge.effects[b].runtime ==> a == b
  {
    RunKeepsInv(r, i);
    EffectBelongs(r.states[i], a, id);
    EffectBelongs(r.states[i], b, id);
  }

  // ---------------------------------------------------------------- who can be connected, and to what

  /** What a Connector is paired as, and the host it sends its commands to. */
  datatype Site = Site(installationId: string, runtimeId: string, host: Host)

  /** The Connectors that may be started, and the Runtimes that each host may ever run. */
  datatype Deployment = Deployment(sites: map<ConnectorId, Site>, homes: set<(Host, Runtime)>)

  predicate PlacedAt(k: Connector, s: Site) {
    k.installationId == s.installationId && k.runtimeId == s.runtimeId && k.host == s.host
  }

  ghost predicate Placed(g: Edge, d: Deployment) {
    && (forall cid :: cid in g.connectors ==> cid in d.sites && PlacedAt(g.connectors[cid], d.sites[cid]))
    && g.ran <= d.homes
  }

  /** This Runtime may come to answer this Connector. */
  predicate Answers(d: Deployment, cid: ConnectorId, runtime: Runtime) {
    cid in d.sites && (d.sites[cid].host, runtime) in d.homes
  }

  predicate Serves(d: Deployment, i: string, cid: ConnectorId, runtime: Runtime) {
    Answers(d, cid, runtime) && d.sites[cid].installationId == i
  }

  predicate InInstallation(w: World, id: CommandId, i: string) {
    id in w.hub.rows && w.hub.rows[id].request.installationId == i
  }

  predicate For(w: World, id: CommandId, i: string, q: string) {
    InInstallation(w, id, i) && w.hub.rows[id].request.runtimeId == q
  }

  ghost predicate ReachedAt(w: World, d: Deployment) {
    Reached(w) && Placed(w.edge, d)
  }

  lemma EffectServed(d: Deployment, w: World, a: nat, id: CommandId) returns (cid: ConnectorId)
    requires ReachedAt(w, d) && EffectOf(w, a, id)
    ensures Belongs(w, a, id) && Serves(d, w.hub.rows[id].request.installationId, cid, w.edge.effects[a].runtime)
  {
    ReachedInv(w);
    EffectBelongs(w, a, id);
    cid := w.edge.executions[w.edge.effects[a].executionId].connectorId;
    assert PlacedAt(w.edge.connectors[cid], d.sites[cid]);
  }

  // ---------------------------------------------------------------- one command in flight

  /** Late enough for a second execution after the deduplication window. */
  const LATE := DEDUP_MS + 1

  /** A world in which one command of installation i for Runtime q has been published. */
  lemma OneCommand(i: string, q: string) returns (h: Hub, row: Row, m: Message)
    ensures Reached(World(0, h, INITIAL_EDGE)) && h.rows == map[0 := row] && row.status == Delivering
    ensures row.request.installationId == i && row.request.runtimeId == q && PayloadKey(row.request.payload) == Some("k")
    ensures m in h.messages && m == MessageFor(0, row, 1) && row.expiresAt == LATE && 4 !in h.procs
  {
    var input := Request1("owner", "k", i, q, LATE);
    Request1Ok("owner", "k", i, q, LATE);
    Starts(0, (x, y) => true);
    var h0 := InitialHub((x, y) => true);
    Installed(0, h0, INITIAL_EDGE, i, "owner");
    var h1 := h0.(owners := h0.owners[i := "owner"]);
    LaunchedBy(0, h1, INITIAL_EDGE, 0, 0, input);
    h, row, m := Launched(h1, 0, 0, input), NewRow(input).(status := Delivering), MessageFor(0, NewRow(input), 1);
    assert h.rows == map[0 := row];
  }

  function Joined(g: Edge, cid: ConnectorId, s: Site): Edge {
    g.(connectors := g.connectors[cid := Connector(s.installationId, s.runtimeId, s.host, map[], map[])])
  }

  function Hosting(g: Edge, host: Host, runtime: Runtime): Edge {
    g.(running := g.running[host := runtime], ran := g.ran + {(host, runtime)})
  }

  /** A Connector that has just been started, on a host that then comes to run this Runtime. */
  lemma JoinedTo(h: Hub, g: Edge, cid: ConnectorId, s: Site, runtime: Runtime)
    requires Reached(World(0, h, g)) && cid !in g.connectors
    ensures Reached(World(0, h, Hosting(Joined(g, cid, s), s.host, runtime)))
  {
    Connected(0, h, g, cid, s.installationId, s.runtimeId, s.host);
    Hosted(0, h, Joined(g, cid, s), s.host, runtime);
  }

  // ---------------------------------------------------------------- on which Runtime

  /** Whatever the hosts of installation i's Connectors ever run is Runtime q. */
  ghost predicate OnlyRuntime(d: Deployment, i: string, q: string) {
    forall cid, runtime :: Serves(d, i, cid, runtime) ==> runtime.id == q
  }

  /** Every effect of the command is on the Runtime that the command is for. */
  ghost predicate EffectsAddressed(w: World, id: CommandId) {
    id in w.hub.rows && forall a: nat :: EffectOf(w, a, id) ==> w.edge.effects[a].runtime.id == w.hub.rows[id].request.runtimeId
  }

  /** A Runtime that the command is not for, on the host of a Connector of its installation, takes it,
      whatever that Connector has been paired as. */
  lemma WrongRuntimeRun(d: Deployment, cid: ConnectorId, other: Runtime, q: string) returns (w: World)
    requires Answers(d, cid, other) && other.id != q
    ensures ReachedAt(w, d) && For(w, 0, d.sites[cid].installationId, q) && !EffectsAddressed(w, 0)
  {
    var s := d.sites[cid];
    var h, row, m := OneCommand(s.installationId, q);
    JoinedTo(h, INITIAL_EDGE, cid, s, other);
    var g := Executed(0, h, Hosting(Joined(INITIAL_EDGE, cid, s), s.host, other), cid, m, 0);
    w := World(0, h, g);
    assert EffectOf(w, 0, 0);
  }

  /** Exactly when the commands of installation i for Runtime q only ever have effects on Runtime q:
      when the hosts of the installation's Connectors never run another one. */
  lemma AddressedIffOnlyRuntime(d: Deployment, i: string, q: string)
    ensures OnlyRuntime(d, i, q) <==> forall w, id :: ReachedAt(w, d) && For(w, id, i, q) ==> EffectsAddressed(w, id)
  {
    if OnlyRuntime(d, i, q) {
      forall w, id | ReachedAt(w, d) && For(w, id, i, q)
        ensures EffectsAddressed(w, id)
      {
        forall a: nat | EffectOf(w, a, id)
          ensures w.edge.effects[a].runtime.id == q
        {
          var cid := EffectServed(d, w, a, id);
        }
      }
    } else {
      var cid, other :| Serves(d, i, cid, other) && other.id != q;
      var w := WrongRuntimeRun(d, cid, other, q);
      assert ReachedAt(w, d) && For(w, 0, i, q) && !EffectsAddressed(w, 0);
    }
  }

  // ---------------------------------------------------------------- how many

  /** The hosts of installation i's Connectors only ever run one and the same Runtime. */
  ghost predicate OneRuntime(d: Deployment, i: string) {
    forall c, e, r, s :: Serves(d, i, c, r) && Serves(d, i, e, s) ==> r == s
  }

  ghost predicate AtMostOneEffect(w: World, id: CommandId) {
    forall a: nat, b: nat :: EffectOf(w, a, id) && EffectOf(w, b, id) ==> a == b
  }

  lemma OneRuntimeOneEffect(d: Deployment, w: World, id: CommandId, a: nat, b: nat)
    requires ReachedAt(w, d) && id in w.hub.rows && OneRuntime(d, w.hub.rows[id].request.installationId)
    requires EffectOf(w, a, id) && EffectOf(w, b, id)
    ensures a == b
  {
    ReachedInv(w);
    var c := EffectServed(d, w, a, id);
    var e := EffectServed(d, w, b, id);
  }

  /** Command 0 of the site's installation has had its effect on r, through Connector c. */
  ghost predicate Affected(h: Hub, g: Edge, c: ConnectorId, s: Site, r: Runtime, m: Message) {
    && Reached(World(0, h, g)) && InInstallation(World(0, h, g), 0, s.installationId)
    && m in h.messages && m.commandId == 0 && m.installationId == s.installationId
    && m.expiresAt == LATE && PayloadKey(m.payload) == Some("k")
    && g.connectors == map[c := Connector(s.installationId, s.runtimeId, s.host, map[0 := 0], map[])]
    && g.executions == map[0 := Execution(c, m, 0, Some(Answer(true, 0)), Some(r), None, 0)]
    && g.ran == {(s.host, r)} && g.replies == map[(r, "k") := Answer(true, 0)] && g.effects == [Effect(r, "k", 0)]
  }

  lemma FirstEffect(c: ConnectorId, s: Site, r: Runtime) returns (h: Hub, g: Edge, m: Message)
    ensures Affected(h, g, c, s, r, m)
  {
    var row;
    h, row, m := OneCommand(s.installationId, s.runtimeId);
    JoinedTo(h, INITIAL_EDGE, c, s, r);
    g := Executed(0, h, Hosting(Joined(INITIAL_EDGE, c, s), s.host, r), c, m, 0);
  }

  /** Two Connectors of one installation, with different Runtimes behind them, each take the command. */
  lemma TwoConnectorsRun(d: Deployment, c: ConnectorId, r: Runtime, e: ConnectorId, s: Runtime) returns (w: World)
    requires Answers(d, c, r) && Answers(d, e, s) && c != e && r != s
    requires d.sites[c].installationId == d.sites[e].installationId
    ensures ReachedAt(w, d) && InInstallation(w, 0, d.sites[c].installationId) && !AtMostOneEffect(w, 0)
  {
    var h, g, m := FirstEffect(c, d.sites[c], r);
    JoinedTo(h, g, e, d.sites[e], s);
    var g' := Executed(0, h, Hosting(Joined(g, e, d.sites[e]), d.sites[e].host, s), e, m, 1);
    w := World(0, h, g');
    assert EffectOf(w, 0, 0) && EffectOf(w, 1, 0);
  }

  /** The Connector has reported the first execution, and its window is over. */
  lemma WindowOver(h: Hub, g: Edge, c: ConnectorId, s: Site, r: Runtime, m: Message) returns (g': Edge)
    requires Affected(h, g, c, s, r, m)
    ensures Reached(World(DEDUP_MS, h, g'))
    ensures g'.connectors.Keys == {c} && g'.connectors[c] == Connector(s.installationId, s.runtimeId, s.host, map[], map[])
    ensures g'.executions.Keys == {0} && g'.executions[0].message.commandId == 0
    ensures g'.ran == g.ran && g'.replies == g.replies && g'.effects == g.effects
  {
    var k := g.connectors[c];
    EdgeExtends(0, h, g, SettleExecution(0, None));
    var g1 := SettleStep(g, 0, 0, None);
    Extends(World(0, h, g1), Tick(DEDUP_MS));
    EdgeExtends(DEDUP_MS, h, g1, FireTimer(c, 0));
    g' := FireStep(g1, DEDUP_MS, c, 0);
    assert g1.connectors[c] == k.(timers := k.timers[0 := Timer(0, DEDUP_MS)]);
    assert k.inFlight - {0} == map[] && k.timers[0 := Timer(0, DEDUP_MS)] - {0} == map[];
  }

  /** The Runtime behind one Connector is replaced between two deliveries that lie more than the window
      apart: its successor takes the command once more. */
  lemma ReplacedRun(d: Deployment, c: ConnectorId, r: Runtime, s: Runtime) returns (w: World)
    requires Answers(d, c, r) && Answers(d, c, s) && r != s
    ensures ReachedAt(w, d) && InInstallation(w, 0, d.sites[c].installationId) && !AtMostOneEffect(w, 0)
  {
    var site := d.sites[c];
    var h, g, m := FirstEffect(c, site, r);
    var g1 := WindowOver(h, g, c, site, r, m);
    Hosted(DEDUP_MS, h, g1, site.host, s);
    var g2 := Executed(DEDUP_MS, h, Hosting(g1, site.host, s), c, m, 1);
    w := World(DEDUP_MS, h, g2);
    assert EffectOf(w, 0, 0) && EffectOf(w, 1, 0);
  }

  /** Exactly when no command of installation i ever has two effects: when only one Runtime, with one
      store, ever answers its Connectors; that one then deduplicates by the command's key. */
  lemma OneEffectIffOneRuntime(d: Deployment, i: string)
    ensures OneRuntime(d, i) <==> forall w, id :: ReachedAt(w, d) && InInstallation(w, id, i) ==> AtMostOneEffect(w, id)
  {
    if OneRuntime(d, i) {
      forall w, id | ReachedAt(w, d) && InInstallation(w, id, i)
        ensures AtMostOneEffect(w, id)
      {
        forall a: nat, b: nat | EffectOf(w, a, id) && EffectOf(w, b, id)
          ensures a == b
        {
          OneRuntimeOneEffect(d, w, id, a, b);
        }
      }
    } else {
      var c, e, r, s :| Serves(d, i, c, r) && Serves(d, i, e, s) && r != s;
      var w;
      if c == e {
        w := ReplacedRun(d, c, r, s);
      } else {
        w := TwoConnectorsRun(d, c, r, e, s);
      }
      assert ReachedAt(w, d) && InInstallation(w, 0, i) && !AtMostOneEffect(w, 0);
    }
  }

  // ---------------------------------------------------------------- whose answer

  /** Whoever may have given the answer that the row of this command keeps is the command's own Runtime. */
  ghost predicate OwnAnswer(w: World, id: CommandId) {
    id in w.hub.rows && forall eid :: Witness(w, id, eid) ==>
      w.edge.executions[eid].answeredBy.value.id == w.hub.rows[id].request.runtimeId
  }

  /** The Connectors of installation i that are paired as q are on hosts that never run anything else. */
  ghost predicate TruePairing(d: Deployment, i: string, q: string) {
    forall cid, runtime :: Serves(d, i, cid, runtime) && d.sites[cid].runtimeId == q ==> runtime.id == q
  }

  lemma AckSucceeds(h: Hub, id: CommandId, ack: Ack, s: Site, reply: Reply)
    requires id in h.rows && h.rows[id].status == Delivering && h.rows[id].request.installationId == s.installationId
    requires h.rows[id].request.runtimeId == s.runtimeId && 4 !in h.procs
    requires ack == Ack(id, s.installationId, s.runtimeId, Succeeded, Some(reply), None)
    ensures Enabled(h, 0, ReceiveResult(4, ack))
    ensures var h' := Apply(h, 0, ReceiveResult(4, ack));
      && id in h'.rows && h'.rows[id].status == Succeeded && h'.rows[id].request == h.rows[id].request
      && h'.owners == h.owners
  {
  }

  /** The Connector is started while one Runtime runs on its host, and stays up while another replaces
      it. That one takes a command for the Connector's pairing, and the command succeeds by its answer. */
  lemma WrongAnswerRun(d: Deployment, cid: ConnectorId, first: Runtime, other: Runtime) returns (w: World, eid: ExecutionId)
    requires Answers(d, cid, first) && Answers(d, cid, other) && other.id != d.sites[cid].runtimeId
    ensures ReachedAt(w, d) && (d.sites[cid].host, first) in w.edge.ran
    ensures For(w, 0, d.sites[cid].installationId, d.sites[cid].runtimeId) && w.hub.rows[0].status == Succeeded
    ensures Witness(w, 0, eid) && w.edge.executions[eid].answeredBy == Some(other)
  {
    var s := d.sites[cid];
    var h, g, m := OtherTook(cid, s, first, other);
    var h', g', ack := Reported1(0, h, g, 4, 0, Answer(true, 0));
    AckSucceeds(h, 0, ack, s, Answer(true, 0));
    w, eid := World(0, h', g'), 0;
    AnswerStays(h, h', g, g', cid, s, other, m, ack);
  }

  lemma OtherTook(cid: ConnectorId, s: Site, first: Runtime, other: Runtime) returns (h: Hub, g: Edge, m: Message)
    ensures Reached(World(0, h, g)) && 4 !in h.procs && 0 in h.rows && h.rows[0].status == Delivering
    ensures h.rows[0].request.installationId == s.installationId && h.rows[0].request.runtimeId == s.runtimeId
    ensures m == MessageFor(0, h.rows[0], 1) && 0 < m.expiresAt
    ensures g.connectors.Keys == {cid} && PlacedAt(g.connectors[cid], s) && g.ran == {(s.host, first), (s.host, other)}
    ensures g.executions == map[0 := Execution(cid, m, 0, Some(Answer(true, 0)), Some(other), None, 0)]
  {
    var row;
    h, row, m := OneCommand(s.installationId, s.runtimeId);
    Hosted(0, h, INITIAL_EDGE, s.host, first);
    var g0 := Hosting(INITIAL_EDGE, s.host, first);
    JoinedTo(h, g0, cid, s, other);
    g := Executed(0, h, Hosting(Joined(g0, cid, s), s.host, other), cid, m, 0);
  }

  lemma AnswerStays(h: Hub, h': Hub, g: Edge, g': Edge, cid: ConnectorId, s: Site, other: Runtime, m: Message, ack: Ack)
    requires g.executions == map[0 := Execution(cid, m, 0, Some(Answer(true, 0)), Some(other), None, 0)]
    requires 0 in h.rows && h.rows[0].status == Delivering && m == MessageFor(0, h.rows[0], 1) && 0 < m.expiresAt
    requires h.rows[0].request.installationId == s.installationId && h.rows[0].request.runtimeId == s.runtimeId
    requires ack == Ack(0, s.installationId, s.runtimeId, Succeeded, Some(Answer(true, 0)), None)
    requires h'.rows == Complete(h.rows, ack, 0)
    requires 0 in g'.executions && ExecutionGrows(g.executions[0], g'.executions[0])
    requires cid in g'.connectors && PlacedAt(g'.connectors[cid], s) && (s.host, other) in g'.ran
    ensures 0 in h'.rows && Witness(World(0, h', g'), 0, 0) && g'.executions[0].answeredBy == Some(other)
  {
  }

  /** Exactly when every command of installation i for Runtime q that succeeds has been accepted by
      Runtime q itself: when no Connector paired as q ever has another Runtime behind it. */
  lemma OwnAnswerIffTruePairing(d: Deployment, i: string, q: string)
    ensures TruePairing(d, i, q) <==>
      forall w, id :: ReachedAt(w, d) && For(w, id, i, q) && w.hub.rows[id].status == Succeeded ==> OwnAnswer(w, id)
  {
    if TruePairing(d, i, q) {
      forall w, id | ReachedAt(w, d) && For(w, id, i, q) && w.hub.rows[id].status == Succeeded
        ensures OwnAnswer(w, id)
      {
        forall eid | Witness(w, id, eid)
          ensures w.edge.executions[eid].answeredBy.value.id == q
        {
          WitnessServed(d, w, id, eid);
        }
      }
    } else {
      var cid, other :| Serves(d, i, cid, other) && d.sites[cid].runtimeId == q && other.id != q;
      var w, eid := WrongAnswerRun(d, cid, other, other);
      assert ReachedAt(w, d) && For(w, 0, i, q) && w.hub.rows[0].status == Succeeded && !OwnAnswer(w, 0);
    }
  }

  lemma WitnessServed(d: Deployment, w: World, id: CommandId, eid: ExecutionId)
    requires ReachedAt(w, d) && id in w.hub.rows && Witness(w, id, eid)
    ensures var e, row := w.edge.executions[eid], w.hub.rows[id];
      && Serves(d, row.request.installationId, e.connectorId, e.answeredBy.value)
      && d.sites[e.connectorId].runtimeId == row.request.runtimeId
  {
    var cid := w.edge.executions[eid].connectorId;
    assert PlacedAt(w.edge.connectors[cid], d.sites[cid]);
  }

  // ---------------------------------------------------------------- whose effect

  predicate EffectAt(g: Edge, a: nat, runtime: Runtime, key: string) {
    a < |g.effects| && g.effects[a].runtime == runtime && g.effects[a].key == key
  }

  /** The command caused an effect under its own key on this Runtime. */
  ghost predicate EffectOn(w: World, id: CommandId, runtime: Runtime) {
    id in w.hub.rows && exists a: nat :: EffectOf(w, a, id) && EffectAt(w.edge, a, runtime, w.hub.rows[id].idempotencyKey)
  }

  /** A succeeded command has an effect under its key on the Runtime that accepted it. */
  lemma AcceptedHasEffect(w: World, id: CommandId, eid: ExecutionId) returns (a: nat)
    requires WorldInv(w) && id in w.hub.rows && w.hub.rows[id].status == Succeeded && Witness(w, id, eid)
    ensures EffectAt(w.edge, a, w.edge.executions[eid].answeredBy.value, w.hub.rows[id].idempotencyKey)
    ensures w.edge.effects[a].executionId in w.edge.executions
  {
    var e := w.edge.executions[eid];
    var runtime, key := e.answeredBy.value, w.hub.rows[id].idempotencyKey;
    assert RowOk(w.hub, id, w.hub.rows[id]) && AcceptedOk(w.edge, e);
    assert (runtime, key) in w.edge.replies;
    assert HasEffect(w.edge, runtime, key);
    a :| a < |w.edge.effects| && w.edge.effects[a].runtime == runtime && w.edge.effects[a].key == key;
    assert EffectOk(w.edge, w.edge.effects[a]);
  }

  /** Wherever the command was accepted there is an effect that it caused itself. */
  ghost predicate OwnEffect(w: World, id: CommandId) {
    id in w.hub.rows && forall eid :: Witness(w, id, eid) ==> EffectOn(w, id, w.edge.executions[eid].answeredBy.value)
  }

  predicate SameOwner(owners: map<string, string>, i: string, j: string) {
    i in owners && j in owners ==> owners[i] == owners[j]
  }

  /** No Runtime that may answer a Connector of installation i may answer one of another owner's. */
  ghost predicate OwnRuntimes(d: Deployment, owners: map<string, string>, i: string) {
    forall c, e, r :: Serves(d, i, c, r) && Answers(d, e, r) ==> SameOwner(owners, i, d.sites[e].installationId)
  }

  ghost predicate ReachedWith(w: World, d: Deployment, owners: map<string, string>) {
    && ReachedAt(w, d)
    && forall i :: i in w.hub.owners ==> i in owners && owners[i] == w.hub.owners[i]
  }

  lemma OwnRuntimesOwnEffect(d: Deployment, owners: map<string, string>, w: World, id: CommandId, eid: ExecutionId)
    returns (a: nat)
    requires ReachedWith(w, d, owners) && id in w.hub.rows && w.hub.rows[id].status == Succeeded
    requires OwnRuntimes(d, owners, w.hub.rows[id].request.installationId) && Witness(w, id, eid)
    ensures EffectOf(w, a, id)
    ensures EffectAt(w.edge, a, w.edge.executions[eid].answeredBy.value, w.hub.rows[id].idempotencyKey)
  {
    ReachedInv(w);
    a := AcceptedHasEffect(w, id, eid);
    var other := w.edge.executions[w.edge.effects[a].executionId].message.commandId;
    assert EffectOf(w, a, other);
    WitnessServed(d, w, id, eid);
    var e := EffectServed(d, w, a, other);
    assert SameOwner(owners, w.hub.rows[id].request.installationId, d.sites[e].installationId);
    assert RowOk(w.hub, id, w.hub.rows[id]);
    assert SameOwnerKey(w.hub.rows[other], w.hub.rows[id]);
  }

  function TwoOwners(i: string, one: string, j: string, two: string): Hub {
    InitialHub((x, y) => true).(owners := map[j := two][i := one])
  }

  lemma TwoOwnersReached(i: string, one: string, j: string, two: string)
    requires i != j
    ensures Reached(World(0, TwoOwners(i, one, j, two), INITIAL_EDGE))
  {
    Starts(0, (x, y) => true);
    var h0 := InitialHub((x, y) => true);
    Installed(0, h0, INITIAL_EDGE, j, two);
    var h1 := h0.(owners := map[j := two]);
    assert h0.owners[j := two] == h1.owners;
    Installed(0, h1, INITIAL_EDGE, i, one);
  }

  /** Two owners with one installation each, and a published command under the same key in both. */
  function TwoCommands(i: string, q: string, one: string, j: string, p: string, two: string): Hub {
    Launched(Launched(TwoOwners(i, one, j, two), 0, 0, Request1(two, "k", j, p, 1)), 2, 1, Request1(one, "k", i, q, 1))
  }

  lemma FirstCommand(i: string, one: string, j: string, p: string, two: string)
    requires i != j && one != two
    ensures Reached(World(0, Launched(TwoOwners(i, one, j, two), 0, 0, Request1(two, "k", j, p, 1)), INITIAL_EDGE))
  {
    TwoOwnersReached(i, one, j, two);
    Request1Ok(two, "k", j, p, 1);
    LaunchedBy(0, TwoOwners(i, one, j, two), INITIAL_EDGE, 0, 0, Request1(two, "k", j, p, 1));
  }

  lemma TwoCommandsReached(i: string, q: string, one: string, j: string, p: string, two: string)
    requires i != j && one != two
    ensures Reached(World(0, TwoCommands(i, q, one, j, p, two), INITIAL_EDGE))
  {
    FirstCommand(i, one, j, p, two);
    Request1Ok(one, "k", i, q, 1);
    LaunchedBy(0, Launched(TwoOwners(i, one, j, two), 0, 0, Request1(two, "k", j, p, 1)), INITIAL_EDGE, 2, 1,
               Request1(one, "k", i, q, 1));
  }

  predicate Waits(h: Hub, id: CommandId, owner: string, installationId: string, runtimeId: string) {
    && id in h.rows && h.rows[id].status == Delivering && h.rows[id].ownerId == owner && h.rows[id].expiresAt == 1
    && h.rows[id].request.installationId == installationId && h.rows[id].request.runtimeId == runtimeId
    && PayloadKey(h.rows[id].request.payload) == Some("k") && MessageFor(id, h.rows[id], 1) in h.messages
  }

  lemma TwoCommandsWait(i: string, q: string, one: string, j: string, p: string, two: string) returns (h: Hub)
    requires i != j && one != two
    ensures Reached(World(0, h, INITIAL_EDGE)) && h.owners == map[j := two][i := one] && 4 !in h.procs
    ensures Waits(h, 0, two, j, p) && Waits(h, 1, one, i, q)
  {
    TwoCommandsReached(i, q, one, j, p, two);
    Request1Ok(two, "k", j, p, 1);
    Request1Ok(one, "k", i, q, 1);
    h := TwoCommands(i, q, one, j, p, two);
  }

  /** The Runtime executes the other owner's command first; the second, under the same key, gets the
      first one's answer. */
  lemma BothExecuted(h: Hub, c: ConnectorId, s: Site, e: ConnectorId, t: Site, r: Runtime, one: string, two: string)
    returns (g: Edge)
    requires Reached(World(0, h, INITIAL_EDGE)) && c != e
    requires Waits(h, 0, two, t.installationId, t.runtimeId) && Waits(h, 1, one, s.installationId, s.runtimeId)
    ensures Reached(World(0, h, g)) && g.connectors.Keys == {c, e}
    ensures PlacedAt(g.connectors[c], s) && PlacedAt(g.connectors[e], t) && g.ran == {(s.host, r), (t.host, r)}
    ensures g.executions.Keys == {0, 1} && g.effects == [Effect(r, "k", 0)]
    ensures g.executions[0].message.commandId == 0
    ensures g.executions[1] == Execution(c, MessageFor(1, h.rows[1], 1), 0, Some(Answer(true, 0)), Some(r), None, 0)
  {
    JoinedTo(h, INITIAL_EDGE, e, t, r);
    var g0 := Hosting(Joined(INITIAL_EDGE, e, t), t.host, r);
    JoinedTo(h, g0, c, s, r);
    var g1 := Executed(0, h, Hosting(Joined(g0, c, s), s.host, r), e, MessageFor(0, h.rows[0], 1), 0);
    g := Executed(0, h, g1, c, MessageFor(1, h.rows[1], 1), 1);
  }

  lemma SecondSucceeds(h: Hub, g: Edge, c: ConnectorId, s: Site, r: Runtime, one: string) returns (w: World)
    requires Reached(World(0, h, g)) && Waits(h, 1, one, s.installationId, s.runtimeId) && 4 !in h.procs
    requires c in g.connectors && PlacedAt(g.connectors[c], s) && g.executions.Keys == {0, 1}
    requires g.executions[1] == Execution(c, MessageFor(1, h.rows[1], 1), 0, Some(Answer(true, 0)), Some(r), None, 0)
    ensures Reached(w) && InInstallation(w, 1, s.installationId) && w.hub.rows[1].status == Succeeded
    ensures w.hub.owners == h.owners && w.edge.effects == g.effects && w.edge.ran == g.ran
    ensures w.edge.connectors.Keys == g.connectors.Keys && w.edge.executions.Keys == g.executions.Keys
    ensures forall cid :: cid in g.connectors ==> SameConnector(g.connectors[cid], w.edge.connectors[cid])
    ensures ExecutionGrows(g.executions[0], w.edge.executions[0])
  {
    var h', g', ack := Reported1(0, h, g, 4, 1, Answer(true, 0));
    AckSucceeds(h, 1, ack, s, Answer(true, 0));
    w := World(0, h', g');
  }

  lemma ForeignEffectRun(d: Deployment, owners: map<string, string>, c: ConnectorId, e: ConnectorId, r: Runtime)
    returns (w: World)
    requires Answers(d, c, r) && Answers(d, e, r)
    requires !SameOwner(owners, d.sites[c].installationId, d.sites[e].installationId)
    ensures ReachedWith(w, d, owners) && InInstallation(w, 1, d.sites[c].installationId)
    ensures w.hub.rows[1].status == Succeeded && |w.edge.effects| == 1 && EffectOf(w, 0, 0)
  {
    var s, t := d.sites[c], d.sites[e];
    var one, two := owners[s.installationId], owners[t.installationId];
    var h := TwoCommandsWait(s.installationId, s.runtimeId, one, t.installationId, t.runtimeId, two);
    var g := BothExecuted(h, c, s, e, t, r, one, two);
    w := SecondSucceeds(h, g, c, s, r, one);
  }

  /** Exactly when every succeeded command of installation i was accepted for an effect of its own: when
      its Connectors share no Runtime with those of another owner's installation. */
  lemma OwnEffectIffOwnRuntimes(d: Deployment, owners: map<string, string>, i: string)
    ensures OwnRuntimes(d, owners, i) <==>
      forall w, id :: ReachedWith(w, d, owners) && InInstallation(w, id, i) && w.hub.rows[id].status == Succeeded ==>
        OwnEffect(w, id)
  {
    if OwnRuntimes(d, owners, i) {
      forall w, id | ReachedWith(w, d, owners) && InInstallation(w, id, i) && w.hub.rows[id].status == Succeeded
        ensures OwnEffect(w, id)
      {
        forall eid | Witness(w, id, eid)
          ensures EffectOn(w, id, w.edge.executions[eid].answeredBy.value)
        {
          var a := OwnRuntimesOwnEffect(d, owners, w, id, eid);
        }
      }
    } else {
      var c, e, r :| Serves(d, i, c, r) && Answers(d, e, r) && !SameOwner(owners, i, d.sites[e].installationId);
      var w := ForeignEffectRun(d, owners, c, e, r);
      NoOwnEffect(w);
      assert ReachedWith(w, d, owners) && InInstallation(w, 1, i) && !OwnEffect(w, 1);
    }
  }

  lemma SucceededWitness(w: World, id: CommandId)
    requires WorldInv(w) && id in w.hub.rows && w.hub.rows[id].status == Succeeded
    ensures exists eid :: Witness(w, id, eid)
  {
    assert RowOk(w.hub, id, w.hub.rows[id]);
    var ack :| ack in w.hub.received && Supports(ack, id, w.hub.rows[id]);
    AckWitness(w, id, ack);
  }

  lemma NoOwnEffect(w: World)
    requires Reached(w) && 1 in w.hub.rows && w.hub.rows[1].status == Succeeded
    requires |w.edge.effects| == 1 && EffectOf(w, 0, 0)
    ensures !OwnEffect(w, 1)
  {
    ReachedInv(w);
    SucceededWitness(w, 1);
    assert forall a: nat :: !EffectOf(w, a, 1);
  }
}
