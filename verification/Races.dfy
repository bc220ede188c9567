/** Runs that really happen: the exhaustion handler losing its compare-and-set, the status going back
    from `delivering` to `queued`, an acknowledgement completing a row past the transition table, and a
    repeated request being told that its key is reused. */
module Races {
  import opened Canonical
  import opened CommandPolicy
  import opened CommandTable
  import opened Delivery
  import opened Discipline
  import opened EdgeMachine
  import opened HubInvariants
  import opened HubMachine
  import opened Json
  import opened Reachable

  ghost predicate Usable(input: CreateInput, now: int, collation: Collation) {
    InputOk(input) && now < input.expiresAt && TotalPreorder(collation)
  }

  /** The Hub once the owner has an installation. */
  function Ready(input: CreateInput, collation: Collation): Hub {
    InitialHub(collation).(owners := map[input.wanted.installationId := input.ownerId])
  }

  lemma ReadyReached(now: int, input: CreateInput, collation: Collation)
    requires Usable(input, now, collation)
    ensures Reached(World(now, Ready(input, collation), INITIAL_EDGE))
  {
    Starts(now, collation);
    Installed(now, InitialHub(collation), INITIAL_EDGE, input.wanted.installationId, input.ownerId);
  }

  // ---------------------------------------------------------------- exhaustion

  const SLOW_WRITE := Setting(QueuedWrite(0), Finish)

  /** Command 0 is still created, k of its runs are counted, and process 0, the call that made it, has
      its `queued` write still to come. */
  ghost predicate Waiting(now: int, h: Hub, input: CreateInput, k: nat) {
    && Reached(World(now, h, INITIAL_EDGE))
    && h.rows == map[0 := NewRow(input)] && h.jobs == map[0 := Job(k, false)]
    && 0 in h.procs && h.procs[0] == Process(ApiCall(input, Some(Made(0))), SLOW_WRITE)
    && forall p :: p in h.procs ==> p <= k
  }

  lemma Waits(now: int, input: CreateInput, collation: Collation)
    requires Usable(input, now, collation)
    ensures Waiting(now, Made1(Ready(input, collation), 0, 0, input), input, 0)
  {
    ReadyReached(now, input, collation);
    Created1(now, Ready(input, collation), INITIAL_EDGE, 0, 0, input);
  }

  /** A run that finds the Connector offline is counted and changes nothing else. */
  function OfflineRun(h: Hub, k: nat): Hub {
    Put(h, k + 1, Process(JobRun(0, k + 1), Finished(Threw, true))).(jobs := map[0 := Job(k + 1, false)])
  }

  lemma FoundOffline(now: int, h: Hub, input: CreateInput, k: nat)
    requires Waiting(now, h, input, k) && k < MAX_ATTEMPTS && now < input.expiresAt
    ensures Reached(World(now, Put(h, k + 1, Process(JobRun(0, k + 1), Stop(Threw))), INITIAL_EDGE))
  {
    var n, role := k + 1, JobRun(0, k + 1);
    Begun(now, h, INITIAL_EDGE, n, 0);
    PutPut(h, n, Process(role, Deciding(h.rows[0])), Process(role, Stop(Threw)));
    HubExtends(now, Put(h, n, Process(role, Deciding(h.rows[0]))), INITIAL_EDGE, Decide(n, false), Put(h, n, Process(role, Stop(Threw))));
  }

  lemma CountedOffline(now: int, h: Hub, input: CreateInput, k: nat)
    requires Waiting(now, h, input, k) && k < MAX_ATTEMPTS && now < input.expiresAt
    ensures Waiting(now, OfflineRun(h, k), input, k + 1)
  {
    var n, role := k + 1, JobRun(0, k + 1);
    FoundOffline(now, h, input, k);
    PutPut(h, n, Process(role, Stop(Threw)), Process(role, Finished(Threw, true)));
    HubExtends(now, Put(h, n, Process(role, Stop(Threw))), INITIAL_EDGE, CountRun(n), OfflineRun(h, k));
  }

  lemma {:induction false} OfflineRuns(now: int, h: Hub, input: CreateInput, k: nat) returns (h': Hub)
    requires Waiting(now, h, input, k) && k <= MAX_ATTEMPTS && now < input.expiresAt
    ensures Waiting(now, h', input, MAX_ATTEMPTS)
    decreases MAX_ATTEMPTS - k
  {
    if k == MAX_ATTEMPTS {
      h' := h;
    } else {
      CountedOffline(now, h, input, k);
      h' := OfflineRuns(now, OfflineRun(h, k), input, k + 1);
    }
  }

  const HANDLER := 9
  const HANDLERS_WRITE := ExhaustedWrite(0, false)

  function Handling(h: Hub, pc: Pc): Hub {
    Put(h, HANDLER, Process(Exhaustion(0), pc))
  }

  lemma HandlerStarts(now: int, h: Hub, input: CreateInput)
    requires Waiting(now, h, input, MAX_ATTEMPTS) && now < input.expiresAt
    ensures Reached(World(now, Handling(h, Deciding(h.rows[0])), INITIAL_EDGE))
  {
    HubExtends(now, h, INITIAL_EDGE, StartExhaustion(HANDLER, 0), Handling(h, Reading));
    PutPut(h, HANDLER, Process(Exhaustion(0), Reading), Process(Exhaustion(0), Deciding(h.rows[0])));
    HubExtends(now, Handling(h, Reading), INITIAL_EDGE, GetCommand(HANDLER), Handling(h, Deciding(h.rows[0])));
  }

  lemma HandlerDecides(now: int, h: Hub, input: CreateInput)
    requires Waiting(now, h, input, MAX_ATTEMPTS) && now < input.expiresAt
    ensures Reached(World(now, Handling(h, Setting(HANDLERS_WRITE, Finish)), INITIAL_EDGE))
  {
    var h1, h2 := Handling(h, Deciding(h.rows[0])), Handling(h, Setting(HANDLERS_WRITE, Finish));
    HandlerStarts(now, h, input);
    PutPut(h, HANDLER, h1.procs[HANDLER], h2.procs[HANDLER]);
    HubExtends(now, h1, INITIAL_EDGE, Decide(HANDLER, true), h2);
  }

  /** Both writers have read `created`. */
  lemma BothHaveRead(now: int, h: Hub, input: CreateInput)
    requires Waiting(now, h, input, MAX_ATTEMPTS) && now < input.expiresAt
    ensures var h2 := Handling(h, Swapping(HANDLERS_WRITE, Created, Finish));
      Reached(World(now, Put(h2, 0, Process(h.procs[0].role, Swapping(QueuedWrite(0), Created, Finish))), INITIAL_EDGE))
  {
    HandlerDecides(now, h, input);
    var h1 := Handling(h, Setting(HANDLERS_WRITE, Finish));
    ReadOf(now, h1, INITIAL_EDGE, HANDLER);
    PutPut(h, HANDLER, h1.procs[HANDLER], Process(Exhaustion(0), Swapping(HANDLERS_WRITE, Created, Finish)));
    ReadOf(now, Handling(h, Swapping(HANDLERS_WRITE, Created, Finish)), INITIAL_EDGE, 0);
  }

  /** The two writes land in this order: the call's, which wins, and the handler's, which then loses. */
  ghost predicate LateWriteWins(w: World, input: CreateInput) {
    && 0 in w.hub.procs && w.hub.procs[0] == Process(ApiCall(input, Some(Made(0))), Swapping(QueuedWrite(0), Created, Finish))
    && HANDLER in w.hub.procs
    && w.hub.procs[HANDLER] == Process(Exhaustion(0), Swapping(HANDLERS_WRITE, Created, Finish))
    && w.hub.jobs == map[0 := Job(8, false)]
    && Enabled(w.hub, w.now, SwapStatus(0))
    && var h1 := Apply(w.hub, w.now, SwapStatus(0));
       && Enabled(h1, w.now, SwapStatus(HANDLER))
       && var h2 := Apply(h1, w.now, SwapStatus(HANDLER));
          && Reached(World(w.now, h2, w.edge))
          && HANDLER in h2.procs && h2.procs[HANDLER] == Process(Exhaustion(0), Stop(LostRace))
          && h2.rows == map[0 := NewRow(input).(status := Queued)]
  }

  lemma CallWrites(now: int, h: Hub, input: CreateInput)
    requires h.rows == map[0 := NewRow(input)] && 0 in h.procs && HANDLER in h.procs
    requires h.procs[0] == Process(ApiCall(input, Some(Made(0))), Swapping(QueuedWrite(0), Created, Finish))
    requires Reached(World(now, h, INITIAL_EDGE))
    ensures Enabled(h, now, SwapStatus(0))
    ensures var h1 := Apply(h, now, SwapStatus(0));
      && Reached(World(now, h1, INITIAL_EDGE)) && HANDLER in h1.procs && h1.procs[HANDLER] == h.procs[HANDLER]
      && h1.rows == map[0 := NewRow(input).(status := Queued)]
  {
    HubExtends(now, h, INITIAL_EDGE, SwapStatus(0), Apply(h, now, SwapStatus(0)));
  }

  lemma HandlerLoses(now: int, h: Hub, row: Row)
    requires h.rows == map[0 := row] && row.status == Queued && HANDLER in h.procs
    requires h.procs[HANDLER] == Process(Exhaustion(0), Swapping(HANDLERS_WRITE, Created, Finish))
    requires Reached(World(now, h, INITIAL_EDGE))
    ensures Enabled(h, now, SwapStatus(HANDLER))
    ensures var h2 := Apply(h, now, SwapStatus(HANDLER));
      && Reached(World(now, h2, INITIAL_EDGE)) && h2.rows == h.rows
      && HANDLER in h2.procs && h2.procs[HANDLER] == Process(Exhaustion(0), Stop(LostRace))
  {
    HubExtends(now, h, INITIAL_EDGE, SwapStatus(HANDLER), Apply(h, now, SwapStatus(HANDLER)));
  }

  lemma LateWriteLands(now: int, h: Hub, input: CreateInput)
    requires Reached(World(now, h, INITIAL_EDGE)) && h.rows == map[0 := NewRow(input)]
    requires h.jobs == map[0 := Job(MAX_ATTEMPTS, false)] && 0 in h.procs && HANDLER in h.procs
    requires h.procs[0] == Process(ApiCall(input, Some(Made(0))), Swapping(QueuedWrite(0), Created, Finish))
    requires h.procs[HANDLER] == Process(Exhaustion(0), Swapping(HANDLERS_WRITE, Created, Finish))
    ensures LateWriteWins(World(now, h, INITIAL_EDGE), input)
  {
    CallWrites(now, h, input);
    HandlerLoses(now, Apply(h, now, SwapStatus(0)), NewRow(input).(status := Queued));
  }

  /** The handler can fail: for every request there is a run in which all eight attempts are spent and
      the handler finishes with the command `queued`, because the write of the API call that made it
      landed between the handler's read and its write. */
  lemma ExhaustionCanLose(now: int, input: CreateInput, collation: Collation)
    requires Usable(input, now, collation)
    ensures exists w :: Reached(w) && LateWriteWins(w, input)
  {
    Waits(now, input, collation);
    var h := OfflineRuns(now, Made1(Ready(input, collation), 0, 0, input), input, 0);
    BothHaveRead(now, h, input);
    var h2 := Put(Handling(h, Swapping(HANDLERS_WRITE, Created, Finish)), 0,
                  Process(h.procs[0].role, Swapping(QueuedWrite(0), Created, Finish)));
    LateWriteLands(now, h2, input);
    assert Reached(World(now, h2, INITIAL_EDGE));
  }

  /** It can also fail by an exception: for every request there is a run in which the handler of the
      spent job has thrown and the command is as it was made. */
  lemma ExhaustionCanThrow(now: int, input: CreateInput, collation: Collation) returns (w: World)
    requires Usable(input, now, collation)
    ensures Reached(w) && w.hub.rows == map[0 := NewRow(input)] && w.hub.jobs == map[0 := Job(8, false)]
    ensures HANDLER in w.hub.procs && w.hub.procs[HANDLER] == Process(Exhaustion(0), Stop(Threw))
  {
    Waits(now, input, collation);
    var h := OfflineRuns(now, Made1(Ready(input, collation), 0, 0, input), input, 0);
    HandlerDecides(now, h, input);
    var h1, h2 := Handling(h, Setting(HANDLERS_WRITE, Finish)), Handling(h, Stop(Threw));
    PutPut(h, HANDLER, h1.procs[HANDLER], h2.procs[HANDLER]);
    HubExtends(now, h1, INITIAL_EDGE, Throw(HANDLER), h2);
    w := World(now, h2, INITIAL_EDGE);
  }

  // ---------------------------------------------------------------- back to queued

  /** The write of the API call that made the command takes it from `delivering` back to `queued`. */
  ghost predicate GoesBack(w: World, input: CreateInput) {
    && 0 in w.hub.procs && w.hub.procs[0] == Process(ApiCall(input, Some(Made(0))), Swapping(QueuedWrite(0), Delivering, Finish))
    && w.hub.rows == map[0 := NewRow(input).(status := Delivering)]
    && Enabled(w.hub, w.now, SwapStatus(0))
    && var h' := Apply(w.hub, w.now, SwapStatus(0));
       Reached(World(w.now, h', w.edge)) && h'.rows == map[0 := NewRow(input).(status := Queued)]
  }

  lemma LateReadReached(now: int, input: CreateInput, collation: Collation) returns (h: Hub)
    requires Usable(input, now, collation)
    ensures Reached(World(now, h, INITIAL_EDGE)) && h.rows == map[0 := NewRow(input).(status := Delivering)]
    ensures 0 in h.procs && h.procs[0] == Process(ApiCall(input, Some(Made(0))), Swapping(QueuedWrite(0), Delivering, Finish))
    ensures MessageFor(0, NewRow(input), 1) in h.messages && forall p :: p in h.procs ==> p <= 1
  {
    ReadyReached(now, input, collation);
    LaunchedBy(now, Ready(input, collation), INITIAL_EDGE, 0, 0, input);
    var h1 := Launched(Ready(input, collation), 0, 0, input);
    ReadOf(now, h1, INITIAL_EDGE, 0);
    h := Put(h1, 0, Process(ApiCall(input, Some(Made(0))), Swapping(QueuedWrite(0), Delivering, Finish)));
  }

  lemma WritesBack(now: int, h: Hub, input: CreateInput)
    requires Reached(World(now, h, INITIAL_EDGE)) && h.rows == map[0 := NewRow(input).(status := Delivering)]
    requires 0 in h.procs && h.procs[0] == Process(ApiCall(input, Some(Made(0))), Swapping(QueuedWrite(0), Delivering, Finish))
    ensures GoesBack(World(now, h, INITIAL_EDGE), input)
    ensures Apply(h, now, SwapStatus(0)).messages == h.messages
    ensures Apply(h, now, SwapStatus(0)).procs.Keys == h.procs.Keys
  {
    HubExtends(now, h, INITIAL_EDGE, SwapStatus(0), Apply(h, now, SwapStatus(0)));
  }

  /** The regression is real: for every request some run does this. */
  lemma DeliveringCanGoBack(now: int, input: CreateInput, collation: Collation)
    requires Usable(input, now, collation)
    ensures exists w :: Reached(w) && GoesBack(w, input)
  {
    var h := LateReadReached(now, input, collation);
    WritesBack(now, h, input);
    assert Reached(World(now, h, INITIAL_EDGE));
  }

  // ---------------------------------------------------------------- past the table

  /** An acknowledgement takes command 0 from `queued` to `succeeded`. */
  ghost predicate CompletesQueued(w: World, pid: ProcessId, ack: Ack) {
    && WorldEnabled(w, HubMove(ReceiveResult(pid, ack)))
    && PastTheTable(w.hub, ReceiveResult(pid, ack), 0)
    && var h' := Apply(w.hub, w.now, ReceiveResult(pid, ack));
       Reached(World(w.now, h', w.edge)) && 0 in h'.rows && h'.rows[0].status == Succeeded
  }

  lemma QueuedAgain(now: int, input: CreateInput, collation: Collation) returns (h: Hub)
    requires Usable(input, now, collation)
    ensures Reached(World(now, h, INITIAL_EDGE)) && h.rows == map[0 := NewRow(input).(status := Queued)]
    ensures MessageFor(0, NewRow(input), 1) in h.messages && 2 !in h.procs
  {
    var h1 := LateReadReached(now, input, collation);
    WritesBack(now, h1, input);
    h := Apply(h1, now, SwapStatus(0));
    assert 2 !in h1.procs.Keys;
  }

  /** A Connector with the command's own Runtime behind it has executed the command of that row. */
  lemma OwnRuntimeTook(now: int, input: CreateInput, h: Hub) returns (g: Edge)
    requires Reached(World(now, h, INITIAL_EDGE)) && h.rows == map[0 := NewRow(input).(status := Queued)]
    requires MessageFor(0, NewRow(input), 1) in h.messages && InputOk(input) && now < input.expiresAt
    ensures Reached(World(now, h, g)) && 0 in g.connectors && 0 in g.executions
    ensures g.connectors[0].installationId == input.wanted.installationId && g.connectors[0].runtimeId == input.wanted.runtimeId
    ensures g.executions[0] == Execution(0, MessageFor(0, NewRow(input), 1), now, Some(Answer(true, 0)),
                                         Some(Runtime(input.wanted.runtimeId, 0)), None, now)
  {
    var runtime := Runtime(input.wanted.runtimeId, 0);
    Connected(now, h, INITIAL_EDGE, 0, input.wanted.installationId, input.wanted.runtimeId, 0);
    var k := Connector(input.wanted.installationId, input.wanted.runtimeId, 0, map[], map[]);
    var g0 := INITIAL_EDGE.(connectors := INITIAL_EDGE.connectors[0 := k]);
    Hosted(now, h, g0, 0, runtime);
    g := Executed(now, h, g0.(running := g0.running[0 := runtime], ran := g0.ran + {(0, runtime)}), 0,
                  MessageFor(0, NewRow(input), 1), 0);
  }

  /** For every request some run completes the command, as succeeded, while it is `queued`. */
  lemma QueuedCanSucceed(now: int, input: CreateInput, collation: Collation)
    requires Usable(input, now, collation)
    ensures exists w, pid, ack :: Reached(w) && CompletesQueued(w, pid, ack)
  {
    var h := QueuedAgain(now, input, collation);
    var g := OwnRuntimeTook(now, input, h);
    var h', g', ack := Reported1(now, h, g, 2, 0, Answer(true, 0));
    assert Reached(World(now, h, g')) && CompletesQueued(World(now, h, g'), 2, ack);
  }

  // ---------------------------------------------------------------- the same request again

  /** Caller pid asked for exactly what row `id` of its key holds, and was told that the key is used for
      something else. */
  predicate MisjudgedIn(h: Hub, input: CreateInput, pid: ProcessId, id: CommandId) {
    && pid in h.procs && h.procs[pid].role == ApiCall(input, Some(KeyReused))
    && id in h.rows && SameKey(h.rows[id], input) && h.rows[id].request == RequestOf(input.wanted)
  }

  lemma NoTiesNoMisjudgement(w: World, input: CreateInput, pid: ProcessId, id: CommandId)
    requires Reached(w) && MisjudgedIn(w.hub, input, pid, id)
    ensures !NoTies(w.hub.collation, input.wanted.payload)
  {
    ReachedInv(w);
    assert ProcessOk(w.hub, w.hub.procs[pid]);
    var other :| other in w.hub.rows && SameKey(w.hub.rows[other], input) && Differs(w.hub, other, input);
    assert SameOwnerKey(w.hub.rows[other], w.hub.rows[id]);
  }

  /** The second of two callers with the same request has found the row that the first has made. */
  lemma LooksAgain(now: int, input: CreateInput, collation: Collation) returns (h: Hub)
    requires InputOk(input) && TotalPreorder(collation)
    ensures h == Put(Made1(Ready(input, collation), 0, 0, input), 1, Process(ApiCall(input, None), Looking))
    ensures Reached(World(now, h, INITIAL_EDGE))
  {
    Starts(now, collation);
    Installed(now, InitialHub(collation), INITIAL_EDGE, input.wanted.installationId, input.ownerId);
    Created1(now, Ready(input, collation), INITIAL_EDGE, 0, 0, input);
    var h1, asking := Made1(Ready(input, collation), 0, 0, input), ApiCall(input, None);
    Submitted(now, h1, INITIAL_EDGE, 1, input);
    h := Put(h1, 1, Process(asking, Looking));
    PutPut(h1, 1, Process(asking, Inserting), Process(asking, Looking));
    assert h1.rows[0] == NewRow(input) && KeyTaken(h1, input);
    HubExtends(now, Put(h1, 1, Process(asking, Inserting)), INITIAL_EDGE, InsertCommand(1, 1), h);
  }

  /** It compares with a payload that the `jsonb` column gives back with its keys in another order. */
  lemma AskedTwice(now: int, input: CreateInput, collation: Collation, stored: Json) returns (w: World)
    requires InputOk(input) && TotalPreorder(collation) && WellFormed(stored) && Meaning(stored) == Meaning(input.wanted.payload)
    requires CanonicalJson(collation, stored) != CanonicalJson(collation, input.wanted.payload)
    ensures Reached(w) && w.hub.collation == collation && MisjudgedIn(w.hub, input, 1, 0)
  {
    var h := LooksAgain(now, input, collation);
    assert h.procs[1] == Process(ApiCall(input, None), Looking) && h.rows[0] == NewRow(input);
    assert Judged(h, 1, 0, stored) == Different;
    var h' := Started(h, 1, ApiCall(input, Some(KeyReused)), Stop(Threw));
    HubExtends(now, h, INITIAL_EDGE, LookupExisting(1, 0, stored), h');
    w := World(now, h', INITIAL_EDGE);
  }

  /** Exactly when the same request is never told that its key is used for something else: when the
      collation of the host ties no keys of the payload. */
  lemma NeverMisjudgedIffNoTies(now: int, input: CreateInput, collation: Collation)
    requires InputOk(input) && TotalPreorder(collation)
    ensures NoTies(collation, input.wanted.payload) <==>
      forall w, pid, id :: Reached(w) && w.hub.collation == collation ==> !MisjudgedIn(w.hub, input, pid, id)
  {
    if NoTies(collation, input.wanted.payload) {
      forall w, pid, id | Reached(w) && w.hub.collation == collation
        ensures !MisjudgedIn(w.hub, input, pid, id)
      {
        if MisjudgedIn(w.hub, input, pid, id) {
          NoTiesNoMisjudgement(w, input, pid, id);
        }
      }
    } else {
      CanonicalInvariantIffNoTies(collation, input.wanted.payload);
      var stored :| WellFormed(stored) && Meaning(stored) == Meaning(input.wanted.payload)
                    && CanonicalJson(collation, stored) != CanonicalJson(collation, input.wanted.payload);
      var w := AskedTwice(now, input, collation, stored);
      assert Reached(w) && w.hub.collation == collation && MisjudgedIn(w.hub, input, 1, 0);
    }
  }
}
